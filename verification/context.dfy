/** The per-scan match context and the part of the scratch workspace the EOD
    stage resets before a streaming evaluation. */
module Context {
  import opened Wrappers
  import opened RoseTypes

  const U64_LIMIT: int := 0x1_0000_0000_0000_0000

  /** Unsigned 64-bit wrap-around, as the source's `u64a` arithmetic does. */
  function Wrap64(x: int): (r: nat)
    ensures r < U64_LIMIT
    ensures 0 <= x < U64_LIMIT ==> r == x
    ensures -U64_LIMIT <= x < 0 ==> r == x + U64_LIMIT
  {
    x % U64_LIMIT
  }

  /** Offset bookkeeping of one scan. `currAnchoredLoc` is `None` where the
      source stores the invalid multibit index. The user callbacks the source
      keeps here are the oracles of this model. */
  datatype RoseContext = RoseContext(
    groups: nat,
    litOffsetAdjust: nat,
    delayLastEndOffset: nat,
    lastEndOffset: nat,
    filledDelayedSlots: nat,
    lastMatchOffset: nat,
    minMatchOffset: nat,
    minNonMpvMatchOffset: nat,
    nextMpvOffset: nat,
    currAnchoredLoc: Option<nat>,
    currRowOffset: nat)

  /** The caller-owned workspace: the input description (`buffer`, and the
      stream offset `bufOffset` of the live buffer), the context, the size of
      the catch-up priority queue, the anchored-log summary, and the set of
      queues marked active during this scan. */
  datatype Scratch = Scratch(
    buffer: Buffer,
    bufOffset: nat,
    ctx: RoseContext,
    catchupQueued: nat,
    anchoredLogSum: nat,
    queuesActive: set<nat>)

  /** Bytes of stream history available (none in block mode). */
  function HistoryLength(b: Buffer): nat
  {
    match b
    case Block(_) => 0
    case Streaming(h) => |h|
  }

  /** A context that has seen nothing beyond `offset`: every watermark sits at
      `offset`, no delayed match is pending and no match has been reported. */
  predicate FreshAt(c: RoseContext, offset: nat)
  {
    && c.lastEndOffset == offset
    && c.delayLastEndOffset == offset
    && c.minMatchOffset == offset
    && c.minNonMpvMatchOffset == offset
    && c.nextMpvOffset == offset
    && c.filledDelayedSlots == 0
    && c.lastMatchOffset == 0
    && c.currAnchoredLoc.None?
    && c.currRowOffset == 0
  }

  /** The literal offset adjustment for streaming mode: the stream offset just
      past history byte 0, so history position `i` reports end offset
      `i + adjust`. */
  function LitOffsetAdjust(s: Scratch): (adj: nat)
    ensures adj < U64_LIMIT
  {
    Wrap64(s.bufOffset - HistoryLength(s.buffer) + 1)
  }

  /** Resets the context for an EOD evaluation at `offset`, loading the group
      mask `storedGroups` from stream state. The input description is left as
      it is. */
  function InitContext(storedGroups: nat, offset: nat, s: Scratch): (r: Scratch)
    ensures FreshAt(r.ctx, offset)
    ensures r.ctx.groups == storedGroups
    ensures r.ctx.litOffsetAdjust == LitOffsetAdjust(s)
    ensures r.catchupQueued == 0 && r.anchoredLogSum == 0 && r.queuesActive == {}
    ensures r.buffer == s.buffer && r.bufOffset == s.bufOffset
  {
    Scratch(
      s.buffer,
      s.bufOffset,
      RoseContext(
        storedGroups,
        LitOffsetAdjust(s),
        offset,
        offset,
        0,
        0,
        offset,
        offset,
        offset,
        None,
        0),
      0,
      0,
      {})
  }

  /** The reset forgets everything the previous scan left in the context:
      two workspaces that describe the same input reset to the same one. */
  lemma InitContextForgetsPrevious(storedGroups: nat, offset: nat, s1: Scratch, s2: Scratch)
    requires s1.buffer == s2.buffer && s1.bufOffset == s2.bufOffset
    ensures InitContext(storedGroups, offset, s1) == InitContext(storedGroups, offset, s2)
  {
  }

  /** With a history that really precedes the live buffer, history byte `i`
      ends at stream offset `bufOffset - hlen + i + 1`, which is what the
      adjustment yields. */
  lemma LitOffsetAdjustLocatesHistory(s: Scratch, i: nat)
    requires s.buffer.Streaming?
    requires HistoryLength(s.buffer) <= s.bufOffset < U64_LIMIT - 1
    requires i < HistoryLength(s.buffer)
    ensures LitOffsetAdjust(s) + i == s.bufOffset - HistoryLength(s.buffer) + i + 1
    ensures LitOffsetAdjust(s) + i <= s.bufOffset
  {
  }
}
