/** Vocabulary shared by the end-of-data (EOD) stage of the Rose engine: bytes,
    the halt protocol, the two buffer shapes, the EOD-relevant part of the
    compiled engine header, the role/active marker bitmaps, and the external
    collaborators, which appear as oracle functions. */
module RoseTypes {
  import opened Wrappers

  newtype u8 = x: int | 0 <= x < 256

  /** The control result every step hands back to the orchestrator: keep
      matching, or stop because a callback asked to. Both the MO_ and the HWLM_
      flavours of the source map onto it. */
  datatype Ctl = Continue | Halt

  /** Exactly one input shape per evaluation: the whole block in block mode, or
      the history bytes carried over from the stream in streaming mode (the
      live buffer is absent when a stream is closed). */
  datatype Buffer = Block(data: seq<u8>) | Streaming(history: seq<u8>)

  /** A region size the compiler never leaves at zero. */
  type Width = x: nat | x > 0 witness 1

  /** The end-anchored literal matcher: it can only match inputs of at least
      `minWidth` bytes and only ever needs the trailing `regionSize` bytes. */
  datatype AnchoredMatcher = AnchoredMatcher(minWidth: nat, regionSize: Width)

  /** The EOD-relevant part of the compiled engine. Each optional component is
      `None` where the engine stores a zero offset (or, for the width bound,
      the infinite bound). `eodNfaMask` is the set of queue indices the
      EOD sparse iterator ranges over (engines that can accept at EOD). */
  datatype Engine = Engine(
    requiresEodCheck: bool,
    maxBiAnchoredWidth: Option<nat>,
    ematcher: Option<AnchoredMatcher>,
    eodProgram: Option<nat>,
    eodIterProgram: Option<nat>,
    eodNfaMask: Option<set<nat>>,
    activeArrayCount: nat)

  /** The two bitmaps kept in stream state that this stage reads and clears:
      the role state and the active-leaf array (live sub-engines by queue). */
  datatype Markers = Markers(roles: set<nat>, active: set<nat>)

  /** Where an engine is asked whether it accepts at EOD: at the check of
      engines already active (after its stream state is decompressed), or
      after its queue was run to the end of the buffer in the suffix check.
      The engine's state differs between the two, and so may its answer. */
  datatype CheckSite = AtEodCheck | AfterQueueRun

  /** What a collaborator that can touch the stream state hands back. */
  datatype Effect = Effect(ctl: Ctl, markers: Markers)

  /** The external collaborators, whose internals are not part of this model.
      - `program(id, offset, markers)`: the Rose program interpreter run at
        `offset` with zero match length;
      - `literalScan(data, start, groups, markers)`: the literal matcher over
        `data[start..]`, delivering matches through the role callback (its
        own return value is discarded by the caller);
      - `cleanUpDelayed(offset, markers)`: firing the matches the scan delayed;
      - `flushHistory(offset, markers)`: bringing last-byte history up to date;
      - `checkFinal(site, queue, offset)`: asking one engine, at `site`,
        whether it accepts at EOD, forwarding its reports to the user
        callbacks;
      - `queueExec(queue, end)`: pushing an end event onto one engine's queue
        and running it without merging, answering whether it is still alive. */
  datatype Oracles = Oracles(
    program: (nat, nat, Markers) -> Effect,
    literalScan: (seq<u8>, nat, nat, Markers) -> Markers,
    cleanUpDelayed: (nat, Markers) -> Effect,
    flushHistory: (nat, Markers) -> Markers,
    checkFinal: (CheckSite, nat, nat) -> Ctl,
    queueExec: (nat, nat) -> bool)
}
