/** The end-of-data orchestrator: the steps that may produce matches once no
    more input will arrive, the shared driver that sequences them under the
    halt protocol, and the block-mode and streaming-mode entry points. */
module Eod {
  import opened Wrappers
  import opened RoseTypes
  import opened Multibit
  import opened Trace
  import opened Context

  /** Everything a step may consult: the compiled engine, the input shape, the
      current offset, the match context and the collaborators. */
  datatype Env = Env(cfg: Engine, buffer: Buffer, offset: nat, ctx: RoseContext, o: Oracles)

  /** The result of an entry point: the workspace, the bitmaps left in stream
      state, the steps taken and the final control result. */
  datatype EodResult = EodResult(scratch: Scratch, markers: Markers, trace: seq<Event>, ctl: Ctl)

  /** The bytes the end-anchored matcher scans: the block, or the history. */
  function ScanData(b: Buffer): seq<u8>
  {
    match b
    case Block(data) => data
    case Streaming(history) => history
  }

  /** The trailing-context byte used to decompress engine state: the last
      history byte, or 0 when there is none. Block mode never uses it. */
  function DecompressKey(b: Buffer): u8
  {
    match b
    case Block(_) => 0
    case Streaming(history) => if |history| > 0 then history[|history| - 1] else 0
  }

  /** Length of the live buffer; at stream EOD there is none. */
  function LiveLength(b: Buffer): nat
  {
    match b
    case Block(data) => |data|
    case Streaming(_) => 0
  }

  /** Where the anchored scan starts so that only the trailing
      `min(len, regionSize)` bytes are looked at. */
  function AnchoredStart(len: nat, regionSize: Width): (adj: nat)
    ensures adj <= len
    ensures len - adj <= regionSize
    ensures adj == 0 || len - adj == regionSize
  {
    len - (if len < regionSize then len else regionSize)
  }

  /** What the shared driver's steps assert on entry: no delayed literal is
      pending when the unconditional program runs, and the anchored matcher
      is never handed an empty buffer. */
  predicate EnvOk(env: Env)
  {
    && (env.cfg.eodProgram.Some? ==> env.ctx.filledDelayedSlots == 0)
    && (env.cfg.ematcher.Some? ==> |ScanData(env.buffer)| > 0)
  }

  /** Runs the unconditional EOD program, if there is one. */
  function RunEodProgram(env: Env, m: Markers): (r: Stage)
    requires env.cfg.eodProgram.Some? ==> env.ctx.filledDelayedSlots == 0
    ensures HaltIsFinal(r) && RanksIn(r.trace, 1, 1)
    ensures env.cfg.eodProgram.None? ==> r == Stage([], m, Continue)
    ensures env.cfg.eodProgram.Some? ==>
      var e := env.o.program(env.cfg.eodProgram.value, env.offset, m);
      && |r.trace| == 1 && r.trace[0].step == EodProgram(env.cfg.eodProgram.value)
      && (r.ctl == Halt <==> e.ctl == Halt) && r.markers == e.markers
  {
    match env.cfg.eodProgram
    case None => Stage([], m, Continue)
    case Some(p) =>
      var e := env.o.program(p, env.offset, m);
      Stage([Event(EodProgram(p), e.ctl == Halt)], e.markers, e.ctl)
  }

  /** Runs the report-delivery (iterator) program, if there is one. */
  function RunIterator(env: Env, pass: Pass, m: Markers): (r: Stage)
    ensures HaltIsFinal(r) && RanksIn(r.trace, Rank(IterProgram(0, pass)), Rank(IterProgram(0, pass)))
    ensures env.cfg.eodIterProgram.None? ==> r == Stage([], m, Continue)
    ensures env.cfg.eodIterProgram.Some? ==>
      var e := env.o.program(env.cfg.eodIterProgram.value, env.offset, m);
      && |r.trace| == 1 && r.trace[0].step == IterProgram(env.cfg.eodIterProgram.value, pass)
      && (r.ctl == Halt <==> e.ctl == Halt) && r.markers == e.markers
  {
    match env.cfg.eodIterProgram
    case None => Stage([], m, Continue)
    case Some(p) =>
      var e := env.o.program(p, env.offset, m);
      Stage([Event(IterProgram(p, pass), e.ctl == Halt)], e.markers, e.ctl)
  }

  /** One engine's turn in the EOD accept check: in streaming mode its state
      is decompressed with `key`, then the accept state is checked. */
  function NfaVisit(q: nat, streaming: bool, key: u8, halted: bool): (v: seq<Event>)
    ensures |v| > 0 && v[|v| - 1] == Event(NfaFinalState(q), halted)
    ensures forall i :: 0 <= i < |v| - 1 ==> v[i] == Event(ExpandState(q, key), false)
    ensures |v| == if streaming then 2 else 1
  {
    (if streaming then [Event(ExpandState(q, key), false)] else []) + [Event(NfaFinalState(q), halted)]
  }

  /** The EOD accept check over `qs`, stopping at the first halt. In
      streaming mode each engine's state is first decompressed with `key`.
      The bitmaps are only passed through. */
  function NfaLoop(qs: seq<nat>, streaming: bool, key: u8, offset: nat, o: Oracles, m: Markers): (r: Stage)
    ensures r.markers == m
    ensures HaltIsFinal(r) && RanksIn(r.trace, 2, 2)
    decreases |qs|
  {
    if |qs| == 0 then Stage([], m, Continue)
    else
      var q := qs[0];
      var c := o.checkFinal(AtEodCheck, q, offset);
      var visit := NfaVisit(q, streaming, key, c == Halt);
      if c == Halt then Stage(visit, m, Halt)
      else
        var rest := NfaLoop(qs[1..], streaming, key, offset, o, m);
        Stage(visit + rest.trace, m, rest.ctl)
  }

  /** Checks every active engine that can accept at EOD, in ascending queue
      order, if the engine has any such engines at all. */
  function CheckNfaEod(env: Env, m: Markers): (r: Stage)
    ensures r.markers == m
    ensures HaltIsFinal(r) && RanksIn(r.trace, 2, 2)
  {
    match env.cfg.eodNfaMask
    case None => Stage([], m, Continue)
    case Some(mask) =>
      var qs := SparseMembers(mask, m.active, env.cfg.activeArrayCount);
      NfaLoop(qs, env.buffer.Streaming?, DecompressKey(env.buffer), env.offset, env.o, m)
  }

  /** Empties the role and active bitmaps so that nothing finalised so far
      can fire again because of the anchored scan. */
  function ResetMarkers(m: Markers): (r: Stage)
    ensures r.markers.roles == {} && r.markers.active == {}
    ensures HaltIsFinal(r) && RanksIn(r.trace, 4, 4) && r.ctl == Continue && |r.trace| == 1
  {
    Stage([Event(ClearMarkers, false)], Markers({}, {}), Continue)
  }

  /** Runs the end-anchored literal matcher over the trailing window of the
      selected buffer, then fires the matches it delayed. Too short an input
      cannot match, so nothing is scanned and the pipeline carries on. */
  function RunMatcher(env: Env, m: Markers): (r: Stage)
    requires env.cfg.ematcher.Some?
    requires |ScanData(env.buffer)| > 0
    ensures HaltIsFinal(r) && RanksIn(r.trace, 5, 5)
    ensures |ScanData(env.buffer)| < env.cfg.ematcher.value.minWidth ==> r == Stage([], m, Continue)
    ensures |ScanData(env.buffer)| >= env.cfg.ematcher.value.minWidth ==>
              && |r.trace| == 2
              && r.trace[0].step.LiteralScan?
              && r.trace[0].step.len == |ScanData(env.buffer)|
              && r.trace[0].step.start <= r.trace[0].step.len
              && r.trace[0].step.len - r.trace[0].step.start
                 == (if r.trace[0].step.len < env.cfg.ematcher.value.regionSize
                     then r.trace[0].step.len else env.cfg.ematcher.value.regionSize)
              && r.trace[1].step == CleanUpDelayed
    ensures |ScanData(env.buffer)| >= env.cfg.ematcher.value.minWidth ==>
              var data := ScanData(env.buffer);
              var scanned := env.o.literalScan(data, AnchoredStart(|data|, env.cfg.ematcher.value.regionSize), env.ctx.groups, m);
              var e := env.o.cleanUpDelayed(env.offset, scanned);
              && (r.ctl == Halt <==> e.ctl == Halt)
              && (r.trace[1].halted <==> e.ctl == Halt)
              && r.markers == e.markers
  {
    var data := ScanData(env.buffer);
    var em := env.cfg.ematcher.value;
    if |data| < em.minWidth then Stage([], m, Continue)
    else
      var adj := AnchoredStart(|data|, em.regionSize);
      var scanned := env.o.literalScan(data, adj, env.ctx.groups, m);
      var e := env.o.cleanUpDelayed(env.offset, scanned);
      Stage([Event(LiteralScan(adj, |data|), false), Event(CleanUpDelayed, e.ctl == Halt)], e.markers, e.ctl)
  }

  /** Brings last-byte history up to date after the anchored scan. */
  function FlushAfterMatcher(env: Env, m: Markers): (r: Stage)
    ensures HaltIsFinal(r) && r.ctl == Continue
    ensures |r.trace| == 1 && r.trace[0].step == FlushHistory(env.offset)
    ensures r.markers == env.o.flushHistory(env.offset, m)
  {
    Stage([Event(FlushHistory(env.offset), false)], env.o.flushHistory(env.offset, m), Continue)
  }

  /** One engine's turn in the suffix check: its queue is run to `end`, and
      only if the engine is still alive is its accept state queried. */
  function SuffixVisit(q: nat, end: nat, alive: bool, halted: bool): (v: seq<Event>)
    ensures |v| == if alive then 2 else 1
    ensures v[0] == Event(QueueExec(q, end, alive), false)
    ensures alive ==> v[1] == Event(SuffixFinalState(q), halted)
  {
    [Event(QueueExec(q, end, alive), false)] + (if alive then [Event(SuffixFinalState(q), halted)] else [])
  }

  /** Runs each engine in `qs` to the end of the buffer and, if it is still
      alive, checks whether it accepts, stopping at the first halt. */
  function SuffixLoop(qs: seq<nat>, end: nat, offset: nat, o: Oracles, m: Markers): (r: Stage)
    ensures r.markers == m
    ensures HaltIsFinal(r) && RanksIn(r.trace, 8, 8)
    decreases |qs|
  {
    if |qs| == 0 then Stage([], m, Continue)
    else
      var q := qs[0];
      var alive := o.queueExec(q, end);
      var halted := alive && o.checkFinal(AfterQueueRun, q, offset) == Halt;
      var visit := SuffixVisit(q, end, alive, halted);
      if halted then Stage(visit, m, Halt)
      else
        var rest := SuffixLoop(qs[1..], end, offset, o, m);
        Stage(visit + rest.trace, m, rest.ctl)
  }

  /** Finalises the engines the anchored scan left active, in ascending queue
      order. */
  function CheckEodSuffixes(env: Env, m: Markers): (r: Stage)
    ensures r.markers == m
    ensures HaltIsFinal(r) && RanksIn(r.trace, 8, 8)
  {
    SuffixLoop(Members(m.active, 0, env.cfg.activeArrayCount), LiveLength(env.buffer), env.offset, env.o, m)
  }

  /** The shared driver: the unconditional EOD program, then the rest unless
      it halted. Every run keeps the halt protocol (nothing follows a halt,
      and the driver answers Halt exactly when its last step did) and the
      pipeline order; without an anchored matcher nothing after the first
      report-delivery run ever happens. */
  function EodExecI(env: Env, m: Markers): (r: Stage)
    requires EnvOk(env)
    ensures WellFormed(r, 1, MaxRank)
    ensures env.cfg.ematcher.None? ==> RanksIn(r.trace, 1, 3)
  {
    var s := RunEodProgram(env, m);
    SinglePhase(s, 1);
    if s.ctl == Halt then s
    else
      var a := AfterEodProgram(env, s.markers);
      AfterEodProgramWellFormed(env, s.markers);
      ProgramThenRest(s, a, env.cfg.ematcher.None?);
      Append(s, a)
  }

  /** The unconditional program that carried on, followed by the rest of
      the pipeline, keeps the halt protocol and the order; when the rest
      stops at the first report-delivery run, so does the whole. */
  lemma ProgramThenRest(s: Stage, a: Stage, early: bool)
    requires WellFormed(s, 1, 1) && s.ctl == Continue && WellFormed(a, 2, MaxRank)
    requires early ==> RanksIn(a.trace, 2, 3)
    ensures WellFormed(Append(s, a), 1, MaxRank)
    ensures early ==> RanksIn(Append(s, a).trace, 1, 3)
  {
    AppendWellFormed(s, a, 1, 2, MaxRank);
    if early {
      AppendKeepsOrder(s.trace, a.trace, 1);
    }
  }

  /** The check of active EOD-capable engines; the driver stops there if it
      halted or if there is neither a report-delivery program nor an anchored
      matcher. */
  function AfterEodProgram(env: Env, m: Markers): Stage
    requires EnvOk(env)
  {
    var s := CheckNfaEod(env, m);
    if s.ctl == Halt then s
    else if env.cfg.eodIterProgram.None? && env.cfg.ematcher.None? then s
    else Append(s, DeliverReports(env, s.markers))
  }

  lemma AfterEodProgramWellFormed(env: Env, m: Markers)
    requires EnvOk(env)
    ensures WellFormed(AfterEodProgram(env, m), 2, MaxRank)
    ensures env.cfg.ematcher.None? ==> RanksIn(AfterEodProgram(env, m).trace, 2, 3)
  {
    var s := CheckNfaEod(env, m);
    SinglePhase(s, 2);
    if s.ctl == Continue && !(env.cfg.eodIterProgram.None? && env.cfg.ematcher.None?) {
      var d := DeliverReports(env, s.markers);
      DeliverReportsWellFormed(env, s.markers);
      AppendWellFormed(s, d, 2, 3, MaxRank);
      if env.cfg.ematcher.None? {
        AppendKeepsOrder(s.trace, d.trace, 2);
      }
    }
  }

  /** The first report-delivery run, then the anchored phase when an anchored
      matcher is configured. */
  function DeliverReports(env: Env, m: Markers): Stage
    requires EnvOk(env)
  {
    var s := RunIterator(env, First, m);
    if s.ctl == Halt then s
    else if env.cfg.ematcher.None? then s
    else Append(s, AnchoredPhase(env, s.markers))
  }

  lemma DeliverReportsWellFormed(env: Env, m: Markers)
    requires EnvOk(env)
    ensures WellFormed(DeliverReports(env, m), 3, MaxRank)
    ensures env.cfg.ematcher.None? ==> RanksIn(DeliverReports(env, m).trace, 3, 3)
  {
    var s := RunIterator(env, First, m);
    SinglePhase(s, 3);
    if s.ctl == Continue && env.cfg.ematcher.Some? {
      AnchoredPhaseWellFormed(env, s.markers);
      AppendWellFormed(s, AnchoredPhase(env, s.markers), 3, 4, MaxRank);
    }
  }

  /** The explicit transition "engines finalised -> markers reset -> anchored
      scan": the bitmaps are emptied before the scan starts. */
  function AnchoredPhase(env: Env, m: Markers): Stage
    requires EnvOk(env) && env.cfg.ematcher.Some?
  {
    var s := ResetMarkers(m);
    Append(s, ScanAndFinish(env, s.markers))
  }

  lemma AnchoredPhaseWellFormed(env: Env, m: Markers)
    requires EnvOk(env) && env.cfg.ematcher.Some?
    ensures WellFormed(AnchoredPhase(env, m), 4, MaxRank)
  {
    var s := ResetMarkers(m);
    SinglePhase(s, 4);
    ScanAndFinishWellFormed(env, s.markers);
    AppendWellFormed(s, ScanAndFinish(env, s.markers), 4, 5, MaxRank);
  }

  /** The anchored scan, then (unless it halted) the history flush, the
      second report-delivery run and the suffix engines. */
  function ScanAndFinish(env: Env, m: Markers): Stage
    requires EnvOk(env) && env.cfg.ematcher.Some?
  {
    var s := RunMatcher(env, m);
    if s.ctl == Halt then s
    else
      var f := FlushAfterMatcher(env, s.markers);
      Append(s, Append(f, FinishAfterFlush(env, f.markers)))
  }

  lemma ScanAndFinishWellFormed(env: Env, m: Markers)
    requires EnvOk(env) && env.cfg.ematcher.Some?
    ensures WellFormed(ScanAndFinish(env, m), 5, MaxRank)
  {
    var s := RunMatcher(env, m);
    SinglePhase(s, 5);
    if s.ctl == Continue {
      var f := FlushAfterMatcher(env, s.markers);
      SinglePhase(f, 6);
      var fin := FinishAfterFlush(env, f.markers);
      FinishAfterFlushWellFormed(env, f.markers);
      AppendWellFormed(f, fin, 6, 7, MaxRank);
      AppendWellFormed(s, Append(f, fin), 5, 6, MaxRank);
    }
  }

  /** The second report-delivery run, then (unless it halted) the suffix
      engines. */
  function FinishAfterFlush(env: Env, m: Markers): Stage
  {
    var s := RunIterator(env, Second, m);
    if s.ctl == Halt then s
    else Append(s, CheckEodSuffixes(env, s.markers))
  }

  lemma FinishAfterFlushWellFormed(env: Env, m: Markers)
    ensures WellFormed(FinishAfterFlush(env, m), 7, MaxRank)
  {
    var s := RunIterator(env, Second, m);
    SinglePhase(s, 7);
    if s.ctl == Continue {
      var x := CheckEodSuffixes(env, s.markers);
      SinglePhase(x, 8);
      AppendWellFormed(s, x, 7, 8, MaxRank);
    }
  }

  /** The maximum bound on end-anchored match width is finite and already
      exceeded, so the stored history and state may be stale. */
  predicate BeyondBound(cfg: Engine, offset: nat)
  {
    cfg.maxBiAnchoredWidth.Some? && offset > cfg.maxBiAnchoredWidth.value
  }

  /** The steps and control result of an entry point, as a stage. */
  function AsStage(r: EodResult): Stage
  {
    Stage(r.trace, r.markers, r.ctl)
  }

  /** Streaming-mode entry, run when a stream is closed. Beyond a finite
      width bound it does nothing: workspace and bitmaps come back untouched,
      no step runs and matching continues. Otherwise the context is reset at
      `offset` (every watermark at `offset`, nothing pending, the stored
      groups loaded, literal offsets adjusted to the history) and the driver
      runs over the history under the halt protocol and pipeline order; no
      history preparation belongs to stream mode. */
  function StreamEodExec(cfg: Engine, offset: nat, s: Scratch, storedGroups: nat, m: Markers, o: Oracles): (r: EodResult)
    requires cfg.requiresEodCheck
    requires s.buffer.Streaming?
    requires !BeyondBound(cfg, offset) && cfg.ematcher.Some? ==> |s.buffer.history| > 0
    ensures BeyondBound(cfg, offset) ==> r == EodResult(s, m, [], Continue)
    ensures !BeyondBound(cfg, offset) ==>
      && FreshAt(r.scratch.ctx, offset)
      && r.scratch.ctx.groups == storedGroups
      && r.scratch.ctx.litOffsetAdjust == LitOffsetAdjust(s)
      && r.scratch.buffer == s.buffer && r.scratch.bufOffset == s.bufOffset
      && WellFormed(AsStage(r), 1, MaxRank)
  {
    if BeyondBound(cfg, offset) then EodResult(s, m, [], Continue)
    else
      var s1 := InitContext(storedGroups, offset, s);
      var st := EodExecI(Env(cfg, s.buffer, offset, s1.ctx, o), m);
      EodResult(s1, st.markers, st.trace, st.ctl)
  }

  /** Block-mode entry. It opens with the flush of last-byte history for the
      whole block, exactly once and before anything else, and records the
      block end as the last processed offset, leaving the rest of the
      workspace as it was; the steps that follow keep the halt protocol and
      the pipeline order. */
  function BlockEodExec(cfg: Engine, offset: nat, s: Scratch, m: Markers, o: Oracles): (r: EodResult)
    requires cfg.requiresEodCheck
    requires !BeyondBound(cfg, offset)
    requires s.buffer.Block?
    requires cfg.eodProgram.Some? ==> s.ctx.filledDelayedSlots == 0
    requires cfg.ematcher.Some? ==> |s.buffer.data| > 0
    ensures |r.trace| > 0 && r.trace[0] == Event(PrepareHistory(|s.buffer.data|), false)
    ensures forall i :: 1 <= i < |r.trace| ==> !r.trace[i].step.PrepareHistory?
    ensures r.scratch == s.(ctx := s.ctx.(lastEndOffset := |s.buffer.data|))
    ensures WellFormed(AsStage(r), 0, MaxRank)
  {
    var len := |s.buffer.data|;
    var s1 := s.(ctx := s.ctx.(lastEndOffset := len));
    var m1 := o.flushHistory(len, m);
    var st := EodExecI(Env(cfg, s.buffer, offset, s1.ctx, o), m1);
    var p := Stage([Event(PrepareHistory(len), false)], m1, Continue);
    AppendWellFormed(p, st, 0, 1, MaxRank);
    EodResult(s1, st.markers, [Event(PrepareHistory(len), false)] + st.trace, st.ctl)
  }
}
