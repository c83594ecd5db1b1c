/** The observable record of one EOD evaluation: which steps ran, in which
    order, and which one (if any) was told to halt. */
module Trace {
  import opened RoseTypes

  /** Which of the two report-delivery (iterator) program runs an event
      belongs to: the one before the anchored scan or the one after it. */
  datatype Pass = First | Second

  /** One step the orchestrator performed. */
  datatype Step =
    | PrepareHistory(length: nat)                   // prepForEod, block mode only
    | EodProgram(program: nat)                      // unconditional EOD program
    | ExpandState(queue: nat, key: u8)              // decompress one engine's stream state
    | NfaFinalState(queue: nat)                     // EOD accept check of an active engine
    | IterProgram(program: nat, pass: Pass)         // report-delivery program
    | ClearMarkers                                  // role and active bitmaps emptied
    | LiteralScan(start: nat, len: nat)             // end-anchored literal scan of data[start..len]
    | CleanUpDelayed                                // delayed matches of that scan fired
    | FlushHistory(offset: nat)                     // last-byte history flushed after the scan
    | QueueExec(queue: nat, end: nat, alive: bool)  // suffix engine run to the end of the buffer
    | SuffixFinalState(queue: nat)                  // EOD accept check of a suffix engine

  /** A step together with whether its collaborator answered "halt". */
  datatype Event = Event(step: Step, halted: bool)

  /** The outcome of a run of steps: what happened, the bitmaps left behind,
      and the control result handed back to the caller. */
  datatype Stage = Stage(trace: seq<Event>, markers: Markers, ctl: Ctl)

  const MaxRank: nat := 8

  /** The position of a step's phase in the fixed EOD pipeline. */
  function Rank(s: Step): nat
  {
    match s
    case PrepareHistory(_) => 0
    case EodProgram(_) => 1
    case ExpandState(_, _) => 2
    case NfaFinalState(_) => 2
    case IterProgram(_, pass) => if pass == First then 3 else 7
    case ClearMarkers => 4
    case LiteralScan(_, _) => 5
    case CleanUpDelayed => 5
    case FlushHistory(_) => 6
    case QueueExec(_, _, _) => 8
    case SuffixFinalState(_) => 8
  }

  /** A halt is always the last thing that happens, and the stage reports
      Halt exactly when its last event was a halt. */
  predicate HaltIsFinal(s: Stage)
  {
    && (forall i :: 0 <= i < |s.trace| - 1 ==> !s.trace[i].halted)
    && (s.ctl == Halt <==> |s.trace| > 0 && s.trace[|s.trace| - 1].halted)
  }

  /** Events appear in pipeline order. */
  predicate Ordered(t: seq<Event>)
  {
    forall i, j :: 0 <= i < j < |t| ==> Rank(t[i].step) <= Rank(t[j].step)
  }

  /** Every event belongs to a phase ranked between `lo` and `hi`. */
  predicate RanksIn(t: seq<Event>, lo: nat, hi: nat)
  {
    forall i :: 0 <= i < |t| ==> lo <= Rank(t[i].step) <= hi
  }

  /** Running `b` after `a` (which the caller has seen continue). */
  function Append(a: Stage, b: Stage): Stage
  {
    Stage(a.trace + b.trace, b.markers, b.ctl)
  }

  lemma AppendKeepsHaltFinal(a: Stage, b: Stage)
    requires HaltIsFinal(a) && a.ctl == Continue && HaltIsFinal(b)
    ensures HaltIsFinal(Append(a, b))
  {
    var t := a.trace + b.trace;
    forall i | 0 <= i < |t| - 1
      ensures !t[i].halted
    {
      if i < |a.trace| {
        assert t[i] == a.trace[i];
      } else {
        assert t[i] == b.trace[i - |a.trace|];
      }
    }
    if |b.trace| == 0 {
      assert t == a.trace;
    } else {
      assert t[|t| - 1] == b.trace[|b.trace| - 1];
    }
  }

  lemma AppendKeepsOrder(a: seq<Event>, b: seq<Event>, k: nat)
    requires Ordered(a) && RanksIn(a, 0, k)
    requires Ordered(b) && RanksIn(b, k, MaxRank)
    ensures Ordered(a + b)
    ensures forall lo, hi :: RanksIn(a, lo, hi) && RanksIn(b, lo, hi) ==> RanksIn(a + b, lo, hi)
  {
    var t := a + b;
    forall i, j | 0 <= i < j < |t|
      ensures Rank(t[i].step) <= Rank(t[j].step)
    {
      if j < |a| {
        assert t[i] == a[i] && t[j] == a[j];
      } else if i >= |a| {
        assert t[i] == b[i - |a|] && t[j] == b[j - |a|];
      } else {
        assert t[i] == a[i] && t[j] == b[j - |a|];
      }
    }
  }

  /** A stage that carried on has no halted event at all. */
  lemma ContinuedMeansNoHalt(s: Stage)
    requires HaltIsFinal(s) && s.ctl == Continue
    ensures forall i :: 0 <= i < |s.trace| ==> !s.trace[i].halted
  {
  }

  /** A stage that keeps the halt protocol and whose events lie, in order,
      within phases `lo` to `hi`. */
  predicate WellFormed(s: Stage, lo: nat, hi: nat)
  {
    HaltIsFinal(s) && Ordered(s.trace) && RanksIn(s.trace, lo, hi)
  }

  /** A step that emits events of one phase only is well formed. */
  lemma SinglePhase(s: Stage, k: nat)
    requires HaltIsFinal(s) && RanksIn(s.trace, k, k)
    ensures WellFormed(s, k, k)
  {
  }

  /** Running a later phase after an earlier one that carried on keeps the
      halt protocol and the pipeline order. */
  lemma AppendWellFormed(a: Stage, b: Stage, lo: nat, k: nat, hi: nat)
    requires lo <= k <= hi
    requires WellFormed(a, lo, k) && a.ctl == Continue && WellFormed(b, k, hi)
    ensures WellFormed(Append(a, b), lo, hi)
  {
    AppendKeepsHaltFinal(a, b);
    AppendKeepsOrder(a.trace, b.trace, k);
    assert RanksIn(a.trace, lo, hi) && RanksIn(b.trace, lo, hi);
  }

  /** Indexing into a concatenation. */
  lemma ConcatIndex(p: seq<Event>, u: seq<Event>)
    ensures forall i :: 0 <= i < |p| ==> (p + u)[i] == p[i]
    ensures forall i :: |p| <= i < |p + u| ==> (p + u)[i] == u[i - |p|]
  {
  }

  /** `s` ends as `a` does: its last steps are those of `a`, and it leaves
      `a`'s bitmaps and answer. */
  predicate EndsWith(s: Stage, a: Stage)
  {
    && |a.trace| <= |s.trace|
    && s.trace[|s.trace| - |a.trace|..] == a.trace
    && s.markers == a.markers && s.ctl == a.ctl
  }

  lemma EndsWithItself(a: Stage)
    ensures EndsWith(a, a)
  {
    assert a.trace[0..] == a.trace;
  }

  lemma PrefixKeepsEndsWith(p: seq<Event>, s: Stage, a: Stage)
    requires EndsWith(s, a)
    ensures EndsWith(Stage(p + s.trace, s.markers, s.ctl), a)
  {
    var t := p + s.trace;
    var k := |s.trace| - |a.trace|;
    assert t[|t| - |a.trace|..] == s.trace[k..];
  }

  /** A stage whose later steps are `a`'s ends as `a` does. */
  lemma AppendEndsWith(s: Stage, a: Stage)
    ensures EndsWith(Append(s, a), a)
  {
    var t := Append(s, a).trace;
    assert t[|t| - |a.trace|..] == a.trace;
  }

  lemma EndsWithTrans(s: Stage, a: Stage, b: Stage)
    requires EndsWith(s, a) && EndsWith(a, b)
    ensures EndsWith(s, b)
  {
    var i := |s.trace| - |a.trace|;
    var j := |a.trace| - |b.trace|;
    assert s.trace[i + j..] == s.trace[i..][j..];
  }
}
