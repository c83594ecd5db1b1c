/** Facts about the anchored phase as seen in a whole evaluation: where the
    bitmaps are cleared, what precedes the second report-delivery run, and
    what a too-short input changes. */
module AnchoredProperties {
  import opened Wrappers
  import opened RoseTypes
  import opened Trace
  import opened Eod

  /** The bitmaps are cleared somewhere in `t`. */
  predicate HasClear(t: seq<Event>)
  {
    exists c :: 0 <= c < |t| && t[c].step == ClearMarkers
  }

  /** Neither the unconditional program, the engine check nor the first
      report-delivery run halted in `t`. */
  predicate NoEarlyHalt(t: seq<Event>)
  {
    forall i :: 0 <= i < |t| && Rank(t[i].step) <= 3 ==> !t[i].halted
  }

  /** What must hold around a clearing at `c`: everything before ran without
      halting and belongs to the first three phases, the step just before is
      the first report-delivery run when one is configured, and everything
      after belongs to the anchored scan or later phases. */
  predicate ClearAt(t: seq<Event>, c: nat, iter: Option<nat>)
    requires c < |t|
  {
    && (forall i :: 0 <= i < c ==> Rank(t[i].step) <= 3 && !t[i].halted)
    && (forall i :: c < i < |t| ==> Rank(t[i].step) >= 5)
    && (iter.Some? ==> c > 0 && t[c - 1].step == IterProgram(iter.value, First))
  }

  predicate ClearPlaced(t: seq<Event>, iter: Option<nat>)
  {
    forall c :: 0 <= c < |t| && t[c].step == ClearMarkers ==> ClearAt(t, c, iter)
  }

  /** The anchored matcher is configured and the selected buffer is too
      short for it to match. */
  predicate Short(env: Env)
  {
    env.cfg.ematcher.Some? && |ScanData(env.buffer)| < env.cfg.ematcher.value.minWidth
  }

  /** What must hold before a second report-delivery run at `j`: the history
      flush just before it, and before that the delayed matches of the
      anchored scan fired without a halt, or the clearing when the scan was
      skipped. */
  predicate SecondRunAt(t: seq<Event>, j: nat, env: Env)
    requires j < |t|
  {
    && j >= 2
    && t[j - 1].step == FlushHistory(env.offset)
    && (Short(env) ==> t[j - 2].step == ClearMarkers)
    && (!Short(env) ==> j >= 3 && t[j - 2] == Event(CleanUpDelayed, false) && t[j - 3].step.LiteralScan?)
  }

  predicate SecondRunPlaced(t: seq<Event>, env: Env)
  {
    forall j :: 0 <= j < |t| && t[j].step.IterProgram? && t[j].step.pass == Second ==> SecondRunAt(t, j, env)
  }

  /** What follows a clearing at `c` when the scan is skipped: the flush, and
      then the second report-delivery run when one is configured. */
  predicate SkipAt(t: seq<Event>, c: nat, env: Env)
    requires c < |t|
  {
    && c + 1 < |t|
    && t[c + 1].step == FlushHistory(env.offset)
    && (env.cfg.eodIterProgram.Some? ==>
          c + 2 < |t| && t[c + 2].step == IterProgram(env.cfg.eodIterProgram.value, Second))
  }

  /** A too-short input is never scanned, yet the pipeline goes on after the
      clearing. */
  predicate ShortSkipsScan(t: seq<Event>, env: Env)
  {
    Short(env) ==>
      && (forall i :: 0 <= i < |t| ==> !t[i].step.LiteralScan? && !t[i].step.CleanUpDelayed?)
      && (forall c :: 0 <= c < |t| && t[c].step == ClearMarkers ==> SkipAt(t, c, env))
  }

  /** Steps of the first three phases that did not halt, put in front. */
  predicate QuietPrefix(p: seq<Event>)
  {
    RanksIn(p, 0, 3) && forall i :: 0 <= i < |p| ==> !p[i].halted
  }

  lemma PrefixKeepsClearPlaced(p: seq<Event>, t: seq<Event>, iter: Option<nat>)
    requires QuietPrefix(p) && ClearPlaced(t, iter)
    ensures ClearPlaced(p + t, iter)
  {
    var u := p + t;
    var k := |p|;
    ConcatIndex(p, t);
    forall c | 0 <= c < |u| && u[c].step == ClearMarkers
      ensures ClearAt(u, c, iter)
    {
      assert c >= k;
      assert u[c] == t[c - k];
      assert ClearAt(t, c - k, iter);
      forall i | 0 <= i < c
        ensures Rank(u[i].step) <= 3 && !u[i].halted
      {
        if i >= k {
          assert u[i] == t[i - k];
        }
      }
      forall i | c < i < |u|
        ensures Rank(u[i].step) >= 5
      {
        assert u[i] == t[i - k];
      }
      if iter.Some? && c == k {
        assert false;
      }
    }
  }

  lemma PrefixKeepsClearHappens(p: seq<Event>, t: seq<Event>)
    requires QuietPrefix(p)
    ensures NoEarlyHalt(p + t) ==> NoEarlyHalt(t)
    ensures HasClear(t) ==> HasClear(p + t)
  {
    var u := p + t;
    var k := |p|;
    ConcatIndex(p, t);
    if NoEarlyHalt(u) {
      forall i | 0 <= i < |t| && Rank(t[i].step) <= 3
        ensures !t[i].halted
      {
        assert u[i + k] == t[i];
      }
    }
    if HasClear(t) {
      var c :| 0 <= c < |t| && t[c].step == ClearMarkers;
      assert u[c + k] == t[c];
    }
  }

  lemma PrefixKeepsSecondRunPlaced(p: seq<Event>, t: seq<Event>, env: Env)
    requires QuietPrefix(p) && SecondRunPlaced(t, env)
    ensures SecondRunPlaced(p + t, env)
  {
    var u := p + t;
    var k := |p|;
    ConcatIndex(p, t);
    forall j | 0 <= j < |u| && u[j].step.IterProgram? && u[j].step.pass == Second
      ensures SecondRunAt(u, j, env)
    {
      assert j >= k;
      assert t[j - k] == u[j];
      assert SecondRunAt(t, j - k, env);
    }
  }

  lemma PrefixKeepsShortSkipsScan(p: seq<Event>, t: seq<Event>, env: Env)
    requires QuietPrefix(p) && ShortSkipsScan(t, env)
    ensures ShortSkipsScan(p + t, env)
  {
    var u := p + t;
    var k := |p|;
    ConcatIndex(p, t);
    if Short(env) {
      forall i | 0 <= i < |u|
        ensures !u[i].step.LiteralScan? && !u[i].step.CleanUpDelayed?
      {
        if i >= k {
          assert u[i] == t[i - k];
        }
      }
      forall c | 0 <= c < |u| && u[c].step == ClearMarkers
        ensures SkipAt(u, c, env)
      {
        assert c >= k;
        assert t[c - k] == u[c];
        assert SkipAt(t, c - k, env);
      }
    }
  }

  /** The clearing hands the emptied bitmaps to the anchored scan: the phase
      is the clearing followed by the scan, its delayed matches, the flush,
      the second report-delivery run and the suffix check run on empty role
      and active bitmaps, and it leaves their bitmaps and answer. */
  lemma AnchoredPhaseScansClearedMarkers(env: Env, m: Markers)
    requires EnvOk(env) && env.cfg.ematcher.Some?
    ensures var sf := ScanAndFinish(env, Markers({}, {}));
      && AnchoredPhase(env, m).trace == [Event(ClearMarkers, false)] + sf.trace
      && EndsWith(AnchoredPhase(env, m), sf)
  {
    AppendEndsWith(ResetMarkers(m), ScanAndFinish(env, Markers({}, {})));
  }

  /** Hence the anchored phase does not depend on the bitmaps the earlier
      phases left, so nothing finalised before it can fire again because of
      it. */
  lemma AnchoredPhaseIgnoresEarlierMarkers(env: Env, m1: Markers, m2: Markers)
    requires EnvOk(env) && env.cfg.ematcher.Some?
    ensures AnchoredPhase(env, m1) == AnchoredPhase(env, m2)
  {
  }

  /** The anchored phase opens with the clearing; everything after it
      belongs to the scan or later phases. */
  lemma AnchoredPhaseOpensWithClear(env: Env, m: Markers)
    requires EnvOk(env) && env.cfg.ematcher.Some?
    ensures var t := AnchoredPhase(env, m).trace;
      && |t| > 0
      && t[0] == Event(ClearMarkers, false)
      && (forall i :: 1 <= i < |t| ==> Rank(t[i].step) >= 5)
  {
    var z := ResetMarkers(m);
    var sf := ScanAndFinish(env, z.markers);
    ConcatIndex(z.trace, sf.trace);
  }

  /** The part of the anchored phase after the scan: the flush, then the
      second report-delivery run (its only event is the first one here). */
  lemma AfterScanShape(env: Env, m: Markers)
    ensures var f := FlushAfterMatcher(env, m);
      var t := Append(f, FinishAfterFlush(env, f.markers)).trace;
      && |t| > 0
      && t[0].step == FlushHistory(env.offset)
      && (forall j :: 0 <= j < |t| && t[j].step.IterProgram? && t[j].step.pass == Second ==> j == 1)
      && (env.cfg.eodIterProgram.Some? ==>
            |t| > 1 && t[1].step == IterProgram(env.cfg.eodIterProgram.value, Second))
  {
    var f := FlushAfterMatcher(env, m);
    var fin := FinishAfterFlush(env, f.markers);
    var it := RunIterator(env, Second, f.markers);
    ConcatIndex(f.trace, fin.trace);
    if it.ctl == Continue {
      var x := CheckEodSuffixes(env, it.markers);
      ConcatIndex(it.trace, x.trace);
    }
  }

  /** A second report-delivery run that can only sit right after the flush
      opening `rest` is well placed when `pre` ends as the anchored scan (or,
      for a too-short input, the clearing) leaves it. */
  lemma SecondRunAfterScan(pre: seq<Event>, rest: seq<Event>, env: Env)
    requires forall i :: 0 <= i < |pre| ==> !(pre[i].step.IterProgram? && pre[i].step.pass == Second)
    requires |rest| > 0 && rest[0].step == FlushHistory(env.offset)
    requires forall j :: 0 <= j < |rest| && rest[j].step.IterProgram? && rest[j].step.pass == Second ==> j == 1
    requires Short(env) ==> |pre| > 0 && pre[|pre| - 1].step == ClearMarkers
    requires !Short(env) ==>
      |pre| >= 3 && pre[|pre| - 1] == Event(CleanUpDelayed, false) && pre[|pre| - 2].step.LiteralScan?
    ensures SecondRunPlaced(pre + rest, env)
  {
    var t := pre + rest;
    var k := |pre|;
    ConcatIndex(pre, rest);
    forall j | 0 <= j < |t| && t[j].step.IterProgram? && t[j].step.pass == Second
      ensures SecondRunAt(t, j, env)
    {
      if j < k {
        assert false;
      }
      assert rest[j - k] == t[j];
      assert j == k + 1;
    }
  }

  lemma AnchoredPhaseSecondRun(env: Env, m: Markers)
    requires EnvOk(env) && env.cfg.ematcher.Some?
    ensures SecondRunPlaced(AnchoredPhase(env, m).trace, env)
  {
    var pre := [Event(ClearMarkers, false)];
    var s := RunMatcher(env, Markers({}, {}));
    if s.ctl == Halt {
      assert AnchoredPhase(env, m).trace == pre + s.trace;
      ConcatIndex(pre, s.trace);
    } else {
      var f := FlushAfterMatcher(env, s.markers);
      var rest := Append(f, FinishAfterFlush(env, f.markers)).trace;
      assert AnchoredPhase(env, m).trace == (pre + s.trace) + rest;
      AfterScanShape(env, s.markers);
      ConcatIndex(pre, s.trace);
      if !Short(env) {
        assert !s.trace[1].halted;
      }
      SecondRunAfterScan(pre + s.trace, rest, env);
    }
  }

  /** A clearing followed only by phases from the flush on skips the scan. */
  lemma ClearThenLaterSkips(rest: seq<Event>, env: Env)
    requires Short(env)
    requires |rest| > 0 && rest[0].step == FlushHistory(env.offset)
    requires env.cfg.eodIterProgram.Some? ==>
      |rest| > 1 && rest[1].step == IterProgram(env.cfg.eodIterProgram.value, Second)
    requires RanksIn(rest, 6, MaxRank)
    ensures ShortSkipsScan([Event(ClearMarkers, false)] + rest, env)
  {
    var t := [Event(ClearMarkers, false)] + rest;
    ConcatIndex([Event(ClearMarkers, false)], rest);
  }

  lemma AnchoredPhaseSkip(env: Env, m: Markers)
    requires EnvOk(env) && env.cfg.ematcher.Some?
    ensures ShortSkipsScan(AnchoredPhase(env, m).trace, env)
  {
    if Short(env) {
      var mk := Markers({}, {});
      var f := FlushAfterMatcher(env, mk);
      var fin := FinishAfterFlush(env, f.markers);
      var rest := Append(f, fin).trace;
      assert AnchoredPhase(env, m).trace == [Event(ClearMarkers, false)] + rest;
      AfterScanShape(env, mk);
      FinishAfterFlushWellFormed(env, f.markers);
      AppendKeepsOrder(f.trace, fin.trace, 6);
      assert RanksIn(rest, 6, MaxRank);
      ClearThenLaterSkips(rest, env);
    }
  }
}
