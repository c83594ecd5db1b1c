/** The anchored-phase facts lifted to whole driver runs: the bitmaps are
    cleared exactly between the first report-delivery run and the anchored
    scan, the second report-delivery run follows the scan and the flush, and
    a too-short input skips only the scan. */
module DriverAnchored {
  import opened Wrappers
  import opened RoseTypes
  import opened Trace
  import opened Eod
  import opened AnchoredProperties

  /** Every literal scan in `t` comes after a clearing of the bitmaps. */
  predicate ScanAfterClear(t: seq<Event>)
  {
    forall i :: 0 <= i < |t| && t[i].step.LiteralScan? ==>
      exists c :: 0 <= c < i && t[c].step == ClearMarkers
  }

  /** Steps of the first three phases alone never clear, scan or run the
      second report-delivery program. */
  lemma EarlyPhasesOnly(t: seq<Event>, env: Env)
    requires RanksIn(t, 0, 3)
    ensures !HasClear(t) && ClearPlaced(t, env.cfg.eodIterProgram)
    ensures SecondRunPlaced(t, env) && ShortSkipsScan(t, env)
    ensures ScanAfterClear(t)
  {
  }

  /** A stage of the first three phases that halted has halted early. */
  lemma HaltedEarly(s: Stage)
    requires HaltIsFinal(s) && s.ctl == Halt && RanksIn(s.trace, 0, 3)
    ensures !NoEarlyHalt(s.trace)
  {
    var n := |s.trace| - 1;
    assert Rank(s.trace[n].step) <= 3 && s.trace[n].halted;
  }

  /** A run that reached a phase after the first report-delivery run did not
      halt before it. */
  lemma LateEventMeansNoEarlyHalt(s: Stage, i: nat)
    requires HaltIsFinal(s) && Ordered(s.trace)
    requires i < |s.trace| && Rank(s.trace[i].step) >= 4
    ensures NoEarlyHalt(s.trace)
  {
    var t := s.trace;
    forall j | 0 <= j < |t| && Rank(t[j].step) <= 3
      ensures !t[j].halted
    {
      if j < i {
        assert j < |t| - 1;
      } else {
        assert false;
      }
    }
  }

  /** A clearing put after quiet early phases, ending with the first
      report-delivery run when one is configured, is well placed. */
  lemma ClearAfterPrefix(p: seq<Event>, a: seq<Event>, iter: Option<nat>)
    requires QuietPrefix(p)
    requires |a| > 0 && a[0].step == ClearMarkers
    requires forall i :: 1 <= i < |a| ==> Rank(a[i].step) >= 5
    requires iter.Some? ==> |p| > 0 && p[|p| - 1].step == IterProgram(iter.value, First)
    ensures ClearPlaced(p + a, iter) && HasClear(p + a)
  {
    var t := p + a;
    var k := |p|;
    ConcatIndex(p, a);
    assert t[k] == a[0];
    forall c | 0 <= c < |t| && t[c].step == ClearMarkers
      ensures ClearAt(t, c, iter)
    {
      if c < k {
        assert false;
      }
      if c > k {
        assert false;
      }
      forall i | c < i < |t|
        ensures Rank(t[i].step) >= 5
      {
        assert t[i] == a[i - k];
      }
    }
  }

  lemma DeliverReportsClear(env: Env, m: Markers)
    requires EnvOk(env)
    ensures var t := DeliverReports(env, m).trace;
      && ClearPlaced(t, env.cfg.eodIterProgram)
      && (env.cfg.ematcher.Some? && NoEarlyHalt(t) ==> HasClear(t))
  {
    var s := RunIterator(env, First, m);
    if s.ctl == Halt || env.cfg.ematcher.None? {
      EarlyPhasesOnly(s.trace, env);
      if s.ctl == Halt {
        HaltedEarly(s);
      }
    } else {
      ContinuedMeansNoHalt(s);
      AnchoredPhaseOpensWithClear(env, s.markers);
      ClearAfterPrefix(s.trace, AnchoredPhase(env, s.markers).trace, env.cfg.eodIterProgram);
    }
  }

  lemma AfterEodProgramClear(env: Env, m: Markers)
    requires EnvOk(env)
    ensures var t := AfterEodProgram(env, m).trace;
      && ClearPlaced(t, env.cfg.eodIterProgram)
      && (env.cfg.ematcher.Some? && NoEarlyHalt(t) ==> HasClear(t))
  {
    var s := CheckNfaEod(env, m);
    if s.ctl == Halt || (env.cfg.eodIterProgram.None? && env.cfg.ematcher.None?) {
      EarlyPhasesOnly(s.trace, env);
      if s.ctl == Halt {
        HaltedEarly(s);
      }
    } else {
      ContinuedMeansNoHalt(s);
      var d := DeliverReports(env, s.markers).trace;
      DeliverReportsClear(env, s.markers);
      PrefixKeepsClearPlaced(s.trace, d, env.cfg.eodIterProgram);
      PrefixKeepsClearHappens(s.trace, d);
    }
  }

  lemma EodExecClear(env: Env, m: Markers)
    requires EnvOk(env)
    ensures var t := EodExecI(env, m).trace;
      && ClearPlaced(t, env.cfg.eodIterProgram)
      && (env.cfg.ematcher.Some? && NoEarlyHalt(t) ==> HasClear(t))
  {
    var s := RunEodProgram(env, m);
    if s.ctl == Halt {
      EarlyPhasesOnly(s.trace, env);
      HaltedEarly(s);
    } else {
      ContinuedMeansNoHalt(s);
      var d := AfterEodProgram(env, s.markers).trace;
      AfterEodProgramClear(env, s.markers);
      PrefixKeepsClearPlaced(s.trace, d, env.cfg.eodIterProgram);
      PrefixKeepsClearHappens(s.trace, d);
    }
  }

  /** In a well-formed run whose clearing, if any, is well placed and
      happens unless an early phase halted, every literal scan follows a
      clearing. */
  lemma ScanFollowsClear(s: Stage, iter: Option<nat>)
    requires HaltIsFinal(s) && Ordered(s.trace) && ClearPlaced(s.trace, iter)
    requires NoEarlyHalt(s.trace) ==> HasClear(s.trace)
    ensures ScanAfterClear(s.trace)
  {
    var t := s.trace;
    forall i | 0 <= i < |t| && t[i].step.LiteralScan?
      ensures exists c :: 0 <= c < i && t[c].step == ClearMarkers
    {
      LateEventMeansNoEarlyHalt(s, i);
      var c :| 0 <= c < |t| && t[c].step == ClearMarkers;
      assert ClearAt(t, c, iter);
      if i <= c {
        assert false;
      }
    }
  }

  /** The bitmaps are cleared only when an anchored matcher is configured,
      only after the engine check and the first report-delivery run (which
      immediately precedes the clearing when configured) have carried on,
      and before anything of the anchored scan; when those early phases did
      not halt and an anchored matcher is configured, the clearing happens,
      and no literal scan ever runs without a clearing before it. */
  lemma MarkersClearedBetweenIteratorAndScan(env: Env, m: Markers)
    requires EnvOk(env)
    ensures var t := EodExecI(env, m).trace;
      && ClearPlaced(t, env.cfg.eodIterProgram)
      && (HasClear(t) ==> env.cfg.ematcher.Some?)
      && (env.cfg.ematcher.Some? && NoEarlyHalt(t) ==> HasClear(t))
      && ScanAfterClear(t)
  {
    var r := EodExecI(env, m);
    EodExecClear(env, m);
    if env.cfg.ematcher.None? {
      EarlyPhasesOnly(r.trace, env);
    } else {
      ScanFollowsClear(r, env.cfg.eodIterProgram);
    }
  }

  /** The anchored phase run on emptied bitmaps. */
  function ClearedPhase(env: Env): Stage
    requires EnvOk(env) && env.cfg.ematcher.Some?
  {
    AnchoredPhase(env, Markers({}, {}))
  }

  lemma DeliverReportsTail(env: Env, m: Markers)
    requires EnvOk(env) && env.cfg.ematcher.Some?
    ensures var r := DeliverReports(env, m);
      HasClear(r.trace) ==> EndsWith(r, ClearedPhase(env))
  {
    var s := RunIterator(env, First, m);
    if s.ctl == Halt {
      EarlyPhasesOnly(s.trace, env);
    } else {
      var c := ClearedPhase(env);
      AnchoredPhaseIgnoresEarlierMarkers(env, s.markers, Markers({}, {}));
      assert DeliverReports(env, m) == Stage(s.trace + c.trace, c.markers, c.ctl);
      EndsWithItself(c);
      PrefixKeepsEndsWith(s.trace, c, c);
    }
  }

  lemma AfterEodProgramTail(env: Env, m: Markers)
    requires EnvOk(env) && env.cfg.ematcher.Some?
    ensures var r := AfterEodProgram(env, m);
      HasClear(r.trace) ==> EndsWith(r, ClearedPhase(env))
  {
    var c := CheckNfaEod(env, m);
    if c.ctl == Halt {
      EarlyPhasesOnly(c.trace, env);
    } else {
      var d := DeliverReports(env, c.markers);
      DeliverReportsTail(env, c.markers);
      if HasClear(d.trace) {
        PrefixKeepsEndsWith(c.trace, d, ClearedPhase(env));
      } else {
        EarlyPhasesOnly(c.trace, env);
        NoClearInEither(c.trace, d.trace);
      }
    }
  }

  lemma NoClearInEither(a: seq<Event>, b: seq<Event>)
    requires !HasClear(a) && !HasClear(b)
    ensures !HasClear(a + b)
  {
    ConcatIndex(a, b);
    forall c | 0 <= c < |a + b|
      ensures (a + b)[c].step != ClearMarkers
    {
      if c >= |a| {
        assert (a + b)[c] == b[c - |a|];
      }
    }
  }

  /** A stage that ends as the anchored phase on emptied bitmaps does ends,
      right after its clearing, as the scan and what follows it run on those
      emptied bitmaps. */
  lemma ClearedPhaseScans(r: Stage, env: Env)
    requires EnvOk(env) && env.cfg.ematcher.Some?
    requires EndsWith(r, ClearedPhase(env))
    ensures var sf := ScanAndFinish(env, Markers({}, {}));
      && EndsWith(r, sf) && |sf.trace| < |r.trace|
      && r.trace[|r.trace| - |sf.trace| - 1] == Event(ClearMarkers, false)
  {
    var c := ClearedPhase(env);
    var sf := ScanAndFinish(env, Markers({}, {}));
    AnchoredPhaseScansClearedMarkers(env, Markers({}, {}));
    EndsWithTrans(r, c, sf);
    assert r.trace[|r.trace| - |c.trace|..][0] == c.trace[0];
  }

  /** With an anchored matcher, once the bitmaps have been cleared the rest
      of the run is the anchored phase run on emptied bitmaps: right after
      the clearing come the scan, its delayed matches, the flush, the second
      report-delivery run and the suffix check, all run on the empty role
      and active bitmaps, and the run leaves their bitmaps and answer;
      nothing of it depends on the bitmaps the earlier phases left. */
  lemma AnchoredStepsSeeClearedMarkers(env: Env, m: Markers)
    requires EnvOk(env) && env.cfg.ematcher.Some?
    ensures var r := EodExecI(env, m);
      HasClear(r.trace) ==> EndsWith(r, AnchoredPhase(env, Markers({}, {})))
    ensures var r := EodExecI(env, m);
      var sf := ScanAndFinish(env, Markers({}, {}));
      HasClear(r.trace) ==>
        && EndsWith(r, sf) && |sf.trace| < |r.trace|
        && r.trace[|r.trace| - |sf.trace| - 1] == Event(ClearMarkers, false)
  {
    var e := RunEodProgram(env, m);
    if e.ctl == Halt {
      EarlyPhasesOnly(e.trace, env);
    } else {
      var a := AfterEodProgram(env, e.markers);
      AfterEodProgramTail(env, e.markers);
      if HasClear(a.trace) {
        PrefixKeepsEndsWith(e.trace, a, ClearedPhase(env));
        ClearedPhaseScans(Stage(e.trace + a.trace, a.markers, a.ctl), env);
      } else {
        EarlyPhasesOnly(e.trace, env);
        NoClearInEither(e.trace, a.trace);
      }
    }
  }

  lemma DeliverReportsSecondRun(env: Env, m: Markers)
    requires EnvOk(env)
    ensures SecondRunPlaced(DeliverReports(env, m).trace, env)
  {
    var s := RunIterator(env, First, m);
    if s.ctl == Halt || env.cfg.ematcher.None? {
      EarlyPhasesOnly(s.trace, env);
    } else {
      ContinuedMeansNoHalt(s);
      AnchoredPhaseSecondRun(env, s.markers);
      PrefixKeepsSecondRunPlaced(s.trace, AnchoredPhase(env, s.markers).trace, env);
    }
  }

  lemma AfterEodProgramSecondRun(env: Env, m: Markers)
    requires EnvOk(env)
    ensures SecondRunPlaced(AfterEodProgram(env, m).trace, env)
  {
    var s := CheckNfaEod(env, m);
    if s.ctl == Halt || (env.cfg.eodIterProgram.None? && env.cfg.ematcher.None?) {
      EarlyPhasesOnly(s.trace, env);
    } else {
      ContinuedMeansNoHalt(s);
      DeliverReportsSecondRun(env, s.markers);
      PrefixKeepsSecondRunPlaced(s.trace, DeliverReports(env, s.markers).trace, env);
    }
  }

  /** The second report-delivery run happens only when an anchored matcher
      is configured, and only right after the history flush, which itself
      follows either the anchored scan whose delayed matches fired without a
      halt or, for a too-short input, the clearing of the bitmaps. */
  lemma SecondIteratorAfterScanAndFlush(env: Env, m: Markers)
    requires EnvOk(env)
    ensures var t := EodExecI(env, m).trace;
      && SecondRunPlaced(t, env)
      && (env.cfg.ematcher.None? ==>
            forall j :: 0 <= j < |t| ==> !(t[j].step.IterProgram? && t[j].step.pass == Second))
  {
    var s := RunEodProgram(env, m);
    if s.ctl == Halt {
      EarlyPhasesOnly(s.trace, env);
    } else {
      assert EodExecI(env, m) == Stage(s.trace + AfterEodProgram(env, s.markers).trace, AfterEodProgram(env, s.markers).markers, AfterEodProgram(env, s.markers).ctl);
      ContinuedMeansNoHalt(s);
      AfterEodProgramSecondRun(env, s.markers);
      PrefixKeepsSecondRunPlaced(s.trace, AfterEodProgram(env, s.markers).trace, env);
    }
  }

  lemma DeliverReportsSkip(env: Env, m: Markers)
    requires EnvOk(env)
    ensures ShortSkipsScan(DeliverReports(env, m).trace, env)
  {
    var s := RunIterator(env, First, m);
    if s.ctl == Halt || env.cfg.ematcher.None? {
      EarlyPhasesOnly(s.trace, env);
    } else {
      ContinuedMeansNoHalt(s);
      AnchoredPhaseSkip(env, s.markers);
      PrefixKeepsShortSkipsScan(s.trace, AnchoredPhase(env, s.markers).trace, env);
    }
  }

  lemma AfterEodProgramSkip(env: Env, m: Markers)
    requires EnvOk(env)
    ensures ShortSkipsScan(AfterEodProgram(env, m).trace, env)
  {
    var s := CheckNfaEod(env, m);
    if s.ctl == Halt || (env.cfg.eodIterProgram.None? && env.cfg.ematcher.None?) {
      EarlyPhasesOnly(s.trace, env);
    } else {
      ContinuedMeansNoHalt(s);
      DeliverReportsSkip(env, s.markers);
      PrefixKeepsShortSkipsScan(s.trace, DeliverReports(env, s.markers).trace, env);
    }
  }

  /** When the selected buffer is shorter than the anchored matcher's
      minimum width, the literal scan and the firing of its delayed matches
      never happen, but the pipeline carries on after the clearing: the
      history flush follows it at once, and then the second report-delivery
      run when one is configured. */
  lemma ShortInputSkipsScanOnly(env: Env, m: Markers)
    requires EnvOk(env)
    ensures ShortSkipsScan(EodExecI(env, m).trace, env)
  {
    var s := RunEodProgram(env, m);
    if s.ctl == Halt {
      EarlyPhasesOnly(s.trace, env);
    } else {
      ContinuedMeansNoHalt(s);
      AfterEodProgramSkip(env, s.markers);
      PrefixKeepsShortSkipsScan(s.trace, AfterEodProgram(env, s.markers).trace, env);
    }
  }
}
