/** The other direction of the driver's short-circuit: when nothing halted,
    every configured step ran, once each and in pipeline order, and the two
    per-engine loops visited every engine they were given, each step working
    on the bitmaps its predecessor left. */
module DriverComplete {
  import opened RoseTypes
  import opened Multibit
  import opened Trace
  import opened Eod
  import opened LoopProperties

  /** The report-delivery run of the given pass, when one is configured. */
  function IterStep(env: Env, pass: Pass): seq<Step>
  {
    if env.cfg.eodIterProgram.Some? then [IterProgram(env.cfg.eodIterProgram.value, pass)] else []
  }

  /** The anchored scan of the trailing window and the firing of its delayed
      matches, unless the selected buffer is shorter than the matcher's
      minimum width. */
  function ScanSteps(env: Env): seq<Step>
    requires env.cfg.ematcher.Some?
  {
    var len := |ScanData(env.buffer)|;
    var em := env.cfg.ematcher.value;
    if len < em.minWidth then [] else [LiteralScan(AnchoredStart(len, em.regionSize), len), CleanUpDelayed]
  }

  /** From the clearing of the bitmaps on. */
  function AnchoredSteps(env: Env): seq<Step>
    requires env.cfg.ematcher.Some?
  {
    [ClearMarkers] + ScanSteps(env) + [FlushHistory(env.offset)] + IterStep(env, Second)
  }

  /** From the first report-delivery run on. */
  function ReportSteps(env: Env): seq<Step>
  {
    IterStep(env, First) + (if env.cfg.ematcher.Some? then AnchoredSteps(env) else [])
  }

  /** Every once-per-evaluation step the configuration asks for, in order. */
  function Planned(env: Env): seq<Step>
  {
    (if env.cfg.eodProgram.Some? then [EodProgram(env.cfg.eodProgram.value)] else []) + ReportSteps(env)
  }

  /** The engines the accept check must visit: those active in `pm` and
      compiled as EOD-capable. */
  function DueChecks(env: Env, pm: Markers): seq<nat>
  {
    if env.cfg.eodNfaMask.Some?
    then SparseMembers(env.cfg.eodNfaMask.value, pm.active, env.cfg.activeArrayCount)
    else []
  }

  /** The engines the suffix check must run: with an anchored matcher, those
      active in `final`. */
  function DueSuffixes(env: Env, final: Markers): seq<nat>
  {
    if env.cfg.ematcher.Some? then Members(final.active, 0, env.cfg.activeArrayCount) else []
  }

  /** A run that carried on to the end: the planned steps ran in order, the
      accept check went over every engine due (active in the bitmaps `pm`
      the unconditional program left), and every suffix engine due (active
      in the bitmaps `final` left at the end) ran to the end of the buffer. */
  predicate Completed(t: seq<Event>, env: Env, pm: Markers, final: Markers)
  {
    && Milestones(t) == Planned(env)
    && NfaChecked(t) == DueChecks(env, pm)
    && SuffixRan(t) == DueSuffixes(env, final)
  }

  /** A single once-per-evaluation step: its projections. */
  lemma SingleStep(e: Event)
    requires !PerEngine(e.step)
    ensures Milestones([e]) == [e.step] && NfaChecked([e]) == [] && SuffixRan([e]) == []
  {
    ProjectOne(e);
  }

  /** A once-per-evaluation step put in front of a trace. */
  lemma LeadingStep(e: Event, t: seq<Event>)
    requires !PerEngine(e.step)
    ensures Milestones([e] + t) == [e.step] + Milestones(t)
    ensures NfaChecked([e] + t) == NfaChecked(t) && SuffixRan([e] + t) == SuffixRan(t)
  {
    ProjectOne(e);
    ProjectAppend([e], t);
  }

  /** A report-delivery run is its configured program step alone. */
  lemma IteratorRan(env: Env, pass: Pass, m: Markers)
    ensures var t := RunIterator(env, pass, m).trace;
      Milestones(t) == IterStep(env, pass) && NfaChecked(t) == [] && SuffixRan(t) == []
  {
    if env.cfg.eodIterProgram.Some? {
      SingleStep(RunIterator(env, pass, m).trace[0]);
    }
  }

  /** The anchored scan is the scan and the firing of its delayed matches,
      or nothing for too short an input. */
  lemma MatcherRan(env: Env, m: Markers)
    requires env.cfg.ematcher.Some? && |ScanData(env.buffer)| > 0
    ensures var t := RunMatcher(env, m).trace;
      Milestones(t) == ScanSteps(env) && NfaChecked(t) == [] && SuffixRan(t) == []
  {
    var t := RunMatcher(env, m).trace;
    if |ScanData(env.buffer)| >= env.cfg.ematcher.value.minWidth {
      assert t == [t[0]] + [t[1]];
      ProjectOne(t[0]);
      ProjectOne(t[1]);
      ProjectAppend([t[0]], [t[1]]);
    }
  }

  /** The second report-delivery run hands its bitmaps to the suffix check,
      which runs every engine they leave active and keeps them. */
  lemma FinishAfterFlushComplete(env: Env, m: Markers)
    ensures var r := FinishAfterFlush(env, m);
      r.ctl == Continue ==>
        && Milestones(r.trace) == IterStep(env, Second)
        && NfaChecked(r.trace) == []
        && SuffixRan(r.trace) == Members(r.markers.active, 0, env.cfg.activeArrayCount)
    ensures var s := RunIterator(env, Second, m);
      var r := FinishAfterFlush(env, m);
      s.ctl == Continue ==>
        && EndsWith(r, CheckEodSuffixes(env, s.markers))
        && r.markers == s.markers
  {
    var s := RunIterator(env, Second, m);
    if s.ctl == Continue {
      AppendEndsWith(s, CheckEodSuffixes(env, s.markers));
      IteratorRan(env, Second, m);
      var x := CheckEodSuffixes(env, s.markers);
      SuffixLoopVisitsPrefix(Members(s.markers.active, 0, env.cfg.activeArrayCount), LiveLength(env.buffer), env.offset, env.o, s.markers);
      ProjectAppend(s.trace, x.trace);
    }
  }

  /** The scan that carried on hands its bitmaps to the history flush, and
      the flush hands its own to the second report-delivery run and the
      suffix check. */
  lemma ScanAndFinishComplete(env: Env, m: Markers)
    requires EnvOk(env) && env.cfg.ematcher.Some?
    ensures var r := ScanAndFinish(env, m);
      r.ctl == Continue ==>
        && Milestones(r.trace) == ScanSteps(env) + [FlushHistory(env.offset)] + IterStep(env, Second)
        && NfaChecked(r.trace) == []
        && SuffixRan(r.trace) == Members(r.markers.active, 0, env.cfg.activeArrayCount)
    ensures var s := RunMatcher(env, m);
      s.ctl == Continue ==>
        EndsWith(ScanAndFinish(env, m), FinishAfterFlush(env, env.o.flushHistory(env.offset, s.markers)))
  {
    var s := RunMatcher(env, m);
    if s.ctl == Continue {
      var flush := Event(FlushHistory(env.offset), false);
      var fm := env.o.flushHistory(env.offset, s.markers);
      var fin := FinishAfterFlush(env, fm);
      assert ScanAndFinish(env, m) == Stage(s.trace + ([flush] + fin.trace), fin.markers, fin.ctl);
      assert ScanAndFinish(env, m) == Append(Stage(s.trace + [flush], fm, Continue), fin) by {
        assert s.trace + ([flush] + fin.trace) == (s.trace + [flush]) + fin.trace;
      }
      AppendEndsWith(Stage(s.trace + [flush], fm, Continue), fin);
      var later := [FlushHistory(env.offset)] + IterStep(env, Second);
      assert ScanSteps(env) + [FlushHistory(env.offset)] + IterStep(env, Second) == ScanSteps(env) + later;
      MatcherRan(env, m);
      FinishAfterFlushComplete(env, fm);
      LeadingStep(flush, fin.trace);
      ProjectAppend(s.trace, [flush] + fin.trace);
    }
  }

  lemma AnchoredPhaseComplete(env: Env, m: Markers)
    requires EnvOk(env) && env.cfg.ematcher.Some?
    ensures var r := AnchoredPhase(env, m);
      r.ctl == Continue ==>
        && Milestones(r.trace) == AnchoredSteps(env)
        && NfaChecked(r.trace) == []
        && SuffixRan(r.trace) == Members(r.markers.active, 0, env.cfg.activeArrayCount)
  {
    var clear := Event(ClearMarkers, false);
    var sf := ScanAndFinish(env, Markers({}, {}));
    assert AnchoredPhase(env, m) == Stage([clear] + sf.trace, sf.markers, sf.ctl);
    var tail := ScanSteps(env) + [FlushHistory(env.offset)] + IterStep(env, Second);
    assert AnchoredSteps(env) == [ClearMarkers] + tail;
    ScanAndFinishComplete(env, Markers({}, {}));
    LeadingStep(clear, sf.trace);
  }

  lemma DeliverReportsComplete(env: Env, m: Markers)
    requires EnvOk(env)
    ensures var r := DeliverReports(env, m);
      r.ctl == Continue ==>
        Milestones(r.trace) == ReportSteps(env) && NfaChecked(r.trace) == [] && SuffixRan(r.trace) == DueSuffixes(env, r.markers)
  {
    var s := RunIterator(env, First, m);
    IteratorRan(env, First, m);
    if s.ctl == Continue && env.cfg.ematcher.Some? {
      var a := AnchoredPhase(env, s.markers);
      AnchoredPhaseComplete(env, s.markers);
      ProjectAppend(s.trace, a.trace);
    }
  }

  /** The first report-delivery run that carried on hands its bitmaps to the
      anchored phase, which opens by clearing them. */
  lemma DeliverReportsHandsOver(env: Env, m: Markers)
    requires EnvOk(env)
    ensures var s := RunIterator(env, First, m);
      s.ctl == Continue && env.cfg.ematcher.Some? ==>
        EndsWith(DeliverReports(env, m), AnchoredPhase(env, s.markers))
  {
    var s := RunIterator(env, First, m);
    if s.ctl == Continue && env.cfg.ematcher.Some? {
      AppendEndsWith(s, AnchoredPhase(env, s.markers));
    }
  }

  /** The engine check leaves the bitmaps as they were, so the first
      report-delivery run gets those the unconditional program left. */
  lemma AfterEodProgramHandsOver(env: Env, m: Markers)
    requires EnvOk(env)
    ensures var c := CheckNfaEod(env, m);
      c.ctl == Continue && !(env.cfg.eodIterProgram.None? && env.cfg.ematcher.None?) ==>
        EndsWith(AfterEodProgram(env, m), DeliverReports(env, m))
  {
    var c := CheckNfaEod(env, m);
    if c.ctl == Continue && !(env.cfg.eodIterProgram.None? && env.cfg.ematcher.None?) {
      AppendEndsWith(c, DeliverReports(env, c.markers));
    }
  }

  /** The unconditional program that carried on hands its bitmaps to the
      engine check and everything after it. */
  lemma EodProgramHandsOver(env: Env, m: Markers)
    requires EnvOk(env)
    ensures var e := RunEodProgram(env, m);
      e.ctl == Continue ==> EndsWith(EodExecI(env, m), AfterEodProgram(env, e.markers))
  {
    var e := RunEodProgram(env, m);
    if e.ctl == Continue {
      var a := AfterEodProgram(env, e.markers);
      assert EodExecI(env, m) == Append(e, a);
      AppendEndsWith(e, a);
    }
  }

  /** The engine check visits, in ascending order, the engines due, all of
      them when it carried on, and does nothing else. */
  lemma CheckNfaEodComplete(env: Env, m: Markers)
    ensures var c := CheckNfaEod(env, m);
      && Milestones(c.trace) == [] && SuffixRan(c.trace) == []
      && NfaChecked(c.trace) <= DueChecks(env, m)
      && (c.ctl == Continue ==> NfaChecked(c.trace) == DueChecks(env, m))
  {
    if env.cfg.eodNfaMask.Some? {
      var qs := SparseMembers(env.cfg.eodNfaMask.value, m.active, env.cfg.activeArrayCount);
      NfaLoopVisitsPrefix(qs, env.buffer.Streaming?, DecompressKey(env.buffer), env.offset, env.o, m);
    }
  }

  lemma AfterEodProgramComplete(env: Env, m: Markers)
    requires EnvOk(env)
    ensures var r := AfterEodProgram(env, m);
      r.ctl == Continue ==>
        Milestones(r.trace) == ReportSteps(env) && NfaChecked(r.trace) == DueChecks(env, m)
        && SuffixRan(r.trace) == DueSuffixes(env, r.markers)
  {
    var c := CheckNfaEod(env, m);
    CheckNfaEodComplete(env, m);
    if c.ctl == Continue && !(env.cfg.eodIterProgram.None? && env.cfg.ematcher.None?) {
      var d := DeliverReports(env, c.markers);
      DeliverReportsComplete(env, c.markers);
      ProjectAppend(c.trace, d.trace);
    }
  }

  /** When the driver answers Continue, every step the configuration asks for
      ran once, in pipeline order: the unconditional program; the accept check
      of every engine active after it and compiled as EOD-capable, in
      ascending order; the first report-delivery run; and with an anchored
      matcher the clearing of the bitmaps, the scan of the trailing window
      (unless the buffer is shorter than the matcher's minimum width) with
      the firing of its delayed matches, the history flush, the second
      report-delivery run, and every engine then active run to the end of
      the buffer, in ascending order. */
  lemma EveryConfiguredStepRuns(env: Env, m: Markers)
    requires EnvOk(env)
    ensures var r := EodExecI(env, m);
      r.ctl == Continue ==> Completed(r.trace, env, RunEodProgram(env, m).markers, r.markers)
  {
    var e := RunEodProgram(env, m);
    if e.ctl == Continue {
      if env.cfg.eodProgram.Some? {
        SingleStep(e.trace[0]);
      } else {
        assert e.trace == [];
      }
      var a := AfterEodProgram(env, e.markers);
      assert EodExecI(env, m) == Stage(e.trace + a.trace, a.markers, a.ctl);
      AfterEodProgramComplete(env, e.markers);
      ProjectAppend(e.trace, a.trace);
    }
  }

  /** Whether `t` went past the engine check: some step of the first
      report-delivery run or a later phase is in it. */
  predicate PastEngineCheck(t: seq<Event>)
  {
    exists i :: 0 <= i < |t| && Rank(t[i].step) >= 3
  }

  lemma PrefixOfAppend<T>(a: seq<T>, b: seq<T>)
    ensures a <= a + b
  {
  }

  lemma PrefixExtend<T>(a: seq<T>, x: seq<T>, y: seq<T>)
    requires x <= y
    ensures a + x <= a + y
  {
    assert |a + x| <= |a + y|;
    forall i | 0 <= i < |a + x|
      ensures (a + x)[i] == (a + y)[i]
    {
      if i >= |a| {
        assert (a + x)[i] == x[i - |a|];
      }
    }
  }

  lemma FinishAfterFlushFollowsPlan(env: Env, m: Markers)
    ensures var r := FinishAfterFlush(env, m);
      && Milestones(r.trace) <= IterStep(env, Second)
      && NfaChecked(r.trace) == []
      && SuffixRan(r.trace) <= Members(r.markers.active, 0, env.cfg.activeArrayCount)
  {
    var s := RunIterator(env, Second, m);
    IteratorRan(env, Second, m);
    if s.ctl == Continue {
      var x := CheckEodSuffixes(env, s.markers);
      SuffixLoopVisitsPrefix(Members(s.markers.active, 0, env.cfg.activeArrayCount), LiveLength(env.buffer), env.offset, env.o, s.markers);
      ProjectAppend(s.trace, x.trace);
    }
  }

  lemma ScanAndFinishFollowsPlan(env: Env, m: Markers)
    requires EnvOk(env) && env.cfg.ematcher.Some?
    ensures var r := ScanAndFinish(env, m);
      && Milestones(r.trace) <= ScanSteps(env) + [FlushHistory(env.offset)] + IterStep(env, Second)
      && NfaChecked(r.trace) == []
      && SuffixRan(r.trace) <= Members(r.markers.active, 0, env.cfg.activeArrayCount)
  {
    var s := RunMatcher(env, m);
    var later := [FlushHistory(env.offset)] + IterStep(env, Second);
    assert ScanSteps(env) + [FlushHistory(env.offset)] + IterStep(env, Second) == ScanSteps(env) + later;
    MatcherRan(env, m);
    if s.ctl == Halt {
      PrefixOfAppend(ScanSteps(env), later);
    } else {
      var flush := Event(FlushHistory(env.offset), false);
      var fm := env.o.flushHistory(env.offset, s.markers);
      var fin := FinishAfterFlush(env, fm);
      assert ScanAndFinish(env, m) == Stage(s.trace + ([flush] + fin.trace), fin.markers, fin.ctl);
      FinishAfterFlushFollowsPlan(env, fm);
      LeadingStep(flush, fin.trace);
      ProjectAppend(s.trace, [flush] + fin.trace);
      PrefixExtend([FlushHistory(env.offset)], Milestones(fin.trace), IterStep(env, Second));
      PrefixExtend(ScanSteps(env), Milestones([flush] + fin.trace), later);
    }
  }

  lemma AnchoredPhaseFollowsPlan(env: Env, m: Markers)
    requires EnvOk(env) && env.cfg.ematcher.Some?
    ensures var r := AnchoredPhase(env, m);
      && Milestones(r.trace) <= AnchoredSteps(env)
      && NfaChecked(r.trace) == []
      && SuffixRan(r.trace) <= Members(r.markers.active, 0, env.cfg.activeArrayCount)
  {
    var clear := Event(ClearMarkers, false);
    var sf := ScanAndFinish(env, Markers({}, {}));
    assert AnchoredPhase(env, m) == Stage([clear] + sf.trace, sf.markers, sf.ctl);
    var tail := ScanSteps(env) + [FlushHistory(env.offset)] + IterStep(env, Second);
    assert AnchoredSteps(env) == [ClearMarkers] + tail;
    ScanAndFinishFollowsPlan(env, Markers({}, {}));
    LeadingStep(clear, sf.trace);
    PrefixExtend([ClearMarkers], Milestones(sf.trace), tail);
  }

  lemma DeliverReportsFollowsPlan(env: Env, m: Markers)
    requires EnvOk(env)
    ensures var r := DeliverReports(env, m);
      && Milestones(r.trace) <= ReportSteps(env)
      && NfaChecked(r.trace) == []
      && SuffixRan(r.trace) <= DueSuffixes(env, r.markers)
  {
    var s := RunIterator(env, First, m);
    IteratorRan(env, First, m);
    if s.ctl == Continue && env.cfg.ematcher.Some? {
      var a := AnchoredPhase(env, s.markers);
      AnchoredPhaseFollowsPlan(env, s.markers);
      ProjectAppend(s.trace, a.trace);
      PrefixExtend(IterStep(env, First), Milestones(a.trace), AnchoredSteps(env));
    } else {
      PrefixOfAppend(IterStep(env, First), if env.cfg.ematcher.Some? then AnchoredSteps(env) else []);
    }
  }

  lemma AfterEodProgramFollowsPlan(env: Env, m: Markers)
    requires EnvOk(env)
    ensures var r := AfterEodProgram(env, m);
      && Milestones(r.trace) <= ReportSteps(env)
      && NfaChecked(r.trace) <= DueChecks(env, m)
      && (PastEngineCheck(r.trace) ==> NfaChecked(r.trace) == DueChecks(env, m))
      && SuffixRan(r.trace) <= DueSuffixes(env, r.markers)
  {
    var c := CheckNfaEod(env, m);
    CheckNfaEodComplete(env, m);
    if c.ctl == Continue && !(env.cfg.eodIterProgram.None? && env.cfg.ematcher.None?) {
      var d := DeliverReports(env, c.markers);
      DeliverReportsFollowsPlan(env, c.markers);
      ProjectAppend(c.trace, d.trace);
    }
  }

  lemma PastAfterProgram(e: seq<Event>, a: seq<Event>)
    requires RanksIn(e, 1, 1) && PastEngineCheck(e + a)
    ensures PastEngineCheck(a)
  {
    var i :| 0 <= i < |e + a| && Rank((e + a)[i].step) >= 3;
    ConcatIndex(e, a);
    assert a[i - |e|] == (e + a)[i];
  }

  /** Every run, halted or not, follows the plan as far as it got: the
      once-per-evaluation steps that ran are a prefix of those the
      configuration asks for; the engines checked are a prefix of those due,
      all of them once the run went past the engine check; and the suffix
      engines run are a prefix of those active at the end. */
  lemma EveryRunFollowsPlan(env: Env, m: Markers)
    requires EnvOk(env)
    ensures var r := EodExecI(env, m);
      var pm := RunEodProgram(env, m).markers;
      && Milestones(r.trace) <= Planned(env)
      && NfaChecked(r.trace) <= DueChecks(env, pm)
      && (PastEngineCheck(r.trace) ==> NfaChecked(r.trace) == DueChecks(env, pm))
      && SuffixRan(r.trace) <= DueSuffixes(env, r.markers)
  {
    var e := RunEodProgram(env, m);
    var head := if env.cfg.eodProgram.Some? then [EodProgram(env.cfg.eodProgram.value)] else [];
    if env.cfg.eodProgram.Some? {
      SingleStep(e.trace[0]);
    } else {
      assert e.trace == [];
    }
    if e.ctl == Halt {
      PrefixOfAppend(head, ReportSteps(env));
    } else {
      var a := AfterEodProgram(env, e.markers);
      assert EodExecI(env, m) == Stage(e.trace + a.trace, a.markers, a.ctl);
      AfterEodProgramFollowsPlan(env, e.markers);
      ProgramThenPlan(e.trace, a.trace, head, ReportSteps(env), DueChecks(env, e.markers), DueSuffixes(env, a.markers));
    }
  }

  /** The unconditional program followed by a rest that follows its part of
      the plan follows the whole plan. */
  lemma ProgramThenPlan(e: seq<Event>, a: seq<Event>, head: seq<Step>, rest: seq<Step>, due: seq<nat>, suffixes: seq<nat>)
    requires Milestones(e) == head && NfaChecked(e) == [] && SuffixRan(e) == [] && RanksIn(e, 1, 1)
    requires Milestones(a) <= rest && NfaChecked(a) <= due && SuffixRan(a) <= suffixes
    requires PastEngineCheck(a) ==> NfaChecked(a) == due
    ensures Milestones(e + a) <= head + rest && NfaChecked(e + a) <= due && SuffixRan(e + a) <= suffixes
    ensures PastEngineCheck(e + a) ==> NfaChecked(e + a) == due
  {
    ProjectAppend(e, a);
    PrefixExtend(head, Milestones(a), rest);
    if PastEngineCheck(e + a) {
      PastAfterProgram(e, a);
    }
  }
}
