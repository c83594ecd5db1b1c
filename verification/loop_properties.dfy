/** What the two per-engine loops promise: which engines they visit, in what
    order, where they stop, and which collaborator calls each visit makes. */
module LoopProperties {
  import opened RoseTypes
  import opened Multibit
  import opened Trace
  import opened Eod

  /** Whether a step is one engine's turn in one of the per-engine loops. */
  predicate PerEngine(s: Step)
  {
    s.ExpandState? || s.NfaFinalState? || s.QueueExec? || s.SuffixFinalState?
  }

  /** The step an event records, unless it is a per-engine step. */
  function MilestoneOf(e: Event): seq<Step>
  {
    if PerEngine(e.step) then [] else [e.step]
  }

  /** The queue an event checks at EOD, if it is an accept check. */
  function CheckedBy(e: Event): seq<nat>
  {
    if e.step.NfaFinalState? then [e.step.queue] else []
  }

  /** The queue an event runs to the end of the buffer, if it runs one. */
  function RunBy(e: Event): seq<nat>
  {
    if e.step.QueueExec? then [e.step.queue] else []
  }

  /** The steps of `t` that run once per evaluation, in trace order. */
  function Milestones(t: seq<Event>): seq<Step>
  {
    if |t| == 0 then [] else MilestoneOf(t[0]) + Milestones(t[1..])
  }

  /** Queues whose EOD accept state was checked, in trace order. */
  function NfaChecked(t: seq<Event>): seq<nat>
  {
    if |t| == 0 then [] else CheckedBy(t[0]) + NfaChecked(t[1..])
  }

  /** Queues the suffix loop ran to the end of the buffer, in trace order. */
  function SuffixRan(t: seq<Event>): seq<nat>
  {
    if |t| == 0 then [] else RunBy(t[0]) + SuffixRan(t[1..])
  }

  /** Where an accept-check step asks its engine. */
  function SiteOf(s: Step): CheckSite
  {
    if s.NfaFinalState? then AtEodCheck else AfterQueueRun
  }

  /** Each accept check in `t` records the engine's own answer at its site. */
  predicate ChecksAnswered(t: seq<Event>, o: Oracles, offset: nat)
  {
    forall i :: 0 <= i < |t| && (t[i].step.NfaFinalState? || t[i].step.SuffixFinalState?) ==>
      (t[i].halted <==> o.checkFinal(SiteOf(t[i].step), t[i].step.queue, offset) == Halt)
  }

  /** Each accept check in `t` comes right after the decompression of that
      engine's state with `key`. */
  predicate ExpandedBeforeCheck(t: seq<Event>, key: u8)
  {
    forall i :: 0 <= i < |t| && t[i].step.NfaFinalState? ==>
      i > 0 && t[i - 1].step == ExpandState(t[i].step.queue, key)
  }

  /** No engine state is decompressed in `t`. */
  predicate NeverExpanded(t: seq<Event>)
  {
    forall i :: 0 <= i < |t| ==> !t[i].step.ExpandState?
  }

  /** Suffix-loop discipline: every queue runs to `end`, records whether the
      engine is still alive, and is followed by an accept query exactly when
      it is; every accept query follows the live run of its own queue. */
  predicate SuffixDiscipline(t: seq<Event>, end: nat, o: Oracles)
  {
    && (forall i :: 0 <= i < |t| && t[i].step.SuffixFinalState? ==>
          i > 0 && t[i - 1].step == QueueExec(t[i].step.queue, end, true))
    && (forall i :: 0 <= i < |t| && t[i].step.QueueExec? ==> QueueRunOk(t, i, end, o))
  }

  lemma ProjectOne(e: Event)
    ensures Milestones([e]) == MilestoneOf(e)
    ensures NfaChecked([e]) == CheckedBy(e)
    ensures SuffixRan([e]) == RunBy(e)
  {
    assert [e][1..] == [];
  }

  lemma {:induction false} MilestonesAppend(a: seq<Event>, b: seq<Event>)
    ensures Milestones(a + b) == Milestones(a) + Milestones(b)
    decreases |a|
  {
    if |a| == 0 {
      assert a + b == b;
    } else {
      var ab := a + b;
      assert ab[0] == a[0];
      assert ab[1..] == a[1..] + b;
      MilestonesAppend(a[1..], b);
      assert Milestones(ab) == MilestoneOf(a[0]) + (Milestones(a[1..]) + Milestones(b));
    }
  }

  lemma {:induction false} NfaCheckedAppend(a: seq<Event>, b: seq<Event>)
    ensures NfaChecked(a + b) == NfaChecked(a) + NfaChecked(b)
    decreases |a|
  {
    if |a| == 0 {
      assert a + b == b;
    } else {
      var ab := a + b;
      assert ab[0] == a[0];
      assert ab[1..] == a[1..] + b;
      NfaCheckedAppend(a[1..], b);
      assert NfaChecked(ab) == CheckedBy(a[0]) + (NfaChecked(a[1..]) + NfaChecked(b));
    }
  }

  lemma {:induction false} SuffixRanAppend(a: seq<Event>, b: seq<Event>)
    ensures SuffixRan(a + b) == SuffixRan(a) + SuffixRan(b)
    decreases |a|
  {
    if |a| == 0 {
      assert a + b == b;
    } else {
      var ab := a + b;
      assert ab[0] == a[0];
      assert ab[1..] == a[1..] + b;
      SuffixRanAppend(a[1..], b);
      assert SuffixRan(ab) == RunBy(a[0]) + (SuffixRan(a[1..]) + SuffixRan(b));
    }
  }

  /** The three projections distribute over running one trace after
      another. */
  lemma ProjectAppend(a: seq<Event>, b: seq<Event>)
    ensures Milestones(a + b) == Milestones(a) + Milestones(b)
    ensures NfaChecked(a + b) == NfaChecked(a) + NfaChecked(b)
    ensures SuffixRan(a + b) == SuffixRan(a) + SuffixRan(b)
  {
    MilestonesAppend(a, b);
    NfaCheckedAppend(a, b);
    SuffixRanAppend(a, b);
  }

  lemma AppendKeepsLoopFacts(a: seq<Event>, b: seq<Event>, o: Oracles, offset: nat, key: u8)
    ensures ChecksAnswered(a, o, offset) && ChecksAnswered(b, o, offset) ==> ChecksAnswered(a + b, o, offset)
    ensures ExpandedBeforeCheck(a, key) && ExpandedBeforeCheck(b, key) ==> ExpandedBeforeCheck(a + b, key)
    ensures NeverExpanded(a) && NeverExpanded(b) ==> NeverExpanded(a + b)
  {
    var t := a + b;
    forall i | |a| <= i < |t|
      ensures t[i] == b[i - |a|]
    {
    }
    forall i | 0 <= i < |a|
      ensures t[i] == a[i]
    {
    }
  }

  lemma AppendKeepsSuffixDiscipline(a: seq<Event>, b: seq<Event>, end: nat, o: Oracles)
    requires SuffixDiscipline(a, end, o) && SuffixDiscipline(b, end, o)
    ensures SuffixDiscipline(a + b, end, o)
  {
    var t := a + b;
    forall i | 0 <= i < |t| && t[i].step.SuffixFinalState?
      ensures i > 0 && t[i - 1].step == QueueExec(t[i].step.queue, end, true)
    {
      if i >= |a| {
        assert t[i] == b[i - |a|];
        assert t[i - 1] == b[i - |a| - 1];
      } else {
        assert t[i] == a[i];
        assert t[i - 1] == a[i - 1];
      }
    }
    forall i | 0 <= i < |t| && t[i].step.QueueExec?
      ensures QueueRunOk(t, i, end, o)
    {
      AppendKeepsQueueRun(a, b, end, o, i);
    }
  }

  /** The conditions `SuffixDiscipline` places on a queue run at `i`. */
  predicate QueueRunOk(t: seq<Event>, i: nat, end: nat, o: Oracles)
    requires i < |t| && t[i].step.QueueExec?
  {
    && t[i].step.end == end
    && t[i].step.alive == o.queueExec(t[i].step.queue, end)
    && (t[i].step.alive <==> i + 1 < |t| && t[i + 1].step == SuffixFinalState(t[i].step.queue))
  }

  lemma AppendKeepsQueueRun(a: seq<Event>, b: seq<Event>, end: nat, o: Oracles, i: nat)
    requires SuffixDiscipline(a, end, o) && SuffixDiscipline(b, end, o)
    requires i < |a + b| && (a + b)[i].step.QueueExec?
    ensures QueueRunOk(a + b, i, end, o)
  {
    var t := a + b;
    if i >= |a| {
      var j := i - |a|;
      assert t[i] == b[j];
      assert QueueRunOk(b, j, end, o);
      if i + 1 < |t| {
        assert t[i + 1] == b[j + 1];
      }
    } else {
      assert t[i] == a[i];
      assert QueueRunOk(a, i, end, o);
      if i + 1 < |a| {
        assert t[i + 1] == a[i + 1];
      } else if |b| > 0 {
        assert t[i + 1] == b[0];
        assert !b[0].step.SuffixFinalState?;
      }
    }
  }

  /** A common first element keeps a prefix a prefix. */
  lemma PrefixCons(q: nat, a: seq<nat>, b: seq<nat>)
    requires a <= b
    ensures [q] + a <= [q] + b
  {
    assert ([q] + b)[..|a| + 1] == [q] + a;
  }

  /** One engine's turn in the accept check checks that engine alone, with
      its own answer, after decompressing its state in streaming mode. */
  lemma NfaVisitFacts(q: nat, streaming: bool, key: u8, halted: bool, o: Oracles, offset: nat)
    ensures var v := NfaVisit(q, streaming, key, halted);
      && NfaChecked(v) == [q] && Milestones(v) == [] && SuffixRan(v) == []
      && ((halted <==> o.checkFinal(AtEodCheck, q, offset) == Halt) ==> ChecksAnswered(v, o, offset))
      && (streaming ==> ExpandedBeforeCheck(v, key))
      && (!streaming ==> NeverExpanded(v))
  {
    var v := NfaVisit(q, streaming, key, halted);
    var fin := Event(NfaFinalState(q), halted);
    ProjectOne(fin);
    if streaming {
      var ex := Event(ExpandState(q, key), false);
      assert v == [ex] + [fin];
      ProjectOne(ex);
      ProjectAppend([ex], [fin]);
    } else {
      assert v == [fin];
    }
  }

  /** The accept check visits a prefix of `qs` in order, every one of them if
      nobody halted, and each check's halt flag is the engine's answer. */
  lemma {:induction false} NfaLoopVisitsPrefix(qs: seq<nat>, streaming: bool, key: u8, offset: nat, o: Oracles, m: Markers)
    ensures var r := NfaLoop(qs, streaming, key, offset, o, m);
      && NfaChecked(r.trace) <= qs
      && (r.ctl == Continue ==> NfaChecked(r.trace) == qs)
      && Milestones(r.trace) == [] && SuffixRan(r.trace) == []
      && ChecksAnswered(r.trace, o, offset)
    decreases |qs|
  {
    if |qs| > 0 {
      var q := qs[0];
      var c := o.checkFinal(AtEodCheck, q, offset);
      var visit := NfaVisit(q, streaming, key, c == Halt);
      NfaVisitFacts(q, streaming, key, c == Halt, o, offset);
      assert qs == [q] + qs[1..];
      if c == Halt {
        PrefixCons(q, [], qs[1..]);
      } else {
        var rest := NfaLoop(qs[1..], streaming, key, offset, o, m);
        NfaLoopVisitsPrefix(qs[1..], streaming, key, offset, o, m);
        ProjectAppend(visit, rest.trace);
        AppendKeepsLoopFacts(visit, rest.trace, o, offset, key);
        PrefixCons(q, NfaChecked(rest.trace), qs[1..]);
      }
    }
  }

  /** In streaming mode every accept check is immediately preceded by the
      decompression of that engine's state with `key`; in block mode no state
      is ever decompressed. */
  lemma {:induction false} NfaLoopExpandsBeforeCheck(qs: seq<nat>, streaming: bool, key: u8, offset: nat, o: Oracles, m: Markers)
    ensures var t := NfaLoop(qs, streaming, key, offset, o, m).trace;
      && (streaming ==> ExpandedBeforeCheck(t, key))
      && (!streaming ==> NeverExpanded(t))
    decreases |qs|
  {
    if |qs| > 0 {
      var q := qs[0];
      var c := o.checkFinal(AtEodCheck, q, offset);
      var visit := NfaVisit(q, streaming, key, c == Halt);
      NfaVisitFacts(q, streaming, key, c == Halt, o, offset);
      if c != Halt {
        var rest := NfaLoop(qs[1..], streaming, key, offset, o, m).trace;
        NfaLoopExpandsBeforeCheck(qs[1..], streaming, key, offset, o, m);
        AppendKeepsLoopFacts(visit, rest, o, offset, key);
      }
    }
  }

  /** The active-engine check visits, in ascending order, exactly the live
      engines compiled as EOD-capable (up to and including the first that
      halts), answers Halt only because an engine did, and leaves the
      bitmaps alone. */
  lemma ActiveCheckVisitsAscendingPrefix(env: Env, m: Markers)
    requires env.cfg.eodNfaMask.Some?
    ensures var r := CheckNfaEod(env, m);
      var qs := SparseMembers(env.cfg.eodNfaMask.value, m.active, env.cfg.activeArrayCount);
      && r.markers == m
      && NfaChecked(r.trace) <= qs
      && (r.ctl == Continue ==> NfaChecked(r.trace) == qs)
      && ChecksAnswered(r.trace, env.o, env.offset)
  {
    var qs := SparseMembers(env.cfg.eodNfaMask.value, m.active, env.cfg.activeArrayCount);
    NfaLoopVisitsPrefix(qs, env.buffer.Streaming?, DecompressKey(env.buffer), env.offset, env.o, m);
  }

  /** The decompression key: block mode never decompresses; streaming mode
      decompresses each checked engine just before its check, keyed by the
      last history byte (0 for an empty history). */
  lemma DecompressKeyUse(env: Env, m: Markers)
    ensures env.buffer.Block? ==> NeverExpanded(CheckNfaEod(env, m).trace)
    ensures env.buffer.Streaming? ==>
      ExpandedBeforeCheck(CheckNfaEod(env, m).trace,
                          if |env.buffer.history| > 0 then env.buffer.history[|env.buffer.history| - 1] else 0)
  {
    if env.cfg.eodNfaMask.Some? {
      var qs := SparseMembers(env.cfg.eodNfaMask.value, m.active, env.cfg.activeArrayCount);
      NfaLoopExpandsBeforeCheck(qs, env.buffer.Streaming?, DecompressKey(env.buffer), env.offset, env.o, m);
    }
  }

  /** One engine's turn in the suffix check runs that engine alone, to
      `end`, and queries it right after exactly when it is still alive. */
  lemma SuffixVisitFacts(q: nat, end: nat, alive: bool, halted: bool, o: Oracles, offset: nat)
    requires alive == o.queueExec(q, end)
    requires alive ==> (halted <==> o.checkFinal(AfterQueueRun, q, offset) == Halt)
    ensures var v := SuffixVisit(q, end, alive, halted);
      && SuffixRan(v) == [q] && Milestones(v) == [] && NfaChecked(v) == []
      && SuffixDiscipline(v, end, o) && ChecksAnswered(v, o, offset)
  {
    var v := SuffixVisit(q, end, alive, halted);
    var run := Event(QueueExec(q, end, alive), false);
    ProjectOne(run);
    if alive {
      var fin := Event(SuffixFinalState(q), halted);
      assert v == [run] + [fin];
      ProjectOne(fin);
      ProjectAppend([run], [fin]);
    } else {
      assert v == [run];
    }
  }

  /** The suffix loop runs a prefix of `qs` in order, every one of them if
      nobody halted. */
  lemma {:induction false} SuffixLoopVisitsPrefix(qs: seq<nat>, end: nat, offset: nat, o: Oracles, m: Markers)
    ensures var r := SuffixLoop(qs, end, offset, o, m);
      && SuffixRan(r.trace) <= qs
      && (r.ctl == Continue ==> SuffixRan(r.trace) == qs)
      && Milestones(r.trace) == [] && NfaChecked(r.trace) == []
    decreases |qs|
  {
    if |qs| > 0 {
      var q := qs[0];
      var alive := o.queueExec(q, end);
      var halted := alive && o.checkFinal(AfterQueueRun, q, offset) == Halt;
      var visit := SuffixVisit(q, end, alive, halted);
      SuffixVisitFacts(q, end, alive, halted, o, offset);
      assert qs == [q] + qs[1..];
      if halted {
        PrefixCons(q, [], qs[1..]);
      } else {
        var rest := SuffixLoop(qs[1..], end, offset, o, m);
        SuffixLoopVisitsPrefix(qs[1..], end, offset, o, m);
        ProjectAppend(visit, rest.trace);
        PrefixCons(q, SuffixRan(rest.trace), qs[1..]);
      }
    }
  }

  /** In the suffix loop an engine's accept state is queried exactly when
      running its queue to the end left it alive, right after that run, and
      each query's halt flag is the engine's answer. */
  lemma {:induction false} SuffixLoopChecksOnlyAlive(qs: seq<nat>, end: nat, offset: nat, o: Oracles, m: Markers)
    ensures var t := SuffixLoop(qs, end, offset, o, m).trace;
      SuffixDiscipline(t, end, o) && ChecksAnswered(t, o, offset)
    decreases |qs|
  {
    if |qs| > 0 {
      var q := qs[0];
      var alive := o.queueExec(q, end);
      var halted := alive && o.checkFinal(AfterQueueRun, q, offset) == Halt;
      var visit := SuffixVisit(q, end, alive, halted);
      SuffixVisitFacts(q, end, alive, halted, o, offset);
      if !halted {
        var rest := SuffixLoop(qs[1..], end, offset, o, m).trace;
        SuffixLoopChecksOnlyAlive(qs[1..], end, offset, o, m);
        AppendKeepsSuffixDiscipline(visit, rest, end, o);
        AppendKeepsLoopFacts(visit, rest, o, offset, 0);
      }
    }
  }

  /** The suffix check goes over the engines left active after the anchored
      scan, in ascending order, runs each to the end of the live buffer and
      queries only the ones that survive; the bitmaps are left alone. */
  lemma SuffixCheckVisitsActive(env: Env, m: Markers)
    ensures var r := CheckEodSuffixes(env, m);
      var qs := Members(m.active, 0, env.cfg.activeArrayCount);
      && r.markers == m
      && SuffixRan(r.trace) <= qs
      && (r.ctl == Continue ==> SuffixRan(r.trace) == qs)
      && SuffixDiscipline(r.trace, LiveLength(env.buffer), env.o)
      && ChecksAnswered(r.trace, env.o, env.offset)
  {
    var qs := Members(m.active, 0, env.cfg.activeArrayCount);
    SuffixLoopVisitsPrefix(qs, LiveLength(env.buffer), env.offset, env.o, m);
    SuffixLoopChecksOnlyAlive(qs, LiveLength(env.buffer), env.offset, env.o, m);
  }
}
