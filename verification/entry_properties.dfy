/** Facts about the two entry points: the streaming bail-out beyond the
    width bound, and what each entry hands to the shared driver. */
module EntryProperties {
  import opened RoseTypes
  import opened Trace
  import opened Context
  import opened Eod
  import opened LoopProperties
  import opened DriverComplete

  /** Beyond a finite width bound the streaming entry does nothing at all
      and consults no collaborator: any other set of collaborators gives the
      same result. */
  lemma StreamBeyondBoundIsNoOp(cfg: Engine, offset: nat, s: Scratch, storedGroups: nat, m: Markers, o: Oracles, o2: Oracles)
    requires cfg.requiresEodCheck && s.buffer.Streaming?
    requires BeyondBound(cfg, offset)
    ensures StreamEodExec(cfg, offset, s, storedGroups, m, o) == StreamEodExec(cfg, offset, s, storedGroups, m, o2)
  {
  }

  /** Within the bound the streaming entry runs the shared driver, over the
      streamed history, at `offset`, with the context freshly reset, and on
      the bitmaps it was given; its steps and answer are the driver's, so
      when it carries on every configured step ran, once and in order. */
  lemma StreamEodRunsDriver(cfg: Engine, offset: nat, s: Scratch, storedGroups: nat, m: Markers, o: Oracles)
    requires cfg.requiresEodCheck && s.buffer.Streaming?
    requires !BeyondBound(cfg, offset)
    requires cfg.ematcher.Some? ==> |s.buffer.history| > 0
    ensures var r := StreamEodExec(cfg, offset, s, storedGroups, m, o);
      var env := Env(cfg, s.buffer, offset, InitContext(storedGroups, offset, s).ctx, o);
      && EnvOk(env)
      && AsStage(r) == EodExecI(env, m)
      && (r.ctl == Continue ==> Completed(r.trace, env, RunEodProgram(env, m).markers, r.markers))
  {
    var env := Env(cfg, s.buffer, offset, InitContext(storedGroups, offset, s).ctx, o);
    EveryConfiguredStepRuns(env, m);
  }

  /** A block-mode evaluation flushes the last-byte history for the whole
      block, and then runs the shared driver over the block, at `offset`,
      with the last processed offset set to the block length, on the
      bitmaps the flush left; when it carries on, the flush is followed by
      every configured step, once and in order. */
  lemma BlockEodRunsDriver(cfg: Engine, offset: nat, s: Scratch, m: Markers, o: Oracles)
    requires cfg.requiresEodCheck && !BeyondBound(cfg, offset) && s.buffer.Block?
    requires cfg.eodProgram.Some? ==> s.ctx.filledDelayedSlots == 0
    requires cfg.ematcher.Some? ==> |s.buffer.data| > 0
    ensures var r := BlockEodExec(cfg, offset, s, m, o);
      var len := |s.buffer.data|;
      var env := Env(cfg, s.buffer, offset, s.ctx.(lastEndOffset := len), o);
      var m1 := o.flushHistory(len, m);
      var d := EodExecI(env, m1);
      && EnvOk(env)
      && r.trace == [Event(PrepareHistory(len), false)] + d.trace
      && r.markers == d.markers && r.ctl == d.ctl
      && (r.ctl == Continue ==>
            && Milestones(r.trace) == [PrepareHistory(len)] + Planned(env)
            && NfaChecked(r.trace) == DueChecks(env, RunEodProgram(env, m1).markers)
            && SuffixRan(r.trace) == DueSuffixes(env, r.markers))
  {
    var len := |s.buffer.data|;
    var env := Env(cfg, s.buffer, offset, s.ctx.(lastEndOffset := len), o);
    var m1 := o.flushHistory(len, m);
    var d := EodExecI(env, m1);
    EveryConfiguredStepRuns(env, m1);
    SingleStep(Event(PrepareHistory(len), false));
    ProjectAppend([Event(PrepareHistory(len), false)], d.trace);
  }
}
