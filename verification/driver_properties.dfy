/** Control-flow facts about the shared EOD driver: where it stops early. */
module DriverProperties {
  import opened RoseTypes
  import opened Trace
  import opened Eod

  /** If the unconditional EOD program halts, it is the only step: no engine
      is checked, no report-delivery program runs, nothing is cleared or
      scanned and no suffix engine is run. */
  lemma EodProgramHaltStopsAll(env: Env, m: Markers)
    requires EnvOk(env)
    requires env.cfg.eodProgram.Some?
    requires env.o.program(env.cfg.eodProgram.value, env.offset, m).ctl == Halt
    ensures var r := EodExecI(env, m);
      && r.trace == [Event(EodProgram(env.cfg.eodProgram.value), true)]
      && r.ctl == Halt
      && r.markers == env.o.program(env.cfg.eodProgram.value, env.offset, m).markers
  {
  }

  /** With neither a report-delivery program nor an anchored matcher, the
      driver stops after the engine check: only the unconditional program
      and the engine check run, and the bitmaps are those the unconditional
      program left. */
  lemma NoEodAcceptsReturnsEarly(env: Env, m: Markers)
    requires EnvOk(env)
    requires env.cfg.eodIterProgram.None? && env.cfg.ematcher.None?
    ensures RanksIn(EodExecI(env, m).trace, 1, 2)
    ensures EodExecI(env, m).markers == RunEodProgram(env, m).markers
  {
    var s := RunEodProgram(env, m);
    if s.ctl == Continue {
      AppendKeepsOrder(s.trace, CheckNfaEod(env, s.markers).trace, 1);
    }
  }
}
