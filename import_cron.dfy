/**
 * The scheduled refresh (scripts/refresh-productos-cron.mjs): an import runs at
 * startup and on every cron tick; a request that arrives during a run sets a
 * single `rerun` flag, and the run's `finally` block starts one follow-up run at once.
 *
 * Cron ticks and import completion are the environment's events; the cron
 * expression is only chosen, not parsed or scheduled.
 */
module ImportCron {
  import opened Wrappers
  import opened CatalogImport

  const DEFAULT_CRON := "0 3 * * *"

  const SOURCE_STARTUP := "inicio"
  const SOURCE_TICK := "cron"
  const SOURCE_RERUN := "pendiente"

  /** `PRODUCTOS_CRON_EXPRESSION ?? DEFAULT_CRON`. */
  function CronExpression(env: Option<string>): (e: string)
    ensures env.None? ==> e == DEFAULT_CRON
    ensures env.Some? ==> e == env.value
  {
    env.GetOr(DEFAULT_CRON)
  }

  datatype CronLog =
    | Started(expression: string)
    | Deferred
    | Refreshed(source: string, total: nat)
    | RefreshFailed(source: string, error: ImportError)

  /** The script's `running` and `rerun` flags, the source of the run in progress, the runs started and the log. */
  datatype CronState = CronState(running: bool, rerun: bool, source: string, runsStarted: nat, log: seq<CronLog>)

  const Initial := CronState(false, false, "", 0, [])

  /**
   * `runImport(source)` up to its `await`: afterwards a run is in progress, and a
   * new one was started exactly when none was; a run in progress keeps its source,
   * and the log only grows, by at most one line.
   */
  function Request(s: CronState, source: string): (r: CronState)
    ensures r.running
    ensures r.runsStarted == s.runsStarted + 1 <==> !s.running
    ensures r.runsStarted <= s.runsStarted + 1
    ensures s.running ==> r.source == s.source && r.rerun
    ensures s.log <= r.log && |r.log| <= |s.log| + 1
  {
    if s.running then
      s.(rerun := true, log := s.log + [Deferred])
    else
      s.(running := true, source := source, runsStarted := s.runsStarted + 1)
  }

  function Outcome(source: string, outcome: Result<nat, ImportError>): CronLog {
    match outcome
    case Ok(total) => Refreshed(source, total)
    case Err(e) => RefreshFailed(source, e)
  }

  /**
   * The run settles: its outcome is logged after everything logged before, the
   * flag is cleared, and a run is in progress afterwards exactly when one was owed.
   */
  function Finish(s: CronState, outcome: Result<nat, ImportError>): (r: CronState)
    requires s.running
    ensures r.running == s.rerun && !r.rerun
    ensures s.log + [Outcome(s.source, outcome)] <= r.log
  {
    var idle := s.(running := false, log := s.log + [Outcome(s.source, outcome)]);
    if idle.rerun then Request(idle.(rerun := false), SOURCE_RERUN) else idle
  }

  /**
   * The state right after the script starts: the chosen expression is logged and
   * the startup run, the first, is in progress with no follow-up owed.
   */
  function Startup(env: Option<string>): (r: CronState)
    ensures r.running && !r.rerun && r.source == SOURCE_STARTUP && r.runsStarted == 1
    ensures r.log == [Started(CronExpression(env))]
  {
    Request(Initial.(log := [Started(CronExpression(env))]), SOURCE_STARTUP)
  }

  /** A follow-up is only ever owed while a run is in progress. */
  predicate Inv(s: CronState) {
    !s.running ==> !s.rerun
  }

  /** A request while idle marks the run as started before it begins. */
  lemma RunWhileIdle(s: CronState, source: string)
    requires Inv(s) && !s.running
    ensures var r := Request(s, source);
      r.running && !r.rerun && r.source == source && r.runsStarted == s.runsStarted + 1 && r.log == s.log
  {
  }

  lemma RunInv(s: CronState, source: string)
    requires Inv(s)
    ensures Inv(Request(s, source))
  {
  }

  /**
   * A finished run, successful or not, is logged; without a request during it the
   * script goes idle, and with one the flag is cleared and one follow-up starts at once.
   */
  lemma FinishFollowUp(s: CronState, outcome: Result<nat, ImportError>)
    requires Inv(s) && s.running
    ensures var r := Finish(s, outcome);
      && r.log == s.log + [Outcome(s.source, outcome)]
      && (!s.rerun ==> !r.running && r.runsStarted == s.runsStarted)
      && (s.rerun ==> r.running && !r.rerun && r.source == SOURCE_RERUN && r.runsStarted == s.runsStarted + 1)
      && Inv(r)
  {
  }

  /** `runImport` called once per source, in order. */
  function RunAll(s: CronState, sources: seq<string>): CronState
    decreases |sources|
  {
    if sources == [] then s else Request(RunAll(s, sources[..|sources| - 1]), sources[|sources| - 1])
  }

  /** Any number of requests during a run collapse into the one flag: nothing starts. */
  lemma {:induction false} RequestsDuringRun(s: CronState, sources: seq<string>)
    requires s.running
    ensures var r := RunAll(s, sources);
      r.running && r.source == s.source && r.runsStarted == s.runsStarted
      && r.rerun == (s.rerun || sources != [])
      && |r.log| == |s.log| + |sources|
    decreases |sources|
  {
    if sources != [] {
      RequestsDuringRun(s, sources[..|sources| - 1]);
    }
  }

  /**
   * However many requests (at least one) arrive during a run, exactly one
   * follow-up run starts when it ends.
   */
  lemma Coalesce(s: CronState, sources: seq<string>, outcome: Result<nat, ImportError>)
    requires Inv(s) && s.running && sources != []
    ensures var r := Finish(RunAll(s, sources), outcome);
      r.running && !r.rerun && r.source == SOURCE_RERUN && r.runsStarted == s.runsStarted + 1
  {
    RequestsDuringRun(s, sources);
  }

  /** The cron script's module-level variables. */
  class Refresher {
    const expression: string
    var running: bool
    var rerun: bool
    var source: string
    var runsStarted: nat
    var log: seq<CronLog>

    function State(): CronState
      reads this
    {
      CronState(running, rerun, source, runsStarted, log)
    }

    /** Script start: pick the expression and issue the startup run. */
    constructor (env: Option<string>)
      ensures expression == CronExpression(env)
      ensures State() == Startup(env) && Inv(State())
    {
      expression := env.GetOr(DEFAULT_CRON);
      running := false;
      rerun := false;
      source := "";
      runsStarted := 0;
      log := [Started(expression)];
      new;
      RunImport(SOURCE_STARTUP);
    }

    method RunImport(source: string)
      modifies this
      ensures State() == Request(old(State()), source)
      ensures old(Inv(State())) ==> Inv(State())
    {
      if running {
        rerun := true;
        log := log + [Deferred];
        return;
      }
      running := true;
      this.source := source;
      runsStarted := runsStarted + 1;
    }

    /** A cron tick. */
    method Tick()
      modifies this
      ensures State() == Request(old(State()), SOURCE_TICK)
      ensures old(Inv(State())) ==> Inv(State())
    {
      RunImport(SOURCE_TICK);
    }

    /** The awaited import settles; its error, if any, is caught and logged. */
    method ImportFinishes(outcome: Result<nat, ImportError>)
      requires running
      modifies this
      ensures State() == Finish(old(State()), outcome)
      ensures old(Inv(State())) ==> Inv(State())
    {
      log := log + [Outcome(source, outcome)];
      running := false;
      if rerun {
        rerun := false;
        RunImport(SOURCE_RERUN);
      }
    }
  }
}
