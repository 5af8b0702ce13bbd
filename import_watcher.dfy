/**
 * The spreadsheet watcher (scripts/watch-productos-vender.mjs): file events ask for
 * an import, requests are debounced through a single timer, at most one import runs
 * at a time, and a request that arrives during a run is remembered (latest reason
 * wins) and rescheduled through the debounce once the run ends.
 *
 * File events, timer expiry and import completion are the environment's events; the
 * wall clock is not modelled, only which timer is pending and with what delay.
 */
module ImportWatcher {
  import opened Wrappers
  import opened CatalogImport

  const DEBOUNCE_MS: nat := 2000

  const REASON_READY := "inicio"
  const REASON_CHANGE := "cambio en archivo"
  const REASON_ADD := "archivo agregado"

  /** A pending `setTimeout`: the reason its callback captured and its delay. */
  datatype Timer = Timer(reason: string, delayMs: nat)

  datatype WatchLog =
    | Watching
    | Imported(reason: string, total: nat)
    | ImportFailed(reason: string, error: ImportError)

  /** The file events the watcher subscribes to. */
  datatype WatchEvent = Ready | Change | Add

  /**
   * The script's module state: `timeoutId` (as the timer it names), `running`,
   * `pendingReason`, plus the reason of the run in progress, counts of the timers
   * set, cleared and fired, and the log.
   */
  datatype WatchState = WatchState(
    timer: Option<Timer>,
    running: bool,
    pendingReason: Option<string>,
    runReason: string,
    timersSet: nat,
    timersCleared: nat,
    timersFired: nat,
    log: seq<WatchLog>)

  const Initial := WatchState(None, false, None, "", 0, 0, 0, [])

  /** JavaScript truthiness of `pendingReason`: null and '' are falsy. */
  predicate HasPending(pending: Option<string>) {
    pending.Some? && pending.value != []
  }

  /**
   * `scheduleImport(reason)`: the reason is never lost, it is either the pending
   * timer's or the one remembered for after the run; during a run no timer is set
   * or cleared; nothing is logged and no run starts.
   */
  function Schedule(s: WatchState, reason: string): (r: WatchState)
    ensures r.timer == Some(Timer(reason, DEBOUNCE_MS)) || r.pendingReason == Some(reason)
    ensures s.running ==> r.timer == s.timer && r.timersSet == s.timersSet && r.timersCleared == s.timersCleared
    ensures r.running == s.running && r.log == s.log && r.timersFired == s.timersFired
  {
    if s.running then
      s.(pendingReason := Some(reason))
    else
      s.(timer := Some(Timer(reason, DEBOUNCE_MS)),
         timersSet := s.timersSet + 1,
         timersCleared := s.timersCleared + (if s.timer.Some? then 1 else 0))
  }

  /**
   * The timer callback up to the `await`: a run starts for the timer's reason, and
   * the timer is no longer live, so the live-timer count drops by one.
   */
  function Fire(s: WatchState): (r: WatchState)
    requires s.timer.Some?
    ensures r.running && r.timer.None? && r.runReason == s.timer.value.reason
    ensures r.timersSet - r.timersCleared - r.timersFired == s.timersSet - s.timersCleared - s.timersFired - 1
    ensures r.log == s.log
  {
    s.(running := true, timer := None, runReason := s.timer.value.reason, timersFired := s.timersFired + 1)
  }

  /** The log line for a finished run; a thrown error is caught and logged. */
  function Outcome(reason: string, outcome: Result<nat, ImportError>): WatchLog {
    match outcome
    case Ok(total) => Imported(reason, total)
    case Err(e) => ImportFailed(reason, e)
  }

  /**
   * The callback after the `await`, then the `finally` block: the watcher is idle,
   * the run's outcome is logged, nothing is left pending, and a pending reason has
   * become a debounced timer.
   */
  function Finish(s: WatchState, outcome: Result<nat, ImportError>): (r: WatchState)
    requires s.running
    ensures !r.running && !HasPending(r.pendingReason)
    ensures r.log == s.log + [Outcome(s.runReason, outcome)]
    ensures HasPending(s.pendingReason) ==> r.timer == Some(Timer(s.pendingReason.value, DEBOUNCE_MS))
  {
    var idle := s.(running := false, log := s.log + [Outcome(s.runReason, outcome)]);
    if HasPending(idle.pendingReason) then
      Schedule(idle.(pendingReason := None), idle.pendingReason.value)
    else
      idle
  }

  function EventReason(e: WatchEvent): string {
    match e
    case Ready => REASON_READY
    case Change => REASON_CHANGE
    case Add => REASON_ADD
  }

  /**
   * The watcher's handlers: `ready` logs and then schedules, `change` and `add`
   * schedule; in every case the event's reason is kept, in the timer or as pending.
   */
  function Handle(s: WatchState, e: WatchEvent): (r: WatchState)
    ensures r.timer == Some(Timer(EventReason(e), DEBOUNCE_MS)) || r.pendingReason == Some(EventReason(e))
    ensures r.log == if e == Ready then s.log + [Watching] else s.log
    ensures r.running == s.running
  {
    var logged := if e == Ready then s.(log := s.log + [Watching]) else s;
    Schedule(logged, EventReason(e))
  }

  /**
   * What the script maintains: no timer is pending while a run is in progress, the
   * pending timer has the debounce delay, every timer set was cleared, fired or is
   * the one pending (so at most one is live), and nothing is left pending when idle.
   */
  predicate Inv(s: WatchState) {
    && (s.running ==> s.timer.None?)
    && (s.timer.Some? ==> s.timer.value.delayMs == DEBOUNCE_MS)
    && s.timersSet == s.timersCleared + s.timersFired + (if s.timer.Some? then 1 else 0)
    && (!s.running ==> !HasPending(s.pendingReason))
  }

  lemma InitialInv()
    ensures Inv(Initial)
  {
  }

  /**
   * A request while idle clears the pending timer, if any, and leaves exactly one
   * timer, carrying this reason and the debounce delay.
   */
  lemma ScheduleWhileIdle(s: WatchState, reason: string)
    requires Inv(s) && !s.running
    ensures var r := Schedule(s, reason);
      && r.timer == Some(Timer(reason, DEBOUNCE_MS))
      && r.timersSet - r.timersCleared - r.timersFired == 1
      && r.timersCleared == s.timersCleared + (if s.timer.Some? then 1 else 0)
      && !r.running && r.pendingReason == s.pendingReason && r.log == s.log
  {
  }

  lemma ScheduleInv(s: WatchState, reason: string)
    requires Inv(s)
    ensures Inv(Schedule(s, reason))
  {
  }

  /** A timer fires only when no run is in progress, so runs never overlap. */
  lemma FireStartsOneRun(s: WatchState)
    requires Inv(s) && s.timer.Some?
    ensures !s.running
    ensures var r := Fire(s); r.running && r.timer.None? && r.runReason == s.timer.value.reason && Inv(r)
  {
  }

  /**
   * A finished run, successful or not, is logged and leaves the watcher idle or,
   * when a reason is pending, with that reason cleared and exactly one debounced
   * timer for it.
   */
  lemma FinishReschedules(s: WatchState, outcome: Result<nat, ImportError>)
    requires Inv(s) && s.running
    ensures var r := Finish(s, outcome);
      && !r.running
      && r.log == s.log + [Outcome(s.runReason, outcome)]
      && (HasPending(s.pendingReason) ==>
            r.timer == Some(Timer(s.pendingReason.value, DEBOUNCE_MS)) && r.pendingReason.None?
            && r.timersSet == s.timersSet + 1 && r.timersCleared == s.timersCleared)
      && (!HasPending(s.pendingReason) ==> r.timer.None? && r.timersSet == s.timersSet)
      && Inv(r)
  {
  }

  lemma HandleInv(s: WatchState, e: WatchEvent)
    requires Inv(s)
    ensures Inv(Handle(s, e))
    ensures e == Ready ==> Handle(s, e).log == s.log + [Watching]
    ensures e != Ready ==> Handle(s, e) == Schedule(s, EventReason(e))
  {
  }

  /** `scheduleImport` called once per reason, in order. */
  function ScheduleAll(s: WatchState, reasons: seq<string>): WatchState
    decreases |reasons|
  {
    if reasons == [] then s else Schedule(ScheduleAll(s, reasons[..|reasons| - 1]), reasons[|reasons| - 1])
  }

  /**
   * A burst of requests while idle leaves one timer, for the latest reason; every
   * earlier timer of the burst was cleared.
   */
  lemma {:induction false} BurstWhileIdle(s: WatchState, reasons: seq<string>)
    requires Inv(s) && !s.running && reasons != []
    ensures var r := ScheduleAll(s, reasons);
      && r.timer == Some(Timer(reasons[|reasons| - 1], DEBOUNCE_MS))
      && r.timersSet == s.timersSet + |reasons|
      && r.timersFired == s.timersFired
      && !r.running && r.pendingReason == s.pendingReason && r.log == s.log
      && Inv(r)
    decreases |reasons|
  {
    var init := reasons[..|reasons| - 1];
    if init != [] {
      BurstWhileIdle(s, init);
      ScheduleInv(ScheduleAll(s, init), reasons[|reasons| - 1]);
    }
  }

  /** A burst of requests during a run creates no timer; the latest reason is the one kept. */
  lemma {:induction false} BurstWhileRunning(s: WatchState, reasons: seq<string>)
    requires s.running && reasons != []
    ensures ScheduleAll(s, reasons) == s.(pendingReason := Some(reasons[|reasons| - 1]))
    decreases |reasons|
  {
    var init := reasons[..|reasons| - 1];
    if init != [] {
      BurstWhileRunning(s, init);
    }
  }

  /** The watcher script's module-level variables. */
  class Watcher {
    var timer: Option<Timer>
    var running: bool
    var pendingReason: Option<string>
    var runReason: string
    var timersSet: nat
    var timersCleared: nat
    var timersFired: nat
    var log: seq<WatchLog>

    function State(): WatchState
      reads this
    {
      WatchState(timer, running, pendingReason, runReason, timersSet, timersCleared, timersFired, log)
    }

    constructor ()
      ensures State() == Initial && Inv(State())
    {
      timer := None;
      running := false;
      pendingReason := None;
      runReason := "";
      timersSet := 0;
      timersCleared := 0;
      timersFired := 0;
      log := [];
    }

    method ScheduleImport(reason: string)
      modifies this
      ensures State() == Schedule(old(State()), reason)
      ensures old(Inv(State())) ==> Inv(State())
    {
      if Inv(State()) {
        ScheduleInv(State(), reason);
      }
      if running {
        pendingReason := Some(reason);
        return;
      }
      if timer.Some? {
        timersCleared := timersCleared + 1;
      }
      timer := Some(Timer(reason, DEBOUNCE_MS));
      timersSet := timersSet + 1;
    }

    /** The pending timer expires and its callback starts the import. */
    method TimerFires()
      requires timer.Some?
      modifies this
      ensures State() == Fire(old(State()))
      ensures old(Inv(State())) ==> Inv(State()) && !old(running)
    {
      runReason := timer.value.reason;
      running := true;
      timer := None;
      timersFired := timersFired + 1;
    }

    /** The awaited import settles; its error, if any, is caught and logged. */
    method ImportFinishes(outcome: Result<nat, ImportError>)
      requires running
      modifies this
      ensures State() == Finish(old(State()), outcome)
      ensures old(Inv(State())) ==> Inv(State())
    {
      if Inv(State()) {
        FinishReschedules(State(), outcome);
      }
      log := log + [Outcome(runReason, outcome)];
      running := false;
      if HasPending(pendingReason) {
        var retryReason := pendingReason.value;
        pendingReason := None;
        ScheduleImport(retryReason);
      }
    }

    method OnEvent(e: WatchEvent)
      modifies this
      ensures State() == Handle(old(State()), e)
      ensures old(Inv(State())) ==> Inv(State())
    {
      if Inv(State()) {
        HandleInv(State(), e);
      }
      if e == Ready {
        log := log + [Watching];
      }
      ScheduleImport(EventReason(e));
    }
  }
}
