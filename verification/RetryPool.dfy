/**
 * The retrying thread pool (src/otaclient_common/retry_task_map.py) as a protocol of
 * atomic steps. A dispatcher thread, the worker callbacks, a watchdog, whoever calls
 * _rtm_shutdown and the consumer generator interleave freely; a run is any sequence of
 * enabled steps.
 *
 * A future is an index into `attempts`. An item is the number of the item in the input
 * iterable. The work queue is the set of attempts in phase Queued.
 */
module RetryPool {
  import opened Prelude

  datatype Config = Config(maxConcurrent: nat, maxTotalRetry: Option<nat>, maxRetryOnEntry: Option<nat>)

  /** Where one future, with its done callback, is. */
  datatype Phase =
    | Queued     // submitted, waits for a worker
    | Running
    | Done       // the future is done, the callback has not looked at the pool yet
    | Live       // callback: the pool was not shut down
    | Stored     // callback: the future is in the future queue
    | Entry      // callback: counted as a retry, about to ask the per-entry tracker
    | Retry      // callback: about to submit the item again
    | Record     // callback: over a limit, about to append to the exception deque
    | Abort      // callback: about to call _rtm_shutdown
    | Release    // callback: about to release the semaphore
    | Over       // callback returned, its permit is released or handed to the next attempt
    | Aborted    // callback returned after a shutdown request, its permit is kept
    | Dropped    // drained from the work queue by _rtm_shutdown, its permit is kept

  datatype Attempt = Attempt(item: nat, id: nat, ok: bool, stored: bool, phase: Phase)

  /** The lock of _rtm_shutdown, with the anonymous thread inside it. */
  datatype ShutdownLock = Free | Held | Draining

  datatype Origin = NotShut | Outer | Inner

  datatype Dispatcher =
    | Pull                   // about to take the next item
    | Check(id: nat)         // has an item, about to look at the shutdown flag
    | Acquire(id: nat)
    | Submit(id: nat)        // holds a permit
    | RecordRaise            // the iterable raised
    | CallShutdown
    | SetTotal               // the iterable is exhausted
    | Exited

  datatype Consumer =
    | Head                   // about to test the loop condition
    | TestEmpty              // about to test for "no task"
    | TestShutdown
    | Get
    | Ended                  // the loop condition became false
    | NoTask                 // returned since there is no task
    | Raised(cause: bool)

  datatype State = State(
    permits: nat,
    origin: Origin,
    lock: ShutdownLock,
    excs: bool,              // the exception deque is not empty
    retries: nat,            // values taken from the retry counter
    tracker: seq<(nat, nat)>,
    attempts: seq<Attempt>,
    tip: seq<nat>,           // the last attempt of each item dispatched
    dispatcher: Dispatcher,
    held: nat,               // permits in the hand of the dispatcher
    total: int,
    queue: seq<nat>,
    consumer: Consumer,
    finished: nat,
    yielded: seq<nat>,
    alarm: bool              // the watchdog recorded a failure, about to call _rtm_shutdown
  ) {
    predicate Shut() { origin != NotShut }
    predicate ConsumerRuns() { !consumer.Ended? && !consumer.NoTask? && !consumer.Raised? }
  }

  datatype Action =
    | PullItem(id: nat) | IterableEnds | IterableRaises | Dispatch
    | StartWork(a: nat) | FinishWork(a: nat, ok: bool) | Callback(a: nat)
    | WatchdogFails | WatchdogShuts
    | OuterShutdown
    | SetFlag | DropWork(a: nat) | EndDrain
    | Consume

  // ------ the per-entry retry tracker ------ //

  /** The entries of `reg` other than `id`, in order. */
  function Without(reg: seq<(nat, nat)>, id: nat): seq<(nat, nat)> {
    if reg == [] then []
    else if reg[0].0 == id then Without(reg[1..], id)
    else [reg[0]] + Without(reg[1..], id)
  }

  function CountOf(reg: seq<(nat, nat)>, id: nat): nat {
    if reg == [] then 0 else if reg[0].0 == id then reg[0].1 else CountOf(reg[1..], id)
  }

  /** _RetryOnEntryTracker.register: least recently registered first, at most `max` entries. */
  function Register(reg: seq<(nat, nat)>, max: nat, id: nat): (seq<(nat, nat)>, nat) {
    var n := CountOf(reg, id) + 1;
    var moved := Without(reg, id) + [(id, n)];
    (if |moved| > max then moved[1..] else moved, n)
  }

  // ------ the steps ------ //

  predicate Exceeds(n: nat, limit: Option<nat>) { limit.Some? && n > limit.value }

  function TryLock(s: State): State {
    if s.lock.Free? then s.(lock := Held) else s
  }

  function SetPhase(s: State, a: nat, p: Phase): State
    requires a < |s.attempts|
  {
    s.(attempts := s.attempts[a := s.attempts[a].(phase := p)])
  }

  predicate Enabled(s: State, action: Action) {
    match action
    case PullItem(_) | IterableEnds | IterableRaises => s.dispatcher.Pull?
    case Dispatch =>
      !s.dispatcher.Pull? && !s.dispatcher.Exited? && (s.dispatcher.Acquire? ==> s.permits > 0)
    case StartWork(a) => a < |s.attempts| && s.attempts[a].phase.Queued?
    case FinishWork(a, _) => a < |s.attempts| && s.attempts[a].phase.Running?
    case Callback(a) => a < |s.attempts| && InCallback(s.attempts[a].phase)
    case WatchdogFails => !s.alarm
    case WatchdogShuts => s.alarm
    case OuterShutdown => !s.Shut()
    case SetFlag => s.lock.Held?
    case DropWork(a) => s.lock.Draining? && a < |s.attempts| && s.attempts[a].phase.Queued?
    case EndDrain => s.lock.Draining? && forall a | 0 <= a < |s.attempts| :: !s.attempts[a].phase.Queued?
    case Consume => s.ConsumerRuns()
  }

  predicate InCallback(p: Phase) {
    p.Done? || p.Live? || p.Stored? || p.Entry? || p.Retry? || p.Record? || p.Abort? || p.Release?
  }

  function Dispatched(s: State): State
    requires Enabled(s, Dispatch)
  {
    match s.dispatcher
    case Check(id) => if s.Shut() then s.(dispatcher := Exited) else s.(dispatcher := Acquire(id))
    case Acquire(id) => s.(permits := s.permits - 1, held := s.held + 1, dispatcher := Submit(id))
    case Submit(id) =>
      if s.Shut() then s.(dispatcher := CallShutdown)
      else s.(attempts := s.attempts + [Attempt(|s.tip|, id, false, false, Queued)],
              tip := s.tip + [|s.attempts|], held := 0, dispatcher := Pull)
    case RecordRaise => s.(excs := true, dispatcher := CallShutdown)
    case CallShutdown => TryLock(s).(dispatcher := Exited)
    case SetTotal => s.(total := if |s.tip| == 0 then -1 else |s.tip|, dispatcher := Exited)
    case _ => s
  }

  /** The future `a` after the next atomic piece of its callback, a resubmission aside. */
  function NextPhase(cfg: Config, s: State, f: Attempt): Phase {
    match f.phase
    case Done => if s.Shut() then Release else Live
    case Live => Stored
    case Stored => if f.ok then Release else if Exceeds(s.retries + 1, cfg.maxTotalRetry) then Record else Entry
    case Entry => if Exceeds(Register(s.tracker, cfg.maxConcurrent, f.id).1, cfg.maxRetryOnEntry) then Record else Retry
    case Record => Abort
    case Abort => Aborted
    case Retry => Release
    case Release => Over
    case p => p
  }

  function CalledBack(cfg: Config, s: State, a: nat): State
    requires Enabled(s, Callback(a))
  {
    var f := s.attempts[a];
    if f.phase.Retry? && !s.Shut() then Resubmitted(s, a)
    else
      s.(attempts := s.attempts[a := f.(phase := NextPhase(cfg, s, f), stored := f.stored || f.phase.Live?)],
         queue := if f.phase.Live? then s.queue + [a] else s.queue,
         retries := if f.phase.Stored? && !f.ok then s.retries + 1 else s.retries,
         tracker := if f.phase.Entry? then Register(s.tracker, cfg.maxConcurrent, f.id).0 else s.tracker,
         excs := s.excs || f.phase.Record?,
         lock := if f.phase.Abort? && s.lock.Free? then Held else s.lock,
         permits := if f.phase.Release? then s.permits + 1 else s.permits)
  }

  function Resubmitted(s: State, a: nat): State
    requires a < |s.attempts|
  {
    var f := s.attempts[a];
    s.(attempts := s.attempts[a := f.(phase := Over)] + [Attempt(f.item, f.id, false, false, Queued)],
       tip := if f.item < |s.tip| then s.tip[f.item := |s.attempts|] else s.tip)
  }

  function NextConsumer(s: State): Consumer {
    match s.consumer
    case Head => if s.finished == 0 || s.finished != s.total then TestEmpty else Ended
    case TestEmpty => if s.total < 0 then NoTask else TestShutdown
    case TestShutdown => if s.Shut() then Raised(s.excs) else Get
    case Get => Head
    case c => c
  }

  predicate Takes(s: State) { s.consumer.Get? && s.queue != [] }

  /** One step of the generator; on a shutdown it throws the queue away and pops the exception. */
  function Consumed(s: State): State
    requires Enabled(s, Consume)
  {
    var raise := s.consumer.TestShutdown? && s.Shut();
    s.(consumer := NextConsumer(s),
       excs := s.excs && !raise,
       queue := if raise then [] else if Takes(s) then s.queue[1..] else s.queue,
       yielded := if Takes(s) then s.yielded + [s.queue[0]] else s.yielded,
       finished := if Takes(s) && s.queue[0] < |s.attempts| && s.attempts[s.queue[0]].ok
                   then s.finished + 1 else s.finished)
  }

  function Next(cfg: Config, s: State, action: Action): State
    requires Enabled(s, action)
  {
    match action
    case PullItem(id) => s.(dispatcher := Check(id))
    case IterableEnds => s.(dispatcher := SetTotal)
    case IterableRaises => s.(dispatcher := RecordRaise)
    case Dispatch => Dispatched(s)
    case StartWork(a) => SetPhase(s, a, Running)
    case FinishWork(a, ok) => s.(attempts := s.attempts[a := s.attempts[a].(ok := ok, phase := Done)])
    case Callback(a) => CalledBack(cfg, s, a)
    case WatchdogFails => s.(excs := true, alarm := true)
    case WatchdogShuts => TryLock(s).(alarm := false)
    case OuterShutdown => s.(origin := Outer)
    case SetFlag => if s.Shut() then s.(lock := Free) else s.(origin := Inner, lock := Draining)
    case DropWork(a) => SetPhase(s, a, Dropped)
    case EndDrain => s.(lock := Free)
    case Consume => Consumed(s)
  }

  predicate IsInit(cfg: Config, s: State) {
    && |s.attempts| == |s.tip| == |s.queue| == |s.yielded| == |s.tracker| == 0
    && s.permits == cfg.maxConcurrent && s.held == 0 && s.finished == 0 && s.retries == 0 && s.total == 0
    && s.origin.NotShut? && s.lock.Free? && s.dispatcher.Pull? && s.consumer.Head? && !s.excs && !s.alarm
  }

  predicate IsRun(cfg: Config, run: seq<State>, actions: seq<Action>) {
    && |run| == |actions| + 1
    && IsInit(cfg, run[0])
    && forall i | 0 <= i < |actions| :: Enabled(run[i], actions[i]) && run[i + 1] == Next(cfg, run[i], actions[i])
  }
}
