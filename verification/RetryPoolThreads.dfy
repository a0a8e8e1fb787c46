/**
 * The retrying thread pool as the object its threads share. Each method is one atomic piece of
 * what a thread does to the fields, in the order of the source, and is proved to be the step of
 * module RetryPool of the same name; what is proved of every run (RetryPoolPromises) holds of this object
 * under every schedule.
 */
module RetryPoolThreads {
  import opened RetryPool
  import opened RetryPoolInvariant

  class ThreadPool {
    const cfg: Config
    var permits: nat
    var origin: Origin
    var shutdownLock: ShutdownLock
    var excDeque: bool
    var retryCounter: nat
    var tracker: seq<(nat, nat)>
    var futures: seq<Attempt>
    var tip: seq<nat>
    var dispatcher: Dispatcher
    var held: nat
    var totalTaskNum: int
    var futQueue: seq<nat>
    var generator: Consumer
    var finishedTasks: nat
    var yielded: seq<nat>
    var alarm: bool

    function View(): State
      reads this
    {
      State(permits, origin, shutdownLock, excDeque, retryCounter, tracker, futures, tip, dispatcher, held,
            totalTaskNum, futQueue, generator, finishedTasks, yielded, alarm)
    }

    constructor (cfg: Config)
      ensures this.cfg == cfg && IsInit(cfg, View()) && Inv(cfg, View())
    {
      this.cfg := cfg;
      permits, held, finishedTasks, retryCounter, totalTaskNum := cfg.maxConcurrent, 0, 0, 0, 0;
      origin, shutdownLock, dispatcher, generator := NotShut, Free, Pull, Head;
      excDeque, alarm := false, false;
      tracker, futures, tip, futQueue, yielded := [], [], [], [], [];
      new;
      InitInv(cfg, View());
    }

    /** _rtm_shutdown takes its lock without waiting for it. */
    method TryShutdownLock()
      modifies this`shutdownLock
      ensures View() == TryLock(old(View()))
    {
      if shutdownLock.Free? {
        shutdownLock := Held;
      }
    }

    /** The next atomic piece of _task_done_cb_at_thread for the future `a`. */
    method TaskDoneCallback(a: nat)
      requires Enabled(View(), Callback(a))
      modifies this
      ensures View() == Next(cfg, old(View()), Callback(a))
    {
      var f := futures[a];
      match f.phase {
        case Done =>
          futures := futures[a := f.(phase := if origin.NotShut? then Live else Release)];
        case Live =>
          futQueue := futQueue + [a];
          futures := futures[a := f.(stored := true, phase := Stored)];
        case Stored => AfterStore(a);
        case Release =>
          permits := permits + 1;
          futures := futures[a := f.(phase := Over)];
        case _ => FailedWorkItem(a);
      }
    }

    /** The future is stored: a success goes on to release its permit, a failure is counted as a retry. */
    method AfterStore(a: nat)
      requires a < |futures| && futures[a].phase.Stored?
      modifies this`futures, this`retryCounter
      ensures View() == Next(cfg, old(View()), Callback(a))
    {
      var f := futures[a];
      if f.ok {
        futures := futures[a := f.(phase := Release)];
      } else {
        retryCounter := retryCounter + 1;
        futures := futures[a := f.(phase := if Exceeds(retryCounter, cfg.maxTotalRetry) then Record else Entry)];
      }
    }

    /** The part of the callback that handles a failed item once its retry is counted. */
    method FailedWorkItem(a: nat)
      requires Enabled(View(), Callback(a))
      requires futures[a].phase.Entry? || futures[a].phase.Record? || futures[a].phase.Abort? || futures[a].phase.Retry?
      modifies this
      ensures View() == Next(cfg, old(View()), Callback(a))
    {
      var f := futures[a];
      match f.phase {
        case Entry =>
          var (registered, n) := Register(tracker, cfg.maxConcurrent, f.id);
          tracker := registered;
          futures := futures[a := f.(phase := if Exceeds(n, cfg.maxRetryOnEntry) then Record else Retry)];
        case Record =>
          excDeque := true;
          futures := futures[a := f.(phase := Abort)];
        case Abort =>
          TryShutdownLock();
          futures := futures[a := f.(phase := Aborted)];
        case Retry => SubmitAgain(a);
      }
    }

    /** The last piece for a failed item: it is submitted again, unless the pool is shut down. */
    method SubmitAgain(a: nat)
      requires a < |futures| && futures[a].phase.Retry?
      modifies this`futures, this`tip
      ensures View() == Next(cfg, old(View()), Callback(a))
    {
      var f := futures[a];
      if origin.NotShut? {
        if f.item < |tip| {
          tip := tip[f.item := |futures|];
        }
        futures := futures[a := f.(phase := Over)] + [Attempt(f.item, f.id, false, false, Queued)];
      } else {
        futures := futures[a := f.(phase := Release)];
      }
    }

    /** The next atomic piece of the dispatcher thread, once it has an item or the iterable is at its end. */
    method DispatcherThread()
      requires Enabled(View(), Dispatch)
      modifies this
      ensures View() == Next(cfg, old(View()), Dispatch)
    {
      match dispatcher {
        case Check(id) =>
          dispatcher := if origin.NotShut? then Acquire(id) else Exited;
        case Acquire(id) =>
          permits, held, dispatcher := permits - 1, held + 1, Submit(id);
        case Submit(id) => SubmitItem(id);
        case RecordRaise =>
          excDeque, dispatcher := true, CallShutdown;
        case CallShutdown =>
          TryShutdownLock();
          dispatcher := Exited;
        case SetTotal =>
          totalTaskNum := if |tip| == 0 then -1 else |tip|;
          dispatcher := Exited;
      }
    }

    /** The item is submitted, unless the pool is shut down. */
    method SubmitItem(id: nat)
      requires dispatcher == Submit(id)
      modifies this`tip, this`futures, this`held, this`dispatcher
      ensures View() == Next(cfg, old(View()), Dispatch)
    {
      if origin.NotShut? {
        tip := tip + [|futures|];
        futures := futures + [Attempt(|tip| - 1, id, false, false, Queued)];
        held, dispatcher := 0, Pull;
      } else {
        dispatcher := CallShutdown;
      }
    }

    /** The next atomic piece of the generator _fut_gen. */
    method Generator()
      requires Enabled(View(), Consume)
      modifies this
      ensures View() == Next(cfg, old(View()), Consume)
    {
      match generator {
        case Head =>
          generator := if finishedTasks == 0 || finishedTasks != totalTaskNum then TestEmpty else Ended;
        case TestEmpty =>
          generator := if totalTaskNum < 0 then NoTask else TestShutdown;
        case TestShutdown =>
          if origin.NotShut? {
            generator := Get;
          } else {
            futQueue := [];
            generator := Raised(excDeque);
            excDeque := false;
          }
        case Get =>
          if futQueue != [] {
            var done := futQueue[0];
            futQueue := futQueue[1..];
            if done < |futures| && futures[done].ok {
              finishedTasks := finishedTasks + 1;
            }
            yielded := yielded + [done];
          }
          generator := Head;
      }
    }

    /** The worker threads, the watchdog, the thread inside _rtm_shutdown and the world around the pool. */
    method Others(action: Action)
      requires Enabled(View(), action) && !action.Callback? && !action.Dispatch? && !action.Consume?
      modifies this
      ensures View() == Next(cfg, old(View()), action)
    {
      match action {
        case PullItem(id) => dispatcher := Check(id);
        case IterableEnds => dispatcher := SetTotal;
        case IterableRaises => dispatcher := RecordRaise;
        case StartWork(a) => futures := futures[a := futures[a].(phase := Running)];
        case FinishWork(a, ok) => futures := futures[a := futures[a].(ok := ok, phase := Done)];
        case WatchdogFails => excDeque, alarm := true, true;
        case WatchdogShuts => TryShutdownLock(); alarm := false;
        case OuterShutdown => origin := Outer;
        case SetFlag =>
          if origin.NotShut? {
            origin, shutdownLock := Inner, Draining;
          } else {
            shutdownLock := Free;
          }
        case DropWork(a) => futures := futures[a := futures[a].(phase := Dropped)];
        case EndDrain => shutdownLock := Free;
      }
    }

    /** Any schedule at all: the steps that are not enabled when their turn comes do not happen. */
    method Interleave(schedule: seq<Action>) returns (ghost run: seq<State>, ghost taken: seq<Action>)
      requires IsInit(cfg, View())
      modifies this
      ensures IsRun(cfg, run, taken) && View() == run[|taken|] && Inv(cfg, View())
    {
      run, taken := [View()], [];
      for k := 0 to |schedule|
        invariant IsRun(cfg, run, taken) && View() == run[|taken|]
      {
        var action := schedule[k];
        if Enabled(View(), action) {
          match action {
            case Callback(a) => TaskDoneCallback(a);
            case Dispatch => DispatcherThread();
            case Consume => Generator();
            case _ => Others(action);
          }
          run, taken := run + [View()], taken + [action];
        }
      }
      RunInv(cfg, run, taken, |taken|);
    }
  }
}
