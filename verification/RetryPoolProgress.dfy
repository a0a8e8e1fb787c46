/**
 * Progress of the retrying thread pool: a run does boundedly much work, and a run whose
 * generator has not ended always has work to do. Together (EnsuredOrRaised): with a bound on the
 * retries, a run over a finite iterable comes to a rest, and there all is ensured or it has raised.
 */
module RetryPoolProgress {
  import opened Prelude
  import opened RetryPool
  import opened RetryPoolFutures
  import opened RetryPoolInvariant
  import opened RetryPoolPromises

  /** Steps that move something; the others are polls of the consumer, the watchdog and idle shutdown requests. */
  predicate Works(s: State, action: Action) {
    match action
    case PullItem(_) | IterableEnds | IterableRaises | Dispatch => true
    case StartWork(_) | FinishWork(_, _) | Callback(_) | DropWork(_) => true
    case SetFlag => !s.Shut()
    case OuterShutdown => true
    case WatchdogFails | WatchdogShuts | EndDrain => false
    case Consume => Takes(s) || NextConsumer(s).Ended? || NextConsumer(s).NoTask? || NextConsumer(s).Raised?
  }

  /** What a future can still cost, the one unit of its place in the future queue included. */
  function Rank(p: Phase): nat {
    match p
    case Queued => 12
    case Running => 11
    case Done => 10
    case Live => 9
    case Stored => 7
    case Entry => 6
    case Retry => 5
    case Record => 4
    case Abort => 3
    case Release => 2
    case Over | Aborted | Dropped => 0
  }

  function Ranks(fs: Futures): nat {
    if fs == [] then 0 else Ranks(fs[..|fs| - 1]) + Rank(fs[|fs| - 1].phase)
  }

  lemma {:induction false} RanksUpdate(fs: Futures, a: nat, f: Attempt)
    requires a < |fs|
    ensures Ranks(fs[a := f]) == Ranks(fs) - Rank(fs[a].phase) + Rank(f.phase)
  {
    var last := |fs| - 1;
    if a == last {
      assert fs[a := f][..last] == fs[..last];
    } else {
      assert fs[a := f][..last] == fs[..last][a := f];
      RanksUpdate(fs[..last], a, f);
    }
  }

  lemma {:induction false} RanksAppend(fs: Futures, f: Attempt)
    ensures Ranks(fs + [f]) == Ranks(fs) + Rank(f.phase)
  {
    assert (fs + [f])[..|fs|] == fs;
  }

  /** Items taken from the iterable so far. */
  function Pulled(s: State): nat {
    |s.tip| + if s.dispatcher.Check? || s.dispatcher.Acquire? || s.dispatcher.Submit? then 1 else 0
  }

  function DispatcherCost(s: State, items: nat): int {
    match s.dispatcher
    case Pull => 5 * (items - Pulled(s)) + 3
    case Check(_) => 5 * (items - Pulled(s)) + 6
    case Acquire(_) => 5 * (items - Pulled(s)) + 5
    case Submit(_) => 5 * (items - Pulled(s)) + 4
    case RecordRaise => 2
    case CallShutdown | SetTotal => 1
    case Exited => 0
  }

  function OtherCost(s: State, items: nat): int {
    DispatcherCost(s, items) + |s.queue| + (if s.ConsumerRuns() then 1 else 0) + (if s.Shut() then 0 else 1)
  }

  function Cost(s: State, items: nat, retries: nat): int {
    14 * (items + retries - |s.attempts|) + Ranks(s.attempts) + OtherCost(s, items)
  }

  lemma {:induction false} QuietCost(cfg: Config, s: State, action: Action, items: nat)
    requires Enabled(s, action) && Quiet(s, action) && Pulled(s) <= items
    ensures OtherCost(Next(cfg, s, action), items) <= OtherCost(s, items) - if Works(s, action) then 1 else 0
  {
    QuietFrame(cfg, s, action);
  }

  lemma {:induction false} RetryCost(s: State, a: nat, items: nat, retries: nat)
    requires a < |s.attempts| && s.attempts[a].phase.Retry? && s.attempts[a].item < |s.tip|
    ensures Cost(Resubmitted(s, a), items, retries) < Cost(s, items, retries)
  {
    var f := s.attempts[a];
    var over := f.(phase := Over);
    var again := Attempt(f.item, f.id, false, false, Queued);
    RanksUpdate(s.attempts, a, over);
    RanksAppend(s.attempts[a := over], again);
    assert OtherCost(Resubmitted(s, a), items) == OtherCost(s, items);
  }

  lemma {:induction false} CallbackCost(cfg: Config, s: State, a: nat, items: nat, retries: nat)
    requires Enabled(s, Callback(a)) && (s.attempts[a].phase.Retry? ==> s.Shut())
    ensures Cost(CalledBack(cfg, s, a), items, retries) < Cost(s, items, retries)
  {
    var s' := CalledBack(cfg, s, a);
    RanksUpdate(s.attempts, a, s'.attempts[a]);
    assert |s'.attempts| == |s.attempts|;
    assert OtherCost(s', items) == OtherCost(s, items) + if s.attempts[a].phase.Live? then 1 else 0;
    assert Rank(s'.attempts[a].phase) < Rank(s.attempts[a].phase) - if s.attempts[a].phase.Live? then 1 else 0;
  }

  lemma {:induction false} SubmitCost(cfg: Config, s: State, items: nat, retries: nat)
    requires s.dispatcher.Submit? && Pulled(s) <= items
    ensures Cost(Next(cfg, s, Dispatch), items, retries) < Cost(s, items, retries)
  {
    var s' := Dispatched(s);
    if !s.Shut() {
      RanksAppend(s.attempts, Attempt(|s.tip|, s.dispatcher.id, false, false, Queued));
    }
    assert OtherCost(s', items) <= OtherCost(s, items) - 1;
  }

  lemma {:induction false} WorkerMoves(cfg: Config, s: State, action: Action)
    requires Enabled(s, action) && (action.StartWork? || action.FinishWork? || action.DropWork?)
    ensures var f := Next(cfg, s, action).attempts[action.a];
            && Next(cfg, s, action) == s.(attempts := s.attempts[action.a := f])
            && Rank(f.phase) < Rank(s.attempts[action.a].phase)
  {}

  lemma {:induction false} SameOtherCost(s: State, fs: Futures, items: nat)
    ensures OtherCost(s.(attempts := fs), items) == OtherCost(s, items)
  {}

  lemma {:induction false} WorkerCost(cfg: Config, s: State, action: Action, items: nat, retries: nat)
    requires Enabled(s, action) && (action.StartWork? || action.FinishWork? || action.DropWork?)
    ensures Cost(Next(cfg, s, action), items, retries) < Cost(s, items, retries)
  {
    var f := Next(cfg, s, action).attempts[action.a];
    WorkerMoves(cfg, s, action);
    RanksUpdate(s.attempts, action.a, f);
    SameOtherCost(s, s.attempts[action.a := f], items);
  }

  lemma {:induction false} ConsumeCost(s: State, items: nat)
    requires Enabled(s, Consume)
    ensures OtherCost(Consumed(s), items) <= OtherCost(s, items) - if Works(s, Consume) then 1 else 0
  {
    assert DispatcherCost(Consumed(s), items) == DispatcherCost(s, items);
  }

  /** No step raises the cost, and every step that works lowers it. */
  lemma {:induction false} StepCost(cfg: Config, s: State, action: Action, items: nat, retries: nat)
    requires Chained(s.attempts, s.tip) && Enabled(s, action) && Pulled(s) <= items
    ensures Cost(Next(cfg, s, action), items, retries)
            <= Cost(s, items, retries) - if Works(s, action) then 1 else 0
  {
    if Quiet(s, action) {
      QuietFrame(cfg, s, action);
      QuietCost(cfg, s, action, items);
    } else {
      match action {
        case StartWork(_) | FinishWork(_, _) | DropWork(_) => WorkerCost(cfg, s, action, items, retries);
        case Callback(a) =>
          if s.attempts[a].phase.Retry? && !s.Shut() {
            RetryCost(s, a, items, retries);
          } else {
            CallbackCost(cfg, s, a, items, retries);
          }
        case Dispatch => SubmitCost(cfg, s, items, retries);
        case Consume => ConsumeCost(s, items);
      }
    }
  }

  lemma {:induction false} CostIsNatural(cfg: Config, s: State, items: nat)
    requires Inv(cfg, s) && Pulled(s) <= items && cfg.maxTotalRetry.Some?
    ensures Cost(s, items, cfg.maxTotalRetry.value) >= 0
  {
  }

  /** How many of the first n steps work. */
  function WorkDone(run: seq<State>, actions: seq<Action>, n: nat): nat
    requires n <= |actions| <= |run|
  {
    if n == 0 then 0 else WorkDone(run, actions, n - 1) + if Works(run[n - 1], actions[n - 1]) then 1 else 0
  }

  lemma {:induction false} WorkLowersCost(
      cfg: Config, run: seq<State>, actions: seq<Action>, n: nat, items: nat, retries: nat)
    requires IsRun(cfg, run, actions) && n <= |actions|
    requires forall i | 0 <= i < |run| :: Pulled(run[i]) <= items
    ensures WorkDone(run, actions, n) + Cost(run[n], items, retries) <= Cost(run[0], items, retries)
  {
    if n > 0 {
      WorkLowersCost(cfg, run, actions, n - 1, items, retries);
      RunInv(cfg, run, actions, n - 1);
      StepCost(cfg, run[n - 1], actions[n - 1], items, retries);
    }
  }

  /** Every run over at most `items` items does at most 19 units of work an item, 14 a retry, and 5 more. */
  lemma {:induction false} WorkIsBounded(cfg: Config, run: seq<State>, actions: seq<Action>, items: nat)
    requires IsRun(cfg, run, actions) && cfg.maxTotalRetry.Some?
    requires forall i | 0 <= i < |run| :: Pulled(run[i]) <= items
    ensures WorkDone(run, actions, |actions|) <= 19 * items + 14 * cfg.maxTotalRetry.value + 5
  {
    var retries := cfg.maxTotalRetry.value;
    WorkLowersCost(cfg, run, actions, |actions|, items, retries);
    RunInv(cfg, run, actions, |actions|);
    CostIsNatural(cfg, run[|actions|], items);
  }

  /** The consumer's next round ends it or takes a future. */
  predicate RoundWorks(s: State) {
    s.queue != [] || s.Shut() || s.total < 0 || (s.finished > 0 && s.finished == s.total)
  }

  /** A step that works, or a round of the consumer that will. */
  predicate Moves(s: State, action: Action) { Works(s, action) || (action.Consume? && RoundWorks(s)) }

  /** A step of the thread that future `a` waits for. */
  function FutureStep(p: Phase, a: nat): Action {
    match p
    case Queued => StartWork(a)
    case Running => FinishWork(a, true)
    case Aborted => SetFlag
    case _ => Callback(a)
  }

  lemma {:induction false} FutureCanStep(cfg: Config, s: State, a: nat)
    requires Inv(cfg, s) && !s.Shut() && a < |s.attempts| && !s.attempts[a].phase.Over?
    ensures var action := FutureStep(s.attempts[a].phase, a); Enabled(s, action) && Works(s, action)
  {
    assert s.attempts[a].phase.Aborted? ==> AnyAborted(s.attempts);
    assert Sound(s.attempts[a], a == s.tip[s.attempts[a].item], false);
  }

  lemma {:induction false} AllOverIsDone(cfg: Config, s: State)
    requires Inv(cfg, s) && !s.Shut() && s.total > 0 && s.queue == []
    requires forall a | 0 <= a < |s.attempts| :: s.attempts[a].phase.Over?
    ensures s.finished == s.total
  {
    var done := DoneItems(s.attempts, s.tip, s.yielded);
    assert History(s) == s.yielded;
    forall i: nat | i < |s.tip| ensures i in done {
      assert Sound(s.attempts[s.tip[i]], true, false);
    }
    FullBelow(done, |s.tip|);
  }

  /** No deadlock: as long as the generator runs, some thread has work or the generator's next round does. */
  lemma {:induction false} AlwaysWork(cfg: Config, run: seq<State>, actions: seq<Action>, n: nat)
      returns (action: Action)
    requires IsRun(cfg, run, actions) && n < |run| && cfg.maxConcurrent > 0 && run[n].ConsumerRuns()
    ensures Enabled(run[n], action) && !action.OuterShutdown? && Moves(run[n], action)
  {
    RunInv(cfg, run, actions, n);
    var s := run[n];
    if RoundWorks(s) {
      action := Consume;
    } else if s.dispatcher.Pull? {
      action := IterableEnds;
    } else if !s.dispatcher.Exited? && (s.dispatcher.Acquire? ==> s.permits > 0) {
      action := Dispatch;
    } else if s.lock.Held? {
      action := SetFlag;
    } else if a :| 0 <= a < |s.attempts| && !s.attempts[a].phase.Over? {
      action := FutureStep(s.attempts[a].phase, a);
      FutureCanStep(cfg, s, a);
    } else {
      assert Holders(s.attempts) == {};
      AllOverIsDone(cfg, s);
      assert false;
    }
  }

  /** Nothing moves any more of itself. */
  ghost predicate AtRest(s: State) { forall action | Enabled(s, action) && !action.OuterShutdown? :: !Moves(s, action) }

  /**
   * Where nothing moves any more of itself, the generator has ended with everything that the iterable
   * gave ensured, or returned since it gave nothing, or raised after a shutdown. And with a bound on the
   * retries every run over finitely many items comes there: it works boundedly often.
   */
  lemma {:induction false} EnsuredOrRaised(cfg: Config, run: seq<State>, actions: seq<Action>, items: nat)
    requires IsRun(cfg, run, actions) && cfg.maxConcurrent > 0
    ensures cfg.maxTotalRetry.Some? && (forall i | 0 <= i < |run| :: Pulled(run[i]) <= items) ==>
              WorkDone(run, actions, |actions|) <= 19 * items + 14 * cfg.maxTotalRetry.value + 5
    ensures var s, taken := run[|actions|], Taken(actions);
            AtRest(s) ==>
              || (s.consumer.Ended? && Ensured(s.attempts, |taken|, s.yielded))
              || (s.consumer.NoTask? && taken == [])
              || (s.consumer.Raised? && s.Shut())
  {
    if cfg.maxTotalRetry.Some? && (forall i | 0 <= i < |run| :: Pulled(run[i]) <= items) {
      WorkIsBounded(cfg, run, actions, items);
    }
    var n := |actions|;
    assert actions[..n] == actions;
    if run[n].ConsumerRuns() {
      var action := AlwaysWork(cfg, run, actions, n);
    } else if run[n].consumer.Ended? {
      EndedMeansEnsured(cfg, run, actions, n);
    } else if run[n].consumer.NoTask? {
      NoTaskMeansEmpty(cfg, run, actions, n);
    } else {
      RaisedMeansShut(cfg, run, actions, n);
    }
  }
}
