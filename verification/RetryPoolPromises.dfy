/** What ensure_tasks promises, over every run of the retrying thread pool. */
module RetryPoolPromises {
  import opened Prelude
  import opened RetryPool
  import opened RetryPoolFutures
  import opened RetryPoolInvariant

  predicate Succeeded(fs: Futures, item: nat) {
    exists a :: 0 <= a < |fs| && fs[a].item == item && fs[a].ok
  }

  /** Every item succeeded exactly once, and every future was handed out exactly once, an item's in order. */
  predicate Ensured(fs: Futures, items: nat, yielded: seq<nat>) {
    && (forall i | 0 <= i < items :: Succeeded(fs, i))
    && (forall a, b | 0 <= a < |fs| && 0 <= b < |fs| && fs[a].ok && fs[b].ok && fs[a].item == fs[b].item :: a == b)
    && (forall a | 0 <= a < |fs| :: fs[a].item < items && a in yielded)
    && (forall p | 0 <= p < |yielded| :: yielded[p] < |fs|)
    && (forall p, q | 0 <= p < q < |yielded| :: yielded[p] != yielded[q])
    && (forall p, q | 0 <= p < q < |yielded| && fs[yielded[p]].item == fs[yielded[q]].item :: !fs[yielded[p]].ok)
  }

  /** While an attempt of an item waits in the queue, its last attempt was not handed out yet. */
  lemma {:induction false} LastNotBeforeQueue(fs: Futures, tip: seq<nat>, yielded: seq<nat>, queue: seq<nat>)
    requires Chained(fs, tip) && Stores(fs, yielded + queue, true) && queue != [] && queue[0] < |fs|
    ensures tip[fs[queue[0]].item] !in yielded
  {
    var h := yielded + queue;
    assert h[|yielded|] == queue[0];
    forall p | 0 <= p < |yielded| ensures yielded[p] != tip[fs[queue[0]].item] {
      assert h[p] == yielded[p];
    }
  }

  /** When every last attempt is a success the consumer was handed, all is ensured and nothing is left in the queue. */
  lemma {:induction false} AllDone(fs: Futures, tip: seq<nat>, yielded: seq<nat>, queue: seq<nat>)
    requires Chained(fs, tip) && Stores(fs, yielded + queue, true)
    requires |DoneItems(fs, tip, yielded)| == |tip|
    ensures Ensured(fs, |tip|, yielded) && queue == []
  {
    var h, done := yielded + queue, DoneItems(fs, tip, yielded);
    FullBelow(done, |tip|);
    forall i | 0 <= i < |tip| ensures fs[tip[i]].ok && tip[i] in yielded && Succeeded(fs, i) {
      assert i in done;
    }
    if queue != [] {
      assert h[|yielded|] == queue[0];
      LastNotBeforeQueue(fs, tip, yielded, queue);
      assert false;
    }
    assert h == yielded;
    forall a | 0 <= a < |fs| ensures a in yielded {
      assert a == tip[fs[a].item] || fs[a].stored;
    }
    forall p, q | 0 <= p < q < |yielded| && fs[yielded[p]].item == fs[yielded[q]].item ensures !fs[yielded[p]].ok {
      assert h[p] < h[q] <= tip[fs[h[q]].item];
    }
  }

  // what the iterable gave

  /** The items taken from the iterable, in their order. */
  function Taken(actions: seq<Action>): seq<nat> {
    if actions == [] then []
    else Taken(actions[..|actions| - 1]) + if actions[|actions| - 1].PullItem? then [actions[|actions| - 1].id] else []
  }

  predicate InHand(d: Dispatcher) { d.Check? || d.Acquire? || d.Submit? }

  /**
   * Item i is the i-th taken; one more can be in the dispatcher's hand; the total is known only
   * once the iterable is at its end.
   */
  predicate Dispatches(s: State, taken: seq<nat>, ended: bool) {
    && |s.tip| <= |taken|
    && (forall a | 0 <= a < |s.attempts| ::
        s.attempts[a].item < |taken| && s.attempts[a].id == taken[s.attempts[a].item])
    && (InHand(s.dispatcher) ==> |taken| == |s.tip| + 1 && s.dispatcher.id == taken[|s.tip|])
    && (s.dispatcher.Pull? || s.dispatcher.SetTotal? || s.total != 0 ==> |taken| == |s.tip|)
    && (s.dispatcher.SetTotal? || s.total != 0 ==> ended)
    && (s.total != 0 ==> s.dispatcher.Exited?)
  }

  lemma {:induction false} OthersDispatch(cfg: Config, s: State, action: Action, taken: seq<nat>, ended: bool)
    requires Dispatches(s, taken, ended) && Enabled(s, action) && !action.PullItem? && !action.Dispatch?
    requires !action.Callback? && !action.StartWork? && !action.FinishWork? && !action.DropWork?
    ensures Dispatches(Next(cfg, s, action), taken, ended || action.IterableEnds?)
  {}

  lemma {:induction false} WorkersDispatch(cfg: Config, s: State, action: Action, taken: seq<nat>, ended: bool)
    requires Dispatches(s, taken, ended) && Enabled(s, action)
    requires action.StartWork? || action.FinishWork? || action.DropWork?
    ensures Dispatches(Next(cfg, s, action), taken, ended)
  {
    var s' := Next(cfg, s, action);
    forall b | 0 <= b < |s'.attempts|
      ensures s'.attempts[b].item < |taken| && s'.attempts[b].id == taken[s'.attempts[b].item]
    {
      assert s'.attempts[b].item == s.attempts[b].item && s'.attempts[b].id == s.attempts[b].id;
    }
  }

  lemma {:induction false} CallbackDispatches(cfg: Config, s: State, a: nat, taken: seq<nat>, ended: bool)
    requires Dispatches(s, taken, ended) && Enabled(s, Callback(a)) && Chained(s.attempts, s.tip)
    ensures Dispatches(Next(cfg, s, Callback(a)), taken, ended)
  {
    var s' := CalledBack(cfg, s, a);
    forall b | 0 <= b < |s'.attempts|
      ensures s'.attempts[b].item < |taken| && s'.attempts[b].id == taken[s'.attempts[b].item]
    {
      if b < |s.attempts| {
        assert s'.attempts[b].item == s.attempts[b].item && s'.attempts[b].id == s.attempts[b].id;
      } else {
        assert s'.attempts[b].item == s.attempts[a].item && s'.attempts[b].id == s.attempts[a].id;
      }
    }
  }

  lemma {:induction false} DispatcherDispatches(cfg: Config, s: State, action: Action, taken: seq<nat>, ended: bool)
    requires Dispatches(s, taken, ended) && Enabled(s, action) && (action.PullItem? || action.Dispatch?)
    ensures Dispatches(Next(cfg, s, action), if action.PullItem? then taken + [action.id] else taken, ended)
  {}

  lemma {:induction false} RunDispatches(cfg: Config, run: seq<State>, actions: seq<Action>, n: nat)
    requires IsRun(cfg, run, actions) && n < |run|
    ensures Dispatches(run[n], Taken(actions[..n]), IterableEnds in actions[..n])
  {
    if n > 0 {
      RunDispatches(cfg, run, actions, n - 1);
      RunInv(cfg, run, actions, n - 1);
      TakeOneMore(actions, n - 1);
      assert actions[..n][..n - 1] == actions[..n - 1];
      OneDispatches(cfg, run[n - 1], actions[n - 1], Taken(actions[..n - 1]), IterableEnds in actions[..n - 1]);
    }
  }

  lemma {:induction false} OneDispatches(cfg: Config, s: State, action: Action, taken: seq<nat>, ended: bool)
    requires Dispatches(s, taken, ended) && Enabled(s, action) && Chained(s.attempts, s.tip)
    ensures Dispatches(Next(cfg, s, action),
                       if action.PullItem? then taken + [action.id] else taken,
                       ended || action.IterableEnds?)
  {
    if action.PullItem? || action.Dispatch? {
      DispatcherDispatches(cfg, s, action, taken, ended);
    } else if action.Callback? {
      CallbackDispatches(cfg, s, action.a, taken, ended);
    } else if action.StartWork? || action.FinishWork? || action.DropWork? {
      WorkersDispatch(cfg, s, action, taken, ended);
    } else {
      OthersDispatch(cfg, s, action, taken, ended);
    }
  }

  /**
   * The generator ends by its loop condition only when the iterable is at its end and all it gave is
   * ensured: as many items dispatched as taken, every future one of the item taken at its place, and
   * every item with its one success.
   */
  lemma {:induction false} EndedMeansEnsured(cfg: Config, run: seq<State>, actions: seq<Action>, n: nat)
    requires IsRun(cfg, run, actions) && n < |run| && run[n].consumer.Ended?
    ensures var s, taken := run[n], Taken(actions[..n]);
            && IterableEnds in actions[..n] && |taken| == |s.tip| == s.total > 0
            && (forall a | 0 <= a < |s.attempts| ::
                s.attempts[a].item < |taken| && s.attempts[a].id == taken[s.attempts[a].item])
            && Ensured(s.attempts, |taken|, s.yielded) && s.queue == []
  {
    RunInv(cfg, run, actions, n);
    RunDispatches(cfg, run, actions, n);
    var s := run[n];
    AllDone(s.attempts, s.tip, s.yielded, s.queue);
  }

  /** It returns without a result only when the iterable yields nothing. */
  lemma {:induction false} NoTaskMeansEmpty(cfg: Config, run: seq<State>, actions: seq<Action>, n: nat)
    requires IsRun(cfg, run, actions) && n < |run| && run[n].consumer.NoTask?
    ensures run[n].dispatcher.Exited? && run[n].attempts == [] && Taken(actions[..n]) == []
    ensures IterableEnds in actions[..n]
  {
    RunInv(cfg, run, actions, n);
    RunDispatches(cfg, run, actions, n);
    var s := run[n];
    assert s.attempts != [] ==> s.attempts[0].item < |s.tip|;
  }

  /** It raises only after a shutdown, and with a cause unless the pool was shut down from outside. */
  lemma {:induction false} RaisedMeansShut(cfg: Config, run: seq<State>, actions: seq<Action>, n: nat)
    requires IsRun(cfg, run, actions) && n < |run| && run[n].consumer.Raised?
    ensures run[n].Shut() && (run[n].consumer.cause || run[n].origin.Outer?)
  {
    RunInv(cfg, run, actions, n);
  }

  /** Items whose success has not given its permit back. */
  function Unfinished(s: State): set<nat>
    requires Chained(s.attempts, s.tip)
  {
    set i: nat | i < |s.tip| && !s.attempts[s.tip[i]].phase.Over?
  }

  lemma {:induction false} UnfinishedAreHolders(fs: Futures, tip: seq<nat>, items: set<nat>)
    requires Chained(fs, tip) && items == set i: nat | i < |tip| && !fs[tip[i]].phase.Over?
    ensures |items| == |Holders(fs)|
  {
    InjectionBound(items, Holders(fs), map i | i in items :: tip[i]);
    InjectionBound(Holders(fs), items, map a | a in Holders(fs) :: fs[a].item);
  }

  /**
   * Permits are conserved: before a shutdown, the free ones, the one in the dispatcher's hand and
   * one for each item not finished are all there are; an item that gave its permit back succeeded.
   * After it, no permit is ever released twice.
   */
  lemma {:induction false} PermitsConserved(cfg: Config, run: seq<State>, actions: seq<Action>, n: nat)
    requires IsRun(cfg, run, actions) && n < |run|
    ensures var s := run[n];
            && Chained(s.attempts, s.tip)
            && s.permits <= cfg.maxConcurrent
            && s.permits + s.held + |Unfinished(s)| == cfg.maxConcurrent
            && (!s.Shut() ==> forall i | 0 <= i < |s.tip| && i !in Unfinished(s) :: s.attempts[s.tip[i]].ok)
  {
    RunInv(cfg, run, actions, n);
    var s := run[n];
    UnfinishedAreHolders(s.attempts, s.tip, Unfinished(s));
  }

  /** Attempts never exceed the items dispatched plus the retries allowed. */
  lemma {:induction false} AttemptsBounded(cfg: Config, run: seq<State>, actions: seq<Action>, n: nat)
    requires IsRun(cfg, run, actions) && n < |run| && cfg.maxTotalRetry.Some?
    ensures |run[n].attempts| <= |run[n].tip| + cfg.maxTotalRetry.value
  {
    RunInv(cfg, run, actions, n);
  }
}
