/**
 * What a consumer of the retrying thread pool can still get once the pool is shut down: exactly when
 * the generator can end by its loop condition instead of raising.
 */
module RetryPoolShutdown {
  import opened Prelude
  import opened RetryPool
  import opened RetryPoolFutures
  import opened RetryPoolInvariant
  import opened RetryPoolPromises

  // ------ one more future at most ------ //

  /** A consumer that has passed its look at the shutdown flag takes one more future. */
  function Takeable(s: State): nat { if s.consumer.Get? then 1 else 0 }

  lemma {:induction false} ShutStep(cfg: Config, s: State, action: Action)
    requires Enabled(s, action) && s.Shut()
    ensures var s' := Next(cfg, s, action);
            && s'.Shut() && s.yielded <= s'.yielded && |s'.yielded| + Takeable(s') <= |s.yielded| + Takeable(s)
            && (s'.consumer.Ended? ==> s.consumer.Ended? || s.consumer.Head?)
            && (s'.consumer.Head? ==> s.consumer.Head? || s.consumer.Get?)
            && (s'.consumer.Get? ==> s.consumer.Get?)
  {}

  /** Where the consumer is after a shutdown tells where it was at it. */
  predicate Passed(before: Consumer, after: Consumer) {
    && (after.Get? ==> before.Get?)
    && (after.Head? ==> before.Get? || before.Head?)
    && (after.Ended? ==> before.Get? || before.Head? || before.Ended?)
  }

  /**
   * From a shutdown on, wherever the consumer is, at most one more future is handed out, and only to a
   * consumer that stood between its look at the flag and the queue; it ends normally only if it had
   * ended, stood at its loop condition, or stood there.
   */
  lemma {:induction false} ShutdownIsRaised(cfg: Config, run: seq<State>, actions: seq<Action>, m: nat, n: nat)
    requires IsRun(cfg, run, actions) && m <= n < |run| && run[m].Shut()
    ensures run[n].Shut() && run[m].yielded <= run[n].yielded
    ensures |run[n].yielded| + Takeable(run[n]) <= |run[m].yielded| + Takeable(run[m])
    ensures Passed(run[m].consumer, run[n].consumer)
  {
    if m < n {
      ShutdownIsRaised(cfg, run, actions, m, n - 1);
      ShutStep(cfg, run[n - 1], actions[n - 1]);
    }
  }

  // ------ exactly when it can end ------ //

  /**
   * k successes are all there will be: the number of tasks is known to be k, or the iterable may be
   * at its end with k dispatched.
   */
  predicate MayBeAll(s: State, k: nat) {
    k > 0 && (s.total == k || ((s.dispatcher.Pull? || s.dispatcher.SetTotal?) && |s.tip| == k))
  }

  /** A success whose callback has looked at the shutdown flag and is about to store it. */
  predicate AboutToStore(fs: Futures) { exists a :: 0 <= a < |fs| && fs[a].phase.Live? && fs[a].ok }

  /** The next future of the queue is, or can become, a success. */
  predicate NextSucceeds(s: State) {
    if s.queue == [] then AboutToStore(s.attempts) else s.queue[0] < |s.attempts| && s.attempts[s.queue[0]].ok
  }

  /**
   * A generator can still end after a shutdown: it has; or it stands at its loop condition, or has just
   * passed it, with everything consumed; or it stands before the queue and the next is the last success.
   */
  predicate CanEnd(s: State) {
    match s.consumer
    case Ended => true
    case Head => MayBeAll(s, s.finished)
    case Get => MayBeAll(s, s.finished) || (MayBeAll(s, s.finished + 1) && NextSucceeds(s))
    case _ => false
  }

  lemma {:induction false} MayBeAllBefore(cfg: Config, s: State, action: Action, k: nat)
    requires Enabled(s, action) && s.Shut() && MayBeAll(Next(cfg, s, action), k)
    ensures MayBeAll(s, k)
  {}

  /**
   * The futures after a step of another thread: none is new, none comes to be about to be stored,
   * and no result of a finished one changes.
   */
  predicate NothingNew(fs: Futures, fs': Futures) {
    && |fs'| == |fs|
    && (forall a | 0 <= a < |fs| :: fs'[a].phase.Live? ==> fs'[a] == fs[a])
    && (forall a | 0 <= a < |fs| :: !fs[a].phase.Running? ==> fs'[a].ok == fs[a].ok)
  }

  lemma {:induction false} ShutCallback(cfg: Config, s: State, a: nat)
    requires Enabled(s, Callback(a)) && s.Shut()
    ensures var s' := CalledBack(cfg, s, a);
            && NothingNew(s.attempts, s'.attempts)
            && s'.queue == if s.attempts[a].phase.Live? then s.queue + [a] else s.queue
  {}

  lemma {:induction false} ShutFutures(cfg: Config, s: State, action: Action)
    requires Enabled(s, action) && s.Shut() && !action.Consume?
    ensures var s' := Next(cfg, s, action);
            && NothingNew(s.attempts, s'.attempts)
            && (s'.queue == s.queue
                || (action.Callback? && s.attempts[action.a].phase.Live? && s'.queue == s.queue + [action.a]))
  {
    if action.Callback? { ShutCallback(cfg, s, action.a); }
  }

  lemma {:induction false} NextSucceedsBefore(cfg: Config, s: State, action: Action)
    requires Inv(cfg, s) && Enabled(s, action) && s.Shut() && !action.Consume? && NextSucceeds(Next(cfg, s, action))
    ensures NextSucceeds(s)
  {
    var s' := Next(cfg, s, action);
    ShutFutures(cfg, s, action);
    if s.queue != [] {
      HeadIsStored(cfg, s);
    }
  }

  lemma {:induction false} HeadIsStored(cfg: Config, s: State)
    requires Inv(cfg, s) && s.queue != []
    ensures s.queue[0] < |s.attempts| && !s.attempts[s.queue[0]].phase.Running?
  {
    assert History(s)[|s.yielded|] == s.queue[0];
  }

  /** Once it cannot end it never can again. */
  lemma {:induction false} CanEndBefore(cfg: Config, s: State, action: Action)
    requires Inv(cfg, s) && Enabled(s, action) && s.Shut() && CanEnd(Next(cfg, s, action))
    ensures CanEnd(s)
  {
    var s' := Next(cfg, s, action);
    if action.Consume? {
      if s.consumer.Get? { MayBeAllBefore(cfg, s, action, s'.finished); }
    } else {
      if MayBeAll(s', s'.finished) { MayBeAllBefore(cfg, s, action, s'.finished); }
      if MayBeAll(s', s'.finished + 1) { MayBeAllBefore(cfg, s, action, s'.finished + 1); }
      if NextSucceeds(s') { NextSucceedsBefore(cfg, s, action); }
    }
  }

  predicate Hopeless(s: State) { s.Shut() && !CanEnd(s) }

  lemma {:induction false} HopelessStep(cfg: Config, s: State, action: Action)
    requires Inv(cfg, s) && Enabled(s, action) && Hopeless(s)
    ensures Hopeless(Next(cfg, s, action))
  {
    ShutStep(cfg, s, action);
    if CanEnd(Next(cfg, s, action)) { CanEndBefore(cfg, s, action); }
  }

  lemma {:induction false} HopelessStays(cfg: Config, run: seq<State>, actions: seq<Action>, m: nat, n: nat)
    requires IsRun(cfg, run, actions) && m <= n < |run| && Hopeless(run[m])
    ensures Hopeless(run[n])
  {
    if m < n {
      HopelessStays(cfg, run, actions, m, n - 1);
      RunInv(cfg, run, actions, n - 1);
      HopelessStep(cfg, run[n - 1], actions[n - 1]);
    }
  }

  // ------ and how it then does ------ //

  /** A run that begins as the given one does up to its state m. */
  predicate Continues(run: seq<State>, actions: seq<Action>, m: nat, run': seq<State>, actions': seq<Action>) {
    && m < |run| && m <= |actions| && m < |run'| && m <= |actions'|
    && run'[..m + 1] == run[..m + 1] && actions'[..m] == actions[..m]
  }

  /** A continuation in which the generator ends by its loop condition. */
  predicate EndsSo(
      cfg: Config, run: seq<State>, actions: seq<Action>, m: nat, run': seq<State>, actions': seq<Action>) {
    IsRun(cfg, run', actions') && Continues(run, actions, m, run', actions') && run'[|actions'|].consumer.Ended?
  }

  lemma {:induction false} Extend(cfg: Config, run: seq<State>, actions: seq<Action>, action: Action)
      returns (run': seq<State>, actions': seq<Action>)
    requires IsRun(cfg, run, actions) && Enabled(run[|actions|], action)
    ensures IsRun(cfg, run', actions') && |actions'| == |actions| + 1
    ensures run'[|actions'|] == Next(cfg, run[|actions|], action)
    ensures run'[..|run|] == run && actions'[..|actions|] == actions
  {
    run', actions' := run + [Next(cfg, run[|actions|], action)], actions + [action];
  }

  /** With everything consumed at the loop condition, the dispatcher says how many there are, if it has not yet. */
  lemma {:induction false} SetsTotal(cfg: Config, run: seq<State>, actions: seq<Action>)
      returns (run': seq<State>, actions': seq<Action>)
    requires IsRun(cfg, run, actions) && run[|actions|].consumer.Head?
    requires MayBeAll(run[|actions|], run[|actions|].finished)
    ensures IsRun(cfg, run', actions') && |actions'| >= |actions|
    ensures run'[|actions'|].consumer.Head? && run'[|actions'|].total == run'[|actions'|].finished > 0
    ensures run'[..|run|] == run && actions'[..|actions|] == actions
  {
    run', actions' := run, actions;
    if run[|actions|].total != run[|actions|].finished {
      if run[|actions|].dispatcher.Pull? {
        run', actions' := Extend(cfg, run', actions', IterableEnds);
      }
      run', actions' := Extend(cfg, run', actions', Dispatch);
      assert run'[..|run|] == run && actions'[..|actions|] == actions;
    }
  }

  /** Then the loop is over. */
  lemma {:induction false} EndsFromHead(cfg: Config, run: seq<State>, actions: seq<Action>)
      returns (run': seq<State>, actions': seq<Action>)
    requires IsRun(cfg, run, actions) && run[|actions|].consumer.Head?
    requires MayBeAll(run[|actions|], run[|actions|].finished)
    ensures EndsSo(cfg, run, actions, |actions|, run', actions')
  {
    var run1, actions1 := SetsTotal(cfg, run, actions);
    run', actions' := Extend(cfg, run1, actions1, Consume);
    assert run'[..|run|] == run1[..|run|] == run && actions'[..|actions|] == actions1[..|actions|] == actions;
    assert run[..|actions| + 1] == run && actions[..|actions|] == actions;
  }

  /** Everything consumed leaves nothing in the queue. */
  lemma {:induction false} AllConsumed(cfg: Config, s: State)
    requires Inv(cfg, s) && s.consumer.Get? && MayBeAll(s, s.finished)
    ensures s.queue == []
  {
    AllDone(s.attempts, s.tip, s.yielded, s.queue);
  }

  /** What a consumer before the queue needs to have everything consumed in one step. */
  predicate TakesLast(s: State) {
    && s.consumer.Get?
    && (if s.queue == [] then MayBeAll(s, s.finished)
        else MayBeAll(s, s.finished + 1) && s.queue[0] < |s.attempts| && s.attempts[s.queue[0]].ok)
  }

  lemma {:induction false} TakeLast(cfg: Config, s: State)
    requires TakesLast(s)
    ensures Enabled(s, Consume) && var s' := Next(cfg, s, Consume); s'.consumer.Head? && MayBeAll(s', s'.finished)
  {}

  lemma {:induction false} StoreLast(cfg: Config, s: State, a: nat)
    requires s.consumer.Get? && s.queue == [] && MayBeAll(s, s.finished + 1)
    requires a < |s.attempts| && s.attempts[a].phase.Live? && s.attempts[a].ok
    ensures Enabled(s, Callback(a)) && TakesLast(Next(cfg, s, Callback(a)))
  {}

  lemma {:induction false} ReadyToTake(cfg: Config, run: seq<State>, actions: seq<Action>)
      returns (run': seq<State>, actions': seq<Action>)
    requires IsRun(cfg, run, actions) && run[|actions|].consumer.Get? && CanEnd(run[|actions|])
    ensures IsRun(cfg, run', actions') && |actions'| >= |actions| && TakesLast(run'[|actions'|])
    ensures run'[..|run|] == run && actions'[..|actions|] == actions
  {
    run', actions' := run, actions;
    RunInv(cfg, run, actions, |actions|);
    var s := run[|actions|];
    if MayBeAll(s, s.finished) {
      AllConsumed(cfg, s);
    } else if s.queue == [] {
      var a :| 0 <= a < |s.attempts| && s.attempts[a].phase.Live? && s.attempts[a].ok;
      StoreLast(cfg, s, a);
      run', actions' := Extend(cfg, run', actions', Callback(a));
    }
  }

  /** Before the queue: the last success is stored if it has not been, and taken. */
  lemma {:induction false} EndsFromGet(cfg: Config, run: seq<State>, actions: seq<Action>)
      returns (run': seq<State>, actions': seq<Action>)
    requires IsRun(cfg, run, actions) && run[|actions|].consumer.Get? && CanEnd(run[|actions|])
    ensures IsRun(cfg, run', actions') && |actions'| > |actions| && run'[|actions'|].consumer.Head?
    ensures MayBeAll(run'[|actions'|], run'[|actions'|].finished) && Continues(run, actions, |actions|, run', actions')
  {
    var run1, actions1 := ReadyToTake(cfg, run, actions);
    TakeLast(cfg, run1[|actions1|]);
    run', actions' := Extend(cfg, run1, actions1, Consume);
    assert run'[..|run|] == run1[..|run|] == run && actions'[..|actions|] == actions1[..|actions|] == actions;
    assert run[..|actions| + 1] == run && actions[..|actions|] == actions;
  }

  lemma {:induction false} CutRun(cfg: Config, run: seq<State>, actions: seq<Action>, m: nat)
    requires IsRun(cfg, run, actions) && m < |run|
    ensures IsRun(cfg, run[..m + 1], actions[..m])
  {}

  /** From a shutdown at which it can end, some schedule lets it end. */
  lemma {:induction false} SomeScheduleEnds(cfg: Config, run: seq<State>, actions: seq<Action>, m: nat)
      returns (run': seq<State>, actions': seq<Action>)
    requires IsRun(cfg, run, actions) && m < |run| && CanEnd(run[m])
    ensures EndsSo(cfg, run, actions, m, run', actions')
  {
    CutRun(cfg, run, actions, m);
    var run0, actions0 := run[..m + 1], actions[..m];
    run', actions' := run0, actions0;
    if run[m].consumer.Get? {
      run', actions' := EndsFromGet(cfg, run0, actions0);
    }
    if !run[m].consumer.Ended? {
      var run1, actions1 := run', actions';
      run', actions' := EndsFromHead(cfg, run1, actions1);
      assert run'[..m + 1] == run1[..m + 1] && actions'[..m] == actions1[..m];
    }
  }

  /**
   * A run that has come to a shutdown can be continued to a normal end if and only if everything was
   * consumed at the loop condition or right behind it, or the last success is next in the queue of a
   * consumer that has passed its look at the flag; in every other case the generator can only raise.
   */
  lemma {:induction false} EndsAfterShutdownIff(cfg: Config, run: seq<State>, actions: seq<Action>, m: nat)
    requires IsRun(cfg, run, actions) && m < |run| && run[m].Shut()
    ensures CanEnd(run[m]) <==>
            exists run': seq<State>, actions': seq<Action> :: EndsSo(cfg, run, actions, m, run', actions')
  {
    if CanEnd(run[m]) {
      var run', actions' := SomeScheduleEnds(cfg, run, actions, m);
      assert EndsSo(cfg, run, actions, m, run', actions');
    }
    forall run': seq<State>, actions': seq<Action> | EndsSo(cfg, run, actions, m, run', actions')
      ensures CanEnd(run[m])
    {
      assert run'[m] == run'[..m + 1][m] == run[..m + 1][m] == run[m];
      if !CanEnd(run'[m]) { HopelessStays(cfg, run', actions', m, |actions'|); }
    }
  }

  // ------ a run that ends although it was shut down first ------ //

  /** One item, dispatched, and the iterable is at its end. */
  function OneTask(f: Attempt, queue: seq<nat>, consumer: Consumer): State {
    State(0, NotShut, Free, false, 0, [], [f], [0], Exited, 0, 1, queue, consumer, 0, [], false)
  }

  lemma {:induction false} OneTaskDispatched() returns (run: seq<State>, actions: seq<Action>)
    ensures IsRun(Config(1, None, None), run, actions)
    ensures run[|actions|] == OneTask(Attempt(0, 7, false, false, Queued), [], Head)
  {
    var cfg := Config(1, None, None);
    run, actions := [State(1, NotShut, Free, false, 0, [], [], [], Pull, 0, 0, [], Head, 0, [], false)], [];
    run, actions := Extend(cfg, run, actions, PullItem(7));
    run, actions := Extend(cfg, run, actions, Dispatch);
    run, actions := Extend(cfg, run, actions, Dispatch);
    run, actions := Extend(cfg, run, actions, Dispatch);
    var first := Attempt(0, 7, false, false, Queued);
    assert run[|actions|] == State(0, NotShut, Free, false, 0, [], [first], [0], Pull, 0, 0, [], Head, 0, [], false);
    run, actions := Extend(cfg, run, actions, IterableEnds);
    run, actions := Extend(cfg, run, actions, Dispatch);
  }

  lemma {:induction false} OneTaskStored() returns (run: seq<State>, actions: seq<Action>)
    ensures IsRun(Config(1, None, None), run, actions)
    ensures run[|actions|] == OneTask(Attempt(0, 7, true, true, Stored), [0], Head)
  {
    var cfg := Config(1, None, None);
    run, actions := OneTaskDispatched();
    run, actions := Extend(cfg, run, actions, StartWork(0));
    assert run[|actions|] == OneTask(Attempt(0, 7, false, false, Running), [], Head);
    run, actions := Extend(cfg, run, actions, FinishWork(0, true));
    assert run[|actions|] == OneTask(Attempt(0, 7, true, false, Done), [], Head);
    run, actions := Extend(cfg, run, actions, Callback(0));
    assert run[|actions|] == OneTask(Attempt(0, 7, true, false, Live), [], Head);
    run, actions := Extend(cfg, run, actions, Callback(0));
  }

  lemma {:induction false} OneTaskAtGet() returns (run: seq<State>, actions: seq<Action>)
    ensures IsRun(Config(1, None, None), run, actions)
    ensures run[|actions|] == OneTask(Attempt(0, 7, true, true, Stored), [0], Get)
  {
    var cfg := Config(1, None, None);
    run, actions := OneTaskStored();
    run, actions := Extend(cfg, run, actions, Consume);
    run, actions := Extend(cfg, run, actions, Consume);
    run, actions := Extend(cfg, run, actions, Consume);
  }

  /**
   * Shut down with nothing consumed, between the look at the flag and the queue: the only success
   * is handed out and the generator ends.
   */
  lemma {:induction false} ShutdownCanBeMissed() returns (run: seq<State>, actions: seq<Action>, m: nat)
    ensures IsRun(Config(1, None, None), run, actions) && m < |actions|
    ensures run[m].Shut() && run[m].finished == 0 && run[m].yielded == [] && |run[m].tip| == 1
    ensures run[|actions|].consumer.Ended? && run[|actions|].yielded == [0]
  {
    var cfg := Config(1, None, None);
    run, actions := OneTaskAtGet();
    run, actions := Extend(cfg, run, actions, OuterShutdown);
    m := |actions|;
    var shut := run[m];
    run, actions := Extend(cfg, run, actions, Consume);
    assert run[m] == shut;
    run, actions := Extend(cfg, run, actions, Consume);
    assert run[m] == shut;
  }
}
