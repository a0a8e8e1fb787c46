/** The invariant of the retrying thread pool: every step of every thread keeps it. */
module RetryPoolInvariant {
  import opened RetryPool
  import opened RetryPoolFutures

  function History(s: State): seq<nat> { s.yielded + s.queue }

  predicate PermitsKept(cfg: Config, s: State) {
    && s.permits + |Holders(s.attempts)| + s.held == cfg.maxConcurrent
    && (s.dispatcher.Submit? ==> s.held == 1)
    && (s.dispatcher.Pull? || s.dispatcher.Check? || s.dispatcher.Acquire? ==> s.held == 0)
    && (s.held > 0 ==> s.dispatcher.Submit? || s.Shut())
  }

  predicate Counted(s: State)
    requires Chained(s.attempts, s.tip)
  {
    && s.finished == |DoneItems(s.attempts, s.tip, s.yielded)|
    && (s.total != 0 ==> s.dispatcher.Exited? && s.total == if |s.tip| == 0 then -1 else |s.tip|)
    && (s.consumer.Ended? ==> s.finished > 0 && s.finished == s.total)
    && (s.consumer.NoTask? ==> s.total < 0)
  }

  predicate Caused(s: State) {
    && (s.alarm || s.lock.Held? || s.dispatcher.CallShutdown? || AnyAborts(s.attempts) ==> s.excs || s.Shut())
    && (s.lock.Draining? ==> s.Shut())
    && (s.consumer.Raised? ==> s.Shut())
    && (s.origin.Inner? ==> s.excs || s.consumer.Raised?)
    && (s.consumer.Raised? && s.origin.Inner? ==> s.consumer.cause)
  }

  predicate RetriesBounded(cfg: Config, s: State) {
    && |s.attempts| + |Granted(s.attempts)| <= |s.tip| + s.retries
    && (cfg.maxTotalRetry.Some? ==> |s.attempts| + |Granted(s.attempts)| <= |s.tip| + cfg.maxTotalRetry.value)
  }

  predicate Inv(cfg: Config, s: State) {
    && Chained(s.attempts, s.tip) && AllSound(s.attempts, s.tip, s.Shut())
    && Stores(s.attempts, History(s), !s.consumer.Raised?)
    && PermitsKept(cfg, s) && Counted(s) && Caused(s) && Requested(s) && RetriesBounded(cfg, s)
  }

  lemma {:induction false} NothingDispatched(fs: Futures, tip: seq<nat>, h: seq<nat>)
    requires |fs| == 0 && |tip| == 0 && |h| == 0
    ensures Chained(fs, tip) && AllSound(fs, tip, false) && Stores(fs, h, true)
    ensures |Holders(fs)| == 0 && |Granted(fs)| == 0 && |DoneItems(fs, tip, h)| == 0
    ensures !AnyAborts(fs) && !AnyAborted(fs)
  {
    assert Holders(fs) == {} && Granted(fs) == {} && DoneItems(fs, tip, h) == {};
  }

  lemma {:induction false} FreshInv(cfg: Config, s: State)
    requires Chained(s.attempts, s.tip) && AllSound(s.attempts, s.tip, false) && Stores(s.attempts, History(s), true)
    requires |Holders(s.attempts)| == 0 && |Granted(s.attempts)| == 0 && |DoneItems(s.attempts, s.tip, s.yielded)| == 0
    requires !AnyAborts(s.attempts) && !AnyAborted(s.attempts) && |s.attempts| == |s.tip|
    requires s.permits == cfg.maxConcurrent && s.held == 0 && s.finished == 0 && s.retries == 0 && s.total == 0
    requires s.origin.NotShut? && s.lock.Free? && s.dispatcher.Pull? && s.consumer.Head? && !s.excs && !s.alarm
    ensures Inv(cfg, s)
  {
  }

  lemma {:induction false} InitInv(cfg: Config, s: State)
    requires IsInit(cfg, s)
    ensures Inv(cfg, s)
  {
    NothingDispatched(s.attempts, s.tip, s.yielded);
    NothingDispatched(s.attempts, s.tip, History(s));
    FreshInv(cfg, s);
  }

  /** Steps that touch neither a future nor the future queue. */
  predicate Quiet(s: State, action: Action) {
    match action
    case PullItem(_) | IterableEnds | IterableRaises => true
    case WatchdogFails | WatchdogShuts | OuterShutdown | SetFlag | EndDrain => true
    case Dispatch => !s.dispatcher.Submit?
    case _ => false
  }

  /** What such a step leaves as it is. */
  predicate SameFutures(s: State, s': State) {
    && s'.attempts == s.attempts && s'.tip == s.tip && s'.queue == s.queue && s'.yielded == s.yielded
    && s'.consumer == s.consumer && s'.finished == s.finished && s'.retries == s.retries && (s.Shut() ==> s'.Shut())
  }

  lemma {:induction false} QuietDispatch(s: State)
    requires Enabled(s, Dispatch) && !s.dispatcher.Submit?
    ensures SameFutures(s, Dispatched(s))
  {}

  lemma {:induction false} QuietFrame(cfg: Config, s: State, action: Action)
    requires Enabled(s, action) && Quiet(s, action)
    ensures SameFutures(s, Next(cfg, s, action))
  {
    if action.Dispatch? { QuietDispatch(s); }
  }

  lemma {:induction false} QuietPermits(cfg: Config, s: State, action: Action)
    requires Enabled(s, action) && Quiet(s, action) && PermitsKept(cfg, s)
    ensures PermitsKept(cfg, Next(cfg, s, action))
  {
    QuietFrame(cfg, s, action);
  }

  lemma {:induction false} QuietCaused(cfg: Config, s: State, action: Action)
    requires Enabled(s, action) && Quiet(s, action) && Caused(s) && Requested(s)
    ensures Caused(Next(cfg, s, action)) && Requested(Next(cfg, s, action))
  {
    QuietFrame(cfg, s, action);
  }

  lemma {:induction false} SoundWhenShut(fs: Futures, tip: seq<nat>, shut: bool, shut': bool)
    requires Chained(fs, tip) && AllSound(fs, tip, shut) && (shut ==> shut')
    ensures AllSound(fs, tip, shut')
  {}

  lemma {:induction false} QuietFutures(cfg: Config, s: State, action: Action)
    requires Chained(s.attempts, s.tip) && AllSound(s.attempts, s.tip, s.Shut()) && Enabled(s, action)
    requires Quiet(s, action)
    requires Stores(s.attempts, History(s), !s.consumer.Raised?) && Counted(s) && RetriesBounded(cfg, s)
    ensures var s' := Next(cfg, s, action);
            && Chained(s'.attempts, s'.tip) && AllSound(s'.attempts, s'.tip, s'.Shut())
            && Stores(s'.attempts, History(s'), !s'.consumer.Raised?) && Counted(s') && RetriesBounded(cfg, s')
  {
    QuietFrame(cfg, s, action);
    SoundWhenShut(s.attempts, s.tip, s.Shut(), Next(cfg, s, action).Shut());
  }

  lemma {:induction false} QuietKept(cfg: Config, s: State, action: Action)
    requires Inv(cfg, s) && Enabled(s, action) && Quiet(s, action)
    ensures Inv(cfg, Next(cfg, s, action))
  {
    QuietFutures(cfg, s, action);
    QuietPermits(cfg, s, action);
    QuietCaused(cfg, s, action);
  }

  lemma {:induction false} SubmitScalars(cfg: Config, s: State)
    requires s.dispatcher.Submit? && PermitsKept(cfg, s) && RetriesBounded(cfg, s) && Caused(s) && Requested(s)
    ensures var s' := Next(cfg, s, Dispatch);
            PermitsKept(cfg, s') && RetriesBounded(cfg, s') && Caused(s') && Requested(s')
  {
    var f := Attempt(|s.tip|, s.dispatcher.id, false, false, Queued);
    AppendSets(s.attempts, f);
    assert AnyAborts(s.attempts + [f]) ==> AnyAborts(s.attempts);
    assert AnyAborted(s.attempts + [f]) ==> AnyAborted(s.attempts);
  }

  lemma {:induction false} SubmitKept(cfg: Config, s: State)
    requires Inv(cfg, s) && s.dispatcher.Submit?
    ensures Inv(cfg, Next(cfg, s, Dispatch))
  {
    SubmitScalars(cfg, s);
    if !s.Shut() {
      var f := Attempt(|s.tip|, s.dispatcher.id, false, false, Queued);
      AppendItem(s.attempts, s.tip, false, f);
      AppendStores(s.attempts, History(s), !s.consumer.Raised?, f);
      AppendDone(s.attempts, s.tip, s.attempts + [f], s.tip + [|s.attempts|], s.yielded, |s.tip|);
    }
  }

  /** What holds after one future that is not over moves on, its stored flag unchanged. */
  lemma {:induction false} FutureMoved(cfg: Config, s: State, s': State, a: nat, f: Attempt)
    requires Inv(cfg, s) && a < |s.attempts| && !s.attempts[a].phase.Over?
    requires f.item == s.attempts[a].item && f.stored == s.attempts[a].stored && Sound(f, true, s.Shut())
    requires f.ok == s.attempts[a].ok || !f.stored
    requires s'.attempts == s.attempts[a := f] && s'.tip == s.tip && s'.yielded == s.yielded && s'.queue == s.queue
    requires s'.consumer == s.consumer && s'.finished == s.finished && s'.total == s.total
    requires s'.dispatcher == s.dispatcher && s'.origin == s.origin
    ensures Chained(s'.attempts, s'.tip) && AllSound(s'.attempts, s'.tip, s'.Shut())
    ensures Stores(s'.attempts, History(s'), !s'.consumer.Raised?) && Counted(s')
    ensures |Holders(s'.attempts)| == |Holders(s.attempts)| - if f.phase.Over? then 1 else 0
    ensures |Granted(s'.attempts)| == |Granted(s.attempts)|
            - (if Grants(s.attempts[a].phase) then 1 else 0) + (if Grants(f.phase) then 1 else 0)
  {
    UpdateChained(s.attempts, s.tip, s.Shut(), a, f);
    UpdateStores(s.attempts, History(s), !s.consumer.Raised?, a, f);
    if a in s.yielded {
      var p :| 0 <= p < |s.yielded| && s.yielded[p] == a;
      assert History(s)[p] == a;
    }
    UpdateDone(s.attempts, s.tip, s.yielded, a, f);
    UpdateHolders(s.attempts, a, f);
    UpdateGranted(s.attempts, a, f);
  }

  predicate Worked(before: Attempt, after: Attempt) {
    && after.item == before.item && after.stored == before.stored && (after.ok == before.ok || !after.stored)
    && !before.phase.Over? && !after.phase.Over? && !Grants(before.phase) && !Grants(after.phase)
    && !after.phase.Abort? && !after.phase.Record? && !after.phase.Aborted?
  }

  lemma {:induction false} WorkFrame(cfg: Config, s: State, action: Action)
    requires Inv(cfg, s) && Enabled(s, action) && (action.StartWork? || action.FinishWork? || action.DropWork?)
    ensures var f := Next(cfg, s, action).attempts[action.a];
            && Next(cfg, s, action) == s.(attempts := s.attempts[action.a := f])
            && Worked(s.attempts[action.a], f) && Sound(f, true, s.Shut())
  {}

  lemma {:induction false} WorkedAborts(fs: Futures, a: nat, f: Attempt)
    requires a < |fs| && Worked(fs[a], f)
    ensures AnyAborts(fs[a := f]) ==> AnyAborts(fs)
    ensures AnyAborted(fs[a := f]) ==> AnyAborted(fs)
  {}

  lemma {:induction false} WorkKept(cfg: Config, s: State, action: Action)
    requires Inv(cfg, s) && Enabled(s, action) && (action.StartWork? || action.FinishWork? || action.DropWork?)
    ensures Inv(cfg, Next(cfg, s, action))
  {
    var s' := Next(cfg, s, action);
    WorkFrame(cfg, s, action);
    FutureMoved(cfg, s, s', action.a, s'.attempts[action.a]);
    WorkedAborts(s.attempts, action.a, s'.attempts[action.a]);
  }

  /** The callback steps that neither store the future nor submit a new one. */
  predicate Moves(s: State, a: nat)
  {
    Enabled(s, Callback(a)) && !s.attempts[a].phase.Live? && (s.attempts[a].phase.Retry? ==> s.Shut())
  }

  lemma {:induction false} CallbackFrame(cfg: Config, s: State, a: nat)
    requires Moves(s, a)
    ensures var s' := CalledBack(cfg, s, a);
            && s'.attempts == s.attempts[a := s'.attempts[a]]
            && s'.tip == s.tip && s'.yielded == s.yielded && s'.queue == s.queue && s'.consumer == s.consumer
            && s'.finished == s.finished && s'.total == s.total && s'.dispatcher == s.dispatcher
            && s'.origin == s.origin && s'.held == s.held && s'.alarm == s.alarm
  {
  }

  lemma {:induction false} CallbackFuture(cfg: Config, s: State, a: nat)
    requires Moves(s, a) && Sound(s.attempts[a], true, s.Shut())
    ensures var s', f, f' := CalledBack(cfg, s, a), s.attempts[a], CalledBack(cfg, s, a).attempts[a];
            && f'.item == f.item && f'.stored == f.stored && f'.ok == f.ok && Sound(f', true, s.Shut())
            && s'.permits == s.permits + (if f'.phase.Over? then 1 else 0)
            && s'.retries == s.retries + (if f.phase.Stored? && !f.ok then 1 else 0)
            && (Grants(f'.phase) && !Grants(f.phase) ==>
                  f.phase.Stored? && !f.ok && !Exceeds(s.retries + 1, cfg.maxTotalRetry))
            && (f'.phase.Abort? ==> s'.excs)
            && (f'.phase.Aborted? ==> s'.lock == if s.lock.Free? then Held else s.lock)
            && (!f'.phase.Aborted? ==> s'.lock == s.lock)
            && (s.excs ==> s'.excs)
  {
  }

  lemma {:induction false} CallbackCaused(cfg: Config, s: State, a: nat)
    requires Moves(s, a) && Caused(s) && Requested(s) && Sound(s.attempts[a], true, s.Shut())
    ensures Caused(CalledBack(cfg, s, a)) && Requested(CalledBack(cfg, s, a))
  {
    CallbackFrame(cfg, s, a);
    CallbackFuture(cfg, s, a);
    var s' := CalledBack(cfg, s, a);
    if AnyAborts(s'.attempts) && !s'.attempts[a].phase.Abort? {
      var b :| 0 <= b < |s'.attempts| && s'.attempts[b].phase.Abort?;
      assert s.attempts[b].phase.Abort?;
    }
    assert s.attempts[a].phase.Abort? ==> AnyAborts(s.attempts);
    if AnyAborted(s'.attempts) && !s'.attempts[a].phase.Aborted? {
      var b :| 0 <= b < |s'.attempts| && s'.attempts[b].phase.Aborted?;
      assert s.attempts[b].phase.Aborted?;
    }
  }

  lemma {:induction false} CallbackRetries(cfg: Config, s: State, a: nat)
    requires Moves(s, a) && RetriesBounded(cfg, s) && Sound(s.attempts[a], true, s.Shut())
    requires cfg.maxTotalRetry.Some? ==>
      |s.attempts| + |Granted(s.attempts)| <= |s.tip| + s.retries
    ensures RetriesBounded(cfg, CalledBack(cfg, s, a))
  {
    CallbackFrame(cfg, s, a);
    CallbackFuture(cfg, s, a);
    UpdateGranted(s.attempts, a, CalledBack(cfg, s, a).attempts[a]);
  }

  lemma {:induction false} CallbackMoveKept(cfg: Config, s: State, a: nat)
    requires Inv(cfg, s) && Moves(s, a)
    ensures Inv(cfg, Next(cfg, s, Callback(a)))
  {
    var s' := CalledBack(cfg, s, a);
    assert s.tip[s.attempts[a].item] == a;
    CallbackFrame(cfg, s, a);
    CallbackFuture(cfg, s, a);
    FutureMoved(cfg, s, s', a, s'.attempts[a]);
    CallbackCaused(cfg, s, a);
    CallbackRetries(cfg, s, a);
  }

  lemma {:induction false} StoreScalars(cfg: Config, s: State, a: nat)
    requires Enabled(s, Callback(a)) && s.attempts[a].phase.Live?
    requires PermitsKept(cfg, s) && RetriesBounded(cfg, s) && Caused(s) && Requested(s)
    ensures var s' := CalledBack(cfg, s, a);
            PermitsKept(cfg, s') && RetriesBounded(cfg, s') && Caused(s') && Requested(s')
  {
    var f := CalledBack(cfg, s, a).attempts[a];
    UpdateHolders(s.attempts, a, f);
    UpdateGranted(s.attempts, a, f);
    assert AnyAborts(s.attempts[a := f]) ==> AnyAborts(s.attempts);
    assert AnyAborted(s.attempts[a := f]) ==> AnyAborted(s.attempts);
  }

  lemma {:induction false} StoreKept(cfg: Config, s: State, a: nat)
    requires Inv(cfg, s) && Enabled(s, Callback(a)) && s.attempts[a].phase.Live?
    ensures Inv(cfg, Next(cfg, s, Callback(a)))
  {
    var s' := CalledBack(cfg, s, a);
    var f := s'.attempts[a];
    StoreScalars(cfg, s, a);
    UpdateChained(s.attempts, s.tip, s.Shut(), a, f);
    StoreOne(s.attempts, s.tip, History(s), !s.consumer.Raised?, a, f);
    assert History(s') == History(s) + [a];
    UpdateDone(s.attempts, s.tip, s.yielded, a, f);
  }

  lemma {:induction false} RetryScalars(cfg: Config, s: State, a: nat)
    requires Enabled(s, Callback(a)) && s.attempts[a].phase.Retry? && !s.Shut()
    requires PermitsKept(cfg, s) && RetriesBounded(cfg, s) && Caused(s) && Requested(s) && s.attempts[a].item < |s.tip|
    ensures var s' := Resubmitted(s, a); PermitsKept(cfg, s') && RetriesBounded(cfg, s') && Caused(s') && Requested(s')
  {
    var over := s.attempts[a].(phase := Over);
    var f := Attempt(over.item, over.id, false, false, Queued);
    UpdateHolders(s.attempts, a, over);
    UpdateGranted(s.attempts, a, over);
    AppendSets(s.attempts[a := over], f);
    assert AnyAborts(s.attempts[a := over] + [f]) ==> AnyAborts(s.attempts);
    assert AnyAborted(s.attempts[a := over] + [f]) ==> AnyAborted(s.attempts);
  }

  /** Resubmitting a failed item moves its tip to a new future, and nothing else about the futures. */
  lemma {:induction false} RetryFutures(
      fs: Futures, tip: seq<nat>, h: seq<nat>, all: bool, yielded: seq<nat>, a: nat, f: Attempt)
    requires Chained(fs, tip) && AllSound(fs, tip, false) && Stores(fs, h, all) && a < |fs| && fs[a].phase.Retry?
    requires f.item == fs[a].item && f.phase.Queued? && !f.ok && !f.stored
    ensures var fs' := fs[a := fs[a].(phase := Over)] + [f]; var tip' := tip[f.item := |fs|];
            && Chained(fs', tip') && AllSound(fs', tip', false) && Stores(fs', h, all)
            && DoneItems(fs', tip', yielded) == DoneItems(fs, tip, yielded)
  {
    var over := fs[a].(phase := Over);
    AppendRetry(fs, tip, false, a, f);
    UpdateStores(fs, h, all, a, over);
    AppendStores(fs[a := over], h, all, f);
    AppendDone(fs, tip, fs[a := over] + [f], tip[f.item := |fs|], yielded, f.item);
  }

  lemma {:induction false} RetryKept(cfg: Config, s: State, a: nat)
    requires Inv(cfg, s) && Enabled(s, Callback(a)) && s.attempts[a].phase.Retry? && !s.Shut()
    ensures Inv(cfg, Next(cfg, s, Callback(a)))
  {
    RetryScalars(cfg, s, a);
    var f := Attempt(s.attempts[a].item, s.attempts[a].id, false, false, Queued);
    RetryFutures(s.attempts, s.tip, History(s), !s.consumer.Raised?, s.yielded, a, f);
  }

  /** The consumer takes the oldest future of the queue. */
  lemma {:induction false} TakeOne(fs: Futures, tip: seq<nat>, shut: bool, yielded: seq<nat>, queue: seq<nat>)
    requires Chained(fs, tip) && AllSound(fs, tip, shut) && queue != [] && queue[0] < |fs|
    requires Stores(fs, yielded + queue, true)
    ensures |DoneItems(fs, tip, yielded + [queue[0]])|
            == |DoneItems(fs, tip, yielded)| + if fs[queue[0]].ok then 1 else 0
  {
    var a, h := queue[0], yielded + queue;
    assert h[|yielded|] == a;
    forall p | 0 <= p < |yielded| ensures yielded[p] != a { assert h[p] == yielded[p]; }
    var before, after := DoneItems(fs, tip, yielded), DoneItems(fs, tip, yielded + [a]);
    if fs[a].ok {
      assert tip[fs[a].item] == a;
      assert after == before + {fs[a].item};
    } else {
      assert after == before;
    }
  }

  lemma {:induction false} TakeKept(cfg: Config, s: State)
    requires Inv(cfg, s) && Takes(s)
    ensures Inv(cfg, Consumed(s))
  {
    TakeCounted(s);
    TakeScalars(cfg, s);
    assert History(Consumed(s)) == History(s);
  }

  lemma {:induction false} TakeCounted(s: State)
    requires Chained(s.attempts, s.tip) && AllSound(s.attempts, s.tip, s.Shut()) && Stores(s.attempts, History(s), true)
    requires Counted(s) && Takes(s)
    ensures Counted(Consumed(s))
  {
    assert History(s)[|s.yielded|] == s.queue[0];
    TakeOne(s.attempts, s.tip, s.Shut(), s.yielded, s.queue);
  }

  lemma {:induction false} TakeScalars(cfg: Config, s: State)
    requires PermitsKept(cfg, s) && Caused(s) && Requested(s) && RetriesBounded(cfg, s) && Takes(s)
    ensures var s' := Consumed(s); PermitsKept(cfg, s') && Caused(s') && Requested(s') && RetriesBounded(cfg, s')
  {}

  lemma {:induction false} StoresPrefix(fs: Futures, h: seq<nat>, all: bool, n: nat)
    requires Stores(fs, h, all) && n <= |h|
    ensures Stores(fs, h[..n], false)
  {
  }

  lemma {:induction false} PollScalars(cfg: Config, s: State)
    requires PermitsKept(cfg, s) && Caused(s) && Enabled(s, Consume) && !Takes(s)
    ensures PermitsKept(cfg, Consumed(s)) && Caused(Consumed(s))
  {
    assert Consumed(s).attempts == s.attempts;
  }

  lemma {:induction false} PollKept(cfg: Config, s: State)
    requires Inv(cfg, s) && Enabled(s, Consume) && !Takes(s)
    ensures Inv(cfg, Consumed(s))
  {
    var s' := Consumed(s);
    PollScalars(cfg, s);
    assert s'.attempts == s.attempts && s'.tip == s.tip && s'.yielded == s.yielded;
    if s'.consumer.Raised? {
      StoresPrefix(s.attempts, History(s), true, |s.yielded|);
      assert History(s') == History(s)[..|s.yielded|];
    } else {
      assert History(s') == History(s);
    }
    assert Counted(s');
  }

  lemma {:induction false} InvKept(cfg: Config, s: State, action: Action)
    requires Inv(cfg, s) && Enabled(s, action)
    ensures Inv(cfg, Next(cfg, s, action))
  {
    match action {
      case Dispatch => if s.dispatcher.Submit? { SubmitKept(cfg, s); } else { QuietKept(cfg, s, action); }
      case StartWork(_) | FinishWork(_, _) | DropWork(_) => WorkKept(cfg, s, action);
      case Callback(a) =>
        if s.attempts[a].phase.Live? {
          StoreKept(cfg, s, a);
        } else if s.attempts[a].phase.Retry? && !s.Shut() {
          RetryKept(cfg, s, a);
        } else {
          CallbackMoveKept(cfg, s, a);
        }
      case Consume => if Takes(s) { TakeKept(cfg, s); } else { PollKept(cfg, s); }
      case _ => QuietKept(cfg, s, action);
    }
  }

  lemma {:induction false} RunInv(cfg: Config, run: seq<State>, actions: seq<Action>, n: nat)
    requires IsRun(cfg, run, actions) && n < |run|
    ensures Inv(cfg, run[n])
  {
    if n == 0 {
      InitInv(cfg, run[0]);
    } else {
      RunInv(cfg, run, actions, n - 1);
      InvKept(cfg, run[n - 1], actions[n - 1]);
    }
  }
}
