/**
 * What a subscriber of a failed tracker can still do: exactly when its loop can end by its own
 * condition, as if the file were whole.
 */
module CacheStreamingFailed {
  import opened Prelude
  import opened CacheStreaming
  import opened CacheStreamingInvariant
  import opened CacheStreamingLimits

  // ------ a tracker fails late ------ //

  predicate OnceWriter(w: Writer) { (w.Waiting? && w.once) || w.OnceWrite? || w.OnceFlush? }

  /** Nothing fails before the writer is dispatched, and nothing but itself fails a writer of one chunk. */
  predicate FailsLate(s: State) {
    s.flags.failed ==> !Early(s.feed.provider) && !OnceWriter(s.store.writer)
  }

  lemma {:induction false} FailsLateStep(s: State, action: Action)
    requires Inv(s) && FailsLate(s) && Enabled(s, action)
    ensures FailsLate(Next(s, action))
  {}

  lemma {:induction false} FailsLateAlways(run: seq<State>, actions: seq<Action>, i: nat)
    requires IsRun(run, actions) && i < |run|
    ensures FailsLate(run[i])
  {
    if i > 0 {
      RunInv(run, actions, i - 1);
      FailsLateAlways(run, actions, i - 1);
      FailsLateStep(run[i - 1], actions[i - 1]);
    }
  }

  // ------ how much there will be ------ //

  /**
   * What the writer takes next ends it, or can: a falsy item is in the tee, or the sentinel can be
   * the next to come.
   */
  predicate NextFalsy(f: Feed) {
    if f.tee != [] then Falsy(f.tee[0])
    else
      || f.provider.Stream? || f.provider.Check? || f.provider.Fail? || f.provider.Finish?
      || (f.provider.Put? && f.chunks != [] && f.chunks[|f.chunks| - 1] == [])
  }

  /**
   * The length at which the writer of a failed tracker finishes, if it still can: it must not have
   * to test the flag again.
   */
  function FinalLength(s: State): Option<nat> {
    if s.flags.finished then Some(s.store.bytesWritten)
    else
      match s.store.writer
      case Flush => Some(s.store.bytesWritten)
      case Size => Some(s.store.bytesWritten)
      case SetFinished(_) => Some(s.store.bytesWritten)
      case Waiting(_) => if NextFalsy(s.feed) then Some(s.store.bytesWritten) else None
      case Get => if NextFalsy(s.feed) then Some(s.store.bytesWritten) else None
      case Count(n) => if NextFalsy(s.feed) then Some(s.store.bytesWritten + n) else None
      case Write(data) => if NextFalsy(s.feed) then Some(s.store.bytesWritten + |data|) else None
      case _ => None
  }

  /**
   * A subscriber that reads c bytes at a time can still end: it has; it is about to compare and has
   * them all; it is at the head of its loop and has all there will be; or it is about to read and one
   * read brings it there.
   */
  predicate CanStillEnd(s: State, c: nat) {
    match s.reader
    case Ended => true
    case Compare => |s.emitted| >= s.store.bytesWritten
    case Head => FinalLength(s).Some? && FinalLength(s).value <= |s.emitted|
    case Read => FinalLength(s).Some? && FinalLength(s).value <= |s.emitted| + c
    case _ => false
  }

  // ------ once it cannot it never can ------ //

  lemma {:induction false} NextFalsyBefore(s: State, action: Action)
    requires Enabled(s, action) && s.flags.failed && !Early(s.feed.provider) && !action.WriterStep?
    requires s.feed.provider.Put? ==> s.feed.chunks != []
    requires NextFalsy(Next(s, action).feed)
    ensures NextFalsy(s.feed)
  {}

  lemma {:induction false} FinalBeforeWriter(s: State, w: World)
    requires (s.flags.finished ==> Past(s.store.writer)) && FailsLate(s) && s.flags.failed
    requires WriterActs(s.feed, s.store) && FinalLength(Wrote(s, w)).Some?
    ensures FinalLength(s) == FinalLength(Wrote(s, w))
  {}

  lemma {:induction false} ProviderLeavesStore(s: State, locked: bool, accepts: bool)
    requires FailsLate(s) && ProviderActs(s.feed.provider) && s.flags.failed
    ensures Provided(s, locked, accepts).store == s.store
    ensures Provided(s, locked, accepts).flags.finished == s.flags.finished
  {}

  lemma {:induction false} SameFinal(s: State, s': State)
    requires s'.store == s.store && s'.flags.finished == s.flags.finished
    requires FinalLength(s').Some? && (NextFalsy(s'.feed) ==> NextFalsy(s.feed))
    ensures FinalLength(s) == FinalLength(s')
  {}

  lemma {:induction false} FinalBeforeProvider(s: State, locked: bool, accepts: bool)
    requires Inv(s) && FailsLate(s) && ProviderActs(s.feed.provider) && s.flags.failed
    requires FinalLength(Provided(s, locked, accepts)).Some?
    ensures FinalLength(s) == FinalLength(Provided(s, locked, accepts))
  {
    var s' := Provided(s, locked, accepts);
    ProviderLeavesStore(s, locked, accepts);
    if NextFalsy(s'.feed) { NextFalsyBefore(s, ProviderStep(locked, accepts)); }
    SameFinal(s, s');
  }

  lemma {:induction false} FinalBefore(s: State, action: Action)
    requires Inv(s) && FailsLate(s) && Enabled(s, action) && s.flags.failed && FinalLength(Next(s, action)).Some?
    ensures FinalLength(s) == FinalLength(Next(s, action))
  {
    match action
    case WriterStep(w) => FinalBeforeWriter(s, w);
    case ProviderStep(locked, accepts) => FinalBeforeProvider(s, locked, accepts);
    case RemoteYields(_) | RemoteEnds | RemoteRaises | CloseEarly =>
      if NextFalsy(Next(s, action).feed) { NextFalsyBefore(s, action); }
    case CancelWriter | BufferDrains(_) | ReaderStep(_, _, _) =>
  }

  /** The bytes counted do not change once the writer has finished. */
  lemma {:induction false} CountIsFinal(s: State, action: Action)
    requires Inv(s) && Enabled(s, action) && s.flags.finished
    ensures Next(s, action).flags.finished && Next(s, action).store.bytesWritten == s.store.bytesWritten
  {}

  lemma {:induction false} ReadOnce(s: State, c: nat, gives: bool, small: bool)
    requires c > 0 && s.reader.Read?
    ensures |Emitted(s, c, small)| <= |s.emitted| + c
  {}

  lemma {:induction false} ReaderBefore(s: State, c: nat, gives: bool, small: bool)
    requires Inv(s) && s.flags.failed && c > 0 && Enabled(s, ReaderStep(c, gives, small))
    requires CanStillEnd(Next(s, ReaderStep(c, gives, small)), c)
    ensures CanStillEnd(s, c)
  {
    if s.reader.Read? { ReadOnce(s, c, gives, small); }
  }

  lemma {:induction false} CanStillEndBefore(s: State, action: Action, c: nat)
    requires Inv(s) && FailsLate(s) && s.flags.failed && Enabled(s, action) && c > 0
    requires action.ReaderStep? ==> action.n == c
    requires CanStillEnd(Next(s, action), c)
    ensures CanStillEnd(s, c)
  {
    if action.ReaderStep? {
      ReaderBefore(s, c, action.gives, action.small);
    } else {
      var s' := Next(s, action);
      assert s'.reader == s.reader && s'.emitted == s.emitted;
      if s.reader.Compare? { CountIsFinal(s, action); }
      if FinalLength(s').Some? { FinalBefore(s, action); }
    }
  }

  /** The reads of the schedule are of c bytes. */
  predicate ReadsBy(actions: seq<Action>, c: nat) {
    forall i | 0 <= i < |actions| && actions[i].ReaderStep? :: actions[i].n == c
  }

  predicate FailedOk(s: State) { FailsLate(s) && s.flags.failed }

  lemma {:induction false} FailedStep(s: State, action: Action)
    requires Inv(s) && FailedOk(s) && Enabled(s, action)
    ensures Inv(Next(s, action)) && FailedOk(Next(s, action))
  {
    StepKept(s, action);
    FailsLateStep(s, action);
  }

  lemma {:induction false} EndedCould(s: State, actions: seq<Action>, s': State, c: nat)
    requires Inv(s) && FailedOk(s) && Reaches(s, actions, s') && ReadsBy(actions, c) && c > 0 && s'.reader.Ended?
    ensures CanStillEnd(s, c)
    decreases |actions|
  {
    if actions != [] {
      FailedStep(s, actions[0]);
      EndedCould(Next(s, actions[0]), actions[1..], s', c);
      CanStillEndBefore(s, actions[0], c);
    }
  }

  // ------ and where it can some schedule lets it ------ //

  lemma {:induction false} Then(s0: State, actions: seq<Action>, s: State, c: nat, action: Action)
      returns (more: seq<Action>, s': State)
    requires Reaches(s0, actions, s) && ReadsBy(actions, c) && Enabled(s, action)
    requires (action.ReaderStep? ==> action.n == c)
    ensures Reaches(s0, more, s') && ReadsBy(more, c) && s' == Next(s, action)
  {
    more, s' := actions + [action], Next(s, action);
    ReachesStep(s0, actions, s, action);
  }

  /** The provider comes to where it puts something. */
  lemma {:induction false} ToPut(s0: State, actions: seq<Action>, s: State, c: nat)
      returns (more: seq<Action>, s': State)
    requires Reaches(s0, actions, s) && ReadsBy(actions, c)
    requires s.flags.failed && s.feed.tee == [] && NextFalsy(s.feed)
    requires s.feed.provider.Stream? || s.feed.provider.Check? ==> s.feed.remote.Open?
    ensures Reaches(s0, more, s') && ReadsBy(more, c)
    ensures s'.feed.tee == [] && NextFalsy(s'.feed) && (s'.feed.provider.Put? || s'.feed.provider.Finish?)
    ensures s'.flags == s.flags.(started := s'.flags.started) && s'.store == s.store
    ensures s'.reader == s.reader && s'.emitted == s.emitted
  {
    var step := ProviderStep(false, false);
    more, s' := actions, s;
    if s'.feed.provider.Check? { more, s' := Then(s0, more, s', c, step); }
    if s'.feed.provider.Stream? { more, s' := Then(s0, more, s', c, RemoteEnds); }
    if s'.feed.provider.Fail? { more, s' := Then(s0, more, s', c, step); }
  }

  /** It puts the sentinel, or the empty chunk it has. */
  lemma {:induction false} BringFalsy(s0: State, actions: seq<Action>, s: State, c: nat)
      returns (more: seq<Action>, s': State)
    requires Reaches(s0, actions, s) && ReadsBy(actions, c)
    requires s.flags.failed && NextFalsy(s.feed)
    requires (s.feed.provider.Stream? || s.feed.provider.Check? ==> s.feed.remote.Open?)
    ensures Reaches(s0, more, s') && ReadsBy(more, c)
    ensures s'.feed.tee != [] && Falsy(s'.feed.tee[0])
    ensures s'.flags == s.flags.(started := s'.flags.started) && s'.store == s.store
    ensures s'.reader == s.reader && s'.emitted == s.emitted
  {
    more, s' := actions, s;
    if s.feed.tee == [] {
      more, s' := ToPut(s0, more, s', c);
      more, s' := Then(s0, more, s', c, ProviderStep(false, false));
    }
  }

  predicate Storing(w: Writer) { (w.Waiting? && !w.once) || w.Count? || w.Write? }

  /** A step of the writer that stores or counts what it holds, or starts it. */
  lemma {:induction false} StoresOn(s: State)
    requires Storing(s.store.writer) && !s.flags.finished && NextFalsy(s.feed)
    ensures Enabled(s, Fine()) && var s' := Next(s, Fine());
            && s'.feed == s.feed && s'.flags == s.flags.(started := s'.flags.started)
            && s'.reader == s.reader && s'.emitted == s.emitted && FinalLength(s') == FinalLength(s)
            && (s'.store.writer.Get? || (s.store.writer.Write? && s'.store.writer.Count?))
  {}

  /** The writer gets to its queue, having counted what it holds. */
  lemma {:induction false} ToGet(s0: State, actions: seq<Action>, s: State, c: nat)
      returns (more: seq<Action>, s': State)
    requires Reaches(s0, actions, s) && ReadsBy(actions, c)
    requires (Storing(s.store.writer) || s.store.writer.Get?) && !s.flags.finished && NextFalsy(s.feed)
    ensures Reaches(s0, more, s') && ReadsBy(more, c)
    ensures s'.feed == s.feed && s'.flags == s.flags.(started := s'.flags.started)
    ensures s'.reader == s.reader && s'.emitted == s.emitted
    ensures s'.store.writer.Get? && FinalLength(s) == Some(s'.store.bytesWritten)
    decreases if s.store.writer.Write? then 2 else if s.store.writer.Get? then 0 else 1
  {
    more, s' := actions, s;
    if Storing(s.store.writer) {
      StoresOn(s);
      more, s' := Then(s0, more, s', c, Fine());
      more, s' := ToGet(s0, more, s', c);
    }
  }

  predicate Closing(w: Writer) { w.Flush? || w.Size? || w.SetFinished? }

  lemma {:induction false} Flushes(s0: State, actions: seq<Action>, s: State, c: nat)
      returns (more: seq<Action>, s': State)
    requires Reaches(s0, actions, s) && ReadsBy(actions, c)
    requires s.store.writer.Flush? || (s.store.writer.Get? && s.feed.tee != [] && Falsy(s.feed.tee[0]))
    ensures Reaches(s0, more, s') && ReadsBy(more, c) && s'.store.writer.Size?
    ensures s'.flags == s.flags && s'.store.bytesWritten == s.store.bytesWritten && s'.reader == s.reader
    ensures s'.emitted == s.emitted
  {
    more, s' := actions, s;
    if s'.store.writer.Get? { more, s' := Then(s0, more, s', c, Fine()); }
    more, s' := Then(s0, more, s', c, Fine());
  }

  /** It takes what ends it, closes the file and finishes. */
  lemma {:induction false} Closes(s0: State, actions: seq<Action>, s: State, c: nat)
      returns (more: seq<Action>, s': State)
    requires Reaches(s0, actions, s) && ReadsBy(actions, c)
    requires Closing(s.store.writer) || (s.store.writer.Get? && s.feed.tee != [] && Falsy(s.feed.tee[0]))
    ensures Reaches(s0, more, s') && ReadsBy(more, c)
    ensures s'.flags.finished && s'.flags.failed == s.flags.failed && s'.store.bytesWritten == s.store.bytesWritten
    ensures s'.reader == s.reader && s'.emitted == s.emitted
  {
    more, s' := actions, s;
    if s'.store.writer.Get? || s'.store.writer.Flush? { more, s' := Flushes(s0, more, s', c); }
    if s'.store.writer.Size? { more, s' := Then(s0, more, s', c, Fine()); }
    more, s' := Then(s0, more, s', c, Fine());
  }

  /** A writer that still can finishes, at the length foretold. */
  lemma {:induction false} Finishes(s: State, c: nat) returns (actions: seq<Action>, s': State)
    requires Inv(s) && FailedOk(s) && FinalLength(s).Some?
    ensures Reaches(s, actions, s') && ReadsBy(actions, c)
    ensures s'.flags.finished && s'.flags.failed && FinalLength(s) == Some(s'.store.bytesWritten)
    ensures s'.reader == s.reader && s'.emitted == s.emitted
  {
    actions, s' := [], s;
    if s.flags.finished { return; }
    if !Closing(s.store.writer) {
      actions, s' := ToGet(s, actions, s', c);
      actions, s' := BringFalsy(s, actions, s', c);
    }
    actions, s' := Closes(s, actions, s', c);
  }

  lemma {:induction false} ReachesInv(s: State, actions: seq<Action>, s': State)
    requires Inv(s) && Reaches(s, actions, s')
    ensures Inv(s')
    decreases |actions|
  {
    if actions != [] {
      StepKept(s, actions[0]);
      ReachesInv(Next(s, actions[0]), actions[1..], s');
    }
  }

  /** One read of c bytes takes a subscriber to the end of a finished file that is not more than c away. */
  lemma {:induction false} ReadsToTheEnd(s: State, c: nat)
    requires Inv(s) && s.reader.Read? && s.flags.finished && s.store.bytesWritten <= |s.emitted| + c && c > 0
    ensures var s' := Next(s, ReaderStep(c, true, false)); s'.reader.Head? && |s'.emitted| >= s.store.bytesWritten
  {}

  lemma {:induction false} SomeScheduleEnds(s: State, c: nat) returns (actions: seq<Action>, s': State)
    requires Inv(s) && FailedOk(s) && c > 0 && CanStillEnd(s, c)
    ensures Reaches(s, actions, s') && ReadsBy(actions, c) && s'.reader.Ended?
  {
    var step := ReaderStep(c, true, false);
    actions, s' := [], s;
    if s.reader.Head? || s.reader.Read? {
      actions, s' := Finishes(s, c);
      ReachesInv(s, actions, s');
    }
    if s'.reader.Read? {
      ReadsToTheEnd(s', c);
      actions, s' := Then(s, actions, s', c, step);
    }
    if s'.reader.Head? { actions, s' := Then(s, actions, s', c, step); }
    if s'.reader.Compare? { actions, s' := Then(s, actions, s', c, step); }
  }

  /** A continuation, reading c bytes at a time, in which the subscriber ends by its own condition. */
  ghost predicate EndsBy(s: State, c: nat) {
    exists actions, s' :: Reaches(s, actions, s') && ReadsBy(actions, c) && s'.reader.Ended?
  }

  /**
   * For every run and every moment at which the tracker has failed: a subscriber that reads c bytes at
   * a time can still end by its own condition, and so pass what it has for the file, if and only if it
   * has, or can have by one read, all that the writer will have counted when it finishes, and the writer
   * can finish without testing the flag again. In every other case it can only be aborted.
   */
  lemma {:induction false} EndsAfterFailureIff(run: seq<State>, actions: seq<Action>, m: nat, c: nat)
    requires IsRun(run, actions) && m < |run| && run[m].flags.failed && c > 0
    ensures CanStillEnd(run[m], c) <==> EndsBy(run[m], c)
  {
    var s := run[m];
    RunInv(run, actions, m);
    FailsLateAlways(run, actions, m);
    if CanStillEnd(s, c) {
      var more, s' := SomeScheduleEnds(s, c);
    }
    forall more, s' | Reaches(s, more, s') && ReadsBy(more, c) && s'.reader.Ended? ensures CanStillEnd(s, c) {
      EndedCould(s, more, s', c);
    }
  }
}
