/** Concrete runs that show why the promises of the streaming have their conditions. */
module CacheStreamingLimits {
  import opened Prelude
  import opened CacheStreaming

  predicate Reaches(s: State, actions: seq<Action>, s': State)
    decreases |actions|
  {
    if actions == [] then s == s'
    else Enabled(s, actions[0]) && Reaches(Next(s, actions[0]), actions[1..], s')
  }

  function States(s: State, actions: seq<Action>, s': State): (run: seq<State>)
    requires Reaches(s, actions, s')
    ensures |run| == |actions| + 1 && run[0] == s && run[|actions|] == s'
    ensures forall i | 0 <= i < |actions| :: Enabled(run[i], actions[i]) && run[i + 1] == Next(run[i], actions[i])
    decreases |actions|
  {
    if actions == [] then [s] else [s] + States(Next(s, actions[0]), actions[1..], s')
  }

  function Start(): State {
    State(Feed([], Open, First, [], 0, false), Flags(false, false, false), Store(NoJob, 0, [], 0, 0, 0, None), Wait, [])
  }

  lemma {:induction false} ReachesStep(s: State, actions: seq<Action>, s': State, action: Action)
    requires Reaches(s, actions, s') && Enabled(s', action)
    ensures Reaches(s, actions + [action], Next(s', action))
    decreases |actions|
  {
    if actions == [] {
      assert actions + [action] == [action];
    } else {
      assert (actions + [action])[1..] == actions[1..] + [action];
      ReachesStep(Next(s, actions[0]), actions[1..], s', action);
    }
  }

  lemma {:induction false} ReachedByRun(actions: seq<Action>, s: State) returns (run: seq<State>)
    requires Reaches(Start(), actions, s)
    ensures IsRun(run, actions) && run[|actions|] == s
  {
    run := States(Start(), actions, s);
  }

  function Fine(): Action { WriterStep(World(false, 0, false, true)) }

  /** The writer takes a chunk from the tee and stores it. */
  lemma {:induction false} OneChunk(s0: State, actions: seq<Action>, s: State, data: Bytes)
      returns (actions': seq<Action>, s': State)
    requires Reaches(s0, actions, s) && s.store.writer.Get? && !s.flags.failed
    requires s.feed.tee != [] && s.feed.tee[0] == Some(data) && data != []
    ensures Reaches(s0, actions', s')
    ensures s' == s.(feed := s.feed.(tee := s.feed.tee[1..]),
                     store := s.store.(popped := s.store.popped + 1, written := s.store.written + data,
                                       bytesWritten := s.store.bytesWritten + |data|))
  {
    ReachesStep(s0, actions, s, Fine());
    var s1, a1 := Next(s, Fine()), actions + [Fine()];
    ReachesStep(s0, a1, s1, Fine());
    var s2, a2 := Next(s1, Fine()), a1 + [Fine()];
    ReachesStep(s0, a2, s2, Fine());
    var s3, a3 := Next(s2, Fine()), a2 + [Fine()];
    ReachesStep(s0, a3, s3, Fine());
    actions', s' := a3 + [Fine()], Next(s3, Fine());
  }

  /** The writer stops at what it takes from the tee, up to the end of its `with` block and the finished flag. */
  lemma {:induction false} Stops(s0: State, actions: seq<Action>, s: State) returns (actions': seq<Action>, s': State)
    requires Reaches(s0, actions, s) && s.store.writer.Get? && s.feed.tee != [] && Falsy(s.feed.tee[0])
    ensures Reaches(s0, actions', s')
    ensures s'.feed == s.feed.(tee := s.feed.tee[1..]) && s'.flags == s.flags.(started := true, finished := true)
    ensures s'.reader == s.reader && s'.emitted == s.emitted
    ensures s'.store == s.store.(writer := Decide, popped := s'.store.popped, flushed := |s.store.written|,
        cacheSize := s.store.bytesWritten)
  {
    ReachesStep(s0, actions, s, Fine());
    var s1, a1 := Next(s, Fine()), actions + [Fine()];
    ReachesStep(s0, a1, s1, Fine());
    var s2, a2 := Next(s1, Fine()), a1 + [Fine()];
    ReachesStep(s0, a2, s2, Fine());
    var s3, a3 := Next(s2, Fine()), a2 + [Fine()];
    ReachesStep(s0, a3, s3, Fine());
    actions', s' := a3 + [Fine()], Next(s3, Fine());
  }

  /** Two chunks have come and the writer is at its loop. */
  lemma {:induction false} Begins(one: Bytes, two: Bytes) returns (actions: seq<Action>, s: State)
    requires one != []
    ensures Reaches(Start(), actions, s)
    ensures s == State(Feed([one, two], Open, Stream, [Some(one), Some(two)], 2, false), Flags(true, false, false),
                       Store(Get, 0, [], 0, 0, 0, None), Wait, [])
  {
    var step := ProviderStep(false, true);
    assert Reaches(Start(), [], Start());
    ReachesStep(Start(), [], Start(), RemoteYields(one));
    var s1, a1 := Next(Start(), RemoteYields(one)), [] + [RemoteYields(one)];
    ReachesStep(Start(), a1, s1, RemoteYields(two));
    var s2, a2 := Next(s1, RemoteYields(two)), a1 + [RemoteYields(two)];
    ReachesStep(Start(), a2, s2, step);
    var s3, a3 := Next(s2, step), a2 + [step];
    ReachesStep(Start(), a3, s3, step);
    var s4, a4 := Next(s3, step), a3 + [step];
    ReachesStep(Start(), a4, s4, Fine());
    actions, s := a4 + [Fine()], Next(s4, Fine());
  }

  /** An empty chunk in the middle makes the writer commit too early: a prefix is cached as the file. */
  lemma {:induction false} EmptyChunkCommitsTooEarly() returns (run: seq<State>, actions: seq<Action>)
    ensures IsRun(run, actions) && var last := run[|actions|];
            && last.feed.chunks == [[1], [], [2]] && last.store.committed == Some(1) && last.store.written == [1]
  {
    var a, s := Begins([1], []);
    a, s := OneChunk(Start(), a, s, [1]);
    a, s := Stops(Start(), a, s);
    ReachesStep(Start(), a, s, Fine());
    a, s := a + [Fine()], Next(s, Fine());
    ReachesStep(Start(), a, s, Fine());
    a, s := a + [Fine()], Next(s, Fine());
    ReachesStep(Start(), a, s, RemoteYields([2]));
    actions, s := a + [RemoteYields([2])], Next(s, RemoteYields([2]));
    run := ReachedByRun(actions, s);
  }

  /** The subscriber has read all there is before the remote raises. */
  lemma {:induction false} ReadsAll(s0: State, actions: seq<Action>, s: State)
      returns (actions': seq<Action>, s': State)
    requires Reaches(s0, actions, s) && s.reader.Wait? && s.flags == Flags(true, false, false) && s.emitted == []
    requires 0 < |s.store.written| && s.store.flushed == 0
    ensures Reaches(s0, actions', s')
    ensures s' == s.(store := s.store.(flushed := |s.store.written|), reader := Head, emitted := s.store.written)
  {
    var step := ReaderStep(|s.store.written|, true, false);
    var drain := BufferDrains(|s.store.written|);
    ReachesStep(s0, actions, s, drain);
    var s1, a1 := Next(s, drain), actions + [drain];
    ReachesStep(s0, a1, s1, step);
    var s2, a2 := Next(s1, step), a1 + [step];
    ReachesStep(s0, a2, s2, step);
    var s3, a3 := Next(s2, step), a2 + [step];
    ReachesStep(s0, a3, s3, step);
    var s4, a4 := Next(s3, step), a3 + [step];
    assert Readable(s4) == s.store.written;
    ReachesStep(s0, a4, s4, step);
    actions', s' := a4 + [step], Next(s4, step);
  }

  /** The remote raises and the provider tells the tracker, then the writer. */
  lemma {:induction false} Raises(s0: State, actions: seq<Action>, s: State) returns (actions': seq<Action>, s': State)
    requires Reaches(s0, actions, s) && s.feed.provider.Stream? && s.feed.remote.Open?
    ensures Reaches(s0, actions', s')
    ensures s' == s.(feed := s.feed.(remote := Errored, provider := Over, tee := s.feed.tee + [None], sent := true),
                     flags := s.flags.(started := true, failed := true))
  {
    var step := ProviderStep(false, true);
    ReachesStep(s0, actions, s, RemoteRaises);
    var s1, a1 := Next(s, RemoteRaises), actions + [RemoteRaises];
    ReachesStep(s0, a1, s1, step);
    var s2, a2 := Next(s1, step), a1 + [step];
    ReachesStep(s0, a2, s2, step);
    actions', s' := a2 + [step], Next(s2, step);
  }

  /**
   * A subscriber that has read everything when the remote raises can still end by its own
   * condition, as if the file were whole.
   */
  lemma {:induction false} SubscriberCanEndAfterRaise() returns (run: seq<State>, actions: seq<Action>)
    ensures IsRun(run, actions) && var last := run[|actions|];
            && last.reader.Ended? && last.feed.remote.Errored? && last.flags.failed && last.emitted == [1, 2]
            && last.store.committed.None?
  {
    var a, s := Begins([1], [2]);
    a, s := OneChunk(Start(), a, s, [1]);
    a, s := OneChunk(Start(), a, s, [2]);
    a, s := ReadsAll(Start(), a, s);
    a, s := Raises(Start(), a, s);
    a, s := Stops(Start(), a, s);
    var step := ReaderStep(0, true, false);
    ReachesStep(Start(), a, s, step);
    a, s := a + [step], Next(s, step);
    ReachesStep(Start(), a, s, step);
    actions, s := a + [step], Next(s, step);
    run := ReachedByRun(actions, s);
  }
}
