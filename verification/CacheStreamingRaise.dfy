/**
 * Exactly which bodies can be committed although the remote raised: those with an empty chunk that
 * is not the first.
 */
module CacheStreamingRaise {
  import opened Prelude
  import opened CacheStreaming
  import opened CacheStreamingInvariant
  import opened CacheStreamingPromises
  import opened CacheStreamingLimits

  /** A first chunk that is empty is taken for an empty file, and nothing more is asked of the remote. */
  predicate FirstIsLast(f: Feed) {
    && (f.chunks == [] ==> f.provider.First? || AtEmpty(f.provider))
    && (f.chunks != [] && f.chunks[0] == [] ==> |f.chunks| == 1 && f.remote.Open? && AtEmpty(f.provider))
  }

  predicate AtEmpty(p: Provider) { p.EmptyFile? || p.EmptyCommit? || p.Over? }

  lemma {:induction false} FirstIsLastStep(s: State, action: Action)
    requires Inv(s) && FirstIsLast(s.feed) && Enabled(s, action)
    ensures FirstIsLast(Next(s, action).feed)
  {}

  lemma {:induction false} FirstIsLastAlways(run: seq<State>, actions: seq<Action>, i: nat)
    requires IsRun(run, actions) && i < |run|
    ensures FirstIsLast(run[i].feed)
  {
    if i > 0 {
      RunInv(run, actions, i - 1);
      FirstIsLastAlways(run, actions, i - 1);
      FirstIsLastStep(run[i - 1], actions[i - 1]);
    }
  }

  // ------ the run ------ //

  function Items(chunks: seq<Bytes>): seq<Option<Bytes>> {
    seq(|chunks|, i requires 0 <= i < |chunks| => Some(chunks[i]))
  }

  /** The chunks have come and `popped` of them are stored; the writer is at its queue. */
  predicate Stored(s: State, chunks: seq<Bytes>, popped: nat) {
    && popped <= |chunks| && s.feed == Feed(chunks, Open, Stream, Items(chunks[popped..]), |chunks|, false)
    && s.flags == Flags(true, false, false) && s.store.writer.Get? && s.store.committed.None?
  }

  lemma {:induction false} FeedOne(actions: seq<Action>, s: State, chunks: seq<Bytes>, chunk: Bytes)
      returns (more: seq<Action>, s': State)
    requires Reaches(Start(), actions, s) && Stored(s, chunks, 0)
    ensures Reaches(Start(), more, s') && Stored(s', chunks + [chunk], 0)
  {
    var comes, step := RemoteYields(chunk), ProviderStep(false, true);
    ReachesStep(Start(), actions, s, comes);
    var s1, a1 := Next(s, comes), actions + [comes];
    ReachesStep(Start(), a1, s1, step);
    var s2, a2 := Next(s1, step), a1 + [step];
    ReachesStep(Start(), a2, s2, step);
    more, s' := a2 + [step], Next(s2, step);
    assert chunks[0..] == chunks && (chunks + [chunk])[0..] == chunks + [chunk];
    assert Items(chunks + [chunk]) == Items(chunks) + [Some(chunk)];
  }

  lemma {:induction false} FeedAll(chunks: seq<Bytes>, n: nat) returns (actions: seq<Action>, s: State)
    requires 2 <= n <= |chunks| && chunks[0] != []
    ensures Reaches(Start(), actions, s) && Stored(s, chunks[..n], 0)
    decreases n
  {
    if n == 2 {
      actions, s := Begins(chunks[0], chunks[1]);
      assert chunks[..2] == [chunks[0], chunks[1]];
      assert chunks[..2][0..] == chunks[..2];
      assert Items(chunks[..2]) == [Some(chunks[0]), Some(chunks[1])];
    } else {
      actions, s := FeedAll(chunks, n - 1);
      TakeOneMore(chunks, n - 1);
      actions, s := FeedOne(actions, s, chunks[..n - 1], chunks[n - 1]);
    }
  }

  lemma {:induction false} StoreFull(actions: seq<Action>, s: State, chunks: seq<Bytes>, n: nat)
      returns (more: seq<Action>, s': State)
    requires Reaches(Start(), actions, s) && Stored(s, chunks, 0) && n <= |chunks| && NoneEmpty(chunks[..n])
    ensures Reaches(Start(), more, s') && Stored(s', chunks, n)
    decreases n
  {
    if n == 0 {
      more, s' := actions, s;
    } else {
      assert forall i | 0 <= i < n - 1 :: chunks[..n - 1][i] == chunks[..n][i];
      more, s' := StoreFull(actions, s, chunks, n - 1);
      assert chunks[..n][n - 1] == chunks[n - 1];
      assert Items(chunks[n - 1..])[0] == Some(chunks[n - 1]) && Items(chunks[n - 1..])[1..] == Items(chunks[n..]);
      more, s' := OneChunk(Start(), more, s', chunks[n - 1]);
    }
  }

  /** The writer takes an empty chunk for the end and commits; then the remote raises. */
  lemma {:induction false} CommitsThenRaises(actions: seq<Action>, s: State, chunks: seq<Bytes>, n: nat)
      returns (more: seq<Action>, s': State)
    requires Reaches(Start(), actions, s) && Stored(s, chunks, n) && n < |chunks| && chunks[n] == []
    ensures Reaches(Start(), more, s') && s'.feed.chunks == chunks && s'.feed.remote.Errored?
    ensures s'.store.committed.Some?
  {
    assert Items(chunks[n..])[0] == Some(chunks[n]);
    more, s' := Stops(Start(), actions, s);
    ReachesStep(Start(), more, s', Fine());
    more, s' := more + [Fine()], Next(s', Fine());
    ReachesStep(Start(), more, s', Fine());
    more, s' := more + [Fine()], Next(s', Fine());
    ReachesStep(Start(), more, s', RemoteRaises);
    more, s' := more + [RemoteRaises], Next(s', RemoteRaises);
  }

  // ------ exactly when ------ //

  predicate EmptyLater(chunks: seq<Bytes>) {
    chunks != [] && chunks[0] != [] && exists i :: 1 <= i < |chunks| && chunks[i] == []
  }

  ghost predicate RaisesAndCommits(run: seq<State>, actions: seq<Action>, chunks: seq<Bytes>) {
    && IsRun(run, actions) && run[|actions|].feed.chunks == chunks
    && run[|actions|].feed.remote.Errored? && run[|actions|].store.committed.Some?
  }

  lemma {:induction false} FirstEmpty(chunks: seq<Bytes>) returns (n: nat)
    requires EmptyLater(chunks)
    ensures 1 <= n < |chunks| && chunks[n] == [] && NoneEmpty(chunks[..n])
  {
    n := |UpToEmpty(chunks)|;
    UpToEmptyStops(chunks);
  }

  lemma {:induction false} UpToEmptyStops(chunks: seq<Bytes>)
    ensures var n := |UpToEmpty(chunks)|; NoneEmpty(chunks[..n]) && (n < |chunks| ==> chunks[n] == [])
  {
    if chunks != [] && chunks[0] != [] {
      UpToEmptyStops(chunks[1..]);
      var n := |UpToEmpty(chunks)|;
      forall i | 0 <= i < n ensures chunks[..n][i] != [] {
        if i > 0 { assert chunks[1..][..n - 1][i - 1] == chunks[i]; }
      }
    }
  }

  /** A raise of the remote can go with a commit of what it yielded if and only if a chunk behind the first is empty. */
  lemma {:induction false} RaiseCommitsIff(chunks: seq<Bytes>)
    ensures EmptyLater(chunks) <==>
        exists run: seq<State>, actions: seq<Action> :: RaisesAndCommits(run, actions, chunks)
  {
    if EmptyLater(chunks) {
      var n := FirstEmpty(chunks);
      var actions, s := FeedAll(chunks, |chunks|);
      assert chunks[..|chunks|] == chunks;
      actions, s := StoreFull(actions, s, chunks, n);
      actions, s := CommitsThenRaises(actions, s, chunks, n);
      var run := ReachedByRun(actions, s);
      assert RaisesAndCommits(run, actions, chunks);
    }
    forall run: seq<State>, actions: seq<Action> | RaisesAndCommits(run, actions, chunks) ensures EmptyLater(chunks) {
      CommittedIsComplete(run, actions, |actions|);
      FirstIsLastAlways(run, actions, |actions|);
      var i :| 0 <= i < |chunks| && chunks[i] == [];
      assert i != 0;
    }
  }
}
