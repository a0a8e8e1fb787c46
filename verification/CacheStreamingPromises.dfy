/** What a commit and a subscriber can rely on, over every run of a streamed cache entry. */
module CacheStreamingPromises {
  import opened Prelude
  import opened CacheStreaming
  import opened CacheStreamingInvariant

  predicate AllEmpty(chunks: seq<Bytes>) { forall i | 0 <= i < |chunks| :: chunks[i] == [] }

  lemma {:induction false} FlattenEmptyIff(chunks: seq<Bytes>)
    ensures Flatten(chunks) == [] <==> AllEmpty(chunks)
  {
    if chunks != [] {
      FlattenEmptyIff(chunks[1..]);
      assert forall i | 0 < i < |chunks| :: chunks[i] == chunks[1..][i - 1];
    }
  }

  lemma {:induction false} UpToEmptyIsAllIff(chunks: seq<Bytes>)
    ensures Flatten(UpToEmpty(chunks)) == Flatten(chunks) <==> AllEmpty(chunks[|UpToEmpty(chunks)|..])
  {
    if chunks == [] || chunks[0] == [] {
      FlattenEmptyIff(chunks);
      assert chunks[0..] == chunks;
    } else {
      var rest := chunks[1..];
      UpToEmptyIsAllIff(rest);
      assert chunks[|UpToEmpty(chunks)|..] == rest[|UpToEmpty(rest)|..];
      assert UpToEmpty(chunks)[1..] == UpToEmpty(rest);
      CancelHead(chunks[0], Flatten(UpToEmpty(rest)), Flatten(rest));
    }
  }

  lemma {:induction false} CancelHead(head: Bytes, a: Bytes, b: Bytes)
    ensures head + a == head + b <==> a == b
  {
    assert (head + a)[|head|..] == a;
    assert (head + b)[|head|..] == b;
  }

  lemma {:induction false} DoneIsWhole(f: Feed, written: Bytes)
    requires Done(f, written, false)
    ensures written == Flatten(UpToEmpty(f.chunks))
    ensures NoneEmpty(f.chunks) ==>
              && written == Flatten(f.chunks) && (f.remote.Exhausted? || f.remote.Closed?)
              && (f.sent ==> f.teed == |f.chunks|)
    ensures written == Flatten(f.chunks) <==> AllEmpty(f.chunks[|UpToEmpty(f.chunks)|..])
  {
    var n: nat :| DoneAt(f, written, false, n);
    UpToEmptyIs(f.chunks, n);
    UpToEmptyIsAllIff(f.chunks);
    if NoneEmpty(f.chunks) {
      assert f.chunks[..n] == f.chunks;
    }
  }

  /**
   * Whenever an entry is committed, the file holds exactly the remote's chunks up to its first empty
   * one and the recorded size is that length. It is the whole of what the remote yielded if and only
   * if nothing but empty chunks follow an empty chunk; where none was empty, the remote did not raise,
   * and is at its end or was closed early.
   */
  lemma {:induction false} CommittedIsComplete(run: seq<State>, actions: seq<Action>, i: nat)
    requires IsRun(run, actions) && i < |run| && run[i].store.committed.Some?
    ensures run[i].store.written == Flatten(UpToEmpty(run[i].feed.chunks))
    ensures run[i].store.committed.value == |run[i].store.written|
    ensures AllEmpty(run[i].feed.chunks[|UpToEmpty(run[i].feed.chunks)|..])
            <==> run[i].store.written == Flatten(run[i].feed.chunks)
    ensures NoneEmpty(run[i].feed.chunks) ==>
              && run[i].store.written == Flatten(run[i].feed.chunks)
              && (run[i].feed.remote.Exhausted? || run[i].feed.remote.Closed?)
  {
    RunInv(run, actions, i);
    DoneIsWhole(run[i].feed, run[i].store.written);
  }

  /**
   * A tracker whose provider put nothing but full chunks and ended by a raise, or that skipped one,
   * is never committed.
   */
  lemma {:induction false} RaisedOrSkippedNeverCommits(run: seq<State>, actions: seq<Action>, i: nat)
    requires IsRun(run, actions) && i < |run| && NoneEmpty(run[i].feed.chunks)
    requires run[i].feed.remote.Errored? || (run[i].feed.sent && run[i].feed.teed < |run[i].feed.chunks|)
    ensures run[i].store.committed.None?
  {
    RunInv(run, actions, i);
    if run[i].store.committed.Some? {
      DoneIsWhole(run[i].feed, run[i].store.written);
    }
  }

  predicate Dropped(s: State) { s.store.committed.None? && (s.store.writer.Cancelled? || s.store.writer.Idle?) }

  lemma {:induction false} DroppedStays(s: State, action: Action)
    requires Enabled(s, action) && (Early(s.feed.provider) ==> s.store.writer.NoJob?) && Dropped(s)
    ensures Dropped(Next(s, action))
  {}

  lemma {:induction false} CancelDrops(s: State)
    requires Inv(s) && Enabled(s, CancelWriter)
    ensures Dropped(Next(s, CancelWriter))
  {}

  /** A writer that the pool dropped is never committed, however the run goes on. */
  lemma {:induction false} DroppedNeverCommits(run: seq<State>, actions: seq<Action>, j: nat, i: nat)
    requires IsRun(run, actions) && j < i < |run| && actions[j].CancelWriter?
    ensures Dropped(run[i])
  {
    RunInv(run, actions, i - 1);
    if j == i - 1 {
      CancelDrops(run[j]);
    } else {
      DroppedNeverCommits(run, actions, j, i - 1);
      DroppedStays(run[i - 1], actions[i - 1]);
    }
  }

  /** What a subscriber has emitted is at every moment a prefix of what the remote yielded. */
  lemma {:induction false} SubscriberSeesPrefix(run: seq<State>, actions: seq<Action>, i: nat)
    requires IsRun(run, actions) && i < |run|
    ensures run[i].emitted <= Flatten(run[i].feed.chunks)
  {
    RunInv(run, actions, i);
    var s := run[i];
    assert s.store.written[..s.store.flushed] <= s.store.written;
  }

  /**
   * Where its loop ends by its own condition it has emitted all that was written: the whole body,
   * unless the tracker failed.
   */
  lemma {:induction false} SubscriberEndsWithAll(run: seq<State>, actions: seq<Action>, i: nat)
    requires IsRun(run, actions) && i < |run| && run[i].reader.Ended?
    ensures run[i].emitted == run[i].store.written
    ensures !run[i].flags.failed ==> run[i].emitted == Flatten(UpToEmpty(run[i].feed.chunks))
    ensures !run[i].flags.failed && NoneEmpty(run[i].feed.chunks) ==>
              && run[i].emitted == Flatten(run[i].feed.chunks)
              && (run[i].feed.remote.Exhausted? || run[i].feed.remote.Closed?)
  {
    RunInv(run, actions, i);
    if !run[i].flags.failed {
      DoneIsWhole(run[i].feed, run[i].store.written);
    }
  }

  /** The events of a tracker only ever come on, and none without the writer having started. */
  predicate OneWay(before: Flags, after: Flags) {
    && (before.started ==> after.started) && (before.finished ==> after.finished) && (before.failed ==> after.failed)
    && (after.finished || after.failed ==> after.started)
  }

  lemma {:induction false} StepIsOneWay(s: State, action: Action)
    requires Enabled(s, action) && (s.flags.finished || s.flags.failed ==> s.flags.started)
    ensures OneWay(s.flags, Next(s, action).flags)
  {}

  /** So a subscriber that is told of a failure, or of the end, is told so for good, and never before the start. */
  lemma {:induction false} EventsAreOneWay(run: seq<State>, actions: seq<Action>, m: nat, n: nat)
    requires IsRun(run, actions) && m <= n < |run|
    ensures OneWay(run[m].flags, run[n].flags)
  {
    if m < n {
      EventsAreOneWay(run, actions, m, n - 1);
      StepIsOneWay(run[n - 1], actions[n - 1]);
    } else if n > 0 {
      EventsAreOneWay(run, actions, n - 1, n - 1);
      StepIsOneWay(run[n - 1], actions[n - 1]);
    }
  }
}
