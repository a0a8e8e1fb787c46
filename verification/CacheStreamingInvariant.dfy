/**
 * The invariant of a streamed cache entry: what is in the tee, written, flushed, counted and
 * emitted at every phase; every step keeps it.
 */
module CacheStreamingInvariant {
  import opened Prelude
  import opened CacheStreaming

  /** The chunks before the first empty one. */
  function UpToEmpty(chunks: seq<Bytes>): (kept: seq<Bytes>)
    ensures kept <= chunks
  {
    if chunks == [] || chunks[0] == [] then [] else [chunks[0]] + UpToEmpty(chunks[1..])
  }

  predicate NoneEmpty(chunks: seq<Bytes>) { forall i | 0 <= i < |chunks| :: chunks[i] != [] }

  lemma {:induction false} UpToEmptyIs(chunks: seq<Bytes>, n: nat)
    requires n <= |chunks| && NoneEmpty(chunks[..n]) && (n == |chunks| || chunks[n] == [])
    ensures UpToEmpty(chunks) == chunks[..n]
    decreases n
  {
    if n > 0 {
      assert chunks[..n][0] == chunks[0];
      assert chunks[1..][..n - 1] == chunks[..n][1..];
      UpToEmptyIs(chunks[1..], n - 1);
      assert [chunks[0]] + chunks[1..][..n - 1] == chunks[..n];
    }
  }

  lemma {:induction false} FlattenSplit(xs: seq<Bytes>, ys: seq<Bytes>)
    ensures Flatten(xs + ys) == Flatten(xs) + Flatten(ys)
  {
    if xs == [] {
      assert xs + ys == ys;
    } else {
      assert (xs + ys)[1..] == xs[1..] + ys;
      FlattenSplit(xs[1..], ys);
    }
  }

  lemma {:induction false} FlattenUpTo(chunks: seq<Bytes>, n: nat)
    requires n <= |chunks|
    ensures Flatten(chunks[..n]) <= Flatten(chunks)
  {
    assert chunks == chunks[..n] + chunks[n..];
    FlattenSplit(chunks[..n], chunks[n..]);
  }

  lemma {:induction false} FlattenOneMore(chunks: seq<Bytes>, n: nat)
    requires n < |chunks|
    ensures Flatten(chunks[..n + 1]) == Flatten(chunks[..n]) + chunks[n]
  {
    assert chunks[..n + 1] == chunks[..n] + [chunks[n]];
    FlattenAppend(chunks[..n], chunks[n]);
  }

  // ------ what every step keeps ------ //

  predicate Early(p: Provider) {
    p.First? || p.EmptyFile? || p.EmptyCommit? || p.Second? || p.Once? || p.Fill? || p.Dispatch?
  }

  /** The tee holds the chunks between `popped` and `teed`, and maybe the sentinel. */
  ghost predicate TeeOk(chunks: seq<Bytes>, tee: seq<Option<Bytes>>, popped: nat, teed: nat, sent: bool) {
    && popped <= teed <= |chunks|
    && teed - popped <= |tee| <= teed - popped + 1
    && (forall i | 0 <= i < teed - popped :: tee[i] == Some(chunks[popped + i]))
    && (|tee| == teed - popped + 1 ==> sent && tee[teed - popped] == None)
  }

  /** A chunk is only ever skipped after the tracker failed, and a remote that raised has failed it. */
  ghost predicate ProviderOk(p: Provider, remote: Remote, chunks: seq<Bytes>, teed: nat, sent: bool, failed: bool) {
    && (p.First? ==> chunks == [] && remote == Open && teed == 0)
    && (p.EmptyFile? || p.EmptyCommit? ==> teed == 0 && ((chunks == [] && remote == Exhausted) || chunks == [[]]))
    && (p.Second? || p.Once? ==> |chunks| == 1 && chunks[0] != [] && teed == 0)
    && (p.Second? || p.Fill? || p.Dispatch? || p.Stream? || p.Check? || p.Put? ==> remote == Open)
    && (p.Once? ==> remote == Exhausted)
    && (p.Fill? ==> |chunks| == 2 && teed == 0 && chunks[0] != [])
    && (p.Dispatch? ==> |chunks| == 2 && teed == 2)
    && (p.Put? ==> teed + 1 == |chunks|)
    && (p.Check? && !failed ==> teed + 1 == |chunks|)
    && (p.Check? ==> |chunks| > 0 && teed < |chunks|)
    && ((p.Stream? || p.Fail? || p.Finish? || sent) && !failed ==> teed == |chunks|)
    && (p.Fail? ==> remote == Errored)
    && (p.Finish? || sent ==> remote != Open && (remote == Errored ==> failed))
    && (sent ==> p.Over?)
  }

  ghost predicate FeedOk(f: Feed, popped: nat, failed: bool) {
    TeeOk(f.chunks, f.tee, popped, f.teed, f.sent) && ProviderOk(f.provider, f.remote, f.chunks, f.teed, f.sent, failed)
  }

  predicate Ends(p: Provider) { p.EmptyCommit? || p.Over? }

  /** The first n chunks are all there is to store: an empty chunk follows, or the feed is over. */
  ghost predicate DoneAt(f: Feed, written: Bytes, failed: bool, n: nat) {
    && n <= |f.chunks| && NoneEmpty(f.chunks[..n]) && written == Flatten(f.chunks[..n])
    && ((n < |f.chunks| && f.chunks[n] == [])
        || (Ends(f.provider) && f.remote != Open
            && (!failed ==> n == |f.chunks| && f.remote != Errored && (f.sent ==> f.teed == |f.chunks|))))
  }

  ghost predicate Done(f: Feed, written: Bytes, failed: bool) {
    exists n: nat :: DoneAt(f, written, failed, n)
  }

  ghost predicate ReadSoFar(chunks: seq<Bytes>, n: nat, written: Bytes) {
    n <= |chunks| && NoneEmpty(chunks[..n]) && written == Flatten(chunks[..n])
  }

  predicate Untouched(st: Store) {
    st.popped == 0 && st.written == [] && st.flushed == 0 && st.bytesWritten == 0 && st.cacheSize == 0
  }

  predicate AtOnce(f: Feed) {
    f.provider.Over? && !f.sent && f.remote == Exhausted && |f.chunks| == 1 && f.chunks[0] != []
  }

  ghost predicate WriterOk(f: Feed, failed: bool, st: Store) {
    && (Early(f.provider) ==> st.writer.NoJob?)
    && match st.writer
       case NoJob => Untouched(st)
       case Cancelled => Untouched(st)
       case Waiting(once) => Untouched(st) && (once ==> AtOnce(f))
       case Get => ReadSoFar(f.chunks, st.popped, st.written) && st.bytesWritten == |st.written|
       case Test(data) => Holding(f.chunks, st, data)
       case Write(data) => Holding(f.chunks, st, data)
       case Count(n) => ReadSoFar(f.chunks, st.popped, st.written) && st.bytesWritten + n == |st.written|
       case Flush => Done(f, st.written, failed) && st.bytesWritten == |st.written|
       case Size => Done(f, st.written, failed) && st.bytesWritten == st.flushed == |st.written|
       case SetFinished(small) =>
         && Done(f, st.written, failed && !small)
         && st.bytesWritten == st.flushed == st.cacheSize == |st.written|
       case Decide => Done(f, st.written, failed) && st.cacheSize == |st.written|
       case Commit => Done(f, st.written, false) && st.cacheSize == |st.written|
       case OnceWrite => Untouched(st) && AtOnce(f)
       case OnceFlush => AtOnce(f) && st.written == f.chunks[0]
       case Link | Abort | Idle => true
  }

  ghost predicate Holding(chunks: seq<Bytes>, st: Store, data: Bytes) {
    && 0 < st.popped <= |chunks| && data == chunks[st.popped - 1] != []
    && ReadSoFar(chunks, st.popped - 1, st.written) && st.bytesWritten == |st.written|
  }

  predicate Past(w: Writer) { w.NoJob? || w.Decide? || w.Commit? || w.Link? || w.Abort? || w.Idle? }

  ghost predicate FinishOk(f: Feed, flags: Flags, st: Store) {
    && (flags.finished ==> Past(st.writer) && !(f.provider.First? || f.provider.EmptyFile?)
                           && (st.writer.NoJob? ==> f.provider.EmptyCommit? || f.provider.Over?)
                           && Done(f, st.written, flags.failed) && st.bytesWritten == st.flushed == |st.written|)
    && (st.writer.Decide? || st.writer.Commit? || f.provider.EmptyCommit? ==> flags.finished)
    && (st.committed.Some? ==> flags.finished && Past(st.writer) && st.committed.value == |st.written|
                               && Done(f, st.written, false))
  }

  ghost predicate ReaderOk(s: State) {
    && s.store.flushed <= |s.store.written|
    && s.emitted <= s.store.written[..s.store.flushed]
    && (s.reader.Compare? || s.reader.Ended? ==> s.flags.finished)
    && (s.reader.Ended? ==> s.emitted == s.store.written)
  }

  ghost predicate Inv(s: State) {
    && FeedOk(s.feed, s.store.popped, s.flags.failed)
    && WriterOk(s.feed, s.flags.failed, s.store)
    && FinishOk(s.feed, s.flags, s.store)
    && s.store.written <= Flatten(s.feed.chunks)
    && ReaderOk(s)
  }

  // ------ the feed moves on ------ //

  predicate Grows(f: Feed, f': Feed) {
    && f.chunks <= f'.chunks
    && (Ends(f.provider) ==> Ends(f'.provider) && f'.remote == f.remote && f'.chunks == f.chunks
                              && f'.sent == f.sent && f'.teed == f.teed)
    && (f.provider.Over? ==> f'.provider.Over?)
  }

  lemma {:induction false} PrefixKept(chunks: seq<Bytes>, chunks': seq<Bytes>, n: nat, written: Bytes)
    requires chunks <= chunks' && n <= |chunks|
    ensures chunks[..n] == chunks'[..n]
    ensures ReadSoFar(chunks, n, written) ==> ReadSoFar(chunks', n, written)
  {}

  lemma {:induction false} DoneKept(f: Feed, f': Feed, written: Bytes, failed: bool, failed': bool)
    requires Grows(f, f') && Done(f, written, failed) && (failed ==> failed')
    ensures Done(f', written, failed')
  {
    var n: nat :| DoneAt(f, written, failed, n);
    PrefixKept(f.chunks, f'.chunks, n, written);
    assert DoneAt(f', written, failed', n);
  }

  lemma {:induction false} WriterKept(f: Feed, f': Feed, failed: bool, failed': bool, st: Store)
    requires Grows(f, f') && WriterOk(f, failed, st) && (failed ==> failed')
    requires (Early(f'.provider) ==> st.writer.NoJob?)
    ensures WriterOk(f', failed', st)
  {
    match st.writer
    case Get | Count(_) => PrefixKept(f.chunks, f'.chunks, st.popped, st.written);
    case Test(_) | Write(_) => PrefixKept(f.chunks, f'.chunks, st.popped - 1, st.written);
    case Flush | Size | Decide => DoneKept(f, f', st.written, failed, failed');
    case SetFinished(small) => DoneKept(f, f', st.written, failed && !small, failed' && !small);
    case Commit => DoneKept(f, f', st.written, false, false);
    case _ =>
  }

  lemma {:induction false} FinishKept(f: Feed, f': Feed, flags: Flags, flags': Flags, st: Store)
    requires Grows(f, f') && FinishOk(f, flags, st) && (flags.failed ==> flags'.failed)
    requires flags'.finished == flags.finished
    requires f'.provider.EmptyCommit? ==> flags.finished
    requires (f'.provider.First? || f'.provider.EmptyFile?) ==> !flags.finished
    ensures FinishOk(f', flags', st)
  {
    if flags.finished { DoneKept(f, f', st.written, flags.failed, flags'.failed); }
    if st.committed.Some? { DoneKept(f, f', st.written, false, false); }
  }

  lemma {:induction false} BodyGrows(chunks: seq<Bytes>, chunks': seq<Bytes>, written: Bytes)
    requires chunks <= chunks' && written <= Flatten(chunks)
    ensures written <= Flatten(chunks')
  {
    FlattenUpTo(chunks', |chunks|);
    assert chunks'[..|chunks|] == chunks;
  }

  lemma {:induction false} RemoteKept(s: State, action: Action)
    requires Inv(s) && Enabled(s, action)
    requires action.RemoteYields? || action.RemoteEnds? || action.RemoteRaises? || action.CloseEarly?
    ensures Inv(Next(s, action))
  {
    var f, f' := s.feed, Next(s, action).feed;
    assert Grows(f, f');
    assert FeedOk(f', s.store.popped, s.flags.failed);
    WriterKept(f, f', s.flags.failed, s.flags.failed, s.store);
    FinishKept(f, f', s.flags, s.flags, s.store);
    BodyGrows(f.chunks, f'.chunks, s.store.written);
  }

  lemma {:induction false} FedTee(f: Feed, popped: nat, failed: bool)
    requires FeedOk(f, popped, failed) && ProviderActs(f.provider)
    requires f.provider.Fill? ==> f.tee == [] && popped == 0
    ensures var f' := Fed(f, failed); TeeOk(f'.chunks, f'.tee, popped, f'.teed, f'.sent)
  {}

  lemma {:induction false} FedProvider(f: Feed, failed: bool, failed': bool)
    requires ProviderOk(f.provider, f.remote, f.chunks, f.teed, f.sent, failed)
    requires ProviderActs(f.provider) && (failed ==> failed') && (f.provider.Fail? ==> failed')
    ensures var f' := Fed(f, failed); ProviderOk(f'.provider, f'.remote, f'.chunks, f'.teed, f'.sent, failed')
  {}

  lemma {:induction false} FedOk(f: Feed, popped: nat, failed: bool, failed': bool)
    requires FeedOk(f, popped, failed) && ProviderActs(f.provider) && (failed ==> failed')
    requires (f.provider.Fail? ==> failed')
    requires f.provider.Fill? ==> f.tee == [] && popped == 0
    ensures FeedOk(Fed(f, failed), popped, failed')
  {
    FedTee(f, popped, failed);
    FedProvider(f, failed, failed');
  }

  /** An empty file is finished and committed with nothing written. */
  lemma {:induction false} EmptyFileOk(f: Feed, flags: Flags, st: Store, accepts: bool)
    requires FeedOk(f, st.popped, flags.failed) && WriterOk(f, flags.failed, st) && FinishOk(f, flags, st)
    requires f.provider.EmptyFile? || f.provider.EmptyCommit?
    ensures WriterOk(Fed(f, flags.failed), flags.failed, ProviderStore(f, st, false, accepts))
    ensures FinishOk(Fed(f, flags.failed), ProviderFlags(f, flags, false), ProviderStore(f, st, false, accepts))
  {
    var f' := Fed(f, flags.failed);
    assert f'.chunks[..0] == [];
    assert DoneAt(f', st.written, false, 0);
    assert DoneAt(f', st.written, flags.failed, 0);
  }

  lemma {:induction false} DispatchOk(f: Feed, flags: Flags, st: Store, accepts: bool)
    requires FeedOk(f, st.popped, flags.failed) && WriterOk(f, flags.failed, st) && FinishOk(f, flags, st)
    requires f.provider.Once? || f.provider.Dispatch?
    ensures WriterOk(Fed(f, flags.failed), flags.failed, ProviderStore(f, st, false, accepts))
    ensures FinishOk(Fed(f, flags.failed), ProviderFlags(f, flags, false), ProviderStore(f, st, false, accepts))
  {}

  lemma {:induction false} PlainProviderOk(f: Feed, flags: Flags, st: Store, locked: bool)
    requires FeedOk(f, st.popped, flags.failed) && WriterOk(f, flags.failed, st) && FinishOk(f, flags, st)
    requires ProviderActs(f.provider) && !f.provider.EmptyFile? && !f.provider.EmptyCommit?
    requires f.provider.Once? || f.provider.Dispatch? ==> locked
    ensures WriterOk(Fed(f, flags.failed), ProviderFlags(f, flags, locked).failed, st)
    ensures FinishOk(Fed(f, flags.failed), ProviderFlags(f, flags, locked), st)
  {
    var f', flags' := Fed(f, flags.failed), ProviderFlags(f, flags, locked);
    assert Grows(f, f');
    WriterKept(f, f', flags.failed, flags'.failed, st);
    FinishKept(f, f', flags, flags', st);
  }

  lemma {:induction false} ProviderStoreOk(f: Feed, flags: Flags, st: Store, locked: bool, accepts: bool)
    requires FeedOk(f, st.popped, flags.failed) && WriterOk(f, flags.failed, st) && FinishOk(f, flags, st)
    requires ProviderActs(f.provider)
    ensures WriterOk(Fed(f, flags.failed), ProviderFlags(f, flags, locked).failed,
        ProviderStore(f, st, locked, accepts))
    ensures FinishOk(Fed(f, flags.failed), ProviderFlags(f, flags, locked), ProviderStore(f, st, locked, accepts))
  {
    if f.provider.EmptyFile? || f.provider.EmptyCommit? {
      EmptyFileOk(f, flags, st, accepts);
    } else if !locked && (f.provider.Once? || f.provider.Dispatch?) {
      DispatchOk(f, flags, st, accepts);
    } else {
      PlainProviderOk(f, flags, st, locked);
    }
  }

  lemma {:induction false} ProviderKeepsFile(f: Feed, flags: Flags, st: Store, locked: bool, accepts: bool)
    ensures Fed(f, flags.failed).chunks == f.chunks
    ensures ProviderStore(f, st, locked, accepts).written == st.written
    ensures ProviderStore(f, st, locked, accepts).flushed == st.flushed
    ensures ProviderStore(f, st, locked, accepts).popped == st.popped
    ensures flags.finished ==> ProviderFlags(f, flags, locked).finished
  {}

  lemma {:induction false} ProviderKept(s: State, locked: bool, accepts: bool)
    requires Inv(s) && ProviderActs(s.feed.provider)
    ensures Inv(Provided(s, locked, accepts))
  {
    FedOk(s.feed, s.store.popped, s.flags.failed, ProviderFlags(s.feed, s.flags, locked).failed);
    ProviderStoreOk(s.feed, s.flags, s.store, locked, accepts);
    ProviderKeepsFile(s.feed, s.flags, s.store, locked, accepts);
  }

  // ------ the writer moves on ------ //

  lemma {:induction false} PopOk(f: Feed, flags: Flags, st: Store, w: World)
    requires FeedOk(f, st.popped, flags.failed) && WriterActs(f, st)
    ensures FeedOk(Popped(f, st), Stored(f, flags, st, w).popped, WriterFlags(flags, st, w).failed)
  {}

  /** What the writer takes from the tee is the next chunk, or says that there is none. */
  lemma {:induction false} GetOk(f: Feed, flags: Flags, st: Store, w: World)
    requires FeedOk(f, st.popped, flags.failed) && WriterOk(f, flags.failed, st) && st.writer.Get? && f.tee != []
    ensures WriterOk(Popped(f, st), flags.failed, Stored(f, flags, st, w))
  {
    var f' := Popped(f, st);
    if f.tee[0].None? {
      assert st.popped == f.teed;
      assert DoneAt(f', st.written, flags.failed, st.popped);
    } else {
      assert f.tee[0] == Some(f.chunks[st.popped]);
      if f.tee[0].value == [] {
        assert DoneAt(f', st.written, flags.failed, st.popped);
      }
    }
  }

  lemma {:induction false} WriteOk(f: Feed, flags: Flags, st: Store, w: World)
    requires WriterOk(f, flags.failed, st) && st.writer.Write?
    requires st.written <= Flatten(f.chunks)
    ensures WriterOk(f, flags.failed, Stored(f, flags, st, w))
    ensures Stored(f, flags, st, w).written <= Flatten(f.chunks)
  {
    var n := st.popped - 1;
    FlattenOneMore(f.chunks, n);
    FlattenUpTo(f.chunks, n + 1);
    assert f.chunks[..n + 1] == f.chunks[..n] + [f.chunks[n]];
    PrefixOfSum(st.written, Part(f.chunks[n], w), f.chunks[n], Flatten(f.chunks));
  }

  lemma {:induction false} PrefixOfSum(a: Bytes, b: Bytes, c: Bytes, whole: Bytes)
    requires b <= c && a + c <= whole
    ensures a + b <= whole
  {
    assert a + c == whole[..|a| + |c|];
    assert whole[..|a| + |b|] == (a + c)[..|a| + |b|] == a + c[..|b|];
  }

  lemma {:induction false} OnceOk(f: Feed, flags: Flags, st: Store, w: World)
    requires WriterOk(f, flags.failed, st) && (st.writer.OnceWrite? || st.writer.OnceFlush?)
    requires st.written <= Flatten(f.chunks)
    ensures WriterOk(f, flags.failed, Stored(f, flags, st, w))
    ensures Stored(f, flags, st, w).written <= Flatten(f.chunks)
  {
    assert f.chunks[..1] == f.chunks;
    assert f.chunks == [] + [f.chunks[0]];
    FlattenAppend([], f.chunks[0]);
    if st.writer.OnceFlush? {
      assert DoneAt(f, st.written, false, 1);
    }
  }

  lemma {:induction false} OtherWriterOk(f: Feed, flags: Flags, st: Store, w: World)
    requires WriterOk(f, flags.failed, st) && WriterActs(f, st)
    requires !(st.writer.Get? || st.writer.Write? || st.writer.OnceWrite? || st.writer.OnceFlush?)
    ensures WriterOk(f, WriterFlags(flags, st, w).failed, Stored(f, flags, st, w))
  {
    if st.writer.Waiting? { assert f.chunks[..0] == []; }
  }

  lemma {:induction false} FinishedOk(f: Feed, flags: Flags, st: Store, w: World)
    requires WriterOk(f, flags.failed, st) && WriterActs(f, st) && FinishOk(f, flags, st)
    ensures FinishOk(Popped(f, st), WriterFlags(flags, st, w), Stored(f, flags, st, w))
  {
    var f', flags' := Popped(f, st), WriterFlags(flags, st, w);
    if flags.finished { DoneKept(f, f', st.written, flags.failed, flags'.failed); }
    if st.writer.SetFinished? { DoneKept(f, f', st.written, flags.failed && !st.writer.small, flags'.failed); }
    if st.committed.Some? || st.writer.Commit? { DoneKept(f, f', st.written, false, false); }
  }

  lemma {:induction false} WriterPhaseOk(f: Feed, flags: Flags, st: Store, w: World)
    requires FeedOk(f, st.popped, flags.failed) && WriterOk(f, flags.failed, st) && WriterActs(f, st)
    requires st.written <= Flatten(f.chunks)
    ensures WriterOk(Popped(f, st), WriterFlags(flags, st, w).failed, Stored(f, flags, st, w))
    ensures Stored(f, flags, st, w).written <= Flatten(f.chunks)
  {
    if st.writer.Get? {
      GetOk(f, flags, st, w);
    } else if st.writer.Write? {
      WriteOk(f, flags, st, w);
    } else if st.writer.OnceWrite? || st.writer.OnceFlush? {
      OnceOk(f, flags, st, w);
    } else {
      OtherWriterOk(f, flags, st, w);
    }
  }

  /** The file only grows, and what others can read of it only grows. */
  lemma {:induction false} FileGrows(f: Feed, flags: Flags, st: Store, w: World)
    requires WriterOk(f, flags.failed, st) && st.flushed <= |st.written|
    ensures st.written <= Stored(f, flags, st, w).written
    ensures st.flushed <= Stored(f, flags, st, w).flushed <= |Stored(f, flags, st, w).written|
  {}

  lemma {:induction false} ReadStillOk(emitted: Bytes, written: Bytes, flushed: nat, written': Bytes, flushed': nat)
    requires flushed <= flushed' <= |written'| && flushed <= |written| && written <= written'
    requires emitted <= written[..flushed]
    ensures emitted <= written'[..flushed']
  {
    assert written[..flushed] == written'[..flushed];
  }

  lemma {:induction false} WriterStepKept(s: State, w: World)
    requires Inv(s) && WriterActs(s.feed, s.store)
    ensures Inv(Wrote(s, w))
  {
    var f, flags, st := s.feed, s.flags, s.store;
    PopOk(f, flags, st, w);
    FinishedOk(f, flags, st, w);
    WriterPhaseOk(f, flags, st, w);
    FileGrows(f, flags, st, w);
    var st' := Stored(f, flags, st, w);
    ReadStillOk(s.emitted, st.written, st.flushed, st'.written, st'.flushed);
  }

  // ------ the subscriber, the buffer, the pool ------ //

  lemma {:induction false} ReaderKept(s: State, n: nat, gives: bool, small: bool)
    requires Inv(s) && Enabled(s, ReaderStep(n, gives, small))
    ensures Inv(Next(s, ReaderStep(n, gives, small)))
  {
    var all, have := Readable(s), |s.emitted|;
    assert s.emitted == all[..have];
    if s.reader.Read? && have < |all| {
      var upto := if 1 <= n && have + n <= |all| then have + n else |all|;
      assert s.emitted + all[have..upto] == all[..upto];
    }
  }

  lemma {:induction false} StepKept(s: State, action: Action)
    requires Inv(s) && Enabled(s, action)
    ensures Inv(Next(s, action))
  {
    match action
    case RemoteYields(_) | RemoteEnds | RemoteRaises | CloseEarly => RemoteKept(s, action);
    case ProviderStep(locked, accepts) => ProviderKept(s, locked, accepts);
    case WriterStep(w) => WriterStepKept(s, w);
    case ReaderStep(n, gives, small) => ReaderKept(s, n, gives, small);
    case CancelWriter =>
    case BufferDrains(to) =>
      assert s.store.written[..s.store.flushed] <= s.store.written[..to];
  }

  lemma {:induction false} RunInv(run: seq<State>, actions: seq<Action>, i: nat)
    requires IsRun(run, actions) && i < |run|
    ensures Inv(run[i])
  {
    if i == 0 {
      assert run[0].feed.chunks == [];
    } else {
      RunInv(run, actions, i - 1);
      StepKept(run[i - 1], actions[i - 1]);
    }
  }
}
