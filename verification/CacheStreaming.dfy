/**
 * Streaming a remote file to a client while it is cached (src/ota_proxy/cache_streaming.py): the
 * provider tees the remote's chunks to a writer thread, a subscriber reads the growing file, and
 * the pool may drop a writer that got no thread. The threads interleave freely, one atomic piece at
 * a time; storage limits, I/O errors and the remote do as they like.
 */
module CacheStreaming {
  import opened Prelude

  datatype Remote = Open | Exhausted | Errored | Closed  // Closed: the generator was closed early, or cancelled

  datatype Provider =
    | First        // about to get the first chunk
    | EmptyFile    // nothing to cache, about to finish the tracker
    | EmptyCommit
    | Second       // has handed out the first chunk
    | Once         // the remote gave one chunk only, about to dispatch its writer
    | Fill         // about to put the first two chunks into the tee
    | Dispatch     // about to dispatch the writer
    | Stream       // about to get the next chunk
    | Check        // has a chunk, about to look at the failed flag
    | Put
    | Fail         // the remote raised, about to set the failed flag
    | Finish       // about to put the sentinel
    | Over

  /** The remote's side. The tee holds Some(chunk), then the sentinel None; `teed` chunks went into it. */
  datatype Feed = Feed(
    chunks: seq<Bytes>, remote: Remote, provider: Provider, tee: seq<Option<Bytes>>, teed: nat, sent: bool)

  /** The one-way events of the tracker. */
  datatype Flags = Flags(started: bool, finished: bool, failed: bool)

  datatype Writer =
    | NoJob
    | Waiting(once: bool)      // submitted to the pool
    | Cancelled                // dropped by the pool before it started
    | Get
    | Test(data: Bytes)
    | Write(data: Bytes)
    | Count(n: nat)            // written, about to advance _bytes_written
    | Flush
    | Size                     // about to set cache_size
    | SetFinished(small: bool)
    | Decide                   // about to look at the failed flag
    | Commit
    | Link
    | OnceWrite
    | OnceFlush
    | Abort                    // an exception, about to set the failed flag
    | Idle

  /** The writer's side: of `written`, the first `flushed` bytes can be read by others. */
  datatype Store = Store(
    writer: Writer, popped: nat, written: Bytes, flushed: nat, bytesWritten: nat,
    cacheSize: nat, committed: Option<nat>)

  datatype Reader = Wait | Head | Compare | Body | Read | Ended | Aborted

  datatype State = State(feed: Feed, flags: Flags, store: Store, reader: Reader, emitted: Bytes)

  /** What the world decides at a step of the writer. */
  datatype World = World(fails: bool, partial: nat, overLimit: bool, accepts: bool)

  datatype Action =
    | RemoteYields(chunk: Bytes) | RemoteEnds | RemoteRaises | CloseEarly
    | ProviderStep(locked: bool, accepts: bool)
    | CancelWriter
    | WriterStep(world: World)
    | BufferDrains(to: nat)          // the file's buffer reaches the disk up to here
    | ReaderStep(n: nat, gives: bool, small: bool)

  // ------ the provider ------ //

  predicate Asks(p: Provider) { p.First? || p.Second? || p.Stream? }

  function Received(f: Feed, chunk: Bytes): Feed {
    f.(chunks := f.chunks + [chunk],
       provider := if f.provider.First? then (if chunk == [] then EmptyFile else Second)
                   else if f.provider.Second? then Fill else Check)
  }

  function RemoteEnded(f: Feed): Feed {
    f.(remote := Exhausted,
       provider := if f.provider.First? then EmptyFile else if f.provider.Second? then Once else Finish)
  }

  function RemoteRaised(f: Feed): Feed {
    f.(remote := Errored, provider := if f.provider.Stream? then Fail else Over)
  }

  /** Closing runs the `finally` of the stream loop, and nothing before it. */
  function ClosedEarly(f: Feed): Feed {
    f.(remote := Closed, provider := if f.provider.Stream? then Finish else Over)
  }

  predicate ProviderActs(p: Provider) {
    p.EmptyFile? || p.EmptyCommit? || p.Once? || p.Fill? || p.Dispatch? || p.Check? || p.Put? || p.Fail? || p.Finish?
  }

  function NextProvider(f: Feed, failed: bool): Provider {
    match f.provider
    case EmptyFile => EmptyCommit
    case Fill => Dispatch
    case Dispatch => Stream
    case Check => if failed then Stream else Put
    case Put => Stream
    case Fail => Finish
    case _ => Over
  }

  function Fed(f: Feed, failed: bool): Feed {
    f.(provider := NextProvider(f, failed),
       tee := match f.provider
              case Fill => if |f.chunks| == 2 then [Some(f.chunks[0]), Some(f.chunks[1])] else f.tee
              case Put => if f.chunks != [] then f.tee + [Some(f.chunks[|f.chunks| - 1])] else f.tee
              case Finish => f.tee + [None]
              case _ => f.tee,
       teed := if f.provider.Fill? then 2 else if f.provider.Put? then f.teed + 1 else f.teed,
       sent := f.sent || f.provider.Finish?)
  }

  function ProviderFlags(f: Feed, flags: Flags, locked: bool): Flags {
    match f.provider
    case EmptyFile => flags.(started := true, finished := true)
    case Once | Dispatch => if locked then flags.(started := true, failed := true) else flags
    case Fail => flags.(started := true, failed := true)
    case _ => flags
  }

  function ProviderStore(f: Feed, st: Store, locked: bool, accepts: bool): Store {
    match f.provider
    case EmptyCommit => if accepts then st.(committed := Some(st.cacheSize)) else st
    case Once => if locked then st else st.(writer := Waiting(true))
    case Dispatch => if locked then st else st.(writer := Waiting(false))
    case _ => st
  }

  // ------ the writer ------ //

  predicate WriterActs(f: Feed, st: Store) {
    !st.writer.NoJob? && !st.writer.Idle? && (st.writer.Get? ==> f.tee != [])
  }

  predicate Falsy(m: Option<Bytes>) { m.None? || m.value == [] }

  function NextWriter(f: Feed, flags: Flags, st: Store, w: World): Writer {
    match st.writer
    case Waiting(once) => if w.fails || (once && w.overLimit) then Abort else if once then OnceWrite else Get
    case Cancelled => Idle
    case Get => if f.tee == [] then Get else if Falsy(f.tee[0]) then Flush else Test(f.tee[0].value)
    case Test(data) => if flags.failed || w.overLimit then Abort else Write(data)
    case Write(data) => if w.fails then Abort else Count(|data|)
    case Count(_) => Get
    case Flush => if w.fails then Abort else Size
    case Size => SetFinished(false)
    case SetFinished(small) => if small then Commit else Decide
    case Decide => if flags.failed then Idle else Commit
    case Commit => if w.overLimit || !w.accepts then Idle else Link
    case Link => if w.fails then Abort else Idle
    case OnceWrite => if w.fails then Abort else OnceFlush
    case OnceFlush => if w.fails then Abort else SetFinished(true)
    case Abort => Idle
    case NoJob => NoJob
    case Idle => Idle
  }

  function Part(data: Bytes, w: World): Bytes {
    if w.fails then data[..if w.partial <= |data| then w.partial else |data|] else data
  }

  function Stored(f: Feed, flags: Flags, st: Store, w: World): Store {
    st.(writer := NextWriter(f, flags, st, w),
        popped := if st.writer.Get? && f.tee != [] && f.tee[0].Some? then st.popped + 1 else st.popped,
        written := match st.writer
                   case Write(data) => st.written + Part(data, w)
                   case OnceWrite => if f.chunks != [] then Part(f.chunks[0], w) else []
                   case _ => st.written,
        flushed := if (st.writer.Flush? || st.writer.OnceFlush?) && !w.fails then |st.written| else st.flushed,
        bytesWritten := match st.writer
                        case Count(n) => st.bytesWritten + n
                        case OnceFlush => if w.fails then st.bytesWritten else |st.written|
                        case _ => st.bytesWritten,
        cacheSize := match st.writer
                     case Size => st.bytesWritten
                     case OnceFlush => if w.fails then st.cacheSize else |st.written|
                     case _ => st.cacheSize,
        committed := if st.writer.Commit? && !w.overLimit && w.accepts then Some(st.cacheSize) else st.committed)
  }

  function WriterFlags(flags: Flags, st: Store, w: World): Flags {
    match st.writer
    case Waiting(once) => if once || w.fails then flags else flags.(started := true)
    case SetFinished(_) => flags.(started := true, finished := true)
    case Abort | Cancelled => flags.(started := true, failed := true)
    case _ => flags
  }

  // ------ the subscriber ------ //

  predicate ReaderActs(s: State) {
    !s.reader.Ended? && !s.reader.Aborted? && (s.reader.Wait? ==> s.flags.started)
  }

  function Readable(s: State): Bytes {
    if s.store.flushed <= |s.store.written| then s.store.written[..s.store.flushed] else []
  }

  /** `gives` is false where the subscriber is interrupted or runs out of patience. */
  function NextReader(s: State, gives: bool, small: bool): Reader {
    match s.reader
    case Wait => if s.flags.failed then Aborted else if s.flags.finished && small then Ended else Head
    case Head => if s.flags.finished then Compare else Body
    case Compare => if |s.emitted| < s.store.bytesWritten then Body else Ended
    case Body => if s.flags.failed || !gives then Aborted else Read
    case Read => if |s.emitted| < |Readable(s)| || gives then Head else Aborted
    case r => r
  }

  function Emitted(s: State, n: nat, small: bool): Bytes {
    match s.reader
    case Wait => if !s.flags.failed && s.flags.finished && small then Readable(s) else s.emitted
    case Read =>
      var have, all := |s.emitted|, |Readable(s)|;
      if have < all
      then s.emitted + Readable(s)[have..if 1 <= n && have + n <= all then have + n else all]
      else s.emitted
    case _ => s.emitted
  }

  // ------ all together ------ //

  predicate Enabled(s: State, action: Action) {
    match action
    case RemoteYields(_) | RemoteEnds | RemoteRaises => Asks(s.feed.provider) && s.feed.remote.Open?
    case CloseEarly =>
      (s.feed.provider.Second? || s.feed.provider.Fill? || s.feed.provider.Stream?) && s.feed.remote.Open?
    case ProviderStep(_, _) => ProviderActs(s.feed.provider)
    case CancelWriter => s.store.writer.Waiting?
    case WriterStep(_) => WriterActs(s.feed, s.store)
    case BufferDrains(to) => s.store.flushed <= to <= |s.store.written|
    case ReaderStep(_, _, _) => ReaderActs(s)
  }

  function Provided(s: State, locked: bool, accepts: bool): State {
    s.(feed := Fed(s.feed, s.flags.failed), flags := ProviderFlags(s.feed, s.flags, locked),
       store := ProviderStore(s.feed, s.store, locked, accepts))
  }

  function Popped(f: Feed, st: Store): Feed {
    if st.writer.Get? && f.tee != [] then f.(tee := f.tee[1..]) else f
  }

  function Wrote(s: State, w: World): State {
    s.(feed := Popped(s.feed, s.store), flags := WriterFlags(s.flags, s.store, w),
       store := Stored(s.feed, s.flags, s.store, w))
  }

  function Next(s: State, action: Action): State
    requires Enabled(s, action)
  {
    match action
    case RemoteYields(chunk) => s.(feed := Received(s.feed, chunk))
    case RemoteEnds => s.(feed := RemoteEnded(s.feed))
    case RemoteRaises => s.(feed := RemoteRaised(s.feed))
    case CloseEarly => s.(feed := ClosedEarly(s.feed))
    case ProviderStep(locked, accepts) => Provided(s, locked, accepts)
    case CancelWriter => s.(store := s.store.(writer := Cancelled))
    case WriterStep(w) => Wrote(s, w)
    case BufferDrains(to) => s.(store := s.store.(flushed := to))
    case ReaderStep(n, gives, small) => s.(reader := NextReader(s, gives, small), emitted := Emitted(s, n, small))
  }

  predicate IsInit(s: State) {
    && s.feed == Feed([], Open, First, [], 0, false) && s.flags == Flags(false, false, false)
    && s.store == Store(NoJob, 0, [], 0, 0, 0, None) && s.reader == Wait && s.emitted == []
  }

  predicate IsRun(run: seq<State>, actions: seq<Action>) {
    && |run| == |actions| + 1 && IsInit(run[0])
    && forall i | 0 <= i < |actions| :: Enabled(run[i], actions[i]) && run[i + 1] == Next(run[i], actions[i])
  }
}
