/**
 * The cache tracker as the object shared by the provider, the writer thread and a subscriber. Each
 * method is one atomic piece of what one of them does to the fields, in the order of the source,
 * and is proved to be the step of module CacheStreaming; the promises of CacheStreamingPromises
 * hold of this object under every schedule.
 */
module CacheTracker {
  import opened Prelude
  import opened CacheStreaming
  import opened CacheStreamingInvariant

  /** What the pieces rely on where they index into what came before. */
  predicate InOrder(s: State) {
    && (s.feed.provider.Fill? ==> |s.feed.chunks| == 2)
    && (s.feed.provider.Put? || s.store.writer.OnceWrite? ==> s.feed.chunks != [])
    && s.store.flushed <= |s.store.written|
  }

  predicate InLoop(w: Writer) { w.Get? || w.Test? || w.Write? || w.Count? }

  predicate AtEnd(w: Writer) { w.Flush? || w.Size? || w.SetFinished? || w.Decide? || w.Commit? || w.Link? }

  lemma {:induction false} InvIsInOrder(s: State)
    requires Inv(s)
    ensures InOrder(s)
  {}

  lemma {:induction false} ExtendRun(run: seq<State>, taken: seq<Action>, action: Action)
    requires IsRun(run, taken) && Enabled(run[|taken|], action)
    ensures IsRun(run + [Next(run[|taken|], action)], taken + [action])
  {}

  class Tracker {
    // the provider
    var chunks: seq<Bytes>
    var remote: Remote
    var provider: Provider
    var teeQue: seq<Option<Bytes>>
    var teed: nat
    var sentinelSent: bool
    // the events
    var writerStarted: bool
    var writerFinished: bool
    var writerFailed: bool
    // the writer and its file
    var writer: Writer
    var popped: nat
    var file: Bytes
    var flushed: nat
    var bytesWritten: nat
    var cacheSize: nat
    var committed: Option<nat>
    // a subscriber
    var subscriber: Reader
    var output: Bytes

    function FeedView(): Feed reads this { Feed(chunks, remote, provider, teeQue, teed, sentinelSent) }
    function FlagsView(): Flags reads this { Flags(writerStarted, writerFinished, writerFailed) }
    function StoreView(): Store reads this { Store(writer, popped, file, flushed, bytesWritten, cacheSize, committed) }
    function View(): State reads this { State(FeedView(), FlagsView(), StoreView(), subscriber, output) }

    constructor ()
      ensures IsInit(View())
    {
      chunks, remote, provider, teeQue, teed, sentinelSent := [], Open, First, [], 0, false;
      writerStarted, writerFinished, writerFailed := false, false, false;
      writer, popped, file, flushed, bytesWritten, cacheSize, committed := NoJob, 0, [], 0, 0, 0, None;
      subscriber, output := Wait, [];
    }

    method SetWriterFailed()
      modifies this`writerStarted, this`writerFailed
      ensures FlagsView() == old(FlagsView()).(started := true, failed := true)
    {
      writerStarted := true;
      writerFailed := true;
    }

    method SetWriterFinished()
      modifies this`writerStarted, this`writerFinished
      ensures FlagsView() == old(FlagsView()).(started := true, finished := true)
    {
      writerStarted := true;
      writerFinished := true;
    }

    /** _write_dispatcher: a pool with too many writers waiting drops the caching. */
    method WriteDispatcher(locked: bool, once: bool)
      modifies this`writerStarted, this`writerFailed, this`writer
      ensures FlagsView() == if locked then old(FlagsView()).(started := true, failed := true) else old(FlagsView())
      ensures writer == if locked then old(writer) else Waiting(once)
    {
      if locked {
        SetWriterFailed();
      } else {
        writer := Waiting(once);
      }
    }

    /** The pieces of stream_writing_cache before its loop. */
    method FirstChunks(locked: bool, accepts: bool)
      requires Early(provider)
      requires ProviderActs(provider) && InOrder(View())
      modifies this`teeQue, this`teed, this`provider, this`sentinelSent, this`writerStarted, this`writerFinished,
               this`writerFailed, this`writer, this`committed
      ensures FeedView() == Fed(old(FeedView()), old(writerFailed))
      ensures FlagsView() == ProviderFlags(old(FeedView()), old(FlagsView()), locked)
      ensures StoreView() == ProviderStore(old(FeedView()), old(StoreView()), locked, accepts)
    {
      match provider {
        case EmptyFile =>
          SetWriterFinished();
          provider := EmptyCommit;
        case EmptyCommit =>
          if accepts {
            committed := Some(cacheSize);
          }
          provider := Over;
        case Once =>
          WriteDispatcher(locked, true);
          provider := Over;
        case Fill =>
          teeQue, teed, provider := [Some(chunks[0]), Some(chunks[1])], 2, Dispatch;
        case Dispatch =>
          WriteDispatcher(locked, false);
          provider := Stream;
      }
    }

    /** The pieces of the loop of stream_writing_cache, with its `except` and its `finally`. */
    method TeeLoop(locked: bool, accepts: bool)
      requires !Early(provider)
      requires ProviderActs(provider) && InOrder(View())
      modifies this`teeQue, this`teed, this`provider, this`sentinelSent, this`writerStarted, this`writerFinished,
               this`writerFailed, this`writer, this`committed
      ensures FeedView() == Fed(old(FeedView()), old(writerFailed))
      ensures FlagsView() == ProviderFlags(old(FeedView()), old(FlagsView()), locked)
      ensures StoreView() == ProviderStore(old(FeedView()), old(StoreView()), locked, accepts)
    {
      match provider {
        case Check =>
          provider := if writerFailed then Stream else Put;
        case Put =>
          teeQue, teed, provider := teeQue + [Some(chunks[|chunks| - 1])], teed + 1, Stream;
        case Fail =>
          SetWriterFailed();
          provider := Finish;
        case Finish =>
          teeQue, sentinelSent, provider := teeQue + [None], true, Over;
      }
    }

    /** The loop of provider_write_file_in_thread: `while data := input_que.get()`. */
    method WriterLoop(w: World)
      requires InLoop(writer) && WriterActs(FeedView(), StoreView())
      modifies this`teeQue, this`popped, this`writer, this`file, this`bytesWritten
      ensures FeedView() == Popped(old(FeedView()), old(StoreView()))
      ensures FlagsView() == WriterFlags(old(FlagsView()), old(StoreView()), w)
      ensures StoreView() == Stored(old(FeedView()), old(FlagsView()), old(StoreView()), w)
    {
      match writer {
        case Get =>
          var data := teeQue[0];
          teeQue := teeQue[1..];
          popped := if data.Some? then popped + 1 else popped;
          writer := if Falsy(data) then Flush else Test(data.value);
        case Test(data) =>
          writer := if writerFailed || w.overLimit then Abort else Write(data);
        case Write(data) =>
          file := file + Part(data, w);
          writer := if w.fails then Abort else Count(|data|);
        case Count(n) =>
          bytesWritten := bytesWritten + n;
          writer := Get;
      }
    }

    /** The writer's start, the write of a one-chunk file, and its abort. */
    method WriterStartOrOnce(w: World)
      requires !InLoop(writer) && !AtEnd(writer)
      requires WriterActs(FeedView(), StoreView()) && InOrder(View())
      modifies this`writerStarted, this`writerFinished, this`writerFailed, this`writer, this`file,
               this`flushed, this`bytesWritten, this`cacheSize, this`committed
      ensures FlagsView() == WriterFlags(old(FlagsView()), old(StoreView()), w)
      ensures StoreView() == Stored(FeedView(), old(FlagsView()), old(StoreView()), w)
    {
      match writer {
        case Waiting(once) =>
          writer := if w.fails || (once && w.overLimit) then Abort else if once then OnceWrite else Get;
          writerStarted := writerStarted || (!once && !w.fails);
        case OnceWrite =>
          file := Part(chunks[0], w);
          writer := if w.fails then Abort else OnceFlush;
        case OnceFlush =>
          if w.fails {
            writer := Abort;
          } else {
            flushed, bytesWritten, cacheSize, writer := |file|, |file|, |file|, SetFinished(true);
          }
        case Abort =>
          SetWriterFailed();
          writer := Idle;
        case Cancelled =>
          SetWriterFailed();
          writer := Idle;
      }
    }

    /** The writer after its file is written: flush, size, the finished event and _finalize_cache. */
    method WriterFinish(w: World)
      requires AtEnd(writer)
      requires WriterActs(FeedView(), StoreView())
      modifies this`writerStarted, this`writerFinished, this`writerFailed, this`writer, this`file,
               this`flushed, this`bytesWritten, this`cacheSize, this`committed
      ensures FlagsView() == WriterFlags(old(FlagsView()), old(StoreView()), w)
      ensures StoreView() == Stored(FeedView(), old(FlagsView()), old(StoreView()), w)
    {
      match writer {
        case Flush =>
          flushed := if w.fails then flushed else |file|;
          writer := if w.fails then Abort else Size;
        case Size =>
          cacheSize := bytesWritten;
          writer := SetFinished(false);
        case SetFinished(small) =>
          SetWriterFinished();
          writer := if small then Commit else Decide;
        case Decide =>
          writer := if writerFailed then Idle else Commit;
        case Commit =>
          if w.overLimit || !w.accepts {
            writer := Idle;
          } else {
            committed := Some(cacheSize);
            writer := Link;
          }
        case Link =>
          writer := if w.fails then Abort else Idle;
      }
    }

    /** The next atomic piece of a subscriber: waiting for the provider, then following the file. */
    method Subscriber(n: nat, gives: bool, small: bool)
      requires Enabled(View(), ReaderStep(n, gives, small)) && InOrder(View())
      modifies this`subscriber, this`output
      ensures View() == Next(old(View()), ReaderStep(n, gives, small))
    {
      match subscriber {
        case Wait =>
          if writerFailed {
            subscriber := Aborted;
          } else if writerFinished && small {
            output, subscriber := file[..flushed], Ended;
          } else {
            subscriber := Head;
          }
        case Head =>
          subscriber := if writerFinished then Compare else Body;
        case Compare =>
          subscriber := if |output| < bytesWritten then Body else Ended;
        case Body =>
          subscriber := if writerFailed || !gives then Aborted else Read;
        case Read =>
          var have := |output|;
          if have < flushed {
            var upto := if 1 <= n && have + n <= flushed then have + n else flushed;
            assert file[..flushed][have..upto] == file[have..upto];
            output, subscriber := output + file[have..upto], Head;
          } else {
            subscriber := if gives then Head else Aborted;
          }
      }
    }

    /** The remote, the pool's timeout and the operating system. */
    method Others(action: Action)
      requires !action.ProviderStep? && !action.WriterStep? && !action.ReaderStep?
      requires Enabled(View(), action)
      modifies this
      ensures View() == Next(old(View()), action)
    {
      match action {
        case RemoteYields(chunk) =>
          chunks := chunks + [chunk];
          if provider.First? {
            provider := if chunk == [] then EmptyFile else Second;
          } else {
            provider := if provider.Second? then Fill else Check;
          }
        case RemoteEnds =>
          remote := Exhausted;
          provider := if provider.First? then EmptyFile else if provider.Second? then Once else Finish;
        case RemoteRaises =>
          remote, provider := Errored, if provider.Stream? then Fail else Over;
        case CloseEarly =>
          remote, provider := Closed, if provider.Stream? then Finish else Over;
        case CancelWriter =>
          writer := Cancelled;
        case BufferDrains(to) =>
          flushed := to;
      }
    }

    method StreamWritingCache(locked: bool, accepts: bool)
      requires ProviderActs(provider) && InOrder(View())
      modifies this
      ensures View() == Provided(old(View()), locked, accepts)
    {
      if Early(provider) {
        FirstChunks(locked, accepts);
      } else {
        TeeLoop(locked, accepts);
      }
    }

    method WriterThread(w: World)
      requires WriterActs(FeedView(), StoreView()) && InOrder(View())
      modifies this
      ensures View() == Wrote(old(View()), w)
    {
      if InLoop(writer) {
        WriterLoop(w);
      } else if AtEnd(writer) {
        WriterFinish(w);
      } else {
        WriterStartOrOnce(w);
      }
    }

    method Step(action: Action)
      requires Enabled(View(), action) && InOrder(View())
      modifies this
      ensures View() == Next(old(View()), action)
    {
      match action {
        case ProviderStep(locked, accepts) => StreamWritingCache(locked, accepts);
        case WriterStep(w) => WriterThread(w);
        case ReaderStep(n, gives, small) => Subscriber(n, gives, small);
        case _ => Others(action);
      }
    }

    /** Any schedule at all: the steps that are not enabled when their turn comes do not happen. */
    method Interleave(schedule: seq<Action>) returns (ghost run: seq<State>, ghost taken: seq<Action>)
      requires IsInit(View())
      modifies this
      ensures IsRun(run, taken) && View() == run[|taken|] && Inv(View())
    {
      run, taken := [View()], [];
      for k := 0 to |schedule|
        invariant IsRun(run, taken) && View() == run[|taken|]
      {
        var action := schedule[k];
        if Enabled(View(), action) {
          RunInv(run, taken, |taken|);
          InvIsInOrder(View());
          ExtendRun(run, taken, action);
          Step(action);
          run, taken := run + [View()], taken + [action];
        }
      }
      RunInv(run, taken, |taken|);
    }
  }
}
