/**
 * The cache index as the objects the proxy keeps: the dictionary with the operations on it, piece
 * by piece as threads can interleave them, and the loop of the database thread.
 */
module CacheIndexControl {
  import opened Prelude
  import opened CacheIndex
  import opened CachePreload

  /** What a thread does in one piece: the test of a commit for room, or a step of the machine. */
  datatype Piece = TestRoom | Act(action: Action)

  class Session {
    const maxEntries: nat
    const writers: nat             // threads that commit
    var index: map<Key, Entry>
    var moving: seq<Op>
    var queue: seq<Op>
    var phase: Phase
    var writeBatch: seq<Meta>
    var deleteBatch: seq<Key>
    var db: map<Key, Meta>
    var admitted: nat              // commits that found room and have not changed the index yet

    function View(): State reads this { State(index, moving, queue, phase, writeBatch, deleteBatch, db) }

    /** _ensure_db_and_load over the rows of the database, with the files found in the cache directory. */
    constructor (rows: seq<Meta>, stored: map<Key, Meta>, files: set<Key>, maxEntries: nat, writers: nat, batch: nat)
      requires RowsOf(rows, stored) && batch > 0
      ensures this.maxEntries == maxEntries && this.writers == writers && admitted == 0
      ensures IsInit(View()) && |index| <= maxEntries
      ensures EachSplit(rows, files, maxEntries, index)
      ensures forall k | k in db :: k in stored && db[k] == stored[k]
    {
      this.maxEntries, this.writers, admitted := maxEntries, writers, 0;
      var res, toRemove := PreloadFromDb(rows, files, maxEntries);
      var left := CleanupDb(stored, toRemove, batch);
      PreloadMirrors(rows, stored, files, maxEntries, res, toRemove);
      index, db := res, left;
      moving, queue, phase, writeBatch, deleteBatch := [], [], Gather, [], [];
    }

    /** lookup_entry: the caller sees what LookupSeesLastStart says of the index. */
    method LookupEntry(key: Key) returns (entry: Option<Entry>)
      ensures entry == Lookup(View().index, key)
    {
      if key in index {
        return Some(index[key]);
      }
      return None;
    }

    /** remove_entry up to the put; the key may be missing. */
    method RemoveEntry(key: Key)
      modifies this`index, this`moving
      ensures View() == Next(old(View()), Remove(key))
    {
      index := index - {key};
      moving := moving + [Delete(key)];
    }

    /** The index holds no more than the maximum, but for the threads that tested for room at the same time. */
    predicate Bounded()
      reads this
    {
      admitted <= writers && |index| + admitted <= maxEntries + if writers > 0 then writers - 1 else 0
    }

    /** The first piece of commit_entry: a full index takes nothing, not even a key it has. */
    method CommitTest() returns (room: bool)
      requires Bounded() && admitted < writers
      modifies this`admitted
      ensures room <==> |index| < maxEntries
      ensures Bounded() && admitted == old(admitted) + if room then 1 else 0
    {
      room := |index| < maxEntries;
      if room {
        admitted := admitted + 1;
      }
    }

    /** The second: the entry is set, whatever others have set since the test. */
    method CommitInsert(meta: Meta)
      requires Bounded() && admitted > 0
      modifies this`index, this`moving, this`admitted
      ensures Bounded() && admitted == old(admitted) - 1
      ensures View() == Next(old(View()), Commit(meta))
    {
      if meta.key in index {
        assert index[meta.key := Build(meta)].Keys == index.Keys;
        assert |index[meta.key := Build(meta)].Keys| == |index.Keys|;
      } else {
        AddOne(index, meta.key, Build(meta));
      }
      index := index[meta.key := Build(meta)];
      moving := moving + [Write(meta)];
      admitted := admitted - 1;
    }

    /** The put_nowait that ends a commit or a remove. */
    method PutNowait(i: nat)
      requires i < |moving|
      modifies this`moving, this`queue
      ensures View() == Next(old(View()), Put(i))
    {
      queue := queue + [moving[i]];
      moving := moving[..i] + moving[i + 1..];
    }

    /** The database thread gets an item. */
    method GetItem()
      requires phase.Gather? && queue != []
      modifies this`queue, this`writeBatch, this`deleteBatch
      ensures View() == Next(old(View()), Take)
    {
      var item := queue[0];
      queue := queue[1..];
      match item
      case Write(meta) => writeBatch := writeBatch + [meta];
      case Delete(key) => deleteBatch := deleteBatch + [key];
    }

    /** One piece of a flush: its start, the insertion, or the deletion with the clearing of the batch. */
    method FlushPiece(action: Action)
      requires (action.BeginFlush? || action.DoWrites? || action.DoDeletes?) && Enabled(View(), action)
      modifies this`phase, this`db, this`writeBatch, this`deleteBatch
      ensures View() == Next(old(View()), action)
    {
      match action {
        case BeginFlush => phase := FlushWrites;
        case DoWrites => db, phase := Inserted(db, writeBatch), FlushDeletes;
        case DoDeletes =>
          db := Removed(db, deleteBatch);
          writeBatch, deleteBatch, phase := [], [], Gather;
      }
    }

    /** A step of the machine; a commit needs to have found room. */
    method Step(action: Action)
      requires Enabled(View(), action) && (action.Commit? ==> admitted > 0) && Bounded()
      modifies this`index, this`moving, this`queue, this`phase, this`writeBatch, this`deleteBatch, this`db,
          this`admitted
      ensures View() == Next(old(View()), action) && Bounded()
    {
      match action {
        case Commit(meta) => CommitInsert(meta);
        case Remove(key) =>
          RemoveSmaller(index, key);
          RemoveEntry(key);
        case Put(i) => PutNowait(i);
        case Take => GetItem();
        case BeginFlush | DoWrites | DoDeletes => FlushPiece(action);
      }
    }

    /**
     * Any schedule at all: what is not enabled when its turn comes does not happen. The object goes
     * through a run of the machine, and the index outgrows its maximum by less than the number of writers.
     */
    method Interleave(schedule: seq<Piece>) returns (ghost run: seq<State>, ghost taken: seq<Action>)
      requires IsInit(View()) && Bounded() && writers > 0
      modifies this`index, this`moving, this`queue, this`phase, this`writeBatch, this`deleteBatch, this`db,
          this`admitted
      ensures IsRun(run, taken) && View() == run[|taken|]
      ensures NoOverlap(run, taken) && Drained(View()) ==> Submap(db, index)
      ensures |index| < maxEntries + writers
    {
      run, taken := [View()], [];
      for k := 0 to |schedule|
        invariant IsRun(run, taken) && View() == run[|taken|] && Bounded()
      {
        match schedule[k] {
          case TestRoom =>
            if admitted < writers {
              var room := CommitTest();
            }
          case Act(action) =>
            if Enabled(View(), action) && (action.Commit? ==> admitted > 0) {
              ExtendRun(run, taken, action);
              Step(action);
              run, taken := run + [View()], taken + [action];
            }
        }
      }
      if NoOverlap(run, taken) && Drained(View()) {
        DrainedIsSubmap(run, taken, |taken|);
      }
    }
  }

  lemma {:induction false} ExtendRun(run: seq<State>, taken: seq<Action>, action: Action)
    requires IsRun(run, taken) && Enabled(run[|taken|], action)
    ensures IsRun(run + [Next(run[|taken|], action)], taken + [action])
  {}

  // ------ how far writers can overfill the index ------ //

  /** The index holds the first n of the entries and nothing else. */
  ghost predicate HoldsFirst(s: Session, metas: seq<Meta>, n: nat)
    reads s
  {
    n <= |metas| && s.index.Keys == KeysOf(metas[..n]) && |s.index| == n && s.Bounded()
  }

  /** A writer that was admitted sets the next entry. */
  method InsertNext(s: Session, metas: seq<Meta>, n: nat)
    requires DistinctRows(metas) && n < |metas| && HoldsFirst(s, metas, n) && s.admitted > 0
    modifies s`index, s`moving, s`admitted
    ensures HoldsFirst(s, metas, n + 1) && s.admitted == old(s.admitted) - 1
  {
    PrefixDistinct(metas, n);
    NewKey(metas[..n], metas[n]);
    AddOne(s.index, metas[n].key, Build(metas[n]));
    s.CommitInsert(metas[n]);
  }

  /** One writer alone fills the index to one place less than the maximum. */
  method Fill(s: Session, metas: seq<Meta>)
    requires DistinctRows(metas) && HoldsFirst(s, metas, 0) && s.admitted == 0
    requires 0 < s.maxEntries <= |metas| && s.writers > 0
    modifies s`index, s`moving, s`admitted
    ensures HoldsFirst(s, metas, s.maxEntries - 1) && s.admitted == 0
  {
    for n := 0 to s.maxEntries - 1
      invariant HoldsFirst(s, metas, n) && s.admitted == 0
    {
      var room := s.CommitTest();
      InsertNext(s, metas, n);
    }
  }

  /** All writers test for the last place before any of them takes it. */
  method AllTest(s: Session)
    requires s.Bounded() && |s.index| < s.maxEntries && s.admitted == 0
    modifies s`admitted
    ensures s.Bounded() && s.admitted == s.writers
  {
    for k := 0 to s.writers
      invariant s.Bounded() && s.admitted == k
    {
      var room := s.CommitTest();
    }
  }

  method AllInsert(s: Session, metas: seq<Meta>, n: nat)
    requires DistinctRows(metas) && HoldsFirst(s, metas, n) && n + s.writers <= |metas| && s.admitted == s.writers
    modifies s`index, s`moving, s`admitted
    ensures HoldsFirst(s, metas, n + s.writers) && s.admitted == 0
  {
    for k := 0 to s.writers
      invariant HoldsFirst(s, metas, n + k) && s.admitted == s.writers - k
    {
      InsertNext(s, metas, n + k);
    }
  }

  /**
   * For every maximum and every number of writers some schedule overfills the index by all the writers
   * but one, which is as far as any schedule gets: the maximum holds under every schedule if and only if
   * there is one writer.
   */
  method WritersOverfill(metas: seq<Meta>, maxEntries: nat, writers: nat) returns (s: Session)
    requires maxEntries > 0 && writers > 0 && |metas| == maxEntries + writers - 1 && DistinctRows(metas)
    ensures s.maxEntries == maxEntries && s.writers == writers && s.Bounded()
    ensures s.index.Keys == KeysOf(metas) && |s.index| == maxEntries + writers - 1
  {
    s := new Session([], map[], {}, maxEntries, writers, 1);
    assert s.index.Keys == {} == KeysOf(metas[..0]);
    Fill(s, metas);
    AllTest(s);
    AllInsert(s, metas, maxEntries - 1);
    assert metas[..|metas|] == metas;
  }

  lemma {:induction false} RemoveSmaller(index: map<Key, Entry>, key: Key)
    ensures |index - {key}| <= |index|
  {
    assert (index - {key}).Keys == index.Keys - {key};
    assert |index.Keys - {key}| <= |index.Keys|;
  }

  // ------ the loop of the database thread ------ //

  function WritesOf(batch: seq<Op>): seq<Meta> {
    if batch == [] then []
    else WritesOf(batch[..|batch| - 1]) + if batch[|batch| - 1].Write? then [batch[|batch| - 1].meta] else []
  }

  function DeletesOf(batch: seq<Op>): seq<Key> {
    if batch == [] then []
    else DeletesOf(batch[..|batch| - 1]) + if batch[|batch| - 1].Write? then [] else [batch[|batch| - 1].gone]
  }

  function Flushed(db: map<Key, Meta>, batch: seq<Op>): map<Key, Meta> {
    Removed(Inserted(db, WritesOf(batch)), DeletesOf(batch))
  }

  function FlushedAll(db: map<Key, Meta>, batches: seq<seq<Op>>): map<Key, Meta> {
    if batches == [] then db else Flushed(FlushedAll(db, batches[..|batches| - 1]), batches[|batches| - 1])
  }

  /** The reference: each operation done when it was asked for. */
  function InOrder(db: map<Key, Meta>, ops: seq<Op>): map<Key, Meta> {
    if ops == [] then db
    else
      var before := InOrder(db, ops[..|ops| - 1]);
      match ops[|ops| - 1] case Write(meta) => before[meta.key := meta] case Delete(key) => before - {key}
  }

  /** A key is settled by its last operation. */
  lemma {:induction false} InOrderAt(db: map<Key, Meta>, ops: seq<Op>, k: Key)
    ensures match LastOp(ops, k)
            case Some(Write(meta)) => meta.key == k && k in InOrder(db, ops) && InOrder(db, ops)[k] == meta
            case Some(Delete(_)) => k !in InOrder(db, ops)
            case None => (k in InOrder(db, ops) <==> k in db) && (k in db ==> InOrder(db, ops)[k] == db[k])
  {
    if ops != [] { InOrderAt(db, ops[..|ops| - 1], k); }
  }

  lemma {:induction false} InOrderAppend(db: map<Key, Meta>, ops: seq<Op>, more: seq<Op>)
    ensures InOrder(db, ops + more) == InOrder(InOrder(db, ops), more)
    decreases |more|
  {
    if more == [] {
      assert ops + more == ops;
    } else {
      assert (ops + more)[..|ops + more| - 1] == ops + more[..|more| - 1];
      InOrderAppend(db, ops, more[..|more| - 1]);
    }
  }

  /** In a batch without a delete of k the last operation on k is its last write. */
  lemma {:induction false} LastInBatch(batch: seq<Op>, k: Key)
    ensures k !in DeletesOf(batch) ==>
              (match LastWrite(WritesOf(batch), k)
               case Some(meta) => LastOp(batch, k) == Some(Write(meta)) && meta.key == k
               case None => LastOp(batch, k).None?)
  {
    if batch != [] {
      var n := |batch| - 1;
      LastInBatch(batch[..n], k);
      if batch[n].Write? {
        assert WritesOf(batch)[..|WritesOf(batch)| - 1] == WritesOf(batch[..n]);
      } else {
        assert WritesOf(batch) == WritesOf(batch[..n]);
        assert DeletesOf(batch)[|DeletesOf(batch)| - 1] == batch[n].gone;
      }
    }
  }

  ghost predicate RowsAmong(db: map<Key, Meta>, db': map<Key, Meta>) {
    forall k | k in db :: k in db' && db'[k] == db[k]
  }

  lemma {:induction false} FlushedAmong(db: map<Key, Meta>, db': map<Key, Meta>, batch: seq<Op>)
    requires RowsAmong(db, db')
    ensures RowsAmong(Flushed(db, batch), InOrder(db', batch))
  {
    forall k | k in Flushed(db, batch)
      ensures k in InOrder(db', batch) && InOrder(db', batch)[k] == Flushed(db, batch)[k]
    {
      InsertedAt(db, WritesOf(batch), k);
      LastInBatch(batch, k);
      InOrderAt(db', batch, k);
    }
  }

  /**
   * However the operations are cut into batches, writes before deletes in each leaves a part of
   * what the order asked for.
   */
  lemma {:induction false} BatchesAreAmong(db: map<Key, Meta>, batches: seq<seq<Op>>)
    ensures RowsAmong(FlushedAll(db, batches), InOrder(db, Flatten(batches)))
  {
    if batches == [] {
      assert InOrder(db, Flatten(batches)) == db;
    } else {
      var n := |batches| - 1;
      BatchesAreAmong(db, batches[..n]);
      assert batches == batches[..n] + [batches[n]];
      FlattenAppend(batches[..n], batches[n]);
      InOrderAppend(db, Flatten(batches[..n]), batches[n]);
      FlushedAmong(FlushedAll(db, batches[..n]), InOrder(db, Flatten(batches[..n])), batches[n]);
    }
  }

  /** A batch that ends k with a write has it as its last write of k; one without k neither writes nor deletes it. */
  lemma {:induction false} OpsInBatch(batch: seq<Op>, k: Key)
    ensures match LastOp(batch, k)
            case Some(Write(meta)) => LastWrite(WritesOf(batch), k) == Some(meta)
            case Some(Delete(_)) => k in DeletesOf(batch)
            case None => LastWrite(WritesOf(batch), k).None? && k !in DeletesOf(batch)
  {
    if batch != [] {
      var n := |batch| - 1;
      OpsInBatch(batch[..n], k);
      if batch[n].Write? {
        assert WritesOf(batch)[..|WritesOf(batch)| - 1] == WritesOf(batch[..n]);
        assert DeletesOf(batch) == DeletesOf(batch[..n]);
      } else {
        assert WritesOf(batch) == WritesOf(batch[..n]);
        assert DeletesOf(batch)[|DeletesOf(batch)| - 1] == batch[n].gone;
      }
    }
  }

  /** The last batch with an operation on k ends with a write of it, and holds a delete of it as well. */
  predicate Lost(batches: seq<seq<Op>>, k: Key) {
    if batches == [] then false
    else
      var n := |batches| - 1;
      match LastOp(batches[n], k)
      case Some(Write(_)) => k in DeletesOf(batches[n])
      case Some(Delete(_)) => false
      case None => Lost(batches[..n], k)
  }

  /**
   * A row that doing the operations in order would leave is missing if and only if its last write
   * shares its batch with a delete.
   */
  lemma {:induction false} LostIff(db: map<Key, Meta>, batches: seq<seq<Op>>, k: Key)
    requires k in InOrder(db, Flatten(batches))
    ensures k !in FlushedAll(db, batches) <==> Lost(batches, k)
  {
    if batches != [] {
      var n := |batches| - 1;
      var before := Flatten(batches[..n]);
      assert batches == batches[..n] + [batches[n]];
      FlattenAppend(batches[..n], batches[n]);
      InOrderAppend(db, before, batches[n]);
      InOrderAt(InOrder(db, before), batches[n], k);
      OpsInBatch(batches[n], k);
      InsertedAt(FlushedAll(db, batches[..n]), WritesOf(batches[n]), k);
      if LastOp(batches[n], k).None? { LostIff(db, batches[..n], k); }
    }
  }

  /** What queue.get gave before the sentinel. */
  datatype Got = Item(op: Op) | Empty

  function Items(gots: seq<Got>): seq<Op> {
    if gots == [] then []
    else Items(gots[..|gots| - 1]) + if gots[|gots| - 1].Item? then [gots[|gots| - 1].op] else []
  }

  lemma {:induction false} BatchAppend(batch: seq<Op>, op: Op)
    ensures WritesOf(batch + [op]) == WritesOf(batch) + if op.Write? then [op.meta] else []
    ensures DeletesOf(batch + [op]) == DeletesOf(batch) + if op.Write? then [] else [op.gone]
  {
    assert (batch + [op])[..|batch|] == batch;
  }

  lemma {:induction false} ItemsAppend(gots: seq<Got>, n: nat, batches: seq<seq<Op>>, batch: seq<Op>)
    requires n < |gots| && Flatten(batches) + batch == Items(gots[..n])
    ensures Flatten(batches) + (if gots[n].Item? then batch + [gots[n].op] else batch) == Items(gots[..n + 1])
  {
    assert gots[..n + 1][..n] == gots[..n];
  }

  predicate AllFit(batches: seq<seq<Op>>, size: nat) { forall i | 0 <= i < |batches| :: |batches[i]| <= size }

  lemma {:induction false} OneMoreBatch(batches: seq<seq<Op>>, batch: seq<Op>, size: nat)
    requires AllFit(batches, size) && |batch| <= size
    ensures AllFit(batches + [batch], size) && Flatten(batches + [batch]) == Flatten(batches) + batch
  {
    FlattenAppend(batches, batch);
  }

  // ------ the loop takes the steps of the machine ------ //

  /** The database thread has nothing in its hands, and `ops` are in the queue. */
  predicate Waits(s: State, db: map<Key, Meta>, ops: seq<Op>) {
    s.phase.Gather? && s.writes == [] && s.deletes == [] && s.db == db && s.queue == ops
  }

  lemma {:induction false} TakeBatch(s0: State, actions: seq<Action>, s: State, batch: seq<Op>, n: nat)
      returns (more: seq<Action>, s': State)
    requires Reaches(s0, actions, s) && OnlyDrains(actions)
    requires s.phase.Gather? && s.writes == [] && s.deletes == [] && n <= |batch| && batch <= s.queue
    ensures Reaches(s0, more, s') && OnlyDrains(more)
    ensures s' == s.(queue := s.queue[n..], writes := WritesOf(batch[..n]), deletes := DeletesOf(batch[..n]))
    decreases n
  {
    if n == 0 {
      assert batch[..0] == [] && s.queue[0..] == s.queue;
      more, s' := actions, s;
    } else {
      more, s' := TakeBatch(s0, actions, s, batch, n - 1);
      TakeOneMore(batch, n - 1);
      BatchAppend(batch[..n - 1], batch[n - 1]);
      more, s' := Then(s0, more, s', Take);
    }
  }

  lemma {:induction false} BatchSteps(s0: State, actions: seq<Action>, s: State, batch: seq<Op>)
      returns (more: seq<Action>, s': State)
    requires Reaches(s0, actions, s) && OnlyDrains(actions)
    requires s.phase.Gather? && s.writes == [] && s.deletes == [] && batch <= s.queue
    ensures Reaches(s0, more, s') && OnlyDrains(more)
    ensures s' == s.(queue := s.queue[|batch|..], db := Flushed(s.db, batch))
  {
    more, s' := TakeBatch(s0, actions, s, batch, |batch|);
    assert batch[..|batch|] == batch;
    more, s' := FlushBatch(s0, more, s');
  }

  /** Flushing batches one after the other is a way of draining the queue. */
  lemma {:induction false} BatchesAreSteps(s: State, batches: seq<seq<Op>>, n: nat)
      returns (actions: seq<Action>, s': State)
    requires Waits(s, s.db, Flatten(batches)) && n <= |batches|
    ensures Reaches(s, actions, s') && OnlyDrains(actions)
    ensures s' == s.(queue := Flatten(batches[n..]), db := FlushedAll(s.db, batches[..n]))
    decreases n
  {
    if n == 0 {
      assert batches[0..] == batches && batches[..0] == [];
      actions, s' := [], s;
    } else {
      actions, s' := BatchesAreSteps(s, batches, n - 1);
      var batch := batches[n - 1];
      assert batches[n - 1..][0] == batch && batches[n - 1..][1..] == batches[n..];
      assert s'.queue == batch + Flatten(batches[n..]);
      TakeOneMore(batches, n - 1);
      assert batches[..n][..n - 1] == batches[..n - 1];
      actions, s' := BatchSteps(s, actions, s', batch);
    }
  }

  /** Some order of the thread's own steps takes the queue and leaves this database. */
  ghost predicate DrainsTo(s: State, db: map<Key, Meta>) {
    exists actions :: Reaches(s, actions, s.(queue := [], db := db)) && OnlyDrains(actions)
  }

  lemma {:induction false} ThreadIsSteps(db0: map<Key, Meta>, batches: seq<seq<Op>>)
    ensures forall s: State | Waits(s, db0, Flatten(batches)) :: DrainsTo(s, FlushedAll(db0, batches))
  {
    forall s: State | Waits(s, db0, Flatten(batches)) ensures DrainsTo(s, FlushedAll(db0, batches)) {
      var actions, s' := BatchesAreSteps(s, batches, |batches|);
      assert batches[|batches|..] == [] && batches[..|batches|] == batches;
    }
  }

  class DbWriter {
    var db: map<Key, Meta>
    var writeBatch: seq<Meta>
    var deleteBatch: seq<Key>

    method FlushToDb()
      modifies this`db
      ensures db == Removed(Inserted(old(db), writeBatch), deleteBatch)
    {
      if writeBatch != [] {
        db := Inserted(db, writeBatch);
      }
      if deleteBatch != [] {
        db := Removed(db, deleteBatch);
      } else {
        assert Removed(db, []) == db;
      }
    }

    ghost predicate Holds(batch: seq<Op>)
      reads this
    {
      writeBatch == WritesOf(batch) && deleteBatch == DeletesOf(batch) && |writeBatch| + |deleteBatch| == |batch|
    }

    method Gather(got: Got, ghost batch: seq<Op>)
      requires Holds(batch)
      modifies this`writeBatch, this`deleteBatch
      ensures Holds(if got.Item? then batch + [got.op] else batch)
    {
      match got
      case Item(op) =>
        BatchAppend(batch, op);
        if op.Write? {
          writeBatch := writeBatch + [op.meta];
        } else {
          deleteBatch := deleteBatch + [op.gone];
        }
      case Empty =>
    }

    method FlushBatch(ghost db0: map<Key, Meta>, ghost batches: seq<seq<Op>>, ghost batch: seq<Op>)
      requires Holds(batch) && db == FlushedAll(db0, batches)
      modifies this
      ensures db == FlushedAll(db0, batches + [batch]) && Holds([])
    {
      FlushToDb();
      assert (batches + [batch])[..|batches|] == batches;
      writeBatch, deleteBatch := [], [];
    }

    /** Every operation is in one batch, in order, and no batch outgrows the limit; steps of the machine do the same. */
    method StartThread(gots: seq<Got>, flushSize: nat) returns (ghost batches: seq<seq<Op>>)
      requires flushSize > 0
      modifies this
      ensures Flatten(batches) == Items(gots) && db == FlushedAll(old(db), batches)
      ensures RowsAmong(db, InOrder(old(db), Items(gots)))
      ensures AllFit(batches, flushSize)
      ensures forall s: State | Waits(s, old(db), Items(gots)) :: DrainsTo(s, db)
    {
      batches := Loop(gots, flushSize);
      BatchesAreAmong(old(db), batches);
      ThreadIsSteps(old(db), batches);
    }

    method Loop(gots: seq<Got>, flushSize: nat) returns (ghost batches: seq<seq<Op>>)
      requires flushSize > 0
      modifies this
      ensures Flatten(batches) == Items(gots) && db == FlushedAll(old(db), batches) && AllFit(batches, flushSize)
    {
      writeBatch, deleteBatch := [], [];
      batches := [];
      ghost var batch: seq<Op> := [];
      for n := 0 to |gots|
        invariant Holds(batch) && |batch| < flushSize && db == FlushedAll(old(db), batches)
        invariant Flatten(batches) + batch == Items(gots[..n])
        invariant AllFit(batches, flushSize)
      {
        Gather(gots[n], batch);
        ItemsAppend(gots, n, batches, batch);
        batch := if gots[n].Item? then batch + [gots[n].op] else batch;
        var total := |writeBatch| + |deleteBatch|;
        if total >= flushSize || (total > 0 && gots[n].Empty?) {
          FlushBatch(old(db), batches, batch);
          OneMoreBatch(batches, batch, flushSize);
          batches, batch := batches + [batch], [];
        }
      }
      assert gots[..|gots|] == gots;
      FlushBatch(old(db), batches, batch);
      OneMoreBatch(batches, batch, flushSize);
      batches := batches + [batch];
    }
  }
}
