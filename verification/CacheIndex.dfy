/**
 * The in-memory cache index and the database that follows it (src/ota_proxy/cache_index.py). An
 * operation first changes the index, then puts a write or a delete into a FIFO; the database thread
 * gathers a batch and flushes it, all its writes first, then all its deletes.
 */
module CacheIndex {
  import opened Prelude
  import OrderedDict
  import Control = CacheControlHeader

  type Key = string

  /** A row of the database (the columns that the index is built from, and the order of the preload). */
  datatype Meta = Meta(key: Key, cacheSize: int, encoding: Option<string>, compression: Option<string>, lastAccess: int)

  datatype Entry = Entry(cacheSize: int, headers: map<string, string>)

  const URL_PREFIX := "URL_"

  function TextOf(s: Option<string>): string { if s.Some? then s.value else "" }

  function ControlDirectives(meta: Meta): Control.Directives {
    [("file_sha256", Control.Str(meta.key)), ("file_compression_alg", Control.Str(TextOf(meta.compression)))]
  }

  /** The response headers of an entry: an empty encoding or algorithm counts as none. */
  function BuildHeaders(meta: Meta): (headers: map<string, string>)
    ensures "content-encoding" in headers <==> TextOf(meta.encoding) != ""
    ensures "ota-file-cache-control" in headers <==> meta.key != "" && !(URL_PREFIX <= meta.key)
  {
    (if TextOf(meta.encoding) != "" then map["content-encoding" := TextOf(meta.encoding)] else map[])
    + (if meta.key != "" && !(URL_PREFIX <= meta.key)
       then map["ota-file-cache-control" := Control.Export(ControlDirectives(meta))] else map[])
  }

  lemma {:induction false} TwoAreDistinct(dict: Control.Directives)
    requires |dict| == 2 && dict[0].0 != dict[1].0
    ensures OrderedDict.Distinct(dict)
  {
    assert dict[1..][1..] == [];
    assert OrderedDict.Distinct(dict[1..]);
  }

  /** A client that reads the header of an entry finds the file and its compression named there. */
  lemma {:induction false} HeaderNamesTheFile(meta: Meta)
    requires meta.key != "" && !(URL_PREFIX <= meta.key)
    requires Control.Clean(Control.Str(meta.key)) && Control.Clean(Control.Str(TextOf(meta.compression)))
    ensures var header := BuildHeaders(meta)["ota-file-cache-control"];
            && Control.Get(header, "file_sha256") == Some(Control.Str(meta.key))
            && Control.Get(header, "file_compression_alg")
               == if TextOf(meta.compression) == "" then None else Some(Control.Str(TextOf(meta.compression)))
  {
    var dict := ControlDirectives(meta);
    assert |"file_sha256"| == 11;
    assert |"file_compression_alg"| == 20;
    TwoAreDistinct(dict);
    Control.KeptPrintable(dict);
    Control.KeptAt(dict, "file_sha256");
    Control.KeptAt(dict, "file_compression_alg");
    Control.PrintIsRead(Control.Kept(dict));
  }

  function Build(meta: Meta): Entry { Entry(meta.cacheSize, BuildHeaders(meta)) }

  datatype Op = Write(meta: Meta) | Delete(gone: Key)

  function KeyOf(op: Op): Key { if op.Write? then op.meta.key else op.gone }

  // ------ a flush ------ //

  /** Insert or replace, in order. */
  function Inserted(db: map<Key, Meta>, writes: seq<Meta>): map<Key, Meta>
    decreases |writes|
  {
    if writes == [] then db else Inserted(db[writes[0].key := writes[0]], writes[1..])
  }

  function Removed(db: map<Key, Meta>, deletes: seq<Key>): map<Key, Meta> {
    map k | k in db && k !in deletes :: db[k]
  }

  function LastWrite(writes: seq<Meta>, k: Key): Option<Meta> {
    if writes == [] then None
    else if writes[|writes| - 1].key == k then Some(writes[|writes| - 1])
    else LastWrite(writes[..|writes| - 1], k)
  }

  lemma {:induction false} InsertedAppend(db: map<Key, Meta>, writes: seq<Meta>, m: Meta)
    ensures Inserted(db, writes + [m]) == Inserted(db, writes)[m.key := m]
    decreases |writes|
  {
    if writes == [] {
      assert writes + [m] == [m];
      assert [m][1..] == [];
    } else {
      assert (writes + [m])[1..] == writes[1..] + [m];
      InsertedAppend(db[writes[0].key := writes[0]], writes[1..], m);
    }
  }

  /** After an insertion a key has its last write, or what it had. */
  lemma {:induction false} InsertedAt(db: map<Key, Meta>, writes: seq<Meta>, k: Key)
    ensures k in Inserted(db, writes) <==> k in db || LastWrite(writes, k).Some?
    ensures LastWrite(writes, k).Some? ==> Inserted(db, writes)[k] == LastWrite(writes, k).value
    ensures LastWrite(writes, k).None? && k in db ==> Inserted(db, writes)[k] == db[k]
    decreases |writes|
  {
    if writes != [] {
      var n := |writes| - 1;
      assert writes == writes[..n] + [writes[n]];
      InsertedAppend(db, writes[..n], writes[n]);
      InsertedAt(db, writes[..n], k);
    }
  }

  // ------ the machine ------ //

  datatype Phase = Gather | FlushWrites | FlushDeletes

  /** `moving` holds the operations that have changed the index and are about to be put into the queue. */
  datatype State = State(
    index: map<Key, Entry>, moving: seq<Op>, queue: seq<Op>,
    phase: Phase, writes: seq<Meta>, deletes: seq<Key>, db: map<Key, Meta>)

  datatype Action =
    | Commit(meta: Meta) | Remove(key: Key)
    | Put(i: nat)                                 // the operation moving[i] reaches the queue
    | Take | BeginFlush | DoWrites | DoDeletes    // the database thread

  predicate Enabled(s: State, action: Action) {
    match action
    case Commit(_) | Remove(_) => true
    case Put(i) => i < |s.moving|
    case Take => s.phase.Gather? && s.queue != []
    case BeginFlush => s.phase.Gather? && (s.writes != [] || s.deletes != [])
    case DoWrites => s.phase.FlushWrites?
    case DoDeletes => s.phase.FlushDeletes?
  }

  function Next(s: State, action: Action): State
    requires Enabled(s, action)
  {
    match action
    case Commit(meta) => s.(index := s.index[meta.key := Build(meta)], moving := s.moving + [Write(meta)])
    case Remove(key) => s.(index := s.index - {key}, moving := s.moving + [Delete(key)])
    case Put(i) => s.(moving := s.moving[..i] + s.moving[i + 1..], queue := s.queue + [s.moving[i]])
    case Take =>
      s.(queue := s.queue[1..],
         writes := if s.queue[0].Write? then s.writes + [s.queue[0].meta] else s.writes,
         deletes := if s.queue[0].Write? then s.deletes else s.deletes + [s.queue[0].gone])
    case BeginFlush => s.(phase := FlushWrites)
    case DoWrites => s.(db := Inserted(s.db, s.writes), phase := FlushDeletes)
    case DoDeletes => s.(db := Removed(s.db, s.deletes), writes := [], deletes := [], phase := Gather)
  }

  /** The index is what the rows say. */
  ghost predicate Mirrors(index: map<Key, Entry>, db: map<Key, Meta>) {
    && index.Keys == db.Keys
    && forall k | k in db :: index[k] == Build(db[k])
  }

  /** Every row of the database is an entry of the index. */
  ghost predicate Submap(db: map<Key, Meta>, index: map<Key, Entry>) {
    forall k | k in db :: k in index && index[k] == Build(db[k])
  }

  ghost predicate IsInit(s: State) {
    && Mirrors(s.index, s.db) && s.moving == [] && s.queue == []
    && s.phase.Gather? && s.writes == [] && s.deletes == []
  }

  predicate KeyIsFree(moving: seq<Op>, key: Key) { forall i | 0 <= i < |moving| :: KeyOf(moving[i]) != key }

  /** The operation leaves the index as the write says. */
  predicate SaysTheSame(action: Action, meta: Meta) {
    action.Commit? && action.meta.key == meta.key && Build(action.meta) == Build(meta)
  }

  predicate Starts(action: Action) { action.Commit? || action.Remove? }

  function KeyStarted(action: Action): Key
    requires Starts(action)
  {
    if action.Commit? then action.meta.key else action.key
  }

  /** An operation does not start while a write of its key that says something else has not reached the queue. */
  predicate Careful(s: State, action: Action) {
    Starts(action) ==>
      forall i | 0 <= i < |s.moving| && s.moving[i].Write? && s.moving[i].meta.key == KeyStarted(action) ::
          SaysTheSame(action, s.moving[i].meta)
  }

  ghost predicate IsRun(run: seq<State>, actions: seq<Action>) {
    && |run| == |actions| + 1 && IsInit(run[0])
    && forall i | 0 <= i < |actions| :: Enabled(run[i], actions[i]) && run[i + 1] == Next(run[i], actions[i])
  }

  predicate NoOverlap(run: seq<State>, actions: seq<Action>)
    requires |run| == |actions| + 1
  {
    forall i | 0 <= i < |actions| :: Careful(run[i], actions[i])
  }

  predicate Drained(s: State) {
    s.moving == [] && s.queue == [] && s.writes == [] && s.deletes == [] && s.phase.Gather?
  }

  // ------ what every step keeps ------ //

  /** The last operation on a key. */
  function LastOp(ops: seq<Op>, k: Key): Option<Op> {
    if ops == [] then None
    else if KeyOf(ops[|ops| - 1]) == k then Some(ops[|ops| - 1])
    else LastOp(ops[..|ops| - 1], k)
  }

  ghost predicate AgreesWith(index: map<Key, Entry>, k: Key, row: Option<Meta>) {
    row.Some? ==> k in index && index[k] == Build(row.value)
  }

  /** What the database will have for k once the batch is flushed. */
  function Planned(phase: Phase, writes: seq<Meta>, deletes: seq<Key>, db: map<Key, Meta>, k: Key): Option<Meta> {
    if k in deletes then None
    else if !phase.FlushDeletes? && LastWrite(writes, k).Some? then LastWrite(writes, k)
    else if k in db then Some(db[k])
    else None
  }

  /** What it will have once the queue is drained as well. */
  function Drains(s: State, k: Key): Option<Meta> {
    match LastOp(s.queue, k)
    case Some(Write(meta)) => Some(meta)
    case Some(Delete(_)) => None
    case None => Planned(s.phase, s.writes, s.deletes, s.db, k)
  }

  /** Every write on its way says what the index says. */
  ghost predicate MovingOk(s: State) {
    forall i | 0 <= i < |s.moving| && s.moving[i].Write? ::
        AgreesWith(s.index, s.moving[i].meta.key, Some(s.moving[i].meta))
  }

  /** A key with no operation on its way drains to what the index says, or to nothing. */
  ghost predicate KeyOk(s: State, k: Key) { KeyIsFree(s.moving, k) ==> AgreesWith(s.index, k, Drains(s, k)) }

  ghost predicate Inv(s: State) { MovingOk(s) && forall k: Key :: KeyOk(s, k) }

  lemma {:induction false} LastOpAppend(ops: seq<Op>, more: seq<Op>, k: Key)
    ensures LastOp(ops + more, k) == if LastOp(more, k).Some? then LastOp(more, k) else LastOp(ops, k)
    decreases |more|
  {
    if more == [] {
      assert ops + more == ops;
    } else {
      assert (ops + more)[..|ops + more| - 1] == ops + more[..|more| - 1];
      LastOpAppend(ops, more[..|more| - 1], k);
    }
  }

  lemma {:induction false} LastOpOne(op: Op, k: Key)
    ensures LastOp([op], k) == if KeyOf(op) == k then Some(op) else None
  {
    assert [op][..0] == [];
    assert LastOp([], k) == None;
  }

  lemma {:induction false} StartKept(s: State, action: Action)
    requires Inv(s) && Starts(action) && Careful(s, action)
    ensures Inv(Next(s, action))
  {
    var s' := Next(s, action);
    var key := KeyStarted(action);
    assert s'.moving[|s.moving|] == if action.Commit? then Write(action.meta) else Delete(action.key);
    forall k: Key ensures KeyOk(s', k) {
      if k == key {
        assert KeyOf(s'.moving[|s.moving|]) == k;
      } else {
        assert KeyOk(s, k);
        assert KeyIsFree(s'.moving, k) ==> forall i | 0 <= i < |s.moving| :: s.moving[i] == s'.moving[i];
      }
    }
  }

  lemma {:induction false} PutKept(s: State, i: nat)
    requires Inv(s) && i < |s.moving|
    ensures Inv(Next(s, Put(i)))
  {
    var s', op := Next(s, Put(i)), s.moving[i];
    forall k: Key ensures KeyOk(s', k) {
      assert KeyOk(s, k);
      LastOpAppend(s.queue, [op], k);
      LastOpOne(op, k);
      if KeyOf(op) != k && KeyIsFree(s'.moving, k) {
        StillFree(s.moving, i, k);
      }
    }
  }

  lemma {:induction false} StillFree(moving: seq<Op>, i: nat, k: Key)
    requires i < |moving| && KeyOf(moving[i]) != k && KeyIsFree(moving[..i] + moving[i + 1..], k)
    ensures KeyIsFree(moving, k)
  {
    var rest := moving[..i] + moving[i + 1..];
    forall j | 0 <= j < |moving| ensures KeyOf(moving[j]) != k {
      if j < i { assert rest[j] == moving[j]; } else if j > i { assert rest[j - 1] == moving[j]; }
    }
  }

  lemma {:induction false} TakeDrains(s: State, k: Key)
    requires Enabled(s, Take)
    ensures Drains(Next(s, Take), k) == Drains(s, k) || Drains(Next(s, Take), k).None?
  {
    var op, rest := s.queue[0], s.queue[1..];
    assert s.queue == [op] + rest;
    LastOpAppend([op], rest, k);
    LastOpOne(op, k);
    if op.Write? {
      assert (s.writes + [op.meta])[..|s.writes|] == s.writes;
    }
  }

  lemma {:induction false} FlushDrains(s: State, action: Action, k: Key)
    requires Enabled(s, action) && (action.DoWrites? || action.DoDeletes? || action.BeginFlush?)
    ensures Drains(Next(s, action), k) == Drains(s, k)
  {
    InsertedAt(s.db, s.writes, k);
  }

  lemma {:induction false} StepKept(s: State, action: Action)
    requires Inv(s) && Enabled(s, action) && Careful(s, action)
    ensures Inv(Next(s, action))
  {
    match action
    case Commit(_) => StartKept(s, action);
    case Remove(_) => StartKept(s, action);
    case Put(i) => PutKept(s, i);
    case Take =>
      forall k: Key ensures KeyOk(Next(s, action), k) {
        assert KeyOk(s, k);
        TakeDrains(s, k);
      }
    case BeginFlush | DoWrites | DoDeletes =>
      forall k: Key ensures KeyOk(Next(s, action), k) {
        assert KeyOk(s, k);
        FlushDrains(s, action, k);
      }
  }

  lemma {:induction false} RunInv(run: seq<State>, actions: seq<Action>, i: nat)
    requires IsRun(run, actions) && NoOverlap(run, actions) && i < |run|
    ensures Inv(run[i])
  {
    if i > 0 {
      RunInv(run, actions, i - 1);
      StepKept(run[i - 1], actions[i - 1]);
    }
  }

  /**
   * Whatever the order of commits and removes and however they fall into batches, as long as none
   * starts while a write of its key that says something else is on its way to the queue, a drained
   * database is a submap of the index.
   */
  lemma {:induction false} DrainedIsSubmap(run: seq<State>, actions: seq<Action>, i: nat)
    requires IsRun(run, actions) && NoOverlap(run, actions) && i < |run| && Drained(run[i])
    ensures Submap(run[i].db, run[i].index)
  {
    RunInv(run, actions, i);
    var s := run[i];
    forall k | k in s.db ensures k in s.index && s.index[k] == Build(s.db[k]) {
      assert KeyOk(s, k);
    }
  }

  // ------ what a lookup finds ------ //

  /** The last operation on k that was started. */
  function LastStart(actions: seq<Action>, k: Key): Option<Action> {
    if actions == [] then None
    else if Starts(actions[|actions| - 1]) && KeyStarted(actions[|actions| - 1]) == k then Some(actions[|actions| - 1])
    else LastStart(actions[..|actions| - 1], k)
  }

  function Lookup(index: map<Key, Entry>, k: Key): Option<Entry> { if k in index then Some(index[k]) else None }

  lemma {:induction false} StepLookup(s: State, action: Action, k: Key)
    requires Enabled(s, action)
    ensures Lookup(Next(s, action).index, k) ==
            if Starts(action) && KeyStarted(action) == k
            then (if action.Commit? then Some(Build(action.meta)) else None)
            else Lookup(s.index, k)
  {}

  /**
   * Whatever the database thread does, a lookup finds what the last operation on the key left, or
   * what was preloaded.
   */
  lemma {:induction false} LookupSeesLastStart(run: seq<State>, actions: seq<Action>, i: nat, k: Key)
    requires IsRun(run, actions) && i < |run|
    ensures Lookup(run[i].index, k) ==
            match LastStart(actions[..i], k)
            case Some(action) => if action.Commit? then Some(Build(action.meta)) else None
            case None => Lookup(run[0].index, k)
  {
    if i > 0 {
      LookupSeesLastStart(run, actions, i - 1, k);
      assert actions[..i][..i - 1] == actions[..i - 1];
      StepLookup(run[i - 1], actions[i - 1], k);
    }
  }

  // ------ nothing is lost but what was removed ------ //

  predicate NoDelete(ops: seq<Op>, k: Key) { forall i | 0 <= i < |ops| :: ops[i] != Delete(k) }

  /** Nothing on the way removes k, and if the index has it the database will. */
  ghost predicate Kept(s: State, k: Key) {
    && NoDelete(s.queue, k) && NoDelete(s.moving, k) && k !in s.deletes
    && (k in s.index && KeyIsFree(s.moving, k) ==> Drains(s, k).Some?)
  }

  lemma {:induction false} StartKeeps(s: State, action: Action, k: Key)
    requires Kept(s, k) && Starts(action) && action != Remove(k)
    ensures Kept(Next(s, action), k)
  {
    var s' := Next(s, action);
    assert s'.moving[|s.moving|] == if action.Commit? then Write(action.meta) else Delete(action.key);
    assert forall i | 0 <= i < |s.moving| :: s.moving[i] == s'.moving[i];
    if k == KeyStarted(action) { assert KeyOf(s'.moving[|s.moving|]) == k; }
  }

  lemma {:induction false} PutKeeps(s: State, i: nat, k: Key)
    requires Kept(s, k) && i < |s.moving|
    ensures Kept(Next(s, Put(i)), k)
  {
    var op := s.moving[i];
    LastOpAppend(s.queue, [op], k);
    LastOpOne(op, k);
    if KeyOf(op) != k && KeyIsFree(Next(s, Put(i)).moving, k) { StillFree(s.moving, i, k); }
  }

  lemma {:induction false} TakeKeeps(s: State, k: Key)
    requires Kept(s, k) && Enabled(s, Take)
    ensures Kept(Next(s, Take), k)
  {
    var op, rest := s.queue[0], s.queue[1..];
    assert s.queue == [op] + rest;
    LastOpAppend([op], rest, k);
    LastOpOne(op, k);
    if op.Write? {
      assert (s.writes + [op.meta])[..|s.writes|] == s.writes;
    }
  }

  lemma {:induction false} StepKeeps(s: State, action: Action, k: Key)
    requires Kept(s, k) && Enabled(s, action) && action != Remove(k)
    ensures Kept(Next(s, action), k)
  {
    match action
    case Commit(_) => StartKeeps(s, action, k);
    case Remove(_) => StartKeeps(s, action, k);
    case Put(i) => PutKeeps(s, i, k);
    case Take => TakeKeeps(s, k);
    case BeginFlush | DoWrites | DoDeletes => FlushDrains(s, action, k);
  }

  lemma {:induction false} RunKeeps(run: seq<State>, actions: seq<Action>, i: nat, k: Key)
    requires IsRun(run, actions) && i < |run| && forall j | 0 <= j < i :: actions[j] != Remove(k)
    ensures Kept(run[i], k)
  {
    if i > 0 {
      RunKeeps(run, actions, i - 1, k);
      StepKeeps(run[i - 1], actions[i - 1], k);
    }
  }

  /**
   * An entry that nobody removed is in every drained database, and there just as in the index if
   * its commits did not overlap.
   */
  lemma {:induction false} NeverRemovedIsKept(run: seq<State>, actions: seq<Action>, i: nat, k: Key)
    requires IsRun(run, actions) && i < |run| && Drained(run[i])
    requires forall j | 0 <= j < i :: actions[j] != Remove(k)
    ensures k in run[i].index ==> k in run[i].db
    ensures NoOverlap(run, actions) && k in run[i].db ==> k in run[i].index && run[i].index[k] == Build(run[i].db[k])
  {
    RunKeeps(run, actions, i, k);
    if NoOverlap(run, actions) { DrainedIsSubmap(run, actions, i); }
  }

  // ------ and where the order of the code does not protect the rows ------ //

  ghost predicate Reaches(s: State, actions: seq<Action>, s': State)
    decreases |actions|
  {
    if actions == [] then s == s'
    else Enabled(s, actions[0]) && Reaches(Next(s, actions[0]), actions[1..], s')
  }

  /** Nothing new is started. */
  predicate OnlyDrains(actions: seq<Action>) { forall i | 0 <= i < |actions| :: !Starts(actions[i]) }

  /** Whatever the order in which what is on its way is drained, it drains to a submap of the index. */
  ghost predicate DrainsWell(s: State) {
    forall actions, s' :: Reaches(s, actions, s') && OnlyDrains(actions) && Drained(s') ==> Submap(s'.db, s'.index)
  }

  lemma {:induction false} InvSubmap(s: State)
    requires Inv(s) && Drained(s)
    ensures Submap(s.db, s.index)
  {
    forall k | k in s.db ensures k in s.index && s.index[k] == Build(s.db[k]) { assert KeyOk(s, k); }
  }

  lemma {:induction false} DrainingKeeps(s: State, actions: seq<Action>, s': State)
    requires Inv(s) && Reaches(s, actions, s') && OnlyDrains(actions)
    ensures Inv(s')
    decreases |actions|
  {
    if actions != [] {
      StepKept(s, actions[0]);
      DrainingKeeps(Next(s, actions[0]), actions[1..], s');
    }
  }

  lemma {:induction false} Then(s: State, actions: seq<Action>, s': State, action: Action)
      returns (more: seq<Action>, s'': State)
    requires Reaches(s, actions, s') && OnlyDrains(actions) && Enabled(s', action) && !Starts(action)
    ensures Reaches(s, more, s'') && OnlyDrains(more) && s'' == Next(s', action)
  {
    more, s'' := actions + [action], Next(s', action);
    OneMore(s, actions, s', action);
  }

  lemma {:induction false} OneMore(s: State, actions: seq<Action>, s': State, action: Action)
    requires Reaches(s, actions, s') && Enabled(s', action)
    ensures Reaches(s, actions + [action], Next(s', action))
    decreases |actions|
  {
    if actions == [] {
      assert actions + [action] == [action];
      assert [action][1..] == [];
    } else {
      assert (actions + [action])[1..] == actions[1..] + [action];
      OneMore(Next(s, actions[0]), actions[1..], s', action);
    }
  }

  /** The batch at hand is flushed. */
  lemma {:induction false} FlushBatch(s0: State, actions: seq<Action>, s: State) returns (more: seq<Action>, s': State)
    requires Reaches(s0, actions, s) && OnlyDrains(actions)
    ensures Reaches(s0, more, s') && OnlyDrains(more)
    ensures s' == s.(phase := Gather, writes := [], deletes := [], db := s'.db)
    ensures s.phase.Gather? ==> s'.db == Removed(Inserted(s.db, s.writes), s.deletes)
  {
    more, s' := actions, s;
    if s.phase.Gather? && s.writes == [] && s.deletes == [] {
      assert Removed(Inserted(s.db, s.writes), s.deletes) == s.db;
      return;
    }
    if s'.phase.Gather? { more, s' := Then(s0, more, s', BeginFlush); }
    if s'.phase.FlushWrites? { more, s' := Then(s0, more, s', DoWrites); }
    more, s' := Then(s0, more, s', DoDeletes);
  }

  /** The queue is taken to its end. */
  lemma {:induction false} TakeAll(s0: State, actions: seq<Action>, s: State) returns (more: seq<Action>, s': State)
    requires Reaches(s0, actions, s) && OnlyDrains(actions) && s.phase.Gather?
    ensures Reaches(s0, more, s') && OnlyDrains(more)
    ensures s' == s.(queue := [], writes := s'.writes, deletes := s'.deletes)
    decreases |s.queue|
  {
    more, s' := actions, s;
    if s.queue != [] {
      more, s' := Then(s0, actions, s, Take);
      more, s' := TakeAll(s0, more, s');
    }
  }

  /** Every operation on its way but the i-th reaches the queue. */
  lemma {:induction false} PutOthers(s0: State, actions: seq<Action>, s: State, i: nat)
      returns (more: seq<Action>, s': State)
    requires Reaches(s0, actions, s) && OnlyDrains(actions) && i < |s.moving|
    ensures Reaches(s0, more, s') && OnlyDrains(more)
    ensures s' == s.(moving := [s.moving[i]], queue := s'.queue)
    decreases |s.moving|
  {
    more, s' := actions, s;
    if |s.moving| > 1 {
      var j := if i == 0 then 1 else 0;
      more, s' := Then(s0, actions, s, Put(j));
      more, s' := PutOthers(s0, more, s', if i == 0 then 0 else i - 1);
    }
  }

  /** All but one write on its way drains, then that write: its row is what is left of its key. */
  lemma {:induction false} DrainLast(s: State, i: nat) returns (actions: seq<Action>, s': State)
    requires i < |s.moving| && s.moving[i].Write?
    ensures Reaches(s, actions, s') && OnlyDrains(actions) && Drained(s') && s'.index == s.index
    ensures var m := s.moving[i].meta; m.key in s'.db && s'.db[m.key] == m
  {
    var m := s.moving[i].meta;
    actions, s' := PutOthers(s, [], s, i);
    actions, s' := FlushBatch(s, actions, s');
    actions, s' := TakeAll(s, actions, s');
    actions, s' := FlushBatch(s, actions, s');
    actions, s' := Then(s, actions, s', Put(0));
    assert s'.queue == [Write(m)] && s'.moving == [];
    actions, s' := Then(s, actions, s', Take);
    assert s'.writes == [m] && s'.queue == [] && s'.deletes == [];
    InsertedAppend(s'.db, [], m);
    assert [] + [m] == [m];
    actions, s' := FlushBatch(s, actions, s');
  }

  /**
   * From every state: an operation that starts while a write of its key that says something else is on
   * its way can be overtaken by it, and the database drains to a row that the index does not have.
   */
  lemma {:induction false} OverlapBringsBack(s: State, action: Action, i: nat) returns (actions: seq<Action>, s': State)
    requires Starts(action) && i < |s.moving| && s.moving[i].Write? && s.moving[i].meta.key == KeyStarted(action)
    requires !SaysTheSame(action, s.moving[i].meta)
    ensures Reaches(Next(s, action), actions, s') && OnlyDrains(actions) && Drained(s') && !Submap(s'.db, s'.index)
  {
    var started := Next(s, action);
    assert started.moving[i] == s.moving[i];
    actions, s' := DrainLast(started, i);
    assert KeyStarted(action) in s'.db;
  }

  /** So a start is safe, however what is then on its way is drained, if and only if it is careful. */
  lemma {:induction false} CarefulIff(run: seq<State>, actions: seq<Action>, action: Action)
    requires IsRun(run, actions) && NoOverlap(run, actions) && Starts(action)
    ensures Careful(run[|actions|], action) <==> DrainsWell(Next(run[|actions|], action))
  {
    var s := run[|actions|];
    RunInv(run, actions, |actions|);
    if Careful(s, action) {
      StepKept(s, action);
      forall more, s' | Reaches(Next(s, action), more, s') && OnlyDrains(more) && Drained(s')
        ensures Submap(s'.db, s'.index)
      {
        DrainingKeeps(Next(s, action), more, s');
        InvSubmap(s');
      }
    } else {
      var i :| 0 <= i < |s.moving| && s.moving[i].Write?
        && s.moving[i].meta.key == KeyStarted(action) && !SaysTheSame(action, s.moving[i].meta);
      var more, s' := OverlapBringsBack(s, action, i);
    }
  }

  function Empty(): State { State(map[], [], [], Gather, [], [], map[]) }

  lemma {:induction false} Extend(run: seq<State>, actions: seq<Action>, action: Action)
      returns (run': seq<State>, actions': seq<Action>)
    requires IsRun(run, actions) && NoOverlap(run, actions) && Enabled(run[|actions|], action)
    requires Careful(run[|actions|], action)
    ensures IsRun(run', actions') && NoOverlap(run', actions') && run'[|actions'|] == Next(run[|actions|], action)
  {
    run', actions' := run + [Next(run[|actions|], action)], actions + [action];
    StillNoOverlap(run, actions, action);
  }

  lemma {:induction false} StillNoOverlap(run: seq<State>, actions: seq<Action>, action: Action)
    requires |run| == |actions| + 1 && NoOverlap(run, actions) && Enabled(run[|actions|], action)
    requires Careful(run[|actions|], action)
    ensures NoOverlap(run + [Next(run[|actions|], action)], actions + [action])
  {
    var run', actions' := run + [Next(run[|actions|], action)], actions + [action];
    forall i | 0 <= i < |actions'| ensures Careful(run'[i], actions'[i]) {
      assert i < |actions| ==> run'[i] == run[i] && actions'[i] == actions[i];
    }
  }

  /** A removed key, then committed again, both in the queue. */
  lemma {:induction false} RemovedAndCommitted(m: Meta) returns (run: seq<State>, actions: seq<Action>)
    ensures IsRun(run, actions) && NoOverlap(run, actions)
    ensures run[|actions|] == State(map[m.key := Build(m)], [], [Delete(m.key), Write(m)], Gather, [], [], map[])
  {
    run, actions := [Empty()], [];
    run, actions := Extend(run, actions, Remove(m.key));
    assert run[|actions|] == State(map[], [Delete(m.key)], [], Gather, [], [], map[]);
    run, actions := Extend(run, actions, Put(0));
    assert run[|actions|] == State(map[], [], [Delete(m.key)], Gather, [], [], map[]);
    run, actions := Extend(run, actions, Commit(m));
    run, actions := Extend(run, actions, Put(0));
  }

  /** A remove and a later commit of the same key in one batch leave no row: the submap can be a proper one. */
  lemma {:induction false} RecommitInOneBatchIsLost(m: Meta) returns (run: seq<State>, actions: seq<Action>)
    ensures IsRun(run, actions) && NoOverlap(run, actions) && Drained(run[|actions|])
    ensures m.key !in run[|actions|].db && m.key in run[|actions|].index
  {
    run, actions := RemovedAndCommitted(m);
    run, actions := Extend(run, actions, Take);
    run, actions := Extend(run, actions, Take);
    assert run[|actions|].deletes == [m.key] && run[|actions|].queue == [];
    run, actions := Extend(run, actions, BeginFlush);
    run, actions := Extend(run, actions, DoWrites);
    run, actions := Extend(run, actions, DoDeletes);
  }
}
