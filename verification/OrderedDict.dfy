/** A dictionary that keeps the order its keys came in, as Python's does. */
module OrderedDict {
  import opened Prelude

  function Lookup<V>(dict: seq<(string, V)>, k: string): Option<V> {
    if dict == [] then None else if dict[0].0 == k then Some(dict[0].1) else Lookup(dict[1..], k)
  }

  /** dict[k] = v: a key keeps its place. */
  function Put<V>(dict: seq<(string, V)>, k: string, v: V): seq<(string, V)> {
    if dict == [] then [(k, v)]
    else if dict[0].0 == k then [(k, v)] + dict[1..]
    else [dict[0]] + Put(dict[1..], k, v)
  }

  /** dict.pop(k, None) */
  function Drop<V>(dict: seq<(string, V)>, k: string): seq<(string, V)> {
    if dict == [] then []
    else if dict[0].0 == k then Drop(dict[1..], k)
    else [dict[0]] + Drop(dict[1..], k)
  }

  /** dict.update(more) */
  function PutAll<V>(dict: seq<(string, V)>, more: seq<(string, V)>): seq<(string, V)>
    decreases |more|
  {
    if more == [] then dict else PutAll(Put(dict, more[0].0, more[0].1), more[1..])
  }

  /** No key twice. */
  predicate Distinct<V>(dict: seq<(string, V)>) {
    dict == [] || (Lookup(dict[1..], dict[0].0).None? && Distinct(dict[1..]))
  }

  lemma {:induction false} LookupPut<V>(dict: seq<(string, V)>, k: string, v: V, q: string)
    ensures Lookup(Put(dict, k, v), q) == if q == k then Some(v) else Lookup(dict, q)
  {
    if dict != [] && dict[0].0 != k { LookupPut(dict[1..], k, v, q); }
  }

  lemma {:induction false} LookupDrop<V>(dict: seq<(string, V)>, k: string, q: string)
    ensures Lookup(Drop(dict, k), q) == if q == k then None else Lookup(dict, q)
  {
    if dict != [] { LookupDrop(dict[1..], k, q); }
  }

  lemma {:induction false} PutSame<V>(dict: seq<(string, V)>, k: string, v: V)
    requires Lookup(dict, k) == Some(v)
    ensures Put(dict, k, v) == dict
  {
    if dict[0].0 == k {
      assert [(k, v)] + dict[1..] == dict;
    } else {
      PutSame(dict[1..], k, v);
    }
  }

  lemma {:induction false} PutNew<V>(dict: seq<(string, V)>, k: string, v: V)
    requires Lookup(dict, k).None?
    ensures Put(dict, k, v) == dict + [(k, v)]
  {
    if dict != [] {
      PutNew(dict[1..], k, v);
      assert [dict[0]] + (dict[1..] + [(k, v)]) == dict + [(k, v)];
    }
  }

  lemma {:induction false} DropNone<V>(dict: seq<(string, V)>, k: string)
    requires Lookup(dict, k).None?
    ensures Drop(dict, k) == dict
  {
    if dict != [] { DropNone(dict[1..], k); }
  }

  lemma {:induction false} PutDistinct<V>(dict: seq<(string, V)>, k: string, v: V)
    requires Distinct(dict)
    ensures Distinct(Put(dict, k, v))
  {
    if dict != [] && dict[0].0 != k {
      PutDistinct(dict[1..], k, v);
      LookupPut(dict[1..], k, v, dict[0].0);
    }
  }

  lemma {:induction false} LookupNoneAt<V>(dict: seq<(string, V)>, k: string, i: nat)
    requires Lookup(dict, k).None? && i < |dict|
    ensures dict[i].0 != k
  {
    if i > 0 { LookupNoneAt(dict[1..], k, i - 1); }
  }

  lemma {:induction false} DistinctAt<V>(dict: seq<(string, V)>, n: nat)
    requires Distinct(dict) && n < |dict|
    ensures Lookup(dict[..n], dict[n].0).None? && Lookup(dict, dict[n].0) == Some(dict[n].1)
  {
    if n > 0 {
      DistinctAt(dict[1..], n - 1);
      LookupNoneAt(dict[1..], dict[0].0, n - 1);
      assert dict[..n][1..] == dict[1..][..n - 1];
    }
  }

  lemma {:induction false} LookupPutAll<V>(dict: seq<(string, V)>, more: seq<(string, V)>, q: string)
    requires Distinct(more)
    ensures Lookup(PutAll(dict, more), q) == if Lookup(more, q).Some? then Lookup(more, q) else Lookup(dict, q)
    decreases |more|
  {
    if more != [] {
      LookupPut(dict, more[0].0, more[0].1, q);
      LookupPutAll(Put(dict, more[0].0, more[0].1), more[1..], q);
    }
  }

  lemma {:induction false} PutAllSame<V>(dict: seq<(string, V)>, more: seq<(string, V)>)
    requires forall i | 0 <= i < |more| :: Lookup(dict, more[i].0) == Some(more[i].1)
    ensures PutAll(dict, more) == dict
    decreases |more|
  {
    if more != [] {
      PutSame(dict, more[0].0, more[0].1);
      PutAllSame(dict, more[1..]);
    }
  }

  lemma {:induction false} PutAllDistinct<V>(dict: seq<(string, V)>, more: seq<(string, V)>)
    requires Distinct(dict)
    ensures Distinct(PutAll(dict, more))
    decreases |more|
  {
    if more != [] {
      PutDistinct(dict, more[0].0, more[0].1);
      PutAllDistinct(Put(dict, more[0].0, more[0].1), more[1..]);
    }
  }

  lemma {:induction false} NotAmong<V>(dict: seq<(string, V)>, k: string, n: nat)
    requires n <= |dict| && forall i | n <= i < |dict| :: dict[i].0 != k
    ensures Lookup(dict[n..], k).None?
    decreases |dict| - n
  {
    if n < |dict| {
      NotAmong(dict, k, n + 1);
      assert dict[n..][1..] == dict[n + 1..];
    }
  }
}
