/** Small types and facts shared by the other modules. */
module Prelude {

  datatype Option<+T> = None | Some(value: T)

  type Byte = b: int | 0 <= b < 256
  type Bytes = seq<Byte>

  /** All sequences of a sequence of sequences, one after the other. */
  function Flatten<T>(parts: seq<seq<T>>): seq<T> {
    if parts == [] then [] else parts[0] + Flatten(parts[1..])
  }

  lemma {:induction false} FlattenAppend<T>(parts: seq<seq<T>>, last: seq<T>)
    ensures Flatten(parts + [last]) == Flatten(parts) + last
  {
    if parts == [] {
      assert [last][1..] == [];
      assert parts + [last] == [last];
    } else {
      assert (parts + [last])[1..] == parts[1..] + [last];
      FlattenAppend(parts[1..], last);
    }
  }

  lemma {:induction false} TakeOneMore<T>(s: seq<T>, n: nat)
    requires n < |s|
    ensures s[..n + 1] == s[..n] + [s[n]]
  {}

  /** An injection from one finite set into another bounds the first by the second. */
  lemma {:induction false} InjectionBound(xs: set<nat>, ys: set<nat>, f: map<nat, nat>)
    requires forall x | x in xs :: x in f && f[x] in ys
    requires forall x, x' | x in xs && x' in xs && f[x] == f[x'] :: x == x'
    ensures |xs| <= |ys|
  {
    if xs != {} {
      var x :| x in xs;
      InjectionBound(xs - {x}, ys - {f[x]}, f);
    }
  }

  /** A set of numbers below n has n of them if and only if it holds every one. */
  lemma {:induction false} FullBelow(xs: set<nat>, n: nat)
    requires forall x | x in xs :: x < n
    ensures |xs| <= n
    ensures |xs| == n <==> forall i | 0 <= i < n :: i in xs
    decreases n
  {
    if n > 0 {
      var rest := xs - {n - 1};
      FullBelow(rest, n - 1);
      assert forall i | 0 <= i < n - 1 :: i in xs <==> i in rest;
      if n - 1 in xs {
        assert |xs| == |rest| + 1;
      } else {
        assert rest == xs;
      }
    } else {
      assert xs == {};
    }
  }
}
