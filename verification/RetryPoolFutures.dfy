/**
 * What holds of the futures of the retrying thread pool, their store and the permits they hold, as
 * one of them moves on or a new one is added.
 */
module RetryPoolFutures {
  import opened RetryPool

  type Futures = seq<Attempt>

  /** Every item is one chain of attempts: all but the last failed, were stored and are over. */
  predicate Chained(fs: Futures, tip: seq<nat>) {
    && (forall i | 0 <= i < |tip| :: tip[i] < |fs| && fs[tip[i]].item == i)
    && (forall a | 0 <= a < |fs| ::
          && fs[a].item < |tip| && a <= tip[fs[a].item]
          && (a != tip[fs[a].item] ==> fs[a].phase.Over? && !fs[a].ok && fs[a].stored))
  }

  /** What the phase of a future says about it. */
  predicate Sound(f: Attempt, last: bool, shut: bool) {
    match f.phase
    case Queued | Running => !f.ok && !f.stored
    case Done | Live => !f.stored
    case Stored => f.stored
    case Entry | Retry | Record | Abort | Aborted => f.stored && !f.ok
    case Dropped => !f.stored && shut
    case Release => (f.stored && f.ok) || shut
    case Over => (f.stored && (last ==> f.ok)) || shut
  }

  predicate AllSound(fs: Futures, tip: seq<nat>, shut: bool)
    requires Chained(fs, tip)
  {
    forall a | 0 <= a < |fs| :: Sound(fs[a], a == tip[fs[a].item], shut)
  }

  /** The attempts that keep a permit of the semaphore. */
  function Holders(fs: Futures): set<nat> {
    set a: nat | a < |fs| && !fs[a].phase.Over?
  }

  /** Attempts whose retry was counted and granted but not submitted yet. */
  function Granted(fs: Futures): set<nat> {
    set a: nat | a < |fs| && Grants(fs[a].phase)
  }

  /**
   * `h` lists stored futures without repetition, the attempts of one item in their order;
   * `all` says that no stored future is missing.
   */
  predicate Stores(fs: Futures, h: seq<nat>, all: bool) {
    && (forall p | 0 <= p < |h| :: h[p] < |fs| && fs[h[p]].stored)
    && (forall p, q | 0 <= p < q < |h| :: h[p] != h[q])
    && (forall p, q | 0 <= p < q < |h| && fs[h[p]].item == fs[h[q]].item :: h[p] < h[q])
    && (all ==> forall a | 0 <= a < |fs| && fs[a].stored :: a in h)
  }

  /** Items whose success is in `yielded`. */
  function DoneItems(fs: Futures, tip: seq<nat>, yielded: seq<nat>): set<nat>
    requires Chained(fs, tip)
  {
    set i: nat | i < |tip| && fs[tip[i]].ok && tip[i] in yielded
  }

  predicate AnyAborts(fs: Futures) {
    exists a :: 0 <= a < |fs| && fs[a].phase.Abort?
  }

  predicate AnyAborted(fs: Futures) {
    exists a :: 0 <= a < |fs| && fs[a].phase.Aborted?
  }

  /** Who asked for a shutdown left a thread in _rtm_shutdown, unless it has already happened. */
  predicate Requested(s: State) {
    AnyAborted(s.attempts) || (s.dispatcher.Exited? && s.total == 0) ==> s.lock.Held? || s.Shut()
  }

  // one future changes

  lemma {:induction false} UpdateChained(fs: Futures, tip: seq<nat>, shut: bool, a: nat, f: Attempt)
    requires Chained(fs, tip) && AllSound(fs, tip, shut)
    requires a < |fs| && !fs[a].phase.Over? && f.item == fs[a].item && Sound(f, true, shut)
    ensures Chained(fs[a := f], tip) && AllSound(fs[a := f], tip, shut)
  {
  }

  lemma {:induction false} UpdateHolders(fs: Futures, a: nat, f: Attempt)
    requires a < |fs| && !fs[a].phase.Over?
    ensures |Holders(fs[a := f])| == |Holders(fs)| - if f.phase.Over? then 1 else 0
  {
    if f.phase.Over? {
      assert Holders(fs[a := f]) == Holders(fs) - {a};
    } else {
      assert Holders(fs[a := f]) == Holders(fs);
    }
  }

  predicate Grants(p: Phase) { p.Entry? || p.Retry? }

  lemma {:induction false} UpdateGranted(fs: Futures, a: nat, f: Attempt)
    requires a < |fs|
    ensures |Granted(fs[a := f])| == |Granted(fs)|
            - (if Grants(fs[a].phase) then 1 else 0) + (if Grants(f.phase) then 1 else 0)
  {
    if Grants(f.phase) && !Grants(fs[a].phase) {
      assert Granted(fs[a := f]) == Granted(fs) + {a};
    } else if !Grants(f.phase) && Grants(fs[a].phase) {
      assert Granted(fs[a := f]) == Granted(fs) - {a};
    } else {
      assert Granted(fs[a := f]) == Granted(fs);
    }
  }

  lemma {:induction false} UpdateStores(fs: Futures, h: seq<nat>, all: bool, a: nat, f: Attempt)
    requires Stores(fs, h, all) && a < |fs| && f.item == fs[a].item && f.stored == fs[a].stored
    ensures Stores(fs[a := f], h, all)
  {
  }

  lemma {:induction false} StoreOne(fs: Futures, tip: seq<nat>, h: seq<nat>, all: bool, a: nat, f: Attempt)
    requires Chained(fs, tip) && Stores(fs, h, all)
    requires a < |fs| && !fs[a].phase.Over? && !fs[a].stored && f.item == fs[a].item && f.stored
    ensures Stores(fs[a := f], h + [a], all)
  {
    var fs', h' := fs[a := f], h + [a];
    assert tip[fs[a].item] == a;
    forall p | 0 <= p < |h| ensures h[p] != a && (fs[h[p]].item == fs[a].item ==> h[p] < a) {}
    if all {
      forall b | 0 <= b < |fs'| && fs'[b].stored ensures b in h' {
        if b != a { assert b in h; } else { assert h'[|h|] == a; }
      }
    }
  }

  lemma {:induction false} UpdateDone(fs: Futures, tip: seq<nat>, yielded: seq<nat>, a: nat, f: Attempt)
    requires Chained(fs, tip) && a < |fs| && Chained(fs[a := f], tip)
    requires f.ok == fs[a].ok || a !in yielded
    ensures DoneItems(fs[a := f], tip, yielded) == DoneItems(fs, tip, yielded)
  {
  }

  // a future is added

  lemma {:induction false} AppendItem(fs: Futures, tip: seq<nat>, shut: bool, f: Attempt)
    requires Chained(fs, tip) && AllSound(fs, tip, shut) && f.item == |tip| && f.phase.Queued? && !f.ok && !f.stored
    ensures Chained(fs + [f], tip + [|fs|]) && AllSound(fs + [f], tip + [|fs|], shut)
  {
  }

  lemma {:induction false} AppendRetry(fs: Futures, tip: seq<nat>, shut: bool, a: nat, f: Attempt)
    requires Chained(fs, tip) && AllSound(fs, tip, shut) && a < |fs| && fs[a].phase.Retry?
    requires f.item == fs[a].item && f.phase.Queued? && !f.ok && !f.stored
    ensures var fs' := fs[a := fs[a].(phase := Over)] + [f]; var tip' := tip[f.item := |fs|];
            Chained(fs', tip') && AllSound(fs', tip', shut)
  {
    var fs', tip' := fs[a := fs[a].(phase := Over)] + [f], tip[f.item := |fs|];
    forall b | 0 <= b < |fs'|
      ensures fs'[b].item < |tip'| && b <= tip'[fs'[b].item]
      ensures b != tip'[fs'[b].item] ==> fs'[b].phase.Over? && !fs'[b].ok && fs'[b].stored
    {
    }
  }

  lemma {:induction false} AppendSets(fs: Futures, f: Attempt)
    requires f.phase.Queued?
    ensures |Holders(fs + [f])| == |Holders(fs)| + 1 && Granted(fs + [f]) == Granted(fs)
  {
    assert Holders(fs + [f]) == Holders(fs) + {|fs|};
  }

  lemma {:induction false} AppendStores(fs: Futures, h: seq<nat>, all: bool, f: Attempt)
    requires Stores(fs, h, all) && !f.stored
    ensures Stores(fs + [f], h, all)
  {
  }

  lemma {:induction false} AppendDone(
      fs: Futures, tip: seq<nat>, fs': Futures, tip': seq<nat>, yielded: seq<nat>, item: nat)
    requires Chained(fs, tip) && Chained(fs', tip') && |tip| <= |tip'| && item < |tip'| && |fs| <= |fs'|
    requires forall a | 0 <= a < |fs| :: fs'[a].ok == fs[a].ok
    requires forall i | 0 <= i < |tip'| && i != item :: i < |tip| && tip'[i] == tip[i]
    requires !fs'[tip'[item]].ok && (item < |tip| ==> !fs[tip[item]].ok)
    ensures DoneItems(fs', tip', yielded) == DoneItems(fs, tip, yielded)
  {
  }
}
