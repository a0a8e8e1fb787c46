/**
 * What the per-entry retry tracker of the pool counts (src/otaclient_common/retry_task_map.py,
 * _RetryOnEntryTracker): it remembers a bounded number of entries and forgets the one registered
 * longest ago, so its counts are the true ones only while an entry is not crowded out.
 */
module RetryTracker {
  import opened RetryPool

  type Register = seq<(nat, nat)>

  function RegisterAll(log: seq<nat>, max: nat): Register {
    if log == [] then [] else RetryPool.Register(RegisterAll(log[..|log| - 1], max), max, log[|log| - 1]).0
  }

  // ------ the truth about a log of registrations ------ //

  function Times(log: seq<nat>, id: nat): nat {
    if log == [] then 0 else Times(log[..|log| - 1], id) + if log[|log| - 1] == id then 1 else 0
  }

  /** The entries registered since the last registration of id. */
  function Since(log: seq<nat>, id: nat): set<nat> {
    if log == [] || log[|log| - 1] == id then {} else Since(log[..|log| - 1], id) + {log[|log| - 1]}
  }

  /** At no time since its first registration were `max` other entries registered in a row without it. */
  predicate NeverCrowded(log: seq<nat>, id: nat, max: nat) {
    log == [] || (NeverCrowded(log[..|log| - 1], id, max) && (Times(log, id) > 0 ==> |Since(log, id)| < max))
  }

  // ------ the register ------ //

  function Keys(reg: Register): set<nat> { if reg == [] then {} else {reg[0].0} + Keys(reg[1..]) }

  predicate Distinct(reg: Register) { reg == [] || (reg[0].0 !in Keys(reg[1..]) && Distinct(reg[1..])) }

  /** The entries registered after id, as the register has them. */
  function Behind(reg: Register, id: nat): set<nat> {
    if reg == [] then {} else if reg[0].0 == id then Keys(reg[1..]) else Behind(reg[1..], id)
  }

  lemma {:induction false} KeysSize(reg: Register)
    requires Distinct(reg)
    ensures |Keys(reg)| == |reg|
  {
    if reg != [] {
      KeysSize(reg[1..]);
      assert |{reg[0].0} + Keys(reg[1..])| == 1 + |Keys(reg[1..])|;
    }
  }

  lemma {:induction false} BehindIsSmall(reg: Register, id: nat)
    requires Distinct(reg) && id in Keys(reg)
    ensures Behind(reg, id) <= Keys(reg) - {id}
    ensures |Behind(reg, id)| < |reg|
  {
    KeysSize(reg);
    if reg[0].0 == id {
      KeysSize(reg[1..]);
    } else {
      BehindIsSmall(reg[1..], id);
    }
  }

  lemma {:induction false} NoneCounted(reg: Register, id: nat)
    requires id !in Keys(reg)
    ensures CountOf(reg, id) == 0
  {
    if reg != [] { NoneCounted(reg[1..], id); }
  }

  lemma {:induction false} WithoutIs(reg: Register, x: nat, id: nat)
    requires Distinct(reg)
    ensures Distinct(Without(reg, x)) && Keys(Without(reg, x)) == Keys(reg) - {x}
    ensures id != x ==> CountOf(Without(reg, x), id) == CountOf(reg, id)
    ensures id != x ==> Behind(Without(reg, x), id) == Behind(reg, id) - {x}
  {
    if reg != [] {
      WithoutIs(reg[1..], x, id);
      var rest := Without(reg[1..], x);
      if reg[0].0 != x {
        assert ([reg[0]] + rest)[1..] == rest;
      }
    }
  }

  lemma {:induction false} AppendIs(reg: Register, x: nat, n: nat, id: nat)
    requires Distinct(reg) && x !in Keys(reg)
    ensures Distinct(reg + [(x, n)]) && Keys(reg + [(x, n)]) == Keys(reg) + {x}
    ensures CountOf(reg + [(x, n)], x) == n && Behind(reg + [(x, n)], x) == {}
    ensures id != x ==> CountOf(reg + [(x, n)], id) == CountOf(reg, id)
    ensures id in Keys(reg) ==> Behind(reg + [(x, n)], id) == Behind(reg, id) + {x}
  {
    var all := reg + [(x, n)];
    if reg == [] {
      assert all[1..] == [];
    } else {
      AppendIs(reg[1..], x, n, id);
      assert all[1..] == reg[1..] + [(x, n)];
    }
  }

  // ------ what every registration keeps ------ //

  ghost predicate EntryOk(log: seq<nat>, max: nat, reg: Register, id: nat) {
    && (id in Keys(reg) <==> Times(log, id) > 0 && |Since(log, id)| < max)
    && (id in Keys(reg) ==> Behind(reg, id) == Since(log, id))
    && CountOf(reg, id) <= Times(log, id)
    && (CountOf(reg, id) == Times(log, id) <==> NeverCrowded(log, id, max))
  }

  ghost predicate TrackerOk(log: seq<nat>, max: nat, reg: Register) {
    Distinct(reg) && |reg| <= max && forall id: nat :: EntryOk(log, max, reg, id)
  }

  lemma {:induction false} SinceOneMore(log: seq<nat>, x: nat, id: nat)
    ensures Times(log + [x], id) == Times(log, id) + if x == id then 1 else 0
    ensures Since(log + [x], id) == if x == id then {} else Since(log, id) + {x}
    ensures |Since(log, id)| <= |Since(log, id) + {x}|
  {
    assert (log + [x])[..|log|] == log;
    if x !in Since(log, id) {
      assert |Since(log, id) + {x}| == |Since(log, id)| + 1;
    } else {
      assert Since(log, id) + {x} == Since(log, id);
    }
  }

  lemma {:induction false} CrowdedOneMore(log: seq<nat>, x: nat, id: nat, max: nat)
    ensures NeverCrowded(log + [x], id, max) <==>
            NeverCrowded(log, id, max) && (Times(log + [x], id) > 0 ==> |Since(log + [x], id)| < max)
  {
    assert (log + [x])[..|log|] == log;
  }

  /** The entry moved to the end, before the one registered longest ago is dropped. */
  function Moved(reg: Register, x: nat): Register { Without(reg, x) + [(x, CountOf(reg, x) + 1)] }

  ghost predicate MovedOk(log: seq<nat>, max: nat, moved: Register, id: nat) {
    && (id in Keys(moved) ==> Times(log, id) > 0 && Behind(moved, id) == Since(log, id))
    && (id !in Keys(moved) && Times(log, id) > 0 ==> |Since(log, id)| >= max)
    && CountOf(moved, id) <= Times(log, id)
  }

  lemma {:induction false} MovedShape(reg: Register, x: nat, id: nat)
    requires Distinct(reg)
    ensures Distinct(Moved(reg, x)) && |Moved(reg, x)| <= |reg| + 1
    ensures Keys(Moved(reg, x)) == Keys(reg) + {x}
    ensures CountOf(Moved(reg, x), id) == CountOf(reg, id) + if id == x then 1 else 0
    ensures Behind(Moved(reg, x), x) == {}
    ensures id != x && id in Keys(reg) ==> Behind(Moved(reg, x), id) == Behind(reg, id) + {x}
  {
    WithoutIs(reg, x, id);
    AppendIs(Without(reg, x), x, CountOf(reg, x) + 1, id);
    KeysSize(reg);
    KeysSize(Without(reg, x));
    assert |Keys(reg) - {x}| <= |Keys(reg)|;
  }

  lemma {:induction false} MovedIsOk(log: seq<nat>, max: nat, reg: Register, x: nat, id: nat)
    requires Distinct(reg) && EntryOk(log, max, reg, id)
    ensures MovedOk(log + [x], max, Moved(reg, x), id)
  {
    MovedShape(reg, x, id);
    SinceOneMore(log, x, id);
  }

  lemma {:induction false} DropFirst(reg: Register, id: nat)
    requires Distinct(reg) && reg != []
    ensures id != reg[0].0 ==> Behind(reg[1..], id) == Behind(reg, id) && CountOf(reg[1..], id) == CountOf(reg, id)
    ensures id != reg[0].0 ==> (id in Keys(reg[1..]) <==> id in Keys(reg))
    ensures |Behind(reg, reg[0].0)| == |reg| - 1
    ensures CountOf(reg[1..], reg[0].0) == 0
  {
    KeysSize(reg[1..]);
    NoneCounted(reg[1..], reg[0].0);
  }

  /** The counts, before and after dropping, against the truth. */
  lemma {:induction false} CountsOk(log: seq<nat>, max: nat, reg: Register, x: nat, id: nat)
    requires Distinct(reg) && EntryOk(log, max, reg, id)
    ensures CountOf(Moved(reg, x), id) == Times(log + [x], id) <==> NeverCrowded(log, id, max)
  {
    MovedShape(reg, x, id);
    SinceOneMore(log, x, id);
  }

  lemma {:induction false} RegisterKept(log: seq<nat>, max: nat, reg: Register, x: nat, id: nat)
    requires Distinct(reg) && |reg| <= max && EntryOk(log, max, reg, id)
    ensures var reg' := RetryPool.Register(reg, max, x).0;
            Distinct(reg') && |reg'| <= max && EntryOk(log + [x], max, reg', id)
  {
    var moved, log' := Moved(reg, x), log + [x];
    MovedShape(reg, x, id);
    MovedIsOk(log, max, reg, x, id);
    CountsOk(log, max, reg, x, id);
    CrowdedOneMore(log, x, id, max);
    if id in Keys(moved) { BehindIsSmall(moved, id); } else { NoneCounted(moved, id); }
    if |moved| > max {
      DropFirst(moved, id);
      if id != moved[0].0 && id in Keys(moved) { BehindIsSmall(moved[1..], id); }
    }
  }

  lemma {:induction false} TrackerKept(log: seq<nat>, max: nat)
    ensures TrackerOk(log, max, RegisterAll(log, max))
  {
    if log != [] {
      var before, x := log[..|log| - 1], log[|log| - 1];
      TrackerKept(before, max);
      assert log == before + [x];
      assert EntryOk(before, max, RegisterAll(before, max), x);
      RegisterKept(before, max, RegisterAll(before, max), x, x);
      forall id: nat ensures EntryOk(log, max, RegisterAll(log, max), id) {
        assert EntryOk(before, max, RegisterAll(before, max), id);
        RegisterKept(before, max, RegisterAll(before, max), x, id);
      }
    }
  }

  /** The tracker remembers exactly the entries with fewer than `max` others registered since. */
  lemma {:induction false} TrackerRemembersIff(log: seq<nat>, max: nat, id: nat)
    ensures id in Keys(RegisterAll(log, max)) <==> Times(log, id) > 0 && |Since(log, id)| < max
  {
    TrackerKept(log, max);
    assert EntryOk(log, max, RegisterAll(log, max), id);
  }

  /**
   * The number a registration returns is how often the entry was registered if and only if it was
   * never crowded out.
   */
  lemma {:induction false} TrackerCountsIff(log: seq<nat>, max: nat, id: nat)
    ensures RetryPool.Register(RegisterAll(log, max), max, id).1 <= Times(log, id) + 1
    ensures RetryPool.Register(RegisterAll(log, max), max, id).1 == Times(log, id) + 1 <==> NeverCrowded(log, id, max)
  {
    TrackerKept(log, max);
    assert EntryOk(log, max, RegisterAll(log, max), id);
  }

  /**
   * So a limit on the retries of one entry can be overrun: with two entries remembered, two others
   * in between make it start again.
   */
  lemma {:induction false} CrowdedOutStartsAgain(a: nat, b: nat, c: nat)
    requires a != b && b != c && a != c
    ensures Times([a, b, c], a) == 1
    ensures RetryPool.Register(RegisterAll([a, b, c], 2), 2, a).1 == 1
  {
    var log := [a, b, c];
    SinceOneMore([], a, a);
    SinceOneMore([a], b, a);
    SinceOneMore([a, b], c, a);
    assert [] + [a] == [a] && [a] + [b] == [a, b] && [a, b] + [c] == log;
    assert Since(log, a) == {b, c} && |{b, c}| == 2;
    TrackerCountsIff(log, 2, a);
    TrackerRemembersIff(log, 2, a);
    NoneCounted(RegisterAll(log, 2), a);
  }
}
