/**
 * The status files of the two slots (src/otaclient/boot_control/_ota_status_control.py) as a small
 * persistent store. What a method does to the store is a list of atomic events; a power cut or a
 * crash leaves a prefix of that list done.
 */
module StatusFiles {
  import opened Prelude

  datatype Slot = SlotA | SlotB {
    function Other(): Slot { if SlotA? then SlotB else SlotA }
  }

  datatype Status =
    | INITIALIZED | SUCCESS | FAILURE | UPDATING | ROLLBACKING | ROLLBACK_FAILURE | CLIENT_UPDATING | ABORTING | ABORTED

  /** The failure info names the status file it was written with by the file's stamp (inode and mtime). */
  datatype Info = Info(stamp: nat, reason: string)

  /**
   * The files of one slot. A missing or unreadable status is None. `cause` remembers how the status
   * file was last written: Some(r) if store_failure_info wrote it for the reason r.
   */
  datatype SlotDir = SlotDir(
    present: bool,
    status: Option<Status>,
    stamp: nat,
    cause: Option<string>,
    inUse: Option<Slot>,
    version: Option<string>,
    info: Option<Info>)

  /** `clock` is the stamp of the next rewrite of a status file; `staged` is the staged-in-boot file. */
  datatype Files = Files(a: SlotDir, b: SlotDir, clock: nat, staged: Option<nat>) {
    function Dir(slot: Slot): SlotDir { if slot.SlotA? then a else b }
    function Put(slot: Slot, dir: SlotDir): Files { if slot.SlotA? then this.(a := dir) else this.(b := dir) }
  }

  datatype Event =
    | SetStatus(slot: Slot, status: Status, cause: Option<string>)
    | SetInUse(slot: Slot, target: Slot)
    | SetVersion(slot: Slot, version: string)
    | SetInfo(slot: Slot, info: Info)
    | DropInfo(slot: Slot)
    | DropStatus(slot: Slot)
    | DropVersion(slot: Slot)
    | WipeDir(slot: Slot)
    | SetStaged(boot: nat)
    | DropStaged
    | Ask(answer: Answer)     // the finaliser, or the DPI, is asked and answers

  datatype Answer = Yes | No | Raises

  function Apply(f: Files, e: Event): Files {
    match e
    case SetStatus(slot, status, cause) =>
      f.Put(slot, f.Dir(slot).(present := true, status := Some(status), stamp := f.clock, cause := cause))
      .(clock := f.clock + 1)
    case SetInUse(slot, target) => f.Put(slot, f.Dir(slot).(present := true, inUse := Some(target)))
    case SetVersion(slot, version) => f.Put(slot, f.Dir(slot).(present := true, version := Some(version)))
    case SetInfo(slot, info) => f.Put(slot, f.Dir(slot).(present := true, info := Some(info)))
    case DropInfo(slot) => f.Put(slot, f.Dir(slot).(info := None))
    case DropStatus(slot) => f.Put(slot, f.Dir(slot).(status := None))
    case DropVersion(slot) => f.Put(slot, f.Dir(slot).(version := None))
    case WipeDir(slot) => f.Put(slot, SlotDir(true, None, 0, None, None, None, None))
    case SetStaged(boot) => f.(staged := Some(boot))
    case DropStaged => f.(staged := None)
    case Ask(_) => f
  }

  function ApplyAll(f: Files, es: seq<Event>): Files
    decreases |es|
  {
    if es == [] then f else ApplyAll(Apply(f, es[0]), es[1..])
  }

  lemma {:induction false} ApplyConcat(f: Files, es: seq<Event>, es': seq<Event>)
    ensures ApplyAll(f, es + es') == ApplyAll(ApplyAll(f, es), es')
    decreases |es|
  {
    if es == [] {
      assert es + es' == es';
    } else {
      assert (es + es')[1..] == es[1..] + es';
      ApplyConcat(Apply(f, es[0]), es[1..], es');
    }
  }

  lemma {:induction false} ApplyOne(f: Files, e: Event)
    ensures ApplyAll(f, [e]) == Apply(f, e)
  {
    assert [e][1..] == [];
  }

  lemma {:induction false} ApplyTwo(f: Files, e: Event, e': Event)
    ensures ApplyAll(f, [e, e']) == Apply(Apply(f, e), e')
  {
    assert [e, e'][1..] == [e'];
    ApplyOne(Apply(f, e), e');
  }

  function Min(x: nat, y: nat): nat { if x <= y then x else y }

  /** What is on disk when only the first `cut` events were done. */
  function Cut(f: Files, es: seq<Event>, cut: nat): Files { ApplyAll(f, es[..Min(cut, |es|)]) }

  // ------ the methods, as event lists ------ //

  predicate InFlight(status: Option<Status>) { status == Some(UPDATING) || status == Some(ROLLBACKING) }

  predicate Failed(status: Option<Status>) { status == Some(FAILURE) || status == Some(ROLLBACK_FAILURE) }

  function Conclude(loaded: Status, success: bool): Status {
    if success then SUCCESS else if loaded.ROLLBACKING? then ROLLBACK_FAILURE else FAILURE
  }

  /** _load_slot_in_use_file. */
  function LoadSlotInUse(f: Files, active: Slot, force: bool): seq<Event> {
    if force || f.Dir(active).inUse.None? then [SetInUse(active, active)] else []
  }

  predicate IsSwitchingBoot(f: Files, active: Slot) {
    InFlight(f.Dir(active).status) && f.Dir(active).inUse == Some(active)
  }

  /** _load_status_file. */
  function LoadStatus(f: Files, active: Slot, force: bool, answer: Answer): seq<Event> {
    var loaded := if force then None else f.Dir(active).status;
    if loaded.None? || loaded.value.ABORTED? then [SetStatus(active, INITIALIZED, None)]
    else if !InFlight(loaded) then []
    else if !IsSwitchingBoot(f, active) then [SetStatus(active, Conclude(loaded.value, false), None)]
    else if answer.Raises? then [Ask(answer)]
    else [Ask(answer), SetStatus(active, Conclude(loaded.value, answer.Yes?), None)]
  }

  /** The live status the startup leaves in memory; None when it raised. */
  function BootedStatus(f: Files, active: Slot, force: bool, answer: Answer): Option<Status> {
    var loaded := if force then None else f.Dir(active).status;
    if loaded.None? then Some(INITIALIZED)
    else if !InFlight(loaded) then loaded
    else if !IsSwitchingBoot(f, active) then Some(Conclude(loaded.value, false))
    else if answer.Raises? then None
    else Some(Conclude(loaded.value, answer.Yes?))
  }

  /** __init__: the slot_in_use file first, then the status file. */
  function Startup(f: Files, active: Slot, force: bool, answer: Answer): seq<Event> {
    var first := LoadSlotInUse(f, active, force);
    first + LoadStatus(ApplyAll(f, first), active, force, answer)
  }

  function PreUpdateCurrent(active: Slot): seq<Event> {
    [SetStatus(active, FAILURE, None), SetInUse(active, active.Other()), DropInfo(active)]
  }

  function PostUpdateStandby(active: Slot, version: string): seq<Event> {
    var standby := active.Other();
    [SetStatus(standby, UPDATING, None), SetVersion(standby, version), SetInUse(standby, standby), DropInfo(standby)]
  }

  function OnFailure(f: Files, active: Slot): seq<Event> {
    [SetStatus(active, FAILURE, None)]
    + if f.Dir(active.Other()).present then [SetStatus(active.Other(), FAILURE, None)] else []
  }

  function OnAbort(active: Slot): seq<Event> { [SetStatus(active, ABORTED, None)] }

  function StoreFailureInfo(f: Files, active: Slot, reason: string): seq<Event> {
    [SetStatus(active, FAILURE, Some(reason)), SetInfo(active, Info(f.clock, reason))]
  }

  function LoadFailureInfo(f: Files, active: Slot, booted: Option<Status>): Option<string> {
    var dir := f.Dir(active);
    if Failed(booted) && dir.info.Some? && dir.status.Some? && dir.info.value.stamp == dir.stamp
    then Some(dir.info.value.reason) else None
  }

  // ------ startup converges under crashes ------ //

  /** Status and slot_in_use an uninterrupted startup settles on, read off the files it finds. */
  function Settled(dir: SlotDir, active: Slot, answer: Answer): (Option<Status>, Option<Slot>) {
    var inUse := if dir.inUse.None? then Some(active) else dir.inUse;
    var status :=
      if dir.status.None? || dir.status == Some(ABORTED) then Some(INITIALIZED)
      else if !InFlight(dir.status) then dir.status
      else if inUse == Some(active) && answer.Raises? then dir.status
      else Some(Conclude(dir.status.value, inUse == Some(active) && answer.Yes?));
    (status, inUse)
  }

  /** The states a startup goes through: nothing done, slot_in_use done, then the status events one by one. */
  lemma {:induction false} StartupPrefix(f: Files, active: Slot, force: bool, answer: Answer, cut: nat)
    ensures var first := LoadSlotInUse(f, active, force);
            var g := if first == [] then f else Apply(f, first[0]);
            var second := LoadStatus(g, active, force, answer);
            var es := Startup(f, active, force, answer);
            var n := Min(cut, |es|);
            && ApplyAll(f, first) == g && es == first + second && |second| <= 2
            && (n <= |first| ==> Cut(f, es, cut) == if n == 0 then f else g)
            && (n == |first| + 1 ==> Cut(f, es, cut) == Apply(g, second[0]) && second[0] in es[..n])
            && (n == |first| + 2 ==> Cut(f, es, cut) == Apply(Apply(g, second[0]), second[1]) && second[0] in es[..n])
  {
    var first := LoadSlotInUse(f, active, force);
    if first != [] { ApplyOne(f, first[0]); }
    var g := ApplyAll(f, first);
    var second := LoadStatus(g, active, force, answer);
    var es := first + second;
    var n := Min(cut, |es|);
    if n == 0 {
      assert es[..n] == [];
    } else if n == |first| {
      assert es[..n] == first;
    } else if n == |first| + 1 {
      assert es[..n] == first + [second[0]];
      ApplyConcat(f, first, [second[0]]);
      ApplyOne(g, second[0]);
    } else {
      assert es[..n] == first + [second[0], second[1]];
      ApplyConcat(f, first, [second[0], second[1]]);
      ApplyTwo(g, second[0], second[1]);
      assert es[..n][|first|] == second[0];
    }
  }

  /** Every prefix of a startup, the whole of it included. */
  lemma {:induction false} StartupStates(f: Files, active: Slot, answer: Answer, cut: nat)
    ensures var dir, dir' := f.Dir(active), Cut(f, Startup(f, active, false, answer), cut).Dir(active);
            && (dir'.inUse == dir.inUse || dir'.inUse == Settled(dir, active, answer).1)
            && (dir'.status == dir.status || dir'.status == Settled(dir, active, answer).0)
            && (dir'.status != dir.status ==> dir'.inUse == Settled(dir, active, answer).1)
            && Cut(f, Startup(f, active, false, answer), cut).Dir(active.Other()) == f.Dir(active.Other())
            && (cut >= |Startup(f, active, false, answer)| ==>
                (dir'.status, dir'.inUse) == Settled(dir, active, answer))
  {
    StartupPrefix(f, active, false, answer, cut);
  }

  function AfterCrashes(f: Files, active: Slot, answer: Answer, cuts: seq<nat>): Files
    decreases |cuts|
  {
    if cuts == [] then f
    else AfterCrashes(Cut(f, Startup(f, active, false, answer), cuts[0]), active, answer, cuts[1..])
  }

  lemma {:induction false} CrashKeepsSettled(f: Files, active: Slot, answer: Answer, cut: nat)
    ensures Settled(Cut(f, Startup(f, active, false, answer), cut).Dir(active), active, answer)
            == Settled(f.Dir(active), active, answer)
  {
    StartupStates(f, active, answer, cut);
  }

  /** However often and wherever startups crash, the one that completes settles what the first would have. */
  lemma {:induction false} StartupConverges(f: Files, active: Slot, answer: Answer, cuts: seq<nat>)
    ensures var g := AfterCrashes(f, active, answer, cuts);
            var dir := ApplyAll(g, Startup(g, active, false, answer)).Dir(active);
            (dir.status, dir.inUse) == Settled(f.Dir(active), active, answer)
    decreases |cuts|
  {
    if cuts == [] {
      var es := Startup(f, active, false, answer);
      StartupStates(f, active, answer, |es|);
      assert es[..|es|] == es;
    } else {
      CrashKeepsSettled(f, active, answer, cuts[0]);
      StartupConverges(Cut(f, Startup(f, active, false, answer), cuts[0]), active, answer, cuts[1..]);
    }
  }

  /**
   * SUCCESS appears on a slot that was in flight only after the finaliser was asked on the slot the
   * files record, and said yes.
   */
  lemma {:induction false} SuccessIsEarned(f: Files, active: Slot, force: bool, answer: Answer, cut: nat)
    requires InFlight(f.Dir(active).status)
    requires Cut(f, Startup(f, active, force, answer), cut).Dir(active).status == Some(SUCCESS)
    ensures !force && answer.Yes? && (f.Dir(active).inUse == None || f.Dir(active).inUse == Some(active))
    ensures Ask(Yes) in Startup(f, active, force, answer)[..Min(cut, |Startup(f, active, force, answer)|)]
  {
    StartupPrefix(f, active, force, answer, cut);
  }

  // ------ failure info is bound to its status file ------ //

  /** What may happen to the files: the methods here, cut anywhere, and an older otaclient's events. */
  datatype Op =
    | Start(active: Slot, force: bool, answer: Answer)
    | PreUpdate(active: Slot)
    | PostUpdate(active: Slot, version: string)
    | Failure(active: Slot)
    | AbortOta(active: Slot)
    | Report(active: Slot, reason: string)
    | Foreign(event: Event)

  function Effects(f: Files, op: Op): seq<Event> {
    match op
    case Start(active, force, answer) => Startup(f, active, force, answer)
    case PreUpdate(active) => PreUpdateCurrent(active)
    case PostUpdate(active, version) => PostUpdateStandby(active, version)
    case Failure(active) => OnFailure(f, active)
    case AbortOta(active) => OnAbort(active)
    case Report(active, reason) => StoreFailureInfo(f, active, reason)
    case Foreign(event) => [event]
  }

  /** Only an otaclient that knows the failure info writes it, or writes a status for a reason. */
  predicate Plain(e: Event) { !e.SetInfo? && (e.SetStatus? ==> e.cause.None?) }

  predicate AllowedOp(op: Op) { op.Foreign? ==> Plain(op.event) }

  predicate DirBound(dir: SlotDir, clock: nat) {
    && (dir.status.Some? ==> dir.stamp < clock)
    && (dir.info.Some? ==> dir.info.value.stamp < clock)
    && (dir.info.Some? && dir.status.Some? && dir.info.value.stamp == dir.stamp ==>
        dir.cause == Some(dir.info.value.reason))
  }

  predicate InfoBound(f: Files) { DirBound(f.a, f.clock) && DirBound(f.b, f.clock) }

  lemma {:induction false} PlainKeepsBound(f: Files, e: Event)
    requires InfoBound(f) && Plain(e)
    ensures InfoBound(Apply(f, e))
  {
  }

  lemma {:induction false} PlainsKeepBound(f: Files, es: seq<Event>)
    requires InfoBound(f) && forall e | e in es :: Plain(e)
    ensures InfoBound(ApplyAll(f, es))
    decreases |es|
  {
    if es != [] {
      PlainKeepsBound(f, es[0]);
      PlainsKeepBound(Apply(f, es[0]), es[1..]);
    }
  }

  lemma {:induction false} EffectsKeepBound(f: Files, op: Op, cut: nat)
    requires InfoBound(f) && AllowedOp(op)
    ensures InfoBound(Cut(f, Effects(f, op), cut))
  {
    var es := Effects(f, op);
    var n := Min(cut, |es|);
    if op.Report? {
      if n == 0 {
        assert es[..n] == [];
      } else if n == 1 {
        assert es[..n] == [es[0]];
        ApplyOne(f, es[0]);
      } else {
        assert es[..n] == [es[0], es[1]];
        ApplyTwo(f, es[0], es[1]);
      }
    } else {
      PlainsKeepBound(f, es[..n]);
    }
  }

  function AfterOps(f: Files, ops: seq<(Op, nat)>): Files
    decreases |ops|
  {
    if ops == [] then f else AfterOps(Cut(f, Effects(f, ops[0].0), ops[0].1), ops[1..])
  }

  /**
   * Over every history of methods cut anywhere, the failure info returned is the reason the status
   * file was last written for.
   */
  lemma {:induction false} FailureInfoIsBound(f: Files, ops: seq<(Op, nat)>, active: Slot, booted: Option<Status>)
    requires InfoBound(f) && forall i | 0 <= i < |ops| :: AllowedOp(ops[i].0)
    ensures InfoBound(AfterOps(f, ops))
    ensures var g := AfterOps(f, ops);
            LoadFailureInfo(g, active, booted).Some? ==> LoadFailureInfo(g, active, booted) == g.Dir(active).cause
    decreases |ops|
  {
    if ops != [] {
      EffectsKeepBound(f, ops[0].0, ops[0].1);
      FailureInfoIsBound(Cut(f, Effects(f, ops[0].0), ops[0].1), ops[1..], active, booted);
    }
  }

  /**
   * A report that was written completely is returned as long as its status file is not rewritten
   * nor the info dropped.
   */
  lemma {:induction false} ReportIsReturned(f: Files, active: Slot, reason: string, later: seq<Event>)
    requires forall e | e in later ::
      || e.SetVersion? || e.SetInUse? || e.DropVersion? || e.SetStaged? || e.DropStaged? || e.Ask?
      || ((e.SetStatus? || e.SetInfo?) && e.slot == active.Other())
      || ((e.DropStatus? || e.DropInfo? || e.WipeDir?) && e.slot == active.Other())
    ensures LoadFailureInfo(ApplyAll(ApplyAll(f, StoreFailureInfo(f, active, reason)), later), active, Some(FAILURE)) ==
        Some(reason)
  {
    var es := StoreFailureInfo(f, active, reason);
    ApplyTwo(f, es[0], es[1]);
    LaterKeepsReport(ApplyAll(f, es), active, reason, later);
  }

  lemma {:induction false} LaterKeepsReport(f: Files, active: Slot, reason: string, later: seq<Event>)
    requires LoadFailureInfo(f, active, Some(FAILURE)) == Some(reason)
    requires forall e | e in later ::
      || e.SetVersion? || e.SetInUse? || e.DropVersion? || e.SetStaged? || e.DropStaged? || e.Ask?
      || ((e.SetStatus? || e.SetInfo?) && e.slot == active.Other())
      || ((e.DropStatus? || e.DropInfo? || e.WipeDir?) && e.slot == active.Other())
    ensures LoadFailureInfo(ApplyAll(f, later), active, Some(FAILURE)) == Some(reason)
    decreases |later|
  {
    if later != [] {
      assert later[0] in later;
      LaterKeepsReport(Apply(f, later[0]), active, reason, later[1..]);
    }
  }
}
