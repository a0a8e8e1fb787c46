/**
 * The boot control of the partition-image layout
 * (src/otaclient/boot_control/_partition_image.py) over whole lives of a device: boots into either
 * slot, startups and updates of otaclient cut anywhere, and a DPI that answers `resume` as it
 * likes. Boot ids are numbered in the order of the boots.
 */
module PartitionImage {
  import opened Prelude
  import opened StatusFiles

  /** Does the status control call the finaliser, which asks the DPI to resume? */
  predicate FinaliserAsks(f: Files, active: Slot) {
    IsSwitchingBoot(ApplyAll(f, LoadSlotInUse(f, active, false)), active)
  }

  /** _a_reboot_followed_the_staging; an unreadable boot id counts as a reboot. */
  predicate RebootFollowed(f: Files, boot: nat, readable: bool) {
    f.staged.Some? && (!readable || f.staged.value != boot)
  }

  /** What follows the status files in __init__: conclude and forget the staging boot. */
  function ConcludeStaging(f: Files, boot: nat, readable: bool, asked: bool, answer: Answer): seq<Event> {
    if asked then [DropStaged]
    else if !RebootFollowed(f, boot, readable) then []
    else if answer.Raises? then [Ask(answer)]
    else [Ask(answer), DropStaged]
  }

  const NOT_COMMITTED := "the DPI did not commit the trial boot"

  /** _record_why_the_trial_was_not_committed. */
  function RecordWhy(f: Files, active: Slot, booted: Option<Status>, notCommitted: bool): seq<Event> {
    if notCommitted && Failed(booted) && LoadFailureInfo(f, active, booted).None?
    then StoreFailureInfo(f, active, NOT_COMMITTED) else []
  }

  function Booted(f: Files, active: Slot, answer: Answer): Option<Status> {
    BootedStatus(ApplyAll(f, LoadSlotInUse(f, active, false)), active, false, answer)
  }

  /** __init__ of the controller; a `resume` that fails other than by a DPIError ends it. */
  function Controller(f: Files, active: Slot, boot: nat, readable: bool, answer: Answer): seq<Event> {
    var first := Startup(f, active, false, answer);
    if FinaliserAsks(f, active) && answer.Raises? then first
    else
      var g := ApplyAll(f, first);
      var second := ConcludeStaging(g, boot, readable, FinaliserAsks(f, active), answer);
      if Ask(Raises) in second then first + second
      else
        var asked := FinaliserAsks(f, active) || second != [];
        first + second + RecordWhy(ApplyAll(g, second), active, Booted(f, active, answer), asked && answer.No?)
  }

  predicate Completes(f: Files, active: Slot, boot: nat, readable: bool, answer: Answer) {
    Ask(Raises) !in Controller(f, active, boot, readable, answer)
  }

  function PreUpdateDpi(active: Slot, boot: nat): seq<Event> {
    [SetStaged(boot)] + PreUpdateCurrent(active) + PostUpdateStandby(active, "")
  }

  // ------ lives of a device ------ //

  /** `trace` lists what happened, each event with the boot it happened in. */
  datatype Device = Device(files: Files, boot: nat, active: Slot, up: bool, trace: seq<(nat, Event)>)

  datatype Move =
    | Boot(slot: Slot)                                       // a reboot, by whatever cause, into either slot
    | StartClient(readable: bool, answer: Answer, cut: nat)
    | StageUpdate(cut: nat)
    | RecordVersion(version: string, cut: nat)
    | RecordFailure(cut: nat)
    | RecordAbort(cut: nat)
    | StoreReason(reason: string, cut: nat)
    | Die

  function MoveEvents(d: Device, m: Move): seq<Event> {
    match m
    case Boot(_) | Die => []
    case StartClient(readable, answer, _) => Controller(d.files, d.active, d.boot, readable, answer)
    case StageUpdate(_) => PreUpdateDpi(d.active, d.boot)
    case RecordVersion(version, _) => PostUpdateStandby(d.active, version)
    case RecordFailure(_) => OnFailure(d.files, d.active)
    case RecordAbort(_) => OnAbort(d.active)
    case StoreReason(reason, _) => StoreFailureInfo(d.files, d.active, reason)
  }

  /** Everything but a boot, a death and a start is done by an otaclient that has started. */
  predicate Can(d: Device, m: Move) { m.Boot? || m.StartClient? || m.Die? || d.up }

  function Happen(d: Device, e: Event): Device {
    d.(files := Apply(d.files, e), trace := d.trace + [(d.boot, e)])
  }

  function HappenAll(d: Device, es: seq<Event>): Device
    decreases |es|
  {
    if es == [] then d else HappenAll(Happen(d, es[0]), es[1..])
  }

  function After(d: Device, m: Move): Device {
    match m
    case Boot(slot) => d.(boot := d.boot + 1, active := slot, up := false)
    case Die => d.(up := false)
    case _ =>
      var es := MoveEvents(d, m);
      var d' := HappenAll(d, es[..Min(m.cut, |es|)]);
      d'.(up := m.cut >= |es| && Ask(Raises) !in es)
  }

  predicate IsLife(life: seq<Device>, moves: seq<Move>) {
    && |life| == |moves| + 1
    && life[0].trace == [] && !life[0].up && (life[0].files.staged.Some? ==> life[0].files.staged.value < life[0].boot)
    && forall i | 0 <= i < |moves| :: Can(life[i], moves[i]) && life[i + 1] == After(life[i], moves[i])
  }

  // ------ what every move keeps ------ //

  predicate StagedIn(trace: seq<(nat, Event)>, boot: nat) {
    exists i :: 0 <= i < |trace| && trace[i] == (boot, SetStaged(boot))
  }

  /** An update was staged and the DPI has not been asked since. */
  predicate Pending(trace: seq<(nat, Event)>) {
    if trace == [] then false
    else
      var last := trace[|trace| - 1].1;
      last.SetStaged? || (!last.Ask? && Pending(trace[..|trace| - 1]))
  }

  /** The DPI is never asked in a boot after something was staged in that same boot. */
  predicate NeverInStagingBoot(trace: seq<(nat, Event)>) {
    forall i, j | 0 <= i < j < |trace| && trace[i].1.SetStaged? && trace[j].1.Ask? :: trace[i].0 != trace[j].0
  }

  predicate Kept(d: Device) {
    && (StagedIn(d.trace, d.boot) <==> d.files.staged == Some(d.boot))
    && (d.files.staged.Some? ==> d.files.staged.value <= d.boot)
    && (forall i | 0 <= i < |d.trace| ::
          d.trace[i].0 <= d.boot && (d.trace[i].1.SetStaged? ==> d.trace[i].1.boot == d.trace[i].0))
    && (Pending(d.trace) ==> d.files.staged.Some?)
    && (StagedIn(d.trace, d.boot) || d.up ==> !InFlight(d.files.Dir(d.active).status))
    && NeverInStagingBoot(d.trace)
  }

  predicate Allowed(d: Device, e: Event) {
    match e
    case SetStatus(slot, status, _) => slot == d.active ==> !InFlight(Some(status))
    case SetStaged(boot) => boot == d.boot && !InFlight(d.files.Dir(d.active).status)
    case DropStaged => !Pending(d.trace) && !StagedIn(d.trace, d.boot)
    case Ask(_) => !StagedIn(d.trace, d.boot)
    case _ => true
  }

  lemma {:induction false} StagedInAppend(trace: seq<(nat, Event)>, x: (nat, Event), boot: nat)
    ensures StagedIn(trace + [x], boot) <==> StagedIn(trace, boot) || x == (boot, SetStaged(boot))
  {
    var all := trace + [x];
    assert all[|trace|] == x;
    if StagedIn(trace, boot) {
      var i :| 0 <= i < |trace| && trace[i] == (boot, SetStaged(boot));
      assert all[i] == trace[i];
    }
  }

  lemma {:induction false} PendingAppend(trace: seq<(nat, Event)>, x: (nat, Event))
    ensures Pending(trace + [x]) <==> x.1.SetStaged? || (!x.1.Ask? && Pending(trace))
  {
    assert (trace + [x])[..|trace|] == trace;
  }

  lemma {:induction false} NeverAppend(trace: seq<(nat, Event)>, x: (nat, Event))
    requires NeverInStagingBoot(trace)
    requires x.1.Ask? ==> forall i | 0 <= i < |trace| && trace[i].1.SetStaged? :: trace[i].0 != x.0
    ensures NeverInStagingBoot(trace + [x])
  {}

  lemma {:induction false} HappenKept(d: Device, e: Event)
    requires Kept(d) && Allowed(d, e)
    ensures Kept(Happen(d, e))
  {
    StagedInAppend(d.trace, (d.boot, e), d.boot);
    PendingAppend(d.trace, (d.boot, e));
    forall i | 0 <= i < |d.trace| && d.trace[i].1.SetStaged? && e.Ask? ensures d.trace[i].0 != d.boot {
      assert d.trace[i] == (d.trace[i].0, SetStaged(d.trace[i].0));
    }
    NeverAppend(d.trace, (d.boot, e));
  }

  predicate AllAllowed(d: Device, es: seq<Event>)
    decreases |es|
  {
    es == [] || (Allowed(d, es[0]) && AllAllowed(Happen(d, es[0]), es[1..]))
  }

  lemma {:induction false} PrefixKept(d: Device, es: seq<Event>, n: nat)
    requires Kept(d) && AllAllowed(d, es) && n <= |es|
    ensures Kept(HappenAll(d, es[..n]))
    decreases n
  {
    if n == 0 {
      assert es[..n] == [];
    } else {
      HappenKept(d, es[0]);
      assert es[..n][0] == es[0] && es[..n][1..] == es[1..][..n - 1];
      PrefixKept(Happen(d, es[0]), es[1..], n - 1);
    }
  }

  lemma {:induction false} AllAllowedConcat(d: Device, es: seq<Event>, es': seq<Event>)
    requires AllAllowed(d, es) && AllAllowed(HappenAll(d, es), es')
    ensures AllAllowed(d, es + es')
    decreases |es|
  {
    if es == [] {
      assert es + es' == es';
    } else {
      assert (es + es')[0] == es[0] && (es + es')[1..] == es[1..] + es';
      AllAllowedConcat(Happen(d, es[0]), es[1..], es');
    }
  }

  // ------ lists of events ------ //

  /** Events that neither stage nor forget, and leave the running slot out of flight. */
  predicate Calm(active: Slot, e: Event) {
    !e.SetStaged? && !e.DropStaged? && (e.SetStatus? && e.slot == active ==> !InFlight(Some(e.status)))
  }

  lemma {:induction false} OtherEventStagesNothing(trace: seq<(nat, Event)>, boot: nat, at: nat, e: Event)
    requires e != SetStaged(boot)
    ensures StagedIn(trace + [(at, e)], boot) <==> StagedIn(trace, boot)
  {
    var trace' := trace + [(at, e)];
    assert forall i | 0 <= i < |trace| :: trace'[i] == trace[i];
  }

  /** In a boot nothing was staged in, calm events are allowed, and an Ask among them answers what is pending. */
  lemma {:induction false} CalmEvents(d: Device, es: seq<Event>)
    requires !StagedIn(d.trace, d.boot) || forall e | e in es :: !e.Ask?
    requires forall e | e in es :: Calm(d.active, e)
    ensures AllAllowed(d, es)
    ensures var d' := HappenAll(d, es);
            && d'.files == ApplyAll(d.files, es) && d'.boot == d.boot && d'.active == d.active
            && (StagedIn(d'.trace, d.boot) <==> StagedIn(d.trace, d.boot))
            && (Pending(d'.trace) ==> Pending(d.trace) && forall e | e in es :: !e.Ask?)
    decreases |es|
  {
    if es != [] {
      var e := es[0];
      var d1 := Happen(d, e);
      assert e in es;
      assert d1.trace[..|d.trace|] == d.trace;
      OtherEventStagesNothing(d.trace, d.boot, d.boot, e);
      assert forall x | x in es :: x == e || x in es[1..];
      CalmEvents(d1, es[1..]);
    }
  }

  lemma {:induction false} ForgetAllowed(d: Device)
    requires !Pending(d.trace) && !StagedIn(d.trace, d.boot)
    ensures AllAllowed(d, [DropStaged]) && HappenAll(d, [DropStaged]) == Happen(d, DropStaged)
    ensures !StagedIn(Happen(d, DropStaged).trace, d.boot)
  {
    assert [DropStaged][1..] == [];
    OtherEventStagesNothing(d.trace, d.boot, d.boot, DropStaged);
  }

  /** The status files: calm, and asking exactly when the finaliser does. */
  lemma {:induction false} StartupCalm(f: Files, active: Slot, answer: Answer)
    ensures var es := Startup(f, active, false, answer);
            && (forall e | e in es :: Calm(active, e))
            && (FinaliserAsks(f, active) <==> Ask(answer) in es)
            && (forall e | e in es && e.Ask? :: e == Ask(answer))
            && ApplyAll(f, es).staged == f.staged
            && (!(FinaliserAsks(f, active) && answer.Raises?) ==> !InFlight(ApplyAll(f, es).Dir(active).status))
            && (!InFlight(f.Dir(active).status) ==> !FinaliserAsks(f, active))
  {
    var es := Startup(f, active, false, answer);
    StartupPrefix(f, active, false, answer, |es|);
    assert es[..|es|] == es;
  }

  lemma {:induction false} RecordCalm(f: Files, active: Slot, booted: Option<Status>, notCommitted: bool)
    ensures var es := RecordWhy(f, active, booted, notCommitted);
            && (forall e | e in es :: Calm(active, e) && !e.Ask?)
            && (!InFlight(f.Dir(active).status) ==> !InFlight(ApplyAll(f, es).Dir(active).status))
  {
    var es := RecordWhy(f, active, booted, notCommitted);
    if es != [] { ApplyTwo(f, es[0], es[1]); }
  }

  /** A start in the boot that staged the update asks nothing, and forgets nothing. */
  lemma {:induction false} QuietStart(d: Device, answer: Answer)
    requires Kept(d) && StagedIn(d.trace, d.boot)
    ensures Controller(d.files, d.active, d.boot, true, answer) == Startup(d.files, d.active, false, answer)
    ensures forall e | e in Controller(d.files, d.active, d.boot, true, answer) :: Calm(d.active, e) && !e.Ask?
    ensures !InFlight(ApplyAll(d.files, Controller(d.files, d.active, d.boot, true, answer)).Dir(d.active).status)
  {
    StartupCalm(d.files, d.active, answer);
  }

  /** A start in a boot that staged nothing. */
  lemma {:induction false} StartAllowed(d: Device, readable: bool, answer: Answer)
    requires Kept(d) && !StagedIn(d.trace, d.boot)
    ensures AllAllowed(d, Controller(d.files, d.active, d.boot, readable, answer))
    ensures Completes(d.files, d.active, d.boot, readable, answer) ==>
              var d' := HappenAll(d, Controller(d.files, d.active, d.boot, readable, answer));
              !InFlight(d'.files.Dir(d.active).status)
  {
    var f, active := d.files, d.active;
    var first := Startup(f, active, false, answer);
    StartupCalm(f, active, answer);
    CalmEvents(d, first);
    if FinaliserAsks(f, active) && answer.Raises? { return; }
    var d1 := HappenAll(d, first);
    var second := ConcludeStaging(d1.files, d.boot, readable, FinaliserAsks(f, active), answer);
    StagingAllowed(d1, second, FinaliserAsks(f, active), answer);
    AllAllowedConcat(d, first, second);
    HappenConcat(d, first, second);
    if Ask(Raises) in second {
      assert Ask(Raises) in first + second;
      return;
    }
    var d2 := HappenAll(d1, second);
    var third := RecordWhy(d2.files, active, Booted(f, active, answer),
        (FinaliserAsks(f, active) || second != []) && answer.No?);
    RecordCalm(d2.files, active, Booted(f, active, answer), (FinaliserAsks(f, active) || second != []) && answer.No?);
    CalmEvents(d2, third);
    AllAllowedConcat(d, first + second, third);
    HappenConcat(d, first + second, third);
  }

  lemma {:induction false} StagingAllowed(d: Device, es: seq<Event>, asked: bool, answer: Answer)
    requires !StagedIn(d.trace, d.boot) && (asked ==> !Pending(d.trace))
    requires es == [] || (asked && es == [DropStaged]) || es == [Ask(answer)] || es == [Ask(answer), DropStaged]
    ensures AllAllowed(d, es)
    ensures var d' := HappenAll(d, es);
            && !StagedIn(d'.trace, d.boot) && d'.files == ApplyAll(d.files, es)
            && d'.files.Dir(d.active) == d.files.Dir(d.active) && d'.active == d.active && d'.boot == d.boot
  {
    if es == [DropStaged] {
      ForgetAllowed(d);
      ApplyOne(d.files, DropStaged);
    } else if es == [Ask(answer)] {
      CalmEvents(d, es);
      ApplyOne(d.files, Ask(answer));
    } else if es != [] {
      CalmEvents(d, [Ask(answer)]);
      var d1 := HappenAll(d, [Ask(answer)]);
      assert Ask(answer) in [Ask(answer)];
      ForgetAllowed(d1);
      assert es == [Ask(answer)] + [DropStaged];
      AllAllowedConcat(d, [Ask(answer)], [DropStaged]);
      HappenConcat(d, [Ask(answer)], [DropStaged]);
      ApplyOne(d.files, Ask(answer));
      ApplyTwo(d.files, Ask(answer), DropStaged);
    }
  }

  lemma {:induction false} HappenConcat(d: Device, es: seq<Event>, es': seq<Event>)
    ensures HappenAll(d, es + es') == HappenAll(HappenAll(d, es), es')
    decreases |es|
  {
    if es == [] {
      assert es + es' == es';
    } else {
      assert (es + es')[0] == es[0] && (es + es')[1..] == es[1..] + es';
      HappenConcat(Happen(d, es[0]), es[1..], es');
    }
  }

  // ------ whole lives ------ //

  lemma {:induction false} StartKept(d: Device, answer: Answer, cut: nat)
    requires Kept(d)
    ensures Kept(After(d, StartClient(true, answer, cut)))
  {
    var es := Controller(d.files, d.active, d.boot, true, answer);
    var n := Min(cut, |es|);
    if StagedIn(d.trace, d.boot) {
      QuietStart(d, answer);
      CalmEvents(d, es);
    } else {
      StartAllowed(d, true, answer);
    }
    PrefixKept(d, es, n);
    HappenFrame(d, es[..n]);
    if n == |es| { assert es[..n] == es; }
  }

  lemma {:induction false} HappenFrame(d: Device, es: seq<Event>)
    ensures var d' := HappenAll(d, es); d'.boot == d.boot && d'.active == d.active && d'.up == d.up
    decreases |es|
  {
    if es != [] { HappenFrame(Happen(d, es[0]), es[1..]); }
  }

  /** pre_update: the staging boot is recorded first, while the running slot is not in flight. */
  lemma {:induction false} StageAllowed(d: Device)
    requires Kept(d) && d.up
    ensures AllAllowed(d, PreUpdateDpi(d.active, d.boot))
  {
    var es := PreUpdateDpi(d.active, d.boot);
    var d1 := Happen(d, SetStaged(d.boot));
    assert es[0] == SetStaged(d.boot);
    assert forall e | e in es[1..] :: Calm(d.active, e) && !e.Ask?;
    CalmEvents(d1, es[1..]);
  }

  lemma {:induction false} MoveKept(d: Device, m: Move)
    requires Kept(d) && Can(d, m) && (m.StartClient? ==> m.readable)
    ensures Kept(After(d, m))
  {
    match m {
      case Boot(slot) =>
        assert !StagedIn(d.trace, d.boot + 1);
      case Die =>
      case StartClient(_, answer, cut) => StartKept(d, answer, cut);
      case StageUpdate(cut) =>
        StageAllowed(d);
        PrefixKept(d, MoveEvents(d, m), Min(cut, |MoveEvents(d, m)|));
        HappenFrame(d, MoveEvents(d, m)[..Min(cut, |MoveEvents(d, m)|)]);
      case _ => RecordKept(d, m);
    }
  }

  lemma {:induction false} RecordKept(d: Device, m: Move)
    requires Kept(d) && d.up && (m.RecordVersion? || m.RecordFailure? || m.RecordAbort? || m.StoreReason?)
    ensures Kept(After(d, m))
  {
    var es := MoveEvents(d, m);
    var n := Min(m.cut, |es|);
    assert forall e | e in es :: Calm(d.active, e) && !e.Ask?;
    CalmEvents(d, es);
    PrefixKept(d, es, n);
    HappenFrame(d, es[..n]);
  }

  predicate BootIdsReadable(moves: seq<Move>) {
    forall i | 0 <= i < |moves| && moves[i].StartClient? :: moves[i].readable
  }

  lemma {:induction false} LifeKept(life: seq<Device>, moves: seq<Move>, n: nat)
    requires IsLife(life, moves) && BootIdsReadable(moves) && n < |life|
    ensures Kept(life[n])
  {
    if n > 0 {
      LifeKept(life, moves, n - 1);
      MoveKept(life[n - 1], moves[n - 1]);
    }
  }

  /** Over every life of the device, the DPI is never asked to resume in the boot an update was staged in. */
  lemma {:induction false} ResumeNeverInStagingBoot(life: seq<Device>, moves: seq<Move>, n: nat)
    requires IsLife(life, moves) && BootIdsReadable(moves) && n < |life|
    ensures NeverInStagingBoot(life[n].trace)
  {
    LifeKept(life, moves, n);
  }

  /**
   * Whatever the status files say, a start after the staging boot asks; one in it asks only if a
   * switching boot is on record.
   */
  lemma {:induction false} StartAsks(f: Files, active: Slot, boot: nat, answer: Answer)
    ensures Ask(answer) in Controller(f, active, boot, true, answer)
            <==> (f.staged.Some? && f.staged.value != boot) || FinaliserAsks(f, active)
  {
    StartupCalm(f, active, answer);
    var first := Startup(f, active, false, answer);
    var g := ApplyAll(f, first);
    var second := ConcludeStaging(g, boot, true, FinaliserAsks(f, active), answer);
    var third := RecordWhy(ApplyAll(g, second), active, Booted(f, active, answer),
        (FinaliserAsks(f, active) || second != []) && answer.No?);
    RecordCalm(ApplyAll(g, second), active, Booted(f, active, answer),
        (FinaliserAsks(f, active) || second != []) && answer.No?);
    assert Ask(answer) in second <==> RebootFollowed(f, boot, true) && !FinaliserAsks(f, active);
    assert Ask(answer) !in third;
  }

  /**
   * Over every life: when an update was staged in an earlier boot and the DPI has not been asked
   * since, the next start that runs to its end asks it.
   */
  lemma {:induction false} FirstStartOfALaterBootAsks(life: seq<Device>, moves: seq<Move>, n: nat, answer: Answer)
    requires IsLife(life, moves) && BootIdsReadable(moves) && n < |life|
    requires Pending(life[n].trace) && !StagedIn(life[n].trace, life[n].boot)
    ensures Ask(answer) in Controller(life[n].files, life[n].active, life[n].boot, true, answer)
  {
    LifeKept(life, moves, n);
    StartAsks(life[n].files, life[n].active, life[n].boot, answer);
  }

  /** In the boot that staged the update, a start asks the DPI exactly when it cannot read the boot id. */
  lemma {:induction false} StagingBootAsksIffUnreadable(d: Device, readable: bool, answer: Answer)
    requires Kept(d) && StagedIn(d.trace, d.boot)
    ensures Ask(answer) in Controller(d.files, d.active, d.boot, readable, answer) <==> !readable
  {
    var f, active := d.files, d.active;
    StartupCalm(f, active, answer);
    var first := Startup(f, active, false, answer);
    var second := ConcludeStaging(ApplyAll(f, first), d.boot, readable, false, answer);
    if readable {
      QuietStart(d, answer);
    } else {
      assert second[0] == Ask(answer);
      assert (first + second)[|first|] == Ask(answer);
    }
  }

  function Tagged(boot: nat, es: seq<Event>): seq<(nat, Event)> { seq(|es|, i requires 0 <= i < |es| => (boot, es[i])) }

  lemma {:induction false} HappenTrace(d: Device, es: seq<Event>)
    ensures HappenAll(d, es).trace == d.trace + Tagged(d.boot, es)
    decreases |es|
  {
    if es != [] {
      HappenTrace(Happen(d, es[0]), es[1..]);
      assert Tagged(d.boot, es) == [(d.boot, es[0])] + Tagged(d.boot, es[1..]);
    }
  }

  lemma {:induction false} StagedTrace(d: Device)
    requires Kept(d) && d.up
    ensures var staged := After(d, StageUpdate(16)).(up := false);
            && Kept(staged) && staged.boot == d.boot && |d.trace| < |staged.trace|
            && staged.trace[|d.trace|] == (d.boot, SetStaged(d.boot))
  {
    var es := PreUpdateDpi(d.active, d.boot);
    assert es[..|es|] == es;
    MoveKept(d, StageUpdate(16));
    HappenTrace(d, es);
    HappenFrame(d, es);
  }

  lemma {:induction false} StartTrace(d: Device, answer: Answer, cut: nat)
    requires !d.up && cut >= 16
    ensures After(d, StartClient(false, answer, cut)).trace
            == d.trace + Tagged(d.boot, Controller(d.files, d.active, d.boot, false, answer))
  {
    var es := Controller(d.files, d.active, d.boot, false, answer);
    ControllerIsShort(d.files, d.active, d.boot, false, answer);
    assert es[..|es|] == es;
    HappenTrace(d, es);
    HappenFrame(d, es);
  }

  /** So the claim needs readable boot ids: from every running device, staging and restarting without one breaks it. */
  lemma {:induction false} UnreadableBootIdAsksTooEarly(d: Device, answer: Answer, cut: nat)
    requires Kept(d) && d.up && cut >= 16
    ensures var staged := After(d, StageUpdate(16));
            !NeverInStagingBoot(After(staged.(up := false), StartClient(false, answer, cut)).trace)
  {
    var staged := After(d, StageUpdate(16)).(up := false);
    StagedTrace(d);
    StagingBootAsksIffUnreadable(staged, false, answer);
    StartTrace(staged, answer, cut);
    var es := Controller(staged.files, staged.active, staged.boot, false, answer);
    var j :| 0 <= j < |es| && es[j] == Ask(answer);
    var trace := staged.trace + Tagged(staged.boot, es);
    assert trace[|d.trace|] == (d.boot, SetStaged(d.boot)) && trace[|staged.trace| + j] == (d.boot, Ask(answer));
  }

  lemma {:induction false} ControllerIsShort(f: Files, active: Slot, boot: nat, readable: bool, answer: Answer)
    ensures |Controller(f, active, boot, readable, answer)| <= 8
  {
  }

  // ------ reasons ------ //

  /** The slot failed, and the reason on file is bound to that very status file. */
  predicate Bound(dir: SlotDir) {
    Failed(dir.status) && dir.info.Some? && dir.info.value.stamp == dir.stamp
  }

  /** Nothing but slot_in_use differs. */
  predicate SameButInUse(dir: SlotDir, dir': SlotDir) {
    && dir'.status == dir.status && dir'.stamp == dir.stamp && dir'.cause == dir.cause
    && dir'.version == dir.version && dir'.info == dir.info
  }

  /** Events that leave every status and every reason. */
  predicate Mild(active: Slot, e: Event) { e.Ask? || e.DropStaged? || (e.SetInUse? && e.slot == active) }

  predicate OfSlot(active: Slot, e: Event) { Mild(active, e) || ((e.SetStatus? || e.SetInfo?) && e.slot == active) }

  lemma {:induction false} MildKeeps(f: Files, active: Slot, es: seq<Event>)
    requires forall e | e in es :: OfSlot(active, e)
    ensures var g := ApplyAll(f, es);
            && g.Dir(active.Other()) == f.Dir(active.Other())
            && ((forall e | e in es :: Mild(active, e)) ==> SameButInUse(f.Dir(active), g.Dir(active)))
    decreases |es|
  {
    if es != [] {
      assert es[0] in es;
      MildKeeps(Apply(f, es[0]), active, es[1..]);
    }
  }

  lemma {:induction false} ControllerIsOfSlot(f: Files, active: Slot, boot: nat, readable: bool, answer: Answer)
    ensures forall e | e in Controller(f, active, boot, readable, answer) :: OfSlot(active, e)
  {
    var first := Startup(f, active, false, answer);
    StartupPrefix(f, active, false, answer, |first|);
    forall e | e in first ensures OfSlot(active, e) {}
  }

  lemma {:induction false} SettledStatusIsMild(f: Files, active: Slot, answer: Answer)
    requires f.Dir(active).status == Some(SUCCESS) || Failed(f.Dir(active).status)
    ensures forall e | e in Startup(f, active, false, answer) :: Mild(active, e)
    ensures Booted(f, active, answer) == f.Dir(active).status
  {
    var first := Startup(f, active, false, answer);
    StartupPrefix(f, active, false, answer, |first|);
  }

  /** A startup that finds a success, or a failure with its reason bound, writes no status and no reason. */
  lemma {:induction false} SettledStartIsMild(f: Files, active: Slot, boot: nat, readable: bool, answer: Answer)
    requires f.Dir(active).status == Some(SUCCESS) || Bound(f.Dir(active))
    ensures forall e | e in Controller(f, active, boot, readable, answer) :: Mild(active, e)
  {
    var first := Startup(f, active, false, answer);
    SettledStatusIsMild(f, active, answer);
    MildKeeps(f, active, first);
    var g := ApplyAll(f, first);
    var second := ConcludeStaging(g, boot, readable, FinaliserAsks(f, active), answer);
    assert forall e | e in second :: Mild(active, e);
    MildKeeps(g, active, second);
    assert RecordWhy(ApplyAll(g, second), active, Booted(f, active, answer), true) == [];
  }

  /**
   * Wherever a startup is cut, whatever the DPI answers: a reason bound to a failed status stays, with
   * its status; a SUCCESS stays a SUCCESS; the other slot is untouched.
   */
  lemma {:induction false} StartupKeepsReasons(
      f: Files, active: Slot, boot: nat, readable: bool, answer: Answer, cut: nat)
    ensures var g := Cut(f, Controller(f, active, boot, readable, answer), cut);
            && (Bound(f.Dir(active)) ==>
                  && SameButInUse(f.Dir(active), g.Dir(active)) && Bound(g.Dir(active))
                  && LoadFailureInfo(g, active, g.Dir(active).status) == Some(f.Dir(active).info.value.reason))
            && (f.Dir(active).status == Some(SUCCESS) ==> SameButInUse(f.Dir(active), g.Dir(active)))
            && g.Dir(active.Other()) == f.Dir(active.Other())
  {
    var es := Controller(f, active, boot, readable, answer);
    var done := es[..Min(cut, |es|)];
    ControllerIsOfSlot(f, active, boot, readable, answer);
    if f.Dir(active).status == Some(SUCCESS) || Bound(f.Dir(active)) {
      SettledStartIsMild(f, active, boot, readable, answer);
    }
    forall e | e in done ensures e in es {}
    MildKeeps(f, active, done);
  }

  /** What the status control leaves in memory as a failure is the failure on disk. */
  lemma {:induction false} BootedIsOnDisk(f: Files, active: Slot, answer: Answer)
    requires Failed(Booted(f, active, answer))
    ensures ApplyAll(f, Startup(f, active, false, answer)).Dir(active).status == Booted(f, active, answer)
  {
    var es := Startup(f, active, false, answer);
    StartupPrefix(f, active, false, answer, |es|);
    assert es[..|es|] == es;
  }

  /** The files when the recording begins: the status control is done, the staging boot concluded. */
  function BeforeRecording(f: Files, active: Slot, boot: nat, readable: bool): Files {
    var g := ApplyAll(f, Startup(f, active, false, No));
    ApplyAll(g, ConcludeStaging(g, boot, readable, FinaliserAsks(f, active), No))
  }

  lemma {:induction false} RefusedStartRecords(f: Files, active: Slot, boot: nat, readable: bool)
    requires Ask(No) in Controller(f, active, boot, readable, No)
    ensures var h := BeforeRecording(f, active, boot, readable);
            ApplyAll(f, Controller(f, active, boot, readable, No)) ==
                ApplyAll(h, RecordWhy(h, active, Booted(f, active, No), true))
  {
    var first := Startup(f, active, false, No);
    var g := ApplyAll(f, first);
    var second := ConcludeStaging(g, boot, readable, FinaliserAsks(f, active), No);
    var third := RecordWhy(ApplyAll(g, second), active, Booted(f, active, No), true);
    StartupCalm(f, active, No);
    assert Controller(f, active, boot, readable, No) == first + second + third;
    ApplyConcat(f, first, second);
    ApplyConcat(f, first + second, third);
  }

  /** The failure that the status control holds is still the one on disk then. */
  lemma {:induction false} FailureIsOnDisk(f: Files, active: Slot, boot: nat, readable: bool)
    requires Failed(Booted(f, active, No))
    ensures BeforeRecording(f, active, boot, readable).Dir(active).status == Booted(f, active, No)
  {
    var g := ApplyAll(f, Startup(f, active, false, No));
    var second := ConcludeStaging(g, boot, readable, FinaliserAsks(f, active), No);
    BootedIsOnDisk(f, active, No);
    assert forall e | e in second :: Mild(active, e);
    MildKeeps(g, active, second);
  }

  lemma {:induction false} RecordingBinds(h: Files, active: Slot, booted: Option<Status>)
    requires h.Dir(active).status == booted && Failed(booted)
    ensures Bound(ApplyAll(h, RecordWhy(h, active, booted, true)).Dir(active))
  {
    var es := RecordWhy(h, active, booted, true);
    if es != [] { ApplyTwo(h, es[0], es[1]); }
  }

  /** A startup that completes after the DPI refused, on a slot that failed, leaves a reason bound. */
  lemma {:induction false} RefusalIsRecorded(f: Files, active: Slot, boot: nat, readable: bool)
    requires Ask(No) in Controller(f, active, boot, readable, No) && Failed(Booted(f, active, No))
    ensures Bound(ApplyAll(f, Controller(f, active, boot, readable, No)).Dir(active))
  {
    RefusedStartRecords(f, active, boot, readable);
    FailureIsOnDisk(f, active, boot, readable);
    RecordingBinds(BeforeRecording(f, active, boot, readable), active, Booted(f, active, No));
  }

  /** A trial that the finaliser finds refused is a failure. */
  lemma {:induction false} RefusedTrialFails(f: Files, active: Slot)
    requires FinaliserAsks(f, active)
    ensures Failed(Booted(f, active, No))
    ensures forall boot, readable :: Ask(No) in Controller(f, active, boot, readable, No)
  {
    StartupCalm(f, active, No);
  }

  // over lives

  lemma {:induction false} HappenFiles(d: Device, es: seq<Event>)
    ensures HappenAll(d, es).files == ApplyAll(d.files, es)
    decreases |es|
  {
    if es != [] { HappenFiles(Happen(d, es[0]), es[1..]); }
  }

  predicate OnlyStarts(m: Move) { m.Boot? || m.Die? || m.StartClient? }

  lemma {:induction false} StartMoveKeeps(d: Device, m: Move, slot: Slot)
    requires OnlyStarts(m) && (Bound(d.files.Dir(slot)) || d.files.Dir(slot).status == Some(SUCCESS))
    ensures SameButInUse(d.files.Dir(slot), After(d, m).files.Dir(slot))
  {
    if m.StartClient? {
      var es := Controller(d.files, d.active, d.boot, m.readable, m.answer);
      HappenFiles(d, es[..Min(m.cut, |es|)]);
      StartupKeepsReasons(d.files, d.active, d.boot, m.readable, m.answer, m.cut);
    }
  }

  lemma {:induction false} StepKeepsReasons(life: seq<Device>, moves: seq<Move>, k: nat, slot: Slot)
    requires IsLife(life, moves) && k < |moves| && OnlyStarts(moves[k])
    requires Bound(life[k].files.Dir(slot)) || life[k].files.Dir(slot).status == Some(SUCCESS)
    ensures SameButInUse(life[k].files.Dir(slot), life[k + 1].files.Dir(slot))
  {
    StartMoveKeeps(life[k], moves[k], slot);
  }

  /**
   * Over every life: boots into either slot, deaths and starts cut anywhere leave a bound reason
   * and a success of either slot as they are.
   */
  lemma {:induction false} ReasonsSurvive(life: seq<Device>, moves: seq<Move>, i: nat, j: nat, slot: Slot)
    requires IsLife(life, moves) && i <= j < |life| && forall k | i <= k < j :: OnlyStarts(moves[k])
    requires Bound(life[i].files.Dir(slot)) || life[i].files.Dir(slot).status == Some(SUCCESS)
    ensures SameButInUse(life[i].files.Dir(slot), life[j].files.Dir(slot))
    decreases j
  {
    if i < j {
      ReasonsSurvive(life, moves, i, j - 1, slot);
      StepKeepsReasons(life, moves, j - 1, slot);
    }
  }

  /**
   * And a reason recorded by a start that completed is what every later start finds, until
   * something else is written.
   */
  lemma {:induction false} RefusalIsRemembered(life: seq<Device>, moves: seq<Move>, i: nat, j: nat)
    requires IsLife(life, moves) && i < j < |life| && forall k | i < k < j :: OnlyStarts(moves[k])
    requires moves[i].StartClient? && moves[i].answer.No? && life[i + 1].up
    requires Failed(Booted(life[i].files, life[i].active, No))
    requires Ask(No) in Controller(life[i].files, life[i].active, life[i].boot, moves[i].readable, No)
    ensures Bound(life[j].files.Dir(life[i].active))
  {
    var d, m := life[i], moves[i];
    var es := Controller(d.files, d.active, d.boot, m.readable, No);
    assert es[..Min(m.cut, |es|)] == es;
    HappenFiles(d, es);
    RefusalIsRecorded(d.files, d.active, d.boot, m.readable);
    ReasonsSurvive(life, moves, i + 1, j, d.active);
  }
}
