/**
 * GRUB A/B switching over whole lives of a device
 * (src/otaclient/boot_control/_grub_new.py, _base.py, _ota_status_control.py): grubenv, the status
 * files and what is written to the slots, with a power cut between any two writes. GRUB boots
 * next_entry once and consumes it, and saved_entry otherwise.
 */
module GrubSwitch {
  import opened Prelude
  import opened StatusFiles

  datatype GrubEvent =
    | OnFiles(event: Event)
    | WriteSlot(slot: Slot)               // anything that changes the slot's partition or its boot files
    | SetDefault(slot: Slot)              // grubenv := saved_entry
    | Arm(saved: Slot, trial: Slot)       // grubenv := saved_entry, next_entry
    | WriteGrubCfg                        // the managed grub.cfg replaces whatever was there

  /**
   * `dirty` holds the slots written since they last ran, `foreign` those of them that were written
   * while the other slot was running. `symlink` says that grub.cfg is still the old controller's.
   */
  datatype Device = Device(
    files: Files, saved: Slot, next: Option<Slot>, dirty: set<Slot>, foreign: set<Slot>,
    symlink: bool, active: Slot, up: bool)

  function Happen(d: Device, e: GrubEvent): Device {
    match e
    case OnFiles(event) => d.(files := Apply(d.files, event))
    case WriteSlot(slot) =>
      d.(dirty := d.dirty + {slot}, foreign := if slot == d.active then d.foreign else d.foreign + {slot})
    case SetDefault(slot) => d.(saved := slot, next := None)
    case Arm(saved, trial) => d.(saved := saved, next := Some(trial))
    case WriteGrubCfg => d.(symlink := false)
  }

  function HappenAll(d: Device, es: seq<GrubEvent>): Device
    decreases |es|
  {
    if es == [] then d else HappenAll(Happen(d, es[0]), es[1..])
  }

  // ------ the controller, as event lists ------ //

  /** The finaliser of the status control: it writes grubenv and says yes, or raises. */
  function Finalised(active: Slot, e: Event): GrubEvent {
    if e == Ask(Yes) then SetDefault(active) else OnFiles(e)
  }

  function Lift(active: Slot, es: seq<Event>): seq<GrubEvent> {
    seq(|es|, i requires 0 <= i < |es| => Finalised(active, es[i]))
  }

  /** The status files that the old controller left for the running slot. */
  datatype Legacy = Legacy(status: Option<Status>, version: Option<string>, inUse: Option<Slot>)

  /**
   * How the boot control finds the system: managed, to be regenerated in place, not managed yet, or
   * run by the old controller.
   */
  datatype Setup = Managed | Regenerate | Fresh | Migrate(legacy: Legacy)

  /** _migrate_from_old_grub_control: each file is removed, then linked; slot_in_use is translated. */
  function Migration(active: Slot, legacy: Legacy): seq<Event> {
    (if legacy.status.Some? then [DropStatus(active), SetStatus(active, legacy.status.value, None)] else [])
    + (if legacy.version.Some? then [DropVersion(active), SetVersion(active, legacy.version.value)] else [])
    + (if legacy.inUse.Some? then [SetInUse(active, legacy.inUse.value)] else [])
  }

  function Migrated(active: Slot, setup: Setup): seq<Event> {
    if setup.Migrate? then Migration(active, setup.legacy) else []
  }

  /**
   * Up to the write of grubenv, a start that is not managed rewrites the running slot: its boot files,
   * its fstab, its grub defaults and hooks, its boot configuration (one write at least).
   */
  function Bootstrap(active: Slot, setup: Setup, writes: nat): seq<GrubEvent> {
    if setup.Managed? then [] else Lift(active, Migrated(active, setup)) + Writes(active, writes + 1)
  }

  function TakeOver(active: Slot, setup: Setup): seq<GrubEvent> {
    if setup.Managed? then [] else [SetDefault(active), WriteGrubCfg]
  }

  /** The start of the status control, on the files as the migration left them. */
  function StatusStart(d: Device, setup: Setup, raises: bool): seq<Event> {
    Startup(ApplyAll(d.files, Migrated(d.active, setup)), d.active, setup.Fresh?, if raises then Raises else Yes)
  }

  /** GrubBootController.__init__. */
  function Controller(d: Device, setup: Setup, writes: nat, raises: bool): seq<GrubEvent> {
    Bootstrap(d.active, setup, writes) + (TakeOver(d.active, setup) + Lift(d.active, StatusStart(d, setup, raises)))
  }

  predicate Raised(d: Device, setup: Setup, raises: bool) { Ask(Raises) in StatusStart(d, setup, raises) }

  function Writes(slot: Slot, n: nat): seq<GrubEvent> { seq(n, i => WriteSlot(slot)) }

  /** pre_update: status, slot_in_use and failure info of the running slot; prepare and clean the standby. */
  function PreUpdate(active: Slot): seq<GrubEvent> {
    Lift(active, PreUpdateCurrent(active)) + [WriteSlot(active.Other()), OnFiles(WipeDir(active.Other()))]
  }

  /** post_update: the standby's status files, its boot files and configs, and last the grubenv. */
  function PostUpdate(active: Slot, version: string, writes: nat): seq<GrubEvent> {
    Lift(active, PostUpdateStandby(active, version)) + Writes(active.Other(), writes) + [Arm(active, active.Other())]
  }

  function Update(active: Slot, version: string, image: nat, config: nat): seq<GrubEvent> {
    PreUpdate(active) + Writes(active.Other(), image) + PostUpdate(active, version, config)
  }

  // ------ lives of a device ------ //

  datatype Move =
    | Boot
    | StartClient(setup: Setup, writes: nat, raises: bool, cut: nat)
    // cut short by a crash or by an error
    | RunUpdate(version: string, image: nat, config: nat, cut: nat, survives: bool)
    | RecordFailure(cut: nat)
    | RecordAbort(cut: nat)
    | RecordReason(reason: string, cut: nat)
    | Die

  /** The old controller is migrated from exactly where its symlink is found. */
  predicate Can(d: Device, m: Move) {
    match m
    case Boot | Die => true
    case StartClient(setup, _, _, _) => setup.Migrate? <==> d.symlink
    case _ => d.up
  }

  function MoveEvents(d: Device, m: Move): seq<GrubEvent> {
    match m
    case Boot | Die => []
    case StartClient(setup, writes, raises, _) => Controller(d, setup, writes, raises)
    case RunUpdate(version, image, config, _, _) => Update(d.active, version, image, config)
    case RecordFailure(_) => Lift(d.active, OnFailure(d.files, d.active))
    case RecordAbort(_) => Lift(d.active, OnAbort(d.active))
    case RecordReason(reason, _) => Lift(d.active, StoreFailureInfo(d.files, d.active, reason))
  }

  function Booted(d: Device): Device {
    var entry := if d.next.Some? then d.next.value else d.saved;
    d.(next := None, active := entry, dirty := d.dirty - {entry}, foreign := d.foreign - {entry}, up := false)
  }

  /** Is otaclient up after the move? An update that ends in an error leaves it up. */
  predicate UpAfter(d: Device, m: Move, events: nat) {
    match m
    case Boot | Die => false
    case StartClient(setup, _, raises, cut) => cut >= events && !Raised(d, setup, raises)
    case RunUpdate(_, _, _, cut, survives) => cut >= events || survives
    case RecordFailure(cut) => cut >= events
    case RecordAbort(cut) => cut >= events
    case RecordReason(_, cut) => cut >= events
  }

  function After(d: Device, m: Move): Device {
    if m.Boot? then Booted(d)
    else
      var es := MoveEvents(d, m);
      var done := if m.Die? then 0 else Min(m.cut, |es|);
      HappenAll(d, es[..done]).(up := UpAfter(d, m, |es|))
  }

  /**
   * What the safety of the switch rests on: nothing is recorded as failed, and nothing is started,
   * once a trial is armed.
   */
  predicate Disciplined(d: Device, m: Move) { m.RunUpdate? || m.RecordFailure? ==> d.next.None? }

  predicate IsLife(life: seq<Device>, moves: seq<Move>) {
    && |life| == |moves| + 1
    && life[0].next.None? && !life[0].up && (life[0].saved == life[0].active || life[0].symlink)
    && life[0].saved !in life[0].dirty && life[0].active !in life[0].dirty && life[0].foreign <= life[0].dirty
    && forall i | 0 <= i < |moves| :: Can(life[i], moves[i]) && life[i + 1] == After(life[i], moves[i])
  }

  predicate DisciplinedLife(life: seq<Device>, moves: seq<Move>) {
    IsLife(life, moves) && forall i | 0 <= i < |moves| :: Disciplined(life[i], moves[i])
  }

  // ------ what every move keeps ------ //

  /** The slot is on record as the one being switched to. */
  predicate OnTrial(dir: SlotDir, slot: Slot) { dir.present && dir.status == Some(UPDATING) && dir.inUse == Some(slot) }

  predicate Kept(d: Device) {
    && d.saved !in d.foreign && d.active !in d.foreign && d.foreign <= d.dirty
    && (d.up ==> d.saved == d.active && !d.symlink)
    && (d.next.Some? ==>
          && d.active == d.saved && d.next == Some(d.saved.Other()) && !d.symlink
          && OnTrial(d.files.Dir(d.saved.Other()), d.saved.Other()))
    && (d.active != d.saved ==> d.next.None? && !d.up && (d.symlink || OnTrial(d.files.Dir(d.active), d.active)))
  }

  lemma {:induction false} HappenConcat(d: Device, es: seq<GrubEvent>, es': seq<GrubEvent>)
    ensures HappenAll(d, es + es') == HappenAll(HappenAll(d, es), es')
    decreases |es|
  {
    if es == [] {
      assert es + es' == es';
    } else {
      assert (es + es')[0] == es[0] && (es + es')[1..] == es[1..] + es';
      HappenConcat(Happen(d, es[0]), es[1..], es');
    }
  }

  lemma {:induction false} HappenOne(d: Device, e: GrubEvent)
    ensures HappenAll(d, [e]) == Happen(d, e)
  {
    assert [e][1..] == [];
  }

  /** Any prefix of a list is a prefix of its first part, or the first part and a prefix of the second. */
  lemma {:induction false} PrefixOfTwo(d: Device, es: seq<GrubEvent>, es': seq<GrubEvent>, n: nat)
    requires n <= |es| + |es'|
    ensures n <= |es| ==> HappenAll(d, (es + es')[..n]) == HappenAll(d, es[..n])
    ensures n > |es| ==> HappenAll(d, (es + es')[..n]) == HappenAll(HappenAll(d, es), es'[..n - |es|])
  {
    if n <= |es| {
      assert (es + es')[..n] == es[..n];
    } else {
      assert (es + es')[..n] == es + es'[..n - |es|];
      HappenConcat(d, es, es'[..n - |es|]);
    }
  }

  // a start

  /**
   * Every event of a start only touches the running slot and its files, the shared grub.cfg, or
   * makes the slot the default.
   */
  predicate OwnEvent(active: Slot, e: GrubEvent) {
    match e
    case OnFiles(event) =>
      || event.Ask?
      || ((event.SetStatus? || event.SetInUse? || event.SetVersion? || event.SetInfo?) && event.slot == active)
      || ((event.DropStatus? || event.DropVersion? || event.DropInfo?) && event.slot == active)
    case SetDefault(slot) => slot == active
    case WriteSlot(slot) => slot == active
    case WriteGrubCfg => true
    case Arm(_, _) => false
  }

  /** In a boot of saved_entry all of them are harmless. */
  lemma {:induction false} OwnEventsKept(d: Device, es: seq<GrubEvent>)
    requires Kept(d) && d.active == d.saved && forall e | e in es :: OwnEvent(d.active, e)
    ensures Kept(HappenAll(d, es)) && HappenAll(d, es).saved == d.saved && HappenAll(d, es).active == d.active
    ensures HappenAll(d, es).up == d.up && HappenAll(d, es).files.Dir(d.active.Other()) == d.files.Dir(d.active.Other())
    decreases |es|
  {
    if es != [] {
      assert es[0] in es;
      OwnEventsKept(Happen(d, es[0]), es[1..]);
    }
  }

  /**
   * So is what comes before the grubenv write in a trial boot: it leaves the trial on record, or
   * the symlink in place.
   */
  lemma {:induction false} BootstrapKept(d: Device, es: seq<GrubEvent>)
    requires Kept(d) && d.active != d.saved
    requires forall e | e in es ::
      (e.WriteSlot? && e.slot == d.active) || (d.symlink && e.OnFiles? && OwnEvent(d.active, e))
    ensures Kept(HappenAll(d, es)) && HappenAll(d, es).saved == d.saved && HappenAll(d, es).active == d.active
    decreases |es|
  {
    if es != [] {
      assert es[0] in es;
      BootstrapKept(Happen(d, es[0]), es[1..]);
    }
  }

  lemma {:induction false} LiftOwns(active: Slot, es: seq<Event>)
    requires forall e | e in es :: OwnEvent(active, OnFiles(e))
    ensures forall e | e in Lift(active, es) :: OwnEvent(active, e)
    ensures (forall e | e in es :: !e.Ask?) ==> forall e | e in Lift(active, es) :: e.OnFiles?
  {
    forall e | e in Lift(active, es) ensures OwnEvent(active, e) && ((forall x | x in es :: !x.Ask?) ==> e.OnFiles?) {
      var i :| 0 <= i < |es| && Lift(active, es)[i] == e;
      assert es[i] in es;
    }
  }

  lemma {:induction false} MigrationOwns(active: Slot, setup: Setup)
    ensures forall e | e in Migrated(active, setup) :: !e.Ask? && OwnEvent(active, OnFiles(e))
  {}

  lemma {:induction false} BootstrapOwns(active: Slot, setup: Setup, writes: nat)
    ensures forall e | e in Bootstrap(active, setup, writes) ::
              (e.WriteSlot? && e.slot == active) || (setup.Migrate? && e.OnFiles? && OwnEvent(active, e))
  {
    MigrationOwns(active, setup);
    LiftOwns(active, Migrated(active, setup));
    if !setup.Migrate? {
      assert Lift(active, []) == [];
    }
  }

  lemma {:induction false} StatusStartOwns(d: Device, setup: Setup, raises: bool)
    ensures forall e | e in Lift(d.active, StatusStart(d, setup, raises)) :: OwnEvent(d.active, e)
  {
    var f, answer := ApplyAll(d.files, Migrated(d.active, setup)), if raises then Raises else Yes;
    var es := StatusStart(d, setup, raises);
    StartupPrefix(f, d.active, setup.Fresh?, answer, |es|);
    forall e | e in es ensures OwnEvent(d.active, OnFiles(e)) {}
    LiftOwns(d.active, es);
  }

  /** In a managed trial boot the first thing a start does is to make the running slot the default. */
  lemma {:induction false} TrialStart(d: Device, raises: bool)
    requires Kept(d) && d.active != d.saved && !d.symlink
    ensures var es := Lift(d.active, StatusStart(d, Managed, raises));
            if raises then es == [OnFiles(Ask(Raises))] else es != [] && es[0] == SetDefault(d.active)
  {
    var answer := if raises then Raises else Yes;
    var f, active := d.files, d.active;
    assert LoadSlotInUse(f, active, false) == [];
    assert Startup(f, active, false, answer) == LoadStatus(f, active, false, answer);
    assert Startup(f, active, false, answer)[0] == Ask(answer);
  }

  /** From the grubenv write on the running slot is the default. */
  lemma {:induction false} DefaultFirstKept(d: Device, es: seq<GrubEvent>, n: nat)
    requires Kept(d) && !d.up && n <= |es| && forall e | e in es :: OwnEvent(d.active, e)
    requires d.active == d.saved || es == [OnFiles(Ask(Raises))] || (es != [] && es[0] == SetDefault(d.active))
    ensures Kept(HappenAll(d, es[..n]))
    ensures n == |es| ==> HappenAll(d, es[..n]).saved == d.active || es == [OnFiles(Ask(Raises))]
  {
    if n == 0 {
      assert es[..n] == [];
    } else if d.active == d.saved {
      OwnEventsKept(d, es[..n]);
    } else if es == [OnFiles(Ask(Raises))] {
      assert es[..n] == [es[0]];
      HappenOne(d, es[0]);
    } else {
      var d1 := Happen(d, es[0]);
      assert es[..n][0] == es[0] && es[..n][1..] == es[1..n];
      OwnEventsKept(d1, es[1..n]);
    }
  }

  /** What follows the bootstrap. */
  function Rest(d: Device, setup: Setup, raises: bool): seq<GrubEvent> {
    TakeOver(d.active, setup) + Lift(d.active, StatusStart(d, setup, raises))
  }

  lemma {:induction false} RestBegins(d: Device, setup: Setup, raises: bool)
    requires Kept(d) && (setup.Migrate? <==> d.symlink)
    ensures var es := Rest(d, setup, raises);
            && (forall e | e in es :: OwnEvent(d.active, e))
            && (|| d.active == d.saved
                || (es == [OnFiles(Ask(Raises))] && Raised(d, setup, raises))
                || (es != [] && es[0] == SetDefault(d.active)))
  {
    StatusStartOwns(d, setup, raises);
    if setup.Managed? {
      var es := Lift(d.active, StatusStart(d, setup, raises));
      assert Rest(d, setup, raises) == es;
      if d.active != d.saved {
        TrialStart(d, raises);
        if raises {
          assert es[0] == Finalised(d.active, StatusStart(d, setup, raises)[0]);
          assert Ask(Raises) in StatusStart(d, setup, raises);
        }
      }
    }
  }

  lemma {:induction false} SymlinkGoes(d: Device, es: seq<GrubEvent>)
    ensures HappenAll(d, es).symlink ==> d.symlink && WriteGrubCfg !in es
    decreases |es|
  {
    if es != [] { SymlinkGoes(Happen(d, es[0]), es[1..]); }
  }

  /** The part before the grubenv write, whole or cut. */
  lemma {:induction false} BootstrapPartKept(d: Device, setup: Setup, writes: nat, n: nat)
    requires Kept(d) && (setup.Migrate? <==> d.symlink) && n <= |Bootstrap(d.active, setup, writes)|
    ensures var d' := HappenAll(d, Bootstrap(d.active, setup, writes)[..n]);
            Kept(d') && d'.saved == d.saved && d'.active == d.active
  {
    var es := Bootstrap(d.active, setup, writes)[..n];
    BootstrapOwns(d.active, setup, writes);
    forall e | e in es ensures e in Bootstrap(d.active, setup, writes) {}
    if d.active == d.saved { OwnEventsKept(d, es); } else { BootstrapKept(d, es); }
  }

  lemma {:induction false} StartEventsKept(d: Device, setup: Setup, writes: nat, raises: bool, n: nat)
    requires Kept(d) && !d.up && (setup.Migrate? <==> d.symlink) && n <= |Controller(d, setup, writes, raises)|
    ensures var es := Controller(d, setup, writes, raises);
            && Kept(HappenAll(d, es[..n]))
            && (n == |es| && !Raised(d, setup, raises) ==>
                HappenAll(d, es[..n]).saved == d.active && !HappenAll(d, es[..n]).symlink)
  {
    var first, rest := Bootstrap(d.active, setup, writes), Rest(d, setup, raises);
    var d1 := HappenAll(d, first);
    assert first[..|first|] == first;
    BootstrapPartKept(d, setup, writes, |first|);
    KeepsActive(d, first);
    RestBegins(d, setup, raises);
    PrefixOfTwo(d, first, rest, n);
    if n <= |first| {
      BootstrapPartKept(d, setup, writes, n);
    } else {
      DefaultFirstKept(d1, rest, n - |first|);
    }
    if n == |first| + |rest| {
      assert rest[..|rest|] == rest;
      DefaultFirstKept(d1, rest, |rest|);
      PrefixOfTwo(d, first, rest, n);
      HappenConcat(d, first, rest);
      assert (first + rest)[..n] == first + rest;
      SymlinkGoes(d, first + rest);
      assert !setup.Managed? ==> rest[1] == WriteGrubCfg;
    }
  }

  lemma {:induction false} StartKept(d: Device, m: Move)
    requires Kept(d) && m.StartClient? && Can(d, m)
    ensures Kept(After(d, m))
  {
    var es := Controller(d, m.setup, m.writes, m.raises);
    var n := Min(m.cut, |es|);
    StartIgnoresUp(d, es[..n]);
    StartEventsKept(d.(up := false), m.setup, m.writes, m.raises, n);
    KeepsActive(d, es[..n]);
  }

  lemma {:induction false} StartIgnoresUp(d: Device, es: seq<GrubEvent>)
    ensures HappenAll(d.(up := false), es) == HappenAll(d, es).(up := false)
    decreases |es|
  {
    if es != [] { StartIgnoresUp(Happen(d, es[0]), es[1..]); }
  }

  // an update, and records

  /** What an update does before it arms the switch. */
  predicate UpdateEvent(active: Slot, e: GrubEvent) {
    e.OnFiles? || (e.WriteSlot? && e.slot == active.Other())
  }

  lemma {:induction false} UpdateEventsKept(d: Device, es: seq<GrubEvent>)
    requires Kept(d) && d.active == d.saved && d.next.None? && forall e | e in es :: UpdateEvent(d.active, e)
    ensures var d' := HappenAll(d, es);
            Kept(d') && d'.active == d.active && d'.saved == d.saved && d'.next.None? && d'.up == d.up
    decreases |es|
  {
    if es != [] {
      assert es[0] in es;
      UpdateEventsKept(Happen(d, es[0]), es[1..]);
    }
  }

  lemma {:induction false} LiftApplies(d: Device, es: seq<Event>)
    requires forall e | e in es :: !e.Ask?
    ensures HappenAll(d, Lift(d.active, es)) == d.(files := ApplyAll(d.files, es))
    ensures forall e | e in Lift(d.active, es) :: e.OnFiles?
    decreases |es|
  {
    if es != [] {
      var lifted := Lift(d.active, es);
      assert es[0] in es;
      assert lifted[0] == OnFiles(es[0]) && lifted[1..] == Lift(d.active, es[1..]);
      LiftApplies(Happen(d, lifted[0]), es[1..]);
    }
  }

  lemma {:induction false} WritesKeepFiles(d: Device, slot: Slot, n: nat)
    ensures HappenAll(d, Writes(slot, n)).files == d.files
    decreases n
  {
    if n > 0 {
      assert Writes(slot, n)[0] == WriteSlot(slot) && Writes(slot, n)[1..] == Writes(slot, n - 1);
      WritesKeepFiles(Happen(d, WriteSlot(slot)), slot, n - 1);
    }
  }

  lemma {:induction false} PostUpdateRecords(f: Files, active: Slot, version: string)
    ensures OnTrial(ApplyAll(f, PostUpdateStandby(active, version)).Dir(active.Other()), active.Other())
  {
    var es := PostUpdateStandby(active, version);
    assert es == [es[0], es[1]] + [es[2], es[3]];
    ApplyConcat(f, [es[0], es[1]], [es[2], es[3]]);
    ApplyTwo(f, es[0], es[1]);
    ApplyTwo(ApplyAll(f, [es[0], es[1]]), es[2], es[3]);
  }

  /** Everything of an update but its last write. */
  function Unarmed(active: Slot, version: string, image: nat, config: nat): seq<GrubEvent> {
    PreUpdate(active) + Writes(active.Other(), image)
    + Lift(active, PostUpdateStandby(active, version)) + Writes(active.Other(), config)
  }

  lemma {:induction false} UpdateSplits(active: Slot, version: string, image: nat, config: nat)
    ensures Update(active, version, image, config) ==
        Unarmed(active, version, image, config) + [Arm(active, active.Other())]
    ensures forall e | e in Unarmed(active, version, image, config) :: UpdateEvent(active, e)
  {
    forall e | e in Unarmed(active, version, image, config) ensures UpdateEvent(active, e) {
      if e in PreUpdate(active) {
        assert PreUpdateCurrent(active)[0].SetStatus?;
      }
    }
  }

  lemma {:induction false} UnarmedRecords(d: Device, version: string, image: nat, config: nat)
    ensures var d' := HappenAll(d, Unarmed(d.active, version, image, config));
            d'.active == d.active && OnTrial(d'.files.Dir(d.active.Other()), d.active.Other())
  {
    var active := d.active;
    var head := PreUpdate(active) + Writes(active.Other(), image);
    var post := Lift(active, PostUpdateStandby(active, version));
    var tail := Writes(active.Other(), config);
    HappenConcat(d, head + post, tail);
    HappenConcat(d, head, post);
    var d1 := HappenAll(d, head);
    KeepsActive(d, head);
    LiftApplies(d1, PostUpdateStandby(active, version));
    PostUpdateRecords(d1.files, active, version);
    WritesKeepFiles(HappenAll(d1, post), active.Other(), config);
    KeepsActive(HappenAll(d1, post), tail);
  }

  lemma {:induction false} KeepsActive(d: Device, es: seq<GrubEvent>)
    ensures HappenAll(d, es).active == d.active && HappenAll(d, es).up == d.up
    decreases |es|
  {
    if es != [] { KeepsActive(Happen(d, es[0]), es[1..]); }
  }

  lemma {:induction false} UpdateKept(d: Device, m: Move)
    requires Kept(d) && d.up && d.next.None? && m.RunUpdate?
    ensures Kept(After(d, m))
  {
    var es := Unarmed(d.active, m.version, m.image, m.config);
    var arm := [Arm(d.active, d.active.Other())];
    UpdateSplits(d.active, m.version, m.image, m.config);
    var n := Min(m.cut, |es| + 1);
    PrefixOfTwo(d, es, arm, n);
    if n <= |es| {
      UpdateEventsKept(d, es[..n]);
    } else {
      UpdateEventsKept(d, es);
      UnarmedRecords(d, m.version, m.image, m.config);
      assert arm[..n - |es|] == arm;
      HappenOne(HappenAll(d, es), arm[0]);
    }
  }

  lemma {:induction false} RecordKept(d: Device, m: Move)
    requires Kept(d) && d.up && (m.RecordAbort? || m.RecordReason? || (m.RecordFailure? && d.next.None?))
    ensures Kept(After(d, m))
  {
    var es := MoveEvents(d, m);
    var n := Min(m.cut, |es|);
    if m.RecordAbort? || m.RecordReason? {
      assert forall e | e in es[..n] :: OwnEvent(d.active, e);
      OwnEventsKept(d, es[..n]);
    } else {
      LiftApplies(d, OnFailure(d.files, d.active));
      assert forall e | e in es[..n] :: e in es;
      UpdateEventsKept(d, es[..n]);
    }
  }

  lemma {:induction false} MoveKept(d: Device, m: Move)
    requires Kept(d) && Can(d, m) && Disciplined(d, m)
    ensures Kept(After(d, m))
  {
    match m {
      case Boot =>
      case Die =>
      case StartClient(_, _, _, _) => StartKept(d, m);
      case RunUpdate(_, _, _, _, _) => UpdateKept(d, m);
      case RecordFailure(_) => RecordKept(d, m);
      case RecordAbort(_) => RecordKept(d, m);
      case RecordReason(_, _) => RecordKept(d, m);
    }
  }

  lemma {:induction false} LifeKept(life: seq<Device>, moves: seq<Move>, n: nat)
    requires DisciplinedLife(life, moves) && n < |life|
    ensures Kept(life[n])
  {
    if n > 0 {
      LifeKept(life, moves, n - 1);
      MoveKept(life[n - 1], moves[n - 1]);
    }
  }

  /**
   * Over every disciplined life, with the power cut anywhere and whatever the starts find, saved_entry
   * names a slot that was not written from the other slot since it last ran.
   */
  lemma {:induction false} SavedEntryIsIntact(life: seq<Device>, moves: seq<Move>, n: nat)
    requires DisciplinedLife(life, moves) && n < |life|
    ensures life[n].saved !in life[n].foreign
  {
    LifeKept(life, moves, n);
  }

  // ------ and what the starts themselves write ------ //

  /** A slot is untouched if nothing at all was written to it since it last ran. */
  predicate Untouched(d: Device) { d.saved !in d.dirty && d.active !in d.dirty }

  lemma {:induction false} WritesDirty(d: Device, slot: Slot, n: nat)
    ensures var d' := HappenAll(d, Writes(slot, n));
            d'.dirty == (if n == 0 then d.dirty else d.dirty + {slot}) && d'.saved == d.saved && d'.active == d.active
    decreases n
  {
    if n > 0 {
      assert Writes(slot, n)[0] == WriteSlot(slot) && Writes(slot, n)[1..] == Writes(slot, n - 1);
      WritesDirty(Happen(d, WriteSlot(slot)), slot, n - 1);
    }
  }

  /** Events that write no slot leave what is dirty. */
  lemma {:induction false} NoWrites(d: Device, es: seq<GrubEvent>)
    requires forall e | e in es :: OwnEvent(d.active, e) && !e.WriteSlot?
    ensures var d' := HappenAll(d, es);
            && d'.dirty == d.dirty && d'.active == d.active
            && (d'.saved == d.saved || d'.saved == d.active) && (SetDefault(d.active) in es ==> d'.saved == d.active)
            && ((forall e | e in es :: !e.SetDefault?) ==> d'.saved == d.saved)
    decreases |es|
  {
    if es != [] {
      assert es[0] in es;
      NoWrites(Happen(d, es[0]), es[1..]);
    }
  }

  /** How many events of a start come before it has made the default a written slot. */
  function Harmless(d: Device, setup: Setup, writes: nat): nat {
    |Migrated(d.active, setup)| + if d.active == d.saved then 0 else writes + 1
  }

  lemma {:induction false} BootstrapTouches(d: Device, setup: Setup, writes: nat, n: nat)
    requires !setup.Managed? && d.saved !in d.dirty && n <= |Bootstrap(d.active, setup, writes)|
    ensures |Bootstrap(d.active, setup, writes)| == |Migrated(d.active, setup)| + writes + 1
    ensures var d' := HappenAll(d, Bootstrap(d.active, setup, writes)[..n]);
            && d'.saved == d.saved && d'.active == d.active
            && d'.dirty == if n > |Migrated(d.active, setup)| then d.dirty + {d.active} else d.dirty
  {
    var active := d.active;
    var mig, own := Migrated(active, setup), Lift(active, Migrated(active, setup));
    var k := if n <= |own| then 0 else n - |own|;
    MigrationOwns(active, setup);
    LiftOwns(active, mig);
    PrefixOfTwo(d, own, Writes(active, writes + 1), n);
    NoWrites(d, if n <= |own| then own[..n] else own);
    if n > |own| {
      assert Writes(active, writes + 1)[..k] == Writes(active, k);
      WritesDirty(HappenAll(d, own), active, k);
    }
  }

  lemma {:induction false} RestIsSetDefault(d: Device, setup: Setup, raises: bool)
    ensures var es := Rest(d, setup, raises);
            && (forall e | e in es :: OwnEvent(d.active, e) && !e.WriteSlot?)
            && (!setup.Managed? ==> es != [] && es[0] == SetDefault(d.active))
  {
    StatusStartOwns(d, setup, raises);
    var es := StatusStart(d, setup, raises);
    forall e | e in Lift(d.active, es) ensures !e.WriteSlot? {
      var i :| 0 <= i < |es| && Lift(d.active, es)[i] == e;
    }
  }

  /** The device a start leaves is that after a part of its bootstrap, or after all of it and a part of the rest. */
  function StartPart(d: Device, m: Move): Device
    requires m.StartClient?
  {
    var first, rest := Bootstrap(d.active, m.setup, m.writes), Rest(d, m.setup, m.raises);
    if m.cut <= |first| then HappenAll(d, first[..m.cut])
    else HappenAll(HappenAll(d, first), rest[..Min(m.cut - |first|, |rest|)])
  }

  lemma {:induction false} StartIsPart(d: Device, m: Move)
    requires m.StartClient?
    ensures After(d, m).saved == StartPart(d, m).saved && After(d, m).dirty == StartPart(d, m).dirty
  {
    var first, rest := Bootstrap(d.active, m.setup, m.writes), Rest(d, m.setup, m.raises);
    var n := Min(m.cut, |first| + |rest|);
    assert MoveEvents(d, m) == first + rest;
    PrefixOfTwo(d, first, rest, n);
    if n == |first| && m.cut > n { assert first[..n] == first && rest[..0] == []; }
  }

  /** Past the first event after its bootstrap, a start has made the slot it wrote the default. */
  lemma {:induction false} DefaultTouched(d: Device, setup: Setup, writes: nat, raises: bool, k: nat)
    requires Untouched(d) && !setup.Managed? && 0 < k <= |Rest(d, setup, raises)|
    ensures var d' := HappenAll(HappenAll(d, Bootstrap(d.active, setup, writes)), Rest(d, setup, raises)[..k]);
            d'.saved in d'.dirty
  {
    var first, part := Bootstrap(d.active, setup, writes), Rest(d, setup, raises)[..k];
    assert first[..|first|] == first;
    BootstrapTouches(d, setup, writes, |first|);
    RestIsSetDefault(d, setup, raises);
    assert part[0] == SetDefault(d.active);
    NoWrites(HappenAll(d, first), part);
  }

  /**
   * A start leaves saved_entry naming a slot written since it last ran if and only if it is not a
   * managed one and got as far as its first write of the default slot, or, in a trial boot, as far
   * as making the slot it had written the default.
   */
  lemma {:induction false} StartTouchesDefaultIff(d: Device, m: Move)
    requires Untouched(d) && m.StartClient?
    ensures After(d, m).saved in After(d, m).dirty <==> !m.setup.Managed? && m.cut > Harmless(d, m.setup, m.writes)
  {
    var setup, first, rest := m.setup, Bootstrap(d.active, m.setup, m.writes), Rest(d, m.setup, m.raises);
    StartIsPart(d, m);
    RestIsSetDefault(d, setup, m.raises);
    if setup.Managed? {
      assert first == [];
      NoWrites(d, rest[..Min(m.cut, |rest|)]);
    } else if m.cut <= |first| {
      BootstrapTouches(d, setup, m.writes, m.cut);
    } else {
      BootstrapTouches(d, setup, m.writes, |first|);
      DefaultTouched(d, setup, m.writes, m.raises, Min(m.cut - |first|, |rest|));
    }
  }

  /** So a start keeps the default untouched wherever it is cut exactly when it is a managed one. */
  lemma {:induction false} StartIsQuietIff(d: Device, setup: Setup, writes: nat, raises: bool)
    requires Untouched(d)
    ensures setup.Managed? <==>
      forall cut: nat :: var d' := After(d, StartClient(setup, writes, raises, cut)); d'.saved !in d'.dirty
  {
    forall cut: nat
      ensures var d' := After(d, StartClient(setup, writes, raises, cut));
              d'.saved in d'.dirty <==> !setup.Managed? && cut > Harmless(d, setup, writes)
    {
      StartTouchesDefaultIff(d, StartClient(setup, writes, raises, cut));
    }
    if !setup.Managed? {
      var d' := After(d, StartClient(setup, writes, raises, Harmless(d, setup, writes) + 1));
      assert d'.saved in d'.dirty;
    }
  }

  /** The failing life, from every initial device: its first start bootstraps. */
  lemma {:induction false} BootstrapWritesTheDefault(d: Device, legacy: Legacy)
      returns (life: seq<Device>, moves: seq<Move>)
    requires IsLife([d], [])
    ensures DisciplinedLife(life, moves) && life[0] == d && |moves| == 1 && life[1].saved in life[1].dirty
  {
    var setup := if d.symlink then Migrate(legacy) else Regenerate;
    var m := StartClient(setup, 0, false, Harmless(d, setup, 0) + 1);
    StartTouchesDefaultIff(d, m);
    assert [d][0] == d;
    life, moves := [d, After(d, m)], [m];
  }

  lemma {:induction false} UpdateLeavesDefault(d: Device, m: Move)
    requires Kept(d) && d.up && Untouched(d) && m.RunUpdate?
    ensures Untouched(After(d, m))
  {
    var es := Unarmed(d.active, m.version, m.image, m.config);
    var arm := [Arm(d.active, d.active.Other())];
    UpdateSplits(d.active, m.version, m.image, m.config);
    var n := Min(m.cut, |es| + 1);
    PrefixOfTwo(d, es, arm, n);
    UpdateDirtiesStandby(d, if n <= |es| then es[..n] else es);
    if n > |es| {
      assert arm[..n - |es|] == arm;
      HappenOne(HappenAll(d, es), arm[0]);
    }
  }

  lemma {:induction false} ManagedMoveKept(d: Device, m: Move)
    requires Kept(d) && Can(d, m) && Disciplined(d, m) && Untouched(d) && (m.StartClient? ==> m.setup.Managed?)
    ensures Untouched(After(d, m))
  {
    match m {
      case Boot =>
      case Die =>
      case StartClient(setup, writes, raises, cut) =>
        StartTouchesDefaultIff(d, m);
        ManagedStartWritesNothing(d, m);
      case RunUpdate(_, _, _, _, _) => UpdateLeavesDefault(d, m);
      case RecordFailure(_) => RecordWritesNothing(d, m);
      case RecordAbort(_) => RecordWritesNothing(d, m);
      case RecordReason(_, _) => RecordWritesNothing(d, m);
    }
  }

  lemma {:induction false} ManagedStartWritesNothing(d: Device, m: Move)
    requires m.StartClient? && m.setup.Managed?
    ensures After(d, m).dirty == d.dirty && After(d, m).active == d.active
  {
    var rest := Rest(d, m.setup, m.raises);
    RestIsSetDefault(d, m.setup, m.raises);
    assert Controller(d, m.setup, m.writes, m.raises) == rest;
    NoWrites(d, rest[..Min(m.cut, |rest|)]);
  }

  lemma {:induction false} RecordWritesNothing(d: Device, m: Move)
    requires m.RecordAbort? || m.RecordFailure? || m.RecordReason?
    ensures After(d, m).dirty == d.dirty && After(d, m).active == d.active && After(d, m).saved == d.saved
  {
    var es := if m.RecordAbort? then OnAbort(d.active)
              else if m.RecordFailure? then OnFailure(d.files, d.active)
              else StoreFailureInfo(d.files, d.active, m.reason);
    LiftApplies(d, es);
    FilesOnly(d, MoveEvents(d, m)[..Min(m.cut, |MoveEvents(d, m)|)]);
  }

  lemma {:induction false} FilesOnly(d: Device, es: seq<GrubEvent>)
    requires forall e | e in es :: e.OnFiles?
    ensures var d' := HappenAll(d, es); d'.dirty == d.dirty && d'.active == d.active && d'.saved == d.saved
    decreases |es|
  {
    if es != [] {
      assert es[0] in es;
      FilesOnly(Happen(d, es[0]), es[1..]);
    }
  }

  /**
   * Over every disciplined life in which all starts are managed ones, saved_entry names a slot that
   * nothing wrote since it last ran.
   */
  lemma {:induction false} SavedEntryIsUntouched(life: seq<Device>, moves: seq<Move>, n: nat)
    requires DisciplinedLife(life, moves) && n < |life|
    requires forall i | 0 <= i < |moves| && moves[i].StartClient? :: moves[i].setup.Managed?
    ensures Untouched(life[n])
  {
    if n > 0 {
      SavedEntryIsUntouched(life, moves, n - 1);
      LifeKept(life, moves, n - 1);
      ManagedMoveKept(life[n - 1], moves[n - 1]);
    }
  }

  lemma {:induction false} StaysUp(d: Device, m: Move)
    requires Can(d, m) && !m.Boot?
    ensures After(d, m).active == d.active
  {
    if !m.Die? {
      var es := MoveEvents(d, m);
      KeepsActive(d, es[..Min(m.cut, |es|)]);
    }
  }

  lemma {:induction false} StepStays(life: seq<Device>, moves: seq<Move>, k: nat)
    requires IsLife(life, moves) && k < |moves| && !moves[k].Boot?
    ensures life[k + 1].active == life[k].active
  {
    StaysUp(life[k], moves[k]);
  }

  predicate StaysFor(life: seq<Device>, i: nat, j: nat) {
    j < |life| && forall k | i <= k < j :: life[k].active == life[k + 1].active
  }

  lemma {:induction false} SameActive(life: seq<Device>, i: nat, j: nat)
    requires i <= j && StaysFor(life, i, j)
    ensures life[j].active == life[i].active
    decreases j
  {
    if i < j { SameActive(life, i, j - 1); }
  }

  lemma {:induction false} SameBoot(life: seq<Device>, moves: seq<Move>, i: nat, j: nat)
    requires IsLife(life, moves) && i <= j < |life| && forall k | i <= k < j :: !moves[k].Boot?
    ensures life[j].active == life[i].active
  {
    forall k | i <= k < j ensures life[k].active == life[k + 1].active { StepStays(life, moves, k); }
    SameActive(life, i, j);
  }

  /**
   * A trial boot that ends before saved_entry is rewritten is followed by a boot of the slot that
   * staged it: boot i is the trial, boot j the next one.
   */
  lemma {:induction false} TrialFallsBack(life: seq<Device>, moves: seq<Move>, i: nat, j: nat)
    requires DisciplinedLife(life, moves) && i < j < |moves| && moves[i].Boot? && moves[j].Boot? && life[i].next.Some?
    requires forall k | i < k < j :: !moves[k].Boot?
    requires life[j].saved == life[i].saved
    ensures life[i + 1].active == life[i].active.Other() && life[j + 1].active == life[i].active
  {
    LifeKept(life, moves, i);
    LifeKept(life, moves, j);
    SameBoot(life, moves, i + 1, j);
  }

  // ------ what the safety rests on ------ //

  lemma {:induction false} UpdateDirtiesStandby(d: Device, es: seq<GrubEvent>)
    requires forall e | e in es :: UpdateEvent(d.active, e)
    ensures var d' := HappenAll(d, es);
            && d'.saved == d.saved && d'.active == d.active && d.dirty <= d'.dirty <= d.dirty + {d.active.Other()}
            && (WriteSlot(d.active.Other()) in es ==> d.active.Other() in d'.dirty)
    decreases |es|
  {
    if es != [] {
      assert es[0] in es;
      UpdateDirtiesStandby(Happen(d, es[0]), es[1..]);
    }
  }

  /**
   * An update leaves saved_entry intact, wherever it is cut, exactly when the running slot is the
   * default at its start.
   */
  lemma {:induction false} UpdateIsSafeIff(d: Device, version: string, image: nat, config: nat)
    requires d.saved !in d.dirty
    ensures (forall n | 0 <= n <= |Update(d.active, version, image, config)| ::
               var d' := HappenAll(d, Update(d.active, version, image, config)[..n]); d'.saved !in d'.dirty)
            <==> d.saved == d.active
  {
    var es, all := Unarmed(d.active, version, image, config), Update(d.active, version, image, config);
    var arm := [Arm(d.active, d.active.Other())];
    UpdateSplits(d.active, version, image, config);
    if d.saved == d.active {
      forall n | 0 <= n <= |all| ensures var d' := HappenAll(d, all[..n]); d'.saved !in d'.dirty {
        PrefixOfTwo(d, es, arm, n);
        if n <= |es| {
          UpdateDirtiesStandby(d, es[..n]);
        } else {
          UpdateDirtiesStandby(d, es);
          assert arm[..n - |es|] == arm;
          HappenOne(HappenAll(d, es), arm[0]);
        }
      }
    } else {
      var n := |PreUpdate(d.active)|;
      assert PreUpdate(d.active)[3] == WriteSlot(d.active.Other());
      assert all[..n] == PreUpdate(d.active) == es[..n];
      UpdateDirtiesStandby(d, all[..n]);
    }
  }

  /** A device on which otaclient runs from a slot that is not the default: the next update endangers the default. */
  predicate Astray(d: Device) { d.up && d.saved != d.active }

  /** An error recorded after the switch was armed makes its trial boot run on without becoming the default. */
  lemma {:induction false} FailureAfterArmingGoesAstray(d: Device, version: string)
    requires Kept(d) && d.up && d.next.None?
    ensures var armed := After(d, RunUpdate(version, 0, 0, |Update(d.active, version, 0, 0)|, true));
            && armed.up
            && var trial := Booted(After(armed, RecordFailure(2)));
            Can(trial, StartClient(Managed, 0, false, 0)) && Astray(After(trial, StartClient(Managed, 0, false, 0)))
  {
    var all := Update(d.active, version, 0, 0);
    var armed := After(d, RunUpdate(version, 0, 0, |all|, true));
    UpdateSplits(d.active, version, 0, 0);
    UnarmedRecords(d, version, 0, 0);
    KeepsActive(d, all);
    HappenConcat(d, Unarmed(d.active, version, 0, 0), [Arm(d.active, d.active.Other())]);
    HappenOne(HappenAll(d, Unarmed(d.active, version, 0, 0)), Arm(d.active, d.active.Other()));
    assert all[..|all|] == all;
    UpdateKept(d, RunUpdate(version, 0, 0, |all|, true));
    assert armed.next == Some(d.active.Other()) && OnTrial(armed.files.Dir(d.active.Other()), d.active.Other());
    TrialRecorded(armed);
  }

  lemma {:induction false} TrialRecorded(armed: Device)
    requires Kept(armed) && armed.up && armed.next.Some?
    ensures var trial := Booted(After(armed, RecordFailure(2)));
            Can(trial, StartClient(Managed, 0, false, 0)) && Astray(After(trial, StartClient(Managed, 0, false, 0)))
  {
    var es := OnFailure(armed.files, armed.active);
    assert es == [SetStatus(armed.active, FAILURE, None), SetStatus(armed.active.Other(), FAILURE, None)];
    LiftApplies(armed, es);
    ApplyTwo(armed.files, es[0], es[1]);
    var lifted := Lift(armed.active, es);
    assert lifted[..2] == lifted;
    var failed := After(armed, RecordFailure(2));
    assert failed.files == ApplyAll(armed.files, es);
    var trial := Booted(failed);
    assert trial.active == armed.active.Other() && trial.saved == armed.active;
    assert Startup(trial.files, trial.active, false, Yes) == [];
    assert Controller(trial, Managed, 0, false) == [];
  }

  /**
   * So does a second update started while a trial is armed, once it is cut short: its half-written
   * slot boots and stays.
   */
  lemma {:induction false} UpdateWhileArmedGoesAstray(armed: Device, version: string)
    requires Kept(armed) && armed.up && armed.next.Some?
    ensures var trial := Booted(After(armed, RunUpdate(version, 0, 0, 5, false)));
            Can(trial, StartClient(Managed, 0, false, 2)) && Astray(After(trial, StartClient(Managed, 0, false, 2)))
  {
    var active, standby := armed.active, armed.active.Other();
    var all := Update(active, version, 0, 0);
    assert all[..5] == PreUpdate(active);
    var own := Lift(active, PreUpdateCurrent(active));
    HappenConcat(armed, own, [WriteSlot(standby), OnFiles(WipeDir(standby))]);
    LiftApplies(armed, PreUpdateCurrent(active));
    var d1 := armed.(files := ApplyAll(armed.files, PreUpdateCurrent(active)));
    HappenConcat(d1, [WriteSlot(standby)], [OnFiles(WipeDir(standby))]);
    HappenOne(d1, WriteSlot(standby));
    HappenOne(Happen(d1, WriteSlot(standby)), OnFiles(WipeDir(standby)));
    assert [WriteSlot(standby)] + [OnFiles(WipeDir(standby))] == [WriteSlot(standby), OnFiles(WipeDir(standby))];
    var trial := Booted(After(armed, RunUpdate(version, 0, 0, 5, false)));
    assert trial.active == standby && trial.saved == active;
    assert trial.files.Dir(standby) == SlotDir(true, None, 0, None, None, None, None);
    WipedStart(trial);
  }

  lemma {:induction false} WipedStart(d: Device)
    requires d.files.Dir(d.active).inUse.None? && d.files.Dir(d.active).status.None?
    requires !d.symlink
    ensures var d' := After(d, StartClient(Managed, 0, false, 2)); d'.up && d'.saved == d.saved && d'.active == d.active
  {
    var es := Startup(d.files, d.active, false, Yes);
    ApplyOne(d.files, SetInUse(d.active, d.active));
    assert es == [SetInUse(d.active, d.active), SetStatus(d.active, INITIALIZED, None)];
    LiftApplies(d, es);
    assert Controller(d, Managed, 0, false) == Lift(d.active, es);
    assert Lift(d.active, es)[..2] == Lift(d.active, es);
  }
}
