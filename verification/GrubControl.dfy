/**
 * The GRUB update flow as the object it is: BootControllerBase.pre_update and post_update with the
 * GRUB hooks, one write at a time, until the power is cut. Proved to issue the event lists of module
 * GrubSwitch in their order.
 */
module GrubControl {
  import opened StatusFiles
  import opened GrubSwitch

  class GrubBootController {
    var device: Device
    var power: nat

    ghost const start: Device
    ghost const budget: nat
    ghost var issued: seq<GrubEvent>

    ghost predicate Valid()
      reads this
    {
      && device == HappenAll(start, issued[..Min(budget, |issued|)])
      && power == budget - Min(budget, |issued|)
      && device.active == start.active
    }

    constructor (device: Device, power: nat)
      ensures Valid() && start == device && budget == power && issued == [] && this.device == device
    {
      this.device, this.power := device, power;
      start, budget, issued := device, power, [];
    }

    /** One write to grubenv, to the boot partition or to a slot. */
    method Do(e: GrubEvent)
      requires Valid()
      modifies this
      ensures Valid() && issued == old(issued) + [e]
    {
      if power > 0 {
        assert issued[..|issued|] == issued && (issued + [e])[..|issued| + 1] == issued + [e];
        HappenConcat(start, issued, [e]);
        HappenOne(device, e);
        device := Happen(device, e);
        power := power - 1;
      } else {
        assert (issued + [e])[..budget] == issued[..budget];
      }
      issued := issued + [e];
    }

    method DoAll(es: seq<Event>)
      requires Valid() && forall e | e in es :: !e.Ask?
      modifies this
      ensures Valid() && issued == old(issued) + Lift(start.active, es)
    {
      for k := 0 to |es|
        invariant Valid() && issued == old(issued) + Lift(start.active, es)[..k]
      {
        assert es[k] in es;
        Do(OnFiles(es[k]));
        assert Lift(start.active, es)[..k + 1] == Lift(start.active, es)[..k] + [OnFiles(es[k])];
      }
      assert Lift(start.active, es)[..|es|] == Lift(start.active, es);
    }

    method WriteTo(slot: Slot, n: nat)
      requires Valid()
      modifies this
      ensures Valid() && issued == old(issued) + Writes(slot, n)
    {
      for k := 0 to n
        invariant Valid() && issued == old(issued) + Writes(slot, k)
      {
        Do(WriteSlot(slot));
        assert Writes(slot, k + 1) == Writes(slot, k) + [WriteSlot(slot)];
      }
    }

    /** Migration, then the writes to the running slot. */
    method RewriteRunningSlot(setup: Setup, writes: nat)
      requires Valid() && !setup.Managed?
      modifies this
      ensures Valid() && issued == old(issued) + Bootstrap(start.active, setup, writes)
    {
      var active := device.active;
      MigrationOwns(active, setup);
      DoAll(Migrated(active, setup));
      WriteTo(active, writes + 1);
    }

    /**
     * A bootstrap at a start: everything is written to the running slot before it becomes the
     * default, grub.cfg last.
     */
    method BootstrapSteps(setup: Setup, writes: nat)
      requires Valid()
      modifies this
      ensures Valid()
      ensures issued == old(issued) + (Bootstrap(start.active, setup, writes) + TakeOver(start.active, setup))
    {
      if setup.Managed? {
        return;
      }
      RewriteRunningSlot(setup, writes);
      Do(SetDefault(device.active));
      Do(WriteGrubCfg);
    }

    method PreUpdateSteps()
      requires Valid()
      modifies this
      ensures Valid() && issued == old(issued) + GrubSwitch.PreUpdate(start.active)
    {
      var active := device.active;
      DoAll(PreUpdateCurrent(active));
      Do(WriteSlot(active.Other()));
      Do(OnFiles(WipeDir(active.Other())));
    }

    method PostUpdateSteps(version: string, config: nat)
      requires Valid()
      modifies this
      ensures Valid() && issued == old(issued) + GrubSwitch.PostUpdate(start.active, version, config)
    {
      var active := device.active;
      DoAll(PostUpdateStandby(active, version));
      WriteTo(active.Other(), config);
      Do(Arm(active, active.Other()));
    }

    /** A whole update: wherever the power is cut, what is on disk is a prefix of its writes. */
    method RunUpdate(version: string, image: nat, config: nat)
      requires Valid() && issued == []
      modifies this
      ensures Valid() && issued == Update(start.active, version, image, config)
      ensures device == HappenAll(start, Update(start.active, version, image, config)[..Min(budget, |issued|)])
    {
      PreUpdateSteps();
      WriteTo(device.active.Other(), image);
      PostUpdateSteps(version, config);
    }
  }
}
