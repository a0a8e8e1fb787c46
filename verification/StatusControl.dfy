/**
 * OTAStatusFilesControl as the object it is: its methods read the status files and rewrite them one
 * by one. `power` is the number of writes left until the power cut; a write after it does nothing.
 * Every method is proved to issue exactly its event list (module StatusFiles), so that what a power
 * cut leaves on disk is a prefix of it.
 */
module StatusControl {
  import opened Prelude
  import opened StatusFiles

  /** What was issued is what was planned, as far as there was power for it. */
  ghost predicate Follows(issued: seq<Event>, plan: seq<Event>, budget: nat) {
    issued == plan || (budget <= |issued| && budget <= |plan| && issued[..budget] == plan[..budget])
  }

  lemma {:induction false} FollowsCut(f: Files, issued: seq<Event>, plan: seq<Event>, budget: nat)
    requires Follows(issued, plan, budget)
    ensures Cut(f, issued, budget) == Cut(f, plan, budget)
  {
  }

  /** What is decided after a plan: by what is on disk while there is power, and by anything after that. */
  lemma {:induction false} FollowsOn(
      issued: seq<Event>, plan: seq<Event>, budget: nat, more: seq<Event>, more': seq<Event>)
    requires Follows(issued, plan, budget) && (|issued| < budget ==> more == more')
    ensures Follows(issued + more, plan + more', budget)
  {
    if budget <= |issued| && budget <= |plan| {
      assert (issued + more)[..budget] == issued[..budget] && (plan + more')[..budget] == plan[..budget];
    }
  }

  /** A process that stops for lack of power leaves what the whole plan would, cut there. */
  lemma {:induction false} StoppedEarly(f: Files, issued: seq<Event>, done: seq<Event>, plan: seq<Event>, budget: nat)
    requires Follows(issued, done, budget) && done <= plan && budget <= |issued|
    ensures Cut(f, issued, budget) == Cut(f, plan, budget)
  {
    FollowsOn(issued, done, budget, [], plan[|done|..]);
    assert done + plan[|done|..] == plan && issued + [] == issued;
    FollowsCut(f, issued, plan, budget);
  }

  class OTAStatusFilesControl {
    const active: Slot
    const force: bool
    var files: Files
    var power: nat
    var otaStatus: Option<Status>
    var finaliserCalled: bool

    ghost const start: Files       // the files and
    ghost const budget: nat        // the power this process started with
    ghost var issued: seq<Event>   // the events issued since, those after the power cut included

    ghost predicate Valid()
      reads this
    {
      files == Cut(start, issued, budget) && power == budget - Min(budget, |issued|)
    }

    constructor (active: Slot, force: bool, files: Files, power: nat)
      ensures this.active == active && this.force == force && start == files && budget == power
      ensures Valid() && issued == [] && this.files == files
    {
      this.active, this.force, this.files, this.power := active, force, files, power;
      otaStatus, finaliserCalled := None, false;
      start, budget, issued := files, power, [];
    }

    /** write_str_to_file_atomic, remove_file, or a call out of the process. */
    method Do(e: Event)
      requires Valid()
      modifies this`files, this`power, this`issued
      ensures Valid() && issued == old(issued) + [e]
    {
      if power > 0 {
        assert issued[..|issued|] == issued && (issued + [e])[..|issued| + 1] == issued + [e];
        ApplyConcat(start, issued, [e]);
        ApplyOne(files, e);
        files := Apply(files, e);
        power := power - 1;
      } else {
        assert (issued + [e])[..budget] == issued[..budget];
      }
      issued := issued + [e];
    }

    method LoadSlotInUseFile()
      requires Valid()
      modifies this`files, this`power, this`issued
      ensures Valid() && issued == old(issued) + LoadSlotInUse(old(files), active, force)
    {
      var loaded := files.Dir(active).inUse;
      if force || loaded.None? {
        Do(SetInUse(active, active));
      }
    }

    method LoadStatusFile(answer: Answer)
      requires Valid()
      modifies this
      ensures Valid() && issued == old(issued) + LoadStatus(old(files), active, force, answer)
      ensures otaStatus == BootedStatus(old(files), active, force, answer)
      ensures finaliserCalled == (!force && IsSwitchingBoot(old(files), active))
    {
      finaliserCalled := false;
      var loaded := files.Dir(active).status;
      if force {
        loaded := None;
      }
      if loaded.None? {
        Do(SetStatus(active, INITIALIZED, None));
        otaStatus := Some(INITIALIZED);
        return;
      }
      otaStatus := loaded;
      if loaded == Some(ABORTED) {
        Do(SetStatus(active, INITIALIZED, None));
      } else if InFlight(loaded) {
        if IsSwitchingBoot(files, active) {
          finaliserCalled := true;
          Do(Ask(answer));
          if answer.Raises? {
            otaStatus := None;
            return;
          }
          otaStatus := Some(Conclude(loaded.value, answer.Yes?));
          Do(SetStatus(active, otaStatus.value, None));
        } else {
          otaStatus := Some(Conclude(loaded.value, false));
          Do(SetStatus(active, otaStatus.value, None));
        }
      }
    }

    /** The constructor of the source; wherever the power is cut, a prefix of its event list is on disk. */
    method Init(answer: Answer)
      requires Valid() && issued == [] && files == start
      modifies this
      ensures Valid() && Follows(issued, Startup(start, active, force, answer), budget)
      ensures files == Cut(start, Startup(start, active, force, answer), budget)
      ensures var g := ApplyAll(start, LoadSlotInUse(start, active, force));
              power > 0 ==>
                && issued == Startup(start, active, force, answer)
                && otaStatus == BootedStatus(g, active, force, answer)
                && finaliserCalled == (!force && IsSwitchingBoot(g, active))
    {
      LoadSlotInUseFile();
      ghost var first, between := issued, files;
      assert first == LoadSlotInUse(start, active, force) && first[..|first|] == first;
      LoadStatusFile(answer);
      FollowsOn(first, first, budget, LoadStatus(between, active, force, answer),
          LoadStatus(ApplyAll(start, first), active, force, answer));
      FollowsCut(start, issued, Startup(start, active, force, answer), budget);
    }

    method PreUpdateCurrentSlot()
      requires Valid()
      modifies this`files, this`power, this`issued
      ensures Valid() && issued == old(issued) + PreUpdateCurrent(active)
    {
      Do(SetStatus(active, FAILURE, None));
      Do(SetInUse(active, active.Other()));
      Do(DropInfo(active));
    }

    method PostUpdateStandbySlot(version: string)
      requires Valid()
      modifies this`files, this`power, this`issued
      ensures Valid() && issued == old(issued) + PostUpdateStandby(active, version)
    {
      var standby := active.Other();
      Do(SetStatus(standby, UPDATING, None));
      Do(SetVersion(standby, version));
      Do(SetInUse(standby, standby));
      Do(DropInfo(standby));
    }

    method OnOperationFailure()
      requires Valid()
      modifies this`files, this`power, this`issued
      ensures Valid() && issued == old(issued) + OnFailure(old(files), active)
    {
      var standbyPresent := files.Dir(active.Other()).present;
      Do(SetStatus(active, FAILURE, None));
      if standbyPresent {
        Do(SetStatus(active.Other(), FAILURE, None));
      }
    }

    /** The status file is written first, and its stamp is read back into the failure info. */
    method StoreInfo(reason: string)
      requires Valid()
      modifies this`files, this`power, this`issued
      ensures Valid()
      ensures if old(power) > 0 then issued == old(issued) + StoreFailureInfo(old(files), active, reason)
          else files == old(files)
    {
      var failure := SetStatus(active, FAILURE, Some(reason));
      if power > 0 {
        assert issued[..|issued|] == issued && (issued + [failure])[..|issued| + 1] == issued + [failure];
        ApplyConcat(start, issued, [failure]);
        ApplyOne(files, failure);
      }
      Do(failure);
      var stamp := files.Dir(active).stamp;
      Do(SetInfo(active, Info(stamp, reason)));
      if old(power) == 0 {
        assert issued[..budget] == old(issued)[..budget];
      }
    }

    method LoadBootedFailureInfo() returns (reason: Option<string>)
      ensures reason == LoadFailureInfo(files, active, otaStatus)
    {
      if !Failed(otaStatus) {
        return None;
      }
      var dir := files.Dir(active);
      if dir.info.None? || dir.status.None? || dir.info.value.stamp != dir.stamp {
        return None;
      }
      return Some(dir.info.value.reason);
    }
  }
}
