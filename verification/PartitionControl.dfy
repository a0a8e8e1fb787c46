/**
 * PartitionImageBootController as the object it is, on top of its status control. Its startup and
 * its update steps are proved to issue the event lists of module PartitionImage, so that what is
 * proved there of every life of a device holds of them, wherever the power is cut.
 */
module PartitionControl {
  import opened StatusFiles
  import opened StatusControl
  import PartitionImage

  class PartitionImageBootController {
    const control: OTAStatusFilesControl
    const boot: nat
    var switchConcluded: bool
    var notCommitted: bool

    constructor (control: OTAStatusFilesControl, boot: nat)
      ensures this.control == control && this.boot == boot && !switchConcluded && !notCommitted
    {
      this.control, this.boot := control, boot;
      switchConcluded, notCommitted := false, false;
    }

    /** Ask the DPI; a refusal is remembered, and a call that fails otherwise ends the startup. */
    method Resume(answer: Answer) returns (ok: bool)
      requires control.Valid()
      modifies this`notCommitted, control`files, control`power, control`issued
      ensures control.Valid() && control.issued == old(control.issued) + [Ask(answer)]
      ensures ok == !answer.Raises? && notCommitted == (old(notCommitted) || answer.No?)
    {
      control.Do(Ask(answer));
      notCommitted := notCommitted || answer.No?;
      return !answer.Raises?;
    }

    /** Conclude and forget the staging boot. */
    method ConcludeStagingBoot(readable: bool, answer: Answer) returns (ok: bool)
      requires control.Valid()
      modifies this`notCommitted, control`files, control`power, control`issued
      ensures control.Valid()
      ensures var es := PartitionImage.ConcludeStaging(old(control.files), boot, readable, switchConcluded, answer);
              && control.issued == old(control.issued) + es
              && ok == (Ask(Raises) !in es)
              && notCommitted == (old(notCommitted) || (answer.No? && Ask(answer) in es))
    {
      ok := true;
      if switchConcluded {
        control.Do(DropStaged);
      } else {
        var staged := control.files.staged;
        if staged.Some? && (!readable || staged.value != boot) {
          ok := Resume(answer);
          if ok {
            control.Do(DropStaged);
          }
        }
      }
    }

    method RecordWhyNotCommitted()
      requires control.Valid() && !control.force
      modifies control`files, control`power, control`issued
      ensures control.Valid()
      ensures old(control.power) == 0 || control.issued == old(control.issued)
        + PartitionImage.RecordWhy(old(control.files), control.active, control.otaStatus, notCommitted)
    {
      if !notCommitted || !Failed(control.otaStatus) {
        return;
      }
      var known := control.LoadBootedFailureInfo();
      if known.None? {
        control.StoreInfo(PartitionImage.NOT_COMMITTED);
      }
    }

    /** __init__: wherever the power is cut, the files are where the event list of the startup takes them. */
    method Init(readable: bool, answer: Answer)
      requires control.Valid() && control.issued == [] && control.files == control.start && !control.force
      requires !switchConcluded && !notCommitted
      modifies this, control
      ensures control.Valid()
      ensures control.files == Cut(control.start,
          PartitionImage.Controller(control.start, control.active, boot, readable, answer), control.budget)
    {
      ghost var f, active, budget := control.start, control.active, control.budget;
      ghost var plan := PartitionImage.Controller(f, active, boot, readable, answer);
      ghost var first := Startup(f, active, false, answer);
      control.Init(answer);
      switchConcluded := control.finaliserCalled;
      notCommitted := control.finaliserCalled && answer.No?;
      if control.power == 0 {
        StoppedEarly(f, control.issued, first, plan, budget);
        return;
      }
      assert first[..|first|] == first && control.files == ApplyAll(f, first);
      if switchConcluded && answer.Raises? {
        return;
      }
      ghost var g := control.files;
      ghost var second := PartitionImage.ConcludeStaging(g, boot, readable, switchConcluded, answer);
      var ok := ConcludeStagingBoot(readable, answer);
      if !ok {
        return;
      }
      if control.power == 0 {
        StoppedEarly(f, control.issued, first + second, plan, budget);
        return;
      }
      assert control.issued[..|control.issued|] == control.issued;
      ApplyConcat(f, first, second);
      RecordWhyNotCommitted();
    }

    /** pre_update: the staging boot, the running slot, then the standby. */
    method PreUpdate()
      requires control.Valid()
      modifies control`files, control`power, control`issued
      ensures control.Valid()
      ensures control.issued == old(control.issued) + PartitionImage.PreUpdateDpi(control.active, boot)
    {
      control.Do(SetStaged(boot));
      control.PreUpdateCurrentSlot();
      control.PostUpdateStandbySlot("");
    }
  }
}
