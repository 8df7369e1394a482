/** Committing a replayed stage database: staged under a temporary name, linked to the output path, read back,
    and rolled back when anything raises. Ownership is decided by comparing the files themselves, so even a
    link that raised after taking effect is undone. */
module ReplayCommit {
  import opened Base
  import opened NoOverwrite

  datatype Step =
    | CheckOutput | MakeTemp | CloseTemp | Stage | CheckAgain | LinkOutput | ReadBack
    | CompareFiles | UnlinkOutput | RemoveTemp | RemoveTempAgain

  /** The temporary database exists, and the output path is not this operation's. */
  ghost predicate Pending(start: Folder, d: Folder, target: string, temp: string, ours: nat) {
    Working(start, d, {temp}, target, Some(ours)) && temp in d.names && d.names[temp] == ours
  }

  method Wait(ghost start: Folder, d: Folder, target: string, temp: string, ghost ours: nat, arrival: Option<bytes>)
    returns (after: Folder)
    requires Pending(start, d, target, temp, ours)
    ensures Pending(start, after, target, temp, ours)
    ensures target in after.names <==> target in d.names || arrival.Some?
    ensures Bound(after, target, Some(ours)) <==> Bound(d, target, Some(ours))
    ensures after.data[ours] == d.data[ours]
  {
    hide Working, Bound;
    after := Call(start, d, {temp}, target, Some(ours), arrival);
  }

  /** The link is reached, finds the path free both times it looks, and is made. */
  predicate Links(start: Folder, target: string, faults: Step -> Fault, others: Step -> Option<bytes>) {
    target !in start.names && others(CheckOutput).None? && faults(CheckOutput) == NoFault &&
    others(MakeTemp).None? && faults(MakeTemp) == NoFault && others(CloseTemp).None? && faults(CloseTemp) == NoFault &&
    others(Stage).None? && faults(Stage) == NoFault && others(CheckAgain).None? && faults(CheckAgain) == NoFault &&
    others(LinkOutput).None? && !Ineffective(faults(LinkOutput))
  }

  /** The body of the try block: stage, link, read back. */
  method Body(start: Folder, before: Folder, target: string, temp: string, staged: bytes, ours: nat,
              faults: Step -> Fault, others: Step -> Option<bytes>)
    returns (d: Folder, ok: bool)
    requires Pending(start, before, target, temp, ours) && !Bound(before, target, Some(ours))
    ensures Pending(start, d, target, temp, ours)
    ensures Bound(d, target, Some(ours)) <==>
      faults(Stage) == NoFault && faults(CheckAgain) == NoFault && target !in before.names && others(Stage).None? &&
      others(CheckAgain).None? && others(LinkOutput).None? && !Ineffective(faults(LinkOutput))
    ensures Bound(d, target, Some(ours)) ==> d.data[ours] == staged
    ensures ok <==> Bound(d, target, Some(ours)) && faults(LinkOutput) == NoFault && faults(ReadBack) == NoFault
  {
    hide Working, Bound;
    d := Wait(start, before, target, temp, ours, others(Stage));
    var written := WrittenBytes(faults(Stage), staged);
    FillKeeps(start, d, {temp}, target, ours, written);
    d := d.(data := d.data[ours := written]);
    if faults(Stage) != NoFault { return d, false; }
    d := Wait(start, d, target, temp, ours, others(CheckAgain));
    if faults(CheckAgain) != NoFault || target in d.names { return d, false; }
    d := Wait(start, d, target, temp, ours, others(LinkOutput));
    if Ineffective(faults(LinkOutput)) || target in d.names { return d, false; }
    LinkKeeps(start, d, {temp}, target, ours);
    d := d.(names := d.names[target := ours]);
    LinkedBound(d, target, ours);
    if faults(LinkOutput) != NoFault { return d, false; }
    d := Wait(start, d, target, temp, ours, others(ReadBack));
    return d, faults(ReadBack) == NoFault;
  }

  lemma LinkedBound(d: Folder, target: string, ours: nat)
    requires target in d.names && d.names[target] == ours
    ensures Bound(d, target, Some(ours))
  {
  }

  /** The rollback: unlink the output if it is this operation's own file. */
  method RollBack(ghost start: Folder, before: Folder, target: string, temp: string, ghost ours: nat,
                  faults: Step -> Fault, others: Step -> Option<bytes>)
    returns (d: Folder)
    requires Pending(start, before, target, temp, ours)
    ensures Pending(start, d, target, temp, ours)
    ensures Bound(d, target, Some(ours)) <==>
      Bound(before, target, Some(ours)) && (faults(CompareFiles) != NoFault || Ineffective(faults(UnlinkOutput)))
    ensures d.data[ours] == before.data[ours]
  {
    d := Wait(start, before, target, temp, ours, others(CompareFiles));
    var owned := faults(CompareFiles) == NoFault && target in d.names && temp in d.names &&
      d.names[target] == d.names[temp];
    if owned {
      d := Wait(start, d, target, temp, ours, others(UnlinkOutput));
      if !Ineffective(faults(UnlinkOutput)) {
        UnlinkTargetKeeps(start, d, {temp}, target, ours);
        d := Unlink(d, target);
      }
    }
  }

  method DropTemp(ghost start: Folder, before: Folder, target: string, temp: string, ghost ours: nat, fault: Fault,
                  arrival: Option<bytes>)
    returns (d: Folder)
    requires Working(start, before, {temp}, target, Some(ours))
    ensures Working(start, d, {temp}, target, Some(ours))
    ensures Bound(d, target, Some(ours)) <==> Bound(before, target, Some(ours))
    ensures d.data[ours] == before.data[ours]
    ensures temp in d.names <==> temp in before.names && Ineffective(fault)
  {
    hide Working, Bound;
    d := Call(start, before, {temp}, target, Some(ours), arrival);
    if !Ineffective(fault) {
      UnlinkTempKeeps(start, d, {temp}, target, Some(ours), temp);
      d := Unlink(d, temp);
    }
  }

  /** The commit and rollback part of a replay. mkstemp chooses a name not in use. A path present at the start,
      or taken by another process, keeps its file; a normal return leaves the output bound to exactly the staged
      bytes; a raise leaves it bound to this operation's file exactly when the link was made and the comparison
      or the unlinking that were to undo it failed. */
  method CommitReplay(start: Folder, target: string, temp: string, staged: bytes, faults: Step -> Fault,
                      others: Step -> Option<bytes>)
    returns (ok: bool, d: Folder, ghost ours: Option<nat>)
    requires FolderOk(start) && start.theirs.None? && temp != target && temp !in start.names
    ensures Kept(start, d, {temp}, target)
    ensures ok <==> Links(start, target, faults, others) && faults(LinkOutput) == NoFault && faults(ReadBack) == NoFault
    ensures ok ==> Bound(d, target, ours)
    ensures !ok ==> (Bound(d, target, ours) <==>
      Links(start, target, faults, others) && (faults(CompareFiles) != NoFault || Ineffective(faults(UnlinkOutput))))
    ensures Bound(d, target, ours) ==> ours.value !in start.data && d.data[ours.value] == staged
    ensures temp in d.names ==>
      (faults(MakeTemp) == After || faults(CloseTemp) != NoFault || Ineffective(faults(RemoveTempAgain)))
  {
    hide Working, Bound, Kept;
    ours := None;
    StartWorks(start, {temp}, target);
    d := Call(start, start, {temp}, target, ours, others(CheckOutput));
    if faults(CheckOutput) != NoFault || target in d.names {
      WorkingKept(start, d, {temp}, target, ours);
      return false, d, ours;
    }
    d := Call(start, d, {temp}, target, ours, others(MakeTemp));
    if Ineffective(faults(MakeTemp)) {
      WorkingKept(start, d, {temp}, target, ours);
      return false, d, ours;
    }
    CreateKeeps(start, d, {temp}, target, temp);
    var inode := d.next;
    ours, d := Some(inode), Create(d, temp);
    WorkingKept(start, d, {temp}, target, ours);
    CreatedUnbound(start, d, target, temp, inode);
    if faults(MakeTemp) != NoFault { return false, d, ours; }
    d := Wait(start, d, target, temp, inode, others(CloseTemp));
    WorkingKept(start, d, {temp}, target, ours);
    if faults(CloseTemp) != NoFault { return false, d, ours; }
    d, ok := Body(start, d, target, temp, staged, inode, faults, others);
    if !ok {
      d := RollBack(start, d, target, temp, inode, faults, others);
      d := DropTemp(start, d, target, temp, inode, faults(RemoveTemp), others(RemoveTemp));
    }
    d := DropTemp(start, d, target, temp, inode, faults(RemoveTempAgain), others(RemoveTempAgain));
    WorkingKept(start, d, {temp}, target, ours);
  }

  lemma StartWorks(start: Folder, spared: set<string>, target: string)
    requires FolderOk(start) && start.theirs.None? && target !in spared
    ensures Working(start, start, spared, target, None) && !Bound(start, target, None)
  {
  }

  lemma CreatedUnbound(start: Folder, d: Folder, target: string, temp: string, inode: nat)
    requires target !in d.names || d.names[target] != inode
    ensures !Bound(d, target, Some(inode))
  {
  }
}
