/** Publishing a file under a name without ever replacing what is there: by a hard link from a temporary name,
    with any system call failing before or after its effect, and with other processes free to take the name
    first. */
module NoOverwrite {
  import opened Base

  /** One directory: names bound to inodes, and inodes' contents. `theirs` is the inode another process bound
      the target name to while this one ran. */
  datatype Folder = Folder(names: map<string, nat>, data: map<nat, bytes>, next: nat, theirs: Option<nat>)

  /** How a call goes wrong: with no effect, with its effect, or, when writing, after some of the bytes. */
  datatype Fault = NoFault | Before | After | Cut(k: nat)

  ghost predicate FolderOk(d: Folder) {
    (forall n | n in d.names :: d.names[n] in d.data) && forall i | i in d.data :: i < d.next
  }

  /** Another process creates the target, if the name is free. */
  function Arrive(d: Folder, target: string, content: Option<bytes>): Folder {
    if content.Some? && target !in d.names
    then Folder(d.names[target := d.next], d.data[d.next := content.value], d.next + 1, Some(d.next))
    else d
  }

  function Create(d: Folder, name: string): Folder {
    d.(names := d.names[name := d.next], data := d.data[d.next := []], next := d.next + 1)
  }

  function Unlink(d: Folder, name: string): Folder {
    d.(names := d.names - {name})
  }

  /** Everything but the two names and what was created since is as it was; a target present at the start, or
      created by another process, is still bound to its inode, whose content no one changed. */
  ghost predicate Kept(start: Folder, d: Folder, spared: set<string>, target: string) {
    FolderOk(d) && start.next <= d.next &&
    (forall n | n !in spared && n != target ::
      (n in d.names <==> n in start.names) && (n in start.names ==> d.names[n] == start.names[n])) &&
    (forall i | i in start.data :: i in d.data && d.data[i] == start.data[i]) &&
    (target in start.names ==> target in d.names && d.names[target] == start.names[target] && d.theirs.None?) &&
    (d.theirs.Some? ==> target in d.names && d.names[target] == d.theirs.value && d.theirs.value >= start.next)
  }

  /** The target is bound to the inode this operation made. */
  predicate Bound(d: Folder, target: string, ours: Option<nat>) {
    ours.Some? && target in d.names && d.names[target] == ours.value
  }

  /** Kept, and the inode this operation made, if any, is its own. */
  ghost predicate Working(start: Folder, d: Folder, spared: set<string>, target: string, ours: Option<nat>) {
    Kept(start, d, spared, target) && FolderOk(start) && start.theirs.None? && target !in spared &&
    (ours.Some? ==> start.next <= ours.value < d.next && d.theirs != ours && ours.value in d.data) &&
    (target in d.names ==> target in start.names || d.theirs == Some(d.names[target]) || Bound(d, target, ours))
  }

  lemma CreateKeeps(start: Folder, d: Folder, spared: set<string>, target: string, temp: string)
    requires Working(start, d, spared, target, None) && temp !in d.names && temp in spared
    ensures Working(start, Create(d, temp), spared, target, Some(d.next))
  {
  }

  lemma FillKeeps(start: Folder, d: Folder, spared: set<string>, target: string, ours: nat, content: bytes)
    requires Working(start, d, spared, target, Some(ours))
    ensures Working(start, d.(data := d.data[ours := content]), spared, target, Some(ours))
    ensures Bound(d.(data := d.data[ours := content]), target, Some(ours)) <==> Bound(d, target, Some(ours))
  {
  }

  lemma LinkKeeps(start: Folder, d: Folder, spared: set<string>, target: string, ours: nat)
    requires Working(start, d, spared, target, Some(ours)) && target !in d.names
    ensures Working(start, d.(names := d.names[target := ours]), spared, target, Some(ours))
  {
  }

  lemma UnlinkTempKeeps(start: Folder, d: Folder, spared: set<string>, target: string, ours: Option<nat>, temp: string)
    requires Working(start, d, spared, target, ours) && temp in spared
    ensures Working(start, Unlink(d, temp), spared, target, ours)
    ensures Bound(Unlink(d, temp), target, ours) <==> Bound(d, target, ours)
  {
  }

  lemma UnlinkTargetKeeps(start: Folder, d: Folder, spared: set<string>, target: string, ours: nat)
    requires Working(start, d, spared, target, Some(ours)) && Bound(d, target, Some(ours))
    ensures Working(start, Unlink(d, target), spared, target, Some(ours))
  {
  }

  // ---------------------------------------------------------------------------
  // _write_no_overwrite

  /** Its system calls, in order; the last four clean up. */
  datatype Step =
    | OpenDir | OpenTemp | Chmod | Fdopen | Write | Flush | SyncFile | StatFile | CloseFile
    | Link | UnlinkTemp | SyncDir
    | StatTarget | UnlinkTarget | CleanTemp | CloseDir

  /** What happens around a call: another process may take the name first. */
  method Call(ghost start: Folder, d: Folder, ghost spared: set<string>, target: string, ghost ours: Option<nat>,
              arrival: Option<bytes>)
    returns (after: Folder)
    requires Working(start, d, spared, target, ours)
    ensures Working(start, after, spared, target, ours)
    ensures target in after.names <==> target in d.names || arrival.Some?
    ensures Bound(after, target, ours) <==> Bound(d, target, ours)
    ensures ours.Some? ==> after.data[ours.value] == d.data[ours.value]
    ensures forall n :: n != target ==> (n in after.names <==> n in d.names)
    ensures forall n :: n != target && n in d.names ==> after.names[n] == d.names[n]
  {
    return Arrive(d, target, arrival);
  }

  /** The temporary file is written and closed: what Prepare is to reach. */
  ghost predicate Staged(start: Folder, d: Folder, target: string, temp: string, content: bytes, inode: nat) {
    Working(start, d, {temp}, target, Some(inode)) && !Bound(d, target, Some(inode)) &&
    temp in d.names && d.names[temp] == inode && d.data[inode] == content
  }

  /** The directory and the new temporary file. `named` is set from the moment its name is chosen. */
  method OpenBoth(start: Folder, target: string, temp: string, faults: Step -> Fault, others: Step -> Option<bytes>)
    returns (d: Folder, dirOpen: bool, inode: Option<nat>, ghost ours: Option<nat>)
    requires FolderOk(start) && start.theirs.None? && temp != target
    ensures Working(start, d, {temp}, target, ours) && !Bound(d, target, ours)
    ensures dirOpen <==> faults(OpenDir) == NoFault
    ensures temp in start.names ==> inode.None? && temp in d.names && d.names[temp] == start.names[temp]
    ensures inode.Some? <==> faults(OpenDir) == NoFault && faults(OpenTemp) == NoFault && temp !in start.names
    ensures inode.Some? ==> ours == inode && Staged(start, d, target, temp, [], inode.value)
    ensures inode.Some? ==>
      (target !in d.names <==> target !in start.names && others(OpenDir).None? && others(OpenTemp).None?)
  {
    ours := None;
    d := Call(start, start, {temp}, target, ours, others(OpenDir));
    if faults(OpenDir) != NoFault { return d, false, None, ours; }
    d := Call(start, d, {temp}, target, ours, others(OpenTemp));
    if faults(OpenTemp) == Before || temp in d.names { return d, true, None, ours; }
    CreateKeeps(start, d, {temp}, target, temp);
    ours := Some(d.next);
    d := Create(d, temp);
    return d, true, if faults(OpenTemp) == NoFault then Some(d.next - 1) else None, ours;
  }

  /** A call with no effect of its own on the folder. */
  method Idle(ghost start: Folder, d: Folder, target: string, temp: string, ghost content: bytes, ghost inode: nat,
              step: Step, others: Step -> Option<bytes>)
    returns (after: Folder)
    requires Staged(start, d, target, temp, content, inode)
    ensures Staged(start, after, target, temp, content, inode)
    ensures target in after.names <==> target in d.names || others(step).Some?
  {
    hide Working, Bound;
    after := Call(start, d, {temp}, target, Some(inode), others(step));
  }

  /** What a write leaves in an empty file. */
  function WrittenBytes(fault: Fault, content: bytes): bytes {
    match fault
    case NoFault => content
    case Before => []
    case After => content
    case Cut(k) => if k <= |content| then content[..k] else content
  }

  /** From the mode of the temporary file to its closing. */
  method Fill(ghost start: Folder, before: Folder, target: string, temp: string, content: bytes, inode: nat,
              faults: Step -> Fault, others: Step -> Option<bytes>)
    returns (d: Folder, ok: bool)
    requires Staged(start, before, target, temp, [], inode)
    ensures Working(start, d, {temp}, target, Some(inode)) && !Bound(d, target, Some(inode))
    ensures ok <==> faults(Chmod) == NoFault && faults(Fdopen) == NoFault && faults(Write) == NoFault &&
                    faults(Flush) == NoFault && faults(SyncFile) == NoFault && faults(StatFile) == NoFault &&
                    faults(CloseFile) == NoFault
    ensures ok ==> Staged(start, d, target, temp, content, inode)
    ensures ok ==> (target !in d.names <==>
      target !in before.names && others(Chmod).None? && others(Fdopen).None? && others(Write).None? &&
      others(Flush).None? && others(SyncFile).None? && others(StatFile).None? && others(CloseFile).None?)
  {
    hide Working, Bound;
    d := Idle(start, before, target, temp, [], inode, Chmod, others);
    if faults(Chmod) != NoFault { return d, false; }
    d := Idle(start, d, target, temp, [], inode, Fdopen, others);
    if faults(Fdopen) != NoFault { return d, false; }
    d := Idle(start, d, target, temp, [], inode, Write, others);
    var written := WrittenBytes(faults(Write), content);
    FillKeeps(start, d, {temp}, target, inode, written);
    d := d.(data := d.data[inode := written]);
    if faults(Write) != NoFault { return d, false; }
    d := Idle(start, d, target, temp, content, inode, Flush, others);
    if faults(Flush) != NoFault { return d, false; }
    d := Idle(start, d, target, temp, content, inode, SyncFile, others);
    if faults(SyncFile) != NoFault { return d, false; }
    d := Idle(start, d, target, temp, content, inode, StatFile, others);
    if faults(StatFile) != NoFault { return d, false; }
    d := Idle(start, d, target, temp, content, inode, CloseFile, others);
    return d, faults(CloseFile) == NoFault;
  }

  /** No other process takes the name before the link. */
  predicate Untaken(start: Folder, target: string, others: Step -> Option<bytes>) {
    target !in start.names && others(OpenDir).None? && others(OpenTemp).None? && others(Chmod).None? &&
    others(Fdopen).None? && others(Write).None? && others(Flush).None? && others(SyncFile).None? &&
    others(StatFile).None? && others(CloseFile).None? && others(Link).None?
  }

  /** The link is reached, finds the name free, and is made. */
  predicate Links(start: Folder, target: string, temp: string, faults: Step -> Fault, others: Step -> Option<bytes>) {
    faults(OpenDir) == NoFault && faults(OpenTemp) == NoFault && temp !in start.names && faults(Chmod) == NoFault &&
    faults(Fdopen) == NoFault && faults(Write) == NoFault && faults(Flush) == NoFault && faults(SyncFile) == NoFault &&
    faults(StatFile) == NoFault && faults(CloseFile) == NoFault && Untaken(start, target, others) &&
    (faults(Link) == NoFault || faults(Link) == After)
  }

  predicate Ineffective(fault: Fault) {
    fault != NoFault && fault != After
  }

  /** The rest of the try block: link, drop the temporary name, flush the directory. */
  method Commit(start: Folder, before: Folder, target: string, temp: string, content: bytes, inode: nat,
                faults: Step -> Fault, others: Step -> Option<bytes>)
    returns (d: Folder, ok: bool, linked: bool, named: bool)
    requires Staged(start, before, target, temp, content, inode)
    ensures Working(start, d, {temp}, target, Some(inode)) && d.data[inode] == content
    ensures linked <==> target !in before.names && others(Link).None? && faults(Link) == NoFault
    ensures Bound(d, target, Some(inode)) <==>
      target !in before.names && others(Link).None? && !Ineffective(faults(Link))
    ensures ok <==> linked && faults(UnlinkTemp) == NoFault && faults(SyncDir) == NoFault
    ensures !named ==> temp !in d.names
    ensures ok ==> !named
  {
    d := Idle(start, before, target, temp, content, inode, Link, others);
    if Ineffective(faults(Link)) || target in d.names { return d, false, false, true; }
    LinkKeeps(start, d, {temp}, target, inode);
    d := d.(names := d.names[target := inode]);
    if faults(Link) != NoFault { return d, false, false, true; }
    d := Call(start, d, {temp}, target, Some(inode), others(UnlinkTemp));
    if !Ineffective(faults(UnlinkTemp)) {
      UnlinkTempKeeps(start, d, {temp}, target, Some(inode), temp);
      d := Unlink(d, temp);
    }
    if faults(UnlinkTemp) != NoFault { return d, false, true, true; }
    d := Call(start, d, {temp}, target, Some(inode), others(SyncDir));
    return d, faults(SyncDir) == NoFault, true, false;
  }

  /** The cleanup: the target, if this operation linked it and it is still the same file, and then the
      temporary name. */
  method CleanUp(ghost start: Folder, before: Folder, target: string, temp: string, undo: bool, inode: Option<nat>,
                 ghost ours: Option<nat>, named: bool, faults: Step -> Fault, others: Step -> Option<bytes>)
    returns (d: Folder)
    requires Working(start, before, {temp}, target, ours) && (undo ==> inode.Some? && inode == ours)
    requires undo ==> Bound(before, target, ours)
    ensures Working(start, d, {temp}, target, ours)
    ensures Bound(d, target, ours) <==>
      Bound(before, target, ours) && !(undo && faults(StatTarget) == NoFault && !Ineffective(faults(UnlinkTarget)))
    ensures ours.Some? ==> d.data[ours.value] == before.data[ours.value]
    ensures temp in d.names <==> temp in before.names && !(named && !Ineffective(faults(CleanTemp)))
    ensures temp in d.names ==> d.names[temp] == before.names[temp]
  {
    d := before;
    if undo {
      d := Call(start, d, {temp}, target, ours, others(StatTarget));
      if faults(StatTarget) == NoFault && target in d.names && d.names[target] == inode.value {
        d := Call(start, d, {temp}, target, ours, others(UnlinkTarget));
        if !Ineffective(faults(UnlinkTarget)) {
          UnlinkTargetKeeps(start, d, {temp}, target, inode.value);
          d := Unlink(d, target);
        }
      }
    }
    if named {
      d := Call(start, d, {temp}, target, ours, others(CleanTemp));
      if !Ineffective(faults(CleanTemp)) {
        UnlinkTempKeeps(start, d, {temp}, target, ours, temp);
        d := Unlink(d, temp);
      }
    }
  }

  /** Raising, the operation leaves the target bound to its own file exactly when the link was made and either
      raised, or a later call failed and so did the check or the removal that were to undo it. */
  predicate Stranded(start: Folder, target: string, temp: string, faults: Step -> Fault, others: Step -> Option<bytes>)
  {
    Links(start, target, temp, faults, others) &&
    (faults(Link) == After ||
     ((faults(UnlinkTemp) != NoFault || faults(SyncDir) != NoFault) &&
      (faults(StatTarget) != NoFault || Ineffective(faults(UnlinkTarget)))))
  }

  /** _write_no_overwrite. A name present at the start, or taken by another process, keeps its file; a normal
      return leaves the target bound to exactly the intended bytes; a raise leaves nothing of this operation at
      the target unless it is stranded. */
  method WriteNoOverwrite(start: Folder, target: string, temp: string, content: bytes, faults: Step -> Fault,
                          others: Step -> Option<bytes>)
    returns (ok: bool, d: Folder, ghost ours: Option<nat>)
    requires FolderOk(start) && start.theirs.None? && temp != target
    ensures Kept(start, d, {temp}, target)
    ensures ok <==> Links(start, target, temp, faults, others) && faults(Link) == NoFault &&
                    faults(UnlinkTemp) == NoFault && faults(SyncDir) == NoFault
    ensures ok ==> Bound(d, target, ours) && d.data[ours.value] == content && temp !in d.names
    ensures !ok ==> (Bound(d, target, ours) <==> Stranded(start, target, temp, faults, others))
    ensures Bound(d, target, ours) ==> ours.value !in start.data && d.data[ours.value] == content
    // a foreign file under the temporary name makes the operation fail, and is removed with it
    ensures temp in start.names ==>
      !ok && (temp in d.names ==> d.names[temp] == start.names[temp]) &&
      (temp !in d.names <==> faults(OpenDir) == NoFault && !Ineffective(faults(CleanTemp)))
  {
    hide Working, Bound, Kept;
    var dirOpen, inode;
    d, dirOpen, inode, ours := OpenBoth(start, target, temp, faults, others);
    if inode.None? {
      d := CleanUp(start, d, target, temp, false, None, ours, dirOpen, faults, others);
      WorkingKept(start, d, {temp}, target, ours);
      return false, d, ours;
    }
    var filled;
    d, filled := Fill(start, d, target, temp, content, inode.value, faults, others);
    if !filled {
      d := CleanUp(start, d, target, temp, false, None, ours, true, faults, others);
      WorkingKept(start, d, {temp}, target, ours);
      return false, d, ours;
    }
    var linked, named;
    d, ok, linked, named := Commit(start, d, target, temp, content, inode.value, faults, others);
    d := CleanUp(start, d, target, temp, linked && !ok, inode, ours, named, faults, others);
    WorkingKept(start, d, {temp}, target, ours);
  }

  lemma WorkingKept(start: Folder, d: Folder, spared: set<string>, target: string, ours: Option<nat>)
    requires Working(start, d, spared, target, ours)
    ensures Kept(start, d, spared, target)
    ensures Bound(d, target, ours) ==> ours.Some? && ours.value in d.data && ours.value !in start.data
  {
  }

  /** Two ways to be stranded: the link takes effect and then raises; or the last flush fails and so does the
      look at the target that was to precede its removal. */
  lemma StrandedExamples(start: Folder, target: string, temp: string)
    requires target !in start.names && temp !in start.names
    ensures Stranded(start, target, temp, step => if step == Link then After else NoFault, step => None)
    ensures Stranded(start, target, temp, step => if step in {SyncDir, StatTarget} then Before else NoFault,
                     step => None)
    ensures !Stranded(start, target, temp, step => if step == SyncDir then Before else NoFault, step => None)
  {
  }
}
