/** The atomic-replace write every protected store shares, step by step: a file
    prepared beside the protected one, then renamed over it, then a sync of the
    directory (workflow_authority/atomic.py:35-76). */
module AtomicWrite {
  import opened Record

  // ------------------------------------------------------------------- steps

  /** LeaveBlock touches nothing: an interrupt may still arrive there, after the
      rename and inside the handler's reach. */
  datatype Step =
    | MakeDirectory | MakeTemp | Restrict | Dump | SyncFile | Rename | LeaveBlock
    | OpenDirectory | SyncDirectory | CloseDirectory

  const STEPS: seq<Step> :=
    [MakeDirectory, MakeTemp, Restrict, Dump, SyncFile, Rename, LeaveBlock, OpenDirectory, SyncDirectory, CloseDirectory]

  /** Where a step stands in the order. */
  function Place(step: Step): (k: nat)
    ensures k < |STEPS| && STEPS[k] == step
  {
    match step
    case MakeDirectory => 0
    case MakeTemp => 1
    case Restrict => 2
    case Dump => 3
    case SyncFile => 4
    case Rename => 5
    case LeaveBlock => 6
    case OpenDirectory => 7
    case SyncDirectory => 8
    case CloseDirectory => 9
  }

  /** A directory as another process may find it. A file being prepared is there
      under its own name, with no content until it is dumped. */
  datatype Files<C> = Files(present: bool, file: Option<C>, temps: map<nat, Option<C>>)

  /** What one step does when it does not fail. */
  function Do<C>(fs: Files<C>, step: Step, name: nat, document: C): Files<C> {
    match step
    case MakeDirectory => fs.(present := true)
    case MakeTemp => fs.(temps := fs.temps[name := None])
    case Dump => fs.(temps := fs.temps[name := Some(document)])
    case Rename =>
      if name in fs.temps then fs.(file := fs.temps[name], temps := fs.temps - {name}) else fs
    case _ => fs
  }

  /** The steps before this one, done. */
  function Before<C>(fs: Files<C>, k: nat, name: nat, document: C): Files<C>
    requires k <= |STEPS|
  {
    if k == 0 then fs else Do(Before(fs, k - 1, name, document), STEPS[k - 1], name, document)
  }

  /** No fault; a step raises, with no effect; or the process dies there. */
  datatype Fault = Sound | Raises(at: Step) | Dies(at: Step)

  predicate Hits(f: Fault, step: Step) { !f.Sound? && f.at == step }

  /** One attempt at a write: the name its prepared file gets, the fault it meets,
      and whether an unlink of that file would work. */
  datatype Trial = Trial(name: nat, fault: Fault, unlinks: bool)

  /** How many steps are done. */
  function Reached(f: Fault): (k: nat)
    ensures k <= |STEPS|
  {
    if f.Sound? then |STEPS| else Place(f.at)
  }

  /** The handler covers the steps from the one after the prepared file is made
      to the end of the block: it unlinks that file, if it can, and raises on. */
  predicate Handled(step: Step) { Place(Restrict) <= Place(step) <= Place(LeaveBlock) }

  function Unlinked<C>(fs: Files<C>, name: nat, unlinks: bool): Files<C> {
    if unlinks then fs.(temps := fs.temps - {name}) else fs
  }

  /** What the whole write leaves. */
  function Written<C>(fs: Files<C>, name: nat, document: C, fault: Fault, unlinks: bool): Files<C> {
    var reached := Before(fs, Reached(fault), name, document);
    if fault.Raises? && Handled(fault.at) then Unlinked(reached, name, unlinks) else reached
  }

  /** How the write ends, told from the step at fault. */
  function EndOf(f: Fault): WriteEnd {
    if f.Sound? then Landed
    else if f.at.LeaveBlock? || f.at.OpenDirectory? || f.at.SyncDirectory? || f.at.CloseDirectory? then LandedThenRaised
    else FailedBefore
  }

  // -------------------------------------------------------------------- laws

  /** Where the prepared file and the protected one stand after k steps. */
  lemma {:induction false} Progress<C>(fs: Files<C>, k: nat, name: nat, document: C)
    requires k <= |STEPS| && name !in fs.temps
    ensures var at := Before(fs, k, name, document);
            && at.present == (fs.present || k > 0)
            && at.file == (if k > 5 then Some(document) else fs.file)
            && at.temps == (if 1 < k <= 5 then fs.temps[name := if k > 3 then Some(document) else None] else fs.temps)
  {
    if k > 0 {
      Progress(fs, k - 1, name, document);
      assert STEPS[0] == MakeDirectory && STEPS[1] == MakeTemp && STEPS[2] == Restrict && STEPS[3] == Dump
             && STEPS[4] == SyncFile && STEPS[5] == Rename && STEPS[6] == LeaveBlock;
      assert k > 7 ==> STEPS[k - 1].OpenDirectory? || STEPS[k - 1].SyncDirectory? || STEPS[k - 1].CloseDirectory?;
      if k == 6 { RenamedAway(fs.temps, name, Some(document)); }
    }
  }

  lemma RenamedAway<C>(temps: map<nat, Option<C>>, name: nat, content: Option<C>)
    requires name !in temps
    ensures temps[name := content] - {name} == temps
  {
  }

  /** What the whole write leaves, in one line a part. */
  lemma WrittenExactly<C>(fs: Files<C>, name: nat, document: C, fault: Fault, unlinks: bool)
    requires name !in fs.temps
    ensures var k := Reached(fault);
            var prepared := fs.temps[name := if k > Place(Dump) then Some(document) else None];
            Written(fs, name, document, fault, unlinks)
            == Files(fs.present || k > Place(MakeDirectory),
                     if k > Place(Rename) then Some(document) else fs.file,
                     if k <= Place(MakeTemp) || k > Place(Rename) || (fault.Raises? && unlinks) then fs.temps else prepared)
  {
    Progress(fs, Reached(fault), name, document);
    RenamedAway(fs.temps, name, None);
    RenamedAway(fs.temps, name, Some(document));
  }

  /** The protected file is only ever the old one or the whole new one: new
      exactly when the write did not fail before the rename. */
  lemma NeverTorn<C>(fs: Files<C>, name: nat, document: C, fault: Fault, unlinks: bool)
    requires name !in fs.temps
    ensures Written(fs, name, document, fault, unlinks).file
            == (if EndOf(fault).FailedBefore? then fs.file else Some(document))
  {
    Progress(fs, Reached(fault), name, document);
  }

  /** A raising write leaves its prepared file behind exactly when it fails
      between making it and the rename and cannot unlink it. */
  lemma LeavesNothingBehind<C>(fs: Files<C>, name: nat, document: C, fault: Fault, unlinks: bool)
    requires name !in fs.temps && !fault.Dies?
    ensures var temps := Written(fs, name, document, fault, unlinks).temps;
            && (name in temps <==> fault.Raises? && Place(MakeTemp) < Place(fault.at) <= Place(Rename) && !unlinks)
            && temps - {name} == fs.temps
  {
    Progress(fs, Reached(fault), name, document);
  }

  /** A write that raises has landed exactly when the rename came before the
      fault: an interrupt at the end of the block, or the directory not opened,
      not synced or not closed. */
  lemma LandsThenRaisesExactly<C>(fs: Files<C>, name: nat, document: C, at: Step, unlinks: bool)
    requires name !in fs.temps && fs.file != Some(document)
    ensures Written(fs, name, document, Raises(at), unlinks).file == Some(document) <==> Place(Rename) < Place(at)
    ensures EndOf(Raises(at)).LandedThenRaised? <==> Place(Rename) < Place(at)
    ensures Written(fs, name, document, Raises(SyncDirectory), unlinks).file == Some(document)
  {
    Progress(fs, Place(at), name, document);
    Progress(fs, Place(SyncDirectory), name, document);
  }

  // --------------------------------------------------------------- the write

  class Directory<C> {
    var present: bool
    var file: Option<C>
    var temps: map<nat, Option<C>>

    function Value(): Files<C>
      reads this
    {
      Files(present, file, temps)
    }

    constructor ()
      ensures Value() == Files(false, None, map[])
    {
      present, file, temps := false, None, map[];
    }

    /** atomic_write_json, its fault at any one step. */
    method WriteJson(document: C, name: nat, fault: Fault, unlinks: bool) returns (failed: bool)
      requires name !in temps
      modifies this
      ensures Value() == Written(old(Value()), name, document, fault, unlinks)
      ensures failed == !fault.Sound?
    {
      WrittenExactly(Value(), name, document, fault, unlinks);
      if Hits(fault, MakeDirectory) { return true; }
      present := true;
      if Hits(fault, MakeTemp) { return true; }
      temps := temps[name := None];
      failed := ReplaceFile(document, name, fault);
      if failed {
        if fault.Raises? && unlinks { temps := temps - {name}; }
        return;
      }
      failed := Hits(fault, OpenDirectory) || Hits(fault, SyncDirectory) || Hits(fault, CloseDirectory);
    }

    /** The block: restrict, dump, sync, rename. */
    method ReplaceFile(document: C, name: nat, fault: Fault) returns (failed: bool)
      requires name in temps && temps[name] == None && Reached(fault) >= Place(Restrict)
      modifies this`file, this`temps
      ensures failed == (!fault.Sound? && Handled(fault.at))
      ensures Reached(fault) > Place(Rename) ==> file == Some(document) && temps == old(temps) - {name}
      ensures Reached(fault) <= Place(Rename) ==>
                && file == old(file)
                && temps == old(temps)[name := if Reached(fault) > Place(Dump) then Some(document) else None]
    {
      if Hits(fault, Restrict) || Hits(fault, Dump) { return true; }
      temps := temps[name := Some(document)];
      if Hits(fault, SyncFile) || Hits(fault, Rename) { return true; }
      file, temps := temps[name], temps - {name};
      failed := Hits(fault, LeaveBlock);
    }
  }
}
