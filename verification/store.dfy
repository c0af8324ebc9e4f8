/** The sequence-guarded store with any number of clients stepping through
    lock, load, check, replace and unlock, and what one save leaves behind
    (coordination/store.py:223-282, workflow_authority/atomic.py:35-76).

    A replace either lands or not, never in part; but the directory fsync after
    it may still raise, so a save can land and then raise. */
module Store {
  import opened Record
  import opened AtomicWrite

  datatype Doc<C> = Doc(sequence: nat, content: C)

  // ------------------------------------------------------------------ one save

  /** The documents on disk and in memory after a save, and what it raised. */
  datatype Saved<C> = Saved(disk: Doc<C>, document: Doc<C>, problem: Option<Problem>)

  predicate BothStandAt<C>(disk: Doc<C>, document: Doc<C>, expected: nat) {
    document.sequence == expected && disk.sequence == expected
  }

  /** save, its family validation aside. */
  function SaveDoes<C>(disk: Doc<C>, document: Doc<C>, expected: nat, end: WriteEnd): Saved<C> {
    if !BothStandAt(disk, document, expected) then Saved(disk, document, Some(StoreConflict))
    else
      var next := Doc(expected + 1, document.content);
      match end
      case Landed => Saved(next, next, None)
      case FailedBefore => Saved(disk, document, Some(WriteFailed))
      case LandedThenRaised => Saved(next, document, Some(WriteFailed))
  }

  class StoredDocument<C> {
    var sequence: nat
    var content: C

    function Value(): Doc<C>
      reads this
    {
      Doc(sequence, content)
    }

    constructor (d: Doc<C>)
      ensures Value() == d
    {
      sequence, content := d.sequence, d.content;
    }
  }

  class CoordinationStore<C> {
    const directory: Directory<Doc<C>>
    const first: C

    constructor (directory: Directory<Doc<C>>, first: C)
      ensures this.directory == directory && this.first == first
    {
      this.directory, this.first := directory, first;
    }

    /** What load reads: the default document until something was saved. */
    function OnDisk(): Doc<C>
      reads directory
    {
      if directory.file.Some? then directory.file.value else Doc(0, first)
    }

    method Load() returns (document: StoredDocument<C>)
      ensures fresh(document) && document.Value() == OnDisk()
    {
      document := new StoredDocument(OnDisk());
    }

    /** save after validation: both sequences are proved, the field is advanced,
        and a raising write rolls the field back. One that raised changed neither
        document exactly when it was a conflict or its write failed no later than
        the rename. A process that dies in the write has no memory left to roll
        back: that is a crash of the clients below. */
    method Save(document: StoredDocument<C>, expected: nat, name: nat, fault: Fault, unlinks: bool) returns (p: Option<Problem>)
      requires name !in directory.temps && !fault.Dies?
      modifies directory, document`sequence
      ensures Saved(OnDisk(), document.Value(), p) == SaveDoes(old(OnDisk()), old(document.Value()), expected, EndOf(fault))
      ensures p == Some(StoreConflict) ==> directory.Value() == old(directory.Value())
      ensures p == Some(WriteFailed) ==> fault.Raises?
      ensures p == Some(WriteFailed) ==>
                (OnDisk() == old(OnDisk()) && document.Value() == old(document.Value()) <==> Place(fault.at) <= Place(Rename))
    {
      if document.sequence != expected { return Some(StoreConflict); }
      if OnDisk().sequence != expected { return Some(StoreConflict); }
      document.sequence := expected + 1;
      NeverTorn(directory.Value(), name, document.Value(), fault, unlinks);
      var failed := directory.WriteJson(document.Value(), name, fault, unlinks);
      if !failed { return None; }
      document.sequence := expected;
      p := Some(WriteFailed);
    }
  }

  /** A save someone attempts, with whatever document and sequence they hold. */
  datatype Attempt<C> = Attempt(document: Doc<C>, expected: nat, end: WriteEnd)

  /** The document on disk after these attempts. */
  function Attempted<C>(disk: Doc<C>, attempts: seq<Attempt<C>>): Doc<C>
    decreases |attempts|
  {
    if attempts == [] then disk
    else
      var a := attempts[0];
      Attempted(SaveDoes(disk, a.document, a.expected, a.end).disk, attempts[1..])
  }

  lemma {:induction false} SequenceNeverFalls<C>(disk: Doc<C>, attempts: seq<Attempt<C>>)
    ensures disk.sequence <= Attempted(disk, attempts).sequence
    decreases |attempts|
  {
    if attempts != [] {
      var a := attempts[0];
      SequenceNeverFalls(SaveDoes(disk, a.document, a.expected, a.end).disk, attempts[1..]);
    }
  }

  /** A save that raised left both documents as they were exactly when the same
      save, its write landing, would now go through. When it did not, every later
      save at that sequence is a conflict and changes nothing, whatever was
      attempted in between. */
  lemma RaisedSaveKeptExactly<C>(disk: Doc<C>, document: Doc<C>, expected: nat, end: WriteEnd, later: seq<Attempt<C>>,
                                 again: Doc<C>, last: WriteEnd)
    requires BothStandAt(disk, document, expected) && SaveDoes(disk, document, expected, end).problem.Some?
    ensures var s := SaveDoes(disk, document, expected, end);
            && (s.disk == disk && s.document == document <==> SaveDoes(s.disk, s.document, expected, Landed).problem.None?)
            && (s.disk != disk ==>
                  var now := Attempted(s.disk, later);
                  SaveDoes(now, again, expected, last) == Saved(now, again, Some(StoreConflict)))
  {
    SequenceNeverFalls(SaveDoes(disk, document, expected, end).disk, later);
  }

  // ------------------------------------------------------------- many clients

  type ClientId = nat

  /** Where a client stands in its cycle. base is what it loaded, expected the
      sequence it holds, at the number of commits when its check passed. */
  datatype Phase<C> =
    | Out
    | Loaded(base: Doc<C>, doc: Doc<C>, expected: nat)
    | Checked(base: Doc<C>, doc: Doc<C>, expected: nat, at: nat)

  /** A landed replace: the document its client had loaded, and what it wrote. */
  datatype Commit<C> = Commit(from: Doc<C>, to: Doc<C>)

  datatype State<C> = State(
    disk: Doc<C>, holder: Option<ClientId>, clients: map<ClientId, Phase<C>>, log: seq<Commit<C>>,
    /** Every replace so far landed with no commit since its own check. */
    clean: bool)

  function Start<C>(first: C): State<C> { State(Doc(0, first), None, map[], [], true) }

  function PhaseOf<C>(s: State<C>, c: ClientId): Phase<C> { if c in s.clients then s.clients[c] else Out }

  function At<C>(s: State<C>, c: ClientId, p: Phase<C>): State<C> { s.(clients := s.clients[c := p]) }

  datatype Step<C> =
    | Acquire(c: ClientId)
    | Load(c: ClientId)
    | Mutate(c: ClientId, content: C)
    | Check(c: ClientId)
    | Replace(c: ClientId, end: WriteEnd)
    | Release(c: ClientId)
    | Crash(c: ClientId)

  /** One step of one client; a step that does not apply changes nothing. Only
      Acquire waits for the lock: nothing else here depends on who holds it. */
  function Next<C>(s: State<C>, step: Step<C>): State<C> {
    match step
    case Acquire(c) => if s.holder.None? then s.(holder := Some(c)) else s
    case Load(c) => At(s, c, Loaded(s.disk, s.disk, s.disk.sequence))
    case Mutate(c, content) =>
      (match PhaseOf(s, c)
       case Loaded(base, doc, expected) => At(s, c, Loaded(base, Doc(doc.sequence, content), expected))
       case _ => s)
    case Check(c) =>
      (match PhaseOf(s, c)
       case Loaded(base, doc, expected) =>
         if doc.sequence != expected || s.disk.sequence != expected then At(s, c, Out)
         else At(s, c, Checked(base, Doc(expected + 1, doc.content), expected, |s.log|))
       case _ => s)
    case Replace(c, end) =>
      (match PhaseOf(s, c)
       case Checked(base, doc, expected, at) =>
         if end.FailedBefore? then At(s, c, Loaded(base, Doc(expected, doc.content), expected))
         else
           State(doc, s.holder,
                 s.clients[c := if end.Landed? then Out else Loaded(base, Doc(expected, doc.content), expected)],
                 s.log + [Commit(base, doc)], s.clean && at == |s.log|)
       case _ => s)
    case Release(c) => if s.holder == Some(c) then At(s, c, Out).(holder := None) else s
    case Crash(c) => At(s, c, Out).(holder := if s.holder == Some(c) then None else s.holder)
  }

  function Run<C>(first: C, steps: seq<Step<C>>): State<C> {
    if steps == [] then Start(first) else Next(Run(first, steps[..|steps|-1]), steps[|steps|-1])
  }

  /** Only acquiring takes the lock, and only when it is free; only its holder's
      release or crash frees it, and leaves that client nothing. */
  lemma LockChangesExactly<C>(s: State<C>, step: Step<C>)
    ensures Next(s, step).holder
            == if step.Acquire? && s.holder.None? then Some(step.c)
               else if (step.Release? || step.Crash?) && s.holder == Some(step.c) then None
               else s.holder
    ensures step.Crash? || (step.Release? && s.holder == Some(step.c)) ==> PhaseOf(Next(s, step), step.c) == Out
  {
  }

  /** Only a checked client's replace that lands changes the disk, to what that
      client checked; and no step touches what another client holds. */
  lemma DiskChangesExactly<C(!new)>(s: State<C>, step: Step<C>)
    ensures var commits := step.Replace? && PhaseOf(s, step.c).Checked? && !step.end.FailedBefore?;
            && Next(s, step).disk == (if commits then PhaseOf(s, step.c).doc else s.disk)
            && Next(s, step).log == (if commits then s.log + [Commit(PhaseOf(s, step.c).base, PhaseOf(s, step.c).doc)] else s.log)
    ensures forall c :: c != step.c ==> PhaseOf(Next(s, step), c) == PhaseOf(s, c)
  {
  }

  function LastOf<C>(first: C, log: seq<Commit<C>>): Doc<C> {
    if log == [] then Doc(0, first) else log[|log|-1].to
  }

  /** No update is lost: each commit was made from the one before it. */
  ghost predicate Chain<C(!new)>(first: C, log: seq<Commit<C>>) {
    forall i :: 0 <= i < |log| ==> log[i].from == LastOf(first, log[..i])
  }

  /** In a chain, the i-th commit stands at sequence i + 1. */
  ghost predicate Numbered<C(!new)>(log: seq<Commit<C>>) {
    forall i :: 0 <= i < |log| ==> log[i].to.sequence == i + 1
  }

  /** What a client holds was on disk when it loaded it. */
  ghost predicate Recorded<C(!new)>(first: C, log: seq<Commit<C>>, base: Doc<C>) {
    exists j: nat :: j <= |log| && base == LastOf(first, log[..j])
  }

  ghost predicate PhaseOk<C(!new)>(first: C, s: State<C>, p: Phase<C>) {
    match p
    case Out => true
    case Loaded(base, doc, expected) =>
      doc.sequence == expected == base.sequence && Recorded(first, s.log, base)
    case Checked(base, doc, expected, at) =>
      && doc.sequence == expected + 1 && expected == base.sequence && at <= |s.log|
      && base == LastOf(first, s.log[..at]) && expected == at
  }

  /** While every replace was clean. */
  ghost predicate Invariant<C(!new)>(first: C, s: State<C>) {
    && Chain(first, s.log) && Numbered(s.log)
    && s.disk == LastOf(first, s.log)
    && (forall c :: c in s.clients ==> PhaseOk(first, s, s.clients[c]))
  }

  lemma LastSequence<C(!new)>(first: C, log: seq<Commit<C>>, j: nat)
    requires Numbered(log) && j <= |log|
    ensures LastOf(first, log[..j]).sequence == j
  {
  }

  lemma PhaseSurvives<C(!new)>(first: C, s: State<C>, s': State<C>, p: Phase<C>)
    requires PhaseOk(first, s, p) && s.log <= s'.log
    ensures PhaseOk(first, s', p)
  {
    match p
    case Out =>
    case Loaded(base, _, _) =>
      var j: nat :| j <= |s.log| && base == LastOf(first, s.log[..j]);
      assert s'.log[..j] == s.log[..j];
      assert Recorded(first, s'.log, base);
    case Checked(_, _, _, at) =>
      assert s'.log[..at] == s.log[..at];
  }

  lemma PhasesSurvive<C(!new)>(first: C, s: State<C>, s': State<C>, c: ClientId, p: Phase<C>)
    requires forall x :: x in s.clients ==> PhaseOk(first, s, s.clients[x])
    requires s.log <= s'.log && s'.clients == s.clients[c := p] && PhaseOk(first, s', p)
    ensures forall x :: x in s'.clients ==> PhaseOk(first, s', s'.clients[x])
  {
    forall x | x in s'.clients ensures PhaseOk(first, s', s'.clients[x]) {
      if x != c { PhaseSurvives(first, s, s', s.clients[x]); }
    }
  }

  lemma CleanCommitChains<C(!new)>(first: C, s: State<C>, base: Doc<C>, doc: Doc<C>)
    requires Chain(first, s.log) && Numbered(s.log)
    requires base == LastOf(first, s.log) && doc.sequence == |s.log| + 1
    ensures Chain(first, s.log + [Commit(base, doc)]) && Numbered(s.log + [Commit(base, doc)])
  {
    var log := s.log + [Commit(base, doc)];
    assert log[..|s.log|] == s.log;
    forall i | 0 <= i < |log| ensures log[i].from == LastOf(first, log[..i]) {
      if i < |s.log| { assert log[..i] == s.log[..i]; }
    }
  }

  lemma CheckPasses<C(!new)>(first: C, s: State<C>, base: Doc<C>)
    requires Numbered(s.log) && Recorded(first, s.log, base) && s.disk == LastOf(first, s.log) && base.sequence == s.disk.sequence
    ensures base == LastOf(first, s.log[..|s.log|]) && base.sequence == |s.log|
  {
    var j: nat :| j <= |s.log| && base == LastOf(first, s.log[..j]);
    LastSequence(first, s.log, j);
    LastSequence(first, s.log, |s.log|);
    assert s.log[..|s.log|] == s.log;
  }

  lemma LoadedIsRecorded<C(!new)>(first: C, s: State<C>)
    requires s.disk == LastOf(first, s.log)
    ensures Recorded(first, s.log, s.disk)
  {
    assert s.log[..|s.log|] == s.log;
  }

  lemma CleanStep<C(!new)>(first: C, s: State<C>, step: Step<C>)
    requires Invariant(first, s) && Next(s, step).clean
    ensures Invariant(first, Next(s, step))
  {
    var s' := Next(s, step);
    match step
    case Acquire(c) =>
      forall x | x in s.clients ensures PhaseOk(first, s', s.clients[x]) { PhaseSurvives(first, s, s', s.clients[x]); }
    case Load(c) =>
      LoadedIsRecorded(first, s);
      PhasesSurvive(first, s, s', c, PhaseOf(s', c));
    case Mutate(c, content) =>
      if s' != s {
        assert PhaseOk(first, s, s.clients[c]);
        PhasesSurvive(first, s, s', c, PhaseOf(s', c));
      }
    case Check(c) =>
      if PhaseOf(s, c).Loaded? {
        assert PhaseOk(first, s, s.clients[c]);
        if s.disk.sequence == s.clients[c].expected { CheckPasses(first, s, s.clients[c].base); }
        PhasesSurvive(first, s, s', c, PhaseOf(s', c));
      }
    case Replace(c, end) =>
      if PhaseOf(s, c).Checked? { CleanReplace(first, s, c, end); }
    case Release(c) =>
      if s.holder == Some(c) { PhasesSurvive(first, s, s', c, Out); }
    case Crash(c) =>
      PhasesSurvive(first, s, s', c, Out);
  }

  lemma CleanReplace<C(!new)>(first: C, s: State<C>, c: ClientId, end: WriteEnd)
    requires Invariant(first, s) && Next(s, Replace(c, end)).clean && c in s.clients && s.clients[c].Checked?
    ensures Invariant(first, Next(s, Replace(c, end)))
  {
    var s' := Next(s, Replace(c, end));
    var p := s.clients[c];
    assert PhaseOk(first, s, p);
    assert s.log[..|s.log|] == s.log;
    if !end.FailedBefore? {
      CleanCommitChains(first, s, p.base, p.doc);
      assert s'.log[..p.at] == s.log[..p.at];
    }
    assert Recorded(first, s'.log, p.base);
    PhasesSurvive(first, s, s', c, PhaseOf(s', c));
  }

  lemma {:induction false} CleanRun<C(!new)>(first: C, steps: seq<Step<C>>)
    requires Run(first, steps).clean
    ensures Invariant(first, Run(first, steps))
  {
    if steps != [] {
      CleanRun(first, steps[..|steps|-1]);
      CleanStep(first, Run(first, steps[..|steps|-1]), steps[|steps|-1]);
    }
  }

  lemma BrokenStaysBroken<C(!new)>(first: C, log: seq<Commit<C>>, more: seq<Commit<C>>)
    requires Chain(first, log + more)
    ensures Chain(first, log)
  {
    forall i | 0 <= i < |log| ensures log[i].from == LastOf(first, log[..i]) {
      assert (log + more)[..i] == log[..i] && (log + more)[i] == log[i];
    }
  }

  lemma LogOnlyGrows<C>(s: State<C>, step: Step<C>)
    ensures s.log <= Next(s, step).log && (Next(s, step).clean ==> s.clean)
    ensures Next(s, step).clean != s.clean ==> Next(s, step).log != s.log
  {
  }

  lemma DirtyReplaceBreaks<C(!new)>(first: C, s: State<C>, step: Step<C>)
    requires Invariant(first, s) && !Next(s, step).clean && s.clean
    ensures !Chain(first, Next(s, step).log)
  {
    var p := PhaseOf(s, step.c);
    var log := Next(s, step).log;
    assert PhaseOk(first, s, p);
    assert log[..|s.log|] == s.log && s.log[..|s.log|] == s.log;
    LastSequence(first, s.log, |s.log|);
    assert log[|s.log|].from == p.base;
    assert p.base.sequence < |s.log| && LastOf(first, log[..|s.log|]).sequence == |s.log|;
  }

  /** Whoever holds the lock: no update is lost exactly when no commit ever
      lands between another client's on-disk check and its replace. The sequence
      guard alone does not ensure that. */
  lemma {:induction false} NothingLostExactly<C(!new)>(first: C, steps: seq<Step<C>>)
    ensures Chain(first, Run(first, steps).log) <==> Run(first, steps).clean
  {
    if steps != [] {
      var s, step := Run(first, steps[..|steps|-1]), steps[|steps|-1];
      NothingLostExactly(first, steps[..|steps|-1]);
      LogOnlyGrows(s, step);
      if Next(s, step).clean {
        CleanRun(first, steps);
      } else if s.clean {
        CleanRun(first, steps[..|steps|-1]);
        DirtyReplaceBreaks(first, s, step);
      } else {
        StillBroken(first, s, step);
      }
    }
  }

  lemma StillBroken<C(!new)>(first: C, s: State<C>, step: Step<C>)
    requires !Chain(first, s.log)
    ensures !Chain(first, Next(s, step).log)
  {
    var log := Next(s, step).log;
    LogOnlyGrows(s, step);
    if Chain(first, log) {
      assert log == s.log + log[|s.log|..];
      BrokenStaysBroken(first, s.log, log[|s.log|..]);
    }
  }

  // --------------------------------------------------------- under the lock

  /** Every client loads, mutates, checks and replaces while it holds the lock,
      and acquires it before loading. */
  predicate Disciplined<C>(s: State<C>, step: Step<C>) {
    match step
    case Acquire(c) => PhaseOf(s, c).Out?
    case Load(c) => s.holder == Some(c)
    case Mutate(c, _) => s.holder == Some(c)
    case Check(c) => s.holder == Some(c)
    case Replace(c, _) => s.holder == Some(c)
    case Release(c) => true
    case Crash(c) => true
  }

  predicate AllDisciplined<C>(first: C, steps: seq<Step<C>>) {
    steps == []
    || (AllDisciplined(first, steps[..|steps|-1]) && Disciplined(Run(first, steps[..|steps|-1]), steps[|steps|-1]))
  }

  /** Only the holder is inside its cycle, and nothing committed since its check. */
  ghost predicate Exclusive<C(!new)>(s: State<C>) {
    && s.clean
    && (forall c :: c in s.clients && !s.clients[c].Out? ==> s.holder == Some(c))
    && (forall c :: c in s.clients && s.clients[c].Checked? ==> s.clients[c].at == |s.log|)
  }

  lemma ExclusiveStep<C(!new)>(s: State<C>, step: Step<C>)
    requires Exclusive(s) && Disciplined(s, step)
    ensures Exclusive(Next(s, step))
  {
  }

  lemma {:induction false} ExclusiveRun<C(!new)>(first: C, steps: seq<Step<C>>)
    requires AllDisciplined(first, steps)
    ensures Exclusive(Run(first, steps))
  {
    if steps != [] {
      ExclusiveRun(first, steps[..|steps|-1]);
      ExclusiveStep(Run(first, steps[..|steps|-1]), steps[|steps|-1]);
    }
  }

  /** With the lock honoured, whatever fails or crashes: every commit is derived
      from the immediately preceding one, the disk holds the last, and its
      sequence is the number of commits. */
  lemma LockedRunsLoseNothing<C(!new)>(first: C, steps: seq<Step<C>>)
    requires AllDisciplined(first, steps)
    ensures var s := Run(first, steps);
            Chain(first, s.log) && s.disk == LastOf(first, s.log) && s.disk.sequence == |s.log|
  {
    ExclusiveRun(first, steps);
    CleanRun(first, steps);
    var s := Run(first, steps);
    LastSequence(first, s.log, |s.log|);
    assert s.log[..|s.log|] == s.log;
  }

  /** Two clients that skip the lock: both checks pass before either replaces,
      and the second replace discards the first one's commit. */
  function LostUpdate(): seq<Step<string>> {
    [Load(1), Load(2), Mutate(1, "one"), Mutate(2, "two"), Check(1), Check(2), Replace(1, Landed), Replace(2, Landed)]
  }

  lemma {:induction false} RunSplits<C>(first: C, steps: seq<Step<C>>, step: Step<C>)
    ensures Run(first, steps + [step]) == Next(Run(first, steps), step)
  {
    assert (steps + [step])[..|steps|] == steps;
  }

  lemma LostUpdateStep(k: nat)
    requires k < |LostUpdate()|
    ensures Run("empty", LostUpdate()[..k + 1]) == Next(Run("empty", LostUpdate()[..k]), LostUpdate()[k])
  {
    RunSplits("empty", LostUpdate()[..k], LostUpdate()[k]);
    assert LostUpdate()[..k] + [LostUpdate()[k]] == LostUpdate()[..k + 1];
  }

  lemma BothMutate()
    ensures Run("empty", LostUpdate()[..4])
            == State(Doc(0, "empty"), None,
                     map[1 := Loaded(Doc(0, "empty"), Doc(0, "one"), 0), 2 := Loaded(Doc(0, "empty"), Doc(0, "two"), 0)],
                     [], true)
  {
    LostUpdateStep(0);
    LostUpdateStep(1);
    LostUpdateStep(2);
    LostUpdateStep(3);
    assert LostUpdate()[..0] == [];
  }

  lemma CheckPassesAt0(s: State<string>, c: ClientId, content: string)
    requires s.disk == Doc(0, "empty") && c in s.clients && s.clients[c] == Loaded(Doc(0, "empty"), Doc(0, content), 0) && s.log == []
    ensures Next(s, Check(c)) == At(s, c, Checked(Doc(0, "empty"), Doc(1, content), 0, 0))
  {
  }

  lemma BothChecksPass()
    ensures Run("empty", LostUpdate()[..6])
            == State(Doc(0, "empty"), None,
                     map[1 := Checked(Doc(0, "empty"), Doc(1, "one"), 0, 0), 2 := Checked(Doc(0, "empty"), Doc(1, "two"), 0, 0)],
                     [], true)
  {
    BothMutate();
    LostUpdateStep(4);
    LostUpdateStep(5);
    CheckPassesAt0(Run("empty", LostUpdate()[..4]), 1, "one");
    CheckPassesAt0(Run("empty", LostUpdate()[..5]), 2, "two");
  }

  /** The sequence guard passes twice at one sequence: the guard does not protect
      a store whose lock is misused. */
  lemma GuardAloneLosesAnUpdate()
    ensures var s := Run("empty", LostUpdate());
            && s.log == [Commit(Doc(0, "empty"), Doc(1, "one")), Commit(Doc(0, "empty"), Doc(1, "two"))]
            && s.disk == Doc(1, "two") && !Chain("empty", s.log)
  {
    BothChecksPass();
    LostUpdateStep(6);
    LostUpdateStep(7);
    assert LostUpdate()[..8] == LostUpdate();
    var s := Run("empty", LostUpdate());
    assert s.log[1].from == Doc(0, "empty") && s.log[..1][0].to == Doc(1, "one");
  }
}
