/** Many clients of one service document: each holds the lock, makes one service
    call on what it loaded, validates, checks and writes, with a fault possible at
    any step of a write and a crash anywhere. What they leave is a run of the
    calls that committed (coordination/store.py:223-282 with
    coordination/service.py:104-349). */
module Clients {
  import opened Record
  import opened Documents
  import opened Service
  import opened Runs
  import opened AtomicWrite
  import S = Store

  // ----------------------------------------------------- documents in the store

  /** A document as the store keeps it: its sequence apart from its families. */
  function Stored(d: Document): S.Doc<Document> { S.Doc(d.sequence, d.(sequence := 0)) }

  function Read(x: S.Doc<Document>): Document { x.content.(sequence := x.sequence) }

  lemma ReadStored(d: Document)
    ensures Read(Stored(d)) == d
  {
  }

  const EMPTY: Document := DEFAULT_DOCUMENT

  // ------------------------------------------------------------------ the calls

  /** This content is what some call that writes made of that document. */
  ghost predicate MadeBy(base: S.Doc<Document>, content: Document, op: Operation) {
    && Apply(Read(base), op).Ok? && Apply(Read(base), op).value.writes
    && content == Apply(Read(base), op).value.document.(sequence := 0)
  }

  ghost predicate Made(base: S.Doc<Document>, content: Document) { exists op :: MadeBy(base, content, op) }

  /** A client loads, makes one call that writes, and goes on to the check only
      with a document that passes validation. Everything happens under the lock. */
  ghost predicate Serving(s: S.State<Document>, step: S.Step<Document>) {
    && S.Disciplined(s, step)
    && match S.PhaseOf(s, step.c)
       case Loaded(base, doc, expected) =>
         && (step.Mutate? ==> doc == base && Made(base, step.content))
         && (step.Check? ==> AcceptedDocument(Read(doc)) && Made(base, doc.content))
       case _ => true
  }

  ghost predicate AllServing(steps: seq<S.Step<Document>>) {
    steps == []
    || (AllServing(steps[..|steps|-1]) && Serving(S.Run(EMPTY, steps[..|steps|-1]), steps[|steps|-1]))
  }

  lemma {:induction false} ServingIsDisciplined(steps: seq<S.Step<Document>>)
    requires AllServing(steps)
    ensures S.AllDisciplined(EMPTY, steps)
  {
    if steps != [] { ServingIsDisciplined(steps[..|steps|-1]); }
  }

  // -------------------------------------------------------------- what is logged

  /** A document that passed validation, made by one call of what it came from. */
  ghost predicate Fits(base: S.Doc<Document>, doc: S.Doc<Document>) {
    Made(base, doc.content) && WithinCapacity(Read(doc)) && doc.sequence == base.sequence + 1
  }

  /** What a client holds came from its base by one call, and fits if checked. */
  ghost predicate PhaseServed(p: S.Phase<Document>) {
    match p
    case Out => true
    case Loaded(base, doc, expected) => expected == base.sequence
    case Checked(base, doc, expected, at) => Fits(base, doc) && expected == base.sequence
  }

  ghost predicate LogServed(log: seq<S.Commit<Document>>) { forall i :: 0 <= i < |log| ==> Fits(log[i].from, log[i].to) }

  ghost predicate ClientsServed(clients: map<S.ClientId, S.Phase<Document>>) {
    forall c :: c in clients ==> PhaseServed(clients[c])
  }

  ghost predicate Served(s: S.State<Document>) { LogServed(s.log) && ClientsServed(s.clients) }

  lemma CapacityIgnoresSequence(d: Document, n: nat)
    ensures WithinCapacity(d.(sequence := n)) == WithinCapacity(d)
  {
  }

  lemma CheckFits(base: S.Doc<Document>, doc: S.Doc<Document>)
    requires AcceptedDocument(Read(doc)) && Made(base, doc.content)
    ensures Fits(base, S.Doc(base.sequence + 1, doc.content))
  {
    CapacityIgnoresSequence(doc.content, doc.sequence);
    CapacityIgnoresSequence(doc.content, base.sequence + 1);
  }

  lemma ClientServed(clients: map<S.ClientId, S.Phase<Document>>, c: S.ClientId, p: S.Phase<Document>)
    requires ClientsServed(clients) && PhaseServed(p)
    ensures ClientsServed(clients[c := p])
  {
  }

  lemma ServedAt(s: S.State<Document>, c: S.ClientId, p: S.Phase<Document>, s': S.State<Document>)
    requires Served(s) && PhaseServed(p) && s'.log == s.log && s'.clients == s.clients[c := p]
    ensures Served(s')
  {
    ClientServed(s.clients, c, p);
  }

  lemma LoggedOneMore(log: seq<S.Commit<Document>>, base: S.Doc<Document>, doc: S.Doc<Document>)
    requires LogServed(log) && Fits(base, doc)
    ensures LogServed(log + [S.Commit(base, doc)])
  {
  }

  lemma CheckedFits(clients: map<S.ClientId, S.Phase<Document>>, c: S.ClientId)
    requires ClientsServed(clients) && c in clients && clients[c].Checked?
    ensures Fits(clients[c].base, clients[c].doc) && clients[c].expected == clients[c].base.sequence
  {
    assert PhaseServed(clients[c]);
  }

  lemma ReplaceShape(s: S.State<Document>, c: S.ClientId, end: WriteEnd)
    requires c in s.clients && s.clients[c].Checked? && s.clients[c].expected == s.clients[c].base.sequence
    ensures var p, s' := s.clients[c], S.Next(s, S.Replace(c, end));
            && s'.log == (if end.FailedBefore? then s.log else s.log + [S.Commit(p.base, p.doc)])
            && c in s'.clients && s'.clients == s.clients[c := s'.clients[c]]
            && !s'.clients[c].Checked? && PhaseServed(s'.clients[c])
  {
  }

  lemma ServedReplace(s: S.State<Document>, c: S.ClientId, end: WriteEnd)
    requires Served(s) && c in s.clients && s.clients[c].Checked?
    ensures Served(S.Next(s, S.Replace(c, end)))
  {
    var p, s' := s.clients[c], S.Next(s, S.Replace(c, end));
    CheckedFits(s.clients, c);
    ReplaceShape(s, c, end);
    LoggedOneMore(s.log, p.base, p.doc);
    ClientServed(s.clients, c, s'.clients[c]);
  }

  lemma LoadedExpects(clients: map<S.ClientId, S.Phase<Document>>, c: S.ClientId)
    requires ClientsServed(clients) && c in clients && clients[c].Loaded?
    ensures clients[c].expected == clients[c].base.sequence
  {
    assert PhaseServed(clients[c]);
  }

  lemma CheckShape(s: S.State<Document>, c: S.ClientId)
    requires c in s.clients && s.clients[c].Loaded? && s.clients[c].expected == s.clients[c].base.sequence
    ensures var p, s' := s.clients[c], S.Next(s, S.Check(c));
            && s'.log == s.log
            && (s'.clients == s.clients[c := S.Out]
                || s'.clients == s.clients[c := S.Checked(p.base, S.Doc(p.base.sequence + 1, p.doc.content), p.base.sequence, |s.log|)])
  {
  }

  lemma ServedCheck(s: S.State<Document>, c: S.ClientId)
    requires Served(s) && c in s.clients && s.clients[c].Loaded?
    requires Fits(s.clients[c].base, S.Doc(s.clients[c].base.sequence + 1, s.clients[c].doc.content))
    ensures Served(S.Next(s, S.Check(c)))
  {
    var p := s.clients[c];
    LoadedExpects(s.clients, c);
    CheckShape(s, c);
    ClientServed(s.clients, c, S.Out);
    ClientServed(s.clients, c, S.Checked(p.base, S.Doc(p.base.sequence + 1, p.doc.content), p.base.sequence, |s.log|));
  }

  lemma ServedMutate(s: S.State<Document>, c: S.ClientId, content: Document)
    requires Served(s) && c in s.clients && s.clients[c].Loaded?
    ensures Served(S.Next(s, S.Mutate(c, content)))
  {
    var s' := S.Next(s, S.Mutate(c, content));
    assert PhaseServed(s.clients[c]);
    ServedAt(s, c, S.PhaseOf(s', c), s');
  }

  lemma ServedStep(s: S.State<Document>, step: S.Step<Document>)
    requires Served(s) && Serving(s, step)
    ensures Served(S.Next(s, step))
  {
    match step
    case Acquire(c) =>
    case Load(c) => ServedAt(s, c, S.PhaseOf(S.Next(s, step), c), S.Next(s, step));
    case Mutate(c, content) => if S.PhaseOf(s, c).Loaded? { ServedMutate(s, c, content); }
    case Check(c) =>
      if S.PhaseOf(s, c).Loaded? {
        CheckFits(s.clients[c].base, s.clients[c].doc);
        ServedCheck(s, c);
      }
    case Replace(c, end) => if S.PhaseOf(s, c).Checked? { ServedReplace(s, c, end); }
    case Release(c) => if s.holder == Some(c) { ServedAt(s, c, S.Out, S.Next(s, step)); }
    case Crash(c) => ServedAt(s, c, S.Out, S.Next(s, step));
  }

  lemma {:induction false} ServedRun(steps: seq<S.Step<Document>>)
    requires AllServing(steps)
    ensures Served(S.Run(EMPTY, steps))
  {
    if steps != [] {
      ServedRun(steps[..|steps|-1]);
      ServedStep(S.Run(EMPTY, steps[..|steps|-1]), steps[|steps|-1]);
    }
  }

  // ---------------------------------------------------------- one commit is a call

  lemma CommitIsCall(base: S.Doc<Document>, doc: S.Doc<Document>, op: Operation, end: WriteEnd)
    requires Holding(Read(base)) && MadeBy(base, doc.content, op) && WithinCapacity(Read(doc)) && doc.sequence == base.sequence + 1
    requires !end.FailedBefore?
    ensures Call(Read(base), Invocation(op, end)).disk == Read(doc)
  {
    var d := Read(base);
    var e := Apply(d, op).value.document;
    SaveRefusesOnlyWhenFull(d, op);
    CapacityIgnoresSequence(e, 0);
    CapacityIgnoresSequence(doc.content, doc.sequence);
    WritingCallLeaves(d, op, end, e.(sequence := d.sequence + 1));
  }

  lemma WritingCallLeaves(d: Document, op: Operation, end: WriteEnd, saved: Document)
    requires AcceptedDocument(d) && Apply(d, op).Ok? && Apply(d, op).value.writes && !end.FailedBefore?
    requires Save(d, Apply(d, op).value.document, d.sequence) == Ok(saved)
    ensures Call(d, Invocation(op, end)).disk == saved
  {
  }

  /** These calls are the ones that committed, one a commit, in order. */
  ghost predicate Committed(log: seq<S.Commit<Document>>, calls: seq<Invocation>) {
    && |calls| == |log|
    && (forall i :: 0 <= i < |log| ==> MadeBy(log[i].from, log[i].to.content, calls[i].op) && !calls[i].end.FailedBefore?)
  }

  lemma ChainPrefix(log: seq<S.Commit<Document>>)
    requires log != [] && S.Chain(EMPTY, log)
    ensures S.Chain(EMPTY, log[..|log|-1]) && log[|log|-1].from == S.LastOf(EMPTY, log[..|log|-1])
  {
    assert log == log[..|log|-1] + log[|log|-1..];
    S.BrokenStaysBroken(EMPTY, log[..|log|-1], log[|log|-1..]);
  }

  lemma RunGrows(calls: seq<Invocation>, c: Invocation)
    ensures Run(calls + [c]) == Call(Run(calls), c).disk
  {
    assert (calls + [c])[..|calls|] == calls;
  }

  lemma CommittedGrows(log: seq<S.Commit<Document>>, calls: seq<Invocation>, last: S.Commit<Document>, c: Invocation)
    requires Committed(log, calls) && MadeBy(last.from, last.to.content, c.op) && !c.end.FailedBefore?
    ensures Committed(log + [last], calls + [c])
  {
  }

  /** One more commit is one more call of the run. */
  lemma CommitExtendsRun(calls: seq<Invocation>, last: S.Commit<Document>, op: Operation)
    requires Run(calls) == Read(last.from) && Fits(last.from, last.to) && MadeBy(last.from, last.to.content, op)
    ensures Run(calls + [Invocation(op, Landed)]) == Read(last.to)
  {
    RunHolds(calls);
    RunGrows(calls, Invocation(op, Landed));
    CommitIsCall(last.from, last.to, op, Landed);
  }

  lemma {:induction false} LogIsRun(log: seq<S.Commit<Document>>) returns (calls: seq<Invocation>)
    requires S.Chain(EMPTY, log) && LogServed(log)
    ensures Committed(log, calls) && Run(calls) == Read(S.LastOf(EMPTY, log))
    decreases |log|
  {
    if log == [] {
      calls := [];
    } else {
      var init, last := log[..|log|-1], log[|log|-1];
      ChainPrefix(log);
      var before := LogIsRun(init);
      calls := Extended(init, last, before);
      assert log == init + [last];
    }
  }

  lemma Extended(init: seq<S.Commit<Document>>, last: S.Commit<Document>, before: seq<Invocation>) returns (calls: seq<Invocation>)
    requires Committed(init, before) && Run(before) == Read(last.from) && Fits(last.from, last.to)
    ensures Committed(init + [last], calls) && Run(calls) == Read(last.to)
  {
    var op :| MadeBy(last.from, last.to.content, op);
    CommittedGrows(init, before, last, Invocation(op, Landed));
    CommitExtendsRun(before, last, op);
    calls := before + [Invocation(op, Landed)];
  }

  /** Whatever fails, raises or crashes: clients that hold the lock and each make
      one service call leave exactly the run of the calls that committed, so the
      disk keeps everything a run keeps, and its sequence counts them. */
  lemma ClientsLeaveARun(steps: seq<S.Step<Document>>) returns (calls: seq<Invocation>)
    requires AllServing(steps)
    ensures var s := S.Run(EMPTY, steps);
            && Committed(s.log, calls) && Run(calls) == Read(s.disk)
            && Holding(Read(s.disk)) && s.disk.sequence == |calls|
  {
    ServingIsDisciplined(steps);
    S.LockedRunsLoseNothing(EMPTY, steps);
    ServedRun(steps);
    calls := LogIsRun(S.Run(EMPTY, steps).log);
    RunHolds(calls);
  }

  // --------------------------------------------------------- faults inside a write

  /** The document a directory shows: the empty one until something was saved. */
  function Shown(file: Option<S.Doc<Document>>): S.Doc<Document> { if file.Some? then file.value else S.Doc(0, EMPTY) }

  /** The replace step of the machine is the atomic write, whatever step of it is
      at fault: one that fails, raises or dies leaves the document the machine
      says. */
  lemma ReplaceIsTheWrite(s: S.State<Document>, c: S.ClientId, fs: Files<S.Doc<Document>>, w: Trial)
    requires c in s.clients && s.clients[c].Checked? && Shown(fs.file) == s.disk && w.name !in fs.temps
    ensures Shown(Written(fs, w.name, s.clients[c].doc, w.fault, w.unlinks).file) == S.Next(s, S.Replace(c, EndOf(w.fault))).disk
  {
    NeverTorn(fs, w.name, s.clients[c].doc, w.fault, w.unlinks);
  }
}
