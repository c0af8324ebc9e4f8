/** What each step of the approval protocol changes, and exactly when, in plain
    readings of the three documents (grok_bot/index.py, grok_bot/authorize.py,
    grok_bot/conforming.py). */
module ApprovalFields {
  import opened Record
  import opened Approval
  import opened ApprovalSteps

  // ------------------------------------------------------------ plain readings

  /** The write lands, whether or not it then raises. */
  predicate Writes(end: WriteEnd) { end in {Landed, LandedThenRaised} }

  /** PLANNED, undecided and not voided. */
  predicate Waits(w: Workflow) { w.phase == PhasePlanned && w.consumedAt == None && !w.superseded }

  predicate LapsedRelay(w: Workflow, now: Time) { w.origin != None && Waits(w) && w.expiresAt <= now }

  /** The record as it is once voided. */
  predicate VoidedFrom(w: Workflow, w': Workflow) {
    && w' == w.(superseded := true, phase := w'.phase)
    && w'.phase == (if w.phase in {PhaseBlocked, PhaseCompleted} then w.phase else PhaseBlocked)
  }

  /** The record held is recorded, and is this request's own. */
  predicate OwnRecord(ws: Workflows, ref: Ref, held: Held) { held.workflowId in ws && ws[held.workflowId].origin == Some(ref) }

  /** What is shown of a record: its request and id, revision, authorization and expiry. */
  predicate ShownOf(b: Binding, w: Workflow, id: WorkflowId, ref: Ref) {
    b.ref == ref && b.workflowId == id && b.revision == w.revision && b.authorization == w.authorization && b.expiresAt == w.expiresAt
  }

  /** The display of a binding is the record's own authorization, rendered. */
  predicate DisplayedOf(d: Display, b: Binding, w: Workflow) { d.binding == b && d.rendered == w.authorization }

  /** Every field given, and each the one shown. */
  predicate RestatesAll(given: Relayed, b: Binding) {
    && given.ref == Some(b.ref) && given.workflowId == Some(b.workflowId) && given.revision == Some(b.revision)
    && given.authorization == Some(b.authorization) && given.expiresAt == Some(b.expiresAt)
  }

  /** The request's own record awaits a decision, and still is what was shown. */
  predicate MayBeApproved(ws: Workflows, ref: Ref, held: Held, shown: Binding, now: Time) {
    && OwnRecord(ws, ref, held) && ShownOf(shown, ws[held.workflowId], held.workflowId, ref)
    && Waits(ws[held.workflowId]) && now < ws[held.workflowId].expiresAt
  }

  /** No marker says this commitment was fired or died. */
  predicate Unspent(ix: Index, c: Commitment) { c in ix.markers ==> ix.markers[c].state == MarkOpen }

  predicate MarkerRoom(ix: Index, c: Commitment) { c in ix.markers || |ix.markers| < 1024 }

  function FailuresOf(ix: Index, c: Commitment): nat { if c in ix.markers then ix.markers[c].failures else 0 }

  /** The unexpired commitments, this key's replaced. */
  ghost predicate StoredInto(cs: Commitments, cs': Commitments, key: Key, c: Commitment, expiresAt: Time, now: Time) {
    && (forall k :: k in cs' <==> k == key || (k in cs && now < cs[k].expiresAt))
    && cs'[key] == Armed(c, expiresAt) && (forall k :: k in cs' && k != key ==> cs'[k] == cs[k])
  }

  predicate StoreRoom(cs: Commitments, key: Key, now: Time) {
    (key in cs && now < cs[key].expiresAt) || |set k | k in cs && now < cs[k].expiresAt| < 1024
  }

  /** Exactly the markers of commitments that still stand are kept. */
  ghost predicate MarkersKept(ix: Index, cs: Commitments, markers: map<Commitment, Marker>) {
    && (forall c :: c in markers <==> c in ix.markers && exists k :: k in cs && cs[k].commitment == c)
    && (forall c :: c in markers ==> markers[c] == ix.markers[c])
  }

  // ---------------------------------------------------------------- withdrawal

  /** What a withdrawal asks: the request indexed, the record its own, the held
      capability unexpired, the record undecided, not voided and PLANNED. */
  predicate MayWithdraw(s: System, ref: Ref, capability: Capability, now: Time) {
    && s.session == NoSession && ref in s.index.workflowRequests
    && var held := s.index.workflowRequests[ref];
       && held.workflowId in s.workflows && s.workflows[held.workflowId].origin == Some(ref)
       && capability == held.capability && now < held.capabilityExpiresAt
       && var w := s.workflows[held.workflowId];
          w.consumedAt == None && !w.superseded && w.phase == PhasePlanned
  }

  /** A withdrawal voids its request's record, and no other, exactly when it may
      and its write lands; otherwise nothing changes. */
  lemma WithdrawsExactly(s: System, ref: Ref, capability: Capability, now: Time, end: WriteEnd)
    ensures var s' := Step(s, Withdraw(ref, capability, now, end));
            && (s' != s <==> MayWithdraw(s, ref, capability, now) && Writes(end))
            && (s' != s ==>
                  var id := s.index.workflowRequests[ref].workflowId;
                  s' == s.(workflows := s.workflows[id := s.workflows[id].(superseded := true, phase := PhaseBlocked)]))
  {
    var a := Withdraw(ref, capability, now, end);
    if MayWithdraw(s, ref, capability, now) && Writes(end) {
      var id := s.index.workflowRequests[ref].workflowId;
      assert !s.workflows[id].superseded && Step(s, a).workflows[id].superseded;
    }
  }

  /** Each refusal of a withdrawal, and exactly when it is given. */
  lemma WithdrawRefusedExactly(ws: Workflows, ref: Ref, held: Held, capability: Capability, now: Time)
    ensures var r := WithdrawWorkflow(ws, ref, held, capability, now);
            var proven := capability == held.capability && now < held.capabilityExpiresAt;
            var own := held.workflowId in ws && ws[held.workflowId].origin == Some(ref);
            && (r == No(CapabilityRefused) <==> !proven)
            && (r == No(WorkflowMissing) <==> proven && !own)
            && (r == No(RunningCancel) <==> proven && own && ws[held.workflowId].consumedAt != None)
            && (r == No(NotPending) <==>
                  && proven && own && ws[held.workflowId].consumedAt == None
                  && (ws[held.workflowId].superseded || ws[held.workflowId].phase != PhasePlanned))
            && (r.Done? <==>
                  && proven && own && ws[held.workflowId].consumedAt == None && !ws[held.workflowId].superseded
                  && ws[held.workflowId].phase == PhasePlanned)
  {
  }

  // --------------------------------------------------------------- the decision

  /** Each refusal of an approval's check, in the order it is given. */
  lemma ApprovalRefusedExactly(ws: Workflows, ref: Ref, held: Held, shown: Binding, now: Time)
    ensures var r := Approvable(ws, ref, held, shown, now);
            && (r.Done? <==> MayBeApproved(ws, ref, held, shown, now))
            && (r == No(WorkflowMissing) <==> !OwnRecord(ws, ref, held))
            && (OwnRecord(ws, ref, held) ==>
                  var w := ws[held.workflowId];
                  var same := ShownOf(shown, w, held.workflowId, ref);
                  && (r == No(StaleBinding) <==> !same)
                  && (r == No(Superseded) <==> same && w.superseded)
                  && (r == No(AlreadyDecided) <==> same && !w.superseded && w.consumedAt != None)
                  && (r == No(NotAwaiting) <==> same && !w.superseded && w.consumedAt == None && w.phase != PhasePlanned)
                  && (r == No(Expired) <==> same && Waits(w) && w.expiresAt <= now))
  {
  }

  /** The check lets an approval on exactly when every displayed field is
      restated and the record awaits it as shown. */
  lemma ChecksExactly(s: System, ref: Ref, given: Relayed, now: Time)
    ensures Step(s, ApproveCheck(ref, given, now))
            == (if && s.session == NoSession && ref in s.index.presentations && ref in s.index.workflowRequests
                   && RestatesAll(given, s.index.presentations[ref].binding)
                   && MayBeApproved(s.workflows, ref, s.index.workflowRequests[ref], s.index.presentations[ref].binding, now)
                then s.(session := Checked(ref, s.index.workflowRequests[ref], s.index.presentations[ref])) else s)
  {
    if ref in s.index.presentations && ref in s.index.workflowRequests {
      DifferingNone(s.index.presentations[ref].binding, given);
      ApprovalRefusedExactly(s.workflows, ref, s.index.workflowRequests[ref], s.index.presentations[ref].binding, now);
    }
  }

  /** What a code does to the markers: the right one marks the live, unspent
      commitment consumed, a wrong one counts against it and the fifth kills it. */
  predicate Coded(ix: Index, cs: Commitments, key: Key, preimage: Commitment, end: WriteEnd, ix': Index, fires: bool) {
    if key !in cs || !Unspent(ix, cs[key].commitment) || !MarkerRoom(ix, cs[key].commitment) || !Writes(end) then
      ix' == ix && !fires
    else
      var c := cs[key].commitment;
      var n := FailuresOf(ix, c);
      && ix' == ix.(markers := ix.markers[c :=
                      if preimage == c then Marker(MarkConsumed, n)
                      else Marker(if n + 1 >= 5 then MarkDead else MarkOpen, n + 1)])
      && (fires <==> preimage == c && end == Landed)
  }

  lemma CodedExactly(ix: Index, cs: Commitments, key: Key, preimage: Commitment, end: WriteEnd)
    ensures Coded(ix, cs, key, preimage, end, FireIndex(ix, cs, key, preimage, end).0, FireIndex(ix, cs, key, preimage, end).1)
  {
  }

  /** Firing spends the code, and only a firing goes on. */
  lemma FiresOnFields(s: System, code: Nonce, end: WriteEnd)
    requires s.session.Checked?
    ensures var s', ss := Step(s, Fire(code, end)), s.session;
            var preimage := WorkflowCommitment(ss.shown.binding, ss.shown.display, code);
            exists fires :: Coded(s.index, s.commitments, WorkflowKey(ss.ref), preimage, end, s'.index, fires)
              && s' == if fires then s.(index := s'.index, session := Fired(ss.ref, ss.held, ss.shown, preimage), fired := s.fired + [preimage])
                       else s.(index := s'.index, session := NoSession)
  {
    var ss := s.session;
    var preimage := WorkflowCommitment(ss.shown.binding, ss.shown.display, code);
    CodedExactly(s.index, s.commitments, WorkflowKey(ss.ref), preimage, end);
    var fires := FireIndex(s.index, s.commitments, WorkflowKey(ss.ref), preimage, end).1;
    assert Coded(s.index, s.commitments, WorkflowKey(ss.ref), preimage, end, Step(s, Fire(code, end)).index, fires);
  }

  /** A delivery approval is fired the same way, with any preimage. */
  lemma FiresDeliveryOnFields(s: System, proposal: Digest, preimage: Commitment, end: WriteEnd)
    requires s.session == NoSession
    ensures var s' := Step(s, FireDelivery(proposal, preimage, end));
            exists fires :: Coded(s.index, s.commitments, DeliveryKey(proposal), preimage, end, s'.index, fires)
              && s' == if fires then s.(index := s'.index, fired := s.fired + [preimage]) else s.(index := s'.index)
  {
    CodedExactly(s.index, s.commitments, DeliveryKey(proposal), preimage, end);
    var fires := FireIndex(s.index, s.commitments, DeliveryKey(proposal), preimage, end).1;
    assert Coded(s.index, s.commitments, DeliveryKey(proposal), preimage, end, Step(s, FireDelivery(proposal, preimage, end)).index, fires);
  }

  /** Consuming a firing authorizes its record at the clock, and nothing else,
      exactly when the record still awaits it as shown and the write lands. */
  lemma ConsumesExactly(s: System, now: Time, end: WriteEnd)
    requires s.session.Fired?
    ensures var ss, s' := s.session, Step(s, Consume(now, end));
            s' == if MayBeApproved(s.workflows, ss.ref, ss.held, ss.shown.binding, now) && Writes(end) then
                    var id := ss.held.workflowId;
                    s.(session := NoSession, workflows := s.workflows[id :=
                         s.workflows[id].(consumedAt := Some(now), phase := PhaseAuthorized)])
                  else s.(session := NoSession)
  {
    ApprovalRefusedExactly(s.workflows, s.session.ref, s.session.held, s.session.shown.binding, now);
  }

  // ------------------------------------------------------- presenting and arming

  /** A presentation reads exactly the request's own waiting record, unexpired:
      its receipt shows that record and its authorization. */
  lemma PresentsExactly(s: System, ref: Ref, now: Time)
    ensures var s' := Step(s, PresentRead(ref, now));
            && (s' != s <==> && s.session == NoSession && ref in s.index.workflowRequests
                             && var held := s.index.workflowRequests[ref];
                                OwnRecord(s.workflows, ref, held) && Waits(s.workflows[held.workflowId])
                                && now < s.workflows[held.workflowId].expiresAt)
            && (s' != s ==>
                  && s'.session.Presenting? && s' == s.(session := s'.session)
                  && var id := s.index.workflowRequests[ref].workflowId;
                     && ShownOf(s'.session.receipt.binding, s.workflows[id], id, ref)
                     && DisplayedOf(s'.session.receipt.display, s'.session.receipt.binding, s.workflows[id]))
  {
  }

  /** The receipt becomes the latest of its request, while there is room. */
  lemma PresentationIsKept(s: System, end: WriteEnd)
    requires s.session.Presenting?
    ensures var receipt, ps := s.session.receipt, s.index.presentations;
            Step(s, PresentWrite(end))
            == s.(session := NoSession,
                  index := if Writes(end) && (receipt.binding.ref in ps || |ps| < 1024)
                           then s.index.(presentations := ps[receipt.binding.ref := receipt]) else s.index)
  {
  }

  /** Arming goes on exactly from the latest receipt, unexpired, while the
      request's own record waits and still is what it shows, text and all. */
  lemma ArmsExactly(s: System, given: Receipt, now: Time)
    ensures var ref := given.binding.ref;
            Step(s, ArmRead(given, now))
            == if && s.session == NoSession && ref in s.index.presentations && s.index.presentations[ref] == given
                  && ref in s.index.workflowRequests && now < given.binding.expiresAt
                  && var held := s.index.workflowRequests[ref];
                     && OwnRecord(s.workflows, ref, held) && Waits(s.workflows[held.workflowId])
                     && ShownOf(given.binding, s.workflows[held.workflowId], held.workflowId, ref)
                     && DisplayedOf(given.display, given.binding, s.workflows[held.workflowId])
               then s.(session := Arming(given, now)) else s
  {
  }

  /** What storing a commitment leaves: its nonce minted; with room and the write
      landed exactly the unexpired commitments and this one. */
  ghost predicate ArmedAs(s: System, s': System, key: Key, c: Commitment, expiresAt: Time, now: Time, end: WriteEnd) {
    if StoreRoom(s.commitments, key, now) && Writes(end) then
      && s' == s.(nonces := s.nonces + {c.nonce}, commitments := s'.commitments, session := if end == Landed then Pruning else NoSession)
      && StoredInto(s.commitments, s'.commitments, key, c, expiresAt, now)
    else s' == s.(nonces := s.nonces + {c.nonce}, session := NoSession)
  }

  lemma UnexpiredAre(cs: Commitments, now: Time)
    ensures Current(cs, now).Keys == set k | k in cs && now < cs[k].expiresAt
  {
  }

  lemma ArmIsArmedAs(s: System, key: Key, c: Commitment, expiresAt: Time, now: Time, end: WriteEnd)
    ensures ArmedAs(s, Arm(s, key, c, expiresAt, now, end), key, c, expiresAt, now, end)
  {
    UnexpiredAre(s.commitments, now);
    assert |Current(s.commitments, now)| == |Current(s.commitments, now).Keys|;
  }

  /** The commitment armed is over the receipt read, its display, and a nonce
      never minted before. */
  lemma CommitsExactly(s: System, nonce: Nonce, end: WriteEnd)
    requires s.session.Arming?
    ensures var s', shown := Step(s, ArmWrite(nonce, end)), s.session.shown;
            if nonce in s.nonces then s' == s
            else ArmedAs(s, s', WorkflowKey(shown.binding.ref), WorkflowCommitment(shown.binding, shown.display, nonce),
                         shown.binding.expiresAt, s.session.at, end)
  {
    var shown := s.session.shown;
    ArmIsArmedAs(s, WorkflowKey(shown.binding.ref), WorkflowCommitment(shown.binding, shown.display, nonce),
                 shown.binding.expiresAt, s.session.at, end);
  }

  lemma CommitsDeliveryExactly(s: System, proposal: Digest, expiresAt: Time, displayDigest: Digest, repository: string,
                               nonce: Nonce, now: Time, end: WriteEnd)
    ensures var s' := Step(s, ArmDelivery(proposal, expiresAt, displayDigest, repository, nonce, now, end));
            if s.session != NoSession || nonce in s.nonces || expiresAt <= now then s' == s
            else ArmedAs(s, s', DeliveryKey(proposal), DeliveryCommitment(proposal, expiresAt, displayDigest, repository, nonce),
                         expiresAt, now, end)
  {
    ArmIsArmedAs(s, DeliveryKey(proposal), DeliveryCommitment(proposal, expiresAt, displayDigest, repository, nonce), expiresAt, now, end);
  }

  lemma PrunesExactly(s: System, end: WriteEnd)
    requires s.session == Pruning
    ensures var s' := Step(s, Prune(end));
            && s' == s.(session := NoSession, index := s.index.(markers := s'.index.markers))
            && (if Writes(end) then MarkersKept(s.index, s.commitments, s'.index.markers) else s'.index == s.index)
  {
    var live := LiveCommitments(s.commitments);
    forall c ensures c in live <==> exists k :: k in s.commitments && s.commitments[k].commitment == c {}
  }

  // ------------------------------------------------------------------ a request

  /** Only a key never seen, or abandoned, goes on, while there is room. */
  lemma BeginsExactly(s: System, c: Client, key: OriginKey, end: WriteEnd)
    ensures Step(s, Begin(c, key, end))
            == if && s.session == NoSession && c !in s.clients && key !in s.index.requests && |s.index.requests| < 1024 && Writes(end)
               then s.(index := s.index.(requests := s.index.requests[key := InFlight]),
                       clients := if end == Landed then s.clients[c := Begun(key)] else s.clients)
               else s
  {
  }

  /** What the store holds once this record is added: it, PLANNED, and the
      records not pruned, every lapsed pending relay among them voided. */
  ghost predicate AddedTo(ws: Workflows, ws': Workflows, id: WorkflowId, w: Workflow, pruned: set<WorkflowId>, now: Time) {
    && (forall k :: k in ws' <==> k == id || (k in ws && Stays(ws[k], k in pruned, now)))
    && ws'[id] == w
    && (forall k :: k in ws' && k != id ==> if LapsedRelay(ws[k], now) then VoidedFrom(ws[k], ws'[k]) else ws'[k] == ws[k])
  }

  /** Only a record BLOCKED or COMPLETED, or voided now, may be pruned. */
  predicate Stays(w: Workflow, pruned: bool, now: Time) {
    !(pruned && (w.phase in {PhaseBlocked, PhaseCompleted} || LapsedRelay(w, now)))
  }

  predicate RecordRoom(ws: Workflows, id: WorkflowId, pruned: set<WorkflowId>, now: Time) {
    id !in ws && |set k | k in ws && Stays(ws[k], k in pruned, now)| < 64
  }

  lemma KeptExactly(ws: Workflows, pruned: set<WorkflowId>, now: Time)
    ensures Kept(VoidExpired(ws, now), pruned).Keys == set k | k in ws && Stays(ws[k], k in pruned, now)
  {
  }

  lemma RecordsExactly(ws: Workflows, id: WorkflowId, w: Workflow, pruned: set<WorkflowId>, now: Time)
    ensures var r := RecordWorkflow(ws, id, w, pruned, now);
            && (r.Done? <==> RecordRoom(ws, id, pruned, now))
            && (r.Done? ==> AddedTo(ws, r.value, id, w, pruned, now))
  {
    KeptExactly(ws, pruned, now);
    assert |Kept(VoidExpired(ws, now), pruned)| == |Kept(VoidExpired(ws, now), pruned).Keys|;
  }

  /** A begun request records a new PLANNED relay of its own; a write that raises
      leaves the request failing, torn when the record landed. */
  lemma RecordsOnFields(s: System, c: Client, ref: Ref, id: WorkflowId, revision: nat, authorization: string, expiresAt: Time,
                        pruned: set<WorkflowId>, now: Time, end: WriteEnd)
    ensures var s' := Step(s, RecordPlanned(c, ref, id, revision, authorization, expiresAt, pruned, now, end));
            if c !in s.clients || !s.clients[c].Begun? || ref in s.refs || id in s.ids then s' == s
            else
              var key, minted := s.clients[c].key, s.(refs := s.refs + {ref}, ids := s.ids + {id});
              if RecordRoom(s.workflows, id, pruned, now) && Writes(end) then
                && AddedTo(s.workflows, s'.workflows, id, Workflow(Some(ref), revision, authorization, expiresAt, None, false, PhasePlanned),
                           pruned, now)
                && s' == minted.(workflows := s'.workflows, origins := s.origins[id := key],
                                 clients := s.clients[c := if end == Landed then Recorded(key, ref, id) else Failing(key)],
                                 torn := if end == Landed then s.torn else s.torn + {key})
              else s' == minted.(clients := s.clients[c := Failing(key)])
  {
    RecordsExactly(s.workflows, id, Workflow(Some(ref), revision, authorization, expiresAt, None, false, PhasePlanned), pruned, now);
  }

  /** A recorded request is indexed with its record and capability in one write,
      or its record is to be voided. */
  lemma ProposesExactly(s: System, c: Client, capability: Capability, capabilityExpiresAt: Time, end: WriteEnd)
    ensures var s' := Step(s, Propose(c, capability, capabilityExpiresAt, end));
            if s.session != NoSession || c !in s.clients || !s.clients[c].Recorded? then s' == s
            else
              var f := s.clients[c];
              var indexed := s.index.(requests := s.index.requests[f.key := Proposed(f.ref)],
                                      workflowRequests := s.index.workflowRequests[f.ref := Held(f.workflowId, capability, capabilityExpiresAt)]);
              var room := f.ref !in s.index.workflowRequests && |s.index.workflowRequests| < 1024;
              s' == s.(index := if room && Writes(end) then indexed else s.index,
                       clients := if room && end == Landed then s.clients - {c} else s.clients[c := Voiding(f.workflowId)])
  {
  }

  /** Giving up, abandoning and voiding change one thing each. */
  lemma GivesUpExactly(s: System, c: Client, end: WriteEnd)
    ensures Step(s, GiveUp(c))
            == if c in s.clients && s.clients[c].Begun? then s.(clients := s.clients[c := Failing(s.clients[c].key)]) else s
    ensures Step(s, Abandon(c, end))
            == if s.session != NoSession || c !in s.clients || !s.clients[c].Failing? then s
               else
                 var key := s.clients[c].key;
                 s.(clients := s.clients - {c},
                    index := if Writes(end) && key in s.index.requests && s.index.requests[key] == InFlight
                             then s.index.(requests := s.index.requests - {key}) else s.index)
    ensures Step(s, CrashClient(c)) == s.(clients := s.clients - {c})
  {
  }

  lemma VoidsUnindexedExactly(s: System, c: Client, end: WriteEnd)
    ensures var s' := Step(s, VoidUnindexed(c, end));
            if c !in s.clients || !s.clients[c].Voiding? then s' == s
            else
              var id := s.clients[c].workflowId;
              if Writes(end) && id in s.workflows && Waits(s.workflows[id]) then
                && id in s'.workflows && VoidedFrom(s.workflows[id], s'.workflows[id])
                && s' == s.(clients := s.clients - {c}, workflows := s.workflows[id := s'.workflows[id]])
              else s' == s.(clients := s.clients - {c})
  {
  }

  /** What the Runtime, a crash and the other transport may do. */
  lemma EnvironmentExactly(s: System, id: WorkflowId, phase: Phase, w: Workflow)
    ensures Step(s, CrashSession) == s.(session := NoSession)
    ensures Step(s, RuntimeProgress(id, phase))
            == if id in s.workflows && s.workflows[id].consumedAt != None && phase != PhasePlanned
               then s.(workflows := s.workflows[id := s.workflows[id].(phase := phase)]) else s
    ensures Step(s, RuntimePrune(id))
            == if id in s.workflows && s.workflows[id].phase in {PhaseBlocked, PhaseCompleted} then s.(workflows := s.workflows - {id}) else s
    ensures Step(s, OtherTransport(id, w))
            == if w.origin == None && (id in s.workflows ==> s.workflows[id].origin == None) && (id in s.ids ==> id in s.workflows)
               then s.(workflows := s.workflows[id := w], ids := s.ids + {id}) else s
  {
  }
}
