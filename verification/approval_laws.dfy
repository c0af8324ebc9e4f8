/** Safety of the approval protocol in every interleaving, with a crash or a
    failed write possible at every durable step. */
module ApprovalLaws {
  import opened Record
  import opened Approval
  import opened ApprovalSteps

  // -------------------------------------------------------------- invariants

  function KeyOf(c: Commitment): Key {
    match c
    case WorkflowCommitment(b, _, _) => WorkflowKey(b.ref)
    case DeliveryCommitment(p, _, _, _, _) => DeliveryKey(p)
  }

  predicate Spent(ix: Index, c: Commitment) { c in ix.markers && ix.markers[c].state.MarkConsumed? }

  predicate Shows(ix: Index, ref: Ref, shown: Receipt) {
    ref == shown.binding.ref && ref in ix.presentations && ix.presentations[ref] == shown
  }

  predicate Holds(ix: Index, ref: Ref, held: Held) { ref in ix.workflowRequests && ix.workflowRequests[ref] == held }

  predicate Live(cs: Commitments, c: Commitment) { KeyOf(c) in cs && cs[KeyOf(c)].commitment == c }

  /** What the index section has read is still what is recorded; a firing in
      hand is over the latest receipt, live, and already spent. */
  predicate SessionOk(session: Session, ix: Index, cs: Commitments) {
    match session
    case Arming(shown, _) => Shows(ix, shown.binding.ref, shown)
    case Checked(ref, held, shown) => Shows(ix, ref, shown) && Holds(ix, ref, held)
    case Fired(ref, held, shown, c) =>
      && Shows(ix, ref, shown) && Holds(ix, ref, held)
      && c.WorkflowCommitment? && c.binding == shown.binding && c.display == shown.display
      && Live(cs, c) && Spent(ix, c)
    case _ => true
  }

  ghost predicate Distinct(fired: seq<Commitment>) { forall i, j :: 0 <= i < j < |fired| ==> fired[i] != fired[j] }

  /** Commitments sit under their own key; what fired was minted, fired once, and
      is spent for as long as it is live. */
  ghost predicate CommitmentsOk(cs: Commitments, ix: Index, fired: seq<Commitment>, nonces: set<Nonce>) {
    && (forall k :: k in cs ==> KeyOf(cs[k].commitment) == k && cs[k].commitment.nonce in nonces)
    && (forall c :: c in ix.markers ==> c.nonce in nonces)
    && (forall c :: c in fired ==> c.nonce in nonces && (Live(cs, c) ==> Spent(ix, c)))
    && Distinct(fired)
  }

  predicate FrameKey(f: Frame, key: OriginKey) { !f.Voiding? && f.key == key }

  /** A request in progress holds its key IN_FLIGHT, alone. */
  ghost predicate FramesOk(clients: map<Client, Frame>, requests: map<OriginKey, Entry>, origins: map<WorkflowId, OriginKey>) {
    && (forall c :: c in clients && !clients[c].Voiding? ==>
          clients[c].key in requests && requests[clients[c].key].InFlight?)
    && (forall c, d :: c in clients && d in clients && !clients[c].Voiding? && FrameKey(clients[d], clients[c].key) ==> c == d)
    && (forall c :: c in clients && clients[c].Recorded? ==>
          clients[c].workflowId in origins && origins[clients[c].workflowId] == clients[c].key)
  }

  /** A request that recorded a workflow stays indexed, and no one is about to
      abandon or record it again — unless its record write landed and raised. */
  ghost predicate OriginsOk(origins: map<WorkflowId, OriginKey>, torn: set<OriginKey>, requests: map<OriginKey, Entry>,
                            clients: map<Client, Frame>, ids: set<WorkflowId>) {
    && (forall id :: id in origins ==> id in ids)
    && (forall id :: id in origins && origins[id] !in torn ==> origins[id] in requests)
    && (forall id, c :: id in origins && origins[id] !in torn && c in clients && FrameKey(clients[c], origins[id]) ==>
          clients[c].Recorded?)
    && (forall id, jd :: id in origins && jd in origins && origins[id] == origins[jd] && origins[id] !in torn ==> id == jd)
  }

  predicate Indexed(ix: Index, id: WorkflowId, w: Workflow) {
    w.origin.Some? && w.origin.value in ix.workflowRequests && ix.workflowRequests[w.origin.value].workflowId == id
  }

  /** AUTHORIZED, or further on. */
  predicate Underway(p: Phase) { p.PhaseAuthorized? || p.PhaseUnderway? || p.PhaseCompleted? }

  /** A relayed workflow is decided or voided, never both; it is AUTHORIZED or
      further on only if decided, and only an indexed one is ever decided. */
  predicate RelayOk(ix: Index, id: WorkflowId, w: Workflow) {
    && !(w.consumedAt.Some? && w.superseded)
    && (w.phase.PhasePlanned? ==> IsPending(w))
    && (Underway(w.phase) ==> w.consumedAt.Some?)
    && (w.consumedAt.Some? ==> Indexed(ix, id, w))
  }

  ghost predicate WorkflowsOk(ws: Workflows, ix: Index, ids: set<WorkflowId>) {
    forall id :: id in ws ==> id in ids && (ws[id].origin.Some? ==> RelayOk(ix, id, ws[id]))
  }

  ghost predicate ReceiptsOk(ix: Index) { forall ref :: ref in ix.presentations ==> ix.presentations[ref].binding.ref == ref }

  ghost predicate Safe(s: System) {
    && ReceiptsOk(s.index)
    && (s.session.Fired? ==> s.session.commitment in s.fired)
    && SessionOk(s.session, s.index, s.commitments)
    && CommitmentsOk(s.commitments, s.index, s.fired, s.nonces)
    && FramesOk(s.clients, s.index.requests, s.origins)
    && OriginsOk(s.origins, s.torn, s.index.requests, s.clients, s.ids)
    && WorkflowsOk(s.workflows, s.index, s.ids)
  }

  // ------------------------------------------------------------ request steps

  lemma IndexGrows(ws: Workflows, ix: Index, ix': Index, ids: set<WorkflowId>)
    requires WorkflowsOk(ws, ix, ids)
    requires forall r :: r in ix.workflowRequests ==> r in ix'.workflowRequests && ix'.workflowRequests[r] == ix.workflowRequests[r]
    ensures WorkflowsOk(ws, ix', ids)
  {
    forall id | id in ws ensures id in ids && (ws[id].origin.Some? ==> RelayOk(ix', id, ws[id])) {
      assert ws[id].origin.Some? ==> RelayOk(ix, id, ws[id]);
    }
  }

  lemma BeginIsSafe(s: System, c: Client, key: OriginKey, end: WriteEnd)
    requires Safe(s)
    ensures Safe(DoBegin(s, c, key, end))
  {
    var s' := DoBegin(s, c, key, end);
    if s' != s { IndexGrows(s.workflows, s.index, s'.index, s.ids); }
  }

  lemma RecordedWorkflowsOk(ws: Workflows, ix: Index, ids: set<WorkflowId>, id: WorkflowId, w: Workflow, pruned: set<WorkflowId>, now: Time)
    requires WorkflowsOk(ws, ix, ids) && id !in ids && w.origin.Some? && IsPending(w)
    requires RecordWorkflow(ws, id, w, pruned, now).Done?
    ensures WorkflowsOk(RecordWorkflow(ws, id, w, pruned, now).value, ix, ids + {id})
  {
    var ws' := RecordWorkflow(ws, id, w, pruned, now).value;
    forall k | k in ws' ensures k in ids + {id} && (ws'[k].origin.Some? ==> RelayOk(ix, k, ws'[k])) {
      if k != id { assert k in ws && (ws[k].origin.Some? ==> RelayOk(ix, k, ws[k])); }
    }
  }

  lemma RecordFramesOk(s: System, c: Client, id: WorkflowId, f: Frame)
    requires FramesOk(s.clients, s.index.requests, s.origins) && c in s.clients && s.clients[c].Begun? && id !in s.origins
    requires FrameKey(f, s.clients[c].key) && (f.Recorded? ==> f.workflowId == id)
    ensures FramesOk(s.clients[c := f], s.index.requests, s.origins[id := s.clients[c].key])
  {
    var clients, key := s.clients[c := f], s.clients[c].key;
    forall d | d in clients && clients[d].Recorded?
      ensures clients[d].workflowId in s.origins[id := key] && s.origins[id := key][clients[d].workflowId] == clients[d].key {}
  }

  lemma RecordOriginsOk(s: System, c: Client, id: WorkflowId, f: Frame, torn: set<OriginKey>)
    requires OriginsOk(s.origins, s.torn, s.index.requests, s.clients, s.ids) && FramesOk(s.clients, s.index.requests, s.origins)
    requires c in s.clients && s.clients[c].Begun? && id !in s.ids && FrameKey(f, s.clients[c].key)
    requires torn == (if f.Recorded? then s.torn else s.torn + {s.clients[c].key})
    ensures OriginsOk(s.origins[id := s.clients[c].key], torn, s.index.requests, s.clients[c := f], s.ids + {id})
  {
    var key := s.clients[c].key;
    assert forall jd :: jd in s.origins && s.origins[jd] == key ==> key in s.torn;
  }

  lemma RecordIsSafe(s: System, c: Client, ref: Ref, id: WorkflowId, w: Workflow, pruned: set<WorkflowId>, now: Time, end: WriteEnd)
    requires Safe(s) && w.origin.Some? && IsPending(w)
    ensures Safe(DoRecord(s, c, ref, id, w, pruned, now, end))
  {
    var s' := DoRecord(s, c, ref, id, w, pruned, now, end);
    if s' != s {
      var r := RecordWorkflow(s.workflows, id, w, pruned, now);
      if r.Done? && Lands(end) {
        RecordedWorkflowsOk(s.workflows, s.index, s.ids, id, w, pruned, now);
        RecordFramesOk(s, c, id, s'.clients[c]);
        RecordOriginsOk(s, c, id, s'.clients[c], s'.torn);
      } else {
        FailingIsOk(s, c);
      }
    }
  }

  lemma FailingIsOk(s: System, c: Client)
    requires FramesOk(s.clients, s.index.requests, s.origins) && OriginsOk(s.origins, s.torn, s.index.requests, s.clients, s.ids)
    requires c in s.clients && s.clients[c].Begun?
    ensures var clients := s.clients[c := Failing(s.clients[c].key)];
            && FramesOk(clients, s.index.requests, s.origins)
            && forall ids :: s.ids <= ids ==> OriginsOk(s.origins, s.torn, s.index.requests, clients, ids)
  {
    assert FrameKey(s.clients[c], s.clients[c].key);
  }

  lemma GiveUpIsSafe(s: System, c: Client)
    requires Safe(s)
    ensures Safe(DoGiveUp(s, c))
  {
    if DoGiveUp(s, c) != s { FailingIsOk(s, c); }
  }

  lemma LeaveIsSafe(s: System, c: Client)
    requires Safe(s)
    ensures Safe(Leave(s, c))
  {
  }

  lemma AbandonIsSafe(s: System, c: Client, end: WriteEnd)
    requires Safe(s)
    ensures Safe(DoAbandon(s, c, end))
  {
    var s' := DoAbandon(s, c, end);
    if s' != s {
      LeaveIsSafe(s, c);
      if Lands(end) {
        assert FrameKey(s.clients[c], s.clients[c].key);
        IndexGrows(s.workflows, s.index, s'.index, s.ids);
      }
    }
  }

  lemma VoidingIsOk(s: System, c: Client, id: WorkflowId)
    requires FramesOk(s.clients, s.index.requests, s.origins) && OriginsOk(s.origins, s.torn, s.index.requests, s.clients, s.ids)
    ensures FramesOk(s.clients[c := Voiding(id)], s.index.requests, s.origins)
    ensures OriginsOk(s.origins, s.torn, s.index.requests, s.clients[c := Voiding(id)], s.ids)
  {
  }

  lemma ProposedIsOk(s: System, c: Client, ref: Ref)
    requires FramesOk(s.clients, s.index.requests, s.origins) && OriginsOk(s.origins, s.torn, s.index.requests, s.clients, s.ids)
    requires c in s.clients && s.clients[c].Recorded?
    ensures var requests, left := s.index.requests[s.clients[c].key := Proposed(ref)], s.clients - {c};
            && FramesOk(left, requests, s.origins) && OriginsOk(s.origins, s.torn, requests, left, s.ids)
            && (forall id :: FramesOk(left[c := Voiding(id)], requests, s.origins))
            && (forall id :: OriginsOk(s.origins, s.torn, requests, left[c := Voiding(id)], s.ids))
  {
    assert FrameKey(s.clients[c], s.clients[c].key);
  }

  lemma ProposedIsSafe(s: System, c: Client, held: Held, leaves: bool)
    requires Safe(s) && s.session.NoSession? && c in s.clients && s.clients[c].Recorded?
    requires ProposeRequest(s.index, s.clients[c].key, s.clients[c].ref, held).Done?
    ensures Safe(s.(index := ProposeRequest(s.index, s.clients[c].key, s.clients[c].ref, held).value,
                    clients := if leaves then s.clients - {c} else s.clients[c := Voiding(s.clients[c].workflowId)]))
  {
    ProposedIsOk(s, c, s.clients[c].ref);
    assert s.clients[c := Voiding(s.clients[c].workflowId)] == (s.clients - {c})[c := Voiding(s.clients[c].workflowId)];
    IndexGrows(s.workflows, s.index, ProposeRequest(s.index, s.clients[c].key, s.clients[c].ref, held).value, s.ids);
  }

  lemma VoidingIsSafe(s: System, c: Client, id: WorkflowId)
    requires Safe(s)
    ensures Safe(s.(clients := s.clients[c := Voiding(id)]))
  {
    VoidingIsOk(s, c, id);
  }

  lemma ProposeShape(s: System, c: Client, held: Held, end: WriteEnd)
    requires s.session.NoSession? && c in s.clients && s.clients[c].Recorded? && held.workflowId == s.clients[c].workflowId
    ensures var r := ProposeRequest(s.index, s.clients[c].key, s.clients[c].ref, held);
            DoPropose(s, c, held.capability, held.capabilityExpiresAt, end)
            == (if r.No? || !Lands(end) then s.(clients := s.clients[c := Voiding(held.workflowId)])
                else s.(index := r.value,
                        clients := if end.Landed? then s.clients - {c} else s.clients[c := Voiding(held.workflowId)]))
  {
  }

  lemma ProposeIsSafe(s: System, c: Client, capability: Capability, capabilityExpiresAt: Time, end: WriteEnd)
    requires Safe(s)
    ensures Safe(DoPropose(s, c, capability, capabilityExpiresAt, end))
  {
    if s.session.NoSession? && c in s.clients && s.clients[c].Recorded? {
      var held := Held(s.clients[c].workflowId, capability, capabilityExpiresAt);
      ProposeShape(s, c, held, end);
      if ProposeRequest(s.index, s.clients[c].key, s.clients[c].ref, held).Done? {
        ProposedIsSafe(s, c, held, end.Landed?);
      }
      VoidingIsSafe(s, c, held.workflowId);
    }
  }

  lemma VoidOneOk(ws: Workflows, ix: Index, ids: set<WorkflowId>, id: WorkflowId)
    requires WorkflowsOk(ws, ix, ids)
    ensures WorkflowsOk(VoidOne(ws, id), ix, ids)
  {
    var ws' := VoidOne(ws, id);
    forall k | k in ws' ensures k in ids && (ws'[k].origin.Some? ==> RelayOk(ix, k, ws'[k])) {
      assert k in ws && (ws[k].origin.Some? ==> RelayOk(ix, k, ws[k]));
    }
  }

  lemma VoidUnindexedIsSafe(s: System, c: Client, end: WriteEnd)
    requires Safe(s)
    ensures Safe(DoVoidUnindexed(s, c, end))
  {
    if DoVoidUnindexed(s, c, end) != s {
      LeaveIsSafe(s, c);
      VoidOneOk(s.workflows, s.index, s.ids, s.clients[c].workflowId);
    }
  }

  // ------------------------------------------------------- present, arm, fire

  lemma PresentReadIsSafe(s: System, ref: Ref, now: Time)
    requires Safe(s)
    ensures Safe(DoPresentRead(s, ref, now))
  {
  }

  lemma PresentWriteIsSafe(s: System, end: WriteEnd)
    requires Safe(s)
    ensures Safe(DoPresentWrite(s, end))
  {
    ClosedSectionIsSafe(s);
    if s.session.Presenting? && PresentRequest(s.index, s.session.receipt).Done? { PresentedIsSafe(s, s.session.receipt); }
  }

  lemma PresentedIsSafe(s: System, receipt: Receipt)
    requires Safe(s) && PresentRequest(s.index, receipt).Done?
    ensures Safe(s.(index := PresentRequest(s.index, receipt).value, session := NoSession))
  {
    IndexGrows(s.workflows, s.index, PresentRequest(s.index, receipt).value, s.ids);
  }

  lemma ArmReadIsSafe(s: System, given: Receipt, now: Time)
    requires Safe(s)
    ensures Safe(DoArmRead(s, given, now))
  {
  }

  lemma ArmedOk(cs: Commitments, ix: Index, fired: seq<Commitment>, nonces: set<Nonce>, key: Key, a: Armed, now: Time)
    requires CommitmentsOk(cs, ix, fired, nonces) && KeyOf(a.commitment) == key && a.commitment.nonce !in nonces
    requires StoreCommitment(cs, key, a, now).Done?
    ensures CommitmentsOk(StoreCommitment(cs, key, a, now).value, ix, fired, nonces + {a.commitment.nonce})
  {
    var cs' := StoreCommitment(cs, key, a, now).value;
    forall c | c in fired ensures c.nonce in nonces && (Live(cs', c) ==> Spent(ix, c)) {
      assert c.nonce in nonces && (Live(cs, c) ==> Spent(ix, c));
    }
  }

  lemma ArmIsSafe(s: System, key: Key, c: Commitment, expiresAt: Time, now: Time, end: WriteEnd)
    requires Safe(s) && KeyOf(c) == key && c.nonce !in s.nonces
    ensures Safe(Arm(s, key, c, expiresAt, now, end))
  {
    var r := StoreCommitment(s.commitments, key, Armed(c, expiresAt), now);
    if r.Done? { ArmedOk(s.commitments, s.index, s.fired, s.nonces, key, Armed(c, expiresAt), now); }
  }

  lemma PruneIsSafe(s: System, end: WriteEnd)
    requires Safe(s)
    ensures Safe(DoPrune(s, end))
  {
    var s' := DoPrune(s, end);
    if s' != s {
      IndexGrows(s.workflows, s.index, s'.index, s.ids);
      forall c | c in s.fired ensures Live(s.commitments, c) ==> Spent(s'.index, c) {
        if Live(s.commitments, c) { assert c in LiveCommitments(s.commitments); }
      }
    }
  }

  lemma ApproveCheckIsSafe(s: System, ref: Ref, given: Relayed, now: Time)
    requires Safe(s)
    ensures Safe(DoApproveCheck(s, ref, given, now))
  {
    if DoApproveCheck(s, ref, given, now) != s {
      DifferingNone(s.index.presentations[ref].binding, given);
    }
  }

  lemma MarkedIsSafe(s: System, c: Commitment, m: Marker)
    requires Safe(s) && (s.session.NoSession? || s.session.Checked?) && Live(s.commitments, c)
    requires Marked(s.index, c, m).Done? && (c in s.fired ==> m.state.MarkConsumed?)
    ensures Safe(s.(index := Marked(s.index, c, m).value, session := NoSession))
  {
    var ix := Marked(s.index, c, m).value;
    IndexGrows(s.workflows, s.index, ix, s.ids);
    forall d | d in s.fired ensures Live(s.commitments, d) ==> Spent(ix, d) {
      assert Live(s.commitments, d) ==> Spent(s.index, d);
    }
  }

  lemma FireableIsFresh(s: System, key: Key)
    requires Safe(s) && Fireable(s.index, s.commitments, key).Done?
    ensures var c := Fireable(s.index, s.commitments, key).value;
            Live(s.commitments, c) && KeyOf(c) == key && c !in s.fired && MarkerOf(s.index, c).state.MarkOpen?
  {
  }

  lemma MismatchIsSafe(s: System, key: Key, preimage: Commitment, end: WriteEnd)
    requires Safe(s) && (s.session.NoSession? || s.session.Checked?)
    requires Fireable(s.index, s.commitments, key).No? || Fireable(s.index, s.commitments, key).value != preimage
    ensures Safe(FireWith(s, key, preimage, end).0) && !FireWith(s, key, preimage, end).1
  {
    var c := Fireable(s.index, s.commitments, key);
    ClosedSectionIsSafe(s);
    if c.Done? { FailureIsSafe(s, key, c.value); }
  }

  lemma ClosedSectionIsSafe(s: System)
    requires Safe(s)
    ensures Safe(s.(session := NoSession))
  {
  }

  lemma FailureIsSafe(s: System, key: Key, c: Commitment)
    requires Safe(s) && (s.session.NoSession? || s.session.Checked?) && Fireable(s.index, s.commitments, key) == Done(c)
    ensures MarkFailure(s.index, c).Done? ==> Safe(s.(index := MarkFailure(s.index, c).value, session := NoSession))
  {
    FireableIsFresh(s, key);
    if MarkFailure(s.index, c).Done? { MarkedIsSafe(s, c, Failed(MarkerOf(s.index, c))); }
  }

  lemma MatchIsSafe(s: System, key: Key, c: Commitment, end: WriteEnd)
    requires Safe(s) && (s.session.NoSession? || s.session.Checked?)
    requires Fireable(s.index, s.commitments, key) == Done(c)
    ensures var (out, fires) := FireWith(s, key, c, end);
            && Safe(out) && Live(s.commitments, c) && KeyOf(c) == key && c !in s.fired && c.nonce in s.nonces
            && (fires ==> Spent(out.index, c) && out == s.(index := s.index.(markers := out.index.markers), session := NoSession))
  {
    FireableIsFresh(s, key);
    if MarkFired(s.index, c).Done? { MarkedIsSafe(s, c, MarkerOf(s.index, c).(state := MarkConsumed)); }
  }

  /** A firing is of the live, unspent, never-fired commitment of its key. */
  lemma FireWithIsSafe(s: System, key: Key, preimage: Commitment, end: WriteEnd)
    requires Safe(s) && (s.session.NoSession? || s.session.Checked?)
    ensures var (out, fires) := FireWith(s, key, preimage, end);
            && Safe(out)
            && (fires ==> Live(s.commitments, preimage) && KeyOf(preimage) == key && preimage !in s.fired && preimage.nonce in s.nonces
                          && Spent(out.index, preimage)
                          && out == s.(index := s.index.(markers := out.index.markers), session := NoSession))
  {
    if Fireable(s.index, s.commitments, key) == Done(preimage) {
      MatchIsSafe(s, key, preimage, end);
    } else {
      MismatchIsSafe(s, key, preimage, end);
    }
  }

  lemma FiredOnceMore(cs: Commitments, ix: Index, fired: seq<Commitment>, nonces: set<Nonce>, c: Commitment)
    requires CommitmentsOk(cs, ix, fired, nonces) && c !in fired && c.nonce in nonces && Spent(ix, c)
    ensures CommitmentsOk(cs, ix, fired + [c], nonces)
  {
    var more := fired + [c];
    forall i, j | 0 <= i < j < |more| ensures more[i] != more[j] {
      if j == |fired| { assert fired[i] in fired; }
    }
  }

  lemma FireIsSafe(s: System, code: Nonce, end: WriteEnd)
    requires Safe(s)
    ensures Safe(DoFire(s, code, end))
  {
    if s.session.Checked? {
      var ss := s.session;
      var preimage := WorkflowCommitment(ss.shown.binding, ss.shown.display, code);
      var (out, fires) := FireWith(s, WorkflowKey(ss.ref), preimage, end);
      FireWithIsSafe(s, WorkflowKey(ss.ref), preimage, end);
      if fires { FiredOnceMore(s.commitments, out.index, s.fired, s.nonces, preimage); }
    }
  }

  lemma FireDeliveryIsSafe(s: System, proposal: Digest, preimage: Commitment, end: WriteEnd)
    requires Safe(s)
    ensures Safe(DoFireDelivery(s, proposal, preimage, end))
  {
    if s.session.NoSession? {
      var (out, fires) := FireWith(s, DeliveryKey(proposal), preimage, end);
      FireWithIsSafe(s, DeliveryKey(proposal), preimage, end);
      if fires { FiredOnceMore(s.commitments, out.index, s.fired, s.nonces, preimage); }
    }
  }

  // ----------------------------------------------------- decide and environment

  lemma OneWorkflowOk(ws: Workflows, ix: Index, ids: set<WorkflowId>, id: WorkflowId, w: Workflow)
    requires WorkflowsOk(ws, ix, ids) && id in ids && (w.origin.Some? ==> RelayOk(ix, id, w))
    ensures WorkflowsOk(ws[id := w], ix, ids)
  {
  }

  lemma ConsumeIsSafe(s: System, now: Time, end: WriteEnd)
    requires Safe(s)
    ensures Safe(DoConsume(s, now, end))
  {
    var s' := DoConsume(s, now, end);
    if s.session.Fired? && s'.workflows != s.workflows {
      var id := s.session.held.workflowId;
      OneWorkflowOk(s.workflows, s.index, s.ids, id, s'.workflows[id]);
    }
  }

  lemma WithdrawIsSafe(s: System, ref: Ref, capability: Capability, now: Time, end: WriteEnd)
    requires Safe(s)
    ensures Safe(DoWithdraw(s, ref, capability, now, end))
  {
    var s' := DoWithdraw(s, ref, capability, now, end);
    if s' != s {
      var id := s.index.workflowRequests[ref].workflowId;
      OneWorkflowOk(s.workflows, s.index, s.ids, id, s'.workflows[id]);
    }
  }

  lemma EnvironmentIsSafe(s: System, id: WorkflowId, phase: Phase, w: Workflow)
    requires Safe(s)
    ensures Safe(DoProgress(s, id, phase)) && Safe(DoPruneWorkflow(s, id)) && Safe(DoOther(s, id, w))
  {
    if DoProgress(s, id, phase) != s {
      OneWorkflowOk(s.workflows, s.index, s.ids, id, s.workflows[id].(phase := phase));
    }
    if DoOther(s, id, w) != s {
      OtherIsOk(s, id, w);
    }
  }

  lemma OtherIsOk(s: System, id: WorkflowId, w: Workflow)
    requires WorkflowsOk(s.workflows, s.index, s.ids) && OriginsOk(s.origins, s.torn, s.index.requests, s.clients, s.ids)
    requires w.origin.None?
    ensures WorkflowsOk(s.workflows[id := w], s.index, s.ids + {id})
    ensures OriginsOk(s.origins, s.torn, s.index.requests, s.clients, s.ids + {id})
  {
  }

  // --------------------------------------------------------------- every run

  lemma RequestStepIsSafe(s: System, a: Action)
    requires Safe(s) && RequestStep(a)
    ensures Safe(RequestNext(s, a))
  {
    match a
    case Begin(c, key, end) => BeginIsSafe(s, c, key, end);
    case RecordPlanned(c, ref, id, revision, authorization, expiresAt, pruned, now, end) =>
      RecordIsSafe(s, c, ref, id, Workflow(Some(ref), revision, authorization, expiresAt, None, false, PhasePlanned), pruned, now, end);
    case GiveUp(c) => GiveUpIsSafe(s, c);
    case Abandon(c, end) => AbandonIsSafe(s, c, end);
    case Propose(c, capability, capabilityExpiresAt, end) => ProposeIsSafe(s, c, capability, capabilityExpiresAt, end);
    case VoidUnindexed(c, end) => VoidUnindexedIsSafe(s, c, end);
    case CrashClient(c) => LeaveIsSafe(s, c);
  }

  lemma ArmingStepIsSafe(s: System, a: Action)
    requires Safe(s) && ArmingStep(a)
    ensures Safe(ArmingNext(s, a))
  {
    match a
    case PresentRead(ref, now) => PresentReadIsSafe(s, ref, now);
    case PresentWrite(end) => PresentWriteIsSafe(s, end);
    case ArmRead(given, now) => ArmReadIsSafe(s, given, now);
    case ArmWrite(nonce, end) => ArmWriteIsSafe(s, nonce, end);
    case ArmDelivery(proposal, expiresAt, displayDigest, repository, nonce, now, end) =>
      ArmDeliveryIsSafe(s, proposal, expiresAt, displayDigest, repository, nonce, now, end);
    case Prune(end) => PruneIsSafe(s, end);
  }

  lemma ArmWriteIsSafe(s: System, nonce: Nonce, end: WriteEnd)
    requires Safe(s)
    ensures Safe(DoArmWrite(s, nonce, end))
  {
    if s.session.Arming? && nonce !in s.nonces {
      var shown := s.session.shown;
      ArmIsSafe(s, WorkflowKey(shown.binding.ref), WorkflowCommitment(shown.binding, shown.display, nonce),
                shown.binding.expiresAt, s.session.at, end);
    }
  }

  lemma ArmDeliveryIsSafe(s: System, proposal: Digest, expiresAt: Time, displayDigest: Digest, repository: string,
                          nonce: Nonce, now: Time, end: WriteEnd)
    requires Safe(s)
    ensures Safe(DoArmDelivery(s, proposal, expiresAt, displayDigest, repository, nonce, now, end))
  {
    if nonce !in s.nonces {
      ArmIsSafe(s, DeliveryKey(proposal), DeliveryCommitment(proposal, expiresAt, displayDigest, repository, nonce), expiresAt, now, end);
    }
  }

  lemma DecidingStepIsSafe(s: System, a: Action)
    requires Safe(s) && !RequestStep(a) && !ArmingStep(a)
    ensures Safe(DecidingNext(s, a))
  {
    match a
    case ApproveCheck(ref, given, now) => ApproveCheckIsSafe(s, ref, given, now);
    case Fire(code, end) => FireIsSafe(s, code, end);
    case Consume(now, end) => ConsumeIsSafe(s, now, end);
    case FireDelivery(proposal, preimage, end) => FireDeliveryIsSafe(s, proposal, preimage, end);
    case Withdraw(ref, capability, now, end) => WithdrawIsSafe(s, ref, capability, now, end);
    case CrashSession =>
    case RuntimeProgress(id, phase) => EnvironmentIsSafe(s, id, phase, Workflow(None, 0, "", 0, None, false, PhaseBlocked));
    case RuntimePrune(id) => EnvironmentIsSafe(s, id, PhaseBlocked, Workflow(None, 0, "", 0, None, false, PhaseBlocked));
    case OtherTransport(id, w) => EnvironmentIsSafe(s, id, PhaseBlocked, w);
  }

  /** Every step, whatever its write does, keeps every invariant. */
  lemma StepIsSafe(s: System, a: Action)
    requires Safe(s)
    ensures Safe(Step(s, a))
  {
    if RequestStep(a) { RequestStepIsSafe(s, a); }
    else if ArmingStep(a) { ArmingStepIsSafe(s, a); }
    else { DecidingStepIsSafe(s, a); }
  }

  /** Every state of every run is safe. */
  lemma {:induction false} RunIsSafe(run: seq<System>, actions: seq<Action>, k: nat)
    requires IsRun(run, actions) && k < |run|
    ensures Safe(run[k])
  {
    if k == 0 {
      assert Safe(START);
    } else {
      RunIsSafe(run, actions, k - 1);
      StepIsSafe(run[k - 1], actions[k - 1]);
    }
  }
}
