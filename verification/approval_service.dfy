/** The request index, the commitments file, the workflow store and the adapter
    as they are written: objects changed in place, each method proved against the
    update it makes, and whole calls against the steps they are made of. */
module ApprovalService {
  import opened Record
  import opened Approval
  import opened ApprovalSteps
  import opened ApprovalSuccess

  // -------------------------------------------------------------------- index

  class RequestIndex {
    var document: Index

    constructor ()
      ensures document == START.index
    {
      document := START.index;
    }

    /** _save: whether the write raised; the document on disk is what landed. */
    method Save(next: Index, end: WriteEnd) returns (raised: bool)
      modifies this
      ensures document == (if Lands(end) then next else old(document)) && raised == !end.Landed?
    {
      if Lands(end) { document := next; }
      raised := !end.Landed?;
    }

    /** begin: one key goes on exactly once, until it is abandoned. */
    method Begin(key: OriginKey, end: WriteEnd) returns (r: Outcome<Option<Entry>>, raised: bool)
      modifies this
      ensures var spec := BeginRequest(old(document), key);
              && r == (if spec.No? then No(spec.refusal) else Done(spec.value.0))
              && document == (if r == Done(None) && Lands(end) then spec.value.1 else old(document))
      ensures raised == (r == Done(None) && !end.Landed?)
      ensures r == Done(None) <==> key !in old(document).requests && |old(document).requests| < MAX_ENTRIES
      ensures r == Done(None) && Lands(end) ==> document == old(document).(requests := old(document).requests[key := InFlight])
      ensures key in old(document).requests ==> r == Done(Some(old(document).requests[key]))
    {
      var entry := BeginRequest(document, key);
      raised := false;
      if entry.No? { return No(entry.refusal), false; }
      if entry.value.0.None? { raised := Save(entry.value.1, end); }
      r := Done(entry.value.0);
    }

    /** abandon: forget an IN_FLIGHT mark, and nothing else. */
    method Abandon(key: OriginKey, end: WriteEnd) returns (raised: bool)
      modifies this
      ensures document == (if Lands(end) then AbandonRequest(old(document), key) else old(document))
      ensures raised == (AbandonRequest(old(document), key) != old(document) && !end.Landed?)
    {
      raised := false;
      if key in document.requests && document.requests[key].InFlight? {
        assert key !in AbandonRequest(document, key).requests;
        raised := Save(document.(requests := document.requests - {key}), end);
      }
    }

    /** record_workflow_proposed */
    method RecordProposed(key: OriginKey, ref: Ref, held: Held, end: WriteEnd) returns (p: Option<Refusal>, raised: bool)
      modifies this
      ensures var spec := ProposeRequest(old(document), key, ref, held);
              if spec.No? then p == Some(spec.refusal) && document == old(document) && !raised
              else p == None && document == (if Lands(end) then spec.value else old(document)) && raised == !end.Landed?
    {
      raised := false;
      if ref in document.workflowRequests { return Some(AlreadyIndexed), false; }
      if |document.workflowRequests| >= MAX_ENTRIES { return Some(IndexFull), false; }
      p := None;
      raised := Save(document.(requests := document.requests[key := Proposed(ref)],
                               workflowRequests := document.workflowRequests[ref := held]), end);
    }

    /** record_workflow_presentation */
    method RecordPresentation(receipt: Receipt, end: WriteEnd) returns (p: Option<Refusal>, raised: bool)
      modifies this
      ensures var spec := PresentRequest(old(document), receipt);
              if spec.No? then p == Some(spec.refusal) && document == old(document) && !raised
              else p == None && document == (if Lands(end) then spec.value else old(document)) && raised == !end.Landed?
    {
      raised := false;
      if receipt.binding.ref !in document.presentations && |document.presentations| >= MAX_ENTRIES { return Some(IndexFull), false; }
      p := None;
      raised := Save(document.(presentations := document.presentations[receipt.binding.ref := receipt]), end);
    }

    /** _mark: a consumption or one more failure, on the marker as it stands. */
    method Mark(c: Commitment, consumed: bool, end: WriteEnd) returns (p: Option<Refusal>, raised: bool)
      modifies this
      ensures var spec := if consumed then MarkFired(old(document), c) else MarkFailure(old(document), c);
              if spec.No? then p == Some(spec.refusal) && document == old(document) && !raised
              else p == None && document == (if Lands(end) then spec.value else old(document)) && raised == !end.Landed?
    {
      raised := false;
      var marker := MarkerOf(document, c);
      if c !in document.markers && |document.markers| >= MAX_ENTRIES { return Some(IndexFull), false; }
      if !consumed {
        marker := marker.(failures := marker.failures + 1);
        if marker.failures >= MAX_CODE_FAILURES { marker := marker.(state := MarkDead); }
      } else {
        marker := marker.(state := MarkConsumed);
      }
      p := None;
      raised := Save(document.(markers := document.markers[c := marker]), end);
    }

    /** prune_consumption: saved only when something is forgotten. */
    method Prune(live: set<Commitment>, end: WriteEnd) returns (raised: bool)
      modifies this
      ensures document == (if Lands(end) then PruneMarkers(old(document), live) else old(document))
      ensures raised == (PruneMarkers(old(document), live) != old(document) && !end.Landed?)
    {
      raised := false;
      var kept := PruneMarkers(document, live);
      if kept != document { raised := Save(kept, end); }
    }
  }

  // ----------------------------------------------------------- workflow store

  lemma {:induction false} VoidedBy(ws: Workflows, now: Time, rest: set<WorkflowId>, done: Workflows)
    requires rest <= ws.Keys && done.Keys == ws.Keys
    requires forall id :: id in ws ==> done[id] == (if id in rest || !ExpiredRelay(ws[id], now) then ws[id] else Void(ws[id]))
    ensures rest == {} ==> done == VoidExpired(ws, now)
  {
  }

  /** The capability held, unexpired, over the request's own record, undecided,
      not voided and PLANNED. */
  predicate Withdrawable(ws: Workflows, ref: Ref, held: Held, capability: Capability, now: Time) {
    && capability == held.capability && now < held.capabilityExpiresAt
    && held.workflowId in ws
    && var w := ws[held.workflowId];
       w.origin == Some(ref) && w.consumedAt.None? && !w.superseded && w.phase.PhasePlanned?
  }

  /** Why a withdrawal is refused. */
  predicate RefusedWithdrawal(ws: Workflows, ref: Ref, held: Held, capability: Capability, now: Time, why: Refusal) {
    if capability != held.capability || held.capabilityExpiresAt <= now then why == CapabilityRefused
    else if held.workflowId !in ws || ws[held.workflowId].origin != Some(ref) then why == WorkflowMissing
    else if ws[held.workflowId].consumedAt.Some? then why == RunningCancel
    else why == NotPending
  }

  class WorkflowStore {
    var workflows: Workflows

    constructor ()
      ensures workflows == map[]
    {
      workflows := map[];
    }

    /** void_expired_relay_workflows: the loop over records, voiding in place. */
    method VoidExpiredRelays(now: Time) returns (voided: set<WorkflowId>)
      modifies this
      ensures workflows == VoidExpired(old(workflows), now)
      ensures voided == set id | id in old(workflows) && ExpiredRelay(old(workflows)[id], now)
    {
      ghost var ws := workflows;
      var rest := workflows.Keys;
      voided := {};
      while rest != {}
        invariant rest <= ws.Keys && workflows.Keys == ws.Keys
        invariant forall id :: id in ws ==> workflows[id] == (if id in rest || !ExpiredRelay(ws[id], now) then ws[id] else Void(ws[id]))
        invariant voided == set id | id in ws && id !in rest && ExpiredRelay(ws[id], now)
        decreases |rest|
      {
        var id :| id in rest;
        rest := rest - {id};
        if ExpiredRelay(workflows[id], now) {
          workflows := workflows[id := Void(workflows[id])];
          voided := voided + {id};
        }
      }
      VoidedBy(ws, now, rest, workflows);
    }

    /** record: the void and the addition are one save. */
    method Record(id: WorkflowId, w: Workflow, pruned: set<WorkflowId>, now: Time, end: WriteEnd)
      returns (p: Option<Refusal>, raised: bool)
      modifies this
      ensures var spec := RecordWorkflow(old(workflows), id, w, pruned, now);
              if spec.No? then p == Some(spec.refusal) && workflows == old(workflows) && !raised
              else p == None && workflows == (if Lands(end) then spec.value else old(workflows)) && raised == !end.Landed?
    {
      raised := false;
      var disk := workflows;
      var voided := VoidExpiredRelays(now);
      var added := AddWorkflow(workflows, id, w, pruned);
      if added.No? {
        workflows := disk;
        return Some(added.refusal), false;
      }
      p := None;
      workflows := if Lands(end) then added.value else disk;
      raised := !end.Landed?;
    }

    /** void_one */
    method VoidOne(id: WorkflowId, end: WriteEnd)
      modifies this
      ensures workflows == (if Lands(end) then Approval.VoidOne(old(workflows), id) else old(workflows))
    {
      if id in workflows && IsPending(workflows[id]) && Lands(end) { workflows := workflows[id := Void(workflows[id])]; }
    }

    /** consume: every precondition again, under the store lock. */
    method Consume(ref: Ref, held: Held, shown: Binding, now: Time, end: WriteEnd) returns (p: Option<Refusal>, raised: bool)
      modifies this
      ensures var spec := ConsumeWorkflow(old(workflows), ref, held, shown, now);
              if spec.No? then p == Some(spec.refusal) && workflows == old(workflows) && !raised
              else p == None && workflows == (if Lands(end) then spec.value else old(workflows)) && raised == !end.Landed?
    {
      raised := false;
      var own := Own(workflows, ref, held);
      if own.No? { return Some(own.refusal), false; }
      var entry := own.value;
      var problem := ApprovalProblem(entry, held.workflowId, ref, shown, now);
      if problem.Some? { return problem, false; }
      entry := entry.(consumedAt := Some(now));
      entry := entry.(phase := PhaseAuthorized);
      p := None;
      if Lands(end) { workflows := workflows[held.workflowId := entry]; }
      raised := !end.Landed?;
    }

    /** withdraw: the request's own waiting record is voided for the holder of its
        unexpired capability, and each refusal has its own cause. */
    method Withdraw(ref: Ref, held: Held, capability: Capability, now: Time, end: WriteEnd) returns (p: Option<Refusal>, raised: bool)
      modifies this
      ensures p.None? <==> Withdrawable(old(workflows), ref, held, capability, now)
      ensures p.None? && Lands(end) ==> workflows == old(workflows)[held.workflowId :=
                old(workflows)[held.workflowId].(superseded := true, phase := PhaseBlocked)]
      ensures p.Some? || !Lands(end) ==> workflows == old(workflows)
      ensures p.Some? ==> RefusedWithdrawal(old(workflows), ref, held, capability, now, p.value)
      ensures var spec := WithdrawWorkflow(old(workflows), ref, held, capability, now);
              if spec.No? then p == Some(spec.refusal) && workflows == old(workflows) && !raised
              else p == None && workflows == (if Lands(end) then spec.value else old(workflows)) && raised == !end.Landed?
    {
      raised := false;
      if capability != held.capability || now >= held.capabilityExpiresAt { return Some(CapabilityRefused), false; }
      var own := Own(workflows, ref, held);
      if own.No? { return Some(own.refusal), false; }
      if own.value.consumedAt.Some? { return Some(RunningCancel), false; }
      if !IsPending(own.value) { return Some(NotPending), false; }
      p := None;
      if Lands(end) { workflows := workflows[held.workflowId := Void(own.value)]; }
      raised := !end.Landed?;
    }
  }

  // ------------------------------------------------------------------ adapter

  class GrokBotAdapter {
    const index: RequestIndex
    const store: WorkflowStore
    var commitments: Commitments

    constructor (index: RequestIndex, store: WorkflowStore)
      ensures this.index == index && this.store == store && commitments == map[]
    {
      this.index, this.store, commitments := index, store, map[];
    }

    /** The three documents are those of this system, no section open. */
    ghost predicate Stands(s: System)
      reads this, index, store
    {
      s.session.NoSession? && index.document == s.index && commitments == s.commitments && store.workflows == s.workflows
    }

    /** present: the read and the receipt write, with no other section between. */
    method Present(ref: Ref, now: Time, end: WriteEnd, ghost s: System) returns (r: Option<Receipt>)
      requires Stands(s)
      modifies index
      ensures Stands(DoPresentWrite(DoPresentRead(s, ref, now), end))
      ensures r.Some? <==> Presents(s, ref, now) && end.Landed?
      ensures r.Some? ==> ref in index.document.presentations && index.document.presentations[ref] == r.value
    {
      if ref !in index.document.workflowRequests { return None; }
      var held := index.document.workflowRequests[ref];
      var own := Own(store.workflows, ref, held);
      if own.No? || !IsPending(own.value) || now >= own.value.expiresAt { return None; }
      var b := BindingOf(own.value, held.workflowId, ref);
      var receipt := Receipt(b, DisplayOf(own.value, b));
      var p, raised := index.RecordPresentation(receipt, end);
      if p.Some? || raised { return None; }
      r := Some(receipt);
    }

    /** _store: drop expired commitments, replace this key's, then prune markers. */
    method Store(key: Key, c: Commitment, expiresAt: Time, now: Time, end: WriteEnd, prune: WriteEnd, ghost s: System)
      returns (armed: bool)
      requires Stands(s) && c.nonce !in s.nonces
      modifies this`commitments, index
      ensures Stands(DoPrune(Arm(s, key, c, expiresAt, now, end), prune))
      ensures armed <==> Holdable(s.commitments, key, now) && end.Landed? && Pruned(s.index, commitments, prune)
      ensures armed ==> key in commitments && commitments[key] == Armed(c, expiresAt)
    {
      var stored := StoreCommitment(commitments, key, Armed(c, expiresAt), now);
      if stored.No? { return false; }
      if !Lands(end) { return false; }
      commitments := stored.value;
      if !end.Landed? { return false; }
      var raised := index.Prune(LiveCommitments(commitments), prune);
      armed := !raised;
    }

    /** authorize-workflow: every check against the latest receipt, then arm. */
    method ArmWorkflow(given: Receipt, now: Time, nonce: Nonce, end: WriteEnd, prune: WriteEnd, ghost s: System)
      returns (armed: bool)
      requires Stands(s) && nonce !in s.nonces
      modifies this`commitments, index
      ensures Stands(DoPrune(DoArmWrite(DoArmRead(s, given, now), nonce, end), prune))
      ensures armed <==> && Arms(s, given, now) && Holdable(s.commitments, WorkflowKey(given.binding.ref), now)
                         && end.Landed? && Pruned(s.index, commitments, prune)
      ensures armed ==> WorkflowKey(given.binding.ref) in commitments
                        && commitments[WorkflowKey(given.binding.ref)].commitment
                           == WorkflowCommitment(given.binding, given.display, nonce)
    {
      var ref := given.binding.ref;
      ArmReadExactly(s, given, now);
      NothingToArm(s, nonce, end, prune);
      if ref !in index.document.presentations || ref !in index.document.workflowRequests { return false; }
      var shown, held := index.document.presentations[ref], index.document.workflowRequests[ref];
      if given != shown || now >= shown.binding.expiresAt { return false; }
      var own := Own(store.workflows, ref, held);
      if own.No? || BindingOf(own.value, held.workflowId, ref) != shown.binding || !IsPending(own.value) { return false; }
      if DisplayOf(own.value, shown.binding) != shown.display { return false; }
      armed := Store(WorkflowKey(ref), WorkflowCommitment(shown.binding, shown.display, nonce), shown.binding.expiresAt,
                     now, end, prune, s.(session := Arming(shown, now)).(session := NoSession));
    }

    /** _fire: the code must reproduce the live commitment; a right one is marked
        consumed, durably, before the caller applies anything. */
    method FireKey(key: Key, preimage: Commitment, end: WriteEnd) returns (fires: bool)
      modifies index
      ensures var spec := FireIndex(old(index.document), commitments, key, preimage, end);
              index.document == spec.0 && fires == spec.1
      ensures fires ==> key in commitments && commitments[key].commitment == preimage
    {
      if key !in commitments { return false; }
      var c := commitments[key].commitment;
      if c in index.document.markers && !index.document.markers[c].state.MarkOpen? { return false; }
      if preimage != c {
        var p, raised := index.Mark(c, false, end);
        return false;
      }
      var p, raised := index.Mark(c, true, end);
      fires := p.None? && !raised;
    }

    /** Fire, then consume: the part of approve after its checks. */
    method FireThenConsume(ref: Ref, held: Held, shown: Receipt, code: Nonce, later: Time, end: WriteEnd, last: WriteEnd, ghost s: System)
      returns (authorized: bool)
      requires s.session == Checked(ref, held, shown)
      requires index.document == s.index && commitments == s.commitments && store.workflows == s.workflows
      modifies index, store
      ensures authorized <==> && CodeFires(s.index, s.commitments, ref, shown, code) && end.Landed?
                              && AwaitsAsShown(s.workflows, ref, held, shown.binding, later) && last.Landed?
      ensures Stands(DoConsume(DoFire(s, code, end), later, last))
      ensures authorized ==> held.workflowId in store.workflows && store.workflows[held.workflowId].consumedAt == Some(later)
    {
      var fires := FireKey(WorkflowKey(ref), WorkflowCommitment(shown.binding, shown.display, code), end);
      FiresExactly(s.index, s.commitments, ref, shown, code, end);
      ApprovableExactly(s.workflows, ref, held, shown.binding, later);
      if !fires { return false; }
      var p, raised := store.Consume(ref, held, shown.binding, later, last);
      authorized := p.None? && !raised;
    }

    /** approve: compare, then fire, then apply, in one section. */
    method ApproveWorkflow(ref: Ref, given: Relayed, code: Nonce, at: Time, later: Time, end: WriteEnd, last: WriteEnd, ghost s: System)
      returns (authorized: bool)
      requires Stands(s)
      modifies index, store
      ensures Stands(Approved(s, ref, given, code, at, later, end, last))
      ensures authorized <==> Authorizes(s, ref, given, code, at, later, end) && last.Landed?
      ensures authorized ==>
                && ref in s.index.workflowRequests && s.index.workflowRequests[ref].workflowId in store.workflows
                && store.workflows[s.index.workflowRequests[ref].workflowId].consumedAt == Some(later)
    {
      ghost var checkedSystem := DoApproveCheck(s, ref, given, at);
      if ref !in index.document.presentations || ref !in index.document.workflowRequests { return false; }
      var shown, held := index.document.presentations[ref], index.document.workflowRequests[ref];
      DifferingNone(shown.binding, given);
      ApprovableExactly(store.workflows, ref, held, shown.binding, at);
      if Differing(shown.binding, given) != {} { return false; }
      var checked := Approvable(store.workflows, ref, held, shown.binding, at);
      if checked.No? { return false; }
      authorized := FireThenConsume(ref, held, shown, code, later, end, last, checkedSystem);
    }
  }
}
