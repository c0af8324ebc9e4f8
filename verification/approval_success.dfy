/** Exactly when a presentation, an arming and an approval succeed. */
module ApprovalSuccess {
  import opened Record
  import opened Approval
  import opened ApprovalSteps

  // ---------------------------------------------------------------- conditions

  /** The request's own record, pending and unexpired. */
  predicate Awaits(ws: Workflows, ref: Ref, held: Held, now: Time) {
    && held.workflowId in ws
    && var w := ws[held.workflowId];
       w.origin == Some(ref) && w.phase.PhasePlanned? && w.consumedAt.None? && !w.superseded && now < w.expiresAt
  }

  /** The request's own record still is what was displayed, and awaits it. */
  predicate AwaitsAsShown(ws: Workflows, ref: Ref, held: Held, shown: Binding, now: Time) {
    && Awaits(ws, ref, held, now)
    && var w := ws[held.workflowId];
       shown == Binding(ref, held.workflowId, w.revision, w.authorization, w.expiresAt)
  }

  predicate HasRoom(ix: Index, c: Commitment) { c in ix.markers || |ix.markers| < MAX_ENTRIES }

  /** The code is that of the live commitment over this receipt, unspent. */
  predicate CodeFires(ix: Index, cs: Commitments, ref: Ref, shown: Receipt, code: Nonce) {
    var c := WorkflowCommitment(shown.binding, shown.display, code);
    && WorkflowKey(ref) in cs && cs[WorkflowKey(ref)].commitment == c
    && (c in ix.markers ==> ix.markers[c].state.MarkOpen?) && HasRoom(ix, c)
  }

  /** The request was presented and is indexed. */
  predicate Known(ix: Index, ref: Ref) { ref in ix.presentations && ref in ix.workflowRequests }

  /** Everything a presentation needs: the record pending, room for a receipt. */
  predicate Presents(s: System, ref: Ref, now: Time) {
    && ref in s.index.workflowRequests && Awaits(s.workflows, ref, s.index.workflowRequests[ref], now)
    && (ref in s.index.presentations || |s.index.presentations| < MAX_ENTRIES)
  }

  /** Everything an approval needs: the binding restated, the record awaiting as
      shown at both clocks, the right code, the consumption landed in full. */
  predicate Authorizes(s: System, ref: Ref, given: Relayed, code: Nonce, at: Time, later: Time, end: WriteEnd) {
    && Known(s.index, ref) && end.Landed?
    && var shown, held := s.index.presentations[ref], s.index.workflowRequests[ref];
       && given == Restated(shown.binding)
       && AwaitsAsShown(s.workflows, ref, held, shown.binding, at)
       && AwaitsAsShown(s.workflows, ref, held, shown.binding, later)
       && CodeFires(s.index, s.commitments, ref, shown, code)
  }

  /** Everything an arming needs. */
  predicate Arms(s: System, given: Receipt, now: Time) {
    var ref := given.binding.ref;
    && Known(s.index, ref) && s.index.presentations[ref] == given && now < given.binding.expiresAt
    && var held := s.index.workflowRequests[ref];
       && AwaitsAsShown(s.workflows, ref, held, given.binding, now)
       && given.display == Display(given.binding, s.workflows[held.workflowId].authorization)
  }

  /** Room for the commitment once the expired ones are dropped. */
  predicate Holdable(cs: Commitments, key: Key, now: Time) { key in Current(cs, now) || |Current(cs, now)| < MAX_COMMITMENTS }

  /** The markers to forget are forgotten, or there is none. */
  predicate Pruned(ix: Index, cs: Commitments, prune: WriteEnd) {
    prune.Landed? || PruneMarkers(ix, LiveCommitments(cs)) == ix
  }

  // ------------------------------------------------------------------ approval

  lemma ApprovableExactly(ws: Workflows, ref: Ref, held: Held, shown: Binding, now: Time)
    ensures Approvable(ws, ref, held, shown, now).Done? <==> AwaitsAsShown(ws, ref, held, shown, now)
  {
  }

  lemma FiresExactly(ix: Index, cs: Commitments, ref: Ref, shown: Receipt, code: Nonce, end: WriteEnd)
    ensures FireIndex(ix, cs, WorkflowKey(ref), WorkflowCommitment(shown.binding, shown.display, code), end).1
            <==> CodeFires(ix, cs, ref, shown, code) && end.Landed?
  {
  }

  lemma CheckPassesExactly(s: System, ref: Ref, given: Relayed, at: Time)
    requires s.session.NoSession?
    ensures var s' := DoApproveCheck(s, ref, given, at);
            var passes := Known(s.index, ref) && given == Restated(s.index.presentations[ref].binding)
                          && AwaitsAsShown(s.workflows, ref, s.index.workflowRequests[ref], s.index.presentations[ref].binding, at);
            s' == if passes then s.(session := Checked(ref, s.index.workflowRequests[ref], s.index.presentations[ref])) else s
  {
    if Known(s.index, ref) {
      DifferingNone(s.index.presentations[ref].binding, given);
      ApprovableExactly(s.workflows, ref, s.index.workflowRequests[ref], s.index.presentations[ref].binding, at);
    }
  }

  lemma FirePassesExactly(s: System, code: Nonce, end: WriteEnd)
    requires s.session.Checked?
    ensures var s', ss := DoFire(s, code, end), s.session;
            && s'.workflows == s.workflows
            && (if CodeFires(s.index, s.commitments, ss.ref, ss.shown, code) && end.Landed?
                then s'.session.Fired? && s'.session.ref == ss.ref && s'.session.held == ss.held && s'.session.shown == ss.shown
                else s'.session.NoSession?)
  {
    FiresExactly(s.index, s.commitments, s.session.ref, s.session.shown, code, end);
  }

  function Approved(s: System, ref: Ref, given: Relayed, code: Nonce, at: Time, later: Time, end: WriteEnd, last: WriteEnd): System {
    DoConsume(DoFire(DoApproveCheck(s, ref, given, at), code, end), later, last)
  }

  lemma ConsumePassesExactly(s: System, later: Time, last: WriteEnd)
    requires s.session.Fired?
    ensures var held, s' := s.session.held, DoConsume(s, later, last);
            if AwaitsAsShown(s.workflows, s.session.ref, held, s.session.shown.binding, later) && Lands(last)
            then s'.workflows == s.workflows[held.workflowId :=
                   s.workflows[held.workflowId].(consumedAt := Some(later), phase := PhaseAuthorized)]
            else s'.workflows == s.workflows
  {
    ApprovableExactly(s.workflows, s.session.ref, s.session.held, s.session.shown.binding, later);
  }

  lemma ArmReadExactly(s: System, given: Receipt, now: Time)
    requires s.session.NoSession?
    ensures DoArmRead(s, given, now) == if Arms(s, given, now) then s.(session := Arming(given, now)) else s
  {
  }

  /** A reading that passes nothing on leaves nothing for the steps after it. */
  lemma NothingToArm(s: System, nonce: Nonce, end: WriteEnd, prune: WriteEnd)
    requires s.session.NoSession?
    ensures DoPrune(DoArmWrite(s, nonce, end), prune) == s
  {
  }

  /** An approval authorizes its record, and nothing else, exactly when it meets
      every condition and its decision lands; otherwise no record changes. */
  lemma ApprovesExactly(s: System, ref: Ref, given: Relayed, code: Nonce, at: Time, later: Time, end: WriteEnd, last: WriteEnd)
    requires s.session.NoSession?
    ensures var s' := Approved(s, ref, given, code, at, later, end, last);
            if Authorizes(s, ref, given, code, at, later, end) && Lands(last)
            then
              var id := s.index.workflowRequests[ref].workflowId;
              s'.workflows == s.workflows[id := s.workflows[id].(consumedAt := Some(later), phase := PhaseAuthorized)]
              && s'.workflows != s.workflows
            else s'.workflows == s.workflows
  {
    var s1 := DoApproveCheck(s, ref, given, at);
    CheckPassesExactly(s, ref, given, at);
    if s1.session.Checked? {
      var s2 := DoFire(s1, code, end);
      FirePassesExactly(s1, code, end);
      if s2.session.Fired? { ConsumePassesExactly(s2, later, last); }
    }
  }
}
