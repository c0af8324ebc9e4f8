/** What the approval protocol guarantees over every run. */
module ApprovalTheorems {
  import opened Record
  import opened Approval
  import opened ApprovalSteps
  import opened ApprovalLaws

  // ------------------------------------------------------------ authorization

  ghost predicate Decided(s: System, id: WorkflowId) { id in s.workflows && s.workflows[id].consumedAt.Some? }

  /** The record as an approval at this time leaves it. */
  function AuthorizedAt(w: Workflow, now: Time): Workflow { w.(consumedAt := Some(now), phase := PhaseAuthorized) }

  /** Everything that holds at the instant a relayed workflow is authorized. */
  ghost predicate AuthorizedByFiring(s: System, a: Action, s': System, id: WorkflowId) {
    && a.Consume? && s.session.Fired? && s.session.held.workflowId == id && id in s.workflows
    && var c, ref, shown := s.session.commitment, s.session.ref, s.session.shown;
       && Live(s.commitments, c) && KeyOf(c) == WorkflowKey(ref) && c in s.fired && Spent(s.index, c)
       && Shows(s.index, ref, shown) && c == WorkflowCommitment(shown.binding, shown.display, c.nonce)
       && BindingOf(s.workflows[id], id, ref) == shown.binding && s.workflows[id].origin == Some(ref)
       && IsPending(s.workflows[id]) && a.now < shown.binding.expiresAt
       && s' == s.(session := NoSession, workflows := s.workflows[id := AuthorizedAt(s.workflows[id], a.now)])
  }

  lemma ConsumeAuthorizes(s: System, now: Time, end: WriteEnd, id: WorkflowId)
    requires Safe(s) && id in s.workflows && s.workflows[id].consumedAt.None?
    requires Decided(DoConsume(s, now, end), id)
    ensures AuthorizedByFiring(s, Consume(now, end), DoConsume(s, now, end), id)
  {
  }

  lemma RecordDecidesNothing(ws: Workflows, id: WorkflowId, w: Workflow, pruned: set<WorkflowId>, now: Time, k: WorkflowId)
    requires RecordWorkflow(ws, id, w, pruned, now).Done? && k in ws && k in RecordWorkflow(ws, id, w, pruned, now).value
    ensures RecordWorkflow(ws, id, w, pruned, now).value[k] == (if ExpiredRelay(ws[k], now) then Void(ws[k]) else ws[k])
  {
  }

  lemma OnlyConsumeDecides(s: System, a: Action, id: WorkflowId)
    requires id in s.workflows && s.workflows[id].origin.Some? && s.workflows[id].consumedAt.None?
    requires Decided(Step(s, a), id)
    ensures a.Consume?
  {
    if !WritesWorkflows(a) {
      OthersKeepWorkflows(s, a);
    } else if a.RecordPlanned? {
      var w := Workflow(Some(a.ref), a.revision, a.authorization, a.expiresAt, None, false, PhasePlanned);
      if Step(s, a).workflows != s.workflows { RecordDecidesNothing(s.workflows, a.id, w, a.pruned, a.now, id); }
    } else if !a.Consume? {
      VoidsDecideNothing(s, a, id);
    }
  }

  lemma VoidsDecideNothing(s: System, a: Action, id: WorkflowId)
    requires a.VoidUnindexed? || a.Withdraw? || a.RuntimeProgress? || a.RuntimePrune? || a.OtherTransport?
    requires id in s.workflows && s.workflows[id].origin.Some? && s.workflows[id].consumedAt.None?
    ensures !Decided(Step(s, a), id)
  {
  }

  /** In any interleaving a relayed workflow is authorized only by consuming a
      fired commitment: live, spent, armed over exactly the binding and display
      of the latest receipt, still the record's own, before its expiry. */
  lemma AuthorizedOnlyByFiring(run: seq<System>, actions: seq<Action>, k: nat, id: WorkflowId)
    requires IsRun(run, actions) && k < |actions|
    requires id in run[k].workflows && run[k].workflows[id].origin.Some? && run[k].workflows[id].consumedAt.None?
    requires Decided(run[k + 1], id)
    ensures AuthorizedByFiring(run[k], actions[k], run[k + 1], id)
  {
    RunIsSafe(run, actions, k);
    OnlyConsumeDecides(run[k], actions[k], id);
    ConsumeAuthorizes(run[k], actions[k].now, actions[k].end, id);
  }

  lemma RecordLeavesUndecided(ws: Workflows, id: WorkflowId, w: Workflow, pruned: set<WorkflowId>, now: Time)
    requires RecordWorkflow(ws, id, w, pruned, now).Done?
    ensures id in RecordWorkflow(ws, id, w, pruned, now).value && RecordWorkflow(ws, id, w, pruned, now).value[id] == w
    ensures forall k :: k in RecordWorkflow(ws, id, w, pruned, now).value && k != id ==> k in ws
  {
  }

  lemma NewRecordsAreUndecided(s: System, a: Action, id: WorkflowId)
    requires id !in s.workflows && id in Step(s, a).workflows && Step(s, a).workflows[id].origin.Some?
    ensures Step(s, a).workflows[id].consumedAt.None?
  {
    if !WritesWorkflows(a) {
      OthersKeepWorkflows(s, a);
    } else if a.RecordPlanned? {
      var w := Workflow(Some(a.ref), a.revision, a.authorization, a.expiresAt, None, false, PhasePlanned);
      RecordLeavesUndecided(s.workflows, a.id, w, a.pruned, a.now);
    }
  }

  lemma OriginStays(s: System, a: Action, id: WorkflowId)
    requires id in s.workflows && id in Step(s, a).workflows && id in s.ids
    ensures Step(s, a).workflows[id].origin.Some? <==> s.workflows[id].origin.Some?
  {
    if !WritesWorkflows(a) {
      OthersKeepWorkflows(s, a);
    } else if a.RecordPlanned? {
      var w := Workflow(Some(a.ref), a.revision, a.authorization, a.expiresAt, None, false, PhasePlanned);
      if Step(s, a).workflows != s.workflows { RecordDecidesNothing(s.workflows, a.id, w, a.pruned, a.now, id); }
    }
  }

  /** One step back: the record was decided before, or this step decided it. */
  lemma DecidedBefore(run: seq<System>, actions: seq<Action>, k: nat, id: WorkflowId)
    requires IsRun(run, actions) && k < |actions| && Decided(run[k + 1], id) && run[k + 1].workflows[id].origin.Some?
    ensures (Decided(run[k], id) && run[k].workflows[id].origin.Some?) || AuthorizedByFiring(run[k], actions[k], run[k + 1], id)
  {
    RunIsSafe(run, actions, k);
    if id !in run[k].workflows {
      NewRecordsAreUndecided(run[k], actions[k], id);
    } else {
      OriginStays(run[k], actions[k], id);
      if !Decided(run[k], id) { AuthorizedOnlyByFiring(run, actions, k, id); }
    }
  }

  lemma {:induction false} DecidedByFiring(run: seq<System>, actions: seq<Action>, k: nat, id: WorkflowId) returns (j: nat)
    requires IsRun(run, actions) && k < |run| && Decided(run[k], id) && run[k].workflows[id].origin.Some?
    ensures j < k && AuthorizedByFiring(run[j], actions[j], run[j + 1], id)
  {
    assert k > 0;
    j := k - 1;
    DecidedBefore(run, actions, j, id);
    if Decided(run[j], id) && run[j].workflows[id].origin.Some? { j := DecidedByFiring(run, actions, j, id); }
  }

  /** Every relayed record that stands AUTHORIZED or further on got there by the
      consumption of a firing somewhere in the run. */
  lemma AuthorizedCameFromFiring(run: seq<System>, actions: seq<Action>, k: nat, id: WorkflowId) returns (j: nat)
    requires IsRun(run, actions) && k < |run| && id in run[k].workflows
    requires run[k].workflows[id].origin.Some? && Underway(run[k].workflows[id].phase)
    ensures j < k && AuthorizedByFiring(run[j], actions[j], run[j + 1], id)
  {
    RunIsSafe(run, actions, k);
    j := DecidedByFiring(run, actions, k, id);
  }

  // ------------------------------------------------------------------- arming

  lemma StoredAdds(cs: Commitments, key: Key, armed: Armed, now: Time, c: Commitment)
    requires StoreCommitment(cs, key, armed, now).Done? && KeyOf(armed.commitment) == key
    requires Live(StoreCommitment(cs, key, armed, now).value, c) && c != armed.commitment
    ensures Live(cs, c)
  {
  }

  lemma ArmAdds(s: System, key: Key, c: Commitment, expiresAt: Time, now: Time, end: WriteEnd, d: Commitment)
    requires KeyOf(c) == key && Live(Arm(s, key, c, expiresAt, now, end).commitments, d) && !Live(s.commitments, d)
    ensures d == c
  {
    if StoreCommitment(s.commitments, key, Armed(c, expiresAt), now).Done? && d != c {
      StoredAdds(s.commitments, key, Armed(c, expiresAt), now, d);
    }
  }

  /** Only an arming mints. */
  predicate Mints(a: Action) { a.ArmWrite? || a.ArmDelivery? }

  lemma RequestsMintNothing(s: System, a: Action)
    requires RequestStep(a)
    ensures RequestNext(s, a).commitments == s.commitments && RequestNext(s, a).nonces == s.nonces
  {
    match a
    case Propose(c, capability, capabilityExpiresAt, end) => ProposeMintsNothing(s, c, capability, capabilityExpiresAt, end);
    case _ =>
  }

  lemma ProposeMintsNothing(s: System, c: Client, capability: Capability, capabilityExpiresAt: Time, end: WriteEnd)
    ensures var s' := DoPropose(s, c, capability, capabilityExpiresAt, end);
            s'.commitments == s.commitments && s'.nonces == s.nonces
  {
  }

  lemma DecidingMintsNothing(s: System, a: Action)
    requires !RequestStep(a) && !ArmingStep(a)
    ensures DecidingNext(s, a).commitments == s.commitments && DecidingNext(s, a).nonces == s.nonces
  {
  }

  lemma OnlyArmingMints(s: System, a: Action)
    requires !Mints(a)
    ensures Step(s, a).commitments == s.commitments && Step(s, a).nonces == s.nonces
  {
    if RequestStep(a) { RequestsMintNothing(s, a); }
    else if !ArmingStep(a) { DecidingMintsNothing(s, a); }
  }

  lemma MintIsFresh(s: System, a: Action, c: Commitment)
    requires !Live(s.commitments, c) && Live(Step(s, a).commitments, c)
    ensures Mints(a) && c.nonce !in s.nonces
    ensures c.WorkflowCommitment? ==>
              a.ArmWrite? && s.session.Arming? && s.session.shown == Receipt(c.binding, c.display)
  {
    if !Mints(a) { OnlyArmingMints(s, a); }
    match a
    case ArmWrite(nonce, end) =>
      if s.session.Arming? && nonce !in s.nonces {
        var shown := s.session.shown;
        ArmAdds(s, WorkflowKey(shown.binding.ref), WorkflowCommitment(shown.binding, shown.display, nonce),
                shown.binding.expiresAt, s.session.at, end, c);
      }
    case ArmDelivery(proposal, expiresAt, displayDigest, repository, nonce, now, end) =>
      if s.session.NoSession? && nonce !in s.nonces && now < expiresAt {
        ArmAdds(s, DeliveryKey(proposal), DeliveryCommitment(proposal, expiresAt, displayDigest, repository, nonce), expiresAt, now, end, c);
      }
    case _ =>
  }

  /** A workflow commitment comes to exist only by an arming over exactly what
      was last displayed for its request, under a nonce never used before. */
  lemma MintedOverTheLatestReceipt(run: seq<System>, actions: seq<Action>, k: nat, c: Commitment)
    requires IsRun(run, actions) && k < |actions|
    requires c.WorkflowCommitment? && !Live(run[k].commitments, c) && Live(run[k + 1].commitments, c)
    ensures actions[k].ArmWrite? && run[k].session.Arming? && c.nonce !in run[k].nonces
    ensures Shows(run[k].index, c.binding.ref, Receipt(c.binding, c.display))
  {
    RunIsSafe(run, actions, k);
    MintIsFresh(run[k], actions[k], c);
  }

  // ------------------------------------------------------------ spent markers

  predicate Closed(ix: Index, c: Commitment, state: MarkState) {
    c in ix.markers && ix.markers[c].state == state && !state.MarkOpen?
  }

  lemma FireWithKeepsClosed(s: System, key: Key, preimage: Commitment, end: WriteEnd, c: Commitment, state: MarkState)
    requires Closed(s.index, c, state)
    ensures Closed(FireWith(s, key, preimage, end).0.index, c, state)
    ensures FireWith(s, key, preimage, end).0.commitments == s.commitments
  {
  }

  lemma PruneKeepsClosed(s: System, end: WriteEnd, c: Commitment, state: MarkState)
    requires Closed(s.index, c, state) && Live(s.commitments, c)
    ensures Closed(DoPrune(s, end).index, c, state)
  {
    assert c in LiveCommitments(s.commitments);
  }

  predicate Marks(a: Action) { a.Fire? || a.FireDelivery? || a.Prune? }

  lemma RequestsKeepMarkers(s: System, a: Action)
    requires RequestStep(a)
    ensures RequestNext(s, a).index.markers == s.index.markers
  {
    match a
    case Begin(c, key, end) => BeginKeepsMarkers(s, c, key, end);
    case Propose(c, capability, capabilityExpiresAt, end) => ProposeKeepsMarkers(s, c, capability, capabilityExpiresAt, end);
    case _ =>
  }

  lemma BeginKeepsMarkers(s: System, c: Client, key: OriginKey, end: WriteEnd)
    ensures DoBegin(s, c, key, end).index.markers == s.index.markers
  {
  }

  lemma ProposeKeepsMarkers(s: System, c: Client, capability: Capability, capabilityExpiresAt: Time, end: WriteEnd)
    ensures DoPropose(s, c, capability, capabilityExpiresAt, end).index.markers == s.index.markers
  {
  }

  lemma ArmingKeepsMarkers(s: System, a: Action)
    requires ArmingStep(a) && !Marks(a)
    ensures ArmingNext(s, a).index.markers == s.index.markers
  {
  }

  lemma OthersKeepMarkers(s: System, a: Action)
    requires !Marks(a)
    ensures Step(s, a).index.markers == s.index.markers
  {
    if RequestStep(a) { RequestsKeepMarkers(s, a); }
    else if ArmingStep(a) { ArmingKeepsMarkers(s, a); }
  }

  lemma StepKeepsClosed(s: System, a: Action, c: Commitment, state: MarkState)
    requires Closed(s.index, c, state) && Live(s.commitments, c)
    ensures Closed(Step(s, a).index, c, state)
  {
    if !Marks(a) { OthersKeepMarkers(s, a); }
    else if a.Prune? { PruningKeepsClosed(s, a, c, state); }
    else { FiringKeepsClosed(s, a, c, state); }
  }

  lemma PruningKeepsClosed(s: System, a: Action, c: Commitment, state: MarkState)
    requires Closed(s.index, c, state) && Live(s.commitments, c) && a.Prune?
    ensures Closed(ArmingNext(s, a).index, c, state)
  {
    PruneKeepsClosed(s, a.end, c, state);
  }

  lemma FiringKeepsClosed(s: System, a: Action, c: Commitment, state: MarkState)
    requires Closed(s.index, c, state) && (a.Fire? || a.FireDelivery?)
    ensures Closed(DecidingNext(s, a).index, c, state)
  {
    if a.Fire? { FireKeepsClosed(s, a.code, a.end, c, state); }
    else { FireDeliveryKeepsClosed(s, a.proposal, a.preimage, a.end, c, state); }
  }

  lemma FireKeepsClosed(s: System, code: Nonce, end: WriteEnd, c: Commitment, state: MarkState)
    requires Closed(s.index, c, state)
    ensures Closed(DoFire(s, code, end).index, c, state)
  {
    if s.session.Checked? {
      FireWithKeepsClosed(s, WorkflowKey(s.session.ref),
                          WorkflowCommitment(s.session.shown.binding, s.session.shown.display, code), end, c, state);
    }
  }

  lemma FireDeliveryKeepsClosed(s: System, proposal: Digest, preimage: Commitment, end: WriteEnd, c: Commitment, state: MarkState)
    requires Closed(s.index, c, state)
    ensures Closed(DoFireDelivery(s, proposal, preimage, end).index, c, state)
  {
    FireWithKeepsClosed(s, DeliveryKey(proposal), preimage, end, c, state);
  }

  lemma RequestsOnlyMint(s: System, a: Action)
    requires RequestStep(a)
    ensures RequestNext(s, a).nonces == s.nonces && s.ids <= RequestNext(s, a).ids
  {
  }

  lemma ArmingOnlyMints(s: System, a: Action)
    requires ArmingStep(a)
    ensures s.nonces <= ArmingNext(s, a).nonces && ArmingNext(s, a).ids == s.ids
  {
  }

  lemma DecidingOnlyMints(s: System, a: Action)
    requires !RequestStep(a) && !ArmingStep(a)
    ensures DecidingNext(s, a).nonces == s.nonces && s.ids <= DecidingNext(s, a).ids
  {
  }

  lemma NoncesGrow(s: System, a: Action)
    ensures s.nonces <= Step(s, a).nonces && s.ids <= Step(s, a).ids
  {
    if RequestStep(a) { RequestsOnlyMint(s, a); }
    else if ArmingStep(a) { ArmingOnlyMints(s, a); }
    else { DecidingOnlyMints(s, a); }
  }

  lemma {:induction false} NoncesGrowOver(run: seq<System>, actions: seq<Action>, j: nat, k: nat)
    requires IsRun(run, actions) && j <= k < |run|
    ensures run[j].nonces <= run[k].nonces && run[j].ids <= run[k].ids
  {
    if j < k {
      NoncesGrowOver(run, actions, j, k - 1);
      NoncesGrow(run[k - 1], actions[k - 1]);
    }
  }

  lemma LiveBefore(s: System, a: Action, c: Commitment)
    requires c.nonce in s.nonces && Live(Step(s, a).commitments, c)
    ensures Live(s.commitments, c)
  {
    if !Live(s.commitments, c) { MintIsFresh(s, a, c); }
  }

  lemma ClosedIsMinted(s: System, c: Commitment, state: MarkState)
    requires Safe(s) && Closed(s.index, c, state)
    ensures c.nonce in s.nonces
  {
  }

  lemma ClosedStep(s: System, a: Action, s': System, c: Commitment, state: MarkState)
    requires s' == Step(s, a) && c.nonce in s.nonces && Live(s'.commitments, c)
    requires Live(s.commitments, c) ==> Closed(s.index, c, state)
    ensures Closed(s'.index, c, state)
  {
    LiveBefore(s, a, c);
    StepKeepsClosed(s, a, c, state);
  }

  lemma ClosedStaysMinted(run: seq<System>, actions: seq<Action>, j: nat, k: nat, c: Commitment, state: MarkState)
    requires IsRun(run, actions) && j <= k < |run| && Closed(run[j].index, c, state)
    ensures c.nonce in run[k].nonces
  {
    RunIsSafe(run, actions, j);
    ClosedIsMinted(run[j], c, state);
    NoncesGrowOver(run, actions, j, k);
  }

  lemma ClosedRunStep(run: seq<System>, actions: seq<Action>, j: nat, k: nat, c: Commitment, state: MarkState)
    requires IsRun(run, actions) && j < k < |run| && Closed(run[j].index, c, state) && Live(run[k].commitments, c)
    requires Live(run[k - 1].commitments, c) ==> Closed(run[k - 1].index, c, state)
    ensures Closed(run[k].index, c, state)
  {
    ClosedStaysMinted(run, actions, j, k - 1, c, state);
    ClosedStep(run[k - 1], actions[k - 1], run[k], c, state);
  }

  /** CONSUMED or DEAD never becomes anything else while the commitment is live,
      re-arming and pruning included. */
  lemma {:induction false} ClosedWhileLive(run: seq<System>, actions: seq<Action>, j: nat, k: nat, c: Commitment, state: MarkState)
    requires IsRun(run, actions) && j <= k < |run|
    requires Closed(run[j].index, c, state) && Live(run[k].commitments, c)
    ensures Closed(run[k].index, c, state)
  {
    if j < k {
      if Live(run[k - 1].commitments, c) { ClosedWhileLive(run, actions, j, k - 1, c, state); }
      ClosedRunStep(run, actions, j, k, c, state);
    }
  }

  /** No armed approval ever fires twice. */
  lemma FiresAtMostOnce(run: seq<System>, actions: seq<Action>, k: nat, i: nat, j: nat)
    requires IsRun(run, actions) && k < |run| && i < j < |run[k].fired|
    ensures run[k].fired[i] != run[k].fired[j]
  {
    RunIsSafe(run, actions, k);
  }

  // ------------------------------------------------------- one decision, final

  /** Decided or voided. */
  predicate Settled(w: Workflow) { w.consumedAt.Some? || w.superseded }

  predicate SameSettlement(w: Workflow, w': Workflow) {
    w'.origin == w.origin && w'.consumedAt == w.consumedAt && w'.superseded == w.superseded
  }

  /** Both ways of changing a relayed record refuse a settled one. */
  lemma SettledRefusesBoth(ws: Workflows, ref: Ref, held: Held, shown: Binding, capability: Capability, now: Time)
    requires held.workflowId in ws && Settled(ws[held.workflowId])
    ensures ConsumeWorkflow(ws, ref, held, shown, now).No? && WithdrawWorkflow(ws, ref, held, capability, now).No?
  {
  }

  lemma RecordKeepsSettled(s: System, c: Client, ref: Ref, wid: WorkflowId, w: Workflow, pruned: set<WorkflowId>, now: Time,
                           end: WriteEnd, id: WorkflowId)
    requires id in s.workflows && Settled(s.workflows[id]) && id in s.ids
    ensures var s' := DoRecord(s, c, ref, wid, w, pruned, now, end);
            id in s'.workflows ==> s'.workflows[id] == s.workflows[id]
  {
  }

  /** The steps that write the workflow store. */
  predicate WritesWorkflows(a: Action) {
    a.RecordPlanned? || a.VoidUnindexed? || a.Consume? || a.Withdraw? || a.RuntimeProgress? || a.RuntimePrune? || a.OtherTransport?
  }

  lemma RequestsKeepWorkflows(s: System, a: Action)
    requires RequestStep(a) && !WritesWorkflows(a)
    ensures RequestNext(s, a).workflows == s.workflows
  {
  }

  lemma ArmingKeepsWorkflows(s: System, a: Action)
    requires ArmingStep(a)
    ensures ArmingNext(s, a).workflows == s.workflows
  {
  }

  lemma OthersKeepWorkflows(s: System, a: Action)
    requires !WritesWorkflows(a)
    ensures Step(s, a).workflows == s.workflows
  {
    if RequestStep(a) { RequestsKeepWorkflows(s, a); }
    else if ArmingStep(a) { ArmingKeepsWorkflows(s, a); }
  }

  lemma DecisionKeepsSettled(s: System, a: Action, id: WorkflowId)
    requires a.Consume? || a.Withdraw? || a.VoidUnindexed?
    requires id in s.workflows && Settled(s.workflows[id])
    ensures id in Step(s, a).workflows && Step(s, a).workflows[id] == s.workflows[id]
  {
  }

  lemma EnvironmentKeepsSettled(s: System, a: Action, id: WorkflowId)
    requires a.RuntimeProgress? || a.RuntimePrune? || a.OtherTransport?
    requires id in s.workflows && s.workflows[id].origin.Some?
    ensures id in Step(s, a).workflows ==> SameSettlement(s.workflows[id], Step(s, a).workflows[id])
  {
  }

  lemma StepKeepsSettled(s: System, a: Action, id: WorkflowId)
    requires Safe(s) && id in s.workflows && s.workflows[id].origin.Some? && Settled(s.workflows[id])
    ensures id in Step(s, a).workflows ==> SameSettlement(s.workflows[id], Step(s, a).workflows[id])
  {
    if !WritesWorkflows(a) {
      OthersKeepWorkflows(s, a);
    } else if a.RecordPlanned? {
      RecordKeepsSettled(s, a.client, a.ref, a.id,
                         Workflow(Some(a.ref), a.revision, a.authorization, a.expiresAt, None, false, PhasePlanned),
                         a.pruned, a.now, a.end, id);
    } else if a.Consume? || a.Withdraw? || a.VoidUnindexed? {
      DecisionKeepsSettled(s, a, id);
    } else {
      EnvironmentKeepsSettled(s, a, id);
    }
  }

  lemma RecordNeverReturns(s: System, c: Client, ref: Ref, wid: WorkflowId, w: Workflow, pruned: set<WorkflowId>, now: Time,
                           end: WriteEnd, id: WorkflowId)
    requires id in s.ids && id !in s.workflows
    ensures id !in DoRecord(s, c, ref, wid, w, pruned, now, end).workflows
  {
  }

  lemma NeverReturns(s: System, a: Action, id: WorkflowId)
    requires id in s.ids && id !in s.workflows
    ensures id !in Step(s, a).workflows
  {
    if !WritesWorkflows(a) {
      OthersKeepWorkflows(s, a);
    } else if a.RecordPlanned? {
      RecordNeverReturns(s, a.client, a.ref, a.id,
                         Workflow(Some(a.ref), a.revision, a.authorization, a.expiresAt, None, false, PhasePlanned),
                         a.pruned, a.now, a.end, id);
    }
  }

  /** A relayed workflow is never both decided and voided; once either holds it
      holds for ever, and approve and withdraw both refuse it for ever — however
      voids, firings, withdrawals, crashes and the Runtime interleave. */
  lemma {:induction false} SettledForGood(run: seq<System>, actions: seq<Action>, j: nat, k: nat, id: WorkflowId)
    requires IsRun(run, actions) && j <= k < |run| && id in run[j].workflows && id in run[k].workflows
    requires run[j].workflows[id].origin.Some? && Settled(run[j].workflows[id])
    ensures SameSettlement(run[j].workflows[id], run[k].workflows[id])
    ensures !(run[k].workflows[id].consumedAt.Some? && run[k].workflows[id].superseded)
  {
    RunIsSafe(run, actions, k);
    if j < k {
      RunIsSafe(run, actions, j);
      NoncesGrowOver(run, actions, j, k - 1);
      if id !in run[k - 1].workflows { NeverReturns(run[k - 1], actions[k - 1], id); }
      SettledForGood(run, actions, j, k - 1, id);
      RunIsSafe(run, actions, k - 1);
      StepKeepsSettled(run[k - 1], actions[k - 1], id);
    }
    assert RelayOk(run[k].index, id, run[k].workflows[id]);
  }

  /** Why a relayed workflow may be voided: its expiry passed, its own holder
      withdrew it, or it could not be indexed. */
  ghost predicate VoidCause(s: System, a: Action, id: WorkflowId)
    requires id in s.workflows
  {
    || (a.RecordPlanned? && a.now >= s.workflows[id].expiresAt)
    || (a.Withdraw? && a.ref in s.index.workflowRequests
        && var held := s.index.workflowRequests[a.ref];
           held.workflowId == id && s.workflows[id].origin == Some(a.ref)
           && a.capability == held.capability && a.now < held.capabilityExpiresAt)
    || (a.VoidUnindexed? && a.client in s.clients && s.clients[a.client] == Voiding(id))
  }

  lemma EnvironmentVoidsNothing(s: System, a: Action, id: WorkflowId)
    requires a.Consume? || a.RuntimeProgress? || a.RuntimePrune? || a.OtherTransport?
    requires id in s.workflows && s.workflows[id].origin.Some? && !s.workflows[id].superseded
    ensures id in Step(s, a).workflows ==> !Step(s, a).workflows[id].superseded
  {
  }

  lemma VoidedOnlyForCause(s: System, a: Action, id: WorkflowId)
    requires id in s.workflows && s.workflows[id].origin.Some? && !s.workflows[id].superseded
    requires id in Step(s, a).workflows && Step(s, a).workflows[id].superseded
    ensures IsPending(s.workflows[id]) && VoidCause(s, a, id)
  {
    if !WritesWorkflows(a) {
      OthersKeepWorkflows(s, a);
    } else if a.RecordPlanned? {
      var w := Workflow(Some(a.ref), a.revision, a.authorization, a.expiresAt, None, false, PhasePlanned);
      if Step(s, a).workflows != s.workflows { RecordDecidesNothing(s.workflows, a.id, w, a.pruned, a.now, id); }
    } else if !a.Withdraw? && !a.VoidUnindexed? {
      EnvironmentVoidsNothing(s, a, id);
    }
  }

  // ----------------------------------------------------- one workflow a request

  /** A workflow that no request entry maps to is never authorized here. */
  lemma UnindexedIsNeverAuthorized(run: seq<System>, actions: seq<Action>, k: nat, id: WorkflowId)
    requires IsRun(run, actions) && k < |run| && id in run[k].workflows && run[k].workflows[id].origin.Some?
    requires run[k].workflows[id].consumedAt.Some?
    ensures Indexed(run[k].index, id, run[k].workflows[id])
  {
    RunIsSafe(run, actions, k);
  }

  /** At most one workflow is ever created for a request, unless a record write
      of that very request landed and then raised. */
  lemma OneWorkflowPerRequest(run: seq<System>, actions: seq<Action>, k: nat, id: WorkflowId, jd: WorkflowId)
    requires IsRun(run, actions) && k < |run| && id in run[k].origins && jd in run[k].origins
    requires run[k].origins[id] == run[k].origins[jd] && run[k].origins[id] !in run[k].torn
    ensures id == jd
  {
    RunIsSafe(run, actions, k);
  }

  lemma OthersForgetNothing(s: System, a: Action, key: OriginKey)
    requires !RequestStep(a) && key in s.index.requests
    ensures key in Step(s, a).index.requests
  {
    if ArmingStep(a) { ArmingForgetsNothing(s, a, key); }
  }

  lemma ArmingForgetsNothing(s: System, a: Action, key: OriginKey)
    requires ArmingStep(a) && key in s.index.requests
    ensures key in ArmingNext(s, a).index.requests
  {
  }

  lemma OnlyAbandonForgets(s: System, a: Action, key: OriginKey)
    requires RequestStep(a) && key in s.index.requests && key !in RequestNext(s, a).index.requests
    ensures a.Abandon? && a.client in s.clients && s.clients[a.client] == Failing(key)
  {
    match a
    case Begin(c, k, end) => BeginForgetsNothing(s, c, k, end, key);
    case Propose(c, capability, capabilityExpiresAt, end) => ProposeForgetsNothing(s, c, capability, capabilityExpiresAt, end, key);
    case Abandon(c, end) => AbandonForgetsItsOwn(s, c, end, key);
    case _ =>
  }

  lemma BeginForgetsNothing(s: System, c: Client, k: OriginKey, end: WriteEnd, key: OriginKey)
    requires key in s.index.requests
    ensures key in DoBegin(s, c, k, end).index.requests
  {
  }

  lemma ProposeForgetsNothing(s: System, c: Client, capability: Capability, capabilityExpiresAt: Time, end: WriteEnd, key: OriginKey)
    requires key in s.index.requests
    ensures key in DoPropose(s, c, capability, capabilityExpiresAt, end).index.requests
  {
  }

  lemma AbandonForgetsItsOwn(s: System, c: Client, end: WriteEnd, key: OriginKey)
    requires key in s.index.requests && key !in DoAbandon(s, c, end).index.requests
    ensures c in s.clients && s.clients[c] == Failing(key)
  {
  }

  /** IN_FLIGHT is forgotten only when nothing was recorded for the request,
      with the same exception. */
  lemma AbandonedOnlyIfNothingRecorded(run: seq<System>, actions: seq<Action>, k: nat, key: OriginKey, id: WorkflowId)
    requires IsRun(run, actions) && k < |actions| && id in run[k].origins && run[k].origins[id] == key
    requires key in run[k].index.requests && key !in run[k + 1].index.requests
    ensures key in run[k].torn
  {
    var s, a := run[k], actions[k];
    RunIsSafe(run, actions, k);
    if !RequestStep(a) { OthersForgetNothing(s, a, key); }
    OnlyAbandonForgets(s, a, key);
    assert FrameKey(s.clients[a.client], key);
  }

  function Planned(ref: Ref): Workflow { Workflow(Some(ref), 1, "plan", 100, None, false, PhasePlanned) }

  function TornActions(): seq<Action> {
    [Begin(1, 7, Landed), RecordPlanned(1, 11, 21, 1, "plan", 100, {}, 0, LandedThenRaised), Abandon(1, Landed),
     Begin(2, 7, Landed), RecordPlanned(2, 12, 22, 1, "plan", 100, {}, 0, Landed)]
  }

  function Torn(requests: map<OriginKey, Entry>, clients: map<Client, Frame>): System {
    START.(index := START.index.(requests := requests), clients := clients, workflows := map[21 := Planned(11)],
           refs := {11}, ids := {21}, origins := map[21 := 7], torn := {7})
  }

  lemma RecordAdds(ws: Workflows, id: WorkflowId, w: Workflow)
    requires id !in ws && |ws| < MAX_WORKFLOW_RECORDS && forall k :: k in ws ==> ws[k].expiresAt > 0
    ensures RecordWorkflow(ws, id, w, {}, 0) == Done(ws[id := w])
  {
    NothingExpired(ws);
    assert Kept(ws, {}) == ws;
  }

  lemma NothingExpired(ws: Workflows)
    requires forall k :: k in ws ==> ws[k].expiresAt > 0
    ensures VoidExpired(ws, 0) == ws
  {
    var v := VoidExpired(ws, 0);
    assert v.Keys == ws.Keys;
    forall k | k in ws ensures v[k] == ws[k] {}
  }

  lemma BeginAdds(s: System, c: Client, key: OriginKey)
    requires s.session.NoSession? && c !in s.clients && key !in s.index.requests && |s.index.requests| < MAX_ENTRIES
    ensures Step(s, Begin(c, key, Landed))
            == s.(index := s.index.(requests := s.index.requests[key := InFlight]), clients := s.clients[c := Begun(key)])
  {
  }

  lemma AbandonForgets(s: System, c: Client, key: OriginKey)
    requires s.session.NoSession? && s.clients == map[c := Failing(key)] && s.index.requests == map[key := InFlight]
    ensures Step(s, Abandon(c, Landed)) == s.(clients := map[], index := s.index.(requests := map[]))
  {
    assert s.index.requests - {key} == map[] && s.clients - {c} == map[];
  }

  lemma RecordEnds(s: System, c: Client, ref: Ref, id: WorkflowId, end: WriteEnd)
    requires c in s.clients && s.clients[c].Begun? && ref !in s.refs && id !in s.ids && !end.FailedBefore?
    requires RecordWorkflow(s.workflows, id, Planned(ref), {}, 0).Done?
    ensures Step(s, RecordPlanned(c, ref, id, 1, "plan", 100, {}, 0, end))
            == s.(clients := s.clients[c := if end.Landed? then Recorded(s.clients[c].key, ref, id) else Failing(s.clients[c].key)],
                  workflows := RecordWorkflow(s.workflows, id, Planned(ref), {}, 0).value,
                  refs := s.refs + {ref}, ids := s.ids + {id}, origins := s.origins[id := s.clients[c].key],
                  torn := if end.Landed? then s.torn else s.torn + {s.clients[c].key})
  {
  }

  lemma TornBegins(s: System)
    requires s == START.(index := START.index.(requests := map[7 := InFlight]), clients := map[1 := Begun(7)])
    ensures s == Step(START, Begin(1, 7, Landed))
  {
    BeginAdds(START, 1, 7);
  }

  lemma TornWrite(s: System, s': System)
    requires s == START.(index := START.index.(requests := map[7 := InFlight]), clients := map[1 := Begun(7)])
    requires s' == Torn(map[7 := InFlight], map[1 := Failing(7)])
    ensures s' == Step(s, RecordPlanned(1, 11, 21, 1, "plan", 100, {}, 0, LandedThenRaised))
  {
    RecordAdds(map[], 21, Planned(11));
    RecordEnds(s, 1, 11, 21, LandedThenRaised);
  }

  lemma PlannedAgain(s: System, s': System, s'': System)
    requires s == Torn(map[], map[]) && s' == Step(s, Begin(2, 7, Landed))
    requires s'' == Step(s', RecordPlanned(2, 12, 22, 1, "plan", 100, {}, 0, Landed))
    ensures s''.origins == map[21 := 7, 22 := 7] && s''.workflows == map[21 := Planned(11), 22 := Planned(12)]
  {
    BeginAdds(s, 2, 7);
    RecordAdds(map[21 := Planned(11)], 22, Planned(12));
    RecordEnds(s', 2, 12, 22, Landed);
  }

  /** One more action of a run. */
  lemma RunExtends(run: seq<System>, actions: seq<Action>, a: Action, s: System)
    requires IsRun(run, actions) && s == Step(run[|actions|], a)
    ensures IsRun(run + [s], actions + [a])
  {
  }

  lemma TornRecorded() returns (run: seq<System>)
    ensures IsRun(run, TornActions()[..2]) && run[2] == Torn(map[7 := InFlight], map[1 := Failing(7)])
  {
    var s1 := START.(index := START.index.(requests := map[7 := InFlight]), clients := map[1 := Begun(7)]);
    var s2 := Torn(map[7 := InFlight], map[1 := Failing(7)]);
    TornBegins(s1);
    TornWrite(s1, s2);
    run := [START, s1, s2];
  }

  lemma TornAbandoned() returns (run: seq<System>)
    ensures IsRun(run, TornActions()[..3]) && run[3] == Torn(map[], map[])
  {
    var half := TornRecorded();
    AbandonForgets(half[2], 1, 7);
    RunExtends(half, TornActions()[..2], TornActions()[2], Torn(map[], map[]));
    assert TornActions()[..2] + [TornActions()[2]] == TornActions()[..3];
    run := half + [Torn(map[], map[])];
  }

  /** The exception is real: a record write that lands and then raises is
      answered by abandoning the request, which is then planned a second time. */
  lemma TornRequestIsPlannedTwice() returns (run: seq<System>)
    ensures IsRun(run, TornActions())
    ensures run[5].origins == map[21 := 7, 22 := 7] && run[5].workflows == map[21 := Planned(11), 22 := Planned(12)]
  {
    var half := TornAbandoned();
    var s := Step(half[3], TornActions()[3]);
    var s' := Step(s, TornActions()[4]);
    PlannedAgain(half[3], s, s');
    RunExtends(half, TornActions()[..3], TornActions()[3], s);
    RunExtends(half + [s], TornActions()[..3] + [TornActions()[3]], TornActions()[4], s');
    assert TornActions()[..3] + [TornActions()[3]] + [TornActions()[4]] == TornActions();
    run := half + [s] + [s'];
  }
}
