/** The three durable documents of the conforming approval route — the request
    index, the armed commitments and the workflow store — and every update made
    to them (grok_bot/index.py, grok_bot/authorize.py, grok_bot/conforming.py).

    A digest is modelled by what it covers: a commitment is its preimage, an
    authorization digest the rendered text, a display digest the display. */
module Approval {
  import opened Record

  const MAX_ENTRIES := 1024
  const MAX_COMMITMENTS := 1024
  const MAX_CODE_FAILURES := 5
  const MAX_WORKFLOW_RECORDS := 64

  type Ref = nat
  type WorkflowId = nat
  type OriginKey = nat
  type Nonce = nat
  type Capability = nat

  datatype Refusal =
    | NotPresented | NotDisplayed | NotArmed | AlreadyFired | CodeMismatch(failures: nat)
    | StaleBinding | Superseded | AlreadyDecided | NotAwaiting | Expired
    | UnknownRequest | WorkflowMissing | CapabilityRefused | RunningCancel | NotPending
    | InFlightElsewhere | AlreadyIndexed | IndexFull | CommitmentsFull | StoreRefused

  datatype Outcome<+T> = Done(value: T) | No(refusal: Refusal) {
    predicate IsFailure() { No? }
    function PropagateFailure<U>(): Outcome<U> requires No? { No(refusal) }
    function Extract(): T requires Done? { value }
  }

  // ------------------------------------------------------- what is displayed

  /** Exactly the fields a reply must restate. */
  datatype Binding = Binding(ref: Ref, workflowId: WorkflowId, revision: nat, authorization: string, expiresAt: Time)

  datatype Display = Display(binding: Binding, rendered: string)

  datatype Receipt = Receipt(binding: Binding, display: Display)

  /** What a caller relays: any field may be absent. */
  datatype Relayed = Relayed(ref: Option<Ref>, workflowId: Option<WorkflowId>, revision: Option<nat>,
                             authorization: Option<string>, expiresAt: Option<Time>)

  datatype Field = RefField | WorkflowField | RevisionField | AuthorizationField | ExpiryField

  /** displayed_mismatch and the absent fields: an absent field is a difference. */
  function Differing(shown: Binding, given: Relayed): set<Field> {
    (if given.ref != Some(shown.ref) then {RefField} else {})
    + (if given.workflowId != Some(shown.workflowId) then {WorkflowField} else {})
    + (if given.revision != Some(shown.revision) then {RevisionField} else {})
    + (if given.authorization != Some(shown.authorization) then {AuthorizationField} else {})
    + (if given.expiresAt != Some(shown.expiresAt) then {ExpiryField} else {})
  }

  function Restated(b: Binding): Relayed {
    Relayed(Some(b.ref), Some(b.workflowId), Some(b.revision), Some(b.authorization), Some(b.expiresAt))
  }

  /** Nothing differs exactly when every displayed field is restated. */
  lemma DifferingNone(shown: Binding, given: Relayed)
    ensures Differing(shown, given) == {} <==> given == Restated(shown)
  {
    if given.ref != Some(shown.ref) { assert RefField in Differing(shown, given); }
    if given.workflowId != Some(shown.workflowId) { assert WorkflowField in Differing(shown, given); }
    if given.revision != Some(shown.revision) { assert RevisionField in Differing(shown, given); }
    if given.authorization != Some(shown.authorization) { assert AuthorizationField in Differing(shown, given); }
    if given.expiresAt != Some(shown.expiresAt) { assert ExpiryField in Differing(shown, given); }
  }

  // ------------------------------------------------------------- commitments

  datatype Key = WorkflowKey(ref: Ref) | DeliveryKey(proposal: Digest)

  /** A commitment over its whole preimage; kinds never coincide. */
  datatype Commitment =
    | WorkflowCommitment(binding: Binding, display: Display, nonce: Nonce)
    | DeliveryCommitment(proposal: Digest, expiresAt: Time, displayDigest: Digest, repository: string, nonce: Nonce)

  datatype Armed = Armed(commitment: Commitment, expiresAt: Time)

  type Commitments = map<Key, Armed>

  function Current(cs: Commitments, now: Time): Commitments {
    map k | k in cs && cs[k].expiresAt > now :: cs[k]
  }

  /** _store: drop what has expired, then replace the record of this key. */
  function StoreCommitment(cs: Commitments, key: Key, armed: Armed, now: Time): Outcome<Commitments> {
    var current := Current(cs, now);
    if key !in current && |current| >= MAX_COMMITMENTS then No(CommitmentsFull)
    else Done(current[key := armed])
  }

  function LiveCommitments(cs: Commitments): set<Commitment> { set k | k in cs :: cs[k].commitment }

  // ------------------------------------------------------------------- index

  datatype Entry = InFlight | Proposed(ref: Ref)
  datatype Held = Held(workflowId: WorkflowId, capability: Capability, capabilityExpiresAt: Time)
  datatype MarkState = MarkOpen | MarkConsumed | MarkDead
  datatype Marker = Marker(state: MarkState, failures: nat)

  datatype Index = Index(requests: map<OriginKey, Entry>, workflowRequests: map<Ref, Held>,
                         presentations: map<Ref, Receipt>, markers: map<Commitment, Marker>)

  /** begin: the existing entry, or None after marking the key IN_FLIGHT. */
  function BeginRequest(ix: Index, key: OriginKey): Outcome<(Option<Entry>, Index)> {
    if key in ix.requests then Done((Some(ix.requests[key]), ix))
    else if |ix.requests| >= MAX_ENTRIES then No(IndexFull)
    else Done((None, ix.(requests := ix.requests[key := InFlight])))
  }

  function AbandonRequest(ix: Index, key: OriginKey): Index {
    if key in ix.requests && ix.requests[key].InFlight? then ix.(requests := ix.requests - {key}) else ix
  }

  /** record_workflow_proposed: the entry and the mapping in one write. */
  function ProposeRequest(ix: Index, key: OriginKey, ref: Ref, held: Held): Outcome<Index> {
    if ref in ix.workflowRequests then No(AlreadyIndexed)
    else if |ix.workflowRequests| >= MAX_ENTRIES then No(IndexFull)
    else Done(ix.(requests := ix.requests[key := Proposed(ref)], workflowRequests := ix.workflowRequests[ref := held]))
  }

  function PresentRequest(ix: Index, receipt: Receipt): Outcome<Index> {
    if receipt.binding.ref !in ix.presentations && |ix.presentations| >= MAX_ENTRIES then No(IndexFull)
    else Done(ix.(presentations := ix.presentations[receipt.binding.ref := receipt]))
  }

  function MarkerOf(ix: Index, c: Commitment): Marker { if c in ix.markers then ix.markers[c] else Marker(MarkOpen, 0) }

  function Marked(ix: Index, c: Commitment, m: Marker): Outcome<Index> {
    if c !in ix.markers && |ix.markers| >= MAX_ENTRIES then No(IndexFull)
    else Done(ix.(markers := ix.markers[c := m]))
  }

  /** record_code_failure: one more wrong code; at the bound the marker dies. */
  function Failed(m: Marker): Marker {
    Marker(if m.failures + 1 >= MAX_CODE_FAILURES then MarkDead else m.state, m.failures + 1)
  }

  function MarkFailure(ix: Index, c: Commitment): Outcome<Index> { Marked(ix, c, Failed(MarkerOf(ix, c))) }

  function MarkFired(ix: Index, c: Commitment): Outcome<Index> { Marked(ix, c, MarkerOf(ix, c).(state := MarkConsumed)) }

  /** prune_consumption: forget markers of commitments that no longer exist. */
  function PruneMarkers(ix: Index, live: set<Commitment>): Index {
    ix.(markers := map c | c in ix.markers && c in live :: ix.markers[c])
  }

  // --------------------------------------------------------------- workflows

  datatype Phase = PhasePlanned | PhaseAuthorized | PhaseUnderway | PhaseBlocked | PhaseCompleted

  predicate TerminalPhase(p: Phase) { p.PhaseBlocked? || p.PhaseCompleted? }

  /** origin is the relayed request's ref; None is the other transport. */
  datatype Workflow = Workflow(origin: Option<Ref>, revision: nat, authorization: string, expiresAt: Time,
                               consumedAt: Option<Time>, superseded: bool, phase: Phase)

  type Workflows = map<WorkflowId, Workflow>

  predicate IsPending(w: Workflow) { w.phase.PhasePlanned? && w.consumedAt.None? && !w.superseded }

  function Void(w: Workflow): Workflow {
    w.(superseded := true, phase := if TerminalPhase(w.phase) then w.phase else PhaseBlocked)
  }

  predicate ExpiredRelay(w: Workflow, now: Time) { w.origin.Some? && IsPending(w) && now >= w.expiresAt }

  /** void_expired_relay_workflows */
  function VoidExpired(ws: Workflows, now: Time): Workflows {
    map id | id in ws :: if ExpiredRelay(ws[id], now) then Void(ws[id]) else ws[id]
  }

  function BindingOf(w: Workflow, id: WorkflowId, ref: Ref): Binding {
    Binding(ref, id, w.revision, w.authorization, w.expiresAt)
  }

  function DisplayOf(w: Workflow, b: Binding): Display { Display(b, w.authorization) }

  /** _own: the record held names, checked to be this request's own. */
  function Own(ws: Workflows, ref: Ref, held: Held): Outcome<Workflow> {
    if held.workflowId !in ws then No(WorkflowMissing)
    else if ws[held.workflowId].origin != Some(ref) then No(WorkflowMissing)
    else Done(ws[held.workflowId])
  }

  /** _check_approvable */
  function ApprovalProblem(w: Workflow, id: WorkflowId, ref: Ref, shown: Binding, now: Time): Option<Refusal> {
    if BindingOf(w, id, ref) != shown then Some(StaleBinding)
    else if w.superseded then Some(Superseded)
    else if w.consumedAt.Some? then Some(AlreadyDecided)
    else if !w.phase.PhasePlanned? then Some(NotAwaiting)
    else if now >= w.expiresAt then Some(Expired)
    else None
  }

  /** check_approvable: read-only, before the arming is fired. */
  function Approvable(ws: Workflows, ref: Ref, held: Held, shown: Binding, now: Time): Outcome<Workflow> {
    var w :- Own(ws, ref, held);
    var p := ApprovalProblem(w, held.workflowId, ref, shown, now);
    if p.Some? then No(p.value) else Done(w)
  }

  /** consume: re-checked under the store lock, PLANNED to AUTHORIZED. */
  function ConsumeWorkflow(ws: Workflows, ref: Ref, held: Held, shown: Binding, now: Time): Outcome<Workflows> {
    var w :- Approvable(ws, ref, held, shown, now);
    Done(ws[held.workflowId := w.(consumedAt := Some(now), phase := PhaseAuthorized)])
  }

  /** withdraw: a pending withdrawal proven by the request's own capability. */
  function WithdrawWorkflow(ws: Workflows, ref: Ref, held: Held, capability: Capability, now: Time): Outcome<Workflows> {
    if capability != held.capability || now >= held.capabilityExpiresAt then No(CapabilityRefused)
    else
      var w :- Own(ws, ref, held);
      if w.consumedAt.Some? then No(RunningCancel)
      else if !IsPending(w) then No(NotPending)
      else Done(ws[held.workflowId := Void(w)])
  }

  /** What pruning these terminal records leaves; an active one is never pruned. */
  function Kept(ws: Workflows, pruned: set<WorkflowId>): Workflows {
    map k | k in ws && !(k in pruned && TerminalPhase(ws[k].phase)) :: ws[k]
  }

  /** add_workflow after pruning some terminal records to make room. */
  function AddWorkflow(ws: Workflows, id: WorkflowId, w: Workflow, pruned: set<WorkflowId>): Outcome<Workflows> {
    if id in ws || |Kept(ws, pruned)| >= MAX_WORKFLOW_RECORDS then No(StoreRefused)
    else Done(Kept(ws, pruned)[id := w])
  }

  /** record: void the expired pending relays, then save the new record PLANNED. */
  function RecordWorkflow(ws: Workflows, id: WorkflowId, w: Workflow, pruned: set<WorkflowId>, now: Time): Outcome<Workflows> {
    AddWorkflow(VoidExpired(ws, now), id, w, pruned)
  }

  function VoidOne(ws: Workflows, id: WorkflowId): Workflows {
    if id in ws && IsPending(ws[id]) then ws[id := Void(ws[id])] else ws
  }

  // ---------------------------------------------------------------- the fire

  /** _fire up to the comparison: the live commitment of this key, unspent. */
  function Fireable(ix: Index, cs: Commitments, key: Key): Outcome<Commitment> {
    if key !in cs then No(NotArmed)
    else
      var c := cs[key].commitment;
      if c in ix.markers && !ix.markers[c].state.MarkOpen? then No(AlreadyFired) else Done(c)
  }

  // ------------------------------------------------------------- small laws

  /** The expiry void touches exactly the expired pending relay records. */
  lemma VoidsExactlyTheExpired(ws: Workflows, now: Time)
    ensures VoidExpired(ws, now).Keys == ws.Keys
    ensures forall id :: id in ws ==>
              (VoidExpired(ws, now)[id] != ws[id] <==> ExpiredRelay(ws[id], now))
              && (ExpiredRelay(ws[id], now) ==>
                    VoidExpired(ws, now)[id] == ws[id].(superseded := true, phase := PhaseBlocked))
  {
  }

  /** A wrong code never kills early and always kills at the bound; it never
      revives a marker. */
  lemma FailuresKillAtTheBound(m: Marker)
    requires m.state.MarkOpen? && m.failures < MAX_CODE_FAILURES
    ensures Failed(m).state.MarkDead? <==> m.failures == MAX_CODE_FAILURES - 1
    ensures Failed(m).state.MarkOpen? <==> Failed(m).failures < MAX_CODE_FAILURES
  {
  }
}
