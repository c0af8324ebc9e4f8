/** The approval protocol as a state machine: every durable write is one step,
    a crash may fall between any two, and what holds only the store lock may run
    inside another's index section (grok_bot/adapter.py:510-836,
    grok_bot/authorize.py:62-167). */
module ApprovalSteps {
  import opened Record
  import opened Approval

  /** The one index critical section, and where it stands. */
  datatype Session =
    | NoSession
    | Presenting(receipt: Receipt)
    | Arming(shown: Receipt, at: Time)
    | Pruning
    | Checked(ref: Ref, held: Held, shown: Receipt)
    | Fired(ref: Ref, held: Held, shown: Receipt, commitment: Commitment)

  /** A request between its durable writes. */
  datatype Frame =
    | Begun(key: OriginKey)
    | Recorded(key: OriginKey, ref: Ref, workflowId: WorkflowId)
    | Failing(key: OriginKey)
    | Voiding(workflowId: WorkflowId)

  type Client = nat

  datatype System = System(
    index: Index, commitments: Commitments, workflows: Workflows,
    session: Session, clients: map<Client, Frame>,
    /** Every nonce, ref and workflow id ever minted. */
    nonces: set<Nonce>, refs: set<Ref>, ids: set<WorkflowId>,
    /** Every firing that went on to be applied, in order. */
    fired: seq<Commitment>,
    /** The request each recorded workflow came from. */
    origins: map<WorkflowId, OriginKey>,
    /** Requests whose record write landed and then raised. */
    torn: set<OriginKey>)

  const START := System(Index(map[], map[], map[], map[]), map[], map[], NoSession, map[], {}, {}, {}, [], map[], {})

  datatype Action =
    | Begin(client: Client, key: OriginKey, end: WriteEnd)
    | RecordPlanned(client: Client, ref: Ref, id: WorkflowId, revision: nat, authorization: string, expiresAt: Time,
                    pruned: set<WorkflowId>, now: Time, end: WriteEnd)
    | GiveUp(client: Client)
    | Abandon(client: Client, end: WriteEnd)
    | Propose(client: Client, capability: Capability, capabilityExpiresAt: Time, end: WriteEnd)
    | VoidUnindexed(client: Client, end: WriteEnd)
    | CrashClient(client: Client)
    | PresentRead(ref: Ref, now: Time)
    | PresentWrite(end: WriteEnd)
    | ArmRead(receipt: Receipt, now: Time)
    | ArmWrite(nonce: Nonce, end: WriteEnd)
    | ArmDelivery(proposal: Digest, expiresAt: Time, displayDigest: Digest, repository: string, nonce: Nonce, now: Time, end: WriteEnd)
    | Prune(end: WriteEnd)
    | ApproveCheck(ref: Ref, given: Relayed, now: Time)
    | Fire(code: Nonce, end: WriteEnd)
    | Consume(now: Time, end: WriteEnd)
    | FireDelivery(proposal: Digest, preimage: Commitment, end: WriteEnd)
    | Withdraw(ref: Ref, capability: Capability, now: Time, end: WriteEnd)
    | CrashSession
    | RuntimeProgress(id: WorkflowId, phase: Phase)
    | RuntimePrune(id: WorkflowId)
    | OtherTransport(id: WorkflowId, w: Workflow)

  predicate Lands(end: WriteEnd) { !end.FailedBefore? }

  function FrameOf(s: System, c: Client): Option<Frame> { if c in s.clients then Some(s.clients[c]) else None }

  function Leave(s: System, c: Client): System { s.(clients := s.clients - {c}) }

  // ------------------------------------------------------------------ request

  /** begin under the index lock; only an unknown key goes on to a turn. */
  function DoBegin(s: System, c: Client, key: OriginKey, end: WriteEnd): System {
    if !s.session.NoSession? || c in s.clients then s
    else
      var r := BeginRequest(s.index, key);
      if r.No? || r.value.0.Some? || !Lands(end) then s
      else if end.Landed? then s.(index := r.value.1, clients := s.clients[c := Begun(key)])
      else s.(index := r.value.1)
  }

  /** record: a raising write is followed by an abandon, landed or not. */
  function DoRecord(s: System, c: Client, ref: Ref, id: WorkflowId, w: Workflow, pruned: set<WorkflowId>, now: Time,
                    end: WriteEnd): System
  {
    if FrameOf(s, c).None? || !s.clients[c].Begun? || ref in s.refs || id in s.ids then s
    else
      var key := s.clients[c].key;
      var r := RecordWorkflow(s.workflows, id, w, pruned, now);
      var minted := s.(refs := s.refs + {ref}, ids := s.ids + {id});
      if r.No? || !Lands(end) then minted.(clients := s.clients[c := Failing(key)])
      else
        minted.(workflows := r.value, origins := s.origins[id := key],
                clients := s.clients[c := if end.Landed? then Recorded(key, ref, id) else Failing(key)],
                torn := if end.Landed? then s.torn else s.torn + {key})
  }

  function DoGiveUp(s: System, c: Client): System {
    if FrameOf(s, c).None? || !s.clients[c].Begun? then s
    else s.(clients := s.clients[c := Failing(s.clients[c].key)])
  }

  function DoAbandon(s: System, c: Client, end: WriteEnd): System {
    if !s.session.NoSession? || FrameOf(s, c).None? || !s.clients[c].Failing? then s
    else
      var left := Leave(s, c);
      if Lands(end) then left.(index := AbandonRequest(s.index, s.clients[c].key)) else left
  }

  /** record_workflow_proposed; a raise is answered by voiding the record. */
  function DoPropose(s: System, c: Client, capability: Capability, capabilityExpiresAt: Time, end: WriteEnd): System {
    if !s.session.NoSession? || FrameOf(s, c).None? || !s.clients[c].Recorded? then s
    else
      var f := s.clients[c];
      var r := ProposeRequest(s.index, f.key, f.ref, Held(f.workflowId, capability, capabilityExpiresAt));
      if r.No? || !Lands(end) then s.(clients := s.clients[c := Voiding(f.workflowId)])
      else if end.Landed? then Leave(s, c).(index := r.value)
      else s.(index := r.value, clients := s.clients[c := Voiding(f.workflowId)])
  }

  function DoVoidUnindexed(s: System, c: Client, end: WriteEnd): System {
    if FrameOf(s, c).None? || !s.clients[c].Voiding? then s
    else
      var left := Leave(s, c);
      if Lands(end) then left.(workflows := VoidOne(s.workflows, s.clients[c].workflowId)) else left
  }

  // ------------------------------------------------------------------ present

  function DoPresentRead(s: System, ref: Ref, now: Time): System {
    if !s.session.NoSession? || ref !in s.index.workflowRequests then s
    else
      var held := s.index.workflowRequests[ref];
      var own := Own(s.workflows, ref, held);
      if own.No? || !IsPending(own.value) || now >= own.value.expiresAt then s
      else
        var b := BindingOf(own.value, held.workflowId, ref);
        s.(session := Presenting(Receipt(b, DisplayOf(own.value, b))))
  }

  function DoPresentWrite(s: System, end: WriteEnd): System {
    if !s.session.Presenting? then s
    else
      var r := PresentRequest(s.index, s.session.receipt);
      var out := s.(session := NoSession);
      if r.No? || !Lands(end) then out else out.(index := r.value)
  }

  // ------------------------------------------------------------------- arming

  /** Everything is checked against the latest receipt before anything is armed. */
  function DoArmRead(s: System, given: Receipt, now: Time): System {
    var ref := given.binding.ref;
    if !s.session.NoSession? || ref !in s.index.presentations || ref !in s.index.workflowRequests then s
    else
      var shown, held := s.index.presentations[ref], s.index.workflowRequests[ref];
      if given != shown || now >= shown.binding.expiresAt then s
      else
        var own := Own(s.workflows, ref, held);
        if own.No? || BindingOf(own.value, held.workflowId, ref) != shown.binding || !IsPending(own.value)
           || DisplayOf(own.value, shown.binding) != shown.display
        then s
        else s.(session := Arming(shown, now))
  }

  function Arm(s: System, key: Key, c: Commitment, expiresAt: Time, now: Time, end: WriteEnd): System {
    var out := s.(session := NoSession, nonces := s.nonces + {c.nonce});
    var r := StoreCommitment(s.commitments, key, Armed(c, expiresAt), now);
    if r.No? || !Lands(end) then out
    else out.(commitments := r.value, session := if end.Landed? then Pruning else NoSession)
  }

  function DoArmWrite(s: System, nonce: Nonce, end: WriteEnd): System {
    if !s.session.Arming? || nonce in s.nonces then s
    else
      var shown := s.session.shown;
      Arm(s, WorkflowKey(shown.binding.ref), WorkflowCommitment(shown.binding, shown.display, nonce),
          shown.binding.expiresAt, s.session.at, end)
  }

  function DoArmDelivery(s: System, proposal: Digest, expiresAt: Time, displayDigest: Digest, repository: string,
                         nonce: Nonce, now: Time, end: WriteEnd): System
  {
    if !s.session.NoSession? || nonce in s.nonces || now >= expiresAt then s
    else
      Arm(s, DeliveryKey(proposal), DeliveryCommitment(proposal, expiresAt, displayDigest, repository, nonce),
          expiresAt, now, end)
  }

  function DoPrune(s: System, end: WriteEnd): System {
    if !s.session.Pruning? then s
    else
      var out := s.(session := NoSession);
      if Lands(end) then out.(index := PruneMarkers(s.index, LiveCommitments(s.commitments))) else out
  }

  // ------------------------------------------------------------------ approve

  /** Compare with the latest receipt, then check the record, before the fire. */
  function DoApproveCheck(s: System, ref: Ref, given: Relayed, now: Time): System {
    if !s.session.NoSession? || ref !in s.index.presentations || ref !in s.index.workflowRequests then s
    else
      var shown, held := s.index.presentations[ref], s.index.workflowRequests[ref];
      if Differing(shown.binding, given) != {} then s
      else if Approvable(s.workflows, ref, held, shown.binding, now).No? then s
      else s.(session := Checked(ref, held, shown))
  }

  /** Fire the commitment of this key with a preimage: a wrong one is counted, a
      right one is recorded consumed before anything is applied. */
  function FireIndex(ix: Index, cs: Commitments, key: Key, preimage: Commitment, end: WriteEnd): (Index, bool) {
    var c := Fireable(ix, cs, key);
    if c.No? then (ix, false)
    else if preimage != c.value then
      var r := MarkFailure(ix, c.value);
      (if r.No? || !Lands(end) then ix else r.value, false)
    else
      var r := MarkFired(ix, c.value);
      if r.No? || !Lands(end) then (ix, false) else (r.value, end.Landed?)
  }

  function FireWith(s: System, key: Key, preimage: Commitment, end: WriteEnd): (System, bool) {
    var (ix, fires) := FireIndex(s.index, s.commitments, key, preimage, end);
    (s.(index := ix, session := NoSession), fires)
  }

  function DoFire(s: System, code: Nonce, end: WriteEnd): System {
    if !s.session.Checked? then s
    else
      var ss := s.session;
      var preimage := WorkflowCommitment(ss.shown.binding, ss.shown.display, code);
      var (out, fires) := FireWith(s, WorkflowKey(ss.ref), preimage, end);
      if fires then out.(session := Fired(ss.ref, ss.held, ss.shown, preimage), fired := s.fired + [preimage]) else out
  }

  /** The delivery approval fires the same way; what it relays is elsewhere. */
  function DoFireDelivery(s: System, proposal: Digest, preimage: Commitment, end: WriteEnd): System {
    if !s.session.NoSession? then s
    else
      var (out, fires) := FireWith(s, DeliveryKey(proposal), preimage, end);
      if fires then out.(fired := s.fired + [preimage]) else out
  }

  function DoConsume(s: System, now: Time, end: WriteEnd): System {
    if !s.session.Fired? then s
    else
      var out := s.(session := NoSession);
      var r := ConsumeWorkflow(s.workflows, s.session.ref, s.session.held, s.session.shown.binding, now);
      if r.No? || !Lands(end) then out else out.(workflows := r.value)
  }

  function DoWithdraw(s: System, ref: Ref, capability: Capability, now: Time, end: WriteEnd): System {
    if !s.session.NoSession? || ref !in s.index.workflowRequests then s
    else
      var r := WithdrawWorkflow(s.workflows, ref, s.index.workflowRequests[ref], capability, now);
      if r.No? || !Lands(end) then s else s.(workflows := r.value)
  }

  // -------------------------------------------------------------- environment

  /** The Runtime moves a decided workflow on; it never returns to PLANNED. */
  function DoProgress(s: System, id: WorkflowId, phase: Phase): System {
    if id !in s.workflows || s.workflows[id].consumedAt.None? || phase.PhasePlanned? then s
    else s.(workflows := s.workflows[id := s.workflows[id].(phase := phase)])
  }

  function DoPruneWorkflow(s: System, id: WorkflowId): System {
    if id !in s.workflows || !TerminalPhase(s.workflows[id].phase) then s
    else s.(workflows := s.workflows - {id})
  }

  /** The other transport's records are its own affair. */
  function DoOther(s: System, id: WorkflowId, w: Workflow): System {
    if w.origin.Some? || (id in s.workflows && s.workflows[id].origin.Some?) || (id in s.ids && id !in s.workflows) then s
    else s.(workflows := s.workflows[id := w], ids := s.ids + {id})
  }

  predicate RequestStep(a: Action) {
    a.Begin? || a.RecordPlanned? || a.GiveUp? || a.Abandon? || a.Propose? || a.VoidUnindexed? || a.CrashClient?
  }

  predicate ArmingStep(a: Action) {
    a.PresentRead? || a.PresentWrite? || a.ArmRead? || a.ArmWrite? || a.ArmDelivery? || a.Prune?
  }

  function RequestNext(s: System, a: Action): System
    requires RequestStep(a)
  {
    match a
    case Begin(c, key, end) => DoBegin(s, c, key, end)
    case RecordPlanned(c, ref, id, revision, authorization, expiresAt, pruned, now, end) =>
      DoRecord(s, c, ref, id, Workflow(Some(ref), revision, authorization, expiresAt, None, false, PhasePlanned), pruned, now, end)
    case GiveUp(c) => DoGiveUp(s, c)
    case Abandon(c, end) => DoAbandon(s, c, end)
    case Propose(c, capability, capabilityExpiresAt, end) => DoPropose(s, c, capability, capabilityExpiresAt, end)
    case VoidUnindexed(c, end) => DoVoidUnindexed(s, c, end)
    case CrashClient(c) => Leave(s, c)
  }

  function ArmingNext(s: System, a: Action): System
    requires ArmingStep(a)
  {
    match a
    case PresentRead(ref, now) => DoPresentRead(s, ref, now)
    case PresentWrite(end) => DoPresentWrite(s, end)
    case ArmRead(receipt, now) => DoArmRead(s, receipt, now)
    case ArmWrite(nonce, end) => DoArmWrite(s, nonce, end)
    case ArmDelivery(proposal, expiresAt, displayDigest, repository, nonce, now, end) =>
      DoArmDelivery(s, proposal, expiresAt, displayDigest, repository, nonce, now, end)
    case Prune(end) => DoPrune(s, end)
  }

  function DecidingNext(s: System, a: Action): System
    requires !RequestStep(a) && !ArmingStep(a)
  {
    match a
    case ApproveCheck(ref, given, now) => DoApproveCheck(s, ref, given, now)
    case Fire(code, end) => DoFire(s, code, end)
    case Consume(now, end) => DoConsume(s, now, end)
    case FireDelivery(proposal, preimage, end) => DoFireDelivery(s, proposal, preimage, end)
    case Withdraw(ref, capability, now, end) => DoWithdraw(s, ref, capability, now, end)
    case CrashSession => s.(session := NoSession)
    case RuntimeProgress(id, phase) => DoProgress(s, id, phase)
    case RuntimePrune(id) => DoPruneWorkflow(s, id)
    case OtherTransport(id, w) => DoOther(s, id, w)
  }

  function Step(s: System, a: Action): System {
    if RequestStep(a) then RequestNext(s, a)
    else if ArmingStep(a) then ArmingNext(s, a)
    else DecidingNext(s, a)
  }

  /** The states these actions pass through, from the empty system. */
  ghost predicate IsRun(run: seq<System>, actions: seq<Action>) {
    && |run| == |actions| + 1 && run[0] == START
    && (forall i :: 0 <= i < |actions| ==> run[i + 1] == Step(run[i], actions[i]))
  }
}
