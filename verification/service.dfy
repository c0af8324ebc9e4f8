/** The coordination service: every operation is load, look at most once, one
    family operation, save (coordination/service.py:104-400). */
module Service {
  import opened Record
  import opened Observations
  import opened Bindings
  import opened Routing
  import opened Replays
  import opened Documents
  import A = Attentions
  import AO = AttentionOps
  import H = Handoffs
  import HO = HandoffOps

  /** A call with its arguments and everything injected into it: the source's
      answer, the clock, the minter's next ids, the presenter's receipt. */
  datatype Operation =
    | Route(turn: InboundTurn, context: Context, lanes: set<Lane>, answer: Outcome, now: Time, supply: seq<Id>)
    | Bind(ask: BindingAsk, mission: Id, context: Context, answer: Outcome, now: Time, supply: seq<Id>)
    | RevokeBinding(bindingId: Id, now: Time)
    | Rebind(bindingId: Id, expiresAt: Option<Time>, context: Context, answer: Outcome, now: Time, supply: seq<Id>)
    | ProjectAttention(mission: Id, destination: Destination, answer: Outcome, now: Time, supply: seq<Id>)
    | SurfaceAttention(attentionId: Id, receipt: AO.PresenterReceipt, answer: Outcome, now: Time, supply: seq<Id>)
    | AcknowledgeAttention(attentionId: Id, context: Context, answer: Outcome, now: Time)
    | SetRoster(mission: Id, participants: seq<Participant>, context: Context, answer: Outcome, now: Time)
    | CreateHandoff(request: HO.Request, context: Context, answer: Outcome, now: Time, supply: seq<Id>)
    | TransitionHandoff(handoffId: Id, status: HandoffStatus, actor: Participant, context: Context, answer: Outcome, now: Time)

  datatype BindingAsk = BindingAsk(kind: BindingKind, transport: string, conversationRef: Option<string>,
                                   selector: string, expiresAt: Option<Time>)

  datatype Reply =
    | Routed(replayed: bool, route: Routing.Route)
    | Bound(binding: Binding)
    | Projected(freshness: Freshness, work: AO.Work)
    | Surfacing(outcome: AO.SurfaceOutcome)
    | Acked(record: A.Attention)
    | Registered(roster: H.Roster)
    | HandedOff(handoff: H.Handoff)

  /** The document in memory after the operation, and whether it is saved. */
  datatype Effect = Effect(document: Document, writes: bool, reply: Reply)

  // ------------------------------------------------------------------ routing

  /** The look a derivation makes; with nothing to ask, nothing is asked. */
  function RouteLook(d: Document, t: InboundTurn, answer: Outcome, now: Time): Result<FreshnessResult> {
    var asked := Consulted(t, NamedTiers(t), d.bindings, now);
    if asked.None? then Ok(FreshnessResult(Unavailable, None)) else Look(d, asked.value, answer, now)
  }

  /** A new decision under this look, recorded. */
  function Decide(d: Document, t: InboundTurn, context: Context, lanes: set<Lane>, looked: FreshnessResult, now: Time,
                  supply: seq<Id>): Result<Effect>
  {
    var minted :- AO.FreshId(supply, d.routes.Keys, AO.MINT_TRIES);
    var route := NewRoute(minted.id, t, d.bindings, (m: Id) => looked, now, lanes, context);
    if !ValidRoute(route) then Refused(BadValue)
    else Ok(Effect(d.(routes := d.routes[minted.id := route]), true, Routed(false, route)))
  }

  function ApplyRoute(d: Document, t: InboundTurn, context: Context, lanes: set<Lane>, answer: Outcome, now: Time,
                      supply: seq<Id>): Result<Effect>
  {
    var replay :- FindReplay(d.routes, t, context);
    if replay.Some? then Ok(Effect(d, false, Routed(true, replay.value)))
    else
      var looked :- RouteLook(d, t, answer, now);
      Decide(d, t, context, lanes, looked, now, supply)
  }

  // ----------------------------------------------------------------- bindings

  datatype Inserted = Inserted(bindings: BindingMap, binding: Binding)

  /** _bind */
  ghost function BindInto(bs: BindingMap, ask: BindingAsk, mission: Id, o: Observation, now: Time, context: Context,
                          supply: seq<Id>): Result<Inserted>
  {
    if Find(bs, BindingIdentity(ask.kind, ask.transport, ask.conversationRef, ask.selector)) != [] then Refused(BindingConflict)
    else
      var minted :- AO.FreshId(supply, bs.Keys, AO.MINT_TRIES);
      var b :- NewBinding(minted.id, ask.kind, ask.transport, ask.conversationRef, ask.selector, mission, o, now,
                          ask.expiresAt, context);
      if !AcceptedBindings(bs[minted.id := b]) then Refused(TooLarge) else Ok(Inserted(bs[minted.id := b], b))
  }

  ghost function ApplyBind(d: Document, ask: BindingAsk, mission: Id, context: Context, answer: Outcome, now: Time,
                           supply: seq<Id>): Result<Effect>
  {
    var looked :- Look(d, mission, answer, now);
    var o :- HO.RequireFresh(looked, mission);
    var inserted :- BindInto(d.bindings, ask, mission, o, now, context, supply);
    Ok(Effect(d.(bindings := inserted.bindings), true, Bound(inserted.binding)))
  }

  function ApplyRevoke(d: Document, id: Id, now: Time): Result<Effect> {
    if id !in d.bindings then Refused(BadValue)
    else
      var revoked :- Revoke(d.bindings[id], now);
      Ok(Effect(d.(bindings := d.bindings[id := revoked]), true, Bound(revoked)))
  }

  function AskAgain(held: Binding, expiresAt: Option<Time>): BindingAsk {
    BindingAsk(held.kind, held.transport, held.conversationRef, held.selector, expiresAt)
  }

  /** Revoke a binding, then bind its identity again under a FRESH read. */
  ghost function Rebound(bs: BindingMap, id: Id, expiresAt: Option<Time>, o: Observation, now: Time, context: Context,
                         supply: seq<Id>): Result<Inserted>
    requires id in bs
  {
    var revoked :- Revoke(bs[id], now);
    BindInto(bs[id := revoked], AskAgain(bs[id], expiresAt), bs[id].missionId, o, now, context, supply)
  }

  ghost function RebindUnder(d: Document, id: Id, expiresAt: Option<Time>, looked: FreshnessResult, now: Time,
                             context: Context, supply: seq<Id>): Result<Effect>
    requires id in d.bindings
  {
    var o :- HO.RequireFresh(looked, d.bindings[id].missionId);
    var inserted :- Rebound(d.bindings, id, expiresAt, o, now, context, supply);
    Ok(Effect(d.(bindings := inserted.bindings), true, Bound(inserted.binding)))
  }

  ghost function ApplyRebind(d: Document, id: Id, expiresAt: Option<Time>, context: Context, answer: Outcome, now: Time,
                             supply: seq<Id>): Result<Effect>
  {
    if id !in d.bindings then Refused(BadValue)
    else
      var looked :- Look(d, d.bindings[id].missionId, answer, now);
      RebindUnder(d, id, expiresAt, looked, now, context, supply)
  }

  // ---------------------------------------------------------------- attention

  function ProjectedEffect(d: Document, freshness: Freshness, w: AO.Work): Effect {
    Effect(d.(attention := w.records), w.created != [] || w.obsoleted != [] || w.resolved != [], Projected(freshness, w))
  }

  function ProjectUnder(d: Document, mission: Id, dest: Destination, looked: FreshnessResult, now: Time, supply: seq<Id>): Result<Effect> {
    var w :- AO.Project(d.attention, mission, dest, looked, now, supply);
    Ok(ProjectedEffect(d, looked.freshness, w))
  }

  function ApplyProject(d: Document, mission: Id, dest: Destination, answer: Outcome, now: Time, supply: seq<Id>): Result<Effect> {
    var looked :- Look(d, mission, answer, now);
    ProjectUnder(d, mission, dest, looked, now, supply)
  }

  function SurfacedEffect(d: Document, outcome: AO.SurfaceOutcome): Effect {
    Effect(d.(attention := outcome.work.records), outcome.surfaced || outcome.contradicted, Surfacing(outcome))
  }

  function SurfaceUnder(d: Document, id: Id, receipt: AO.PresenterReceipt, looked: FreshnessResult, now: Time, supply: seq<Id>): Result<Effect> {
    var outcome :- AO.Surface(d.attention, id, looked, receipt, now, supply);
    Ok(SurfacedEffect(d, outcome))
  }

  function ApplySurface(d: Document, id: Id, receipt: AO.PresenterReceipt, answer: Outcome, now: Time, supply: seq<Id>): Result<Effect> {
    if id !in d.attention then Refused(BadValue)
    else
      var looked :- Look(d, d.attention[id].missionId, answer, now);
      SurfaceUnder(d, id, receipt, looked, now, supply)
  }

  function AcknowledgeUnder(d: Document, id: Id, context: Context, looked: FreshnessResult, now: Time): Result<Effect> {
    var records :- AO.Acknowledge(d.attention, id, context, looked, now);
    if id !in records then Refused(BadValue)
    else Ok(Effect(d.(attention := records), true, Acked(records[id])))
  }

  function ApplyAcknowledge(d: Document, id: Id, context: Context, answer: Outcome, now: Time): Result<Effect> {
    if id !in d.attention then Refused(BadValue)
    else
      var looked :- Look(d, d.attention[id].missionId, answer, now);
      AcknowledgeUnder(d, id, context, looked, now)
  }

  // ----------------------------------------------------------------- handoffs

  function SetRosterUnder(d: Document, mission: Id, participants: seq<Participant>, context: Context, looked: FreshnessResult,
                          now: Time): Result<Effect>
  {
    var rosters :- HO.SetRoster(d.handoffs, d.rosters, mission, participants, looked, now, context);
    if mission !in rosters then Refused(BadValue)
    else Ok(Effect(d.(rosters := rosters), true, Registered(rosters[mission])))
  }

  function ApplySetRoster(d: Document, mission: Id, participants: seq<Participant>, context: Context, answer: Outcome,
                          now: Time): Result<Effect>
  {
    var looked :- Look(d, mission, answer, now);
    SetRosterUnder(d, mission, participants, context, looked, now)
  }

  function CreateUnder(d: Document, id: Id, q: HO.Request, context: Context, looked: FreshnessResult, now: Time): Result<Effect> {
    var created :- HO.CreateHandoff(d.handoffs, d.rosters, id, q, looked, now, context);
    Ok(Effect(d.(handoffs := created.handoffs), created.record.handoffId !in d.handoffs, HandedOff(created.record)))
  }

  function ApplyCreate(d: Document, q: HO.Request, context: Context, answer: Outcome, now: Time, supply: seq<Id>): Result<Effect> {
    var minted :- AO.FreshId(supply, d.handoffs.Keys, AO.MINT_TRIES);
    var looked :- Look(d, q.missionId, answer, now);
    CreateUnder(d, minted.id, q, context, looked, now)
  }

  function TransitionUnder(d: Document, id: Id, status: HandoffStatus, actor: Participant, context: Context,
                           looked: FreshnessResult, now: Time): Result<Effect>
  {
    var handoffs :- HO.TransitionHandoff(d.handoffs, id, status, actor, looked, now, context);
    if id !in handoffs then Refused(BadValue)
    else Ok(Effect(d.(handoffs := handoffs), true, HandedOff(handoffs[id])))
  }

  function ApplyTransition(d: Document, id: Id, status: HandoffStatus, actor: Participant, context: Context,
                           answer: Outcome, now: Time): Result<Effect>
  {
    if id !in d.handoffs then Refused(BadValue)
    else
      var looked :- Look(d, d.handoffs[id].missionId, answer, now);
      TransitionUnder(d, id, status, actor, context, looked, now)
  }

  // --------------------------------------------------------- one call, and runs

  ghost function Apply(d: Document, op: Operation): Result<Effect> {
    match op
    case Route(turn, context, lanes, answer, now, supply) => ApplyRoute(d, turn, context, lanes, answer, now, supply)
    case Bind(ask, mission, context, answer, now, supply) => ApplyBind(d, ask, mission, context, answer, now, supply)
    case RevokeBinding(id, now) => ApplyRevoke(d, id, now)
    case Rebind(id, expiresAt, context, answer, now, supply) => ApplyRebind(d, id, expiresAt, context, answer, now, supply)
    case ProjectAttention(mission, dest, answer, now, supply) => ApplyProject(d, mission, dest, answer, now, supply)
    case SurfaceAttention(id, receipt, answer, now, supply) => ApplySurface(d, id, receipt, answer, now, supply)
    case AcknowledgeAttention(id, context, answer, now) => ApplyAcknowledge(d, id, context, answer, now)
    case SetRoster(mission, participants, context, answer, now) => ApplySetRoster(d, mission, participants, context, answer, now)
    case CreateHandoff(q, context, answer, now, supply) => ApplyCreate(d, q, context, answer, now, supply)
    case TransitionHandoff(id, status, actor, context, answer, now) => ApplyTransition(d, id, status, actor, context, answer, now)
  }

  /** save: validate, then prove both documents stand at the expected sequence. */
  ghost function Save(disk: Document, d: Document, expected: nat): Result<Document> {
    if DocumentProblem(d).Some? then Refused(DocumentProblem(d).value)
    else if d.sequence != expected then Refused(StoreConflict)
    else if DocumentProblem(disk).Some? then Refused(DocumentProblem(disk).value)
    else if disk.sequence != expected then Refused(StoreConflict)
    else Ok(d.(sequence := expected + 1))
  }

  datatype Done = Done(disk: Document, reply: Reply)

  /** Save what is to be saved. */
  ghost function Commit(disk: Document, e: Effect): Result<Done> {
    if !e.writes then Ok(Done(disk, e.reply))
    else
      var saved :- Save(disk, e.document, disk.sequence);
      Ok(Done(saved, e.reply))
  }

  /** One call over the document on disk, its operation doing this: a refused
      call leaves the disk as it was. */
  ghost function CallDoing(disk: Document, does: Result<Effect>): Result<Done> {
    if DocumentProblem(disk).Some? then Refused(DocumentProblem(disk).value)
    else
      var e :- does;
      Commit(disk, e)
  }

  /** The disk a call leaves, and what its caller sees. */
  datatype Ended = Ended(disk: Document, reply: Result<Reply>)

  /** Whether this call comes to write. */
  ghost predicate Writes(disk: Document, does: Result<Effect>) { CallDoing(disk, does).Ok? && does.value.writes }

  /** One call, its write ending so. A refused call leaves the disk as it was; a
      write that raises is reported as such, whether or not it landed. */
  ghost function Finish(disk: Document, does: Result<Effect>, end: WriteEnd): Ended {
    var r := CallDoing(disk, does);
    if r.Refused? then Ended(disk, Refused(r.problem))
    else if !Writes(disk, does) || end.Landed? then Ended(r.value.disk, Ok(r.value.reply))
    else Ended(if end.FailedBefore? then disk else r.value.disk, Refused(WriteFailed))
  }

  /** A call of an operation, and how its write would end. */
  datatype Invocation = Invocation(op: Operation, end: WriteEnd)

  ghost function Call(disk: Document, c: Invocation): Ended { Finish(disk, Apply(disk, c.op), c.end) }

  /** The document after a run of calls from the default document. */
  ghost function Run(calls: seq<Invocation>): Document {
    if calls == [] then DEFAULT_DOCUMENT else Call(Run(calls[..|calls|-1]), calls[|calls|-1]).disk
  }
}
