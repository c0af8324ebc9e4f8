/** Route-decision derivation, the route record's coherence rules, and replay
    (coordination/routing.py). */
module Routing {
  import opened Record
  import opened Observations
  import opened Sorting
  import opened Bindings

  const MAX_ROUTE_CANDIDATES := 16

  datatype Intent = FollowUp | NewMission | Unspecified

  datatype InboundTurn = InboundTurn(
    transport: string, conversationRef: string, messageRef: string, explicitMission: Option<Id>,
    replyTo: Option<string>, repositoryUrl: Option<string>, issueRef: Option<string>,
    projectKey: Option<string>, alias: Option<string>, intent: Intent, domain: Option<string>,
    proposal: Option<Digest>)

  datatype TurnIdentity = TurnIdentity(transport: string, conversationRef: string, messageRef: string)

  function IdentityOfTurn(t: InboundTurn): TurnIdentity {
    TurnIdentity(t.transport, t.conversationRef, t.messageRef)
  }

  datatype RouteOutcome = ExistingMission | NewProposal | ClarificationRequired

  datatype Tier = ExplicitMissionId | ReplyToBinding | ApprovalBinding | ResultBinding
                | RepositoryReference | IssueReference | ProjectBinding | AliasBinding
                | UniqueConversationMatch

  datatype Reason = ReasonResolved | NewProposalIntent | ContextDisagrees | MissionUnobserved
                  | SourceUnavailableReason | StaleReason | InconsistentReason
                  | BindingStale | BindingExpired | AmbiguousCandidates | NoContext

  datatype LaneOutcome = Selected | LaneRefused | NotRequested
  datatype Lane = EngineeringLane
  datatype LaneReason = DomainUnsupported | CapabilityUnavailable | RouteNotResolved

  /** What the identity part of a decision records. */
  datatype Decision = Decision(
    outcome: RouteOutcome, mission: Option<Id>, tier: Option<Tier>, candidates: seq<Id>,
    reason: Reason, proposal: Option<Digest>, boundRevision: Option<nat>,
    observedRevision: Option<nat>, point: Option<Point>)

  function Clarify(reason: Reason, candidates: set<Id>, boundRevision: Option<nat>): Decision {
    Decision(ClarificationRequired, None, None, Sorted(candidates), reason, None, boundRevision, None, None)
  }

  function ClarifyObserved(reason: Reason, mission: Id, boundRevision: nat, o: Observation): Decision {
    Decision(ClarificationRequired, None, None, [mission], reason, None, Some(boundRevision),
             Some(o.currentRevision), Some(PointOf(o)))
  }

  function ResolvedTo(mission: Id, tier: Tier, o: Observation, boundRevision: Option<nat>): Decision {
    Decision(ExistingMission, Some(mission), Some(tier), [mission], ReasonResolved, None, boundRevision,
             Some(o.currentRevision), Some(PointOf(o)))
  }

  function Proposal(turn: InboundTurn): Decision
    requires turn.proposal.Some?
  {
    Decision(NewProposal, None, None, [], NewProposalIntent, turn.proposal, None, None, None)
  }

  // --------------------------------------------------------------- resolution

  /** A consulted binding stands at the observed revision and repository. */
  predicate StandsAt(b: Binding, o: Observation) {
    && b.boundRevision == o.currentRevision
    && (b.kind.Repository? || b.kind.Issue? ==> o.repositoryUrl == Some(RepositoryOfSelector(b)))
  }

  /** The first consulted binding the observation contradicts. */
  function Offending(bindings: seq<Binding>, o: Observation): (r: Option<Binding>)
    ensures r.None? <==> forall b :: b in bindings ==> StandsAt(b, o)
    ensures r.Some? ==> r.value in bindings && !StandsAt(r.value, o)
  {
    if bindings == [] then None
    else if !StandsAt(bindings[0], o) then Some(bindings[0])
    else
      assert forall b :: b in bindings <==> b == bindings[0] || b in bindings[1..];
      Offending(bindings[1..], o)
  }

  function FreshnessReason(f: Freshness): Reason {
    match f
    case Stale => StaleReason
    case Inconsistent => InconsistentReason
    case _ => SourceUnavailableReason
  }

  /** _resolve: a Mission reached through a tier, against its one lookup. */
  function Resolve(mission: Id, tier: Tier, bindings: seq<Binding>, looked: FreshnessResult): Decision {
    var bound := if bindings == [] then None else Some(bindings[0].boundRevision);
    if looked.freshness == Absent then
      Clarify(if bindings == [] then MissionUnobserved else BindingStale, {mission}, bound)
    else if looked.freshness != Fresh || looked.observation.None? then
      Clarify(FreshnessReason(looked.freshness), {mission}, bound)
    else
      var o := looked.observation.value;
      var bad := Offending(bindings, o);
      if bad.Some? then ClarifyObserved(BindingStale, mission, bad.value.boundRevision, o)
      else ResolvedTo(mission, tier, o, bound)
  }

  datatype NamedTier = NamedTier(tier: Tier, kind: BindingKind, selector: string)

  function Named(tier: Tier, kind: BindingKind, selector: Option<string>): seq<NamedTier> {
    if selector.None? then [] else [NamedTier(tier, kind, selector.value)]
  }

  /** The binding tiers a turn names, in resolution order. */
  function NamedTiers(t: InboundTurn): seq<NamedTier> {
    Named(ReplyToBinding, ReplyToMessage, t.replyTo)
    + Named(ApprovalBinding, ApprovalPresentation, t.replyTo)
    + Named(ResultBinding, ResultPresentation, t.replyTo)
    + Named(RepositoryReference, Repository, t.repositoryUrl)
    + Named(IssueReference, Issue, t.issueRef)
    + Named(ProjectBinding, Project, t.projectKey)
    + Named(AliasBinding, Alias, t.alias)
  }

  datatype Hit = Hit(tier: Tier, binding: Binding)

  function Wanted(t: InboundTurn, n: NamedTier): BindingIdentity {
    BindingIdentity(n.kind, t.transport, if Scoped(n.kind) then Some(t.conversationRef) else None, n.selector)
  }

  function HitsOf(tier: Tier, bs: seq<Binding>): seq<Hit> { seq(|bs|, i requires 0 <= i < |bs| => Hit(tier, bs[i])) }

  /** Every non-revoked binding a named tier finds, in tier order. */
  function HitsAmong(t: InboundTurn, tiers: seq<NamedTier>, bindings: BindingMap): seq<Hit> {
    if tiers == [] then []
    else HitsOf(tiers[0].tier, Find(bindings, Wanted(t, tiers[0]))) + HitsAmong(t, tiers[1..], bindings)
  }

  lemma HitsAmongStep(t: InboundTurn, tiers: seq<NamedTier>, i: nat, bindings: BindingMap)
    requires i < |tiers|
    ensures HitsAmong(t, tiers[i..], bindings)
            == HitsOf(tiers[i].tier, Find(bindings, Wanted(t, tiers[i]))) + HitsAmong(t, tiers[i + 1..], bindings)
  {
    assert tiers[i..][1..] == tiers[i + 1..];
  }

  /** _hits, as the loop that appends to a list. */
  method CollectHits(t: InboundTurn, tiers: seq<NamedTier>, bindings: BindingMap) returns (hits: seq<Hit>)
    ensures hits == HitsAmong(t, tiers, bindings)
  {
    hits := [];
    assert tiers[0..] == tiers;
    for i := 0 to |tiers|
      invariant hits + HitsAmong(t, tiers[i..], bindings) == HitsAmong(t, tiers, bindings)
    {
      var found := HitsOf(tiers[i].tier, Find(bindings, Wanted(t, tiers[i])));
      HitsAmongStep(t, tiers, i, bindings);
      assert hits + (found + HitsAmong(t, tiers[i + 1..], bindings))
             == (hits + found) + HitsAmong(t, tiers[i + 1..], bindings);
      hits := hits + found;
    }
  }

  function ActiveOthers(hits: seq<Hit>, explicit: Id, now: Time): set<Id> {
    set h | h in hits && IsActive(h.binding, now) && h.binding.missionId != explicit :: h.binding.missionId
  }

  function Matching(hits: seq<Hit>, explicit: Id): seq<Binding> {
    if hits == [] then []
    else (if hits[0].binding.missionId == explicit then [hits[0].binding] else []) + Matching(hits[1..], explicit)
  }

  function WholeConversation(bs: seq<Binding>, explicit: Id, named: set<Id>): seq<Binding> {
    if bs == [] then []
    else (if bs[0].missionId == explicit && bs[0].bindingId !in named && bs[0].kind.Conversation? then [bs[0]] else [])
         + WholeConversation(bs[1..], explicit, named)
  }

  /** The applicable context an explicit id is checked against. */
  function Applicable(t: InboundTurn, hits: seq<Hit>, bindings: BindingMap, explicit: Id, now: Time): seq<Binding> {
    var matching := Matching(hits, explicit);
    matching + WholeConversation(ConversationBindings(bindings, t.transport, t.conversationRef, now), explicit,
                                 set b | b in matching :: b.bindingId)
  }

  function FirstExpired(bs: seq<Binding>, now: Time): (r: Option<Binding>)
    ensures r.None? <==> forall b :: b in bs ==> !IsExpired(b, now)
    ensures r.Some? ==> r.value in bs && IsExpired(r.value, now)
  {
    if bs == [] then None
    else if IsExpired(bs[0], now) then Some(bs[0])
    else
      assert forall b :: b in bs <==> b == bs[0] || b in bs[1..];
      FirstExpired(bs[1..], now)
  }

  function MissionsOf(bs: seq<Binding>): set<Id> { set b | b in bs :: b.missionId }

  function NamingMission(bs: seq<Binding>, m: Id): (r: seq<Binding>)
    ensures forall b :: b in r <==> b in bs && b.missionId == m
  {
    if bs == [] then []
    else
      assert forall b :: b in bs <==> b == bs[0] || b in bs[1..];
      (if bs[0].missionId == m then [bs[0]] else []) + NamingMission(bs[1..], m)
  }

  /** An explicit id against the other Missions and the context the turn names. */
  function ExplicitVia(t: InboundTurn, others: set<Id>, applicable: seq<Binding>, looked: FreshnessResult,
                       now: Time, explicit: Id): Decision
  {
    if t.intent.NewMission? then Clarify(ContextDisagrees, {explicit}, None)
    else if others != {} then Clarify(ContextDisagrees, {explicit} + others, None)
    else
      var expired := FirstExpired(applicable, now);
      if expired.Some? then Clarify(BindingExpired, {explicit}, Some(expired.value.boundRevision))
      else Resolve(explicit, ExplicitMissionId, applicable, looked)
  }

  function ExplicitOutcome(t: InboundTurn, hits: seq<Hit>, bindings: BindingMap, look: Id -> FreshnessResult,
                           now: Time, explicit: Id): Decision
  {
    ExplicitVia(t, ActiveOthers(hits, explicit, now), Applicable(t, hits, bindings, explicit, now),
                look(explicit), now, explicit)
  }

  /** Only the first hit is ever consulted. */
  function TierOutcome(h: Hit, look: Id -> FreshnessResult, now: Time): Decision {
    if IsExpired(h.binding, now) then Clarify(BindingExpired, {h.binding.missionId}, Some(h.binding.boundRevision))
    else Resolve(h.binding.missionId, h.tier, [h.binding], look(h.binding.missionId))
  }

  function ConversationOutcome(t: InboundTurn, members: seq<Binding>, look: Id -> FreshnessResult): Decision {
    var missions := MissionsOf(members);
    if |missions| == 1 then
      var m := Sorted(missions)[0];
      Resolve(m, UniqueConversationMatch, NamingMission(members, m), look(m))
    else if |missions| > MAX_ROUTE_CANDIDATES then Clarify(AmbiguousCandidates, {}, None)
    else if |missions| > 1 then Clarify(AmbiguousCandidates, missions, None)
    else if t.proposal.Some? && !t.intent.FollowUp? then Proposal(t)
    else Clarify(NoContext, {}, None)
  }

  /** _identity_outcome; look answers the injected lookup of a Mission. */
  function OutcomeVia(t: InboundTurn, tiers: seq<NamedTier>, bindings: BindingMap, look: Id -> FreshnessResult,
                      now: Time): Decision
  {
    var hits := HitsAmong(t, tiers, bindings);
    if t.explicitMission.Some? then ExplicitOutcome(t, hits, bindings, look, now, t.explicitMission.value)
    else if t.intent.NewMission? then
      if t.proposal.Some? then Proposal(t) else Clarify(NoContext, {}, None)
    else if hits != [] then TierOutcome(hits[0], look, now)
    else ConversationOutcome(t, ConversationBindings(bindings, t.transport, t.conversationRef, now), look)
  }

  function IdentityOutcome(t: InboundTurn, bindings: BindingMap, look: Id -> FreshnessResult, now: Time): Decision {
    OutcomeVia(t, NamedTiers(t), bindings, look, now)
  }

  // -------------------------------------------------------------------- lanes

  datatype LaneChoice = LaneChoice(outcome: LaneOutcome, lane: Option<Lane>, reason: Option<LaneReason>)

  /** select_lane: a value, never a permission. */
  function SelectLane(outcome: RouteOutcome, domain: Option<string>, available: set<Lane>): LaneChoice {
    if domain.None? then LaneChoice(NotRequested, None, None)
    else if domain.value != "ENGINEERING" then LaneChoice(LaneRefused, None, Some(DomainUnsupported))
    else if outcome.ClarificationRequired? then LaneChoice(LaneRefused, None, Some(RouteNotResolved))
    else if EngineeringLane !in available then LaneChoice(LaneRefused, None, Some(CapabilityUnavailable))
    else LaneChoice(Selected, Some(EngineeringLane), None)
  }

  // ------------------------------------------------------------- route record

  datatype Route = Route(routeId: Id, decidedAt: Time, inbound: InboundTurn, inboundDigest: InboundTurn,
                         decision: Decision, lane: LaneChoice, provenance: Provenance)

  /** derive_route and new_route_record together. */
  function NewRoute(routeId: Id, t: InboundTurn, bindings: BindingMap, look: Id -> FreshnessResult, now: Time,
                    available: set<Lane>, context: Context): Route
  {
    var d := IdentityOutcome(t, bindings, look, now);
    Route(routeId, now, t, t, d, SelectLane(d.outcome, t.domain, available),
          Provenance(context, now, d.observedRevision,
                     if d.point.None? then None else Some(d.point.value.cursor)))
  }

  /** What a turn's own fields must satisfy. */
  predicate ValidTurn(t: InboundTurn) {
    t.issueRef.Some? ==> IssueSelector(t.issueRef.value)
  }

  /** The coherence rules binding the identity part of a record together. */
  predicate CoherentDecision(d: Decision) {
    var existing := d.outcome.ExistingMission?;
    var proposal := d.outcome.NewProposal?;
    && |d.candidates| <= MAX_ROUTE_CANDIDATES && Ascending(d.candidates)
    && (d.boundRevision.Some? ==> d.boundRevision.value >= 1)
    && (d.observedRevision.Some? ==> d.observedRevision.value >= 1)
    && (d.point.Some? ==> ValidPoint(d.point.value))
    && (d.point.None? <==> d.observedRevision.None?)
    && (d.point.Some? ==> d.point.value.revision == d.observedRevision.value)
    && (d.mission.Some? <==> existing) && (d.tier.Some? <==> existing)
    && (existing ==> d.reason.ReasonResolved? && d.point.Some? && d.mission.value in d.candidates)
    && (!existing ==> !d.reason.ReasonResolved?)
    && (d.proposal.Some? <==> proposal) && (proposal <==> d.reason.NewProposalIntent?)
    && (proposal ==> d.candidates == [] && d.point.None?)
    && (if (existing && d.tier != Some(ExplicitMissionId)) || d.reason.BindingExpired? || d.reason.BindingStale?
        then d.boundRevision.Some?
        else d.boundRevision.Some? ==> d.candidates != [])
  }

  predicate CoherentLane(lane: LaneChoice, d: Decision, domain: Option<string>) {
    && (lane.lane.Some? <==> lane.outcome.Selected?)
    && (lane.reason.Some? <==> lane.outcome.LaneRefused?)
    && (lane.outcome.NotRequested? <==> domain.None?)
    && (lane.outcome.Selected? ==> !d.outcome.ClarificationRequired?)
  }

  /** validate_route's coherence rules (the detail text left out). */
  predicate ValidRoute(r: Route) {
    && ValidTurn(r.inbound) && r.inboundDigest == r.inbound
    && CoherentDecision(r.decision)
    && CoherentLane(r.lane, r.decision, r.inbound.domain)
    && r.provenance.receivedAt == r.decidedAt
    && r.provenance.observedRevision == r.decision.observedRevision
    && r.provenance.cursor == (if r.decision.point.None? then None else Some(r.decision.point.value.cursor))
  }

  /** A lookup whose observations passed validation on receipt. */
  ghost predicate HonestLookup(look: Id -> FreshnessResult) {
    forall m :: look(m).observation.Some? ==> ValidObservation(look(m).observation.value)
  }

  // ----------------------------------------------------- what a hit really is

  /** No recorded, non-revoked binding holds what this tier asks for. */
  ghost predicate Silent(t: InboundTurn, n: NamedTier, bindings: BindingMap) {
    forall k :: k in bindings ==> !Holds(bindings[k], Wanted(t, n))
  }

  /** The turn names this non-revoked binding through one of its tiers. */
  ghost predicate Names(t: InboundTurn, tiers: seq<NamedTier>, b: Binding) {
    exists n :: n in tiers && Holds(b, Wanted(t, n))
  }

  lemma {:induction false} HitsAmongExactly(t: InboundTurn, tiers: seq<NamedTier>, bindings: BindingMap, h: Hit)
    ensures h in HitsAmong(t, tiers, bindings) <==>
              exists n :: n in tiers && n.tier == h.tier && h.binding in Find(bindings, Wanted(t, n))
  {
    if tiers != [] {
      HitsAmongExactly(t, tiers[1..], bindings, h);
      HitsOfExactly(tiers[0].tier, Find(bindings, Wanted(t, tiers[0])), h);
      assert forall n :: n in tiers <==> n == tiers[0] || n in tiers[1..];
    }
  }

  lemma HitsOfExactly(tier: Tier, found: seq<Binding>, h: Hit)
    ensures h in HitsOf(tier, found) <==> h.tier == tier && h.binding in found
  {
    if h.tier == tier && h.binding in found {
      var i :| 0 <= i < |found| && found[i] == h.binding;
      assert HitsOf(tier, found)[i] == h;
    }
  }

  /** Where the first tier that finds something stands. */
  function FirstIndex(t: InboundTurn, tiers: seq<NamedTier>, bindings: BindingMap): (i: nat)
    ensures i <= |tiers|
    ensures forall j :: 0 <= j < i ==> Find(bindings, Wanted(t, tiers[j])) == []
    ensures i < |tiers| ==> Find(bindings, Wanted(t, tiers[i])) != []
  {
    if tiers == [] then 0
    else if Find(bindings, Wanted(t, tiers[0])) != [] then 0
    else 1 + FirstIndex(t, tiers[1..], bindings)
  }

  lemma {:induction false} FirstHit(t: InboundTurn, tiers: seq<NamedTier>, bindings: BindingMap)
    ensures var i := FirstIndex(t, tiers, bindings);
            if i == |tiers| then HitsAmong(t, tiers, bindings) == []
            else HitsAmong(t, tiers, bindings) != []
                 && HitsAmong(t, tiers, bindings)[0] == Hit(tiers[i].tier, Find(bindings, Wanted(t, tiers[i]))[0])
  {
    if tiers != [] {
      var found := Find(bindings, Wanted(t, tiers[0]));
      if found == [] {
        FirstHit(t, tiers[1..], bindings);
        assert HitsAmong(t, tiers, bindings) == HitsAmong(t, tiers[1..], bindings);
      } else {
        assert HitsOf(tiers[0].tier, found)[0] == Hit(tiers[0].tier, found[0]);
      }
    }
  }

  lemma FindIsSingular(bindings: BindingMap, w: BindingIdentity, b: Binding)
    requires CoherentBindings(bindings)
    requires b.bindingId in bindings && bindings[b.bindingId] == b && Holds(b, w)
    ensures forall c :: c in Find(bindings, w) ==> c == b
    ensures Find(bindings, w) != []
  {
    FindExactly(bindings, w);
    assert b in Find(bindings, w);
    forall c | c in Find(bindings, w) ensures c == b {
      var k :| k in bindings && bindings[k] == c && !c.revoked && IdentityOf(c) == w;
      assert Clash(bindings[b.bindingId], bindings[k]);
    }
  }
}
