/** Exactly when a turn gets each of the three outcomes, and each reason, over
    the recorded bindings, the turn and the one look (coordination/routing.py:194-447). */
module RoutingReasons {
  import opened Record
  import opened Observations
  import opened ObservationFields
  import opened Bindings
  import opened BindingFields
  import opened Routing
  import opened Replays
  import opened RoutingFields

  // --------------------------------------------------------- what is asked about

  /** No active binding is scoped to the turn's conversation. */
  ghost predicate NoneHere(t: InboundTurn, bs: BindingMap, now: Time) { forall k :: k in bs ==> !Here(t, bs[k], now) }

  /** An explicit Mission the turn contradicts: it asks for a new one, or an
      active binding it names points elsewhere. */
  ghost predicate Contradicted(t: InboundTurn, bs: BindingMap, now: Time, m: Id) {
    t.intent == NewMission || exists k :: k in bs && NamedBy(t, bs[k]) && !Lapsed(bs[k], now) && bs[k].missionId != m
  }

  /** Some context of an explicit Mission has expired. */
  ghost predicate ContextLapsed(t: InboundTurn, bs: BindingMap, now: Time, m: Id) {
    exists k :: k in ContextIds(t, bs, now, m) && Lapsed(bs[k], now)
  }

  /** The decision is about Mission m, which the source was asked about, in the
      context of these bindings. */
  ghost predicate AsksAbout(t: InboundTurn, bs: BindingMap, now: Time, m: Id, ids: set<Id>) {
    if t.explicitMission.Some? then
      && m == t.explicitMission.value && ids == ContextIds(t, bs, now, m)
      && !Contradicted(t, bs, now, m) && !ContextLapsed(t, bs, now, m)
    else
      && t.intent != NewMission
      && (if NoneNamed(t, bs) then HereMissions(t, bs, now) == {m} && ids == HereIds(t, bs, now)
          else exists k: Id :: FirstBy(t, bs, k) && !Lapsed(bs[k], now) && m == bs[k].missionId && ids == {k})
  }

  ghost predicate SomethingToAsk(t: InboundTurn, bs: BindingMap, now: Time) { exists m, ids :: AsksAbout(t, bs, now, m, ids) }

  /** What the look at that Mission says about the decision. */
  ghost predicate LookSays(bs: BindingMap, ids: set<Id>, looked: FreshnessResult, r: Reason) {
    var read := looked.freshness == Fresh && looked.observation.Some?;
    match r
    case ReasonResolved => read && forall k :: k in ids && k in bs ==> Agrees(bs[k], looked.observation.value)
    case BindingStale =>
      (looked.freshness == Absent && ids != {})
      || (read && exists k :: k in ids && k in bs && !Agrees(bs[k], looked.observation.value))
    case MissionUnobserved => looked.freshness == Absent && ids == {}
    case StaleReason => looked.freshness == Stale
    case InconsistentReason => looked.freshness == Inconsistent
    case SourceUnavailableReason => looked.freshness == Unavailable || (looked.freshness == Fresh && looked.observation.None?)
    case _ => false
  }

  ghost predicate SaidOf(t: InboundTurn, bs: BindingMap, looked: FreshnessResult, now: Time, r: Reason) {
    exists m, ids :: AsksAbout(t, bs, now, m, ids) && LookSays(bs, ids, looked, r)
  }

  /** Why a turn is answered as it is. */
  ghost predicate Because(t: InboundTurn, bs: BindingMap, looked: FreshnessResult, now: Time, r: Reason) {
    match r
    case NewProposalIntent =>
      && t.explicitMission.None? && t.proposal.Some?
      && (t.intent == NewMission || (t.intent != FollowUp && NoneNamed(t, bs) && NoneHere(t, bs, now)))
    case NoContext =>
      && t.explicitMission.None?
      && (if t.intent == NewMission then t.proposal.None?
          else NoneNamed(t, bs) && NoneHere(t, bs, now) && (t.proposal.None? || t.intent == FollowUp))
    case AmbiguousCandidates =>
      t.explicitMission.None? && t.intent != NewMission && NoneNamed(t, bs) && |HereMissions(t, bs, now)| > 1
    case ContextDisagrees => t.explicitMission.Some? && Contradicted(t, bs, now, t.explicitMission.value)
    case BindingExpired =>
      if t.explicitMission.Some? then
        !Contradicted(t, bs, now, t.explicitMission.value) && ContextLapsed(t, bs, now, t.explicitMission.value)
      else t.intent != NewMission && exists k :: FirstBy(t, bs, k) && Lapsed(bs[k], now)
    case _ => SaidOf(t, bs, looked, now, r)
  }

  // ------------------------------------------------------------------ the proof

  lemma AgainstNone(bs: BindingMap, ids: set<Id>, o: Observation)
    ensures Against(bs, ids, o) == {} <==> forall k :: k in ids && k in bs ==> Agrees(bs[k], o)
  {
    forall k | k in ids && k in bs && !Agrees(bs[k], o) ensures Against(bs, ids, o) != {} { assert k in Against(bs, ids, o); }
  }

  lemma LapsedNone(bs: BindingMap, ids: set<Id>, now: Time)
    requires ids <= bs.Keys
    ensures LapsedOf(bs, ids, now) != {} <==> exists k :: k in ids && Lapsed(bs[k], now)
  {
    if k :| k in ids && Lapsed(bs[k], now) { assert k in LapsedOf(bs, ids, now); }
    if LapsedOf(bs, ids, now) != {} { var k :| k in LapsedOf(bs, ids, now); }
  }

  lemma LookedBecause(t: InboundTurn, bs: BindingMap, ids: set<Id>, m: Id, tier: Tier, looked: FreshnessResult, d: Decision, r: Reason)
    requires ids <= bs.Keys && Looked(t, bs, ids, m, tier, looked, d)
    ensures d.reason == r <==> LookSays(bs, ids, looked, r)
  {
    if looked.observation.Some? { AgainstNone(bs, ids, looked.observation.value); }
  }

  lemma OneAsked(t: InboundTurn, bs: BindingMap, now: Time, m: Id, ids: set<Id>, m': Id, ids': set<Id>)
    requires AsksAbout(t, bs, now, m, ids) && AsksAbout(t, bs, now, m', ids')
    ensures m == m' && ids == ids'
  {
    if t.explicitMission.None? {
      if NoneNamed(t, bs) { assert m in HereMissions(t, bs, now); }
    }
  }

  /** With this Mission asked about, the look alone says why. */
  lemma AskedBecause(t: InboundTurn, bs: BindingMap, looked: FreshnessResult, now: Time, m: Id, ids: set<Id>, r: Reason)
    requires AsksAbout(t, bs, now, m, ids)
    ensures SaidOf(t, bs, looked, now, r) <==> LookSays(bs, ids, looked, r)
  {
    if SaidOf(t, bs, looked, now, r) {
      var m', ids' :| AsksAbout(t, bs, now, m', ids') && LookSays(bs, ids', looked, r);
      OneAsked(t, bs, now, m, ids, m', ids');
    }
  }

  lemma RivalsExactly(t: InboundTurn, bs: BindingMap, now: Time, m: Id)
    ensures Contradicted(t, bs, now, m) <==> t.intent == NewMission || RivalMissions(t, bs, now, m) != {}
  {
    if RivalMissions(t, bs, now, m) != {} { var x :| x in RivalMissions(t, bs, now, m); }
    forall k | k in bs && NamedBy(t, bs[k]) && !Lapsed(bs[k], now) && bs[k].missionId != m ensures RivalMissions(t, bs, now, m) != {} {
      assert bs[k].missionId in RivalMissions(t, bs, now, m);
    }
  }

  lemma ExplicitBecause(t: InboundTurn, bs: BindingMap, looked: FreshnessResult, now: Time, m: Id, d: Decision, r: Reason)
    requires t.explicitMission == Some(m) && WarrantedExplicitly(t, bs, looked, now, m, d)
    ensures d.reason == r <==> Because(t, bs, looked, now, r)
  {
    var ids := ContextIds(t, bs, now, m);
    RivalsExactly(t, bs, now, m);
    LapsedNone(bs, ids, now);
    if AsksAbout(t, bs, now, m, ids) {
      LookedBecause(t, bs, ids, m, ExplicitMissionId, looked, d, r);
      AskedBecause(t, bs, looked, now, m, ids, r);
    }
  }

  lemma FirstIsOne(t: InboundTurn, bs: BindingMap, k: Id, j: Id)
    requires FirstBy(t, bs, k) && FirstBy(t, bs, j)
    ensures k == j
  {
  }

  lemma NamedBecause(t: InboundTurn, bs: BindingMap, looked: FreshnessResult, now: Time, k: Id, d: Decision, r: Reason)
    requires t.explicitMission.None? && t.intent != NewMission && FirstBy(t, bs, k) && WarrantedByName(t, bs, looked, now, k, d)
    ensures d.reason == r <==> Because(t, bs, looked, now, r)
  {
    forall j | FirstBy(t, bs, j) ensures j == k { FirstIsOne(t, bs, k, j); }
    if !Lapsed(bs[k], now) {
      assert AsksAbout(t, bs, now, bs[k].missionId, {k});
      LookedBecause(t, bs, {k}, bs[k].missionId, TierOfKind(bs[k].kind), looked, d, r);
      AskedBecause(t, bs, looked, now, bs[k].missionId, {k}, r);
    }
  }

  lemma HereExactly(t: InboundTurn, bs: BindingMap, now: Time)
    ensures NoneHere(t, bs, now) <==> HereMissions(t, bs, now) == {}
  {
    forall k | k in bs && Here(t, bs[k], now) ensures HereMissions(t, bs, now) != {} {
      assert bs[k].missionId in HereMissions(t, bs, now);
    }
    if HereMissions(t, bs, now) != {} { var m :| m in HereMissions(t, bs, now); }
  }

  lemma OneMission(t: InboundTurn, bs: BindingMap, now: Time, m: Id)
    requires HereMissions(t, bs, now) == {m}
    ensures |HereMissions(t, bs, now)| == 1 && !NoneHere(t, bs, now)
  {
    HereExactly(t, bs, now);
    assert m in HereMissions(t, bs, now);
  }

  lemma HereBecause(t: InboundTurn, bs: BindingMap, looked: FreshnessResult, now: Time, d: Decision, r: Reason)
    requires t.explicitMission.None? && t.intent != NewMission && NoneNamed(t, bs) && WarrantedHere(t, bs, looked, now, d)
    ensures d.reason == r <==> Because(t, bs, looked, now, r)
  {
    var missions := HereMissions(t, bs, now);
    HereExactly(t, bs, now);
    if |missions| == 1 {
      var m :| missions == {m} && Looked(t, bs, HereIds(t, bs, now), m, UniqueConversationMatch, looked, d);
      assert AsksAbout(t, bs, now, m, HereIds(t, bs, now));
      LookedBecause(t, bs, HereIds(t, bs, now), m, UniqueConversationMatch, looked, d, r);
      AskedBecause(t, bs, looked, now, m, HereIds(t, bs, now), r);
    } else {
      forall m | missions == {m} ensures false { OneMission(t, bs, now, m); }
    }
  }

  lemma WarrantedBecause(t: InboundTurn, bs: BindingMap, looked: FreshnessResult, now: Time, d: Decision, r: Reason)
    requires Warranted(t, bs, looked, now, d)
    ensures d.reason == r <==> Because(t, bs, looked, now, r)
  {
    if t.explicitMission.Some? {
      ExplicitBecause(t, bs, looked, now, t.explicitMission.value, d, r);
    } else if t.intent != NewMission {
      if NoneNamed(t, bs) {
        HereBecause(t, bs, looked, now, d, r);
      } else {
        var k :| FirstBy(t, bs, k) && WarrantedByName(t, bs, looked, now, k, d);
        NamedBecause(t, bs, looked, now, k, d, r);
      }
    }
  }

  /** Each reason is given exactly when it is why. */
  lemma GivenExactlyBecause(t: InboundTurn, bs: BindingMap, looked: FreshnessResult, now: Time, r: Reason)
    requires CoherentBindings(bs)
    ensures Derive(t, NamedTiers(t), bs, looked, now).reason == r <==> Because(t, bs, looked, now, r)
  {
    DerivedIsWarranted(t, bs, looked, now);
    WarrantedBecause(t, bs, looked, now, Derive(t, NamedTiers(t), bs, looked, now), r);
  }

  /** Outcome, reason and proposal go together. */
  predicate OutcomeFits(t: InboundTurn, d: Decision) {
    && (d.outcome == NewProposal <==> d.reason == NewProposalIntent)
    && (d.outcome == ExistingMission <==> d.reason == ReasonResolved)
    && d.proposal == (if d.outcome == NewProposal then t.proposal else None)
  }

  lemma LookedFits(t: InboundTurn, bs: BindingMap, ids: set<Id>, m: Id, tier: Tier, looked: FreshnessResult, d: Decision)
    requires ids <= bs.Keys && Looked(t, bs, ids, m, tier, looked, d)
    ensures OutcomeFits(t, d)
  {
  }

  lemma ExplicitFits(t: InboundTurn, bs: BindingMap, looked: FreshnessResult, now: Time, m: Id, d: Decision)
    requires WarrantedExplicitly(t, bs, looked, now, m, d)
    ensures OutcomeFits(t, d)
  {
    if !Clarified(d, d.reason, d.candidates) { LookedFits(t, bs, ContextIds(t, bs, now, m), m, ExplicitMissionId, looked, d); }
  }

  lemma WarrantedOutcome(t: InboundTurn, bs: BindingMap, looked: FreshnessResult, now: Time, d: Decision)
    requires Warranted(t, bs, looked, now, d)
    ensures OutcomeFits(t, d)
  {
    if t.explicitMission.Some? {
      ExplicitFits(t, bs, looked, now, t.explicitMission.value, d);
    } else if t.intent != NewMission && !NoneNamed(t, bs) {
      var k :| FirstBy(t, bs, k) && WarrantedByName(t, bs, looked, now, k, d);
      if !Lapsed(bs[k], now) { LookedFits(t, bs, {k}, bs[k].missionId, TierOfKind(bs[k].kind), looked, d); }
    } else if t.intent != NewMission && |HereMissions(t, bs, now)| == 1 {
      var m :| HereMissions(t, bs, now) == {m} && Looked(t, bs, HereIds(t, bs, now), m, UniqueConversationMatch, looked, d);
      LookedFits(t, bs, HereIds(t, bs, now), m, UniqueConversationMatch, looked, d);
    }
  }

  /** A turn is answered NEW_PROPOSAL exactly when it names no explicit Mission,
      carries a proposal, and either asks for a new Mission or is no follow-up
      and finds no context at all. */
  lemma ProposedExactly(t: InboundTurn, bs: BindingMap, looked: FreshnessResult, now: Time)
    requires CoherentBindings(bs)
    ensures var d := Derive(t, NamedTiers(t), bs, looked, now);
            && (d.outcome == NewProposal <==>
                  && t.explicitMission.None? && t.proposal.Some?
                  && (t.intent == NewMission
                      || (t.intent != FollowUp && NoneNamed(t, bs) && forall k :: k in bs ==> !Here(t, bs[k], now))))
            && (d.outcome == NewProposal ==> d.proposal == t.proposal && d.reason == NewProposalIntent)
  {
    DerivedIsWarranted(t, bs, looked, now);
    WarrantedOutcome(t, bs, looked, now, Derive(t, NamedTiers(t), bs, looked, now));
    GivenExactlyBecause(t, bs, looked, now, NewProposalIntent);
  }

  // ------------------------------------------------------------ what is recorded

  predicate PlainRead(d: Decision) {
    && (d.point.Some? ==> 1 <= d.point.value.revision && WrittenCursor(d.point.value.cursor))
    && d.observedRevision == (if d.point.Some? then Some(d.point.value.revision) else None)
  }

  /** What a decision of each outcome carries, and what it does not. */
  predicate PlainDecision(d: Decision) {
    && |d.candidates| <= 16 && (forall i, j :: 0 <= i < j < |d.candidates| ==> d.candidates[i] < d.candidates[j])
    && PlainRead(d) && (d.boundRevision.Some? ==> 1 <= d.boundRevision.value)
    && match d.outcome
       case ExistingMission =>
         && d.mission.Some? && d.mission.value in d.candidates && d.tier.Some? && d.reason == ReasonResolved && d.proposal.None?
         && d.point.Some? && (d.tier != Some(ExplicitMissionId) ==> d.boundRevision.Some?)
       case NewProposal =>
         && d.mission.None? && d.tier.None? && d.reason == NewProposalIntent && d.proposal.Some?
         && d.candidates == [] && d.point.None? && d.boundRevision.None?
       case ClarificationRequired =>
         && d.mission.None? && d.tier.None? && d.reason !in {ReasonResolved, NewProposalIntent} && d.proposal.None?
         && (if d.reason in {BindingExpired, BindingStale} then d.boundRevision.Some? else d.boundRevision.Some? ==> d.candidates != [])
  }

  predicate PlainLane(lane: LaneChoice, d: Decision, domain: Option<string>) {
    match lane.outcome
    case NotRequested => domain.None? && lane.lane.None? && lane.reason.None?
    case Selected => domain.Some? && lane.lane.Some? && lane.reason.None? && d.outcome != ClarificationRequired
    case LaneRefused => domain.Some? && lane.lane.None? && lane.reason.Some?
  }

  ghost predicate PlainRoute(r: Route) {
    && (r.inbound.issueRef.Some? ==> exists repository, number :: IssueOf(r.inbound.issueRef.value, repository, number))
    && r.inboundDigest == r.inbound && PlainDecision(r.decision) && PlainLane(r.lane, r.decision, r.inbound.domain)
    && r.provenance.receivedAt == r.decidedAt && r.provenance.observedRevision == r.decision.observedRevision
    && r.provenance.cursor == (if r.decision.point.Some? then Some(r.decision.point.value.cursor) else None)
  }

  lemma DecisionExactly(d: Decision)
    ensures CoherentDecision(d) <==> PlainDecision(d)
  {
    if d.point.Some? { CursorOnFields(d.point.value.cursor); }
  }

  /** A record passes every check exactly when it reads so. */
  lemma RecordedExactly(r: Route)
    ensures ValidRoute(r) <==> PlainRoute(r)
  {
    DecisionExactly(r.decision);
    if r.inbound.issueRef.Some? { IssueSelectorExactly(r.inbound.issueRef.value); }
  }

  predicate SameMessage(a: Route, b: Route) {
    && a.inbound.transport == b.inbound.transport && a.inbound.conversationRef == b.inbound.conversationRef
    && a.inbound.messageRef == b.inbound.messageRef
  }

  /** The loader accepts exactly the records that read so under their own keys,
      no message decided twice. */
  lemma AcceptedExactly(rs: RouteMap)
    ensures AcceptedRoutes(rs) <==>
              && (forall k :: k in rs ==> PlainRoute(rs[k]) && rs[k].routeId == k)
              && (forall j, k :: j in rs && k in rs && SameMessage(rs[j], rs[k]) ==> j == k)
  {
    forall k | k in rs ensures RouteOk(rs[k], k) <==> PlainRoute(rs[k]) && rs[k].routeId == k { RecordedExactly(rs[k]); }
    forall j, k | j in rs && k in rs ensures SameTurn(rs[j], rs[k]) <==> SameMessage(rs[j], rs[k]) {}
  }

  // ---------------------------------------------------------------------- lanes

  /** Why no lane is selected, or that it is the engineering lane. */
  predicate LaneAsked(outcome: RouteOutcome, domain: Option<string>, available: set<Lane>, lane: LaneChoice) {
    if domain.None? then lane == LaneChoice(NotRequested, None, None)
    else
      && (lane.outcome == Selected <==> domain == Some("ENGINEERING") && outcome != ClarificationRequired && EngineeringLane in available)
      && (lane.outcome == LaneRefused <==> lane.outcome != Selected)
      && lane.lane == (if lane.outcome == Selected then Some(EngineeringLane) else None)
      && lane.reason == (if lane.outcome == Selected then None
                         else if domain != Some("ENGINEERING") then Some(DomainUnsupported)
                         else if outcome == ClarificationRequired then Some(RouteNotResolved)
                         else Some(CapabilityUnavailable))
  }

  lemma LaneOnFields(outcome: RouteOutcome, domain: Option<string>, available: set<Lane>)
    ensures LaneAsked(outcome, domain, available, SelectLane(outcome, domain, available))
  {
  }

  /** A route record as it is first written. */
  ghost predicate RoutedAs(r: Route, id: Id, t: InboundTurn, bs: BindingMap, looked: FreshnessResult, now: Time,
                           available: set<Lane>, context: Context) {
    && r.routeId == id && r.decidedAt == now && r.inbound == t && r.inboundDigest == t
    && Warranted(t, bs, looked, now, r.decision)
    && LaneAsked(r.decision.outcome, t.domain, available, r.lane)
    && r.provenance.context == context && r.provenance.receivedAt == now
    && r.provenance.observedRevision == r.decision.observedRevision
    && r.provenance.cursor == (if r.decision.point.Some? then Some(r.decision.point.value.cursor) else None)
  }

  lemma NewRouteOnFields(id: Id, t: InboundTurn, bs: BindingMap, looked: FreshnessResult, now: Time, available: set<Lane>, context: Context)
    requires CoherentBindings(bs)
    ensures RoutedAs(NewRoute(id, t, bs, (m: Id) => looked, now, available, context), id, t, bs, looked, now, available, context)
  {
    DerivedIsWarranted(t, bs, looked, now);
    var r := NewRoute(id, t, bs, (m: Id) => looked, now, available, context);
    assert r.decision == Derive(t, NamedTiers(t), bs, looked, now);
    LaneOnFields(r.decision.outcome, t.domain, available);
  }
}
