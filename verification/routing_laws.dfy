/** What every derived route decision satisfies, and when it names a Mission. */
module RoutingLaws {
  import opened Record
  import opened Observations
  import opened Sorting
  import opened Bindings
  import opened Routing

  // ---------------------------------------------------- recorded consultations

  ghost predicate Recorded(bindings: BindingMap, b: Binding) {
    b.bindingId in bindings && bindings[b.bindingId] == b
  }

  lemma FindIsRecorded(bindings: BindingMap, w: BindingIdentity, b: Binding)
    requires CoherentBindings(bindings)
    ensures b in Find(bindings, w) <==> Recorded(bindings, b) && Holds(b, w)
  {
    FindExactly(bindings, w);
  }

  lemma ConversationIsRecorded(bindings: BindingMap, transport: string, conversationRef: string, now: Time, b: Binding)
    requires CoherentBindings(bindings)
    ensures b in ConversationBindings(bindings, transport, conversationRef, now)
            <==> Recorded(bindings, b) && InConversation(b, transport, conversationRef, now)
  {
    ConversationExactly(bindings, transport, conversationRef, now);
  }

  lemma HitIsRecorded(t: InboundTurn, tiers: seq<NamedTier>, bindings: BindingMap, h: Hit)
    requires CoherentBindings(bindings) && h in HitsAmong(t, tiers, bindings)
    ensures Recorded(bindings, h.binding) && exists n :: n in tiers && n.tier == h.tier && Holds(h.binding, Wanted(t, n))
  {
    HitsAmongExactly(t, tiers, bindings, h);
    var n :| n in tiers && n.tier == h.tier && h.binding in Find(bindings, Wanted(t, n));
    FindIsRecorded(bindings, Wanted(t, n), h.binding);
  }

  lemma NamedIsHit(t: InboundTurn, tiers: seq<NamedTier>, bindings: BindingMap, b: Binding, n: NamedTier)
    requires CoherentBindings(bindings) && Recorded(bindings, b) && n in tiers && Holds(b, Wanted(t, n))
    ensures Hit(n.tier, b) in HitsAmong(t, tiers, bindings)
  {
    FindIsRecorded(bindings, Wanted(t, n), b);
    HitsAmongExactly(t, tiers, bindings, Hit(n.tier, b));
  }

  // ------------------------------------------------------ bounded enumeration

  lemma {:induction false} NoHolder(bindings: BindingMap, keys: seq<Id>, w: BindingIdentity)
    requires forall k :: k in keys ==> k in bindings && !Holds(bindings[k], w)
    ensures FindAmong(bindings, keys, w) == []
  {
    if keys != [] {
      assert keys[0] in keys;
      NoHolder(bindings, keys[1..], w);
    }
  }

  lemma {:induction false} FindAmongIsSingular(bindings: BindingMap, keys: seq<Id>, w: BindingIdentity)
    requires CoherentBindings(bindings) && Ascending(keys) && forall k :: k in keys ==> k in bindings
    ensures |FindAmong(bindings, keys, w)| <= 1
  {
    if keys != [] {
      var rest := keys[1..];
      FindAmongIsSingular(bindings, rest, w);
      var b := bindings[keys[0]];
      if Holds(b, w) {
        forall k | k in rest ensures !Holds(bindings[k], w) {
          assert Clash(bindings[keys[0]], bindings[k]) <==> Holds(bindings[k], w);
        }
        NoHolder(bindings, rest, w);
      }
    }
  }

  lemma {:induction false} HitsAreFew(t: InboundTurn, tiers: seq<NamedTier>, bindings: BindingMap)
    requires CoherentBindings(bindings)
    ensures |HitsAmong(t, tiers, bindings)| <= |tiers|
  {
    if tiers != [] {
      FindAmongIsSingular(bindings, Sorted(bindings.Keys), Wanted(t, tiers[0]));
      HitsAreFew(t, tiers[1..], bindings);
    }
  }

  lemma {:induction false} OthersAreFew(hits: seq<Hit>, explicit: Id, now: Time)
    ensures |ActiveOthers(hits, explicit, now)| <= |hits|
  {
    if hits != [] {
      OthersAreFew(hits[1..], explicit, now);
      var rest := ActiveOthers(hits[1..], explicit, now);
      assert forall h :: h in hits <==> h == hits[0] || h in hits[1..];
      assert ActiveOthers(hits, explicit, now) <= rest + {hits[0].binding.missionId};
      SubsetIsSmaller(ActiveOthers(hits, explicit, now), rest + {hits[0].binding.missionId});
    } else {
      assert ActiveOthers(hits, explicit, now) == {};
    }
  }

  lemma {:induction false} SubsetIsSmaller(a: set<Id>, b: set<Id>)
    requires a <= b
    ensures |a| <= |b|
  {
    assert b == a + (b - a);
  }

  lemma CandidatesAreFew(t: InboundTurn, tiers: seq<NamedTier>, bindings: BindingMap, explicit: Id, now: Time)
    requires CoherentBindings(bindings) && |tiers| <= 7
    ensures |{explicit} + ActiveOthers(HitsAmong(t, tiers, bindings), explicit, now)| <= 8
  {
    var others := ActiveOthers(HitsAmong(t, tiers, bindings), explicit, now);
    HitsAreFew(t, tiers, bindings);
    OthersAreFew(HitsAmong(t, tiers, bindings), explicit, now);
    assert explicit !in others;
  }

  // ----------------------------------------------------------- coherence proof

  lemma ClarifyIsCoherent(reason: Reason, candidates: set<Id>, bound: Option<nat>)
    requires |candidates| <= MAX_ROUTE_CANDIDATES
    requires !reason.ReasonResolved? && !reason.NewProposalIntent?
    requires bound.Some? ==> bound.value >= 1 && candidates != {}
    requires reason.BindingExpired? || reason.BindingStale? ==> bound.Some?
    ensures CoherentDecision(Clarify(reason, candidates, bound))
  {
  }

  lemma ObservedIsCoherent(m: Id, tier: Tier, o: Observation, bound: Option<nat>, bad: nat)
    requires ValidObservation(o) && bad >= 1
    requires bound.Some? ==> bound.value >= 1
    requires tier != ExplicitMissionId ==> bound.Some?
    ensures CoherentDecision(ClarifyObserved(BindingStale, m, bad, o))
    ensures CoherentDecision(ResolvedTo(m, tier, o, bound))
  {
  }

  lemma ResolveIsCoherent(m: Id, tier: Tier, bs: seq<Binding>, looked: FreshnessResult)
    requires forall b :: b in bs ==> b.boundRevision >= 1
    requires looked.observation.Some? ==> ValidObservation(looked.observation.value)
    requires tier != ExplicitMissionId ==> bs != []
    ensures CoherentDecision(Resolve(m, tier, bs, looked))
  {
    var bound := if bs == [] then None else Some(bs[0].boundRevision);
    if bs != [] { assert bs[0] in bs; }
    if looked.freshness == Absent {
      ClarifyIsCoherent(if bs == [] then MissionUnobserved else BindingStale, {m}, bound);
    } else if looked.freshness != Fresh || looked.observation.None? {
      ClarifyIsCoherent(FreshnessReason(looked.freshness), {m}, bound);
    } else {
      var bad := Offending(bs, looked.observation.value);
      ObservedIsCoherent(m, tier, looked.observation.value, bound, if bad.Some? then bad.value.boundRevision else 1);
    }
  }

  lemma {:induction false} MatchingExactly(hits: seq<Hit>, explicit: Id, b: Binding)
    ensures b in Matching(hits, explicit) <==> b.missionId == explicit && exists h :: h in hits && h.binding == b
  {
    if hits != [] {
      MatchingExactly(hits[1..], explicit, b);
      assert forall h :: h in hits <==> h == hits[0] || h in hits[1..];
    }
  }

  lemma {:induction false} WholeConversationExactly(bs: seq<Binding>, explicit: Id, named: set<Id>, b: Binding)
    ensures b in WholeConversation(bs, explicit, named) <==>
              b in bs && b.missionId == explicit && b.bindingId !in named && b.kind.Conversation?
  {
    if bs != [] {
      WholeConversationExactly(bs[1..], explicit, named, b);
      assert b in bs <==> b == bs[0] || b in bs[1..];
    }
  }

  /** The context an explicit id is answerable to: the bindings the turn names
      for that Mission, and its whole-conversation bindings. */
  ghost predicate ExplicitContext(t: InboundTurn, tiers: seq<NamedTier>, b: Binding, m: Id, now: Time) {
    && b.missionId == m
    && (Names(t, tiers, b) || (b.kind.Conversation? && InConversation(b, t.transport, t.conversationRef, now)))
  }

  lemma HitIsNamed(t: InboundTurn, tiers: seq<NamedTier>, bindings: BindingMap, b: Binding)
    requires CoherentBindings(bindings)
    ensures (exists h :: h in HitsAmong(t, tiers, bindings) && h.binding == b)
            <==> Recorded(bindings, b) && Names(t, tiers, b)
  {
    if h :| h in HitsAmong(t, tiers, bindings) && h.binding == b {
      HitIsRecorded(t, tiers, bindings, h);
    }
    if Recorded(bindings, b) && Names(t, tiers, b) {
      var n :| n in tiers && Holds(b, Wanted(t, n));
      NamedIsHit(t, tiers, bindings, b, n);
      assert Hit(n.tier, b) in HitsAmong(t, tiers, bindings);
    }
  }

  lemma ApplicableExactly(t: InboundTurn, tiers: seq<NamedTier>, bindings: BindingMap, m: Id, now: Time, b: Binding)
    requires CoherentBindings(bindings)
    ensures b in Applicable(t, HitsAmong(t, tiers, bindings), bindings, m, now)
            <==> Recorded(bindings, b) && ExplicitContext(t, tiers, b, m, now)
  {
    var hits := HitsAmong(t, tiers, bindings);
    var matching := Matching(hits, m);
    var named := set c | c in matching :: c.bindingId;
    MatchingExactly(hits, m, b);
    WholeConversationExactly(ConversationBindings(bindings, t.transport, t.conversationRef, now), m, named, b);
    ConversationIsRecorded(bindings, t.transport, t.conversationRef, now, b);
    HitIsNamed(t, tiers, bindings, b);
    if Recorded(bindings, b) && b.bindingId in named {
      var c :| c in matching && c.bindingId == b.bindingId;
      MatchingExactly(hits, m, c);
      HitIsNamed(t, tiers, bindings, c);
    }
  }

  lemma ConsultedAreValid(bindings: BindingMap, b: Binding)
    requires CoherentBindings(bindings) && Recorded(bindings, b)
    ensures b.boundRevision >= 1
  {
    assert ValidBinding(bindings[b.bindingId]);
  }

  lemma ApplicableAreValid(t: InboundTurn, tiers: seq<NamedTier>, bindings: BindingMap, m: Id, now: Time)
    requires CoherentBindings(bindings)
    ensures forall b :: b in Applicable(t, HitsAmong(t, tiers, bindings), bindings, m, now) ==> b.boundRevision >= 1
  {
    forall b | b in Applicable(t, HitsAmong(t, tiers, bindings), bindings, m, now) ensures b.boundRevision >= 1 {
      ApplicableExactly(t, tiers, bindings, m, now, b);
      ConsultedAreValid(bindings, b);
    }
  }

  lemma ExplicitIsCoherent(t: InboundTurn, others: set<Id>, applicable: seq<Binding>, looked: FreshnessResult,
                           now: Time, m: Id)
    requires |{m} + others| <= 8
    requires forall b :: b in applicable ==> b.boundRevision >= 1
    requires looked.observation.Some? ==> ValidObservation(looked.observation.value)
    ensures CoherentDecision(ExplicitVia(t, others, applicable, looked, now, m))
  {
    ResolveIsCoherent(m, ExplicitMissionId, applicable, looked);
    ClarifyIsCoherent(ContextDisagrees, {m}, None);
    ClarifyIsCoherent(ContextDisagrees, {m} + others, None);
    var expired := FirstExpired(applicable, now);
    if expired.Some? { ClarifyIsCoherent(BindingExpired, {m}, Some(expired.value.boundRevision)); }
  }

  lemma TierIsCoherent(h: Hit, look: Id -> FreshnessResult, now: Time)
    requires HonestLookup(look) && h.binding.boundRevision >= 1
    ensures CoherentDecision(TierOutcome(h, look, now))
  {
    ResolveIsCoherent(h.binding.missionId, h.tier, [h.binding], look(h.binding.missionId));
    ClarifyIsCoherent(BindingExpired, {h.binding.missionId}, Some(h.binding.boundRevision));
  }

  lemma SingletonSorted(missions: set<Id>)
    requires |missions| == 1
    ensures missions == {Sorted(missions)[0]}
  {
    var m := Sorted(missions)[0];
    assert m in Sorted(missions);
    assert |missions - {m}| == 0;
  }

  lemma ConversationIsCoherent(t: InboundTurn, members: seq<Binding>, look: Id -> FreshnessResult)
    requires HonestLookup(look) && forall b :: b in members ==> b.boundRevision >= 1
    ensures CoherentDecision(ConversationOutcome(t, members, look))
  {
    var missions := MissionsOf(members);
    ClarifyIsCoherent(NoContext, {}, None);
    ClarifyIsCoherent(AmbiguousCandidates, {}, None);
    if |missions| == 1 {
      SingletonSorted(missions);
      var m := Sorted(missions)[0];
      var b :| b in members && b.missionId == m;
      assert b in NamingMission(members, m);
      ResolveIsCoherent(m, UniqueConversationMatch, NamingMission(members, m), look(m));
    } else if 1 < |missions| <= MAX_ROUTE_CANDIDATES {
      ClarifyIsCoherent(AmbiguousCandidates, missions, None);
    }
  }

  lemma OutcomeIsCoherent(t: InboundTurn, tiers: seq<NamedTier>, bindings: BindingMap, look: Id -> FreshnessResult, now: Time)
    requires CoherentBindings(bindings) && HonestLookup(look) && |tiers| <= 7
    ensures CoherentDecision(OutcomeVia(t, tiers, bindings, look, now))
  {
    var hits := HitsAmong(t, tiers, bindings);
    if t.explicitMission.Some? {
      var m := t.explicitMission.value;
      ApplicableAreValid(t, tiers, bindings, m, now);
      CandidatesAreFew(t, tiers, bindings, m, now);
      ExplicitIsCoherent(t, ActiveOthers(hits, m, now), Applicable(t, hits, bindings, m, now), look(m), now, m);
    } else if t.intent.NewMission? {
      ClarifyIsCoherent(NoContext, {}, None);
    } else if hits != [] {
      HitIsRecorded(t, tiers, bindings, hits[0]);
      ConsultedAreValid(bindings, hits[0].binding);
      TierIsCoherent(hits[0], look, now);
    } else {
      var members := ConversationBindings(bindings, t.transport, t.conversationRef, now);
      forall b | b in members ensures b.boundRevision >= 1 {
        ConversationIsRecorded(bindings, t.transport, t.conversationRef, now, b);
        ConsultedAreValid(bindings, b);
      }
      ConversationIsCoherent(t, members, look);
    }
  }

  // -------------------------------------------------- tiers, in resolution order

  /** Earlier tiers are consulted first. */
  function TierRank(tier: Tier): nat {
    match tier
    case ExplicitMissionId => 0
    case ReplyToBinding => 1
    case ApprovalBinding => 2
    case ResultBinding => 3
    case RepositoryReference => 4
    case IssueReference => 5
    case ProjectBinding => 6
    case AliasBinding => 7
    case UniqueConversationMatch => 8
  }

  /** What a turn names a binding tier with, if it does. */
  function SelectorFor(t: InboundTurn, tier: Tier): Option<string> {
    match tier
    case ReplyToBinding => t.replyTo
    case ApprovalBinding => t.replyTo
    case ResultBinding => t.replyTo
    case RepositoryReference => t.repositoryUrl
    case IssueReference => t.issueRef
    case ProjectBinding => t.projectKey
    case AliasBinding => t.alias
    case _ => None
  }

  function KindFor(tier: Tier): BindingKind {
    match tier
    case ReplyToBinding => ReplyToMessage
    case ApprovalBinding => ApprovalPresentation
    case ResultBinding => ResultPresentation
    case RepositoryReference => Repository
    case IssueReference => Issue
    case ProjectBinding => Project
    case AliasBinding => Alias
    case _ => Conversation
  }

  ghost predicate Ranked(tiers: seq<NamedTier>) {
    forall i, j :: 0 <= i < j < |tiers| ==> TierRank(tiers[i].tier) < TierRank(tiers[j].tier)
  }

  ghost predicate NamesUpTo(t: InboundTurn, tiers: seq<NamedTier>, rank: nat) {
    && Ranked(tiers)
    && (forall n :: n in tiers <==>
          TierRank(n.tier) <= rank && SelectorFor(t, n.tier) == Some(n.selector) && n.kind == KindFor(n.tier))
  }

  lemma NameOneMore(t: InboundTurn, tiers: seq<NamedTier>, rank: nat, tier: Tier)
    requires NamesUpTo(t, tiers, rank) && TierRank(tier) == rank + 1
    ensures NamesUpTo(t, tiers + Named(tier, KindFor(tier), SelectorFor(t, tier)), rank + 1)
  {
    var more := Named(tier, KindFor(tier), SelectorFor(t, tier));
    assert forall n :: n in tiers ==> TierRank(n.tier) <= rank;
    forall i, j | 0 <= i < j < |tiers + more| ensures TierRank((tiers + more)[i].tier) < TierRank((tiers + more)[j].tier) {
      if j == |tiers| { assert tiers[i] in tiers; }
    }
    forall n ensures n in tiers + more <==>
        TierRank(n.tier) <= rank + 1 && SelectorFor(t, n.tier) == Some(n.selector) && n.kind == KindFor(n.tier) {
      assert TierRank(n.tier) == rank + 1 ==> n.tier == tier;
    }
  }

  function TierAt(rank: nat): Tier {
    match rank
    case 1 => ReplyToBinding
    case 2 => ApprovalBinding
    case 3 => ResultBinding
    case 4 => RepositoryReference
    case 5 => IssueReference
    case 6 => ProjectBinding
    case _ => AliasBinding
  }

  /** The tiers a turn names, one rank after another. */
  function TiersUpTo(t: InboundTurn, rank: nat): seq<NamedTier>
    requires rank <= 7
  {
    if rank == 0 then []
    else TiersUpTo(t, rank - 1) + Named(TierAt(rank), KindFor(TierAt(rank)), SelectorFor(t, TierAt(rank)))
  }

  lemma {:induction false} TiersUpToAre(t: InboundTurn, rank: nat)
    requires rank <= 7
    ensures NamesUpTo(t, TiersUpTo(t, rank), rank)
  {
    if rank > 0 {
      TiersUpToAre(t, rank - 1);
      NameOneMore(t, TiersUpTo(t, rank - 1), rank - 1, TierAt(rank));
    }
  }

  lemma NamedTiersAreAll(t: InboundTurn)
    ensures NamedTiers(t) == TiersUpTo(t, 7)
  {
    assert TiersUpTo(t, 1) == Named(ReplyToBinding, ReplyToMessage, t.replyTo);
    assert TiersUpTo(t, 2) == TiersUpTo(t, 1) + Named(ApprovalBinding, ApprovalPresentation, t.replyTo);
    assert TiersUpTo(t, 3) == TiersUpTo(t, 2) + Named(ResultBinding, ResultPresentation, t.replyTo);
    assert TiersUpTo(t, 4) == TiersUpTo(t, 3) + Named(RepositoryReference, Repository, t.repositoryUrl);
    assert TiersUpTo(t, 5) == TiersUpTo(t, 4) + Named(IssueReference, Issue, t.issueRef);
    assert TiersUpTo(t, 6) == TiersUpTo(t, 5) + Named(ProjectBinding, Project, t.projectKey);
  }

  /** A turn names exactly the tiers it carries a selector for, by that selector
      and their own binding kind, in resolution order. */
  lemma NamedTiersExactly(t: InboundTurn)
    ensures NamesUpTo(t, NamedTiers(t), 7)
  {
    NamedTiersAreAll(t);
    TiersUpToAre(t, 7);
  }

  /** A lane is selected exactly for a supported, available domain of a route
      that was resolved or proposed. */
  lemma LaneSelectedExactly(d: Decision, domain: Option<string>, available: set<Lane>)
    ensures SelectLane(d.outcome, domain, available).outcome.Selected? <==>
              domain == Some("ENGINEERING") && !d.outcome.ClarificationRequired? && EngineeringLane in available
  {
  }

  lemma AtMostSevenTiers(t: InboundTurn)
    ensures |NamedTiers(t)| <= 7
  {
  }

  lemma LaneIsCoherent(d: Decision, domain: Option<string>, available: set<Lane>)
    ensures CoherentLane(SelectLane(d.outcome, domain, available), d, domain)
  {
  }

  /** Every record built from a derivation passes every coherence rule. */
  lemma NewRouteIsValid(id: Id, t: InboundTurn, bindings: BindingMap, look: Id -> FreshnessResult, now: Time,
                        available: set<Lane>, context: Context)
    requires CoherentBindings(bindings) && HonestLookup(look) && ValidTurn(t)
    ensures ValidRoute(NewRoute(id, t, bindings, look, now, available, context))
  {
    AtMostSevenTiers(t);
    OutcomeIsCoherent(t, NamedTiers(t), bindings, look, now);
    LaneIsCoherent(IdentityOutcome(t, bindings, look, now), t.domain, available);
  }

  // --------------------------------------------- when a turn resolves, exactly

  ghost predicate FreshLook(looked: FreshnessResult) { looked.freshness == Fresh && looked.observation.Some? }

  /** No active binding the turn names points to another Mission. */
  ghost predicate NoRival(t: InboundTurn, tiers: seq<NamedTier>, bindings: BindingMap, now: Time, m: Id) {
    forall k :: k in bindings && Names(t, tiers, bindings[k]) && IsActive(bindings[k], now) ==> bindings[k].missionId == m
  }

  /** All the context an explicit id is answerable to is current. */
  ghost predicate ContextStands(t: InboundTurn, tiers: seq<NamedTier>, bindings: BindingMap, o: Observation, now: Time, m: Id) {
    forall k :: k in bindings && ExplicitContext(t, tiers, bindings[k], m, now) ==>
      !IsExpired(bindings[k], now) && StandsAt(bindings[k], o)
  }

  ghost predicate JustifiedExplicitly(t: InboundTurn, tiers: seq<NamedTier>, bindings: BindingMap,
                                      looked: FreshnessResult, now: Time, m: Id) {
    && !t.intent.NewMission?
    && FreshLook(looked)
    && NoRival(t, tiers, bindings, now, m)
    && ContextStands(t, tiers, bindings, looked.observation.value, now, m)
  }

  /** The first tier the turn names that finds a binding finds this one. */
  ghost predicate FirstNamed(t: InboundTurn, tiers: seq<NamedTier>, bindings: BindingMap, i: int, k: Id) {
    && 0 <= i < |tiers| && k in bindings && Holds(bindings[k], Wanted(t, tiers[i]))
    && forall j :: 0 <= j < i ==> Silent(t, tiers[j], bindings)
  }

  ghost predicate JustifiedByTier(t: InboundTurn, tiers: seq<NamedTier>, bindings: BindingMap,
                                  looked: FreshnessResult, now: Time, m: Id, tier: Tier) {
    && FreshLook(looked)
    && exists i, k :: FirstNamed(t, tiers, bindings, i, k) && tiers[i].tier == tier
         && bindings[k].missionId == m && !IsExpired(bindings[k], now)
         && StandsAt(bindings[k], looked.observation.value)
  }

  /** The conversation names only this Mission, at the observed revision. */
  ghost predicate WholeConversationStands(t: InboundTurn, bindings: BindingMap, o: Observation, now: Time, m: Id) {
    && (exists k :: k in bindings && InConversation(bindings[k], t.transport, t.conversationRef, now))
    && (forall k :: k in bindings && InConversation(bindings[k], t.transport, t.conversationRef, now) ==>
          bindings[k].missionId == m && StandsAt(bindings[k], o))
  }

  ghost predicate JustifiedByConversation(t: InboundTurn, tiers: seq<NamedTier>, bindings: BindingMap,
                                          looked: FreshnessResult, now: Time, m: Id) {
    && FreshLook(looked)
    && (forall j :: 0 <= j < |tiers| ==> Silent(t, tiers[j], bindings))
    && WholeConversationStands(t, bindings, looked.observation.value, now, m)
  }

  /** What must hold for a turn to name Mission m through this tier. */
  ghost predicate Justified(t: InboundTurn, tiers: seq<NamedTier>, bindings: BindingMap, looked: FreshnessResult,
                            now: Time, m: Id, tier: Tier) {
    if t.explicitMission.Some? then
      tier.ExplicitMissionId? && t.explicitMission == Some(m) && JustifiedExplicitly(t, tiers, bindings, looked, now, m)
    else
      && !t.intent.NewMission?
      && (JustifiedByTier(t, tiers, bindings, looked, now, m, tier)
          || (tier.UniqueConversationMatch? && JustifiedByConversation(t, tiers, bindings, looked, now, m)))
  }

  ghost predicate Answers(d: Decision, m: Id, tier: Tier) {
    d.outcome.ExistingMission? && d.mission == Some(m) && d.tier == Some(tier)
  }

  lemma ResolveAnswers(m: Id, tier: Tier, bs: seq<Binding>, looked: FreshnessResult, m': Id, tier': Tier)
    ensures Answers(Resolve(m, tier, bs, looked), m', tier') <==>
              m == m' && tier == tier' && FreshLook(looked) && forall b :: b in bs ==> StandsAt(b, looked.observation.value)
  {
  }

  lemma NoOthersExactly(t: InboundTurn, tiers: seq<NamedTier>, bindings: BindingMap, m: Id, now: Time)
    requires CoherentBindings(bindings)
    ensures ActiveOthers(HitsAmong(t, tiers, bindings), m, now) == {} <==> NoRival(t, tiers, bindings, now, m)
  {
    var hits := HitsAmong(t, tiers, bindings);
    var others := ActiveOthers(hits, m, now);
    if others != {} {
      var x :| x in others;
      var h :| h in hits && IsActive(h.binding, now) && h.binding.missionId != m && h.binding.missionId == x;
      HitIsNamed(t, tiers, bindings, h.binding);
    }
    forall k | k in bindings && Names(t, tiers, bindings[k]) && IsActive(bindings[k], now)
      ensures bindings[k].missionId == m || bindings[k].missionId in others
    {
      HitIsNamed(t, tiers, bindings, bindings[k]);
      var h :| h in hits && h.binding == bindings[k];
      assert h.binding.missionId == m || h.binding.missionId in others;
    }
  }

  lemma ExplicitAnswers(t: InboundTurn, others: set<Id>, applicable: seq<Binding>, looked: FreshnessResult,
                        now: Time, e: Id, m: Id, tier: Tier)
    ensures Answers(ExplicitVia(t, others, applicable, looked, now, e), m, tier) <==>
              && tier.ExplicitMissionId? && m == e && !t.intent.NewMission? && others == {} && FreshLook(looked)
              && AllStand(applicable, looked.observation.value, now)
  {
    ResolveAnswers(e, ExplicitMissionId, applicable, looked, m, tier);
  }

  lemma ApplicableStands(t: InboundTurn, tiers: seq<NamedTier>, bindings: BindingMap, o: Observation, now: Time, m: Id)
    requires CoherentBindings(bindings)
    ensures AllStand(Applicable(t, HitsAmong(t, tiers, bindings), bindings, m, now), o, now)
            <==> ContextStands(t, tiers, bindings, o, now, m)
  {
    var applicable := Applicable(t, HitsAmong(t, tiers, bindings), bindings, m, now);
    forall b ensures b in applicable <==> Recorded(bindings, b) && ExplicitContext(t, tiers, b, m, now) {
      ApplicableExactly(t, tiers, bindings, m, now, b);
    }
    ContextStandsIff(t, tiers, bindings, o, now, m, applicable);
  }

  ghost predicate AllStand(bs: seq<Binding>, o: Observation, now: Time) {
    forall b :: b in bs ==> !IsExpired(b, now) && StandsAt(b, o)
  }

  lemma ContextStandsIff(t: InboundTurn, tiers: seq<NamedTier>, bindings: BindingMap, o: Observation, now: Time, m: Id, bs: seq<Binding>)
    requires CoherentBindings(bindings)
    requires forall b :: b in bs <==> Recorded(bindings, b) && ExplicitContext(t, tiers, b, m, now)
    ensures AllStand(bs, o, now) <==> ContextStands(t, tiers, bindings, o, now, m)
  {
    if AllStand(bs, o, now) {
      forall k | k in bindings && ExplicitContext(t, tiers, bindings[k], m, now)
        ensures !IsExpired(bindings[k], now) && StandsAt(bindings[k], o) { assert Recorded(bindings, bindings[k]); }
    }
  }

  lemma ExplicitExactly(t: InboundTurn, tiers: seq<NamedTier>, bindings: BindingMap, look: Id -> FreshnessResult,
                        now: Time, e: Id, m: Id, tier: Tier)
    requires CoherentBindings(bindings)
    ensures Answers(ExplicitOutcome(t, HitsAmong(t, tiers, bindings), bindings, look, now, e), m, tier)
            <==> tier.ExplicitMissionId? && m == e && JustifiedExplicitly(t, tiers, bindings, look(m), now, m)
  {
    var hits := HitsAmong(t, tiers, bindings);
    NoOthersExactly(t, tiers, bindings, e, now);
    ExplicitAnswers(t, ActiveOthers(hits, e, now), Applicable(t, hits, bindings, e, now), look(e), now, e, m, tier);
    if FreshLook(look(e)) { ApplicableStands(t, tiers, bindings, look(e).observation.value, now, e); }
  }

  lemma SilentExactly(t: InboundTurn, n: NamedTier, bindings: BindingMap)
    requires CoherentBindings(bindings)
    ensures Silent(t, n, bindings) <==> Find(bindings, Wanted(t, n)) == []
  {
    if Find(bindings, Wanted(t, n)) == [] {
      FindNone(bindings, Wanted(t, n));
    } else {
      var b := Find(bindings, Wanted(t, n))[0];
      FindIsRecorded(bindings, Wanted(t, n), b);
    }
  }

  /** The first hit is the binding of the first tier that finds one. */
  lemma FirstHitIsFirstNamed(t: InboundTurn, tiers: seq<NamedTier>, bindings: BindingMap)
    requires CoherentBindings(bindings)
    ensures HitsAmong(t, tiers, bindings) == [] <==> forall j :: 0 <= j < |tiers| ==> Silent(t, tiers[j], bindings)
    ensures HitsAmong(t, tiers, bindings) != [] ==>
      var h := HitsAmong(t, tiers, bindings)[0];
      forall i, k :: FirstNamed(t, tiers, bindings, i, k) <==>
        i == FirstIndex(t, tiers, bindings) && i < |tiers| && k == h.binding.bindingId
        && Recorded(bindings, h.binding) && tiers[i].tier == h.tier
  {
    FirstHit(t, tiers, bindings);
    AllSilent(t, tiers, bindings);
    if FirstIndex(t, tiers, bindings) < |tiers| { FirstIsNamed(t, tiers, bindings); }
  }

  lemma AllSilent(t: InboundTurn, tiers: seq<NamedTier>, bindings: BindingMap)
    requires CoherentBindings(bindings)
    ensures forall j :: 0 <= j < |tiers| ==> (Silent(t, tiers[j], bindings) <==> Find(bindings, Wanted(t, tiers[j])) == [])
  {
    forall j | 0 <= j < |tiers| ensures Silent(t, tiers[j], bindings) <==> Find(bindings, Wanted(t, tiers[j])) == [] {
      SilentExactly(t, tiers[j], bindings);
    }
  }

  lemma FirstIsNamed(t: InboundTurn, tiers: seq<NamedTier>, bindings: BindingMap)
    requires CoherentBindings(bindings) && FirstIndex(t, tiers, bindings) < |tiers| && HitsAmong(t, tiers, bindings) != []
    ensures var h, i := HitsAmong(t, tiers, bindings)[0], FirstIndex(t, tiers, bindings);
            && Recorded(bindings, h.binding) && tiers[i].tier == h.tier
            && forall i', k :: FirstNamed(t, tiers, bindings, i', k) <==> i' == i && k == h.binding.bindingId
  {
    var i, b := FirstIndex(t, tiers, bindings), HitsAmong(t, tiers, bindings)[0].binding;
    FirstHit(t, tiers, bindings);
    AllSilent(t, tiers, bindings);
    FindIsRecorded(bindings, Wanted(t, tiers[i]), b);
    FoundIsTheOne(bindings, Wanted(t, tiers[i]), b);
    TheOneIsFirst(t, tiers, bindings, i, b);
  }

  ghost predicate TheOne(bindings: BindingMap, w: BindingIdentity, b: Binding) {
    Recorded(bindings, b) && Holds(b, w) && forall k :: k in bindings && Holds(bindings[k], w) ==> k == b.bindingId
  }

  lemma FoundIsTheOne(bindings: BindingMap, w: BindingIdentity, b: Binding)
    requires CoherentBindings(bindings) && b in Find(bindings, w)
    ensures TheOne(bindings, w, b)
  {
    FindIsRecorded(bindings, w, b);
    FindIsSingular(bindings, w, b);
    forall k | k in bindings && Holds(bindings[k], w) ensures k == b.bindingId {
      FindIsRecorded(bindings, w, bindings[k]);
    }
  }

  /** Silent tiers before it, and no other binding of its own tier's identity. */
  lemma TheOneIsFirst(t: InboundTurn, tiers: seq<NamedTier>, bindings: BindingMap, i: nat, b: Binding)
    requires i < |tiers| && TheOne(bindings, Wanted(t, tiers[i]), b) && !Silent(t, tiers[i], bindings)
    requires forall j :: 0 <= j < i ==> Silent(t, tiers[j], bindings)
    ensures forall i', k :: FirstNamed(t, tiers, bindings, i', k) <==> i' == i && k == b.bindingId
  {
  }

  /** With the first named binding known, the tier's justification is about it. */
  lemma TierJustified(t: InboundTurn, tiers: seq<NamedTier>, bindings: BindingMap, looked: FreshnessResult, now: Time,
                      m: Id, tier: Tier, i: nat, key: Id)
    requires FirstNamed(t, tiers, bindings, i, key)
    requires forall i', k :: FirstNamed(t, tiers, bindings, i', k) ==> i' == i && k == key
    ensures JustifiedByTier(t, tiers, bindings, looked, now, m, tier) <==>
              FreshLook(looked) && tiers[i].tier == tier && bindings[key].missionId == m && !IsExpired(bindings[key], now)
              && StandsAt(bindings[key], looked.observation.value)
  {
  }

  lemma TierAnswers(h: Hit, look: Id -> FreshnessResult, now: Time, m: Id, tier: Tier)
    ensures Answers(TierOutcome(h, look, now), m, tier) <==>
              FreshLook(look(m)) && h.tier == tier && h.binding.missionId == m && !IsExpired(h.binding, now)
              && StandsAt(h.binding, look(m).observation.value)
  {
    ResolveAnswers(h.binding.missionId, h.tier, [h.binding], look(h.binding.missionId), m, tier);
  }

  lemma TierExactly(t: InboundTurn, tiers: seq<NamedTier>, bindings: BindingMap, look: Id -> FreshnessResult,
                    now: Time, m: Id, tier: Tier)
    requires CoherentBindings(bindings) && HitsAmong(t, tiers, bindings) != []
    ensures Answers(TierOutcome(HitsAmong(t, tiers, bindings)[0], look, now), m, tier)
            <==> JustifiedByTier(t, tiers, bindings, look(m), now, m, tier)
  {
    var h := HitsAmong(t, tiers, bindings)[0];
    var i := FirstIndex(t, tiers, bindings);
    FirstHit(t, tiers, bindings);
    FirstHitIsFirstNamed(t, tiers, bindings);
    FindIsRecorded(bindings, Wanted(t, tiers[i]), h.binding);
    assert FirstNamed(t, tiers, bindings, i, h.binding.bindingId);
    TierJustified(t, tiers, bindings, look(m), now, m, tier, i, h.binding.bindingId);
    TierAnswers(h, look, now, m, tier);
  }

  lemma OneMissionExactly(bs: seq<Binding>, m: Id)
    ensures bs != [] && (forall b :: b in bs ==> b.missionId == m) <==> MissionsOf(bs) == {m}
  {
    if bs != [] { assert bs[0].missionId in MissionsOf(bs); }
    if MissionsOf(bs) == {m} {
      assert m in MissionsOf(bs);
      assert forall b :: b in bs ==> b.missionId in MissionsOf(bs);
    }
  }

  lemma ConversationAnswers(t: InboundTurn, members: seq<Binding>, look: Id -> FreshnessResult, m: Id, tier: Tier)
    ensures Answers(ConversationOutcome(t, members, look), m, tier) <==>
              && tier.UniqueConversationMatch? && members != [] && FreshLook(look(m))
              && forall b :: b in members ==> b.missionId == m && StandsAt(b, look(m).observation.value)
  {
    var missions := MissionsOf(members);
    OneMissionExactly(members, m);
    if |missions| == 1 {
      SingletonSorted(missions);
      var only := Sorted(missions)[0];
      var b :| b in members && b.missionId == only;
      assert forall c :: c in members ==> c.missionId in missions;
      ResolveAnswers(only, UniqueConversationMatch, NamingMission(members, only), look(only), m, tier);
    }
  }

  lemma ConversationStands(t: InboundTurn, bindings: BindingMap, o: Observation, now: Time, m: Id)
    requires CoherentBindings(bindings)
    ensures var members := ConversationBindings(bindings, t.transport, t.conversationRef, now);
            (members != [] && forall b :: b in members ==> b.missionId == m && StandsAt(b, o))
            <==> WholeConversationStands(t, bindings, o, now, m)
  {
    var members := ConversationBindings(bindings, t.transport, t.conversationRef, now);
    forall b ensures b in members <==> Recorded(bindings, b) && InConversation(b, t.transport, t.conversationRef, now) {
      ConversationIsRecorded(bindings, t.transport, t.conversationRef, now, b);
    }
    WholeConversationIff(t, bindings, o, now, m, members);
  }

  lemma WholeConversationIff(t: InboundTurn, bindings: BindingMap, o: Observation, now: Time, m: Id, members: seq<Binding>)
    requires CoherentBindings(bindings)
    requires forall b :: b in members <==> Recorded(bindings, b) && InConversation(b, t.transport, t.conversationRef, now)
    ensures (members != [] && forall b :: b in members ==> b.missionId == m && StandsAt(b, o))
            <==> WholeConversationStands(t, bindings, o, now, m)
  {
    assert members == [] || members[0] in members;
    forall k | k in bindings && InConversation(bindings[k], t.transport, t.conversationRef, now) ensures bindings[k] in members {
      assert Recorded(bindings, bindings[k]);
    }
  }

  lemma ConversationMatchExactly(t: InboundTurn, bindings: BindingMap, look: Id -> FreshnessResult, now: Time,
                                 m: Id, tier: Tier)
    requires CoherentBindings(bindings)
    ensures Answers(ConversationOutcome(t, ConversationBindings(bindings, t.transport, t.conversationRef, now), look), m, tier)
            <==> tier.UniqueConversationMatch? && FreshLook(look(m))
                 && WholeConversationStands(t, bindings, look(m).observation.value, now, m)
  {
    ConversationAnswers(t, ConversationBindings(bindings, t.transport, t.conversationRef, now), look, m, tier);
    if FreshLook(look(m)) { ConversationStands(t, bindings, look(m).observation.value, now, m); }
  }

  /** A turn is routed to a Mission exactly when its context justifies it: the
      lookup was FRESH and every binding consulted is unrevoked, unexpired,
      bound at the observed revision and names the observed repository; an
      explicit id is contradicted by no active binding the turn names. */
  lemma RoutesExactlyWhenJustified(t: InboundTurn, tiers: seq<NamedTier>, bindings: BindingMap,
                                   look: Id -> FreshnessResult, now: Time, m: Id, tier: Tier)
    requires CoherentBindings(bindings)
    ensures Answers(OutcomeVia(t, tiers, bindings, look, now), m, tier)
            <==> Justified(t, tiers, bindings, look(m), now, m, tier)
  {
    if t.explicitMission.Some? {
      ExplicitExactly(t, tiers, bindings, look, now, t.explicitMission.value, m, tier);
    } else if !t.intent.NewMission? {
      UnnamedExactly(t, tiers, bindings, look, now, m, tier);
    }
  }

  lemma UnnamedExactly(t: InboundTurn, tiers: seq<NamedTier>, bindings: BindingMap, look: Id -> FreshnessResult,
                       now: Time, m: Id, tier: Tier)
    requires CoherentBindings(bindings) && t.explicitMission.None? && !t.intent.NewMission?
    ensures Answers(OutcomeVia(t, tiers, bindings, look, now), m, tier)
            <==> JustifiedByTier(t, tiers, bindings, look(m), now, m, tier)
                 || (tier.UniqueConversationMatch? && JustifiedByConversation(t, tiers, bindings, look(m), now, m))
  {
    FirstHitIsFirstNamed(t, tiers, bindings);
    if HitsAmong(t, tiers, bindings) != [] {
      TierExactly(t, tiers, bindings, look, now, m, tier);
    } else {
      ConversationMatchExactly(t, bindings, look, now, m, tier);
      assert forall i, k :: !FirstNamed(t, tiers, bindings, i, k);
    }
  }
}
