/** Which decision a turn gets, told from the recorded bindings, the turn and the
    one look, field by field (coordination/routing.py:194-447). */
module RoutingFields {
  import opened Record
  import opened Observations
  import opened ObservationFields
  import opened Sorting
  import opened Bindings
  import opened BindingFields
  import opened Routing
  import opened RoutingLaws
  import opened Replays

  // ------------------------------------------------------------ plain readings

  /** The turn names this unrevoked binding by a selector it carries. */
  predicate NamedBy(t: InboundTurn, b: Binding) {
    !b.revoked && b.transport == t.transport
    && match b.kind
       case ReplyToMessage => b.conversationRef == Some(t.conversationRef) && t.replyTo == Some(b.selector)
       case ApprovalPresentation => b.conversationRef == Some(t.conversationRef) && t.replyTo == Some(b.selector)
       case ResultPresentation => b.conversationRef == Some(t.conversationRef) && t.replyTo == Some(b.selector)
       case Repository => b.conversationRef == None && t.repositoryUrl == Some(b.selector)
       case Issue => b.conversationRef == None && t.issueRef == Some(b.selector)
       case Project => b.conversationRef == None && t.projectKey == Some(b.selector)
       case Alias => b.conversationRef == None && t.alias == Some(b.selector)
       case Conversation => false
  }

  /** In which order bindings are consulted, and the tier each kind resolves by. */
  function Order(k: BindingKind): nat {
    match k
    case ReplyToMessage => 1
    case ApprovalPresentation => 2
    case ResultPresentation => 3
    case Repository => 4
    case Issue => 5
    case Project => 6
    case Alias => 7
    case Conversation => 8
  }

  function TierOfKind(k: BindingKind): Tier {
    match k
    case ReplyToMessage => ReplyToBinding
    case ApprovalPresentation => ApprovalBinding
    case ResultPresentation => ResultBinding
    case Repository => RepositoryReference
    case Issue => IssueReference
    case Project => ProjectBinding
    case Alias => AliasBinding
    case Conversation => UniqueConversationMatch
  }

  /** An active binding scoped to the turn's own conversation. */
  predicate Here(t: InboundTurn, b: Binding, now: Time) {
    && PerConversation(b.kind) && b.transport == t.transport && b.conversationRef == Some(t.conversationRef)
    && !b.revoked && !Lapsed(b, now)
  }

  ghost function HereIds(t: InboundTurn, bs: BindingMap, now: Time): set<Id> { set k | k in bs && Here(t, bs[k], now) }

  ghost function HereMissions(t: InboundTurn, bs: BindingMap, now: Time): set<Id> {
    set k | k in bs && Here(t, bs[k], now) :: bs[k].missionId
  }

  /** The named binding no other named one comes before. */
  ghost predicate FirstBy(t: InboundTurn, bs: BindingMap, k: Id) {
    && k in bs && NamedBy(t, bs[k])
    && forall j :: j in bs && NamedBy(t, bs[j]) && j != k ==> Order(bs[k].kind) < Order(bs[j].kind)
  }

  ghost predicate NoneNamed(t: InboundTurn, bs: BindingMap) { forall k :: k in bs ==> !NamedBy(t, bs[k]) }

  /** Missions other than m that active bindings named by the turn point to. */
  ghost function RivalMissions(t: InboundTurn, bs: BindingMap, now: Time, m: Id): set<Id> {
    set k | k in bs && NamedBy(t, bs[k]) && !Lapsed(bs[k], now) && bs[k].missionId != m :: bs[k].missionId
  }

  /** A binding an explicit Mission answers to: its own, and named by the turn or
      of the turn's whole conversation. */
  predicate InContext(t: InboundTurn, b: Binding, now: Time, m: Id) {
    b.missionId == m && (NamedBy(t, b) || (b.kind == Conversation && Here(t, b, now)))
  }

  ghost function ContextIds(t: InboundTurn, bs: BindingMap, now: Time, m: Id): set<Id> { set k | k in bs && InContext(t, bs[k], now, m) }

  // ---------------------------------------------------- the warranted decision

  predicate Clarified(d: Decision, reason: Reason, candidates: seq<Id>) {
    && d.outcome == ClarificationRequired && d.reason == reason && d.candidates == candidates
    && d.mission.None? && d.tier.None? && d.proposal.None?
  }

  predicate Unread(d: Decision) { d.observedRevision.None? && d.point.None? }

  predicate Bare(d: Decision) { Unread(d) && d.boundRevision.None? }

  predicate Proposed(d: Decision, t: InboundTurn) {
    && d.outcome == NewProposal && d.reason == NewProposalIntent && d.proposal == t.proposal
    && d.candidates == [] && d.mission.None? && d.tier.None? && Bare(d)
  }

  predicate ReadAt(d: Decision, o: Observation) {
    d.observedRevision == Some(o.currentRevision) && d.point.Some? && PointAt(d.point.value, o)
  }

  /** In which order consulted bindings stand: named ones by their tier, then the
      conversation's own by id. */
  predicate Sooner(t: InboundTurn, bs: BindingMap, j: Id, k: Id)
    requires j in bs && k in bs
  {
    if NamedBy(t, bs[j]) then NamedBy(t, bs[k]) ==> Order(bs[j].kind) < Order(bs[k].kind)
    else !NamedBy(t, bs[k]) && j < k
  }

  /** The first of these bindings. */
  ghost predicate FirstAmong(t: InboundTurn, bs: BindingMap, ids: set<Id>, k: Id)
    requires ids <= bs.Keys
  {
    k in ids && forall j :: j in ids && j != k ==> Sooner(t, bs, k, j)
  }

  /** The bound revision recorded is that of the first of these, or none of none. */
  ghost predicate BoundBy(t: InboundTurn, bs: BindingMap, ids: set<Id>, d: Decision)
    requires ids <= bs.Keys
  {
    if ids == {} then d.boundRevision.None?
    else exists k: Id :: FirstAmong(t, bs, ids, k) && d.boundRevision == Some(bs[k].boundRevision)
  }

  ghost function LapsedOf(bs: BindingMap, ids: set<Id>, now: Time): set<Id> { set k | k in ids && k in bs && Lapsed(bs[k], now) }

  ghost function Against(bs: BindingMap, ids: set<Id>, o: Observation): set<Id> { set k | k in ids && k in bs && !Agrees(bs[k], o) }

  /** The decision about Mission m against one look, with this context. */
  ghost predicate Looked(t: InboundTurn, bs: BindingMap, ids: set<Id>, m: Id, tier: Tier, looked: FreshnessResult, d: Decision)
    requires ids <= bs.Keys
  {
    if looked.freshness == Fresh && looked.observation.Some? then
      var o := looked.observation.value;
      && ReadAt(d, o)
      && (if Against(bs, ids, o) == {} then
            && d.outcome == ExistingMission && d.reason == ReasonResolved && d.mission == Some(m) && d.tier == Some(tier)
            && d.candidates == [m] && d.proposal.None? && d.boundRevision == (if ids == {} then None else Some(o.currentRevision))
          else Clarified(d, BindingStale, [m]) && BoundBy(t, bs, Against(bs, ids, o), d))
    else
      && Unread(d) && BoundBy(t, bs, ids, d)
      && Clarified(d, match looked.freshness
                      case Absent => (if ids == {} then MissionUnobserved else BindingStale)
                      case Stale => StaleReason
                      case Inconsistent => InconsistentReason
                      case _ => SourceUnavailableReason, [m])
  }

  /** An expired binding was consulted, and the first of them is recorded. */
  ghost predicate ExpiredAmong(t: InboundTurn, bs: BindingMap, ids: set<Id>, now: Time, m: Id, d: Decision)
    requires ids <= bs.Keys
  {
    Clarified(d, BindingExpired, [m]) && Unread(d) && LapsedOf(bs, ids, now) != {} && BoundBy(t, bs, LapsedOf(bs, ids, now), d)
  }

  /** The decision the bindings, the turn and the look warrant. */
  ghost predicate Warranted(t: InboundTurn, bs: BindingMap, looked: FreshnessResult, now: Time, d: Decision) {
    if t.explicitMission.Some? then WarrantedExplicitly(t, bs, looked, now, t.explicitMission.value, d)
    else if t.intent == NewMission then
      (if t.proposal.Some? then Proposed(d, t) else Clarified(d, NoContext, []) && Bare(d))
    else if !NoneNamed(t, bs) then
      exists k :: FirstBy(t, bs, k) && WarrantedByName(t, bs, looked, now, k, d)
    else WarrantedHere(t, bs, looked, now, d)
  }

  ghost predicate WarrantedExplicitly(t: InboundTurn, bs: BindingMap, looked: FreshnessResult, now: Time, m: Id, d: Decision) {
    if t.intent == NewMission then Clarified(d, ContextDisagrees, [m]) && Bare(d)
    else if RivalMissions(t, bs, now, m) != {} then
      Clarified(d, ContextDisagrees, Sorted({m} + RivalMissions(t, bs, now, m))) && Bare(d)
    else if LapsedOf(bs, ContextIds(t, bs, now, m), now) != {} then ExpiredAmong(t, bs, ContextIds(t, bs, now, m), now, m, d)
    else Looked(t, bs, ContextIds(t, bs, now, m), m, ExplicitMissionId, looked, d)
  }

  ghost predicate WarrantedByName(t: InboundTurn, bs: BindingMap, looked: FreshnessResult, now: Time, k: Id, d: Decision)
    requires k in bs
  {
    if Lapsed(bs[k], now) then ExpiredAmong(t, bs, {k}, now, bs[k].missionId, d)
    else Looked(t, bs, {k}, bs[k].missionId, TierOfKind(bs[k].kind), looked, d)
  }

  ghost predicate WarrantedHere(t: InboundTurn, bs: BindingMap, looked: FreshnessResult, now: Time, d: Decision) {
    var missions := HereMissions(t, bs, now);
    if missions == {} then
      (if t.proposal.Some? && t.intent != FollowUp then Proposed(d, t) else Clarified(d, NoContext, []) && Bare(d))
    else if |missions| == 1 then
      exists m :: missions == {m} && Looked(t, bs, HereIds(t, bs, now), m, UniqueConversationMatch, looked, d)
    else Clarified(d, AmbiguousCandidates, if |missions| > 16 then [] else Sorted(missions)) && Bare(d)
  }

  // ---------------------------------------------------------- connecting lemmas

  lemma StandsOnFields(b: Binding, o: Observation)
    requires ValidBinding(b)
    ensures StandsAt(b, o) <==> Agrees(b, o)
  {
    ValidSelector(b);
    if b.kind == Issue {
      var repository, number :| IssueOf(b.selector, repository, number);
      RepositoryOfIssue(b, repository, number);
      forall r, n | IssueOf(b.selector, r, n) ensures r == repository { RepositoryOfIssue(b, r, n); }
    }
  }

  lemma ExpiredOnFields(b: Binding, now: Time)
    ensures IsExpired(b, now) <==> Lapsed(b, now)
  {
  }

  lemma HereOnFields(t: InboundTurn, b: Binding, now: Time)
    ensures InConversation(b, t.transport, t.conversationRef, now) <==> Here(t, b, now)
  {
    KindsOnFields(b.kind, b.selector);
  }

  lemma TierOfKindIs(tier: Tier)
    requires 1 <= TierRank(tier) <= 7
    ensures TierOfKind(KindFor(tier)) == tier && Order(KindFor(tier)) == TierRank(tier)
  {
  }

  lemma HoldsOnFields(t: InboundTurn, b: Binding, n: NamedTier)
    requires n in NamedTiers(t)
    ensures Holds(b, Wanted(t, n)) <==> NamedBy(t, b) && b.kind == n.kind
    ensures TierOfKind(n.kind) == n.tier && Order(n.kind) == TierRank(n.tier)
  {
    NamedTiersExactly(t);
    TierOfKindIs(n.tier);
    KindsOnFields(n.kind, n.selector);
  }

  lemma NamedHasTier(t: InboundTurn, b: Binding)
    requires NamedBy(t, b)
    ensures NamedTier(TierOfKind(b.kind), b.kind, b.selector) in NamedTiers(t)
  {
    NamedTiersExactly(t);
    SelectorOfNamed(t, b);
  }

  lemma SelectorOfNamed(t: InboundTurn, b: Binding)
    requires NamedBy(t, b)
    ensures SelectorFor(t, TierOfKind(b.kind)) == Some(b.selector) && KindFor(TierOfKind(b.kind)) == b.kind && TierRank(TierOfKind(b.kind)) <= 7
  {
  }

  lemma NamedIsNames(t: InboundTurn, b: Binding)
    requires NamedBy(t, b)
    ensures Names(t, NamedTiers(t), b)
  {
    var n := NamedTier(TierOfKind(b.kind), b.kind, b.selector);
    NamedHasTier(t, b);
    HoldsOnFields(t, b, n);
  }

  lemma NamesIsNamed(t: InboundTurn, b: Binding)
    requires Names(t, NamedTiers(t), b)
    ensures NamedBy(t, b)
  {
    var n :| n in NamedTiers(t) && Holds(b, Wanted(t, n));
    HoldsOnFields(t, b, n);
  }

  lemma NamesOnFields(t: InboundTurn, b: Binding)
    ensures Names(t, NamedTiers(t), b) <==> NamedBy(t, b)
  {
    if NamedBy(t, b) { NamedIsNames(t, b); }
    if Names(t, NamedTiers(t), b) { NamesIsNamed(t, b); }
  }

  // ------------------------------------------------------------- one look

  /** These consulted bindings are recorded, exactly these, and in their order. */
  ghost predicate Consults(t: InboundTurn, bs: BindingMap, consulted: seq<Binding>, ids: set<Id>) {
    && ids <= bs.Keys
    && (forall b :: b in consulted ==> b.bindingId in ids && bs[b.bindingId] == b)
    && (forall k :: k in ids ==> bs[k] in consulted)
    && InTurn(t, bs, consulted)
  }

  ghost predicate InTurn(t: InboundTurn, bs: BindingMap, consulted: seq<Binding>) {
    && (forall b :: b in consulted ==> b.bindingId in bs)
    && (forall i, j :: 0 <= i < j < |consulted| ==> Sooner(t, bs, consulted[i].bindingId, consulted[j].bindingId))
  }

  lemma AllAgree(t: InboundTurn, bs: BindingMap, consulted: seq<Binding>, ids: set<Id>, o: Observation)
    requires CoherentBindings(bs) && Consults(t, bs, consulted, ids)
    ensures forall b :: b in consulted ==> (StandsAt(b, o) <==> b.bindingId !in Against(bs, ids, o))
  {
    forall b | b in consulted ensures StandsAt(b, o) <==> Agrees(b, o) {
      assert ValidBinding(bs[b.bindingId]);
      StandsOnFields(b, o);
    }
  }

  /** The first consulted binding of a part comes before all others of it. */
  lemma FirstOfPart(t: InboundTurn, bs: BindingMap, consulted: seq<Binding>, ids: set<Id>, part: set<Id>, i: nat)
    requires CoherentBindings(bs) && Consults(t, bs, consulted, ids) && part <= ids
    requires i < |consulted| && consulted[i].bindingId in part
    requires forall j :: 0 <= j < i ==> consulted[j].bindingId !in part
    ensures FirstAmong(t, bs, part, consulted[i].bindingId)
  {
    forall k | k in part && k != consulted[i].bindingId ensures Sooner(t, bs, consulted[i].bindingId, k) {
      assert bs[k] in consulted && bs[k].bindingId == k;
      var j :| 0 <= j < |consulted| && consulted[j] == bs[k];
      assert i < j;
    }
  }

  lemma {:induction false} OffendingAt(consulted: seq<Binding>, o: Observation) returns (i: nat)
    requires Offending(consulted, o).Some?
    ensures i < |consulted| && Offending(consulted, o) == Some(consulted[i]) && !StandsAt(consulted[i], o)
    ensures forall j :: 0 <= j < i ==> StandsAt(consulted[j], o)
  {
    if !StandsAt(consulted[0], o) {
      i := 0;
    } else {
      i := OffendingAt(consulted[1..], o);
      i := i + 1;
    }
  }

  lemma {:induction false} ExpiredAt(consulted: seq<Binding>, now: Time) returns (i: nat)
    requires FirstExpired(consulted, now).Some?
    ensures i < |consulted| && FirstExpired(consulted, now) == Some(consulted[i]) && IsExpired(consulted[i], now)
    ensures forall j :: 0 <= j < i ==> !IsExpired(consulted[j], now)
  {
    if IsExpired(consulted[0], now) {
      i := 0;
    } else {
      i := ExpiredAt(consulted[1..], now);
      i := i + 1;
    }
  }

  lemma ConsultsNone(t: InboundTurn, bs: BindingMap, consulted: seq<Binding>, ids: set<Id>)
    requires CoherentBindings(bs) && Consults(t, bs, consulted, ids)
    ensures consulted == [] <==> ids == {}
    ensures consulted != [] ==> FirstAmong(t, bs, ids, consulted[0].bindingId) && bs[consulted[0].bindingId] == consulted[0]
  {
    if consulted != [] {
      assert consulted[0] in consulted;
      FirstOfPart(t, bs, consulted, ids, ids, 0);
    }
    if ids != {} { var k :| k in ids; assert bs[k] in consulted; }
  }

  lemma ResolveOnFields(t: InboundTurn, bs: BindingMap, consulted: seq<Binding>, ids: set<Id>, m: Id, tier: Tier, looked: FreshnessResult)
    requires CoherentBindings(bs) && Consults(t, bs, consulted, ids)
    ensures Looked(t, bs, ids, m, tier, looked, Resolve(m, tier, consulted, looked))
  {
    ConsultsNone(t, bs, consulted, ids);
    if looked.freshness == Fresh && looked.observation.Some? {
      ResolveFreshOnFields(t, bs, consulted, ids, m, tier, looked);
    }
  }

  lemma ResolveFreshOnFields(t: InboundTurn, bs: BindingMap, consulted: seq<Binding>, ids: set<Id>, m: Id, tier: Tier, looked: FreshnessResult)
    requires CoherentBindings(bs) && Consults(t, bs, consulted, ids) && looked.freshness == Fresh && looked.observation.Some?
    ensures Looked(t, bs, ids, m, tier, looked, Resolve(m, tier, consulted, looked))
  {
    var o := looked.observation.value;
    AllAgree(t, bs, consulted, ids, o);
    var bad := Offending(consulted, o);
    if bad.Some? {
      var i := OffendingAt(consulted, o);
      FirstOfPart(t, bs, consulted, ids, Against(bs, ids, o), i);
    } else {
      NoneAgainst(t, bs, consulted, ids, o);
      ConsultsNone(t, bs, consulted, ids);
      assert consulted != [] ==> StandsAt(consulted[0], o);
    }
  }

  lemma NoneAgainst(t: InboundTurn, bs: BindingMap, consulted: seq<Binding>, ids: set<Id>, o: Observation)
    requires CoherentBindings(bs) && Consults(t, bs, consulted, ids) && forall b :: b in consulted ==> b.bindingId !in Against(bs, ids, o)
    ensures Against(bs, ids, o) == {}
  {
    forall k | k in ids ensures k !in Against(bs, ids, o) { assert bs[k] in consulted && bs[k].bindingId == k; }
  }

  lemma LapsedConsulted(t: InboundTurn, bs: BindingMap, consulted: seq<Binding>, ids: set<Id>, now: Time)
    requires CoherentBindings(bs) && Consults(t, bs, consulted, ids)
    ensures var expired := FirstExpired(consulted, now);
            if expired.Some? then
              && expired.value.bindingId in bs && bs[expired.value.bindingId] == expired.value
              && FirstAmong(t, bs, LapsedOf(bs, ids, now), expired.value.bindingId)
            else LapsedOf(bs, ids, now) == {}
  {
    if FirstExpired(consulted, now).Some? {
      var i := ExpiredAt(consulted, now);
      forall j | 0 <= j < |consulted| ensures consulted[j].bindingId in LapsedOf(bs, ids, now) <==> IsExpired(consulted[j], now) {
        assert consulted[j] in consulted;
        ExpiredOnFields(consulted[j], now);
      }
      FirstOfPart(t, bs, consulted, ids, LapsedOf(bs, ids, now), i);
    } else {
      forall k | k in ids ensures k !in LapsedOf(bs, ids, now) { assert bs[k] in consulted; }
    }
  }

  // ------------------------------------------------------------- explicit id

  lemma ApplicableConsults(t: InboundTurn, bs: BindingMap, now: Time, m: Id)
    requires CoherentBindings(bs)
    ensures Consults(t, bs, Applicable(t, HitsAmong(t, NamedTiers(t), bs), bs, m, now), ContextIds(t, bs, now, m))
  {
    var consulted := Applicable(t, HitsAmong(t, NamedTiers(t), bs), bs, m, now);
    forall b ensures b in consulted <==> Recorded(bs, b) && InContext(t, b, now, m) { InContextExactly(t, bs, now, m, b); }
    ApplicableInTurn(t, bs, now, m);
    RecordedConsult(t, bs, consulted, ContextIds(t, bs, now, m), (b: Binding) => InContext(t, b, now, m));
  }

  lemma InContextExactly(t: InboundTurn, bs: BindingMap, now: Time, m: Id, b: Binding)
    requires CoherentBindings(bs)
    ensures b in Applicable(t, HitsAmong(t, NamedTiers(t), bs), bs, m, now) <==> Recorded(bs, b) && InContext(t, b, now, m)
  {
    ApplicableExactly(t, NamedTiers(t), bs, m, now, b);
    NamesOnFields(t, b);
    HereOnFields(t, b, now);
  }

  /** The recorded bindings that pass a test, consulted in turn. */
  lemma RecordedConsult(t: InboundTurn, bs: BindingMap, consulted: seq<Binding>, ids: set<Id>, passes: Binding -> bool)
    requires forall k :: k in bs ==> bs[k].bindingId == k
    requires forall b :: b in consulted <==> Recorded(bs, b) && passes(b)
    requires forall k :: k in ids <==> k in bs && passes(bs[k])
    requires InTurn(t, bs, consulted)
    ensures Consults(t, bs, consulted, ids)
  {
    forall k | k in ids ensures bs[k] in consulted { assert Recorded(bs, bs[k]); }
  }

  /** Hits stand in the order of their tiers, one a tier. */
  ghost predicate HitsInOrder(hits: seq<Hit>) {
    forall i, j :: 0 <= i < j < |hits| ==> Order(hits[i].binding.kind) < Order(hits[j].binding.kind)
  }

  lemma HitOfTiers(t: InboundTurn, tiers: seq<NamedTier>, bs: BindingMap, h: Hit)
    requires CoherentBindings(bs) && h in HitsAmong(t, tiers, bs) && forall n :: n in tiers ==> n in NamedTiers(t)
    ensures exists n :: n in tiers && Order(h.binding.kind) == TierRank(n.tier)
  {
    HitIsRecorded(t, tiers, bs, h);
    var n :| n in tiers && n.tier == h.tier && Holds(h.binding, Wanted(t, n));
    HoldsOnFields(t, h.binding, n);
  }

  lemma HitIsLater(t: InboundTurn, tiers: seq<NamedTier>, bs: BindingMap, h: Hit)
    requires CoherentBindings(bs) && tiers != [] && Ranked(tiers) && h in HitsAmong(t, tiers[1..], bs)
    requires forall n :: n in tiers ==> n in NamedTiers(t)
    ensures Order(h.binding.kind) > TierRank(tiers[0].tier)
  {
    HitOfTiers(t, tiers[1..], bs, h);
    var n :| n in tiers[1..] && Order(h.binding.kind) == TierRank(n.tier);
    var i :| 0 <= i < |tiers[1..]| && tiers[1..][i] == n;
    assert tiers[i + 1] == n;
  }

  lemma {:induction false} HitsStandInOrder(t: InboundTurn, tiers: seq<NamedTier>, bs: BindingMap)
    requires CoherentBindings(bs) && Ranked(tiers) && forall n :: n in tiers ==> n in NamedTiers(t)
    ensures HitsInOrder(HitsAmong(t, tiers, bs))
  {
    if tiers != [] {
      var found, rest := Find(bs, Wanted(t, tiers[0])), HitsAmong(t, tiers[1..], bs);
      var first := HitsOf(tiers[0].tier, found);
      HitsStandInOrder(t, tiers[1..], bs);
      FindAmongIsSingular(bs, Sorted(bs.Keys), Wanted(t, tiers[0]));
      forall h | h in rest ensures Order(h.binding.kind) > TierRank(tiers[0].tier) { HitIsLater(t, tiers, bs, h); }
      forall h | h in first ensures Order(h.binding.kind) == TierRank(tiers[0].tier) {
        assert h.binding in found;
        FindIsRecorded(bs, Wanted(t, tiers[0]), h.binding);
        HoldsOnFields(t, h.binding, tiers[0]);
      }
      JoinInOrder(first, rest, TierRank(tiers[0].tier));
    }
  }

  lemma JoinInOrder(first: seq<Hit>, rest: seq<Hit>, rank: nat)
    requires |first| <= 1 && HitsInOrder(rest)
    requires forall h :: h in first ==> Order(h.binding.kind) == rank
    requires forall h :: h in rest ==> Order(h.binding.kind) > rank
    ensures HitsInOrder(first + rest)
  {
    var hits := first + rest;
    forall i, j | 0 <= i < j < |hits| ensures Order(hits[i].binding.kind) < Order(hits[j].binding.kind) {
      assert hits[j] == rest[j - |first|] && hits[j] in rest;
      if i < |first| { assert hits[i] in first; } else { assert hits[i] == rest[i - |first|]; }
    }
  }

  lemma {:induction false} MatchingInOrder(hits: seq<Hit>, m: Id)
    requires HitsInOrder(hits)
    ensures forall i, j :: 0 <= i < j < |Matching(hits, m)| ==> Order(Matching(hits, m)[i].kind) < Order(Matching(hits, m)[j].kind)
  {
    if hits != [] {
      var rest := Matching(hits[1..], m);
      MatchingInOrder(hits[1..], m);
      forall b | b in rest ensures Order(hits[0].binding.kind) < Order(b.kind) {
        MatchingExactly(hits[1..], m, b);
        var h :| h in hits[1..] && h.binding == b;
        var i :| 0 <= i < |hits[1..]| && hits[1..][i] == h;
        assert hits[i + 1] == h;
      }
      assert forall i :: 0 <= i < |rest| ==> rest[i] in rest;
    }
  }

  /** By ascending id. */
  ghost predicate ById(bs: seq<Binding>) { forall i, j :: 0 <= i < j < |bs| ==> bs[i].bindingId < bs[j].bindingId }

  lemma {:induction false} ConversationById(bs: BindingMap, keys: seq<Id>, transport: string, conversationRef: string, now: Time)
    requires (forall k :: k in keys ==> k in bs && bs[k].bindingId == k) && Ascending(keys)
    ensures ById(ConversationAmong(bs, keys, transport, conversationRef, now))
    ensures forall b :: b in ConversationAmong(bs, keys, transport, conversationRef, now) ==> b.bindingId in keys
  {
    if keys != [] {
      var rest := ConversationAmong(bs, keys[1..], transport, conversationRef, now);
      ConversationById(bs, keys[1..], transport, conversationRef, now);
      forall b | b in rest ensures keys[0] < b.bindingId {
        var i :| 0 <= i < |keys[1..]| && keys[1..][i] == b.bindingId;
        assert keys[i + 1] == b.bindingId;
      }
      assert forall i :: 0 <= i < |rest| ==> rest[i] in rest;
      assert keys[0] in keys;
    }
  }

  lemma {:induction false} WholeById(bs: seq<Binding>, m: Id, named: set<Id>)
    requires ById(bs)
    ensures ById(WholeConversation(bs, m, named))
  {
    if bs != [] {
      var rest := WholeConversation(bs[1..], m, named);
      WholeById(bs[1..], m, named);
      forall b | b in rest ensures bs[0].bindingId < b.bindingId {
        WholeConversationExactly(bs[1..], m, named, b);
        var i :| 0 <= i < |bs[1..]| && bs[1..][i] == b;
        assert bs[i + 1] == b;
      }
      assert forall i :: 0 <= i < |rest| ==> rest[i] in rest;
    }
  }

  lemma ConversationStandsById(t: InboundTurn, bs: BindingMap, now: Time)
    requires CoherentBindings(bs)
    ensures ById(ConversationBindings(bs, t.transport, t.conversationRef, now))
  {
    ConversationById(bs, Sorted(bs.Keys), t.transport, t.conversationRef, now);
  }

  /** Recorded bindings the turn names, in the order of their tiers. */
  ghost predicate NamedByTier(t: InboundTurn, bs: BindingMap, named: seq<Binding>) {
    && (forall b :: b in named ==> Recorded(bs, b) && NamedBy(t, b))
    && (forall i, j :: 0 <= i < j < |named| ==> Order(named[i].kind) < Order(named[j].kind))
  }

  /** Recorded bindings it does not name, by id. */
  ghost predicate UnnamedById(t: InboundTurn, bs: BindingMap, others: seq<Binding>) {
    ById(others) && forall b :: b in others ==> Recorded(bs, b) && !NamedBy(t, b)
  }

  /** Named bindings by tier, then others by id, stand in turn. */
  lemma JoinInTurn(t: InboundTurn, bs: BindingMap, named: seq<Binding>, others: seq<Binding>)
    requires NamedByTier(t, bs, named) && UnnamedById(t, bs, others)
    ensures InTurn(t, bs, named + others)
  {
    var all := named + others;
    forall i | 0 <= i < |all| ensures Recorded(bs, all[i]) {
      if i < |named| { assert all[i] == named[i] && named[i] in named; }
      else { assert all[i] == others[i - |named|] && others[i - |named|] in others; }
    }
    forall i, j | 0 <= i < j < |all| ensures Sooner(t, bs, all[i].bindingId, all[j].bindingId) {
      if j < |named| {
        assert all[i] == named[i] && named[i] in named && all[j] == named[j] && named[j] in named;
      } else if i < |named| {
        assert all[i] == named[i] && named[i] in named && all[j] == others[j - |named|] && others[j - |named|] in others;
      } else {
        assert all[i] == others[i - |named|] && others[i - |named|] in others && all[j] == others[j - |named|] && others[j - |named|] in others;
      }
    }
  }

  lemma MatchingStands(t: InboundTurn, bs: BindingMap, m: Id)
    requires CoherentBindings(bs)
    ensures NamedByTier(t, bs, Matching(HitsAmong(t, NamedTiers(t), bs), m))
  {
    NamedTiersExactly(t);
    HitsStandInOrder(t, NamedTiers(t), bs);
    MatchingInOrder(HitsAmong(t, NamedTiers(t), bs), m);
    MatchingIsNamed(t, bs, m);
  }

  lemma WholeStands(t: InboundTurn, bs: BindingMap, now: Time, m: Id)
    requires CoherentBindings(bs)
    ensures UnnamedById(t, bs, WholeConversation(ConversationBindings(bs, t.transport, t.conversationRef, now), m,
                                                 set b | b in Matching(HitsAmong(t, NamedTiers(t), bs), m) :: b.bindingId))
  {
    ConversationStandsById(t, bs, now);
    WholeById(ConversationBindings(bs, t.transport, t.conversationRef, now), m,
              set b | b in Matching(HitsAmong(t, NamedTiers(t), bs), m) :: b.bindingId);
    WholeIsUnnamed(t, bs, now, m);
  }

  lemma ApplicableInTurn(t: InboundTurn, bs: BindingMap, now: Time, m: Id)
    requires CoherentBindings(bs)
    ensures InTurn(t, bs, Applicable(t, HitsAmong(t, NamedTiers(t), bs), bs, m, now))
  {
    MatchingStands(t, bs, m);
    WholeStands(t, bs, now, m);
    JoinInTurn(t, bs, Matching(HitsAmong(t, NamedTiers(t), bs), m),
               WholeConversation(ConversationBindings(bs, t.transport, t.conversationRef, now), m,
                                 set b | b in Matching(HitsAmong(t, NamedTiers(t), bs), m) :: b.bindingId));
  }

  lemma MatchingIsNamed(t: InboundTurn, bs: BindingMap, m: Id)
    requires CoherentBindings(bs)
    ensures forall b :: b in Matching(HitsAmong(t, NamedTiers(t), bs), m) <==> Recorded(bs, b) && NamedBy(t, b) && b.missionId == m
  {
    var hits := HitsAmong(t, NamedTiers(t), bs);
    forall b ensures b in Matching(hits, m) <==> Recorded(bs, b) && NamedBy(t, b) && b.missionId == m {
      MatchingExactly(hits, m, b);
      HitIsNamed(t, NamedTiers(t), bs, b);
      NamesOnFields(t, b);
    }
  }

  lemma WholeIsUnnamed(t: InboundTurn, bs: BindingMap, now: Time, m: Id)
    requires CoherentBindings(bs)
    ensures var matching := Matching(HitsAmong(t, NamedTiers(t), bs), m);
            forall b :: b in WholeConversation(ConversationBindings(bs, t.transport, t.conversationRef, now), m, set c | c in matching :: c.bindingId)
              ==> Recorded(bs, b) && !NamedBy(t, b)
  {
    var matching := Matching(HitsAmong(t, NamedTiers(t), bs), m);
    var named := set c | c in matching :: c.bindingId;
    var members := ConversationBindings(bs, t.transport, t.conversationRef, now);
    MatchingIsNamed(t, bs, m);
    forall b | b in WholeConversation(members, m, named) ensures Recorded(bs, b) && !NamedBy(t, b) {
      WholeConversationExactly(members, m, named, b);
      ConversationIsRecorded(bs, t.transport, t.conversationRef, now, b);
    }
  }

  lemma RivalsOnFields(t: InboundTurn, bs: BindingMap, now: Time, m: Id)
    requires CoherentBindings(bs)
    ensures ActiveOthers(HitsAmong(t, NamedTiers(t), bs), m, now) == RivalMissions(t, bs, now, m)
  {
    var hits := HitsAmong(t, NamedTiers(t), bs);
    forall x | x in ActiveOthers(hits, m, now) ensures x in RivalMissions(t, bs, now, m) {
      var h :| h in hits && IsActive(h.binding, now) && h.binding.missionId != m && h.binding.missionId == x;
      HitIsNamed(t, NamedTiers(t), bs, h.binding);
      NamesOnFields(t, h.binding);
      ExpiredOnFields(h.binding, now);
      assert h.binding.bindingId in bs;
    }
    forall x | x in RivalMissions(t, bs, now, m) ensures x in ActiveOthers(hits, m, now) {
      var k :| k in bs && NamedBy(t, bs[k]) && !Lapsed(bs[k], now) && bs[k].missionId != m && bs[k].missionId == x;
      NamesOnFields(t, bs[k]);
      ExpiredOnFields(bs[k], now);
      HitIsNamed(t, NamedTiers(t), bs, bs[k]);
      var h :| h in hits && h.binding == bs[k];
      assert IsActive(h.binding, now);
    }
  }

  lemma ExplicitOnFields(t: InboundTurn, bs: BindingMap, looked: FreshnessResult, now: Time, m: Id)
    requires CoherentBindings(bs)
    ensures WarrantedExplicitly(t, bs, looked, now, m, ExplicitOutcome(t, HitsAmong(t, NamedTiers(t), bs), bs, (x: Id) => looked, now, m))
  {
    var consulted := Applicable(t, HitsAmong(t, NamedTiers(t), bs), bs, m, now);
    RivalsOnFields(t, bs, now, m);
    ApplicableConsults(t, bs, now, m);
    ExplicitViaOnFields(t, bs, consulted, looked, now, m);
  }

  lemma ExplicitViaOnFields(t: InboundTurn, bs: BindingMap, consulted: seq<Binding>, looked: FreshnessResult, now: Time, m: Id)
    requires CoherentBindings(bs) && Consults(t, bs, consulted, ContextIds(t, bs, now, m))
    ensures WarrantedExplicitly(t, bs, looked, now, m, ExplicitVia(t, RivalMissions(t, bs, now, m), consulted, looked, now, m))
  {
    var ids := ContextIds(t, bs, now, m);
    ResolveOnFields(t, bs, consulted, ids, m, ExplicitMissionId, looked);
    LapsedConsulted(t, bs, consulted, ids, now);
    SortedOne(m);
  }

  lemma SortedOne(m: Id)
    ensures Sorted({m}) == [m]
  {
    var keys := Sorted({m});
    assert keys[0] in keys;
  }

  // ------------------------------------------------------------ named tiers

  lemma NoneNamedExactly(t: InboundTurn, bs: BindingMap)
    requires CoherentBindings(bs)
    ensures HitsAmong(t, NamedTiers(t), bs) == [] <==> NoneNamed(t, bs)
  {
    var hits := HitsAmong(t, NamedTiers(t), bs);
    if hits != [] {
      HitIsNamed(t, NamedTiers(t), bs, hits[0].binding);
      NamesOnFields(t, hits[0].binding);
    }
    forall k | k in bs && NamedBy(t, bs[k]) ensures hits != [] {
      NamesOnFields(t, bs[k]);
      HitIsNamed(t, NamedTiers(t), bs, bs[k]);
    }
  }

  /** A binding named by a tier comes before those named by later ones. */
  lemma NamedLater(t: InboundTurn, bs: BindingMap, i: nat, k: Id, j: Id)
    requires CoherentBindings(bs) && FirstNamed(t, NamedTiers(t), bs, i, k)
    requires j in bs && NamedBy(t, bs[j]) && j != k
    ensures Order(bs[k].kind) < Order(bs[j].kind)
  {
    var tiers := NamedTiers(t);
    var n := NamedTier(TierOfKind(bs[j].kind), bs[j].kind, bs[j].selector);
    NamedHasTier(t, bs[j]);
    HoldsOnFields(t, bs[j], n);
    HoldsOnFields(t, bs[k], tiers[i]);
    var p :| 0 <= p < |tiers| && tiers[p] == n;
    assert p < i ==> Silent(t, tiers[p], bs);
    assert Clash(bs[j], bs[k]) ==> j == k;
    NamedTiersExactly(t);
  }

  lemma FirstNamedIsFirst(t: InboundTurn, bs: BindingMap, i: nat, k: Id)
    requires CoherentBindings(bs) && FirstNamed(t, NamedTiers(t), bs, i, k)
    ensures FirstBy(t, bs, k) && NamedTiers(t)[i].tier == TierOfKind(bs[k].kind)
  {
    HoldsOnFields(t, bs[k], NamedTiers(t)[i]);
    forall j | j in bs && NamedBy(t, bs[j]) && j != k ensures Order(bs[k].kind) < Order(bs[j].kind) {
      NamedLater(t, bs, i, k, j);
    }
  }

  /** What the first hit is: the first binding some tier finds, and its tier. */
  lemma FirstHitIs(t: InboundTurn, bs: BindingMap) returns (i: nat)
    requires CoherentBindings(bs) && HitsAmong(t, NamedTiers(t), bs) != []
    ensures var h := HitsAmong(t, NamedTiers(t), bs)[0];
            Recorded(bs, h.binding) && FirstNamed(t, NamedTiers(t), bs, i, h.binding.bindingId) && NamedTiers(t)[i].tier == h.tier
  {
    i := FirstIndex(t, NamedTiers(t), bs);
    FirstHit(t, NamedTiers(t), bs);
    AllSilent(t, NamedTiers(t), bs);
    FirstIsNamed(t, NamedTiers(t), bs);
  }

  lemma FirstHitIsFirst(t: InboundTurn, bs: BindingMap)
    requires CoherentBindings(bs) && HitsAmong(t, NamedTiers(t), bs) != []
    ensures var h := HitsAmong(t, NamedTiers(t), bs)[0];
            FirstBy(t, bs, h.binding.bindingId) && bs[h.binding.bindingId] == h.binding && h.tier == TierOfKind(h.binding.kind)
  {
    var i := FirstHitIs(t, bs);
    FirstNamedIsFirst(t, bs, i, HitsAmong(t, NamedTiers(t), bs)[0].binding.bindingId);
  }

  lemma TierOnFields(t: InboundTurn, bs: BindingMap, h: Hit, look: Id -> FreshnessResult, now: Time)
    requires CoherentBindings(bs) && h.binding.bindingId in bs && bs[h.binding.bindingId] == h.binding
    requires h.tier == TierOfKind(h.binding.kind)
    ensures WarrantedByName(t, bs, look(h.binding.missionId), now, h.binding.bindingId, TierOutcome(h, look, now))
  {
    var k, m := h.binding.bindingId, h.binding.missionId;
    assert Consults(t, bs, [h.binding], {k});
    ResolveOnFields(t, bs, [h.binding], {k}, m, h.tier, look(m));
    SortedOne(m);
    if Lapsed(h.binding, now) { assert LapsedOf(bs, {k}, now) == {k} && FirstAmong(t, bs, {k}, k); }
  }

  // ------------------------------------------------------- the conversation

  lemma MembersConsult(t: InboundTurn, bs: BindingMap, now: Time)
    requires CoherentBindings(bs) && NoneNamed(t, bs)
    ensures var members := ConversationBindings(bs, t.transport, t.conversationRef, now);
            Consults(t, bs, members, HereIds(t, bs, now)) && MissionsOf(members) == HereMissions(t, bs, now)
  {
    var members := ConversationBindings(bs, t.transport, t.conversationRef, now);
    forall b ensures b in members <==> Recorded(bs, b) && Here(t, b, now) { MemberExactly(t, bs, now, b); }
    MembersInTurn(t, bs, now, members);
    RecordedConsult(t, bs, members, HereIds(t, bs, now), (b: Binding) => Here(t, b, now));
    MembersMissions(t, bs, now, members);
  }

  lemma MemberExactly(t: InboundTurn, bs: BindingMap, now: Time, b: Binding)
    requires CoherentBindings(bs)
    ensures b in ConversationBindings(bs, t.transport, t.conversationRef, now) <==> Recorded(bs, b) && Here(t, b, now)
  {
    ConversationIsRecorded(bs, t.transport, t.conversationRef, now, b);
    HereOnFields(t, b, now);
  }

  lemma MembersInTurn(t: InboundTurn, bs: BindingMap, now: Time, members: seq<Binding>)
    requires CoherentBindings(bs) && NoneNamed(t, bs) && members == ConversationBindings(bs, t.transport, t.conversationRef, now)
    requires forall b :: b in members ==> Recorded(bs, b)
    ensures InTurn(t, bs, members)
  {
    ConversationStandsById(t, bs, now);
    ByIdInTurn(t, bs, members);
  }

  lemma ByIdInTurn(t: InboundTurn, bs: BindingMap, members: seq<Binding>)
    requires NoneNamed(t, bs) && ById(members) && forall b :: b in members ==> Recorded(bs, b)
    ensures InTurn(t, bs, members)
  {
    forall i | 0 <= i < |members| ensures Recorded(bs, members[i]) { assert members[i] in members; }
    forall i, j | 0 <= i < j < |members| ensures Sooner(t, bs, members[i].bindingId, members[j].bindingId) {
      OnePairInTurn(t, bs, members[i], members[j]);
    }
  }

  lemma OnePairInTurn(t: InboundTurn, bs: BindingMap, a: Binding, b: Binding)
    requires NoneNamed(t, bs) && Recorded(bs, a) && Recorded(bs, b) && a.bindingId < b.bindingId
    ensures Sooner(t, bs, a.bindingId, b.bindingId)
  {
  }

  lemma MembersMissions(t: InboundTurn, bs: BindingMap, now: Time, members: seq<Binding>)
    requires Consults(t, bs, members, HereIds(t, bs, now))
    ensures MissionsOf(members) == HereMissions(t, bs, now)
  {
    forall m | m in MissionsOf(members) ensures m in HereMissions(t, bs, now) {
      var b :| b in members && b.missionId == m;
      assert b.bindingId in HereIds(t, bs, now);
    }
    forall m | m in HereMissions(t, bs, now) ensures m in MissionsOf(members) {
      var k :| k in bs && Here(t, bs[k], now) && bs[k].missionId == m;
      assert k in HereIds(t, bs, now) && bs[k] in members;
    }
  }

  lemma {:induction false} NamingAll(members: seq<Binding>, m: Id)
    requires forall b :: b in members ==> b.missionId == m
    ensures NamingMission(members, m) == members
  {
    if members != [] {
      assert members[0] in members && forall b :: b in members[1..] ==> b in members;
      NamingAll(members[1..], m);
    }
  }

  lemma OneHere(t: InboundTurn, bs: BindingMap, members: seq<Binding>, ids: set<Id>, looked: FreshnessResult)
    requires CoherentBindings(bs) && Consults(t, bs, members, ids) && |MissionsOf(members)| == 1
    ensures exists m :: MissionsOf(members) == {m}
              && Looked(t, bs, ids, m, UniqueConversationMatch, looked, ConversationOutcome(t, members, (x: Id) => looked))
  {
    SingletonSorted(MissionsOf(members));
    var m := Sorted(MissionsOf(members))[0];
    forall b | b in members ensures b.missionId == m { assert b.missionId in MissionsOf(members); }
    NamingAll(members, m);
    ResolveOnFields(t, bs, members, ids, m, UniqueConversationMatch, looked);
    assert MissionsOf(members) == {m};
  }

  lemma SortedNone()
    ensures Sorted({}) == []
  {
    assert forall k :: k !in Sorted({});
  }

  lemma HereIsWarranted(t: InboundTurn, bs: BindingMap, looked: FreshnessResult, now: Time)
    requires CoherentBindings(bs) && NoneNamed(t, bs)
    ensures WarrantedHere(t, bs, looked, now,
              ConversationOutcome(t, ConversationBindings(bs, t.transport, t.conversationRef, now), (x: Id) => looked))
  {
    MembersConsult(t, bs, now);
    HereVia(t, bs, ConversationBindings(bs, t.transport, t.conversationRef, now), looked, now);
  }

  lemma HereVia(t: InboundTurn, bs: BindingMap, members: seq<Binding>, looked: FreshnessResult, now: Time)
    requires CoherentBindings(bs) && Consults(t, bs, members, HereIds(t, bs, now)) && MissionsOf(members) == HereMissions(t, bs, now)
    ensures WarrantedHere(t, bs, looked, now, ConversationOutcome(t, members, (x: Id) => looked))
  {
    if |MissionsOf(members)| == 1 {
      OneHere(t, bs, members, HereIds(t, bs, now), looked);
    } else {
      NoneOrMany(t, members, looked);
    }
  }

  lemma NoneOrMany(t: InboundTurn, members: seq<Binding>, looked: FreshnessResult)
    requires |MissionsOf(members)| != 1
    ensures var d, missions := ConversationOutcome(t, members, (x: Id) => looked), MissionsOf(members);
            if missions == {} then
              if t.proposal.Some? && t.intent != FollowUp then Proposed(d, t) else Clarified(d, NoContext, []) && Bare(d)
            else Clarified(d, AmbiguousCandidates, if |missions| > 16 then [] else Sorted(missions)) && Bare(d)
  {
    SortedNone();
  }

  // ------------------------------------------------------------ every decision

  /** The decision derived is the one the recorded bindings, the turn and the
      look warrant, whatever they are. */
  lemma DerivedIsWarranted(t: InboundTurn, bs: BindingMap, looked: FreshnessResult, now: Time)
    requires CoherentBindings(bs)
    ensures Warranted(t, bs, looked, now, Derive(t, NamedTiers(t), bs, looked, now))
  {
    var hits := HitsAmong(t, NamedTiers(t), bs);
    SortedNone();
    NoneNamedExactly(t, bs);
    if t.explicitMission.Some? {
      ExplicitOnFields(t, bs, looked, now, t.explicitMission.value);
    } else if t.intent != NewMission {
      if hits != [] {
        FirstHitIsFirst(t, bs);
        TierOnFields(t, bs, hits[0], (x: Id) => looked, now);
      } else {
        HereIsWarranted(t, bs, looked, now);
      }
    }
  }
}
