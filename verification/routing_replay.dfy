/** The inbound-turn ledger: replay, the loader's rules over route decisions,
    and the one lookup a derivation makes (coordination/routing.py:592-641). */
module Replays {
  import opened Record
  import opened Observations
  import opened Sorting
  import opened Bindings
  import opened Routing
  import opened RoutingLaws

  type RouteMap = map<Id, Route>

  // ------------------------------------------------------------------- replay

  function FindReplayAmong(routes: RouteMap, keys: seq<Id>, t: InboundTurn, context: Context): Result<Option<Route>>
    requires forall k :: k in keys ==> k in routes
  {
    if keys == [] then Ok(None) else
      var r := routes[keys[0]];
      if IdentityOfTurn(r.inbound) != IdentityOfTurn(t) then FindReplayAmong(routes, keys[1..], t, context)
      else if r.provenance.context != context then Refused(ContextMismatch)
      else if r.inboundDigest != t then Refused(IdempotencyConflict)
      else Ok(Some(r))
  }

  /** find_replay: the stored decision for this turn's identity, or a refusal. */
  function FindReplay(routes: RouteMap, t: InboundTurn, context: Context): Result<Option<Route>> {
    if !ValidTurn(t) then Refused(BadValue) else FindReplayAmong(routes, Sorted(routes.Keys), t, context)
  }

  // --------------------------------------------------------------- the family

  predicate SameTurn(a: Route, b: Route) { IdentityOfTurn(a.inbound) == IdentityOfTurn(b.inbound) }

  predicate RouteOk(r: Route, key: Id) { ValidRoute(r) && r.routeId == key }

  ghost predicate RoutesOk(routes: RouteMap, keys: set<Id>) {
    forall k :: k in keys ==> k in routes && RouteOk(routes[k], k)
  }

  ghost predicate DecidedOnce(routes: RouteMap, keys: set<Id>) {
    && keys <= routes.Keys
    && (forall j, k :: j in keys && k in keys && SameTurn(routes[j], routes[k]) ==> j == k)
  }

  /** Every record valid under its key, each turn identity decided once. */
  ghost predicate AcceptedRoutes(routes: RouteMap) { RoutesOk(routes, routes.Keys) && DecidedOnce(routes, routes.Keys) }

  predicate Decides(r: Route, who: TurnIdentity) { IdentityOfTurn(r.inbound) == who }

  ghost function TurnsOf(routes: RouteMap, keys: set<Id>): set<TurnIdentity>
    requires keys <= routes.Keys
  {
    set k | k in keys :: IdentityOfTurn(routes[k].inbound)
  }

  lemma DecidedTwice(routes: RouteMap, done: set<Id>, k: Id)
    requires done <= routes.Keys && k in routes && k !in done
    requires IdentityOfTurn(routes[k].inbound) in TurnsOf(routes, done)
    ensures !DecidedOnce(routes, routes.Keys)
  {
    var j :| j in done && IdentityOfTurn(routes[j].inbound) == IdentityOfTurn(routes[k].inbound);
    assert SameTurn(routes[j], routes[k]);
  }

  lemma DecideOne(routes: RouteMap, done: set<Id>, k: Id)
    requires DecidedOnce(routes, done) && k in routes && k !in done
    requires IdentityOfTurn(routes[k].inbound) !in TurnsOf(routes, done)
    ensures DecidedOnce(routes, done + {k})
    ensures TurnsOf(routes, done + {k}) == TurnsOf(routes, done) + {IdentityOfTurn(routes[k].inbound)}
  {
    forall j | j in done ensures !SameTurn(routes[j], routes[k]) && !SameTurn(routes[k], routes[j]) {
      assert IdentityOfTurn(routes[j].inbound) in TurnsOf(routes, done);
    }
  }

  /** validate_route_decisions, the identities seen growing per record. */
  method ValidateRouteDecisions(routes: RouteMap) returns (ok: bool)
    ensures ok <==> AcceptedRoutes(routes)
  {
    var keys := Sorted(routes.Keys);
    var seen: set<TurnIdentity> := {};
    for i := 0 to |keys|
      invariant RoutesOk(routes, Seen(keys, i))
      invariant DecidedOnce(routes, Seen(keys, i)) && seen == TurnsOf(routes, Seen(keys, i))
    {
      var key := keys[i];
      SeeOne(keys, i);
      assert key in keys;
      var r := routes[key];
      var valid := RouteOk(r, key);
      if !valid { return false; }
      if IdentityOfTurn(r.inbound) in seen {
        DecidedTwice(routes, Seen(keys, i), key);
        return false;
      }
      DecideOne(routes, Seen(keys, i), key);
      seen := seen + {IdentityOfTurn(r.inbound)};
    }
    AllSeen(keys, routes.Keys);
    ok := true;
  }

  lemma {:induction false} NoneDecides(routes: RouteMap, keys: seq<Id>, t: InboundTurn, context: Context)
    requires forall k :: k in keys ==> k in routes && !Decides(routes[k], IdentityOfTurn(t))
    ensures FindReplayAmong(routes, keys, t, context) == Ok(None)
  {
    if keys != [] {
      assert keys[0] in keys;
      NoneDecides(routes, keys[1..], t, context);
    }
  }

  lemma {:induction false} OneDecides(routes: RouteMap, keys: seq<Id>, t: InboundTurn, context: Context, k: Id)
    requires forall j :: j in keys ==> j in routes && (Decides(routes[j], IdentityOfTurn(t)) ==> j == k)
    requires k in keys && Decides(routes[k], IdentityOfTurn(t))
    ensures FindReplayAmong(routes, keys, t, context)
            == (if routes[k].provenance.context != context then Refused(ContextMismatch)
                else if routes[k].inboundDigest != t then Refused(IdempotencyConflict)
                else Ok(Some(routes[k])))
  {
    if keys[0] != k {
      assert keys[0] in keys && k in keys[1..];
      OneDecides(routes, keys[1..], t, context, k);
    }
  }

  /** What a stored decision answers a later turn of its identity. */
  function ReplayOf(r: Route, t: InboundTurn, context: Context): Result<Option<Route>> {
    if r.provenance.context != context then Refused(ContextMismatch)
    else if r.inbound != t then Refused(IdempotencyConflict)
    else Ok(Some(r))
  }

  lemma DecidedIsReplayed(routes: RouteMap, t: InboundTurn, context: Context, k: Id)
    requires AcceptedRoutes(routes) && ValidTurn(t) && k in routes && Decides(routes[k], IdentityOfTurn(t))
    ensures FindReplay(routes, t, context) == ReplayOf(routes[k], t, context)
  {
    var keys := Sorted(routes.Keys);
    assert k in keys && RouteOk(routes[k], k);
    forall j | j in keys ensures Decides(routes[j], IdentityOfTurn(t)) ==> j == k {
      assert SameTurn(routes[j], routes[k]) <==> Decides(routes[j], IdentityOfTurn(t));
    }
    OneDecides(routes, keys, t, context, k);
  }

  /** A turn that was decided is answered from its one record: exactly as
      decided to the same context and content, refused to any other. */
  lemma ReplayExactly(routes: RouteMap, t: InboundTurn, context: Context)
    requires AcceptedRoutes(routes) && ValidTurn(t)
    ensures FindReplay(routes, t, context) == Ok(None) <==>
              forall k :: k in routes ==> !Decides(routes[k], IdentityOfTurn(t))
    ensures forall k :: k in routes && Decides(routes[k], IdentityOfTurn(t)) ==>
              FindReplay(routes, t, context) == ReplayOf(routes[k], t, context)
  {
    AllReplayed(routes, t, context);
    NoneIsUndecided(routes, t, context, FindReplay(routes, t, context));
    UndecidedIsNone(routes, t, context);
  }

  lemma AllReplayed(routes: RouteMap, t: InboundTurn, context: Context)
    requires AcceptedRoutes(routes) && ValidTurn(t)
    ensures forall k :: k in routes && Decides(routes[k], IdentityOfTurn(t)) ==>
              FindReplay(routes, t, context) == ReplayOf(routes[k], t, context)
  {
    forall k | k in routes && Decides(routes[k], IdentityOfTurn(t))
      ensures FindReplay(routes, t, context) == ReplayOf(routes[k], t, context)
    {
      DecidedIsReplayed(routes, t, context, k);
    }
  }

  /** A stored decision is never answered by nothing. */
  lemma NoneIsUndecided(routes: RouteMap, t: InboundTurn, context: Context, found: Result<Option<Route>>)
    requires forall k :: k in routes && Decides(routes[k], IdentityOfTurn(t)) ==> found == ReplayOf(routes[k], t, context)
    ensures found == Ok(None) ==> forall k :: k in routes ==> !Decides(routes[k], IdentityOfTurn(t))
  {
  }

  lemma UndecidedIsNone(routes: RouteMap, t: InboundTurn, context: Context)
    requires ValidTurn(t)
    ensures (forall k :: k in routes ==> !Decides(routes[k], IdentityOfTurn(t))) ==> FindReplay(routes, t, context) == Ok(None)
  {
    if forall k :: k in routes ==> !Decides(routes[k], IdentityOfTurn(t)) {
      NoneDecides(routes, Sorted(routes.Keys), t, context);
    }
  }

  // ------------------------------------------------------- the lookup it makes

  function ExplicitConsults(t: InboundTurn, hits: seq<Hit>, bindings: BindingMap, now: Time, explicit: Id): Option<Id> {
    if t.intent.NewMission? || ActiveOthers(hits, explicit, now) != {}
       || FirstExpired(Applicable(t, hits, bindings, explicit, now), now).Some?
    then None else Some(explicit)
  }

  function ConversationConsults(members: seq<Binding>): Option<Id> {
    if |MissionsOf(members)| == 1 then Some(Sorted(MissionsOf(members))[0]) else None
  }

  /** The one Mission a derivation asks the source about, if any. */
  function Consulted(t: InboundTurn, tiers: seq<NamedTier>, bindings: BindingMap, now: Time): Option<Id> {
    var hits := HitsAmong(t, tiers, bindings);
    if t.explicitMission.Some? then ExplicitConsults(t, hits, bindings, now, t.explicitMission.value)
    else if t.intent.NewMission? then None
    else if hits != [] then (if IsExpired(hits[0].binding, now) then None else Some(hits[0].binding.missionId))
    else ConversationConsults(ConversationBindings(bindings, t.transport, t.conversationRef, now))
  }

  /** Two sources that agree about that Mission yield the same decision. */
  lemma LooksOnlyThere(t: InboundTurn, tiers: seq<NamedTier>, bindings: BindingMap, now: Time,
                       look: Id -> FreshnessResult, look': Id -> FreshnessResult)
    requires Consulted(t, tiers, bindings, now).Some? ==>
      look(Consulted(t, tiers, bindings, now).value) == look'(Consulted(t, tiers, bindings, now).value)
    ensures OutcomeVia(t, tiers, bindings, look, now) == OutcomeVia(t, tiers, bindings, look', now)
  {
  }

  /** The decision when the source's answer to that one question is this. */
  function Derive(t: InboundTurn, tiers: seq<NamedTier>, bindings: BindingMap, looked: FreshnessResult, now: Time): Decision {
    OutcomeVia(t, tiers, bindings, (m: Id) => looked, now)
  }

  /** The Mission a decision's observation point counts for. */
  function Subject(d: Decision): Option<Id> {
    if d.mission.Some? then d.mission
    else if |d.candidates| == 1 then Some(d.candidates[0])
    else None
  }

  /** A decision carries a point only for the Mission it asked about, and only
      the FRESH read it was given. */
  ghost predicate PointIsTheRead(d: Decision, asked: Option<Id>, looked: FreshnessResult) {
    d.point.Some? ==>
      && looked.freshness.Fresh? && looked.observation.Some?
      && d.point == Some(PointOf(looked.observation.value))
      && asked.Some? && Subject(d) == asked
  }

  lemma ResolvePoint(m: Id, tier: Tier, bs: seq<Binding>, looked: FreshnessResult)
    ensures PointIsTheRead(Resolve(m, tier, bs, looked), Some(m), looked)
  {
  }

  lemma ExplicitPoint(t: InboundTurn, others: set<Id>, applicable: seq<Binding>, looked: FreshnessResult, now: Time, e: Id)
    ensures PointIsTheRead(ExplicitVia(t, others, applicable, looked, now, e),
              if t.intent.NewMission? || others != {} || FirstExpired(applicable, now).Some? then None else Some(e), looked)
  {
    ResolvePoint(e, ExplicitMissionId, applicable, looked);
  }

  lemma TierPoint(h: Hit, looked: FreshnessResult, now: Time)
    ensures PointIsTheRead(TierOutcome(h, (m: Id) => looked, now),
              if IsExpired(h.binding, now) then None else Some(h.binding.missionId), looked)
  {
    ResolvePoint(h.binding.missionId, h.tier, [h.binding], looked);
  }

  lemma ConversationPoint(t: InboundTurn, members: seq<Binding>, looked: FreshnessResult)
    ensures PointIsTheRead(ConversationOutcome(t, members, (m: Id) => looked), ConversationConsults(members), looked)
  {
    if |MissionsOf(members)| == 1 {
      var m := Sorted(MissionsOf(members))[0];
      ResolvePoint(m, UniqueConversationMatch, NamingMission(members, m), looked);
    }
  }

  /** What a decision records is the read it made, of the Mission it asked about. */
  lemma DerivedPoint(t: InboundTurn, tiers: seq<NamedTier>, bindings: BindingMap, looked: FreshnessResult, now: Time)
    ensures PointIsTheRead(Derive(t, tiers, bindings, looked, now), Consulted(t, tiers, bindings, now), looked)
  {
    var hits := HitsAmong(t, tiers, bindings);
    if t.explicitMission.Some? {
      var e := t.explicitMission.value;
      ExplicitPoint(t, ActiveOthers(hits, e, now), Applicable(t, hits, bindings, e, now), looked, now, e);
    } else if !t.intent.NewMission? {
      if hits != [] {
        TierPoint(hits[0], looked, now);
      } else {
        ConversationPoint(t, ConversationBindings(bindings, t.transport, t.conversationRef, now), looked);
      }
    }
  }

  /** A turn is answered with an existing Mission exactly when its context
      justifies it. */
  lemma DerivedExactlyWhenJustified(t: InboundTurn, bindings: BindingMap, looked: FreshnessResult, now: Time, m: Id, tier: Tier)
    requires CoherentBindings(bindings)
    ensures Answers(Derive(t, NamedTiers(t), bindings, looked, now), m, tier)
            <==> Justified(t, NamedTiers(t), bindings, looked, now, m, tier)
  {
    RoutesExactlyWhenJustified(t, NamedTiers(t), bindings, (x: Id) => looked, now, m, tier);
  }
}
