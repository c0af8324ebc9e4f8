/** Exactly when the service's binding, routing, roster and handoff calls
    succeed, over what a caller can check (coordination/service.py:153-332). */
module ServiceSuccess {
  import opened Record
  import opened Observations
  import opened Bindings
  import opened Routing
  import opened RoutingLaws
  import opened Replays
  import opened Documents
  import opened Service
  import opened ServiceLaws
  import AO = AttentionOps
  import H = Handoffs
  import HO = HandoffOps
  import HL = HandoffLaws
  import HS = HandoffSuccess

  // ----------------------------------------------------------------- bindings

  function IdentityAsked(ask: BindingAsk): BindingIdentity {
    BindingIdentity(ask.kind, ask.transport, ask.conversationRef, ask.selector)
  }

  /** The identity is well formed and the expiry lies ahead, not too far. */
  predicate WellAsked(ask: BindingAsk, now: Time) {
    && Scoped(ask.kind) == ask.conversationRef.Some? && SelectorOk(ask.kind, ask.selector)
    && Expires(ask.expiresAt, now)
  }

  predicate Expires(expiresAt: Option<Time>, now: Time) {
    expiresAt.Some? ==> now < expiresAt.value <= now + MAX_BINDING_VALIDITY_SECONDS
  }

  /** Room for one more binding of the Mission, and of its conversation. */
  ghost predicate HasRoom(bs: BindingMap, mission: Id, transport: string, conversationRef: Option<string>) {
    && |OfMission(bs, bs.Keys, mission)| < MAX_BINDINGS_PER_MISSION
    && (conversationRef.Some? ==> |OfConversation(bs, bs.Keys, (transport, conversationRef.value))| < MAX_BINDINGS_PER_CONVERSATION)
  }

  /** No recorded binding holds the identity. */
  ghost predicate Free(bs: BindingMap, w: BindingIdentity) { forall k :: k in bs ==> !Holds(bs[k], w) }

  lemma NewBindingExactly(id: Id, ask: BindingAsk, m: Id, o: Observation, now: Time, context: Context)
    requires ValidObservation(o) && o.missionId == m
    ensures NewBinding(id, ask.kind, ask.transport, ask.conversationRef, ask.selector, m, o, now, ask.expiresAt, context).Ok?
            <==> WellAsked(ask, now)
  {
    assert ValidPoint(PointOf(o));
  }

  lemma OthersOfMission(bs: BindingMap, b: Binding, m: Id)
    requires b.bindingId !in bs
    ensures var bs' := bs[b.bindingId := b];
            |OfMission(bs', bs'.Keys, m)| == |OfMission(bs, bs.Keys, m)| + (if b.missionId == m then 1 else 0)
  {
    var bs' := bs[b.bindingId := b];
    assert bs'.Keys == bs.Keys + {b.bindingId} && OfMission(bs', bs.Keys, m) == OfMission(bs, bs.Keys, m);
    CountOneMission(bs', bs.Keys, b.bindingId, m);
  }

  lemma OthersOfConversation(bs: BindingMap, b: Binding, c: (string, string))
    requires b.bindingId !in bs
    ensures var bs' := bs[b.bindingId := b];
            |OfConversation(bs', bs'.Keys, c)| == |OfConversation(bs, bs.Keys, c)| + (if IsIn(b, c) then 1 else 0)
  {
    var bs' := bs[b.bindingId := b];
    assert bs'.Keys == bs.Keys + {b.bindingId} && OfConversation(bs', bs.Keys, c) == OfConversation(bs, bs.Keys, c);
    CountOneConversation(bs', bs.Keys, b.bindingId, c);
  }

  lemma CapsExactly(bs: BindingMap, b: Binding)
    requires WithinCaps(bs) && b.bindingId !in bs
    ensures WithinCaps(bs[b.bindingId := b]) <==> HasRoom(bs, b.missionId, b.transport, b.conversationRef)
  {
    var bs' := bs[b.bindingId := b];
    forall m ensures |OfMission(bs', bs'.Keys, m)| == |OfMission(bs, bs.Keys, m)| + (if b.missionId == m then 1 else 0) {
      OthersOfMission(bs, b, m);
    }
    forall c ensures |OfConversation(bs', bs'.Keys, c)| == |OfConversation(bs, bs.Keys, c)| + (if IsIn(b, c) then 1 else 0) {
      OthersOfConversation(bs, b, c);
    }
    if WithinCaps(bs') {
      assert |OfMission(bs', bs'.Keys, b.missionId)| <= MAX_BINDINGS_PER_MISSION;
      if b.conversationRef.Some? {
        assert |OfConversation(bs', bs'.Keys, (b.transport, b.conversationRef.value))| <= MAX_BINDINGS_PER_CONVERSATION;
      }
    }
  }

  lemma FindsNothingExactly(bs: BindingMap, w: BindingIdentity)
    ensures Find(bs, w) == [] <==> Free(bs, w)
  {
    FindExactly(bs, w);
    if Find(bs, w) == [] { FindNone(bs, w); } else { assert Find(bs, w)[0] in Find(bs, w); }
  }

  ghost predicate CanBind(bs: BindingMap, ask: BindingAsk, m: Id, now: Time, supply: seq<Id>) {
    && Free(bs, IdentityAsked(ask)) && WellAsked(ask, now)
    && AO.FreshId(supply, bs.Keys, AO.MINT_TRIES).Ok? && HasRoom(bs, m, ask.transport, ask.conversationRef)
  }

  lemma InsertsExactly(bs: BindingMap, b: Binding)
    requires AcceptedBindings(bs) && ValidBinding(b) && b.bindingId !in bs && Find(bs, IdentityOf(b)) == []
    ensures AcceptedBindings(bs[b.bindingId := b]) <==> HasRoom(bs, b.missionId, b.transport, b.conversationRef)
  {
    InsertIsCoherent(bs, b);
    CapsExactly(bs, b);
  }

  lemma BindIntoSucceedsExactly(bs: BindingMap, ask: BindingAsk, m: Id, o: Observation, now: Time, context: Context, supply: seq<Id>)
    requires AcceptedBindings(bs) && ValidObservation(o) && o.missionId == m
    ensures BindInto(bs, ask, m, o, now, context, supply).Ok? <==> CanBind(bs, ask, m, now, supply)
  {
    var minted := AO.FreshId(supply, bs.Keys, AO.MINT_TRIES);
    FindsNothingExactly(bs, IdentityAsked(ask));
    if Free(bs, IdentityAsked(ask)) && minted.Ok? {
      var made := NewBinding(minted.value.id, ask.kind, ask.transport, ask.conversationRef, ask.selector, m, o, now, ask.expiresAt, context);
      NewBindingExactly(minted.value.id, ask, m, o, now, context);
      if made.Ok? {
        NewBindingFields(minted.value.id, ask, m, o, now, context);
        InsertsExactly(bs, made.value);
      }
    }
  }

  /** Binding succeeds exactly under a FRESH read of the Mission, for a
      well-formed identity no binding holds, with an unused id and room. */
  lemma BindSucceedsExactly(d: Document, ask: BindingAsk, m: Id, context: Context, answer: Outcome, now: Time, supply: seq<Id>)
    requires Families(d) && FloorHolds(d)
    ensures Look(d, m, answer, now).Ok?
    ensures ApplyBind(d, ask, m, context, answer, now, supply).Ok?
            <==> Look(d, m, answer, now).value.freshness.Fresh? && CanBind(d.bindings, ask, m, now, supply)
  {
    LookIsSound(d, m, answer, now);
    var looked := Look(d, m, answer, now).value;
    HS.RequireFreshExactly(looked, m);
    if looked.freshness.Fresh? {
      BindIntoSucceedsExactly(d.bindings, ask, m, looked.observation.value, now, context, supply);
    }
  }

  // ------------------------------------------------------------------- rebind

  /** Once its binding is revoked no one holds an identity. */
  lemma RevokedIsFree(bs: BindingMap, id: Id, b: Binding)
    requires CoherentBindings(bs) && id in bs && RevokedCopy(bs[id], b)
    ensures Free(bs[id := b], IdentityOf(bs[id]))
  {
    forall k | k in bs ensures !Holds(bs[id := b][k], IdentityOf(bs[id])) {
      assert k != id ==> !Clash(bs[id], bs[k]);
    }
  }

  lemma RevokeExactly(bs: BindingMap, id: Id, now: Time)
    requires CoherentBindings(bs) && id in bs
    ensures Revoke(bs[id], now).Ok? <==> !bs[id].revoked && bs[id].boundAt <= now
    ensures Revoke(bs[id], now).Ok? ==> RevokedCopy(bs[id], Revoke(bs[id], now).value)
    ensures Scoped(bs[id].kind) == bs[id].conversationRef.Some? && SelectorOk(bs[id].kind, bs[id].selector)
  {
    assert ValidBinding(bs[id]);
  }

  lemma SameRoom(bs: BindingMap, id: Id, b: Binding, mission: Id, transport: string, conversationRef: Option<string>)
    requires id in bs && RevokedCopy(bs[id], b)
    ensures HasRoom(bs[id := b], mission, transport, conversationRef) == HasRoom(bs, mission, transport, conversationRef)
  {
    var bs' := bs[id := b];
    assert bs'.Keys == bs.Keys && OfMission(bs', bs.Keys, mission) == OfMission(bs, bs.Keys, mission);
    if conversationRef.Some? {
      var c := (transport, conversationRef.value);
      assert OfConversation(bs', bs.Keys, c) == OfConversation(bs, bs.Keys, c);
    }
  }

  ghost predicate CanRebind(bs: BindingMap, id: Id, expiresAt: Option<Time>, now: Time, supply: seq<Id>)
    requires id in bs
  {
    && !bs[id].revoked && bs[id].boundAt <= now && Expires(expiresAt, now)
    && AO.FreshId(supply, bs.Keys, AO.MINT_TRIES).Ok?
    && HasRoom(bs, bs[id].missionId, bs[id].transport, bs[id].conversationRef)
  }

  lemma ReboundSucceedsExactly(bs: BindingMap, id: Id, expiresAt: Option<Time>, o: Observation, now: Time, context: Context, supply: seq<Id>)
    requires AcceptedBindings(bs) && id in bs && ValidObservation(o) && o.missionId == bs[id].missionId
    ensures Rebound(bs, id, expiresAt, o, now, context, supply).Ok? <==> CanRebind(bs, id, expiresAt, now, supply)
  {
    RevokeExactly(bs, id, now);
    if Revoke(bs[id], now).Ok? {
      var b := Revoke(bs[id], now).value;
      RevokeIsAccepted(bs, id, now);
      BindIntoSucceedsExactly(bs[id := b], AskAgain(bs[id], expiresAt), bs[id].missionId, o, now, context, supply);
      BindsAgainExactly(bs, id, b, expiresAt, now, supply);
    }
  }

  /** Binding a revoked binding's identity again asks for little. */
  lemma BindsAgainExactly(bs: BindingMap, id: Id, b: Binding, expiresAt: Option<Time>, now: Time, supply: seq<Id>)
    requires CoherentBindings(bs) && id in bs && RevokedCopy(bs[id], b) && bs[id].boundAt <= now
    ensures CanBind(bs[id := b], AskAgain(bs[id], expiresAt), bs[id].missionId, now, supply) <==> CanRebind(bs, id, expiresAt, now, supply)
  {
    RevokeExactly(bs, id, now);
    RevokedIsFree(bs, id, b);
    SameRoom(bs, id, b, bs[id].missionId, bs[id].transport, bs[id].conversationRef);
    assert bs[id := b].Keys == bs.Keys;
  }

  /** Rebinding succeeds exactly for an unrevoked recorded binding, the clock not
      behind it, under a FRESH read of its Mission, with an expiry ahead, an
      unused id and room; its identity is always free once it is revoked. */
  lemma RebindSucceedsExactly(d: Document, id: Id, expiresAt: Option<Time>, context: Context, answer: Outcome, now: Time, supply: seq<Id>)
    requires Families(d) && FloorHolds(d)
    ensures ApplyRebind(d, id, expiresAt, context, answer, now, supply).Ok?
            <==> && id in d.bindings && Look(d, d.bindings[id].missionId, answer, now).Ok?
                 && Look(d, d.bindings[id].missionId, answer, now).value.freshness.Fresh?
                 && CanRebind(d.bindings, id, expiresAt, now, supply)
  {
    if id in d.bindings {
      var m := d.bindings[id].missionId;
      LookIsSound(d, m, answer, now);
      var looked := Look(d, m, answer, now).value;
      HS.RequireFreshExactly(looked, m);
      if looked.freshness.Fresh? {
        ReboundSucceedsExactly(d.bindings, id, expiresAt, looked.observation.value, now, context, supply);
      }
    }
  }

  // ------------------------------------------------------------------ routing

  /** The validity test of a decision never refuses. */
  lemma DecisionIsValid(d: Document, t: InboundTurn, context: Context, lanes: set<Lane>, looked: FreshnessResult, now: Time, id: Id)
    requires CoherentBindings(d.bindings) && ValidTurn(t) && (looked.observation.Some? ==> ValidObservation(looked.observation.value))
    ensures ValidRoute(NewRoute(id, t, d.bindings, (m: Id) => looked, now, lanes, context))
  {
    NewRouteIsValid(id, t, d.bindings, (m: Id) => looked, now, lanes, context);
  }

  lemma DecideSucceedsExactly(d: Document, t: InboundTurn, context: Context, lanes: set<Lane>, looked: FreshnessResult, now: Time, supply: seq<Id>)
    requires CoherentBindings(d.bindings) && ValidTurn(t) && (looked.observation.Some? ==> ValidObservation(looked.observation.value))
    ensures Decide(d, t, context, lanes, looked, now, supply).Ok? <==> AO.FreshId(supply, d.routes.Keys, AO.MINT_TRIES).Ok?
  {
    var minted := AO.FreshId(supply, d.routes.Keys, AO.MINT_TRIES);
    if minted.Ok? { DecisionIsValid(d, t, context, lanes, looked, now, minted.value.id); }
  }

  /** A route call for an undecided turn succeeds exactly when an unused id is at
      hand, whatever the source answers; for a decided one exactly when the
      context and the content are those of its stored decision. */
  lemma RouteSucceedsExactly(d: Document, t: InboundTurn, context: Context, lanes: set<Lane>, answer: Outcome, now: Time, supply: seq<Id>)
    requires Families(d) && FloorHolds(d) && ValidTurn(t)
    ensures (forall k :: k in d.routes ==> !Decides(d.routes[k], IdentityOfTurn(t))) ==>
              (ApplyRoute(d, t, context, lanes, answer, now, supply).Ok? <==> AO.FreshId(supply, d.routes.Keys, AO.MINT_TRIES).Ok?)
    ensures forall k :: k in d.routes && Decides(d.routes[k], IdentityOfTurn(t)) ==>
              (ApplyRoute(d, t, context, lanes, answer, now, supply).Ok?
               <==> d.routes[k].provenance.context == context && d.routes[k].inbound == t)
  {
    var found := FindReplay(d.routes, t, context);
    ReplayExactly(d.routes, t, context);
    var m := RouteLookIsSound(d, t, answer, now);
    DecideSucceedsExactly(d, t, context, lanes, RouteLook(d, t, answer, now).value, now, supply);
    RouteSteps(d, t, context, lanes, answer, now, supply);
  }

  lemma RouteSteps(d: Document, t: InboundTurn, context: Context, lanes: set<Lane>, answer: Outcome, now: Time, supply: seq<Id>)
    requires RouteLook(d, t, answer, now).Ok?
    ensures var found, r := FindReplay(d.routes, t, context), ApplyRoute(d, t, context, lanes, answer, now, supply);
            && (found.Refused? ==> r.Refused?) && (found.Ok? && found.value.Some? ==> r.Ok?)
            && (found == Ok(None) ==> r == Decide(d, t, context, lanes, RouteLook(d, t, answer, now).value, now, supply))
  {
  }

  // ----------------------------------------------------------------- handoffs

  /** Registering a roster through the service. */
  lemma RosterSucceedsExactly(d: Document, m: Id, participants: seq<Participant>, context: Context, answer: Outcome, now: Time)
    requires Families(d) && FloorHolds(d)
    ensures Look(d, m, answer, now).Ok?
    ensures ApplySetRoster(d, m, participants, context, answer, now).Ok?
            <==> && Look(d, m, answer, now).value.freshness.Fresh? && HS.ListsParticipants(participants)
                 && forall k :: k in d.handoffs && d.handoffs[k].missionId == m ==>
                      d.handoffs[k].source in participants && d.handoffs[k].destination in participants
  {
    LookIsSound(d, m, answer, now);
    RosterSteps(d, m, participants, context, answer, now);
    HS.SetRosterSucceedsExactly(d.handoffs, d.rosters, m, participants, Look(d, m, answer, now).value, now, context);
  }

  lemma RosterSteps(d: Document, m: Id, participants: seq<Participant>, context: Context, answer: Outcome, now: Time)
    requires Look(d, m, answer, now).Ok?
    ensures ApplySetRoster(d, m, participants, context, answer, now).Ok?
            <==> HO.SetRoster(d.handoffs, d.rosters, m, participants, Look(d, m, answer, now).value, now, context).Ok?
  {
    RosterRegistered(d.handoffs, d.rosters, m, participants, Look(d, m, answer, now).value, now, context);
  }

  lemma RosterRegistered(hs: H.HandoffMap, rosters: H.RosterMap, m: Id, participants: seq<Participant>, looked: FreshnessResult,
                         now: Time, context: Context)
    ensures var r := HO.SetRoster(hs, rosters, m, participants, looked, now, context); r.Ok? ==> m in r.value
  {
  }

  /** Creating a handoff through the service: with an unused id at hand, exactly
      when the creation's own conditions hold under the look. */
  lemma HandoffSucceedsExactly(d: Document, q: HO.Request, context: Context, answer: Outcome, now: Time, supply: seq<Id>)
    requires Families(d) && FloorHolds(d)
    ensures Look(d, q.missionId, answer, now).Ok? && HL.Rooted(d.handoffs)
    ensures var looked := Look(d, q.missionId, answer, now).value;
            ApplyCreate(d, q, context, answer, now, supply).Ok?
            <==> && AO.FreshId(supply, d.handoffs.Keys, AO.MINT_TRIES).Ok? && looked.freshness.Fresh? && looked.observation.Some?
                 && HS.OnRoster(d.rosters, q.missionId, q.source) && HS.OnRoster(d.rosters, q.missionId, q.destination)
                 && HS.ParentOpen(d.handoffs, q) && HS.WellFormed(q)
                 && HS.Proven(looked.observation.value, q.evidence + q.artifacts)
                 && HS.KeyAdmits(d.handoffs, q, looked.observation.value)
  {
    LookIsSound(d, q.missionId, answer, now);
    HL.AcceptedIsRooted(d.handoffs, d.rosters);
    var minted := AO.FreshId(supply, d.handoffs.Keys, AO.MINT_TRIES);
    if minted.Ok? {
      HS.CreateSucceedsExactly(d.handoffs, d.rosters, minted.value.id, q, Look(d, q.missionId, answer, now).value, now, context);
    }
  }
}
