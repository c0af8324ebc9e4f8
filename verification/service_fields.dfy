/** What each call of the coordination service writes, field by field, and
    exactly when it succeeds (coordination/service.py:104-400). */
module ServiceFields {
  import opened Record
  import opened Observations
  import opened ObservationFields
  import opened Floor
  import opened Bindings
  import opened BindingFields
  import opened Routing
  import opened Replays
  import opened RoutingReasons
  import opened Documents
  import opened Service
  import opened ServiceLaws
  import opened ServiceSuccess
  import A = Attentions
  import AO = AttentionOps
  import AL = AttentionLaws
  import AF = AttentionFields
  import AR = AttentionReport
  import H = Handoffs
  import HO = HandoffOps
  import HF = HandoffFields
  import HL = HandoffLaws

  // --------------------------------------------------------------- ids at hand

  /** One of the minter's next 8 ids is unused. */
  ghost predicate IdAtHand(supply: seq<Id>, taken: set<Id>) { exists i :: 0 <= i < |supply| && i < 8 && supply[i] !in taken }

  /** The id is the first unused one. */
  ghost predicate FirstUnused(supply: seq<Id>, taken: set<Id>, id: Id) {
    exists i :: 0 <= i < |supply| && i < 8 && supply[i] == id && id !in taken && forall j :: 0 <= j < i ==> supply[j] in taken
  }

  lemma {:induction false} MintsFirst(supply: seq<Id>, taken: set<Id>, tries: nat) returns (n: nat)
    ensures n <= |supply| && n <= tries && forall j :: 0 <= j < n ==> supply[j] in taken
    ensures var r := AO.FreshId(supply, taken, tries);
            if r.Ok? then n < |supply| && n < tries && supply[n] == r.value.id && supply[n] !in taken else n == tries || n == |supply|
  {
    if tries == 0 || supply == [] || supply[0] !in taken {
      n := 0;
    } else {
      n := MintsFirst(supply[1..], taken, tries - 1);
      n := n + 1;
      assert forall j :: 0 < j < n ==> supply[j] == supply[1..][j - 1];
    }
  }

  lemma MintsExactly(supply: seq<Id>, taken: set<Id>)
    ensures AO.FreshId(supply, taken, AO.MINT_TRIES).Ok? <==> IdAtHand(supply, taken)
    ensures AO.FreshId(supply, taken, AO.MINT_TRIES).Ok? ==> FirstUnused(supply, taken, AO.FreshId(supply, taken, AO.MINT_TRIES).value.id)
  {
    var n := MintsFirst(supply, taken, AO.MINT_TRIES);
  }

  // ------------------------------------------------------- the document, loaded

  /** A decision's point counts for the Mission it names, or for the one Mission
      it asks about. */
  predicate CountsFor(d: Decision, m: Id) { d.mission == Some(m) || (d.mission.None? && d.candidates == [m]) }

  ghost predicate BindingsRecall(bs: BindingMap, m: Id, p: Point) { exists k :: k in bs && bs[k].missionId == m && bs[k].point == p }

  ghost predicate RoutesRecall(rs: RouteMap, m: Id, p: Point) {
    exists k :: k in rs && CountsFor(rs[k].decision, m) && rs[k].decision.point == Some(p)
  }

  ghost predicate AttentionsRecall(ats: A.AttentionMap, m: Id, p: Point) {
    exists k :: k in ats && ats[k].missionId == m && AttentionRecalls(ats[k], p)
  }

  ghost predicate HandoffsRecall(hs: H.HandoffMap, m: Id, p: Point) {
    exists k :: k in hs && hs[k].missionId == m && HandoffRecalls(hs[k], p)
  }

  /** Some record of the document holds this read of the Mission. */
  ghost predicate HoldsRead(d: Document, m: Id, p: Point) {
    || BindingsRecall(d.bindings, m, p) || RoutesRecall(d.routes, m, p) || AttentionsRecall(d.attention, m, p)
    || HandoffsRecall(d.handoffs, m, p) || (m in d.rosters && d.rosters[m].point == p)
  }

  predicate AttentionRecalls(a: A.Attention, p: Point) {
    a.point == p || a.surfacedPoint == Some(p) || a.ackPoint == Some(p) || a.closedPoint == Some(p)
  }

  ghost predicate HandoffRecalls(h: H.Handoff, p: Point) {
    h.point == p || exists i :: 0 <= i < |h.transitions| && h.transitions[i].point == p
  }

  lemma RoutesCount(r: Routing.Route, m: Id, p: Point)
    ensures RouteCounts(r, m) && r.decision.point == Some(p) <==> CountsFor(r.decision, m) && r.decision.point == Some(p)
  {
    if |r.decision.candidates| == 1 { assert r.decision.candidates == [r.decision.candidates[0]]; }
  }

  lemma RouteReadsAre(rs: RouteMap, m: Id, p: Point)
    ensures p in RouteReads(rs, m) <==> RoutesRecall(rs, m, p)
  {
    forall k | k in rs
      ensures RouteCounts(rs[k], m) && rs[k].decision.point == Some(p) <==> CountsFor(rs[k].decision, m) && rs[k].decision.point == Some(p)
    {
      RoutesCount(rs[k], m, p);
    }
    if p in RouteReads(rs, m) { var k :| k in rs && RouteCounts(rs[k], m) && rs[k].decision.point.value == p; }
  }

  lemma HandoffReadsAre(hs: H.HandoffMap, m: Id, p: Point)
    ensures p in HandoffReads(hs, m) <==> HandoffsRecall(hs, m, p)
  {
    forall k | k in hs ensures p in HL.PointsIn(hs[k]) <==> HandoffRecalls(hs[k], p) {
      if i :| 0 <= i < |hs[k].transitions| && hs[k].transitions[i].point == p { assert hs[k].transitions[i] in hs[k].transitions; }
    }
  }

  lemma AttentionReadsAre(ats: A.AttentionMap, m: Id, p: Point)
    ensures p in AttentionReads(ats, m) <==> AttentionsRecall(ats, m, p)
  {
    forall k | k in ats ensures p in AL.PointsIn(ats[k]) <==> AttentionRecalls(ats[k], p) {}
  }

  lemma BindingReadsAre(bs: BindingMap, m: Id, p: Point)
    ensures p in BindingReads(bs, m) <==> BindingsRecall(bs, m, p)
  {
  }

  lemma InOneOfFive(a: set<Point>, b: set<Point>, c: set<Point>, d: set<Point>, e: set<Point>, p: Point)
    ensures p in a + b + c + d + e <==> p in a || p in b || p in c || p in d || p in e
  {
  }

  lemma InReads(d: Document, m: Id, p: Point)
    ensures p in Reads(d, m) <==> HoldsRead(d, m, p)
  {
    InOneOfFive(BindingReads(d.bindings, m), RouteReads(d.routes, m), AttentionReads(d.attention, m), HandoffReads(d.handoffs, m),
                RosterReads(d.rosters, m), p);
    BindingReadsAre(d.bindings, m, p);
    RouteReadsAre(d.routes, m, p);
    AttentionReadsAre(d.attention, m, p);
    HandoffReadsAre(d.handoffs, m, p);
  }

  lemma MembersAre(points: seq<Point>, p: Point)
    ensures p in points <==> p in Members(points)
  {
  }

  /** The reads a Mission's floor is the greatest of are exactly those its
      bindings, decisions, attention records, handoffs and roster hold. */
  lemma ReadsAre(d: Document, m: Id, p: Point)
    ensures p in PointsOf(d, m) <==> HoldsRead(d, m, p)
    ensures p in Reads(d, m) <==> HoldsRead(d, m, p)
  {
    PointsAreReads(d, m);
    MembersAre(PointsOf(d, m), p);
    InReads(d, m, p);
  }

  /** A document loads exactly when its families are within their bounds and read
      so; one too full is told from one that cannot be read. */
  lemma LoadsExactly(d: Document)
    ensures var full := |d.bindings| > 4096 || |d.routes| > 16384 || |d.attention| > 16384 || |d.handoffs| > 4096 || |d.rosters| > 1024;
            && (DocumentProblem(d) == Some(StoreFull) <==> full)
            && (DocumentProblem(d).None? <==>
                  && !full && PlainBindings(d.bindings) && AR.PlainRecords(d.attention) && HF.PlainDocument(d.handoffs, d.rosters)
                  && (forall k :: k in d.routes ==> PlainRoute(d.routes[k]) && d.routes[k].routeId == k)
                  && (forall j, k :: j in d.routes && k in d.routes && SameMessage(d.routes[j], d.routes[k]) ==> j == k))
            && DocumentProblem(d) in {None, Some(StoreFull), Some(StoreUnreadable)}
  {
    BindingFields.AcceptedExactly(d.bindings);
    RoutingReasons.AcceptedExactly(d.routes);
    AR.AcceptedExactly(d.attention);
    HF.AcceptedExactly(d.handoffs, d.rosters);
  }

  // ------------------------------------------------------------------ the look

  /** Every call's look at the source is told against the floor its document
      holds: the greatest read of that Mission. */
  lemma LookIsTold(d: Document, m: Id, answer: Outcome, now: Time) returns (floor: Option<Point>)
    requires FloorHolds(d)
    ensures Look(d, m, answer, now).Ok? && IsFloor(Reads(d, m), floor)
    ensures var looked := Look(d, m, answer, now).value;
            && (looked.freshness == Absent <==> answer.SourceAbsent?)
            && (answer.SourceUnavailable? ==> looked.freshness == Unavailable)
            && (answer.Observed? && WellReported(answer.observation) ==> Told(answer.observation, now, m, floor, looked.freshness))
            && (answer.Observed? && !WellReported(answer.observation) ==> looked.freshness in {Inconsistent, Unavailable})
            && (looked.observation.Some? ==> answer == Observed(looked.observation.value) && WellReported(looked.observation.value))
  {
    HighMarkIsFloor(d, m);
    floor := HighMark(d, m).value;
    ClassifiedExactly(answer, now, m, floor);
  }

  // ------------------------------------------------------------------ bindings

  /** An unrevoked binding already holds this identity. */
  ghost predicate HeldAlready(bs: BindingMap, w: BindingIdentity) {
    exists k :: k in bs && !bs[k].revoked && bs[k].kind == w.kind && bs[k].transport == w.transport
                && bs[k].conversationRef == w.conversationRef && bs[k].selector == w.selector
  }

  ghost predicate RoomFor(bs: BindingMap, m: Id, w: BindingIdentity) {
    && |OfOneMission(bs, m)| < 64
    && (w.conversationRef.Some? ==> |OfOneConversation(bs, w.transport, w.conversationRef.value)| < 256)
  }

  /** What binding an identity asks, in its own fields. */
  ghost predicate MayBind(bs: BindingMap, w: BindingIdentity, m: Id, expiresAt: Option<Time>, now: Time, supply: seq<Id>) {
    && (PerConversation(w.kind) <==> w.conversationRef.Some?) && SelectorFits(w.kind, w.selector) && WithinValidity(now, expiresAt)
    && !HeldAlready(bs, w) && IdAtHand(supply, bs.Keys) && RoomFor(bs, m, w)
  }

  lemma RoomOnFields(bs: BindingMap, m: Id, w: BindingIdentity)
    ensures HasRoom(bs, m, w.transport, w.conversationRef) <==> RoomFor(bs, m, w)
  {
    assert OfMission(bs, bs.Keys, m) == OfOneMission(bs, m);
    if w.conversationRef.Some? {
      assert OfConversation(bs, bs.Keys, (w.transport, w.conversationRef.value)) == OfOneConversation(bs, w.transport, w.conversationRef.value);
    }
  }

  lemma FreeOnFields(bs: BindingMap, w: BindingIdentity)
    ensures Free(bs, w) <==> !HeldAlready(bs, w)
  {
    forall k | k in bs
      ensures Holds(bs[k], w) <==> && !bs[k].revoked && bs[k].kind == w.kind && bs[k].transport == w.transport
                                   && bs[k].conversationRef == w.conversationRef && bs[k].selector == w.selector
    {
    }
  }

  lemma CanBindOnFields(bs: BindingMap, ask: BindingAsk, m: Id, now: Time, supply: seq<Id>)
    ensures CanBind(bs, ask, m, now, supply) <==> MayBind(bs, IdentityAsked(ask), m, ask.expiresAt, now, supply)
  {
    KindsOnFields(ask.kind, ask.selector);
    MintsExactly(supply, bs.Keys);
    RoomOnFields(bs, m, IdentityAsked(ask));
    FreeOnFields(bs, IdentityAsked(ask));
  }

  /** The document with this one binding more, as it was asked for. */
  ghost predicate BindsAs(d: Document, before: BindingMap, e: Effect, w: BindingIdentity, m: Id, o: Observation, now: Time, expiresAt: Option<Time>,
                          context: Context, supply: seq<Id>) {
    && e.writes && e.reply.Bound?
    && var b := e.reply.binding;
       && FirstUnused(supply, d.bindings.Keys, b.bindingId) && b.bindingId !in d.bindings
       && e.document == d.(bindings := before[b.bindingId := b])
       && BoundAs(b, b.bindingId, w, m, o, now, expiresAt, context)
  }

  lemma BindIntoWrites(bs: BindingMap, ask: BindingAsk, m: Id, o: Observation, now: Time, context: Context, supply: seq<Id>)
    requires BindInto(bs, ask, m, o, now, context, supply).Ok?
    ensures var r := BindInto(bs, ask, m, o, now, context, supply).value;
            && FirstUnused(supply, bs.Keys, r.binding.bindingId) && r.binding.bindingId !in bs
            && r.bindings == bs[r.binding.bindingId := r.binding]
            && BoundAs(r.binding, r.binding.bindingId, IdentityAsked(ask), m, o, now, ask.expiresAt, context)
  {
    MintsExactly(supply, bs.Keys);
    NewBindingOnFields(AO.FreshId(supply, bs.Keys, AO.MINT_TRIES).value.id, IdentityAsked(ask), m, o, now, ask.expiresAt, context);
  }

  /** Binding succeeds exactly under a FRESH read when the identity may be bound;
      it then adds the one binding asked for, with its expiry, the clock, the
      context and the read's revision. */
  lemma BindsExactly(d: Document, ask: BindingAsk, m: Id, context: Context, answer: Outcome, now: Time, supply: seq<Id>)
    requires Families(d) && FloorHolds(d)
    ensures Look(d, m, answer, now).Ok?
    ensures var looked, r := Look(d, m, answer, now).value, ApplyBind(d, ask, m, context, answer, now, supply);
            && (r.Ok? <==> looked.freshness == Fresh && MayBind(d.bindings, IdentityAsked(ask), m, ask.expiresAt, now, supply))
            && (r.Ok? ==> looked.observation.Some?
                          && BindsAs(d, d.bindings, r.value, IdentityAsked(ask), m, looked.observation.value, now, ask.expiresAt, context, supply))
  {
    BindSucceedsExactly(d, ask, m, context, answer, now, supply);
    CanBindOnFields(d.bindings, ask, m, now, supply);
    LookIsSound(d, m, answer, now);
    if ApplyBind(d, ask, m, context, answer, now, supply).Ok? {
      BindIntoWrites(d.bindings, ask, m, Look(d, m, answer, now).value.observation.value, now, context, supply);
    }
  }

  /** Why a bind is refused, each cause in its turn. */
  ghost predicate NotBoundFor(bs: BindingMap, w: BindingIdentity, m: Id, expiresAt: Option<Time>, looked: FreshnessResult, now: Time,
                              supply: seq<Id>, why: Problem) {
    if !HF.SeesFresh(looked, m) then why == HF.NotFresh(looked)
    else if HeldAlready(bs, w) then why == BindingConflict
    else if !IdAtHand(supply, bs.Keys) then why == BadValue
    else if IllAsked(w, expiresAt, now) then why == BadValue
    else why == TooLarge
  }

  /** The identity is not well formed, or its expiry is not ahead. */
  ghost predicate IllAsked(w: BindingIdentity, expiresAt: Option<Time>, now: Time) {
    || PerConversation(w.kind) != w.conversationRef.Some? || !SelectorFits(w.kind, w.selector)
    || (expiresAt.Some? && expiresAt.value <= now)
  }

  lemma BindIntoRefused(bs: BindingMap, ask: BindingAsk, m: Id, o: Observation, now: Time, context: Context, supply: seq<Id>)
    requires ValidObservation(o) && o.missionId == m && BindInto(bs, ask, m, o, now, context, supply).Refused?
    ensures var why, w := BindInto(bs, ask, m, o, now, context, supply).problem, IdentityAsked(ask);
            if HeldAlready(bs, w) then why == BindingConflict
            else if !IdAtHand(supply, bs.Keys) then why == BadValue
            else if IllAsked(w, ask.expiresAt, now) then why == BadValue
            else why == TooLarge
  {
    FindsNothingExactly(bs, IdentityAsked(ask));
    FreeOnFields(bs, IdentityAsked(ask));
    MintsExactly(supply, bs.Keys);
    KindsOnFields(ask.kind, ask.selector);
    assert ValidPoint(PointOf(o));
  }

  /** A bind that does not go through is refused with its cause. */
  lemma BindRefusedExactly(d: Document, ask: BindingAsk, m: Id, context: Context, answer: Outcome, now: Time, supply: seq<Id>)
    requires Families(d) && FloorHolds(d) && ApplyBind(d, ask, m, context, answer, now, supply).Refused?
    ensures Look(d, m, answer, now).Ok?
    ensures NotBoundFor(d.bindings, IdentityAsked(ask), m, ask.expiresAt, Look(d, m, answer, now).value, now, supply,
                        ApplyBind(d, ask, m, context, answer, now, supply).problem)
  {
    LookIsSound(d, m, answer, now);
    var looked := Look(d, m, answer, now).value;
    HF.NotFreshExactly(looked, m);
    if HF.SeesFresh(looked, m) { BindIntoRefused(d.bindings, ask, m, looked.observation.value, now, context, supply); }
  }

  /** Revoking succeeds exactly for an unrevoked binding, the clock not behind
      it; it then marks that one revoked at the clock. */
  lemma RevokesExactly(d: Document, id: Id, now: Time)
    requires Families(d)
    ensures var r := ApplyRevoke(d, id, now);
            && (r.Ok? <==> id in d.bindings && !d.bindings[id].revoked && d.bindings[id].boundAt <= now)
            && (r == Refused(InvalidTransition) <==> id in d.bindings && d.bindings[id].revoked)
            && (r == Refused(BadValue) <==> id !in d.bindings || (!d.bindings[id].revoked && now < d.bindings[id].boundAt))
            && (r.Ok? ==>
                  var b := d.bindings[id].(revoked := true, revokedAt := Some(now));
                  r.value == Effect(d.(bindings := d.bindings[id := b]), true, Bound(b)))
  {
    if id in d.bindings {
      assert ValidBinding(d.bindings[id]);
      RevokeExactly(d.bindings, id, now);
      if Revoke(d.bindings[id], now).Ok? { RevokeOnFields(d.bindings[id], now); }
    }
  }

  ghost predicate MayRebind(bs: BindingMap, id: Id, expiresAt: Option<Time>, now: Time, supply: seq<Id>) {
    && id in bs && !bs[id].revoked && bs[id].boundAt <= now && WithinValidity(now, expiresAt)
    && IdAtHand(supply, bs.Keys) && RoomFor(bs, bs[id].missionId, IdentityOf(bs[id]))
  }

  lemma CanRebindOnFields(bs: BindingMap, id: Id, expiresAt: Option<Time>, now: Time, supply: seq<Id>)
    requires id in bs
    ensures CanRebind(bs, id, expiresAt, now, supply) <==> MayRebind(bs, id, expiresAt, now, supply)
  {
    MintsExactly(supply, bs.Keys);
    RoomOnFields(bs, bs[id].missionId, IdentityOf(bs[id]));
  }

  lemma ReboundWrites(bs: BindingMap, id: Id, expiresAt: Option<Time>, o: Observation, now: Time, context: Context, supply: seq<Id>)
    requires id in bs && Rebound(bs, id, expiresAt, o, now, context, supply).Ok?
    ensures var r := Rebound(bs, id, expiresAt, o, now, context, supply).value;
            && FirstUnused(supply, bs.Keys, r.binding.bindingId) && r.binding.bindingId !in bs
            && r.bindings == bs[id := bs[id].(revoked := true, revokedAt := Some(now))][r.binding.bindingId := r.binding]
            && BoundAs(r.binding, r.binding.bindingId, IdentityOf(bs[id]), bs[id].missionId, o, now, expiresAt, context)
  {
    var revoked := Revoke(bs[id], now).value;
    RevokeOnFields(bs[id], now);
    assert bs[id := revoked].Keys == bs.Keys;
    BindIntoWrites(bs[id := revoked], AskAgain(bs[id], expiresAt), bs[id].missionId, o, now, context, supply);
  }

  /** Rebinding succeeds exactly under a FRESH read of an unrevoked binding's
      Mission; it then revokes that one at the clock and adds its identity bound
      again, with the new expiry, the clock, the context and the read's revision. */
  lemma RebindsExactly(d: Document, id: Id, expiresAt: Option<Time>, context: Context, answer: Outcome, now: Time, supply: seq<Id>)
    requires Families(d) && FloorHolds(d)
    ensures id in d.bindings ==> Look(d, d.bindings[id].missionId, answer, now).Ok?
    ensures var r := ApplyRebind(d, id, expiresAt, context, answer, now, supply);
            && (r.Ok? <==> && id in d.bindings && Look(d, d.bindings[id].missionId, answer, now).value.freshness == Fresh
                           && MayRebind(d.bindings, id, expiresAt, now, supply))
            && (r.Ok? ==>
                  var was, looked := d.bindings[id], Look(d, d.bindings[id].missionId, answer, now).value;
                  && looked.observation.Some?
                  && BindsAs(d, d.bindings[id := was.(revoked := true, revokedAt := Some(now))], r.value,
                             BindingIdentity(was.kind, was.transport, was.conversationRef, was.selector), was.missionId,
                             looked.observation.value, now, expiresAt, context, supply))
  {
    RebindSucceedsExactly(d, id, expiresAt, context, answer, now, supply);
    if id in d.bindings {
      CanRebindOnFields(d.bindings, id, expiresAt, now, supply);
      LookIsSound(d, d.bindings[id].missionId, answer, now);
      if ApplyRebind(d, id, expiresAt, context, answer, now, supply).Ok? {
        ReboundWrites(d.bindings, id, expiresAt, Look(d, d.bindings[id].missionId, answer, now).value.observation.value, now, context, supply);
      }
    }
  }

  /** Why a rebind is refused, each cause in its turn. */
  ghost predicate NotReboundFor(bs: BindingMap, id: Id, expiresAt: Option<Time>, looked: FreshnessResult, now: Time, supply: seq<Id>, why: Problem)
    requires id in bs
  {
    if !HF.SeesFresh(looked, bs[id].missionId) then why == HF.NotFresh(looked)
    else if bs[id].revoked then why == InvalidTransition
    else if now < bs[id].boundAt || !IdAtHand(supply, bs.Keys) || (expiresAt.Some? && expiresAt.value <= now) then why == BadValue
    else why == TooLarge
  }

  lemma ReboundRefused(bs: BindingMap, id: Id, expiresAt: Option<Time>, o: Observation, now: Time, context: Context, supply: seq<Id>)
    requires AcceptedBindings(bs) && id in bs && ValidObservation(o) && o.missionId == bs[id].missionId
    requires Rebound(bs, id, expiresAt, o, now, context, supply).Refused?
    ensures var why := Rebound(bs, id, expiresAt, o, now, context, supply).problem;
            if bs[id].revoked then why == InvalidTransition
            else if now < bs[id].boundAt || !IdAtHand(supply, bs.Keys) || (expiresAt.Some? && expiresAt.value <= now) then why == BadValue
            else why == TooLarge
  {
    RevokeExactly(bs, id, now);
    assert ValidBinding(bs[id]);
    if Revoke(bs[id], now).Ok? {
      var between := bs[id := Revoke(bs[id], now).value];
      assert between.Keys == bs.Keys;
      RevokedIsFree(bs, id, Revoke(bs[id], now).value);
      FreeOnFields(between, IdentityOf(bs[id]));
      KindsOnFields(bs[id].kind, bs[id].selector);
      BindIntoRefused(between, AskAgain(bs[id], expiresAt), bs[id].missionId, o, now, context, supply);
    }
  }

  /** A rebind that does not go through is refused with its cause. */
  lemma RebindRefusedExactly(d: Document, id: Id, expiresAt: Option<Time>, context: Context, answer: Outcome, now: Time, supply: seq<Id>)
    requires Families(d) && FloorHolds(d) && ApplyRebind(d, id, expiresAt, context, answer, now, supply).Refused?
    ensures id in d.bindings ==> Look(d, d.bindings[id].missionId, answer, now).Ok?
    ensures var why := ApplyRebind(d, id, expiresAt, context, answer, now, supply).problem;
            if id !in d.bindings then why == BadValue
            else NotReboundFor(d.bindings, id, expiresAt, Look(d, d.bindings[id].missionId, answer, now).value, now, supply, why)
  {
    if id in d.bindings {
      var m := d.bindings[id].missionId;
      LookIsSound(d, m, answer, now);
      var looked := Look(d, m, answer, now).value;
      HF.NotFreshExactly(looked, m);
      if HF.SeesFresh(looked, m) { ReboundRefused(d.bindings, id, expiresAt, looked.observation.value, now, context, supply); }
    }
  }

  // ------------------------------------------------------------------- routing

  /** The message was decided before, by this record. */
  predicate DecidedBy(r: Routing.Route, t: InboundTurn) {
    r.inbound.transport == t.transport && r.inbound.conversationRef == t.conversationRef && r.inbound.messageRef == t.messageRef
  }

  /** Deciding a new turn adds one record of it: the decision its bindings and
      the look warrant, under the first unused id. */
  lemma RoutesAs(d: Document, t: InboundTurn, context: Context, lanes: set<Lane>, answer: Outcome, now: Time, supply: seq<Id>)
    requires Families(d) && FloorHolds(d) && ValidTurn(t) && ApplyRoute(d, t, context, lanes, answer, now, supply).Ok?
    requires forall k :: k in d.routes ==> !DecidedBy(d.routes[k], t)
    ensures var e := ApplyRoute(d, t, context, lanes, answer, now, supply).value;
            && RouteLook(d, t, answer, now).Ok? && e.writes && e.reply.Routed? && !e.reply.replayed
            && var r := e.reply.route;
               && FirstUnused(supply, d.routes.Keys, r.routeId) && r.routeId !in d.routes
               && e.document == d.(routes := d.routes[r.routeId := r])
               && RoutedAs(r, r.routeId, t, d.bindings, RouteLook(d, t, answer, now).value, now, lanes, context)
  {
    ReplayExactly(d.routes, t, context);
    forall k | k in d.routes ensures !Decides(d.routes[k], IdentityOfTurn(t)) { assert !DecidedBy(d.routes[k], t); }
    var m := RouteLookIsSound(d, t, answer, now);
    RouteSteps(d, t, context, lanes, answer, now, supply);
    DecidesAs(d, t, context, lanes, RouteLook(d, t, answer, now).value, now, supply);
  }

  lemma DecidesAs(d: Document, t: InboundTurn, context: Context, lanes: set<Lane>, looked: FreshnessResult, now: Time, supply: seq<Id>)
    requires CoherentBindings(d.bindings) && Decide(d, t, context, lanes, looked, now, supply).Ok?
    ensures var e := Decide(d, t, context, lanes, looked, now, supply).value;
            && e.writes && e.reply.Routed? && !e.reply.replayed
            && var r := e.reply.route;
               && FirstUnused(supply, d.routes.Keys, r.routeId) && r.routeId !in d.routes
               && e.document == d.(routes := d.routes[r.routeId := r])
               && RoutedAs(r, r.routeId, t, d.bindings, looked, now, lanes, context)
  {
    MintsExactly(supply, d.routes.Keys);
    NewRouteOnFields(AO.FreshId(supply, d.routes.Keys, AO.MINT_TRIES).value.id, t, d.bindings, looked, now, lanes, context);
  }

  /** A turn decided before is answered with its record, unwritten, exactly to the
      same context and content; to another context or content it is refused. */
  lemma RoutesAgainExactly(d: Document, t: InboundTurn, context: Context, lanes: set<Lane>, answer: Outcome, now: Time, supply: seq<Id>, k: Id)
    requires Families(d) && FloorHolds(d) && ValidTurn(t) && k in d.routes && DecidedBy(d.routes[k], t)
    ensures ApplyRoute(d, t, context, lanes, answer, now, supply)
            == if d.routes[k].provenance.context != context then Refused(ContextMismatch)
               else if d.routes[k].inbound != t then Refused(IdempotencyConflict)
               else Ok(Effect(d, false, Routed(true, d.routes[k])))
  {
    assert Decides(d.routes[k], IdentityOfTurn(t));
    ReplayExactly(d.routes, t, context);
  }

  // ----------------------------------------------------------------- attention

  /** What a projection under this look leaves and reports: saved exactly when it
      changed something. */
  ghost predicate ProjectedAs(d: Document, e: Effect, dest: Destination, looked: FreshnessResult, now: Time) {
    && e.reply.Projected? && e.reply.freshness == looked.freshness
    && e.document == d.(attention := e.reply.work.records) && (e.writes <==> e.document != d)
    && (if looked.freshness == Fresh then
          && looked.observation.Some?
          && AF.Projected(d.attention, e.document.attention, looked.observation.value, dest, now)
          && AR.Reports(d.attention, e.reply.work, looked.observation.value, dest)
        else e.document == d)
  }

  lemma FreshIsProjectedAs(d: Document, dest: Destination, o: Observation, now: Time, supply: seq<Id>)
    requires A.AcceptedAttention(d.attention) && ValidObservation(o)
    requires AO.Project(d.attention, o.missionId, dest, FreshnessResult(Fresh, Some(o)), now, supply).Ok?
    ensures ProjectedAs(d, ProjectedEffect(d, Fresh, AO.Project(d.attention, o.missionId, dest, FreshnessResult(Fresh, Some(o)), now, supply).value),
                        dest, FreshnessResult(Fresh, Some(o)), now)
  {
    AF.ProjectionOnFields(d.attention, dest, o, now, supply);
    AR.ProjectionReports(d.attention, dest, o, now, supply);
    AR.ReportedIsChanged(d.attention, dest, o, now, supply);
  }

  /** Projecting a FRESH look writes what the fields call for, and is saved
      exactly when that changes something. */
  lemma ProjectsAs(d: Document, m: Id, dest: Destination, answer: Outcome, now: Time, supply: seq<Id>)
    requires Families(d) && FloorHolds(d) && ApplyProject(d, m, dest, answer, now, supply).Ok?
    ensures Look(d, m, answer, now).Ok?
    ensures ProjectedAs(d, ApplyProject(d, m, dest, answer, now, supply).value, dest, Look(d, m, answer, now).value, now)
  {
    LookIsSound(d, m, answer, now);
    UnderIsProjectedAs(d, m, dest, Look(d, m, answer, now).value, now, supply);
  }

  lemma UnderIsProjectedAs(d: Document, m: Id, dest: Destination, looked: FreshnessResult, now: Time, supply: seq<Id>)
    requires A.AcceptedAttention(d.attention) && ProjectUnder(d, m, dest, looked, now, supply).Ok?
    requires looked.observation.Some? ==> ValidObservation(looked.observation.value)
    requires looked.freshness == Fresh ==> looked.observation.Some?
    ensures ProjectedAs(d, ProjectUnder(d, m, dest, looked, now, supply).value, dest, looked, now)
  {
    if looked.freshness == Fresh { FreshIsProjectedAs(d, dest, looked.observation.value, now, supply); }
  }

  /** Acknowledging writes the acknowledgment on that record, and nothing else. */
  lemma AcknowledgesAs(d: Document, id: Id, context: Context, answer: Outcome, now: Time)
    requires Families(d) && FloorHolds(d) && ApplyAcknowledge(d, id, context, answer, now).Ok?
    ensures id in d.attention && Look(d, d.attention[id].missionId, answer, now).Ok?
    ensures var e, looked := ApplyAcknowledge(d, id, context, answer, now).value, Look(d, d.attention[id].missionId, answer, now).value;
            var read := if looked.freshness == Fresh && looked.observation.Some? then Some(PointOf(looked.observation.value)) else None;
            var a := d.attention[id].(presentation := Acknowledged, ackAt := Some(now), ackBy := Some(context),
                                      ackFreshness := Some(looked.freshness),
                                      ackCursor := if read.None? then None else Some(read.value.cursor), ackPoint := read);
            e == Effect(d.(attention := d.attention[id := a]), true, Acked(a))
  {
    AcknowledgeShape(d, id, context, answer, now);
    AF.AcknowledgeOnFields(d.attention, id, context, Look(d, d.attention[id].missionId, answer, now).value, now);
  }

  /** What surfacing under this look leaves: the record shown, or corrected, or
      nothing changed; saved exactly in the first two cases. */
  ghost predicate SurfacedAs(d: Document, e: Effect, id: Id, looked: FreshnessResult, receipt: AO.PresenterReceipt, now: Time) {
    && id in d.attention && e.reply.Surfacing? && e.reply.outcome.freshness == looked.freshness
    && (e.writes <==> e.reply.outcome.surfaced || e.reply.outcome.contradicted)
    && e.document == d.(attention := e.document.attention) && e.document.attention == e.reply.outcome.work.records
    && if looked.freshness != Fresh || looked.observation.None? then
         !e.reply.outcome.surfaced && !e.reply.outcome.contradicted && e.document == d
       else if !AL.Portrays(d.attention[id], looked.observation.value) then
         && e.reply.outcome.contradicted && !e.reply.outcome.surfaced
         && AF.Corrected(d.attention, e.document.attention, looked.observation.value, now, id)
       else if receipt.Shown? then
         && e.reply.outcome.surfaced && !e.reply.outcome.contradicted
         && id in e.document.attention && e.document.attention == d.attention[id := e.document.attention[id]]
         && AF.MarkedShown(d.attention[id], e.document.attention[id], receipt.messageRef, looked.observation.value, now)
       else !e.reply.outcome.surfaced && !e.reply.outcome.contradicted && e.document == d
  }

  /** Surfacing is saved exactly when the record was shown or was contradicted. */
  lemma SurfacesAs(d: Document, id: Id, receipt: AO.PresenterReceipt, answer: Outcome, now: Time, supply: seq<Id>)
    requires Families(d) && FloorHolds(d) && ApplySurface(d, id, receipt, answer, now, supply).Ok?
    ensures id in d.attention && Look(d, d.attention[id].missionId, answer, now).Ok?
    ensures SurfacedAs(d, ApplySurface(d, id, receipt, answer, now, supply).value, id, Look(d, d.attention[id].missionId, answer, now).value,
                       receipt, now)
  {
    SurfaceShape(d, id, receipt, answer, now, supply);
    LookIsSound(d, d.attention[id].missionId, answer, now);
    UnderIsSurfacedAs(d, id, receipt, Look(d, d.attention[id].missionId, answer, now).value, now, supply);
  }

  lemma UnderIsSurfacedAs(d: Document, id: Id, receipt: AO.PresenterReceipt, looked: FreshnessResult, now: Time, supply: seq<Id>)
    requires A.AcceptedAttention(d.attention) && (looked.observation.Some? ==> ValidObservation(looked.observation.value))
    requires SurfaceUnder(d, id, receipt, looked, now, supply).Ok?
    ensures SurfacedAs(d, SurfaceUnder(d, id, receipt, looked, now, supply).value, id, looked, receipt, now)
  {
    AF.SurfaceOnFields(d.attention, id, looked, receipt, now, supply);
  }

  // ------------------------------------------------------------------ handoffs

  /** A roster change writes exactly the roster asked for. */
  lemma RegistersAs(d: Document, m: Id, participants: seq<Participant>, context: Context, answer: Outcome, now: Time)
    requires Families(d) && FloorHolds(d) && ApplySetRoster(d, m, participants, context, answer, now).Ok?
    ensures Look(d, m, answer, now).Ok? && Look(d, m, answer, now).value.observation.Some?
    ensures var e := ApplySetRoster(d, m, participants, context, answer, now).value;
            && e.writes && e.reply.Registered? && e.document == d.(rosters := d.rosters[m := e.reply.roster])
            && HF.RegisteredAs(e.reply.roster, m, participants, Look(d, m, answer, now).value.observation.value, now, context)
  {
    LookIsSound(d, m, answer, now);
    HF.RegistersExactly(d.handoffs, d.rosters, m, participants, Look(d, m, answer, now).value, now, context);
  }

  /** Creating a handoff succeeds exactly with an unused id at hand when the
      fields allow it; it writes the one record asked for, or returns the
      record its key already stands for and writes nothing. */
  lemma HandsOffExactly(d: Document, q: HO.Request, context: Context, answer: Outcome, now: Time, supply: seq<Id>)
    requires Families(d) && FloorHolds(d)
    ensures Look(d, q.missionId, answer, now).Ok? && HL.Rooted(d.handoffs)
    ensures var looked, r := Look(d, q.missionId, answer, now).value, ApplyCreate(d, q, context, answer, now, supply);
            && (r.Ok? <==> IdAtHand(supply, d.handoffs.Keys) && HF.MayCreate(d.handoffs, d.rosters, q, looked))
            && (r.Ok? ==>
                  && looked.observation.Some? && r.value.reply.HandedOff?
                  && r.value.document == d.(handoffs := r.value.document.handoffs)
                  && (r.value.writes <==> !HF.KeyTaken(d.handoffs, q))
                  && exists id :: FirstUnused(supply, d.handoffs.Keys, id)
                       && HF.CreatedAs(d.handoffs, HO.Creation(r.value.document.handoffs, r.value.reply.handoff), id, q,
                                       looked.observation.value, now, context))
  {
    LookIsSound(d, q.missionId, answer, now);
    MintsExactly(supply, d.handoffs.Keys);
    HL.AcceptedIsRooted(d.handoffs, d.rosters);
    var minted := AO.FreshId(supply, d.handoffs.Keys, AO.MINT_TRIES);
    if minted.Ok? { CreatesUnder(d, minted.value.id, q, context, Look(d, q.missionId, answer, now).value, now); }
  }

  lemma CreatesUnder(d: Document, id: Id, q: HO.Request, context: Context, looked: FreshnessResult, now: Time)
    requires Families(d) && id !in d.handoffs && (looked.observation.Some? ==> ValidObservation(looked.observation.value))
    ensures HL.Rooted(d.handoffs)
    ensures var r := CreateUnder(d, id, q, context, looked, now);
            && (r.Ok? <==> HF.MayCreate(d.handoffs, d.rosters, q, looked))
            && (r.Ok? ==>
                  && looked.observation.Some? && r.value.reply.HandedOff?
                  && r.value.document == d.(handoffs := r.value.document.handoffs)
                  && (r.value.writes <==> !HF.KeyTaken(d.handoffs, q))
                  && HF.CreatedAs(d.handoffs, HO.Creation(r.value.document.handoffs, r.value.reply.handoff), id, q,
                                  looked.observation.value, now, context))
  {
    HF.CreatesExactly(d.handoffs, d.rosters, id, q, looked, now, context);
    var made := HO.CreateHandoff(d.handoffs, d.rosters, id, q, looked, now, context);
    if made.Ok? {
      HF.CreationOnFields(d.handoffs, d.rosters, id, q, looked, now, context);
      RecordedOnce(d, made.value, id, q, looked.observation.value, now, context);
    }
  }

  lemma RecordedOnce(d: Document, r: HO.Creation, id: Id, q: HO.Request, o: Observation, now: Time, context: Context)
    requires Families(d) && id !in d.handoffs && HF.CreatedAs(d.handoffs, r, id, q, o, now, context)
    ensures r.record.handoffId in d.handoffs <==> HF.KeyTaken(d.handoffs, q)
  {
    if HF.KeyTaken(d.handoffs, q) {
      var k :| k in d.handoffs && d.handoffs[k] == r.record;
      assert H.HandoffOk(d.rosters, d.handoffs[k], k);
    }
  }

  /** What marking a handoff asks under this look. */
  ghost predicate MayMark(d: Document, id: Id, status: HandoffStatus, actor: Participant, looked: FreshnessResult, now: Time) {
    && id in d.handoffs && HF.Wired(d.handoffs[id].status, status) && HF.ActsAs(d.handoffs[id], status, actor)
    && HF.Rereads(d.handoffs[id], looked) && d.handoffs[id].updatedAt <= now
  }

  /** The handoff with one entry more and its status, saved; nothing else. */
  ghost predicate MarksAs(d: Document, e: Effect, id: Id, status: HandoffStatus, actor: Participant, looked: FreshnessResult, now: Time,
                          context: Context) {
    && id in d.handoffs && looked.observation.Some? && e.writes && e.reply.HandedOff?
    && e.document == d.(handoffs := d.handoffs[id := e.reply.handoff])
    && HF.MarkedAs(d.handoffs[id], e.reply.handoff, status, actor, looked.observation.value, now, context)
  }

  lemma MarkSteps(d: Document, id: Id, status: HandoffStatus, actor: Participant, context: Context, looked: FreshnessResult, now: Time,
                  moved: Result<H.HandoffMap>)
    requires moved == HO.TransitionHandoff(d.handoffs, id, status, actor, looked, now, context) && (moved.Ok? ==> id in moved.value)
    ensures TransitionUnder(d, id, status, actor, context, looked, now)
            == if moved.Refused? then Refused(moved.problem) else Ok(Effect(d.(handoffs := moved.value), true, HandedOff(moved.value[id])))
  {
  }

  lemma MarksUnder(d: Document, id: Id, status: HandoffStatus, actor: Participant, context: Context, looked: FreshnessResult, now: Time)
    requires H.AcceptedHandoffs(d.handoffs, d.rosters) && (looked.observation.Some? ==> ValidObservation(looked.observation.value))
    ensures var r := TransitionUnder(d, id, status, actor, context, looked, now);
            && (r.Ok? <==> MayMark(d, id, status, actor, looked, now))
            && (r.Ok? ==> MarksAs(d, r.value, id, status, actor, looked, now, context))
  {
    MovesAs(d, id, status, actor, context, looked, now);
    var moved := HO.TransitionHandoff(d.handoffs, id, status, actor, looked, now, context);
    MarkSteps(d, id, status, actor, context, looked, now, moved);
    MarksFrom(d, TransitionUnder(d, id, status, actor, context, looked, now), moved, id, status, actor, context, looked, now);
  }

  lemma MovesAs(d: Document, id: Id, status: HandoffStatus, actor: Participant, context: Context, looked: FreshnessResult, now: Time)
    requires H.AcceptedHandoffs(d.handoffs, d.rosters) && (looked.observation.Some? ==> ValidObservation(looked.observation.value))
    ensures var moved := HO.TransitionHandoff(d.handoffs, id, status, actor, looked, now, context);
            && (moved.Ok? <==> MayMark(d, id, status, actor, looked, now))
            && (moved.Ok? ==> && id in moved.value && moved.value == d.handoffs[id := moved.value[id]] && looked.observation.Some?
                              && HF.MarkedAs(d.handoffs[id], moved.value[id], status, actor, looked.observation.value, now, context))
  {
    HF.TransitionsExactly(d.handoffs, d.rosters, id, status, actor, looked, now, context);
  }

  lemma MarksFrom(d: Document, r: Result<Effect>, moved: Result<H.HandoffMap>, id: Id, status: HandoffStatus, actor: Participant, context: Context,
                  looked: FreshnessResult, now: Time)
    requires moved.Ok? <==> MayMark(d, id, status, actor, looked, now)
    requires moved.Ok? ==> && id in moved.value && moved.value == d.handoffs[id := moved.value[id]] && looked.observation.Some?
                           && HF.MarkedAs(d.handoffs[id], moved.value[id], status, actor, looked.observation.value, now, context)
    requires r == if moved.Refused? then Refused(moved.problem) else Ok(Effect(d.(handoffs := moved.value), true, HandedOff(moved.value[id])))
    ensures r.Ok? <==> MayMark(d, id, status, actor, looked, now)
    ensures r.Ok? ==> MarksAs(d, r.value, id, status, actor, looked, now, context)
  {
  }

  /** A status change succeeds exactly when it is wired, its own actor's, under a
      FRESH read that proves it again, the clock not behind; it then writes one
      entry and the status. */
  lemma MarksExactly(d: Document, id: Id, status: HandoffStatus, actor: Participant, context: Context, answer: Outcome, now: Time)
    requires Families(d) && FloorHolds(d)
    ensures id in d.handoffs ==> Look(d, d.handoffs[id].missionId, answer, now).Ok?
    ensures var r := ApplyTransition(d, id, status, actor, context, answer, now);
            && (r.Ok? <==> id in d.handoffs && MayMark(d, id, status, actor, Look(d, d.handoffs[id].missionId, answer, now).value, now))
            && (r.Ok? ==> MarksAs(d, r.value, id, status, actor, Look(d, d.handoffs[id].missionId, answer, now).value, now, context))
  {
    if id in d.handoffs {
      LookIsSound(d, d.handoffs[id].missionId, answer, now);
      MarksUnder(d, id, status, actor, context, Look(d, d.handoffs[id].missionId, answer, now).value, now);
    }
  }
}
