/** What every call keeps, and what holds over whole runs from the default
    document, whatever the source answers and the clocks say. */
module ServiceLaws {
  import opened Record
  import opened Observations
  import opened Floor
  import opened Bindings
  import opened Routing
  import opened Replays
  import opened Documents
  import opened Service
  import A = Attentions
  import AO = AttentionOps
  import AL = AttentionLaws
  import H = Handoffs
  import HO = HandoffOps
  import HL = HandoffLaws

  // ------------------------------------------------------------------ history

  ghost predicate RouteHistory(was: RouteMap, now: RouteMap) {
    forall k :: k in was ==> k in now && now[k] == was[k]
  }

  /** History only grows: route decisions never change or disappear; bindings
      change only by one revocation; attention records move by their table; a
      handoff's transition list is only extended. */
  ghost predicate History(d: Document, d': Document) {
    && BindingHistory(d.bindings, d'.bindings)
    && RouteHistory(d.routes, d'.routes)
    && AL.AttentionHistory(d.attention, d'.attention)
    && HL.HandoffHistory(d.handoffs, d'.handoffs)
    && d.rosters.Keys <= d'.rosters.Keys
  }

  lemma HistoryIsReflexive(d: Document)
    ensures History(d, d)
  {
  }

  lemma BindingHistoryComposes(a: BindingMap, b: BindingMap, c: BindingMap)
    requires BindingHistory(a, b) && BindingHistory(b, c)
    ensures BindingHistory(a, c)
  {
    forall k | k in a ensures k in c && (c[k] == a[k] || RevokedCopy(a[k], c[k])) {
      assert k in b && (b[k] == a[k] || RevokedCopy(a[k], b[k]));
    }
  }

  lemma HistoryComposes(a: Document, b: Document, c: Document)
    requires History(a, b) && History(b, c)
    ensures History(a, c)
  {
    BindingHistoryComposes(a.bindings, b.bindings, c.bindings);
    AL.HistoryComposes(a.attention, b.attention, c.attention);
    HL.HistoryComposes(a.handoffs, b.handoffs, c.handoffs);
  }

  lemma BindingsHistory(d: Document, bs: BindingMap)
    requires BindingHistory(d.bindings, bs)
    ensures History(d, d.(bindings := bs))
  {
  }

  lemma RoutesHistory(d: Document, rs: RouteMap)
    requires RouteHistory(d.routes, rs)
    ensures History(d, d.(routes := rs))
  {
  }

  lemma RecordsHistory(d: Document, a: A.AttentionMap)
    requires AL.AttentionHistory(d.attention, a)
    ensures History(d, d.(attention := a))
  {
  }

  lemma HandoffsHistory(d: Document, h: H.HandoffMap)
    requires HL.HandoffHistory(d.handoffs, h)
    ensures History(d, d.(handoffs := h))
  {
  }

  lemma RostersHistory(d: Document, rs: H.RosterMap)
    requires d.rosters.Keys <= rs.Keys
    ensures History(d, d.(rosters := rs))
  {
  }

  // -------------------------------------------------------------------- reads

  ghost predicate Grows(was: set<Point>, now: set<Point>, read: Option<Point>) { was <= now <= was + Opt(read) }

  /** Every family's reads of this Mission grow by at most this read, those of
      other Missions stay; the roster is not touched. */
  ghost predicate FamiliesGrow(d: Document, d': Document, m: Id, read: Option<Point>) {
    && (forall x :: Grows(BindingReads(d.bindings, x), BindingReads(d'.bindings, x), if x == m then read else None))
    && (forall x :: Grows(RouteReads(d.routes, x), RouteReads(d'.routes, x), if x == m then read else None))
    && (forall x :: Grows(AttentionReads(d.attention, x), AttentionReads(d'.attention, x), if x == m then read else None))
    && (forall x :: Grows(HandoffReads(d.handoffs, x), HandoffReads(d'.handoffs, x), if x == m then read else None))
    && d'.rosters == d.rosters
  }

  lemma GrowsJoin(a: set<Point>, b: set<Point>, c: set<Point>, d: set<Point>, t: set<Point>,
                  a': set<Point>, b': set<Point>, c': set<Point>, d': set<Point>, read: Option<Point>)
    requires Grows(a, a', read) && Grows(b, b', read) && Grows(c, c', read) && Grows(d, d', read)
    ensures Grows(a + b + c + d + t, a' + b' + c' + d' + t, read)
  {
  }

  lemma ReadsGrowAt(d: Document, d': Document, m: Id, read: Option<Point>, x: Id)
    requires FamiliesGrow(d, d', m, read)
    ensures Grows(Reads(d, x), Reads(d', x), if x == m then read else None)
  {
    GrowsJoin(BindingReads(d.bindings, x), RouteReads(d.routes, x), AttentionReads(d.attention, x),
              HandoffReads(d.handoffs, x), RosterReads(d.rosters, x),
              BindingReads(d'.bindings, x), RouteReads(d'.routes, x), AttentionReads(d'.attention, x),
              HandoffReads(d'.handoffs, x), if x == m then read else None);
  }

  lemma GrowsNone(was: set<Point>, now: set<Point>)
    requires Grows(was, now, None)
    ensures now == was
  {
  }

  lemma FamiliesAdvance(d: Document, d': Document, m: Id, read: Option<Point>)
    requires FamiliesGrow(d, d', m, read)
    ensures ReadsAdvance(d, d', m, read)
  {
    forall x | x != m ensures Reads(d', x) == Reads(d, x) {
      ReadsGrowAt(d, d', m, read, x);
      GrowsNone(Reads(d, x), Reads(d', x));
    }
    ReadsGrowAt(d, d', m, read, m);
  }

  lemma BindingsAdvance(d: Document, bs: BindingMap, m: Id, read: Option<Point>)
    requires forall x :: Grows(BindingReads(d.bindings, x), BindingReads(bs, x), if x == m then read else None)
    ensures ReadsAdvance(d, d.(bindings := bs), m, read)
  {
    FamiliesAdvance(d, d.(bindings := bs), m, read);
  }

  lemma RoutesAdvance(d: Document, rs: RouteMap, m: Id, read: Option<Point>)
    requires forall x :: Grows(RouteReads(d.routes, x), RouteReads(rs, x), if x == m then read else None)
    ensures ReadsAdvance(d, d.(routes := rs), m, read)
  {
    FamiliesAdvance(d, d.(routes := rs), m, read);
  }

  lemma RecordsAdvance(d: Document, a: A.AttentionMap, m: Id, read: Option<Point>)
    requires AL.PointsGrow(d.attention, a, m, read)
    ensures ReadsAdvance(d, d.(attention := a), m, read)
  {
    forall x ensures Grows(AttentionReads(d.attention, x), AttentionReads(a, x), if x == m then read else None) {
      AttentionGrowReads(d.attention, a, m, read, x);
    }
    FamiliesAdvance(d, d.(attention := a), m, read);
  }

  lemma HandoffsAdvance(d: Document, h: H.HandoffMap, m: Id, read: Point)
    requires HL.PointsGrow(d.handoffs, h, m, read) && HL.HandoffHistory(d.handoffs, h)
    ensures ReadsAdvance(d, d.(handoffs := h), m, Some(read))
  {
    forall x ensures Grows(HandoffReads(d.handoffs, x), HandoffReads(h, x), if x == m then Some(read) else None) {
      HandoffGrowReads(d.handoffs, h, m, read, x);
    }
    FamiliesAdvance(d, d.(handoffs := h), m, Some(read));
  }

  // --------------------------------------------------- what each family's op adds

  lemma BindingInsertReads(bs: BindingMap, b: Binding, x: Id)
    requires b.bindingId !in bs
    ensures Grows(BindingReads(bs, x), BindingReads(bs[b.bindingId := b], x), if x == b.missionId then Some(b.point) else None)
  {
    var bs' := bs[b.bindingId := b];
    forall p | p in BindingReads(bs, x) ensures p in BindingReads(bs', x) {
      var k :| k in bs && bs[k].missionId == x && bs[k].point == p;
      assert bs'[k] == bs[k];
    }
  }

  lemma RevokedReads(bs: BindingMap, id: Id, b: Binding, x: Id)
    requires id in bs && RevokedCopy(bs[id], b)
    ensures BindingReads(bs[id := b], x) == BindingReads(bs, x)
  {
    var bs' := bs[id := b];
    forall p | p in BindingReads(bs, x) ensures p in BindingReads(bs', x) {
      var k :| k in bs && bs[k].missionId == x && bs[k].point == p;
      assert bs'[k].missionId == x && bs'[k].point == p;
    }
  }

  lemma RouteInsertReads(rs: RouteMap, r: Routing.Route, m: Id, read: Option<Point>, x: Id)
    requires r.routeId !in rs
    requires r.decision.point.Some? ==> Subject(r.decision) == Some(m) && read == r.decision.point
    ensures Grows(RouteReads(rs, x), RouteReads(rs[r.routeId := r], x), if x == m then read else None)
  {
    var rs' := rs[r.routeId := r];
    forall p | p in RouteReads(rs, x) ensures p in RouteReads(rs', x) {
      var k :| k in rs && RouteCounts(rs[k], x) && rs[k].decision.point.value == p;
      assert rs'[k] == rs[k];
    }
  }

  lemma AttentionGrowReads(a: A.AttentionMap, a': A.AttentionMap, m: Id, read: Option<Point>, x: Id)
    requires AL.PointsGrow(a, a', m, read)
    ensures Grows(AttentionReads(a, x), AttentionReads(a', x), if x == m then read else None)
  {
    forall p | p in AttentionReads(a, x) ensures p in AttentionReads(a', x) {
      var k :| k in a && a[k].missionId == x && p in AL.PointsIn(a[k]);
      assert k in a' && a'[k].missionId == x && p in AL.PointsIn(a'[k]);
    }
    forall p | p in AttentionReads(a', x) ensures p in AttentionReads(a, x) + (if x == m then Opt(read) else {}) {
      var k :| k in a' && a'[k].missionId == x && p in AL.PointsIn(a'[k]);
      if k in a {
        assert PointsBound(AL.PointsIn(a'[k]), AL.PointsIn(a[k]), a[k].missionId == m, read);
      }
    }
  }

  ghost predicate PointsBound(now: set<Point>, was: set<Point>, here: bool, read: Option<Point>) {
    now <= was + (if here then Opt(read) else {})
  }

  lemma HandoffGrowReads(h: H.HandoffMap, h': H.HandoffMap, m: Id, read: Point, x: Id)
    requires HL.PointsGrow(h, h', m, read) && HL.HandoffHistory(h, h')
    ensures Grows(HandoffReads(h, x), HandoffReads(h', x), if x == m then Some(read) else None)
  {
    forall p | p in HandoffReads(h, x) ensures p in HandoffReads(h', x) {
      var k :| k in h && h[k].missionId == x && p in HL.PointsIn(h[k]);
      assert k in h' && HL.MayFollow(h[k], h'[k]) && p in HL.PointsIn(h'[k]);
    }
    forall p | p in HandoffReads(h', x) ensures p in HandoffReads(h, x) + (if x == m then {read} else {}) {
      var k :| k in h' && h'[k].missionId == x && p in HL.PointsIn(h'[k]);
      if k in h {
        assert HL.MayFollow(h[k], h'[k]);
        assert PointsBound(HL.PointsIn(h'[k]), HL.PointsIn(h[k]), h[k].missionId == m, Some(read));
      }
    }
  }

  // ---------------------------------------------------------------- soundness

  /** What an operation makes of an accepted document: every family is still
      accepted, history only grew, the sequence stands, and the reads advanced
      by at most one read at or beyond the floor. */
  ghost predicate Sound(d: Document, d': Document, m: Id, read: Option<Point>) {
    && Families(d') && d'.sequence == d.sequence && History(d, d')
    && ReadsAdvance(d, d', m, read)
    && HighMark(d, m).Ok? && Admissible(HighMark(d, m).value, read)
  }

  lemma FamiliesOf(d: Document, d': Document)
    requires Families(d)
    requires d'.bindings == d.bindings || AcceptedBindings(d'.bindings)
    requires d'.routes == d.routes || AcceptedRoutes(d'.routes)
    requires d'.attention == d.attention || A.AcceptedAttention(d'.attention)
    requires (d'.handoffs == d.handoffs && d'.rosters == d.rosters) || H.AcceptedHandoffs(d'.handoffs, d'.rosters)
    ensures Families(d')
  {
  }

  ghost predicate SoundStep(d: Document, d': Document) { exists m, read :: Sound(d, d', m, read) }

  lemma UnchangedIsSound(d: Document, m: Id)
    requires Families(d) && FloorHolds(d)
    ensures Sound(d, d, m, None)
  {
    HighMarkIsFloor(d, m);
    HistoryIsReflexive(d);
    ReadsStay(d, m);
  }

  lemma ReadsStay(d: Document, m: Id)
    ensures ReadsAdvance(d, d, m, None)
  {
  }

  function ReadOf(looked: FreshnessResult): Option<Point> {
    if looked.freshness.Fresh? && looked.observation.Some? then Some(Observations.PointOf(looked.observation.value)) else None
  }

  lemma LookIsSound(d: Document, m: Id, answer: Outcome, now: Time)
    requires FloorHolds(d)
    ensures Look(d, m, answer, now).Ok? && HighMark(d, m).Ok?
    ensures var looked := Look(d, m, answer, now).value;
            && (looked.observation.Some? ==> ValidObservation(looked.observation.value) && looked.observation.value.missionId == m)
            && (looked.freshness.Fresh? ==> looked.observation.Some?)
            && Admissible(HighMark(d, m).value, ReadOf(looked))
  {
    LookIsAdmissible(d, m, answer, now);
  }

  // ------------------------------------------------------------------ routing

  lemma RouteInsertIsAccepted(rs: RouteMap, r: Routing.Route)
    requires AcceptedRoutes(rs) && ValidRoute(r) && r.routeId !in rs
    requires forall k :: k in rs ==> !Decides(rs[k], IdentityOfTurn(r.inbound))
    ensures AcceptedRoutes(rs[r.routeId := r]) && RouteHistory(rs, rs[r.routeId := r])
  {
    var rs' := rs[r.routeId := r];
    forall k | k in rs' ensures RouteOk(rs'[k], k) {
      assert k in rs ==> RouteOk(rs[k], k);
    }
    forall j, k | j in rs' && k in rs' && SameTurn(rs'[j], rs'[k]) ensures j == k {
      assert j in rs && k in rs ==> (SameTurn(rs[j], rs[k]) ==> j == k);
      assert j in rs ==> !Decides(rs[j], IdentityOfTurn(r.inbound));
      assert k in rs ==> !Decides(rs[k], IdentityOfTurn(r.inbound));
    }
  }

  lemma RouteAddedIsSound(d: Document, r: Routing.Route, m: Id, read: Option<Point>)
    requires Families(d) && HighMark(d, m).Ok? && Admissible(HighMark(d, m).value, read)
    requires ValidRoute(r) && r.routeId !in d.routes
    requires forall k :: k in d.routes ==> !Decides(d.routes[k], IdentityOfTurn(r.inbound))
    requires r.decision.point.Some? ==> Subject(r.decision) == Some(m) && read == r.decision.point
    ensures Sound(d, d.(routes := d.routes[r.routeId := r]), m, read)
  {
    var rs := d.routes[r.routeId := r];
    RouteInsertIsAccepted(d.routes, r);
    forall x ensures Grows(RouteReads(d.routes, x), RouteReads(rs, x), if x == m then read else None) {
      RouteInsertReads(d.routes, r, m, read, x);
    }
    RoutesAdvance(d, rs, m, read);
    RoutesHistory(d, rs);
    FamiliesOf(d, d.(routes := rs));
  }

  lemma RouteLookIsSound(d: Document, t: InboundTurn, answer: Outcome, now: Time) returns (m: Id)
    requires FloorHolds(d)
    ensures RouteLook(d, t, answer, now).Ok? && HighMark(d, m).Ok?
    ensures var looked, asked := RouteLook(d, t, answer, now).value, Consulted(t, NamedTiers(t), d.bindings, now);
            && (asked.Some? ==> asked == Some(m))
            && (looked.observation.Some? ==> ValidObservation(looked.observation.value))
            && Admissible(HighMark(d, m).value, ReadOf(looked))
  {
    var asked := Consulted(t, NamedTiers(t), d.bindings, now);
    m := if asked.Some? then asked.value else 0;
    LookIsSound(d, m, answer, now);
  }

  /** The record a route call appends, when it appends one. */
  lemma RouteShape(d: Document, t: InboundTurn, context: Context, lanes: set<Lane>, answer: Outcome, now: Time, supply: seq<Id>)
    requires ApplyRoute(d, t, context, lanes, answer, now, supply).Ok?
    ensures var e := ApplyRoute(d, t, context, lanes, answer, now, supply).value;
            if FindReplay(d.routes, t, context).value.Some? then
              e == Effect(d, false, Routed(true, FindReplay(d.routes, t, context).value.value))
            else
              && RouteLook(d, t, answer, now).Ok? && e.reply.Routed? && !e.reply.replayed && e.writes
              && var r, looked := e.reply.route, RouteLook(d, t, answer, now).value;
                 && e.document == d.(routes := d.routes[r.routeId := r]) && r.routeId !in d.routes
                 && ValidRoute(r) && r.inbound == t && r.decision == Derive(t, NamedTiers(t), d.bindings, looked, now)
                 && r.provenance.context == context
  {
  }

  lemma RouteIsSound(d: Document, t: InboundTurn, context: Context, lanes: set<Lane>, answer: Outcome, now: Time, supply: seq<Id>)
    requires Families(d) && FloorHolds(d) && ApplyRoute(d, t, context, lanes, answer, now, supply).Ok?
    ensures SoundStep(d, ApplyRoute(d, t, context, lanes, answer, now, supply).value.document)
  {
    var e := ApplyRoute(d, t, context, lanes, answer, now, supply).value;
    RouteShape(d, t, context, lanes, answer, now, supply);
    if FindReplay(d.routes, t, context).value.Some? {
      UnchangedIsSound(d, 0);
      assert Sound(d, e.document, 0, None);
    } else {
      ReplayExactly(d.routes, t, context);
      DecidedIsSound(d, t, e.reply.route, answer, now);
    }
  }

  lemma DecidedIsSound(d: Document, t: InboundTurn, r: Routing.Route, answer: Outcome, now: Time)
    requires Families(d) && FloorHolds(d) && ValidRoute(r) && r.routeId !in d.routes && r.inbound == t
    requires RouteLook(d, t, answer, now).Ok?
    requires r.decision == Derive(t, NamedTiers(t), d.bindings, RouteLook(d, t, answer, now).value, now)
    requires forall k :: k in d.routes ==> !Decides(d.routes[k], IdentityOfTurn(t))
    ensures SoundStep(d, d.(routes := d.routes[r.routeId := r]))
  {
    var looked := RouteLook(d, t, answer, now).value;
    var m := RouteLookIsSound(d, t, answer, now);
    DerivedPoint(t, NamedTiers(t), d.bindings, looked, now);
    RouteAddedIsSound(d, r, m, ReadOf(looked));
    Witness(d, d.(routes := d.routes[r.routeId := r]), m, ReadOf(looked));
  }

  // ----------------------------------------------------------------- bindings

  /** Bound at this clock, in this context, at the revision read, until this expiry. */
  predicate BoundNow(b: Binding, expiresAt: Option<Time>, o: Observation, now: Time, context: Context) {
    && b.expiresAt == expiresAt && b.boundAt == now && b.boundBy == context
    && b.boundRevision == o.currentRevision && !b.revoked && b.revokedAt.None?
  }

  lemma NewBindingFields(id: Id, ask: BindingAsk, m: Id, o: Observation, now: Time, context: Context)
    requires NewBinding(id, ask.kind, ask.transport, ask.conversationRef, ask.selector, m, o, now, ask.expiresAt, context).Ok?
    ensures var b := NewBinding(id, ask.kind, ask.transport, ask.conversationRef, ask.selector, m, o, now, ask.expiresAt, context).value;
            b.bindingId == id && b.missionId == m && b.point == Observations.PointOf(o) && ValidBinding(b)
            && BoundNow(b, ask.expiresAt, o, now, context)
            && IdentityOf(b) == BindingIdentity(ask.kind, ask.transport, ask.conversationRef, ask.selector)
  {
  }

  lemma BindIntoKeeps(bs: BindingMap, ask: BindingAsk, m: Id, o: Observation, now: Time, context: Context, supply: seq<Id>)
    requires AcceptedBindings(bs) && BindInto(bs, ask, m, o, now, context, supply).Ok?
    ensures var r := BindInto(bs, ask, m, o, now, context, supply).value;
            && AcceptedBindings(r.bindings) && BindingHistory(bs, r.bindings)
            && r.binding.bindingId !in bs && r.bindings == bs[r.binding.bindingId := r.binding]
            && r.binding.missionId == m && r.binding.point == Observations.PointOf(o)
            && IdentityOf(r.binding) == BindingIdentity(ask.kind, ask.transport, ask.conversationRef, ask.selector)
            && BoundNow(r.binding, ask.expiresAt, o, now, context)
  {
    var minted := AO.FreshId(supply, bs.Keys, AO.MINT_TRIES).value;
    NewBindingFields(minted.id, ask, m, o, now, context);
    InsertIsCoherent(bs, NewBinding(minted.id, ask.kind, ask.transport, ask.conversationRef, ask.selector, m, o, now,
                                    ask.expiresAt, context).value);
  }

  lemma BindingsChangeIsSound(d: Document, bs': BindingMap, m: Id, read: Option<Point>)
    requires Families(d) && AcceptedBindings(bs') && BindingHistory(d.bindings, bs')
    requires HighMark(d, m).Ok? && Admissible(HighMark(d, m).value, read)
    requires forall x :: Grows(BindingReads(d.bindings, x), BindingReads(bs', x), if x == m then read else None)
    ensures Sound(d, d.(bindings := bs'), m, read)
  {
    BindingsAdvance(d, bs', m, read);
    BindingsHistory(d, bs');
    FamiliesOf(d, d.(bindings := bs'));
  }

  lemma BindIsSound(d: Document, ask: BindingAsk, m: Id, context: Context, answer: Outcome, now: Time, supply: seq<Id>)
    requires Families(d) && FloorHolds(d) && ApplyBind(d, ask, m, context, answer, now, supply).Ok?
    ensures SoundStep(d, ApplyBind(d, ask, m, context, answer, now, supply).value.document)
  {
    var d' := ApplyBind(d, ask, m, context, answer, now, supply).value.document;
    LookIsSound(d, m, answer, now);
    var looked := Look(d, m, answer, now).value;
    var o := looked.observation.value;
    var r := BindInto(d.bindings, ask, m, o, now, context, supply).value;
    BindIntoKeeps(d.bindings, ask, m, o, now, context, supply);
    forall x ensures Grows(BindingReads(d.bindings, x), BindingReads(r.bindings, x), if x == m then ReadOf(looked) else None) {
      BindingInsertReads(d.bindings, r.binding, x);
    }
    BindingsChangeIsSound(d, r.bindings, m, ReadOf(looked));
    assert Sound(d, d', m, ReadOf(looked));
  }

  lemma Witness(d: Document, d': Document, m: Id, read: Option<Point>)
    requires Sound(d, d', m, read)
    ensures SoundStep(d, d')
  {
  }

  lemma RevokedIsCopy(b: Binding, now: Time)
    requires Revoke(b, now).Ok?
    ensures RevokedCopy(b, Revoke(b, now).value) && Revoke(b, now).value.missionId == b.missionId
  {
  }

  lemma RevokedReadsEverywhere(d: Document, id: Id, b: Binding)
    requires id in d.bindings && RevokedCopy(d.bindings[id], b)
    ensures forall x :: Grows(BindingReads(d.bindings, x), BindingReads(d.bindings[id := b], x), None)
  {
    forall x ensures Grows(BindingReads(d.bindings, x), BindingReads(d.bindings[id := b], x), None) {
      RevokedReads(d.bindings, id, b, x);
    }
  }

  lemma RevokeIsSound(d: Document, id: Id, now: Time)
    requires Families(d) && FloorHolds(d) && ApplyRevoke(d, id, now).Ok?
    ensures SoundStep(d, ApplyRevoke(d, id, now).value.document)
  {
    var b := Revoke(d.bindings[id], now).value;
    RevokedIsCopy(d.bindings[id], now);
    RevokeIsAccepted(d.bindings, id, now);
    HighMarkIsFloor(d, 0);
    RevokedReadsEverywhere(d, id, b);
    BindingsChangeIsSound(d, d.bindings[id := b], 0, None);
    Witness(d, d.(bindings := d.bindings[id := b]), 0, None);
  }

  lemma RebindReads(bs: BindingMap, id: Id, revoked: Binding, b: Binding, x: Id)
    requires id in bs && RevokedCopy(bs[id], revoked) && b.bindingId !in bs
    ensures Grows(BindingReads(bs, x), BindingReads(bs[id := revoked][b.bindingId := b], x),
                  if x == b.missionId then Some(b.point) else None)
  {
    RevokedReads(bs, id, revoked, x);
    BindingInsertReads(bs[id := revoked], b, x);
  }

  lemma ReboundKeeps(bs: BindingMap, id: Id, expiresAt: Option<Time>, o: Observation, now: Time, context: Context, supply: seq<Id>)
    requires AcceptedBindings(bs) && id in bs && Rebound(bs, id, expiresAt, o, now, context, supply).Ok?
    ensures var r := Rebound(bs, id, expiresAt, o, now, context, supply).value;
            && AcceptedBindings(r.bindings) && BindingHistory(bs, r.bindings)
            && r.bindings[id] == Revoke(bs[id], now).value && IdentityOf(r.binding) == IdentityOf(bs[id])
            && r.binding.bindingId !in bs && r.bindings == bs[id := r.bindings[id]][r.binding.bindingId := r.binding]
            && r.binding.missionId == bs[id].missionId && r.binding.point == Observations.PointOf(o)
            && RevokedCopy(bs[id], r.bindings[id]) && BoundNow(r.binding, expiresAt, o, now, context)
  {
    var between := bs[id := Revoke(bs[id], now).value];
    RevokedIsCopy(bs[id], now);
    RevokeIsAccepted(bs, id, now);
    BindIntoKeeps(between, AskAgain(bs[id], expiresAt), bs[id].missionId, o, now, context, supply);
    var r := BindInto(between, AskAgain(bs[id], expiresAt), bs[id].missionId, o, now, context, supply).value;
    BindingHistoryComposes(bs, between, r.bindings);
  }

  lemma FreshGives(looked: FreshnessResult, m: Id)
    requires HO.RequireFresh(looked, m).Ok?
    ensures looked.freshness.Fresh? && looked.observation.Some? && HO.RequireFresh(looked, m) == Ok(looked.observation.value)
  {
  }

  lemma ReboundIsSound(d: Document, id: Id, expiresAt: Option<Time>, o: Observation, now: Time, context: Context, supply: seq<Id>)
    requires Families(d) && id in d.bindings && Rebound(d.bindings, id, expiresAt, o, now, context, supply).Ok?
    requires HighMark(d, d.bindings[id].missionId).Ok?
    requires Admissible(HighMark(d, d.bindings[id].missionId).value, Some(Observations.PointOf(o)))
    ensures SoundStep(d, d.(bindings := Rebound(d.bindings, id, expiresAt, o, now, context, supply).value.bindings))
  {
    var m, read := d.bindings[id].missionId, Some(Observations.PointOf(o));
    var r := Rebound(d.bindings, id, expiresAt, o, now, context, supply).value;
    ReboundKeeps(d.bindings, id, expiresAt, o, now, context, supply);
    forall x ensures Grows(BindingReads(d.bindings, x), BindingReads(r.bindings, x), if x == m then read else None) {
      RebindReads(d.bindings, id, r.bindings[id], r.binding, x);
    }
    BindingsChangeIsSound(d, r.bindings, m, read);
    Witness(d, d.(bindings := r.bindings), m, read);
  }

  lemma RebindUnderIsSound(d: Document, id: Id, expiresAt: Option<Time>, looked: FreshnessResult, now: Time,
                           context: Context, supply: seq<Id>)
    requires Families(d) && id in d.bindings && RebindUnder(d, id, expiresAt, looked, now, context, supply).Ok?
    requires HighMark(d, d.bindings[id].missionId).Ok?
    requires Admissible(HighMark(d, d.bindings[id].missionId).value, ReadOf(looked))
    ensures SoundStep(d, RebindUnder(d, id, expiresAt, looked, now, context, supply).value.document)
  {
    FreshGives(looked, d.bindings[id].missionId);
    ReboundIsSound(d, id, expiresAt, looked.observation.value, now, context, supply);
  }

  lemma RebindIsSound(d: Document, id: Id, expiresAt: Option<Time>, context: Context, answer: Outcome, now: Time, supply: seq<Id>)
    requires Families(d) && FloorHolds(d) && ApplyRebind(d, id, expiresAt, context, answer, now, supply).Ok?
    ensures SoundStep(d, ApplyRebind(d, id, expiresAt, context, answer, now, supply).value.document)
  {
    LookIsSound(d, d.bindings[id].missionId, answer, now);
    RebindUnderIsSound(d, id, expiresAt, Look(d, d.bindings[id].missionId, answer, now).value, now, context, supply);
  }

  // ---------------------------------------------------------------- attention

  lemma AttentionChangeIsSound(d: Document, a': A.AttentionMap, m: Id, read: Option<Point>)
    requires Families(d) && AL.Keeps(d.attention, a', m, read)
    requires HighMark(d, m).Ok? && Admissible(HighMark(d, m).value, read)
    ensures Sound(d, d.(attention := a'), m, read)
  {
    RecordsAdvance(d, a', m, read);
    RecordsHistory(d, a');
    FamiliesOf(d, d.(attention := a'));
  }

  lemma ProjectIsSound(d: Document, m: Id, dest: Destination, answer: Outcome, now: Time, supply: seq<Id>)
    requires Families(d) && FloorHolds(d) && ApplyProject(d, m, dest, answer, now, supply).Ok?
    ensures SoundStep(d, ApplyProject(d, m, dest, answer, now, supply).value.document)
  {
    ProjectedShape(d, m, dest, answer, now, supply);
    LookIsSound(d, m, answer, now);
    var looked := Look(d, m, answer, now).value;
    var a := AO.Project(d.attention, m, dest, looked, now, supply).value.records;
    if AO.IsFresh(looked) {
      AL.ProjectionIsExact(d.attention, m, dest, looked, now, supply);
    } else {
      AL.UnchangedKeeps(d.attention, m, ReadOf(looked));
    }
    AttentionChangeIsSound(d, a, m, ReadOf(looked));
    Witness(d, d.(attention := a), m, ReadOf(looked));
  }

  lemma ProjectedShape(d: Document, m: Id, dest: Destination, answer: Outcome, now: Time, supply: seq<Id>)
    requires ApplyProject(d, m, dest, answer, now, supply).Ok?
    ensures Look(d, m, answer, now).Ok?
    ensures var r := AO.Project(d.attention, m, dest, Look(d, m, answer, now).value, now, supply);
            r.Ok? && ApplyProject(d, m, dest, answer, now, supply).value.document == d.(attention := r.value.records)
  {
  }

  lemma SurfaceIsSound(d: Document, id: Id, receipt: AO.PresenterReceipt, answer: Outcome, now: Time, supply: seq<Id>)
    requires Families(d) && FloorHolds(d) && ApplySurface(d, id, receipt, answer, now, supply).Ok?
    ensures SoundStep(d, ApplySurface(d, id, receipt, answer, now, supply).value.document)
  {
    SurfaceShape(d, id, receipt, answer, now, supply);
    var m := d.attention[id].missionId;
    LookIsSound(d, m, answer, now);
    var looked := Look(d, m, answer, now).value;
    var a := AO.Surface(d.attention, id, looked, receipt, now, supply).value.work.records;
    AL.SurfaceKeeps(d.attention, id, looked, receipt, now, supply);
    AttentionChangeIsSound(d, a, m, ReadOf(looked));
    Witness(d, d.(attention := a), m, ReadOf(looked));
  }

  lemma SurfaceShape(d: Document, id: Id, receipt: AO.PresenterReceipt, answer: Outcome, now: Time, supply: seq<Id>)
    requires ApplySurface(d, id, receipt, answer, now, supply).Ok?
    ensures id in d.attention && Look(d, d.attention[id].missionId, answer, now).Ok?
    ensures var r := AO.Surface(d.attention, id, Look(d, d.attention[id].missionId, answer, now).value, receipt, now, supply);
            r.Ok? && ApplySurface(d, id, receipt, answer, now, supply).value.document == d.(attention := r.value.work.records)
  {
  }

  lemma AcknowledgeShape(d: Document, id: Id, context: Context, answer: Outcome, now: Time)
    requires ApplyAcknowledge(d, id, context, answer, now).Ok?
    ensures id in d.attention && Look(d, d.attention[id].missionId, answer, now).Ok?
    ensures var a := AO.Acknowledge(d.attention, id, context, Look(d, d.attention[id].missionId, answer, now).value, now);
            a.Ok? && ApplyAcknowledge(d, id, context, answer, now).value.document == d.(attention := a.value)
  {
  }

  lemma AcknowledgeIsSound(d: Document, id: Id, context: Context, answer: Outcome, now: Time)
    requires Families(d) && FloorHolds(d) && ApplyAcknowledge(d, id, context, answer, now).Ok?
    ensures SoundStep(d, ApplyAcknowledge(d, id, context, answer, now).value.document)
  {
    AcknowledgeShape(d, id, context, answer, now);
    var m := d.attention[id].missionId;
    LookIsSound(d, m, answer, now);
    var looked := Look(d, m, answer, now).value;
    var a := AO.Acknowledge(d.attention, id, context, looked, now).value;
    AL.AcknowledgeKeeps(d.attention, id, context, looked, now);
    AttentionChangeIsSound(d, a, m, ReadOf(looked));
    Witness(d, d.(attention := a), m, ReadOf(looked));
  }

  // ----------------------------------------------------------------- handoffs

  lemma HandoffChangeIsSound(d: Document, h': H.HandoffMap, m: Id, read: Point)
    requires Families(d) && H.AcceptedHandoffs(h', d.rosters) && HL.HandoffHistory(d.handoffs, h')
    requires HL.PointsGrow(d.handoffs, h', m, read)
    requires HighMark(d, m).Ok? && Admissible(HighMark(d, m).value, Some(read))
    ensures Sound(d, d.(handoffs := h'), m, Some(read))
  {
    HandoffsAdvance(d, h', m, read);
    HandoffsHistory(d, h');
    FamiliesOf(d, d.(handoffs := h'));
  }

  lemma CreateIsSound(d: Document, q: HO.Request, context: Context, answer: Outcome, now: Time, supply: seq<Id>)
    requires Families(d) && FloorHolds(d) && ApplyCreate(d, q, context, answer, now, supply).Ok?
    ensures SoundStep(d, ApplyCreate(d, q, context, answer, now, supply).value.document)
  {
    var m := q.missionId;
    LookIsSound(d, m, answer, now);
    var looked := Look(d, m, answer, now).value;
    var d' := ApplyCreate(d, q, context, answer, now, supply).value.document;
    var id := AO.FreshId(supply, d.handoffs.Keys, AO.MINT_TRIES).value.id;
    HL.CreateKeeps(d.handoffs, d.rosters, id, q, looked, now, context);
    HandoffChangeIsSound(d, d'.handoffs, m, ReadOf(looked).value);
    assert Sound(d, d', m, ReadOf(looked));
  }

  lemma TransitionShape(d: Document, id: Id, status: HandoffStatus, actor: Participant, context: Context, answer: Outcome, now: Time)
    requires ApplyTransition(d, id, status, actor, context, answer, now).Ok?
    ensures id in d.handoffs && Look(d, d.handoffs[id].missionId, answer, now).Ok?
    ensures var h := HO.TransitionHandoff(d.handoffs, id, status, actor, Look(d, d.handoffs[id].missionId, answer, now).value, now, context);
            h.Ok? && ApplyTransition(d, id, status, actor, context, answer, now).value.document == d.(handoffs := h.value)
  {
  }

  lemma OkMeansMayMove(h: H.HandoffMap, id: Id, status: HandoffStatus, actor: Participant,
                       looked: FreshnessResult, now: Time, context: Context)
    requires HO.TransitionHandoff(h, id, status, actor, looked, now, context).Ok?
    ensures HL.MayMove(h, id, status, actor, looked, now)
  {
    if !HL.MayMove(h, id, status, actor, looked, now) {
      HL.RefusedOtherwise(h, id, status, actor, looked, now, context);
    }
  }

  lemma MayMoveReads(h: H.HandoffMap, id: Id, status: HandoffStatus, actor: Participant, looked: FreshnessResult, now: Time)
    requires HL.MayMove(h, id, status, actor, looked, now)
    ensures looked.observation.Some? && ReadOf(looked) == Some(Observations.PointOf(looked.observation.value))
  {
  }

  lemma MovedIsSound(d: Document, id: Id, status: HandoffStatus, actor: Participant, context: Context,
                     looked: FreshnessResult, now: Time, h: H.HandoffMap)
    requires Families(d) && HL.MayMove(d.handoffs, id, status, actor, looked, now)
    requires looked.observation.Some? && ValidObservation(looked.observation.value)
    requires HO.TransitionHandoff(d.handoffs, id, status, actor, looked, now, context) == Ok(h)
    requires HighMark(d, d.handoffs[id].missionId).Ok?
    requires Admissible(HighMark(d, d.handoffs[id].missionId).value, Some(Observations.PointOf(looked.observation.value)))
    ensures SoundStep(d, d.(handoffs := h))
  {
    HL.TransitionKeeps(d.handoffs, d.rosters, id, status, actor, looked, now, context);
    HandoffChangeIsSound(d, h, d.handoffs[id].missionId, Observations.PointOf(looked.observation.value));
    Witness(d, d.(handoffs := h), d.handoffs[id].missionId, Some(Observations.PointOf(looked.observation.value)));
  }

  lemma TransitionIsSound(d: Document, id: Id, status: HandoffStatus, actor: Participant, context: Context, answer: Outcome, now: Time)
    requires Families(d) && FloorHolds(d) && ApplyTransition(d, id, status, actor, context, answer, now).Ok?
    ensures SoundStep(d, ApplyTransition(d, id, status, actor, context, answer, now).value.document)
  {
    TransitionShape(d, id, status, actor, context, answer, now);
    var m := d.handoffs[id].missionId;
    LookIsSound(d, m, answer, now);
    var looked := Look(d, m, answer, now).value;
    OkMeansMayMove(d.handoffs, id, status, actor, looked, now, context);
    MayMoveReads(d.handoffs, id, status, actor, looked, now);
    MovedIsSound(d, id, status, actor, context, looked, now,
                 HO.TransitionHandoff(d.handoffs, id, status, actor, looked, now, context).value);
  }

  lemma RosterReplacedReads(d: Document, roster: H.Roster, m: Id)
    requires Consistent(Reads(d, m)) && ValidPoint(roster.point)
    ensures ReadsAdvance(d, d.(rosters := d.rosters[m := roster]), m, Some(roster.point))
  {
    var d' := d.(rosters := d.rosters[m := roster]);
    forall x | x != m ensures Reads(d', x) == Reads(d, x) {
      assert RosterReads(d'.rosters, x) == RosterReads(d.rosters, x);
    }
    assert roster.point in RosterReads(d'.rosters, m);
  }

  /** Replacing a roster loses its point, and records the read in its place. */
  lemma SetRosterIsSound(d: Document, m: Id, participants: seq<Participant>, context: Context, answer: Outcome, now: Time)
    requires Families(d) && FloorHolds(d) && ApplySetRoster(d, m, participants, context, answer, now).Ok?
    ensures SoundStep(d, ApplySetRoster(d, m, participants, context, answer, now).value.document)
  {
    LookIsSound(d, m, answer, now);
    var looked := Look(d, m, answer, now).value;
    var d' := ApplySetRoster(d, m, participants, context, answer, now).value.document;
    HL.SetRosterKeeps(d.handoffs, d.rosters, m, participants, looked, now, context);
    RosterReplacedReads(d, d'.rosters[m], m);
    RostersHistory(d, d'.rosters);
    FamiliesOf(d, d');
    assert Sound(d, d', m, ReadOf(looked));
  }

  // --------------------------------------------------------------- every call

  lemma ApplyIsSound(d: Document, op: Operation)
    requires Families(d) && FloorHolds(d) && Apply(d, op).Ok?
    ensures SoundStep(d, Apply(d, op).value.document)
  {
    if OfBindings(op) { BindingsAreSound(d, op); }
    else if OfAttention(op) { AttentionIsSound(d, op); }
    else { HandoffsAreSound(d, op); }
  }

  predicate OfBindings(op: Operation) { op.Route? || op.Bind? || op.RevokeBinding? || op.Rebind? }

  predicate OfAttention(op: Operation) { op.ProjectAttention? || op.SurfaceAttention? || op.AcknowledgeAttention? }

  lemma BindingsAreSound(d: Document, op: Operation)
    requires Families(d) && FloorHolds(d) && Apply(d, op).Ok? && OfBindings(op)
    ensures SoundStep(d, Apply(d, op).value.document)
  {
    match op
    case Route(turn, context, lanes, answer, now, supply) => RouteIsSound(d, turn, context, lanes, answer, now, supply);
    case Bind(ask, mission, context, answer, now, supply) => BindIsSound(d, ask, mission, context, answer, now, supply);
    case RevokeBinding(id, now) => RevokeIsSound(d, id, now);
    case Rebind(id, expiresAt, context, answer, now, supply) => RebindIsSound(d, id, expiresAt, context, answer, now, supply);
  }

  lemma AttentionIsSound(d: Document, op: Operation)
    requires Families(d) && FloorHolds(d) && Apply(d, op).Ok? && OfAttention(op)
    ensures SoundStep(d, Apply(d, op).value.document)
  {
    match op
    case ProjectAttention(mission, dest, answer, now, supply) => ProjectIsSound(d, mission, dest, answer, now, supply);
    case SurfaceAttention(id, receipt, answer, now, supply) => SurfaceIsSound(d, id, receipt, answer, now, supply);
    case AcknowledgeAttention(id, context, answer, now) => AcknowledgeIsSound(d, id, context, answer, now);
  }

  lemma HandoffsAreSound(d: Document, op: Operation)
    requires Families(d) && FloorHolds(d) && Apply(d, op).Ok? && !OfBindings(op) && !OfAttention(op)
    ensures SoundStep(d, Apply(d, op).value.document)
  {
    match op
    case SetRoster(mission, participants, context, answer, now) => SetRosterIsSound(d, mission, participants, context, answer, now);
    case CreateHandoff(q, context, answer, now, supply) => CreateIsSound(d, q, context, answer, now, supply);
    case TransitionHandoff(id, status, actor, context, answer, now) => TransitionIsSound(d, id, status, actor, context, answer, now);
  }
}
