/** The one coordination document: its five families, the points they hold of a
    Mission, the one classified look at the source, and what a save checks
    (coordination/service.py:48-101, coordination/store.py:108-204). */
module Documents {
  import opened Record
  import opened Observations
  import opened Sorting
  import opened Floor
  import opened Bindings
  import opened Routing
  import opened Replays
  import A = Attentions
  import AL = AttentionLaws
  import H = Handoffs
  import HL = HandoffLaws

  const MAX_BINDING_RECORDS := 4096
  const MAX_ROUTE_DECISION_RECORDS := 16384
  const MAX_ATTENTION_RECORDS := 16384
  const MAX_HANDOFF_RECORDS := 4096
  const MAX_PARTICIPANT_ROSTERS := 1024

  datatype Document = Document(bindings: BindingMap, routes: RouteMap, attention: A.AttentionMap,
                               handoffs: H.HandoffMap, rosters: H.RosterMap, sequence: nat)

  const DEFAULT_DOCUMENT := Document(map[], map[], map[], map[], map[], 0)

  // ---------------------------------------------------------------- validation

  predicate WithinCapacity(d: Document) {
    && |d.bindings| <= MAX_BINDING_RECORDS && |d.routes| <= MAX_ROUTE_DECISION_RECORDS
    && |d.attention| <= MAX_ATTENTION_RECORDS && |d.handoffs| <= MAX_HANDOFF_RECORDS
    && |d.rosters| <= MAX_PARTICIPANT_ROSTERS
  }

  /** Every family's own loader accepts it. */
  ghost predicate Families(d: Document) {
    && AcceptedBindings(d.bindings) && AcceptedRoutes(d.routes)
    && A.AcceptedAttention(d.attention) && H.AcceptedHandoffs(d.handoffs, d.rosters)
  }

  ghost predicate AcceptedDocument(d: Document) { WithinCapacity(d) && Families(d) }

  /** validate_document: the first problem it reports. */
  ghost function DocumentProblem(d: Document): Option<Problem> {
    if !WithinCapacity(d) then Some(StoreFull)
    else if !Families(d) then Some(StoreUnreadable)
    else None
  }

  method ValidateDocument(d: Document) returns (p: Option<Problem>)
    ensures p == DocumentProblem(d)
    ensures p.None? <==> AcceptedDocument(d)
  {
    if !WithinCapacity(d) { return Some(StoreFull); }
    var b := ValidateBindings(d.bindings);
    if b.Some? { return Some(StoreUnreadable); }
    var r := ValidateRouteDecisions(d.routes);
    if !r { return Some(StoreUnreadable); }
    var a := A.ValidateAttentionRecords(d.attention);
    if !a { return Some(StoreUnreadable); }
    var h := H.ValidateHandoffs(d.handoffs, d.rosters);
    if !h { return Some(StoreUnreadable); }
    p := None;
  }

  // -------------------------------------------------------------------- points

  function BindingPoints(bs: BindingMap, keys: seq<Id>, m: Id): seq<Point>
    requires forall k :: k in keys ==> k in bs
  {
    if keys == [] then [] else
      var b := bs[keys[|keys|-1]];
      BindingPoints(bs, keys[..|keys|-1], m) + (if b.missionId == m then [b.point] else [])
  }

  predicate RouteCounts(r: Route, m: Id) { r.decision.point.Some? && Subject(r.decision) == Some(m) }

  function RoutePoints(rs: RouteMap, keys: seq<Id>, m: Id): seq<Point>
    requires forall k :: k in keys ==> k in rs
  {
    if keys == [] then [] else
      var r := rs[keys[|keys|-1]];
      RoutePoints(rs, keys[..|keys|-1], m) + (if RouteCounts(r, m) then [r.decision.point.value] else [])
  }

  function OptSeq(p: Option<Point>): seq<Point> { if p.None? then [] else [p.value] }

  function RecordPoints(a: A.Attention): seq<Point> {
    [a.point] + OptSeq(a.surfacedPoint) + OptSeq(a.ackPoint) + OptSeq(a.closedPoint)
  }

  function AttentionPoints(ats: A.AttentionMap, keys: seq<Id>, m: Id): seq<Point>
    requires forall k :: k in keys ==> k in ats
  {
    if keys == [] then [] else
      var a := ats[keys[|keys|-1]];
      AttentionPoints(ats, keys[..|keys|-1], m) + (if a.missionId == m then RecordPoints(a) else [])
  }

  function EntryPoints(ts: seq<H.Transition>): seq<Point> {
    if ts == [] then [] else [ts[0].point] + EntryPoints(ts[1..])
  }

  function HandoffPoints(hs: H.HandoffMap, keys: seq<Id>, m: Id): seq<Point>
    requires forall k :: k in keys ==> k in hs
  {
    if keys == [] then [] else
      var h := hs[keys[|keys|-1]];
      HandoffPoints(hs, keys[..|keys|-1], m) + (if h.missionId == m then [h.point] + EntryPoints(h.transitions) else [])
  }

  function RosterPoints(rs: H.RosterMap, m: Id): seq<Point> { if m in rs then [rs[m].point] else [] }

  /** _points: every read the document holds of one Mission. */
  function PointsOf(d: Document, m: Id): seq<Point> {
    BindingPoints(d.bindings, Sorted(d.bindings.Keys), m)
    + RoutePoints(d.routes, Sorted(d.routes.Keys), m)
    + AttentionPoints(d.attention, Sorted(d.attention.Keys), m)
    + HandoffPoints(d.handoffs, Sorted(d.handoffs.Keys), m)
    + RosterPoints(d.rosters, m)
  }

  ghost function BindingReads(bs: BindingMap, m: Id): set<Point> {
    set k | k in bs && bs[k].missionId == m :: bs[k].point
  }

  ghost function RouteReads(rs: RouteMap, m: Id): set<Point> {
    set k | k in rs && RouteCounts(rs[k], m) :: rs[k].decision.point.value
  }

  ghost function AttentionReads(ats: A.AttentionMap, m: Id): set<Point> {
    set k, p | k in ats && ats[k].missionId == m && p in AL.PointsIn(ats[k]) :: p
  }

  ghost function HandoffReads(hs: H.HandoffMap, m: Id): set<Point> {
    set k, p | k in hs && hs[k].missionId == m && p in HL.PointsIn(hs[k]) :: p
  }

  ghost function RosterReads(rs: H.RosterMap, m: Id): set<Point> { if m in rs then {rs[m].point} else {} }

  /** The same reads, as a set and without an order. */
  ghost function Reads(d: Document, m: Id): set<Point> {
    BindingReads(d.bindings, m) + RouteReads(d.routes, m) + AttentionReads(d.attention, m)
    + HandoffReads(d.handoffs, m) + RosterReads(d.rosters, m)
  }

  lemma {:induction false} BindingPointsAre(bs: BindingMap, keys: seq<Id>, m: Id, p: Point)
    requires forall k :: k in keys ==> k in bs
    ensures p in BindingPoints(bs, keys, m) <==> exists k :: k in keys && bs[k].missionId == m && bs[k].point == p
  {
    if keys != [] {
      BindingPointsAre(bs, keys[..|keys|-1], m, p);
      assert keys == keys[..|keys|-1] + [keys[|keys|-1]];
      assert forall k :: k in keys <==> k == keys[|keys|-1] || k in keys[..|keys|-1];
    }
  }

  ghost predicate RouteHolds(r: Route, m: Id, p: Point) { RouteCounts(r, m) && r.decision.point.value == p }

  lemma {:induction false} RoutePointsAre(rs: RouteMap, keys: seq<Id>, m: Id, p: Point)
    requires forall k :: k in keys ==> k in rs
    ensures p in RoutePoints(rs, keys, m) <==> exists k :: k in keys && RouteHolds(rs[k], m, p)
  {
    if keys != [] {
      RoutePointsAre(rs, keys[..|keys|-1], m, p);
      assert keys == keys[..|keys|-1] + [keys[|keys|-1]];
      assert forall k :: k in keys <==> k == keys[|keys|-1] || k in keys[..|keys|-1];
    }
  }

  ghost predicate RecordHolds(a: A.Attention, m: Id, p: Point) { a.missionId == m && p in AL.PointsIn(a) }

  lemma RecordPointsAre(a: A.Attention, p: Point)
    ensures p in RecordPoints(a) <==> p in AL.PointsIn(a)
  {
  }

  lemma {:induction false} AttentionPointsAre(ats: A.AttentionMap, keys: seq<Id>, m: Id, p: Point)
    requires forall k :: k in keys ==> k in ats
    ensures p in AttentionPoints(ats, keys, m) <==> exists k :: k in keys && RecordHolds(ats[k], m, p)
  {
    if keys != [] {
      AttentionPointsAre(ats, keys[..|keys|-1], m, p);
      assert keys == keys[..|keys|-1] + [keys[|keys|-1]];
      RecordPointsAre(ats[keys[|keys|-1]], p);
      assert forall k :: k in keys <==> k == keys[|keys|-1] || k in keys[..|keys|-1];
    }
  }

  lemma {:induction false} EntryPointsAre(ts: seq<H.Transition>, p: Point)
    ensures p in EntryPoints(ts) <==> exists t :: t in ts && t.point == p
  {
    if ts != [] {
      EntryPointsAre(ts[1..], p);
      assert forall t :: t in ts <==> t == ts[0] || t in ts[1..];
    }
  }

  ghost predicate HandoffHolds(h: H.Handoff, m: Id, p: Point) { h.missionId == m && p in HL.PointsIn(h) }

  lemma {:induction false} HandoffPointsAre(hs: H.HandoffMap, keys: seq<Id>, m: Id, p: Point)
    requires forall k :: k in keys ==> k in hs
    ensures p in HandoffPoints(hs, keys, m) <==> exists k :: k in keys && HandoffHolds(hs[k], m, p)
  {
    if keys != [] {
      HandoffPointsAre(hs, keys[..|keys|-1], m, p);
      assert keys == keys[..|keys|-1] + [keys[|keys|-1]];
      EntryPointsAre(hs[keys[|keys|-1]].transitions, p);
      assert forall k :: k in keys <==> k == keys[|keys|-1] || k in keys[..|keys|-1];
    }
  }

  lemma BindingMembers(bs: BindingMap, m: Id)
    ensures Members(BindingPoints(bs, Sorted(bs.Keys), m)) == BindingReads(bs, m)
  {
    forall p ensures p in BindingPoints(bs, Sorted(bs.Keys), m) <==> p in BindingReads(bs, m) {
      BindingPointsAre(bs, Sorted(bs.Keys), m, p);
    }
  }

  lemma RouteMembers(rs: RouteMap, m: Id)
    ensures Members(RoutePoints(rs, Sorted(rs.Keys), m)) == RouteReads(rs, m)
  {
    forall p ensures p in RoutePoints(rs, Sorted(rs.Keys), m) <==> p in RouteReads(rs, m) {
      RoutePointsAre(rs, Sorted(rs.Keys), m, p);
    }
  }

  lemma AttentionMembers(ats: A.AttentionMap, m: Id)
    ensures Members(AttentionPoints(ats, Sorted(ats.Keys), m)) == AttentionReads(ats, m)
  {
    forall p ensures p in AttentionPoints(ats, Sorted(ats.Keys), m) <==> p in AttentionReads(ats, m) {
      AttentionPointsAre(ats, Sorted(ats.Keys), m, p);
    }
  }

  lemma HandoffMembers(hs: H.HandoffMap, m: Id)
    ensures Members(HandoffPoints(hs, Sorted(hs.Keys), m)) == HandoffReads(hs, m)
  {
    forall p ensures p in HandoffPoints(hs, Sorted(hs.Keys), m) <==> p in HandoffReads(hs, m) {
      HandoffPointsAre(hs, Sorted(hs.Keys), m, p);
    }
  }

  lemma MembersJoin(a: seq<Point>, b: seq<Point>)
    ensures Members(a + b) == Members(a) + Members(b)
  {
  }

  lemma MembersJoinFive(a: seq<Point>, b: seq<Point>, c: seq<Point>, d: seq<Point>, e: seq<Point>)
    ensures Members(a + b + c + d + e) == Members(a) + Members(b) + Members(c) + Members(d) + Members(e)
  {
    MembersJoin(a, b);
    MembersJoin(a + b, c);
    MembersJoin(a + b + c, d);
    MembersJoin(a + b + c + d, e);
  }

  lemma RosterMembers(rs: H.RosterMap, m: Id)
    ensures Members(RosterPoints(rs, m)) == RosterReads(rs, m)
  {
  }

  lemma PointsAreReads(d: Document, m: Id)
    ensures Members(PointsOf(d, m)) == Reads(d, m)
  {
    BindingMembers(d.bindings, m);
    RouteMembers(d.routes, m);
    AttentionMembers(d.attention, m);
    HandoffMembers(d.handoffs, m);
    RosterMembers(d.rosters, m);
    MembersJoinFive(BindingPoints(d.bindings, Sorted(d.bindings.Keys), m),
                    RoutePoints(d.routes, Sorted(d.routes.Keys), m),
                    AttentionPoints(d.attention, Sorted(d.attention.Keys), m),
                    HandoffPoints(d.handoffs, Sorted(d.handoffs.Keys), m), RosterPoints(d.rosters, m));
  }

  /** high_water_mark */
  function HighMark(d: Document, m: Id): Result<Option<Point>> { Mark(PointsOf(d, m)) }

  /** _observe: the source's answer classified against the durable floor. */
  function Look(d: Document, m: Id, answer: Outcome, now: Time): Result<FreshnessResult> {
    var floor :- HighMark(d, m);
    Ok(Classify(answer, now, m, floor))
  }

  // ---------------------------------------------------------------- the floor

  /** No two reads of one Mission at one (revision, cursor) differ. */
  ghost predicate FloorHolds(d: Document) { forall m :: Consistent(Reads(d, m)) }

  lemma HighMarkIsFloor(d: Document, m: Id)
    requires Consistent(Reads(d, m))
    ensures HighMark(d, m).Ok? && IsFloor(Reads(d, m), HighMark(d, m).value)
  {
    PointsAreReads(d, m);
    MarkOfConsistent(PointsOf(d, m));
  }

  /** A FRESH look is at or beyond the floor it was classified against. */
  lemma LookIsAdmissible(d: Document, m: Id, answer: Outcome, now: Time)
    requires Consistent(Reads(d, m))
    ensures Look(d, m, answer, now).Ok?
    ensures var looked := Look(d, m, answer, now).value;
            && (looked.observation.Some? ==> ValidObservation(looked.observation.value) && looked.observation.value.missionId == m)
            && (looked.freshness.Fresh? ==>
                  looked.observation.Some?
                  && Admissible(HighMark(d, m).value, Some(Observations.PointOf(looked.observation.value))))
  {
    HighMarkIsFloor(d, m);
    var floor := HighMark(d, m).value;
    FreshExactly(answer, now, m, floor);
    ClassifiedIsOfMission(answer, now, m, floor);
  }

  /** What one operation may do to the reads: those of other Missions stay, and
      this Mission's advance by at most the read it made. */
  ghost predicate ReadsAdvance(d: Document, d': Document, m: Id, read: Option<Point>) {
    && (forall x :: x != m ==> Reads(d', x) == Reads(d, x))
    && Advances(Reads(d, m), Reads(d', m), read)
  }

  lemma ConsistentAfter(d: Document, d': Document, m: Id, read: Option<Point>, mark: Option<Point>, x: Id)
    requires FloorHolds(d) && ReadsAdvance(d, d', m, read) && Admissible(mark, read) && IsFloor(Reads(d, m), mark)
    ensures Consistent(Reads(d', x))
  {
    if x == m {
      FreshKeepsFloor(Reads(d, m), Reads(d', m), mark, None, read);
    } else {
      assert Reads(d', x) == Reads(d, x);
    }
  }

  lemma MarkNotLower(d: Document, d': Document, m: Id, read: Option<Point>, x: Id)
    requires FloorHolds(d) && FloorHolds(d') && ReadsAdvance(d, d', m, read)
    requires HighMark(d, m).Ok? && Admissible(HighMark(d, m).value, read)
    ensures HighMark(d, x).Ok? && HighMark(d', x).Ok? && NotLower(HighMark(d, x).value, HighMark(d', x).value)
  {
    HighMarkIsFloor(d, x);
    HighMarkIsFloor(d', x);
    if x == m {
      FreshKeepsFloor(Reads(d, m), Reads(d', m), HighMark(d, m).value, HighMark(d', m).value, read);
    } else {
      FloorIsUnique(Reads(d, x), HighMark(d, x).value, HighMark(d', x).value);
    }
  }

  ghost predicate MarksNotLower(d: Document, d': Document) {
    forall x :: HighMark(d, x).Ok? && HighMark(d', x).Ok? && NotLower(HighMark(d, x).value, HighMark(d', x).value)
  }

  /** An admissible advance keeps the floor and never lowers it. */
  lemma AdvanceKeepsFloor(d: Document, d': Document, m: Id, read: Option<Point>)
    requires FloorHolds(d) && ReadsAdvance(d, d', m, read) && HighMark(d, m).Ok? && Admissible(HighMark(d, m).value, read)
    ensures FloorHolds(d') && MarksNotLower(d, d')
  {
    HighMarkIsFloor(d, m);
    forall x ensures Consistent(Reads(d', x)) {
      ConsistentAfter(d, d', m, read, HighMark(d, m).value, x);
    }
    forall x ensures HighMark(d, x).Ok? && HighMark(d', x).Ok? && NotLower(HighMark(d, x).value, HighMark(d', x).value) {
      MarkNotLower(d, d', m, read, x);
    }
  }

  predicate NotLower(was: Option<Point>, now: Option<Point>) {
    was.Some? ==> now.Some? && !Behind(now.value, was.value)
  }
}
