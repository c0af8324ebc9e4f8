/** What projecting, surfacing and acknowledging leave, field by field
    (coordination/attention.py:455-667). */
module AttentionFields {
  import opened Record
  import opened Observations
  import opened ObservationFields
  import opened Attentions
  import opened AttentionOps
  import opened AttentionLaws

  // ------------------------------------------------------------ plain readings

  /** A live record of this Mission at this destination. */
  predicate LiveHere(a: Attention, mission: Id, dest: Destination) {
    a.missionId == mission && a.destination == dest
    && (a.presentation.Pending? || a.presentation.Surfaced? || a.presentation.Acknowledged?)
  }

  /** A new record of this condition, as it is first written. */
  predicate WrittenFor(a: Attention, id: Id, o: Observation, c: Condition, dest: Destination, now: Time) {
    && a.attentionId == id && a.missionId == o.missionId && a.destination == dest
    && ShowsNow(a, o, c) && a.presentation == Pending && a.createdAt == now && PointAt(a.point, o)
    && a.priority == (match c.kind
                      case NeedsHuman => 10
                      case AuthorizationReady => 20
                      case Blocked => 30
                      case ResultReady => 40)
    && a.surfacedAt.None? && a.surfacedMessage.None? && a.surfacedFreshness.None? && a.surfacedPoint.None?
    && a.ackAt.None? && a.ackBy.None? && a.ackFreshness.None? && a.ackCursor.None? && a.ackPoint.None?
    && a.closedAt.None? && a.closedReason.None? && a.closedPoint.None? && a.supersededBy.None?
  }

  /** The record closed for a replacement, everything else kept. */
  predicate ReplacedBy(a: Attention, b: Attention, o: Observation, c: Condition, successor: Id, now: Time) {
    && b.closedReason.Some? && FirstDifference(a, o, c, b.closedReason.value)
    && b == a.(presentation := Obsolete, closedAt := Some(now), closedReason := b.closedReason,
                    closedPoint := Some(PointOf(o)), supersededBy := Some(successor))
  }

  /** The record closed because its condition is gone, everything else kept. */
  predicate ClearedBy(a: Attention, b: Attention, o: Observation, now: Time) {
    b == a.(presentation := Resolved, closedAt := Some(now), closedReason := Some(ConditionCleared),
                 closedPoint := Some(PointOf(o)), supersededBy := None)
  }

  // ------------------------------------------------------- one condition's case

  /** Everything of one identity but these two keys is as it was. */
  ghost predicate RestOf(m: AttentionMap, m': AttentionMap, id: AttentionIdentity, j: Id, k: Id) {
    && (forall x :: x in m && IdentityOf(m[x]) == id && x != k ==> x in m' && m'[x] == m[x])
    && (forall x :: x in m' && IdentityOf(m'[x]) == id && x != k && x != j ==> x in m && m'[x] == m[x])
  }

  ghost predicate Unchanged(m: AttentionMap, m': AttentionMap, o: Observation, dest: Destination, c: Condition) {
    SameFor(m, m', At(o, dest, Identity(c)))
    && exists k :: k in m && LiveHere(m[k], o.missionId, dest) && ShowsNow(m[k], o, c)
  }

  ghost predicate Added(m: AttentionMap, m': AttentionMap, o: Observation, dest: Destination, c: Condition, now: Time, j: Id) {
    && NoneLive(m, At(o, dest, Identity(c)))
    && j !in m && j in m' && WrittenFor(m'[j], j, o, c, dest, now) && RestOf(m, m', At(o, dest, Identity(c)), j, j)
  }

  ghost predicate Replaced(m: AttentionMap, m': AttentionMap, o: Observation, dest: Destination, c: Condition, now: Time, j: Id, k: Id) {
    && k in m && k in m' && LiveHere(m[k], o.missionId, dest) && ConditionOf(m[k]) == Identity(c) && !ShowsNow(m[k], o, c)
    && j !in m && j in m' && WrittenFor(m'[j], j, o, c, dest, now) && ReplacedBy(m[k], m'[k], o, c, j, now)
    && RestOf(m, m', At(o, dest, Identity(c)), j, k)
  }

  /** What becomes of the records of one observed condition. */
  ghost predicate Handled(m: AttentionMap, m': AttentionMap, o: Observation, dest: Destination, c: Condition, now: Time) {
    || Unchanged(m, m', o, dest, c)
    || (exists j :: Added(m, m', o, dest, c, now, j))
    || (exists j, k :: Replaced(m, m', o, dest, c, now, j, k))
  }

  /** What becomes of a live record whose condition was not observed. */
  ghost predicate Cleared(m: AttentionMap, m': AttentionMap, o: Observation, dest: Destination, who: ConditionId, now: Time, k: Id) {
    && k in m && k in m' && LiveHere(m[k], o.missionId, dest) && ConditionOf(m[k]) == who
    && ClearedBy(m[k], m'[k], o, now) && RestOf(m, m', At(o, dest, who), k, k)
  }

  lemma LiveHereIs(a: Attention, o: Observation, dest: Destination, who: ConditionId)
    ensures LiveAs(a, At(o, dest, who)) <==> LiveHere(a, o.missionId, dest) && ConditionOf(a) == who
  {
  }

  lemma ConditionIsHandled(w: Work, o: Observation, dest: Destination, live: LiveMap, c: Condition, now: Time)
    requires LiveIn(live, w.records) && LiveOf(live, w.records, At(o, dest, Identity(c)))
    requires ApplyCondition(w, o, dest, live, c, now).Ok?
    ensures Handled(w.records, ApplyCondition(w, o, dest, live, c, now).value.records, o, dest, c, now)
  {
    var m, m', who := w.records, ApplyCondition(w, o, dest, live, c, now).value.records, Identity(c);
    var id := ApplyConditionShape(w, o, dest, live, c, now);
    if who !in live {
      AddedHere(m, o, dest, c, now, id);
    } else {
      LiveHereIs(m[live[who]], o, dest, who);
      DisagreementIsDifference(m[live[who]], o, c);
      if Disagreement(m[live[who]], o, c).None? {
        assert Unchanged(m, m', o, dest, c);
      } else {
        ReplacedHere(m, o, dest, c, now, id, live[who]);
      }
    }
  }

  lemma AddedHere(m: AttentionMap, o: Observation, dest: Destination, c: Condition, now: Time, id: Id)
    requires id !in m && NoneLive(m, At(o, dest, Identity(c)))
    ensures Handled(m, m[id := NewRecord(id, o, c, dest, now)], o, dest, c, now)
  {
    assert Added(m, m[id := NewRecord(id, o, c, dest, now)], o, dest, c, now, id);
  }

  lemma ReplacedHere(m: AttentionMap, o: Observation, dest: Destination, c: Condition, now: Time, id: Id, k: Id)
    requires id !in m && k in m && LiveAs(m[k], At(o, dest, Identity(c))) && Disagreement(m[k], o, c).Some?
    ensures Handled(m, m[id := NewRecord(id, o, c, dest, now)][k := AsClosed(m[k], Disagreement(m[k], o, c).value, now, Some(id), o)],
                    o, dest, c, now)
  {
    DisagreementIsDifference(m[k], o, c);
    assert Replaced(m, m[id := NewRecord(id, o, c, dest, now)][k := AsClosed(m[k], Disagreement(m[k], o, c).value, now, Some(id), o)],
                    o, dest, c, now, id, k);
  }

  /** A case depends only on the records of its identity. */
  lemma HandledBetween(m: AttentionMap, n: AttentionMap, n': AttentionMap, m': AttentionMap, o: Observation, dest: Destination,
                       c: Condition, now: Time)
    requires Handled(n, n', o, dest, c, now) && m.Keys <= n.Keys
    requires SameFor(m, n, At(o, dest, Identity(c))) && SameFor(n', m', At(o, dest, Identity(c)))
    ensures Handled(m, m', o, dest, c, now)
  {
    if Unchanged(n, n', o, dest, c) {
      assert Unchanged(m, m', o, dest, c);
    } else if exists j :: Added(n, n', o, dest, c, now, j) {
      var j :| Added(n, n', o, dest, c, now, j);
      assert Added(m, m', o, dest, c, now, j);
    } else {
      var j, k :| Replaced(n, n', o, dest, c, now, j, k);
      assert Replaced(m, m', o, dest, c, now, j, k);
    }
  }

  // ------------------------------------------------------- every condition's case

  ghost predicate AllHandled(m: AttentionMap, m': AttentionMap, o: Observation, dest: Destination, cs: seq<Condition>, now: Time) {
    forall c :: c in cs ==> Handled(m, m', o, dest, c, now)
  }

  /** The first condition's step, then the others' steps: the first one's records
      are not touched again, the others' not before. */
  lemma HandledOneMore(m: AttentionMap, n: AttentionMap, m': AttentionMap, o: Observation, dest: Destination, cs: seq<Condition>, now: Time)
    requires cs != [] && Apart(cs) && Handled(m, n, o, dest, cs[0], now) && AllHandled(n, m', o, dest, cs[1..], now)
    requires m.Keys <= n.Keys && TouchesOnly(m, n, At(o, dest, Identity(cs[0]))) && SameBut(n, m', o, dest, IdentitiesOf(cs[1..]))
    ensures AllHandled(m, m', o, dest, cs, now)
  {
    forall c | c in cs ensures Handled(m, m', o, dest, c, now) {
      if c == cs[0] {
        SameForItself(m, At(o, dest, Identity(c)));
        HandledBetween(m, m, n, m', o, dest, c, now);
      } else {
        assert c in cs[1..] && Identity(c) in IdentitiesOf(cs[1..]);
        SameForItself(m', At(o, dest, Identity(c)));
        HandledBetween(m, n, m', m', o, dest, c, now);
      }
    }
  }

  lemma SameForItself(m: AttentionMap, id: AttentionIdentity)
    ensures SameFor(m, m, id)
  {
  }

  lemma {:induction false} ApplyAllHandles(w: Work, o: Observation, dest: Destination, live: LiveMap, cs: seq<Condition>, now: Time)
    requires LiveIn(live, w.records) && AcceptedAttention(w.records) && ValidObservation(o) && Apart(cs)
    requires LiveFor(live, w.records, o, dest, IdentitiesOf(cs))
    requires ApplyAll(w, o, dest, live, cs, now).Ok?
    ensures AllHandled(w.records, ApplyAll(w, o, dest, live, cs, now).value.records, o, dest, cs, now)
    decreases |cs|
  {
    if cs != [] {
      var w' := ApplyCondition(w, o, dest, live, cs[0], now).value;
      IdentitiesSplit(cs);
      ConditionIsHandled(w, o, dest, live, cs[0], now);
      ApplyConditionKeeps(w, o, dest, live, cs[0], now);
      StillLiveFor(live, w.records, w'.records, o, dest, Identity(cs[0]), IdentitiesOf(cs[1..]));
      ApplyAllHandles(w', o, dest, live, cs[1..], now);
      ApplyAllKeeps(w', o, dest, live, cs[1..], now);
      HandledOneMore(w.records, w'.records, ApplyAll(w', o, dest, live, cs[1..], now).value.records, o, dest, cs, now);
    }
  }

  ghost predicate AllCleared(m: AttentionMap, m': AttentionMap, o: Observation, dest: Destination, live: LiveMap, ids: seq<ConditionId>, now: Time) {
    forall who :: who in ids && who in live ==> Cleared(m, m', o, dest, who, now, live[who])
  }

  lemma OneIsCleared(w: Work, o: Observation, dest: Destination, live: LiveMap, who: ConditionId, now: Time)
    requires LiveIn(live, w.records) && who in live && LiveOf(live, w.records, At(o, dest, who))
    requires ResolveOne(w, o, live, who, now).Ok?
    ensures Cleared(w.records, ResolveOne(w, o, live, who, now).value.records, o, dest, who, now, live[who])
  {
    LiveHereIs(w.records[live[who]], o, dest, who);
  }

  lemma ClearedBetween(m: AttentionMap, n: AttentionMap, n': AttentionMap, m': AttentionMap, o: Observation, dest: Destination,
                       who: ConditionId, now: Time, k: Id)
    requires Cleared(n, n', o, dest, who, now, k) && SameFor(m, n, At(o, dest, who)) && SameFor(n', m', At(o, dest, who))
    ensures Cleared(m, m', o, dest, who, now, k)
  {
  }

  lemma ClearedOneMore(m: AttentionMap, n: AttentionMap, m': AttentionMap, o: Observation, dest: Destination, live: LiveMap,
                       ids: seq<ConditionId>, now: Time)
    requires ids != [] && ApartIds(ids) && ids[0] in live && Cleared(m, n, o, dest, ids[0], now, live[ids[0]])
    requires AllCleared(n, m', o, dest, live, ids[1..], now)
    requires TouchesOnly(m, n, At(o, dest, ids[0])) && SameBut(n, m', o, dest, Among(ids[1..]))
    ensures AllCleared(m, m', o, dest, live, ids, now)
  {
    AmongSplit(ids);
    forall who | who in ids && who in live ensures Cleared(m, m', o, dest, who, now, live[who]) {
      if who == ids[0] {
        SameForItself(m, At(o, dest, who));
        ClearedBetween(m, m, n, m', o, dest, who, now, live[who]);
      } else {
        assert who in ids[1..];
        SameForItself(m', At(o, dest, who));
        ClearedBetween(m, n, m', m', o, dest, who, now, live[who]);
      }
    }
  }

  lemma {:induction false} ResolveAllClears(w: Work, o: Observation, dest: Destination, live: LiveMap, ids: seq<ConditionId>, now: Time)
    requires LiveIn(live, w.records) && AcceptedAttention(w.records) && ValidObservation(o)
    requires ApartIds(ids) && forall who :: who in ids ==> who in live
    requires LiveFor(live, w.records, o, dest, Among(ids)) && ResolveAll(w, o, live, ids, now).Ok?
    ensures AllCleared(w.records, ResolveAll(w, o, live, ids, now).value.records, o, dest, live, ids, now)
    decreases |ids|
  {
    if ids != [] {
      var w' := ResolveOne(w, o, live, ids[0], now).value;
      AmongSplit(ids);
      OneIsCleared(w, o, dest, live, ids[0], now);
      ResolveOneKeeps(w, o, dest, live, ids[0], now);
      StillLiveFor(live, w.records, w'.records, o, dest, ids[0], Among(ids[1..]));
      ResolveAllClears(w', o, dest, live, ids[1..], now);
      ResolveAllKeeps(w', o, dest, live, ids[1..], now);
      ClearedOneMore(w.records, w'.records, ResolveAll(w', o, live, ids[1..], now).value.records, o, dest, live, ids, now);
    }
  }

  /** A reconciliation handles every condition and clears every live record no
      condition names. */
  lemma ReconcileHandles(w: Work, o: Observation, dest: Destination, live: LiveMap, cs: seq<Condition>, now: Time)
    requires LiveIn(live, w.records) && AcceptedAttention(w.records) && ValidObservation(o) && Apart(cs)
    requires LiveFor(live, w.records, o, dest, IdentitiesOf(cs) + live.Keys)
    requires Reconcile(w, o, dest, live, cs, now).Ok?
    ensures var m' := Reconcile(w, o, dest, live, cs, now).value.records;
            AllHandled(w.records, m', o, dest, cs, now) && AllCleared(w.records, m', o, dest, live, Unseen(live, cs), now)
  {
    var n := ApplyAll(w, o, dest, live, cs, now).value;
    var m' := Reconcile(w, o, dest, live, cs, now).value.records;
    LiveForFewer(live, w.records, o, dest, IdentitiesOf(cs) + live.Keys, IdentitiesOf(cs));
    ApplyAllHandles(w, o, dest, live, cs, now);
    AppliedForReconcile(w, o, dest, live, cs, now);
    InOrderDistinct(live.Keys - IdentitiesOf(cs));
    ResolveAllClears(n, o, dest, live, Unseen(live, cs), now);
    ResolveAllKeeps(n, o, dest, live, Unseen(live, cs), now);
    HandledThenCleared(w.records, n.records, m', o, dest, live, cs, now);
  }

  lemma HandledThenCleared(m: AttentionMap, n: AttentionMap, m': AttentionMap, o: Observation, dest: Destination, live: LiveMap,
                           cs: seq<Condition>, now: Time)
    requires AllHandled(m, n, o, dest, cs, now) && AllCleared(n, m', o, dest, live, Unseen(live, cs), now) && m.Keys <= n.Keys
    requires SameBut(m, n, o, dest, IdentitiesOf(cs)) && SameBut(n, m', o, dest, Among(Unseen(live, cs)))
    ensures AllHandled(m, m', o, dest, cs, now) && AllCleared(m, m', o, dest, live, Unseen(live, cs), now)
  {
    forall c | c in cs ensures Handled(m, m', o, dest, c, now) {
      IdentityIn(cs, c);
      SameForItself(m, At(o, dest, Identity(c)));
      HandledBetween(m, m, n, m', o, dest, c, now);
    }
    forall who | who in Unseen(live, cs) && who in live ensures Cleared(m, m', o, dest, who, now, live[who]) {
      SameForItself(m', At(o, dest, who));
      ClearedBetween(m, n, m', m', o, dest, who, now, live[who]);
    }
  }

  lemma IdentityIn(cs: seq<Condition>, c: Condition)
    requires c in cs
    ensures Identity(c) in IdentitiesOf(cs)
  {
  }

  // ------------------------------------------------------- a whole projection

  /** Exactly one live record of the condition, and it shows it as observed. */
  ghost predicate ShownOnce(m: AttentionMap, o: Observation, dest: Destination, c: Condition) {
    exists k :: k in m && LiveHere(m[k], o.missionId, dest) && ShowsNow(m[k], o, c)
                && forall j :: j in m && LiveHere(m[j], o.missionId, dest) && m[j].kind == c.kind && m[j].key == c.key ==> j == k
  }

  /** What becomes of a record that was live: kept if it shows what is observed,
      closed for its replacement if its condition changed, else cleared. */
  ghost predicate LiveFate(m: AttentionMap, m': AttentionMap, o: Observation, dest: Destination, now: Time, k: Id)
    requires k in m && k in m'
  {
    if Portrays(m[k], o) then m'[k] == m[k]
    else if exists c :: c in o.conditions && c.kind == m[k].kind && c.key == m[k].key then
      exists c, j :: c in o.conditions && j !in m && j in m' && WrittenFor(m'[j], j, o, c, dest, now) && ReplacedBy(m[k], m'[k], o, c, j, now)
    else ClearedBy(m[k], m'[k], o, now)
  }

  /** A record that was not there is the first writing of a condition that no live
      record showed. */
  ghost predicate NewFate(m: AttentionMap, m': AttentionMap, o: Observation, dest: Destination, now: Time, k: Id)
    requires k in m'
  {
    exists c :: c in o.conditions && WrittenFor(m'[k], k, o, c, dest, now)
                && forall j :: j in m && LiveHere(m[j], o.missionId, dest) ==> !ShowsNow(m[j], o, c)
  }

  lemma NewIsOfItsCase(m: AttentionMap, m': AttentionMap, o: Observation, dest: Destination, c: Condition, now: Time, k: Id)
    requires OneLive(m) && Handled(m, m', o, dest, c, now) && c in o.conditions
    requires k in m' && k !in m && IdentityOf(m'[k]) == At(o, dest, Identity(c))
    ensures NewFate(m, m', o, dest, now, k)
  {
    if exists i :: Added(m, m', o, dest, c, now, i) {
      forall j | j in m && LiveHere(m[j], o.missionId, dest) ensures !ShowsNow(m[j], o, c) { LiveHereIs(m[j], o, dest, Identity(c)); }
    } else if exists i, l :: Replaced(m, m', o, dest, c, now, i, l) {
      var i, l :| Replaced(m, m', o, dest, c, now, i, l);
      forall j | j in m && LiveHere(m[j], o.missionId, dest) ensures !ShowsNow(m[j], o, c) {
        assert Rivals(m[j], m[l]) ==> j == l;
      }
    } else {
      assert false;
    }
  }

  lemma HandledFate(m: AttentionMap, m': AttentionMap, o: Observation, dest: Destination, c: Condition, now: Time, k: Id)
    requires OneLive(m) && Handled(m, m', o, dest, c, now) && c in o.conditions && DistinctConditions(o.conditions)
    requires k in m && k in m' && LiveHere(m[k], o.missionId, dest) && m[k].kind == c.kind && m[k].key == c.key
    ensures LiveFate(m, m', o, dest, now, k)
  {
    LiveHereIs(m[k], o, dest, Identity(c));
    assert forall d :: d in o.conditions && d.kind == c.kind && d.key == c.key ==> Identity(d) == Identity(c) && d == c;
    if Unchanged(m, m', o, dest, c) {
      var l :| l in m && LiveHere(m[l], o.missionId, dest) && ShowsNow(m[l], o, c);
      assert Rivals(m[k], m[l]);
    } else if exists j, l :: Replaced(m, m', o, dest, c, now, j, l) {
      var j, l :| Replaced(m, m', o, dest, c, now, j, l);
      assert Rivals(m[k], m[l]);
    }
  }

  lemma ClearedFate(m: AttentionMap, m': AttentionMap, o: Observation, dest: Destination, live: LiveMap, now: Time, k: Id)
    requires OneLive(m) && k in m && k in m' && LiveHere(m[k], o.missionId, dest)
    requires LiveOf(live, m, At(o, dest, ConditionOf(m[k])))
    requires forall c :: c in o.conditions ==> Identity(c) != ConditionOf(m[k])
    requires ConditionOf(m[k]) in live ==> Cleared(m, m', o, dest, ConditionOf(m[k]), now, live[ConditionOf(m[k])])
    ensures LiveFate(m, m', o, dest, now, k)
  {
    LiveHereIs(m[k], o, dest, ConditionOf(m[k]));
    assert Rivals(m[k], m[live[ConditionOf(m[k])]]);
    assert forall c :: c in o.conditions ==> !(c.kind == m[k].kind && c.key == m[k].key);
  }

  ghost predicate AllShown(m': AttentionMap, o: Observation, dest: Destination) {
    && (forall c :: c in o.conditions ==> ShownOnce(m', o, dest, c))
    && (forall k :: k in m' && LiveHere(m'[k], o.missionId, dest) ==> Portrays(m'[k], o))
  }

  ghost predicate AllFates(m: AttentionMap, m': AttentionMap, o: Observation, dest: Destination, now: Time) {
    forall k :: k in m ==> k in m' && (if LiveHere(m[k], o.missionId, dest) then LiveFate(m, m', o, dest, now, k) else m'[k] == m[k])
  }

  ghost predicate AllNew(m: AttentionMap, m': AttentionMap, o: Observation, dest: Destination, now: Time) {
    forall k :: k in m' && k !in m ==> NewFate(m, m', o, dest, now, k)
  }

  ghost predicate Projected(m: AttentionMap, m': AttentionMap, o: Observation, dest: Destination, now: Time) {
    AllShown(m', o, dest) && AllFates(m, m', o, dest, now) && AllNew(m, m', o, dest, now)
  }

  lemma ShownOnceFrom(m: AttentionMap, o: Observation, dest: Destination, c: Condition)
    requires AcceptedAttention(m) && ProjectsExactly(m, o, dest) && c in o.conditions
    ensures ShownOnce(m, o, dest, c)
  {
    PresentedExactlyOnce(m, o, dest, c);
    var k :| k in m && LiveAs(m[k], At(o, dest, Identity(c))) && ShowsNow(m[k], o, c)
             && forall j :: j in m && LiveAs(m[j], At(o, dest, Identity(c))) ==> j == k;
    LiveHereIs(m[k], o, dest, Identity(c));
    forall j | j in m && LiveHere(m[j], o.missionId, dest) && m[j].kind == c.kind && m[j].key == c.key ensures j == k {
      LiveHereIs(m[j], o, dest, Identity(c));
    }
  }

  lemma FatesOf(m: AttentionMap, m': AttentionMap, o: Observation, dest: Destination, live: LiveMap, cs: seq<Condition>, now: Time, k: Id)
    requires OneLive(m) && DistinctConditions(o.conditions) && (forall c :: c in cs <==> c in o.conditions)
    requires AllHandled(m, m', o, dest, cs, now) && AllCleared(m, m', o, dest, live, Unseen(live, cs), now)
    requires k in m && k in m' && LiveHere(m[k], o.missionId, dest) && LiveOf(live, m, At(o, dest, ConditionOf(m[k])))
    ensures LiveFate(m, m', o, dest, now, k)
  {
    LiveHereIs(m[k], o, dest, ConditionOf(m[k]));
    if ConditionOf(m[k]) in IdentitiesOf(cs) {
      var c :| c in cs && Identity(c) == ConditionOf(m[k]);
      HandledFate(m, m', o, dest, c, now, k);
    } else {
      forall c | c in o.conditions ensures Identity(c) != ConditionOf(m[k]) { IdentityIn(cs, c); }
      assert ConditionOf(m[k]) in Unseen(live, cs);
      ClearedFate(m, m', o, dest, live, now, k);
    }
  }

  lemma NewFates(m: AttentionMap, m': AttentionMap, o: Observation, dest: Destination, live: LiveMap, cs: seq<Condition>, now: Time, k: Id)
    requires OneLive(m) && (forall c :: c in cs <==> c in o.conditions)
    requires AllHandled(m, m', o, dest, cs, now) && AllCleared(m, m', o, dest, live, Unseen(live, cs), now)
    requires SameBut(m, m', o, dest, IdentitiesOf(cs) + live.Keys) && k in m' && k !in m
    ensures NewFate(m, m', o, dest, now, k)
  {
    var id := IdentityOf(m'[k]);
    assert !SameFor(m, m', id);
    assert id == At(o, dest, id.condition) && id.condition in IdentitiesOf(cs) + live.Keys;
    NothingNewCleared(m, m', o, dest, live, cs, now);
    var c :| c in cs && Identity(c) == id.condition;
    NewIsOfItsCase(m, m', o, dest, c, now, k);
  }

  lemma NothingNewCleared(m: AttentionMap, m': AttentionMap, o: Observation, dest: Destination, live: LiveMap, cs: seq<Condition>, now: Time)
    requires AllCleared(m, m', o, dest, live, Unseen(live, cs), now)
    ensures forall k :: (k in m' && k !in m && IdentityOf(m'[k]) == At(o, dest, IdentityOf(m'[k]).condition)
                         && IdentityOf(m'[k]).condition in live) ==> IdentityOf(m'[k]).condition in IdentitiesOf(cs)
  {
    forall who | who in Unseen(live, cs) && who in live
      ensures forall k :: k in m' && IdentityOf(m'[k]) == At(o, dest, who) ==> k in m
    {
      assert Cleared(m, m', o, dest, who, now, live[who]);
    }
  }

  /** Projecting a FRESH observation, field by field: each observed condition is
      shown by exactly one live record; a live record that already showed it is
      kept; one whose condition changed is closed for its replacement with the
      first of revision, authorization and content that differs; one whose
      condition is gone is cleared; every other record is untouched. */
  lemma ProjectionOnFields(m: AttentionMap, dest: Destination, o: Observation, now: Time, supply: seq<Id>)
    requires AcceptedAttention(m) && ValidObservation(o)
    requires Project(m, o.missionId, dest, FreshnessResult(Fresh, Some(o)), now, supply).Ok?
    ensures Projected(m, Project(m, o.missionId, dest, FreshnessResult(Fresh, Some(o)), now, supply).value.records, o, dest, now)
  {
    var looked := FreshnessResult(Fresh, Some(o));
    var live, cs := LiveRecords(m, o.missionId, dest), SortedConditions(o.conditions);
    var m' := Project(m, o.missionId, dest, looked, now, supply).value.records;
    ProjectionIsExact(m, o.missionId, dest, looked, now, supply);
    SortedConditionsExactly(o.conditions);
    LiveRecordsExactly(m, o.missionId, dest);
    forall who ensures LiveOf(live, m, At(o, dest, who)) {
      assert At(o, dest, who) == AttentionIdentity(o.missionId, who, dest);
    }
    ProjectFresh(m, o, dest, now, supply);
    ReconcileHandles(NoWork(m, supply), o, dest, live, cs, now);
    ReconcileIsExact(NoWork(m, supply), o, dest, live, cs, now);
    ProjectedFrom(m, m', o, dest, live, cs, now);
  }

  lemma ProjectedFrom(m: AttentionMap, m': AttentionMap, o: Observation, dest: Destination, live: LiveMap, cs: seq<Condition>, now: Time)
    requires OneLive(m) && DistinctConditions(o.conditions) && (forall c :: c in cs <==> c in o.conditions)
    requires AcceptedAttention(m') && ProjectsExactly(m', o, dest) && LeavesOthers(m, m', o.missionId, dest) && m.Keys <= m'.Keys
    requires AllHandled(m, m', o, dest, cs, now) && AllCleared(m, m', o, dest, live, Unseen(live, cs), now)
    requires SameBut(m, m', o, dest, IdentitiesOf(cs) + live.Keys) && forall who :: LiveOf(live, m, At(o, dest, who))
    ensures Projected(m, m', o, dest, now)
  {
    AllShownFrom(m', o, dest);
    AllFatesFrom(m, m', o, dest, live, cs, now);
    forall k | k in m' && k !in m ensures NewFate(m, m', o, dest, now, k) { NewFates(m, m', o, dest, live, cs, now, k); }
  }

  lemma AllShownFrom(m': AttentionMap, o: Observation, dest: Destination)
    requires AcceptedAttention(m') && ProjectsExactly(m', o, dest)
    ensures AllShown(m', o, dest)
  {
    forall c | c in o.conditions ensures ShownOnce(m', o, dest, c) { ShownOnceFrom(m', o, dest, c); }
    forall k | k in m' && LiveHere(m'[k], o.missionId, dest) ensures Portrays(m'[k], o) {
      LiveHereIs(m'[k], o, dest, ConditionOf(m'[k]));
    }
  }

  lemma AllFatesFrom(m: AttentionMap, m': AttentionMap, o: Observation, dest: Destination, live: LiveMap, cs: seq<Condition>, now: Time)
    requires OneLive(m) && DistinctConditions(o.conditions) && (forall c :: c in cs <==> c in o.conditions)
    requires LeavesOthers(m, m', o.missionId, dest) && m.Keys <= m'.Keys
    requires AllHandled(m, m', o, dest, cs, now) && AllCleared(m, m', o, dest, live, Unseen(live, cs), now)
    requires forall who :: LiveOf(live, m, At(o, dest, who))
    ensures AllFates(m, m', o, dest, now)
  {
    forall k | k in m ensures k in m' && (if LiveHere(m[k], o.missionId, dest) then LiveFate(m, m', o, dest, now, k) else m'[k] == m[k]) {
      if LiveHere(m[k], o.missionId, dest) { FatesOf(m, m', o, dest, live, cs, now, k); }
    }
  }

  // ------------------------------------------------------ surfacing and acks

  /** The record as a presenter's receipt marks it. */
  predicate MarkedShown(a: Attention, b: Attention, messageRef: string, o: Observation, now: Time) {
    b == a.(presentation := Surfaced, surfacedAt := Some(now), surfacedMessage := Some(messageRef),
            surfacedFreshness := Some(Fresh), surfacedPoint := Some(PointOf(o)))
  }

  /** What a contradicted record becomes: replaced if its condition changed, else
      cleared; nothing else but its replacement is written. */
  ghost predicate Corrected(m: AttentionMap, m': AttentionMap, o: Observation, now: Time, id: Id)
    requires id in m
  {
    || (exists c :: c in o.conditions && Handled(m, m', o, m[id].destination, c, now) && Identity(c) == ConditionOf(m[id]))
    || ((forall c :: c in o.conditions ==> Identity(c) != ConditionOf(m[id]))
        && Cleared(m, m', o, m[id].destination, ConditionOf(m[id]), now, id))
  }

  /** Surfacing, field by field: the record is marked shown exactly when a FRESH
      read still shows it and the presenter's receipt is good; it is corrected
      exactly when a FRESH read does not show it; otherwise nothing changes. */
  lemma SurfaceOnFields(m: AttentionMap, id: Id, looked: FreshnessResult, receipt: PresenterReceipt, now: Time, supply: seq<Id>)
    requires AcceptedAttention(m) && (looked.observation.Some? ==> ValidObservation(looked.observation.value))
    requires Surface(m, id, looked, receipt, now, supply).Ok?
    ensures var r := Surface(m, id, looked, receipt, now, supply).value;
            && id in m && r.freshness == looked.freshness
            && (if looked.freshness.Fresh? && looked.observation.Some? then
                  var o := looked.observation.value;
                  if !Portrays(m[id], o) then r.contradicted && !r.surfaced && Corrected(m, r.work.records, o, now, id)
                  else if receipt.Shown? then
                    r.surfaced && !r.contradicted && id in r.work.records && r.work.records == m[id := r.work.records[id]]
                    && MarkedShown(m[id], r.work.records[id], receipt.messageRef, o, now)
                  else !r.surfaced && !r.contradicted && r.work.records == m
                else !r.surfaced && !r.contradicted && r.work.records == m)
  {
    if looked.freshness.Fresh? && looked.observation.Some? {
      var o := looked.observation.value;
      ContradictionOnFields(m[id], o);
      if Contradiction(m[id], o).Some? { ContradictedOnFields(m, id, o, now, supply); }
    }
  }

  lemma ContradictedOnFields(m: AttentionMap, id: Id, o: Observation, now: Time, supply: seq<Id>)
    requires AcceptedAttention(m) && ValidObservation(o) && id in m && !IsTerminal(m[id]) && o.missionId == m[id].missionId
    requires Reconcile(NoWork(m, supply), o, m[id].destination, map[ConditionOf(m[id]) := id],
                       ConditionsWith(o.conditions, ConditionOf(m[id])), now).Ok?
    ensures Corrected(m, Reconcile(NoWork(m, supply), o, m[id].destination, map[ConditionOf(m[id]) := id],
                                   ConditionsWith(o.conditions, ConditionOf(m[id])), now).value.records, o, now, id)
  {
    var a := m[id];
    var who := ConditionOf(a);
    var live, cs := map[who := id], ConditionsWith(o.conditions, who);
    ConditionsWithExactly(o.conditions, who);
    OneOrNone(cs, who);
    SurfaceLive(m, o, id);
    ReconcileHandles(NoWork(m, supply), o, a.destination, live, cs, now);
    if cs != [] {
      assert cs[0] in cs && cs[0] in o.conditions;
    } else {
      assert who in Unseen(live, cs);
    }
  }

  /** Acknowledging, field by field: who, when, at what freshness and, of a FRESH
      read, at what point. */
  lemma AcknowledgeOnFields(m: AttentionMap, id: Id, context: Context, looked: FreshnessResult, now: Time)
    requires Acknowledge(m, id, context, looked, now).Ok?
    ensures var read := if looked.freshness.Fresh? && looked.observation.Some? then Some(PointOf(looked.observation.value)) else None;
            id in m && Acknowledge(m, id, context, looked, now).value
                       == m[id := m[id].(presentation := Acknowledged, ackAt := Some(now), ackBy := Some(context),
                                         ackFreshness := Some(looked.freshness),
                                         ackCursor := if read.None? then None else Some(read.value.cursor), ackPoint := read)]
  {
  }
}
