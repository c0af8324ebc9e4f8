/** What projection, surfacing and acknowledgment keep and achieve. */
module AttentionLaws {
  import opened Record
  import opened Observations
  import opened Sorting
  import opened Attentions
  import opened AttentionOps

  // ------------------------------------------------------------------ history

  predicate Kept<T(==)>(was: Option<T>, now: Option<T>) { was.Some? ==> now == was }

  predicate SameCreation(a: Attention, b: Attention) {
    && b.attentionId == a.attentionId && b.missionId == a.missionId && b.revision == a.revision
    && b.kind == a.kind && b.key == a.key && b.digest == a.digest && b.authorization == a.authorization
    && b.destination == a.destination && b.priority == a.priority && b.createdAt == a.createdAt
    && b.point == a.point
  }

  /** What may ever become of a record: it moves by the transition table and
      never rewrites what it already recorded. */
  predicate MayFollow(a: Attention, b: Attention) {
    || b == a
    || (&& SameCreation(a, b) && PresentationMayBecome(a.presentation, b.presentation)
        && Kept(a.surfacedAt, b.surfacedAt) && Kept(a.surfacedMessage, b.surfacedMessage)
        && Kept(a.surfacedPoint, b.surfacedPoint)
        && Kept(a.ackAt, b.ackAt) && Kept(a.ackBy, b.ackBy) && Kept(a.ackFreshness, b.ackFreshness)
        && Kept(a.ackPoint, b.ackPoint)
        && a.closedAt.None? && a.supersededBy.None?)
  }

  ghost predicate AttentionHistory(m: AttentionMap, m': AttentionMap) {
    forall k :: k in m ==> k in m' && MayFollow(m[k], m'[k])
  }

  lemma HistoryComposes(m: AttentionMap, n: AttentionMap, p: AttentionMap)
    requires AttentionHistory(m, n) && AttentionHistory(n, p)
    ensures AttentionHistory(m, p)
  {
    forall k | k in m ensures k in p && MayFollow(m[k], p[k]) {
      assert k in n && MayFollow(m[k], n[k]) && MayFollow(n[k], p[k]);
    }
  }

  // ------------------------------------------------------------------- points

  /** Every read a record retains. */
  function PointsIn(a: Attention): set<Point> {
    {a.point} + Opt(a.surfacedPoint) + Opt(a.ackPoint) + Opt(a.closedPoint)
  }

  /** Points are only added, and only this read of this Mission. */
  ghost predicate PointsGrow(m: AttentionMap, m': AttentionMap, mission: Id, read: Option<Point>) {
    && (forall k :: k in m ==>
          && k in m' && m'[k].missionId == m[k].missionId && PointsIn(m[k]) <= PointsIn(m'[k])
          && PointsIn(m'[k]) <= PointsIn(m[k]) + (if m[k].missionId == mission then Opt(read) else {}))
    && (forall k :: k in m' && k !in m ==> m'[k].missionId == mission && PointsIn(m'[k]) == Opt(read))
  }

  lemma PointsCompose(m: AttentionMap, n: AttentionMap, p: AttentionMap, mission: Id, read: Option<Point>)
    requires PointsGrow(m, n, mission, read) && PointsGrow(n, p, mission, read)
    ensures PointsGrow(m, p, mission, read)
  {
    forall k | k in p && k !in m ensures p[k].missionId == mission && PointsIn(p[k]) == Opt(read) {
      if k in n { assert n[k].missionId == mission && PointsIn(n[k]) == Opt(read); }
    }
  }

  // ---------------------------------------------------- what one step touches

  ghost predicate SameFor(m: AttentionMap, m': AttentionMap, id: AttentionIdentity) {
    && (forall k :: k in m && IdentityOf(m[k]) == id ==> k in m' && m'[k] == m[k])
    && (forall k :: k in m' && IdentityOf(m'[k]) == id ==> k in m && m'[k] == m[k])
  }

  ghost predicate TouchesOnly(m: AttentionMap, m': AttentionMap, id: AttentionIdentity) {
    forall j :: j != id ==> SameFor(m, m', j)
  }

  ghost predicate NoneLive(m: AttentionMap, id: AttentionIdentity) {
    forall k :: k in m ==> !LiveAs(m[k], id)
  }

  /** A live record of this condition stands at what was observed. */
  ghost predicate Presented(m: AttentionMap, o: Observation, dest: Destination, c: Condition) {
    exists k :: k in m && LiveAs(m[k], At(o, dest, Identity(c))) && ShowsNow(m[k], o, c)
  }

  /** The record shows this condition as it is observed now. */
  predicate ShowsNow(a: Attention, o: Observation, c: Condition) {
    && a.kind == c.kind && a.key == c.key
    && a.revision == o.currentRevision && a.authorization == o.authorization && a.digest == c
  }

  /** The first of revision, authorization and content that differs. */
  predicate FirstDifference(a: Attention, o: Observation, c: Condition, reason: ClosedReason) {
    && (reason == RevisionChanged <==> a.revision != o.currentRevision)
    && (reason == AuthorityChanged <==> a.revision == o.currentRevision && a.authorization != o.authorization)
    && (reason == ConditionChanged <==> a.revision == o.currentRevision && a.authorization == o.authorization && a.digest != c)
    && reason != ConditionCleared
  }

  /** A record of a condition either shows it or says what differs first. */
  lemma DisagreementIsDifference(a: Attention, o: Observation, c: Condition)
    requires ConditionOf(a) == Identity(c)
    ensures Disagreement(a, o, c).None? <==> ShowsNow(a, o, c)
    ensures Disagreement(a, o, c).Some? ==> FirstDifference(a, o, c, Disagreement(a, o, c).value)
  {
  }

  function At(o: Observation, dest: Destination, who: ConditionId): AttentionIdentity {
    AttentionIdentity(o.missionId, who, dest)
  }

  /** The live map says who is live for this identity. */
  ghost predicate LiveOf(live: LiveMap, m: AttentionMap, id: AttentionIdentity) {
    if id.condition in live then live[id.condition] in m && LiveAs(m[live[id.condition]], id)
    else NoneLive(m, id)
  }

  /** Everything one operation on one Mission keeps. */
  ghost predicate Keeps(m: AttentionMap, m': AttentionMap, mission: Id, read: Option<Point>) {
    AcceptedAttention(m') && AttentionHistory(m, m') && PointsGrow(m, m', mission, read)
  }

  lemma KeepsCompose(m: AttentionMap, n: AttentionMap, p: AttentionMap, mission: Id, read: Option<Point>)
    requires Keeps(m, n, mission, read) && Keeps(n, p, mission, read)
    ensures Keeps(m, p, mission, read)
  {
    HistoryComposes(m, n, p);
    PointsCompose(m, n, p, mission, read);
  }

  // ---------------------------------------------------------------- acyclicity

  ghost predicate ChainsExtend(m: AttentionMap, m': AttentionMap) {
    && m.Keys <= m'.Keys
    && (forall k :: k in m ==>
          m'[k].supersededBy == m[k].supersededBy
          || (m'[k].supersededBy.Some? && m'[k].supersededBy.value !in m && m'[k].supersededBy.value in m'))
    && (forall k :: k in m' && k !in m ==> m'[k].supersededBy.None?)
  }

  lemma {:induction false} OnCycleIsOld(m: AttentionMap, m': AttentionMap, k: Id, n: nat, i: nat)
    requires ChainsExtend(m, m') && n > 0 && Follow(m', k, n) == Some(k)
    ensures Follow(m', k, i).Some? && Follow(m', k, i).value in m
    ensures m'[Follow(m', k, i).value].supersededBy == m[Follow(m', k, i).value].supersededBy
  {
    CycleNeverEnds(m', k, n, i);
    CycleNeverEnds(m', k, n, i + 1);
    CycleNeverEnds(m', k, n, i + 2);
  }

  lemma {:induction false} SameWalk(m: AttentionMap, m': AttentionMap, k: Id, n: nat, i: nat)
    requires ChainsExtend(m, m') && n > 0 && Follow(m', k, n) == Some(k)
    ensures Follow(m, k, i) == Follow(m', k, i)
  {
    if i > 0 {
      SameWalk(m, m', k, n, i - 1);
      OnCycleIsOld(m, m', k, n, i - 1);
    }
  }

  /** Giving a chain's last record a brand-new successor closes no loop. */
  lemma AcyclicExtends(m: AttentionMap, m': AttentionMap)
    requires Acyclic(m) && ChainsExtend(m, m')
    ensures Acyclic(m')
  {
    forall k, n: nat | k in m' && n > 0 ensures Follow(m', k, n) != Some(k) {
      if Follow(m', k, n) == Some(k) {
        SameWalk(m, m', k, n, n);
        OnCycleIsOld(m, m', k, n, 0);
      }
    }
  }

  // --------------------------------------------------------- elementary effects

  lemma NewRecordIsValid(id: Id, o: Observation, c: Condition, dest: Destination, now: Time)
    requires ValidObservation(o)
    ensures ValidAttention(NewRecord(id, o, c, dest, now))
  {
  }

  /** The rules of the loader other than acyclicity. */
  ghost predicate Ruled(m: AttentionMap) {
    Keyed(m) && OneLive(m) && SuccessorsExist(m) && OnePredecessor(m)
  }

  lemma InsertRules(m: AttentionMap, id: Id, a: Attention)
    requires Ruled(m) && id !in m && ValidAttention(a) && a.attentionId == id && a.supersededBy.None?
    requires NoneLive(m, IdentityOf(a))
    ensures Ruled(m[id := a])
  {
    var m' := m[id := a];
    forall j, k | j in m' && k in m' && Rivals(m'[j], m'[k]) ensures j == k {
      if j in m && k in m { assert Rivals(m[j], m[k]); }
      assert j in m ==> !LiveAs(m[j], IdentityOf(a));
      assert k in m ==> !LiveAs(m[k], IdentityOf(a));
    }
    forall k | k in m' ensures SuccessorOk(m', m'[k]) {
      if k != id { assert SuccessorOk(m, m[k]); }
    }
    forall j, k | j in m' && k in m' && Siblings(m'[j], m'[k]) ensures j == k {
      assert Siblings(m[j], m[k]);
    }
  }

  lemma InsertFrames(m: AttentionMap, id: Id, a: Attention)
    requires id !in m && PointsIn(a) == {a.point}
    ensures AttentionHistory(m, m[id := a]) && PointsGrow(m, m[id := a], a.missionId, Some(a.point))
    ensures TouchesOnly(m, m[id := a], IdentityOf(a))
  {
  }

  lemma ReplaceFrames(m: AttentionMap, id: Id, a: Attention, cur: Id, b: Attention)
    requires id !in m && cur in m && PointsIn(a) == {a.point} && MayFollow(m[cur], b)
    requires IdentityOf(a) == IdentityOf(m[cur]) == IdentityOf(b)
    requires PointsIn(m[cur]) <= PointsIn(b) <= PointsIn(m[cur]) + {a.point}
    ensures AttentionHistory(m, m[id := a][cur := b]) && PointsGrow(m, m[id := a][cur := b], a.missionId, Some(a.point))
    ensures TouchesOnly(m, m[id := a][cur := b], IdentityOf(a))
  {
    InsertFrames(m, id, a);
    UpdateHistory(m[id := a], cur, b);
    UpdatePoints(m[id := a], cur, b, a.missionId, Some(a.point));
    UpdateTouches(m[id := a], cur, b);
    HistoryComposes(m, m[id := a], m[id := a][cur := b]);
    PointsCompose(m, m[id := a], m[id := a][cur := b], a.missionId, Some(a.point));
    TouchesCompose(m, m[id := a], m[id := a][cur := b], IdentityOf(a));
  }

  lemma UpdateHistory(m: AttentionMap, cur: Id, b: Attention)
    requires cur in m && MayFollow(m[cur], b)
    ensures AttentionHistory(m, m[cur := b])
  {
  }

  lemma UpdatePoints(m: AttentionMap, cur: Id, b: Attention, mission: Id, read: Option<Point>)
    requires cur in m && b.missionId == m[cur].missionId
    requires PointsIn(m[cur]) <= PointsIn(b) <= PointsIn(m[cur]) + (if m[cur].missionId == mission then Opt(read) else {})
    ensures PointsGrow(m, m[cur := b], mission, read)
  {
  }

  lemma UpdateTouches(m: AttentionMap, cur: Id, b: Attention)
    requires cur in m && IdentityOf(m[cur]) == IdentityOf(b)
    ensures TouchesOnly(m, m[cur := b], IdentityOf(m[cur]))
  {
  }

  lemma TouchesCompose(m: AttentionMap, n: AttentionMap, p: AttentionMap, id: AttentionIdentity)
    requires TouchesOnly(m, n, id) && TouchesOnly(n, p, id)
    ensures TouchesOnly(m, p, id)
  {
    forall j: AttentionIdentity | j != id ensures SameFor(m, p, j) {
      assert SameFor(m, n, j) && SameFor(n, p, j);
    }
  }

  lemma UpdateFrames(m: AttentionMap, cur: Id, b: Attention, mission: Id, read: Option<Point>)
    requires cur in m && MayFollow(m[cur], b) && IdentityOf(m[cur]) == IdentityOf(b)
    requires PointsIn(m[cur]) <= PointsIn(b) <= PointsIn(m[cur]) + (if m[cur].missionId == mission then Opt(read) else {})
    ensures AttentionHistory(m, m[cur := b]) && PointsGrow(m, m[cur := b], mission, read)
    ensures TouchesOnly(m, m[cur := b], IdentityOf(m[cur]))
  {
    UpdateHistory(m, cur, b);
    UpdatePoints(m, cur, b, mission, read);
    UpdateTouches(m, cur, b);
  }

  lemma InsertKeeps(m: AttentionMap, o: Observation, c: Condition, dest: Destination, now: Time, id: Id)
    requires AcceptedAttention(m) && ValidObservation(o) && id !in m
    requires NoneLive(m, At(o, dest, Identity(c)))
    ensures Keeps(m, m[id := NewRecord(id, o, c, dest, now)], o.missionId, Some(PointOf(o)))
    ensures TouchesOnly(m, m[id := NewRecord(id, o, c, dest, now)], At(o, dest, Identity(c)))
  {
    var a := NewRecord(id, o, c, dest, now);
    NewRecordIsValid(id, o, c, dest, now);
    assert IdentityOf(a) == At(o, dest, Identity(c)) && PointsIn(a) == {a.point};
    AcyclicExtends(m, m[id := a]);
    InsertRules(m, id, a);
    InsertFrames(m, id, a);
  }

  lemma ReplaceOneLive(m: AttentionMap, id: Id, cur: Id, a: Attention, b: Attention)
    requires OneLive(m) && id !in m && cur in m && !IsTerminal(m[cur]) && IsTerminal(b)
    requires IdentityOf(a) == IdentityOf(m[cur])
    ensures OneLive(m[id := a][cur := b])
  {
    var m' := m[id := a][cur := b];
    forall j, k | j in m' && k in m' && Rivals(m'[j], m'[k]) ensures j == k {
      assert j in m && k in m ==> (Rivals(m[j], m[k]) ==> j == k);
      assert j in m ==> (Rivals(m[j], m[cur]) ==> j == cur);
      assert k in m ==> (Rivals(m[k], m[cur]) ==> k == cur);
    }
  }

  lemma ReplaceSuccessors(m: AttentionMap, id: Id, cur: Id, a: Attention, b: Attention)
    requires SuccessorsExist(m) && OnePredecessor(m) && id !in m && cur in m
    requires b.supersededBy == Some(id) && a.supersededBy.None?
    requires IdentityOf(a) == IdentityOf(m[cur]) == IdentityOf(b) && b.createdAt == m[cur].createdAt <= a.createdAt
    ensures SuccessorsExist(m[id := a][cur := b]) && OnePredecessor(m[id := a][cur := b])
  {
    var m' := m[id := a][cur := b];
    forall k | k in m' ensures SuccessorOk(m', m'[k]) {
      if k != id && k != cur { assert SuccessorOk(m, m[k]); }
    }
    forall k | k in m && k != cur ensures m'[k].supersededBy != Some(id) {
      assert SuccessorOk(m, m[k]);
    }
    forall j, k | j in m' && k in m' && Siblings(m'[j], m'[k]) ensures j == k {
      assert j in m && k in m ==> (Siblings(m[j], m[k]) ==> j == k);
    }
  }

  lemma ReplaceRules(m: AttentionMap, id: Id, cur: Id, a: Attention, b: Attention)
    requires Ruled(m) && id !in m && cur in m
    requires !IsTerminal(m[cur]) && IsTerminal(b) && b.supersededBy == Some(id) && a.supersededBy.None?
    requires IdentityOf(a) == IdentityOf(m[cur]) == IdentityOf(b) && b.createdAt == m[cur].createdAt <= a.createdAt
    requires ValidAttention(a) && ValidAttention(b) && a.attentionId == id && b.attentionId == cur
    ensures Ruled(m[id := a][cur := b])
  {
    ReplaceOneLive(m, id, cur, a, b);
    ReplaceSuccessors(m, id, cur, a, b);
  }

  lemma ClosedFollows(a: Attention, reason: ClosedReason, now: Time, successor: Option<Id>, o: Observation)
    requires ValidAttention(a) && !IsTerminal(a)
    ensures var b := AsClosed(a, reason, now, successor, o);
            && MayFollow(a, b) && SameCreation(a, b) && IdentityOf(a) == IdentityOf(b) && IsTerminal(b)
            && PointsIn(b) == PointsIn(a) + {PointOf(o)}
  {
  }

  /** When a live record may be closed: not before it was created, superseded
      exactly when its condition did not clear, and never by itself. */
  predicate MayClose(a: Attention, reason: ClosedReason, now: Time, successor: Option<Id>) {
    a.createdAt <= now && (reason.ConditionCleared? <==> successor.None?) && successor != Some(a.attentionId)
  }

  ghost predicate Closable(a: Attention, o: Observation) { ValidAttention(a) && !IsTerminal(a) && ValidObservation(o) }

  /** A closed live record passes validation exactly when it may be closed. */
  lemma ClosesExactly(a: Attention, reason: ClosedReason, now: Time, successor: Option<Id>, o: Observation)
    requires Closable(a, o)
    ensures ValidAttention(AsClosed(a, reason, now, successor, o)) <==> MayClose(a, reason, now, successor)
  {
    assert ValidPoint(PointOf(o));
  }

  lemma ReplaceKeeps(m: AttentionMap, o: Observation, c: Condition, dest: Destination, now: Time, id: Id, cur: Id,
                     reason: ClosedReason)
    requires AcceptedAttention(m) && ValidObservation(o) && id !in m && cur in m
    requires LiveAs(m[cur], At(o, dest, Identity(c)))
    requires ValidAttention(AsClosed(m[cur], reason, now, Some(id), o))
    ensures var m' := m[id := NewRecord(id, o, c, dest, now)][cur := AsClosed(m[cur], reason, now, Some(id), o)];
            Keeps(m, m', o.missionId, Some(PointOf(o))) && TouchesOnly(m, m', At(o, dest, Identity(c)))
  {
    var a := NewRecord(id, o, c, dest, now);
    var b := AsClosed(m[cur], reason, now, Some(id), o);
    NewRecordIsValid(id, o, c, dest, now);
    assert ValidAttention(m[cur]) && m[cur].attentionId == cur;
    ClosedFollows(m[cur], reason, now, Some(id), o);
    assert IdentityOf(a) == At(o, dest, Identity(c)) && PointsIn(a) == {a.point};
    AcyclicExtends(m, m[id := a][cur := b]);
    ReplaceRules(m, id, cur, a, b);
    ReplaceFrames(m, id, a, cur, b);
  }

  lemma UpdateRules(m: AttentionMap, cur: Id, b: Attention)
    requires Ruled(m) && cur in m && !IsTerminal(m[cur]) && ValidAttention(b) && b.attentionId == cur
    requires IdentityOf(b) == IdentityOf(m[cur]) && b.createdAt == m[cur].createdAt && b.supersededBy.None?
    ensures Ruled(m[cur := b])
  {
    var m' := m[cur := b];
    forall j, k | j in m' && k in m' && Rivals(m'[j], m'[k]) ensures j == k {
      assert Rivals(m[j], m[k]);
    }
    forall k | k in m' ensures SuccessorOk(m', m'[k]) {
      assert SuccessorOk(m, m[k]);
    }
    forall j, k | j in m' && k in m' && Siblings(m'[j], m'[k]) ensures j == k {
      assert Siblings(m[j], m[k]);
    }
  }

  /** A live record updated in place, its successor still none. */
  lemma UpdateKeeps(m: AttentionMap, cur: Id, b: Attention, mission: Id, read: Option<Point>)
    requires AcceptedAttention(m) && cur in m && !IsTerminal(m[cur]) && ValidAttention(b)
    requires MayFollow(m[cur], b) && SameCreation(m[cur], b) && b.supersededBy.None?
    requires PointsIn(m[cur]) <= PointsIn(b) <= PointsIn(m[cur]) + (if m[cur].missionId == mission then Opt(read) else {})
    ensures Keeps(m, m[cur := b], mission, read) && TouchesOnly(m, m[cur := b], IdentityOf(m[cur]))
  {
    assert ValidAttention(m[cur]) && m[cur].attentionId == cur;
    AcyclicExtends(m, m[cur := b]);
    UpdateRules(m, cur, b);
    UpdateFrames(m, cur, b, mission, read);
  }

  // -------------------------------------------------------------- reconciling

  lemma PresentedAt(m: AttentionMap, o: Observation, dest: Destination, c: Condition, k: Id)
    requires k in m && LiveAs(m[k], At(o, dest, Identity(c))) && ShowsNow(m[k], o, c)
    ensures Presented(m, o, dest, c)
  {
  }

  lemma NewRecordAgrees(id: Id, o: Observation, c: Condition, dest: Destination, now: Time)
    ensures var a := NewRecord(id, o, c, dest, now);
            LiveAs(a, At(o, dest, Identity(c))) && ShowsNow(a, o, c)
  {
  }

  /** The three things one observed condition may do to the records. */
  lemma ApplyConditionShape(w: Work, o: Observation, dest: Destination, live: LiveMap, c: Condition, now: Time) returns (id: Id)
    requires LiveIn(live, w.records) && ApplyCondition(w, o, dest, live, c, now).Ok?
    ensures var m, m', who := w.records, ApplyCondition(w, o, dest, live, c, now).value.records, Identity(c);
            if who in live && Disagreement(m[live[who]], o, c).None? then m' == m
            else if who !in live then id !in m && m' == m[id := NewRecord(id, o, c, dest, now)]
            else
              var b := AsClosed(m[live[who]], Disagreement(m[live[who]], o, c).value, now, Some(id), o);
              id !in m && ValidAttention(b) && m' == m[id := NewRecord(id, o, c, dest, now)][live[who] := b]
  {
    var minted := FreshId(w.supply, w.records.Keys, MINT_TRIES);
    id := if minted.Ok? then minted.value.id else 0;
  }

  lemma ApplyConditionKeeps(w: Work, o: Observation, dest: Destination, live: LiveMap, c: Condition, now: Time)
    requires LiveIn(live, w.records) && AcceptedAttention(w.records) && ValidObservation(o)
    requires LiveOf(live, w.records, At(o, dest, Identity(c)))
    requires ApplyCondition(w, o, dest, live, c, now).Ok?
    ensures var m' := ApplyCondition(w, o, dest, live, c, now).value.records;
            && Keeps(w.records, m', o.missionId, Some(PointOf(o)))
            && TouchesOnly(w.records, m', At(o, dest, Identity(c)))
            && Presented(m', o, dest, c)
  {
    var m, who := w.records, Identity(c);
    var m' := ApplyCondition(w, o, dest, live, c, now).value.records;
    var id := ApplyConditionShape(w, o, dest, live, c, now);
    NewRecordAgrees(id, o, c, dest, now);
    if who in live { DisagreementIsDifference(m[live[who]], o, c); }
    if who in live && Disagreement(m[live[who]], o, c).None? {
      UnchangedKeeps(m, o.missionId, Some(PointOf(o)));
      PresentedAt(m, o, dest, c, live[who]);
    } else if who !in live {
      InsertKeeps(m, o, c, dest, now, id);
      PresentedAt(m', o, dest, c, id);
    } else {
      ReplaceKeeps(m, o, c, dest, now, id, live[who], Disagreement(m[live[who]], o, c).value);
      PresentedAt(m', o, dest, c, id);
    }
  }

  lemma UnchangedKeeps(m: AttentionMap, mission: Id, read: Option<Point>)
    requires AcceptedAttention(m)
    ensures Keeps(m, m, mission, read)
  {
  }

  lemma ResolveOneKeeps(w: Work, o: Observation, dest: Destination, live: LiveMap, who: ConditionId, now: Time)
    requires LiveIn(live, w.records) && AcceptedAttention(w.records) && ValidObservation(o) && who in live
    requires LiveOf(live, w.records, At(o, dest, who))
    requires ResolveOne(w, o, live, who, now).Ok?
    ensures var m' := ResolveOne(w, o, live, who, now).value.records;
            && Keeps(w.records, m', o.missionId, Some(PointOf(o)))
            && TouchesOnly(w.records, m', At(o, dest, who))
            && NoneLive(m', At(o, dest, who))
  {
    var m := w.records;
    var b := AsClosed(m[live[who]], ConditionCleared, now, None, o);
    assert ValidAttention(m[live[who]]);
    ClosedFollows(m[live[who]], ConditionCleared, now, None, o);
    UpdateKeeps(m, live[who], b, o.missionId, Some(PointOf(o)));
    NoneLiveWithout(m, live[who], b, At(o, dest, who));
  }

  lemma NoneLiveWithout(m: AttentionMap, cur: Id, b: Attention, id: AttentionIdentity)
    requires OneLive(m) && cur in m && LiveAs(m[cur], id) && IsTerminal(b)
    ensures NoneLive(m[cur := b], id)
  {
    var m' := m[cur := b];
    forall k | k in m' ensures !LiveAs(m'[k], id) {
      if k != cur { assert Rivals(m[k], m[cur]) <==> LiveAs(m[k], id); }
    }
  }

  ghost predicate Apart(cs: seq<Condition>) {
    cs == [] || (Identity(cs[0]) !in IdentitiesOf(cs[1..]) && Apart(cs[1..]))
  }

  ghost predicate ApartIds(ids: seq<ConditionId>) {
    forall i, j :: 0 <= i < j < |ids| ==> ids[i] != ids[j]
  }

  ghost predicate SameBut(m: AttentionMap, m': AttentionMap, o: Observation, dest: Destination, ids: set<ConditionId>) {
    forall id: AttentionIdentity :: !(id.mission == o.missionId && id.destination == dest && id.condition in ids) ==> SameFor(m, m', id)
  }

  ghost predicate LiveFor(live: LiveMap, m: AttentionMap, o: Observation, dest: Destination, ids: set<ConditionId>) {
    forall who :: who in ids ==> LiveOf(live, m, At(o, dest, who))
  }

  lemma StillLiveFor(live: LiveMap, m: AttentionMap, m': AttentionMap, o: Observation, dest: Destination,
                     who: ConditionId, ids: set<ConditionId>)
    requires TouchesOnly(m, m', At(o, dest, who)) && who !in ids && LiveFor(live, m, o, dest, ids)
    ensures LiveFor(live, m', o, dest, ids)
  {
    forall w | w in ids ensures LiveOf(live, m', At(o, dest, w)) {
      assert SameFor(m, m', At(o, dest, w)) && LiveOf(live, m, At(o, dest, w));
    }
  }

  lemma SameForComposes(m: AttentionMap, n: AttentionMap, p: AttentionMap, o: Observation, dest: Destination,
                        who: ConditionId, ids: set<ConditionId>)
    requires TouchesOnly(m, n, At(o, dest, who)) && SameBut(n, p, o, dest, ids)
    ensures SameBut(m, p, o, dest, ids + {who})
  {
    forall id: AttentionIdentity | !(id.mission == o.missionId && id.destination == dest && id.condition in ids + {who})
      ensures SameFor(m, p, id)
    {
      assert id != At(o, dest, who) && SameFor(m, n, id) && SameFor(n, p, id);
    }
  }

  lemma IdentitiesSplit(cs: seq<Condition>)
    requires cs != []
    ensures IdentitiesOf(cs) == IdentitiesOf(cs[1..]) + {Identity(cs[0])}
  {
    assert cs == [cs[0]] + cs[1..];
    assert forall c :: c in cs <==> c == cs[0] || c in cs[1..];
  }

  lemma {:induction false} ApplyAllKeeps(w: Work, o: Observation, dest: Destination, live: LiveMap, cs: seq<Condition>, now: Time)
    requires LiveIn(live, w.records) && AcceptedAttention(w.records) && ValidObservation(o) && Apart(cs)
    requires LiveFor(live, w.records, o, dest, IdentitiesOf(cs))
    requires ApplyAll(w, o, dest, live, cs, now).Ok?
    ensures var m' := ApplyAll(w, o, dest, live, cs, now).value.records;
            && Keeps(w.records, m', o.missionId, Some(PointOf(o)))
            && SameBut(w.records, m', o, dest, IdentitiesOf(cs))
            && (forall c :: c in cs ==> Presented(m', o, dest, c))
    decreases |cs|
  {
    if cs == [] {
      UnchangedKeeps(w.records, o.missionId, Some(PointOf(o)));
    } else {
      var w' := ApplyCondition(w, o, dest, live, cs[0], now).value;
      IdentitiesSplit(cs);
      ApplyConditionKeeps(w, o, dest, live, cs[0], now);
      StillLiveFor(live, w.records, w'.records, o, dest, Identity(cs[0]), IdentitiesOf(cs[1..]));
      ApplyAllKeeps(w', o, dest, live, cs[1..], now);
      var m' := ApplyAll(w', o, dest, live, cs[1..], now).value.records;
      KeepsCompose(w.records, w'.records, m', o.missionId, Some(PointOf(o)));
      SameForComposes(w.records, w'.records, m', o, dest, Identity(cs[0]), IdentitiesOf(cs[1..]));
      StillPresented(w'.records, m', o, dest, cs[0], IdentitiesOf(cs[1..]));
      forall c | c in cs ensures Presented(m', o, dest, c) {
        if c != cs[0] { assert c in cs[1..]; }
      }
    }
  }

  lemma StillPresented(m: AttentionMap, m': AttentionMap, o: Observation, dest: Destination, c: Condition, ids: set<ConditionId>)
    requires Presented(m, o, dest, c) && SameBut(m, m', o, dest, ids) && Identity(c) !in ids
    ensures Presented(m', o, dest, c)
  {
    var k :| k in m && LiveAs(m[k], At(o, dest, Identity(c))) && ShowsNow(m[k], o, c);
    assert SameFor(m, m', At(o, dest, Identity(c)));
    assert m'[k] == m[k];
  }

  lemma StillNoneLive(m: AttentionMap, m': AttentionMap, o: Observation, dest: Destination, who: ConditionId, ids: set<ConditionId>)
    requires NoneLive(m, At(o, dest, who)) && SameBut(m, m', o, dest, ids) && who !in ids
    ensures NoneLive(m', At(o, dest, who))
  {
    assert SameFor(m, m', At(o, dest, who));
  }

  ghost function Among(ids: seq<ConditionId>): set<ConditionId> { set who | who in ids }

  lemma AmongSplit(ids: seq<ConditionId>)
    requires ids != [] && ApartIds(ids)
    ensures ids[0] !in Among(ids[1..]) && Among(ids) == Among(ids[1..]) + {ids[0]}
    ensures ids[0] in ids && (forall who :: who in ids[1..] ==> who in ids) && ApartIds(ids[1..])
  {
    assert ids == [ids[0]] + ids[1..];
  }

  lemma {:induction false} ResolveAllKeeps(w: Work, o: Observation, dest: Destination, live: LiveMap, ids: seq<ConditionId>, now: Time)
    requires LiveIn(live, w.records) && AcceptedAttention(w.records) && ValidObservation(o)
    requires ApartIds(ids) && forall who :: who in ids ==> who in live
    requires LiveFor(live, w.records, o, dest, Among(ids))
    requires ResolveAll(w, o, live, ids, now).Ok?
    ensures var m' := ResolveAll(w, o, live, ids, now).value.records;
            && Keeps(w.records, m', o.missionId, Some(PointOf(o)))
            && SameBut(w.records, m', o, dest, Among(ids))
            && (forall who :: who in ids ==> NoneLive(m', At(o, dest, who)))
    decreases |ids|
  {
    if ids == [] {
      UnchangedKeeps(w.records, o.missionId, Some(PointOf(o)));
    } else {
      var rest := Among(ids[1..]);
      AmongSplit(ids);
      var w' := ResolveOne(w, o, live, ids[0], now).value;
      ResolveOneKeeps(w, o, dest, live, ids[0], now);
      StillLiveFor(live, w.records, w'.records, o, dest, ids[0], rest);
      ResolveAllKeeps(w', o, dest, live, ids[1..], now);
      var m' := ResolveAll(w', o, live, ids[1..], now).value.records;
      KeepsCompose(w.records, w'.records, m', o.missionId, Some(PointOf(o)));
      SameForComposes(w.records, w'.records, m', o, dest, ids[0], rest);
      StillNoneLive(w'.records, m', o, dest, ids[0], rest);
      forall who | who in ids ensures NoneLive(m', At(o, dest, who)) {
        assert who == ids[0] || who in ids[1..];
      }
    }
  }

  // ------------------------------------------------------------------- order

  lemma DistinctConcat(a: seq<ConditionId>, b: seq<ConditionId>)
    requires ApartIds(a) && ApartIds(b) && forall w :: w in a ==> w !in b
    ensures ApartIds(a + b)
  {
    forall i, j | 0 <= i < j < |a + b| ensures (a + b)[i] != (a + b)[j] {
      if i < |a| <= j { assert a[i] in a && b[j - |a|] in b; }
    }
  }

  lemma OfKindDistinct(ids: set<ConditionId>, kind: AttentionKind)
    ensures ApartIds(OfKind(kind, Sorted(KeysOf(ids, kind))))
    ensures AllOfKind(OfKind(kind, Sorted(KeysOf(ids, kind))), kind)
  {
    var keys := Sorted(KeysOf(ids, kind));
    forall i, j | 0 <= i < j < |keys| ensures OfKind(kind, keys)[i] != OfKind(kind, keys)[j] {
      assert keys[i] < keys[j];
    }
    forall w | w in OfKind(kind, keys) ensures w.kind == kind { OfKindExactly(ids, kind, w); }
  }

  ghost predicate AllOfKind(ids: seq<ConditionId>, kind: AttentionKind) { forall w :: w in ids ==> w.kind == kind }

  lemma DistinctKinds(a: seq<ConditionId>, b: seq<ConditionId>, c: seq<ConditionId>, d: seq<ConditionId>)
    requires ApartIds(a) && ApartIds(b) && ApartIds(c) && ApartIds(d)
    requires AllOfKind(a, AuthorizationReady) && AllOfKind(b, Blocked) && AllOfKind(c, NeedsHuman) && AllOfKind(d, ResultReady)
    ensures ApartIds(a + b + c + d)
  {
    DistinctConcat(a, b);
    DistinctConcat(a + b, c);
    DistinctConcat(a + b + c, d);
  }

  lemma InOrderDistinct(ids: set<ConditionId>)
    ensures ApartIds(InOrder(ids))
  {
    OfKindDistinct(ids, AuthorizationReady);
    OfKindDistinct(ids, Blocked);
    OfKindDistinct(ids, NeedsHuman);
    OfKindDistinct(ids, ResultReady);
    DistinctKinds(OfKind(AuthorizationReady, Sorted(KeysOf(ids, AuthorizationReady))),
                  OfKind(Blocked, Sorted(KeysOf(ids, Blocked))),
                  OfKind(NeedsHuman, Sorted(KeysOf(ids, NeedsHuman))),
                  OfKind(ResultReady, Sorted(KeysOf(ids, ResultReady))));
  }

  lemma {:induction false} ConditionsWithExactly(cs: seq<Condition>, w: ConditionId)
    requires DistinctConditions(cs)
    ensures |ConditionsWith(cs, w)| <= 1
    ensures forall c :: c in ConditionsWith(cs, w) <==> c in cs && Identity(c) == w
  {
    if cs != [] {
      assert DistinctConditions(cs[1..]);
      ConditionsWithExactly(cs[1..], w);
      assert forall c :: c in cs <==> c == cs[0] || c in cs[1..];
      assert forall c :: c in cs[1..] ==> Identity(c) != Identity(cs[0]);
      if ConditionsWith(cs[1..], w) != [] { assert ConditionsWith(cs[1..], w)[0] in ConditionsWith(cs[1..], w); }
    }
  }

  lemma {:induction false} ArrangedExactly(cs: seq<Condition>, ids: seq<ConditionId>)
    requires DistinctConditions(cs) && ApartIds(ids)
    ensures Apart(Arranged(cs, ids))
    ensures forall c :: c in Arranged(cs, ids) <==> c in cs && Identity(c) in ids
  {
    if ids != [] {
      var here, rest := ConditionsWith(cs, ids[0]), Arranged(cs, ids[1..]);
      ConditionsWithExactly(cs, ids[0]);
      ArrangedExactly(cs, ids[1..]);
      assert forall w :: w in ids <==> w == ids[0] || w in ids[1..];
      assert ids[0] !in ids[1..];
      if here != [] {
        assert here[0] in here && here == [here[0]];
        assert Arranged(cs, ids) == [here[0]] + rest && Arranged(cs, ids)[1..] == rest;
      } else {
        assert Arranged(cs, ids) == rest;
      }
    }
  }

  /** The observed conditions, each once, in identity order. */
  lemma SortedConditionsExactly(cs: seq<Condition>)
    requires DistinctConditions(cs)
    ensures Apart(SortedConditions(cs))
    ensures forall c :: c in SortedConditions(cs) <==> c in cs
    ensures IdentitiesOf(SortedConditions(cs)) == IdentitiesOf(cs)
  {
    InOrderExactly(IdentitiesOf(cs));
    InOrderDistinct(IdentitiesOf(cs));
    ArrangedExactly(cs, InOrder(IdentitiesOf(cs)));
  }

  // ------------------------------------------------------------ live records

  lemma {:induction false} LiveAmongExactly(m: AttentionMap, keys: seq<Id>, mission: Id, dest: Destination)
    requires forall k :: k in keys ==> k in m
    ensures var live := LiveAmong(m, keys, mission, dest);
            && (forall w :: w in live ==> LiveAs(m[live[w]], AttentionIdentity(mission, w, dest)))
            && (forall k :: k in keys && LiveAt(m[k], mission, dest) ==> ConditionOf(m[k]) in live)
  {
    if keys != [] {
      LiveAmongExactly(m, keys[..|keys|-1], mission, dest);
      assert keys == keys[..|keys|-1] + [keys[|keys|-1]];
    }
  }

  lemma LiveRecordsExactly(m: AttentionMap, mission: Id, dest: Destination)
    ensures var live := LiveRecords(m, mission, dest);
            forall w :: LiveOf(live, m, AttentionIdentity(mission, w, dest))
  {
    LiveAmongExactly(m, Sorted(m.Keys), mission, dest);
    var live := LiveRecords(m, mission, dest);
    forall w ensures LiveOf(live, m, AttentionIdentity(mission, w, dest)) {
      if w !in live {
        forall k | k in m ensures !LiveAs(m[k], AttentionIdentity(mission, w, dest)) {
          assert k in Sorted(m.Keys);
        }
      }
    }
  }

  // -------------------------------------------------------------- projection

  /** What a reconciliation of these conditions against these live records leaves. */
  ghost predicate Reconciled(m: AttentionMap, m': AttentionMap, o: Observation, dest: Destination,
                             live: LiveMap, cs: seq<Condition>) {
    && Keeps(m, m', o.missionId, Some(PointOf(o)))
    && SameBut(m, m', o, dest, IdentitiesOf(cs) + live.Keys)
    && (forall c :: c in cs ==> Presented(m', o, dest, c))
    && (forall who :: who in live && who !in IdentitiesOf(cs) ==> NoneLive(m', At(o, dest, who)))
  }

  lemma LiveForAfter(live: LiveMap, m: AttentionMap, m': AttentionMap, o: Observation, dest: Destination,
                     ids: set<ConditionId>, touched: set<ConditionId>)
    requires LiveFor(live, m, o, dest, ids) && SameBut(m, m', o, dest, touched) && ids !! touched
    ensures LiveFor(live, m', o, dest, ids)
  {
    forall w | w in ids ensures LiveOf(live, m', At(o, dest, w)) {
      assert SameFor(m, m', At(o, dest, w)) && LiveOf(live, m, At(o, dest, w));
    }
  }

  lemma SameButComposes(m: AttentionMap, n: AttentionMap, p: AttentionMap, o: Observation, dest: Destination,
                        a: set<ConditionId>, b: set<ConditionId>, c: set<ConditionId>)
    requires SameBut(m, n, o, dest, a) && SameBut(n, p, o, dest, b) && a + b <= c
    ensures SameBut(m, p, o, dest, c)
  {
    forall id: AttentionIdentity | !(id.mission == o.missionId && id.destination == dest && id.condition in c) ensures SameFor(m, p, id) {
      assert SameFor(m, n, id) && SameFor(n, p, id);
    }
  }

  lemma LiveForFewer(live: LiveMap, m: AttentionMap, o: Observation, dest: Destination, ids: set<ConditionId>, fewer: set<ConditionId>)
    requires LiveFor(live, m, o, dest, ids) && fewer <= ids
    ensures LiveFor(live, m, o, dest, fewer)
  {
  }

  lemma ResolveUnseenKeeps(m: AttentionMap, applied: Work, o: Observation, dest: Destination, live: LiveMap, cs: seq<Condition>, now: Time)
    requires LiveIn(live, applied.records) && ValidObservation(o)
    requires Keeps(m, applied.records, o.missionId, Some(PointOf(o)))
    requires SameBut(m, applied.records, o, dest, IdentitiesOf(cs))
    requires LiveFor(live, applied.records, o, dest, Among(Unseen(live, cs)))
    requires ResolveAll(applied, o, live, Unseen(live, cs), now).Ok?
    ensures var m' := ResolveAll(applied, o, live, Unseen(live, cs), now).value.records;
            && Keeps(m, m', o.missionId, Some(PointOf(o)))
            && SameBut(m, m', o, dest, IdentitiesOf(cs) + live.Keys)
            && SameBut(applied.records, m', o, dest, Among(Unseen(live, cs)))
            && (forall who :: who in Unseen(live, cs) ==> NoneLive(m', At(o, dest, who)))
  {
    var unseen := Unseen(live, cs);
    InOrderDistinct(live.Keys - IdentitiesOf(cs));
    ResolveAllKeeps(applied, o, dest, live, unseen, now);
    var m' := ResolveAll(applied, o, live, unseen, now).value.records;
    KeepsCompose(m, applied.records, m', o.missionId, Some(PointOf(o)));
    SameButComposes(m, applied.records, m', o, dest, IdentitiesOf(cs), Among(unseen), IdentitiesOf(cs) + live.Keys);
  }

  lemma ReconcileIsExact(w: Work, o: Observation, dest: Destination, live: LiveMap, cs: seq<Condition>, now: Time)
    requires LiveIn(live, w.records) && AcceptedAttention(w.records) && ValidObservation(o) && Apart(cs)
    requires LiveFor(live, w.records, o, dest, IdentitiesOf(cs) + live.Keys)
    requires Reconcile(w, o, dest, live, cs, now).Ok?
    ensures Reconciled(w.records, Reconcile(w, o, dest, live, cs, now).value.records, o, dest, live, cs)
  {
    var applied := ApplyAll(w, o, dest, live, cs, now).value;
    AppliedForReconcile(w, o, dest, live, cs, now);
    ResolveUnseenKeeps(w.records, applied, o, dest, live, cs, now);
    AllStillPresented(applied.records, ResolveAll(applied, o, live, Unseen(live, cs), now).value.records, o, dest, live, cs);
  }

  /** What the conditions, applied, leave for the live records none of them names. */
  lemma AppliedForReconcile(w: Work, o: Observation, dest: Destination, live: LiveMap, cs: seq<Condition>, now: Time)
    requires LiveIn(live, w.records) && AcceptedAttention(w.records) && ValidObservation(o) && Apart(cs)
    requires LiveFor(live, w.records, o, dest, IdentitiesOf(cs) + live.Keys)
    requires ApplyAll(w, o, dest, live, cs, now).Ok?
    ensures var m' := ApplyAll(w, o, dest, live, cs, now).value.records;
            && LiveIn(live, m') && Keeps(w.records, m', o.missionId, Some(PointOf(o)))
            && SameBut(w.records, m', o, dest, IdentitiesOf(cs))
            && LiveFor(live, m', o, dest, Among(Unseen(live, cs)))
            && (forall c :: c in cs ==> Presented(m', o, dest, c))
  {
    LiveForFewer(live, w.records, o, dest, IdentitiesOf(cs) + live.Keys, IdentitiesOf(cs));
    LiveForFewer(live, w.records, o, dest, IdentitiesOf(cs) + live.Keys, Among(Unseen(live, cs)));
    ApplyAllKeeps(w, o, dest, live, cs, now);
    LiveForAfter(live, w.records, ApplyAll(w, o, dest, live, cs, now).value.records, o, dest, Among(Unseen(live, cs)), IdentitiesOf(cs));
  }

  lemma AllStillPresented(m: AttentionMap, m': AttentionMap, o: Observation, dest: Destination, live: LiveMap, cs: seq<Condition>)
    requires SameBut(m, m', o, dest, Among(Unseen(live, cs))) && forall c :: c in cs ==> Presented(m, o, dest, c)
    ensures forall c :: c in cs ==> Presented(m', o, dest, c)
  {
    forall c | c in cs ensures Presented(m', o, dest, c) {
      StillPresented(m, m', o, dest, c, Among(Unseen(live, cs)));
    }
  }

  /** The live records of a Mission at a destination are exactly the observed
      conditions, each at the observed revision, authorization and content. */
  ghost predicate ProjectsExactly(m: AttentionMap, o: Observation, dest: Destination) {
    && (forall c :: c in o.conditions ==> Presented(m, o, dest, c))
    && (forall k :: k in m && LiveAt(m[k], o.missionId, dest) ==> Portrays(m[k], o))
  }

  /** The observation shows this record's condition as it is recorded. */
  ghost predicate Portrays(a: Attention, o: Observation) { exists c :: c in o.conditions && ShowsNow(a, o, c) }

  /** Records outside the projected Mission and destination, and terminal
      ones, are untouched; every new record is of that Mission and destination. */
  ghost predicate LeavesOthers(m: AttentionMap, m': AttentionMap, mission: Id, dest: Destination) {
    && (forall k :: k in m && !LiveAt(m[k], mission, dest) ==> k in m' && m'[k] == m[k])
    && (forall k :: k in m' && k !in m ==> m'[k].missionId == mission && m'[k].destination == dest)
  }

  lemma ReconciledLeavesOthers(m: AttentionMap, m': AttentionMap, o: Observation, dest: Destination,
                               live: LiveMap, cs: seq<Condition>)
    requires Reconciled(m, m', o, dest, live, cs)
    ensures LeavesOthers(m, m', o.missionId, dest)
  {
    SameButLeavesOthers(m, m', o, dest, IdentitiesOf(cs) + live.Keys);
  }

  lemma SameButLeavesOthers(m: AttentionMap, m': AttentionMap, o: Observation, dest: Destination, ids: set<ConditionId>)
    requires AttentionHistory(m, m') && SameBut(m, m', o, dest, ids)
    ensures LeavesOthers(m, m', o.missionId, dest)
  {
    forall k | k in m && !LiveAt(m[k], o.missionId, dest) ensures k in m' && m'[k] == m[k] {
      assert MayFollow(m[k], m'[k]);
      if !IsTerminal(m[k]) { assert SameFor(m, m', IdentityOf(m[k])); }
    }
    forall k | k in m' && k !in m ensures m'[k].missionId == o.missionId && m'[k].destination == dest {
      assert !SameFor(m, m', IdentityOf(m'[k]));
    }
  }

  lemma ProjectedAreObserved(m: AttentionMap, m': AttentionMap, o: Observation, dest: Destination, live: LiveMap, cs: seq<Condition>, k: Id)
    requires AcceptedAttention(m) && Reconciled(m, m', o, dest, live, cs)
    requires forall w :: LiveOf(live, m, At(o, dest, w))
    requires forall c :: c in cs <==> c in o.conditions
    requires k in m' && LiveAt(m'[k], o.missionId, dest)
    ensures Portrays(m'[k], o)
  {
    var who := ConditionOf(m'[k]);
    var id := At(o, dest, who);
    assert LiveAs(m'[k], id) && LiveOf(live, m, id);
    assert who in IdentitiesOf(cs) || who in live || SameFor(m, m', id);
    assert who in IdentitiesOf(cs);
    var c :| c in cs && Identity(c) == who;
    assert Presented(m', o, dest, c);
    var j :| j in m' && LiveAs(m'[j], id) && ShowsNow(m'[j], o, c);
    assert Rivals(m'[j], m'[k]);
  }

  /** Projecting a FRESH observation presents exactly the observed conditions,
      touches nothing else, and keeps every rule of the loader. */
  lemma ProjectionIsExact(m: AttentionMap, mission: Id, dest: Destination, looked: FreshnessResult, now: Time, supply: seq<Id>)
    requires AcceptedAttention(m) && IsFresh(looked) && ValidObservation(looked.observation.value)
    requires Project(m, mission, dest, looked, now, supply).Ok?
    ensures var o, m' := looked.observation.value, Project(m, mission, dest, looked, now, supply).value.records;
            && o.missionId == mission
            && Keeps(m, m', mission, Some(PointOf(o)))
            && ProjectsExactly(m', o, dest)
            && LeavesOthers(m, m', mission, dest)
  {
    var o := looked.observation.value;
    var live := LiveRecords(m, mission, dest);
    var cs := SortedConditions(o.conditions);
    var m' := Project(m, mission, dest, looked, now, supply).value.records;
    SortedConditionsExactly(o.conditions);
    LiveRecordsExactly(m, mission, dest);
    ReconcileIsExact(NoWork(m, supply), o, dest, live, cs, now);
    ReconciledLeavesOthers(m, m', o, dest, live, cs);
    forall k | k in m' && LiveAt(m'[k], mission, dest) ensures Portrays(m'[k], o) {
      ProjectedAreObserved(m, m', o, dest, live, cs, k);
    }
  }

  /** One live record per observed condition: with ProjectsExactly, the live
      records and the observed conditions are in bijection. */
  lemma PresentedExactlyOnce(m: AttentionMap, o: Observation, dest: Destination, c: Condition)
    requires AcceptedAttention(m) && ProjectsExactly(m, o, dest) && c in o.conditions
    ensures exists k :: k in m && LiveAs(m[k], At(o, dest, Identity(c))) && ShowsNow(m[k], o, c)
                        && forall j :: j in m && LiveAs(m[j], At(o, dest, Identity(c))) ==> j == k
  {
    assert Presented(m, o, dest, c);
    var k :| k in m && LiveAs(m[k], At(o, dest, Identity(c))) && ShowsNow(m[k], o, c);
    forall j | j in m && LiveAs(m[j], At(o, dest, Identity(c))) ensures j == k {
      assert Rivals(m[j], m[k]);
    }
  }

  lemma {:induction false} ApplyAllSuppresses(w: Work, o: Observation, dest: Destination, live: LiveMap, cs: seq<Condition>, now: Time)
    requires LiveIn(live, w.records)
    requires forall c :: c in cs ==> Identity(c) in live && ShowsNow(w.records[live[Identity(c)]], o, c)
    ensures ApplyAll(w, o, dest, live, cs, now).Ok?
    ensures var w' := ApplyAll(w, o, dest, live, cs, now).value;
            w' == w.(suppressed := w'.suppressed) && |w'.suppressed| == |w.suppressed| + |cs|
    decreases |cs|
  {
    if cs != [] {
      assert cs[0] in cs;
      ApplyAllSuppresses(ApplyCondition(w, o, dest, live, cs[0], now).value, o, dest, live, cs[1..], now);
    }
  }

  lemma PresentedIsTheLiveOne(m: AttentionMap, o: Observation, dest: Destination, live: LiveMap, c: Condition)
    requires OneLive(m) && LiveOf(live, m, At(o, dest, Identity(c))) && Presented(m, o, dest, c)
    ensures Identity(c) in live && live[Identity(c)] in m && ShowsNow(m[live[Identity(c)]], o, c)
  {
    var k :| k in m && LiveAs(m[k], At(o, dest, Identity(c))) && ShowsNow(m[k], o, c);
    assert Identity(c) in live;
    assert Rivals(m[k], m[live[Identity(c)]]);
  }

  lemma LiveIsObserved(m: AttentionMap, o: Observation, dest: Destination, live: LiveMap, who: ConditionId)
    requires ProjectsExactly(m, o, dest) && who in live && LiveOf(live, m, At(o, dest, who))
    ensures who in IdentitiesOf(o.conditions)
  {
    assert LiveAt(m[live[who]], o.missionId, dest);
    assert Portrays(m[live[who]], o);
  }

  /** Projecting what is already presented creates, obsoletes and resolves nothing. */
  lemma ProjectionIsIdempotent(m: AttentionMap, o: Observation, dest: Destination, now: Time, supply: seq<Id>)
    requires AcceptedAttention(m) && ValidObservation(o) && ProjectsExactly(m, o, dest)
    ensures var r := Project(m, o.missionId, dest, FreshnessResult(Fresh, Some(o)), now, supply);
            && r.Ok? && r.value.records == m && r.value.supply == supply
            && r.value.created == [] && r.value.obsoleted == [] && r.value.resolved == []
  {
    var live := LiveRecords(m, o.missionId, dest);
    var cs := SortedConditions(o.conditions);
    SortedConditionsExactly(o.conditions);
    LiveRecordsExactly(m, o.missionId, dest);
    forall who ensures LiveOf(live, m, At(o, dest, who)) {
      assert At(o, dest, who) == AttentionIdentity(o.missionId, who, dest);
    }
    ReconcileIsIdle(m, o, dest, live, cs, now, supply);
    ProjectFresh(m, o, dest, now, supply);
  }

  lemma ProjectFresh(m: AttentionMap, o: Observation, dest: Destination, now: Time, supply: seq<Id>)
    ensures Project(m, o.missionId, dest, FreshnessResult(Fresh, Some(o)), now, supply)
            == Reconcile(NoWork(m, supply), o, dest, LiveRecords(m, o.missionId, dest), SortedConditions(o.conditions), now)
  {
  }

  lemma ReconcileIsIdle(m: AttentionMap, o: Observation, dest: Destination, live: LiveMap, cs: seq<Condition>, now: Time, supply: seq<Id>)
    requires LiveIn(live, m) && OneLive(m) && ProjectsExactly(m, o, dest)
    requires forall who :: LiveOf(live, m, At(o, dest, who))
    requires (forall c :: c in cs <==> c in o.conditions) && IdentitiesOf(cs) == IdentitiesOf(o.conditions)
    ensures var r := Reconcile(NoWork(m, supply), o, dest, live, cs, now);
            && r.Ok? && r.value.records == m && r.value.supply == supply
            && r.value.created == [] && r.value.obsoleted == [] && r.value.resolved == []
  {
    assert Unseen(live, cs) == [] || Unseen(live, cs)[0] in Unseen(live, cs);
    forall c | c in cs ensures Identity(c) in live && ShowsNow(m[live[Identity(c)]], o, c) {
      PresentedIsTheLiveOne(m, o, dest, live, c);
    }
    ApplyAllSuppresses(NoWork(m, supply), o, dest, live, cs, now);
    forall who | who in live ensures who in IdentitiesOf(cs) {
      LiveIsObserved(m, o, dest, live, who);
    }
  }

  // ------------------------------------------------------ surfacing and acks

  lemma SurfaceLive(m: AttentionMap, o: Observation, id: Id)
    requires AcceptedAttention(m) && id in m && !IsTerminal(m[id]) && o.missionId == m[id].missionId
    ensures forall ids :: ids <= {ConditionOf(m[id])} ==>
              LiveFor(map[ConditionOf(m[id]) := id], m, o, m[id].destination, ids + {ConditionOf(m[id])})
    ensures LiveIn(map[ConditionOf(m[id]) := id], m)
  {
  }

  lemma ContradictionOnFields(a: Attention, o: Observation)
    requires DistinctConditions(o.conditions)
    ensures Contradiction(a, o).None? <==> Portrays(a, o)
  {
    var matching := ConditionsWith(o.conditions, ConditionOf(a));
    ConditionsWithExactly(o.conditions, ConditionOf(a));
    if matching != [] {
      assert matching[0] in matching;
      DisagreementIsDifference(a, o, matching[0]);
    }
    if Portrays(a, o) {
      var c :| c in o.conditions && ShowsNow(a, o, c);
      assert c in matching && |matching| == 1;
    }
  }

  /** Surfacing keeps every rule. It marks SURFACED only a record the FRESH
      observation does not contradict, and closes one that it does. */
  lemma SurfaceKeeps(m: AttentionMap, id: Id, looked: FreshnessResult, receipt: PresenterReceipt, now: Time, supply: seq<Id>)
    requires AcceptedAttention(m) && (looked.observation.Some? ==> ValidObservation(looked.observation.value))
    requires Surface(m, id, looked, receipt, now, supply).Ok?
    ensures var r := Surface(m, id, looked, receipt, now, supply).value;
            var read := if IsFresh(looked) then Some(PointOf(looked.observation.value)) else None;
            && Keeps(m, r.work.records, m[id].missionId, read)
            && (!r.surfaced && !r.contradicted ==> r.work.records == m)
            && (r.surfaced ==> r.work.records == m[id := r.work.records[id]] && r.work.records[id].presentation.Surfaced?
                               && IsFresh(looked) && receipt.Shown? && Portrays(m[id], looked.observation.value))
            && (r.contradicted ==> IsTerminal(r.work.records[id]))
  {
    var a := m[id];
    var r := Surface(m, id, looked, receipt, now, supply).value;
    UnchangedKeeps(m, a.missionId, if IsFresh(looked) then Some(PointOf(looked.observation.value)) else None);
    if IsFresh(looked) {
      var o := looked.observation.value;
      var matching := ConditionsWith(o.conditions, ConditionOf(a));
      ConditionsWithExactly(o.conditions, ConditionOf(a));
      if matching != [] { assert matching[0] in matching; }
      if Contradiction(a, o).Some? {
        ContradictedCloses(m, id, o, now, supply);
      } else if receipt.Shown? {
        SurfacedFollows(a, receipt.messageRef, o, now);
        UpdateKeeps(m, id, SurfacedRecord(a, receipt.messageRef, o, now), a.missionId, Some(PointOf(o)));
      }
    }
  }

  lemma SurfacedFollows(a: Attention, messageRef: string, o: Observation, now: Time)
    requires ValidAttention(a) && a.presentation.Pending?
    ensures MayFollow(a, SurfacedRecord(a, messageRef, o, now))
    ensures PointsIn(SurfacedRecord(a, messageRef, o, now)) == PointsIn(a) + {PointOf(o)}
  {
  }

  lemma SameShown(a: Attention, b: Attention, o: Observation, c: Condition)
    requires MayFollow(a, b)
    ensures ShowsNow(a, o, c) == ShowsNow(b, o, c) && IdentityOf(a) == IdentityOf(b)
  {
  }

  /** A reconciliation for a contradicted record alone leaves it terminal. */
  lemma ReconciledIsClosed(m: AttentionMap, m': AttentionMap, id: Id, o: Observation, cs: seq<Condition>)
    requires id in m && o.missionId == m[id].missionId && AcceptedAttention(m)
    requires Reconciled(m, m', o, m[id].destination, map[ConditionOf(m[id]) := id], cs)
    requires forall c :: c in cs ==> Identity(c) == ConditionOf(m[id])
    requires cs == [] || !ShowsNow(m[id], o, cs[0])
    ensures IsTerminal(m'[id])
  {
    var a := m[id];
    assert id in m' && MayFollow(a, m'[id]);
    if cs != [] {
      assert cs[0] in cs;
      SameShown(a, m'[id], o, cs[0]);
      LiveAgrees(m', o, a.destination, cs[0], id);
    } else {
      assert ConditionOf(a) !in IdentitiesOf(cs) && NoneLive(m', At(o, a.destination, ConditionOf(a)));
      assert !LiveAs(m'[id], At(o, a.destination, ConditionOf(a)));
    }
  }

  lemma ContradictedCloses(m: AttentionMap, id: Id, o: Observation, now: Time, supply: seq<Id>)
    requires AcceptedAttention(m) && ValidObservation(o) && id in m && !IsTerminal(m[id]) && o.missionId == m[id].missionId
    requires Contradiction(m[id], o).Some?
    requires Reconcile(NoWork(m, supply), o, m[id].destination, map[ConditionOf(m[id]) := id],
                       ConditionsWith(o.conditions, ConditionOf(m[id])), now).Ok?
    ensures var m' := Reconcile(NoWork(m, supply), o, m[id].destination, map[ConditionOf(m[id]) := id],
                                ConditionsWith(o.conditions, ConditionOf(m[id])), now).value.records;
            Keeps(m, m', m[id].missionId, Some(PointOf(o))) && IsTerminal(m'[id])
  {
    var a := m[id];
    var who := ConditionOf(a);
    var cs := ConditionsWith(o.conditions, who);
    ConditionsWithExactly(o.conditions, who);
    OneOrNone(cs, who);
    SurfaceLive(m, o, id);
    ReconcileIsExact(NoWork(m, supply), o, a.destination, map[who := id], cs, now);
    ReconciledIsClosed(m, Reconcile(NoWork(m, supply), o, a.destination, map[who := id], cs, now).value.records, id, o, cs);
  }

  lemma OneOrNone(cs: seq<Condition>, who: ConditionId)
    requires |cs| <= 1 && forall c :: c in cs ==> Identity(c) == who
    ensures Apart(cs) && IdentitiesOf(cs) <= {who}
  {
  }

  lemma LiveAgrees(m: AttentionMap, o: Observation, dest: Destination, c: Condition, id: Id)
    requires OneLive(m) && Presented(m, o, dest, c) && id in m
    ensures LiveAs(m[id], At(o, dest, Identity(c))) ==> ShowsNow(m[id], o, c)
  {
    var j :| j in m && LiveAs(m[j], At(o, dest, Identity(c))) && ShowsNow(m[j], o, c);
    assert Rivals(m[j], m[id]) ==> j == id;
  }

  /** Acknowledging keeps every rule and changes only that record. */
  lemma AcknowledgeKeeps(m: AttentionMap, id: Id, context: Context, looked: FreshnessResult, now: Time)
    requires AcceptedAttention(m) && (looked.observation.Some? ==> ValidObservation(looked.observation.value))
    requires Acknowledge(m, id, context, looked, now).Ok?
    ensures var m' := Acknowledge(m, id, context, looked, now).value;
            var read := if IsFresh(looked) then Some(PointOf(looked.observation.value)) else None;
            && Keeps(m, m', m[id].missionId, read)
            && m'[id].presentation.Acknowledged? && m' == m[id := m'[id]]
  {
    var a := m[id];
    var b := AcknowledgedRecord(a, context, looked, now);
    assert ValidAttention(a) && ValidAttention(b);
    AcknowledgedFollows(a, context, looked, now);
    UpdateKeeps(m, id, b, a.missionId, if IsFresh(looked) then Some(PointOf(looked.observation.value)) else None);
  }

  lemma AcknowledgedFollows(a: Attention, context: Context, looked: FreshnessResult, now: Time)
    requires ValidAttention(a) && !IsTerminal(a) && !a.presentation.Acknowledged?
    ensures var b := AcknowledgedRecord(a, context, looked, now);
            MayFollow(a, b) && SameCreation(a, b) && b.supersededBy.None?
            && PointsIn(b) == PointsIn(a) + (if IsFresh(looked) then {PointOf(looked.observation.value)} else {})
  {
  }
}
