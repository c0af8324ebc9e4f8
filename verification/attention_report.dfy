/** What a projection reports of its work, and what a recorded presentation says,
    field by field (coordination/attention.py:185-391 and 455-560). */
module AttentionReport {
  import opened Record
  import opened Observations
  import opened Attentions
  import opened AttentionOps
  import opened AttentionLaws
  import opened AttentionFields

  // ------------------------------------------------------------ what is recorded

  /** A read at the record's own revision and authorization. */
  predicate OwnPoint(a: Attention, p: Point) {
    ValidPoint(p) && p.revision == a.revision && p.authorization == a.authorization
  }

  /** Shown once, by a FRESH read, with all four of its fields; or not at all. */
  predicate ShownOrNot(a: Attention) {
    if a.surfacedAt.None? then a.surfacedMessage.None? && a.surfacedFreshness.None? && a.surfacedPoint.None?
    else
      && a.createdAt <= a.surfacedAt.value && a.surfacedMessage.Some? && a.surfacedFreshness == Some(Fresh)
      && a.surfacedPoint.Some? && OwnPoint(a, a.surfacedPoint.value)
  }

  /** Acknowledged by someone, at some freshness, with a point when it was FRESH. */
  predicate AckedOrNot(a: Attention) {
    if a.ackAt.None? then a.ackBy.None? && a.ackFreshness.None? && a.ackCursor.None? && a.ackPoint.None?
    else
      && a.createdAt <= a.ackAt.value && a.ackBy.Some? && a.ackFreshness.Some?
      && (if a.ackFreshness == Some(Fresh) then a.ackPoint.Some? && ValidPoint(a.ackPoint.value) && a.ackCursor == Some(a.ackPoint.value.cursor)
          else a.ackPoint.None? && a.ackCursor.None?)
  }

  /** Closed for a change with a successor, cleared without one, or open. */
  predicate ClosedOrNot(a: Attention) {
    match a.presentation
    case Obsolete =>
      && a.closedAt.Some? && a.createdAt <= a.closedAt.value && a.closedPoint.Some? && ValidPoint(a.closedPoint.value)
      && a.closedReason in {Some(RevisionChanged), Some(AuthorityChanged), Some(ConditionChanged)}
      && a.supersededBy.Some? && a.supersededBy != Some(a.attentionId)
    case Resolved =>
      && a.closedAt.Some? && a.createdAt <= a.closedAt.value && a.closedPoint.Some? && ValidPoint(a.closedPoint.value)
      && a.closedReason == Some(ConditionCleared) && a.supersededBy.None?
    case _ => a.closedAt.None? && a.closedReason.None? && a.closedPoint.None? && a.supersededBy.None?
  }

  predicate PlainAttention(a: Attention) {
    && 1 <= a.revision && OwnPoint(a, a.point) && ShownOrNot(a) && AckedOrNot(a) && ClosedOrNot(a)
    && a.priority == (match a.kind
                      case NeedsHuman => 10
                      case AuthorizationReady => 20
                      case Blocked => 30
                      case ResultReady => 40)
    && (a.presentation == Pending ==> a.surfacedAt.None? && a.ackAt.None?)
    && (a.presentation == Surfaced ==> a.surfacedAt.Some? && a.ackAt.None?)
    && (a.presentation == Acknowledged ==> a.ackAt.Some?)
  }

  /** A record passes every check exactly when it reads so. */
  lemma RecordedExactly(a: Attention)
    ensures ValidAttention(a) <==> PlainAttention(a)
  {
  }

  predicate SameSubject(a: Attention, b: Attention) {
    a.missionId == b.missionId && a.kind == b.kind && a.key == b.key && a.destination == b.destination
  }

  /** Live is not yet OBSOLETE or RESOLVED. */
  predicate StillLive(a: Attention) { a.presentation in {Pending, Surfaced, Acknowledged} }

  /** Records read so under their own keys; one live record of a subject; every
      successor recorded, of the same subject, not older, succeeding one record
      only, and never succeeding itself. */
  ghost predicate PlainRecords(m: AttentionMap) {
    && (forall k :: k in m ==> PlainAttention(m[k]) && m[k].attentionId == k)
    && (forall j, k :: j in m && k in m && StillLive(m[j]) && StillLive(m[k]) && SameSubject(m[j], m[k]) ==> j == k)
    && (forall k :: k in m && m[k].supersededBy.Some? ==>
          && m[k].supersededBy.value in m
          && SameSubject(m[m[k].supersededBy.value], m[k]) && m[k].createdAt <= m[m[k].supersededBy.value].createdAt)
    && (forall j, k :: j in m && k in m && m[j].supersededBy.Some? && m[j].supersededBy == m[k].supersededBy ==> j == k)
    && Acyclic(m)
  }

  lemma SubjectsExactly(a: Attention, b: Attention)
    ensures Rivals(a, b) <==> StillLive(a) && StillLive(b) && SameSubject(a, b)
    ensures IdentityOf(a) == IdentityOf(b) <==> SameSubject(a, b)
  {
  }

  lemma SuccessorsExactlySo(m: AttentionMap)
    ensures SuccessorsExist(m) <==>
              forall k :: k in m && m[k].supersededBy.Some? ==>
                && m[k].supersededBy.value in m
                && SameSubject(m[m[k].supersededBy.value], m[k]) && m[k].createdAt <= m[m[k].supersededBy.value].createdAt
  {
    forall k | k in m
      ensures SuccessorOk(m, m[k]) <==>
                (m[k].supersededBy.Some? ==>
                   && m[k].supersededBy.value in m
                   && SameSubject(m[m[k].supersededBy.value], m[k]) && m[k].createdAt <= m[m[k].supersededBy.value].createdAt)
    {
    }
  }

  lemma PairsExactly(m: AttentionMap)
    ensures OneLive(m) <==> forall j, k :: j in m && k in m && StillLive(m[j]) && StillLive(m[k]) && SameSubject(m[j], m[k]) ==> j == k
    ensures OnePredecessor(m) <==> forall j, k :: j in m && k in m && m[j].supersededBy.Some? && m[j].supersededBy == m[k].supersededBy ==> j == k
  {
    forall j, k | j in m && k in m
      ensures Rivals(m[j], m[k]) <==> StillLive(m[j]) && StillLive(m[k]) && SameSubject(m[j], m[k])
      ensures Siblings(m[j], m[k]) <==> m[j].supersededBy.Some? && m[j].supersededBy == m[k].supersededBy
    {
      SubjectsExactly(m[j], m[k]);
    }
  }

  /** The loader accepts exactly the records that read so. */
  lemma AcceptedExactly(m: AttentionMap)
    ensures AcceptedAttention(m) <==> PlainRecords(m)
  {
    forall k | k in m ensures ValidAttention(m[k]) <==> PlainAttention(m[k]) { RecordedExactly(m[k]); }
    SuccessorsExactlySo(m);
    PairsExactly(m);
  }

  // ------------------------------------------------------------- the four lists

  /** Created are exactly the records that were not there; a record that was is
      as it was, or was live and is listed obsoleted or resolved as it now is. */
  ghost predicate Tally(m: AttentionMap, w: Work) {
    && m.Keys <= w.records.Keys
    && (forall k :: k in w.created <==> k in w.records && k !in m)
    && (forall k :: k in m ==> w.records[k] == m[k] || (!IsTerminal(m[k]) && IsTerminal(w.records[k])))
    && (forall k :: k in w.obsoleted <==> k in m && !IsTerminal(m[k]) && w.records[k].presentation.Obsolete?)
    && (forall k :: k in w.resolved <==> k in m && !IsTerminal(m[k]) && w.records[k].presentation.Resolved?)
  }

  /** The live map is of records that were there. */
  ghost predicate WasLive(live: LiveMap, m: AttentionMap) { forall who :: who in live ==> live[who] in m }

  /** One record added. */
  lemma AddTallies(m: AttentionMap, w: Work, w': Work, id: Id, a: Attention)
    requires Tally(m, w) && id !in w.records && w'.records == w.records[id := a] && w'.created == w.created + [id]
    requires w'.obsoleted == w.obsoleted && w'.resolved == w.resolved
    ensures Tally(m, w')
  {
  }

  /** One live record closed, as obsolete or as resolved. */
  lemma CloseTallies(m: AttentionMap, w: Work, w': Work, k: Id, b: Attention)
    requires Tally(m, w) && k in m && !IsTerminal(w.records[k]) && IsTerminal(b)
    requires w'.records == w.records[k := b] && w'.created == w.created
    requires w'.obsoleted == (if b.presentation.Obsolete? then w.obsoleted + [k] else w.obsoleted)
    requires w'.resolved == (if b.presentation.Resolved? then w.resolved + [k] else w.resolved)
    ensures Tally(m, w')
  {
    assert w.records[k] == m[k];
  }

  /** What one observed condition adds to the lists. */
  lemma ConditionShape(w: Work, o: Observation, dest: Destination, live: LiveMap, c: Condition, now: Time)
    returns (added: Work, id: Id, a: Attention, k: Id, b: Attention)
    requires LiveIn(live, w.records) && ApplyCondition(w, o, dest, live, c, now).Ok?
    requires !(Identity(c) in live && Disagreement(w.records[live[Identity(c)]], o, c).None?)
    ensures id !in w.records && added == w.(records := w.records[id := a], created := w.created + [id])
    ensures var w' := ApplyCondition(w, o, dest, live, c, now).value;
            if Identity(c) !in live then w' == added.(supply := w'.supply)
            else
              && k == live[Identity(c)]
              && b.presentation == (if Disagreement(w.records[k], o, c) == Some(ConditionCleared) then Resolved else Obsolete)
              && w' == added.(supply := w'.supply, records := added.records[k := b], obsoleted := w.obsoleted + [w.records[k].attentionId])
  {
    var minted := FreshId(w.supply, w.records.Keys, MINT_TRIES).value;
    id, a := minted.id, NewRecord(minted.id, o, c, dest, now);
    added := w.(records := w.records[id := a], created := w.created + [id]);
    k := if Identity(c) in live then live[Identity(c)] else 0;
    b := if Identity(c) in live then AsClosed(w.records[k], Disagreement(w.records[k], o, c).value, now, Some(id), o) else a;
  }

  /** Those of the conditions whose live record already shows them, in order. */
  function Suppressed(m: AttentionMap, live: LiveMap, o: Observation, cs: seq<Condition>): seq<Id>
    requires forall who :: who in live ==> live[who] in m
  {
    if cs == [] then []
    else (if Identity(cs[0]) in live && ShowsNow(m[live[Identity(cs[0])]], o, cs[0]) then [live[Identity(cs[0])]] else [])
         + Suppressed(m, live, o, cs[1..])
  }

  lemma TallyOne(m: AttentionMap, w: Work, o: Observation, dest: Destination, live: LiveMap, c: Condition, now: Time)
    requires LiveIn(live, w.records) && WasLive(live, m) && Tally(m, w) && Keyed(w.records)
    requires LiveOf(live, w.records, At(o, dest, Identity(c))) && ApplyCondition(w, o, dest, live, c, now).Ok?
    ensures Tally(m, ApplyCondition(w, o, dest, live, c, now).value)
  {
    var who, w' := Identity(c), ApplyCondition(w, o, dest, live, c, now).value;
    if who in live { DisagreementIsDifference(w.records[live[who]], o, c); }
    if !(who in live && Disagreement(w.records[live[who]], o, c).None?) {
      var added, id, a, k, b := ConditionShape(w, o, dest, live, c, now);
      AddTallies(m, w, added, id, a);
      if who in live { CloseTallies(m, added, w', k, b); }
    }
  }

  lemma SuppressOne(m: AttentionMap, w: Work, o: Observation, dest: Destination, live: LiveMap, c: Condition, now: Time)
    requires LiveIn(live, w.records) && WasLive(live, m) && Tally(m, w) && Keyed(w.records)
    requires LiveOf(live, w.records, At(o, dest, Identity(c))) && ApplyCondition(w, o, dest, live, c, now).Ok?
    ensures ApplyCondition(w, o, dest, live, c, now).value.suppressed == w.suppressed + Suppressed(m, live, o, [c])
  {
    var who := Identity(c);
    assert Suppressed(m, live, o, [c]) == if who in live && ShowsNow(m[live[who]], o, c) then [live[who]] else [];
    if who in live {
      DisagreementIsDifference(w.records[live[who]], o, c);
      assert w.records[live[who]] == m[live[who]];
    }
  }

  lemma {:induction false} TallyAll(m: AttentionMap, w: Work, o: Observation, dest: Destination, live: LiveMap, cs: seq<Condition>, now: Time)
    requires LiveIn(live, w.records) && WasLive(live, m) && Tally(m, w) && AcceptedAttention(w.records) && ValidObservation(o) && Apart(cs)
    requires LiveFor(live, w.records, o, dest, IdentitiesOf(cs)) && ApplyAll(w, o, dest, live, cs, now).Ok?
    ensures var w' := ApplyAll(w, o, dest, live, cs, now).value;
            Tally(m, w') && w'.suppressed == w.suppressed + Suppressed(m, live, o, cs)
    decreases |cs|
  {
    if cs != [] {
      var w1 := ApplyCondition(w, o, dest, live, cs[0], now).value;
      TallyFirst(m, w, o, dest, live, cs, now);
      TallyAll(m, w1, o, dest, live, cs[1..], now);
      SuppressedJoin(m, live, o, cs, w.suppressed);
    }
  }

  lemma SuppressedJoin(m: AttentionMap, live: LiveMap, o: Observation, cs: seq<Condition>, before: seq<Id>)
    requires WasLive(live, m) && cs != []
    ensures (before + Suppressed(m, live, o, [cs[0]])) + Suppressed(m, live, o, cs[1..]) == before + Suppressed(m, live, o, cs)
  {
    SuppressedSplit(m, live, o, cs);
  }

  lemma TallyFirst(m: AttentionMap, w: Work, o: Observation, dest: Destination, live: LiveMap, cs: seq<Condition>, now: Time)
    requires LiveIn(live, w.records) && WasLive(live, m) && Tally(m, w) && AcceptedAttention(w.records) && ValidObservation(o)
    requires cs != [] && Apart(cs) && LiveFor(live, w.records, o, dest, IdentitiesOf(cs)) && ApplyCondition(w, o, dest, live, cs[0], now).Ok?
    ensures var w1 := ApplyCondition(w, o, dest, live, cs[0], now).value;
            && Tally(m, w1) && AcceptedAttention(w1.records) && LiveFor(live, w1.records, o, dest, IdentitiesOf(cs[1..]))
            && w1.suppressed == w.suppressed + Suppressed(m, live, o, [cs[0]])
  {
    var w1 := ApplyCondition(w, o, dest, live, cs[0], now).value;
    IdentitiesSplit(cs);
    TallyOne(m, w, o, dest, live, cs[0], now);
    SuppressOne(m, w, o, dest, live, cs[0], now);
    ApplyConditionKeeps(w, o, dest, live, cs[0], now);
    StillLiveFor(live, w.records, w1.records, o, dest, Identity(cs[0]), IdentitiesOf(cs[1..]));
  }

  lemma SuppressedSplit(m: AttentionMap, live: LiveMap, o: Observation, cs: seq<Condition>)
    requires WasLive(live, m) && cs != []
    ensures Suppressed(m, live, o, cs) == Suppressed(m, live, o, [cs[0]]) + Suppressed(m, live, o, cs[1..])
  {
    assert [cs[0]][1..] == [];
    assert Suppressed(m, live, o, [cs[0]][1..]) == [];
  }

  lemma {:induction false} SuppressedMembers(m: AttentionMap, live: LiveMap, o: Observation, cs: seq<Condition>, k: Id)
    requires WasLive(live, m)
    ensures k in Suppressed(m, live, o, cs)
            <==> exists c :: c in cs && Identity(c) in live && live[Identity(c)] == k && ShowsNow(m[k], o, c)
  {
    if cs != [] {
      SuppressedMembers(m, live, o, cs[1..], k);
      assert forall c :: c in cs <==> c == cs[0] || c in cs[1..];
    }
  }

  lemma TallyResolved(m: AttentionMap, w: Work, o: Observation, dest: Destination, live: LiveMap, who: ConditionId, now: Time)
    requires LiveIn(live, w.records) && WasLive(live, m) && Tally(m, w) && Keyed(w.records) && who in live
    requires LiveOf(live, w.records, At(o, dest, who)) && ResolveOne(w, o, live, who, now).Ok?
    ensures Tally(m, ResolveOne(w, o, live, who, now).value)
    ensures ResolveOne(w, o, live, who, now).value.suppressed == w.suppressed
  {
    var k := live[who];
    CloseTallies(m, w, ResolveOne(w, o, live, who, now).value, k, AsClosed(w.records[k], ConditionCleared, now, None, o));
  }

  lemma {:induction false} TallyRest(m: AttentionMap, w: Work, o: Observation, dest: Destination, live: LiveMap, ids: seq<ConditionId>, now: Time)
    requires LiveIn(live, w.records) && WasLive(live, m) && Tally(m, w) && AcceptedAttention(w.records) && ValidObservation(o)
    requires ApartIds(ids) && (forall who :: who in ids ==> who in live) && LiveFor(live, w.records, o, dest, Among(ids))
    requires ResolveAll(w, o, live, ids, now).Ok?
    ensures var w' := ResolveAll(w, o, live, ids, now).value; Tally(m, w') && w'.suppressed == w.suppressed
    decreases |ids|
  {
    if ids != [] {
      var w1 := ResolveOne(w, o, live, ids[0], now).value;
      AmongSplit(ids);
      TallyResolved(m, w, o, dest, live, ids[0], now);
      ResolveOneKeeps(w, o, dest, live, ids[0], now);
      StillLiveFor(live, w.records, w1.records, o, dest, ids[0], Among(ids[1..]));
      TallyRest(m, w1, o, dest, live, ids[1..], now);
    }
  }

  lemma TallyBegins(m: AttentionMap, supply: seq<Id>)
    ensures Tally(m, NoWork(m, supply))
  {
  }

  lemma ReconcileTallies(m: AttentionMap, supply: seq<Id>, o: Observation, dest: Destination, live: LiveMap, cs: seq<Condition>, now: Time)
    requires LiveIn(live, m) && AcceptedAttention(m) && ValidObservation(o) && Apart(cs)
    requires LiveFor(live, m, o, dest, IdentitiesOf(cs) + live.Keys)
    requires Reconcile(NoWork(m, supply), o, dest, live, cs, now).Ok?
    ensures var w := Reconcile(NoWork(m, supply), o, dest, live, cs, now).value;
            Tally(m, w) && w.suppressed == Suppressed(m, live, o, cs)
  {
    var w0 := NoWork(m, supply);
    TallyBegins(m, supply);
    LiveForFewer(live, m, o, dest, IdentitiesOf(cs) + live.Keys, IdentitiesOf(cs));
    TallyAll(m, w0, o, dest, live, cs, now);
    AppliedForReconcile(w0, o, dest, live, cs, now);
    ReconcileSteps(w0, o, dest, live, cs, now);
    ResolveTallies(m, ApplyAll(w0, o, dest, live, cs, now).value, o, dest, live, cs, now);
  }

  lemma ReconcileSteps(w: Work, o: Observation, dest: Destination, live: LiveMap, cs: seq<Condition>, now: Time)
    requires LiveIn(live, w.records) && Reconcile(w, o, dest, live, cs, now).Ok?
    ensures ApplyAll(w, o, dest, live, cs, now).Ok?
    ensures Reconcile(w, o, dest, live, cs, now) == ResolveAll(ApplyAll(w, o, dest, live, cs, now).value, o, live, Unseen(live, cs), now)
  {
  }

  lemma ResolveTallies(m: AttentionMap, w: Work, o: Observation, dest: Destination, live: LiveMap, cs: seq<Condition>, now: Time)
    requires LiveIn(live, w.records) && WasLive(live, m) && Tally(m, w) && AcceptedAttention(w.records) && ValidObservation(o)
    requires LiveFor(live, w.records, o, dest, Among(Unseen(live, cs))) && ResolveAll(w, o, live, Unseen(live, cs), now).Ok?
    ensures var w' := ResolveAll(w, o, live, Unseen(live, cs), now).value; Tally(m, w') && w'.suppressed == w.suppressed
  {
    InOrderDistinct(live.Keys - IdentitiesOf(cs));
    TallyRest(m, w, o, dest, live, Unseen(live, cs), now);
  }

  /** Created, obsoleted and resolved are exactly what happened, and suppressed
      are the live records that already showed what is observed. */
  ghost predicate Reports(m: AttentionMap, w: Work, o: Observation, dest: Destination) {
    && m.Keys <= w.records.Keys
    && (forall k :: k in w.created <==> k in w.records && k !in m)
    && (forall k :: k in w.obsoleted <==> k in m && LiveHere(m[k], o.missionId, dest) && w.records[k].presentation == Obsolete)
    && (forall k :: k in w.resolved <==> k in m && LiveHere(m[k], o.missionId, dest) && w.records[k].presentation == Resolved)
    && (forall k :: k in w.suppressed <==> k in m && LiveHere(m[k], o.missionId, dest) && Portrays(m[k], o))
  }

  lemma SuppressedExactly(m: AttentionMap, o: Observation, dest: Destination, live: LiveMap, cs: seq<Condition>, k: Id)
    requires OneLive(m) && WasLive(live, m) && (forall c :: c in cs <==> c in o.conditions)
    requires forall who :: LiveOf(live, m, At(o, dest, who))
    ensures k in Suppressed(m, live, o, cs) <==> k in m && LiveHere(m[k], o.missionId, dest) && Portrays(m[k], o)
  {
    SuppressedMembers(m, live, o, cs, k);
    forall c | c in cs && Identity(c) in live && live[Identity(c)] == k && ShowsNow(m[k], o, c)
      ensures LiveHere(m[k], o.missionId, dest) && Portrays(m[k], o)
    {
      assert LiveOf(live, m, At(o, dest, Identity(c)));
      LiveHereIs(m[k], o, dest, Identity(c));
    }
    if k in m && LiveHere(m[k], o.missionId, dest) && Portrays(m[k], o) {
      var c :| c in o.conditions && ShowsNow(m[k], o, c);
      LiveHereIs(m[k], o, dest, Identity(c));
      assert LiveOf(live, m, At(o, dest, Identity(c)));
      assert Rivals(m[k], m[live[Identity(c)]]);
    }
  }

  lemma ReportedFrom(m: AttentionMap, w: Work, o: Observation, dest: Destination)
    requires Tally(m, w) && LeavesOthers(m, w.records, o.missionId, dest)
    requires forall k :: k in w.suppressed <==> k in m && LiveHere(m[k], o.missionId, dest) && Portrays(m[k], o)
    ensures Reports(m, w, o, dest)
  {
    forall k | k in m ensures !IsTerminal(m[k]) && IsTerminal(w.records[k]) ==> LiveHere(m[k], o.missionId, dest) {}
  }

  lemma ProjectTallies(m: AttentionMap, dest: Destination, o: Observation, now: Time, supply: seq<Id>)
    requires AcceptedAttention(m) && ValidObservation(o)
    requires Project(m, o.missionId, dest, FreshnessResult(Fresh, Some(o)), now, supply).Ok?
    ensures var w := Project(m, o.missionId, dest, FreshnessResult(Fresh, Some(o)), now, supply).value;
            Tally(m, w) && forall k :: k in w.suppressed <==> k in m && LiveHere(m[k], o.missionId, dest) && Portrays(m[k], o)
  {
    var live, cs := LiveRecords(m, o.missionId, dest), SortedConditions(o.conditions);
    SortedConditionsExactly(o.conditions);
    LiveRecordsExactly(m, o.missionId, dest);
    forall who ensures LiveOf(live, m, At(o, dest, who)) {
      assert At(o, dest, who) == AttentionIdentity(o.missionId, who, dest);
    }
    ProjectFresh(m, o, dest, now, supply);
    ReconcileTallies(m, supply, o, dest, live, cs, now);
    forall k { SuppressedExactly(m, o, dest, live, cs, k); }
  }

  /** A projection reports exactly what it did: each list is the records it says. */
  lemma ProjectionReports(m: AttentionMap, dest: Destination, o: Observation, now: Time, supply: seq<Id>)
    requires AcceptedAttention(m) && ValidObservation(o)
    requires Project(m, o.missionId, dest, FreshnessResult(Fresh, Some(o)), now, supply).Ok?
    ensures Reports(m, Project(m, o.missionId, dest, FreshnessResult(Fresh, Some(o)), now, supply).value, o, dest)
  {
    ProjectionIsExact(m, o.missionId, dest, FreshnessResult(Fresh, Some(o)), now, supply);
    ProjectTallies(m, dest, o, now, supply);
    ReportedFrom(m, Project(m, o.missionId, dest, FreshnessResult(Fresh, Some(o)), now, supply).value, o, dest);
  }

  lemma NothingListed(ids: seq<Id>)
    ensures ids == [] <==> forall k :: k !in ids
  {
    if |ids| > 0 { assert ids[0] in ids; }
  }

  lemma ReportedOrSame(m: AttentionMap, w: Work, o: Observation, dest: Destination, now: Time)
    requires Reports(m, w, o, dest) && AllFates(m, w.records, o, dest, now)
    ensures w.records == m <==> w.created == [] && w.obsoleted == [] && w.resolved == []
  {
    NothingListed(w.created);
    NothingListed(w.obsoleted);
    NothingListed(w.resolved);
    if w.created == [] && w.obsoleted == [] && w.resolved == [] {
      forall k | k in m ensures w.records[k] == m[k] {
        assert k !in w.obsoleted && k !in w.resolved;
      }
    }
  }

  /** With nothing created, obsoleted or resolved nothing changed, and the other
      way round. */
  lemma ReportedIsChanged(m: AttentionMap, dest: Destination, o: Observation, now: Time, supply: seq<Id>)
    requires AcceptedAttention(m) && ValidObservation(o)
    requires Project(m, o.missionId, dest, FreshnessResult(Fresh, Some(o)), now, supply).Ok?
    ensures var w := Project(m, o.missionId, dest, FreshnessResult(Fresh, Some(o)), now, supply).value;
            w.records == m <==> w.created == [] && w.obsoleted == [] && w.resolved == []
  {
    ProjectionReports(m, dest, o, now, supply);
    ProjectionOnFields(m, dest, o, now, supply);
    ReportedOrSame(m, Project(m, o.missionId, dest, FreshnessResult(Fresh, Some(o)), now, supply).value, o, dest, now);
  }

  /** A correction reports exactly what it did, too. */
  lemma CorrectionReports(m: AttentionMap, id: Id, looked: FreshnessResult, receipt: PresenterReceipt, now: Time, supply: seq<Id>)
    requires AcceptedAttention(m) && (looked.observation.Some? ==> ValidObservation(looked.observation.value))
    requires Surface(m, id, looked, receipt, now, supply).Ok?
    ensures var r := Surface(m, id, looked, receipt, now, supply).value;
            if r.contradicted then Tally(m, r.work) && r.work.suppressed == []
            else r.work.created == [] && r.work.obsoleted == [] && r.work.resolved == [] && r.work.suppressed == []
  {
    if IsFresh(looked) {
      var a, o := m[id], looked.observation.value;
      ContradictionOnFields(a, o);
      if Contradiction(a, o).Some? { ContradictionTallies(m, id, o, now, supply); }
    }
  }

  lemma ContradictionTallies(m: AttentionMap, id: Id, o: Observation, now: Time, supply: seq<Id>)
    requires AcceptedAttention(m) && ValidObservation(o) && id in m && !IsTerminal(m[id]) && o.missionId == m[id].missionId
    requires Contradiction(m[id], o).Some?
    requires Reconcile(NoWork(m, supply), o, m[id].destination, map[ConditionOf(m[id]) := id],
                       ConditionsWith(o.conditions, ConditionOf(m[id])), now).Ok?
    ensures var w := Reconcile(NoWork(m, supply), o, m[id].destination, map[ConditionOf(m[id]) := id],
                               ConditionsWith(o.conditions, ConditionOf(m[id])), now).value;
            Tally(m, w) && w.suppressed == []
  {
    var who := ConditionOf(m[id]);
    var live, cs := map[who := id], ConditionsWith(o.conditions, who);
    ConditionsWithExactly(o.conditions, who);
    OneOrNone(cs, who);
    SurfaceLive(m, o, id);
    ContradictionOnFields(m[id], o);
    ReconcileTallies(m, supply, o, m[id].destination, live, cs, now);
    if cs != [] {
      assert cs[0] in o.conditions && Suppressed(m, live, o, cs[1..]) == [];
    }
  }

  // ------------------------------------------------------------------ refusals

  lemma {:induction false} ApplyAllRefused(w: Work, o: Observation, dest: Destination, live: LiveMap, cs: seq<Condition>, now: Time)
    requires LiveIn(live, w.records)
    ensures var r := ApplyAll(w, o, dest, live, cs, now); r.Refused? ==> r.problem == BadValue
    decreases |cs|
  {
    if cs != [] {
      var first := ApplyCondition(w, o, dest, live, cs[0], now);
      if first.Ok? { ApplyAllRefused(first.value, o, dest, live, cs[1..], now); }
    }
  }

  lemma {:induction false} ResolveAllRefused(w: Work, o: Observation, live: LiveMap, ids: seq<ConditionId>, now: Time)
    requires LiveIn(live, w.records) && forall who :: who in ids ==> who in live
    ensures var r := ResolveAll(w, o, live, ids, now); r.Refused? ==> r.problem == BadValue
    decreases |ids|
  {
    if ids != [] {
      var first := ResolveOne(w, o, live, ids[0], now);
      if first.Ok? { ResolveAllRefused(first.value, o, live, ids[1..], now); }
    }
  }

  lemma ReconcileRefused(w: Work, o: Observation, dest: Destination, live: LiveMap, cs: seq<Condition>, now: Time)
    requires LiveIn(live, w.records)
    ensures var r := Reconcile(w, o, dest, live, cs, now); r.Refused? ==> r.problem == BadValue
  {
    ApplyAllRefused(w, o, dest, live, cs, now);
    var applied := ApplyAll(w, o, dest, live, cs, now);
    if applied.Ok? { ResolveAllRefused(applied.value, o, live, Unseen(live, cs), now); }
  }

  predicate OfAnother(looked: FreshnessResult, mission: Id) { looked.observation.Some? && looked.observation.value.missionId != mission }

  /** A projection is refused for another Mission's observation by that name, and
      else only for want of an id or for a clock that went back. */
  lemma ProjectRefusedExactly(m: AttentionMap, mission: Id, dest: Destination, looked: FreshnessResult, now: Time, supply: seq<Id>)
    ensures var r := Project(m, mission, dest, looked, now, supply);
            && (r == Refused(MissionMismatch) <==> OfAnother(looked, mission))
            && (r.Refused? && !OfAnother(looked, mission) ==> r.problem == BadValue && looked.freshness == Fresh)
  {
    if IsFresh(looked) {
      var o := looked.observation.value;
      ReconcileRefused(NoWork(m, supply), o, dest, LiveRecords(m, mission, dest), SortedConditions(o.conditions), now);
    }
  }

  /** Why surfacing is refused, each cause in its turn. */
  lemma SurfaceRefusedExactly(m: AttentionMap, id: Id, looked: FreshnessResult, receipt: PresenterReceipt, now: Time, supply: seq<Id>)
    requires Surface(m, id, looked, receipt, now, supply).Refused?
    ensures var why := Surface(m, id, looked, receipt, now, supply).problem;
            if id !in m then why == BadValue
            else if m[id].presentation in {Obsolete, Resolved} then why == AttentionTerminal
            else if m[id].presentation != Pending then why == InvalidTransition
            else if OfAnother(looked, m[id].missionId) then why == MissionMismatch
            else why == BadValue && looked.freshness == Fresh
  {
    if id in m && !IsTerminal(m[id]) && m[id].presentation.Pending? && !OfAnother(looked, m[id].missionId) && IsFresh(looked) {
      var a, o := m[id], looked.observation.value;
      ReconcileRefused(NoWork(m, supply), o, a.destination, map[ConditionOf(a) := id], ConditionsWith(o.conditions, ConditionOf(a)), now);
    }
  }

  /** Why acknowledging is refused, each cause in its turn. */
  lemma AcknowledgeRefusedExactly(m: AttentionMap, id: Id, context: Context, looked: FreshnessResult, now: Time)
    requires Acknowledge(m, id, context, looked, now).Refused?
    ensures var why := Acknowledge(m, id, context, looked, now).problem;
            if id !in m then why == BadValue
            else if m[id].presentation in {Obsolete, Resolved} then why == AttentionTerminal
            else if m[id].presentation == Acknowledged then why == InvalidTransition
            else if OfAnother(looked, m[id].missionId) then why == MissionMismatch
            else why == BadValue
  {
  }
}
