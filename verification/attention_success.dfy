/** Exactly when presentation operations succeed: the clock is not behind what
    they close or mark, and the minter supplies what they create. */
module AttentionSuccess {
  import opened Record
  import opened Observations
  import opened Attentions
  import opened AttentionOps
  import opened AttentionLaws

  // ----------------------------------------------------------------- minting

  /** The minter supplies this many unused ids in a row, each within its tries. */
  predicate MintsEnough(supply: seq<Id>, taken: set<Id>, n: nat)
    decreases n
  {
    n == 0
    || (FreshId(supply, taken, MINT_TRIES).Ok?
        && MintsEnough(FreshId(supply, taken, MINT_TRIES).value.rest, taken + {FreshId(supply, taken, MINT_TRIES).value.id}, n - 1))
  }

  // ------------------------------------------------------- one condition each

  /** The condition is already presented by its live record. */
  predicate Stands(m: AttentionMap, live: LiveMap, o: Observation, c: Condition)
    requires forall w :: w in live ==> live[w] in m
  {
    Identity(c) in live && ShowsNow(m[live[Identity(c)]], o, c)
  }

  /** The clock is not behind the record the condition would close. */
  predicate InTime(m: AttentionMap, live: LiveMap, o: Observation, c: Condition, now: Time)
    requires forall w :: w in live ==> live[w] in m
  {
    Identity(c) in live && !Stands(m, live, o, c) ==> m[live[Identity(c)]].createdAt <= now
  }

  ghost predicate AllInTime(m: AttentionMap, live: LiveMap, o: Observation, cs: seq<Condition>, now: Time)
    requires LiveIn(live, m)
  {
    forall c :: c in cs ==> InTime(m, live, o, c, now)
  }

  /** How many of the conditions need a new record. */
  function Needed(m: AttentionMap, live: LiveMap, o: Observation, cs: seq<Condition>): nat
    requires forall w :: w in live ==> live[w] in m
  {
    if cs == [] then 0 else (if Stands(m, live, o, cs[0]) then 0 else 1) + Needed(m, live, o, cs[1..])
  }

  lemma MintedIsOther(a: Attention, id: Id, m: AttentionMap, k: Id)
    requires Keyed(m) && k in m && a == m[k] && id !in m
    ensures id != a.attentionId && ValidAttention(a)
  {
  }

  lemma ConditionSucceedsExactly(w: Work, o: Observation, dest: Destination, live: LiveMap, c: Condition, now: Time)
    requires LiveIn(live, w.records) && AcceptedAttention(w.records) && ValidObservation(o)
    requires LiveOf(live, w.records, At(o, dest, Identity(c)))
    ensures var r := ApplyCondition(w, o, dest, live, c, now);
            r.Ok? <==> Stands(w.records, live, o, c)
                       || (FreshId(w.supply, w.records.Keys, MINT_TRIES).Ok? && InTime(w.records, live, o, c, now))
    ensures var r := ApplyCondition(w, o, dest, live, c, now);
            r.Ok? ==> if Stands(w.records, live, o, c) then r.value.records == w.records && r.value.supply == w.supply
                      else
                        var minted := FreshId(w.supply, w.records.Keys, MINT_TRIES).value;
                        r.value.records.Keys == w.records.Keys + {minted.id} && r.value.supply == minted.rest
  {
    var minted := FreshId(w.supply, w.records.Keys, MINT_TRIES);
    if !Stands(w.records, live, o, c) && minted.Ok? {
      NewRecordIsValid(minted.value.id, o, c, dest, now);
      if Identity(c) in live {
        var cur := w.records[live[Identity(c)]];
        MintedIsOther(cur, minted.value.id, w.records, live[Identity(c)]);
        ClosesExactly(cur, Disagreement(cur, o, c).value, now, Some(minted.value.id), o);
      }
    }
  }

  /** Conditions of other identities are as they were. */
  lemma OthersStand(m: AttentionMap, m': AttentionMap, live: LiveMap, o: Observation, dest: Destination, who: ConditionId, c: Condition, now: Time)
    requires LiveIn(live, m) && LiveIn(live, m') && TouchesOnly(m, m', At(o, dest, who)) && Identity(c) != who
    requires LiveOf(live, m, At(o, dest, Identity(c)))
    ensures Stands(m', live, o, c) == Stands(m, live, o, c) && InTime(m', live, o, c, now) == InTime(m, live, o, c, now)
  {
    assert SameFor(m, m', At(o, dest, Identity(c)));
  }

  lemma {:induction false} OthersNeed(m: AttentionMap, m': AttentionMap, live: LiveMap, o: Observation, dest: Destination, who: ConditionId,
                   cs: seq<Condition>, now: Time)
    requires LiveIn(live, m) && LiveIn(live, m') && TouchesOnly(m, m', At(o, dest, who)) && who !in IdentitiesOf(cs)
    requires LiveFor(live, m, o, dest, IdentitiesOf(cs))
    ensures Needed(m', live, o, cs) == Needed(m, live, o, cs) && AllInTime(m', live, o, cs, now) == AllInTime(m, live, o, cs, now)
  {
    forall c | c in cs ensures InTime(m', live, o, c, now) == InTime(m, live, o, c, now) {
      assert Identity(c) in IdentitiesOf(cs);
      OthersStand(m, m', live, o, dest, who, c, now);
    }
    if cs != [] {
      IdentitiesSplit(cs);
      OthersStand(m, m', live, o, dest, who, cs[0], now);
      OthersNeed(m, m', live, o, dest, who, cs[1..], now);
    }
  }

  lemma AllInTimeSplits(m: AttentionMap, live: LiveMap, o: Observation, cs: seq<Condition>, now: Time)
    requires LiveIn(live, m) && cs != []
    ensures AllInTime(m, live, o, cs, now) <==> InTime(m, live, o, cs[0], now) && AllInTime(m, live, o, cs[1..], now)
  {
    assert forall c :: c in cs <==> c == cs[0] || c in cs[1..];
  }

  /** What the first condition, once applied, leaves for the others. */
  lemma FirstApplied(w: Work, o: Observation, dest: Destination, live: LiveMap, cs: seq<Condition>, now: Time)
    requires LiveIn(live, w.records) && AcceptedAttention(w.records) && ValidObservation(o) && cs != [] && Apart(cs)
    requires LiveFor(live, w.records, o, dest, IdentitiesOf(cs))
    requires LiveOf(live, w.records, At(o, dest, Identity(cs[0]))) && ApplyCondition(w, o, dest, live, cs[0], now).Ok?
    ensures var m' := ApplyCondition(w, o, dest, live, cs[0], now).value.records;
            && LiveIn(live, m') && AcceptedAttention(m') && LiveFor(live, m', o, dest, IdentitiesOf(cs[1..]))
            && Needed(m', live, o, cs[1..]) == Needed(w.records, live, o, cs[1..])
            && AllInTime(m', live, o, cs[1..], now) == AllInTime(w.records, live, o, cs[1..], now)
  {
    var m' := ApplyCondition(w, o, dest, live, cs[0], now).value.records;
    IdentitiesSplit(cs);
    ApplyConditionKeeps(w, o, dest, live, cs[0], now);
    StillLiveFor(live, w.records, m', o, dest, Identity(cs[0]), IdentitiesOf(cs[1..]));
    LiveForFewer(live, w.records, o, dest, IdentitiesOf(cs), IdentitiesOf(cs[1..]));
    OthersNeed(w.records, m', live, o, dest, Identity(cs[0]), cs[1..], now);
  }

  lemma FirstNeeds(w: Work, o: Observation, dest: Destination, live: LiveMap, cs: seq<Condition>, now: Time)
    requires LiveIn(live, w.records) && AcceptedAttention(w.records) && ValidObservation(o) && cs != []
    requires LiveOf(live, w.records, At(o, dest, Identity(cs[0])))
    ensures var r := ApplyCondition(w, o, dest, live, cs[0], now);
            MintsEnough(w.supply, w.records.Keys, Needed(w.records, live, o, cs)) && AllInTime(w.records, live, o, cs, now)
            <==> && r.Ok? && MintsEnough(r.value.supply, r.value.records.Keys, Needed(w.records, live, o, cs[1..]))
                 && AllInTime(w.records, live, o, cs[1..], now)
  {
    AllInTimeSplits(w.records, live, o, cs, now);
    NeededSplits(w.records, live, o, cs);
    ConditionSucceedsExactly(w, o, dest, live, cs[0], now);
    MintsOneMore(w.supply, w.records.Keys, Needed(w.records, live, o, cs[1..]));
  }

  lemma NeededSplits(m: AttentionMap, live: LiveMap, o: Observation, cs: seq<Condition>)
    requires LiveIn(live, m) && cs != []
    ensures Stands(m, live, o, cs[0]) ==> Needed(m, live, o, cs) == Needed(m, live, o, cs[1..]) && forall now :: InTime(m, live, o, cs[0], now)
    ensures !Stands(m, live, o, cs[0]) ==> Needed(m, live, o, cs) == Needed(m, live, o, cs[1..]) + 1
  {
  }

  lemma MintsOneMore(supply: seq<Id>, taken: set<Id>, n: nat)
    ensures var minted := FreshId(supply, taken, MINT_TRIES);
            MintsEnough(supply, taken, n + 1) <==> minted.Ok? && MintsEnough(minted.value.rest, taken + {minted.value.id}, n)
  {
  }

  lemma {:induction false} ApplyAllSucceedsExactly(w: Work, o: Observation, dest: Destination, live: LiveMap, cs: seq<Condition>, now: Time)
    requires LiveIn(live, w.records) && AcceptedAttention(w.records) && ValidObservation(o) && Apart(cs)
    requires LiveFor(live, w.records, o, dest, IdentitiesOf(cs))
    ensures ApplyAll(w, o, dest, live, cs, now).Ok?
            <==> MintsEnough(w.supply, w.records.Keys, Needed(w.records, live, o, cs)) && AllInTime(w.records, live, o, cs, now)
    decreases |cs|
  {
    if cs != [] {
      FirstIsLive(w.records, o, dest, live, cs);
      FirstNeeds(w, o, dest, live, cs, now);
      if ApplyCondition(w, o, dest, live, cs[0], now).Ok? {
        FirstApplied(w, o, dest, live, cs, now);
        ApplyAllSucceedsExactly(ApplyCondition(w, o, dest, live, cs[0], now).value, o, dest, live, cs[1..], now);
      }
    }
  }

  lemma FirstIsLive(m: AttentionMap, o: Observation, dest: Destination, live: LiveMap, cs: seq<Condition>)
    requires cs != [] && LiveFor(live, m, o, dest, IdentitiesOf(cs))
    ensures LiveOf(live, m, At(o, dest, Identity(cs[0])))
  {
    IdentityAmong(cs, cs[0]);
  }

  lemma IdentityAmong(cs: seq<Condition>, c: Condition)
    ensures c in cs ==> Identity(c) in IdentitiesOf(cs)
  {
  }

  // -------------------------------------------------------------- resolving

  lemma ResolvesExactly(w: Work, o: Observation, dest: Destination, live: LiveMap, who: ConditionId, now: Time)
    requires LiveIn(live, w.records) && AcceptedAttention(w.records) && ValidObservation(o) && who in live
    requires LiveOf(live, w.records, At(o, dest, who))
    ensures ResolveOne(w, o, live, who, now).Ok? <==> w.records[live[who]].createdAt <= now
  {
    assert ValidAttention(w.records[live[who]]);
    ClosesExactly(w.records[live[who]], ConditionCleared, now, None, o);
  }

  ghost predicate ResolvedInTime(m: AttentionMap, live: LiveMap, ids: seq<ConditionId>, now: Time)
    requires LiveIn(live, m)
  {
    forall who :: who in ids && who in live ==> m[live[who]].createdAt <= now
  }

  lemma ResolvedInTimeSame(m: AttentionMap, m': AttentionMap, o: Observation, dest: Destination, live: LiveMap,
                           ids: seq<ConditionId>, now: Time, touched: set<ConditionId>)
    requires LiveIn(live, m) && LiveIn(live, m') && SameBut(m, m', o, dest, touched)
    requires LiveFor(live, m, o, dest, Among(ids)) && Among(ids) !! touched
    ensures ResolvedInTime(m', live, ids, now) == ResolvedInTime(m, live, ids, now)
  {
    forall who | who in ids && who in live ensures m'[live[who]] == m[live[who]] {
      assert who in Among(ids) && LiveOf(live, m, At(o, dest, who));
      assert SameFor(m, m', At(o, dest, who));
    }
  }

  lemma TouchesOnlyIsSameBut(m: AttentionMap, m': AttentionMap, o: Observation, dest: Destination, who: ConditionId)
    requires TouchesOnly(m, m', At(o, dest, who))
    ensures SameBut(m, m', o, dest, {who})
  {
  }

  lemma ResolvedInTimeSplits(m: AttentionMap, live: LiveMap, ids: seq<ConditionId>, now: Time)
    requires LiveIn(live, m) && ids != [] && ids[0] in live
    ensures ResolvedInTime(m, live, ids, now) <==> m[live[ids[0]]].createdAt <= now && ResolvedInTime(m, live, ids[1..], now)
  {
    assert forall who :: who in ids <==> who == ids[0] || who in ids[1..];
  }

  lemma {:induction false} ResolveAllSucceedsExactly(w: Work, o: Observation, dest: Destination, live: LiveMap, ids: seq<ConditionId>, now: Time)
    requires LiveIn(live, w.records) && AcceptedAttention(w.records) && ValidObservation(o)
    requires ApartIds(ids) && forall who :: who in ids ==> who in live
    requires LiveFor(live, w.records, o, dest, Among(ids))
    ensures ResolveAll(w, o, live, ids, now).Ok? <==> ResolvedInTime(w.records, live, ids, now)
    decreases |ids|
  {
    if ids != [] {
      AmongSplit(ids);
      ResolvesExactly(w, o, dest, live, ids[0], now);
      ResolvedInTimeSplits(w.records, live, ids, now);
      if ResolveOne(w, o, live, ids[0], now).Ok? {
        var w' := ResolveOne(w, o, live, ids[0], now).value;
        ResolveOneKeeps(w, o, dest, live, ids[0], now);
        StillLiveFor(live, w.records, w'.records, o, dest, ids[0], Among(ids[1..]));
        TouchesOnlyIsSameBut(w.records, w'.records, o, dest, ids[0]);
        LiveForFewer(live, w.records, o, dest, Among(ids), Among(ids[1..]));
        ResolvedInTimeSame(w.records, w'.records, o, dest, live, ids[1..], now, {ids[0]});
        ResolveAllSucceedsExactly(w', o, dest, live, ids[1..], now);
      }
    }
  }

  // ------------------------------------------------------------- reconciling

  ghost predicate CanReconcile(m: AttentionMap, o: Observation, live: LiveMap, cs: seq<Condition>, now: Time, supply: seq<Id>)
    requires LiveIn(live, m)
  {
    && MintsEnough(supply, m.Keys, Needed(m, live, o, cs))
    && AllInTime(m, live, o, cs, now)
    && ResolvedInTime(m, live, Unseen(live, cs), now)
  }

  lemma ReconcileSucceedsExactly(m: AttentionMap, o: Observation, dest: Destination, live: LiveMap, cs: seq<Condition>, now: Time, supply: seq<Id>)
    requires LiveIn(live, m) && AcceptedAttention(m) && ValidObservation(o) && Apart(cs)
    requires LiveFor(live, m, o, dest, IdentitiesOf(cs) + live.Keys)
    ensures Reconcile(NoWork(m, supply), o, dest, live, cs, now).Ok? <==> CanReconcile(m, o, live, cs, now, supply)
  {
    var w := NoWork(m, supply);
    LiveForFewer(live, m, o, dest, IdentitiesOf(cs) + live.Keys, IdentitiesOf(cs));
    ApplyAllSucceedsExactly(w, o, dest, live, cs, now);
    if ApplyAll(w, o, dest, live, cs, now).Ok? { RestSucceedsExactly(w, o, dest, live, cs, now); }
  }

  /** After the conditions, the live records no condition named. */
  lemma RestSucceedsExactly(w: Work, o: Observation, dest: Destination, live: LiveMap, cs: seq<Condition>, now: Time)
    requires LiveIn(live, w.records) && AcceptedAttention(w.records) && ValidObservation(o) && Apart(cs)
    requires LiveFor(live, w.records, o, dest, IdentitiesOf(cs) + live.Keys)
    requires ApplyAll(w, o, dest, live, cs, now).Ok?
    ensures ResolveAll(ApplyAll(w, o, dest, live, cs, now).value, o, live, Unseen(live, cs), now).Ok?
            <==> ResolvedInTime(w.records, live, Unseen(live, cs), now)
  {
    var m, unseen, w' := w.records, Unseen(live, cs), ApplyAll(w, o, dest, live, cs, now).value;
    LiveForFewer(live, m, o, dest, IdentitiesOf(cs) + live.Keys, IdentitiesOf(cs));
    ApplyAllKeeps(w, o, dest, live, cs, now);
    LiveForFewer(live, m, o, dest, IdentitiesOf(cs) + live.Keys, Among(unseen));
    LiveForAfter(live, m, w'.records, o, dest, Among(unseen), IdentitiesOf(cs));
    ResolvedInTimeSame(m, w'.records, o, dest, live, unseen, now, IdentitiesOf(cs));
    InOrderDistinct(live.Keys - IdentitiesOf(cs));
    ResolveAllSucceedsExactly(w', o, dest, live, unseen, now);
  }

  // -------------------------------------------------------------- projecting

  /** The observed conditions no live record presents yet. */
  ghost function Missing(m: AttentionMap, o: Observation, dest: Destination, cs: seq<Condition>): set<Condition> {
    set c | c in cs && !Presented(m, o, dest, c)
  }

  /** The clock is not behind any live record the observation closes. */
  ghost predicate OnTime(m: AttentionMap, o: Observation, dest: Destination, now: Time) {
    forall k :: k in m && LiveAt(m[k], o.missionId, dest) && !Portrays(m[k], o) ==> m[k].createdAt <= now
  }

  lemma StandsIsPresented(m: AttentionMap, o: Observation, dest: Destination, live: LiveMap, c: Condition)
    requires LiveIn(live, m) && OneLive(m) && LiveOf(live, m, At(o, dest, Identity(c)))
    ensures Stands(m, live, o, c) <==> Presented(m, o, dest, c)
  {
    if Presented(m, o, dest, c) { PresentedIsTheLiveOne(m, o, dest, live, c); }
    if Stands(m, live, o, c) { PresentedAt(m, o, dest, c, live[Identity(c)]); }
  }

  lemma {:induction false} NeededCountsTheMissing(m: AttentionMap, o: Observation, dest: Destination, live: LiveMap, cs: seq<Condition>)
    requires LiveIn(live, m) && OneLive(m) && Apart(cs) && forall who :: LiveOf(live, m, At(o, dest, who))
    ensures Needed(m, live, o, cs) == |Missing(m, o, dest, cs)|
  {
    if cs != [] {
      var rest := Missing(m, o, dest, cs[1..]);
      StandsIsPresented(m, o, dest, live, cs[0]);
      NeededCountsTheMissing(m, o, dest, live, cs[1..]);
      IdentityAmong(cs[1..], cs[0]);
      assert forall c :: c in cs <==> c == cs[0] || c in cs[1..];
      assert Missing(m, o, dest, cs) == if Presented(m, o, dest, cs[0]) then rest else rest + {cs[0]};
    }
  }

  lemma InTimeIsOnTime(m: AttentionMap, o: Observation, dest: Destination, live: LiveMap, cs: seq<Condition>, now: Time)
    requires LiveIn(live, m) && OneLive(m) && DistinctConditions(o.conditions) && forall who :: LiveOf(live, m, At(o, dest, who))
    requires (forall c :: c in cs <==> c in o.conditions)
    ensures AllInTime(m, live, o, cs, now) && ResolvedInTime(m, live, Unseen(live, cs), now) <==> OnTime(m, o, dest, now)
  {
    if OnTime(m, o, dest, now) {
      forall c | c in cs ensures InTime(m, live, o, c, now) { ClosedOnTime(m, o, dest, live, c, now); }
      forall who | who in Unseen(live, cs) && who in live ensures m[live[who]].createdAt <= now {
        ResolvedOnTime(m, o, dest, live, cs, who, now);
      }
    }
    if AllInTime(m, live, o, cs, now) && ResolvedInTime(m, live, Unseen(live, cs), now) {
      forall k | k in m && LiveAt(m[k], o.missionId, dest) && !Portrays(m[k], o) ensures m[k].createdAt <= now {
        var who := ConditionOf(m[k]);
        assert LiveOf(live, m, At(o, dest, who)) && LiveAs(m[k], At(o, dest, who));
        assert Rivals(m[k], m[live[who]]);
        if who in IdentitiesOf(cs) {
          var c :| c in cs && Identity(c) == who;
          assert InTime(m, live, o, c, now) && !Stands(m, live, o, c);
        } else {
          assert who in Unseen(live, cs);
        }
      }
    }
  }

  lemma ClosedOnTime(m: AttentionMap, o: Observation, dest: Destination, live: LiveMap, c: Condition, now: Time)
    requires LiveIn(live, m) && DistinctConditions(o.conditions) && LiveOf(live, m, At(o, dest, Identity(c))) && c in o.conditions
    requires OnTime(m, o, dest, now)
    ensures InTime(m, live, o, c, now)
  {
    if Identity(c) in live && !Stands(m, live, o, c) {
      var k := live[Identity(c)];
      assert LiveAt(m[k], o.missionId, dest);
      assert forall d :: d in o.conditions && Identity(d) == ConditionOf(m[k]) ==> d == c;
    }
  }

  lemma ResolvedOnTime(m: AttentionMap, o: Observation, dest: Destination, live: LiveMap, cs: seq<Condition>, who: ConditionId, now: Time)
    requires LiveIn(live, m) && LiveOf(live, m, At(o, dest, who)) && who in live && who !in IdentitiesOf(cs)
    requires (forall c :: c in cs <==> c in o.conditions) && OnTime(m, o, dest, now)
    ensures m[live[who]].createdAt <= now
  {
    assert LiveAt(m[live[who]], o.missionId, dest) && ConditionOf(m[live[who]]) == who;
    assert !Portrays(m[live[who]], o);
  }

  /** Projecting a FRESH observation succeeds exactly when it is of the Mission,
      the minter supplies an unused id for every condition not yet presented, and
      the clock is not behind any record it closes. */
  lemma ProjectSucceedsExactly(m: AttentionMap, mission: Id, dest: Destination, o: Observation, now: Time, supply: seq<Id>)
    requires AcceptedAttention(m) && ValidObservation(o)
    ensures Project(m, mission, dest, FreshnessResult(Fresh, Some(o)), now, supply).Ok?
            <==> o.missionId == mission && MintsEnough(supply, m.Keys, |Missing(m, o, dest, o.conditions)|) && OnTime(m, o, dest, now)
  {
    if o.missionId == mission {
      var live, cs := LiveRecords(m, mission, dest), SortedConditions(o.conditions);
      SortedConditionsExactly(o.conditions);
      LiveRecordsExactly(m, mission, dest);
      forall who ensures LiveOf(live, m, At(o, dest, who)) {
        assert At(o, dest, who) == AttentionIdentity(mission, who, dest);
      }
      ProjectingSucceedsExactly(m, o, dest, live, cs, now, supply);
      ProjectFresh(m, o, dest, now, supply);
    }
  }

  lemma ProjectingSucceedsExactly(m: AttentionMap, o: Observation, dest: Destination, live: LiveMap, cs: seq<Condition>, now: Time, supply: seq<Id>)
    requires LiveIn(live, m) && AcceptedAttention(m) && ValidObservation(o) && Apart(cs)
    requires (forall who :: LiveOf(live, m, At(o, dest, who))) && (forall c :: c in cs <==> c in o.conditions)
    ensures Reconcile(NoWork(m, supply), o, dest, live, cs, now).Ok?
            <==> MintsEnough(supply, m.Keys, |Missing(m, o, dest, o.conditions)|) && OnTime(m, o, dest, now)
  {
    ReconcileSucceedsExactly(m, o, dest, live, cs, now, supply);
    NeededCountsTheMissing(m, o, dest, live, cs);
    SameMissing(m, o, dest, cs, o.conditions);
    InTimeIsOnTime(m, o, dest, live, cs, now);
  }

  lemma SameMissing(m: AttentionMap, o: Observation, dest: Destination, cs: seq<Condition>, ds: seq<Condition>)
    requires forall c :: c in cs <==> c in ds
    ensures Missing(m, o, dest, cs) == Missing(m, o, dest, ds)
  {
  }

  // ------------------------------------------------- surfacing, acknowledging

  predicate Surfaceable(m: AttentionMap, id: Id, looked: FreshnessResult) {
    && id in m && m[id].presentation.Pending?
    && (looked.observation.Some? ==> looked.observation.value.missionId == m[id].missionId)
  }

  /** Surfacing succeeds exactly for a PENDING record of the Mission looked at,
      with the clock not behind it when a FRESH read marks or closes it, and an
      unused id when a changed condition replaces it. */
  lemma SurfaceSucceedsExactly(m: AttentionMap, id: Id, looked: FreshnessResult, receipt: PresenterReceipt, now: Time, supply: seq<Id>)
    requires AcceptedAttention(m) && (looked.observation.Some? ==> ValidObservation(looked.observation.value))
    ensures Surface(m, id, looked, receipt, now, supply).Ok?
            <==> && Surfaceable(m, id, looked)
                 && (IsFresh(looked) ==>
                       var a, o := m[id], looked.observation.value;
                       if Portrays(a, o) then receipt.NotShown? || a.createdAt <= now
                       else
                         && a.createdAt <= now
                         && (ConditionsWith(o.conditions, ConditionOf(a)) != [] ==> FreshId(supply, m.Keys, MINT_TRIES).Ok?))
  {
    if Surfaceable(m, id, looked) && IsFresh(looked) {
      var a, o := m[id], looked.observation.value;
      assert ValidAttention(a);
      ContradictionOnFields(a, o);
      if Contradiction(a, o).Some? { ContradictedSucceedsExactly(m, id, o, now, supply); }
      else if receipt.Shown? { SurfacedIsValid(a, receipt.messageRef, o, now); }
    }
  }

  lemma SurfacedIsValid(a: Attention, messageRef: string, o: Observation, now: Time)
    requires ValidAttention(a) && a.presentation.Pending? && ValidObservation(o) && Contradiction(a, o).None?
    ensures ValidAttention(SurfacedRecord(a, messageRef, o, now)) <==> a.createdAt <= now
  {
    assert ValidPoint(PointOf(o));
  }

  lemma ContradictedSucceedsExactly(m: AttentionMap, id: Id, o: Observation, now: Time, supply: seq<Id>)
    requires AcceptedAttention(m) && ValidObservation(o) && id in m && !IsTerminal(m[id]) && o.missionId == m[id].missionId
    requires Contradiction(m[id], o).Some?
    ensures var a := m[id];
            var cs := ConditionsWith(o.conditions, ConditionOf(a));
            Reconcile(NoWork(m, supply), o, a.destination, map[ConditionOf(a) := id], cs, now).Ok?
            <==> a.createdAt <= now && (cs != [] ==> FreshId(supply, m.Keys, MINT_TRIES).Ok?)
  {
    var a := m[id];
    var who := ConditionOf(a);
    var live, cs := map[who := id], ConditionsWith(o.conditions, who);
    ConditionsWithExactly(o.conditions, who);
    OneOrNone(cs, who);
    SurfaceLive(m, o, id);
    ReconcileSucceedsExactly(m, o, a.destination, live, cs, now, supply);
    if cs == [] { CanResolveOne(m, o, live, who, now, supply); } else { CanReplaceOne(m, o, live, cs[0], now, supply); assert cs == [cs[0]]; }
  }

  lemma CanResolveOne(m: AttentionMap, o: Observation, live: LiveMap, who: ConditionId, now: Time, supply: seq<Id>)
    requires LiveIn(live, m) && live.Keys == {who}
    ensures CanReconcile(m, o, live, [], now, supply) <==> m[live[who]].createdAt <= now
  {
    assert who in Unseen(live, []);
  }

  lemma CanReplaceOne(m: AttentionMap, o: Observation, live: LiveMap, c: Condition, now: Time, supply: seq<Id>)
    requires LiveIn(live, m) && live.Keys == {Identity(c)} && !Stands(m, live, o, c)
    ensures CanReconcile(m, o, live, [c], now, supply)
            <==> m[live[Identity(c)]].createdAt <= now && FreshId(supply, m.Keys, MINT_TRIES).Ok?
  {
    assert c in [c] && [c][1..] == [] && Needed(m, live, o, [c][1..]) == 0;
    assert Identity(c) in IdentitiesOf([c]);
    OneMinted(supply, m.Keys);
  }

  lemma OneMinted(supply: seq<Id>, taken: set<Id>)
    ensures MintsEnough(supply, taken, 1) <==> FreshId(supply, taken, MINT_TRIES).Ok?
    ensures MintsEnough(supply, taken, 0)
  {
  }

  /** Acknowledging succeeds exactly for a live record not yet acknowledged, of
      the Mission looked at, with the clock not behind it, when a FRESH answer
      carries what it read. */
  lemma AcknowledgeSucceedsExactly(m: AttentionMap, id: Id, context: Context, looked: FreshnessResult, now: Time)
    requires AcceptedAttention(m) && (looked.observation.Some? ==> ValidObservation(looked.observation.value))
    ensures Acknowledge(m, id, context, looked, now).Ok?
            <==> && id in m && !IsTerminal(m[id]) && !m[id].presentation.Acknowledged?
                 && (looked.observation.Some? ==> looked.observation.value.missionId == m[id].missionId)
                 && m[id].createdAt <= now && (looked.freshness.Fresh? ==> looked.observation.Some?)
  {
    if id in m { assert ValidAttention(m[id]); }
    if looked.observation.Some? { assert ValidPoint(PointOf(looked.observation.value)); }
  }
}
