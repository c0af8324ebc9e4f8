/** The coordination document and service as they are written: one object whose
    family maps the operations update in place, and a service that loads,
    mutates and saves it. Every method is proved against its specification. */
module Coordination {
  import opened Record
  import opened Observations
  import opened Sorting
  import opened Floor
  import opened Bindings
  import opened Routing
  import opened Replays
  import opened Documents
  import opened Service
  import opened AtomicWrite
  import A = Attentions
  import AO = AttentionOps
  import AL = AttentionLaws
  import H = Handoffs
  import HO = HandoffOps

  // ---------------------------------------------------------- collecting points

  lemma OneMore(keys: seq<Id>, i: nat)
    requires i < |keys|
    ensures |keys[..i + 1]| == i + 1 && keys[..i + 1][..i] == keys[..i] && keys[..i + 1][i] == keys[i] && keys[i] in keys
  {
  }

  method CollectBindingPoints(bs: BindingMap, m: Id) returns (found: seq<Point>)
    ensures found == BindingPoints(bs, Sorted(bs.Keys), m)
  {
    var keys := Sorted(bs.Keys);
    found := [];
    for i := 0 to |keys|
      invariant found == BindingPoints(bs, keys[..i], m)
    {
      OneMore(keys, i);
      var b := bs[keys[i]];
      if b.missionId == m { found := found + [b.point]; }
    }
    assert keys[..|keys|] == keys;
  }

  method CollectRoutePoints(rs: RouteMap, m: Id) returns (found: seq<Point>)
    ensures found == RoutePoints(rs, Sorted(rs.Keys), m)
  {
    var keys := Sorted(rs.Keys);
    found := [];
    for i := 0 to |keys|
      invariant found == RoutePoints(rs, keys[..i], m)
    {
      OneMore(keys, i);
      var r := rs[keys[i]];
      var counts := RouteCounts(r, m);
      if counts { found := found + [r.decision.point.value]; }
    }
    assert keys[..|keys|] == keys;
  }

  method CollectAttentionPoints(ats: A.AttentionMap, m: Id) returns (found: seq<Point>)
    ensures found == AttentionPoints(ats, Sorted(ats.Keys), m)
  {
    var keys := Sorted(ats.Keys);
    found := [];
    for i := 0 to |keys|
      invariant found == AttentionPoints(ats, keys[..i], m)
    {
      OneMore(keys, i);
      var a := ats[keys[i]];
      if a.missionId == m { found := found + RecordPoints(a); }
    }
    assert keys[..|keys|] == keys;
  }

  method CollectHandoffPoints(hs: H.HandoffMap, m: Id) returns (found: seq<Point>)
    ensures found == HandoffPoints(hs, Sorted(hs.Keys), m)
  {
    var keys := Sorted(hs.Keys);
    found := [];
    for i := 0 to |keys|
      invariant found == HandoffPoints(hs, keys[..i], m)
    {
      OneMore(keys, i);
      var h := hs[keys[i]];
      if h.missionId == m { found := found + ([h.point] + EntryPoints(h.transitions)); }
    }
    assert keys[..|keys|] == keys;
  }

  /** _points and high_water_mark over one document. */
  method FindHighMark(d: Document, m: Id) returns (r: Result<Option<Point>>)
    ensures r == HighMark(d, m)
  {
    var b := CollectBindingPoints(d.bindings, m);
    var t := CollectRoutePoints(d.routes, m);
    var a := CollectAttentionPoints(d.attention, m);
    var h := CollectHandoffPoints(d.handoffs, m);
    r := HighWaterMark(b + t + a + h + RosterPoints(d.rosters, m));
  }

  method LookAt(d: Document, m: Id, answer: Outcome, now: Time) returns (r: Result<FreshnessResult>)
    ensures r == Look(d, m, answer, now)
  {
    var floor := FindHighMark(d, m);
    if floor.Refused? { return Refused(floor.problem); }
    r := Ok(Classify(answer, now, m, floor.value));
  }

  lemma LiveStep(m: A.AttentionMap, keys: seq<Id>, i: nat, mission: Id, dest: Destination)
    requires i < |keys| && forall k :: k in keys ==> k in m
    ensures AO.LiveAmong(m, keys[..i + 1], mission, dest)
            == (if AO.LiveAt(m[keys[i]], mission, dest)
                then AO.LiveAmong(m, keys[..i], mission, dest)[AO.ConditionOf(m[keys[i]]) := keys[i]]
                else AO.LiveAmong(m, keys[..i], mission, dest))
  {
    OneMore(keys, i);
  }

  /** _live_records: a later id of one condition replaces an earlier one. */
  method CollectLive(m: A.AttentionMap, mission: Id, dest: Destination) returns (live: AO.LiveMap)
    ensures live == AO.LiveRecords(m, mission, dest)
  {
    var keys := Sorted(m.Keys);
    live := map[];
    for i := 0 to |keys|
      invariant live == AO.LiveAmong(m, keys[..i], mission, dest)
    {
      LiveStep(m, keys, i, mission, dest);
      var key := keys[i];
      assert key in keys;
      if AO.LiveAt(m[key], mission, dest) { live := live[AO.ConditionOf(m[key]) := key]; }
    }
    assert keys[..|keys|] == keys;
  }

  // -------------------------------------------------------------- the document

  /** Whether an operation's effect is to be saved, and its reply. */
  datatype Written = Written(writes: bool, reply: Reply)

  /** What an operation did to a document, and said, is what was specified. */
  ghost predicate Fits(spec: Result<Effect>, after: Document, e: Result<Written>) {
    if spec.Refused? then e == Refused(spec.problem)
    else e.Ok? && spec.value == Effect(after, e.value.writes, e.value.reply)
  }

  class CoordinationDocument {
    var bindings: BindingMap
    var routes: RouteMap
    var attention: A.AttentionMap
    var handoffs: H.HandoffMap
    var rosters: H.RosterMap
    var sequence: nat

    function Value(): Document
      reads this
    {
      Document(bindings, routes, attention, handoffs, rosters, sequence)
    }

    constructor (d: Document)
      ensures Value() == d
    {
      bindings, routes, attention := d.bindings, d.routes, d.attention;
      handoffs, rosters, sequence := d.handoffs, d.rosters, d.sequence;
    }

    // -- attention ------------------------------------------------------------

    /** _close: a record's closing fields, assigned in place, then validated. A
        live record becomes a terminal one that follows it, its identity, creation,
        surfacing and acknowledgment kept; the validation passes exactly when the
        record may be closed so. No other record changes. */
    method Close(id: Id, reason: ClosedReason, now: Time, successor: Option<Id>, o: Observation) returns (p: Option<Problem>)
      requires id in attention
      modifies this`attention
      ensures id in attention && attention[id] == AO.AsClosed(old(attention)[id], reason, now, successor, o)
      ensures attention == old(attention)[id := attention[id]]
      ensures p == (if A.ValidAttention(attention[id]) then None else Some(BadValue))
      ensures AL.Closable(old(attention)[id], o) ==>
                && A.IsTerminal(attention[id]) && AL.MayFollow(old(attention)[id], attention[id])
                && AL.SameCreation(old(attention)[id], attention[id])
                && A.IdentityOf(attention[id]) == A.IdentityOf(old(attention)[id])
                && (p.None? <==> AL.MayClose(old(attention)[id], reason, now, successor))
    {
      if AL.Closable(attention[id], o) {
        AL.ClosesExactly(attention[id], reason, now, successor, o);
        AL.ClosedFollows(attention[id], reason, now, successor, o);
      }
      attention := attention[id := AO.AsClosed(attention[id], reason, now, successor, o)];
      p := if A.ValidAttention(attention[id]) then None else Some(BadValue);
    }

    /** One observed condition of _reconcile. */
    method Apply(w: AO.Work, o: Observation, dest: Destination, live: AO.LiveMap, c: Condition, now: Time)
      returns (r: Result<AO.Work>)
      requires AO.LiveIn(live, attention) && w.records == attention
      modifies this`attention
      ensures r == AO.ApplyCondition(w, o, dest, live, c, now)
      ensures r.Ok? ==> attention == r.value.records
    {
      var who := Identity(c);
      if who in live && AO.Disagreement(attention[live[who]], o, c).None? {
        return Ok(w.(suppressed := w.suppressed + [attention[live[who]].attentionId]));
      }
      var minted := AO.FreshId(w.supply, attention.Keys, AO.MINT_TRIES);
      if minted.Refused? { return Refused(minted.problem); }
      var made := AO.NewRecord(minted.value.id, o, c, dest, now);
      if !A.ValidAttention(made) { return Refused(BadValue); }
      attention := attention[minted.value.id := made];
      if who !in live {
        return Ok(w.(records := attention, supply := minted.value.rest, created := w.created + [minted.value.id]));
      }
      var current := attention[live[who]];
      var reason := AO.Disagreement(current, o, c).value;
      var p := Close(live[who], reason, now, Some(minted.value.id), o);
      if p.Some? { return Refused(p.value); }
      r := Ok(w.(records := attention, supply := minted.value.rest, created := w.created + [minted.value.id],
                 obsoleted := w.obsoleted + [current.attentionId]));
    }

    /** The observed conditions, in order. */
    method ApplyEach(w: AO.Work, o: Observation, dest: Destination, live: AO.LiveMap, cs: seq<Condition>, now: Time)
      returns (r: Result<AO.Work>)
      requires AO.LiveIn(live, attention) && w.records == attention
      modifies this`attention
      ensures r == AO.ApplyAll(w, o, dest, live, cs, now)
      ensures r.Ok? ==> attention == r.value.records
    {
      var done := w;
      for i := 0 to |cs|
        invariant done.records == attention && AO.LiveIn(live, attention)
        invariant AO.ApplyAll(done, o, dest, live, cs[i..], now) == AO.ApplyAll(w, o, dest, live, cs, now)
      {
        assert cs[i..][0] == cs[i] && cs[i..][1..] == cs[i + 1..];
        var step := Apply(done, o, dest, live, cs[i], now);
        if step.Refused? { return step; }
        done := step.value;
      }
      assert cs[|cs|..] == [];
      r := Ok(done);
    }

    /** The live records no condition named, in order. */
    method ResolveEach(w: AO.Work, o: Observation, live: AO.LiveMap, ids: seq<ConditionId>, now: Time)
      returns (r: Result<AO.Work>)
      requires AO.LiveIn(live, attention) && w.records == attention && forall who :: who in ids ==> who in live
      modifies this`attention
      ensures r == AO.ResolveAll(w, o, live, ids, now)
      ensures r.Ok? ==> attention == r.value.records
    {
      var done := w;
      for i := 0 to |ids|
        invariant done.records == attention && AO.LiveIn(live, attention)
        invariant AO.ResolveAll(done, o, live, ids[i..], now) == AO.ResolveAll(w, o, live, ids, now)
      {
        assert ids[i..][0] == ids[i] && ids[i..][1..] == ids[i + 1..];
        assert ids[i] in ids;
        var current := attention[live[ids[i]]];
        var p := Close(live[ids[i]], ConditionCleared, now, None, o);
        if p.Some? { return Refused(p.value); }
        done := done.(records := attention, resolved := done.resolved + [current.attentionId]);
      }
      assert ids[|ids|..] == [];
      r := Ok(done);
    }

    method Reconcile(w: AO.Work, o: Observation, dest: Destination, live: AO.LiveMap, cs: seq<Condition>, now: Time)
      returns (r: Result<AO.Work>)
      requires AO.LiveIn(live, attention) && w.records == attention
      modifies this`attention
      ensures r == AO.Reconcile(w, o, dest, live, cs, now)
      ensures r.Ok? ==> attention == r.value.records
    {
      r := ApplyEach(w, o, dest, live, cs, now);
      if r.Refused? { return; }
      r := ResolveEach(r.value, o, live, AO.Unseen(live, cs), now);
    }

    method Project(mission: Id, dest: Destination, looked: FreshnessResult, now: Time, supply: seq<Id>) returns (r: Result<AO.Work>)
      modifies this`attention
      ensures r == AO.Project(old(attention), mission, dest, looked, now, supply)
      ensures r.Ok? ==> attention == r.value.records
    {
      if looked.observation.Some? && looked.observation.value.missionId != mission { return Refused(MissionMismatch); }
      if !AO.IsFresh(looked) { return Ok(AO.NoWork(attention, supply)); }
      var o := looked.observation.value;
      var live := CollectLive(attention, mission, dest);
      r := Reconcile(AO.NoWork(attention, supply), o, dest, live, AO.SortedConditions(o.conditions), now);
    }

    method Surface(id: Id, looked: FreshnessResult, receipt: AO.PresenterReceipt, now: Time, supply: seq<Id>)
      returns (r: Result<AO.SurfaceOutcome>)
      modifies this`attention
      ensures r == AO.Surface(old(attention), id, looked, receipt, now, supply)
      ensures r.Ok? ==> attention == r.value.work.records
    {
      if id !in attention { return Refused(BadValue); }
      var a := attention[id];
      if A.IsTerminal(a) { return Refused(AttentionTerminal); }
      if !a.presentation.Pending? { return Refused(InvalidTransition); }
      if looked.observation.Some? && looked.observation.value.missionId != a.missionId { return Refused(MissionMismatch); }
      if !AO.IsFresh(looked) {
        return Ok(AO.SurfaceOutcome(false, false, looked.freshness, AO.NoWork(attention, supply)));
      }
      var o := looked.observation.value;
      if AO.Contradiction(a, o).Some? {
        var w := Reconcile(AO.NoWork(attention, supply), o, a.destination, map[AO.ConditionOf(a) := id],
                           AO.ConditionsWith(o.conditions, AO.ConditionOf(a)), now);
        if w.Refused? { return Refused(w.problem); }
        return Ok(AO.SurfaceOutcome(false, true, Fresh, w.value));
      }
      if receipt.NotShown? { return Ok(AO.SurfaceOutcome(false, false, Fresh, AO.NoWork(attention, supply))); }
      attention := attention[id := AO.SurfacedRecord(a, receipt.messageRef, o, now)];
      if !A.ValidAttention(attention[id]) { return Refused(BadValue); }
      r := Ok(AO.SurfaceOutcome(true, false, Fresh, AO.NoWork(attention, supply)));
    }

    method Acknowledge(id: Id, context: Context, looked: FreshnessResult, now: Time) returns (r: Result<A.Attention>)
      modifies this`attention
      ensures var spec := AO.Acknowledge(old(attention), id, context, looked, now);
              if spec.Refused? then r == Refused(spec.problem)
              else attention == spec.value && id in attention && r == Ok(attention[id])
    {
      if id !in attention { return Refused(BadValue); }
      var a := attention[id];
      if A.IsTerminal(a) { return Refused(AttentionTerminal); }
      if a.presentation.Acknowledged? { return Refused(InvalidTransition); }
      if looked.observation.Some? && looked.observation.value.missionId != a.missionId { return Refused(MissionMismatch); }
      attention := attention[id := AO.AcknowledgedRecord(a, context, looked, now)];
      if !A.ValidAttention(attention[id]) { return Refused(BadValue); }
      r := Ok(attention[id]);
    }

    // -- bindings ---------------------------------------------------------------

    /** _bind: insert, then validate the whole family. */
    method Bind(ask: BindingAsk, mission: Id, o: Observation, now: Time, context: Context, supply: seq<Id>) returns (r: Result<Binding>)
      requires AcceptedBindings(bindings)
      modifies this`bindings
      ensures var spec := BindInto(old(bindings), ask, mission, o, now, context, supply);
              if spec.Refused? then r == Refused(spec.problem)
              else bindings == spec.value.bindings && r == Ok(spec.value.binding)
    {
      var wanted := BindingIdentity(ask.kind, ask.transport, ask.conversationRef, ask.selector);
      if Find(bindings, wanted) != [] { return Refused(BindingConflict); }
      var minted := AO.FreshId(supply, bindings.Keys, AO.MINT_TRIES);
      if minted.Refused? { return Refused(minted.problem); }
      var made := NewBinding(minted.value.id, ask.kind, ask.transport, ask.conversationRef, ask.selector, mission, o, now,
                             ask.expiresAt, context);
      if made.Refused? { return Refused(made.problem); }
      InsertIsCoherent(bindings, made.value);
      bindings := bindings[minted.value.id := made.value];
      var p := ValidateBindings(bindings);
      if p.Some? { return Refused(p.value); }
      r := Ok(made.value);
    }

    method RevokeOne(id: Id, now: Time) returns (r: Result<Binding>)
      requires id in bindings
      modifies this`bindings
      ensures r == Revoke(old(bindings)[id], now)
      ensures bindings == (if r.Ok? then old(bindings)[id := r.value] else old(bindings))
    {
      r := Revoke(bindings[id], now);
      if r.Ok? { bindings := bindings[id := r.value]; }
    }

    // -- handoffs ---------------------------------------------------------------

    /** set_roster */
    method SetRoster(mission: Id, participants: seq<Participant>, looked: FreshnessResult, now: Time, context: Context)
      returns (r: Result<H.Roster>)
      modifies this`rosters
      ensures var spec := HO.SetRoster(handoffs, old(rosters), mission, participants, looked, now, context);
              if spec.Refused? then r == Refused(spec.problem) && rosters == old(rosters)
              else rosters == spec.value && mission in rosters && r == Ok(rosters[mission])
    {
      var observed := HO.RequireFresh(looked, mission);
      if observed.Refused? { return Refused(observed.problem); }
      var roster := H.Roster(mission, participants, observed.value.currentRevision, now, context, PointOf(observed.value));
      var p := H.RosterProblem(roster);
      if p.Some? { return Refused(p.value); }
      var keeps := KeepsNamed(handoffs, mission, participants);
      if !keeps { return Refused(ParticipantIneligible); }
      rosters := rosters[mission := roster];
      r := Ok(roster);
    }

    /** create_handoff */
    method CreateHandoff(id: Id, q: HO.Request, looked: FreshnessResult, now: Time, context: Context) returns (r: Result<H.Handoff>)
      modifies this`handoffs
      ensures var spec := HO.CreateHandoff(old(handoffs), rosters, id, q, looked, now, context);
              if spec.Refused? then r == Refused(spec.problem) && handoffs == old(handoffs)
              else handoffs == spec.value.handoffs && r == Ok(spec.value.record)
    {
      var observed := HO.RequireFresh(looked, q.missionId);
      if observed.Refused? { return Refused(observed.problem); }
      var source := H.EligibleProblem(rosters, q.missionId, q.source);
      if source.Some? { return Refused(source.value); }
      var destination := H.EligibleProblem(rosters, q.missionId, q.destination);
      if destination.Some? { return Refused(destination.value); }
      var built := HO.BuildCandidate(handoffs, id, q, observed.value, now, context);
      if built.Refused? { return Refused(built.problem); }
      r := Admit(built.value, observed.value);
    }

    /** The two passes over recorded handoffs, the link, and the insertion. */
    method Admit(c: H.Handoff, o: Observation) returns (r: Result<H.Handoff>)
      modifies this`handoffs
      ensures var spec := HO.AdmitCandidate(old(handoffs), c, o);
              if spec.Refused? then r == Refused(spec.problem) && handoffs == old(handoffs)
              else handoffs == spec.value.handoffs && r == Ok(spec.value.record)
    {
      var p := H.HandoffProblem(c);
      if p.Some? { return Refused(p.value); }
      var cited := CitationsProblem(o, c.evidence + c.artifacts);
      if cited.Some? { return Refused(cited.value); }
      var existing := FindByKey(handoffs, c.missionId, c.idempotencyKey);
      if existing.Some? {
        if existing.value.contentDigest == c.contentDigest { return Ok(existing.value); }
        return Refused(IdempotencyConflict);
      }
      if c.handoffId in handoffs { return Refused(IdempotencyConflict); }
      var live := AnyLiveWith(handoffs, c);
      if live { return Refused(DuplicateEffect); }
      var link := H.LinkProblem(handoffs, c);
      if link.Some? { return Refused(link.value); }
      handoffs := handoffs[c.handoffId := c];
      r := Ok(c);
    }

    /** transition */
    method Transition(id: Id, status: HandoffStatus, actor: Participant, looked: FreshnessResult, now: Time, context: Context)
      returns (r: Result<H.Handoff>)
      modifies this`handoffs
      ensures var spec := HO.TransitionHandoff(old(handoffs), id, status, actor, looked, now, context);
              if spec.Refused? then r == Refused(spec.problem) && handoffs == old(handoffs)
              else handoffs == spec.value && id in handoffs && r == Ok(handoffs[id])
    {
      if id !in handoffs { return Refused(BadValue); }
      var h := handoffs[id];
      if !StatusMayBecome(h.status, status) { return Refused(InvalidTransition); }
      if actor != H.ActorOf(h, status) { return Refused(ParticipantIneligible); }
      var observed := HO.RequireFresh(looked, h.missionId);
      if observed.Refused? { return Refused(observed.problem); }
      var p := HO.MoveProblem(h, status, actor, observed.value, now);
      if p.Some? { return Refused(p.value); }
      var updated := HO.Moved(h, status, actor, observed.value, now, context);
      var q := H.HandoffProblem(updated);
      if q.Some? { return Refused(q.value); }
      handoffs := handoffs[id := updated];
      r := Ok(updated);
    }

    /** rebind's two changes, under one read. */
    method RebindOne(id: Id, expiresAt: Option<Time>, o: Observation, now: Time, context: Context, supply: seq<Id>) returns (r: Result<Binding>)
      requires AcceptedBindings(bindings) && id in bindings
      modifies this`bindings
      ensures var spec := Rebound(old(bindings), id, expiresAt, o, now, context, supply);
              if spec.Refused? then r == Refused(spec.problem)
              else bindings == spec.value.bindings && r == Ok(spec.value.binding)
    {
      var held := bindings[id];
      r := RevokeOne(id, now);
      if r.Refused? { return; }
      RevokeIsAccepted(old(bindings), id, now);
      r := Bind(AskAgain(held, expiresAt), held.missionId, o, now, context, supply);
    }

    // -- whole operations -------------------------------------------------------

    method DoRoute(ghost d: Document, t: InboundTurn, context: Context, lanes: set<Lane>, answer: Outcome, now: Time, supply: seq<Id>)
      returns (e: Result<Written>)
      requires Value() == d
      modifies this`routes
      ensures Fits(ApplyRoute(d, t, context, lanes, answer, now, supply), Value(), e)
    {
      var replay := FindReplay(routes, t, context);
      if replay.Refused? { return Refused(replay.problem); }
      if replay.value.Some? { return Ok(Written(false, Routed(true, replay.value.value))); }
      var looked := LookForRoute(d, t, answer, now);
      if looked.Refused? { return Refused(looked.problem); }
      e := DoDecide(d, t, context, lanes, looked.value, now, supply);
    }

    method DoDecide(ghost d: Document, t: InboundTurn, context: Context, lanes: set<Lane>, looked: FreshnessResult, now: Time, supply: seq<Id>)
      returns (e: Result<Written>)
      requires Value() == d
      modifies this`routes
      ensures Fits(Decide(d, t, context, lanes, looked, now, supply), Value(), e)
    {
      var minted := AO.FreshId(supply, routes.Keys, AO.MINT_TRIES);
      if minted.Refused? { return Refused(minted.problem); }
      var route := NewRoute(minted.value.id, t, bindings, (m: Id) => looked, now, lanes, context);
      if !ValidRoute(route) { return Refused(BadValue); }
      routes := routes[minted.value.id := route];
      e := Ok(Written(true, Routed(false, route)));
    }

    /** The one question a derivation asks, if it asks one. */
    method LookForRoute(ghost d: Document, t: InboundTurn, answer: Outcome, now: Time) returns (r: Result<FreshnessResult>)
      requires Value() == d
      ensures r == RouteLook(d, t, answer, now)
    {
      var asked := Consulted(t, NamedTiers(t), bindings, now);
      if asked.None? { return Ok(FreshnessResult(Unavailable, None)); }
      r := LookAt(Value(), asked.value, answer, now);
    }

    method DoBind(ghost d: Document, ask: BindingAsk, mission: Id, context: Context, answer: Outcome, now: Time, supply: seq<Id>)
      returns (e: Result<Written>)
      requires Value() == d
      requires AcceptedBindings(bindings)
      modifies this`bindings
      ensures Fits(ApplyBind(d, ask, mission, context, answer, now, supply), Value(), e)
    {
      var looked := LookAt(Value(), mission, answer, now);
      if looked.Refused? { return Refused(looked.problem); }
      var observed := HO.RequireFresh(looked.value, mission);
      if observed.Refused? { return Refused(observed.problem); }
      var bound := Bind(ask, mission, observed.value, now, context, supply);
      if bound.Refused? { return Refused(bound.problem); }
      return Ok(Written(true, Bound(bound.value)));
    }

    method DoRevoke(ghost d: Document, id: Id, now: Time)
      returns (e: Result<Written>)
      requires Value() == d
      modifies this`bindings
      ensures Fits(ApplyRevoke(d, id, now), Value(), e)
    {
      if id !in bindings { return Refused(BadValue); }
      var revoked := RevokeOne(id, now);
      if revoked.Refused? { return Refused(revoked.problem); }
      return Ok(Written(true, Bound(revoked.value)));
    }

    method DoRebind(ghost d: Document, id: Id, expiresAt: Option<Time>, context: Context, answer: Outcome, now: Time, supply: seq<Id>)
      returns (e: Result<Written>)
      requires Value() == d
      requires AcceptedBindings(bindings)
      modifies this`bindings
      ensures Fits(ApplyRebind(d, id, expiresAt, context, answer, now, supply), Value(), e)
    {
      if id !in bindings { return Refused(BadValue); }
      var looked := LookAt(Value(), bindings[id].missionId, answer, now);
      if looked.Refused? { return Refused(looked.problem); }
      e := DoRebindUnder(d, id, expiresAt, looked.value, now, context, supply);
    }

    method DoRebindUnder(ghost d: Document, id: Id, expiresAt: Option<Time>, looked: FreshnessResult, now: Time, context: Context, supply: seq<Id>)
      returns (e: Result<Written>)
      requires Value() == d && id in bindings
      requires AcceptedBindings(bindings)
      modifies this`bindings
      ensures Fits(RebindUnder(d, id, expiresAt, looked, now, context, supply), Value(), e)
    {
      var observed := HO.RequireFresh(looked, bindings[id].missionId);
      if observed.Refused? { return Refused(observed.problem); }
      var bound := RebindOne(id, expiresAt, observed.value, now, context, supply);
      if bound.Refused? { return Refused(bound.problem); }
      return Ok(Written(true, Bound(bound.value)));
    }

    method DoProject(ghost d: Document, mission: Id, dest: Destination, answer: Outcome, now: Time, supply: seq<Id>)
      returns (e: Result<Written>)
      requires Value() == d
      modifies this`attention
      ensures Fits(ApplyProject(d, mission, dest, answer, now, supply), Value(), e)
    {
      var looked := LookAt(Value(), mission, answer, now);
      if looked.Refused? { return Refused(looked.problem); }
      e := DoProjectUnder(d, mission, dest, looked.value, now, supply);
    }

    method DoProjectUnder(ghost d: Document, mission: Id, dest: Destination, looked: FreshnessResult, now: Time, supply: seq<Id>)
      returns (e: Result<Written>)
      requires Value() == d
      modifies this`attention
      ensures Fits(ProjectUnder(d, mission, dest, looked, now, supply), Value(), e)
    {
      var w := Project(mission, dest, looked, now, supply);
      if w.Refused? { return Refused(w.problem); }
      e := Ok(Written(w.value.created != [] || w.value.obsoleted != [] || w.value.resolved != [], Projected(looked.freshness, w.value)));
    }

    method DoSurface(ghost d: Document, id: Id, receipt: AO.PresenterReceipt, answer: Outcome, now: Time, supply: seq<Id>)
      returns (e: Result<Written>)
      requires Value() == d
      modifies this`attention
      ensures Fits(ApplySurface(d, id, receipt, answer, now, supply), Value(), e)
    {
      if id !in attention { return Refused(BadValue); }
      var looked := LookAt(Value(), attention[id].missionId, answer, now);
      if looked.Refused? { return Refused(looked.problem); }
      e := DoSurfaceUnder(d, id, receipt, looked.value, now, supply);
    }

    method DoSurfaceUnder(ghost d: Document, id: Id, receipt: AO.PresenterReceipt, looked: FreshnessResult, now: Time, supply: seq<Id>)
      returns (e: Result<Written>)
      requires Value() == d
      modifies this`attention
      ensures Fits(SurfaceUnder(d, id, receipt, looked, now, supply), Value(), e)
    {
      var outcome := Surface(id, looked, receipt, now, supply);
      if outcome.Refused? { return Refused(outcome.problem); }
      e := Ok(Written(outcome.value.surfaced || outcome.value.contradicted, Surfacing(outcome.value)));
    }

    method DoAcknowledge(ghost d: Document, id: Id, context: Context, answer: Outcome, now: Time)
      returns (e: Result<Written>)
      requires Value() == d
      modifies this`attention
      ensures Fits(ApplyAcknowledge(d, id, context, answer, now), Value(), e)
    {
      if id !in attention { return Refused(BadValue); }
      var looked := LookAt(Value(), attention[id].missionId, answer, now);
      if looked.Refused? { return Refused(looked.problem); }
      e := DoAcknowledgeUnder(d, id, context, looked.value, now);
    }

    method DoAcknowledgeUnder(ghost d: Document, id: Id, context: Context, looked: FreshnessResult, now: Time)
      returns (e: Result<Written>)
      requires Value() == d
      modifies this`attention
      ensures Fits(AcknowledgeUnder(d, id, context, looked, now), Value(), e)
    {
      var acked := Acknowledge(id, context, looked, now);
      if acked.Refused? { return Refused(acked.problem); }
      return Ok(Written(true, Acked(acked.value)));
    }

    method DoSetRoster(ghost d: Document, mission: Id, participants: seq<Participant>, context: Context, answer: Outcome, now: Time)
      returns (e: Result<Written>)
      requires Value() == d
      modifies this`rosters
      ensures Fits(ApplySetRoster(d, mission, participants, context, answer, now), Value(), e)
    {
      var looked := LookAt(Value(), mission, answer, now);
      if looked.Refused? { return Refused(looked.problem); }
      e := DoSetRosterUnder(d, mission, participants, context, looked.value, now);
    }

    method DoSetRosterUnder(ghost d: Document, mission: Id, participants: seq<Participant>, context: Context,
                            looked: FreshnessResult, now: Time)
      returns (e: Result<Written>)
      requires Value() == d
      modifies this`rosters
      ensures Fits(SetRosterUnder(d, mission, participants, context, looked, now), Value(), e)
    {
      var roster := SetRoster(mission, participants, looked, now, context);
      if roster.Refused? { return Refused(roster.problem); }
      return Ok(Written(true, Registered(roster.value)));
    }

    method DoCreate(ghost d: Document, q: HO.Request, context: Context, answer: Outcome, now: Time, supply: seq<Id>)
      returns (e: Result<Written>)
      requires Value() == d
      modifies this`handoffs
      ensures Fits(ApplyCreate(d, q, context, answer, now, supply), Value(), e)
    {
      var minted := AO.FreshId(supply, handoffs.Keys, AO.MINT_TRIES);
      if minted.Refused? { return Refused(minted.problem); }
      var looked := LookAt(Value(), q.missionId, answer, now);
      if looked.Refused? { return Refused(looked.problem); }
      e := DoCreateUnder(d, minted.value.id, q, context, looked.value, now);
    }

    method DoCreateUnder(ghost d: Document, id: Id, q: HO.Request, context: Context, looked: FreshnessResult, now: Time)
      returns (e: Result<Written>)
      requires Value() == d
      modifies this`handoffs
      ensures Fits(CreateUnder(d, id, q, context, looked, now), Value(), e)
    {
      var before := handoffs.Keys;
      var created := CreateHandoff(id, q, looked, now, context);
      if created.Refused? { return Refused(created.problem); }
      e := Ok(Written(created.value.handoffId !in before, HandedOff(created.value)));
    }

    method DoTransition(ghost d: Document, id: Id, status: HandoffStatus, actor: Participant, context: Context, answer: Outcome, now: Time)
      returns (e: Result<Written>)
      requires Value() == d
      modifies this`handoffs
      ensures Fits(ApplyTransition(d, id, status, actor, context, answer, now), Value(), e)
    {
      if id !in handoffs { return Refused(BadValue); }
      var looked := LookAt(Value(), handoffs[id].missionId, answer, now);
      if looked.Refused? { return Refused(looked.problem); }
      e := DoTransitionUnder(d, id, status, actor, context, looked.value, now);
    }

    method DoTransitionUnder(ghost d: Document, id: Id, status: HandoffStatus, actor: Participant, context: Context,
                             looked: FreshnessResult, now: Time)
      returns (e: Result<Written>)
      requires Value() == d
      modifies this`handoffs
      ensures Fits(TransitionUnder(d, id, status, actor, context, looked, now), Value(), e)
    {
      var updated := Transition(id, status, actor, looked, now, context);
      if updated.Refused? { return Refused(updated.problem); }
      return Ok(Written(true, HandedOff(updated.value)));
    }
  }

  predicate NamesWithin(h: H.Handoff, mission: Id, participants: seq<Participant>) {
    h.missionId == mission ==> h.source in participants && h.destination in participants
  }

  lemma AllWithin(m: H.HandoffMap, keys: seq<Id>, mission: Id, participants: seq<Participant>)
    requires forall k :: k in m ==> k in keys
    requires forall j :: 0 <= j < |keys| ==> keys[j] in m && NamesWithin(m[keys[j]], mission, participants)
    ensures HO.NamesOnly(m, mission, participants)
  {
    forall k | k in m ensures NamesWithin(m[k], mission, participants) { assert k in keys; }
  }

  /** The pass over recorded handoffs that a roster must not drop anyone of. */
  method KeepsNamed(m: H.HandoffMap, mission: Id, participants: seq<Participant>) returns (ok: bool)
    ensures ok == HO.NamesOnly(m, mission, participants)
  {
    var keys := Sorted(m.Keys);
    for i := 0 to |keys|
      invariant forall j :: 0 <= j < i ==> keys[j] in m && NamesWithin(m[keys[j]], mission, participants)
    {
      assert keys[i] in keys;
      if !NamesWithin(m[keys[i]], mission, participants) { return false; }
    }
    AllWithin(m, keys, mission, participants);
    ok := true;
  }

  predicate IsLiveWith(h: H.Handoff, c: H.Handoff) {
    h.missionId == c.missionId && !TerminalStatus(h.status) && h.contentDigest == c.contentDigest
  }

  lemma {:induction false} FindKeyIs(m: H.HandoffMap, keys: seq<Id>, i: nat, mission: Id, key: Key)
    requires i <= |keys| && forall k :: k in keys ==> k in m
    requires forall j :: 0 <= j < i ==> !HO.UsesKey(m[keys[j]], mission, key)
    ensures i == |keys| ==> HO.FindKey(m, keys, mission, key) == None
    ensures i < |keys| && HO.UsesKey(m[keys[i]], mission, key) ==> HO.FindKey(m, keys, mission, key) == Some(m[keys[i]])
  {
    if keys != [] && i > 0 { FindKeyIs(m, keys[1..], i - 1, mission, key); }
  }

  /** The pass for an existing record of this idempotency key. */
  method FindByKey(m: H.HandoffMap, mission: Id, key: Key) returns (r: Option<H.Handoff>)
    ensures r == HO.FindKey(m, Sorted(m.Keys), mission, key)
  {
    var keys := Sorted(m.Keys);
    for i := 0 to |keys|
      invariant forall j :: 0 <= j < i ==> !HO.UsesKey(m[keys[j]], mission, key)
    {
      assert keys[i] in keys;
      if HO.UsesKey(m[keys[i]], mission, key) {
        FindKeyIs(m, keys, i, mission, key);
        return Some(m[keys[i]]);
      }
    }
    FindKeyIs(m, keys, |keys|, mission, key);
    r := None;
  }

  /** The pass for a live record of identical content. */
  method AnyLiveWith(m: H.HandoffMap, c: H.Handoff) returns (r: bool)
    ensures r == HO.LiveWith(m, c.missionId, c.contentDigest)
  {
    var keys := Sorted(m.Keys);
    for i := 0 to |keys|
      invariant forall j :: 0 <= j < i ==> keys[j] in m && !IsLiveWith(m[keys[j]], c)
    {
      assert keys[i] in keys;
      if IsLiveWith(m[keys[i]], c) { return true; }
    }
    forall k | k in m ensures !IsLiveWith(m[k], c) { assert k in keys; }
    r := false;
  }

  // --------------------------------------------------------------- the service

  /** The disk and the reply are those of a call whose operation does this and
      whose write ends so. */
  ghost predicate Answers(d: Document, does: Result<Effect>, end: WriteEnd, disk: Document, r: Result<Reply>) {
    Finish(d, does, end) == Ended(disk, r)
  }

  lemma RefusedCall(d: Document, does: Result<Effect>, end: WriteEnd)
    requires AcceptedDocument(d) && does.Refused?
    ensures Answers(d, does, end, d, Refused(does.problem))
  {
  }

  lemma UnreadableCall(d: Document, does: Result<Effect>, end: WriteEnd)
    requires DocumentProblem(d).Some?
    ensures Answers(d, does, end, d, Refused(DocumentProblem(d).value))
  {
  }

  class CoordinationService {
    const directory: Directory<Document>
    const lanes: set<Lane>

    constructor (directory: Directory<Document>, lanes: set<Lane>)
      ensures this.directory == directory && this.lanes == lanes
    {
      this.directory, this.lanes := directory, lanes;
    }

    /** What load reads: the default document until something was saved. */
    function OnDisk(): Document
      reads directory
    {
      if directory.file.Some? then directory.file.value else DEFAULT_DOCUMENT
    }

    /** An attempt whose process lives on to see how it ended, its prepared file
        under a name of its own. */
    predicate Tries(w: Trial)
      reads directory
    {
      w.name !in directory.temps && !w.fault.Dies?
    }

    /** load: a new in-memory document, and what validation says of it. */
    method Load() returns (p: Option<Problem>, document: CoordinationDocument)
      ensures fresh(document) && document.Value() == OnDisk()
      ensures p == DocumentProblem(OnDisk())
    {
      document := new CoordinationDocument(OnDisk());
      p := ValidateDocument(OnDisk());
    }

    /** save at the sequence the document was loaded at; a raising write rolls
        the field back, whether or not it landed. */
    method Save(document: CoordinationDocument, expected: nat, w: Trial) returns (p: Option<Problem>)
      requires Tries(w)
      modifies directory, document`sequence
      ensures var spec := Service.Save(old(OnDisk()), old(document.Value()), expected);
              if spec.Refused? then
                p == Some(spec.problem) && directory.Value() == old(directory.Value()) && document.sequence == old(document.sequence)
              else
                var end := EndOf(w.fault);
                && OnDisk() == (if end.FailedBefore? then old(OnDisk()) else spec.value)
                && document.sequence == (if end.Landed? then expected + 1 else expected)
                && p == (if end.Landed? then None else Some(WriteFailed))
    {
      var d := document.Value();
      p := ValidateDocument(d);
      if p.Some? { return; }
      if document.sequence != expected { return Some(StoreConflict); }
      p := ValidateDocument(OnDisk());
      if p.Some? { return; }
      if OnDisk().sequence != expected { return Some(StoreConflict); }
      document.sequence := expected + 1;
      NeverTorn(directory.Value(), w.name, document.Value(), w.fault, w.unlinks);
      var failed := directory.WriteJson(document.Value(), w.name, w.fault, w.unlinks);
      if failed {
        document.sequence := expected;
        p := Some(WriteFailed);
      }
    }

    /** A refusal is passed on; an effect that is to be saved is saved. */
    method Conclude(ghost d: Document, ghost does: Result<Effect>, document: CoordinationDocument, e: Result<Written>, w: Trial)
      returns (r: Result<Reply>)
      requires Tries(w) && d == OnDisk() && AcceptedDocument(d) && document.sequence == d.sequence
      requires Fits(does, document.Value(), e)
      modifies directory, document`sequence
      ensures Answers(d, does, EndOf(w.fault), OnDisk(), r)
    {
      if e.Refused? {
        RefusedCall(d, does, EndOf(w.fault));
        return Refused(e.problem);
      }
      if e.value.writes {
        var p := Save(document, OnDisk().sequence, w);
        if p.Some? { return Refused(p.value); }
      }
      r := Ok(e.value.reply);
    }

    method Route(t: InboundTurn, context: Context, answer: Outcome, now: Time, supply: seq<Id>, w: Trial) returns (r: Result<Reply>)
      requires Tries(w)
      modifies directory
      ensures Answers(old(OnDisk()), ApplyRoute(old(OnDisk()), t, context, lanes, answer, now, supply), EndOf(w.fault), OnDisk(), r)
    {
      ghost var d := OnDisk();
      ghost var does := ApplyRoute(d, t, context, lanes, answer, now, supply);
      var p, document := Load();
      if p.Some? {
        UnreadableCall(d, does, EndOf(w.fault));
        return Refused(p.value);
      }
      var e := document.DoRoute(d, t, context, lanes, answer, now, supply);
      r := Conclude(d, does, document, e, w);
    }

    method Bind(ask: BindingAsk, mission: Id, context: Context, answer: Outcome, now: Time, supply: seq<Id>, w: Trial) returns (r: Result<Reply>)
      requires Tries(w)
      modifies directory
      ensures Answers(old(OnDisk()), ApplyBind(old(OnDisk()), ask, mission, context, answer, now, supply), EndOf(w.fault), OnDisk(), r)
    {
      ghost var d := OnDisk();
      ghost var does := ApplyBind(d, ask, mission, context, answer, now, supply);
      var p, document := Load();
      if p.Some? {
        UnreadableCall(d, does, EndOf(w.fault));
        return Refused(p.value);
      }
      var e := document.DoBind(d, ask, mission, context, answer, now, supply);
      r := Conclude(d, does, document, e, w);
    }

    method RevokeBinding(id: Id, now: Time, w: Trial) returns (r: Result<Reply>)
      requires Tries(w)
      modifies directory
      ensures Answers(old(OnDisk()), ApplyRevoke(old(OnDisk()), id, now), EndOf(w.fault), OnDisk(), r)
    {
      ghost var d := OnDisk();
      ghost var does := ApplyRevoke(d, id, now);
      var p, document := Load();
      if p.Some? {
        UnreadableCall(d, does, EndOf(w.fault));
        return Refused(p.value);
      }
      var e := document.DoRevoke(d, id, now);
      r := Conclude(d, does, document, e, w);
    }

    method Rebind(id: Id, expiresAt: Option<Time>, context: Context, answer: Outcome, now: Time, supply: seq<Id>, w: Trial) returns (r: Result<Reply>)
      requires Tries(w)
      modifies directory
      ensures Answers(old(OnDisk()), ApplyRebind(old(OnDisk()), id, expiresAt, context, answer, now, supply), EndOf(w.fault), OnDisk(), r)
    {
      ghost var d := OnDisk();
      ghost var does := ApplyRebind(d, id, expiresAt, context, answer, now, supply);
      var p, document := Load();
      if p.Some? {
        UnreadableCall(d, does, EndOf(w.fault));
        return Refused(p.value);
      }
      var e := document.DoRebind(d, id, expiresAt, context, answer, now, supply);
      r := Conclude(d, does, document, e, w);
    }

    method ProjectAttention(mission: Id, dest: Destination, answer: Outcome, now: Time, supply: seq<Id>, w: Trial) returns (r: Result<Reply>)
      requires Tries(w)
      modifies directory
      ensures Answers(old(OnDisk()), ApplyProject(old(OnDisk()), mission, dest, answer, now, supply), EndOf(w.fault), OnDisk(), r)
    {
      ghost var d := OnDisk();
      ghost var does := ApplyProject(d, mission, dest, answer, now, supply);
      var p, document := Load();
      if p.Some? {
        UnreadableCall(d, does, EndOf(w.fault));
        return Refused(p.value);
      }
      var e := document.DoProject(d, mission, dest, answer, now, supply);
      r := Conclude(d, does, document, e, w);
    }

    method SurfaceAttention(id: Id, receipt: AO.PresenterReceipt, answer: Outcome, now: Time, supply: seq<Id>, w: Trial) returns (r: Result<Reply>)
      requires Tries(w)
      modifies directory
      ensures Answers(old(OnDisk()), ApplySurface(old(OnDisk()), id, receipt, answer, now, supply), EndOf(w.fault), OnDisk(), r)
    {
      ghost var d := OnDisk();
      ghost var does := ApplySurface(d, id, receipt, answer, now, supply);
      var p, document := Load();
      if p.Some? {
        UnreadableCall(d, does, EndOf(w.fault));
        return Refused(p.value);
      }
      var e := document.DoSurface(d, id, receipt, answer, now, supply);
      r := Conclude(d, does, document, e, w);
    }

    method AcknowledgeAttention(id: Id, context: Context, answer: Outcome, now: Time, w: Trial) returns (r: Result<Reply>)
      requires Tries(w)
      modifies directory
      ensures Answers(old(OnDisk()), ApplyAcknowledge(old(OnDisk()), id, context, answer, now), EndOf(w.fault), OnDisk(), r)
    {
      ghost var d := OnDisk();
      ghost var does := ApplyAcknowledge(d, id, context, answer, now);
      var p, document := Load();
      if p.Some? {
        UnreadableCall(d, does, EndOf(w.fault));
        return Refused(p.value);
      }
      var e := document.DoAcknowledge(d, id, context, answer, now);
      r := Conclude(d, does, document, e, w);
    }

    method SetRoster(mission: Id, participants: seq<Participant>, context: Context, answer: Outcome, now: Time, w: Trial) returns (r: Result<Reply>)
      requires Tries(w)
      modifies directory
      ensures Answers(old(OnDisk()), ApplySetRoster(old(OnDisk()), mission, participants, context, answer, now), EndOf(w.fault), OnDisk(), r)
    {
      ghost var d := OnDisk();
      ghost var does := ApplySetRoster(d, mission, participants, context, answer, now);
      var p, document := Load();
      if p.Some? {
        UnreadableCall(d, does, EndOf(w.fault));
        return Refused(p.value);
      }
      var e := document.DoSetRoster(d, mission, participants, context, answer, now);
      r := Conclude(d, does, document, e, w);
    }

    method CreateHandoff(q: HO.Request, context: Context, answer: Outcome, now: Time, supply: seq<Id>, w: Trial) returns (r: Result<Reply>)
      requires Tries(w)
      modifies directory
      ensures Answers(old(OnDisk()), ApplyCreate(old(OnDisk()), q, context, answer, now, supply), EndOf(w.fault), OnDisk(), r)
    {
      ghost var d := OnDisk();
      ghost var does := ApplyCreate(d, q, context, answer, now, supply);
      var p, document := Load();
      if p.Some? {
        UnreadableCall(d, does, EndOf(w.fault));
        return Refused(p.value);
      }
      var e := document.DoCreate(d, q, context, answer, now, supply);
      r := Conclude(d, does, document, e, w);
    }

    method TransitionHandoff(id: Id, status: HandoffStatus, actor: Participant, context: Context, answer: Outcome, now: Time, w: Trial) returns (r: Result<Reply>)
      requires Tries(w)
      modifies directory
      ensures Answers(old(OnDisk()), ApplyTransition(old(OnDisk()), id, status, actor, context, answer, now), EndOf(w.fault), OnDisk(), r)
    {
      ghost var d := OnDisk();
      ghost var does := ApplyTransition(d, id, status, actor, context, answer, now);
      var p, document := Load();
      if p.Some? {
        UnreadableCall(d, does, EndOf(w.fault));
        return Refused(p.value);
      }
      var e := document.DoTransition(d, id, status, actor, context, answer, now);
      r := Conclude(d, does, document, e, w);
    }
  }
}
