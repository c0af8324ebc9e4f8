/** Whole runs of the service: safety from the default document onward. */
module Runs {
  import opened Record
  import opened Observations
  import opened Floor
  import opened Bindings
  import opened Routing
  import opened Replays
  import opened Documents
  import opened Service
  import opened ServiceLaws
  import A = Attentions
  import AO = AttentionOps
  import AL = AttentionLaws
  import H = Handoffs

  // ----------------------------------------------------------------- one call

  lemma SaveOf(disk: Document, e: Document)
    requires AcceptedDocument(disk) && Families(e) && e.sequence == disk.sequence
    ensures Save(disk, e, disk.sequence)
            == (if WithinCapacity(e) then Ok(e.(sequence := disk.sequence + 1)) else Refused(StoreFull))
  {
  }

  lemma SoundGives(d: Document, e: Document)
    requires SoundStep(d, e)
    ensures Families(e) && e.sequence == d.sequence
  {
    var m, read :| Sound(d, e, m, read);
  }

  /** Save-time family validation never refuses what an operation produced:
      only a capacity bound can. */
  lemma SaveRefusesOnlyWhenFull(d: Document, op: Operation)
    requires AcceptedDocument(d) && FloorHolds(d) && Apply(d, op).Ok?
    ensures var e := Apply(d, op).value.document;
            Save(d, e, d.sequence) == (if WithinCapacity(e) then Ok(e.(sequence := d.sequence + 1)) else Refused(StoreFull))
  {
    ApplyIsSound(d, op);
    SoundGives(d, Apply(d, op).value.document);
    SaveOf(d, Apply(d, op).value.document);
  }

  lemma CommitShape(d: Document, e: Effect)
    requires Commit(d, e).Ok?
    ensures Commit(d, e).value == Done(if e.writes then e.document.(sequence := d.sequence + 1) else d, e.reply)
  {
  }

  /** What a call that returns leaves on disk. */
  lemma CallShape(d: Document, does: Result<Effect>)
    requires CallDoing(d, does).Ok?
    ensures does.Ok?
    ensures CallDoing(d, does).value
            == Done(if does.value.writes then does.value.document.(sequence := d.sequence + 1) else d, does.value.reply)
  {
    CommitShape(d, does.value);
  }

  lemma QuietCall(d: Document, does: Result<Effect>, reply: Reply)
    requires AcceptedDocument(d) && does == Ok(Effect(d, false, reply))
    ensures CallDoing(d, does) == Ok(Done(d, reply))
  {
  }

  lemma SequenceIsAside(e: Document, n: nat)
    ensures Families(e) <==> Families(e.(sequence := n))
    ensures WithinCapacity(e) <==> WithinCapacity(e.(sequence := n))
    ensures forall m :: Reads(e.(sequence := n), m) == Reads(e, m)
    ensures forall m :: HighMark(e.(sequence := n), m) == HighMark(e, m)
  {
  }

  ghost predicate Holding(d: Document) { AcceptedDocument(d) && FloorHolds(d) }

  lemma SoundKeepsHolding(d: Document, e: Document, n: nat)
    requires Holding(d) && SoundStep(d, e) && WithinCapacity(e)
    ensures var d' := e.(sequence := n);
            Holding(d') && History(d, d') && MarksNotLower(d, d')
  {
    var m, read :| Sound(d, e, m, read);
    AdvanceKeepsFloor(d, e, m, read);
    SequenceIsAside(e, n);
    assert History(d, e);
    SameMarks(d, e, n);
  }

  lemma SameMarks(d: Document, e: Document, n: nat)
    requires MarksNotLower(d, e) && FloorHolds(e)
    ensures MarksNotLower(d, e.(sequence := n)) && FloorHolds(e.(sequence := n))
  {
    SequenceIsAside(e, n);
    forall x ensures HighMark(d, x).Ok? && HighMark(e.(sequence := n), x).Ok?
                     && NotLower(HighMark(d, x).value, HighMark(e.(sequence := n), x).value) {
      assert HighMark(e.(sequence := n), x) == HighMark(e, x);
    }
  }

  lemma MarksStand(d: Document)
    requires FloorHolds(d)
    ensures MarksNotLower(d, d)
  {
    forall x ensures HighMark(d, x).Ok? && NotLower(HighMark(d, x).value, HighMark(d, x).value) {
      HighMarkIsFloor(d, x);
    }
  }

  /** A clean call keeps every family rule and the floor, only extends history
      and never lowers a mark. */
  lemma CleanCallKeeps(d: Document, op: Operation)
    requires Holding(d) && CallDoing(d, Apply(d, op)).Ok?
    ensures var d' := CallDoing(d, Apply(d, op)).value.disk;
            && Holding(d') && History(d, d') && MarksNotLower(d, d')
            && d' == (if Apply(d, op).value.writes then d'.(sequence := d.sequence + 1) else d)
  {
    CallShape(d, Apply(d, op));
    if !Apply(d, op).value.writes {
      MarksStand(d);
      HistoryIsReflexive(d);
    } else {
      WritingCallFits(d, op);
      ApplyIsSound(d, op);
      SoundKeepsHolding(d, Apply(d, op).value.document, d.sequence + 1);
    }
  }

  lemma WritingCallFits(d: Document, op: Operation)
    requires AcceptedDocument(d) && FloorHolds(d) && CallDoing(d, Apply(d, op)).Ok? && Apply(d, op).value.writes
    ensures WithinCapacity(Apply(d, op).value.document)
  {
    SaveRefusesOnlyWhenFull(d, op);
  }

  /** However its write ends, a call either leaves the disk as it was or as the
      clean call would; the second with a refusal exactly when its write landed
      and then raised. */
  lemma EndsEitherWay(d: Document, does: Result<Effect>, end: WriteEnd)
    requires CallDoing(d, does).Ok? ==> CallDoing(d, does).value.disk == d || Writes(d, does)
    ensures var e := Finish(d, does, end);
            && (e.disk == d || (CallDoing(d, does).Ok? && e.disk == CallDoing(d, does).value.disk))
            && (e.reply.Ok? <==> CallDoing(d, does).Ok? && (Writes(d, does) ==> end.Landed?))
            && (Writes(d, does) && CallDoing(d, does).value.disk != d && e.reply.Refused? ==> (e.disk == d <==> end.FailedBefore?))
            && (!Writes(d, does) ==> e.disk == d)
  {
  }

  /** Every call, however its write ends, keeps every family rule and the floor,
      only extends history, never lowers a mark, and advances the sequence by one
      if it changes the disk. One that did not succeed left the disk as it was
      exactly when it never came to write or its write failed before landing. */
  lemma CallKeeps(d: Document, c: Invocation)
    requires Holding(d)
    ensures var d' := Call(d, c).disk;
            && Holding(d') && History(d, d') && MarksNotLower(d, d')
            && (d' != d ==> d'.sequence == d.sequence + 1)
    ensures Call(d, c).reply.Refused? ==>
              (Call(d, c).disk == d <==> !Writes(d, Apply(d, c.op)) || c.end.FailedBefore?)
  {
    var does := Apply(d, c.op);
    if CallDoing(d, does).Ok? { CleanCallKeeps(d, c.op); }
    EndsEitherWay(d, does, c.end);
    MarksStand(d);
    HistoryIsReflexive(d);
  }

  // --------------------------------------------------------------------- runs

  lemma DefaultHolds()
    ensures Holding(DEFAULT_DOCUMENT)
  {
    NothingBound(map[]);
    NothingElse(DEFAULT_DOCUMENT);
    NothingRead(DEFAULT_DOCUMENT);
  }

  lemma NothingElse(d: Document)
    requires d.routes == map[] && d.attention == map[] && d.handoffs == map[] && d.rosters == map[]
    ensures AcceptedRoutes(d.routes) && A.AcceptedAttention(d.attention) && H.AcceptedHandoffs(d.handoffs, d.rosters)
  {
  }

  lemma NothingRead(d: Document)
    requires d.bindings == map[] && d.routes == map[] && d.attention == map[] && d.handoffs == map[] && d.rosters == map[]
    ensures FloorHolds(d)
  {
    forall m ensures Consistent(Reads(d, m)) {
      assert Reads(d, m) == {};
    }
  }

  lemma NothingBound(bs: BindingMap)
    requires bs == map[]
    ensures AcceptedBindings(bs)
  {
    assert forall m :: OfMission(bs, bs.Keys, m) == {};
    assert forall c :: OfConversation(bs, bs.Keys, c) == {};
  }

  /** In every run the document stays accepted, any two reads of one Mission at
      one (revision, cursor) are identical, and the mark never refuses. */
  lemma {:induction false} RunHolds(calls: seq<Invocation>)
    ensures Holding(Run(calls))
    ensures forall m :: HighMark(Run(calls), m).Ok? && IsFloor(Reads(Run(calls), m), HighMark(Run(calls), m).value)
  {
    if calls == [] {
      DefaultHolds();
    } else {
      RunHolds(calls[..|calls|-1]);
      CallKeeps(Run(calls[..|calls|-1]), calls[|calls|-1]);
    }
    forall m ensures HighMark(Run(calls), m).Ok? && IsFloor(Reads(Run(calls), m), HighMark(Run(calls), m).value) {
      HighMarkIsFloor(Run(calls), m);
    }
  }

  lemma NotLowerComposes(a: Option<Point>, b: Option<Point>, c: Option<Point>)
    requires NotLower(a, b) && NotLower(b, c)
    ensures NotLower(a, c)
  {
  }

  lemma MarksCompose(a: Document, b: Document, c: Document)
    requires MarksNotLower(a, b) && MarksNotLower(b, c)
    ensures MarksNotLower(a, c)
  {
    forall x ensures HighMark(a, x).Ok? && HighMark(c, x).Ok? && NotLower(HighMark(a, x).value, HighMark(c, x).value) {
      NotLowerComposes(HighMark(a, x).value, HighMark(b, x).value, HighMark(c, x).value);
    }
  }

  /** Over any continuation of a run, history only grows and no mark falls. */
  lemma {:induction false} RunOnlyGrows(calls: seq<Invocation>, k: nat)
    requires k <= |calls|
    ensures History(Run(calls[..k]), Run(calls)) && MarksNotLower(Run(calls[..k]), Run(calls))
    decreases |calls|
  {
    if k == |calls| {
      assert calls[..k] == calls;
      RunHolds(calls);
      MarksStand(Run(calls));
      HistoryIsReflexive(Run(calls));
    } else {
      var init := calls[..|calls|-1];
      assert init[..k] == calls[..k];
      RunOnlyGrows(init, k);
      RunHolds(init);
      CallKeeps(Run(init), calls[|calls|-1]);
      HistoryComposes(Run(calls[..k]), Run(init), Run(calls));
      MarksCompose(Run(calls[..k]), Run(init), Run(calls));
    }
  }

  // ------------------------------------------------------------------ routing

  lemma RouteEffect(d: Document, t: InboundTurn, context: Context, lanes: set<Lane>, answer: Outcome, now: Time, supply: seq<Id>)
    requires ApplyRoute(d, t, context, lanes, answer, now, supply).Ok?
    ensures var e := ApplyRoute(d, t, context, lanes, answer, now, supply).value.document;
            e == d.(routes := e.routes)
  {
    RouteShape(d, t, context, lanes, answer, now, supply);
  }

  /** route changes no other family, whatever it answers and however it ends. */
  lemma RouteLeavesOthers(d: Document, t: InboundTurn, context: Context, lanes: set<Lane>, answer: Outcome, now: Time,
                          supply: seq<Id>, end: WriteEnd)
    ensures var d' := Finish(d, ApplyRoute(d, t, context, lanes, answer, now, supply), end).disk;
            d' == d.(routes := d'.routes, sequence := d'.sequence)
  {
    var does := ApplyRoute(d, t, context, lanes, answer, now, supply);
    if CallDoing(d, does).Ok? {
      CallShape(d, does);
      RouteEffect(d, t, context, lanes, answer, now, supply);
    }
  }

  /** A turn once decided is never decided again: at any later point of any run
      a route call for its identity returns exactly the stored record and
      writes nothing, or refuses. */
  lemma TurnIsDecidedOnce(calls: seq<Invocation>, k: nat, id: Id, t: InboundTurn, context: Context, lanes: set<Lane>,
                          answer: Outcome, now: Time, supply: seq<Id>, end: WriteEnd)
    requires k <= |calls| && id in Run(calls[..k]).routes && ValidTurn(t)
    requires Decides(Run(calls[..k]).routes[id], IdentityOfTurn(t))
    ensures var r := Run(calls[..k]).routes[id];
            Finish(Run(calls), ApplyRoute(Run(calls), t, context, lanes, answer, now, supply), end)
            == Ended(Run(calls), if r.provenance.context != context then Refused(ContextMismatch)
                                 else if r.inbound != t then Refused(IdempotencyConflict)
                                 else Ok(Routed(true, r)))
  {
    var r := Run(calls[..k]).routes[id];
    RunHolds(calls);
    RunOnlyGrows(calls, k);
    assert id in Run(calls).routes && Run(calls).routes[id] == r;
    ReplayCall(Run(calls), id, t, context, lanes, answer, now, supply, end);
  }

  lemma ReplayCall(d: Document, id: Id, t: InboundTurn, context: Context, lanes: set<Lane>, answer: Outcome, now: Time,
                   supply: seq<Id>, end: WriteEnd)
    requires AcceptedDocument(d) && id in d.routes && ValidTurn(t) && Decides(d.routes[id], IdentityOfTurn(t))
    ensures Finish(d, ApplyRoute(d, t, context, lanes, answer, now, supply), end)
            == Ended(d, if d.routes[id].provenance.context != context then Refused(ContextMismatch)
                        else if d.routes[id].inbound != t then Refused(IdempotencyConflict)
                        else Ok(Routed(true, d.routes[id])))
  {
    DecidedIsReplayed(d.routes, t, context, id);
    ReplayEffect(d, t, context, lanes, answer, now, supply);
    QuietFinish(d, ApplyRoute(d, t, context, lanes, answer, now, supply), end);
  }

  lemma QuietFinish(d: Document, does: Result<Effect>, end: WriteEnd)
    requires AcceptedDocument(d) && (does.Ok? ==> !does.value.writes)
    ensures Finish(d, does, end) == Ended(d, if does.Refused? then Refused(does.problem) else Ok(does.value.reply))
  {
  }

  lemma ReplayEffect(d: Document, t: InboundTurn, context: Context, lanes: set<Lane>, answer: Outcome, now: Time, supply: seq<Id>)
    ensures var replay, does := FindReplay(d.routes, t, context), ApplyRoute(d, t, context, lanes, answer, now, supply);
            && (replay.Refused? ==> does == Refused(replay.problem))
            && (replay.Ok? && replay.value.Some? ==> does == Ok(Effect(d, false, Routed(true, replay.value.value))))
  {
  }

  // --------------------------------------------------------------- projection

  lemma {:induction false} ApplyAllTells(w: AO.Work, o: Observation, dest: Destination, live: AO.LiveMap, cs: seq<Condition>, now: Time)
    requires AO.LiveIn(live, w.records) && AO.ApplyAll(w, o, dest, live, cs, now).Ok?
    ensures var w' := AO.ApplyAll(w, o, dest, live, cs, now).value;
            && |w.created| <= |w'.created| && w'.resolved == w.resolved
            && (|w'.created| == |w.created| ==> w'.records == w.records)
    decreases |cs|
  {
    if cs != [] {
      ApplyAllTells(AO.ApplyCondition(w, o, dest, live, cs[0], now).value, o, dest, live, cs[1..], now);
    }
  }

  lemma {:induction false} ResolveAllTells(w: AO.Work, o: Observation, live: AO.LiveMap, ids: seq<ConditionId>, now: Time)
    requires AO.LiveIn(live, w.records) && (forall who :: who in ids ==> who in live) && AO.ResolveAll(w, o, live, ids, now).Ok?
    ensures var w' := AO.ResolveAll(w, o, live, ids, now).value;
            && w'.created == w.created && |w'.resolved| == |w.resolved| + |ids|
            && (ids == [] ==> w' == w)
    decreases |ids|
  {
    if ids != [] {
      ResolveAllTells(AO.ResolveOne(w, o, live, ids[0], now).value, o, live, ids[1..], now);
    }
  }

  /** A projection that reports nothing changed nothing. */
  lemma QuietProjectionChangesNothing(a: A.AttentionMap, m: Id, dest: Destination, looked: FreshnessResult, now: Time, supply: seq<Id>)
    requires AO.Project(a, m, dest, looked, now, supply).Ok?
    ensures var w := AO.Project(a, m, dest, looked, now, supply).value;
            w.created == [] && w.resolved == [] ==> w.records == a
  {
    if AO.IsFresh(looked) {
      var o := looked.observation.value;
      var live, cs := AO.LiveRecords(a, m, dest), AO.SortedConditions(o.conditions);
      var w := AO.NoWork(a, supply);
      ApplyAllTells(w, o, dest, live, cs, now);
      ResolveAllTells(AO.ApplyAll(w, o, dest, live, cs, now).value, o, live, AO.Unseen(live, cs), now);
    }
  }

  lemma ProjectShape(d: Document, m: Id, dest: Destination, answer: Outcome, now: Time, supply: seq<Id>) returns (w: AO.Work)
    requires ApplyProject(d, m, dest, answer, now, supply).Ok? && Look(d, m, answer, now).Ok?
    ensures AO.Project(d.attention, m, dest, Look(d, m, answer, now).value, now, supply) == Ok(w)
    ensures ApplyProject(d, m, dest, answer, now, supply).value == ProjectedEffect(d, Look(d, m, answer, now).value.freshness, w)
  {
    w := AO.Project(d.attention, m, dest, Look(d, m, answer, now).value, now, supply).value;
  }

  /** After a call that projects a FRESH observation, the document on disk shows
      exactly the observed conditions. */
  lemma ProjectedOnDisk(d: Document, m: Id, dest: Destination, answer: Outcome, now: Time, supply: seq<Id>)
    requires Holding(d) && CallDoing(d, ApplyProject(d, m, dest, answer, now, supply)).Ok?
    requires Look(d, m, answer, now).Ok? && AO.IsFresh(Look(d, m, answer, now).value)
    ensures AL.ProjectsExactly(CallDoing(d, ApplyProject(d, m, dest, answer, now, supply)).value.disk.attention,
                               Look(d, m, answer, now).value.observation.value, dest)
  {
    LookIsSound(d, m, answer, now);
    var looked := Look(d, m, answer, now).value;
    var w := ProjectCall(d, m, dest, answer, now, supply);
    ProjectionShows(d.attention, m, dest, looked, now, supply, w);
  }

  /** What a projecting call leaves of the presentation records. */
  lemma ProjectCall(d: Document, m: Id, dest: Destination, answer: Outcome, now: Time, supply: seq<Id>) returns (w: AO.Work)
    requires CallDoing(d, ApplyProject(d, m, dest, answer, now, supply)).Ok? && Look(d, m, answer, now).Ok?
    ensures AO.Project(d.attention, m, dest, Look(d, m, answer, now).value, now, supply) == Ok(w)
    ensures var a := CallDoing(d, ApplyProject(d, m, dest, answer, now, supply)).value.disk.attention;
            a == w.records || (a == d.attention && w.created == [] && w.resolved == [])
  {
    CallShape(d, ApplyProject(d, m, dest, answer, now, supply));
    w := ProjectShape(d, m, dest, answer, now, supply);
    EffectOfProjection(d, Look(d, m, answer, now).value.freshness, w);
  }

  lemma EffectOfProjection(d: Document, freshness: Freshness, w: AO.Work)
    ensures var e := ProjectedEffect(d, freshness, w);
            e.document == d.(attention := w.records) && (!e.writes ==> w.created == [] && w.resolved == [])
  {
  }

  lemma ProjectionShows(a: A.AttentionMap, m: Id, dest: Destination, looked: FreshnessResult, now: Time, supply: seq<Id>, w: AO.Work)
    requires A.AcceptedAttention(a) && AO.IsFresh(looked) && ValidObservation(looked.observation.value)
    requires AO.Project(a, m, dest, looked, now, supply) == Ok(w)
    ensures AL.ProjectsExactly(w.records, looked.observation.value, dest)
    ensures w.created == [] && w.resolved == [] ==> w.records == a
  {
    AL.ProjectionIsExact(a, m, dest, looked, now, supply);
    QuietProjectionChangesNothing(a, m, dest, looked, now, supply);
  }

  /** Projecting the same observation again, still FRESH, creates, obsoletes and
      resolves nothing, and writes nothing. */
  lemma ProjectingAgainWritesNothing(d: Document, dest: Destination, o: Observation, now: Time, supply: seq<Id>)
    requires Holding(d) && ValidObservation(o) && AL.ProjectsExactly(d.attention, o, dest)
    requires Look(d, o.missionId, Observed(o), now) == Ok(FreshnessResult(Fresh, Some(o)))
    ensures var r := CallDoing(d, ApplyProject(d, o.missionId, dest, Observed(o), now, supply));
            && r.Ok? && r.value.disk == d && r.value.reply.Projected?
            && r.value.reply.work.created == [] && r.value.reply.work.obsoleted == [] && r.value.reply.work.resolved == []
  {
    AL.ProjectionIsIdempotent(d.attention, o, dest, now, supply);
    var w := AO.Project(d.attention, o.missionId, dest, FreshnessResult(Fresh, Some(o)), now, supply).value;
    ProjectGives(d, o.missionId, dest, Observed(o), now, supply, FreshnessResult(Fresh, Some(o)), w);
    IdleEffect(d, w);
    QuietCall(d, ApplyProject(d, o.missionId, dest, Observed(o), now, supply), Projected(Fresh, w));
  }

  lemma ProjectGives(d: Document, m: Id, dest: Destination, answer: Outcome, now: Time, supply: seq<Id>,
                     looked: FreshnessResult, w: AO.Work)
    requires Look(d, m, answer, now) == Ok(looked) && AO.Project(d.attention, m, dest, looked, now, supply) == Ok(w)
    ensures ApplyProject(d, m, dest, answer, now, supply) == Ok(ProjectedEffect(d, looked.freshness, w))
  {
  }

  lemma IdleEffect(d: Document, w: AO.Work)
    requires w.records == d.attention && w.created == [] && w.obsoleted == [] && w.resolved == []
    ensures ProjectedEffect(d, Fresh, w) == Effect(d, false, Projected(Fresh, w))
  {
    assert d.(attention := d.attention) == d;
  }
}
