/** Rosters and handoffs in plain readings of their fields: what an accepted
    record says, who may mark it, and what creating one writes
    (coordination/handoff.py). */
module HandoffFields {
  import opened Record
  import opened Observations
  import opened ObservationFields
  import opened Sorting
  import opened Handoffs
  import opened HandoffOps
  import opened HandoffLaws
  import opened HandoffSuccess

  // ------------------------------------------------------------ plain readings

  predicate Live(s: HandoffStatus) { s in {Open, Accepted} }

  /** OPEN may be accepted, declined or withdrawn, ACCEPTED answered or withdrawn. */
  predicate Wired(s: HandoffStatus, t: HandoffStatus) {
    (s == Open && t in {Accepted, Declined, Withdrawn}) || (s == Accepted && t in {Answered, Withdrawn})
  }

  /** Withdrawing is the act of the source; accepting, answering and declining
      are those of the destination. */
  predicate ActsAs(h: Handoff, status: HandoffStatus, actor: Participant) {
    (status.Withdrawn? && actor == h.source) || ((status.Accepted? || status.Answered? || status.Declined?) && actor == h.destination)
  }

  predicate PlainPoint(p: Point) { 1 <= p.revision && WrittenCursor(p.cursor) }

  /** Bounded citations of one kind, each at a level of that kind, by ascending id. */
  predicate PlainCitations(cs: seq<Citation>, evidence: bool) {
    && |cs| <= 64
    && (forall i :: 0 <= i < |cs| ==>
          && cs[i].reference.EvidenceId? == evidence
          && (cs[i].level == ACCEPTED ==> evidence) && (cs[i].level == VALIDATED ==> !evidence))
    && (forall i, j :: 0 <= i < j < |cs| ==> cs[i].reference.n < cs[j].reference.n)
  }

  lemma TablesOnFields(h: Handoff, s: HandoffStatus, t: HandoffStatus, actor: Participant)
    ensures TerminalStatus(s) <==> !Live(s)
    ensures StatusMayBecome(s, t) <==> Wired(s, t)
    ensures Wired(s, t) ==> (actor == ActorOf(h, t) <==> ActsAs(h, t, actor))
  {
  }

  lemma CitationsShape(cs: seq<Citation>, evidence: bool)
    ensures CitationListProblem(cs, evidence).None? <==> PlainCitations(cs, evidence)
  {
    forall i | 0 <= i < |cs| && cs[i].reference.EvidenceId? == evidence
      ensures LevelApplies(cs[i].reference, cs[i].level)
              <==> (cs[i].level == ACCEPTED ==> evidence) && (cs[i].level == VALIDATED ==> !evidence)
    {
    }
  }

  lemma PointShape(p: Point)
    ensures ValidPoint(p) <==> PlainPoint(p)
  {
    CursorOnFields(p.cursor);
  }

  // ------------------------------------------------------------ what is recorded

  /** The first entry: the request, opened by its source. */
  predicate Opens(h: Handoff, e: Transition) {
    e.status == Open && e.actor == h.source && e.at == h.createdAt && e.point == h.point
  }

  /** An entry that follows another: a wired change by its own actor, read at the
      handoff's own revision and proposal, not before the last in time or cursor. */
  predicate Continues(h: Handoff, last: Transition, e: Transition) {
    && Wired(last.status, e.status) && ActsAs(h, e.status, e.actor)
    && PlainPoint(e.point) && e.point.revision == h.revision && e.point.proposal == h.proposal
    && CursorValue(last.point.cursor) <= CursorValue(e.point.cursor) && last.at <= e.at
  }

  /** Its content, restated as what a forward repeats. */
  predicate Carries(c: Content, h: Handoff) {
    && c.missionId == h.missionId && c.revision == h.revision && c.source == h.source && c.destination == h.destination
    && c.purpose == h.purpose && c.requestText == h.requestText && c.evidence == h.evidence && c.artifacts == h.artifacts
    && c.parent == h.parent
  }

  predicate PlainFields(h: Handoff) {
    && 1 <= h.revision && h.source != h.destination
    && PlainCitations(h.evidence, true) && PlainCitations(h.artifacts, false) && Carries(h.contentDigest, h)
    && h.depth <= 4 && (h.parent.Some? <==> h.depth > 0) && (h.parent.Some? <==> h.parentDigest.Some?) && h.parent != Some(h.handoffId)
    && PlainPoint(h.point) && 1 <= |h.transitions| <= 8
  }

  predicate PlainWalk(h: Handoff)
    requires h.transitions != []
  {
    && Opens(h, h.transitions[0])
    && (forall k :: 0 < k < |h.transitions| ==> Continues(h, h.transitions[k - 1], h.transitions[k]))
    && h.transitions[|h.transitions|-1].status == h.status && h.transitions[|h.transitions|-1].at == h.updatedAt
  }

  predicate PlainOrigin(h: Handoff) {
    && h.point.revision == h.revision && h.point.proposal == h.proposal
    && h.provenance.receivedAt == h.createdAt && h.provenance.observedRevision == Some(h.revision)
    && h.provenance.cursor == Some(h.point.cursor)
  }

  predicate PlainHandoff(h: Handoff) { PlainFields(h) && PlainWalk(h) && PlainOrigin(h) }

  lemma FieldsExactly(h: Handoff)
    ensures FieldsProblem(h).None? <==> PlainFields(h)
  {
    CitationsShape(h.evidence, true);
    CitationsShape(h.artifacts, false);
    PointShape(h.point);
    assert h.contentDigest == ContentOf(h) <==> Carries(h.contentDigest, h);
  }

  lemma EntryExactly(h: Handoff, k: nat)
    requires k < |h.transitions| && PlainPoint(h.point) && SameProposal(h, h.point)
    ensures TransitionProblem(h, k).None?
            <==> if k == 0 then Opens(h, h.transitions[0]) else Continues(h, h.transitions[k - 1], h.transitions[k])
  {
    PointShape(h.transitions[k].point);
    if k > 0 { TablesOnFields(h, h.transitions[k - 1].status, h.transitions[k].status, h.transitions[k].actor); }
  }

  lemma WalkExactly(h: Handoff)
    requires h.transitions != [] && PlainPoint(h.point) && SameProposal(h, h.point)
    ensures TransitionsProblem(h, 0).None? && EndsAsRecorded(h) <==> PlainWalk(h)
  {
    TransitionsProblemNone(h, 0);
    if TransitionsProblem(h, 0).None? {
      EntryExactly(h, 0);
      forall k | 0 < k < |h.transitions| ensures Continues(h, h.transitions[k - 1], h.transitions[k]) { EntryExactly(h, k); }
    }
    if PlainWalk(h) {
      forall k | 0 <= k < |h.transitions| ensures TransitionProblem(h, k).None? { EntryExactly(h, k); }
    }
  }

  /** A record passes every check exactly when it reads so: a request its source
      opened, each later entry the act of its own actor. */
  lemma RecordedExactly(h: Handoff)
    ensures ValidHandoff(h) <==> PlainHandoff(h)
  {
    FieldsExactly(h);
    if PlainFields(h) && SameProposal(h, h.point) { WalkExactly(h); }
  }

  /** In an accepted document every entry is the act of its own actor: the first
      of the source, a withdrawal of the source, any other of the destination. */
  lemma EveryEntryIsItsActors(m: HandoffMap, rosters: RosterMap, k: Id)
    requires AcceptedHandoffs(m, rosters) && k in m
    ensures PlainHandoff(m[k])
    ensures m[k].transitions != [] && m[k].transitions[0].status.Open? && m[k].transitions[0].actor == m[k].source
    ensures forall i :: 0 < i < |m[k].transitions| ==> ActsAs(m[k], m[k].transitions[i].status, m[k].transitions[i].actor)
  {
    assert HandoffOk(rosters, m[k], k);
    RecordedExactly(m[k]);
    var ts := m[k].transitions;
    forall i | 0 < i < |ts| ensures ActsAs(m[k], ts[i].status, ts[i].actor) { assert Continues(m[k], ts[i - 1], ts[i]); }
  }

  // ---------------------------------------------------------- accepted documents

  predicate OnBothRosters(rosters: RosterMap, h: Handoff) {
    && h.missionId in rosters && h.source in rosters[h.missionId].participants && h.destination in rosters[h.missionId].participants
  }

  predicate PlainRoster(r: Roster) {
    && 1 <= |r.participants| <= 16
    && (forall i, j :: 0 <= i < j < |r.participants| ==> ParticipantRank(r.participants[i]) < ParticipantRank(r.participants[j]))
    && 1 <= r.revision && PlainPoint(r.point) && r.point.revision == r.revision
  }

  /** A forward repeats its parent's content one level deeper, from its
      addressee, to someone nowhere on the chain above it. */
  ghost predicate ForwardsParent(m: HandoffMap, h: Handoff)
    requires Rooted(m)
  {
    h.parent.Some? ==>
      && h.parent.value in m
      && var parent, path := m[h.parent.value], RootPath(m, h.parent.value);
         && parent.missionId == h.missionId && h.parentDigest == Some(parent.contentDigest) && h.source == parent.destination
         && parent.revision == h.revision && parent.proposal == h.proposal && h.depth == parent.depth + 1
         && m[path[0]].source != h.destination && forall i :: 0 <= i < |path| ==> m[path[i]].destination != h.destination
  }

  predicate ReusesKey(a: Handoff, b: Handoff) { a.missionId == b.missionId && a.idempotencyKey == b.idempotencyKey }

  /** Two live requests of a Mission for one content. */
  predicate AskTheSame(a: Handoff, b: Handoff) {
    Live(a.status) && Live(b.status) && a.missionId == b.missionId && a.contentDigest == b.contentDigest
  }

  /** Rosters and records read so, under their own keys; a key and a live
      content are used once; every forward continues its parent. */
  ghost predicate PlainDocument(m: HandoffMap, rosters: RosterMap) {
    && (forall k :: k in rosters ==> PlainRoster(rosters[k]) && rosters[k].missionId == k)
    && (forall k :: k in m ==> PlainHandoff(m[k]) && m[k].handoffId == k && OnBothRosters(rosters, m[k]))
    && (forall j, k :: j in m && k in m && ReusesKey(m[j], m[k]) ==> j == k)
    && (forall j, k :: j in m && k in m && AskTheSame(m[j], m[k]) ==> j == k)
    && Rooted(m) && forall k :: k in m ==> ForwardsParent(m, m[k])
  }

  lemma PartiesOnFields(m: HandoffMap, path: seq<Id>, p: Participant)
    requires InDocument(m, path)
    ensures p in PathParties(m, path) <==> m[path[0]].source == p || exists i :: 0 <= i < |path| && m[path[i]].destination == p
  {
    var ds := Destinations(m, path);
    if p in ds { var i :| 0 <= i < |ds| && ds[i] == p; }
    forall i | 0 <= i < |path| ensures m[path[i]].destination in ds { assert ds[i] in ds; }
  }

  lemma LinkExactly(m: HandoffMap, h: Handoff)
    requires Rooted(m)
    ensures LinkProblem(m, h).None? <==> ForwardsParent(m, h)
  {
    if h.parent.Some? && h.parent.value in m {
      ChainIsRootPath(m, h.parent.value);
      PartiesOnFields(m, RootPath(m, h.parent.value), h.destination);
    }
  }

  lemma RosterExactly(r: Roster)
    ensures RosterProblem(r).None? <==> PlainRoster(r)
  {
    PointShape(r.point);
  }

  lemma RecordsExactly(m: HandoffMap, rosters: RosterMap)
    ensures HandoffsOk(m, rosters, m.Keys) <==>
              forall k :: k in m ==> PlainHandoff(m[k]) && m[k].handoffId == k && OnBothRosters(rosters, m[k])
  {
    forall k | k in m ensures HandoffOk(rosters, m[k], k) <==> PlainHandoff(m[k]) && m[k].handoffId == k && OnBothRosters(rosters, m[k]) {
      RecordedExactly(m[k]);
    }
  }

  lemma PairsExactly(m: HandoffMap)
    ensures OneKey(m, m.Keys) <==> forall j, k :: j in m && k in m && ReusesKey(m[j], m[k]) ==> j == k
    ensures OneEffect(m, m.Keys) <==> forall j, k :: j in m && k in m && AskTheSame(m[j], m[k]) ==> j == k
  {
    forall j, k | j in m && k in m
      ensures SameKey(m[j], m[k]) <==> ReusesKey(m[j], m[k])
      ensures SameEffect(m[j], m[k]) <==> AskTheSame(m[j], m[k])
    {
    }
  }

  lemma LinksExactly(m: HandoffMap)
    requires Rooted(m)
    ensures Linked(m) <==> forall k :: k in m ==> ForwardsParent(m, m[k])
  {
    forall k | k in m ensures LinkProblem(m, m[k]).None? <==> ForwardsParent(m, m[k]) { LinkExactly(m, m[k]); }
  }

  /** The loader accepts exactly the documents that read so. */
  lemma AcceptedExactly(m: HandoffMap, rosters: RosterMap)
    ensures AcceptedHandoffs(m, rosters) <==> PlainDocument(m, rosters)
  {
    forall k | k in rosters ensures RosterOk(rosters[k], k) <==> PlainRoster(rosters[k]) && rosters[k].missionId == k { RosterExactly(rosters[k]); }
    RecordsExactly(m, rosters);
    PairsExactly(m);
    if AcceptedHandoffs(m, rosters) { AcceptedIsRooted(m, rosters); }
    if Rooted(m) { LinksExactly(m); }
  }

  // ------------------------------------------------------------- status changes

  /** This FRESH read is of the handoff's Mission, at its own revision and
      proposal, backs everything it cites, and is not behind its last entry. */
  ghost predicate Rereads(h: Handoff, looked: FreshnessResult) {
    && looked.freshness == Fresh && looked.observation.Some?
    && var o := looked.observation.value;
       && o.missionId == h.missionId && o.currentRevision == h.revision && o.proposal == h.proposal
       && AllBacked(o, h.evidence + h.artifacts)
       && (h.transitions != [] ==> CursorValue(h.transitions[|h.transitions|-1].point.cursor) <= CursorValue(o.stateCursor))
  }

  /** One entry more, and the status it records; nothing else changes. */
  predicate MarkedAs(h: Handoff, h': Handoff, status: HandoffStatus, actor: Participant, o: Observation, now: Time, context: Context) {
    && h' == h.(transitions := h'.transitions, status := status, updatedAt := now)
    && |h'.transitions| == |h.transitions| + 1 && h.transitions <= h'.transitions
    && var e := h'.transitions[|h.transitions|];
       e.status == status && e.at == now && e.actor == actor && e.recordedBy == context && PointAt(e.point, o)
  }

  lemma MovedOnFields(h: Handoff, status: HandoffStatus, actor: Participant, o: Observation, now: Time, context: Context)
    ensures MarkedAs(h, Moved(h, status, actor, o, now, context), status, actor, o, now, context)
  {
  }

  lemma MoveOnFields(h: Handoff, status: HandoffStatus, actor: Participant, looked: FreshnessResult, now: Time)
    requires looked.observation.Some? && WellReported(looked.observation.value)
    ensures RequireFresh(looked, h.missionId).Ok? && MoveProblem(h, status, actor, looked.observation.value, now).None?
            <==> Rereads(h, looked) && h.updatedAt <= now
  {
    RequireFreshExactly(looked, h.missionId);
    CitationsOnFields(looked.observation.value, h.evidence + h.artifacts);
  }

  lemma MayMoveExactly(m: HandoffMap, id: Id, status: HandoffStatus, actor: Participant, looked: FreshnessResult, now: Time)
    requires looked.observation.Some? ==> WellReported(looked.observation.value)
    ensures MayMove(m, id, status, actor, looked, now)
            <==> && id in m && Wired(m[id].status, status) && ActsAs(m[id], status, actor)
                 && Rereads(m[id], looked) && m[id].updatedAt <= now
  {
    if id in m {
      TablesOnFields(m[id], m[id].status, status, actor);
      RequireFreshExactly(looked, m[id].missionId);
      if looked.observation.Some? { MoveOnFields(m[id], status, actor, looked, now); }
    }
  }

  /** A status change goes through exactly when it is wired, made by its own
      actor, under a FRESH read that proves the handoff again, the clock not
      behind it; it then writes one entry and the status, and nothing else. */
  lemma TransitionsExactly(m: HandoffMap, rosters: RosterMap, id: Id, status: HandoffStatus, actor: Participant,
                           looked: FreshnessResult, now: Time, context: Context)
    requires AcceptedHandoffs(m, rosters) && (looked.observation.Some? ==> ValidObservation(looked.observation.value))
    ensures var r := TransitionHandoff(m, id, status, actor, looked, now, context);
            && (r.Ok? <==> && id in m && Wired(m[id].status, status) && ActsAs(m[id], status, actor)
                           && Rereads(m[id], looked) && m[id].updatedAt <= now)
            && (r.Ok? ==> && id in r.value && r.value == m[id := r.value[id]]
                          && MarkedAs(m[id], r.value[id], status, actor, looked.observation.value, now, context))
  {
    if looked.observation.Some? { ValidExactly(looked.observation.value); }
    MayMoveExactly(m, id, status, actor, looked, now);
    if MayMove(m, id, status, actor, looked, now) {
      MayMoveReads(m, id, status, actor, looked, now);
      TransitionKeeps(m, rosters, id, status, actor, looked, now, context);
      MovedOnFields(m[id], status, actor, looked.observation.value, now, context);
    } else {
      RefusedOtherwise(m, id, status, actor, looked, now, context);
    }
  }

  lemma MayMoveReads(m: HandoffMap, id: Id, status: HandoffStatus, actor: Participant, looked: FreshnessResult, now: Time)
    requires MayMove(m, id, status, actor, looked, now)
    ensures looked.observation.Some?
  {
    RequireFreshExactly(looked, m[id].missionId);
  }

  // ------------------------------------------------------------------- rosters

  /** A roster as it is registered. */
  predicate RegisteredAs(r: Roster, mission: Id, participants: seq<Participant>, o: Observation, now: Time, context: Context) {
    && r.missionId == mission && r.participants == participants && r.revision == o.currentRevision
    && r.registeredAt == now && r.registeredBy == context && PointAt(r.point, o)
  }

  /** Registering a roster writes exactly that roster, under a FRESH read, for 1
      to 16 participants in order that drop no one a recorded handoff names. */
  lemma RegistersExactly(m: HandoffMap, rosters: RosterMap, mission: Id, participants: seq<Participant>,
                         looked: FreshnessResult, now: Time, context: Context)
    requires looked.observation.Some? ==> ValidObservation(looked.observation.value)
    ensures var r := SetRoster(m, rosters, mission, participants, looked, now, context);
            && (r.Ok? <==> && looked.freshness == Fresh && looked.observation.Some? && looked.observation.value.missionId == mission
                           && 1 <= |participants| <= 16
                           && (forall i, j :: 0 <= i < j < |participants| ==> ParticipantRank(participants[i]) < ParticipantRank(participants[j]))
                           && forall k :: k in m && m[k].missionId == mission ==>
                                m[k].source in participants && m[k].destination in participants)
            && (r.Ok? ==> && mission in r.value && r.value == rosters[mission := r.value[mission]]
                          && RegisteredAs(r.value[mission], mission, participants, looked.observation.value, now, context))
  {
    SetRosterSucceedsExactly(m, rosters, mission, participants, looked, now, context);
  }

  // ------------------------------------------------------------------ creation

  /** A parent that may be forwarded: OPEN, ACCEPTED or ANSWERED, fewer than 4
      forwards deep. */
  predicate MayForward(m: HandoffMap, parent: Option<Id>) {
    parent.Some? ==>
      && parent.value in m && m[parent.value].depth < 4
      && (m[parent.value].status.Open? || m[parent.value].status.Accepted? || m[parent.value].status.Answered?)
  }

  /** The forward continues its parent, to someone nowhere on the chain above it. */
  ghost predicate Extends(m: HandoffMap, q: Request, o: Observation)
    requires Rooted(m)
  {
    q.parent.Some? && q.parent.value in m ==>
      var parent, path := m[q.parent.value], RootPath(m, q.parent.value);
      && parent.missionId == q.missionId && q.source == parent.destination
      && parent.revision == o.currentRevision && parent.proposal == o.proposal
      && m[path[0]].source != q.destination && forall i :: 0 <= i < |path| ==> m[path[i]].destination != q.destination
  }

  /** The content asked for, under this read. */
  predicate AskedContent(c: Content, q: Request, o: Observation) {
    && c.missionId == q.missionId && c.revision == o.currentRevision && c.source == q.source && c.destination == q.destination
    && c.purpose == q.purpose && c.requestText == q.requestText && c.evidence == q.evidence && c.artifacts == q.artifacts
    && c.parent == q.parent
  }

  ghost predicate KeyTaken(m: HandoffMap, q: Request) {
    exists k :: k in m && m[k].missionId == q.missionId && m[k].idempotencyKey == q.idempotencyKey
  }

  /** The key stands for this very content; or it is unused, no live record asks
      for the same, and the forward continues its parent. */
  ghost predicate Admits(m: HandoffMap, q: Request, o: Observation)
    requires Rooted(m)
  {
    if KeyTaken(m, q) then
      forall k :: k in m && m[k].missionId == q.missionId && m[k].idempotencyKey == q.idempotencyKey ==> AskedContent(m[k].contentDigest, q, o)
    else
      && (forall k :: k in m && m[k].missionId == q.missionId && Live(m[k].status) ==> !AskedContent(m[k].contentDigest, q, o))
      && Extends(m, q, o)
  }

  /** A handoff as it is first written: what was asked, OPEN, one entry. */
  ghost predicate RequestedAs(c: Handoff, m: HandoffMap, id: Id, q: Request, o: Observation, now: Time, context: Context) {
    && c.handoffId == id && c.missionId == q.missionId && c.revision == o.currentRevision && c.proposal == o.proposal
    && c.source == q.source && c.destination == q.destination && c.purpose == q.purpose && c.requestText == q.requestText
    && c.evidence == q.evidence && c.artifacts == q.artifacts && c.idempotencyKey == q.idempotencyKey
    && AskedContent(c.contentDigest, q, o) && c.parent == q.parent
    && (q.parent.None? ==> c.depth == 0 && c.parentDigest.None?)
    && (q.parent.Some? ==> q.parent.value in m && c.depth == m[q.parent.value].depth + 1
                           && c.parentDigest == Some(m[q.parent.value].contentDigest))
    && c.status == Open && c.createdAt == now && c.updatedAt == now && PointAt(c.point, o)
    && |c.transitions| == 1 && Opens(c, c.transitions[0]) && c.transitions[0].recordedBy == context
    && c.provenance.context == context && c.provenance.receivedAt == now
    && c.provenance.observedRevision == Some(o.currentRevision) && c.provenance.cursor == Some(o.stateCursor)
  }

  lemma AskedExactly(c: Content, q: Request, o: Observation)
    ensures c == Asked(q, o) <==> AskedContent(c, q, o)
  {
  }

  lemma ExtendsExactly(m: HandoffMap, q: Request, o: Observation)
    requires Rooted(m)
    ensures ContinuesParent(m, q, o) <==> Extends(m, q, o)
  {
    if q.parent.Some? && q.parent.value in m {
      var path := RootPath(m, q.parent.value);
      ChainIsRootPath(m, q.parent.value);
      PartiesOnFields(m, path, q.destination);
    }
  }

  lemma KeyAdmitsOnFields(m: HandoffMap, q: Request, o: Observation)
    requires Rooted(m)
    ensures KeyAdmits(m, q, o) <==> Admits(m, q, o)
  {
    ExtendsExactly(m, q, o);
    forall k | k in m
      ensures (UsesKey(m[k], q.missionId, q.idempotencyKey) <==> m[k].missionId == q.missionId && m[k].idempotencyKey == q.idempotencyKey)
      ensures (m[k].contentDigest == Asked(q, o) <==> AskedContent(m[k].contentDigest, q, o))
      ensures TerminalStatus(m[k].status) <==> !Live(m[k].status)
    {
      AskedExactly(m[k].contentDigest, q, o);
    }
  }

  lemma WellFormedOnFields(q: Request)
    ensures WellFormed(q) <==> q.source != q.destination && PlainCitations(q.evidence, true) && PlainCitations(q.artifacts, false)
  {
    CitationsShape(q.evidence, true);
    CitationsShape(q.artifacts, false);
  }

  lemma ProvenOnFields(o: Observation, cs: seq<Citation>)
    requires WellReported(o)
    ensures Proven(o, cs) <==> AllBacked(o, cs)
  {
    CitationsProven(o, cs);
    CitationsOnFields(o, cs);
  }

  /** What creating a handoff asks, in the fields of the request, the document
      and the read. */
  ghost predicate MayCreate(m: HandoffMap, rosters: RosterMap, q: Request, looked: FreshnessResult)
    requires Rooted(m)
  {
    && looked.freshness == Fresh && looked.observation.Some? && looked.observation.value.missionId == q.missionId
    && q.missionId in rosters && q.source in rosters[q.missionId].participants && q.destination in rosters[q.missionId].participants
    && MayForward(m, q.parent) && q.source != q.destination
    && PlainCitations(q.evidence, true) && PlainCitations(q.artifacts, false)
    && AllBacked(looked.observation.value, q.evidence + q.artifacts) && Admits(m, q, looked.observation.value)
  }

  /** A handoff is created, or its recorded one returned, exactly when the fields
      of the request, the document and the read allow it. */
  lemma CreatesExactly(m: HandoffMap, rosters: RosterMap, id: Id, q: Request, looked: FreshnessResult, now: Time, context: Context)
    requires AcceptedHandoffs(m, rosters) && id !in m
    requires looked.observation.Some? ==> ValidObservation(looked.observation.value)
    ensures Rooted(m)
    ensures CreateHandoff(m, rosters, id, q, looked, now, context).Ok? <==> MayCreate(m, rosters, q, looked)
  {
    CreateSucceedsExactly(m, rosters, id, q, looked, now, context);
    WellFormedOnFields(q);
    if looked.observation.Some? {
      ValidExactly(looked.observation.value);
      ProvenOnFields(looked.observation.value, q.evidence + q.artifacts);
      KeyAdmitsOnFields(m, q, looked.observation.value);
    }
  }

  /** With its key taken the one record that used it is returned and nothing
      changes; otherwise exactly the record asked for is added. */
  ghost predicate CreatedAs(m: HandoffMap, r: Creation, id: Id, q: Request, o: Observation, now: Time, context: Context) {
    if KeyTaken(m, q) then
      && r.handoffs == m
      && exists k :: k in m && m[k] == r.record && m[k].missionId == q.missionId && m[k].idempotencyKey == q.idempotencyKey
    else
      id !in m && r.handoffs == m[id := r.record] && RequestedAs(r.record, m, id, q, o, now, context)
  }

  lemma BuiltOnFields(m: HandoffMap, id: Id, q: Request, o: Observation, now: Time, context: Context)
    requires BuildCandidate(m, id, q, o, now, context).Ok?
    ensures RequestedAs(BuildCandidate(m, id, q, o, now, context).value, m, id, q, o, now, context)
  {
  }

  lemma KeyFoundOnFields(m: HandoffMap, q: Request)
    ensures KeyTaken(m, q) <==> FindKey(m, Sorted(m.Keys), q.missionId, q.idempotencyKey).Some?
    ensures KeyTaken(m, q) ==>
              exists k :: k in m && m[k] == FindKey(m, Sorted(m.Keys), q.missionId, q.idempotencyKey).value
                          && m[k].missionId == q.missionId && m[k].idempotencyKey == q.idempotencyKey
  {
    var found := FindKey(m, Sorted(m.Keys), q.missionId, q.idempotencyKey);
    if found.None? {
      NoneUses(m, q.missionId, q.idempotencyKey);
      forall k | k in m ensures !(m[k].missionId == q.missionId && m[k].idempotencyKey == q.idempotencyKey) {
        assert !UsesKey(m[k], q.missionId, q.idempotencyKey);
      }
    } else {
      var k :| k in Sorted(m.Keys) && m[k] == found.value && UsesKey(m[k], q.missionId, q.idempotencyKey);
      assert k in m;
    }
  }

  lemma AdmittedOnFields(m: HandoffMap, c: Handoff, id: Id, q: Request, o: Observation, now: Time, context: Context)
    requires AdmitCandidate(m, c, o).Ok? && RequestedAs(c, m, id, q, o, now, context)
    ensures CreatedAs(m, AdmitCandidate(m, c, o).value, id, q, o, now, context)
  {
    AdmitShape(m, c, o);
    KeyFoundOnFields(m, q);
    if !KeyTaken(m, q) { InsertNewShape(m, c); }
  }

  lemma CreationOnFields(m: HandoffMap, rosters: RosterMap, id: Id, q: Request, looked: FreshnessResult, now: Time, context: Context)
    requires CreateHandoff(m, rosters, id, q, looked, now, context).Ok?
    ensures looked.observation.Some?
    ensures CreatedAs(m, CreateHandoff(m, rosters, id, q, looked, now, context).value, id, q, looked.observation.value, now, context)
  {
    CreateShape(m, rosters, id, q, looked, now, context);
    var o := looked.observation.value;
    BuiltOnFields(m, id, q, o, now, context);
    AdmittedOnFields(m, BuildCandidate(m, id, q, o, now, context).value, id, q, o, now, context);
  }

  // ------------------------------------------------------------------ refusals

  /** What a look that is not FRESH, or not of this Mission, is refused with. */
  function NotFresh(looked: FreshnessResult): Problem {
    match looked.freshness
    case Stale => ObservationStale
    case Inconsistent => ObservationInconsistent
    case Absent => MissionNotObserved
    case Unavailable => ObservationUnavailable
    case Fresh => if looked.observation.None? then ObservationUnavailable else MissionMismatch
  }

  predicate SeesFresh(looked: FreshnessResult, mission: Id) {
    looked.freshness == Fresh && looked.observation.Some? && looked.observation.value.missionId == mission
  }

  /** What a citation that is not backed is refused with: its record is there but
      proves less, or is not there at all. */
  function Unproven(o: Observation, c: Citation): Problem {
    if exists r :: r in o.evidence + o.artifacts && HasId(r, c.reference) then ReferenceNotProven else ReferenceNotMissionLocal
  }

  /** The refusal is that of the first citation the observation does not back. */
  ghost predicate FirstUnbacked(o: Observation, cs: seq<Citation>, why: Problem) {
    exists i :: 0 <= i < |cs| && !Backed(o, cs[i]) && (forall j :: 0 <= j < i ==> Backed(o, cs[j])) && why == Unproven(o, cs[i])
  }

  predicate LevelsFit(cs: seq<Citation>) {
    forall i :: 0 <= i < |cs| ==>
      && (cs[i].level == ACCEPTED ==> cs[i].reference.EvidenceId?) && (cs[i].level == VALIDATED ==> cs[i].reference.ArtifactId?)
  }

  lemma CitationRefused(o: Observation, c: Citation)
    requires WellReported(o) && LevelsFit([c]) && CitationProblem(o, c).Some?
    ensures CitationProblem(o, c).value == Unproven(o, c)
  {
    assert LevelApplies(c.reference, c.level) by {
      assert ([c][0].level == ACCEPTED ==> c.reference.EvidenceId?) && ([c][0].level == VALIDATED ==> c.reference.ArtifactId?);
    }
    var found := Lookup(OwnReferences(o), c.reference);
    if found.Some? {
      assert found.value in o.evidence + o.artifacts && HasId(found.value, c.reference);
    } else {
      forall r | r in o.evidence + o.artifacts ensures !HasId(r, c.reference) { assert r in OwnReferences(o); }
    }
  }

  lemma {:induction false} CitationsRefused(o: Observation, cs: seq<Citation>)
    requires WellReported(o) && LevelsFit(cs) && CitationsProblem(o, cs).Some?
    ensures FirstUnbacked(o, cs, CitationsProblem(o, cs).value)
  {
    CitationOnFields(o, cs[0]);
    if CitationProblem(o, cs[0]).Some? {
      CitationRefused(o, cs[0]);
    } else {
      CitationsRefused(o, cs[1..]);
      var i :| 0 <= i < |cs[1..]| && !Backed(o, cs[1..][i]) && (forall j :: 0 <= j < i ==> Backed(o, cs[1..][j]))
        && CitationsProblem(o, cs).value == Unproven(o, cs[1..][i]);
      assert cs[i + 1] == cs[1..][i] && forall j :: 0 < j < i + 1 ==> cs[j] == cs[1..][j - 1];
    }
  }

  /** Why a status change is refused, each cause in its turn. */
  ghost predicate NotMarkedFor(m: HandoffMap, id: Id, status: HandoffStatus, actor: Participant, looked: FreshnessResult, now: Time, why: Problem) {
    if id !in m then why == BadValue
    else if !Wired(m[id].status, status) then why == InvalidTransition
    else if !ActsAs(m[id], status, actor) then why == ParticipantIneligible
    else if !SeesFresh(looked, m[id].missionId) then why == NotFresh(looked)
    else
      var h, o := m[id], looked.observation.value;
      if o.currentRevision != h.revision || o.proposal != h.proposal then why == HandoffStale
      else if !AllBacked(o, h.evidence + h.artifacts) then FirstUnbacked(o, h.evidence + h.artifacts, why)
      else if h.transitions != [] && CursorValue(o.stateCursor) < CursorValue(h.transitions[|h.transitions|-1].point.cursor) then
        why == ObservationStale
      else why == BadValue && now < h.updatedAt
  }

  lemma NotFreshExactly(looked: FreshnessResult, mission: Id)
    ensures RequireFresh(looked, mission) == if SeesFresh(looked, mission) then Ok(looked.observation.value) else Refused(NotFresh(looked))
  {
  }

  lemma CitedLevelsFit(h: Handoff)
    requires PlainFields(h)
    ensures LevelsFit(h.evidence + h.artifacts)
  {
  }

  lemma MoveRefused(h: Handoff, status: HandoffStatus, actor: Participant, o: Observation, now: Time)
    requires WellReported(o) && PlainFields(h) && MoveProblem(h, status, actor, o, now).Some?
    ensures var why, cs := MoveProblem(h, status, actor, o, now).value, h.evidence + h.artifacts;
            if o.currentRevision != h.revision || o.proposal != h.proposal then why == HandoffStale
            else if !AllBacked(o, cs) then FirstUnbacked(o, cs, why)
            else if CursorValue(o.stateCursor) < CursorValue(h.transitions[|h.transitions|-1].point.cursor) then why == ObservationStale
            else why == BadValue && now < h.updatedAt
  {
    CitationsOnFields(o, h.evidence + h.artifacts);
    CitedLevelsFit(h);
    if CitationsProblem(o, h.evidence + h.artifacts).Some? { CitationsRefused(o, h.evidence + h.artifacts); }
  }

  lemma MarkRefusedSteps(m: HandoffMap, id: Id, status: HandoffStatus, actor: Participant, looked: FreshnessResult, now: Time, context: Context)
    requires id in m && Wired(m[id].status, status) && ActsAs(m[id], status, actor) && SeesFresh(looked, m[id].missionId)
    requires MoveProblem(m[id], status, actor, looked.observation.value, now).Some?
    ensures TransitionHandoff(m, id, status, actor, looked, now, context)
            == Refused(MoveProblem(m[id], status, actor, looked.observation.value, now).value)
  {
    TablesOnFields(m[id], m[id].status, status, actor);
    NotFreshExactly(looked, m[id].missionId);
  }

  lemma MarkRefusedEarly(m: HandoffMap, id: Id, status: HandoffStatus, actor: Participant, looked: FreshnessResult, now: Time, context: Context)
    requires id in m ==> !(Wired(m[id].status, status) && ActsAs(m[id], status, actor) && SeesFresh(looked, m[id].missionId))
    ensures TransitionHandoff(m, id, status, actor, looked, now, context)
            == Refused(if id !in m then BadValue
                       else if !Wired(m[id].status, status) then InvalidTransition
                       else if !ActsAs(m[id], status, actor) then ParticipantIneligible
                       else NotFresh(looked))
  {
    if id in m {
      TablesOnFields(m[id], m[id].status, status, actor);
      NotFreshExactly(looked, m[id].missionId);
    }
  }

  lemma MarkRefusedLate(m: HandoffMap, id: Id, status: HandoffStatus, actor: Participant, looked: FreshnessResult, now: Time)
    requires id in m && Wired(m[id].status, status) && ActsAs(m[id], status, actor) && SeesFresh(looked, m[id].missionId)
    requires WellReported(looked.observation.value) && PlainFields(m[id])
    requires MoveProblem(m[id], status, actor, looked.observation.value, now).Some?
    ensures NotMarkedFor(m, id, status, actor, looked, now, MoveProblem(m[id], status, actor, looked.observation.value, now).value)
  {
    MoveRefused(m[id], status, actor, looked.observation.value, now);
  }

  /** A status change that does not go through is refused with its cause. */
  lemma MarkRefusedExactly(m: HandoffMap, rosters: RosterMap, id: Id, status: HandoffStatus, actor: Participant,
                           looked: FreshnessResult, now: Time, context: Context)
    requires AcceptedHandoffs(m, rosters) && (looked.observation.Some? ==> ValidObservation(looked.observation.value))
    ensures var r := TransitionHandoff(m, id, status, actor, looked, now, context);
            r.Refused? ==> NotMarkedFor(m, id, status, actor, looked, now, r.problem)
  {
    if id in m && Wired(m[id].status, status) && ActsAs(m[id], status, actor) && SeesFresh(looked, m[id].missionId) {
      ValidExactly(looked.observation.value);
      EveryEntryIsItsActors(m, rosters, id);
      if MoveProblem(m[id], status, actor, looked.observation.value, now).Some? {
        MarkRefusedSteps(m, id, status, actor, looked, now, context);
        MarkRefusedLate(m, id, status, actor, looked, now);
      } else {
        MoveOnFields(m[id], status, actor, looked, now);
        NotFreshExactly(looked, m[id].missionId);
        TransitionsExactly(m, rosters, id, status, actor, looked, now, context);
      }
    } else {
      MarkRefusedEarly(m, id, status, actor, looked, now, context);
    }
  }

  /** A roster that is not registered is refused with its cause. */
  lemma RosterRefusedExactly(m: HandoffMap, rosters: RosterMap, mission: Id, participants: seq<Participant>,
                             looked: FreshnessResult, now: Time, context: Context)
    requires looked.observation.Some? ==> ValidObservation(looked.observation.value)
    ensures var r := SetRoster(m, rosters, mission, participants, looked, now, context);
            r.Refused? ==>
              if !SeesFresh(looked, mission) then r.problem == NotFresh(looked)
              else if |participants| > 16 then r.problem == TooLarge
              else if participants == []
                      || exists i, j :: 0 <= i < j < |participants| && ParticipantRank(participants[j]) <= ParticipantRank(participants[i])
              then r.problem == BadValue
              else r.problem == ParticipantIneligible
  {
    NotFreshExactly(looked, mission);
    if SeesFresh(looked, mission) { assert ValidPoint(PointOf(looked.observation.value)); }
  }

  /** A live request of the Mission already asks for this content. */
  ghost predicate AskedAlready(m: HandoffMap, q: Request, o: Observation) {
    exists k :: k in m && m[k].missionId == q.missionId && Live(m[k].status) && AskedContent(m[k].contentDigest, q, o)
  }

  /** Why a creation is refused, each cause in its turn. */
  ghost predicate NotCreatedFor(m: HandoffMap, rosters: RosterMap, q: Request, looked: FreshnessResult, why: Problem)
    requires Rooted(m)
  {
    if !SeesFresh(looked, q.missionId) then why == NotFresh(looked)
    else if q.missionId !in rosters then why == RosterMissing
    else if q.source !in rosters[q.missionId].participants || q.destination !in rosters[q.missionId].participants then
      why == ParticipantIneligible
    else if q.parent.Some? && q.parent.value !in m then why == BadValue
    else if q.parent.Some? && m[q.parent.value].status in {Declined, Withdrawn} then why == InvalidTransition
    else if q.parent.Some? && m[q.parent.value].depth >= 4 then why == ForwardDepthExceeded
    else if q.source == q.destination then why == ParticipantIneligible
    else if !PlainCitations(q.evidence, true) || !PlainCitations(q.artifacts, false) then why in {TooLarge, BadValue}
    else
      var o := looked.observation.value;
      if !AllBacked(o, q.evidence + q.artifacts) then FirstUnbacked(o, q.evidence + q.artifacts, why)
      else if KeyTaken(m, q) then why == IdempotencyConflict
      else if AskedAlready(m, q, o) then why == DuplicateEffect
      else why == NotExtended(m, q, o)
  }

  /** Why a forward does not continue its parent. */
  function NotExtended(m: HandoffMap, q: Request, o: Observation): Problem {
    if q.parent.None? || q.parent.value !in m then BadValue
    else
      var parent := m[q.parent.value];
      if parent.missionId != q.missionId then MissionMismatch
      else if q.source != parent.destination then ForwardContinuity
      else if parent.revision != o.currentRevision || parent.proposal != o.proposal then HandoffStale
      else ForwardingLoop
  }

  lemma EarlyRefusal(m: HandoffMap, rosters: RosterMap, id: Id, q: Request, looked: FreshnessResult, now: Time, context: Context)
    requires Rooted(m) && CreateHandoff(m, rosters, id, q, looked, now, context).Refused?
    requires !(SeesFresh(looked, q.missionId) && OnRoster(rosters, q.missionId, q.source) && OnRoster(rosters, q.missionId, q.destination)
               && MayForward(m, q.parent))
    ensures NotCreatedFor(m, rosters, q, looked, CreateHandoff(m, rosters, id, q, looked, now, context).problem)
  {
    NotFreshExactly(looked, q.missionId);
  }

  lemma AdmitRefusal(m: HandoffMap, c: Handoff, o: Observation, q: Request)
    requires WellReported(o) && Rooted(m) && AsksFor(c, q, o) && c.handoffId !in m && AdmitCandidate(m, c, o).Refused? && ValidHandoff(c)
    requires PlainCitations(q.evidence, true) && PlainCitations(q.artifacts, false)
    ensures var why := AdmitCandidate(m, c, o).problem;
            if !AllBacked(o, q.evidence + q.artifacts) then FirstUnbacked(o, q.evidence + q.artifacts, why)
            else if KeyTaken(m, q) then why == IdempotencyConflict
            else InsertNew(m, c) == Refused(why)
  {
    CitationsOnFields(o, q.evidence + q.artifacts);
    if CitationsProblem(o, q.evidence + q.artifacts).Some? { CitationsRefused(o, q.evidence + q.artifacts); }
    KeyFoundOnFields(m, q);
  }

  /** The candidate continues what the request asks to forward. */
  predicate BuiltOn(m: HandoffMap, c: Handoff, q: Request, o: Observation) {
    && c.source == q.source && c.destination == q.destination && c.parent == q.parent
    && c.revision == o.currentRevision && c.proposal == o.proposal
    && (q.parent.Some? ==> && q.parent.value in m && c.parentDigest == Some(m[q.parent.value].contentDigest)
                           && c.depth == m[q.parent.value].depth + 1)
  }

  lemma LinkRefusal(m: HandoffMap, c: Handoff, o: Observation, q: Request)
    requires Rooted(m) && AsksFor(c, q, o) && BuiltOn(m, c, q, o) && LinkProblem(m, c).Some?
    ensures LinkProblem(m, c) == Some(NotExtended(m, q, o))
  {
    ChainIsRootPath(m, q.parent.value);
  }

  lemma LiveRefusal(m: HandoffMap, c: Handoff, o: Observation, q: Request)
    requires AsksFor(c, q, o)
    ensures LiveWith(m, c.missionId, c.contentDigest) <==> AskedAlready(m, q, o)
  {
    forall k | k in m ensures m[k].contentDigest == Asked(q, o) <==> AskedContent(m[k].contentDigest, q, o) {
      AskedExactly(m[k].contentDigest, q, o);
    }
  }

  lemma InsertRefusal(m: HandoffMap, c: Handoff, o: Observation, q: Request)
    requires Rooted(m) && AsksFor(c, q, o) && BuiltOn(m, c, q, o) && c.handoffId !in m && InsertNew(m, c).Refused?
    ensures InsertNew(m, c).problem == if AskedAlready(m, q, o) then DuplicateEffect else NotExtended(m, q, o)
  {
    LiveRefusal(m, c, o, q);
    if LinkProblem(m, c).Some? { LinkRefusal(m, c, o, q); }
  }

  lemma BuiltRefusal(id: Id, q: Request, o: Observation, c: Handoff)
    requires c.source == q.source && c.destination == q.destination && c.evidence == q.evidence && c.artifacts == q.artifacts
    requires 1 <= c.revision && !ValidHandoff(c)
    requires q.source == q.destination || !PlainCitations(q.evidence, true) || !PlainCitations(q.artifacts, false)
    ensures if q.source == q.destination then HandoffProblem(c) == Some(ParticipantIneligible)
            else HandoffProblem(c) in {Some(TooLarge), Some(BadValue)}
  {
    CitationsShape(q.evidence, true);
    CitationsShape(q.artifacts, false);
  }

  /** A handoff that is not created is refused with its cause. */
  lemma CreateRefusedExactly(m: HandoffMap, rosters: RosterMap, id: Id, q: Request, looked: FreshnessResult, now: Time, context: Context)
    requires AcceptedHandoffs(m, rosters) && id !in m
    requires looked.observation.Some? ==> ValidObservation(looked.observation.value)
    requires CreateHandoff(m, rosters, id, q, looked, now, context).Refused?
    ensures Rooted(m) && NotCreatedFor(m, rosters, q, looked, CreateHandoff(m, rosters, id, q, looked, now, context).problem)
  {
    AcceptedIsRooted(m, rosters);
    if SeesFresh(looked, q.missionId) && OnRoster(rosters, q.missionId, q.source) && OnRoster(rosters, q.missionId, q.destination)
       && MayForward(m, q.parent)
    {
      var o := looked.observation.value;
      ValidExactly(o);
      LateRefusal(m, rosters, id, q, looked, now, context);
    } else {
      EarlyRefusal(m, rosters, id, q, looked, now, context);
    }
  }

  lemma LateSteps(m: HandoffMap, rosters: RosterMap, id: Id, q: Request, looked: FreshnessResult, now: Time, context: Context)
    requires SeesFresh(looked, q.missionId) && OnRoster(rosters, q.missionId, q.source) && OnRoster(rosters, q.missionId, q.destination)
    requires MayForward(m, q.parent)
    ensures ParentOpen(m, q)
    ensures CreateHandoff(m, rosters, id, q, looked, now, context)
            == AdmitCandidate(m, Built(m, id, q, looked.observation.value, now, context), looked.observation.value)
  {
    BuildExactly(m, id, q, looked.observation.value, now, context);
  }

  lemma LateRefusal(m: HandoffMap, rosters: RosterMap, id: Id, q: Request, looked: FreshnessResult, now: Time, context: Context)
    requires Rooted(m) && id !in m && SeesFresh(looked, q.missionId) && WellReported(looked.observation.value)
    requires OnRoster(rosters, q.missionId, q.source) && OnRoster(rosters, q.missionId, q.destination) && MayForward(m, q.parent)
    requires CreateHandoff(m, rosters, id, q, looked, now, context).Refused?
    ensures NotCreatedFor(m, rosters, q, looked, CreateHandoff(m, rosters, id, q, looked, now, context).problem)
  {
    var o := looked.observation.value;
    LateSteps(m, rosters, id, q, looked, now, context);
    var c := Built(m, id, q, o, now, context);
    ValidExactly(o);
    BuiltAsks(m, id, q, o, now, context);
    BuiltIsValidExactly(m, id, q, o, now, context);
    WellFormedOnFields(q);
    if ValidHandoff(c) {
      AdmitRefusal(m, c, o, q);
      if AllBacked(o, q.evidence + q.artifacts) && !KeyTaken(m, q) { InsertRefusal(m, c, o, q); }
    } else {
      BuiltRefusal(id, q, o, c);
    }
  }
}
