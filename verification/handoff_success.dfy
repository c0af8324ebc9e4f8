/** Exactly when a roster is registered and a handoff created. */
module HandoffSuccess {
  import opened Record
  import opened Observations
  import opened Sorting
  import opened Handoffs
  import opened HandoffOps
  import opened HandoffLaws

  /** A FRESH answer that carries the observation of this Mission. */
  predicate FreshOf(looked: FreshnessResult, mission: Id) {
    looked.freshness.Fresh? && looked.observation.Some? && looked.observation.value.missionId == mission
  }

  lemma RequireFreshExactly(looked: FreshnessResult, mission: Id)
    ensures RequireFresh(looked, mission).Ok? <==> FreshOf(looked, mission)
    ensures RequireFresh(looked, mission).Ok? ==> RequireFresh(looked, mission).value == looked.observation.value
  {
  }

  // ------------------------------------------------------------------- roster

  predicate ListsParticipants(ps: seq<Participant>) {
    0 < |ps| <= MAX_PARTICIPANTS_PER_MISSION && AscendingParticipants(ps)
  }

  /** A roster is registered exactly under a FRESH read, for a bounded sorted
      list of participants that drops no one a recorded handoff names. */
  lemma SetRosterSucceedsExactly(m: HandoffMap, rosters: RosterMap, mission: Id, participants: seq<Participant>,
                                 looked: FreshnessResult, now: Time, context: Context)
    requires looked.observation.Some? ==> ValidObservation(looked.observation.value)
    ensures SetRoster(m, rosters, mission, participants, looked, now, context).Ok?
            <==> && FreshOf(looked, mission) && ListsParticipants(participants)
                 && forall k :: k in m && m[k].missionId == mission ==>
                      m[k].source in participants && m[k].destination in participants
  {
    RequireFreshExactly(looked, mission);
    if FreshOf(looked, mission) { assert ValidPoint(PointOf(looked.observation.value)); }
  }

  // ----------------------------------------------------------------- creation

  predicate OnRoster(rosters: RosterMap, mission: Id, p: Participant) {
    mission in rosters && p in rosters[mission].participants
  }

  /** Two different participants and two well-formed citation lists. */
  predicate WellFormed(q: Request) {
    && q.source != q.destination
    && |q.evidence| <= MAX_REFERENCE_LIST && CitationsOk(q.evidence, true)
    && |q.artifacts| <= MAX_REFERENCE_LIST && CitationsOk(q.artifacts, false)
  }

  /** Everything cited is proven by a Mission-local record at the cited level. */
  ghost predicate Proven(o: Observation, cs: seq<Citation>) {
    forall i :: 0 <= i < |cs| ==>
      && LevelApplies(cs[i].reference, cs[i].level)
      && Lookup(OwnReferences(o), cs[i].reference).Some?
      && Proves(Lookup(OwnReferences(o), cs[i].reference).value, cs[i].level, o.observedAt)
  }

  /** A parent that may be forwarded once more. */
  predicate ParentOpen(m: HandoffMap, q: Request) {
    q.parent.Some? ==>
      q.parent.value in m && Forwardable(m[q.parent.value].status) && m[q.parent.value].depth < MAX_HANDOFF_FORWARD_DEPTH
  }

  /** The content a request asks for, under this read. */
  function Asked(q: Request, o: Observation): Content {
    Content(q.missionId, o.currentRevision, q.source, q.destination, q.purpose, q.requestText, q.evidence, q.artifacts, q.parent)
  }

  /** A forward continues its parent: same Mission, revision and proposal, from
      its addressee, to someone no step of the chain has held. */
  ghost predicate ContinuesParent(m: HandoffMap, q: Request, o: Observation)
    requires Rooted(m)
  {
    q.parent.Some? && q.parent.value in m ==>
      var parent := m[q.parent.value];
      && parent.missionId == q.missionId && parent.destination == q.source
      && parent.revision == o.currentRevision && parent.proposal == o.proposal
      && InDocument(m, RootPath(m, q.parent.value)) && q.destination !in PathParties(m, RootPath(m, q.parent.value))
  }

  /** The key already stands for exactly this content; or it is unused, no live
      record has this content, and the forward continues its parent. */
  ghost predicate KeyAdmits(m: HandoffMap, q: Request, o: Observation)
    requires Rooted(m)
  {
    if KeyUnused(m, q.missionId, q.idempotencyKey) then
      && (forall k :: k in m && m[k].missionId == q.missionId && !TerminalStatus(m[k].status) ==> m[k].contentDigest != Asked(q, o))
      && ContinuesParent(m, q, o)
    else
      forall k :: k in m && UsesKey(m[k], q.missionId, q.idempotencyKey) ==> m[k].contentDigest == Asked(q, o)
  }

  function Built(m: HandoffMap, id: Id, q: Request, o: Observation, now: Time, context: Context): Handoff
    requires ParentOpen(m, q)
  {
    if q.parent.None? then Candidate(id, q, o, None, 0, now, context)
    else Candidate(id, q, o, Some(m[q.parent.value].contentDigest), m[q.parent.value].depth + 1, now, context)
  }

  lemma BuildExactly(m: HandoffMap, id: Id, q: Request, o: Observation, now: Time, context: Context)
    ensures BuildCandidate(m, id, q, o, now, context).Ok? <==> ParentOpen(m, q)
    ensures ParentOpen(m, q) ==> BuildCandidate(m, id, q, o, now, context) == Ok(Built(m, id, q, o, now, context))
  {
  }

  lemma CandidateFieldsExactly(id: Id, q: Request, o: Observation, parentDigest: Option<Content>, depth: nat, now: Time, context: Context)
    requires ValidObservation(o) && q.parent != Some(id) && depth <= MAX_HANDOFF_FORWARD_DEPTH
    requires (q.parent.Some? <==> parentDigest.Some?) && (q.parent.Some? <==> depth > 0)
    ensures FieldsProblem(Candidate(id, q, o, parentDigest, depth, now, context)).None? <==> WellFormed(q)
  {
    var c := Candidate(id, q, o, parentDigest, depth, now, context);
    assert ValidPoint(PointOf(o)) && ContentOf(c) == c.contentDigest;
  }

  lemma CandidateOpens(id: Id, q: Request, o: Observation, parentDigest: Option<Content>, depth: nat, now: Time, context: Context)
    requires ValidObservation(o)
    ensures var c := Candidate(id, q, o, parentDigest, depth, now, context);
            TransitionsProblem(c, 0).None? && c.transitions != [] && EndsAsRecorded(c) && Restated(c)
  {
    var c := Candidate(id, q, o, parentDigest, depth, now, context);
    assert ValidPoint(PointOf(o)) && TransitionProblem(c, 0).None?;
    assert TransitionsProblem(c, 1).None?;
  }

  lemma BuiltIsValidExactly(m: HandoffMap, id: Id, q: Request, o: Observation, now: Time, context: Context)
    requires ValidObservation(o) && ParentOpen(m, q) && q.parent != Some(id)
    ensures ValidHandoff(Built(m, id, q, o, now, context)) <==> WellFormed(q)
  {
    var digest := if q.parent.None? then None else Some(m[q.parent.value].contentDigest);
    var depth := if q.parent.None? then 0 else m[q.parent.value].depth + 1;
    CandidateFieldsExactly(id, q, o, digest, depth, now, context);
    CandidateOpens(id, q, o, digest, depth, now, context);
  }

  lemma BuiltLinks(m: HandoffMap, id: Id, q: Request, o: Observation, now: Time, context: Context)
    requires Rooted(m) && ParentOpen(m, q)
    ensures LinkProblem(m, Built(m, id, q, o, now, context)).None? <==> ContinuesParent(m, q, o)
  {
    if q.parent.Some? { ChainIsRootPath(m, q.parent.value); }
  }

  lemma KeyFoundExactly(m: HandoffMap, q: Request)
    requires OneKey(m, m.Keys)
    ensures var found := FindKey(m, Sorted(m.Keys), q.missionId, q.idempotencyKey);
            && (found.None? <==> KeyUnused(m, q.missionId, q.idempotencyKey))
            && (found.Some? ==> forall k :: k in m && UsesKey(m[k], q.missionId, q.idempotencyKey) ==> m[k] == found.value)
  {
    var found := FindKey(m, Sorted(m.Keys), q.missionId, q.idempotencyKey);
    if found.None? {
      NoneUses(m, q.missionId, q.idempotencyKey);
    } else {
      var j :| j in Sorted(m.Keys) && m[j] == found.value && UsesKey(m[j], q.missionId, q.idempotencyKey);
      forall k | k in m && UsesKey(m[k], q.missionId, q.idempotencyKey) ensures m[k] == found.value {
        assert SameKey(m[k], m[j]);
      }
    }
  }

  lemma InsertsExactly(m: HandoffMap, c: Handoff)
    ensures InsertNew(m, c).Ok?
            <==> && c.handoffId !in m && LinkProblem(m, c).None?
                 && forall k :: k in m && m[k].missionId == c.missionId && !TerminalStatus(m[k].status) ==> m[k].contentDigest != c.contentDigest
  {
  }

  lemma AdmitsExactly(m: HandoffMap, id: Id, q: Request, o: Observation, now: Time, context: Context)
    requires OneKey(m, m.Keys) && Rooted(m) && ValidObservation(o) && ParentOpen(m, q) && id !in m
    ensures AdmitCandidate(m, Built(m, id, q, o, now, context), o).Ok?
            <==> WellFormed(q) && Proven(o, q.evidence + q.artifacts) && KeyAdmits(m, q, o)
  {
    BuiltIsValidExactly(m, id, q, o, now, context);
    BuiltLinks(m, id, q, o, now, context);
    BuiltAsks(m, id, q, o, now, context);
    AskedAdmitsExactly(m, Built(m, id, q, o, now, context), q, o);
  }

  /** The candidate carries what was asked. */
  predicate AsksFor(c: Handoff, q: Request, o: Observation) {
    && c.missionId == q.missionId && c.idempotencyKey == q.idempotencyKey && c.contentDigest == Asked(q, o)
    && c.evidence == q.evidence && c.artifacts == q.artifacts
  }

  lemma BuiltAsks(m: HandoffMap, id: Id, q: Request, o: Observation, now: Time, context: Context)
    requires ParentOpen(m, q)
    ensures AsksFor(Built(m, id, q, o, now, context), q, o) && Built(m, id, q, o, now, context).handoffId == id
  {
  }

  lemma AskedAdmitsExactly(m: HandoffMap, c: Handoff, q: Request, o: Observation)
    requires OneKey(m, m.Keys) && Rooted(m) && AsksFor(c, q, o) && c.handoffId !in m
    requires ValidHandoff(c) <==> WellFormed(q)
    requires LinkProblem(m, c).None? <==> ContinuesParent(m, q, o)
    ensures AdmitCandidate(m, c, o).Ok? <==> WellFormed(q) && Proven(o, q.evidence + q.artifacts) && KeyAdmits(m, q, o)
  {
    CitationsProven(o, q.evidence + q.artifacts);
    KeyFoundExactly(m, q);
    AdmitShapeExactly(m, c, o);
    KeyAdmitsExactly(m, c, q, o, FindKey(m, Sorted(m.Keys), q.missionId, q.idempotencyKey));
  }

  lemma AdmitShapeExactly(m: HandoffMap, c: Handoff, o: Observation)
    ensures var found := FindKey(m, Sorted(m.Keys), c.missionId, c.idempotencyKey);
            AdmitCandidate(m, c, o).Ok?
            <==> && ValidHandoff(c) && CitationsProblem(o, c.evidence + c.artifacts).None?
                 && (if found.None? then InsertNew(m, c).Ok? else found.value.contentDigest == c.contentDigest)
  {
  }

  lemma KeyAdmitsExactly(m: HandoffMap, c: Handoff, q: Request, o: Observation, found: Option<Handoff>)
    requires Rooted(m) && c.handoffId !in m && c.missionId == q.missionId && c.contentDigest == Asked(q, o)
    requires LinkProblem(m, c).None? <==> ContinuesParent(m, q, o)
    requires found.None? <==> KeyUnused(m, q.missionId, q.idempotencyKey)
    requires found.Some? ==> forall k :: k in m && UsesKey(m[k], q.missionId, q.idempotencyKey) ==> m[k] == found.value
    ensures (if found.None? then InsertNew(m, c).Ok? else found.value.contentDigest == c.contentDigest) <==> KeyAdmits(m, q, o)
  {
    InsertsExactly(m, c);
    if found.Some? {
      var k :| k in m && UsesKey(m[k], q.missionId, q.idempotencyKey);
      assert m[k] == found.value;
    }
  }

  /** A handoff is created, or its recorded one returned, exactly under a FRESH
      read, between two different participants on the Mission's roster, with
      well-formed citations proven by that read, forwarding an open parent or
      none, when its idempotency key admits it. */
  lemma CreateSucceedsExactly(m: HandoffMap, rosters: RosterMap, id: Id, q: Request, looked: FreshnessResult, now: Time, context: Context)
    requires AcceptedHandoffs(m, rosters) && id !in m
    requires looked.observation.Some? ==> ValidObservation(looked.observation.value)
    ensures Rooted(m)
    ensures CreateHandoff(m, rosters, id, q, looked, now, context).Ok?
            <==> && FreshOf(looked, q.missionId)
                 && OnRoster(rosters, q.missionId, q.source) && OnRoster(rosters, q.missionId, q.destination)
                 && ParentOpen(m, q) && WellFormed(q)
                 && Proven(looked.observation.value, q.evidence + q.artifacts) && KeyAdmits(m, q, looked.observation.value)
  {
    AcceptedIsRooted(m, rosters);
    RequireFreshExactly(looked, q.missionId);
    if FreshOf(looked, q.missionId) {
      var o := looked.observation.value;
      BuildExactly(m, id, q, o, now, context);
      if ParentOpen(m, q) { AdmitsExactly(m, id, q, o, now, context); }
      CreateStepsExactly(m, rosters, id, q, looked, now, context);
    }
  }

  lemma CreateStepsExactly(m: HandoffMap, rosters: RosterMap, id: Id, q: Request, looked: FreshnessResult, now: Time, context: Context)
    requires FreshOf(looked, q.missionId)
    ensures var built := BuildCandidate(m, id, q, looked.observation.value, now, context);
            CreateHandoff(m, rosters, id, q, looked, now, context).Ok?
            <==> && OnRoster(rosters, q.missionId, q.source) && OnRoster(rosters, q.missionId, q.destination)
                 && built.Ok? && AdmitCandidate(m, built.value, looked.observation.value).Ok?
  {
  }
}
