/** Registering a roster, creating a handoff and changing its status
    (coordination/handoff.py:220-246 and 604-741). */
module HandoffOps {
  import opened Record
  import opened Observations
  import opened Sorting
  import opened Handoffs

  /** require_fresh: the FRESH observation of this Mission, or a refusal. */
  function RequireFresh(looked: FreshnessResult, mission: Id): Result<Observation> {
    match looked.freshness
    case Unavailable => Refused(ObservationUnavailable)
    case Stale => Refused(ObservationStale)
    case Inconsistent => Refused(ObservationInconsistent)
    case Absent => Refused(MissionNotObserved)
    case Fresh =>
      if looked.observation.None? then Refused(ObservationUnavailable)
      else if looked.observation.value.missionId != mission then Refused(MissionMismatch)
      else Ok(looked.observation.value)
  }

  // ------------------------------------------------------------------- roster

  /** No stored handoff of this Mission names anyone outside these participants. */
  predicate NamesOnly(m: HandoffMap, mission: Id, participants: seq<Participant>) {
    forall k | k in m :: m[k].missionId == mission ==> m[k].source in participants && m[k].destination in participants
  }

  /** set_roster: register or replace; never drops a participant a handoff names. */
  function SetRoster(m: HandoffMap, rosters: RosterMap, mission: Id, participants: seq<Participant>,
                     looked: FreshnessResult, now: Time, context: Context): Result<RosterMap>
  {
    var o :- RequireFresh(looked, mission);
    var roster := Roster(mission, participants, o.currentRevision, now, context, PointOf(o));
    if RosterProblem(roster).Some? then Refused(RosterProblem(roster).value)
    else if !NamesOnly(m, mission, participants) then Refused(ParticipantIneligible)
    else Ok(rosters[mission := roster])
  }

  // ----------------------------------------------------------------- creation

  datatype Request = Request(missionId: Id, source: Participant, destination: Participant, purpose: Purpose,
                             requestText: string, evidence: seq<Citation>, artifacts: seq<Citation>,
                             idempotencyKey: Key, parent: Option<Id>)

  predicate Forwardable(s: HandoffStatus) { s.Accepted? || s.Answered? || s.Open? }

  function Candidate(id: Id, q: Request, o: Observation, parentDigest: Option<Content>, depth: nat, now: Time,
                     context: Context): Handoff
  {
    Handoff(id, q.missionId, o.currentRevision, o.proposal, q.source, q.destination, q.purpose, q.requestText,
            q.evidence, q.artifacts, q.idempotencyKey,
            Content(q.missionId, o.currentRevision, q.source, q.destination, q.purpose, q.requestText,
                    q.evidence, q.artifacts, q.parent),
            q.parent, parentDigest, depth, Open, [Transition(Open, now, q.source, context, PointOf(o))],
            now, now, PointOf(o), Provenance(context, now, Some(o.currentRevision), Some(o.stateCursor)))
  }

  /** The candidate record, its parent consulted. */
  function BuildCandidate(m: HandoffMap, id: Id, q: Request, o: Observation, now: Time, context: Context): Result<Handoff> {
    if q.parent.None? then Ok(Candidate(id, q, o, None, 0, now, context))
    else if q.parent.value !in m then Refused(BadValue)
    else
      var parent := m[q.parent.value];
      if !Forwardable(parent.status) then Refused(InvalidTransition)
      else if parent.depth + 1 > MAX_HANDOFF_FORWARD_DEPTH then Refused(ForwardDepthExceeded)
      else Ok(Candidate(id, q, o, Some(parent.contentDigest), parent.depth + 1, now, context))
  }

  predicate UsesKey(h: Handoff, mission: Id, key: Key) { h.missionId == mission && h.idempotencyKey == key }

  /** The first record, in id order, that already used this idempotency key. */
  function FindKey(m: HandoffMap, keys: seq<Id>, mission: Id, key: Key): (r: Option<Handoff>)
    requires forall k :: k in keys ==> k in m
    ensures r.None? ==> forall k :: k in keys ==> !UsesKey(m[k], mission, key)
    ensures r.Some? ==> exists k :: k in keys && m[k] == r.value && UsesKey(m[k], mission, key)
  {
    if keys == [] then None
    else if UsesKey(m[keys[0]], mission, key) then
      assert keys[0] in keys;
      Some(m[keys[0]])
    else
      assert forall k :: k in keys <==> k == keys[0] || k in keys[1..];
      FindKey(m, keys[1..], mission, key)
  }

  predicate LiveWith(m: HandoffMap, mission: Id, content: Content) {
    exists k | k in m :: m[k].missionId == mission && !TerminalStatus(m[k].status) && m[k].contentDigest == content
  }

  /** The document's handoffs after the call, and the record it returns. */
  datatype Creation = Creation(handoffs: HandoffMap, record: Handoff)

  /** A candidate no idempotency key stands for yet. */
  function InsertNew(m: HandoffMap, c: Handoff): Result<Creation> {
    if c.handoffId in m then Refused(IdempotencyConflict)
    else if LiveWith(m, c.missionId, c.contentDigest) then Refused(DuplicateEffect)
    else if LinkProblem(m, c).Some? then Refused(LinkProblem(m, c).value)
    else Ok(Creation(m[c.handoffId := c], c))
  }

  /** The checks on a candidate, and what the document becomes. */
  function AdmitCandidate(m: HandoffMap, c: Handoff, o: Observation): Result<Creation> {
    if HandoffProblem(c).Some? then Refused(HandoffProblem(c).value)
    else if CitationsProblem(o, c.evidence + c.artifacts).Some? then
      Refused(CitationsProblem(o, c.evidence + c.artifacts).value)
    else
      var existing := FindKey(m, Sorted(m.Keys), c.missionId, c.idempotencyKey);
      if existing.None? then InsertNew(m, c)
      else if existing.value.contentDigest == c.contentDigest then Ok(Creation(m, existing.value))
      else Refused(IdempotencyConflict)
  }

  /** create_handoff */
  function CreateHandoff(m: HandoffMap, rosters: RosterMap, id: Id, q: Request, looked: FreshnessResult, now: Time,
                         context: Context): Result<Creation>
  {
    var o :- RequireFresh(looked, q.missionId);
    var source := EligibleProblem(rosters, q.missionId, q.source);
    var destination := EligibleProblem(rosters, q.missionId, q.destination);
    if source.Some? then Refused(source.value)
    else if destination.Some? then Refused(destination.value)
    else
      var c :- BuildCandidate(m, id, q, o, now, context);
      AdmitCandidate(m, c, o)
  }

  // -------------------------------------------------------------- transitions

  function LastOf(h: Handoff): Transition
    requires h.transitions != []
  {
    h.transitions[|h.transitions|-1]
  }

  function Moved(h: Handoff, status: HandoffStatus, actor: Participant, o: Observation, now: Time, context: Context): Handoff {
    h.(transitions := h.transitions + [Transition(status, now, actor, context, PointOf(o))],
       status := status, updatedAt := now)
  }

  /** What one status change is refused for, before validation of its result. */
  function MoveProblem(h: Handoff, status: HandoffStatus, actor: Participant, o: Observation, now: Time): Option<Problem> {
    if o.currentRevision != h.revision || o.proposal != h.proposal then Some(HandoffStale)
    else if CitationsProblem(o, h.evidence + h.artifacts).Some? then CitationsProblem(o, h.evidence + h.artifacts)
    else if h.transitions != [] && CursorValue(o.stateCursor) < CursorValue(LastOf(h).point.cursor) then Some(ObservationStale)
    else if now < h.updatedAt then Some(BadValue)
    else None
  }

  /** transition: one status change by its actor under a FRESH observation. */
  function TransitionHandoff(m: HandoffMap, id: Id, status: HandoffStatus, actor: Participant, looked: FreshnessResult,
                             now: Time, context: Context): Result<HandoffMap>
  {
    if id !in m then Refused(BadValue)
    else
      var h := m[id];
      if !StatusMayBecome(h.status, status) then Refused(InvalidTransition)
      else if actor != ActorOf(h, status) then Refused(ParticipantIneligible)
      else
        var o :- RequireFresh(looked, h.missionId);
        var p := MoveProblem(h, status, actor, o, now);
        if p.Some? then Refused(p.value)
        else
          var updated := Moved(h, status, actor, o, now, context);
          if HandoffProblem(updated).Some? then Refused(HandoffProblem(updated).value)
          else Ok(m[id := updated])
  }
}
