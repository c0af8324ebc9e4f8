/** Handoffs and rosters: one record's coherence, the forward chain, and the
    loader's cross-record rules (coordination/handoff.py:146-582).

    A content digest is modelled by the content it covers. */
module Handoffs {
  import opened Record
  import opened Observations
  import opened Sorting

  const MAX_PARTICIPANTS_PER_MISSION := 16
  const MAX_HANDOFF_FORWARD_DEPTH := 4
  const MAX_HANDOFF_TRANSITIONS := 8

  // ------------------------------------------------------------------ rosters

  datatype Roster = Roster(missionId: Id, participants: seq<Participant>, revision: nat, registeredAt: Time,
                           registeredBy: Context, point: Point)

  type RosterMap = map<Id, Roster>

  predicate AscendingParticipants(ps: seq<Participant>) {
    forall i, j :: 0 <= i < j < |ps| ==> ParticipantRank(ps[i]) < ParticipantRank(ps[j])
  }

  function RosterProblem(r: Roster): Option<Problem> {
    if |r.participants| > MAX_PARTICIPANTS_PER_MISSION then Some(TooLarge)
    else if r.participants == [] || !AscendingParticipants(r.participants) then Some(BadValue)
    else if r.revision < 1 || !ValidPoint(r.point) || r.point.revision != r.revision then Some(BadValue)
    else None
  }

  /** require_eligible: answered against the roster, never assumed. */
  function EligibleProblem(rosters: RosterMap, mission: Id, p: Participant): Option<Problem> {
    if mission !in rosters then Some(RosterMissing)
    else if p !in rosters[mission].participants then Some(ParticipantIneligible)
    else None
  }

  // ------------------------------------------------------------------ records

  datatype Content = Content(missionId: Id, revision: nat, source: Participant, destination: Participant,
                             purpose: Purpose, requestText: string, evidence: seq<Citation>,
                             artifacts: seq<Citation>, parent: Option<Id>)

  datatype Transition = Transition(status: HandoffStatus, at: Time, actor: Participant, recordedBy: Context, point: Point)

  datatype Handoff = Handoff(
    handoffId: Id, missionId: Id, revision: nat, proposal: Digest, source: Participant, destination: Participant,
    purpose: Purpose, requestText: string, evidence: seq<Citation>, artifacts: seq<Citation>,
    idempotencyKey: Key, contentDigest: Content, parent: Option<Id>, parentDigest: Option<Content>, depth: nat,
    status: HandoffStatus, transitions: seq<Transition>, createdAt: Time, updatedAt: Time, point: Point,
    provenance: Provenance)

  type HandoffMap = map<Id, Handoff>

  function ContentOf(h: Handoff): Content {
    Content(h.missionId, h.revision, h.source, h.destination, h.purpose, h.requestText, h.evidence, h.artifacts, h.parent)
  }

  predicate CitationsOk(cs: seq<Citation>, evidence: bool) {
    && (forall i :: 0 <= i < |cs| ==> cs[i].reference.EvidenceId? == evidence && LevelApplies(cs[i].reference, cs[i].level))
    && (forall i, j :: 0 <= i < j < |cs| ==> cs[i].reference.n < cs[j].reference.n)
  }

  function CitationListProblem(cs: seq<Citation>, evidence: bool): Option<Problem> {
    if |cs| > MAX_REFERENCE_LIST then Some(TooLarge)
    else if !CitationsOk(cs, evidence) then Some(BadValue)
    else None
  }

  /** Which participant performs a status change. */
  function ActorOf(h: Handoff, status: HandoffStatus): Participant {
    if status.Withdrawn? || status.Open? then h.source else h.destination
  }

  predicate SameProposal(h: Handoff, p: Point) { p.revision == h.revision && p.proposal == h.proposal }

  /** The first rule transition k breaks. */
  function TransitionProblem(h: Handoff, k: nat): Option<Problem>
    requires k < |h.transitions|
  {
    var entry := h.transitions[k];
    if !ValidPoint(entry.point) then Some(BadValue)
    else if k > 0 && entry.status.Open? then Some(InvalidTransition)
    else if entry.actor != (if k == 0 then h.source else ActorOf(h, entry.status)) then Some(ParticipantIneligible)
    else if !SameProposal(h, entry.point) then Some(HandoffStale)
    else if k == 0 then
      if CursorValue(entry.point.cursor) < CursorValue(h.point.cursor) then Some(BadValue)
      else if !entry.status.Open? || entry.at != h.createdAt || entry.point != h.point then Some(BadValue)
      else None
    else
      var previous := h.transitions[k - 1];
      if CursorValue(entry.point.cursor) < CursorValue(previous.point.cursor) then Some(BadValue)
      else if !StatusMayBecome(previous.status, entry.status) then Some(InvalidTransition)
      else if entry.at < previous.at then Some(BadValue)
      else None
  }

  function TransitionsProblem(h: Handoff, k: nat): Option<Problem>
    requires k <= |h.transitions|
    decreases |h.transitions| - k
  {
    if k == |h.transitions| then None else
      var p := TransitionProblem(h, k);
      if p.Some? then p else TransitionsProblem(h, k + 1)
  }

  predicate ForwardShapeOk(h: Handoff) {
    && (h.parent.Some? <==> h.parentDigest.Some?) && (h.parent.Some? <==> h.depth > 0)
    && h.parent != Some(h.handoffId)
  }

  predicate EndsAsRecorded(h: Handoff)
    requires h.transitions != []
  {
    && h.transitions[|h.transitions|-1].status == h.status
    && h.transitions[|h.transitions|-1].at == h.updatedAt
  }

  predicate Restated(h: Handoff) {
    && SameProposal(h, h.point)
    && h.provenance.receivedAt == h.createdAt
    && h.provenance.observedRevision == Some(h.revision)
    && h.provenance.cursor == Some(h.point.cursor)
  }

  /** What a record's own fields must satisfy before its transitions are read. */
  function FieldsProblem(h: Handoff): Option<Problem> {
    if h.revision < 1 then Some(BadValue)
    else if h.source == h.destination then Some(ParticipantIneligible)
    else
      var p := CitationListProblem(h.evidence, true);
      if p.Some? then p else
        var q := CitationListProblem(h.artifacts, false);
        if q.Some? then q
        else if h.contentDigest != ContentOf(h) then Some(BadValue)
        else if h.depth > MAX_HANDOFF_FORWARD_DEPTH then Some(TooLarge)
        else if !ForwardShapeOk(h) then Some(BadValue)
        else if |h.transitions| > MAX_HANDOFF_TRANSITIONS then Some(TooLarge)
        else if h.transitions == [] || !ValidPoint(h.point) then Some(BadValue)
        else None
  }

  /** validate_handoff: the first rule a record breaks. */
  function HandoffProblem(h: Handoff): Option<Problem> {
    var p := FieldsProblem(h);
    if p.Some? then p else
      var q := TransitionsProblem(h, 0);
      if q.Some? then q
      else if h.transitions == [] || !EndsAsRecorded(h) || !Restated(h) then Some(BadValue)
      else None
  }

  predicate ValidHandoff(h: Handoff) { HandoffProblem(h).None? }

  lemma {:induction false} TransitionsProblemNone(h: Handoff, k: nat)
    requires k <= |h.transitions|
    ensures TransitionsProblem(h, k).None? <==>
            forall i :: k <= i < |h.transitions| ==> TransitionProblem(h, i).None?
    decreases |h.transitions| - k
  {
    if k < |h.transitions| { TransitionsProblemNone(h, k + 1); }
  }

  /** The loop over transitions, remembering the previous entry. */
  method CheckTransitions(h: Handoff) returns (p: Option<Problem>)
    requires h.transitions != []
    ensures p == TransitionsProblem(h, 0)
  {
    var previous := h.transitions[0];
    for k := 0 to |h.transitions|
      invariant TransitionsProblem(h, 0) == TransitionsProblem(h, k)
      invariant k > 0 ==> previous == h.transitions[k - 1]
    {
      var entry := h.transitions[k];
      if !ValidPoint(entry.point) { return Some(BadValue); }
      if k > 0 && entry.status.Open? { return Some(InvalidTransition); }
      var expected := if k == 0 then h.source else ActorOf(h, entry.status);
      if entry.actor != expected { return Some(ParticipantIneligible); }
      if !SameProposal(h, entry.point) { return Some(HandoffStale); }
      var floor := if k == 0 then h.point else previous.point;
      if CursorValue(entry.point.cursor) < CursorValue(floor.cursor) { return Some(BadValue); }
      if k == 0 {
        if !entry.status.Open? || entry.at != h.createdAt || entry.point != h.point { return Some(BadValue); }
      } else {
        if !StatusMayBecome(previous.status, entry.status) { return Some(InvalidTransition); }
        if entry.at < previous.at { return Some(BadValue); }
      }
      previous := entry;
    }
    p := None;
  }

  // -------------------------------------------------------------------- chain

  /** chain: from current up to the root, refusing a walk that does not end. */
  function ChainFrom(m: HandoffMap, current: Option<Id>, path: seq<Id>): Result<seq<Id>>
    decreases MAX_HANDOFF_FORWARD_DEPTH + 1 - |path|
  {
    if current.None? then Ok(path)
    else if current.value in path || |path| > MAX_HANDOFF_FORWARD_DEPTH then Refused(ForwardingLoop)
    else if current.value !in m then Refused(BadValue)
    else ChainFrom(m, m[current.value].parent, [current.value] + path)
  }

  function Chain(m: HandoffMap, id: Id): Result<seq<Id>> { ChainFrom(m, Some(id), []) }

  /** The walk with its seen set. */
  method WalkChain(m: HandoffMap, id: Id) returns (r: Result<seq<Id>>)
    ensures r == Chain(m, id)
  {
    var path: seq<Id> := [];
    var seen: set<Id> := {};
    var current := Some(id);
    while current.Some?
      invariant forall x :: x in seen <==> x in path
      invariant ChainFrom(m, current, path) == Chain(m, id)
      decreases MAX_HANDOFF_FORWARD_DEPTH + 1 - |path|, if current.Some? then 1 else 0
    {
      if current.value in seen || |path| > MAX_HANDOFF_FORWARD_DEPTH { return Refused(ForwardingLoop); }
      if current.value !in m { return Refused(BadValue); }
      seen := seen + {current.value};
      path := [current.value] + path;
      current := m[current.value].parent;
    }
    r := Ok(path);
  }

  function Destinations(m: HandoffMap, path: seq<Id>): (ds: seq<Participant>)
    requires forall k :: k in path ==> k in m
    ensures |ds| == |path| && forall i :: 0 <= i < |path| ==> ds[i] == m[path[i]].destination
  {
    if path == [] then [] else [m[path[0]].destination] + Destinations(m, path[1..])
  }

  predicate InDocument(m: HandoffMap, path: seq<Id>) { path != [] && forall k :: k in path ==> k in m }

  /** chain_participants: the root source, then every link's destination. */
  function ChainParticipants(m: HandoffMap, id: Id): Result<seq<Participant>> {
    var path :- Chain(m, id);
    if !InDocument(m, path) then Refused(BadValue)
    else Ok([m[path[0]].source] + Destinations(m, path))
  }

  /** _require_link: the first rule binding a forward to its parent it breaks. */
  function LinkProblem(m: HandoffMap, h: Handoff): Option<Problem> {
    if h.parent.None? then None
    else if h.parent.value !in m then Some(BadValue)
    else
      var parent := m[h.parent.value];
      if parent.missionId != h.missionId then Some(MissionMismatch)
      else if h.parentDigest != Some(parent.contentDigest) then Some(BadValue)
      else if h.source != parent.destination then Some(ForwardContinuity)
      else if parent.revision != h.revision || parent.proposal != h.proposal then Some(HandoffStale)
      else if h.depth != parent.depth + 1 then Some(BadValue)
      else
        var upstream := ChainParticipants(m, h.parent.value);
        if upstream.Refused? then Some(upstream.problem)
        else if h.destination in upstream.value then Some(ForwardingLoop)
        else None
  }

  // --------------------------------------------------------------- the family

  predicate RosterOk(r: Roster, key: Id) { RosterProblem(r).None? && r.missionId == key }

  ghost predicate AcceptedRosters(rosters: RosterMap) {
    forall k :: k in rosters ==> RosterOk(rosters[k], k)
  }

  /** One record valid under its key, both its parties on the roster. */
  predicate HandoffOk(rosters: RosterMap, h: Handoff, key: Id) {
    && ValidHandoff(h) && h.handoffId == key
    && EligibleProblem(rosters, h.missionId, h.source).None?
    && EligibleProblem(rosters, h.missionId, h.destination).None?
  }

  ghost predicate HandoffsOk(m: HandoffMap, rosters: RosterMap, keys: set<Id>) {
    forall k :: k in keys ==> k in m && HandoffOk(rosters, m[k], k)
  }

  predicate SameKey(a: Handoff, b: Handoff) { a.missionId == b.missionId && a.idempotencyKey == b.idempotencyKey }

  ghost predicate OneKey(m: HandoffMap, keys: set<Id>) {
    && keys <= m.Keys
    && (forall j, k :: j in keys && k in keys && SameKey(m[j], m[k]) ==> j == k)
  }

  predicate SameEffect(a: Handoff, b: Handoff) {
    && !TerminalStatus(a.status) && !TerminalStatus(b.status)
    && a.missionId == b.missionId && a.contentDigest == b.contentDigest
  }

  ghost predicate OneEffect(m: HandoffMap, keys: set<Id>) {
    && keys <= m.Keys
    && (forall j, k :: j in keys && k in keys && SameEffect(m[j], m[k]) ==> j == k)
  }

  ghost predicate Linked(m: HandoffMap) { forall k :: k in m ==> LinkProblem(m, m[k]).None? }

  ghost predicate AcceptedHandoffs(m: HandoffMap, rosters: RosterMap) {
    && AcceptedRosters(rosters)
    && HandoffsOk(m, rosters, m.Keys) && OneKey(m, m.Keys) && OneEffect(m, m.Keys) && Linked(m)
  }

  // --------------------------------------------------------------- the loader

  ghost function KeysUsed(m: HandoffMap, keys: set<Id>): set<(Id, Key)>
    requires keys <= m.Keys
  {
    set k | k in keys :: (m[k].missionId, m[k].idempotencyKey)
  }

  lemma UseOne(m: HandoffMap, done: set<Id>, k: Id)
    requires OneKey(m, done) && k in m && k !in done
    ensures KeysUsed(m, done + {k}) == KeysUsed(m, done) + {(m[k].missionId, m[k].idempotencyKey)}
    ensures (m[k].missionId, m[k].idempotencyKey) in KeysUsed(m, done) ==> !OneKey(m, m.Keys)
    ensures (m[k].missionId, m[k].idempotencyKey) !in KeysUsed(m, done) ==> OneKey(m, done + {k})
  {
    if (m[k].missionId, m[k].idempotencyKey) in KeysUsed(m, done) {
      var j :| j in done && (m[j].missionId, m[j].idempotencyKey) == (m[k].missionId, m[k].idempotencyKey);
      assert SameKey(m[j], m[k]);
    } else {
      forall j | j in done ensures !SameKey(m[j], m[k]) && !SameKey(m[k], m[j]) {
        assert (m[j].missionId, m[j].idempotencyKey) in KeysUsed(m, done);
      }
    }
  }

  ghost function LiveEffects(m: HandoffMap, keys: set<Id>): set<(Id, Content)>
    requires keys <= m.Keys
  {
    set k | k in keys && !TerminalStatus(m[k].status) :: (m[k].missionId, m[k].contentDigest)
  }

  lemma EffectOne(m: HandoffMap, done: set<Id>, k: Id)
    requires OneEffect(m, done) && k in m && k !in done
    ensures TerminalStatus(m[k].status) ==> OneEffect(m, done + {k}) && LiveEffects(m, done + {k}) == LiveEffects(m, done)
    ensures !TerminalStatus(m[k].status) ==>
              LiveEffects(m, done + {k}) == LiveEffects(m, done) + {(m[k].missionId, m[k].contentDigest)}
    ensures !TerminalStatus(m[k].status) && (m[k].missionId, m[k].contentDigest) in LiveEffects(m, done) ==> !OneEffect(m, m.Keys)
    ensures !TerminalStatus(m[k].status) && (m[k].missionId, m[k].contentDigest) !in LiveEffects(m, done) ==> OneEffect(m, done + {k})
  {
    if !TerminalStatus(m[k].status) {
      if (m[k].missionId, m[k].contentDigest) in LiveEffects(m, done) {
        var j :| j in done && !TerminalStatus(m[j].status) && (m[j].missionId, m[j].contentDigest) == (m[k].missionId, m[k].contentDigest);
        assert SameEffect(m[j], m[k]);
      } else {
        forall j | j in done ensures !SameEffect(m[j], m[k]) && !SameEffect(m[k], m[j]) {
          assert !TerminalStatus(m[j].status) ==> (m[j].missionId, m[j].contentDigest) in LiveEffects(m, done);
        }
      }
    }
  }

  method ValidateRosters(rosters: RosterMap) returns (ok: bool)
    ensures ok <==> AcceptedRosters(rosters)
  {
    var keys := Sorted(rosters.Keys);
    for i := 0 to |keys|
      invariant forall j :: 0 <= j < i ==> keys[j] in rosters && RosterOk(rosters[keys[j]], keys[j])
    {
      assert keys[i] in keys;
      if !RosterOk(rosters[keys[i]], keys[i]) { return false; }
    }
    forall k | k in rosters ensures RosterOk(rosters[k], k) { assert k in keys; }
    ok := true;
  }

  method ValidateRecords(m: HandoffMap, rosters: RosterMap) returns (ok: bool)
    ensures ok <==> HandoffsOk(m, rosters, m.Keys) && OneKey(m, m.Keys)
  {
    var sorted := Sorted(m.Keys);
    var keys: set<(Id, Key)> := {};
    for i := 0 to |sorted|
      invariant HandoffsOk(m, rosters, Seen(sorted, i))
      invariant OneKey(m, Seen(sorted, i)) && keys == KeysUsed(m, Seen(sorted, i))
    {
      SeeOne(sorted, i);
      var key := sorted[i];
      var h := m[key];
      var fine := HandoffOk(rosters, h, key);
      if !fine { return false; }
      UseOne(m, Seen(sorted, i), key);
      if (h.missionId, h.idempotencyKey) in keys { return false; }
      keys := keys + {(h.missionId, h.idempotencyKey)};
    }
    AllSeen(sorted, m.Keys);
    ok := true;
  }

  method ValidateEffects(m: HandoffMap) returns (ok: bool)
    ensures ok <==> OneEffect(m, m.Keys)
  {
    var sorted := Sorted(m.Keys);
    var live: set<(Id, Content)> := {};
    for i := 0 to |sorted|
      invariant OneEffect(m, Seen(sorted, i)) && live == LiveEffects(m, Seen(sorted, i))
    {
      SeeOne(sorted, i);
      var h := m[sorted[i]];
      EffectOne(m, Seen(sorted, i), sorted[i]);
      if !TerminalStatus(h.status) {
        if (h.missionId, h.contentDigest) in live { return false; }
        live := live + {(h.missionId, h.contentDigest)};
      }
    }
    AllSeen(sorted, m.Keys);
    ok := true;
  }

  /** validate_handoffs: rosters, records, live effects, links. */
  method ValidateHandoffs(m: HandoffMap, rosters: RosterMap) returns (ok: bool)
    ensures ok <==> AcceptedHandoffs(m, rosters)
  {
    ok := ValidateRosters(rosters);
    if !ok { return; }
    ok := ValidateRecords(m, rosters);
    if !ok { return; }
    ok := ValidateEffects(m);
    if !ok { return; }
    ok := ValidateLinks(m);
  }

  method ValidateLinks(m: HandoffMap) returns (ok: bool)
    ensures ok <==> Linked(m)
  {
    var sorted := Sorted(m.Keys);
    for i := 0 to |sorted|
      invariant forall j :: 0 <= j < i ==> sorted[j] in m && LinkProblem(m, m[sorted[j]]).None?
    {
      assert sorted[i] in sorted;
      var p := LinkProblem(m, m[sorted[i]]);
      if p.Some? { return false; }
    }
    forall k | k in m ensures LinkProblem(m, m[k]).None? { assert k in sorted; }
    ok := true;
  }
}
