/** The one read of a Mission: validation on receipt, the durable point of a
    read, and the freshness classification (coordination/observation.py).

    A content digest is modelled by the content it covers, so equal digests
    mean equal content; an order-free set digest is a multiset. */
module Observations {
  import opened Record

  const MAX_OBSERVATION_AGE_SECONDS := 900
  const MAX_OBSERVED_CONDITIONS := 64
  const MAX_OBSERVED_REFERENCES := 512
  const MAX_REFERENCE_LIST := 64

  // ------------------------------------------------------------- references

  datatype EvidenceKind = ArtifactDigest | VerificationRecord | ExternalAttestation | NarrativeClaim | ProcessExit

  predicate Satisfying(k: EvidenceKind) { !k.NarrativeClaim? && !k.ProcessExit? }

  datatype ArtifactRole = OriginalInput | Produced | Verification
  datatype Receipt = Receipt(available: bool, contentDigest: Digest, validatedAt: Time)

  datatype Reference =
    | Evidence(id: Id, kind: EvidenceKind, accepted: bool,
               acceptanceDigest: Option<Digest>, acceptedAt: Option<Time>)
    | Artifact(id: Id, role: ArtifactRole, receipt: Option<Receipt>)

  /** A citable name: evidence and artifact ids carry different prefixes. */
  datatype ReferenceId = EvidenceId(n: Id) | ArtifactId(n: Id)

  function IdOf(r: Reference): ReferenceId {
    match r
    case Evidence(id, _, _, _, _) => EvidenceId(id)
    case Artifact(id, _, _) => ArtifactId(id)
  }

  function ReferenceProblem(r: Reference): Option<Problem> {
    match r
    case Evidence(_, kind, accepted, digest, at) =>
      if accepted != digest.Some? || accepted != at.Some? then Some(BadProvenance)
      else if accepted && !Satisfying(kind) then Some(ObservationInconsistent)
      else None
    case Artifact(_, _, _) => None
  }

  /** Neither an acceptance nor a receipt validation postdates the read. */
  predicate Chronological(r: Reference, observedAt: Time) {
    match r
    case Evidence(_, _, accepted, _, at) => accepted && at.Some? ==> at.value <= observedAt
    case Artifact(_, _, receipt) => receipt.Some? ==> receipt.value.validatedAt <= observedAt
  }

  datatype Level = RECORDED | ACCEPTED | VALIDATED

  predicate LevelApplies(id: ReferenceId, level: Level) {
    match level
    case RECORDED => true
    case ACCEPTED => id.EvidenceId?
    case VALIDATED => id.ArtifactId?
  }

  predicate Proves(r: Reference, level: Level, observedAt: Time) {
    match level
    case RECORDED => true
    case ACCEPTED => r.Evidence? && r.accepted && Chronological(r, observedAt)
    case VALIDATED => r.Artifact? && r.receipt.Some? && r.receipt.value.available && Chronological(r, observedAt)
  }

  predicate AscendingIds(refs: seq<Reference>) {
    forall i, j :: 0 <= i < j < |refs| ==> refs[i].id < refs[j].id
  }

  function FirstReferenceProblem(refs: seq<Reference>, evidence: bool): Option<Problem> {
    if refs == [] then None
    else if refs[0].Evidence? != evidence then Some(BadValue)
    else
      var p := ReferenceProblem(refs[0]);
      if p.Some? then p else FirstReferenceProblem(refs[1..], evidence)
  }

  function ReferenceTupleProblem(refs: seq<Reference>, evidence: bool, maxItems: nat): Option<Problem> {
    if |refs| > maxItems then Some(TooLarge) else
      var p := FirstReferenceProblem(refs, evidence);
      if p.Some? then p else if !AscendingIds(refs) then Some(BadValue) else None
  }

  predicate ValidReferences(refs: seq<Reference>, evidence: bool, maxItems: nat) {
    && |refs| <= maxItems
    && (forall i :: 0 <= i < |refs| ==> refs[i].Evidence? == evidence && ReferenceProblem(refs[i]).None?)
    && AscendingIds(refs)
  }

  // ------------------------------------------------------------- conditions

  /** The opaque condition key is an ordered name. */
  type Key = nat

  datatype Condition = Condition(kind: AttentionKind, key: Key, revision: nat, detail: string,
                                 evidence: seq<Reference>, artifacts: seq<Reference>)

  datatype ConditionId = ConditionId(kind: AttentionKind, key: Key)

  function Identity(c: Condition): ConditionId { ConditionId(c.kind, c.key) }

  function ConditionShapeProblem(c: Condition): Option<Problem> {
    if c.revision < 1 then Some(BadValue) else
      var p := ReferenceTupleProblem(c.evidence, true, MAX_REFERENCE_LIST);
      if p.Some? then p else ReferenceTupleProblem(c.artifacts, false, MAX_REFERENCE_LIST)
  }

  predicate ValidConditionShape(c: Condition) {
    && c.revision >= 1
    && ValidReferences(c.evidence, true, MAX_REFERENCE_LIST)
    && ValidReferences(c.artifacts, false, MAX_REFERENCE_LIST)
  }

  // ------------------------------------------------------------ observation

  datatype Observation = Observation(
    missionId: Id, currentRevision: nat, proposal: Digest, lifecycle: Lifecycle,
    authorization: Option<Digest>, stateCursor: string, repositoryUrl: Option<string>,
    conditions: seq<Condition>, evidence: seq<Reference>, artifacts: seq<Reference>,
    observedAt: Time)

  function OwnReferences(o: Observation): seq<Reference> { o.evidence + o.artifacts }

  /** observation.reference: the observation's own record of an id. */
  function Lookup(own: seq<Reference>, id: ReferenceId): (r: Option<Reference>)
    ensures r.Some? ==> r.value in own && IdOf(r.value) == id
    ensures r.None? ==> forall x :: x in own ==> IdOf(x) != id
  {
    if own == [] then None
    else if IdOf(own[0]) == id then Some(own[0])
    else Lookup(own[1..], id)
  }

  predicate CitesOwn(cited: seq<Reference>, own: seq<Reference>) {
    forall i :: 0 <= i < |cited| ==> Lookup(own, IdOf(cited[i])) == Some(cited[i])
  }

  function ConditionProblem(o: Observation, k: nat): Option<Problem>
    requires k < |o.conditions|
  {
    var c := o.conditions[k];
    var p := ConditionShapeProblem(c);
    if p.Some? then p
    else if c.revision != o.currentRevision then Some(ObservationInconsistent)
    else if exists j | 0 <= j < k :: Identity(o.conditions[j]) == Identity(c) then Some(ObservationInconsistent)
    else if !CitesOwn(c.evidence + c.artifacts, OwnReferences(o)) then Some(ObservationInconsistent)
    else None
  }

  function ConditionsProblem(o: Observation, k: nat): Option<Problem>
    requires k <= |o.conditions|
    decreases |o.conditions| - k
  {
    if k == |o.conditions| then None else
      var p := ConditionProblem(o, k);
      if p.Some? then p else ConditionsProblem(o, k + 1)
  }

  /** The first check a received value fails, in the order they are made. */
  function ObservationProblem(o: Observation): Option<Problem> {
    if o.currentRevision < 1 || !CanonicalCursor(o.stateCursor) then Some(BadValue)
    else if |o.conditions| > MAX_OBSERVED_CONDITIONS then Some(TooLarge)
    else
      var p := ReferenceTupleProblem(o.evidence, true, MAX_OBSERVED_REFERENCES);
      if p.Some? then p else
        var q := ReferenceTupleProblem(o.artifacts, false, MAX_OBSERVED_REFERENCES);
        if q.Some? then q
        else if exists i | 0 <= i < |OwnReferences(o)| :: !Chronological(OwnReferences(o)[i], o.observedAt)
        then Some(ObservationInconsistent)
        else ConditionsProblem(o, 0)
  }

  predicate ValidCondition(o: Observation, c: Condition) {
    && ValidConditionShape(c)
    && c.revision == o.currentRevision
    && CitesOwn(c.evidence + c.artifacts, OwnReferences(o))
  }

  predicate DistinctConditions(cs: seq<Condition>) {
    forall i, j :: 0 <= i < j < |cs| ==> Identity(cs[i]) != Identity(cs[j])
  }

  /** What a value that passes every check satisfies. */
  predicate ValidObservation(o: Observation) {
    && o.currentRevision >= 1 && CanonicalCursor(o.stateCursor)
    && |o.conditions| <= MAX_OBSERVED_CONDITIONS
    && ValidReferences(o.evidence, true, MAX_OBSERVED_REFERENCES)
    && ValidReferences(o.artifacts, false, MAX_OBSERVED_REFERENCES)
    && (forall i :: 0 <= i < |OwnReferences(o)| ==> Chronological(OwnReferences(o)[i], o.observedAt))
    && (forall i :: 0 <= i < |o.conditions| ==> ValidCondition(o, o.conditions[i]))
    && DistinctConditions(o.conditions)
  }

  lemma {:induction false} FirstReferenceProblemNone(refs: seq<Reference>, evidence: bool)
    ensures FirstReferenceProblem(refs, evidence).None? <==>
            forall i :: 0 <= i < |refs| ==> refs[i].Evidence? == evidence && ReferenceProblem(refs[i]).None?
  {
    if refs != [] {
      FirstReferenceProblemNone(refs[1..], evidence);
      assert forall i :: 0 < i < |refs| ==> refs[i] == refs[1..][i - 1];
    }
  }

  lemma ShapeProblemNone(c: Condition)
    ensures ConditionShapeProblem(c).None? <==> ValidConditionShape(c)
  {
    FirstReferenceProblemNone(c.evidence, true);
    FirstReferenceProblemNone(c.artifacts, false);
  }

  lemma {:induction false} ConditionsProblemNone(o: Observation, k: nat)
    requires k <= |o.conditions|
    ensures ConditionsProblem(o, k).None? <==>
            forall i :: k <= i < |o.conditions| ==> ConditionProblem(o, i).None?
    decreases |o.conditions| - k
  {
    if k < |o.conditions| { ConditionsProblemNone(o, k + 1); }
  }

  lemma ConditionProblemNone(o: Observation)
    ensures (forall i :: 0 <= i < |o.conditions| ==> ConditionProblem(o, i).None?)
            <==> (forall i :: 0 <= i < |o.conditions| ==> ValidCondition(o, o.conditions[i])) && DistinctConditions(o.conditions)
  {
    forall i | 0 <= i < |o.conditions|
      ensures ConditionProblem(o, i).None? <==>
              ValidCondition(o, o.conditions[i])
              && forall j :: 0 <= j < i ==> Identity(o.conditions[j]) != Identity(o.conditions[i])
    {
      ShapeProblemNone(o.conditions[i]);
    }
  }

  /** The ordered checks accept exactly the coherent observations. */
  lemma ObservationProblemNone(o: Observation)
    ensures ObservationProblem(o).None? <==> ValidObservation(o)
  {
    FirstReferenceProblemNone(o.evidence, true);
    FirstReferenceProblemNone(o.artifacts, false);
    ConditionsProblemNone(o, 0);
    ConditionProblemNone(o);
  }

  /** _require_reference_tuple */
  method RequireReferenceTuple(refs: seq<Reference>, evidence: bool, maxItems: nat) returns (p: Option<Problem>)
    ensures p == ReferenceTupleProblem(refs, evidence, maxItems)
  {
    if |refs| > maxItems { return Some(TooLarge); }
    var ids: seq<Id> := [];
    for i := 0 to |refs|
      invariant FirstReferenceProblem(refs, evidence) == FirstReferenceProblem(refs[i..], evidence)
      invariant |ids| == i && forall k :: 0 <= k < i ==> ids[k] == refs[k].id
    {
      if refs[i].Evidence? != evidence { return Some(BadValue); }
      p := ReferenceProblem(refs[i]);
      if p.Some? { return; }
      ids := ids + [refs[i].id];
      assert refs[i..][1..] == refs[i + 1..];
    }
    for i := 0 to |ids|
      invariant forall a, b :: 0 <= a < b < i ==> ids[a] < ids[b]
    {
      if i > 0 && ids[i] <= ids[i - 1] {
        assert refs[i - 1].id >= refs[i].id;
        return Some(BadValue);
      }
    }
    p := None;
  }

  /** MissionObservation.validate, identities collected as it goes. */
  method Validate(o: Observation) returns (p: Option<Problem>)
    ensures p == ObservationProblem(o)
    ensures p.None? <==> ValidObservation(o)
  {
    ObservationProblemNone(o);
    if o.currentRevision < 1 || !CanonicalCursor(o.stateCursor) { return Some(BadValue); }
    if |o.conditions| > MAX_OBSERVED_CONDITIONS { return Some(TooLarge); }
    p := RequireReferenceTuple(o.evidence, true, MAX_OBSERVED_REFERENCES);
    if p.Some? { return; }
    p := RequireReferenceTuple(o.artifacts, false, MAX_OBSERVED_REFERENCES);
    if p.Some? { return; }
    var known := OwnReferences(o);
    for i := 0 to |known|
      invariant forall k :: 0 <= k < i ==> Chronological(known[k], o.observedAt)
    {
      if !Chronological(known[i], o.observedAt) { return Some(ObservationInconsistent); }
    }
    p := ValidateConditions(o);
  }

  method ValidateConditions(o: Observation) returns (p: Option<Problem>)
    ensures p == ConditionsProblem(o, 0)
  {
    var identities: set<ConditionId> := {};
    for k := 0 to |o.conditions|
      invariant ConditionsProblem(o, 0) == ConditionsProblem(o, k)
      invariant forall id :: id in identities <==> exists j :: 0 <= j < k && Identity(o.conditions[j]) == id
    {
      var c := o.conditions[k];
      if c.revision < 1 { return Some(BadValue); }
      p := RequireReferenceTuple(c.evidence, true, MAX_REFERENCE_LIST);
      if p.Some? { return; }
      p := RequireReferenceTuple(c.artifacts, false, MAX_REFERENCE_LIST);
      if p.Some? { return; }
      if c.revision != o.currentRevision { return Some(ObservationInconsistent); }
      if Identity(c) in identities { return Some(ObservationInconsistent); }
      identities := identities + {Identity(c)};
      if !CitesOwn(c.evidence + c.artifacts, OwnReferences(o)) { return Some(ObservationInconsistent); }
    }
    p := None;
  }

  // ------------------------------------------------------------------ points

  /** The closed durable record of one read. */
  datatype Point = Point(revision: nat, cursor: string, proposal: Digest,
                         authorization: Option<Digest>, lifecycle: Lifecycle,
                         conditionSet: multiset<Condition>, referenceSet: multiset<Reference>)

  /** The points an optional read holds. */
  function Opt(p: Option<Point>): set<Point> { if p.None? then {} else {p.value} }

  predicate ValidPoint(p: Point) { p.revision >= 1 && CanonicalCursor(p.cursor) }

  function PointOf(o: Observation): Point {
    Point(o.currentRevision, o.stateCursor, o.proposal, o.authorization, o.lifecycle,
          multiset(o.conditions), multiset(OwnReferences(o)))
  }

  /** (revision, cursor) order of two reads. */
  predicate Behind(p: Point, q: Point) {
    p.revision < q.revision
    || (p.revision == q.revision && CursorValue(p.cursor) < CursorValue(q.cursor))
  }

  predicate SamePair(p: Point, q: Point) {
    p.revision == q.revision && CursorValue(p.cursor) == CursorValue(q.cursor)
  }

  /** _same_point_disagreement: some recorded content fact is not reproduced. */
  predicate Disagrees(p: Point, floor: Point) {
    || p.proposal != floor.proposal
    || p.authorization != floor.authorization
    || p.lifecycle != floor.lifecycle
    || p.conditionSet != floor.conditionSet
    || p.referenceSet != floor.referenceSet
  }

  lemma SamePairAgreeingIsSamePoint(p: Point, q: Point)
    requires ValidPoint(p) && ValidPoint(q) && SamePair(p, q) && !Disagrees(p, q)
    ensures p == q
  {
    CursorValueInjective(p.cursor, q.cursor);
  }

  // --------------------------------------------------------------- freshness

  datatype Outcome = Observed(observation: Observation) | SourceAbsent | SourceUnavailable

  datatype FreshnessResult = FreshnessResult(freshness: Freshness, observation: Option<Observation>)

  /** The freshness of a source's answer against the durable floor. */
  function Classify(outcome: Outcome, now: Time, mission: Id, floor: Option<Point>): FreshnessResult {
    match outcome
    case SourceUnavailable => FreshnessResult(Unavailable, None)
    case SourceAbsent => FreshnessResult(Absent, None)
    case Observed(o) =>
      var p := ObservationProblem(o);
      if p.Some? then FreshnessResult(if p.value.ObservationInconsistent? then Inconsistent else Unavailable, None)
      else if o.missionId != mission then FreshnessResult(Inconsistent, None)
      else if o.observedAt > now then FreshnessResult(Inconsistent, Some(o))
      else if floor.Some? && Behind(PointOf(o), floor.value) then FreshnessResult(Stale, Some(o))
      else if floor.Some? && SamePair(PointOf(o), floor.value) && Disagrees(PointOf(o), floor.value)
      then FreshnessResult(Inconsistent, Some(o))
      else if now - o.observedAt > MAX_OBSERVATION_AGE_SECONDS then FreshnessResult(Stale, Some(o))
      else FreshnessResult(Fresh, Some(o))
  }

  /** FRESH means exactly: a coherent read of this Mission, not from the
      future, at most 900 seconds old, and beyond the floor or equal to it. */
  lemma FreshExactly(outcome: Outcome, now: Time, mission: Id, floor: Option<Point>)
    requires floor.Some? ==> ValidPoint(floor.value)
    ensures Classify(outcome, now, mission, floor).freshness == Fresh <==>
            && outcome.Observed?
            && ValidObservation(outcome.observation)
            && outcome.observation.missionId == mission
            && outcome.observation.observedAt <= now <= outcome.observation.observedAt + MAX_OBSERVATION_AGE_SECONDS
            && (floor.Some? ==> PointOf(outcome.observation) == floor.value
                                || Behind(floor.value, PointOf(outcome.observation)))
    ensures Classify(outcome, now, mission, floor).freshness == Fresh ==>
            Classify(outcome, now, mission, floor).observation == Some(outcome.observation)
  {
    if outcome.Observed? {
      var o := outcome.observation;
      ObservationProblemNone(o);
      if ValidObservation(o) && floor.Some? && SamePair(PointOf(o), floor.value) && !Disagrees(PointOf(o), floor.value) {
        SamePairAgreeingIsSamePoint(PointOf(o), floor.value);
      }
    }
  }

  /** A classified observation, whatever its freshness, is of the Mission asked. */
  lemma ClassifiedIsOfMission(outcome: Outcome, now: Time, mission: Id, floor: Option<Point>)
    ensures var r := Classify(outcome, now, mission, floor);
            r.observation.Some? ==> r.observation.value.missionId == mission && ValidObservation(r.observation.value)
  {
    if outcome.Observed? { ObservationProblemNone(outcome.observation); }
  }

  // --------------------------------------------------------------- citations

  datatype Citation = Citation(reference: ReferenceId, level: Level)

  /** require_reference_level: the one place a citation is checked. */
  function CitationProblem(o: Observation, c: Citation): Option<Problem> {
    if !LevelApplies(c.reference, c.level) then Some(BadValue) else
      var own := Lookup(OwnReferences(o), c.reference);
      if own.None? then Some(ReferenceNotMissionLocal)
      else if !Proves(own.value, c.level, o.observedAt) then Some(ReferenceNotProven)
      else None
  }

  function CitationsProblem(o: Observation, cs: seq<Citation>): Option<Problem> {
    if cs == [] then None else
      var p := CitationProblem(o, cs[0]);
      if p.Some? then p else CitationsProblem(o, cs[1..])
  }

  /** Every citation that passes names a Mission-local record that positively
      proves the cited level: presence alone never upgrades it. */
  lemma {:induction false} CitationsProven(o: Observation, cs: seq<Citation>)
    ensures CitationsProblem(o, cs).None? <==>
            forall i :: 0 <= i < |cs| ==>
              && LevelApplies(cs[i].reference, cs[i].level)
              && Lookup(OwnReferences(o), cs[i].reference).Some?
              && Proves(Lookup(OwnReferences(o), cs[i].reference).value, cs[i].level, o.observedAt)
  {
    if cs != [] {
      CitationsProven(o, cs[1..]);
      assert forall i :: 0 < i < |cs| ==> cs[i] == cs[1..][i - 1];
    }
  }
}
