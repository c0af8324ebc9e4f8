/** What an observation must say to be believed, and how its freshness is told,
    in plain readings of its fields (coordination/observation.py). */
module ObservationFields {
  import opened Record
  import opened Observations

  // --------------------------------------------------------------- references

  /** Acceptance comes with its digest and time, and only of evidence that can
      satisfy an expectation. */
  predicate PlainReference(r: Reference) {
    match r
    case Evidence(_, kind, accepted, digest, at) =>
      && (accepted <==> digest.Some?) && (accepted <==> at.Some?)
      && (accepted ==> kind in {ArtifactDigest, VerificationRecord, ExternalAttestation})
    case Artifact(_, _, _) => true
  }

  /** Nothing it records happened after the read. */
  predicate InTime(r: Reference, observedAt: Time) {
    match r
    case Evidence(_, _, _, _, at) => at.Some? ==> at.value <= observedAt
    case Artifact(_, _, receipt) => receipt.Some? ==> receipt.value.validatedAt <= observedAt
  }

  /** A bounded list of one kind of references, by ascending id. */
  predicate Listed(refs: seq<Reference>, evidence: bool, most: nat) {
    && |refs| <= most
    && (forall i :: 0 <= i < |refs| ==> refs[i].Evidence? == evidence && PlainReference(refs[i]))
    && (forall i, j :: 0 <= i < j < |refs| ==> refs[i].id < refs[j].id)
  }

  /** Decimal digits, at most 128, without a leading zero. */
  predicate WrittenCursor(s: string) {
    && 1 <= |s| <= 128 && (forall i :: 0 <= i < |s| ==> '0' <= s[i] <= '9') && (s[0] == '0' ==> |s| == 1)
  }

  predicate ReportsCondition(o: Observation, c: Condition) {
    && c.revision == o.currentRevision
    && Listed(c.evidence, true, 64) && (forall i :: 0 <= i < |c.evidence| ==> c.evidence[i] in o.evidence)
    && Listed(c.artifacts, false, 64) && (forall i :: 0 <= i < |c.artifacts| ==> c.artifacts[i] in o.artifacts)
  }

  /** Every rule an observation is believed by. */
  predicate WellReported(o: Observation) {
    && 1 <= o.currentRevision && WrittenCursor(o.stateCursor)
    && Listed(o.evidence, true, 512) && (forall i :: 0 <= i < |o.evidence| ==> InTime(o.evidence[i], o.observedAt))
    && Listed(o.artifacts, false, 512) && (forall i :: 0 <= i < |o.artifacts| ==> InTime(o.artifacts[i], o.observedAt))
    && |o.conditions| <= 64 && (forall i :: 0 <= i < |o.conditions| ==> ReportsCondition(o, o.conditions[i]))
    && (forall i, j :: 0 <= i < j < |o.conditions| ==>
          o.conditions[i].kind != o.conditions[j].kind || o.conditions[i].key != o.conditions[j].key)
  }

  lemma ReferenceOnFields(r: Reference)
    ensures ReferenceProblem(r).None? <==> PlainReference(r)
    ensures forall at :: PlainReference(r) ==> (Chronological(r, at) <==> InTime(r, at))
  {
  }

  lemma ListedExactly(refs: seq<Reference>, evidence: bool, most: nat)
    ensures ValidReferences(refs, evidence, most) <==> Listed(refs, evidence, most)
  {
    forall i | 0 <= i < |refs| ensures ReferenceProblem(refs[i]).None? <==> PlainReference(refs[i]) { ReferenceOnFields(refs[i]); }
  }

  lemma CursorOnFields(s: string)
    ensures CanonicalCursor(s) <==> WrittenCursor(s)
  {
  }

  /** One list has one reference of an id. */
  lemma OneOfAnId(refs: seq<Reference>, evidence: bool, most: nat, i: nat, j: nat)
    requires Listed(refs, evidence, most) && i < |refs| && j < |refs| && refs[i].id == refs[j].id
    ensures i == j
  {
  }

  /** The observation's own record of an id is the one record with that id. */
  lemma LookupIs(o: Observation, r: Reference)
    requires Listed(o.evidence, true, 512) && Listed(o.artifacts, false, 512)
    ensures Lookup(OwnReferences(o), IdOf(r)) == Some(r) <==> r in o.evidence || r in o.artifacts
  {
    var own := OwnReferences(o);
    var found := Lookup(own, IdOf(r));
    if r in o.evidence {
      assert r in own;
      var i :| 0 <= i < |o.evidence| && o.evidence[i] == r;
      forall x | x in own && IdOf(x) == IdOf(r) ensures x == r {
        assert x in o.evidence;
        var j :| 0 <= j < |o.evidence| && o.evidence[j] == x;
        OneOfAnId(o.evidence, true, 512, i, j);
      }
    } else if r in o.artifacts {
      assert r in own;
      var i :| 0 <= i < |o.artifacts| && o.artifacts[i] == r;
      forall x | x in own && IdOf(x) == IdOf(r) ensures x == r {
        assert x in o.artifacts;
        var j :| 0 <= j < |o.artifacts| && o.artifacts[j] == x;
        OneOfAnId(o.artifacts, false, 512, i, j);
      }
    }
  }

  // ------------------------------------------------------------- observations

  lemma KindOf(o: Observation, r: Reference)
    requires Listed(o.evidence, true, 512) && Listed(o.artifacts, false, 512)
    ensures r in o.evidence ==> r.Evidence?
    ensures r in o.artifacts ==> r.Artifact?
  {
  }

  lemma CitesOnFields(o: Observation, c: Condition)
    requires Listed(o.evidence, true, 512) && Listed(o.artifacts, false, 512)
    requires Listed(c.evidence, true, 64) && Listed(c.artifacts, false, 64)
    ensures CitesOwn(c.evidence + c.artifacts, OwnReferences(o))
            <==> && (forall i :: 0 <= i < |c.evidence| ==> c.evidence[i] in o.evidence)
                 && (forall i :: 0 <= i < |c.artifacts| ==> c.artifacts[i] in o.artifacts)
  {
    var cited := c.evidence + c.artifacts;
    forall i | 0 <= i < |cited|
      ensures Lookup(OwnReferences(o), IdOf(cited[i])) == Some(cited[i])
              <==> if i < |c.evidence| then c.evidence[i] in o.evidence else c.artifacts[i - |c.evidence|] in o.artifacts
    {
      LookupIs(o, cited[i]);
      KindOf(o, cited[i]);
    }
    assert forall i :: 0 <= i < |c.evidence| ==> cited[i] == c.evidence[i];
    assert forall i :: 0 <= i < |c.artifacts| ==> cited[|c.evidence| + i] == c.artifacts[i];
  }

  lemma ConditionOnFields(o: Observation, c: Condition)
    requires 1 <= o.currentRevision && Listed(o.evidence, true, 512) && Listed(o.artifacts, false, 512)
    ensures ValidCondition(o, c) <==> ReportsCondition(o, c)
  {
    ListedExactly(c.evidence, true, 64);
    ListedExactly(c.artifacts, false, 64);
    if Listed(c.evidence, true, 64) && Listed(c.artifacts, false, 64) { CitesOnFields(o, c); }
  }

  lemma TimesOnFields(o: Observation)
    requires Listed(o.evidence, true, 512) && Listed(o.artifacts, false, 512)
    ensures (forall i :: 0 <= i < |OwnReferences(o)| ==> Chronological(OwnReferences(o)[i], o.observedAt))
            <==> && (forall i :: 0 <= i < |o.evidence| ==> InTime(o.evidence[i], o.observedAt))
                 && (forall i :: 0 <= i < |o.artifacts| ==> InTime(o.artifacts[i], o.observedAt))
  {
    var own := OwnReferences(o);
    forall i | 0 <= i < |own| ensures Chronological(own[i], o.observedAt) <==> InTime(own[i], o.observedAt) { ReferenceOnFields(own[i]); }
    assert forall i :: 0 <= i < |o.evidence| ==> own[i] == o.evidence[i];
    assert forall i :: 0 <= i < |o.artifacts| ==> own[|o.evidence| + i] == o.artifacts[i];
  }

  /** An observation passes validation exactly when it is well reported. */
  lemma ValidExactly(o: Observation)
    ensures ObservationProblem(o).None? <==> WellReported(o)
    ensures ValidObservation(o) <==> WellReported(o)
  {
    ObservationProblemNone(o);
    ListedExactly(o.evidence, true, 512);
    ListedExactly(o.artifacts, false, 512);
    CursorOnFields(o.stateCursor);
    if 1 <= o.currentRevision && Listed(o.evidence, true, 512) && Listed(o.artifacts, false, 512) {
      TimesOnFields(o);
      forall i | 0 <= i < |o.conditions| ensures ValidCondition(o, o.conditions[i]) <==> ReportsCondition(o, o.conditions[i]) {
        ConditionOnFields(o, o.conditions[i]);
      }
    }
  }

  // ------------------------------------------------- malformed or incoherent

  predicate Paired(r: Reference) {
    r.Evidence? ==> (r.accepted <==> r.acceptanceDigest.Some?) && (r.accepted <==> r.acceptedAt.Some?)
  }

  predicate MayBeAccepted(r: Reference) {
    r.Evidence? && r.accepted ==> r.kind in {ArtifactDigest, VerificationRecord, ExternalAttestation}
  }

  predicate Shapely(refs: seq<Reference>, evidence: bool, most: nat) {
    && |refs| <= most && (forall i :: 0 <= i < |refs| ==> refs[i].Evidence? == evidence && Paired(refs[i]))
    && (forall i, j :: 0 <= i < j < |refs| ==> refs[i].id < refs[j].id)
  }

  predicate AllMayBe(refs: seq<Reference>) { forall i :: 0 <= i < |refs| ==> MayBeAccepted(refs[i]) }

  /** Every value is of its type, every list bounded and sorted. */
  predicate Shaped(o: Observation) {
    && 1 <= o.currentRevision && WrittenCursor(o.stateCursor) && |o.conditions| <= 64
    && Shapely(o.evidence, true, 512) && Shapely(o.artifacts, false, 512)
    && (forall i :: 0 <= i < |o.conditions| ==>
          && 1 <= o.conditions[i].revision
          && Shapely(o.conditions[i].evidence, true, 64) && Shapely(o.conditions[i].artifacts, false, 64))
  }

  predicate CoherentCondition(o: Observation, c: Condition) {
    && c.revision == o.currentRevision && AllMayBe(c.evidence) && AllMayBe(c.artifacts)
    && (forall i :: 0 <= i < |c.evidence| ==> c.evidence[i] in o.evidence)
    && (forall i :: 0 <= i < |c.artifacts| ==> c.artifacts[i] in o.artifacts)
  }

  /** What it says of different things agrees. */
  predicate Coherent(o: Observation) {
    && AllMayBe(o.evidence) && (forall i :: 0 <= i < |o.evidence| ==> InTime(o.evidence[i], o.observedAt))
    && AllMayBe(o.artifacts) && (forall i :: 0 <= i < |o.artifacts| ==> InTime(o.artifacts[i], o.observedAt))
    && (forall i :: 0 <= i < |o.conditions| ==> CoherentCondition(o, o.conditions[i]))
    && (forall i, j :: 0 <= i < j < |o.conditions| ==>
          o.conditions[i].kind != o.conditions[j].kind || o.conditions[i].key != o.conditions[j].key)
  }

  lemma WellReportedExactly(o: Observation)
    ensures WellReported(o) <==> Shaped(o) && Coherent(o)
  {
    ListedIsBoth(o.evidence, true, 512);
    ListedIsBoth(o.artifacts, false, 512);
    forall i | 0 <= i < |o.conditions|
      ensures Listed(o.conditions[i].evidence, true, 64) <==> Shapely(o.conditions[i].evidence, true, 64) && AllMayBe(o.conditions[i].evidence)
      ensures Listed(o.conditions[i].artifacts, false, 64) <==> Shapely(o.conditions[i].artifacts, false, 64) && AllMayBe(o.conditions[i].artifacts)
    {
      ListedIsBoth(o.conditions[i].evidence, true, 64);
      ListedIsBoth(o.conditions[i].artifacts, false, 64);
    }
  }

  lemma ListedIsBoth(refs: seq<Reference>, evidence: bool, most: nat)
    ensures Listed(refs, evidence, most) <==> Shapely(refs, evidence, most) && AllMayBe(refs)
  {
    forall i | 0 <= i < |refs| ensures PlainReference(refs[i]) <==> Paired(refs[i]) && MayBeAccepted(refs[i]) {}
  }

  lemma {:induction false} FirstOfShapely(refs: seq<Reference>, evidence: bool)
    requires forall i :: 0 <= i < |refs| ==> refs[i].Evidence? == evidence && Paired(refs[i])
    ensures FirstReferenceProblem(refs, evidence) in {None, Some(ObservationInconsistent)}
  {
    if refs != [] { FirstOfShapely(refs[1..], evidence); }
  }

  lemma {:induction false} FirstOfAccepted(refs: seq<Reference>, evidence: bool)
    requires AllMayBe(refs)
    ensures FirstReferenceProblem(refs, evidence) != Some(ObservationInconsistent)
  {
    if refs != [] {
      assert MayBeAccepted(refs[0]);
      FirstOfAccepted(refs[1..], evidence);
    }
  }

  lemma {:induction false} ShapedConditions(o: Observation, k: nat)
    requires Shaped(o) && k <= |o.conditions|
    ensures ConditionsProblem(o, k) in {None, Some(ObservationInconsistent)}
    decreases |o.conditions| - k
  {
    if k < |o.conditions| {
      FirstOfShapely(o.conditions[k].evidence, true);
      FirstOfShapely(o.conditions[k].artifacts, false);
      ShapedConditions(o, k + 1);
    }
  }

  lemma ShapedProblem(o: Observation)
    requires Shaped(o)
    ensures ObservationProblem(o) in {None, Some(ObservationInconsistent)}
  {
    CursorOnFields(o.stateCursor);
    FirstOfShapely(o.evidence, true);
    FirstOfShapely(o.artifacts, false);
    ShapedConditions(o, 0);
  }

  lemma CoherentOne(o: Observation, k: nat)
    requires Coherent(o) && k < |o.conditions| && Listed(o.evidence, true, 512) && Listed(o.artifacts, false, 512)
    ensures ConditionProblem(o, k) != Some(ObservationInconsistent)
  {
    var c := o.conditions[k];
    FirstOfAccepted(c.evidence, true);
    FirstOfAccepted(c.artifacts, false);
    ListedIsBoth(c.evidence, true, 64);
    ListedIsBoth(c.artifacts, false, 64);
    ShapeProblemNone(c);
    ListedExactly(c.evidence, true, 64);
    ListedExactly(c.artifacts, false, 64);
    if ConditionShapeProblem(c).None? { CitesOnFields(o, c); }
  }

  lemma {:induction false} CoherentConditions(o: Observation, k: nat)
    requires Coherent(o) && k <= |o.conditions| && Listed(o.evidence, true, 512) && Listed(o.artifacts, false, 512)
    ensures ConditionsProblem(o, k) != Some(ObservationInconsistent)
    decreases |o.conditions| - k
  {
    if k < |o.conditions| {
      CoherentOne(o, k);
      CoherentConditions(o, k + 1);
    }
  }

  lemma OwnListsChecked(refs: seq<Reference>, evidence: bool, most: nat)
    requires AllMayBe(refs)
    ensures ReferenceTupleProblem(refs, evidence, most) != Some(ObservationInconsistent)
    ensures ReferenceTupleProblem(refs, evidence, most).None? ==> Listed(refs, evidence, most)
  {
    FirstOfAccepted(refs, evidence);
    FirstReferenceProblemNone(refs, evidence);
    ListedExactly(refs, evidence, most);
  }

  lemma CoherentProblem(o: Observation)
    requires Coherent(o)
    ensures ObservationProblem(o) != Some(ObservationInconsistent)
  {
    OwnListsChecked(o.evidence, true, 512);
    OwnListsChecked(o.artifacts, false, 512);
    if Listed(o.evidence, true, 512) && Listed(o.artifacts, false, 512) {
      TimesOnFields(o);
      CoherentConditions(o, 0);
    }
  }

  // ---------------------------------------------------------------- citations

  predicate HasId(r: Reference, id: ReferenceId) {
    match id
    case EvidenceId(n) => r.Evidence? && r.id == n
    case ArtifactId(n) => r.Artifact? && r.id == n
  }

  /** A record that backs a citation at this level: accepted evidence, or an
      artifact validated as available; any record of it when only recorded. */
  predicate Backs(r: Reference, level: Level) {
    match level
    case RECORDED => true
    case ACCEPTED => r.Evidence? && r.accepted
    case VALIDATED => r.Artifact? && r.receipt.Some? && r.receipt.value.available
  }

  /** The observation records what is cited, at the level it is cited. */
  predicate Backed(o: Observation, c: Citation) {
    exists r :: r in o.evidence + o.artifacts && HasId(r, c.reference) && Backs(r, c.level)
  }

  lemma ProvesOnFields(o: Observation, r: Reference, level: Level)
    requires WellReported(o) && (r in o.evidence || r in o.artifacts)
    ensures Proves(r, level, o.observedAt) <==> Backs(r, level)
    ensures forall id :: HasId(r, id) <==> IdOf(r) == id
    ensures Backs(r, level) ==> LevelApplies(IdOf(r), level)
  {
    ReferenceOnFields(r);
  }

  lemma CitationOnFields(o: Observation, c: Citation)
    requires WellReported(o)
    ensures CitationProblem(o, c).None? <==> Backed(o, c)
  {
    var own := OwnReferences(o);
    var found := Lookup(own, c.reference);
    if found.Some? { ProvesOnFields(o, found.value, c.level); }
    if Backed(o, c) {
      var r :| r in o.evidence + o.artifacts && HasId(r, c.reference) && Backs(r, c.level);
      ProvesOnFields(o, r, c.level);
      LookupIs(o, r);
    }
  }

  /** All citations are backed by the observation. */
  ghost predicate AllBacked(o: Observation, cs: seq<Citation>) { forall i :: 0 <= i < |cs| ==> Backed(o, cs[i]) }

  lemma {:induction false} CitationsOnFields(o: Observation, cs: seq<Citation>)
    requires WellReported(o)
    ensures CitationsProblem(o, cs).None? <==> AllBacked(o, cs)
  {
    if cs != [] {
      CitationOnFields(o, cs[0]);
      CitationsOnFields(o, cs[1..]);
      assert forall i :: 0 < i < |cs| ==> cs[i] == cs[1..][i - 1];
    }
  }

  // ---------------------------------------------------------------- freshness

  /** The durable record of this read. */
  predicate PointAt(p: Point, o: Observation) {
    && p.revision == o.currentRevision && p.cursor == o.stateCursor && p.proposal == o.proposal
    && p.authorization == o.authorization && p.lifecycle == o.lifecycle
    && p.conditionSet == multiset(o.conditions) && p.referenceSet == multiset(o.evidence + o.artifacts)
  }

  lemma PointOnFields(o: Observation, p: Point)
    ensures PointAt(p, o) <==> p == PointOf(o)
  {
  }

  /** The read is behind what is recorded: an older revision, or an older cursor of it. */
  predicate Older(o: Observation, floor: Point) {
    o.currentRevision < floor.revision
    || (o.currentRevision == floor.revision && CursorValue(o.stateCursor) < CursorValue(floor.cursor))
  }

  /** At the very revision and cursor recorded, it says something else. */
  predicate Rewrites(o: Observation, floor: Point) {
    && o.currentRevision == floor.revision && CursorValue(o.stateCursor) == CursorValue(floor.cursor)
    && !(&& o.proposal == floor.proposal && o.authorization == floor.authorization && o.lifecycle == floor.lifecycle
         && multiset(o.conditions) == floor.conditionSet && multiset(o.evidence + o.artifacts) == floor.referenceSet)
  }

  /** How a well-reported read is told: by its Mission, the clock, the floor
      recorded, and its age, in that order. */
  predicate Told(o: Observation, now: Time, m: Id, floor: Option<Point>, f: Freshness) {
    if o.missionId != m || now < o.observedAt then f == Inconsistent
    else if floor.Some? && Older(o, floor.value) then f == Stale
    else if floor.Some? && Rewrites(o, floor.value) then f == Inconsistent
    else f == if now <= o.observedAt + 900 then Fresh else Stale
  }

  /** Every answer of the source is told so. */
  lemma ClassifiedExactly(outcome: Outcome, now: Time, m: Id, floor: Option<Point>)
    ensures var r := Classify(outcome, now, m, floor);
            && (r.freshness == Absent <==> outcome.SourceAbsent?)
            && (outcome.SourceUnavailable? ==> r.freshness == Unavailable)
            && (outcome.Observed? && !WellReported(outcome.observation) ==>
                  && r.freshness in {Inconsistent, Unavailable} && r.observation == None
                  && (Shaped(outcome.observation) ==> r.freshness == Inconsistent)
                  && (Coherent(outcome.observation) ==> r.freshness == Unavailable))
            && (outcome.Observed? && WellReported(outcome.observation) ==>
                  && Told(outcome.observation, now, m, floor, r.freshness)
                  && r.observation == (if outcome.observation.missionId == m then Some(outcome.observation) else None))
  {
    if outcome.Observed? {
      var o := outcome.observation;
      ValidExactly(o);
      if Shaped(o) { ShapedProblem(o); }
      if Coherent(o) { CoherentProblem(o); }
    }
  }
}
