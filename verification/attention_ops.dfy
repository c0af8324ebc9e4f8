/** Projecting, surfacing and acknowledging presentation records
    (coordination/attention.py:394-667). */
module AttentionOps {
  import opened Record
  import opened Observations
  import opened Sorting
  import opened Attentions

  // --------------------------------------------------------------- minting

  datatype Minted = Minted(id: Id, rest: seq<Id>)

  /** _fresh_id: the minter's next ids, at most this many tried. */
  function FreshId(supply: seq<Id>, taken: set<Id>, tries: nat): (r: Result<Minted>)
    ensures r.Ok? ==> r.value.id !in taken && r.value.id in supply
    ensures r.Refused? ==> r.problem == BadValue
  {
    if tries == 0 || supply == [] then Refused(BadValue)
    else if supply[0] !in taken then Ok(Minted(supply[0], supply[1..]))
    else
      var r := FreshId(supply[1..], taken, tries - 1);
      assert r.Ok? ==> r.value.id in supply[1..];
      r
  }

  const MINT_TRIES := 8

  // -------------------------------------------------------- record building

  function NewRecord(id: Id, o: Observation, c: Condition, dest: Destination, now: Time): Attention {
    Attention(id, o.missionId, o.currentRevision, c.kind, c.key, c, o.authorization, dest,
              AttentionPriority(c.kind), Pending, now, PointOf(o),
              None, None, None, None, None, None, None, None, None, None, None, None, None)
  }

  /** _disagreement: why a record no longer matches the observed condition. */
  function Disagreement(a: Attention, o: Observation, c: Condition): Option<ClosedReason> {
    if o.currentRevision != a.revision then Some(RevisionChanged)
    else if o.authorization != a.authorization then Some(AuthorityChanged)
    else if c != a.digest then Some(ConditionChanged)
    else None
  }

  function AsClosed(a: Attention, reason: ClosedReason, now: Time, successor: Option<Id>, o: Observation): Attention {
    a.(presentation := if reason.ConditionCleared? then Resolved else Obsolete,
       closedAt := Some(now), closedReason := Some(reason), closedPoint := Some(PointOf(o)),
       supersededBy := successor)
  }

  function Checked(a: Attention): Result<Attention> {
    if ValidAttention(a) then Ok(a) else Refused(BadValue)
  }

  // ------------------------------------------------------------ live records

  predicate LiveAt(a: Attention, mission: Id, dest: Destination) {
    a.missionId == mission && !IsTerminal(a) && a.destination == dest
  }

  function ConditionOf(a: Attention): ConditionId { ConditionId(a.kind, a.key) }

  type LiveMap = map<ConditionId, Id>

  /** _live_records over these keys; a later id replaces an earlier one. */
  function LiveAmong(m: AttentionMap, keys: seq<Id>, mission: Id, dest: Destination): (live: LiveMap)
    requires forall k :: k in keys ==> k in m
    ensures forall w :: w in live ==> live[w] in m
  {
    if keys == [] then map[] else
      var live := LiveAmong(m, keys[..|keys|-1], mission, dest);
      var k := keys[|keys|-1];
      if LiveAt(m[k], mission, dest) then live[ConditionOf(m[k]) := k] else live
  }

  function LiveRecords(m: AttentionMap, mission: Id, dest: Destination): (live: LiveMap)
    ensures forall w :: w in live ==> live[w] in m
  {
    LiveAmong(m, Sorted(m.Keys), mission, dest)
  }

  // -------------------------------------------------------------- order

  function KeysOf(ids: set<ConditionId>, kind: AttentionKind): set<Key> {
    set w | w in ids && w.kind == kind :: w.key
  }

  function OfKind(kind: AttentionKind, keys: seq<Key>): (ids: seq<ConditionId>)
    ensures |ids| == |keys| && forall i :: 0 <= i < |keys| ==> ids[i] == ConditionId(kind, keys[i])
  {
    seq(|keys|, i requires 0 <= i < |keys| => ConditionId(kind, keys[i]))
  }

  /** sorted(...) over condition identities: kind by name, then key. */
  function InOrder(ids: set<ConditionId>): seq<ConditionId> {
    OfKind(AuthorizationReady, Sorted(KeysOf(ids, AuthorizationReady)))
    + OfKind(Blocked, Sorted(KeysOf(ids, Blocked)))
    + OfKind(NeedsHuman, Sorted(KeysOf(ids, NeedsHuman)))
    + OfKind(ResultReady, Sorted(KeysOf(ids, ResultReady)))
  }

  lemma OfKindExactly(ids: set<ConditionId>, kind: AttentionKind, w: ConditionId)
    ensures w in OfKind(kind, Sorted(KeysOf(ids, kind))) <==> w in ids && w.kind == kind
  {
    var keys := Sorted(KeysOf(ids, kind));
    if w in ids && w.kind == kind {
      assert w.key in KeysOf(ids, kind);
      var i :| 0 <= i < |keys| && keys[i] == w.key;
      assert OfKind(kind, keys)[i] == w;
    }
    if w in OfKind(kind, keys) {
      var i :| 0 <= i < |keys| && OfKind(kind, keys)[i] == w;
      assert keys[i] in keys;
    }
  }

  lemma InOrderExactly(ids: set<ConditionId>)
    ensures forall w :: w in InOrder(ids) <==> w in ids
  {
    forall w ensures w in InOrder(ids) <==> w in ids {
      OfKindExactly(ids, AuthorizationReady, w);
      OfKindExactly(ids, Blocked, w);
      OfKindExactly(ids, NeedsHuman, w);
      OfKindExactly(ids, ResultReady, w);
    }
  }

  function IdentitiesOf(cs: seq<Condition>): set<ConditionId> { set c | c in cs :: Identity(c) }

  function ConditionsWith(cs: seq<Condition>, w: ConditionId): seq<Condition> {
    if cs == [] then []
    else (if Identity(cs[0]) == w then [cs[0]] else []) + ConditionsWith(cs[1..], w)
  }

  function Arranged(cs: seq<Condition>, ids: seq<ConditionId>): seq<Condition> {
    if ids == [] then [] else ConditionsWith(cs, ids[0]) + Arranged(cs, ids[1..])
  }

  /** sorted(observed.conditions, key=(kind, key)). */
  function SortedConditions(cs: seq<Condition>): seq<Condition> {
    Arranged(cs, InOrder(IdentitiesOf(cs)))
  }

  // ------------------------------------------------------------ reconciling

  /** The document's records, the minter, and the four id lists so far. */
  datatype Work = Work(records: AttentionMap, supply: seq<Id>, created: seq<Id>, suppressed: seq<Id>,
                       obsoleted: seq<Id>, resolved: seq<Id>)

  ghost predicate LiveIn(live: LiveMap, m: AttentionMap) { forall w :: w in live ==> live[w] in m }

  /** One observed condition against its live record, if any. */
  function ApplyCondition(w: Work, o: Observation, dest: Destination, live: LiveMap, c: Condition, now: Time): (r: Result<Work>)
    requires LiveIn(live, w.records)
    ensures r.Ok? ==> LiveIn(live, r.value.records)
  {
    var who := Identity(c);
    if who in live && Disagreement(w.records[live[who]], o, c).None? then
      Ok(w.(suppressed := w.suppressed + [w.records[live[who]].attentionId]))
    else
      var minted :- FreshId(w.supply, w.records.Keys, MINT_TRIES);
      var made :- Checked(NewRecord(minted.id, o, c, dest, now));
      var added := w.records[minted.id := made];
      if who !in live then
        Ok(w.(records := added, supply := minted.rest, created := w.created + [minted.id]))
      else
        var current := w.records[live[who]];
        var closed :- Checked(AsClosed(current, Disagreement(current, o, c).value, now, Some(minted.id), o));
        Ok(w.(records := added[live[who] := closed], supply := minted.rest, created := w.created + [minted.id],
              obsoleted := w.obsoleted + [current.attentionId]))
  }

  function ApplyAll(w: Work, o: Observation, dest: Destination, live: LiveMap, cs: seq<Condition>, now: Time): (r: Result<Work>)
    requires LiveIn(live, w.records)
    ensures r.Ok? ==> LiveIn(live, r.value.records)
    decreases |cs|
  {
    if cs == [] then Ok(w) else
      var w' :- ApplyCondition(w, o, dest, live, cs[0], now);
      ApplyAll(w', o, dest, live, cs[1..], now)
  }

  /** A live record whose condition was not observed resolves. */
  function ResolveOne(w: Work, o: Observation, live: LiveMap, who: ConditionId, now: Time): (r: Result<Work>)
    requires LiveIn(live, w.records) && who in live
    ensures r.Ok? ==> LiveIn(live, r.value.records)
  {
    var current := w.records[live[who]];
    var closed :- Checked(AsClosed(current, ConditionCleared, now, None, o));
    Ok(w.(records := w.records[live[who] := closed], resolved := w.resolved + [current.attentionId]))
  }

  function ResolveAll(w: Work, o: Observation, live: LiveMap, ids: seq<ConditionId>, now: Time): (r: Result<Work>)
    requires LiveIn(live, w.records) && forall who :: who in ids ==> who in live
    ensures r.Ok? ==> LiveIn(live, r.value.records)
    decreases |ids|
  {
    if ids == [] then Ok(w) else
      var w' :- ResolveOne(w, o, live, ids[0], now);
      ResolveAll(w', o, live, ids[1..], now)
  }

  /** The live identities no condition names, in order. */
  function Unseen(live: LiveMap, cs: seq<Condition>): (ids: seq<ConditionId>)
    ensures forall who :: who in ids <==> who in live && who !in IdentitiesOf(cs)
  {
    InOrderExactly(live.Keys - IdentitiesOf(cs));
    InOrder(live.Keys - IdentitiesOf(cs))
  }

  /** _reconcile */
  function Reconcile(w: Work, o: Observation, dest: Destination, live: LiveMap, cs: seq<Condition>, now: Time): (r: Result<Work>)
    requires LiveIn(live, w.records)
    ensures r.Ok? ==> LiveIn(live, r.value.records)
  {
    var applied :- ApplyAll(w, o, dest, live, cs, now);
    ResolveAll(applied, o, live, Unseen(live, cs), now)
  }

  // ------------------------------------------------------------- operations

  function NoWork(m: AttentionMap, supply: seq<Id>): Work { Work(m, supply, [], [], [], []) }

  predicate IsFresh(looked: FreshnessResult) { looked.freshness.Fresh? && looked.observation.Some? }

  /** project: only a FRESH observation changes anything. */
  function Project(m: AttentionMap, mission: Id, dest: Destination, looked: FreshnessResult, now: Time,
                   supply: seq<Id>): Result<Work>
  {
    if looked.observation.Some? && looked.observation.value.missionId != mission then Refused(MissionMismatch)
    else if !IsFresh(looked) then Ok(NoWork(m, supply))
    else
      var o := looked.observation.value;
      Reconcile(NoWork(m, supply), o, dest, LiveRecords(m, mission, dest), SortedConditions(o.conditions), now)
  }

  /** What the presentation seam reports; anything else it does is NotShown. */
  datatype PresenterReceipt = Shown(messageRef: string) | NotShown

  datatype SurfaceOutcome = SurfaceOutcome(surfaced: bool, contradicted: bool, freshness: Freshness, work: Work)

  function RequireLive(m: AttentionMap, id: Id): Result<Attention> {
    if id !in m then Refused(BadValue)
    else if IsTerminal(m[id]) then Refused(AttentionTerminal)
    else Ok(m[id])
  }

  function SurfacedRecord(a: Attention, messageRef: string, o: Observation, now: Time): Attention {
    a.(presentation := Surfaced, surfacedAt := Some(now), surfacedMessage := Some(messageRef),
       surfacedFreshness := Some(Fresh), surfacedPoint := Some(PointOf(o)))
  }

  /** Whether the observation contradicts this record, and why. */
  function Contradiction(a: Attention, o: Observation): Option<ClosedReason> {
    var matching := ConditionsWith(o.conditions, ConditionOf(a));
    if matching == [] then Some(ConditionCleared) else Disagreement(a, o, matching[0])
  }

  /** surface: PENDING to SURFACED, or a truthful non-transition. */
  function Surface(m: AttentionMap, id: Id, looked: FreshnessResult, receipt: PresenterReceipt, now: Time,
                   supply: seq<Id>): Result<SurfaceOutcome>
  {
    var a :- RequireLive(m, id);
    if !a.presentation.Pending? then Refused(InvalidTransition)
    else if looked.observation.Some? && looked.observation.value.missionId != a.missionId then Refused(MissionMismatch)
    else if !IsFresh(looked) then Ok(SurfaceOutcome(false, false, looked.freshness, NoWork(m, supply)))
    else
      var o := looked.observation.value;
      if Contradiction(a, o).Some? then
        var w :- Reconcile(NoWork(m, supply), o, a.destination, map[ConditionOf(a) := id],
                           ConditionsWith(o.conditions, ConditionOf(a)), now);
        Ok(SurfaceOutcome(false, true, Fresh, w))
      else if receipt.NotShown? then Ok(SurfaceOutcome(false, false, Fresh, NoWork(m, supply)))
      else
        var shown :- Checked(SurfacedRecord(a, receipt.messageRef, o, now));
        Ok(SurfaceOutcome(true, false, Fresh, NoWork(m[id := shown], supply)))
  }

  function AcknowledgedRecord(a: Attention, context: Context, looked: FreshnessResult, now: Time): Attention {
    var read := if IsFresh(looked) then Some(PointOf(looked.observation.value)) else None;
    a.(presentation := Acknowledged, ackAt := Some(now), ackBy := Some(context),
       ackFreshness := Some(looked.freshness),
       ackCursor := if read.None? then None else Some(read.value.cursor), ackPoint := read)
  }

  /** acknowledge: a human's acknowledgment, at any freshness. */
  function Acknowledge(m: AttentionMap, id: Id, context: Context, looked: FreshnessResult, now: Time): Result<AttentionMap> {
    var a :- RequireLive(m, id);
    if a.presentation.Acknowledged? then Refused(InvalidTransition)
    else if looked.observation.Some? && looked.observation.value.missionId != a.missionId then Refused(MissionMismatch)
    else
      var acked :- Checked(AcknowledgedRecord(a, context, looked, now));
      Ok(m[id := acked])
  }
}
