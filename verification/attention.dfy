/** Presentation records: their coherence, the loader's cross-record rules, and
    what a successor chain is (coordination/attention.py:185-391).

    A condition digest is modelled by the condition it covers. */
module Attentions {
  import opened Record
  import opened Observations
  import opened Sorting

  datatype Attention = Attention(
    attentionId: Id, missionId: Id, revision: nat, kind: AttentionKind, key: Key, digest: Condition,
    authorization: Option<Digest>, destination: Destination, priority: nat, presentation: Presentation,
    createdAt: Time, point: Point,
    surfacedAt: Option<Time>, surfacedMessage: Option<string>, surfacedFreshness: Option<Freshness>,
    surfacedPoint: Option<Point>,
    ackAt: Option<Time>, ackBy: Option<Context>, ackFreshness: Option<Freshness>, ackCursor: Option<string>,
    ackPoint: Option<Point>,
    closedAt: Option<Time>, closedReason: Option<ClosedReason>, closedPoint: Option<Point>,
    supersededBy: Option<Id>)

  type AttentionMap = map<Id, Attention>

  datatype AttentionIdentity = AttentionIdentity(mission: Id, condition: ConditionId, destination: Destination)

  function IdentityOf(a: Attention): AttentionIdentity {
    AttentionIdentity(a.missionId, ConditionId(a.kind, a.key), a.destination)
  }

  predicate IsTerminal(a: Attention) { TerminalPresentation(a.presentation) }

  // ------------------------------------------------------- one record's rules

  predicate SameBinding(a: Attention, p: Point) {
    ValidPoint(p) && p.revision == a.revision && p.authorization == a.authorization
  }

  predicate SurfacingCoherent(a: Attention) {
    && (a.surfacedAt.Some? <==> a.surfacedMessage.Some?)
    && (a.surfacedAt.Some? <==> a.surfacedFreshness.Some?)
    && (a.surfacedAt.Some? <==> a.surfacedPoint.Some?)
    && (a.surfacedFreshness.Some? ==> a.surfacedFreshness == Some(Fresh))
    && (a.surfacedPoint.Some? ==> SameBinding(a, a.surfacedPoint.value))
    && (a.surfacedAt.Some? ==> a.createdAt <= a.surfacedAt.value)
  }

  predicate AcknowledgmentCoherent(a: Attention) {
    && (a.ackAt.Some? <==> a.ackBy.Some?)
    && (a.ackAt.Some? <==> a.ackFreshness.Some?)
    && (a.ackCursor.Some? <==> a.ackFreshness == Some(Fresh))
    && (a.ackPoint.Some? <==> a.ackFreshness == Some(Fresh))
    && (a.ackPoint.Some? ==> ValidPoint(a.ackPoint.value) && a.ackCursor == Some(a.ackPoint.value.cursor))
    && (a.ackAt.Some? ==> a.createdAt <= a.ackAt.value)
  }

  predicate ClosureCoherent(a: Attention) {
    && (a.closedAt.Some? <==> IsTerminal(a))
    && (a.closedAt.Some? <==> a.closedReason.Some?)
    && (a.closedAt.Some? <==> a.closedPoint.Some?)
    && (a.closedPoint.Some? ==> ValidPoint(a.closedPoint.value))
    && (a.closedAt.Some? ==> a.createdAt <= a.closedAt.value)
    && (a.supersededBy.Some? <==> a.presentation.Obsolete?)
    && (a.presentation.Obsolete? ==> !a.closedReason.value.ConditionCleared?)
    && (a.presentation.Resolved? ==> a.closedReason.value.ConditionCleared?)
    && a.supersededBy != Some(a.attentionId)
  }

  predicate StateCoherent(a: Attention) {
    match a.presentation
    case Pending => a.surfacedAt.None? && a.ackAt.None?
    case Surfaced => a.surfacedAt.Some? && a.ackAt.None?
    case Acknowledged => a.ackAt.Some?
    case _ => true
  }

  /** validate_attention: one record's coherence rules. */
  predicate ValidAttention(a: Attention) {
    && a.revision >= 1
    && a.priority == AttentionPriority(a.kind)
    && SameBinding(a, a.point)
    && SurfacingCoherent(a) && AcknowledgmentCoherent(a) && ClosureCoherent(a) && StateCoherent(a)
  }

  // -------------------------------------------------------- cross-record rules

  ghost predicate Keyed(m: AttentionMap) {
    forall k :: k in m ==> ValidAttention(m[k]) && m[k].attentionId == k
  }

  predicate Rivals(a: Attention, b: Attention) {
    !IsTerminal(a) && !IsTerminal(b) && IdentityOf(a) == IdentityOf(b)
  }

  ghost predicate OneLive(m: AttentionMap) {
    forall j, k :: j in m && k in m && Rivals(m[j], m[k]) ==> j == k
  }

  predicate SuccessorOk(m: AttentionMap, a: Attention) {
    a.supersededBy.Some? ==>
      && a.supersededBy.value in m
      && IdentityOf(m[a.supersededBy.value]) == IdentityOf(a)
      && a.createdAt <= m[a.supersededBy.value].createdAt
  }

  ghost predicate SuccessorsExist(m: AttentionMap) { forall k :: k in m ==> SuccessorOk(m, m[k]) }

  predicate Siblings(a: Attention, b: Attention) { a.supersededBy.Some? && a.supersededBy == b.supersededBy }

  ghost predicate OnePredecessor(m: AttentionMap) {
    forall j, k :: j in m && k in m && Siblings(m[j], m[k]) ==> j == k
  }

  function Next(m: AttentionMap, k: Option<Id>): Option<Id> {
    if k.None? || k.value !in m then None else m[k.value].supersededBy
  }

  /** The record n successions after k, if the chain is that long. */
  function Follow(m: AttentionMap, k: Id, n: nat): Option<Id> {
    if n == 0 then Some(k) else Next(m, Follow(m, k, n - 1))
  }

  /** No record is its own successor, however far away. */
  ghost predicate Acyclic(m: AttentionMap) {
    forall k, n: nat :: k in m && n > 0 ==> Follow(m, k, n) != Some(k)
  }

  ghost predicate AcceptedAttention(m: AttentionMap) {
    Keyed(m) && OneLive(m) && SuccessorsExist(m) && OnePredecessor(m) && Acyclic(m)
  }

  // ------------------------------------------------------------ following on

  lemma {:induction false} FollowAdds(m: AttentionMap, k: Id, i: nat, mid: Id, j: nat)
    requires Follow(m, k, i) == Some(mid)
    ensures Follow(m, k, i + j) == Follow(m, mid, j)
  {
    if j > 0 { FollowAdds(m, k, i, mid, j - 1); }
  }

  lemma {:induction false} NoneForever(m: AttentionMap, k: Id, i: nat, j: nat)
    requires Follow(m, k, i).None? && i <= j
    ensures Follow(m, k, j).None?
  {
    if i < j { NoneForever(m, k, i, j - 1); }
  }

  /** A cycle never runs out. */
  lemma {:induction false} CycleNeverEnds(m: AttentionMap, k: Id, n: nat, i: nat)
    requires n > 0 && Follow(m, k, n) == Some(k)
    ensures Follow(m, k, i).Some?
  {
    if i < n {
      if Follow(m, k, i).None? { NoneForever(m, k, i, n); }
    } else {
      FollowAdds(m, k, n, k, i - n);
      CycleNeverEnds(m, k, n, i - n);
    }
  }

  lemma {:induction false} FollowStays(m: AttentionMap, k: Id, n: nat)
    requires SuccessorsExist(m) && k in m && Follow(m, k, n).Some?
    ensures Follow(m, k, n).value in m && IdentityOf(m[Follow(m, k, n).value]) == IdentityOf(m[k])
    ensures m[k].createdAt <= m[Follow(m, k, n).value].createdAt
  {
    if n > 0 {
      assert Follow(m, k, n - 1).Some?;
      FollowStays(m, k, n - 1);
      assert SuccessorOk(m, m[Follow(m, k, n - 1).value]);
    }
  }

  // ---------------------------------------------------- the loader's own walk

  /** Whether the loader's walk from current, having seen these ids, ends. */
  predicate WalkEnds(m: AttentionMap, current: Option<Id>, seen: set<Id>)
    requires SuccessorsExist(m) && (current.Some? ==> current.value in m)
    decreases m.Keys - seen
  {
    if current.None? then true
    else if current.value in seen then false
    else
      assert SuccessorOk(m, m[current.value]);
      WalkEnds(m, m[current.value].supersededBy, seen + {current.value})
  }

  ghost predicate SeenAreEarlier(m: AttentionMap, k: Id, i: nat, seen: set<Id>) {
    forall x :: x in seen ==> exists j: nat :: j < i && Follow(m, k, j) == Some(x)
  }

  lemma NeverSeenBefore(m: AttentionMap, k: Id, i: nat, seen: set<Id>)
    requires Acyclic(m) && SeenAreEarlier(m, k, i, seen)
    requires Follow(m, k, i).Some? && Follow(m, k, i).value in m
    ensures Follow(m, k, i).value !in seen
  {
    var x := Follow(m, k, i).value;
    if x in seen {
      var j: nat :| j < i && Follow(m, k, j) == Some(x);
      NeverAgain(m, k, j, x, i);
    }
  }

  lemma NeverAgain(m: AttentionMap, k: Id, j: nat, x: Id, i: nat)
    requires Acyclic(m) && x in m && j < i && Follow(m, k, j) == Some(x)
    ensures Follow(m, k, i) != Some(x)
  {
    var n: nat := i - j;
    FollowAdds(m, k, j, x, n);
    assert j + n == i;
  }

  lemma {:induction false} AcyclicWalkEnds(m: AttentionMap, k: Id, i: nat, seen: set<Id>)
    requires SuccessorsExist(m) && Acyclic(m) && k in m
    requires Follow(m, k, i).Some? ==> Follow(m, k, i).value in m
    requires SeenAreEarlier(m, k, i, seen)
    ensures WalkEnds(m, Follow(m, k, i), seen)
    decreases m.Keys - seen
  {
    var current := Follow(m, k, i);
    if current.Some? {
      NeverSeenBefore(m, k, i, seen);
      assert SuccessorOk(m, m[current.value]);
      assert Follow(m, k, i + 1) == m[current.value].supersededBy;
      AcyclicWalkEnds(m, k, i + 1, seen + {current.value});
    }
  }

  lemma {:induction false} EndedWalk(m: AttentionMap, k: Id, i: nat, seen: set<Id>)
    requires SuccessorsExist(m) && k in m
    requires Follow(m, k, i).Some? ==> Follow(m, k, i).value in m
    requires WalkEnds(m, Follow(m, k, i), seen)
    ensures exists n: nat :: Follow(m, k, n).None?
    decreases m.Keys - seen
  {
    var current := Follow(m, k, i);
    if current.Some? {
      assert SuccessorOk(m, m[current.value]);
      assert Follow(m, k, i + 1) == m[current.value].supersededBy;
      EndedWalk(m, k, i + 1, seen + {current.value});
    }
  }

  /** The loader's walks accept exactly the acyclic documents. */
  lemma WalksEndExactly(m: AttentionMap)
    requires SuccessorsExist(m)
    ensures (forall k :: k in m ==> EndsFrom(m, k)) <==> Acyclic(m)
  {
    if Acyclic(m) {
      forall k | k in m ensures EndsFrom(m, k) {
        assert Follow(m, k, 0) == Some(k);
        AcyclicWalkEnds(m, k, 0, {});
      }
    }
    if forall k :: k in m ==> EndsFrom(m, k) {
      forall k, n: nat | k in m && n > 0 ensures Follow(m, k, n) != Some(k) {
        assert EndsFrom(m, k) && Follow(m, k, 0) == Some(k);
        EndedWalk(m, k, 0, {});
        var e: nat :| Follow(m, k, e).None?;
        if Follow(m, k, n) == Some(k) { CycleNeverEnds(m, k, n, e); }
      }
    }
  }

  // ------------------------------------------------------------------- chains

  /** From k the chain ends, n successions on, at this record. */
  ghost predicate EndsAt(m: AttentionMap, k: Id, n: nat, e: Id) {
    e in m && Follow(m, k, n) == Some(e) && m[e].supersededBy.None?
  }

  lemma {:induction false} LastBefore(m: AttentionMap, k: Id, n: nat)
    requires SuccessorsExist(m) && k in m && Follow(m, k, n).None?
    ensures exists i: nat, e :: i < n && EndsAt(m, k, i, e)
  {
    if Follow(m, k, n - 1).None? {
      LastBefore(m, k, n - 1);
    } else {
      FollowStays(m, k, n - 1);
      assert EndsAt(m, k, n - 1, Follow(m, k, n - 1).value);
    }
  }

  /** Every chain of an accepted document carries one identity, in order of
      creation, and ends at a live record or a RESOLVED one. */
  lemma EveryChainEnds(m: AttentionMap, k: Id)
    requires AcceptedAttention(m) && k in m
    ensures exists n: nat, e ::
      && EndsAt(m, k, n, e)
      && (!IsTerminal(m[e]) || m[e].presentation.Resolved?)
      && (forall i: nat :: i <= n ==>
            && Follow(m, k, i).Some? && Follow(m, k, i).value in m
            && IdentityOf(m[Follow(m, k, i).value]) == IdentityOf(m[k]))
  {
    WalksEndExactly(m);
    assert EndsFrom(m, k) && Follow(m, k, 0) == Some(k);
    EndedWalk(m, k, 0, {});
    var z: nat :| Follow(m, k, z).None?;
    LastBefore(m, k, z);
    var n: nat, e :| n < z && EndsAt(m, k, n, e);
    assert ValidAttention(m[e]);
    forall i: nat | i <= n
      ensures Follow(m, k, i).Some? && Follow(m, k, i).value in m
      ensures IdentityOf(m[Follow(m, k, i).value]) == IdentityOf(m[k])
    {
      if Follow(m, k, i).None? { NoneForever(m, k, i, n); }
      FollowStays(m, k, i);
    }
  }

  lemma SamePredecessor(m: AttentionMap, a: Id, b: Id)
    requires OnePredecessor(m) && a in m && b in m
    requires Next(m, Some(a)).Some? && Next(m, Some(a)) == Next(m, Some(b))
    ensures a == b
  {
    assert Siblings(m[a], m[b]);
  }

  /** Chains never branch or merge: two records whose chains meet are on one chain. */
  lemma {:induction false} ChainsAreLinear(m: AttentionMap, j: Id, x: nat, k: Id, y: nat)
    requires SuccessorsExist(m) && OnePredecessor(m) && j in m && k in m && x <= y
    requires Follow(m, j, x).Some? && Follow(m, j, x) == Follow(m, k, y)
    ensures Follow(m, k, y - x) == Some(j)
    decreases x
  {
    if x > 0 {
      var a, b := Follow(m, j, x - 1), Follow(m, k, y - 1);
      assert a.Some? && b.Some?;
      FollowStays(m, j, x - 1);
      FollowStays(m, k, y - 1);
      SamePredecessor(m, a.value, b.value);
      ChainsAreLinear(m, j, x - 1, k, y - 1);
    }
  }

  /** At most one chain of an identity ends live: two chains of one identity
      that both end live end together, so one is the tail of the other. */
  lemma OneChainEndsLive(m: AttentionMap, j: Id, x: nat, d: Id, k: Id, y: nat, e: Id)
    requires AcceptedAttention(m) && j in m && k in m && IdentityOf(m[j]) == IdentityOf(m[k]) && x <= y
    requires EndsAt(m, j, x, d) && EndsAt(m, k, y, e) && !IsTerminal(m[d]) && !IsTerminal(m[e])
    ensures d == e && Follow(m, k, y - x) == Some(j)
  {
    FollowStays(m, j, x);
    FollowStays(m, k, y);
    assert Rivals(m[d], m[e]);
    ChainsAreLinear(m, j, x, k, y);
  }

  // -------------------------------------------------------------- the loader

  ghost predicate AcceptedAmong(m: AttentionMap, done: set<Id>) {
    && done <= m.Keys
    && (forall k :: k in done ==> ValidAttention(m[k]) && m[k].attentionId == k && SuccessorOk(m, m[k]))
    && (forall j, k :: j in done && k in done && Rivals(m[j], m[k]) ==> j == k)
    && (forall j, k :: j in done && k in done && Siblings(m[j], m[k]) ==> j == k)
  }

  ghost predicate LiveExactly(m: AttentionMap, done: set<Id>, live: set<AttentionIdentity>) {
    && done <= m.Keys
    && (forall k :: k in done && !IsTerminal(m[k]) ==> IdentityOf(m[k]) in live)
    && (forall w :: w in live ==> exists k :: k in done && LiveAs(m[k], w))
  }

  predicate LiveAs(a: Attention, w: AttentionIdentity) { !IsTerminal(a) && IdentityOf(a) == w }

  ghost predicate SuccessorsExactly(m: AttentionMap, done: set<Id>, successors: set<Id>) {
    && done <= m.Keys
    && (forall k :: k in done && m[k].supersededBy.Some? ==> m[k].supersededBy.value in successors)
    && (forall s :: s in successors ==> exists k :: k in done && m[k].supersededBy == Some(s))
  }

  lemma RivalIsRefused(m: AttentionMap, done: set<Id>, live: set<AttentionIdentity>, k: Id)
    requires LiveExactly(m, done, live) && k in m && k !in done
    requires !IsTerminal(m[k]) && IdentityOf(m[k]) in live
    ensures !AcceptedAttention(m)
  {
    var j :| j in done && LiveAs(m[j], IdentityOf(m[k]));
    assert Rivals(m[j], m[k]);
  }

  lemma SiblingIsRefused(m: AttentionMap, done: set<Id>, successors: set<Id>, k: Id)
    requires SuccessorsExactly(m, done, successors) && k in m && k !in done
    requires m[k].supersededBy.Some? && m[k].supersededBy.value in successors
    ensures !AcceptedAttention(m)
  {
    var j :| j in done && m[j].supersededBy == Some(m[k].supersededBy.value);
    assert Siblings(m[j], m[k]);
  }

  lemma AcceptOne(m: AttentionMap, done: set<Id>, live: set<AttentionIdentity>, successors: set<Id>, k: Id)
    requires AcceptedAmong(m, done) && LiveExactly(m, done, live) && SuccessorsExactly(m, done, successors)
    requires k in m && k !in done && ValidAttention(m[k]) && m[k].attentionId == k && SuccessorOk(m, m[k])
    requires !IsTerminal(m[k]) ==> IdentityOf(m[k]) !in live
    requires m[k].supersededBy.Some? ==> m[k].supersededBy.value !in successors
    ensures AcceptedAmong(m, done + {k})
    ensures LiveExactly(m, done + {k}, if IsTerminal(m[k]) then live else live + {IdentityOf(m[k])})
    ensures SuccessorsExactly(m, done + {k}, if m[k].supersededBy.None? then successors else successors + {m[k].supersededBy.value})
  {
    AcceptLive(m, done, live, k);
    AcceptSuccessor(m, done, successors, k);
    AcceptRecord(m, done, k);
  }

  lemma AcceptRecord(m: AttentionMap, done: set<Id>, k: Id)
    requires AcceptedAmong(m, done) && k in m && k !in done && ValidAttention(m[k]) && m[k].attentionId == k && SuccessorOk(m, m[k])
    requires forall j :: j in done ==> !Rivals(m[j], m[k]) && !Rivals(m[k], m[j]) && !Siblings(m[j], m[k]) && !Siblings(m[k], m[j])
    ensures AcceptedAmong(m, done + {k})
  {
  }

  lemma AcceptLive(m: AttentionMap, done: set<Id>, live: set<AttentionIdentity>, k: Id)
    requires LiveExactly(m, done, live) && k in m && k !in done && (!IsTerminal(m[k]) ==> IdentityOf(m[k]) !in live)
    ensures forall j :: j in done ==> !Rivals(m[j], m[k]) && !Rivals(m[k], m[j])
    ensures LiveExactly(m, done + {k}, if IsTerminal(m[k]) then live else live + {IdentityOf(m[k])})
  {
    assert LiveAs(m[k], IdentityOf(m[k])) <==> !IsTerminal(m[k]);
  }

  lemma AcceptSuccessor(m: AttentionMap, done: set<Id>, successors: set<Id>, k: Id)
    requires SuccessorsExactly(m, done, successors) && k in m && k !in done
    requires m[k].supersededBy.Some? ==> m[k].supersededBy.value !in successors
    ensures forall j :: j in done ==> !Siblings(m[j], m[k]) && !Siblings(m[k], m[j])
    ensures SuccessorsExactly(m, done + {k}, if m[k].supersededBy.None? then successors else successors + {m[k].supersededBy.value})
  {
  }

  /** One record of the first loop, the maps it keeps growing with it. */
  method CheckRecord(m: AttentionMap, ghost done: set<Id>, live: set<AttentionIdentity>, successors: set<Id>, key: Id)
    returns (ok: bool, live': set<AttentionIdentity>, successors': set<Id>)
    requires AcceptedAmong(m, done) && LiveExactly(m, done, live) && SuccessorsExactly(m, done, successors)
    requires key in m && key !in done
    ensures ok ==> AcceptedAmong(m, done + {key}) && LiveExactly(m, done + {key}, live')
                   && SuccessorsExactly(m, done + {key}, successors')
    ensures !ok ==> !AcceptedAttention(m)
  {
    live', successors' := live, successors;
    var a := m[key];
    if !ValidAttention(a) || a.attentionId != key { return false, live', successors'; }
    if !IsTerminal(a) {
      if IdentityOf(a) in live {
        RivalIsRefused(m, done, live, key);
        return false, live', successors';
      }
      live' := live + {IdentityOf(a)};
    }
    if a.supersededBy.Some? {
      if !SuccessorOk(m, a) { return false, live', successors'; }
      if a.supersededBy.value in successors {
        SiblingIsRefused(m, done, successors, key);
        return false, live', successors';
      }
      successors' := successors + {a.supersededBy.value};
    }
    AcceptOne(m, done, live, successors, key);
    ok := true;
  }

  lemma AcceptedAll(m: AttentionMap, keys: seq<Id>)
    requires AcceptedAmong(m, Seen(keys, |keys|)) && forall k :: k in m ==> k in keys
    ensures Keyed(m) && OneLive(m) && SuccessorsExist(m) && OnePredecessor(m)
  {
  }

  /** The first loop of validate_attention_records. */
  method ValidateRecords(m: AttentionMap) returns (ok: bool)
    ensures ok ==> Keyed(m) && OneLive(m) && SuccessorsExist(m) && OnePredecessor(m)
    ensures !ok ==> !AcceptedAttention(m)
  {
    var keys := Sorted(m.Keys);
    var live: set<AttentionIdentity> := {};
    var successors: set<Id> := {};
    for i := 0 to |keys|
      invariant AcceptedAmong(m, Seen(keys, i))
      invariant LiveExactly(m, Seen(keys, i), live)
      invariant SuccessorsExactly(m, Seen(keys, i), successors)
    {
      SeeOne(keys, i);
      var key := keys[i];
      assert key in keys;
      ok, live, successors := CheckRecord(m, Seen(keys, i), live, successors, key);
      if !ok { return; }
    }
    AcceptedAll(m, keys);
    ok := true;
  }

  /** The loader's inner loop: follow successors from one record. */
  method FollowToEnd(m: AttentionMap, key: Id) returns (ends: bool)
    requires SuccessorsExist(m) && key in m
    ensures ends == WalkEnds(m, Some(key), {})
  {
    var seen: set<Id> := {};
    var current := Some(key);
    while current.Some?
      invariant current.Some? ==> current.value in m
      invariant WalkEnds(m, Some(key), {}) == WalkEnds(m, current, seen)
      decreases m.Keys - seen, if current.Some? then 1 else 0
    {
      if current.value in seen { return false; }
      assert SuccessorOk(m, m[current.value]);
      seen := seen + {current.value};
      current := m[current.value].supersededBy;
    }
    ends := true;
  }

  /** validate_attention_records: records first, then every successor walk. */
  method ValidateAttentionRecords(m: AttentionMap) returns (ok: bool)
    ensures ok <==> AcceptedAttention(m)
  {
    ok := ValidateRecords(m);
    if !ok { return; }
    ok := FollowAll(m);
  }

  predicate EndsFrom(m: AttentionMap, k: Id)
    requires SuccessorsExist(m)
  {
    k in m && WalkEnds(m, Some(k), {})
  }

  /** The second loop of validate_attention_records. */
  method FollowAll(m: AttentionMap) returns (ok: bool)
    requires SuccessorsExist(m)
    ensures ok <==> Acyclic(m)
  {
    WalksEndExactly(m);
    var keys := Sorted(m.Keys);
    for i := 0 to |keys|
      invariant forall j :: 0 <= j < i ==> EndsFrom(m, keys[j])
    {
      var key := keys[i];
      assert key in keys;
      var ends := FollowToEnd(m, key);
      assert ends == EndsFrom(m, key);
      if !ends { return false; }
    }
    forall k | k in m ensures EndsFrom(m, k) { assert k in keys; }
    ok := true;
  }
}
