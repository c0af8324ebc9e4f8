/** What a forward chain is, and what rosters, creation and transitions keep. */
module HandoffLaws {
  import opened Record
  import opened Observations
  import opened Sorting
  import opened Handoffs
  import opened HandoffOps

  // ---------------------------------------------------------------- the chain

  /** Every parent is recorded, one level nearer the root. */
  ghost predicate Rooted(m: HandoffMap) {
    forall k :: k in m ==>
      && m[k].depth <= MAX_HANDOFF_FORWARD_DEPTH
      && (m[k].parent.Some? <==> m[k].depth > 0)
      && (m[k].parent.Some? ==> m[k].parent.value in m && m[m[k].parent.value].depth + 1 == m[k].depth)
  }

  lemma AcceptedIsRooted(m: HandoffMap, rosters: RosterMap)
    requires AcceptedHandoffs(m, rosters)
    ensures Rooted(m)
  {
    forall k | k in m
      ensures m[k].depth <= MAX_HANDOFF_FORWARD_DEPTH && (m[k].parent.Some? <==> m[k].depth > 0)
      ensures m[k].parent.Some? ==> m[k].parent.value in m && m[m[k].parent.value].depth + 1 == m[k].depth
    {
      assert HandoffOk(rosters, m[k], k) && LinkProblem(m, m[k]).None?;
      ShapeOf(m[k]);
      LinkShape(m, m[k]);
    }
  }

  lemma ShapeOf(h: Handoff)
    requires ValidHandoff(h)
    ensures h.depth <= MAX_HANDOFF_FORWARD_DEPTH && (h.parent.Some? <==> h.depth > 0)
  {
    assert FieldsProblem(h).None?;
  }

  lemma LinkShape(m: HandoffMap, h: Handoff)
    requires LinkProblem(m, h).None?
    ensures h.parent.Some? ==> h.parent.value in m && m[h.parent.value].depth + 1 == h.depth
  {
  }

  /** The ancestors of k, root first, k last. */
  ghost function RootPath(m: HandoffMap, k: Id): (path: seq<Id>)
    requires Rooted(m) && k in m
    ensures |path| == m[k].depth + 1 && path[|path|-1] == k
    ensures forall i :: 0 <= i < |path| ==> path[i] in m && m[path[i]].depth == i
    ensures forall i :: 0 < i < |path| ==> m[path[i]].parent == Some(path[i-1])
    decreases m[k].depth
  {
    if m[k].parent.None? then [k] else RootPath(m, m[k].parent.value) + [k]
  }

  /** The guarded walk is the root path: its loop guard never fires. */
  lemma {:induction false} WalkIsRootPath(m: HandoffMap, k: Id, path: seq<Id>)
    requires Rooted(m) && k in m && |path| + m[k].depth <= MAX_HANDOFF_FORWARD_DEPTH
    requires forall x :: x in path ==> x in m && m[x].depth > m[k].depth
    ensures ChainFrom(m, Some(k), path) == Ok(RootPath(m, k) + path)
    decreases m[k].depth
  {
    if m[k].parent.Some? {
      var p := m[k].parent.value;
      WalkIsRootPath(m, p, [k] + path);
      assert RootPath(m, p) + ([k] + path) == (RootPath(m, p) + [k]) + path;
    } else {
      assert ChainFrom(m, None, [k] + path) == Ok([k] + path);
    }
  }

  /** Who holds a forward along a path: the root source, then every destination. */
  ghost function PathParties(m: HandoffMap, path: seq<Id>): seq<Participant>
    requires InDocument(m, path)
  {
    [m[path[0]].source] + Destinations(m, path)
  }

  lemma ChainIsRootPath(m: HandoffMap, k: Id)
    requires Rooted(m) && k in m
    ensures Chain(m, k) == Ok(RootPath(m, k)) && InDocument(m, RootPath(m, k))
    ensures ChainParticipants(m, k) == Ok(PathParties(m, RootPath(m, k)))
  {
    WalkIsRootPath(m, k, []);
    assert RootPath(m, k) + [] == RootPath(m, k);
  }

  lemma {:induction false} DestinationsSnoc(m: HandoffMap, path: seq<Id>, k: Id)
    requires (forall x :: x in path ==> x in m) && k in m
    ensures Destinations(m, path + [k]) == Destinations(m, path) + [m[k].destination]
  {
  }

  ghost predicate Distinct<T(!new)>(s: seq<T>) { forall i, j :: 0 <= i < j < |s| ==> s[i] != s[j] }

  /** Along one link the Mission, revision and proposal stay, the addressee forwards. */
  predicate Forwards(parent: Handoff, child: Handoff) {
    && child.missionId == parent.missionId && child.revision == parent.revision && child.proposal == parent.proposal
    && child.source == parent.destination && child.parentDigest == Some(parent.contentDigest)
  }

  lemma LinkForwards(m: HandoffMap, k: Id)
    requires Rooted(m) && k in m && m[k].parent.Some? && LinkProblem(m, m[k]).None?
    ensures Forwards(m[m[k].parent.value], m[k])
    ensures m[k].destination !in PathParties(m, RootPath(m, m[k].parent.value))
  {
    ChainIsRootPath(m, m[k].parent.value);
  }

  lemma SnocDistinct<T(!new)>(s: seq<T>, x: T)
    requires Distinct(s) && x !in s
    ensures Distinct(s + [x])
  {
  }

  ghost predicate TwoParties(m: HandoffMap) { forall k :: k in m ==> m[k].source != m[k].destination }

  lemma AcceptedHasTwoParties(m: HandoffMap, rosters: RosterMap)
    requires AcceptedHandoffs(m, rosters)
    ensures TwoParties(m)
  {
    forall k | k in m ensures m[k].source != m[k].destination { assert HandoffOk(rosters, m[k], k); }
  }

  lemma PartiesSplit(m: HandoffMap, k: Id)
    requires Rooted(m) && k in m
    ensures InDocument(m, RootPath(m, k))
    ensures if m[k].parent.Some? then
              InDocument(m, RootPath(m, m[k].parent.value))
              && PathParties(m, RootPath(m, k)) == PathParties(m, RootPath(m, m[k].parent.value)) + [m[k].destination]
            else PathParties(m, RootPath(m, k)) == [m[k].source, m[k].destination]
  {
    if m[k].parent.Some? { DestinationsSnoc(m, RootPath(m, m[k].parent.value), k); }
  }

  lemma {:induction false} PartiesAreDistinct(m: HandoffMap, k: Id)
    requires Linked(m) && TwoParties(m) && Rooted(m) && k in m
    ensures InDocument(m, RootPath(m, k)) && Distinct(PathParties(m, RootPath(m, k)))
    decreases m[k].depth
  {
    PartiesSplit(m, k);
    if m[k].parent.Some? {
      var p := m[k].parent.value;
      PartiesAreDistinct(m, p);
      assert LinkProblem(m, m[k]).None?;
      LinkForwards(m, k);
      SnocDistinct(PathParties(m, RootPath(m, p)), m[k].destination);
    }
  }

  /** A path from a depth-0 root down to k, one record a depth, at most 5, each
      forwarded by its parent's addressee, all parties pairwise distinct. */
  ghost predicate SimplePath(m: HandoffMap, k: Id, path: seq<Id>) {
    && InDocument(m, path) && k in m
    && |path| == m[k].depth + 1 <= 5 && path[|path|-1] == k
    && (forall i :: 0 <= i < |path| ==> m[path[i]].depth == i)
    && m[path[0]].parent.None?
    && (forall i :: 0 < i < |path| ==> m[path[i]].parent == Some(path[i-1]) && Forwards(m[path[i-1]], m[path[i]]))
    && Distinct(PathParties(m, path))
  }

  /** In an accepted document every parent walk reaches a depth-0 root in
      exactly depth + 1 records, at most 5, along links that keep one Mission,
      revision and proposal, each forwarded by its parent's addressee; the root
      source and all destinations are pairwise distinct. */
  lemma ChainsAreSimplePaths(m: HandoffMap, rosters: RosterMap, k: Id)
    requires AcceptedHandoffs(m, rosters) && k in m
    ensures Chain(m, k).Ok? && SimplePath(m, k, Chain(m, k).value)
  {
    AcceptedIsRooted(m, rosters);
    ChainIsRootPath(m, k);
    AcceptedHasTwoParties(m, rosters);
    PartiesAreDistinct(m, k);
    LinksForward(m, k);
  }

  lemma LinksForward(m: HandoffMap, k: Id)
    requires Linked(m) && Rooted(m) && k in m && InDocument(m, RootPath(m, k))
    ensures forall i :: 0 < i < |RootPath(m, k)| ==>
              m[RootPath(m, k)[i]].parent == Some(RootPath(m, k)[i-1]) && Forwards(m[RootPath(m, k)[i-1]], m[RootPath(m, k)[i]])
  {
    var path := RootPath(m, k);
    forall i | 0 < i < |path| ensures m[path[i]].parent == Some(path[i-1]) && Forwards(m[path[i-1]], m[path[i]]) {
      assert LinkProblem(m, m[path[i]]).None?;
      LinkForwards(m, path[i]);
    }
  }

  // ------------------------------------------------------------- legal walks

  lemma {:induction false} WalkLength(h: Handoff, k: nat)
    requires ValidHandoff(h) && k < |h.transitions|
    ensures h.transitions[k].status.Open? <==> k == 0
    ensures k <= (if h.transitions[k].status.Answered? then 2
                  else if h.transitions[k].status.Withdrawn? then 2
                  else if h.transitions[k].status.Open? then 0 else 1)
    ensures k > 0 ==> StatusMayBecome(h.transitions[k-1].status, h.transitions[k].status)
  {
    TransitionsProblemNone(h, 0);
    assert TransitionProblem(h, k).None?;
    if k > 0 { WalkLength(h, k - 1); }
  }

  /** Withdrawing is the act of the source, any other change that of the destination. */
  predicate OwnAct(h: Handoff, status: HandoffStatus, actor: Participant) {
    actor == if status.Withdrawn? then h.source else h.destination
  }

  /** Every recorded list is a legal walk from OPEN of at most 3 entries, in
      time and cursor order, each entry the act of its own actor. */
  lemma WalksAreShort(h: Handoff)
    requires ValidHandoff(h)
    ensures 1 <= |h.transitions| <= 3 && h.transitions[0].status.Open?
    ensures forall k :: 0 < k < |h.transitions| ==>
              && StatusMayBecome(h.transitions[k-1].status, h.transitions[k].status)
              && OwnAct(h, h.transitions[k].status, h.transitions[k].actor)
              && h.transitions[k-1].at <= h.transitions[k].at
              && CursorValue(h.transitions[k-1].point.cursor) <= CursorValue(h.transitions[k].point.cursor)
    ensures TerminalStatus(h.status) <==> TerminalStatus(LastOf(h).status)
  {
    TransitionsProblemNone(h, 0);
    WalkLength(h, |h.transitions| - 1);
    WalkLength(h, 0);
    forall k | 0 < k < |h.transitions|
      ensures StatusMayBecome(h.transitions[k-1].status, h.transitions[k].status)
      ensures OwnAct(h, h.transitions[k].status, h.transitions[k].actor)
      ensures h.transitions[k-1].at <= h.transitions[k].at
      ensures CursorValue(h.transitions[k-1].point.cursor) <= CursorValue(h.transitions[k].point.cursor)
    {
      assert TransitionProblem(h, k).None?;
    }
  }

  // ------------------------------------------------------------------ history

  /** A record's content never changes; its transitions are only extended. */
  predicate MayFollow(h: Handoff, h': Handoff) {
    && h.transitions <= h'.transitions
    && h' == h.(transitions := h'.transitions, status := h'.status, updatedAt := h'.updatedAt)
    && (TerminalStatus(h.status) ==> h' == h)
  }

  ghost predicate HandoffHistory(m: HandoffMap, m': HandoffMap) {
    forall k :: k in m ==> k in m' && MayFollow(m[k], m'[k])
  }

  lemma HistoryComposes(m: HandoffMap, n: HandoffMap, p: HandoffMap)
    requires HandoffHistory(m, n) && HandoffHistory(n, p)
    ensures HandoffHistory(m, p)
  {
    forall k | k in m ensures k in p && MayFollow(m[k], p[k]) {
      assert MayFollow(m[k], n[k]) && MayFollow(n[k], p[k]);
    }
  }

  /** Every read a handoff retains. */
  function PointsIn(h: Handoff): set<Point> {
    {h.point} + (set t | t in h.transitions :: t.point)
  }

  ghost predicate PointsGrow(m: HandoffMap, m': HandoffMap, mission: Id, read: Point) {
    && (forall k :: k in m ==>
          && k in m' && PointsIn(m[k]) <= PointsIn(m'[k])
          && PointsIn(m'[k]) <= PointsIn(m[k]) + (if m[k].missionId == mission then {read} else {}))
    && (forall k :: k in m' && k !in m ==> m'[k].missionId == mission && PointsIn(m'[k]) == {read})
  }

  // ------------------------------------------------------------ links survive

  lemma {:induction false} ChainCarries(m: HandoffMap, m': HandoffMap, current: Option<Id>, path: seq<Id>)
    requires HandoffHistory(m, m') && ChainFrom(m, current, path).Ok?
    ensures ChainFrom(m', current, path) == ChainFrom(m, current, path)
    decreases MAX_HANDOFF_FORWARD_DEPTH + 1 - |path|
  {
    if current.Some? {
      assert MayFollow(m[current.value], m'[current.value]);
      ChainCarries(m, m', m[current.value].parent, [current.value] + path);
    }
  }

  lemma {:induction false} DestinationsCarry(m: HandoffMap, m': HandoffMap, path: seq<Id>)
    requires HandoffHistory(m, m') && forall k :: k in path ==> k in m
    ensures (forall k :: k in path ==> k in m') && Destinations(m', path) == Destinations(m, path)
  {
    if path != [] {
      assert path[0] in path && MayFollow(m[path[0]], m'[path[0]]);
      DestinationsCarry(m, m', path[1..]);
      assert forall k :: k in path <==> k == path[0] || k in path[1..];
    }
  }

  lemma ParticipantsCarry(m: HandoffMap, m': HandoffMap, id: Id)
    requires HandoffHistory(m, m') && ChainParticipants(m, id).Ok?
    ensures ChainParticipants(m', id) == ChainParticipants(m, id)
  {
    ChainCarries(m, m', Some(id), []);
    var path := Chain(m, id).value;
    DestinationsCarry(m, m', path);
    assert path[0] in path && MayFollow(m[path[0]], m'[path[0]]);
  }

  lemma LinkCarries(m: HandoffMap, m': HandoffMap, h: Handoff, h': Handoff)
    requires HandoffHistory(m, m') && MayFollow(h, h') && LinkProblem(m, h).None?
    ensures LinkProblem(m', h').None?
  {
    if h.parent.Some? {
      var p := h.parent.value;
      assert p in m' && MayFollow(m[p], m'[p]);
      ParticipantsCarry(m, m', p);
    }
  }

  // ------------------------------------------------------------------ rosters

  /** Replacing a roster keeps every handoff's eligibility. */
  lemma SetRosterKeeps(m: HandoffMap, rosters: RosterMap, mission: Id, participants: seq<Participant>,
                       looked: FreshnessResult, now: Time, context: Context)
    requires AcceptedHandoffs(m, rosters)
    requires SetRoster(m, rosters, mission, participants, looked, now, context).Ok?
    ensures var rosters' := SetRoster(m, rosters, mission, participants, looked, now, context).value;
            && AcceptedHandoffs(m, rosters')
            && mission in rosters' && rosters' == rosters[mission := rosters'[mission]]
            && looked.freshness.Fresh? && looked.observation.Some? && looked.observation.value.missionId == mission
            && rosters'[mission].point == PointOf(looked.observation.value)
            && rosters'[mission].participants == participants
  {
    var rosters' := SetRoster(m, rosters, mission, participants, looked, now, context).value;
    forall k | k in rosters' ensures RosterOk(rosters'[k], k) {
      assert k != mission ==> RosterOk(rosters[k], k);
    }
    forall k | k in m ensures HandoffOk(rosters', m[k], k) {
      assert HandoffOk(rosters, m[k], k);
    }
  }

  // ----------------------------------------------------------------- creation

  /** The new record a request asks for, under this read. */
  ghost predicate CandidateOf(c: Handoff, id: Id, q: Request, o: Observation) {
    && c.handoffId == id && c.missionId == q.missionId && c.source == q.source && c.destination == q.destination
    && c.idempotencyKey == q.idempotencyKey && c.parent == q.parent && PointsIn(c) == {PointOf(o)}
    && !TerminalStatus(c.status)
  }

  lemma CandidateFields(id: Id, q: Request, o: Observation, parentDigest: Option<Content>, depth: nat, now: Time, context: Context)
    ensures CandidateOf(Candidate(id, q, o, parentDigest, depth, now, context), id, q, o)
  {
    var c := Candidate(id, q, o, parentDigest, depth, now, context);
    assert c.transitions[0] in c.transitions;
  }

  lemma InsertKeepsPairs(m: HandoffMap, c: Handoff)
    requires OneKey(m, m.Keys) && OneEffect(m, m.Keys) && c.handoffId !in m
    requires KeyUnused(m, c.missionId, c.idempotencyKey) && !LiveWith(m, c.missionId, c.contentDigest)
    ensures var m' := m[c.handoffId := c]; OneKey(m', m'.Keys) && OneEffect(m', m'.Keys)
  {
    var m' := m[c.handoffId := c];
    forall j, k | j in m' && k in m' && SameKey(m'[j], m'[k]) ensures j == k {
      assert j in m ==> !UsesKey(m[j], c.missionId, c.idempotencyKey);
      assert k in m ==> !UsesKey(m[k], c.missionId, c.idempotencyKey);
      assert j in m && k in m ==> (SameKey(m[j], m[k]) ==> j == k);
    }
    forall j, k | j in m' && k in m' && SameEffect(m'[j], m'[k]) ensures j == k {
      assert j in m && k in m ==> (SameEffect(m[j], m[k]) ==> j == k);
    }
  }

  lemma InsertKeepsLinks(m: HandoffMap, c: Handoff)
    requires Linked(m) && c.handoffId !in m && LinkProblem(m, c).None?
    ensures Linked(m[c.handoffId := c]) && HandoffHistory(m, m[c.handoffId := c])
  {
    var m' := m[c.handoffId := c];
    forall k | k in m' ensures LinkProblem(m', m'[k]).None? {
      assert k in m ==> LinkProblem(m, m[k]).None?;
      LinkCarries(m, m', m'[k], m'[k]);
    }
  }

  lemma InsertKeepsRules(m: HandoffMap, rosters: RosterMap, c: Handoff)
    requires AcceptedHandoffs(m, rosters) && c.handoffId !in m && HandoffOk(rosters, c, c.handoffId)
    requires KeyUnused(m, c.missionId, c.idempotencyKey)
    requires !LiveWith(m, c.missionId, c.contentDigest)
    requires LinkProblem(m, c).None?
    ensures AcceptedHandoffs(m[c.handoffId := c], rosters) && HandoffHistory(m, m[c.handoffId := c])
  {
    InsertKeepsPairs(m, c);
    InsertKeepsLinks(m, c);
    var m' := m[c.handoffId := c];
    forall k | k in m' ensures HandoffOk(rosters, m'[k], k) {
      assert k in m ==> HandoffOk(rosters, m[k], k);
    }
  }

  ghost predicate Holds(m: HandoffMap, h: Handoff) { exists k :: k in m && m[k] == h }

  /** create_handoff returns an existing record and changes nothing, or adds
      exactly the one record it returns, under a key nothing used. */
  ghost predicate AddsAtMostOne(m: HandoffMap, created: Creation, id: Id, q: Request) {
    && UsesKey(created.record, q.missionId, q.idempotencyKey)
    && (|| (created.handoffs == m && Holds(m, created.record))
        || (&& id !in m && created.handoffs == m[id := created.record] && created.record.handoffId == id
            && KeyUnused(m, q.missionId, q.idempotencyKey)))
  }

  lemma BuiltCandidate(m: HandoffMap, id: Id, q: Request, o: Observation, now: Time, context: Context)
    requires BuildCandidate(m, id, q, o, now, context).Ok?
    ensures exists parentDigest, depth ::
              BuildCandidate(m, id, q, o, now, context).value == Candidate(id, q, o, parentDigest, depth, now, context)
  {
    if q.parent.None? {
      assert BuildCandidate(m, id, q, o, now, context).value == Candidate(id, q, o, None, 0, now, context);
    } else {
      var parent := m[q.parent.value];
      assert BuildCandidate(m, id, q, o, now, context).value
             == Candidate(id, q, o, Some(parent.contentDigest), parent.depth + 1, now, context);
    }
  }

  /** The one record an idempotency key stands for. */
  ghost predicate Replays(m: HandoffMap, c: Handoff, r: Handoff) {
    exists k :: k in m && m[k] == r && UsesKey(m[k], c.missionId, c.idempotencyKey)
  }

  ghost predicate KeyUnused(m: HandoffMap, mission: Id, key: Key) {
    forall k :: k in m ==> !UsesKey(m[k], mission, key)
  }

  lemma NoneUses(m: HandoffMap, mission: Id, key: Key)
    requires FindKey(m, Sorted(m.Keys), mission, key).None?
    ensures KeyUnused(m, mission, key)
  {
    forall k | k in m ensures !UsesKey(m[k], mission, key) { assert k in Sorted(m.Keys); }
  }

  lemma InsertNewShape(m: HandoffMap, c: Handoff)
    requires InsertNew(m, c).Ok?
    ensures InsertNew(m, c).value == Creation(m[c.handoffId := c], c) && c.handoffId !in m
    ensures !LiveWith(m, c.missionId, c.contentDigest) && LinkProblem(m, c).None?
  {
  }

  lemma AdmitShape(m: HandoffMap, c: Handoff, o: Observation)
    requires AdmitCandidate(m, c, o).Ok?
    ensures ValidHandoff(c)
    ensures var existing, r := FindKey(m, Sorted(m.Keys), c.missionId, c.idempotencyKey), AdmitCandidate(m, c, o);
            if existing.None? then r == InsertNew(m, c)
            else r == Ok(Creation(m, existing.value)) && existing.value.contentDigest == c.contentDigest
  {
  }

  ghost predicate AdmitsOne(m: HandoffMap, c: Handoff, r: Creation) {
    || (r.handoffs == m && Replays(m, c, r.record) && r.record.contentDigest == c.contentDigest)
    || (c.handoffId !in m && r == Creation(m[c.handoffId := c], c) && KeyUnused(m, c.missionId, c.idempotencyKey))
  }

  lemma AdmitKeeps(m: HandoffMap, rosters: RosterMap, c: Handoff, o: Observation)
    requires AcceptedHandoffs(m, rosters) && AdmitCandidate(m, c, o).Ok?
    requires EligibleProblem(rosters, c.missionId, c.source).None? && EligibleProblem(rosters, c.missionId, c.destination).None?
    ensures var r := AdmitCandidate(m, c, o).value;
            AcceptedHandoffs(r.handoffs, rosters) && HandoffHistory(m, r.handoffs) && AdmitsOne(m, c, r)
  {
    AdmitShape(m, c, o);
    var existing := FindKey(m, Sorted(m.Keys), c.missionId, c.idempotencyKey);
    if existing.None? {
      NoneUses(m, c.missionId, c.idempotencyKey);
      InsertNewKeeps(m, rosters, c);
    } else {
      ReplayKeeps(m, c, existing.value);
    }
  }

  lemma InsertNewKeeps(m: HandoffMap, rosters: RosterMap, c: Handoff)
    requires AcceptedHandoffs(m, rosters) && InsertNew(m, c).Ok? && KeyUnused(m, c.missionId, c.idempotencyKey)
    requires HandoffOk(rosters, c, c.handoffId)
    ensures var r := InsertNew(m, c).value;
            AcceptedHandoffs(r.handoffs, rosters) && HandoffHistory(m, r.handoffs) && AdmitsOne(m, c, r)
  {
    InsertNewShape(m, c);
    InsertKeepsRules(m, rosters, c);
  }

  lemma ReplayKeeps(m: HandoffMap, c: Handoff, existing: Handoff)
    requires existing.contentDigest == c.contentDigest
    requires exists k :: k in m && m[k] == existing && UsesKey(m[k], c.missionId, c.idempotencyKey)
    ensures HandoffHistory(m, m) && AdmitsOne(m, c, Creation(m, existing))
  {
    assert Replays(m, c, existing);
  }

  lemma CreateKeeps(m: HandoffMap, rosters: RosterMap, id: Id, q: Request, looked: FreshnessResult, now: Time, context: Context)
    requires AcceptedHandoffs(m, rosters) && CreateHandoff(m, rosters, id, q, looked, now, context).Ok?
    ensures var r := CreateHandoff(m, rosters, id, q, looked, now, context).value;
            && looked.freshness.Fresh? && looked.observation.Some? && looked.observation.value.missionId == q.missionId
            && AcceptedHandoffs(r.handoffs, rosters) && HandoffHistory(m, r.handoffs)
            && PointsGrow(m, r.handoffs, q.missionId, PointOf(looked.observation.value))
            && AddsAtMostOne(m, r, id, q)
  {
    var o := looked.observation.value;
    CreateShape(m, rosters, id, q, looked, now, context);
    BuiltKeeps(m, rosters, id, q, o, now, context);
  }

  /** What a creation that succeeds is made of. */
  lemma CreateShape(m: HandoffMap, rosters: RosterMap, id: Id, q: Request, looked: FreshnessResult, now: Time, context: Context)
    requires CreateHandoff(m, rosters, id, q, looked, now, context).Ok?
    ensures looked.freshness.Fresh? && looked.observation.Some? && looked.observation.value.missionId == q.missionId
    ensures EligibleProblem(rosters, q.missionId, q.source).None? && EligibleProblem(rosters, q.missionId, q.destination).None?
    ensures var built := BuildCandidate(m, id, q, looked.observation.value, now, context);
            built.Ok? && CreateHandoff(m, rosters, id, q, looked, now, context) == AdmitCandidate(m, built.value, looked.observation.value)
  {
  }

  lemma BuiltKeeps(m: HandoffMap, rosters: RosterMap, id: Id, q: Request, o: Observation, now: Time, context: Context)
    requires AcceptedHandoffs(m, rosters) && BuildCandidate(m, id, q, o, now, context).Ok? && o.missionId == q.missionId
    requires EligibleProblem(rosters, q.missionId, q.source).None? && EligibleProblem(rosters, q.missionId, q.destination).None?
    requires AdmitCandidate(m, BuildCandidate(m, id, q, o, now, context).value, o).Ok?
    ensures var r := AdmitCandidate(m, BuildCandidate(m, id, q, o, now, context).value, o).value;
            && AcceptedHandoffs(r.handoffs, rosters) && HandoffHistory(m, r.handoffs)
            && PointsGrow(m, r.handoffs, q.missionId, PointOf(o)) && AddsAtMostOne(m, r, id, q)
  {
    var c := BuildCandidate(m, id, q, o, now, context).value;
    BuiltCandidate(m, id, q, o, now, context);
    var parentDigest, depth :| c == Candidate(id, q, o, parentDigest, depth, now, context);
    CandidateFields(id, q, o, parentDigest, depth, now, context);
    AdmitKeeps(m, rosters, c, o);
    AdmittedPoints(m, c, AdmitCandidate(m, c, o).value, id, q, o);
  }

  lemma AdmittedPoints(m: HandoffMap, c: Handoff, r: Creation, id: Id, q: Request, o: Observation)
    requires AdmitsOne(m, c, r) && CandidateOf(c, id, q, o)
    ensures PointsGrow(m, r.handoffs, q.missionId, PointOf(o)) && AddsAtMostOne(m, r, id, q)
  {
  }

  // -------------------------------------------------------------- transitions

  lemma MovedLastEntry(h: Handoff, status: HandoffStatus, actor: Participant, o: Observation, now: Time, context: Context)
    requires h.transitions != [] && ValidObservation(o) && LastOf(h).status == h.status && LastOf(h).at == h.updatedAt
    requires StatusMayBecome(h.status, status) && OwnAct(h, status, actor) && MoveProblem(h, status, actor, o, now).None?
    ensures TransitionProblem(Moved(h, status, actor, o, now, context), |h.transitions|).None?
  {
    var h' := Moved(h, status, actor, o, now, context);
    var n := |h.transitions|;
    assert h'.transitions[n - 1] == LastOf(h);
    assert h'.transitions[n] == Transition(status, now, actor, context, PointOf(o));
  }

  lemma MovedEarlierEntry(h: Handoff, h': Handoff, k: nat)
    requires k < |h.transitions| && MayFollow(h, h') && TransitionProblem(h, k).None?
    ensures TransitionProblem(h', k).None?
  {
    assert h'.transitions[k] == h.transitions[k];
    if k > 0 { assert h'.transitions[k - 1] == h.transitions[k - 1]; }
  }

  lemma MovedFields(h: Handoff, status: HandoffStatus, actor: Participant, o: Observation, now: Time, context: Context)
    requires FieldsProblem(h).None? && Restated(h) && |h.transitions| <= 3
    ensures var h' := Moved(h, status, actor, o, now, context);
            FieldsProblem(h').None? && Restated(h') && EndsAsRecorded(h')
  {
  }

  /** The guards of a status change already imply every rule of the record. */
  lemma MovedIsValid(h: Handoff, status: HandoffStatus, actor: Participant, o: Observation, now: Time, context: Context)
    requires ValidHandoff(h) && ValidObservation(o)
    requires StatusMayBecome(h.status, status) && OwnAct(h, status, actor) && MoveProblem(h, status, actor, o, now).None?
    ensures ValidHandoff(Moved(h, status, actor, o, now, context))
  {
    var h' := Moved(h, status, actor, o, now, context);
    var n := |h.transitions|;
    WalksAreShort(h);
    TransitionsProblemNone(h, 0);
    MovedFollows(h, status, actor, o, now, context);
    MovedLastEntry(h, status, actor, o, now, context);
    MovedFields(h, status, actor, o, now, context);
    forall k | 0 <= k < |h'.transitions| ensures TransitionProblem(h', k).None? {
      if k < n { MovedEarlierEntry(h, h', k); }
    }
    TransitionsProblemNone(h', 0);
  }

  lemma MovedFollows(h: Handoff, status: HandoffStatus, actor: Participant, o: Observation, now: Time, context: Context)
    requires StatusMayBecome(h.status, status)
    ensures var h' := Moved(h, status, actor, o, now, context);
            MayFollow(h, h') && PointsIn(h') == PointsIn(h) + {PointOf(o)} && !TerminalStatus(h.status)
  {
    var h' := Moved(h, status, actor, o, now, context);
    assert h'.transitions[|h.transitions|] in h'.transitions;
    forall t | t in h.transitions ensures t in h'.transitions {}
  }

  lemma MoveKeepsPairs(m: HandoffMap, id: Id, h': Handoff)
    requires OneKey(m, m.Keys) && OneEffect(m, m.Keys) && id in m && MayFollow(m[id], h') && !TerminalStatus(m[id].status)
    ensures var m' := m[id := h']; OneKey(m', m'.Keys) && OneEffect(m', m'.Keys)
  {
    var m' := m[id := h'];
    forall j, k | j in m' && k in m' && SameKey(m'[j], m'[k]) ensures j == k {
      assert SameKey(m[j], m[k]);
    }
    forall j, k | j in m' && k in m' && SameEffect(m'[j], m'[k]) ensures j == k {
      assert SameEffect(m[j], m[k]);
    }
  }

  lemma MoveKeepsLinks(m: HandoffMap, id: Id, h': Handoff)
    requires Linked(m) && id in m && MayFollow(m[id], h')
    ensures Linked(m[id := h']) && HandoffHistory(m, m[id := h'])
  {
    var m' := m[id := h'];
    forall k | k in m' ensures LinkProblem(m', m'[k]).None? {
      assert LinkProblem(m, m[k]).None?;
      LinkCarries(m, m', m[k], m'[k]);
    }
  }

  lemma MoveKeepsRecords(m: HandoffMap, rosters: RosterMap, id: Id, h': Handoff)
    requires HandoffsOk(m, rosters, m.Keys) && id in m && ValidHandoff(h') && MayFollow(m[id], h')
    ensures var m' := m[id := h']; HandoffsOk(m', rosters, m'.Keys)
  {
    var m' := m[id := h'];
    assert HandoffOk(rosters, m[id], id);
    forall k | k in m' ensures HandoffOk(rosters, m'[k], k) {
      assert HandoffOk(rosters, m[k], k);
    }
  }

  lemma MovePoints(m: HandoffMap, id: Id, h': Handoff, read: Point)
    requires id in m && PointsIn(h') == PointsIn(m[id]) + {read}
    ensures PointsGrow(m, m[id := h'], m[id].missionId, read)
  {
  }

  lemma MoveShape(m: HandoffMap, id: Id, status: HandoffStatus, actor: Participant, looked: FreshnessResult,
                  now: Time, context: Context)
    requires id in m && StatusMayBecome(m[id].status, status) && OwnAct(m[id], status, actor)
    requires RequireFresh(looked, m[id].missionId).Ok?
    requires MoveProblem(m[id], status, actor, looked.observation.value, now).None?
    requires ValidHandoff(Moved(m[id], status, actor, looked.observation.value, now, context))
    ensures TransitionHandoff(m, id, status, actor, looked, now, context)
            == Ok(m[id := Moved(m[id], status, actor, looked.observation.value, now, context)])
  {
  }

  /** What a status change asks of its caller and of the source. */
  ghost predicate MayMove(m: HandoffMap, id: Id, status: HandoffStatus, actor: Participant, looked: FreshnessResult, now: Time) {
    && id in m && StatusMayBecome(m[id].status, status) && OwnAct(m[id], status, actor)
    && RequireFresh(looked, m[id].missionId).Ok?
    && MoveProblem(m[id], status, actor, looked.observation.value, now).None?
  }

  lemma MoveKeepsRules(m: HandoffMap, rosters: RosterMap, id: Id, h': Handoff, read: Point)
    requires AcceptedHandoffs(m, rosters) && id in m && ValidHandoff(h') && MayFollow(m[id], h')
    requires !TerminalStatus(m[id].status) && PointsIn(h') == PointsIn(m[id]) + {read}
    ensures AcceptedHandoffs(m[id := h'], rosters) && HandoffHistory(m, m[id := h'])
    ensures PointsGrow(m, m[id := h'], m[id].missionId, read)
  {
    MoveKeepsRecords(m, rosters, id, h');
    MoveKeepsPairs(m, id, h');
    MoveKeepsLinks(m, id, h');
    MovePoints(m, id, h', read);
  }

  lemma MayMoveGives(m: HandoffMap, id: Id, status: HandoffStatus, actor: Participant, looked: FreshnessResult,
                     now: Time, context: Context)
    requires MayMove(m, id, status, actor, looked, now) && ValidHandoff(m[id])
    requires ValidObservation(looked.observation.value)
    ensures var h' := Moved(m[id], status, actor, looked.observation.value, now, context);
            && TransitionHandoff(m, id, status, actor, looked, now, context) == Ok(m[id := h'])
            && ValidHandoff(h') && MayFollow(m[id], h') && !TerminalStatus(m[id].status)
            && PointsIn(h') == PointsIn(m[id]) + {PointOf(looked.observation.value)}
  {
    var o := looked.observation.value;
    MovedIsValid(m[id], status, actor, o, now, context);
    MovedFollows(m[id], status, actor, o, now, context);
    MoveShape(m, id, status, actor, looked, now, context);
  }

  /** A status change that is let through keeps every rule and extends one
      list by one entry; the final validation never refuses it. */
  lemma TransitionKeeps(m: HandoffMap, rosters: RosterMap, id: Id, status: HandoffStatus, actor: Participant,
                        looked: FreshnessResult, now: Time, context: Context)
    requires AcceptedHandoffs(m, rosters) && id in m && looked.observation.Some?
    requires MayMove(m, id, status, actor, looked, now)
    requires ValidObservation(looked.observation.value)
    ensures var m' := m[id := Moved(m[id], status, actor, looked.observation.value, now, context)];
            && TransitionHandoff(m, id, status, actor, looked, now, context) == Ok(m')
            && AcceptedHandoffs(m', rosters) && HandoffHistory(m, m')
            && PointsGrow(m, m', m[id].missionId, PointOf(looked.observation.value))
  {
    var o := looked.observation.value;
    assert HandoffOk(rosters, m[id], id);
    MayMoveGives(m, id, status, actor, looked, now, context);
    MoveKeepsRules(m, rosters, id, Moved(m[id], status, actor, o, now, context), PointOf(o));
  }

  /** Any other status change is refused. */
  lemma RefusedOtherwise(m: HandoffMap, id: Id, status: HandoffStatus, actor: Participant, looked: FreshnessResult,
                         now: Time, context: Context)
    requires !MayMove(m, id, status, actor, looked, now)
    ensures TransitionHandoff(m, id, status, actor, looked, now, context).Refused?
  {
  }
}
