/** Exactly when a request can be planned a second time. */
module Replanning {
  import opened Record
  import opened Approval
  import opened ApprovalSteps
  import opened ApprovalLaws
  import opened ApprovalTheorems

  /** The states these actions pass through from s. */
  ghost predicate Leads(s: System, states: seq<System>, more: seq<Action>) {
    && |states| == |more| + 1 && states[0] == s
    && (forall i :: 0 <= i < |more| ==> states[i + 1] == Step(states[i], more[i]))
  }

  /** Two workflows of one request have been recorded. */
  ghost predicate PlannedTwice(s: System, key: OriginKey) {
    exists id, jd :: id in s.origins && jd in s.origins && id != jd && s.origins[id] == key && s.origins[jd] == key
  }

  /** Some continuation records a second workflow for the request. */
  ghost predicate CanRepeat(s: System, key: OriginKey) {
    exists states, more :: Leads(s, states, more) && PlannedTwice(states[|more|], key)
  }

  // ------------------------------------------------------- a clean record stays

  /** The request recorded a workflow, and no write of it was torn. */
  ghost predicate Settles(s: System, id: WorkflowId, key: OriginKey) {
    id in s.origins && s.origins[id] == key && key !in s.torn
  }

  lemma HoldsItsRecord(s: System, c: Client, id: WorkflowId, key: OriginKey)
    requires Safe(s) && Settles(s, id, key) && c in s.clients && FrameKey(s.clients[c], key)
    ensures s.clients[c].Recorded?
  {
    assert FrameKey(s.clients[c], s.origins[id]);
  }

  lemma SettlesThroughRecord(s: System, c: Client, ref: Ref, wid: WorkflowId, w: Workflow, pruned: set<WorkflowId>, now: Time,
                             end: WriteEnd, id: WorkflowId, key: OriginKey)
    requires Safe(s) && Settles(s, id, key)
    ensures Settles(DoRecord(s, c, ref, wid, w, pruned, now, end), id, key)
  {
    if c in s.clients && FrameKey(s.clients[c], key) { HoldsItsRecord(s, c, id, key); }
    assert id in s.ids;
  }

  lemma OthersRecordNothing(s: System, a: Action)
    requires !a.RecordPlanned?
    ensures Step(s, a).origins == s.origins && Step(s, a).torn == s.torn
  {
    if RequestStep(a) { RequestsRecordNothing(s, a); }
    else if ArmingStep(a) { ArmingRecordsNothing(s, a); }
    else { DecidingRecordsNothing(s, a); }
  }

  lemma RequestsRecordNothing(s: System, a: Action)
    requires RequestStep(a) && !a.RecordPlanned?
    ensures RequestNext(s, a).origins == s.origins && RequestNext(s, a).torn == s.torn
  {
    match a
    case Begin(c, key, end) => BeginRecordsNothing(s, c, key, end);
    case Propose(c, capability, capabilityExpiresAt, end) => ProposeRecordsNothing(s, c, capability, capabilityExpiresAt, end);
    case _ =>
  }

  lemma BeginRecordsNothing(s: System, c: Client, key: OriginKey, end: WriteEnd)
    ensures DoBegin(s, c, key, end).origins == s.origins && DoBegin(s, c, key, end).torn == s.torn
  {
  }

  lemma ProposeRecordsNothing(s: System, c: Client, capability: Capability, capabilityExpiresAt: Time, end: WriteEnd)
    ensures var s' := DoPropose(s, c, capability, capabilityExpiresAt, end);
            s'.origins == s.origins && s'.torn == s.torn
  {
  }

  lemma ArmingRecordsNothing(s: System, a: Action)
    requires ArmingStep(a)
    ensures ArmingNext(s, a).origins == s.origins && ArmingNext(s, a).torn == s.torn
  {
  }

  lemma DecidingRecordsNothing(s: System, a: Action)
    requires !RequestStep(a) && !ArmingStep(a)
    ensures DecidingNext(s, a).origins == s.origins && DecidingNext(s, a).torn == s.torn
  {
  }

  lemma SettlesThrough(s: System, a: Action, id: WorkflowId, key: OriginKey)
    requires Safe(s) && Settles(s, id, key)
    ensures Settles(Step(s, a), id, key)
  {
    if a.RecordPlanned? {
      SettlesThroughRecord(s, a.client, a.ref, a.id,
                           Workflow(Some(a.ref), a.revision, a.authorization, a.expiresAt, None, false, PhasePlanned),
                           a.pruned, a.now, a.end, id, key);
    } else {
      OthersRecordNothing(s, a);
    }
  }

  lemma {:induction false} SettlesForGood(s: System, states: seq<System>, more: seq<Action>, k: nat, id: WorkflowId, key: OriginKey)
    requires Safe(s) && Settles(s, id, key) && Leads(s, states, more) && k < |states|
    ensures Safe(states[k]) && Settles(states[k], id, key)
  {
    if k > 0 {
      SettlesForGood(s, states, more, k - 1, id, key);
      StepIsSafe(states[k - 1], more[k - 1]);
      SettlesThrough(states[k - 1], more[k - 1], id, key);
    }
  }

  lemma SettledIsOnce(s: System, id: WorkflowId, key: OriginKey)
    requires Safe(s) && Settles(s, id, key)
    ensures !PlannedTwice(s, key)
  {
  }

  lemma CleanNeverRepeats(s: System, id: WorkflowId, key: OriginKey)
    requires Safe(s) && Settles(s, id, key)
    ensures !CanRepeat(s, key)
  {
    forall states, more | Leads(s, states, more) ensures !PlannedTwice(states[|more|], key) {
      SettlesForGood(s, states, more, |more|, id, key);
      SettledIsOnce(states[|more|], id, key);
    }
  }

  // -------------------------------------------------------- a torn one repeats

  predicate Bounded(s: System) { |s.index.requests| <= MAX_ENTRIES }

  lemma OverwrittenSize<K, V>(m: map<K, V>, k: K, v: V)
    ensures |m[k := v]| == |m| + (if k in m then 0 else 1)
  {
    assert m[k := v].Keys == m.Keys + {k};
  }

  lemma RemovedSize<K, V>(m: map<K, V>, k: K)
    ensures |m - {k}| == |m| - (if k in m then 1 else 0)
  {
    assert (m - {k}).Keys == m.Keys - {k};
  }

  lemma BeginIsBounded(s: System, c: Client, key: OriginKey, end: WriteEnd)
    requires Bounded(s)
    ensures Bounded(DoBegin(s, c, key, end))
  {
    OverwrittenSize(s.index.requests, key, InFlight);
  }

  lemma ProposeIsBounded(s: System, c: Client, capability: Capability, capabilityExpiresAt: Time, end: WriteEnd)
    requires Safe(s) && Bounded(s)
    ensures Bounded(DoPropose(s, c, capability, capabilityExpiresAt, end))
  {
    if c in s.clients && s.clients[c].Recorded? {
      assert s.clients[c].key in s.index.requests;
      OverwrittenSize(s.index.requests, s.clients[c].key, Proposed(s.clients[c].ref));
    }
  }

  lemma AbandonIsBounded(s: System, c: Client, end: WriteEnd)
    requires Bounded(s)
    ensures Bounded(DoAbandon(s, c, end))
  {
    if c in s.clients && s.clients[c].Failing? { RemovedSize(s.index.requests, s.clients[c].key); }
  }

  lemma ArmingKeepsRequests(s: System, a: Action)
    requires ArmingStep(a)
    ensures ArmingNext(s, a).index.requests == s.index.requests
  {
  }

  lemma DecidingKeepsRequests(s: System, a: Action)
    requires !RequestStep(a) && !ArmingStep(a)
    ensures DecidingNext(s, a).index.requests == s.index.requests
  {
    match a
    case Fire(code, end) => FireKeepsRequests(s, code, end);
    case FireDelivery(proposal, preimage, end) => FireWithKeepsRequests(s, DeliveryKey(proposal), preimage, end);
    case _ =>
  }

  lemma FireWithKeepsRequests(s: System, key: Key, preimage: Commitment, end: WriteEnd)
    ensures FireWith(s, key, preimage, end).0.index.requests == s.index.requests
  {
  }

  lemma FireKeepsRequests(s: System, code: Nonce, end: WriteEnd)
    ensures DoFire(s, code, end).index.requests == s.index.requests
  {
    if s.session.Checked? {
      FireWithKeepsRequests(s, WorkflowKey(s.session.ref),
                            WorkflowCommitment(s.session.shown.binding, s.session.shown.display, code), end);
    }
  }

  lemma StepIsBounded(s: System, a: Action)
    requires Safe(s) && Bounded(s)
    ensures Bounded(Step(s, a))
  {
    if ArmingStep(a) { ArmingKeepsRequests(s, a); }
    else if !RequestStep(a) { DecidingKeepsRequests(s, a); }
    else {
      match a
      case Begin(c, key, end) => BeginIsBounded(s, c, key, end);
      case Propose(c, capability, capabilityExpiresAt, end) => ProposeIsBounded(s, c, capability, capabilityExpiresAt, end);
      case Abandon(c, end) => AbandonIsBounded(s, c, end);
      case _ =>
    }
  }

  lemma BoundedThrough(run: seq<System>, actions: seq<Action>, k: nat)
    requires IsRun(run, actions) && 0 < k < |run| && Bounded(run[k - 1])
    ensures Bounded(run[k])
  {
    RunIsSafe(run, actions, k - 1);
    StepIsBounded(run[k - 1], actions[k - 1]);
  }

  lemma {:induction false} RunIsBounded(run: seq<System>, actions: seq<Action>, k: nat)
    requires IsRun(run, actions) && k < |run|
    ensures Bounded(run[k])
  {
    if k > 0 {
      RunIsBounded(run, actions, k - 1);
      BoundedThrough(run, actions, k);
    }
  }

  lemma Unused(used: set<nat>) returns (n: nat)
    ensures n !in used
  {
    n := 0;
    var rest := used;
    while rest != {}
      invariant rest <= used && forall x :: x in used && x !in rest ==> x < n
      decreases |rest|
    {
      var x :| x in rest;
      rest := rest - {x};
      n := if n <= x then x + 1 else n;
    }
  }

  /** What a record write that landed and then raised leaves for its request. */
  ghost predicate TornAt(s: System, c: Client, id: WorkflowId, key: OriginKey) {
    && c in s.clients && s.clients[c] == Failing(key) && id in s.origins && s.origins[id] == key
    && id in s.workflows && s.workflows[id].origin.Some? && IsPending(s.workflows[id]) && |s.workflows| <= MAX_WORKFLOW_RECORDS
  }

  lemma RecordedHere(s: System, a: Action)
    requires Safe(s) && a.RecordPlanned? && a.id !in s.origins && a.id in Step(s, a).origins
    ensures a.client in s.clients && s.clients[a.client].Begun? && !a.end.FailedBefore?
    ensures var key, s' := s.clients[a.client].key, Step(s, a);
            && s'.origins[a.id] == key
            && (a.end.Landed? ==> s'.torn == s.torn)
            && (a.end.LandedThenRaised? ==> TornAt(s', a.client, a.id, key))
  {
    var w := Workflow(Some(a.ref), a.revision, a.authorization, a.expiresAt, None, false, PhasePlanned);
    OverwrittenSize(Kept(VoidExpired(s.workflows, a.now), a.pruned), a.id, w);
  }

  /** The torn record's own expiry makes room for its second plan. */
  lemma RoomAgain(ws: Workflows, id: WorkflowId, jd: WorkflowId, w: Workflow)
    requires id in ws && ws[id].origin.Some? && IsPending(ws[id]) && |ws| <= MAX_WORKFLOW_RECORDS && jd !in ws
    ensures RecordWorkflow(ws, jd, w, {id}, ws[id].expiresAt).Done?
  {
    var v := VoidExpired(ws, ws[id].expiresAt);
    assert TerminalPhase(v[id].phase);
    RemovedSize(ws, id);
    var kept := Kept(v, {id});
    assert kept.Keys == (ws - {id}).Keys by {
      assert forall k :: k in kept ==> k in ws && k != id;
      assert forall k :: k in ws && k != id ==> k in kept;
    }
    assert |kept| == |kept.Keys| == |(ws - {id}).Keys| == |ws - {id}|;
  }

  lemma AbandonFrees(s: System, c: Client, key: OriginKey)
    requires Safe(s) && s.session.NoSession? && c in s.clients && s.clients[c] == Failing(key)
    ensures key in s.index.requests
    ensures DoAbandon(s, c, Landed)
            == s.(clients := s.clients - {c}, index := s.index.(requests := s.index.requests - {key}))
  {
    assert !s.clients[c].Voiding? && s.clients[c].key == key;
  }

  lemma BeginAgain(s: System, c: Client, key: OriginKey)
    requires Safe(s) && Bounded(s) && s.session.NoSession? && c in s.clients && s.clients[c] == Failing(key)
    ensures var s' := DoBegin(DoAbandon(s, c, Landed), c, key, Landed);
            s'.clients.Keys >= {c} && s'.clients[c] == Begun(key)
            && s' == s.(clients := s'.clients, index := s'.index)
  {
    AbandonFrees(s, c, key);
    RemovedSize(s.index.requests, key);
  }

  lemma RecordAgain(s: System, c: Client, id: WorkflowId, key: OriginKey, ref: Ref, jd: WorkflowId)
    requires c in s.clients && s.clients[c] == Begun(key) && id in s.origins && s.origins[id] == key
    requires id in s.workflows && s.workflows[id].origin.Some? && IsPending(s.workflows[id]) && |s.workflows| <= MAX_WORKFLOW_RECORDS
    requires ref !in s.refs && jd !in s.ids && jd !in s.workflows && jd !in s.origins
    ensures PlannedTwice(DoRecord(s, c, ref, jd, Planned(ref), {id}, s.workflows[id].expiresAt, Landed), key)
  {
    RoomAgain(s.workflows, id, jd, Planned(ref));
    var s' := DoRecord(s, c, ref, jd, Planned(ref), {id}, s.workflows[id].expiresAt, Landed);
    assert s'.origins == s.origins[jd := key];
    assert id in s'.origins && jd in s'.origins && id != jd;
  }

  function Replan(s: System, c: Client, id: WorkflowId, key: OriginKey, ref: Ref, jd: WorkflowId): seq<Action>
    requires id in s.workflows
  {
    [CrashSession, Abandon(c, Landed), Begin(c, key, Landed),
     RecordPlanned(c, ref, jd, 1, "plan", 100, {id}, s.workflows[id].expiresAt, Landed)]
  }

  lemma ReplanLeads(s: System, c: Client, id: WorkflowId, key: OriginKey, ref: Ref, jd: WorkflowId, s2: System, s3: System, s4: System)
    requires id in s.workflows && s2 == DoAbandon(s.(session := NoSession), c, Landed) && s3 == DoBegin(s2, c, key, Landed)
    requires s4 == DoRecord(s3, c, ref, jd, Planned(ref), {id}, s.workflows[id].expiresAt, Landed)
    ensures Leads(s, [s, s.(session := NoSession), s2, s3, s4], Replan(s, c, id, key, ref, jd))
  {
    var more := Replan(s, c, id, key, ref, jd);
    assert Step(s, CrashSession) == s.(session := NoSession);
    assert Step(s.(session := NoSession), more[1]) == s2;
    assert Step(s2, more[2]) == s3;
    assert Step(s3, more[3]) == s4;
    FourLead(s, s.(session := NoSession), s2, s3, s4, more);
  }

  lemma ReplanRepeats(s: System, c: Client, id: WorkflowId, key: OriginKey, ref: Ref, jd: WorkflowId) returns (s2: System, s3: System, s4: System)
    requires Safe(s) && Bounded(s) && TornAt(s, c, id, key) && ref !in s.refs && jd !in s.ids
    ensures s2 == DoAbandon(s.(session := NoSession), c, Landed) && s3 == DoBegin(s2, c, key, Landed)
    ensures s4 == DoRecord(s3, c, ref, jd, Planned(ref), {id}, s.workflows[id].expiresAt, Landed) && PlannedTwice(s4, key)
  {
    var s1 := s.(session := NoSession);
    ClosedSectionIsSafe(s);
    BeginAgain(s1, c, key);
    s2 := DoAbandon(s1, c, Landed);
    s3 := DoBegin(s2, c, key, Landed);
    FreshIsUnused(s, jd);
    RecordAgain(s3, c, id, key, ref, jd);
    s4 := DoRecord(s3, c, ref, jd, Planned(ref), {id}, s.workflows[id].expiresAt, Landed);
  }

  lemma RepeatsBy(s: System, states: seq<System>, more: seq<Action>, key: OriginKey)
    requires Leads(s, states, more) && PlannedTwice(states[|more|], key)
    ensures CanRepeat(s, key)
  {
  }

  /** From any state so left: the section is given up, the request abandoned,
      begun and planned again. */
  lemma TornRepeats(s: System, c: Client, id: WorkflowId, key: OriginKey)
    requires Safe(s) && Bounded(s) && TornAt(s, c, id, key)
    ensures CanRepeat(s, key)
  {
    var ref := Unused(s.refs);
    var jd := Unused(s.ids);
    var s2, s3, s4 := ReplanRepeats(s, c, id, key, ref, jd);
    ReplanLeads(s, c, id, key, ref, jd, s2, s3, s4);
    RepeatsBy(s, [s, s.(session := NoSession), s2, s3, s4], Replan(s, c, id, key, ref, jd), key);
  }

  lemma FreshIsUnused(s: System, jd: WorkflowId)
    requires Safe(s) && jd !in s.ids
    ensures jd !in s.workflows && jd !in s.origins
  {
  }

  lemma FourLead(s: System, s1: System, s2: System, s3: System, s4: System, more: seq<Action>)
    requires |more| == 4 && s1 == Step(s, more[0]) && s2 == Step(s1, more[1]) && s3 == Step(s2, more[2]) && s4 == Step(s3, more[3])
    ensures Leads(s, [s, s1, s2, s3, s4], more)
  {
  }

  /** When a workflow has just been recorded for a request not torn before, a
      second one can follow if and only if that write landed and then raised. */
  lemma RepeatsExactlyWhenTorn(run: seq<System>, actions: seq<Action>, k: nat)
    requires IsRun(run, actions) && k < |actions| && actions[k].RecordPlanned?
    requires actions[k].id !in run[k].origins && actions[k].id in run[k + 1].origins
    requires run[k + 1].origins[actions[k].id] !in run[k].torn
    ensures CanRepeat(run[k + 1], run[k + 1].origins[actions[k].id]) <==> actions[k].end.LandedThenRaised?
  {
    var a, s' := actions[k], run[k + 1];
    RunIsSafe(run, actions, k);
    RunIsSafe(run, actions, k + 1);
    RunIsBounded(run, actions, k + 1);
    RecordedHere(run[k], a);
    if a.end.LandedThenRaised? {
      TornRepeats(s', a.client, a.id, s'.origins[a.id]);
    } else {
      CleanNeverRepeats(s', a.id, s'.origins[a.id]);
    }
  }
}
