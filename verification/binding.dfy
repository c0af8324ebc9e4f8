/** Conversation bindings: the durable evidence routing resolves through
    (coordination/binding.py). */
module Bindings {
  import opened Record
  import opened Observations
  import opened Sorting

  const MAX_BINDINGS_PER_MISSION := 64
  const MAX_BINDINGS_PER_CONVERSATION := 256
  const MAX_BINDING_VALIDITY_SECONDS := 315360000

  datatype BindingKind = Alias | ApprovalPresentation | Conversation | Issue | Project
                       | ReplyToMessage | Repository | ResultPresentation

  /** Scoped to one conversation, rather than a durable lookup. */
  predicate Scoped(k: BindingKind) {
    k.ApprovalPresentation? || k.Conversation? || k.ReplyToMessage? || k.ResultPresentation?
  }

  datatype Binding = Binding(
    bindingId: Id, kind: BindingKind, transport: string, conversationRef: Option<string>,
    selector: string, missionId: Id, boundRevision: nat, boundAt: Time, expiresAt: Option<Time>,
    revoked: bool, revokedAt: Option<Time>, boundBy: Context, point: Point)

  datatype BindingIdentity = BindingIdentity(kind: BindingKind, transport: string,
                                             conversationRef: Option<string>, selector: string)

  function IdentityOf(b: Binding): BindingIdentity {
    BindingIdentity(b.kind, b.transport, b.conversationRef, b.selector)
  }

  // --------------------------------------------------------------- selectors

  /** Where rpartition("#") splits. */
  function LastHash(s: string): (i: Option<nat>)
    ensures i.Some? ==> i.value < |s| && s[i.value] == '#'
  {
    if s == "" then None
    else if s[|s|-1] == '#' then Some(|s|-1)
    else LastHash(s[..|s|-1])
  }

  /** <repository url>#<issue number>, the number without a leading zero. */
  predicate IssueSelector(s: string) {
    var i := LastHash(s);
    i.Some? && i.value > 0
    && var number := s[i.value + 1..];
       number != "" && number[0] != '0' && forall k :: 0 <= k < |number| ==> IsDigit(number[k])
  }

  predicate SelectorOk(kind: BindingKind, selector: string) {
    match kind
    case Conversation => selector == ""
    case Issue => IssueSelector(selector)
    case _ => selector != ""
  }

  /** The repository a REPOSITORY or ISSUE binding names. */
  function RepositoryOfSelector(b: Binding): string {
    if b.kind.Repository? then b.selector else
      var i := LastHash(b.selector);
      if i.None? then b.selector else b.selector[..i.value]
  }

  // ----------------------------------------------------------------- records

  function BindingProblem(b: Binding): Option<Problem> {
    if Scoped(b.kind) != b.conversationRef.Some? then Some(BadValue)
    else if !SelectorOk(b.kind, b.selector) then Some(BadValue)
    else if b.boundRevision < 1 then Some(BadValue)
    else if b.expiresAt.Some? && b.expiresAt.value <= b.boundAt then Some(BadValue)
    else if b.expiresAt.Some? && b.expiresAt.value - b.boundAt > MAX_BINDING_VALIDITY_SECONDS then Some(TooLarge)
    else if b.revoked != b.revokedAt.Some? then Some(BadValue)
    else if b.revoked && b.revokedAt.value < b.boundAt then Some(BadValue)
    else if !ValidPoint(b.point) || b.point.revision != b.boundRevision then Some(BadValue)
    else None
  }

  predicate ValidBinding(b: Binding) { BindingProblem(b).None? }

  function NewBinding(id: Id, kind: BindingKind, transport: string, conversationRef: Option<string>,
                      selector: string, mission: Id, observed: Observation, boundAt: Time,
                      expiresAt: Option<Time>, context: Context): Result<Binding>
  {
    if observed.missionId != mission then Refused(MissionMismatch) else
      var b := Binding(id, kind, transport, conversationRef, selector, mission, observed.currentRevision,
                       boundAt, expiresAt, false, None, context, PointOf(observed));
      var p := BindingProblem(b);
      if p.Some? then Refused(p.value) else Ok(b)
  }

  predicate IsExpired(b: Binding, now: Time) { b.expiresAt.Some? && now >= b.expiresAt.value }

  predicate IsActive(b: Binding, now: Time) { !b.revoked && !IsExpired(b, now) }

  /** revoke: a revoked copy; explicit and final. */
  function Revoke(b: Binding, now: Time): Result<Binding> {
    if !ValidBinding(b) then Refused(BindingProblem(b).value)
    else if b.revoked then Refused(InvalidTransition)
    else if now < b.boundAt then Refused(BadValue)
    else Ok(b.(revoked := true, revokedAt := Some(now)))
  }

  // ---------------------------------------------------------------- lookups

  type BindingMap = map<Id, Binding>

  /** The records of these keys that satisfy a test, in key order. */
  function FindAmong(bindings: BindingMap, keys: seq<Id>, wanted: BindingIdentity): seq<Binding>
    requires forall k :: k in keys ==> k in bindings
  {
    if keys == [] then [] else
      var b := bindings[keys[0]];
      (if !b.revoked && IdentityOf(b) == wanted then [b] else []) + FindAmong(bindings, keys[1..], wanted)
  }

  /** Every non-revoked binding holding this identity, in id order. */
  function Find(bindings: BindingMap, wanted: BindingIdentity): seq<Binding> {
    FindAmong(bindings, Sorted(bindings.Keys), wanted)
  }

  predicate InConversation(b: Binding, transport: string, conversationRef: string, now: Time) {
    Scoped(b.kind) && b.transport == transport && b.conversationRef == Some(conversationRef) && IsActive(b, now)
  }

  function ConversationAmong(bindings: BindingMap, keys: seq<Id>, transport: string,
                             conversationRef: string, now: Time): seq<Binding>
    requires forall k :: k in keys ==> k in bindings
  {
    if keys == [] then [] else
      var b := bindings[keys[0]];
      (if InConversation(b, transport, conversationRef, now) then [b] else [])
      + ConversationAmong(bindings, keys[1..], transport, conversationRef, now)
  }

  /** Every ACTIVE conversation-scoped binding of one conversation, in id order. */
  function ConversationBindings(bindings: BindingMap, transport: string, conversationRef: string, now: Time): seq<Binding> {
    ConversationAmong(bindings, Sorted(bindings.Keys), transport, conversationRef, now)
  }

  lemma {:induction false} FindAmongExactly(bindings: BindingMap, keys: seq<Id>, wanted: BindingIdentity)
    requires forall k :: k in keys ==> k in bindings
    ensures forall b :: b in FindAmong(bindings, keys, wanted) <==>
              exists k :: k in keys && bindings[k] == b && !b.revoked && IdentityOf(b) == wanted
  {
    if keys != [] {
      FindAmongExactly(bindings, keys[1..], wanted);
      assert forall k :: k in keys <==> k == keys[0] || k in keys[1..];
    }
  }

  lemma {:induction false} ConversationAmongExactly(bindings: BindingMap, keys: seq<Id>, transport: string,
                                                    conversationRef: string, now: Time)
    requires forall k :: k in keys ==> k in bindings
    ensures forall b :: b in ConversationAmong(bindings, keys, transport, conversationRef, now) <==>
              exists k :: k in keys && bindings[k] == b && InConversation(b, transport, conversationRef, now)
  {
    if keys != [] {
      ConversationAmongExactly(bindings, keys[1..], transport, conversationRef, now);
      assert forall k :: k in keys <==> k == keys[0] || k in keys[1..];
    }
  }

  lemma FindExactly(bindings: BindingMap, wanted: BindingIdentity)
    ensures forall b :: b in Find(bindings, wanted) <==>
              exists k :: k in bindings && bindings[k] == b && !b.revoked && IdentityOf(b) == wanted
  {
    FindAmongExactly(bindings, Sorted(bindings.Keys), wanted);
  }

  predicate Holds(b: Binding, w: BindingIdentity) { !b.revoked && IdentityOf(b) == w }

  lemma FindNone(bindings: BindingMap, wanted: BindingIdentity)
    requires Find(bindings, wanted) == []
    ensures forall k :: k in bindings ==> !Holds(bindings[k], wanted)
  {
    FindExactly(bindings, wanted);
    forall k | k in bindings ensures !Holds(bindings[k], wanted) {
      assert bindings[k] !in Find(bindings, wanted);
    }
  }

  lemma ConversationExactly(bindings: BindingMap, transport: string, conversationRef: string, now: Time)
    ensures forall b :: b in ConversationBindings(bindings, transport, conversationRef, now) <==>
              exists k :: k in bindings && bindings[k] == b && InConversation(b, transport, conversationRef, now)
  {
    ConversationAmongExactly(bindings, Sorted(bindings.Keys), transport, conversationRef, now);
  }

  // -------------------------------------------------------------- the family

  ghost function OfMission(bindings: BindingMap, keys: set<Id>, m: Id): set<Id> {
    set k | k in keys && k in bindings && bindings[k].missionId == m
  }

  ghost function OfConversation(bindings: BindingMap, keys: set<Id>, c: (string, string)): set<Id> {
    set k | k in keys && k in bindings && IsIn(bindings[k], c)
  }

  ghost predicate WithinCaps(bindings: BindingMap) {
    && (forall m :: |OfMission(bindings, bindings.Keys, m)| <= MAX_BINDINGS_PER_MISSION)
    && (forall c :: |OfConversation(bindings, bindings.Keys, c)| <= MAX_BINDINGS_PER_CONVERSATION)
  }

  predicate Clash(a: Binding, b: Binding) { !a.revoked && Holds(b, IdentityOf(a)) }

  ghost predicate CoherentOn(bindings: BindingMap, keys: set<Id>)
    requires keys <= bindings.Keys
  {
    && (forall k :: k in keys ==> ValidBinding(bindings[k]) && bindings[k].bindingId == k)
    && (forall j, k :: j in keys && k in keys && Clash(bindings[j], bindings[k]) ==> j == k)
  }

  /** Everything the loader asks except the two caps. */
  ghost predicate CoherentBindings(bindings: BindingMap) { CoherentOn(bindings, bindings.Keys) }

  ghost predicate AcceptedBindings(bindings: BindingMap) {
    CoherentBindings(bindings) && WithinCaps(bindings)
  }

  predicate RevokedCopy(was: Binding, now: Binding) {
    !was.revoked && now.revoked && now == was.(revoked := true, revokedAt := now.revokedAt)
  }

  /** Only revocation may touch a recorded binding, and only once. */
  ghost predicate BindingHistory(was: BindingMap, now: BindingMap) {
    && was.Keys <= now.Keys
    && (forall k :: k in was ==> now[k] == was[k] || RevokedCopy(was[k], now[k]))
  }

  // -------------------------------------------------------------- the loader

  function Count<T(==)>(counts: map<T, nat>, t: T): nat { if t in counts then counts[t] else 0 }

  ghost predicate Counted(bindings: BindingMap, done: set<Id>, perMission: map<Id, nat>,
                          perConversation: map<(string, string), nat>) {
    && (forall m :: Count(perMission, m) == |OfMission(bindings, done, m)|)
    && (forall c :: Count(perConversation, c) == |OfConversation(bindings, done, c)|)
  }

  ghost function HeldBy(bindings: BindingMap, keys: set<Id>): set<BindingIdentity>
    requires keys <= bindings.Keys
  {
    set k | k in keys && !bindings[k].revoked :: IdentityOf(bindings[k])
  }

  function CountMission(counts: map<Id, nat>, b: Binding): map<Id, nat> {
    counts[b.missionId := Count(counts, b.missionId) + 1]
  }

  function CountConversation(counts: map<(string, string), nat>, b: Binding): map<(string, string), nat> {
    if b.conversationRef.None? then counts else
      var c := (b.transport, b.conversationRef.value);
      counts[c := Count(counts, c) + 1]
  }

  lemma CountOneMission(bindings: BindingMap, done: set<Id>, k: Id, m: Id)
    requires k in bindings && k !in done
    ensures |OfMission(bindings, done + {k}, m)|
            == |OfMission(bindings, done, m)| + (if bindings[k].missionId == m then 1 else 0)
  {
    var was := OfMission(bindings, done, m);
    if bindings[k].missionId == m {
      assert OfMission(bindings, done + {k}, m) == was + {k};
    } else {
      assert OfMission(bindings, done + {k}, m) == was;
    }
  }

  predicate IsIn(b: Binding, c: (string, string)) {
    b.conversationRef.Some? && (b.transport, b.conversationRef.value) == c
  }

  lemma CountOneConversation(bindings: BindingMap, done: set<Id>, k: Id, c: (string, string))
    requires k in bindings && k !in done
    ensures |OfConversation(bindings, done + {k}, c)|
            == |OfConversation(bindings, done, c)| + (if IsIn(bindings[k], c) then 1 else 0)
  {
    var was := OfConversation(bindings, done, c);
    if IsIn(bindings[k], c) {
      assert OfConversation(bindings, done + {k}, c) == was + {k};
    } else {
      assert OfConversation(bindings, done + {k}, c) == was;
    }
  }

  lemma CountOne(bindings: BindingMap, done: set<Id>, k: Id, perMission: map<Id, nat>,
                 perConversation: map<(string, string), nat>)
    requires k in bindings && k !in done && Counted(bindings, done, perMission, perConversation)
    ensures Counted(bindings, done + {k}, CountMission(perMission, bindings[k]),
                    CountConversation(perConversation, bindings[k]))
  {
    forall m ensures Count(CountMission(perMission, bindings[k]), m) == |OfMission(bindings, done + {k}, m)| {
      CountOneMission(bindings, done, k, m);
    }
    forall c ensures Count(CountConversation(perConversation, bindings[k]), c) == |OfConversation(bindings, done + {k}, c)| {
      CountOneConversation(bindings, done, k, c);
    }
  }

  lemma HeldGrows(bindings: BindingMap, done: set<Id>, k: Id)
    requires done <= bindings.Keys && k in bindings && k !in done
    ensures HeldBy(bindings, done + {k})
            == HeldBy(bindings, done) + (if bindings[k].revoked then {} else {IdentityOf(bindings[k])})
  {
  }

  lemma HeldTwice(bindings: BindingMap, done: set<Id>, k: Id)
    requires done <= bindings.Keys && k in bindings && k !in done && !bindings[k].revoked
    requires IdentityOf(bindings[k]) in HeldBy(bindings, done)
    ensures !CoherentBindings(bindings)
  {
    var j :| j in done && !bindings[j].revoked && IdentityOf(bindings[j]) == IdentityOf(bindings[k]);
    assert Clash(bindings[k], bindings[j]);
  }

  lemma HoldOne(bindings: BindingMap, done: set<Id>, k: Id)
    requires done <= bindings.Keys && k in bindings && k !in done && CoherentOn(bindings, done)
    requires ValidBinding(bindings[k]) && bindings[k].bindingId == k
    requires !bindings[k].revoked ==> IdentityOf(bindings[k]) !in HeldBy(bindings, done)
    ensures CoherentOn(bindings, done + {k})
  {
    forall j | j in done ensures !Clash(bindings[j], bindings[k]) && !Clash(bindings[k], bindings[j]) {
      assert !bindings[j].revoked ==> IdentityOf(bindings[j]) in HeldBy(bindings, done);
    }
  }

  /** One record of the loop: valid, under its key, its identity not yet held. */
  method CheckBinding(bindings: BindingMap, ghost done: set<Id>, key: Id, held: set<BindingIdentity>)
    returns (p: Option<Problem>, held': set<BindingIdentity>)
    requires done <= bindings.Keys && key in bindings && key !in done
    requires CoherentOn(bindings, done) && held == HeldBy(bindings, done)
    ensures p.Some? ==> !CoherentBindings(bindings)
    ensures p.None? ==> CoherentOn(bindings, done + {key}) && held' == HeldBy(bindings, done + {key})
  {
    held' := held;
    var b := bindings[key];
    p := BindingProblem(b);
    if p.Some? { return; }
    if b.bindingId != key { return Some(BadValue), held'; }
    if !b.revoked {
      if IdentityOf(b) in held {
        HeldTwice(bindings, done, key);
        return Some(BindingConflict), held';
      }
      held' := held + {IdentityOf(b)};
    }
    HoldOne(bindings, done, key);
    HeldGrows(bindings, done, key);
  }

  /** validate_bindings: held identities and the two counters grow per record. */
  method ValidateBindings(bindings: BindingMap) returns (p: Option<Problem>)
    ensures p.None? <==> AcceptedBindings(bindings)
    ensures CoherentBindings(bindings) && p.Some? ==> p == Some(TooLarge)
  {
    var keys := Sorted(bindings.Keys);
    var held: set<BindingIdentity> := {};
    var perMission: map<Id, nat> := map[];
    var perConversation: map<(string, string), nat> := map[];
    NothingCounted(bindings);
    for i := 0 to |keys|
      invariant CoherentOn(bindings, Seen(keys, i)) && held == HeldBy(bindings, Seen(keys, i))
      invariant Counted(bindings, Seen(keys, i), perMission, perConversation)
    {
      var key := keys[i];
      SeeOne(keys, i);
      assert key in keys;
      p, held := CheckBinding(bindings, Seen(keys, i), key, held);
      if p.Some? { return; }
      CountOne(bindings, Seen(keys, i), key, perMission, perConversation);
      perMission := CountMission(perMission, bindings[key]);
      perConversation := CountConversation(perConversation, bindings[key]);
    }
    AllSeen(keys, bindings.Keys);
    p := CheckCounts(bindings, perMission, perConversation);
  }

  method CheckCounts(bindings: BindingMap, perMission: map<Id, nat>, perConversation: map<(string, string), nat>)
    returns (p: Option<Problem>)
    requires Counted(bindings, bindings.Keys, perMission, perConversation)
    ensures p == (if WithinCaps(bindings) then None else Some(TooLarge))
  {
    if m :| m in perMission && perMission[m] > MAX_BINDINGS_PER_MISSION {
      assert |OfMission(bindings, bindings.Keys, m)| == Count(perMission, m);
      return Some(TooLarge);
    }
    if c :| c in perConversation && perConversation[c] > MAX_BINDINGS_PER_CONVERSATION {
      assert |OfConversation(bindings, bindings.Keys, c)| == Count(perConversation, c);
      return Some(TooLarge);
    }
    CountsBound(bindings, perMission, perConversation);
    p := None;
  }

  lemma NothingCounted(bindings: BindingMap)
    ensures Counted(bindings, {}, map[], map[])
  {
    assert forall m :: OfMission(bindings, {}, m) == {};
    assert forall c :: OfConversation(bindings, {}, c) == {};
  }

  lemma CountsBound(bindings: BindingMap, perMission: map<Id, nat>, perConversation: map<(string, string), nat>)
    requires Counted(bindings, bindings.Keys, perMission, perConversation)
    requires forall m :: m in perMission ==> perMission[m] <= MAX_BINDINGS_PER_MISSION
    requires forall c :: c in perConversation ==> perConversation[c] <= MAX_BINDINGS_PER_CONVERSATION
    ensures WithinCaps(bindings)
  {
    forall m ensures |OfMission(bindings, bindings.Keys, m)| <= MAX_BINDINGS_PER_MISSION {
      assert |OfMission(bindings, bindings.Keys, m)| == Count(perMission, m);
    }
    forall c ensures |OfConversation(bindings, bindings.Keys, c)| <= MAX_BINDINGS_PER_CONVERSATION {
      assert |OfConversation(bindings, bindings.Keys, c)| == Count(perConversation, c);
    }
  }

  // ----------------------------------------------------------------- effects

  /** Binding a free identity under a fresh id keeps the family coherent. */
  lemma InsertIsCoherent(bindings: BindingMap, b: Binding)
    requires CoherentBindings(bindings) && ValidBinding(b) && b.bindingId !in bindings
    requires Find(bindings, IdentityOf(b)) == []
    ensures CoherentBindings(bindings[b.bindingId := b])
    ensures BindingHistory(bindings, bindings[b.bindingId := b])
  {
    FindNone(bindings, IdentityOf(b));
    forall k | k in bindings ensures !Clash(b, bindings[k]) && !Clash(bindings[k], b) {
      assert !Holds(bindings[k], IdentityOf(b));
    }
    InsertPairs(bindings, b);
  }

  lemma InsertPairs(bindings: BindingMap, b: Binding)
    requires CoherentBindings(bindings) && ValidBinding(b) && b.bindingId !in bindings
    requires forall k :: k in bindings ==> !Clash(b, bindings[k]) && !Clash(bindings[k], b)
    ensures CoherentBindings(bindings[b.bindingId := b])
  {
    var after := bindings[b.bindingId := b];
    forall j, k | j in after && k in after && Clash(after[j], after[k]) ensures j == k {
      assert j in bindings && k in bindings ==> (Clash(bindings[j], bindings[k]) ==> j == k);
    }
  }

  lemma RevokeIsAccepted(bindings: BindingMap, id: Id, now: Time)
    requires AcceptedBindings(bindings) && id in bindings && Revoke(bindings[id], now).Ok?
    ensures AcceptedBindings(bindings[id := Revoke(bindings[id], now).value])
    ensures BindingHistory(bindings, bindings[id := Revoke(bindings[id], now).value])
  {
    var b := Revoke(bindings[id], now).value;
    var after := bindings[id := b];
    assert ValidBinding(b);
    forall m ensures OfMission(after, after.Keys, m) == OfMission(bindings, bindings.Keys, m) {}
    forall c ensures OfConversation(after, after.Keys, c) == OfConversation(bindings, bindings.Keys, c) {}
  }
}
