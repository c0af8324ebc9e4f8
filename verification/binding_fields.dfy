/** What a binding says, in plain readings of its fields (coordination/binding.py:60-236). */
module BindingFields {
  import opened Record
  import opened Observations
  import opened ObservationFields
  import opened Bindings

  // --------------------------------------------------------------- selectors

  predicate DecimalIssue(number: string) {
    number != "" && number[0] != '0' && forall k :: 0 <= k < |number| ==> '0' <= number[k] <= '9'
  }

  /** An issue selector is a repository, a hash sign and an issue number. */
  ghost predicate IssueOf(selector: string, repository: string, number: string) {
    selector == repository + "#" + number && repository != "" && DecimalIssue(number)
  }

  lemma {:induction false} LastHashIs(repository: string, number: string)
    requires '#' !in number
    ensures LastHash(repository + "#" + number) == Some(|repository|)
    decreases |number|
  {
    var s := repository + "#" + number;
    if number != "" {
      var init := number[..|number|-1];
      assert s[..|s|-1] == repository + "#" + init;
      assert s[|s|-1] == number[|number|-1] && number[|number|-1] in number;
      LastHashIs(repository, init);
    }
  }

  lemma DecimalHasNoHash(number: string)
    requires DecimalIssue(number)
    ensures '#' !in number
  {
  }

  lemma IssueSelectorExactly(selector: string)
    ensures IssueSelector(selector) <==> exists repository, number :: IssueOf(selector, repository, number)
  {
    if IssueSelector(selector) {
      var i := LastHash(selector).value;
      assert selector == selector[..i] + "#" + selector[i + 1..];
      assert IssueOf(selector, selector[..i], selector[i + 1..]);
    }
    if exists repository, number :: IssueOf(selector, repository, number) {
      var repository, number :| IssueOf(selector, repository, number);
      DecimalHasNoHash(number);
      LastHashIs(repository, number);
      assert selector[|repository| + 1..] == number;
    }
  }

  /** The repository an issue binding names is the part before its hash sign. */
  lemma RepositoryOfIssue(b: Binding, repository: string, number: string)
    requires b.kind == Issue && IssueOf(b.selector, repository, number)
    ensures RepositoryOfSelector(b) == repository
  {
    DecimalHasNoHash(number);
    LastHashIs(repository, number);
    assert b.selector[..|repository|] == repository;
  }

  // ------------------------------------------------------------ plain readings

  /** Kinds scoped to one conversation. */
  predicate PerConversation(k: BindingKind) { k in {ApprovalPresentation, Conversation, ReplyToMessage, ResultPresentation} }

  /** The selector each kind asks for: none, an issue, or some text. */
  ghost predicate SelectorFits(k: BindingKind, selector: string) {
    if k == Conversation then selector == ""
    else if k == Issue then exists repository, number :: IssueOf(selector, repository, number)
    else selector != ""
  }

  predicate Lapsed(b: Binding, now: Time) { b.expiresAt.Some? && b.expiresAt.value <= now }

  /** The observation does not contradict the binding: its revision, and for a
      repository or an issue the repository observed. */
  ghost predicate Agrees(b: Binding, o: Observation) {
    && b.boundRevision == o.currentRevision
    && (b.kind == Repository ==> o.repositoryUrl == Some(b.selector))
    && (b.kind == Issue ==> exists repository, number :: IssueOf(b.selector, repository, number) && o.repositoryUrl == Some(repository))
  }

  lemma KindsOnFields(k: BindingKind, selector: string)
    ensures Scoped(k) <==> PerConversation(k)
    ensures SelectorOk(k, selector) <==> SelectorFits(k, selector)
  {
    IssueSelectorExactly(selector);
  }

  lemma ValidSelector(b: Binding)
    requires ValidBinding(b)
    ensures SelectorFits(b.kind, b.selector) && (PerConversation(b.kind) <==> b.conversationRef.Some?)
  {
    KindsOnFields(b.kind, b.selector);
  }

  // ------------------------------------------------------------ what is recorded

  predicate WithinValidity(boundAt: Time, expiresAt: Option<Time>) {
    expiresAt.Some? ==> boundAt < expiresAt.value <= boundAt + 315360000
  }

  ghost predicate PlainBinding(b: Binding) {
    && (PerConversation(b.kind) <==> b.conversationRef.Some?) && SelectorFits(b.kind, b.selector)
    && 1 <= b.boundRevision && b.point.revision == b.boundRevision && WrittenCursor(b.point.cursor)
    && WithinValidity(b.boundAt, b.expiresAt)
    && (b.revoked <==> b.revokedAt.Some?) && (b.revokedAt.Some? ==> b.boundAt <= b.revokedAt.value)
  }

  /** A binding passes every check exactly when it reads so. */
  lemma RecordedExactly(b: Binding)
    ensures ValidBinding(b) <==> PlainBinding(b)
  {
    KindsOnFields(b.kind, b.selector);
    CursorOnFields(b.point.cursor);
  }

  /** Two unrevoked bindings of one identity. */
  predicate Contend(a: Binding, b: Binding) {
    && !a.revoked && !b.revoked && a.kind == b.kind && a.transport == b.transport
    && a.conversationRef == b.conversationRef && a.selector == b.selector
  }

  ghost function OfOneMission(bs: BindingMap, m: Id): set<Id> { set k | k in bs && bs[k].missionId == m }

  ghost function OfOneConversation(bs: BindingMap, transport: string, conversationRef: string): set<Id> {
    set k | k in bs && bs[k].transport == transport && bs[k].conversationRef == Some(conversationRef)
  }

  /** Records read so under their own keys, no identity bound twice, at most 64
      of a Mission and 256 of a conversation. */
  ghost predicate PlainBindings(bs: BindingMap) {
    && (forall k :: k in bs ==> PlainBinding(bs[k]) && bs[k].bindingId == k)
    && (forall j, k :: j in bs && k in bs && Contend(bs[j], bs[k]) ==> j == k)
    && (forall m :: |OfOneMission(bs, m)| <= 64)
    && (forall transport, conversationRef :: |OfOneConversation(bs, transport, conversationRef)| <= 256)
  }

  lemma CapsOnFields(bs: BindingMap)
    ensures WithinCaps(bs) <==>
              (forall m :: |OfOneMission(bs, m)| <= 64)
              && (forall transport, conversationRef :: |OfOneConversation(bs, transport, conversationRef)| <= 256)
  {
    forall m ensures OfMission(bs, bs.Keys, m) == OfOneMission(bs, m) {}
    forall transport, conversationRef
      ensures OfConversation(bs, bs.Keys, (transport, conversationRef)) == OfOneConversation(bs, transport, conversationRef)
    {
    }
    if (forall m :: |OfOneMission(bs, m)| <= 64) && (forall t, c :: |OfOneConversation(bs, t, c)| <= 256) {
      forall c ensures |OfConversation(bs, bs.Keys, c)| <= 256 { assert |OfOneConversation(bs, c.0, c.1)| <= 256; }
    }
    if WithinCaps(bs) {
      forall t, c ensures |OfOneConversation(bs, t, c)| <= 256 { assert |OfConversation(bs, bs.Keys, (t, c))| <= 256; }
    }
  }

  /** The loader accepts exactly the bindings that read so. */
  lemma AcceptedExactly(bs: BindingMap)
    ensures AcceptedBindings(bs) <==> PlainBindings(bs)
  {
    forall k | k in bs ensures ValidBinding(bs[k]) <==> PlainBinding(bs[k]) { RecordedExactly(bs[k]); }
    forall j, k | j in bs && k in bs ensures Clash(bs[j], bs[k]) <==> Contend(bs[j], bs[k]) {}
    CapsOnFields(bs);
  }

  // ------------------------------------------------------------------- effects

  /** A binding as it is first written. */
  predicate BoundAs(b: Binding, id: Id, w: BindingIdentity, m: Id, o: Observation, now: Time, expiresAt: Option<Time>, context: Context) {
    && b.bindingId == id && b.missionId == m
    && b.kind == w.kind && b.transport == w.transport && b.conversationRef == w.conversationRef && b.selector == w.selector
    && b.boundRevision == o.currentRevision && PointAt(b.point, o) && b.boundAt == now && b.boundBy == context
    && b.expiresAt == expiresAt && !b.revoked && b.revokedAt.None?
  }

  lemma NewBindingOnFields(id: Id, w: BindingIdentity, m: Id, o: Observation, now: Time, expiresAt: Option<Time>, context: Context)
    requires NewBinding(id, w.kind, w.transport, w.conversationRef, w.selector, m, o, now, expiresAt, context).Ok?
    ensures BoundAs(NewBinding(id, w.kind, w.transport, w.conversationRef, w.selector, m, o, now, expiresAt, context).value,
                    id, w, m, o, now, expiresAt, context)
  {
  }

  /** A binding is made exactly of an observation of its own Mission, for a
      well-formed identity, with an expiry ahead or none. */
  lemma BindableExactly(id: Id, w: BindingIdentity, m: Id, o: Observation, now: Time, expiresAt: Option<Time>, context: Context)
    requires WellReported(o)
    ensures var r := NewBinding(id, w.kind, w.transport, w.conversationRef, w.selector, m, o, now, expiresAt, context);
            && (r == Refused(MissionMismatch) <==> o.missionId != m)
            && (r.Ok? <==> && o.missionId == m && (PerConversation(w.kind) <==> w.conversationRef.Some?)
                           && SelectorFits(w.kind, w.selector) && WithinValidity(now, expiresAt))
  {
    KindsOnFields(w.kind, w.selector);
    CursorOnFields(o.stateCursor);
  }

  /** A revocation writes that it was revoked and when, and nothing else. */
  predicate RevokedAs(a: Binding, b: Binding, now: Time) { !a.revoked && b == a.(revoked := true, revokedAt := Some(now)) }

  lemma RevokeOnFields(b: Binding, now: Time)
    requires Revoke(b, now).Ok?
    ensures RevokedAs(b, Revoke(b, now).value, now)
  {
  }
}
