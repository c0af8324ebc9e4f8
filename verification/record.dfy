/** Closed vocabularies, the cursor grammar and the transition tables every
    coordination family shares (coordination/record.py).

    An identifier is a prefix and 32 lowercase hex characters, so string order
    on one family's ids is the numeric order of the number they spell: ids are
    modelled as that number. */
module Record {

  datatype Option<+T> = None | Some(value: T)

  datatype Problem =
    | BadValue | TooLarge | BadProvenance | IdempotencyConflict | DuplicateEffect
    | ContextMismatch | BindingConflict | RouteConflict
    | ObservationUnavailable | ObservationStale | ObservationInconsistent
    | MissionNotObserved | MissionMismatch
    | ReferenceNotMissionLocal | ReferenceNotProven
    | HandoffStale | ParticipantIneligible | RosterMissing
    | ForwardingLoop | ForwardContinuity | ForwardDepthExceeded
    | InvalidTransition | AttentionTerminal
    | StoreFull | StoreConflict | StoreUnreadable | WriteFailed

  /** A call either returns or raises a refusal carrying its problem code. */
  datatype Result<+T> = Ok(value: T) | Refused(problem: Problem) {
    predicate IsFailure() { Refused? }
    function PropagateFailure<U>(): Result<U> requires Refused? { Refused(problem) }
    function Extract(): T requires Ok? { value }
  }

  /** How an atomic write ends: the replace lands or not, never in part, and the
      directory fsync after it may still raise (workflow_authority/atomic.py:35-76). */
  datatype WriteEnd = Landed | FailedBefore | LandedThenRaised

  type Id = nat
  type Time = nat
  /** A digest of something outside the model (a proposal, an authorization). */
  type Digest = nat

  // ---------------------------------------------------------------- cursors

  const MAX_STATE_CURSOR_CHARS := 128

  predicate IsDigit(c: char) { '0' <= c <= '9' }

  /** A canonical decimal digit string: "0", or no leading zero. */
  predicate CanonicalCursor(s: string) {
    && 0 < |s| <= MAX_STATE_CURSOR_CHARS
    && (forall i :: 0 <= i < |s| ==> IsDigit(s[i]))
    && (|s| > 1 ==> s[0] != '0')
  }

  function DigitValue(c: char): nat { if IsDigit(c) then c as nat - '0' as nat else 0 }

  /** The integer a cursor denotes. */
  function CursorValue(s: string): nat {
    if s == "" then 0 else 10 * CursorValue(s[..|s|-1]) + DigitValue(s[|s|-1])
  }

  lemma {:induction false} CanonicalIsPositive(s: string)
    requires s != "" && (forall i :: 0 <= i < |s| ==> IsDigit(s[i])) && s[0] != '0'
    ensures CursorValue(s) > 0
  {
    if |s| > 1 { CanonicalIsPositive(s[..|s|-1]); } else { assert s[..0] == ""; }
  }

  predicate Digits(s: string) { forall i :: 0 <= i < |s| ==> IsDigit(s[i]) }

  lemma LastDigit(x: nat, d: nat, y: nat, e: nat)
    requires d < 10 && e < 10 && 10 * x + d == 10 * y + e
    ensures x == y && d == e
  {
  }

  lemma {:induction false} DigitsInjective(a: string, b: string)
    requires Digits(a) && Digits(b) && CursorValue(a) == CursorValue(b)
    requires a != "" ==> a[0] != '0'
    requires b != "" ==> b[0] != '0'
    ensures a == b
  {
    if a == "" {
      if b != "" { CanonicalIsPositive(b); }
    } else if b == "" {
      CanonicalIsPositive(a);
    } else {
      var a', b' := a[..|a|-1], b[..|b|-1];
      LastDigit(CursorValue(a'), DigitValue(a[|a|-1]), CursorValue(b'), DigitValue(b[|b|-1]));
      DigitsInjective(a', b');
      assert a == a' + [a[|a|-1]];
      assert b == b' + [b[|b|-1]];
    }
  }

  /** String equality of canonical cursors is numeric equality. */
  lemma CursorValueInjective(a: string, b: string)
    requires CanonicalCursor(a) && CanonicalCursor(b)
    requires CursorValue(a) == CursorValue(b)
    ensures a == b
  {
    if a[0] == '0' {
      assert a == "0" && a[..0] == "" && CursorValue("") == 0;
      if b[0] != '0' { CanonicalIsPositive(b); } else { assert b == "0"; }
    } else if b[0] == '0' {
      assert b == "0" && b[..0] == "" && CursorValue("") == 0;
      CanonicalIsPositive(a);
    } else {
      DigitsInjective(a, b);
    }
  }

  // ----------------------------------------------------------- vocabularies

  datatype PrincipalKind = ConnectorCredential | LocalProcessUser
  datatype Context = Context(transport: string, principalKind: PrincipalKind,
                             principalRef: string, subject: Option<string>)

  /** The closed provenance block; its constant fields are left out. */
  datatype Provenance = Provenance(context: Context, receivedAt: Time,
                                   observedRevision: Option<nat>, cursor: Option<string>)

  datatype Lifecycle = AwaitingDecision | Authorized | Denied | Running | LBlocked
                     | Completed | Closed | Cancelled | Rejected | ChangesRequested

  datatype Freshness = Fresh | Stale | Inconsistent | Absent | Unavailable

  datatype Destination = Destination(transport: string, conversationRef: string)

  datatype AttentionKind = AuthorizationReady | Blocked | NeedsHuman | ResultReady

  function AttentionPriority(k: AttentionKind): nat {
    match k
    case NeedsHuman => 10
    case AuthorizationReady => 20
    case Blocked => 30
    case ResultReady => 40
  }

  datatype Presentation = Pending | Surfaced | Acknowledged | Obsolete | Resolved

  predicate TerminalPresentation(p: Presentation) { p.Obsolete? || p.Resolved? }

  /** PRESENTATION_TRANSITIONS */
  predicate PresentationMayBecome(p: Presentation, q: Presentation) {
    match p
    case Pending => !q.Pending?
    case Surfaced => q.Acknowledged? || TerminalPresentation(q)
    case Acknowledged => TerminalPresentation(q)
    case Obsolete => false
    case Resolved => false
  }

  datatype ClosedReason = ConditionChanged | RevisionChanged | AuthorityChanged | ConditionCleared

  datatype HandoffStatus = Open | Accepted | Answered | Declined | Withdrawn

  predicate TerminalStatus(s: HandoffStatus) { s.Answered? || s.Declined? || s.Withdrawn? }

  /** HANDOFF_TRANSITIONS */
  predicate StatusMayBecome(s: HandoffStatus, t: HandoffStatus) {
    match s
    case Open => t.Accepted? || t.Declined? || t.Withdrawn?
    case Accepted => t.Answered? || t.Withdrawn?
    case Answered => false
    case Declined => false
    case Withdrawn => false
  }

  datatype Purpose = Question | Summary | Recommendation | EvidenceReview | ContextTransfer

  datatype Participant = BrowserQa | Coordinator | Engineering | IncidentRecovery
                       | Operations | Release | Research

  /** Alphabetical, as the stored lists are sorted. */
  function ParticipantRank(p: Participant): nat {
    match p
    case BrowserQa => 0
    case Coordinator => 1
    case Engineering => 2
    case IncidentRecovery => 3
    case Operations => 4
    case Release => 5
    case Research => 6
  }
}

/** sorted(...) over a set of identifiers. */
module Sorting {

  predicate IsLeast(m: nat, s: set<nat>) { m in s && forall x :: x in s ==> m <= x }

  function Least(s: set<nat>): (m: nat)
    requires s != {}
    ensures m in s && forall x :: x in s ==> m <= x
  {
    LeastExists(s);
    var m :| IsLeast(m, s);
    m
  }

  lemma {:induction false} LeastExists(s: set<nat>)
    requires s != {}
    ensures exists m :: IsLeast(m, s)
  {
    var y :| y in s;
    var rest := s - {y};
    assert forall x :: x in s ==> x == y || x in rest;
    if rest == {} {
      assert IsLeast(y, s);
    } else {
      LeastExists(rest);
      var m :| IsLeast(m, rest);
      LeastOfMore(s, y, m);
    }
  }

  lemma LeastOfMore(s: set<nat>, y: nat, m: nat)
    requires y in s && IsLeast(m, s - {y})
    ensures IsLeast(if y < m then y else m, s)
  {
    forall x | x in s ensures (if y < m then y else m) <= x {
      if x != y { assert x in s - {y}; }
    }
  }

  predicate Ascending(keys: seq<nat>) {
    forall i, j :: 0 <= i < j < |keys| ==> keys[i] < keys[j]
  }

  /** The members of s in ascending order. */
  function Sorted(s: set<nat>): (keys: seq<nat>)
    ensures Ascending(keys)
    ensures forall x :: x in keys <==> x in s
    ensures |keys| == |s|
    decreases |s|
  {
    if s == {} then [] else
      var m := Least(s);
      [m] + Sorted(s - {m})
  }

  /** The keys a pass has visited before the i-th. */
  ghost function Seen(keys: seq<nat>, i: nat): set<nat>
    requires i <= |keys|
    ensures forall k :: k in Seen(keys, i) ==> k in keys
  {
    set k | k in keys[..i]
  }

  lemma SeeOne(keys: seq<nat>, i: nat)
    requires i < |keys| && Ascending(keys)
    ensures keys[i] !in Seen(keys, i) && Seen(keys, i + 1) == Seen(keys, i) + {keys[i]} && keys[i] in keys
  {
    assert keys[..i + 1] == keys[..i] + [keys[i]];
  }

  lemma AllSeen(keys: seq<nat>, s: set<nat>)
    requires forall k :: k in keys <==> k in s
    ensures Seen(keys, |keys|) == s
  {
    assert keys[..|keys|] == keys;
  }
}
