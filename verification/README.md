# Dafny model of the coordination service and the approval protocol

A verification project for two protocols and one text core of the repository.

**Coordination.** One durable document holds conversation bindings, route
decisions, attention records, bot handoffs and participant rosters. Every
operation is load, look at a Mission at most once, one family operation, save.
The model gives each family its loader's rules as a predicate, each operation as
a function on the family, and the service as a function from a document and a
call to a document and a reply; whole runs are folds of calls with arbitrary
source answers, clocks, minted ids and presenter receipts, each write landing,
failing, or landing and then raising. The observation floor (the greatest
recorded point of a Mission) is derived from all five families.

**Approval.** The request index, the armed commitments and the workflow store are
three durable documents. The protocol is a state machine with one step per
durable write: a crash may fall between any two, any write may fail before it
lands or land and then raise, and steps that take only the store lock may run
inside another's index section.

**Framing.** Line containment under the full line-boundary grammar, and the
nesting walk.

| file | what it holds |
|---|---|
| `record.dfy`, `observation.dfy`, `floor.dfy` | vocabularies and cursors, observations and freshness, the floor |
| `binding.dfy`, `routing.dfy`, `routing_laws.dfy`, `routing_replay.dfy` | bindings, route derivation, when it answers a Mission, replay |
| `routing_fields.dfy`, `routing_reasons.dfy` | which decision a turn gets, and exactly why, over plain fields |
| `attention.dfy`, `attention_ops.dfy`, `attention_laws.dfy`, `attention_success.dfy`, `attention_report.dfy` | presentation records, projection, what it achieves, when it succeeds, what it reports |
| `handoff.dfy`, `handoff_ops.dfy`, `handoff_laws.dfy`, `handoff_success.dfy` | handoffs and rosters, their operations, forward chains, when they succeed |
| `document.dfy`, `service.dfy`, `service_laws.dfy`, `service_success.dfy`, `runs.dfy` | the document, the calls, what each keeps, when each succeeds, what holds over runs |
| `coordination.dfy` | the document and the service as objects updated in place |
| `atomic.dfy`, `store.dfy`, `clients.dfy` | the atomic write step by step, one save, many clients of the sequence-guarded store, and of the service over it |
| `approval.dfy`, `approval_steps.dfy`, `approval_laws.dfy`, `approval_theorems.dfy`, `approval_replanning.dfy`, `approval_success.dfy`, `approval_service.dfy` | the approval protocol: updates, steps, invariants, theorems, when a request is planned twice, when an approval succeeds, objects |
| `framing.dfy` | framing and nesting |
| `observation_fields.dfy`, `binding_fields.dfy`, `attention_fields.dfy`, `handoff_fields.dfy`, `service_fields.dfy`, `approval_fields.dfy`, `framing_fields.dfy` | the same records, operations and steps over plain fields: what each accepts, writes and refuses, exactly |

`dafny verify dfyconfig.toml` checks everything.

How the source is represented:

- An identifier is a prefix and 32 lowercase hex characters, so string order is
  the order of the number they spell; ids are natural numbers. A digest is the
  content it covers (a commitment is its preimage), which makes it injective. A
  set digest, which ignores order, is a multiset.
- A refusal is a value carrying its problem code. A refused service call leaves
  the disk document as it was, whatever happened to the copy in memory, unless
  its write landed and then raised.
- The source's answer, the clock, minted ids and the presenter's receipt are
  arguments of the call. A fresh id, nonce or ref is one not in the used set.
- Each imperative operation is a method proved equal to the function that
  specifies it; the laws are proved about the functions.

## Where the code and its documentation disagree

- `coordination/store.py:34-41` says the sequence guard protects a store even if
  its lock is misused. The on-disk check and the replace are two steps, so two
  clients without the lock can both pass at one sequence
  (`Store.GuardAloneLosesAnUpdate`). `Store.NothingLostExactly` gives the exact
  condition, and with the lock honoured it always holds
  (`Store.LockedRunsLoseNothing`).
- A raising save is described as changing nothing. The write primitive replaces
  the file and then syncs the directory, so it can land and then raise
  (`workflow_authority/atomic.py:62-76`, `AtomicWrite.LandsThenRaisesExactly`).
  `Store.CoordinationStore.Save` and `Store.RaisedSaveKeptExactly` say exactly
  when a raising save changed nothing, and what follows when it did.
- For the same reason "at most one workflow per request" has an exception: a
  record write that lands and raises is answered by abandoning the request
  (`grok_bot/adapter.py:556-561`), which can then be planned again
  (`ApprovalTheorems.TornRequestIsPlannedTwice`). Without such a write for that
  request the property holds (`ApprovalTheorems.OneWorkflowPerRequest`), and
  `Replanning.RepeatsExactlyWhenTorn` shows that the exception is exact.
- `nesting_exceeds` with a negative limit still answers False for a value that is
  not a container, so it compares the depth with the larger of the limit and 0;
  `Framing.ExceedsIsDepthExactly` says exactly when that is the documented answer.

## Model

| member | source | states |
|---|---|---|
| `Framing.JoinOfSplit` | grok_bot/framing.py:101-113 | splitting a text into its kept-end lines loses nothing: joining them gives the text back |
| `Framing.SplitOfJoin` | grok_bot/framing.py:116-130 | lines that cannot run together (CR LF included) split back into exactly themselves |
| `Framing.QuoteProseContains` | grok_bot/framing.py:116-130 | for every text, quote_prose shows no envelope line, has one prefixed line per line, and dropping the prefixes gives the text back |
| `Framing.NeutralizedHasNoEnvelope` | grok_bot/framing.py:101-121 | for every text, no line of the neutralized text begins an envelope of either marker family |
| `Framing.NeutralizedChangesExactly` | grok_bot/framing.py:101-113 | a text is changed exactly when some line of it carries a marker family; line by line, each line that carries one is prefixed, no other line changes, and none is added or lost |
| `Framing.Neutralize` | grok_bot/framing.py:101-113 | the appending loop computes that text and reports changed exactly when the text differs |
| `Framing.MarkerLiesInOneLine` | grok_bot/framing.py:101-113 | a marker cannot straddle two lines, so testing line by line misses none |
| `FramingFields.LinesExactly` | grok_bot/framing.py:101-130 | a text is one line exactly when no character but its end is one of ten, and it ends with nothing, one of them, or a CR LF pair |
| `FramingFields.SplitsExactly` | grok_bot/framing.py:101-130 | a text is cut after each of the ten characters or CR LF pairs, nowhere else, and nothing is lost |
| `FramingFields.EnvelopesExactly` | grok_bot/framing.py:116-121 | the envelope lines are the lines that begin with "DI-GROKBOT-" or "DI-REMOTE-" |
| `FramingFields.ContainedExactly` | grok_bot/framing.py:101-130 | quoting puts "> " before every line, neutralizing before exactly the lines that contain either word; no line is added or lost |
| `Framing.NestingExceeds` | grok_bot/framing.py:86-98 | the worklist loop ends and answers whether the recursive container depth exceeds the limit (at least one container, for a negative limit) |
| `Framing.ExceedsIsDepthExactly` | grok_bot/framing.py:86-98 | that answer is "depth greater than the limit" exactly for a limit of zero or more or a container; below zero it denies it of a leaf |
| `Record.CursorValueInjective` | coordination/record.py:638-660 | two canonical cursors of equal value are the same string |
| `Sorting.Sorted` | coordination/routing.py:595-596 | the members of a set of ids, ascending, each once |
| `Observations.ObservationProblemNone` | coordination/observation.py:378-454 | the ordered checks accept exactly the coherent observations |
| `Observations.Validate` | coordination/observation.py:378-454 | the validating loops report the first problem in the order the checks are made |
| `Observations.RequireReferenceTuple` | coordination/observation.py:261-285 | bounded, of one kind, individually coherent and strictly sorted by id, or the first problem |
| `Observations.FreshExactly` | coordination/observation.py:738-798 | FRESH means exactly: a coherent read of this Mission, not from the future, at most 900 seconds old, equal to the floor or beyond it |
| `Observations.ClassifiedIsOfMission` | coordination/observation.py:738-798 | any observation a classification carries is valid and of the Mission asked |
| `Observations.SamePairAgreeingIsSamePoint` | coordination/observation.py:719-735 | two points at one (revision, cursor) with agreeing content are one point |
| `Observations.CitationsProven` | coordination/observation.py:557-592 | citations pass exactly when each names a Mission-local record that positively proves the cited level |
| `ObservationFields.ValidExactly` | coordination/observation.py:378-454 | an observation passes validation exactly when its own fields read so: cursor digits, bounded lists by ascending id, accepted only evidence that can be, nothing later than the read, conditions at its revision citing its own records, no condition twice |
| `ObservationFields.CitationOnFields` | coordination/observation.py:557-592 | a citation passes exactly when the observation records that very id, accepted or available as the cited level asks |
| `ObservationFields.ClassifiedExactly` | coordination/observation.py:738-798 | every answer is told by its fields: absent, unavailable, INCONSISTENT for incoherent and UNAVAILABLE for malformed reads, then by Mission, clock, the floor's revision, cursor and content, and 900 seconds, in that order |
| `Floor.HighWaterMark` | coordination/service.py:81-101 | the loop returns the mark of the points in the order visited, or refuses |
| `Floor.MarkRefusesExactly` | coordination/service.py:81-101 | the mark refuses exactly when a point repeats the greatest pair seen so far with other content; otherwise it is a greatest point |
| `Floor.MarkOfConsistent` | coordination/service.py:81-101 | on consistent points the mark exists and is the greatest, whatever the order |
| `Floor.FreshKeepsFloor` | coordination/service.py:48-101 | recording one read at or beyond the floor keeps points consistent and never lowers it, even when a point is lost to that read |
| `Bindings.FindExactly` | coordination/binding.py:218-226 | find returns exactly the unrevoked bindings holding the identity |
| `Bindings.ConversationExactly` | coordination/binding.py:229-236 | conversation_bindings returns exactly the active conversation-scoped bindings of the conversation |
| `Bindings.ValidateBindings` | coordination/binding.py:239-275 | the loader's loop with its held set and counters accepts exactly: valid records under their keys, one unrevoked holder per identity, both caps kept |
| `Bindings.InsertIsCoherent` | coordination/service.py:190-203 | binding a free identity under an unused id keeps every cross-record rule and only adds |
| `Bindings.RevokeIsAccepted` | coordination/binding.py:204-215 | revoking keeps the family accepted and changes that record once and for all |
| `BindingFields.IssueSelectorExactly` | coordination/binding.py:61-72 | an issue selector is exactly a nonempty repository, a hash sign and a decimal number without a leading zero |
| `BindingFields.RepositoryOfIssue` | coordination/binding.py:75-79 | the repository an issue binding names is the part before that hash sign |
| `BindingFields.RecordedExactly` | coordination/binding.py:100-153 | a binding passes validation exactly when its fields read so |
| `BindingFields.AcceptedExactly` | coordination/binding.py:239-275 | the loader accepts exactly: such records under their keys, no two unrevoked of one identity, at most 64 of a Mission and 256 of a conversation |
| `BindingFields.BindableExactly` | coordination/binding.py:156-187 | a binding is made exactly of an observation of its own Mission, for a well-formed identity, with an expiry ahead or none |
| `Routing.CollectHits` | coordination/routing.py:293-303 | the appending loop returns every unrevoked binding a named tier finds, in tier order |
| `RoutingLaws.NamedTiersExactly` | coordination/routing.py:274-290 | a turn names exactly the tiers it carries a selector for, each by its own binding kind, in resolution order |
| `RoutingLaws.FirstHitIsFirstNamed` | coordination/routing.py:359-366 | the one hit consulted is the single binding of the first tier that finds any |
| `RoutingLaws.CandidatesAreFew` | coordination/routing.py:318-331 | the Missions a disagreement lists are at most eight, within the candidate bound |
| `RoutingLaws.ApplicableExactly` | coordination/routing.py:333-350 | the context an explicit id answers to is exactly the bindings the turn names for that Mission and its whole-conversation bindings |
| `RoutingLaws.NoOthersExactly` | coordination/routing.py:324-331 | no other Mission is listed exactly when no active binding the turn names points elsewhere |
| `RoutingLaws.RoutesExactlyWhenJustified` | coordination/routing.py:223-391 | an existing Mission is answered through a tier if and only if the independent justification of that tier holds: FRESH, unrevoked, unexpired, at the observed revision, right repository, uncontradicted |
| `RoutingLaws.NewRouteIsValid` | coordination/routing.py:435-584 | the record built from any derivation passes every coherence rule (detail text aside) |
| `RoutingLaws.LaneSelectedExactly` | coordination/routing.py:416-432 | a lane is selected exactly for a supported, available domain of a route that needs no clarification |
| `Replays.DerivedExactlyWhenJustified` | coordination/routing.py:314-391 | the same equivalence for the decision the service records from its one look |
| `Replays.ValidateRouteDecisions` | coordination/routing.py:592-609 | the loader's loop accepts exactly: valid records under their keys, each turn identity decided once |
| `Replays.ReplayExactly` | coordination/routing.py:620-641 | a decided turn is answered from its one record: as decided to the same context and content, refused to any other; undecided exactly when no record decides it |
| `Replays.LooksOnlyThere` | coordination/routing.py:223-391 | a derivation depends on the source's answer about one Mission at most |
| `Replays.DerivedPoint` | coordination/routing.py:194-210 | a decision carries a point only for the Mission it asked about, and then the FRESH read it was given |
| `RoutingFields.DerivedIsWarranted` | coordination/routing.py:194-391 | every decision, whole, told from the turn, the recorded bindings and the look: outcome, Mission, tier, candidates, reason, proposal, bound and observed revision, point |
| `RoutingReasons.ProposedExactly` | coordination/routing.py:351-403 | NEW_PROPOSAL if and only if the turn names no explicit Mission, carries a proposal digest, and either its intent is NEW_MISSION, or it is no FOLLOW_UP, no tier it names finds an unrevoked binding and its conversation has no active binding |
| `RoutingReasons.GivenExactlyBecause` | coordination/routing.py:194-391 | each reason if and only if its own cause holds: no context, several Missions in the conversation, an expired binding consulted, a binding the look contradicts or whose Mission is gone, context against the explicit id, a Mission never observed, the look stale, inconsistent or unavailable |
| `RoutingReasons.RecordedExactly` | coordination/routing.py:489-584 | a record passes validation exactly when its decision carries what its outcome calls for and nothing else, and its lane and provenance agree with it |
| `RoutingReasons.AcceptedExactly` | coordination/routing.py:592-609 | the loader accepts exactly: such records under their keys, no message decided twice |
| `RoutingReasons.NewRouteOnFields` | coordination/routing.py:435-482 | the record of a decision holds the turn, the clock, the context, the warranted decision, its read, and the lane with its exact reason |
| `Attentions.WalksEndExactly` | coordination/attention.py:379-391 | the loader's successor walks all end exactly on the acyclic documents |
| `Attentions.ValidateAttentionRecords` | coordination/attention.py:342-391 | both loader loops together accept exactly: valid records under their keys, one live record per identity, sound successors with one predecessor, no cycle |
| `Attentions.EveryChainEnds` | coordination/attention.py:319-336 | every successor chain of an accepted document carries one identity and ends at a live or RESOLVED record |
| `Attentions.ChainsAreLinear` | coordination/attention.py:365-378 | two records whose chains meet are on one chain: chains never merge |
| `Attentions.OneChainEndsLive` | coordination/attention.py:357-364 | two chains of one identity that both end live are one chain |
| `AttentionOps.FreshId` | coordination/service.py:130-136 | a minted id is unused and was the minter's |
| `AttentionLaws.SortedConditionsExactly` | coordination/attention.py:527-542 | the conditions are handled once each, none lost |
| `AttentionLaws.LiveRecordsExactly` | coordination/attention.py:481-491 | the live map names the live record of every condition that has one at this Mission and destination |
| `AttentionLaws.AcyclicExtends` | coordination/attention.py:494-524 | giving the last record of a chain a brand-new successor closes no loop |
| `AttentionLaws.ReconcileIsExact` | coordination/attention.py:494-524 | a reconciliation presents every condition, closes every live record no condition names, touches no other identity and keeps every loader rule |
| `AttentionLaws.ProjectionIsExact` | coordination/attention.py:527-542 | projecting a FRESH observation leaves exactly the observed conditions live, at the observed revision, authorization and content; everything else is untouched |
| `AttentionLaws.PresentedExactlyOnce` | coordination/attention.py:494-542 | each observed condition then has exactly one live record |
| `AttentionLaws.ProjectionIsIdempotent` | coordination/attention.py:494-542 | projecting what is already shown creates, obsoletes and resolves nothing |
| `AttentionFields.ProjectionOnFields` | coordination/attention.py:428-542 | after a projection each observed condition has exactly one live record, with its kind, key, content and the read's revision and authorization; each live record shows one; a record is closed with the first of revision, authorization and content that differs, or as cleared; every other is untouched |
| `AttentionReport.RecordedExactly` | coordination/attention.py:188-316 | a record passes validation exactly when its fields read so, state by state |
| `AttentionReport.AcceptedExactly` | coordination/attention.py:342-391 | the loader accepts exactly: such records under their keys, one live record of a subject, successors recorded, of one subject, not older, never shared and never in a loop |
| `AttentionReport.ProjectionReports` | coordination/attention.py:494-542 | created, obsoleted and resolved list exactly the records they say, suppressed exactly the live ones that already showed what is observed |
| `AttentionLaws.SurfaceKeeps` | coordination/attention.py:607-643 | surfacing keeps every rule; it marks SURFACED only what a FRESH read still shows and an ok receipt confirms, and closes a contradicted record |
| `AttentionFields.SurfaceOnFields` | coordination/attention.py:607-643 | the record is marked shown, with clock, message and read, exactly when a FRESH read still shows it and the receipt is good; replaced or cleared exactly when such a read does not show it; else nothing changes |
| `AttentionReport.ProjectRefusedExactly` | coordination/attention.py:527-542 | another Mission's observation is refused by that name; a FRESH one otherwise only for want of an id or for a clock gone back, any other never |
| `AttentionReport.SurfaceRefusedExactly` | coordination/attention.py:564-643 | each refusal of a surfacing for its own cause, in order: unknown, terminal, not PENDING, another Mission's observation, no id or a clock gone back |
| `AttentionLaws.AcknowledgeKeeps` | coordination/attention.py:649-667 | acknowledging keeps every rule and changes only that record |
| `AttentionLaws.ClosesExactly` | coordination/attention.py:470-478 | a closed live record passes validation exactly when the clock is not behind its creation, a successor is named just when the condition did not clear, and it is not its own successor |
| `AttentionSuccess.ProjectSucceedsExactly` | coordination/attention.py:494-542 | projecting a FRESH observation succeeds exactly when it is of the Mission, the minter supplies an unused id for each condition not yet presented, and the clock is not behind any record it closes |
| `AttentionSuccess.SurfaceSucceedsExactly` | coordination/attention.py:607-643 | surfacing succeeds exactly for a PENDING record of the Mission looked at, the clock not behind it when it is marked or closed, an unused id at hand when it is replaced |
| `AttentionSuccess.AcknowledgeSucceedsExactly` | coordination/attention.py:649-667 | acknowledging succeeds exactly for a live, unacknowledged record of the Mission looked at, the clock not behind it |
| `Handoffs.CheckTransitions` | coordination/handoff.py:375-423 | the loop over transitions reports the first rule an entry breaks |
| `Handoffs.WalkChain` | coordination/handoff.py:468-487 | the guarded parent walk returns the path from the root, or its refusal |
| `Handoffs.ValidateHandoffs` | coordination/handoff.py:546-582 | the loader's passes accept exactly: rosters, records and eligibility, one handoff per idempotency key, one live handoff per content, every link sound |
| `HandoffLaws.ChainsAreSimplePaths` | coordination/handoff.py:468-582 | in an accepted document every walk reaches a depth-0 root in depth + 1 records (at most 5), one Mission, revision and proposal along it, each forwarded by its addressee, all parties pairwise distinct |
| `HandoffLaws.WalkIsRootPath` | coordination/handoff.py:468-487 | on such a document the walk's loop guard never fires |
| `HandoffLaws.WalksAreShort` | coordination/handoff.py:384-445 | every recorded list is a legal walk from OPEN of at most 3 entries, in time and cursor order, each the act of its own actor |
| `HandoffLaws.MovedIsValid` | coordination/handoff.py:696-740 | the guards of a status change already imply every rule of the resulting record |
| `HandoffLaws.TransitionKeeps` | coordination/handoff.py:696-740 | a status change whose guards pass succeeds, extends that one list by one entry and keeps every loader rule |
| `HandoffLaws.RefusedOtherwise` | coordination/handoff.py:696-740 | any other status change is refused |
| `HandoffFields.TransitionsExactly` | coordination/handoff.py:696-740 | a status change goes through if and only if it is wired, withdrawn by the source or accepted, answered or declined by the destination, under a FRESH read at the handoff's own revision and proposal that backs every citation and is not behind, the clock not behind; it writes one entry and the status, and nothing else |
| `HandoffFields.MarkRefusedExactly` | coordination/handoff.py:696-740 | each refusal of a status change for its own cause, in order: unknown, not wired, not its actor, not FRESH by its kind, another proposal, the first citation not backed, a cursor behind, a clock behind |
| `HandoffFields.RecordedExactly` | coordination/handoff.py:327-445 | a record passes validation exactly when its fields read so: opened by its source, every later entry a wired change by its own actor, read at its own revision and proposal, in order |
| `HandoffFields.EveryEntryIsItsActors` | coordination/handoff.py:375-423 | in an accepted document the first entry of every handoff is the act of its source, a withdrawal that of its source, any other that of its destination |
| `HandoffFields.AcceptedExactly` | coordination/handoff.py:546-582 | the loader accepts exactly: such records and rosters under their keys, both parties on the roster, no key and no live content used twice, every forward continuing its parent to someone new |
| `HandoffLaws.CreateKeeps` | coordination/handoff.py:604-690 | creation keeps every loader rule and either returns an existing record unchanged or adds exactly one under an unused idempotency key |
| `HandoffLaws.SetRosterKeeps` | coordination/handoff.py:220-246 | replacing a roster under a FRESH read keeps every handoff eligible |
| `HandoffSuccess.SetRosterSucceedsExactly` | coordination/handoff.py:220-246 | a roster is registered exactly under a FRESH read, for a bounded sorted list that drops no one a recorded handoff names |
| `HandoffSuccess.CreateSucceedsExactly` | coordination/handoff.py:604-690 | a handoff is created, or its recorded one returned, exactly under a FRESH read, between two different participants of the roster, its citations well formed and proven, its parent open, when its key stands for this content already or is unused, the content is not live and the forward continues its parent |
| `HandoffFields.CreatesExactly` | coordination/handoff.py:604-690 | the same condition on the fields of the request, the document and the read; a parent may be forwarded when it is OPEN, ACCEPTED or ANSWERED and fewer than 4 deep |
| `HandoffFields.CreationOnFields` | coordination/handoff.py:626-690 | with the key taken its one record is returned and nothing changes; otherwise exactly the record asked for is added: OPEN, one entry by the source, at the read, under its parent |
| `HandoffFields.CreateRefusedExactly` | coordination/handoff.py:604-690 | each refusal of a creation for its own cause, in order, down to which rule of the chain the forward breaks |
| `HandoffFields.RegistersExactly` | coordination/handoff.py:220-246 | a roster is registered exactly for 1 to 16 ordered participants that drop no one recorded, and then is exactly that roster at the read |
| `HandoffFields.RosterRefusedExactly` | coordination/handoff.py:220-246 | each refusal of a roster for its own cause: the look by its kind, too many, empty or out of order, dropping someone a handoff names |
| `HandoffOps.FindKey` | coordination/handoff.py:666-675 | the first record that used an idempotency key, or none has |
| `Documents.ValidateDocument` | coordination/store.py:157-204 | capacity, then every family's loader: exactly the accepted documents pass |
| `Documents.PointsAreReads` | coordination/service.py:48-78 | the collected points are exactly the reads the five families hold of the Mission |
| `Documents.LookIsAdmissible` | coordination/service.py:138-145 | a FRESH look is at or beyond the floor it was classified against |
| `Documents.AdvanceKeepsFloor` | coordination/service.py:48-101 | an operation that adds at most that read keeps every Mission's floor and lowers none |
| `ServiceLaws.ApplyIsSound` | coordination/service.py:153-349 | every operation that succeeds on an accepted document leaves every family accepted, only extends history, and advances reads by at most one admissible read |
| `ServiceLaws.SetRosterIsSound` | coordination/handoff.py:220-246 | so does replacing a roster, although its old point is lost |
| `ServiceLaws.BindIntoKeeps` | coordination/service.py:190-203 | a bind adds one record of the asked identity, expiry, clock and context at the read's revision and point, and keeps the family accepted |
| `ServiceLaws.ReboundKeeps` | coordination/service.py:216-232 | a rebind revokes the old binding and adds one of the same identity and Mission with the new expiry, clock and context under the new read |
| `ServiceSuccess.RouteSucceedsExactly` | coordination/service.py:153-172 | for an undecided turn a route call succeeds exactly when an unused id is at hand, whatever the source answers (the record's validity test never refuses); for a decided one exactly for the stored context and content |
| `ServiceSuccess.BindSucceedsExactly` | coordination/service.py:176-203 | binding succeeds exactly under a FRESH read, for a well-formed identity no binding holds, an expiry ahead, an unused id and room under both caps |
| `ServiceSuccess.RebindSucceedsExactly` | coordination/service.py:216-232 | rebinding succeeds exactly for an unrevoked binding, the clock not behind it, a FRESH read of its Mission, an expiry ahead, an unused id and room; its identity is then always free |
| `ServiceSuccess.RosterSucceedsExactly` | coordination/service.py:303-313 | the same for registering a roster through the service |
| `ServiceSuccess.HandoffSucceedsExactly` | coordination/service.py:315-332 | the same for creating a handoff through the service, with an unused id at hand |
| `ServiceFields.MintsExactly` | coordination/service.py:130-136 | the id minted is the first unused of the next 8, and there is one exactly when minting succeeds |
| `ServiceFields.LoadsExactly` | coordination/store.py:157-204 | a document loads exactly when it is within the five bounds and every family reads so; too full is told from unreadable |
| `ServiceFields.ReadsAre` | coordination/service.py:48-78 | the reads a Mission's floor is the greatest of are exactly those of its bindings, of decisions that name it or ask about it alone, of its attention records, handoffs and roster |
| `ServiceFields.LookIsTold` | coordination/service.py:138-145 | every look is told by its fields against the greatest read the document holds of that Mission |
| `ServiceFields.RoutesAs` | coordination/service.py:153-172 | an undecided turn adds one record under the first unused id: the turn, the clock, the context, the warranted decision and lane |
| `ServiceFields.RoutesAgainExactly` | coordination/service.py:153-172 | a decided turn is answered with its record unwritten to the same context and content, and refused by name otherwise |
| `ServiceFields.BindsExactly` | coordination/service.py:176-203 | binding succeeds if and only if the FRESH read and the fields allow it, and adds one binding with the expiry asked for, the clock, the context, the read's revision and point, unrevoked; nothing else changes |
| `ServiceFields.BindRefusedExactly` | coordination/service.py:176-203 | each refusal of a bind for its own cause, in order: the look by its kind, the identity held, no id, ill formed or expiring too soon, too long or no room |
| `ServiceFields.RevokesExactly` | coordination/service.py:205-214 | revoking succeeds if and only if the binding is recorded, unrevoked and not ahead of the clock, and marks it revoked at the clock; nothing else changes |
| `ServiceFields.RebindsExactly` | coordination/service.py:216-232 | rebinding succeeds under its exact condition, revokes that binding at the clock and adds its identity again with the new expiry, the clock, the context, the read's revision and point |
| `ServiceFields.RebindRefusedExactly` | coordination/service.py:216-232 | each refusal of a rebind for its own cause, in order |
| `ServiceFields.ProjectsAs` | coordination/service.py:245-257 | a FRESH projection leaves the document field by field as called for, reports exactly what it did, and is saved if and only if something changed; any other changes nothing |
| `ServiceFields.SurfacesAs` | coordination/service.py:259-272 | shown, contradicted or neither, each exactly when; saved if and only if one of the first two |
| `ServiceFields.AcknowledgesAs` | coordination/service.py:274-284 | the acknowledgment with its clock, context, freshness and read is written on that record, and nothing else |
| `ServiceFields.RegistersAs` | coordination/service.py:303-313 | exactly the roster asked for is written |
| `ServiceFields.HandsOffExactly` | coordination/service.py:315-332 | creating succeeds under its exact condition; it writes the record asked for, or nothing when its key is taken |
| `ServiceFields.MarksExactly` | coordination/service.py:334-349 | a status change succeeds under its exact condition and writes one entry and the status of that handoff, and nothing else |
| `Runs.SaveRefusesOnlyWhenFull` | coordination/store.py:260-282 | save-time validation never refuses what an operation produced: only a capacity bound does |
| `Runs.CallKeeps` | coordination/service.py:153-349 | every call, however its write ends, keeps acceptance and the floor, extends history, lowers no mark and advances the sequence by one if it changes the disk; one that did not succeed left the disk as it was exactly when it never came to write or its write failed before landing |
| `Runs.RunHolds` | coordination/service.py:48-101 | in every run from the default document, every write landing, failing, or landing and raising, reads of one Mission at one (revision, cursor) are identical and the mark never refuses |
| `Runs.RunOnlyGrows` | coordination/record.py:319-363 | over every continuation of such a run history only grows and no mark falls |
| `Runs.RouteLeavesOthers` | coordination/service.py:153-172 | route leaves the four other families unchanged, whatever it answers and however its write ends |
| `Runs.TurnIsDecidedOnce` | coordination/service.py:153-172 | at any later point of any such run a call for a decided turn returns exactly the stored record and writes nothing, or refuses |
| `Runs.ProjectedOnDisk` | coordination/service.py:245-257 | after a call that projects a FRESH observation the saved document shows exactly its conditions |
| `Runs.ProjectingAgainWritesNothing` | coordination/service.py:245-257 | projecting the same observation again changes and writes nothing |
| `Coordination.FindHighMark` | coordination/service.py:48-101 | the collecting loops and the mark loop compute the document's mark |
| `Coordination.CoordinationDocument.Close` | coordination/attention.py:470-478 | only that record changes; a live one becomes a terminal record that follows it with identity, creation, surfacing and acknowledgment kept, and validation passes exactly when it may be closed so |
| `Coordination.CoordinationDocument.Apply` | coordination/attention.py:501-519 | one condition's effect on the records, in place |
| `Coordination.CoordinationDocument.Reconcile` | coordination/attention.py:494-524 | the two loops compute the reconciliation, in place |
| `Coordination.CoordinationDocument.Project` | coordination/attention.py:527-542 | projection, in place |
| `Coordination.CoordinationDocument.Surface` | coordination/attention.py:607-643 | surfacing, in place |
| `Coordination.CoordinationDocument.Acknowledge` | coordination/attention.py:649-667 | acknowledgment, in place |
| `Coordination.CoordinationDocument.Bind` | coordination/service.py:190-203 | insert, then validate the whole family |
| `Coordination.CoordinationDocument.SetRoster` | coordination/handoff.py:220-246 | the roster is replaced only after the pass over recorded handoffs |
| `Coordination.CoordinationDocument.Admit` | coordination/handoff.py:656-690 | the two passes, the link and the insertion |
| `Coordination.CoordinationDocument.Transition` | coordination/handoff.py:696-740 | one record replaced by its extended copy |
| `Coordination.CoordinationService.Save` | coordination/store.py:260-282 | validation, both sequences, then one atomic write of the whole document at sequence + 1, a fault possible at any of its steps; a refusal touches nothing, and a raising write, landed or not, rolls the sequence in memory back |
| `Coordination.CoordinationService.Route` | coordination/service.py:153-172 | a replay is answered without observing or writing; otherwise one look, one decision under a minted id, one save; disk and reply are those of the specified call, however the write ends |
| `Coordination.CoordinationService.Bind` | coordination/service.py:176-188 | a FRESH look at the Mission, then the insertion under a minted id, saved; as specified, however the write ends |
| `Coordination.CoordinationService.RevokeBinding` | coordination/service.py:205-214 | no look is made: the binding named is revoked at the clock and saved; as specified, however the write ends |
| `Coordination.CoordinationService.Rebind` | coordination/service.py:216-232 | revocation and re-insertion of one identity under one FRESH look, in one save; as specified, however the write ends |
| `Coordination.CoordinationService.ProjectAttention` | coordination/service.py:245-257 | saved only if something was created, obsoleted or resolved; as specified, however the write ends |
| `Coordination.CoordinationService.SurfaceAttention` | coordination/service.py:259-272 | the look is at the record's own Mission; saved only if the record was surfaced or contradicted; as specified, however the write ends |
| `Coordination.CoordinationService.AcknowledgeAttention` | coordination/service.py:274-284 | the look is at the record's own Mission, at any freshness, and the acknowledgment is always saved; as specified, however the write ends |
| `Coordination.CoordinationService.SetRoster` | coordination/service.py:303-313 | the roster is replaced under a FRESH look and saved; as specified, however the write ends |
| `Coordination.CoordinationService.CreateHandoff` | coordination/service.py:315-332 | an id is minted before the look; saved only if the record returned is new; as specified, however the write ends |
| `Coordination.CoordinationService.TransitionHandoff` | coordination/service.py:334-349 | the look is at the handoff's own Mission; its extended copy is saved; as specified, however the write ends |
| `AtomicWrite.NeverTorn` | workflow_authority/atomic.py:35-76 | whatever step raises or the process dies at, the protected file is the old one or the whole new one, new exactly when the write did not fail before the rename |
| `AtomicWrite.LandsThenRaisesExactly` | workflow_authority/atomic.py:62-76 | a write that raises has landed exactly when the rename came before the fault, as when the directory sync fails |
| `AtomicWrite.LeavesNothingBehind` | workflow_authority/atomic.py:63-69 | a prepared file is left behind exactly when the write fails between making it and the rename and cannot unlink it |
| `AtomicWrite.Directory.WriteJson` | workflow_authority/atomic.py:35-76 | the steps in order, with the unlink handler and a fault at any one of them, leave what the step-by-step account says |
| `Store.CoordinationStore.Save` | coordination/store.py:260-282 | a conflict touches nothing; a save that raised left both documents as they were if and only if its fault came no later than the rename |
| `Store.LockChangesExactly` | coordination/store.py:242-246 | only acquiring takes the lock, when free; only its holder's release or crash frees it, and leaves that client nothing |
| `Store.DiskChangesExactly` | coordination/store.py:260-282 | only a checked client's landing replace changes the disk, to what that client checked; no step touches what another client holds |
| `Store.RaisedSaveKeptExactly` | coordination/store.py:260-282 | a save that raised left both documents as they were if and only if the same save would now go through; otherwise every later save at that sequence, whatever is attempted in between, is a conflict |
| `Store.NothingLostExactly` | coordination/store.py:260-282 | whoever holds the lock, no update is lost if and only if no commit lands between another client's on-disk check and its replace |
| `Store.LockedRunsLoseNothing` | coordination/store.py:242-282 | with the lock honoured, through failures and crashes, each commit derives from the one before it and the sequence is the number of commits |
| `Store.GuardAloneLosesAnUpdate` | coordination/store.py:34-41 | two clients that skip the lock both pass the sequence guard and one update is lost |
| `Clients.ClientsLeaveARun` | coordination/store.py:223-282 | clients that hold the lock, each making one service call on what it loaded, through failed, raising and crashed writes, leave exactly the run of the calls that committed, one a sequence number, with everything a run keeps |
| `Clients.ReplaceIsTheWrite` | workflow_authority/atomic.py:35-76 | the machine's replace is the atomic write, whatever step of it raises or the process dies at |
| `Approval.DifferingNone` | grok_bot/adapter.py:337-343 | no field differs exactly when all five displayed fields are restated |
| `Approval.VoidsExactlyTheExpired` | grok_bot/conforming.py:436-454 | the void touches exactly the expired pending relay records, superseding and blocking each |
| `Approval.FailuresKillAtTheBound` | grok_bot/index.py:545-566 | wrong codes kill an open marker at the fifth and not before |
| `ApprovalLaws.StepIsSafe` | grok_bot/adapter.py:510-836 | every step, however its write ends, keeps all invariants of the three documents |
| `ApprovalLaws.FireWithIsSafe` | grok_bot/adapter.py:792-836 | a firing is of the live, unspent, never-fired commitment of its key and marks it consumed |
| `ApprovalLaws.PruneIsSafe` | grok_bot/index.py:578-591 | pruning keeps the marker of everything that fired and is still live |
| `ApprovalTheorems.AuthorizedOnlyByFiring` | grok_bot/adapter.py:719-790 | in any interleaving a relayed workflow is decided only by consuming a fired, spent, live commitment over exactly the latest receipt's binding and display, still the record's own, before its expiry |
| `ApprovalTheorems.AuthorizedCameFromFiring` | grok_bot/adapter.py:719-790 | every relayed record that stands AUTHORIZED or further on in any run was put there by such a firing's consumption at some earlier step |
| `ApprovalSuccess.ApprovesExactly` | grok_bot/adapter.py:719-836 | an approval authorizes its record, and nothing else, if and only if every displayed field is restated, the record awaits as shown at both clocks, the code is that of the live unspent commitment over the latest receipt, its marker fits and both writes land; otherwise no record changes |
| `ApprovalFields.WithdrawsExactly` | grok_bot/conforming.py:1090-1144 | a withdrawal supersedes its request's record, and changes nothing else, if and only if no session is under way, the ref is indexed, the record is its own, the capability the held one and unexpired, the record undecided, not superseded and PLANNED, and the write lands |
| `ApprovalFields.WithdrawRefusedExactly` | grok_bot/conforming.py:1094-1134 | each refusal of a withdrawal if and only if its own cause, in order: capability, missing record, decided already, no longer pending |
| `ApprovalFields.ApprovalRefusedExactly` | grok_bot/conforming.py:1025-1063 | each refusal of an approval's check if and only if its own cause, in order: missing, stale binding, superseded, decided, not awaiting, expired |
| `ApprovalFields.ChecksExactly` | grok_bot/adapter.py:719-790 | an approval goes on exactly when each displayed field is given and restated and the record awaits it as shown |
| `ApprovalFields.FiresOnFields` | grok_bot/adapter.py:792-836 | a right code marks the live unspent commitment consumed and goes on if the write ends well; a wrong one adds a failure and the fifth kills it; nothing else changes |
| `ApprovalFields.ConsumesExactly` | grok_bot/conforming.py:1065-1081 | a firing authorizes its record at the clock, and nothing else, exactly when it still awaits as shown and the write lands |
| `ApprovalFields.PresentsExactly` | grok_bot/adapter.py:621-664 | a presentation reads exactly the request's own pending, unexpired record; its receipt restates that record and renders its authorization |
| `ApprovalFields.ArmsExactly` | grok_bot/authorize.py:110-167 | arming goes on exactly from the latest receipt, unexpired, over the request's own pending record, the binding and the rendered authorization still the record's |
| `ApprovalFields.CommitsExactly` | grok_bot/authorize.py:62-83 | what is stored is the commitment over that receipt and an unused nonce, beside exactly the unexpired ones, while there is room |
| `ApprovalFields.PrunesExactly` | grok_bot/index.py:578-591 | exactly the markers of commitments that stand are kept |
| `ApprovalFields.BeginsExactly` | grok_bot/index.py:385-400 | a request begins exactly for a key not known, with room, its write landing |
| `ApprovalFields.RecordsOnFields` | grok_bot/conforming.py:894-908 | a begun request adds its PLANNED record and voids the expired pending relays in one write, with room exactly under 64; a raise leaves it failing, torn when the write landed |
| `ApprovalFields.ProposesExactly` | grok_bot/index.py:423-453 | a recorded request is indexed with record and capability in one write, or its record is left to be voided |
| `ApprovalFields.VoidsUnindexedExactly` | grok_bot/conforming.py:915-923 | a record that could not be indexed is voided exactly if still pending |
| `ApprovalTheorems.MintedOverTheLatestReceipt` | grok_bot/authorize.py:110-167 | a workflow commitment comes to exist only by an arming over exactly what was last displayed, under an unused nonce |
| `ApprovalTheorems.ClosedWhileLive` | grok_bot/index.py:545-591 | CONSUMED or DEAD never becomes anything else while the commitment is live, re-arming and pruning included |
| `ApprovalTheorems.FiresAtMostOnce` | grok_bot/adapter.py:792-836 | no armed approval fires twice |
| `ApprovalTheorems.SettledForGood` | grok_bot/conforming.py:1025-1144 | a relayed workflow is never both decided and voided, and either holds for ever |
| `ApprovalTheorems.SettledRefusesBoth` | grok_bot/conforming.py:1065-1144 | consume and withdraw refuse a settled record |
| `ApprovalTheorems.VoidedOnlyForCause` | grok_bot/conforming.py:436-454 | a pending relay is voided only when expired, withdrawn by its own capability in time, or left unindexed |
| `ApprovalTheorems.UnindexedIsNeverAuthorized` | grok_bot/adapter.py:753-762 | a workflow no request entry maps to is never authorized |
| `ApprovalTheorems.OneWorkflowPerRequest` | grok_bot/adapter.py:510-579 | at most one workflow is ever created for a request, unless a record write of that request landed and then raised |
| `ApprovalTheorems.AbandonedOnlyIfNothingRecorded` | grok_bot/index.py:402-409 | IN_FLIGHT is forgotten only when nothing was recorded, with the same exception |
| `ApprovalTheorems.TornRequestIsPlannedTwice` | grok_bot/adapter.py:556-561 | the exception is real: a concrete run in which such a request is abandoned and planned a second time |
| `Replanning.CleanNeverRepeats` | grok_bot/adapter.py:510-579 | a request that recorded a workflow cleanly never gets a second one, whatever follows |
| `Replanning.TornRepeats` | grok_bot/adapter.py:556-561 | from every state a landed-then-raised record write leaves, a second workflow can follow |
| `Replanning.RepeatsExactlyWhenTorn` | grok_bot/adapter.py:510-579 | after a request's first record write, in any run, a second workflow of that request can follow if and only if that write landed and then raised |
| `ApprovalService.RequestIndex.Begin` | grok_bot/index.py:385-400 | an unknown key goes on exactly when the index has room, marked IN_FLIGHT if the write lands; a known one is answered with its entry; raised exactly when such a write did not end well |
| `ApprovalService.RequestIndex.Abandon` | grok_bot/index.py:402-409 | forgets an IN_FLIGHT mark and nothing else; raised exactly when there was one and its write did not end well |
| `ApprovalService.RequestIndex.RecordProposed` | grok_bot/index.py:423-453 | entry and mapping in one write, refused for an indexed ref or a full index |
| `ApprovalService.RequestIndex.RecordPresentation` | grok_bot/index.py:461-475 | the receipt replaces the request's earlier one |
| `ApprovalService.RequestIndex.Mark` | grok_bot/index.py:545-566 | a consumption or one more failure, on the marker as it stands |
| `ApprovalService.RequestIndex.Prune` | grok_bot/index.py:578-591 | keeps exactly the markers of live commitments, and writes only if one is forgotten |
| `ApprovalService.WorkflowStore.VoidExpiredRelays` | grok_bot/conforming.py:436-454 | the loop voids in place exactly what the law says and returns those ids |
| `ApprovalService.WorkflowStore.Record` | grok_bot/conforming.py:894-908 | the void and the addition are one save |
| `ApprovalService.WorkflowStore.VoidOne` | grok_bot/conforming.py:915-923 | voids a record still pending, and no other |
| `ApprovalService.WorkflowStore.Consume` | grok_bot/conforming.py:1065-1081 | every precondition again, then PLANNED to AUTHORIZED, once |
| `ApprovalService.WorkflowStore.Withdraw` | grok_bot/conforming.py:1090-1134 | voids the record exactly for the holder of its unexpired capability while it is pending, and refuses each other case by its own name |
| `ApprovalService.GrokBotAdapter.Present` | grok_bot/adapter.py:621-664 | the read step followed by the receipt step; a receipt is returned exactly when the record is pending and unexpired, the index has room and the write ended well |
| `ApprovalService.GrokBotAdapter.ArmWorkflow` | grok_bot/authorize.py:110-167 | the checking, minting and pruning steps, one after another; armed exactly when the receipt is the latest, the record awaits as shown, there is room and both writes end well |
| `ApprovalService.GrokBotAdapter.FireKey` | grok_bot/adapter.py:792-836 | the firing's effect on the index, and whether it fired |
| `ApprovalService.GrokBotAdapter.ApproveWorkflow` | grok_bot/adapter.py:719-790 | compare and check, fire, apply: the three steps with no other section between; authorized exactly when all the conditions of an approval hold and its last write ended well |

## Left out

- Human-readable message and detail text, and its length bounds.
- Field lengths, alphabets and types, except the cursor grammar and the issue selector.
- File modes, paths, JSON decoding, what an fsync makes durable, real locks, and a second fault inside the write's own handler (other than a failed unlink).
- The order in which a loader reports several problems of one document: the attention, handoff and route loaders are modelled as accept or refuse.
- Priority ordering of `pending` and the counts of `aggregate`: read-only formatting.
- A minter that never ends: it is the finite list of ids it would return; running out is refused like eight taken ids.
- The dictionary order of points: visited in ascending id order; on consistent points the mark does not depend on it.
- Store.CoordinationStore.Save: the validation before the sequence checks is in `Coordination.CoordinationService.Save`; here the content is of any type.
- ApprovalTheorems.OneWorkflowPerRequest: holds for a request none of whose record writes landed and then raised; `Replanning.RepeatsExactlyWhenTorn` shows the exception is exactly what it must be.
- Wording checks of the relayed reply, the legacy lane, delivery presentation and the relay behind a fired delivery approval.
- How the workflow store chooses which terminal records to prune and hands them off: any terminal records may go.
- The planning turn and the Operator turn: a request may give up or record an arbitrary PLANNED workflow.
- Sealed cancel recovery: only the withdrawal it leads to.
- Runtime progress after AUTHORIZED: an arbitrary step that leaves the approval block alone.
- SHA-256, HMAC, secrets and constant-time comparison.
- The HTTP server, protocol plumbing, command lines, provider gateway and Git tooling.
