# A verified model of the assistant core

A model, in Dafny, of the platform-neutral core of a chat assistant that lives on an
append-only block ledger, and proofs of what its state machines keep. Nothing here runs
the assistant: the model states what its stored rows, locks, queues and printers do, and
Dafny's verifier proves the properties for every input, every run and every
interleaving.

Verify the whole project with `dafny verify dfyconfig.toml`.

A method or a step is proved against a function, and the function against a law that does
not name it: over stored columns, positions in a list, channel records, numbers and
literal text.

## What is modelled

- **The debt spine** (`kind.dfy`, `ledger.dfy`, `debt.dfy`). One conversation's ledger as
  a class whose ingestion composes one stamp per message against the tail the walk reads.
  The stamp lock orders ingestions alone, so whatever the runtime and the tools append
  may land in every gap: ahead of the deletion, ahead of the tail read, between its two
  queries, and between it and the row. An invariant over every run of ingestions with
  such gaps, other writers' appends and both erasing passes says what a stored stamp
  certifies; from it follow that reading through a row stamped false equals stopping at
  it, exactly when a turn is owed, exactly when one turn too many is, where every debt
  comes from, and whose standing it carries. How and when a row was stamped is history
  the store does not keep, and is a ghost record here.
- **Revisions** (`revision.dfy`). When an edit is recorded, when its link is kept, and
  what the two erasing passes do to both.
- **The tables and the erasures** (`tables.dfy`, `erasure.dfy`, `convergence.dfy`,
  `effects.dfy`). The message, join, report, mark and outgoing-message tables, the
  junction of conversations and blocks, the channel mapping and the identities, as a
  store updated in place, one method a pass. What a finished erasure leaves of every row,
  what any number of interrupted ones come to, what the deletion mirror leaves, and
  exactly which copies of an id neither reaches.
- **The locks and the filings** (`filing.dfy`, `protocol.dfy`, `interleaving.dfy`,
  `once.dfy`, `solo.dfy`). Any number of ingestions, join observations, filings and erasures as
  processes over the fair erasure fence, the stamp lock and the filing door, one store
  operation a step: no schedule deadlocks, every schedule ends, each long pass is atomic,
  exactly which schedules leave every filed target a record behind it, nothing is filed
  twice, exactly which schedules record somebody's join twice, and that a process with
  nobody beside it does its one operation.
- **The composing edge** (`composing.dfy`). The open signals, the two carriers and the
  polling order, over every run of losses, delays and events, with anything landing
  between a poll's reading of the bus and its reading of the endings. An ending names
  only its conversation; which send it is of is kept in the run's account alone.
- **Lineages** (`lineage.dfy`). The two loops over a channel's ancestry.
- **Two printers** (`text.dfy`, `envelope.dfy`, `summary.dfy`). Readers that undo the
  projected envelope and the rendered compaction summary.
- **The tool choice and its notice** (`contract.dfy`), **the sends** (`outgoing.dfy`),
  **the first introduction** (`disclosure.dfy`), **the compaction's timing**
  (`timing.dfy`), **the shutdown** (`shutdown.dfy`).

## What the proofs found

Where a promise does not hold of the code as it stands, the code is modelled as it is, a
concrete case is proved, and so is the exact condition under which the promise holds.

- The runtime commits an answer outside the stamp lock. One that lands between an
  ingestion's tail read and its row leaves a turn owed over an answered tail, by a row
  that took no debt of its own (`ALateAnswerSummonsAgain`), and nothing else does
  (`OnlyALateAnswerSummonsAgain`). A settling block stands between a due row and its
  debt's origin exactly where one landed in that gap of some link
  (`EveryDebtHasAnOrigin`).
- Two writes put an emptied message's id back, and make the person's next edit of it
  recordable again: a privacy command sent as an edit of it, which is exempt from the
  drop (`AnExemptEditRevivesTheId`), and any message stored under the id as its own, a
  redelivered original above all, because ingestion dedupes no message by its id
  (`ARedeliveredOriginalRevivesTheId`). There is no third (`RevivedExactly`), and in a
  run without either no edit of the id is recorded (`ErasedWordsStayErased`).
- No pass reads an outgoing message's reply target. A reply the assistant sends keeps the
  platform id of the message it answers through that message's deletion
  (`AReplyOutlivesTheDeletion`) and through its author's erasure
  (`AReplyOutlivesItsAuthor`). The mirror leaves a recorded id nowhere exactly when no
  send of the conversation replies to it (`MirrorLeavesTheIdNowhere`); an erasure leaves
  no copy of an id exactly when no surviving send replies to one the person carried and
  no surviving reaction to somebody else's record sits on one (`NothingPersonalIsLeft`).
- A join event that lists one person twice stores two rows of theirs under its one id:
  recording it dedupes deliveries, not its list (`AnEventStandsOnceExactly`). Nothing
  else ever records a join twice (`NobodyJoinsTwiceExactly`).
- One row under a join event's id reads as the whole event
  (`crates/core/src/join.rs:341-343`), so a delivery that failed after some of its
  joiners is never made up for: the redelivery completes the event exactly when nobody
  or everybody had been written (`ACutDeliveryIsMadeUpExactly`).
- A stop between a conversation's unmapping and its deletion
  (`crates/core/src/erasure.rs:381-382`) strands that conversation: a retry's plan no
  longer sees it. It is the only stop a retry does not make up for
  (`OneStopAgreesExactly`).
- Where a platform gives an edit an id of its own, the mirror of the original id can
  leave a report and a reaction under the edit's own id standing on nothing
  (`AnEditsOwnIdIsStranded`): it strands exactly the reports, and exactly the marks, it
  does not null and all of whose grounds it empties (`MirrorStrandsExactly`,
  `MirrorStrandsMarksExactly`). A schedule keeps every target grounded if and only if no
  mirror of it ends over such a filing (`TargetsStayGroundedExactly`). Where edits keep
  their id and each block is one conversation's none does; a message two conversations
  hold can leave the filings of the one the mirror does not run in standing on nothing
  (`AMessageOfTwoIsStranded`).
- A stream's terminal clears a signal with its sends still to end. An ending of such a
  send taken once the next one's signal is open counts that one down, and can darken the
  cue of a send that has not ended (`AStaleEndingDarkensTheNext`). In a run whose sends
  each end once, past their begin, with nothing landing inside a poll, an ending stops
  the signal exactly at the last of its own sends if and only if, should it stop it, the
  signal counted no such ending (`AnEndingStopsExactlyTheLast`,
  `EveryStopIsTheLastExactly`).
- The bus is read before the endings, not with them: a begin and its ending that both
  land between one poll's two readings are taken ending first and leave a cue lit for a
  send that has ended (`ARacedBeginLeavesTheCueLit`). An ending is taken ahead of its
  begin in no other case (`AnEndingOvertakesExactly`).
- The count `fail_pending_sends` answers is the number of outcomes it appended exactly
  when every pending send's call is held and no two share one (`SweepCountsExactly`);
  ledgers filled by the sending tools are of that kind (`EveryRunCountsExactly`).
- A second shutdown call made while the first still waits returns with an erasure running
  (`ASecondCallReturnsEarly`), so the promise on return is the first call's alone.
- The cap's comment says a lost reading costs a delayed compaction
  (`crates/core/src/compaction.rs:307-311`); losing the inbound readings can only hurry
  one (`LosingInboundOnlyHurries`).
- The sweep period equals the cache edge's margin: the largest at which every channel
  that stays busy has a sweep act in each of its warm windows
  (`SweptExactlyWithinTheMargin`).

## Model

| member | source | states |
|---|---|---|
| Ledger.ConversationLedger.OwingTailDebt | crates/core/src/assembly.rs:3294-3342 | the tail row and at most one query past the transparent run, with anything landing between the two reads, answer what the one-pass walk answers at one moment: the tail row's own where that is a framework record or a live row not stamped false, and otherwise the query's |
| Ledger.ConversationLedger.Ingest | crates/core/src/assembly.rs:1216-1414 | the stretch under the stamp lock: the drops ahead of any write, the deletion, the tail read, the stamp and the row, in that order, with other writers' appends landing in every gap |
| Ledger.Newest | crates/core/src/kind.rs:1141-1179 | the newest block a reading wants, with none behind it wanted, or none at all |
| Ledger.WalkStopsAtTheNewestLeftIn | crates/core/src/kind.rs:1112-1179 | the walk settles on the newest block the bounded query leaves in, and owes exactly when that one does |
| Debt.OwedExactly | crates/core/src/assembly.rs:3243-3342 | a turn is owed exactly when a person's live row stamped due stands with no framework record behind it, and the walk answers the newest such row |
| Debt.StampedAppendKeeps | crates/core/src/kind.rs:428-462 | the stamp composed against the tail read fits what stood at the read, and no message has landed since, whatever else has |
| Debt.EmptiedKeeps | crates/core/src/kind.rs:891-989 | emptying rows removes live debts only; what every stored stamp certifies stays true |
| Debt.EveryLedgerIsSpined | crates/core/src/kind.rs:645-693 | from any stored history, every run, with appends in every gap of every ingestion, keeps the stamp invariant |
| Debt.EveryRunKeeps | crates/core/src/kind.rs:645-693 | every run keeps the invariant and rewrites no stamp, row or position |
| Debt.FalseStampCertifiesForever | crates/core/src/kind.rs:645-693 | a row stamped false against a read tail has nothing owed behind it, then and in every later state |
| Debt.ReadingThroughEqualsStopping | crates/core/src/kind.rs:645-693 | the walk that reads through such rows and the walk that stops at them answer alike in every reachable ledger |
| Debt.OnlyTheUnsummonedBotNeedsReadingThrough | crates/core/src/assembly.rs:2663-2690 | behind a debt standing as the row is written, stopping at that row loses the debt if and only if it is an unsummoned bot's |
| Debt.LandedSettlesExactly | crates/core/src/assembly.rs:78-143 | a framework record settles every debt and nothing else that lands settles any: none of the assistant's own kinds, no date marker and no quote |
| Debt.AppendOwes | crates/core/src/assembly.rs:2456-2491 | after the row a turn is owed exactly when the tail read owed one or the message took its own debt, at the lower standing; it takes one when it is addressed, or a person's under helpful answering, and neither a command nor a deletion nor over a budget; limited, command and unsummoned bot rows cancel nothing |
| Debt.OnlyALateAnswerSummonsAgain | crates/core/src/session.rs:208-217 | a row with no debt of its own comes due over an answered tail if and only if the tail it read owed and a settling block landed between that read and the row |
| Debt.ALateAnswerSummonsAgain | crates/core/src/session.rs:208-217 | it happens behind any standing debt: an answer committed between the read and a command's row |
| Debt.EmptiedOwesExactly | crates/core/src/assembly.rs:3243-3342 | erasing rows cancels exactly their own debts; a debt an erased row carried still stands behind it |
| Debt.DeletionOwesExactly | crates/core/src/assembly.rs:2493-2533 | the recognized deletion cancels exactly the debts of the rows it empties, and what landed ahead of it exactly what it settles |
| Debt.IngestionOwesExactly | crates/core/src/assembly.rs:1216-1414 | over a whole ingestion with its gaps, a turn is owed if and only if the message is addressed, or a person's under helpful answering, and neither a command nor a deletion nor over a budget; or a standing debt is not the mirrored message's own and no framework record landed ahead of the read |
| Debt.EveryDebtHasAnOrigin | crates/core/src/kind.rs:428-462 | every due row traces back, through due rows each unsettled when the next read it, to one that took its own debt or an earlier build's; a settling block stands between the two if and only if one landed between some link's read and its row |
| Debt.AuthorityIsTheLowestAlongTheChain | crates/core/src/kind.rs:440-462 | a due row's authority is the minimum standing along its whole chain, older rows folding to their sender: a member's wherever one stands in it, an administrator's only where nobody else does |
| Debt.ChainsAreForever | crates/core/src/kind.rs:695-708 | no later write and no erasure of a chain row moves a debt's chain or raises its authority |
| Debt.EveryRunStoresStorableHandles | crates/core/src/kind.rs:119-133 | no run stores a handle that is empty or holds a colon or white space |
| Kind.BlursExactly | crates/core/src/kind.rs:119-133 | a handle is storable if and only if it is not empty and holds neither a colon nor any of the White_Space code points |
| Revision.RevisionIsRecordedExactly | crates/core/src/assembly.rs:2745-2824 | an edit is recorded exactly when it is a privacy command or the newest live version is another's or says something else; its link is kept exactly when that version is the sender's, a privacy command's also when none stands |
| Revision.IngestionIsRecordedExactly | crates/core/src/assembly.rs:1156-1180 | a message is recorded if and only if it is a privacy command, or no flag of its sender stands ahead of the lock or under it and it is no edit or one that is recorded; otherwise it leaves no trace |
| Revision.IngestionRecordsTheMessage | crates/core/src/assembly.rs:1216-1414 | a recorded ingestion leaves one row, every column of it off the message: its facts, its summons and limit, its handle unless a flag stands or it would blur the prefix, its reply by an id or as the assistant's, its link exactly when the author check keeps it; no earlier row changed but the named one stripped of its six columns, and between them what landed |
| Revision.MirrorLeavesNoVersion | crates/core/src/kind.rs:924-989 | after the mirror no row of the conversation answers to the named id |
| Revision.PersonErasureLeavesNoVersion | crates/core/src/kind.rs:891-922 | the person-wide pass removes a message whole exactly when every version of it is that person's |
| Revision.RevivedExactly | crates/core/src/assembly.rs:2745-2824 | a gone id stays gone over a step if and only if the step records neither a privacy command editing it nor a message storing it as its own; any other edit of it leaves no trace |
| Revision.ErasedWordsStayErased | crates/core/src/assembly.rs:2745-2824 | over every run a gone id is gone throughout if and only if no step revives it, and then no edit of it is ever recorded |
| Revision.AnExemptEditRevivesTheId | crates/core/src/assembly.rs:2792-2824 | from every ledger, a privacy command sent as an edit of a gone id revives it for the person's next edit |
| Revision.ARedeliveredOriginalRevivesTheId | crates/core/src/kind.rs:1191-1197 | from every ledger, a redelivered original revives its gone id for the person's next edit |
| Revision.EmptiedStaysLinked | crates/core/src/kind.rs:170-189 | both erasing passes keep every surviving link standing: each reaches both ends of a link |
| Revision.EveryLinkStands | crates/core/src/kind.rs:170-189 | in every reachable ledger whose adapter's edits name root ids, redeliveries included, a stored link has an earlier row by the same person under the id it names |
| Revision.AChainedVersionOutlivesItsMessage | crates/core/src/kind.rs:924-989 | an edit naming another edit's id is out of the root's reach: its words outlive the deletion |
| Erasure.Store.PlanFor | crates/core/src/erasure.rs:291-312 | the plan lists exactly the conversations a channel record maps as direct that hold a message of the person's; no identity row, no plan |
| Erasure.Store.EmptyPerson | crates/core/src/erasure.rs:328-378 | the six passes run in their one order |
| Erasure.Store.RemoveConversations | crates/core/src/erasure.rs:380-383 | each planned conversation is unmapped, then deleted |
| Erasure.Store.Execute | crates/core/src/erasure.rs:322-390 | a planned erasure runs to its end |
| Erasure.Store.MirrorNamedDeletion | crates/core/src/assembly.rs:2425-2454 | the record's own passes run first, the copies' exactly when a record was there |
| Erasure.Store.CollectUnnamedPrincipals | crates/core/src/identity.rs:227-272 | an identity stays, unchanged, exactly while a row of the four families names it or its objection stands, and the count is how many went |
| Convergence.PassesSettle | crates/core/src/erasure.rs:323-340 | after its six passes an attempt has nothing left to reach: each pass settles its own columns and no later one unsettles them |
| Convergence.PassesResume | crates/core/src/erasure.rs:323-340 | starting the passes over after any of them picks up exactly where they were |
| Convergence.CollectedRows | crates/core/src/erasure.rs:384 | every row of a held block stands unchanged, no row of an unheld one does, and a second collection takes nothing |
| Convergence.OriginsFirstStrandsEveryCopy | crates/core/src/erasure.rs:323-340 | with the origins nulled first, a copy in somebody else's row survives every later attempt |
| Convergence.AttemptStaysUnderWay | crates/core/src/erasure.rs:322-390 | wherever an attempt stops, the tables are the passed tables with some planned conversations gone; a whole one ends concluded |
| Convergence.RetriesConverge | crates/core/src/erasure.rs:322-390 | attempts cut anywhere, then a whole one, agree with one uninterrupted attempt on every surviving row, the mapping and the identity |
| Effects.ErasedExactly | crates/core/src/erasure.rs:322-390 | a completed erasure, row by row: the six columns of the person's messages and the four of their joins go, and copies of an id they had in a conversation shared with the copy; every other column, co-joiner, header and holding stays, but for the direct conversations holding a message of theirs |
| Effects.NothingPersonalIsLeft | crates/core/src/erasure.rs:153-216 | none of the person's own columns remains, and no row keeps a copy of an id they carried in a shared conversation if and only if no surviving send replies to one and no surviving mark of somebody else's record sits on one |
| Effects.AReplyOutlivesItsAuthor | crates/core/src/tools/sending.rs:541-557 | a reply filed to a person's message keeps its id through their finished erasure in any conversation not removed with them |
| Effects.ConcludedFirstIsNeverRetried | crates/core/src/identity.rs:194-225 | an identity concluded first leaves an unflagged person's rows standing through every later attempt |
| Effects.RetriesAgreeUnlessStranded | crates/core/src/erasure.rs:380-384 | after any attempts, a whole one ends in the very tables an uninterrupted one ends in, if and only if none left a planned conversation stranded |
| Effects.OneStopAgreesExactly | crates/core/src/erasure.rs:380-384 | one stop and one retry equal one uninterrupted erasure if and only if the stop was not between an unmapping and its deletion |
| Convergence.RemovingExactly | crates/core/src/erasure.rs:380-383 | after any number of operations of the removal loop, exactly which conversations are unmapped and which are deleted |
| Effects.MirroredExactly | crates/core/src/assembly.rs:2396-2454 | the mirror, row by row and column by column; an id never recorded changes nothing |
| Effects.MirrorLeavesTheIdNowhere | crates/core/src/assembly.rs:2396-2454 | after it the conversation records the id nowhere and a second run changes nothing; of a recorded id no copy is left if and only if no send of the conversation replies to it |
| Effects.AReplyOutlivesTheDeletion | crates/core/src/tools/sending.rs:398-409 | a reply filed to any recorded id keeps it through that id's mirrored deletion |
| Effects.UnnamedGoExactly | crates/core/src/identity.rs:227-272 | of the identities that stand, nobody a row of the four families names and nobody flagged is deleted and everybody else is, and a second sweep takes nobody |
| Filing.ScanFits | crates/core/src/tools/report.rs:489-547 | a filing stands over a live record of the person filed against, and no filing of the id stands |
| Filing.ReportIsFiledExactly | crates/core/src/tools/report.rs:434-602 | what a report answers, in every case: refused where no channel record maps the conversation as a group; there, for the first message of the turn that answers to the id, or else the join event under it, one person's or several's, filed against whom it names unless it is the assistant's own, names nobody or is reported already; and not assessed where there is neither |
| Filing.MarkIsFiledExactly | crates/core/src/tools/mark.rs:431-466 | a reaction is filed, and against whom, exactly when the first message under the id names its author and neither a reaction nor a report stands |
| Filing.MarkAnswersExactly | crates/core/src/tools/mark.rs:431-466 | what a reaction answers in every case: not assessed, unrecorded, already marked where a reaction stands ahead of every report, already reported, or filed against the author |
| Filing.AFilingStands | crates/core/src/tools/mark.rs:497-532 | a filing stands as soon as it is appended: the same ask, of any window, is refused, no collection takes it, and no other row moves |
| Filing.ARecordStands | crates/core/src/assembly.rs:1400-1414 | a recorded message or join is answered to in its conversation at once, no collection takes it, and no other row moves |
| Filing.AppendKeeps | crates/core/src/tools/mark.rs:497-532 | appending a filing whose scan still fits keeps every target grounded and filed once |
| Filing.RecordKeepsFits | crates/core/src/filing.rs:13-29 | a message or a join written between a scan and its append does not spoil the scan |
| Filing.MirrorKeepsExactly | crates/core/src/assembly.rs:2396-2454 | the whole mirror keeps every filed target grounded if and only if no filing stands that it would strand |
| Filing.KeptIdsAreHarmless | crates/core/src/assembly.rs:2396-2454 | where edits keep their id and each block has one conversation, no mirror strands anything |
| Filing.MirrorStrandsExactly | crates/core/src/assembly.rs:2396-2454 | on any platform the mirror strands exactly the reports it does not null all of whose grounds it empties |
| Filing.MirrorStrandsMarksExactly | crates/core/src/assembly.rs:2396-2454 | and exactly the marks it does not null all of whose grounds it empties |
| Filing.AnEditsOwnIdIsStranded | crates/core/src/assembly.rs:2396-2454 | an edit under an id of its own, reported and reacted to, is left with both filings standing on nothing by the mirror of the id it edits |
| Filing.AMessageOfTwoIsStranded | crates/core/src/assembly.rs:2396-2454 | a message two conversations hold, its id kept, leaves the report and the reaction of the one the mirror does not run in standing on nothing |
| Filing.ErasureKeeps | crates/core/src/erasure.rs:322-390 | a finished person-wide erasure keeps every filed target grounded |
| Filing.ScannedThenMirroredIsStranded | crates/core/src/filing.rs:13-29 | without the door, a mark scanned before the mirror and appended after it stands on nothing |
| Protocol.NeverStuck | crates/core/src/filing.rs:31-44 | in every state the locks keep, some process can move until all have finished |
| Protocol.StepKeepsLocked | crates/core/src/filing.rs:31-44 | every step keeps the fence, stamp and door exclusive and their queues exact |
| Protocol.StepDescends | crates/core/src/filing.rs:31-44 | every step brings the end nearer |
| Protocol.NoRunEverDeadlocks | crates/core/src/filing.rs:31-44 | for any number of ingestions, join observations, filings and erasures, every schedule runs to the end |
| Protocol.DoorFirstDeadlocks | crates/core/src/filing.rs:31-44 | a filing that takes the door before the fence deadlocks with a deletion and a queued erasure |
| Interleaving.AttemptByOps | crates/core/src/erasure.rs:322-390 | an attempt cut one operation later is the attempt, one operation on |
| Interleaving.MirrorIsThrough | crates/core/src/filing.rs:13-29 | under every interleaving a mirror's operations come to one atomic mirror |
| Interleaving.ErasureIsThrough | crates/core/src/assembly.rs:3539-3635 | under every interleaving an erasure's operations come to one atomic erasure |
| Interleaving.StepKeepsExactly | crates/core/src/filing.rs:13-29 | a step of any process keeps the data invariant if and only if it does not end a mirror that strands a filing |
| Interleaving.TargetsStayGroundedExactly | crates/core/src/filing.rs:13-29 | from any grounded tables filed once, over every schedule: every filed report and mark has a live record behind it whenever no pass is midway, if and only if no mirror of the schedule strands a filing as it ends |
| Interleaving.NoTargetOutlivesItsRecords | crates/core/src/filing.rs:13-29 | from such tables with one conversation a block, and where edits, stored and arriving, keep the id they edit, every schedule keeps every filed target grounded whenever no pass is midway |
| Once.NothingIsFiledTwice | crates/core/src/filing.rs:13-29 | from tables filed once, in every state of every schedule, whatever ids edits carry, no id is reported or reacted to twice in a conversation |
| Once.NobodyJoinsTwiceExactly | crates/core/src/assembly.rs:2056-2122 | from tables joined once, over every schedule and any number of deliveries: nobody's join stands twice under one event in any state if and only if no move writes a joiner its event named before |
| Once.ListsWithoutRepeatsJoinOnce | crates/core/src/assembly.rs:2076-2082 | so where no event names anybody twice, no redelivery ever stores a second row |
| Once.AnEventStandsOnceExactly | crates/core/src/assembly.rs:2107-2117 | one event recorded to its last joiner leaves somebody's join standing twice if and only if its list names somebody twice |
| Once.ACutDeliveryIsMadeUpExactly | crates/core/src/assembly.rs:2102-2117 | after a delivery cut short by a failed write, the next one leaves every joiner a row if and only if the first had written none or all of them |
| Solo.AnIngestionMirrorsAndRecords | crates/core/src/assembly.rs:1216-1414 | an ingestion with nobody beside it comes, through every lock and store operation, to the mirror of the id it names and then its row; one dropped under the lock leaves the tables as they are |
| Solo.AFilingFilesWhatItScans | crates/core/src/tools/mark.rs:497-532 | a filing by itself appends exactly what its scan decides, and nothing where it is refused |
| Solo.AnErasureErases | crates/core/src/assembly.rs:3539-3635 | an erasure by itself comes to the finished erasure, in whatever order it reads its plan |
| Composing.ComposingEdge.Poll | crates/core/src/composing.rs:179-293 | one pass of the loop serves an expiry ahead of the bus and the bus ahead of the endings, each read in its turn, with anything landing on either carrier between the two readings |
| Composing.ComposingEdge.StopOne | crates/core/src/composing.rs:357-371 | a conversation's open signal closes with one stop; one with nothing open is told nothing |
| Composing.ComposingEdge.Begin | crates/core/src/composing.rs:226-264 | the first begin lights the cue on the resolved channel, a later one is counted and pushes the deadline out, an unresolved one is dropped |
| Composing.ComposingEdge.StopExpired | crates/core/src/composing.rs:373-392 | exactly the signals past their deadline close, each with one stop |
| Composing.ComposingEdge.StopEverything | crates/core/src/composing.rs:332-355 | every open signal closes with one stop |
| Composing.ComposingEdge.OneSendDone | crates/core/src/composing.rs:301-330 | an ending counts the signal down, and stops it at the last |
| Composing.EveryRunAlternates | crates/core/src/composing.rs:70-84 | each conversation is told begin and stop in strict turn, its cue lit exactly while its signal is open and counting |
| Composing.DeadlineIsALifetimePastABegin | crates/core/src/composing.rs:145-157 | an open signal's deadline is a lifetime past its newest begin |
| Composing.NoSignalOutlivesItsLifetime | crates/core/src/composing.rs:145-206 | after any poll, every open signal had a begin within the last lifetime, whatever the bus is doing |
| Composing.AnOverdueSignalStops | crates/core/src/composing.rs:198-206 | five minutes on with no begin, the next poll stops the signal with one stop, whatever the carriers hold |
| Composing.TheCountIsExact | crates/core/src/composing.rs:49-68 | over every run, whatever is lost, raced, cleared or ended twice: the open signal counts its own sends that have not ended, one more for each whose ending was taken before its begin, one less for each other ending it was counted down by |
| Composing.AnEndingStopsExactly | crates/core/src/composing.rs:301-330 | over every run an ending stops the open signal exactly when the sends it owes and the endings taken before their begin come to the other sends' endings it counted; it is the last one's exactly when, where either happens, the latter two are as many |
| Composing.AnEndingStopsExactlyTheLast | crates/core/src/composing.rs:49-68 | where each send ends once, past its begin, and nothing lands inside a poll, across any number of clears, losses and dropped begins: an ending that finds every send of the open signal ended stops it; one that stops it finds them all ended if and only if the signal counted no ending of an earlier send, and otherwise cuts off as many as it counted |
| Composing.EveryStopIsTheLastExactly | crates/core/src/composing.rs:49-68 | over such a run every ending stops the signal exactly at the last of its sends if and only if no signal an ending stops had counted another send's |
| Composing.AStaleEndingDarkensTheNext | crates/core/src/composing.rs:265-285 | begin, terminal, ending and the next begin, with nothing lost or raced: the stale ending stops the signal of a send that has not ended |
| Composing.AnEndingOvertakesExactly | crates/core/src/composing.rs:189-225 | an ending is taken with its begin still on the bus if and only if the begin landed after that poll had read the bus, and then both carriers were empty before |
| Composing.ARacedBeginLeavesTheCueLit | crates/core/src/composing.rs:189-225 | a begin and its ending landing between one poll's two readings leave the cue lit with no send left to end |
| Composing.EndingsFirstLeavesTheCueLit | crates/core/src/composing.rs:57-60 | under the other polling order the one send's ending is lost and its cue stays lit |
| Lineage.GreatestReference | crates/core/src/lineage.rs:58-65 | the reference with the greatest id, the later of equals, or none |
| Lineage.InheritedReferencesAreNotItsOwn | crates/core/src/lineage.rs:36-84 | a thread's own opening is read by greatest id, wherever inherited references stand |
| Lineage.OpeningExactly | crates/core/src/lineage.rs:36-84 | a thread opens with the last reference of the greatest id and ends its opening behind the first block under that id, is refused where the reference names nobody, and opens nothing without one or with nothing behind it |
| Lineage.LineageExactly | crates/core/src/lineage.rs:86-119 | a path is the lineage if and only if it never repeats, each stored ledger of it opens on the next, which still reads, and the last opens on nothing, on one already walked, or on one that no longer reads |
| Lineage.ServingLineage | crates/core/src/lineage.rs:86-119 | the walk ends on any graph in the one maximal path that never comes back, or in the refusal |
| Lineage.StripLineage | crates/core/src/erasure.rs:464-537 | the scrub's walk answers that path's hops, openings and stripped blocks, or nothing exactly when there is no ancestry or nothing to strip |
| Lineage.ChainIsBounded | crates/core/src/lineage.rs:97-103 | a path never repeats, so the conversations that read bound it |
| Lineage.OneLineage | crates/core/src/lineage.rs:86-119 | from one thread there is one lineage, and none where a walk is refused |
| Lineage.TheWalksAgree | crates/core/src/lineage.rs:17-20 | the two loops fail together, and otherwise spell the same path |
| Envelope.Enveloped | crates/core/src/kind.rs:260-281 | the lines in one fixed order between two fences, the body untouched, or the body alone |
| Envelope.ReadsBackExactly | crates/core/src/kind.rs:246-281 | a projected message reads back to its envelope and body, for every body, if and only if the envelope declares something in single-line fields |
| Envelope.EnvelopedIsInjective | crates/core/src/kind.rs:246-281 | there no two are drawn alike |
| Envelope.OutsideItTwoAreDrawnAlike | crates/core/src/kind.rs:246-281 | outside it a broken field or a bare message spells another envelope |
| Envelope.RowProjectsItsFacts | crates/core/src/kind.rs:726-773 | a live row reads back to its handle, date, the id its versions share and whether it is one; an erased one says the marker and declares nothing |
| Envelope.RowIsDrawnSo | crates/core/src/kind.rs:246-281 | what every row draws, to the letter: the marker, the words alone, or the fenced facts in one order ahead of them |
| Summary.SummaryReadsBack | crates/core/src/compaction.rs:189-229 | a rendered summary reads back to its non-empty units and normalized items, whatever an item's text holds, and is refused exactly when nothing is said |
| Summary.DrawnAlikeExactly | crates/core/src/compaction.rs:233-272 | two summaries are drawn alike exactly when they say the same |
| Summary.AnsweredIsDrawn | crates/core/src/compaction.rs:233-247 | a pair renders as its two sides' lines behind their marks, a blank answer as its mark alone |
| Summary.NormalLinesExactly | crates/core/src/compaction.rs:262-272 | a text keeps the cores of its lines that are not blank, in order, white space off both ends |
| Summary.APlainSummaryIsDrawnSo | crates/core/src/compaction.rs:189-247 | a summary with one plain line in every unit, to the letter |
| Contract.SameSetExactly | crates/core/src/assembly.rs:689-709 | the sorted comparison agrees exactly when each name is recorded as often as registered |
| Contract.Reconciler.ReconcileToolChoice | crates/core/src/assembly.rs:3131-3224 | what one activity writes, where it may stop, and when the memory is marked or cleared |
| Contract.EveryRunIsExplained | crates/core/src/assembly.rs:3147-3176 | in every run at most one notice, only where the newest choice lacked one of the two sending tools, and one in front of every choice written over such a choice |
| Contract.EveryStepIsTaken | crates/core/src/assembly.rs:3131-3224 | what each step of a run leaves, an activity in all its cases: remembered, recorded already, stopped ahead of the notice, behind it, or come through |
| Contract.ASecondReconciliationAppendsNothing | crates/core/src/assembly.rs:3131-3146 | a second reconciliation of the same tools appends nothing |
| Contract.AFailureIsMadeUpFor | crates/core/src/assembly.rs:3167-3176 | after a failure at either write, the next activity ends where an undisturbed one would |
| Contract.ChoiceFirstLosesTheNotice | crates/core/src/assembly.rs:3173-3176 | written the other way round, one crash loses the notice for good |
| Outgoing.SendStore.ResolveToolCall | crates/core/src/outgoing.rs:339-362 | the framework's door appends one outcome where the first block under the id is a call and no outcome of it stands, names which of the two failed, and changes nothing otherwise |
| Outgoing.SendStore.Settle | crates/core/src/outgoing.rs:319-362 | a settlement goes through that door, a misdirected or repeated one dropped |
| Outgoing.SendStore.ReportDelivery | crates/core/src/assembly.rs:1911-2009 | a send with a call raises one stop and settles that call with its outcome; one without does neither |
| Outgoing.SendStore.FailPendingSends | crates/core/src/outgoing.rs:364-400 | the pass over the ledger it loaded once, and as its count the positions of the filed sends whose call is gone or has no outcome |
| Outgoing.SendStore.FailUnfinishedSends | crates/core/src/assembly.rs:2011-2055 | every mapped conversation gets one pass's outcomes, however often it is mapped, no other conversation moves, and the answer is the sum of the passes' counts |
| Outgoing.SettlingReads | crates/core/src/outgoing.rs:319-362 | a settlement appends its call's outcome exactly where the first block under its id is a call with none, and changes the reading of no other call |
| Outgoing.HeldExactly | crates/core/src/outgoing.rs:191-205 | a call is held if and only if the first block under its id, wherever it stands, is a recorded call |
| Outgoing.SendStateExactly | crates/core/src/outgoing.rs:181-205 | a send reads pending while its call is gone or has no outcome, and then delivered or failed as its first outcome says |
| Outgoing.ACallFilesOnce | crates/core/src/outgoing.rs:241-248 | a tool body files its call's send, and a re-run of it files nothing |
| Outgoing.ARecordedCallSettles | crates/core/src/outgoing.rs:339-400 | over every run past it a call recorded under a fresh id stands; reported with no outcome yet it gets exactly the reported one, and its send still pending is failed by the next pass |
| Outgoing.SweepLeavesNothingPending | crates/core/src/outgoing.rs:364-400 | after a pass exactly the calls answered before and the standing calls of filed sends are answered: those by what was recorded first, these by a failure |
| Outgoing.SweptToLeaves | crates/core/src/assembly.rs:2011-2055 | after the sweep nothing held is pending, and a second sweep appends nothing |
| Outgoing.SweepCountsExactly | crates/core/src/outgoing.rs:384-400 | the count equals the outcomes appended if and only if the pending calls are held and distinct |
| Outgoing.EveryRunCountsExactly | crates/core/src/outgoing.rs:241-248 | in every ledger the sending tools reach, a re-run call files nothing more and the count is exact |
| Outgoing.NoSecondOutcome | crates/core/src/outgoing.rs:319-362 | whatever order reports, repeats and sweeps run in, no call has two outcomes and the one it has never changes |
| Disclosure.TheLineComesOffWhole | crates/core/src/disclosure.rs:111-135 | the prepend is idempotent, the prose undoes it, and re-disclosing a lined text's prose gives it back |
| Disclosure.Introductions.IntroducedBefore | crates/core/src/disclosure.rs:222-251 | this conversation as loaded or any other the person spoke in holds an earlier lined message they co-summoned |
| Disclosure.Introductions.FirstMessageToSomeone | crates/core/src/disclosure.rs:187-220 | the loop over a growing list answers whether any summoner is new or unreadable |
| Disclosure.Introductions.IntroductionFor | crates/core/src/disclosure.rs:137-185 | bare exactly when the message does not open with the line and its key names somebody, each introduced by an earlier lined message of their own summons here or where they spoke; else the line goes in front of the stored text, where there is one, and of the loaded one, and no other block moves |
| Disclosure.BareExactly | crates/core/src/disclosure.rs:137-270 | the same over any store: bare if and only if everybody the key names has such a receipt |
| Disclosure.EveryStepIsTaken | crates/core/src/disclosure.rs:137-185 | what each step of a run leaves: the key, where somebody spoke, the message at its conversation's end, the delivery on record |
| Disclosure.EveryRunIsHonest | crates/core/src/disclosure.rs:187-270 | whatever went out bare names somebody, each introduced by an earlier lined message, ever after; lined messages keep their line; every line standing was filed or delivered there |
| Disclosure.RedeliveryRepeats | crates/core/src/disclosure.rs:137-150 | a redelivery repeats its opening and stores nothing more |
| Timing.ContextWatch.RecordInbound | crates/core/src/compaction.rs:443-452 | the arrival is recorded over what was held, or alone once 4096 readings are held |
| Timing.ContextWatch.Due | crates/core/src/compaction.rs:479-514 | the two questions in order answer exactly: fifty thousand tokens left, or past half under a cache five minutes cold, and three minutes of quiet or the warm cache's last half minute |
| Timing.ContextWatch.Forget | crates/core/src/compaction.rs:464-470 | a forgotten conversation is not due at any time |
| Timing.DueExactly | crates/core/src/compaction.rs:344-403 | due exactly at the wall, or past half under a cold cache, and in quiet or at the warm cache's edge |
| Timing.BusyActsOnlyAtTheEdge | crates/core/src/compaction.rs:378-403 | on a busy channel only the headroom arm acts, only inside the warm cache's edge |
| Timing.LosingInboundOnlyHurries | crates/core/src/compaction.rs:306-311 | losing the inbound readings never delays a compaction |
| Timing.EveryWarmWindowIsSwept | crates/core/src/compaction.rs:297-305 | a sweep no slower than the margin acts in every full warm window of a conversation at its wall, however busy the channel |
| Timing.ASlowerSweepMissesOne | crates/core/src/compaction.rs:297-305 | a slower one acts nowhere in the warm window of any channel that stays busy and was dispatched one tick past the edge's sweep |
| Timing.SweptExactlyWithinTheMargin | crates/core/src/compaction.rs:297-305 | over all channels that stay busy, every such window holds a sweep that acts if and only if the period is within the margin; the configured one is |
| Shutdown.Workers.SpawnErasure | crates/core/src/assembly.rs:970-993 | an erasure is accepted exactly before a shutdown began, finished handles dropped; one step of the machine below |
| Shutdown.Workers.AbortLoops | crates/core/src/assembly.rs:1042-1044 | every loop the call took that runs is told to abort, nothing is awaited, and no erasure is touched |
| Shutdown.EveryLoopIsAbortedBeforeAnyIsAwaited | crates/core/src/assembly.rs:1042-1049 | once the shutdown awaits anything, nothing but an erasure runs on |
| Shutdown.ShutdownIsTheEnd | crates/core/src/assembly.rs:995-1054 | once the shutdown returns nothing runs or is winding down and nothing starts; every accepted erasure ran to its end, none aborted |
| Shutdown.EveryCallCanReturn | crates/core/src/assembly.rs:1022-1054 | from any state, however many calls stand, a call comes to its return by its own moves and tasks ending on their own: no shutdown is ever stuck |
| Shutdown.StoppedExactly | crates/core/src/assembly.rs:995-1054 | any call's return means nothing runs exactly when nothing the first call took is running |
| Shutdown.ASecondCallReturnsEarly | crates/core/src/assembly.rs:1022-1024 | a second concurrent call returns while every loop and an erasure run |

## Left out

- Admission and identity: channel admission, authority resolution, first sight of a person and the command catalogue come in as an inbound message with its sender resolved; the budgets come in as the first one refusing.
- Storage: SQL text, the store actor, retries inside one operation and disk failures; one store operation is one atomic step, and a stop falls between two.
- Forks and compaction: what a compaction copies into a successor, the digest scrub and the retirement of stale channels. No process of `Interleaving` gives a block to a second conversation; the tables a schedule starts from may hold such blocks.
- Garbage collection: blocks kept alive by reference columns are not modelled; a block goes when no conversation holds it.
- Erasures that stop midway inside `Interleaving`: an erasure there runs to its end, as in every run without a store failure; stops are the subject of `Convergence` and `Effects`.
- Framework rows and the assistant's own ids: a stored tool call can hold an id the model named, on tables no erasure reaches (docs/decisions/0045-erasure-does-not-reach-tool-blocks-yet.md); delivery receipts and retractions hold ids of the assistant's own messages. None is a table of the model, and the two copy theorems do not speak of them.
- Sends in `Protocol`: a sending tool holds the fence alone and writes no row a filing or a join stands on, so it is no process there; `Outgoing` has its calls and `Effects` its reply target.
- Session resets and context notes have no process of their own in `Protocol`: they take the fence and the stamp lock as an observation with nobody to record does, and what they write no filing stands on. The retention sweep's deletions under the fence are not modelled.
- A join event's joiners in `Protocol` are those whose objection does not stand; a delivery that fails midway is the subject of `Once.ACutDeliveryIsMadeUpExactly` and not a process.
- Disclosure.Introductions.IntroductionFor: the message introduced is a filed outgoing one, the only shape the edge hands it.
- The composing edge's end, when its receiver is dropped or a carrier closes.
- Retention and wall-clock date arithmetic; times are integers.
- Answers, windows and prompt texts: what commands answer, what a settlement's sentence says, and every model call.
- Retractions: which delivery a retraction resolves to; only that a recorded one appends one bookkeeping block.
- Provenance: the co-summoners of a turn are what the caller reads; in `Disclosure` they are fixed when their key is recorded.
- Erasure of introduced people in `Disclosure`: a person erased and met again is a new identity to whom no receipt applies.
- Composing updates carry the conversation they were sent for as an annotation; two conversations mapped to one channel in turn are told apart by it.
- Summary.SummaryReadsBack: a question and its answer read back as one item's lines; where one ends and the other begins inside them is not recovered, because a question's own line may open with the answer's mark.
- Debt.EveryRunKeeps: the bound on debts open per window is not stated, because a debt is counted against it only once its send is delivered.
