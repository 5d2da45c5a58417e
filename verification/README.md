# A model of the family learning backend, with proofs

This project models the services of the Express/Prisma backend that are state machines over its
relational store, and proves what every run of them keeps. Tables are maps or sequences, one
transaction or one serialised call is one step, and runs are arbitrary finite sequences of steps.
Services that update rows in place are classes whose methods are proved against transition
functions; the properties are lemmas about those functions.

`dafny verify dfyconfig.toml` checks the whole project.

| module | what it models |
|---|---|
| `SessionLineage` | refresh-token sessions: issue, rotate, replay, revoke |
| `NotificationDispatch`, `ReminderCatalog`, `RiyadhDay` | the notification dispatcher, its daily cap and its delivery worker; the day the cap is keyed by |
| `ReminderSweep` | the reminder sweep as a composition of dispatches |
| `RetentionPurge`, `PurgeDatabase`, `FamilyIsolation`, `PurgeSweeps` | the family, child and subscription purges over a schema of restricting foreign keys, with legal retention |
| `Webhooks`, `Proration` | payment webhooks, plan selection, cancellation and reactivation, the invoice ledger, prorated quotes |
| `Progress`, `Homework`, `SessionEvents` | progress, struggle tracking, homework status, and the exactly-once ingestion of session events |
| `ReminderRollup` | the family-level reminder list and the write behind it |
| `Common` | optional values, times, arithmetic |

What the model takes as given:

- A refresh token matches exactly one session, and its signature check is a given verdict. A webhook's
  signature check is a given verdict too. Hashes are injective.
- `rotateRefresh` and `buildAndDispatch` read and then write without a transaction; each call is one
  serialised step here.
- New ids are new: a created row takes an id no row has.
- Time is whole milliseconds; every step carries its own time and times need not increase.
- Where the database is free to choose (the first matching row, the order of rows, which plan a
  tombstone subscription takes), the model either proves the result independent of the choice or
  takes the first row listed. Among invoices with the same issue date the last listed counts as the
  most recent.
- `deletedAt` and `purgeAfter` of a child or family are always set and cleared together, so one
  deadline stands for both. For a subscription the deadline is set exactly when it is CANCELED with an
  effective date: `cancel` sets it, and a reactivation, a payment or a plan selection ends it. The one
  CANCELED subscription without a date is the tombstone's, which is never due
  (`Webhooks.OnlyTombstonesAreUndated`).
- Tables are numbered constants and columns are one enumeration, so that one foreign-key rule covers
  the whole schema. `STRUGGLE_CONSECUTIVE_THRESHOLD` is positive, as its configuration schema says.

Where comments and code disagree the model follows the code: a struggle alert is raised once for
good, because `lastAlertedAt` is never cleared; abandoned sessions earn XP; an upgrade does not touch
the period end; the purge sweeps list candidates they skipped; two success events for one intent
write two invoices; a fresh period starts at any activation from PENDING, not only the first, since a
plan selection can bring PENDING back at any time.

Results that turned out to need a condition, with the exact condition proved:

- The daily cap holds throughout a run exactly when no delivery revives a dead-lettered row on a full
  day (`NotificationDispatch.RunKeepsCapIff`); two-channel intents can do that
  (`NotificationDispatch.TwoChannelsBreakCap`), the sweeps cannot (`ReminderSweep.SweepsKeepCap`).
- A family purge succeeds exactly when no row of another family hangs on its subscription or parents
  (`PurgeDatabase.Database.PurgeFamilyGraph`); on coherent data there is none.
- It does fail on data the schema allows: a payment intent of one family on another's subscription
  (`RetentionPurge.ForeignIntentPins`), or an export requested by another family's parent
  (`RetentionPurge.ForeignExportPins`).
- Plan selection puts any subscription back to PENDING (`Webhooks.PendingComesFromSelection`), and
  `cancel` and `reactivate` lead from there to ACTIVE. Without a verified payment a PENDING
  subscription is ever ACTIVE exactly when a cancellation is followed by a reactivation before its
  period ends with no plan selected in between (`Webhooks.ActiveUnpaidIffReopened`), and a run ends
  outside PENDING exactly when someone canceled with no plan selected after, or it started outside and
  no plan was selected (`Webhooks.OutsidePendingUnpaidIff`).
- The plan is always one that was paid for exactly when no selection changes it
  (`Webhooks.PlanPaidThroughoutIff`). Selecting, canceling and reactivating gives ACTIVE on any plan
  without an invoice while the period lasts (`Webhooks.UnpaidPlan`).
- The period end never moves back exactly when no activation finds the subscription PENDING with more
  than one period left (`Webhooks.EndNeverMovesBackIff`). After a plan selection one can: a yearly
  subscription 300 days before its end keeps 30 of them (`Webhooks.SelectionDropsPaidTime`).
- A topic's `struggling` flag and the counter agree after every touch of a run exactly when no touch
  of the same name under another subject takes the counter across the threshold while the row exists
  (`Progress.RunAgreesIff`); two events of one child suffice to part them
  (`Progress.TwoSubjectsDisagree`).
- A completion that occurred in time counts as late exactly when the item is OVERDUE just before it,
  that is, when an earlier sweep after the deadline brought it there or it was so created
  (`Homework.InTimeCountsLateIffOverdue`).
- A reminder switch reads back as written exactly when no row of a soft-deleted child overrides it
  (`ReminderRollup.EnabledReadsBackIff`). The list shows the row written for the lowest live child
  exactly when no such row sorts below it (`ReminderRollup.WriteIsShownIff`), and otherwise shows the
  settings of the lowest such row (`ReminderRollup.SettingsShown`).

## Model

| member | source | states |
|---|---|---|
| SessionLineage.AuthStore.IsSessionValid | src/modules/auth/auth.service.ts:55-61 | a session is valid iff it exists, is not revoked and has not expired |
| SessionLineage.AuthStore.IssueSessionPair | src/modules/auth/auth.service.ts:80-122 | the table gains exactly the new session, and the lineage invariant is kept |
| SessionLineage.AuthStore.RotateRefresh | src/modules/auth/auth.service.ts:124-193 | the outcome is that of the ordered checks, and the table moves by the transition function: appended successor, revoked chain or nothing |
| SessionLineage.AuthStore.CollectLineage | src/modules/auth/auth.service.ts:213-226 | the walk terminates and returns the chain from the presented session to its end |
| SessionLineage.AuthStore.RevokeLineage | src/modules/auth/auth.service.ts:213-234 | exactly the sessions of the forward chain are revoked |
| SessionLineage.AuthStore.RevokeSession | src/modules/auth/auth.service.ts:195-200 | revokes one session and nothing else |
| SessionLineage.AuthStore.RevokeAllForChild | src/modules/auth/auth.service.ts:202-207 | revokes exactly the child's sessions |
| SessionLineage.RunKeepsLineages | src/modules/auth/auth.service.ts:124-234 | in every run the successor links stay acyclic and injective, stay inside one family and principal, and a session is rotated iff it has a successor |
| SessionLineage.ChainHasNoRepeats | src/modules/auth/auth.service.ts:213-226 | no session ever comes back to itself along its links |
| SessionLineage.SameLineageTransitive | src/modules/auth/auth.service.ts:209-212 | lineages are a partition: two sessions in one lineage with a third are in one lineage |
| SessionLineage.LineageHasOneOwner | src/modules/auth/auth.service.ts:150-160 | all sessions of a lineage have the same family and the same principal |
| SessionLineage.LineageHasOneTail | src/modules/auth/auth.service.ts:162-165 | a lineage has exactly one unrotated session, its tail |
| SessionLineage.OneRotatableTokenPerLineage | src/modules/auth/auth.service.ts:124-165 | of two tokens of one lineage that would both be accepted, both name the same session |
| SessionLineage.TokenRotatesOnce | src/modules/auth/auth.service.ts:139-142 | after a token was accepted, no continuation accepts a token of that session again |
| SessionLineage.VerdictIsFirstFailure | src/modules/auth/auth.service.ts:124-145 | each verdict iff its check is the first to fail: signature, unknown or revoked, expired, account pending, already rotated, wrong secret; accepted iff none fails |
| SessionLineage.IssuedTokenIsAccepted | src/modules/auth/auth.service.ts:80-122 | the token of a login is accepted until its session expires unless the account is pending, and no other secret of that session is; the session has the given family, principal and device |
| SessionLineage.SuccessorTokenIsAccepted | src/modules/auth/auth.service.ts:147-191 | the token a rotation returns is accepted for one full lifetime and no other secret of its session is; the presented token is a replay from then until its own expiry |
| SessionLineage.RotationStamps | src/modules/auth/auth.service.ts:147-165 | the old row is stamped and linked, the new one gets the lifetime and the old device, all others stay |
| SessionLineage.StepSpendsIff | src/modules/auth/auth.service.ts:124-234 | family, principal, secret and expiry of a session never change, and exactly its rotation, its revocation (alone, by child, by family) and a replay at or before it in its chain spend it |
| SessionLineage.PendingStep | src/modules/settings/settings.service.ts:277-330 | a family is pending from its mark until that is taken back |
| SessionLineage.FirstRevocationStays | src/modules/auth/auth.service.ts:195-234 | a revocation is stamped with the time of its operation, and a later one does not overwrite it |
| SessionLineage.TokenAcceptedIff | src/modules/auth/auth.service.ts:124-234 | over any run: a token that could rotate at the start can at the end iff nothing spent its session, it has not expired, its account is not pending and its secret is right |
| SessionLineage.ReplayRevokesForward | src/modules/auth/auth.service.ts:139-142 | a replay invalidates exactly the valid sessions from the presented one forward |
| SessionLineage.ReplayEndsLineage | src/modules/auth/auth.service.ts:132-165 | once a replay is recognised, no continuation accepts any token of the lineage, earlier or later, and the sessions from the presented one forward stay invalid |
| NotificationDispatch.Dispatcher.PersistNotification | src/modules/notifications/notifications.service.ts:143-173 | one row is appended unless the unique key exists |
| NotificationDispatch.Dispatcher.EnqueueChannels | src/modules/notifications/notifications.service.ts:176-192 | one job per deliverable channel, none for WhatsApp |
| NotificationDispatch.Dispatcher.DispatchOrdered | src/modules/notifications/notifications.service.ts:114-132 | the budget loop computes the greedy fold over the ordered intents |
| NotificationDispatch.Dispatcher.GroupByChild | src/modules/notifications/notifications.service.ts:88-94 | grouping gives each child exactly its intents in order, and the children in order of first meeting |
| NotificationDispatch.Dispatcher.BuildAndDispatch | src/modules/notifications/notifications.service.ts:67-137 | the table, the jobs and both counters are those of the specified dispatch |
| NotificationDispatch.Dispatcher.Deliver | src/jobs/notifications.worker.ts:17-60 | one delivery attempt as a step of the machine |
| NotificationDispatch.Dispatcher.OnFailed | src/jobs/notifications.worker.ts:71-82 | the last failed attempt dead-letters the row |
| NotificationDispatch.DispatchDecides | src/modules/notifications/notifications.service.ts:88-132 | after a dispatch each key has the status decided by the number of lower-ranked fresh types and the child's budget |
| NotificationDispatch.DispatchRefinesTopK | src/modules/notifications/notifications.service.ts:88-132 | the greedy loop refines the set specification: the key-to-status map grows by exactly the decisions |
| NotificationDispatch.DispatchIgnoresOrder | src/modules/notifications/notifications.service.ts:88-132 | the key-to-status map depends on neither the order of intents nor that of children |
| NotificationDispatch.WinnersAreTheLowest | src/lib/reminders.ts:37-47 | the delivered types are min(budget, n) many, and each ranks below every suppressed one |
| NotificationDispatch.DispatchCountsDelivered | src/modules/notifications/notifications.service.ts:81-132 | `delivered` counts exactly the new PENDING rows, capped and uncapped, and keys stay unique |
| NotificationDispatch.DispatchAddsRowsOf | src/modules/notifications/notifications.service.ts:71-192 | old rows stay; each new row is one of the intents' with its fields, the day and PENDING or SUPPRESSED if capped, no day and PENDING if not; exactly the new PENDING rows have jobs, one per channel but WhatsApp |
| NotificationDispatch.BudgetIsOfTheLocalDay | src/modules/notifications/notifications.service.ts:71-108 | the rows a dispatch writes at one instant count against a child's budget at another iff both lie between the same two local midnights, and then exactly its capped PENDING rows do |
| NotificationDispatch.NotAfterIsRankThenTime | src/modules/notifications/notifications.service.ts:110-112 | lower rank first, untyped intents after typed ones, the earlier trigger first among equals |
| NotificationDispatch.DispatchSuppressesWithin | src/modules/notifications/notifications.service.ts:125-132 | `suppressed` is at least the SUPPRESSED rows written and at most the capped intents |
| ReminderCatalog.RankIsPlace | src/lib/reminders.ts:37-47 | the rank of a type is its place in the order of priority |
| NotificationDispatch.RepeatedSweepAddsNoCapped | src/modules/notifications/notifications.service.ts:75-132 | a later dispatch of the same day over the same (child, type) pairs adds no capped row, whatever came between, and one row per uncapped intent |
| NotificationDispatch.DispatchKeepsCap | src/modules/notifications/notifications.service.ts:96-132 | a dispatch never takes a child over the daily cap |
| NotificationDispatch.StepKeepsCapIff | src/modules/notifications/notifications.service.ts:219-240 | a step from within the cap leaves it iff it revives a row of a full day |
| NotificationDispatch.RunKeepsCapIff | src/modules/notifications/notifications.service.ts:96-132 | the cap holds at every point of a run iff no step revives a row of a full day |
| NotificationDispatch.OneChannelKeepsCap | src/jobs/notifications.worker.ts:17-60 | with one deliverable channel per capped intent, the cap holds at every point of every run |
| NotificationDispatch.TwoChannelsBreakCap | src/jobs/notifications.worker.ts:62-82 | from an empty table with cap 1: a goal and a study reminder of one child, the goal's mail fails and is exhausted, its push goes out late; two rows of the day are counted at the end |
| NotificationDispatch.ChannelDeliversOnce | src/jobs/notifications.worker.ts:17-60 | once a notification went out on a channel, no continuation sends it on that channel again |
| NotificationDispatch.AtMostNineTypedRowsADay | prisma/schema.prisma:577 | without any hypothesis on deliveries a child still has at most nine counted typed rows a day |
| RiyadhDay.CivilOf | src/lib/time.ts:168-175 | the month is 1 to 12, the date 1 to the length of that month, and the fields give the day back |
| RiyadhDay.SameStringIffSameDay | src/lib/time.ts:168-184 | two instants have equal day strings iff they lie between the same two local midnights, for years from 0 on |
| RiyadhDay.MidnightTurnsTheDay | src/lib/time.ts:168-175 | the last millisecond before a local midnight and the midnight itself have the strings of two consecutive dates |
| RiyadhDay.DateOfItsDay | src/lib/time.ts:168-175 | the calendar fields and the day number determine each other |
| RiyadhDay.NextIsNext | src/lib/time.ts:168-175 | the next date is the date of the next day |
| RiyadhDay.NextDate | src/lib/time.ts:168-175 | the next date by the Gregorian month lengths and leap years |
| RiyadhDay.DateStringReads | src/lib/time.ts:171-174 | year, month and date can be read off the string, which has the form YYYY-MM-DD |
| RiyadhDay.EpochString | src/lib/time.ts:168-175 | the string of the local epoch day is 1970-01-01 |
| ReminderSweep.EvaluatedIs | src/modules/reminders/reminders.service.ts:43-137 | a child's intents are those of its rows that are on and of a clock-driven type: a capped push to a child it addresses unless paused or deleted, an uncapped push and mail to a parent it addresses |
| ReminderSweep.EvaluatedOnce | src/modules/reminders/reminders.service.ts:43-137 | with one row per child and type no intent comes twice |
| ReminderSweep.EvaluateChild | src/modules/reminders/reminders.service.ts:119-137 | the nested loops compute that list |
| ReminderSweep.SweepsKeepCap | src/modules/reminders/reminders.service.ts:144-180 | in any run of sweeps, deliveries and exhausted jobs the daily cap holds at every point |
| ReminderSweep.SecondSweepOfTheDay | src/modules/reminders/reminders.service.ts:144-166 | a second sweep of a child on one day adds no capped row and repeats every parent notice |
| ReminderSweep.RunRemindersSweep | src/modules/reminders/reminders.service.ts:144-180 | the sweep is one dispatch per child with intents, then one of billing notices, then the homework sweep's items; all four counts are determined: children, new PENDING rows, suppressed intents and the items that changed |
| ReminderSweep.DispatchReminders | src/modules/reminders/reminders.service.ts:156-166 | the loop over the children is the run of their dispatches, and its two counters are the new PENDING rows and the suppressed intents of that run |
| ReminderSweep.DispatchBillingNotifications | src/modules/billing/billing.service.ts:599-625 | one dispatch of one notice per PAST_DUE subscription and per ACTIVE one ending within three days, or nothing when there is none; its result counts them all |
| ReminderSweep.SuppressedIsWithin | src/modules/reminders/reminders.service.ts:156-166 | the suppressed total is at least the SUPPRESSED rows written and at most the capped intents of the run |
| ReminderSweep.BillingNoticesAddressNotified | src/modules/billing/billing.service.ts:599-639 | one notice, to the parent of the family on push and mail, for each PAST_DUE subscription and each ACTIVE one that ends within three days, and for no other |
| ReminderSweep.BillingNoticesAllGoOut | src/modules/billing/billing.service.ts:599-639 | billing notices are never suppressed: each adds a row, whatever was sent before, and old rows stay |
| ReminderSweep.BillingStepsAreSweepSteps | src/modules/billing/billing.service.ts:599-639 | billing dispatches are among the steps for which the daily cap is proved |
| PurgeDatabase.Database.DeleteMany | prisma/schema.prisma:196-800 | a delete fails as a whole iff a restricting reference would be left; otherwise it takes the rows and their cascades |
| PurgeDatabase.Database.HardDeleteChildDependents | src/modules/children/children.service.ts:304-343 | never trips a foreign key and removes exactly the child's dependents |
| PurgeDatabase.Database.DeleteFamilyRows | src/modules/settings/settings.service.ts:388-432 | the first three parts of the program never trip a foreign key and remove exactly the family rows no retention concerns |
| PurgeDatabase.Database.PurgeOrRetainInvoices | src/modules/settings/settings.service.ts:457-482 | expired invoices go, the others move to the tombstone's subscription; it fails only when one is needed and no plan exists |
| PurgeDatabase.Database.DeleteExpired | src/modules/settings/settings.service.ts:462-476 | deletes all of the rows when retention is off, else those dated before the cutoff, and returns what is left |
| RetentionPurge.InvoicesLeft | src/modules/settings/settings.service.ts:457-482 | of a subscription's invoices those are left that are dated at or after the cutoff while retention is on, and they hang on the tombstone's subscription |
| RetentionPurge.ConsentsLeft | src/modules/settings/settings.service.ts:489-513 | the same for a family's consents, which then name the tombstone family and no parent or child |
| PurgeDatabase.Database.PurgeOrRetainConsent | src/modules/settings/settings.service.ts:489-513 | expired consents go, the others are detached and moved to the tombstone family |
| PurgeDatabase.Database.EnsureRetentionTombstone | src/modules/settings/settings.service.ts:528-558 | returns the one tombstone subscription, created at most once, and fails iff there is none and no plan |
| PurgeDatabase.Database.PurgeFamilyGraph | src/modules/settings/settings.service.ts:383-451 | the whole program succeeds iff no row of another family hangs on the family's subscription or parents, and then gives every row its fate |
| PurgeDatabase.Database.PurgeFamilyTx | src/modules/settings/settings.service.ts:351-366 | re-checks the deadline; fails iff the family is due and pinned, and then leaves the database as it was |
| PurgeDatabase.Database.PurgeChildTx | src/modules/children/children.service.ts:275-286 | re-checks the deadline and removes exactly the child and its dependents |
| PurgeDatabase.Database.PurgeSubscriptionTx | src/modules/billing/billing.service.ts:560-575 | re-checks the deadline, never fails, and removes exactly the subscription, its invoices and its intents |
| PurgeDatabase.Database.PurgeDueSoftDeleted | src/modules/children/children.service.ts:266-297 | removes exactly the children due at the start, with their dependents, and lists them |
| PurgeDatabase.Database.ScanDueChildren | src/modules/children/children.service.ts:267-270 | lists exactly the due children, each once |
| PurgeDatabase.Database.PurgeCandidates | src/modules/children/children.service.ts:272-297 | sweeps any list of candidates, due or not, and returns the whole list, skipped ones included |
| PurgeDatabase.SweepTakesTheDueChildren | src/modules/children/children.service.ts:272-291 | the sweep removes exactly the scanned children that are still marked and due |
| PurgeDatabase.Database.SoftDelete | src/modules/children/children.service.ts:218-232 | marks a live child of the family with a deadline seven days on and leaves it no live session; refuses any other child |
| PurgeDatabase.Database.Restore | src/modules/children/children.service.ts:236-255 | restores a soft-deleted child iff the window is open and a slot is free, with the error of the first failing check |
| PurgeDatabase.Database.RequestAccountDeletion | src/modules/settings/settings.service.ts:277-303 | marks the family once and leaves it no live session; asking again returns the standing deadline |
| PurgeDatabase.Database.CancelAccountDeletion | src/modules/settings/settings.service.ts:310-330 | clears the mark iff it is set and not yet due; an unknown family, an unmarked one and an elapsed window each give their error |
| RetentionPurge.StagesGiveFates | src/modules/settings/settings.service.ts:383-451 | the ordered stages together do to each row what its fate says, a rule on the starting database alone |
| RetentionPurge.SubscriptionHolds | src/modules/settings/settings.service.ts:433-439 | the subscription can be deleted iff no other family's payment intent points at it |
| RetentionPurge.ForeignIntentPins | prisma/schema.prisma:388-406 | a database that meets the schema in which another family's intent stops the purge of a family |
| RetentionPurge.ForeignExportPins | prisma/schema.prisma:705-724 | a database that meets the schema in which an export requested by another family's parent stops it |
| RetentionPurge.ParentsHold | src/modules/settings/settings.service.ts:443-447 | the parents can be deleted iff no other family's row points at one of them |
| RetentionPurge.FamilyRowIsFree | src/modules/settings/settings.service.ts:449-450 | nothing restricts the family row once the rest is done |
| FamilyIsolation.CoherentHasNoPins | src/modules/settings/settings.service.ts:383-451 | when rows keep to their family, nothing can stop a purge |
| FamilyIsolation.FatedExactlyOwnRows | src/modules/settings/settings.service.ts:383-451 | the purge concerns exactly the rows that belong to the family |
| FamilyIsolation.PurgeTakesOnlyItsFamily | src/modules/settings/settings.service.ts:383-451 | rows of other families survive unchanged; a row of the family survives iff the law keeps it |
| FamilyIsolation.InvoiceKeptIffRecent | src/modules/settings/settings.service.ts:457-482 | after a purge an invoice of the family's subscription is there iff retention is on and it was issued no earlier than that many days ago, and then on the tombstone's subscription |
| FamilyIsolation.ConsentKeptIffRecent | src/modules/settings/settings.service.ts:489-513 | a consent of the family is there iff it names no child, retention is on and it was given no earlier than that many days ago, and then names the tombstone family alone |
| FamilyIsolation.NewerInvoiceIsKeptToo | src/modules/settings/settings.service.ts:457-482 | of two invoices the newer is kept if the older is; with 0 days none is |
| FamilyIsolation.NothingOfTheFamilyIsLeft | src/modules/settings/settings.service.ts:383-451 | afterwards no row belongs to the family: what was kept or created belongs to the tombstone, the rest where it did |
| FamilyIsolation.PurgeKeepsSchemaAndCoherence | src/modules/settings/settings.service.ts:383-451 | foreign keys, the one-subscription rule and family coherence hold after a purge |
| PurgeSweeps.AccountWindowsComplement | src/modules/settings/settings.service.ts:310-366 | at any moment exactly one acts on an account pending deletion: the cancellation restores it or the purge removes it |
| PurgeSweeps.SubscriptionWindowsComplement | src/modules/billing/billing.service.ts:524-575 | at any moment exactly one acts on a canceled subscription: reactivation or purge |
| PurgeSweeps.ChildWindowsMeetOnce | src/modules/children/children.service.ts:236-286 | a soft-deleted child is restorable or purgeable at any moment, and both only at the instant its seven days end |
| PurgeSweeps.StepKeepsSound | src/modules/children/children.service.ts:275-286 | every marking, unmarking, plan-selecting, writing, token-removing and purging step keeps schema and coherence |
| PurgeSweeps.FittingRowsAreWritable | prisma/schema.prisma:196-800 | a new row of a family in any table, with the columns that must be set and references to rows of that family, can be written, and so can a device token that another family registers again; a second subscription excepted |
| PurgeSweeps.StepDeletesOnlyDue | src/modules/billing/billing.service.ts:562-566 | a row is deleted only by the purge of a root that is marked and due at that transaction, and only if it is the root's, or as a device token its family takes back |
| PurgeSweeps.DeregistrationTakesTheToken | src/modules/notifications/notifications.service.ts:297-299 | taking back a token deletes it iff it is the family's, and nothing else |
| PurgeSweeps.GoneRowsWereDue | src/modules/children/children.service.ts:266-297 | over a whole run, with any writes in between: a row that is gone was deleted by such a purge, due at that moment, or taken back as a device token |
| PurgeSweeps.UnmarkedRootOutlivesRun | src/modules/billing/billing.service.ts:524-545 | a restored, reactivated or taken-back root survives any run, writes included, that marks neither it nor its family |
| PurgeSweeps.BeneathIsOfTheFamily | src/modules/children/children.service.ts:304-343 | what a root takes with it is of the root's family |
| PurgeSweeps.TombstoneRowsSurviveRun | src/modules/settings/settings.service.ts:515-526 | rows of the tombstone survive every run in which no operation names the tombstone, unchanged unless they are its family or subscription |
| PurgeSweeps.LegallyKeptRowsSurviveRun | src/modules/settings/settings.service.ts:457-513 | an invoice, or a consent that names no child, dated within its retention days at its family's purge is there, with the tombstone, in every later state of such a run |
| PurgeSweeps.SubscriptionMarks | src/modules/onboarding/onboarding.service.ts:62-76 | what each operation does to a subscription's deadline, period end and plan, for the family it names and no other |
| PurgeSweeps.SessionMarks | src/modules/children/children.service.ts:218-232 | deleting a child or an account revokes exactly its live sessions; an earlier revocation keeps its time |
| PurgeSweeps.ChildAndFamilyMarks | src/modules/settings/settings.service.ts:277-330 | a child is marked seven days ahead and a family by the retention setting, only while unmarked, and each mark is taken back only in its window |
| Webhooks.BillingService.ProcessWebhook | src/modules/webhooks/webhooks.service.ts:49-86 | a bad signature, a payload without event or id and a seen id change nothing, each with its answer; otherwise the ledger, with its stamp, and the effect change together |
| Webhooks.BillingService.ApplyEvent | src/modules/webhooks/webhooks.service.ts:91-139 | intent by id else by provider reference, subscription by metadata only without an intent, amount guard |
| Webhooks.BillingService.ApplyIntentEffect | src/modules/webhooks/webhooks.service.ts:145-212 | the effect of each purpose, and failures |
| Webhooks.BillingService.ApplyLifecycleOnly | src/modules/webhooks/webhooks.service.ts:219-242 | the resolved status, and the voided invoice of a refund |
| Webhooks.BillingService.Cancel | src/modules/billing/billing.service.ts:501-517 | CANCELED with the period end as effective date, from any status |
| Webhooks.BillingService.Reactivate | src/modules/billing/billing.service.ts:524-545 | succeeds iff CANCELED with its date ahead |
| Webhooks.BillingService.SelectPlan | src/modules/onboarding/onboarding.service.ts:52-77 | an existing subscription, in any status, gets plan, cycle and PENDING and keeps dates and slots; a new one is PENDING for 30 days; an unknown plan changes nothing |
| Webhooks.FindIntent | src/modules/webhooks/webhooks.service.ts:95-98 | the first matching intent, or none iff none matches |
| Webhooks.LastPaid | src/modules/webhooks/webhooks.service.ts:227-231 | a PAID invoice of the subscription with the latest issue date, or none iff there is none |
| Webhooks.RepeatsDoNothing | src/modules/webhooks/webhooks.service.ts:65-86 | any run equals the run of first deliveries, other calls interleaved |
| Webhooks.FirstOnlyIsOnce | src/modules/webhooks/webhooks.service.ts:68-77 | that run delivers each event id at most once, and none seen before |
| Webhooks.StepBooks | src/modules/webhooks/webhooks.service.ts:145-260 | each operation changes a subscription's invoice count, amount and PAID count by exactly its charge and its effective refund |
| Webhooks.LedgerBalances | src/modules/webhooks/webhooks.service.ts:145-260 | over any run: one invoice per accepted success event, amounts summing to the intents' expected amounts, PAID invoices those less the effective refunds |
| Webhooks.PeriodStep | src/modules/webhooks/webhooks.service.ts:32-42 | only charged renewals and activations move the period end: by 30 or 365 days from the later of now and the old end, or from now out of PENDING; only a selection changes the cycle |
| Webhooks.PendingComesFromSelection | src/modules/onboarding/onboarding.service.ts:62-76 | a subscription outside PENDING is put back exactly by the selection of a plan |
| Webhooks.StackedIsLargest | src/modules/webhooks/webhooks.service.ts:34-37 | stacked extensions of any lengths P_j equal max(e0 + sum P_j, max over j of now_j + P_j + ... + P_n) |
| Webhooks.PeriodEndClosedForm | src/modules/webhooks/webhooks.service.ts:166-188 | after any run the period end is that closed form over its account, each period with the length of its own cycle; without a reset the account is the old end and all paid periods |
| Webhooks.LastResetIsTheBase | src/modules/webhooks/webhooks.service.ts:166-176 | with a reset the account starts one period after the last activation from PENDING and holds the periods paid after it |
| Webhooks.NoResetWithoutSelection | src/modules/onboarding/onboarding.service.ts:62-76 | from outside PENDING no activation resets the period until a plan is selected |
| Webhooks.NoPaidPeriodIsLost | src/modules/webhooks/webhooks.service.ts:34-42 | without a reset the end is at least the old end plus every period paid in the run |
| Webhooks.EndMovesBackIff | src/modules/webhooks/webhooks.service.ts:164-176 | a step moves the end back iff it is an activation that finds the subscription PENDING with more than one period left |
| Webhooks.EndNeverMovesBackIff | src/modules/webhooks/webhooks.service.ts:164-176 | over any run the end never moves back iff no activation does so |
| Webhooks.SelectionDropsPaidTime | src/modules/onboarding/onboarding.service.ts:62-76 | selecting a plan and paying its activation sets the end to one period from now, whatever was left: 270 of 300 days are lost from yearly to monthly |
| Webhooks.EntitlementsHaveCauses | src/modules/webhooks/webhooks.service.ts:189-210 | over any run the slots gained are the charged overflow intents, and the plan is that of the last charged upgrade or plan selection |
| Webhooks.PlanPaidThroughoutIff | src/modules/onboarding/onboarding.service.ts:62-76 | at every point of a run the plan is the first one or that of the last charged upgrade iff no selection names another plan than the current one |
| Webhooks.StatusChangesHaveCauses | src/modules/webhooks/transition.ts:11-45 | CANCELED comes from `cancel` only, PAST_DUE only from a setback while ACTIVE, ACTIVE only from a verified success or a reactivation, PENDING exactly from a plan selection |
| Webhooks.StatusStep | src/modules/webhooks/webhooks.service.ts:91-242 | the exact status after any operation, from the operation, its event and the status before |
| Webhooks.ChargeActivates | src/modules/webhooks/webhooks.service.ts:166-209 | a charged activation or renewal, and a charged upgrade with a target plan, end ACTIVE from every status; any other charge leaves the status |
| Webhooks.SetbackHasEffect | src/modules/webhooks/transition.ts:30-41 | a first failure, dispute or refund ends an ACTIVE subscription PAST_DUE and leaves any other status |
| Webhooks.SuccessWithoutIntent | src/modules/webhooks/transition.ts:16-28 | a first success resolved without an intent ends ACTIVE exactly from the statuses of the table, and writes no invoice |
| Webhooks.ChargesIff | src/modules/webhooks/webhooks.service.ts:91-160 | a first success event charges the intent it resolves to iff its subscription exists and the event reports no other amount |
| Webhooks.IntentIsNamedFirst | src/modules/webhooks/webhooks.service.ts:95-98 | the first intent with the id the event names, or, if it names none, with its provider reference |
| Webhooks.SubjectIs | src/modules/webhooks/webhooks.service.ts:100-119 | the subscription of the intent, or the one the event names if no intent matches |
| Webhooks.IntentStep | src/modules/webhooks/webhooks.service.ts:122-160 | a resolved intent ends SUCCEEDED if charged and FAILED otherwise, a new one starts CREATED, all others stay |
| Webhooks.InvoiceStep | src/modules/webhooks/webhooks.service.ts:219-260 | a charge adds one PAID invoice of the expected amount, issued at the delivery; a refund voids the latest issued PAID one; nothing else touches invoices |
| Webhooks.CallStep | src/modules/billing/billing.service.ts:501-545 | what cancel, reactivate, plan selection and the tombstone leave of the subscription they name, and that they leave everything else |
| Webhooks.OutsidePendingUnpaidIff | src/modules/billing/billing.service.ts:501-511 | without a verified success, from any status, a run ends outside PENDING iff some cancellation has no plan selection after it, or it started outside and no plan was selected |
| Webhooks.ActiveUnpaidIffReopened | src/modules/billing/billing.service.ts:501-545 | over any run from PENDING without a verified success: ACTIVE at some point iff a cancellation is followed by a reactivation before the period end with no plan selected in between |
| Webhooks.SelectedPlanActiveUnpaidIff | src/modules/onboarding/onboarding.service.ts:62-76 | after selecting a plan from any status, with no other selection and no verified success: ACTIVE at some point under the same condition, and the plan is the selected one |
| Webhooks.UnpaidPlan | src/modules/billing/billing.service.ts:501-545 | selecting, canceling and reactivating gives the selected plan, no invoice, and ACTIVE iff the period has not ended |
| Webhooks.CancelThenReactivate | src/modules/billing/billing.service.ts:501-545 | canceling and at once reactivating, from any status, writes no invoice and gives ACTIVE iff the period has not ended |
| Webhooks.OnlyTombstonesAreUndated | src/modules/settings/settings.service.ts:547-556 | a CANCELED subscription without effective date was so at the start or was created in the run as the tombstone's |
| Webhooks.DeliveryTouchesOnlyItsSubject | src/modules/webhooks/webhooks.service.ts:91-139 | a delivery changes no other subscription or ledger and at most one intent |
| Webhooks.MismatchOnlyFailsTheIntent | src/modules/webhooks/webhooks.service.ts:122-136 | a success reporting another amount fails its intent and does nothing else |
| Proration.QuoteBounds | src/lib/proration.ts:35-58 | refused iff the period is over; else the started days that are left, at most the 30 or 365 of the period, for the whole amount nearest to the exact share, at most the price |
| Proration.QuoteMonotone | src/lib/proration.ts:35-58 | the amount grows with the price and with the time left |
| Proration.TwoHopsCostTheSame | src/modules/billing/billing.service.ts:276-292 | two upgrades to dearer and dearer plans quoted at one instant and cycle differ from the direct one by at most one minor unit |
| Proration.OnlyUpgradesAreCharged | src/modules/billing/billing.service.ts:257-292 | a plan change is quoted iff the target costs more in the asked cycle, or else the own one, and the period is open: the nearest share of the difference for the days left; every refusal has its error |
| Proration.OverflowIsChargedAtTheLimit | src/modules/billing/billing.service.ts:178-203 | an extra slot is quoted iff the family is at its limit and the period is open: the nearest share of the price for the days left of the own cycle, the price for a whole period; every refusal has its error |
| Homework.HomeworkService.ApplyHomeworkEvent | src/modules/homework/homework.service.ts:53-76 | the matched item moves by the pure transition, and nothing else |
| Homework.HomeworkService.SweepOverdueHomework | src/modules/homework/homework.service.ts:106-115 | late unfinished items become OVERDUE and are counted |
| Homework.HomeworkService.CreateHomework | src/modules/homework/homework.service.ts:133-155 | a new item is PENDING, or OVERDUE iff its deadline has passed; a foreign child is refused |
| Homework.FindReferred | src/modules/homework/homework.service.ts:82-87 | the referred item, only if of the event's family and child |
| Homework.FindEarliest | src/modules/homework/homework.service.ts:89-98 | an unfinished match with the earliest deadline, or none iff there is none |
| Homework.MatchIsMostUrgent | src/modules/homework/homework.service.ts:78-99 | an event is about an item it names before any other, else about an unfinished one of its child, subject and topics with the earliest deadline; about none iff there is none |
| Homework.StartMovesPending | src/modules/homework/homework.service.ts:35-37 | a start moves the item it is about from PENDING to IN_PROGRESS and does nothing else |
| Homework.CompletionEndsItem | src/modules/homework/homework.service.ts:39-42 | a completion ends the item it is about unless that is done: in time if it occurred by the deadline and the item was not OVERDUE, late otherwise |
| Homework.StepClimbs | src/modules/homework/homework.service.ts:26-43 | every change of an item strictly climbs PENDING, IN_PROGRESS, OVERDUE, completed, and touches only the status |
| Homework.AtMostThreeChanges | src/modules/homework/homework.service.ts:26-115 | over any run an item changes at most three times |
| Homework.CompletingStep | src/modules/homework/homework.service.ts:39-42 | a step completes an unfinished item in time, or late, iff it is a matched completion with the corresponding times |
| Homework.CompletionHasWitness | src/modules/homework/homework.service.ts:39-42 | a COMPLETED item was completed by a matched event that occurred in time while it was not OVERDUE; a COMPLETED_LATE one otherwise |
| Homework.CompletingEventIsTheOwners | src/modules/homework/homework.service.ts:78-99 | the event that completes an item is of its family and child |
| Homework.NeverOverdueBefore | src/modules/homework/homework.service.ts:26-43 | an item below OVERDUE had never been OVERDUE before |
| Homework.EventTouchesOneOwnItem | src/modules/homework/homework.service.ts:78-99 | an event changes at most one item, of its own family and child |
| Homework.SweepMovesTheLate | src/modules/homework/homework.service.ts:106-110 | the sweep makes exactly the unfinished items past their deadline OVERDUE and leaves the others; running it again moves nothing |
| Homework.OverdueIffBrought | src/modules/homework/homework.service.ts:106-155 | after any run an unfinished item is OVERDUE iff it started so, was created after its deadline, or a sweep ran after its deadline |
| Homework.InTimeCountsLateIffOverdue | src/modules/homework/homework.service.ts:39-42 | after any run a matched completion that occurred in time yields COMPLETED_LATE iff one of those three brought the item to OVERDUE |
| Homework.SweepBeforeCompletionMakesLate | src/modules/homework/homework.service.ts:41 | an example: the same sweep and the same in-time completion give COMPLETED or COMPLETED_LATE by their order |
| Progress.ProgressService.LevelUp | src/modules/progress/progress.service.ts:49-54 | the loop ends with levelXp below the span and the quotient added to the level |
| Progress.ProgressService.DeriveFromSession | src/modules/progress/progress.service.ts:32-82 | rows and alerts are those of the derivation function |
| Progress.ProgressService.UpsertSubjectProgress | src/modules/progress/progress.service.ts:90-130 | the subject row after one more mastery |
| Progress.ProgressService.UpsertTopicProgress | src/modules/progress/progress.service.ts:132-149 | the topic's mastery is set and its flag kept |
| Progress.ProgressService.ApplyStruggle | src/modules/progress/progress.service.ts:157-224 | counter, flag, alert stamp and alert of one touch |
| Progress.RunCredits | src/modules/progress/progress.service.ts:48-66 | after any run a child's snapshot is the one of earning the total at once |
| Progress.LevelsConserveXp | src/modules/progress/progress.service.ts:48-54 | totals grow by the XP and minutes of the child's events, level * 1000 + levelXp - totalXp never changes, and from a fresh child level = 1 + totalXp / 1000 |
| Progress.SnapshotsIgnoreOrder | src/modules/progress/progress.service.ts:48-66 | snapshots do not depend on the order of events |
| Progress.RunTracks | src/modules/progress/progress.service.ts:157-224 | the tracker and the alerts of a topic are those of its touches in order, a repeated topic counting twice |
| Progress.StruggleCounterIsTheTrailingRun | src/modules/progress/progress.service.ts:165-207 | from an empty tracker the counter is the trailing run of lows, and alerts number one iff some run of lows was long enough, else none |
| Progress.TouchAgreesIff | src/modules/progress/progress.service.ts:184-199 | one touch keeps flag and counter in agreement iff it does not take the counter across the threshold under another subject |
| Progress.RunAgreesIff | src/modules/progress/progress.service.ts:157-199 | over any run: flag and counter agree after every touch iff no touch of the name under another subject crosses the threshold while the row exists |
| Progress.TwoSubjectsDisagree | src/modules/progress/progress.service.ts:184-199 | from a store without topic rows, enough lows under one subject and one good mastery under another leave the flag set with the counter at zero |
| Progress.FlagFollowsCounter | src/modules/progress/progress.service.ts:132-199 | when every event that touches a child's topic name has the row's subject, `struggling` holds iff the counter is at the threshold, after every touch and at the end |
| Progress.SubjectReflectsRun | src/modules/progress/progress.service.ts:90-130 | a subject row shows the last mastery, whether it is above or below the one before, and the last twelve of all masteries |
| Progress.AverageIsNearestMean | src/modules/progress/progress.service.ts:84-88 | an event's mastery is the whole number nearest to the mean over its topics, unreported ones counting 0 |
| Progress.AlertsAreOfTheEvent | src/modules/progress/progress.service.ts:200-224 | every alert carries its event's family, child and time and names one of its topics that is below the threshold |
| Progress.LastStudiedIsLastProcessed | src/modules/progress/progress.service.ts:96-129 | a subject row carries the time of the last event processed for it, whatever its time |
| Progress.TopicShowsLastReported | src/modules/progress/progress.service.ts:132-149 | a topic row exists once a mastery was reported for it and shows the last one |
| Progress.AverageIsAPercentage | src/modules/progress/progress.service.ts:84-88 | the average stays between 0 and 100 |
| SessionEvents.SessionEventService.ProcessSessionEvent | src/modules/sessionEvents/sessionEvents.service.ts:34-105 | the result of each delivery, and the state as a function of it |
| SessionEvents.SessionEventService.ApplyDerivations | src/modules/sessionEvents/sessionEvents.service.ts:108-126 | started and completed events reach homework, abandoned ones do not |
| SessionEvents.RunIsFoldOverFirsts | src/modules/sessionEvents/sessionEvents.service.ts:61-87 | whatever repeats, fails, lacks consent or dies, the state is the fold over the first accepted occurrence of each event |
| SessionEvents.EntersLedgerIff | src/modules/sessionEvents/sessionEvents.service.ts:34-78 | an event enters the ledger iff a delivery of it is well formed in every field, has consent or needs none, and commits; otherwise nothing changes |
| SessionEvents.DeliveryMovesHomework | src/modules/sessionEvents/sessionEvents.service.ts:107-126 | a committed delivery, by its outcome: started moves the item it is about from PENDING to IN_PROGRESS, completed ends it in time or late, abandoned does nothing; a named item comes first, then the most urgent |
| SessionEvents.CompletedHasCompletedSession | src/modules/sessionEvents/sessionEvents.service.ts:107-126 | over any run an item that becomes COMPLETED has a distinct completed session of its family and child by its deadline; one that becomes COMPLETED_LATE has a completed session |
| SessionEvents.DeliveryHandsOver | src/modules/sessionEvents/sessionEvents.service.ts:89-102 | a delivery that reaches its end hands over its alerts and goal reminders in one call unless it has neither; any other hands over nothing |
| SessionEvents.FirstsAreDistinct | src/modules/sessionEvents/sessionEvents.service.ts:63-78 | those occurrences carry distinct, new ids |
| SessionEvents.SnapshotsDependOnDistinctEvents | src/modules/sessionEvents/sessionEvents.service.ts:61-87 | XP, level and minutes depend only on which distinct events were processed |
| SessionEvents.HomeworkClimbsThroughRun | src/modules/sessionEvents/sessionEvents.service.ts:107-126 | homework is the run of the distinct events and sweeps, so an item changes at most three times |
| SessionEvents.HandedOverOnce | src/modules/sessionEvents/sessionEvents.service.ts:94-102 | the dispatcher is called at most once per event, and only for processed events |
| SessionEvents.HandsOverAlertsOfFirsts | src/modules/sessionEvents/sessionEvents.service.ts:94-102 | alerts handed over are at most those the distinct events raise, and all of them if no delivery dies between commit and dispatch |
| SessionEvents.ParentAlertedOnce | src/modules/sessionEvents/sessionEvents.service.ts:34-105 | end to end a parent is alerted about a topic at most once, only after a long enough run of lows, and exactly then if no delivery dies |
| ReminderRollup.ReminderService.MergeFamilyReminderConfigs | src/lib/reminders.ts:199-241 | the grouping and reducing loops compute the roll-up |
| ReminderRollup.ReminderService.UpdateReminder | src/modules/dashboard/dashboard.service.ts:475-531 | the write over all live children, then the fresh list; an unknown slug changes nothing |
| ReminderRollup.ReminderService.GetReminderConfig | src/modules/dashboard/dashboard.service.ts:447-457 | the roll-up of some listing of the family's rows |
| ReminderRollup.EntrySummarises | src/lib/reminders.ts:209-240 | an entry is on iff some row is, and shows the row with the lowest child id, or the defaults |
| ReminderRollup.MergeIgnoresOrder | src/lib/reminders.ts:194-198 | the list is the same for every permutation of rows with unique child and type |
| ReminderRollup.BeforeIsTotal | src/lib/reminders.ts:216 | child ids are totally ordered by string comparison |
| ReminderRollup.BeforeIsDictionaryOrder | src/lib/reminders.ts:216 | the first differing character decides, and a prefix comes first |
| ReminderRollup.FindSlug | src/lib/reminders.ts:140-142 | the type with that slug, or none iff no type has it |
| ReminderRollup.EnabledReadsBackIff | src/modules/dashboard/dashboard.service.ts:475-531 | a switch reads back as written iff: on, there is a live child or a stale row is on; off, no stale row is on |
| ReminderRollup.SettingsReadBack | src/modules/dashboard/dashboard.service.ts:497-515 | with a live child and no stale row of the type below the lowest one, the list shows that child's settings with exactly the given keys overridden, and its recipient |
| ReminderRollup.WriteIsShownIff | src/modules/dashboard/dashboard.service.ts:495-531 | the row written for the lowest live child is the one the list shows iff no stale row of the type sorts below that child |
| ReminderRollup.SettingsShown | src/modules/dashboard/dashboard.service.ts:495-531 | which settings the list shows in both cases: the written ones, or those of the lowest stale row |
| ReminderRollup.WriteIsShownOrHidden | src/modules/dashboard/dashboard.service.ts:488-531 | the same for every family: without a live child the write does nothing, else one of the two cases holds for its lowest live child |
| ReminderRollup.UpdateKeepsCoherent | src/modules/dashboard/dashboard.service.ts:512-527 | the write keeps rows with their child's family |
| ReminderRollup.WriteOverridesOnlyWhatIsGiven | src/modules/dashboard/dashboard.service.ts:495-527 | a live child's row gets the switch if one is given and the given keys of the settings and keeps all else; a missing row is created off unless switched on; every other row stays |
| ReminderRollup.DefaultAddressees | src/lib/reminders.ts:55-135 | whom each type addresses by default |
| ReminderRollup.StaleRowHidesSettings | src/modules/dashboard/dashboard.service.ts:447-457 | when the lowest stale row is below every live child, the list shows its settings and recipient as they were before the write |
| ReminderRollup.OtherEntriesUnchanged | src/modules/dashboard/dashboard.service.ts:475-531 | other types and other families read as before |
| ReminderRollup.UpdateTwice | src/modules/dashboard/dashboard.service.ts:495-527 | writing the same change twice is writing it once |

## Left out

- Routes, controllers, middleware, input schemas other than the session event's, configuration and health checks: plumbing.
- Signing and hashing, storage, mail, push, queues and their retries: only the accepted, failed and exhausted outcomes appear.
- Races inside `rotateRefresh`, `buildAndDispatch` and between a slot check and the write that follows it.
- Dashboard mapping, display strings, seed data, rewards, data exports, invitations, registration and login: no state machine of their own here; goal reminders are a given list. Of onboarding, plan selection is modelled (`Webhooks.BillingService.SelectPlan`, `PurgeSweeps.PlanSelected`); the resume step is not.
- `loginParent`, `loginChild` and account creation issue sessions through the same call and are not modelled separately.
- The self-reference of sessions (`replacedById`, set null on delete) is not a column of the purge's database; a lineage lies in one family (`SessionLineage.LineageHasOneOwner`), so a purge takes it whole or not at all.
- The ledgers of processed session events and webhook events carry ids without foreign keys and are kept by every purge; they are not rows of the purge's database.
- The loops of `purgeDueDeletedFamilies` and `purgeDueCanceled` are sequences of the transactions `PurgeFamily` and `PurgeSubscription`; only the scan and the loop over children are written out.
- PurgeDatabase.Database.PurgeFamilyTx: for the tombstone family it covers only the case that it is not due; no caller can mark it (`PurgeSweeps.NamesTombstone`), it starts unmarked, and then stays so (`PurgeSweeps.TraceKeepsTombstoneUnmarked`). `PurgeSweeps.Step` has no step for a purge of a tombstone that is due.
- PurgeSweeps.StepKeepsSound: one `mark` per row stands for the purge deadline of a child, subscription or family and for `revokedAt` of a session; the other columns of a row that no purge reads are not part of it.
- FamilyIsolation.PurgeTakesOnlyItsFamily: consents that name a child go with the child before the retention step, as the code has it, so the law keeps only those that name none.
- Webhooks.PendingComesFromSelection: does not promise that PENDING is left for good, because plan selection brings it back.
- Webhooks.PeriodEndClosedForm: does not promise that the end outside PENDING covers every period paid before; it does without a reset (`Webhooks.NoPaidPeriodIsLost`), and a plan selection can lead to one.
- Webhooks.EntitlementsHaveCauses: does not promise that the plan was paid for, because a selection changes it without a charge (`Webhooks.PlanPaidThroughoutIff`).
- Webhooks.LedgerBalances: subscription purges are not steps of that machine, so invoices are never removed there.
- Purges of rows in tables no purge names (plans) and the plan a subscription moves to on an upgrade: a target plan is taken to exist.
- Proration.QuoteBounds: the quotient is exact; the original divides in floating point, which agrees for amounts far below 2^53.
- ReminderRollup.MergeIgnoresOrder: rows always carry a child id, as every caller supplies it; settings are absent or an object.
- Progress.FlagFollowsCounter: topic rows are identified by subject and name; duplicates inserted outside this service would be updated together by the original.
