# After-school pickup server: a verified model

The server runs an after-school programme: staff collect children from school,
mark each child's status, and the system tells the parents. This project models
the parts of it whose rules span many calls, in the form the server has them,
and proves what those rules add up to over every run.

- **Pickup store** (`PickupModel`, `PickupSpec`, `PickupStore`, `PickupRuns`).
  `PickupStore.MemoryStore` is the in-memory store, a class whose methods edit its
  lists in place; each is proved equal to a function of the old state in
  `PickupSpec`. `PickupRuns.Run` is any sequence of calls by anybody. About all
  runs: the event log explains every member (`PickupHistory`), ids
  (`PickupLedger`), events, notifications and outbox rows in step
  (`PickupConservation`), the batch as a sequence of marks (`PickupBatch`),
  finishing (`PickupFinish`), what parents are told (`PickupMessages`), when each
  call is accepted (`PickupAnswers`), that organizations are apart
  (`PickupTenants`), hand-overs (`PickupHandover`), parents' changes applied at
  start (`PickupStart`), and the same while staff go on working
  (`PickupStartRaces`).
- **Outbox dispatchers** (`Dispatcher`, `DispatcherSafety`, `DispatcherRuns`,
  `DispatcherStory`, `DispatcherBatches`). A worker's work is cut at its store
  calls, and the steps of any number of workers interleave with each other and
  with all business calls. `Global.sends` is the history of accepted messages;
  the last two modules tell from the actions of a run whom a notification reached,
  what a batch took up and how long a failed delivery waits. `Dispatcher.NotificationDispatcher` is the
  server's loops in place, proved to take exactly those steps. A worker that dies
  is one that takes no further step, so the safety results hold with dead workers
  too, wherever they died.
- **Weekly schedules and the daily generator** (`Schedules`, `MasterData`,
  `Generator`, `GeneratorRules`, `GeneratorRosters`), **notification pages**
  (`Paging`), **approval of child applications** (`ParentStore`, `Approval`,
  `ApprovalOutcome`, `ApprovalRuns`), **homework** (`Homework`), **invitations**
  (`Invites`).
- **UTF-8 polyfill** of the mini-program (`Utf8`), against RFC 3629, section 4. Its
  methods use the polyfill's own shifts, masks and ors; `Bits` defines those bit by
  bit and relates them to the arithmetic of the reference definitions.

The results are told in the records' own terms: statuses, classes, names, dates
and organizations are written out in them, not taken from the tests the code makes.

Where the code behaves otherwise than its names suggest, the model follows the
code. `RetryNotification` and the claim treat a failed row alike, so a dispatcher
also takes failed rows up again without a retry. A dispatcher counts the attempts
a row had when it was listed, so a row that another one served in between can get
an attempt more than the limit. An invitation's last use already
marks it exhausted, so the "exhausted" error can never be seen by a caller
(`Invites.ExhaustionIsNeverReported`).

Times are natural numbers, days are integers counted from 0001-01-01, ids are
natural numbers. Results of reads from outside a store (the clock, the accounts
and subscriptions a dispatcher sees, whether WeChat accepts a message) are inputs
of the model and range over everything.

## Model

| member | source | states |
|---|---|---|
| PickupStore.MemoryStore.constructor | server/internal/modules/pickup/memorystore.go:27 | a new store is empty and its next id is 1 |
| PickupStore.MemoryStore.NewId | server/internal/modules/pickup/memorystore.go:29-33 | hands out the next id and moves on by one; nothing else changes |
| PickupStore.MemoryStore.CreateOperation | server/internal/modules/pickup/memorystore.go:58-87 | refuses a second live operation of the class that day and an empty roster; otherwise a draft with its planned details, and one planned member per distinct nonzero student |
| PickupStore.MemoryStore.EnrolMembers | server/internal/modules/pickup/memorystore.go:72-82 | the roster becomes planned members with consecutive ids, after the members there were |
| PickupStore.MemoryStore.SetOperationStatus | server/internal/modules/pickup/memorystore.go:89-115 | starts a draft or confirmed operation; finishes a started one, and then each of its members is self-arrived, picked up by its parents, on leave, absent, arrived, left or left midway; anything else is refused and changes nothing |
| PickupStore.MemoryStore.ConfirmOperation | server/internal/modules/pickup/memorystore.go:117-141 | only a draft is confirmed; it gets its executing teacher and role, who confirmed it, the expected time, and new notes if there are any |
| PickupStore.MemoryStore.HandoffOperation | server/internal/modules/pickup/memorystore.go:143-165 | only a started operation, to a named teacher; appends a hand-over from the teacher so far to the new one |
| PickupStore.MemoryStore.AddOperationStudent | server/internal/modules/pickup/memorystore.go:200-222 | adds a planned member unless the operation is over or already lists the student |
| PickupStore.MemoryStore.CompleteProfile | server/internal/modules/pickup/memorystore.go:224-240 | clears the pending-profile mark of a temporary member and of nobody else |
| PickupStore.MemoryStore.AppendEvent | server/internal/modules/pickup/memorystore.go:278-279 | one event with the next id, carrying the member's photo |
| PickupStore.MemoryStore.AppendNotification | server/internal/modules/pickup/memorystore.go:280-283 | a pending notification and, under the id after it, its pending outbox row |
| PickupStore.MemoryStore.MarkStudent | server/internal/modules/pickup/memorystore.go:242-290 | on a started operation, a legal status change edits the member and appends event, notification and row; the same status only attaches a new photo; every refusal changes nothing |
| PickupStore.MemoryStore.BulkArrive | server/internal/modules/pickup/memorystore.go:292-356 | all the distinct students arrive, and their members are returned, or, when one of them cannot, nothing changes |
| PickupStore.MemoryStore.MemberTable | server/internal/modules/pickup/memorystore.go:309-315 | the table names, for each student of the operation, the last matching member, and no other student |
| PickupStore.MemoryStore.CheckBatch | server/internal/modules/pickup/memorystore.go:316-326 | the refusal is that of the first student that is missing or cannot arrive |
| PickupStore.MemoryStore.ArriveEach | server/internal/modules/pickup/memorystore.go:328-347 | the accepted students change in order, those already arrived are left alone |
| PickupStore.MemoryStore.CorrectEvent | server/internal/modules/pickup/memorystore.go:374-417 | needs a valid status, a reason, a live operation and a recorded event; sets the member and appends a correction, its notification and row |
| PickupStore.MemoryStore.CreateNotifications | server/internal/modules/pickup/memorystore.go:464-485 | one pending notification and one pending row per request, in order, texts trimmed; the new notifications are returned |
| PickupStore.MemoryStore.MarkRead | server/internal/modules/pickup/memorystore.go:647-660 | sets the read time of one notification |
| PickupStore.MemoryStore.SetNotice | server/internal/modules/pickup/memorystore.go:625-645 | replaces the delivery fields and the error text of one notification |
| PickupStore.MemoryStore.ListOutbox | server/internal/modules/pickup/memorystore.go:487-507 | the first rows, at most the limit, that are pending or failed, due and not freshly locked |
| PickupStore.MemoryStore.Claim | server/internal/modules/pickup/memorystore.go:509-524 | true exactly when the row was pending or failed, which then is processing with one attempt more |
| PickupStore.MemoryStore.CompleteRow | server/internal/modules/pickup/memorystore.go:526-549 | gives a row its new status and error text, unlocks it and sets when it is next due |
| PickupStore.MemoryStore.OpenLog | server/internal/modules/pickup/memorystore.go:551-563 | the log of (notification, account, kind, template) if there is one, otherwise a new pending one |
| PickupStore.MemoryStore.SetLog | server/internal/modules/pickup/memorystore.go:565-580 | replaces status, attempts, times and error text of one delivery log |
| PickupStore.MemoryStore.Retry | server/internal/modules/pickup/memorystore.go:596-623 | only a failed row; row and notification both become pending with no attempts |
| PickupStore.MemoryStore.CreateRequest | server/internal/modules/pickup/memorystore.go:662-677 | refuses a second pending request of the child for the day; otherwise a pending request |
| PickupStore.MemoryStore.ReviewRequest | server/internal/modules/pickup/memorystore.go:693-712 | a pending request is approved or rejected, once |
| PickupHistory.RunKeepsHistory | server/internal/modules/pickup/memorystore.go:242-417 | the invariant from which the replay results follow holds after every run |
| PickupHistory.ReplayExplainsMembers | server/internal/modules/pickup/memorystore.go:242-417 | folding a member's events in order from `planned` gives its status, photo and check time |
| PickupHistory.EveryEventIsLegal | server/internal/modules/pickup/store.go:32-50 | in every run each event is a legal step: the log before it replays, a mark keeps the status or follows one of the eighteen edges listed in the module, a correction comes after another event of its member |
| PickupHistory.LastEventCarriesPhoto | server/internal/modules/pickup/memorystore.go:263-279 | a member's last event carries the photo it shows now |
| PickupHistory.UntouchedBeforeStart | server/internal/modules/pickup/memorystore.go:89-108 | until an operation starts its members are planned and have no events |
| PickupHistory.OneMemberPerStudent | server/internal/modules/pickup/memorystore.go:200-222 | (operation, student) is unique among members in every run |
| PickupLedger.EveryIdOnce | server/internal/modules/pickup/memorystore.go:29-33 | in every run each id below the next one is on exactly one record of the eight lists, and each list is in ascending id order |
| PickupBatch.BulkArriveRefinesMarks | server/internal/modules/pickup/memorystore.go:292-372 | the batch gives the answer, members returned included, and, when accepted, exactly the members, events, notifications, rows and ids of marking the distinct students one by one; refused, it changes nothing |
| PickupConservation.RunConserves | server/internal/modules/pickup/memorystore.go:242-485 | for every id, the notifications naming it are the announced events with it plus those callers named themselves |
| PickupConservation.EventsAreAnnouncedOnce | server/internal/modules/pickup/memorystore.go:242-417 | a status change or correction is named by exactly one notification, of its child and operation; a same-status photo event by none |
| PickupConservation.NoticesHaveOneRow | server/internal/modules/pickup/memorystore.go:720-722 | in every run a notification has an outbox row, the one at its own position, and no second one |
| PickupMessages.ParentsAreToldWhatWasRecorded | server/internal/modules/pickup/memorystore.go:242-417 | in every run a status change or correction is told by one notification and no other: of the child's own name and operation, with the recorded status and, of a correction, its reason |
| PickupAnswers.OperationIsMadeWhen | server/internal/modules/pickup/memorystore.go:58-87 | in every run an operation is made exactly when the class has none that day that is not cancelled and the roster names somebody; its members are the roster's distinct nonzero students, each once, planned, under the name first listed |
| PickupAnswers.OperationMovesWhen | server/internal/modules/pickup/memorystore.go:89-165 | in every run: started from draft or confirmed, confirmed from draft, handed over while started to a named teacher, and no status but started and finished can be asked for |
| PickupAnswers.ConfirmationSays | server/internal/modules/pickup/memorystore.go:117-141 | in every run a confirmation puts teacher, role, confirmer, time and notes on the operation it names and changes no other |
| PickupAnswers.StudentIsAddedWhen | server/internal/modules/pickup/memorystore.go:200-222 | in every run a child is added exactly when the operation is there and not over, the child is named and not listed yet |
| PickupAnswers.MarkIsTakenWhen | server/internal/modules/pickup/memorystore.go:242-290 | in every run a mark is accepted exactly when the operation is started and the child's status is one from which a table written out there leads to the new one, which it then has; refused, nothing changes |
| PickupAnswers.BatchIsTakenWhen | server/internal/modules/pickup/memorystore.go:292-356 | in every run a batch is accepted exactly when the operation is started, somebody is named and each named child is picked up, self-arrived, not arrived, abnormal or arrived |
| PickupAnswers.CorrectionIsTakenWhen | server/internal/modules/pickup/memorystore.go:374-417 | in every run a correction is accepted exactly when its event is recorded, the operation not cancelled, a reason given and the status a real one |
| PickupAnswers.RequestIsFiledWhen | server/internal/modules/parent/handler.go:2246-2293 | a request is filed exactly when it asks for one of the four statuses, with a note, and no other waits for the child and day; it goes under the first operation of the day that lists the child |
| PickupAnswers.RequestIsDecidedWhen | server/internal/modules/pickup/memorystore.go:693-712 | in every run a decision is taken exactly about a request still open, and changes no other request |
| PickupAnswers.RetryIsTakenWhen | server/internal/modules/pickup/memorystore.go:596-623 | in every run a retry is accepted exactly when the notification's row failed; row and notification then wait, unattempted, and no others change |
| PickupTenants.OrganizationsAreApart | server/internal/modules/pickup/memorystore.go:58-712 | whatever calls other organizations make, in any order and from any state, the records of an organization are the same before and after, none added and none gone |
| PickupFinish.InspectStudent | server/internal/modules/pickup/handler.go:970-992 | the loop's body turns the right view of the children looked at so far into the right view of one child more, in every part of it |
| PickupFinish.BuildCloseView | server/internal/modules/pickup/handler.go:936-994 | pending are exactly the operation's children whose status is none of the seven settled ones, in store order; each exception, blocker and warning is listed, the counters count, and `CanFinish` means started with nobody pending |
| PickupFinish.FinishIffCanFinish | server/internal/modules/pickup/handler.go:936-994 | in every run finishing succeeds exactly when the check says `CanFinish`, exactly when it lists no blocker, and exactly when the operation is started and no member of it is planned, picked up, not arrived or abnormal |
| PickupFinish.PendingAreStillOut | server/internal/modules/pickup/handler.go:970-975 | in every run the pending list is the planned, picked-up, not-arrived and abnormal children of the operation, in store order |
| PickupFinish.CheckTells | server/internal/modules/pickup/handler.go:970-992 | an exception, warning or child's blocker is listed exactly when some child of the operation is in the state it names |
| PickupFinish.CheckCounts | server/internal/modules/pickup/handler.go:976-984 | the counters are the numbers of children picked up without a photo and of children with a pending profile |
| PickupFinish.FinishReachable | server/internal/modules/pickup/store.go:32-59 | from any started operation, one mark per unready member, and no more, makes finishing succeed |
| PickupFinish.FinishedStaysReady | server/internal/modules/pickup/memorystore.go:89-115 | after finishing, every member is ready in every further run that corrects no event of that operation |
| PickupHandover.OneLiveOperationADay | server/internal/modules/pickup/memorystore.go:58-71 | however generators and staff interleave, a class has at most one operation a day that is not cancelled |
| PickupHandover.NoHandoverBeforeStart | server/internal/modules/pickup/memorystore.go:117-165 | an operation not yet started has no hand-over, and a draft names no executing teacher |
| PickupHandover.HandoversFormAChain | server/internal/modules/pickup/memorystore.go:117-165 | in every run, for every operation, the first hand-over starts from the teacher named at its confirmation (none if it was started as a draft), each next one where the previous ended, and the current teacher is the last target |
| PickupStart.SubmitChangeRequest | server/internal/modules/parent/handler.go:2246-2293 | a valid request is filed under the first operation of the day that lists the child, or under none |
| PickupStart.LatestByStudent | server/internal/modules/pickup/handler.go:1214-1228 | the table holds, for each child with an approved request for the operation, the most recently filed one |
| PickupStart.ApplyTable | server/internal/modules/pickup/handler.go:1229-1234 | visits the table in an arbitrary order, each child at most once, marking the requested status, until a mark is refused; every child when none is |
| PickupStart.StartOperation | server/internal/modules/pickup/handler.go:1187-1212 | succeeds exactly when the operation was a draft or confirmed; then each of its children has the status of its latest approved request or is planned, and nobody else has changed |
| PickupStart.RunKeepsRequestsSound | server/internal/modules/parent/handler.go:2246-2293 | every request filed under an operation is for that operation's day and organization, for a member of it, and asks for a status a planned member may take |
| PickupStart.StartAppliesApprovedChanges | server/internal/modules/pickup/handler.go:1187-1235 | in every run, starting succeeds whatever the order of the table, each child of the operation ends with its latest approved request or planned, and nobody else changes |
| PickupStartRaces.WhenRefused | server/internal/modules/pickup/memorystore.go:242-262 | a mark for a request is refused exactly when the operation is no longer going on or the child's status admits no such step |
| PickupStartRaces.StartAmidOtherCalls | server/internal/modules/pickup/handler.go:1187-1235 | with any calls between the start, the reading of the requests and each mark: a child nobody else touches ends with its latest approved request's status or planned, and if nobody else touches a child of the table the handler succeeds |
| Dispatcher.NotificationDispatcher.DispatchBatch | server/internal/app/notifications.go:66-87 | takes exactly the protocol's steps of one worker from the listing to the end of one batch, no fewer and no more |
| Dispatcher.NotificationDispatcher.TryRow | server/internal/app/notifications.go:73-85 | one listed row: claimed and dispatched, or passed over |
| Dispatcher.NotificationDispatcher.DispatchOne | server/internal/app/notifications.go:89-116 | from the claim to the closing of the row, exactly the protocol's steps |
| Dispatcher.NotificationDispatcher.Complete | server/internal/app/notifications.go:97-126 | the notification gets its outcome, then the row; sent/processed, pending/pending or failed/failed |
| Dispatcher.NotificationDispatcher.DeliverNotice | server/internal/app/notifications.go:128-194 | the loop over the listed accounts, the first error it meets and its verdict are the protocol's steps |
| Dispatcher.NotificationDispatcher.ServeAccount | server/internal/app/notifications.go:141-173 | one account: already settled, skipped, put off or sent to |
| Dispatcher.NotificationDispatcher.SendTo | server/internal/app/notifications.go:175-181 | the log is set to pending before the message is sent |
| Dispatcher.NotificationDispatcher.ReportSend | server/internal/app/notifications.go:182-191 | the answer is written to the log before the next account |
| DispatcherSafety.DeliverOk | server/internal/modules/pickup/memorystore.go:551-563 | the log a worker opens is the one of its account, kind and template, untouched by every other worker |
| DispatcherSafety.DecideOk | server/internal/app/notifications.go:149-178 | a sent or skipped log is never written to again, and passing an account over leaves it settled |
| DispatcherSafety.ReportOk | server/internal/app/notifications.go:180-191 | an accepted message leaves a log that says sent |
| DispatcherSafety.JobStepOk | server/internal/app/notifications.go:89-194 | a step of the holder of a row touches only that row, its notification and its logs |
| DispatcherRuns.TransmitIsFirst | server/internal/app/notifications.go:175-181 | when a worker is about to send, that message has never been accepted and nobody else is reporting it |
| DispatcherRuns.AloneIsARun | server/internal/app/notifications.go:66-194 | the server's loops are runs of the protocol in which one worker acts alone |
| DispatcherRuns.AtMostOneAcceptedSend | server/internal/app/notifications.go:66-194 | over every interleaving of dispatchers, new notifications and retries, no (notification, account, kind, template) is accepted twice |
| DispatcherRuns.ClaimsAreExclusive | server/internal/modules/pickup/memorystore.go:509-524 | in every reachable state a row is processing exactly when a worker holds it, and never two |
| DispatcherRuns.RestingRowsAgree | server/internal/modules/pickup/memorystore.go:509-549 | outside processing, row and notification are pending and pending, processed and sent, or failed and failed, retries included |
| DispatcherStory.EveryListedParentIsReached | server/internal/app/notifications.go:128-194 | over every interleaving, for each processed row: the holder's last asking for the child's parents was answered with a list, and every parent on it has a log, of the notification's kind and under the template configured then, that says sent, and the message was accepted, or skipped, because the parent was listed without an account bound or had not agreed when asked |
| DispatcherStory.WillingParentsGetTheMessage | server/internal/app/notifications.go:141-191 | so each parent on that list who was never listed unbound and had agreed whenever asked has its message among those accepted |
| DispatcherBatches.ListsDueRows | server/internal/modules/pickup/memorystore.go:487-507 | the listing is the first rows, up to the limit, in store order, of those waiting or failed, due, and not locked within the lease |
| DispatcherBatches.EveryDueRowIsTried | server/internal/app/notifications.go:66-87 | over every interleaving, a worker that ends a batch uncancelled has turned to every such row it listed |
| DispatcherBatches.TryingClaims | server/internal/app/notifications.go:77-85 | turning to a row claims it exactly when it still waits or has failed |
| DispatcherBatches.FailedDeliveriesWaitOrEnd | server/internal/app/notifications.go:106-126 | over every interleaving, a row put back was within its attempts and is due five seconds times the square of the earlier attempts after the failure; a row given up had none left |
| DispatcherRuns.ProcessedIsTerminal | server/internal/modules/pickup/memorystore.go:509-549 | once processed, a row never changes again |
| Schedules.MemoryStore.Create | server/internal/modules/schedule/memorystore.go:64-80 | refuses an invalid plan or one that overlaps an enabled schedule of the class; otherwise appends it under a new id |
| Schedules.MemoryStore.Update | server/internal/modules/schedule/memorystore.go:82-106 | as for creation, against the other schedules and only when it is to be enabled; keeps id and creation time |
| Schedules.OverlapsMeansCommonDay | server/internal/modules/schedule/memorystore.go:108-135 | two valid plans overlap exactly when class and weekday agree and some day lies in both periods |
| Schedules.RunKeepsDisjoint | server/internal/modules/schedule/memorystore.go:64-135 | no run of creates and updates makes two enabled schedules of an organization overlap |
| Schedules.OneDuePerClassAndDay | server/internal/modules/schedule/memorystore.go:64-135 | so at most one schedule is due per organization, class and date |
| Schedules.PlansAreAcceptedWhen | server/internal/modules/schedule/memorystore.go:64-135 | in every run a plan is taken on exactly when it is well-formed and no enabled schedule of the organization has its class on a common day; as an update, when the schedule is there and, if it is to be enabled, no other has |
| MasterData.MemoryStore.ListSchoolClasses | server/internal/modules/masterdata/memorystore.go:93-103 | the organization's classes, in order |
| MasterData.MemoryStore.ListStudents | server/internal/modules/masterdata/memorystore.go:145-155 | the organization's students, in order |
| MasterData.MemoryStore.CreateStudent | server/internal/modules/masterdata/memorystore.go:157-164 | appends an active student under the next id |
| Generator.PickupGenerator.Run | server/internal/modules/schedule/generator.go:35-110 | operations created, schedules skipped, reasons and failure of one pass over the schedules |
| Generator.PickupGenerator.TakeUp | server/internal/modules/schedule/generator.go:64-107 | one schedule: passed by, skipped with the first reason that holds, or made into an operation with the schedule's details |
| GeneratorRules.EachDueScheduleOnce | server/internal/modules/schedule/generator.go:63-109 | every due schedule is exactly once in created or in skipped and no other is in either; only operations and their members are added, no event, notification or row |
| GeneratorRules.ReasonsAreRight | server/internal/modules/schedule/generator.go:63-92 | a skipped schedule carries the reason told from the records: class already served, class not going on, or nobody in it to fetch |
| GeneratorRosters.OperationsAreForTheirClass | server/internal/modules/schedule/generator.go:76-107 | from every reachable state, the members of each operation made are exactly the active students of the schedule's class and, if named, care class, each once, planned, under its own name; the operation is planned as the schedule says |
| GeneratorRosters.NoStudentsMeansNobody | server/internal/modules/schedule/generator.go:63-92 | a due schedule is skipped for lack of students exactly when its class is not served, is going on, and no such student exists |
| GeneratorRules.SecondRunCreatesNothing | server/internal/modules/schedule/generator.go:35-110 | run again on unchanged data, the generator creates nothing and changes nothing |
| GeneratorRules.NothingAlreadyThere | server/internal/modules/schedule/generator.go:53-71 | over the stored schedules on a day without operations, none is skipped as already there |
| GeneratorRules.GenerateIsCreations | server/internal/modules/schedule/generator.go:93-107 | the generator changes the pickup store only by calls of CreateOperation for its organization and day |
| Paging.ListPage | server/internal/modules/parent/handler.go:1974-2026 | a page holds the organization's notifications of the allowed students and the kind asked for below the cursor and no others, newest first, all of them unless it is full; total and unread are the numbers of such notifications; other kinds and limits are refused |
| Paging.FilteredIsPicked | server/internal/modules/parent/handler.go:1998-2013 | the reversed, filtered list has the ids that written-out conditions on organization, student, kind and cursor pick from the log, newest first |
| Paging.CursorCuts | server/internal/modules/parent/handler.go:2009-2024 | continuing below an id that was shown leaves exactly what came after it |
| Paging.PagesShowTheSnapshot | server/internal/modules/parent/handler.go:1988-2025 | following the cursor from 0 ends, and the pages together are the ids of the organization's notifications at the first request whose student is allowed and whose kind is asked for, newest first, each once, whatever arrives in between and whatever the limits |
| ParentStore.MemoryStore.CreateBinding | server/internal/modules/parent/memorystore.go:200-212 | one active binding per parent and student; a second one conflicts |
| ParentStore.MemoryStore.CreateChildApplication | server/internal/modules/parent/memorystore.go:227-258 | a pending application unless the parent has a live one of that name and class |
| ParentStore.MemoryStore.UpdateChildApplication | server/internal/modules/parent/memorystore.go:260-297 | only the parent's own application that needs information; it is pending again |
| ParentStore.MemoryStore.ReviewChildApplication | server/internal/modules/parent/memorystore.go:338-364 | decides an open application once, recording student, school and class |
| ParentStore.MemoryStore.ListAccountsForStudent | server/internal/modules/parent/memorystore.go:124-142 | the active accounts with an active binding to the student, each once, in order |
| Approval.ReviewApplication | server/internal/modules/parent/handler.go:1362-1507 | the handler, undisturbed, ends where its store calls one after another end |
| Approval.ApproveInto | server/internal/modules/parent/handler.go:1454-1501 | from the class on: the named student, the one match or a new student; the binding; the approval |
| Approval.BindAndApprove | server/internal/modules/parent/handler.go:1492-1501 | an existing binding is no obstacle to the approval |
| Approval.EnrolledIsTheMatch | server/internal/modules/parent/handler.go:1471-1491 | a student enrolled by an attempt that was cut off is the one match the retry finds |
| Approval.RetryEndsAlike | server/internal/modules/parent/handler.go:1393-1501 | starting over from anywhere the handler can be ends as going on would have |
| Approval.RetriesConverge | server/internal/modules/parent/handler.go:1362-1507 | cut off after any store calls any number of times, a last retry leaves the same student, binding and application as one uninterrupted run, and an approval gets the same answer |
| ApprovalOutcome.ApprovalFindsTheChild | server/internal/modules/parent/handler.go:1393-1501 | an approval without an active class of the organization is refused; with one, the student is the one named if it fits, the only active one of that class and name, or a new one when there is none; two or more are refused; then parent bound and application approved for that student |
| ApprovalOutcome.ApprovedNamesTheChild | server/internal/modules/parent/handler.go:1454-1501 | whenever an application ends approved that was not, its student is there: active, in the chosen class, of the applied-for name up to spaces, middle dots and full stops, bound to the parent; a student was added exactly when none was named and no such one was there |
| ApprovalRuns.ApprovedNameBoundStudents | server/internal/modules/parent/handler.go:1492-1501 | with any number of reviewers interleaved, every approved application names a student bound to its parent, whose active account is among those notified |
| ApprovalRuns.ApprovedIsFinal | server/internal/modules/parent/memorystore.go:338-364 | an approved application never changes again |
| ApprovalRuns.FormIsFiledWhen | server/internal/modules/parent/memorystore.go:227-258 | a form is filed exactly when the parent has no live application of that very name and class |
| ApprovalRuns.FormIsAmendedWhen | server/internal/modules/parent/memorystore.go:260-297 | in every run a form is amended exactly when it is the parent's own and needs information, and no other live one has the same name and class |
| ApprovalRuns.DecisionIsTakenWhen | server/internal/modules/parent/memorystore.go:338-364 | in every run a decision is taken exactly about an open application, and changes no other |
| ApprovalRuns.NotifiedAccounts | server/internal/modules/parent/memorystore.go:124-142 | a child's accounts are exactly the active ones of the organization that an active binding ties to the child |
| Homework.MemoryStore.CreateTask | server/internal/modules/homework/memorystore.go:60-87 | a task and one pending row per distinct nonzero student; the task is kept even when no student is left |
| Homework.MemoryStore.ReviewStudent | server/internal/modules/homework/memorystore.go:105-125 | grades the first row of the task and student |
| Homework.MemoryStore.BulkReviewStudents | server/internal/modules/homework/memorystore.go:127-171 | grades all the items or, on the first objection, none |
| Homework.MemoryStore.CheckItems | server/internal/modules/homework/memorystore.go:131-143 | the objection is that of the first item without a student, without a valid status or repeated |
| Homework.BulkRefinesReviews | server/internal/modules/homework/memorystore.go:127-171 | a batch is accepted exactly when its students are distinct and each single review would be; then rows and answers are those of the single reviews in order, otherwise nothing changes |
| Homework.OneRowPerTaskAndStudent | server/internal/modules/homework/memorystore.go:60-87 | in every run a task has at most one row per student, so last-match and first-match lookups agree |
| Homework.BatchGradesEach | server/internal/modules/homework/memorystore.go:127-171 | in every run a batch is accepted exactly when it names somebody, nobody twice, with real grades for students with rows; each row then has its own grade, trimmed note, reviewer and time, and no other row changes |
| Homework.TaskIsSetFor | server/internal/modules/homework/memorystore.go:60-87 | a task is set exactly for a roster that names somebody; its rows are one per student named, pending, under the name first listed |
| Invites.MemoryStore.ListInvites | server/internal/modules/platformadmin/memorystore.go:95-112 | revokes every active invite whose time is over and returns those of the wanted status after that |
| Invites.MemoryStore.CreateInvite | server/internal/modules/platformadmin/memorystore.go:114-128 | an active, unused invite for at least one use |
| Invites.MemoryStore.RevokeInvite | server/internal/modules/platformadmin/memorystore.go:130-144 | only an active invite is revoked |
| Invites.MemoryStore.CreateRegistration | server/internal/modules/platformadmin/memorystore.go:146-173 | a live invite with uses left gains one use and one registration; the last use exhausts it |
| Invites.MemoryStore.SetRegistrationStatus | server/internal/modules/platformadmin/memorystore.go:198-218 | sets the status of one registration and not where it came from |
| Invites.UsesAreRegistrations | server/internal/modules/platformadmin/memorystore.go:114-173 | in every run an invite's count is its number of registrations, within its limit, and it is exhausted exactly when none remains |
| Invites.ExhaustionIsNeverReported | server/internal/modules/platformadmin/memorystore.go:156-166 | no run ever reaches the branch that reports an exhausted invite |
| Invites.RegistersWhen | server/internal/modules/platformadmin/memorystore.go:146-173 | in every run a code registers somebody exactly when the first invite with it is active and has no expiry or one still to come |
| Invites.SpentInvitesStaySpent | server/internal/modules/platformadmin/memorystore.go:95-173 | a revoked or exhausted invite never changes again and gains no registration |
| Utf8.ReadScalar | weapp/src/app.prelude.js:6-20 | the code point of one unit or surrogate pair, a lone surrogate becoming U+FFFD |
| Utf8.Octets | weapp/src/app.prelude.js:21-36 | the shifts, masks and ors give the one to four octets RFC 3629 asks for |
| Utf8.IsTail | weapp/src/app.prelude.js:76 | the mask test holds exactly of the continuation octets |
| Utf8.ReadTwo | weapp/src/app.prelude.js:77 | the masks and shifts put together the code point of two octets |
| Utf8.ReadThree | weapp/src/app.prelude.js:87 | the masks and shifts put together the code point of three octets |
| Utf8.ReadFour | weapp/src/app.prelude.js:98 | the masks and shifts put together the code point of four octets |
| Utf8.Halves | weapp/src/app.prelude.js:99-100 | the shift and the mask split a code point into its surrogate pair as section 2.1 of RFC 2781 has it |
| Utf8.EncodeUtf8 | weapp/src/app.prelude.js:2-39 | the encoder's loop computes the encoding of the whole text |
| Utf8.DecodeAt | weapp/src/app.prelude.js:65-108 | one turn of the decoder: a well-formed sequence, or one octet replaced by U+FFFD |
| Utf8.DecodeUtf8 | weapp/src/app.prelude.js:61-111 | the decoder's loop computes the decoding of all the octets, and terminates |
| Utf8.DecodeEncode | weapp/src/app.prelude.js:2-111 | decoding what was encoded gives the text with each lone surrogate replaced, so the text itself when it is well formed |
| Utf8.EncodeDecode | weapp/src/app.prelude.js:2-111 | encoding what was decoded gives the octets back exactly when they match RFC 3629, section 4 |
| Utf8.EncodeIsWellFormed | weapp/src/app.prelude.js:2-39 | for any input the octets match RFC 3629, section 4, at most three per code unit |
| Utf8.DecodeIsWellFormed | weapp/src/app.prelude.js:61-111 | for any octets no unpaired surrogate comes out and no more units than octets went in |
| Utf8.EncodeConcat | weapp/src/app.prelude.js:2-39 | encoding distributes over a concatenation exactly when the cut does not split a surrogate pair |

## Left out

- HTTP, routing, JSON, roles and class scoping, audit writes, signed URLs, uploads, and the WeChat, SMS, OCR, MySQL and Redis code: input and output.
- Notification hooks, and the wording of notifications: a notification's text is kept as what it is computed from. The text of an error that a call reports is an input.
- Creation and update times that no modelled rule reads, in the approval all times; the constant recipient type of notifications.
- Width of ids and counters: natural numbers, so no overflow.
- PickupConservation.EventsAreAnnouncedOnce: supposes that callers of `CreateNotifications` name no event themselves, as no caller does; `RunConserves` counts them when they do.
- PickupStart.StartAppliesApprovedChanges: no other call comes between the start and the marks; PickupStartRaces.StartAmidOtherCalls says what holds when others do.
- PickupStartRaces.StartAmidOtherCalls: all marks carry one time; a child that others do touch meanwhile is left to the general rules.
- PickupStart.StartOperation: the server reads the requests through a list ordered newest first, which for this store is the reverse of filing order; the model reads them in that order directly.
- Dispatcher.NotificationDispatcher.DispatchOne: the branches for store calls that this store never lets fail, and the pauses between batches; the contents of the messages sent.
- The outbox has no attempt cap over time and no lease recovery in this store: a row whose holder died stays processing.
- `CreateOperation` and `CreateTask` with a roster of zero ids only: the operation or task is appended before the error, as in the code; GeneratorRules therefore supposes students with ids, which the master-data store gives them.
- Schedules with times of day: effective dates are whole days, as the handler parses them.
- PickupFinish.BuildCloseView: the operation and its children are read at one moment.
- The order in which schedules are listed: the generator's results hold for every order.
- Approval.ReviewApplication: `ensureApplicationClass`, creating the class in the same request, is not modelled, so a request or application must name the class; nor is the notification after approval.
- Uniqueness of a parent's live applications: a review may change the class, so it is not kept by the code.
- Invites.MemoryStore.CreateInvite: generating and hashing codes is not modelled; a code's hash and hint are inputs, and two codes may share a hash.
- `encodeInto`, byte-order marks, and replacement of maximal subparts: the polyfill does not follow the WHATWG Encoding Standard there.
- Notification templates' contents, schedules and homework listings, meals, reports, the admin web and the mini-program pages: they would add only easy members.
