# Workspace mapping and line edits: a model and its proofs

The repository extension gives every agent session whose name has the form `org:repo:bookmark` a workspace: a
bookmark in jjlab, and a row in Postgres that binds the two. Lifecycle events, approved worksheets, manual adoption
and a periodic reconciler all write these stores, through calls that can fail one by one. The same service lets
agents read and edit files by line number. This project models both, and proves what they are there for.

## How the model is built

**Stores and handlers.** `Stores` holds the state: agent sessions, repositories with bookmarks at commits, the three
tables, the resolution cache and the clock, and says for each single call what it does and what it may answer.
`Handlers` describes every handler as the calls it makes: a program counter, the next call (`Request`), and where the
answer leads (`Feed`). `Interleaving` runs any number of handlers call by call: any handler may start at any moment any
number of times (so events are lost, repeated and reordered at will), any call may fail with or without having taken
effect, the process may crash between any two calls (handlers and cache are gone, the stores stay), and jjlab, the agent
and the clock may change anything in between. Theorems about every run are stated on that system.

**The handlers as methods.** `Clients` and `Server` have the same code in the form it is written: classes for the agent,
jjlab, the Postgres store and the session cache, and a class `Service` whose methods loop and call. Ghost fields follow
the program counter, and each method is proved to make exactly the calls its program counter asks for, and to end where
the counter ends. So the theorems hold of the methods, and `HandleLifecycleEvent`, `ReconcileOnce`, `ResolveSession`,
`AdoptBookmark` and `OnCallHook` carry their consequences as postconditions. A method there may be split where the source has one body.

**One handler undisturbed.** `BigStep` relates the start of a handler's run to its end (`Finishes`, no call fails) or to
where it was stopped (`Cut`). `Termination` proves that every handler ends whatever the calls answer, so that a fault-free
run exists from every state; `Witnesses` that such a run is one of the interleaved system. Crash-and-redeliver, the
refinement to a map, and self-stabilisation are about these runs.

**Whichever calls fail.** `Conclusions` shows that a failed call ends its handler with a 5xx status, apart from a listing
while the repositories are walked, so that a definite answer (a success or a permanent error) is that of a fault-free run.
On it rest `Acknowledged` (events and passes), `Executions` (worksheets), `Adoption` and `Resolution`, which say what an
answer is worth in terms of the state before and after; `Verdicts` tells how an event is answered from the state before it.
`Obligations` says what success is worth when other handlers run in between. These hold of the methods in `Server` as
their postconditions.

**Texts.** `LineEdit`, `Diff`, `Paging` and `EditLock` model the file tools: methods with the loops of the source, proved
against functions on sequences of lines, and theorems about those functions.

`hide` statements in some proofs only keep definitions that a proof does not need from the verifier.

## What is assumed of the surroundings

- jjlab never moves an existing bookmark when asked to create it, and refuses a revision it cannot resolve. Repository and
  bookmark names it lists or creates hold no `:`. A new repository has `main` at its root. An empty source means the head.
- jjlab creates every repository it is asked for, and every bookmark whose name is new and holds no `:`, the empty name
  included, as long as the source resolves. Names it would refuse for other reasons are not modelled; that a backfill
  succeeds exactly if it can be anchored rests on this.
- `base_rev` of a fork worksheet is a commit id, not the name of a bookmark.
- A commit with a base sha succeeds only if that is the file's current blob sha, and one without is not checked; shas are
  never empty, and differ for different contents.
- A call that works is atomic and answers truthfully; a call that fails tells nothing.
- A fork into a session that exists, of a parent that does not, may be answered either way by the agent.

## Where the code and its comments differ

The code is modelled.

- `events_sub.go:140-141` says a cut delete never leaves a dangling row. It does: the bookmark goes first. A run showing it
  is given; the proofs show exactly when a row dangles, and that redelivery finishes the job because of that order.
- `client_jj.go:224` says `DeleteBookmark` removes the bookmark if it exists. If the listing of its repository fails it
  reports success and leaves it; for a delete event that is proved to be the only way, and to happen from every state.
- `sessions_http.go:108-113` answers 404 for a bookmark that does not exist. It does so too for one whose repository could
  not be listed; that is proved to be the only other way.
- `worksheets.go:71-73` promises exactly-once execution. It is at most once: the claim is kept whatever comes after it.
  A worksheet claimed is never executed if and only if the answer to its first claim was lost or the process crashed
  between claim and execution; and an execution that fails is not repeated. Runs showing both are given.
- `client_jj.go:244-245` says `CanResolve` tests a revision. It tests that the repository's listing answers, so `main` is
  the anchor whenever the repository exists.
- A rename of a session to its own name removes its bookmark (`events_sub.go:119-137`), and a delete worksheet naming a
  session without a row removes the bookmark of another session's row (`worksheets.go:213-232`). Both are proved, with the
  exact condition.
- `tools.go:1292` lets `endLine` be one past the last line, and `tools.go:1302` then goes out of range.
- The eviction in `events_sub.go:136` and `events_sub.go:160` and `reconcile.go:86` does not keep cache and table together
  in every case. Between handlers an entry is without its row if and only if that very row was removed by a call reported
  as failed. A run showing it is given.

## Model

| member | source | states |
|---|---|---|
| `Names.ParseExactly` | helpers.go:53-63 | a name parses to a triple if and only if the triple has no `:` and the name is its derived name |
| `Names.NamingInjective` | helpers.go:53-55 | derived names of colon-free triples never collide |
| `Stores.ConflictMeansBound` | pg.go:99-107 | under the naming invariant the table refuses a derived row, inserted or moved, exactly when that very row is there |
| `NamingInvariant.ProperStep` | sessions_http.go:79-119 | one call of any handler, failing or not, keeps rows and cache named by their own triples |
| `NamingInvariant.NamingHolds` | events_sub.go:54-138 | in every state of every run each row's session is the derived name of its own triple |
| `Isolation.BindConflictIsSound` | sessions_http.go:79-87 | whenever bindRow turns a conflict into success, the exact row it wanted is in the table, and only then a working table answers so |
| `Isolation.RenameConflictIsSound` | events_sub.go:130-135 | the same for the conflict ensureRenamed turns into success |
| `Isolation.AdoptionRace` | sessions_http.go:115-118 | in every interleaving an adoption whose insertion is answered reports a new row if and only if that very call has added it, and otherwise a 409 |
| `Isolation.ResolutionIsIsolated` | sessions_http.go:59-75 | in every run a successful resolution returns a triple whose name is the session asked for, by a row that was in the table |
| `Isolation.HitIsFresh` | sessions_http.go:30-44 | a cache hit was put there at most the lifetime ago, by a resolution that had read the row |
| `Coherence.CacheMatchesTable` | sessions_http.go:46-50 | with one handler at a time, between handlers a cache entry is without its row in the table if and only if some call removed that very row without its caller learning of it, and no later step wrote or evicted the entry, bound the row again or crashed the process |
| `Coherence.LostRemovalLeavesEntry` | events_sub.go:130-160 | in any run, whenever a removal of a cached row is reported as failed the handler stops there, and the entry is left stale, by a deletion always and by a rename exactly if its target had no row |
| `Witnesses.StaleEntryHappens` | events_sub.go:154-160 | a run that ends with an unexpired stale entry: a resolution, then a delete whose row removal goes unanswered |
| `Worksheets.ExecutedAtMostOnce` | worksheets.go:108-121 | in every run each worksheet starts executing at most once, and only after its claim is recorded |
| `Worksheets.OnlyApprovalsClaim` | worksheets.go:99-115 | a worksheet is claimed only if an approved decision with its id was dispatched before; rejections never claim |
| `Worksheets.ClaimedInVainIff` | worksheets.go:108-124 | in every run a worksheet claimed during it is never executed, however often its decision is delivered, if and only if its first claim took effect unanswered or a crash hit between claim and execution; otherwise it has started or is about to |
| `Witnesses.VainClaimHappens` | worksheets.go:109-112 | a run in which a worksheet is approved, claimed and never executed |
| `Witnesses.FailedExecutionHappens` | worksheets.go:121-124 | a run in which a worksheet is claimed and started, and its execution fails |
| `Spared.BookmarkKeepsItsCommit` | client_jj.go:199-222 | in every run a bookmark nobody asks to drop or rename away keeps its commit: no creation moves it |
| `Spared.PassesPreserveWork` | reconcile.go:50-140 | over any run of passes with any calls failing, sessions are untouched and every bookmark keeps its commit |
| `Healing.WorkIsRebound` | reconcile.go:50-140 | after any such run, one undisturbed pass binds every live session's bookmark again, at the commit it started at |
| `Healing.PassesKeepBackfillable` | reconcile.go:114-140 | faulty passes never make a later backfill impossible |
| `Pin.ForkIsPinned` | worksheets.go:131-193 | in every interleaving, from the moment anything of the fork exists, its bookmark is at the base revision |
| `Pin.ForkWorksheetIsShy` | worksheets.go:135-154 | the worksheet that asks for the fork is among the handlers that theorem allows |
| `Pin.EventsLeaveAlone` | events_sub.go:54-102 | so are passes, events of other sessions, and the fork's own event once its session exists |
| `Healing.ForkIsBound` | reconcile.go:114-140 | and a later undisturbed pass that succeeds has the new session bound to the bookmark, still at the base revision |
| `Sequential.RowDanglesIffDropped` | events_sub.go:104-162 | with one handler at a time, any calls failing and crashes anywhere, a row is without its bookmark if and only if some handler's call dropped the bookmark while it was mapped and no later step took the row away or brought the bookmark back |
| `Sequential.RowDanglesIffDeleteCut` | events_sub.go:140-162 | apart from renames of a session to itself and delete worksheets naming another session, that call was one of a delete on its way to removing the row |
| `Witnesses.DanglingRowHappens` | events_sub.go:154-159 | a run that ends so: a delete drops the bookmark and cannot remove the row |
| `Swallowed.DeletedButBookmarkStays` | client_jj.go:99-106 | from every state with a mapped bookmark there is a run of its delete event in which listings fail, that reports success and leaves the bookmark |
| `Swallowed.DeletedButBookmarkStaysIff` | client_jj.go:99-106 | a delete event that reports success has removed the row, but leaves the bookmark if and only if the call listing its repository's bookmarks had failed |
| `Hazards.RenameDanglesIffSelf` | events_sub.go:106-138 | a rename of a mapped session leaves a dangling row if and only if it renames it to itself, and then reports success |
| `Hazards.WithdrawDanglesIffUnmapped` | worksheets.go:198-236 | a delete worksheet leaves a mapped bookmark's row dangling if and only if the session it names has no row |
| `Conclusions.FailureStops` | errs.go:32-42 | in every run of every handler a failed call, other than a listing of bookmarks, is the last one made, and is answered with a 5xx status |
| `Verdicts.EventAnswers` | events_sub.go:54-162 | the status of a fault-free event told from the state before it, parent materialisation included; an event answered with an error has changed nothing |
| `Acknowledged.AnswerIsVerdict` | events_sub.go:11-162 | whichever of its calls failed, an event that reports success has done what it asks for: rows, managed mark, cache entry, and bookmarks with their commits; one given up with a permanent error would have been without any failure, and has changed nothing |
| `Acknowledged.SuccessMeansBound` | sessions_http.go:79-87 | whichever of its calls failed, a created, forked or renamed event that reports success leaves its row in the table |
| `Acknowledged.PassSuccessHeals` | reconcile.go:39-140 | whichever of its calls failed, a pass that reports success leaves every live derived session with a row, no bad row in a repository managed at its start, the rows a fault-free pass leaves, and every bookmark in place |
| `Obligations.HandledWasBound` | events_sub.go:54-138 | in every interleaving a created, forked or renamed event is reported as handled only if its row was in the table at some moment since its handler began |
| `Obligations.AnchorIsChosen` | events_sub.go:166-174 | whatever others do in between, a creation that makes its bookmark makes it at `main` if the repository was there when probed, and at the head if it was unknown |
| `Obligations.PassGoesOn` | reconcile.go:125-139 | whatever others do, a backfill within a pass goes as the creation would on its own; the pass goes on after a success and after a permanent error, and ends with a 5xx status where the creation does |
| `Executions.RefusedIsInert` | worksheets.go:135-212 | in every run of a worksheet of a session without derived name, without bookmark or quest, or deleting `main` or the session's own bookmark, nothing changes but the claim, and the first claim answered is answered with a 400 |
| `Executions.ForkIsExecuted` | worksheets.go:135-193 | whichever of its calls failed, a first fork worksheet given a definite answer has succeeded: the row is there, the session is there, and a new bookmark is at the base revision, or at the parent's commit without one |
| `Executions.ForkAnswers` | worksheets.go:135-193 | without failing calls a fork worksheet succeeds if and only if the workspace can be made and the parent session exists; the workspace is bound if it can be |
| `Executions.DropIsExecuted` | worksheets.go:198-236 | without failing calls a delete worksheet not refused succeeds and bookmark, row and session are gone; whichever calls failed, a definite answer means row and session are, and no other row, session or bookmark |
| `Executions.FirstDecision` | worksheets.go:108-124 | the three together, for the first approved decision on a worksheet |
| `Adoption.AdoptionBinds` | sessions_http.go:93-119 | whichever of its calls failed, an adoption that succeeds names the derived session and leaves its row in the table |
| `Adoption.AdoptionAnswers` | sessions_http.go:93-119 | without failing calls an adoption gives the row there is, or adds session and row for an existing bookmark and nothing else, or answers 404 and changes nothing |
| `Adoption.AdoptionMissesIff` | client_jj.go:99-106 | an existing bookmark without a row is answered with 404, where the answer is definite, if and only if the call listing its repository's bookmarks had failed |
| `Resolution.ResolutionAnswers` | sessions_http.go:59-75 | whichever of its calls failed, a definite answer is a good cache entry, else the row, which is then cached for the lifetime, else a 400 or a 404 by the name |
| `Termination.AnswersBringCloser` | reconcile.go:39-140 | whatever a call answers, the handler gets closer to its end in a well-founded measure |
| `Termination.EveryHandlerEnds` | events_sub.go:11-51 | from every state of the stores every handler has a fault-free run to its end |
| `BigStep.TreeFinishes` | client_jj.go:75-110 | an undisturbed fault-free walk over repositories and bookmarks sees exactly what is there |
| `BigStep.EnsureFinishes` | client_jj.go:201-222 | EnsureBookmark leaves an existing bookmark, creates a missing one if it can, and otherwise fails with 404 or 502 |
| `BigStep.CreateFinishes` | events_sub.go:54-67 | what a fault-free ensureCreated comes to, status included, for every caller |
| `BigStep.EventFinishes` | events_sub.go:11-35 | every fault-free run of an event handler, up to the publishing of session variables, ends in the one state and with the one status the big-step functions give |
| `Recovery.RedeliveryFinishes` | events_sub.go:54-162 | a created, forked or deleted event cut after any call, the process crashed, and handled again in full reaches rows, bookmark positions, sessions and status of an uninterrupted run |
| `Recovery.RenameRedeliveryFinishes` | events_sub.go:106-138 | the same for a rename, status included, except that the old bookmark is left over, unbound, if and only if it was cut between moving the row and dropping it |
| `Redelivery.RedeliveriesFinish` | events_sub.go:54-162 | the same for any number of deliveries cut short, each followed by a crash, before one in full |
| `Redelivery.RenameRedeliveriesFinish` | events_sub.go:106-138 | and for a rename: the old bookmark is left over if and only if the last cut found the row moved and the bookmark in place |
| `Witnesses.SoloRun` | events_sub.go:11-51 | the undisturbed runs these results speak of are runs of the interleaved system |
| `Refinement.EventRefines` | events_sub.go:54-162 | one fault-free handler run is one operation on a map from session to commit, and succeeds |
| `Histories.RunRefinesMap` | events_sub.go:11-162 | a run of events in order, with commits in between, shows at every point exactly the map: create takes `main`, fork the parent's commit at that time, rename moves, delete removes |
| `Reconcile.PassFinishes` | reconcile.go:39-140 | an undisturbed pass removes exactly the bad rows of managed repositories, then backfills the sessions in some order |
| `Stabilise.OnePass` | reconcile.go:39-140 | a pass succeeds if and only if everything missing can be anchored, and is answered 502 otherwise; after a success rows and managed repositories are given in closed form whatever the order, bookmarks stay put, and new ones are at `main` |
| `Stabilise.PassHeals` | reconcile.go:52-140 | after one successful pass every live derived session has a row, and no repository managed at its start has a row without bookmark or session |
| `Stabilise.OnePassSettlesIff` | reconcile.go:53-65 | one pass is enough if and only if no unmanaged repository with a session to backfill holds a row without live session, or without a bookmark that `main` of a new repository will not supply |
| `Stabilise.SettledIsStable` | reconcile.go:39-140 | in a settled state a pass changes nothing at all |
| `Stabilise.Stabilises` | reconcile.go:39-140 | from any named state two undisturbed passes settle: rows of managed repositories are exactly the live derived sessions, each with its bookmark; a third changes nothing; and when they succeed, told from the first state |
| `Healing.EveryRunStabilises` | reconcile.go:108-140 | the same from every state of every run, whatever events were lost, repeated or cut short |
| `Healing.LostEventAnchorsAtMain` | reconcile.go:16-20 | what a lost event costs: the workspace is there after a pass, anchored at `main` |
| `Clients.Agent.ForkSession` | client_agent.go:121-139 | forking into an existing or new session works while the parent exists |
| `Clients.JjLab.CreateBookmark` | client_jj.go:212-221 | a creation takes effect under a new name at a resolvable revision, and never moves a bookmark |
| `Clients.JjLab.DropBookmark` | client_jj.go:233-241 | a deletion removes just that bookmark |
| `Clients.Store.GetRowBySession` | pg.go:185-188 | finds the row of a session if and only if there is one |
| `Clients.Store.InsertRow` | pg.go:192-200 | a row is added unless its triple or its session is taken, which is a conflict |
| `Clients.Store.RenameRow` | pg.go:203-218 | a row moves unless it is missing or the target is taken by another row |
| `Clients.Store.ExecutedWorksheet` | pg.go:270-280 | only the first claim of a worksheet is told it is first |
| `Clients.SessCache.Get` | sessions_http.go:30-38 | a hit is an entry not past its expiry |
| `Clients.SessCache.Put` | sessions_http.go:40-44 | an entry expires the lifetime after now |
| `Clients.SessCache.Evict` | sessions_http.go:46-50 | eviction removes just that entry |
| `Server.Service.GetRepoTree` | client_jj.go:75-110 | the loop over repositories makes the calls of the model; a failed listing shows as an empty repository |
| `Server.Service.EnsureBookmark` | client_jj.go:201-222 | makes the calls of the model, with the same status |
| `Server.Service.DeleteBookmark` | client_jj.go:225-242 | makes the calls of the model, with the same status |
| `Server.Service.EnsureBookmarkAnchored` | events_sub.go:166-174 | anchors at `main` if the listing answers, at the head if the repository is unknown |
| `Server.Service.BindRow` | sessions_http.go:79-87 | makes the calls of the model: a conflict is success, any other failure an error; only a fresh row marks its repository managed |
| `Server.Service.EnsureCreated` | events_sub.go:54-67 | makes the calls of the model, whoever called it |
| `Server.Service.EnsureForked` | events_sub.go:72-102 | makes the calls of the model, materialising the parent first |
| `Server.Service.EnsureRenamed` | events_sub.go:106-138 | makes the calls of the model in their order: bookmark, row, cache, old bookmark |
| `Server.Service.EnsureDeleted` | events_sub.go:142-162 | makes the calls of the model in their order: bookmark, row, cache |
| `Server.Service.HandleLifecycleEvent` | events_sub.go:11-51 | one event: the calls made form a run of the model; a definite answer is the verdict on the state before, a success has done what the event asks for, a permanent error has changed nothing; if no call fails the stores are those of the big-step functions; then, after a success other than of a delete, the session is resolved, which changes nothing but the cache |
| `Server.Service.ResolveSession` | sessions_http.go:59-75 | the calls made form a run of the model; in a named state a resolution names the session, and a definite answer is told from the cache and the table |
| `Server.Service.AdoptBookmark` | sessions_http.go:93-119 | the calls made form a run of the model; in a named state success names the derived session, whose row is then in the table; without failing calls the answer and the stores are told from the state before, and a 404 has changed nothing |
| `Server.Service.OnCallHook` | worksheets.go:74-129 | an unknown hook, a missing id and an unknown action are answered as such and change nothing, nor does a rejected or already claimed worksheet; for the others, told from the fields of the call, the calls made form a run of the model, the first approved decision comes to what `Executions.FirstDecision` states, and a failed execution is an internal error |
| `Server.Service.ExecForkRequest` | worksheets.go:135-158 | makes the calls of the model: bookmark and row first, then the session |
| `Server.Service.EnsureForkedAt` | worksheets.go:176-193 | makes the calls of the model, anchoring at the base revision or the parent's bookmark |
| `Server.Service.ExecDeleteBookmark` | worksheets.go:198-236 | makes the calls of the model, refusing the session's own bookmark and `main` |
| `Server.Service.ConvergeDrift` | reconcile.go:52-106 | the loops over managed repositories and their rows make the calls of the model |
| `Server.Service.BackfillMissing` | reconcile.go:119-139 | the loop over sessions skips mapped and foreign ones and permanent failures, and stops at a transient one |
| `Server.Service.ReconcileOnce` | reconcile.go:39-48 | the calls made form a run of the model; if none fails it succeeds exactly if everything missing can be anchored; whichever failed, a definite answer is success, and has healed |
| `LineEdit.ApplyLineEdit` | tools.go:1259-1308 | computes the edit as a splice of lines, with its three errors and its one run-time panic |
| `LineEdit.UnlinesLines` | tools.go:1260-1267 | a text is its lines and its final newline |
| `LineEdit.LinesUnlines` | tools.go:1286-1289 | written out and read again, lines come back except exactly that a last blank one can get lost |
| `LineEdit.EditReadsBack` | tools.go:1259-1308 | an edit is carried out if and only if it is in range, panics if and only if it ends just past the last line, is rejected for each of three reasons exactly when it applies, and reads back as the splice if and only if no blank line gets lost |
| `LineEdit.EditUndone` | tools.go:1259-1308 | an edit is undone by putting the replaced lines back, if and only if no blank line got lost and they are not one blank line |
| `LineEdit.InsertThenDelete` | tools.go:1275-1307 | an insertion followed by the deletion of as many lines gives the text back exactly, in every case but one, in which the deletion fails |
| `Diff.DiffLines` | tools.go:1094-1132 | the hunk turns the old lines into the new ones, no single hunk is shorter or starts later, and there is none only for equal texts |
| `Diff.GreedyIsMinimal` | tools.go:1109-1118 | the longest common front and then the longest common end never overlap and leave a hunk no other beats or follows |
| `Diff.HunkIsUnique` | tools.go:1109-1132 | that determines the hunk: two such hunks are equal |
| `Diff.EmptyHunkIff` | tools.go:1098-1105 | the hunk is empty if and only if the texts differ in the final newline at most |
| `Diff.ReportedSizeIff` | tools.go:211-235 | the hunk shown for an edit is no larger than the edit, unless and only unless a deletion leaves a blank line last that gets lost |
| `Paging.Read` | tools.go:69-115 | what a read shows: the lines from the one asked for up to the limit, numbered, where to continue, and when it is past the end |
| `Paging.FollowFrom` | tools.go:88-113 | following next_offset lists every line from the first asked for, once, in order, rightly numbered |
| `Paging.PagesListEveryLine` | tools.go:75-113 | from offset 1 and with any limit the pages list the whole file |
| `Paging.ReadsExactly` | tools.go:88-113 | it takes as many reads as full pages are needed |
| `Paging.NumbersAgreeIff` | tools.go:75-78 | the line numbers of read are those of edit, in every file but a lone newline |
| `EditLock.EditsAreSerial` | tools.go:185-237 | in every interleaving of edits and other writers the file is the fold of the changes in the order they took effect; every successful edit is one of them, exactly once |
| `EditLock.TextIsSuccessesFolded` | tools.go:185-237 | without other writers and lost answers the final text is the fold of exactly the successful edits, in commit order |
| `EditLock.SucceedsIff` | tools.go:185-223 | in every interleaving an edit none of whose calls fails succeeds if and only if the file it read is there, the edit can be carried out on it, and the commit found the same content, which it then replaced; and fails if and only if not |
| `EditLock.FailureIsReported` | tools.go:203-223 | an edit one of whose calls fails is answered with an error, whether or not its commit took effect |
| `EditLock.AloneItSucceeds` | tools.go:203-223 | left alone, an edit that can be carried out reads, commits and succeeds, from any state |
| `EditLock.RemoteFile.Edit` | tools.go:203-223 | a successful edit call is the edit applied to exactly the file its commit found, whoever interfered; if none of its calls fails it succeeds if and only if the edit can be carried out on the file it read and the commit found the same |

## Left out

- HTTP, NATS, JSON, URL escaping, connection set-up and DDL, environment, logging and localisation: no logic of their own; calls are atomic steps.
- The read-only git tools and the merge-request tools: they forward to jjlab.
- The `write` and `delete` tools: other writers of a file, as `EditLock` has them.
- `diffForPath`, `splitMatch`, `shortID`, `validSessionComponent` and the entry converters: easy members, or not part of a harder property.
- The printed header of a hunk: the proofs are about its lines.
- Session variables and mailbox notices (`variables.go`): best effort, their errors are ignored. Of publishing, only the resolution it starts with is modelled, as a handler of its own.
- The text of error messages: errors are statuses.
- Several replicas with separate caches, and overflow of line numbers.
- The wording of a worksheet, its title and the quest prompt: only what its execution does to the stores is modelled.
- The commits in jjlab's bookmark listing: no handler uses them.
- Server.Service.HandleLifecycleEvent: the methods of the class run undisturbed; interference between their calls is modelled on the program counters they are proved to follow.
- Recovery.RedeliveryFinishes: the managed mark is not part of the statement; a handler cut between inserting the row and marking the repository does not mark it on redelivery.
- Stabilise.Stabilises: rows of repositories that are not managed may stay without bookmark or session; no pass looks at them.
