# Tenant isolation in django-rls-tenants, modelled and proved in Dafny

django-rls-tenants isolates tenants with PostgreSQL row-level security. Policies read two settings
of the database session, the admin flag and the current tenant, and the library keeps these settings
in step with the context that is active in the running task. This project models how it does so and
proves that it works: over whole runs, with any interleaving of tasks and failures at any point.

`dafny verify dfyconfig.toml` checks everything.

## How the model is laid out

| files | what they model |
|---|---|
| `Gucs`, `Sessions` | the values of the settings; a PostgreSQL session with what statements see, what a commit keeps, what a rollback restores, and its savepoints |
| `Trackers`, `TrackerSoundness` | the record the library keeps of a session, as a class and as functions, and the invariant that ties it to the session |
| `Guard`, `GuardedConnections`, `GuardSoundness`, `Runs` | the wrapper around every statement, and runs of a connection |
| `Transparency`, `Precision` | that the guard changes nothing but the two settings, and forgets nothing it need not; both over runs |
| `Limits`, `ExactLimits`, `LocalMode`, `ForeignWrites` | runs past the guard's limits, and that the limits are exact; transaction-local mode; writes by other code |
| `Aliases`, `AliasLoops` | what the end of a context does to the other connections |
| `Holders`, `HolderObjects`, `HolderProperties`, `PlainStacks` | the shared holders of contexts' values, over any number of Python `Context`s |
| `AutoScope` | the tenant the managers filter for, a second context variable beside the holders |
| `Snapshots`, `Blocks`, `ContextBlocks`, `LocalBlocks`, `BlockEntries` | context blocks of many tasks on one connection; what their entries and exits do when they go through |
| `SettingBlocks` | blocks over any settings, and bypass flags |
| `Keys`, `Sql`, `Policies`, `Isolation` | policy expressions in three-valued logic, and isolation from end to end |
| `SelectRelated`, `Prefetches`, `PrefetchSoundness`, `PrefetchResults` | the tenant filters on joins and prefetches |
| `Requests`, `RequestObjects`, `RequestEntries` | the request: its entry, what it is served with, its cleanup |
| `Pool`, `PoolConnections` | new sessions, pooled or not |

Code that changes objects in place is a class whose methods are proved equal to functions on values
(`State()` before and after); what is promised of it is proved of those functions. The driver, Django
and PostgreSQL are parameters: a `Fault` says for each call whether it worked, was not sent, was
refused, lost the connection, or worked and was then interrupted. A session also counts the data statements
whose effect is in force (`Session.work`), which a commit keeps and a rollback takes back.

## What the guard assumes

`Runs.Legal` and `GuardSoundness.StepAllowed` write down the limits within which it works, event by event.
The code names what it does not see (`django_rls_tenants/tenants/affinity.py:50-53`, `:65-80`); the rest is
what the proofs need. A statement that was not sent, was refused or lost its session breaks no limit.

- Other code does not write the two settings, except in `ForeignWrites`.
- A transaction ended past Django's cursor is looked at while idle before another begins there
  (otherwise: `Limits.UnseenTransactionShowsATenant`).
- A savepoint set unnoticed (past the cursor, by a name that cannot be read, or interrupted once done) has
  a name the guard does not follow, and a savepoint ended unnoticed leaves no older one of the name of a
  followed one it drops. `ExactLimits.SavepointLimitIsExact`: otherwise some run shows another tenant.
- An interrupted `COMMIT AND CHAIN` keeps what the record takes for the start of its transaction.
  `ExactLimits.EndIsSafeIff`: otherwise some run shows what was kept. No other end of a transaction is limited.
- After a rollback past the cursor to a savepoint, nothing written since the transaction began is believed
  (`TrackerSoundness.MayGoBackUnseenIff`).
- A compound or unreadable statement may change the settings, open a transaction or end one, but sets
  no savepoint of a followed name. A compound one that does not start with a command the guard follows,
  and raises once done, itself or in the guard's own `COMMIT`, has left the settings alone (otherwise:
  `Limits.InterruptedCompoundShowsItsValue`).
- A new session holds what it is said to hold: nothing, or, from a pool, anything.

The guard theorem leaves out one kind of statement, as the code does: in local mode and autocommit,
one PostgreSQL may refuse in a transaction runs as it is (`GuardSoundness.RunsAsItIs`).

## What the proofs found

- **A savepoint that goes unnoticed.** A `ROLLBACK TO` or `RELEASE` the guard cannot follow also drops the
  savepoints above. The record keeps their entries; with a repeated name a later `ROLLBACK TO` restores
  the wrong one, and a statement is shown another tenant's values
  (`Limits.DroppedSavepointShowsAnotherTenant`). It is harmless over every run that follows if and only if
  no followed savepoint it drops has an older namesake (`ExactLimits.SavepointLimitIsExact`).
- **An interrupted `COMMIT AND CHAIN`.** When a followed statement raises, the guard forgets what the
  session shows, but not what it took for the start of the transaction. If the `COMMIT` was done and the
  chained transaction is rolled back, it believes that again, and a statement outside any context is
  shown the tenant the commit has kept (`Limits.InterruptedChainShowsATenant`, `ExactLimits.EndIsSafeIff`).
- **An interrupted entry of a request.** The middleware undoes a failed entry in `except Exception`. An
  interruption (a server's timeout) on one alias passes it, and the cleanup clears nothing, because the
  settings are not marked as set yet: the aliases before that one keep the tenant's values
  (`Requests.InterruptedEntryLeavesTheTenant`, `Requests.FailedEntryIsTidyIff`).
- **A token used twice.** Resetting a block by a used token ends whatever is current, also an
  enclosing block (`HolderProperties.UsedTokenEndsAnEnclosingBlock`, `HolderProperties.SparesOlderIff`).
- **A cancelled call.** The holder of a context stays with its task, but the tenant the managers filter
  for is a plain value, which asgiref copies back. A task that cancels a call inside another tenant's
  block keeps its own context, filters for the other tenant, and loses its own rows
  (`AutoScope.CancelledCallBringsItsTenant`, `Isolation.CancelledCallLosesRows`). The tenant is that of
  the visible context at every moment if and only if no such copy or release occurs
  (`AutoScope.AlwaysAgreesIff`); under that condition the manager's queries are isolated
  (`Isolation.ManagedReadIsIsolated`).
- **An interrupted foreign write.** In local mode, a foreign write that took effect and was then
  interrupted, or whose `COMMIT` in the guard's own transaction was, can go unnoticed. It then outlives
  its context: the context ends in a transaction begun later, the rollback of that takes the record back
  to what it believed, and the next statement outside is shown the write
  (`ForeignWrites.UnnoticedOutlives`). `ForeignWrites.ForeignWriteIsSafeIff` is the exact condition, over
  every run that follows; an end of the context that finds the session idle, or in a transaction that
  commits, puts the record right (`ForeignWrites.SuspectedIdleIsSound`,
  `ForeignWrites.SuspectedCommitIsSound`).
- **An interrupted checkout.** The handler of a pooled checkout catches `Exception`. An interruption before
  the clear takes effect passes it and leaves the session open with what the previous borrower left, bypass
  flags included (`Pool.PassedClearLeaves`, `Pool.CheckoutIsCleanOrEndedIff`).
- **An interrupted entry of a setting block.** `_enter_gucs`, behind `async_rls_context()` and
  `async_bypass_flag()`, undoes the writes before the one that failed: one that took effect before it
  raised stays (`SettingBlocks.FailedEntryUndoesIff`). The asynchronous tenant contexts enter through it too;
  there the record is forgotten, and the guard writes before the next statement (`BlockEntries.FailedHopIsUndoneIff`). `bypass_flag()` writes before its `try`, with
  the same result (`SettingBlocks.FailedBypassFlagIff`).
- **A session block inside a local one.** The inner block's exit writes the local value for the
  session, and a commit then keeps it (`SettingBlocks.SessionBlockKeepsIff`).
- **Two relations in one `to_attr`.** The rewriting can give the second lookup a queryset, and Django then
  refuses what it accepted before (`PrefetchResults.SharedToAttrIsRefusedIff`).
- `scalar_setting` says that an unset setting reads as an empty string; PostgreSQL returns `NULL`
  unless it was set before in the session. The policies are proved for both.


## Model

| member | source | states |
|---|---|---|
| `Trackers.SessionGucs.constructor` | django_rls_tenants/tenants/affinity.py:224-233 | a new record knows nothing |
| `Trackers.SessionGucs.AttachTo` | django_rls_tenants/tenants/affinity.py:235-243 | a new session starts with the given values, in no transaction, with no savepoint |
| `Trackers.SessionGucs.Sync` | django_rls_tenants/tenants/affinity.py:245-260 | a transaction seen to have ended is followed with unknown outcome; one seen to have begun remembers what the session held |
| `Trackers.SessionGucs.Set` | django_rls_tenants/tenants/affinity.py:262-277 | records values and, in a transaction, which kind of write left them and whether they changed |
| `Trackers.SessionGucs.ForgetValues` | django_rls_tenants/tenants/affinity.py:279-281 | the values are unknown, as after a change for the session |
| `Trackers.SessionGucs.Suspect` | django_rls_tenants/tenants/affinity.py:283-303 | unknown now, or, under local values, unknown after a commit |
| `Trackers.SessionGucs.End` | django_rls_tenants/tenants/affinity.py:305-325 | what a commit, a rollback or an unknown end of the transaction leaves known |
| `Trackers.SessionGucs.IndexOf` | django_rls_tenants/tenants/affinity.py:327-332 | the newest tracked savepoint of that name, or none |
| `Trackers.SavepointIndex` | django_rls_tenants/tenants/affinity.py:327-332 | the entry found has the name and every newer one another name; none is found only if none has it |
| `Trackers.SessionGucs.FollowEndOfSavepoint` | django_rls_tenants/tenants/affinity.py:951-966 | a release or a rollback to a savepoint: known values come back, an unknown name forgets what changed; that nothing else is forgotten is in `Precision` |
| `Sessions.NewestSavepoint` | django_rls_tenants/tenants/affinity.py:54-63 | PostgreSQL resolves a savepoint name to the newest one of that name |
| `TrackerSoundness.LookKeeps` | django_rls_tenants/tenants/affinity.py:370-386 | looking at a session is idempotent and keeps the record sound |
| `TrackerSoundness.EndKeeps` | django_rls_tenants/tenants/affinity.py:305-325 | a followed end of the transaction, also of a failed one, keeps the record sound |
| `TrackerSoundness.UnseenEndKeeps` | django_rls_tenants/tenants/affinity.py:245-260 | an unseen commit or rollback keeps it sound, before and after the next look |
| `TrackerSoundness.WriteKeeps` | django_rls_tenants/tenants/affinity.py:262-277 | a recorded session or local write, in or outside a transaction, keeps it sound |
| `TrackerSoundness.SuspectKeeps` | django_rls_tenants/tenants/affinity.py:283-303 | suspecting never makes the record claim something false |
| `TrackerSoundness.SavepointKeeps` | django_rls_tenants/tenants/affinity.py:888-932 | a savepoint set through the guard keeps tracked and real savepoints in step, repeated names included |
| `TrackerSoundness.NewestAgrees` | django_rls_tenants/tenants/affinity.py:327-332 | the tracked savepoint found for a name the session has is the one PostgreSQL finds |
| `TrackerSoundness.TrackedSavepointEndKeeps` | django_rls_tenants/tenants/affinity.py:951-966 | a release of, or rollback to, a tracked savepoint keeps the record sound, also out of a failed transaction |
| `TrackerSoundness.UnreadSavepointEndKeeps` | django_rls_tenants/tenants/affinity.py:951-966 | the same for a savepoint that is not tracked or whose name cannot be read, if it leaves no namesake of a tracked one it drops |
| `TrackerSoundness.MayGoBackUnseenIff` | django_rls_tenants/tenants/affinity.py:65-80 | whatever savepoints the session holds, an unseen rollback to one of them that drops no namesake is harmless if and only if the record believes nothing written in the transaction |
| `GuardedConnections.GuardedConnection.Observe` | django_rls_tenants/tenants/affinity.py:370-386 | a session of another identity is attached with unknown values, then the record follows its status |
| `GuardedConnections.GuardedConnection.RecordWrite` | django_rls_tenants/tenants/affinity.py:506-529 | the values written are recorded on a configured alias, unknown ones on any other |
| `GuardedConnections.GuardedConnection.Write` | django_rls_tenants/tenants/affinity.py:575-611 | both settings in one statement, refused locally outside a transaction, recorded when it worked and forgotten when it raised |
| `GuardedConnections.GuardedConnection.Apply` | django_rls_tenants/tenants/affinity.py:617-656 | writes the active values exactly when the record differs from them and the session can take them |
| `GuardedConnections.GuardedConnection.Abandon` | django_rls_tenants/tenants/affinity.py:1064-1089 | rolls back, or closes a connection whose session will not end its transaction |
| `GuardedConnections.GuardedConnection.RunOwn` | django_rls_tenants/tenants/affinity.py:1023-1061 | BEGIN, the values, the statement, COMMIT, with every step able to fail; what becomes of the statement's work is `Transparency.OwnWorkIsKeptIff` |
| `GuardedConnections.GuardedConnection.FollowStatement` | django_rls_tenants/tenants/affinity.py:888-932 | what the record makes of each transaction-control statement that ran |
| `GuardedConnections.GuardedConnection.NoteStatement` | django_rls_tenants/tenants/affinity.py:1122-1140 | what is forgotten, followed or suspected once the statement has run or raised |
| `GuardedConnections.GuardedConnection.RunGuarded` | django_rls_tenants/tenants/affinity.py:1095-1140 | the whole execute wrapper around one statement |
| `GuardedConnections.GuardedConnection.EndByDjango` | django_rls_tenants/tenants/affinity.py:451-500 | the wrapped commit and rollback: the outcome reported to the record agrees with the statuses before and after |
| `GuardSoundness.WriteGucsKeeps` | django_rls_tenants/tenants/affinity.py:575-611 | a write by the library keeps the record sound, whatever fails |
| `GuardSoundness.ApplyIfStaleKeeps` | django_rls_tenants/tenants/affinity.py:617-656 | so does applying the active context |
| `GuardSoundness.StatementKeeps` | django_rls_tenants/tenants/affinity.py:1117-1131 | so does any statement of any kind sent as it is, and what is followed of it |
| `GuardSoundness.OwnTransactionCloses` | django_rls_tenants/tenants/affinity.py:1023-1089 | for every point of failure the session is idle or the connection closed, what it keeps is as before unless the statement itself changed it, and the statement was shown the active context |
| `GuardSoundness.OwnTransactionKeeps` | django_rls_tenants/tenants/affinity.py:1023-1089 | with every combination of failures the guard changes nothing the session keeps, and the record stays sound |
| `GuardSoundness.GuardKeeps` | django_rls_tenants/tenants/affinity.py:1095-1140 | every guarded statement keeps the record sound, whatever it does and whatever fails |
| `GuardSoundness.GuardShowsActiveContext` | django_rls_tenants/tenants/affinity.py:1095-1140 | a data statement is shown exactly the active context, or does not run |
| `Transparency.OwnWorkIsKeptIff` | django_rls_tenants/tenants/affinity.py:1023-1089 | a data statement in local mode and autocommit raises if and only if some step failed, is shown the context, and its work is kept if and only if every step up to it worked and the COMMIT was done; the session keeps its settings, and is idle or closed, closed only where it was lost or would not roll back |
| `Transparency.SentAsItIs` | django_rls_tenants/tenants/affinity.py:1117-1120 | without a transaction of its own a statement has the session, but for its settings, that it would have had without the guard |
| `Transparency.RefusedRunsAsItIs` | django_rls_tenants/tenants/affinity.py:972-998 | one PostgreSQL may refuse in a transaction gets none: it runs, raises and shows exactly as without the guard |
| `Transparency.EndKeepsWorkIff` | django_rls_tenants/tenants/affinity.py:451-500 | Django's own commit keeps the transaction's work if it was open and the commit done, and takes it back if it had failed |
| `Transparency.RunIsTransparent` | django_rls_tenants/tenants/affinity.py:1095-1140 | over every run, in both modes and with any interleaving of contexts, the session's transactions, savepoints and work are those the same statements leave without the guard |
| `Transparency.StatementRaisesAsItWould` | django_rls_tenants/tenants/affinity.py:1095-1140 | so each statement of the run raises exactly where it would without the guard |
| `Precision.RecordIsExact` | django_rls_tenants/tenants/affinity.py:193-332 | in session mode, after every run of statements the guard can follow, the record holds exactly the values the session shows, and as much of its transaction and savepoints: nothing is forgotten |
| `Precision.ReleaseKeepsKnown` | django_rls_tenants/tenants/affinity.py:951-966 | a release of a tracked savepoint, in both modes, leaves known what was known |
| `Precision.RollbackKnowsAgain` | django_rls_tenants/tenants/affinity.py:951-966 | after a rollback to a tracked savepoint the record knows what it knew when that was set |
| `Precision.BegunKnowsTheStart` | django_rls_tenants/tenants/affinity.py:245-260 | a transaction begins knowing what was known, with nothing changed or written in it |
| `Precision.NestedSavepointsKeepTheContext` | django_rls_tenants/tenants/affinity.py:888-966 | savepoints set, released and gone back to, properly nested, with data statements between: in both modes the transaction holds the context, and the record knows it |
| `Precision.UnchangedIsKept` | django_rls_tenants/tenants/affinity.py:951-966 | the end of a savepoint that is not tracked forgets nothing while the transaction has written nothing |
| `Precision.WrittenAgainIsUnchanged` | django_rls_tenants/tenants/affinity.py:262-277 | writing again what is known changes nothing a savepoint or an end would forget |
| `Precision.EndWithoutCommitKnowsTheStart` | django_rls_tenants/tenants/affinity.py:451-500 | an end by Django that took the work back, refused commits and interrupted rollbacks included: the record knows what it knew when the transaction began |
| `Precision.UnseenEndKeepsKnown` | django_rls_tenants/tenants/affinity.py:305-325 | nor does an unseen end of a transaction that wrote nothing for the session, or nothing new |
| `Precision.DataHolds` | django_rls_tenants/tenants/affinity.py:1095-1140 | in a transaction, in both modes, a data statement goes through, is shown the context, and leaves it held and known |
| `Runs.TransactionEndKeeps` | django_rls_tenants/tenants/affinity.py:451-500 | a commit or rollback by Django, also failed or interrupted, keeps the record sound |
| `Runs.RunKeeps` | django_rls_tenants/tenants/affinity.py:193-332 | the invariant holds after every run within the limits |
| `Runs.TrackerSoundOverEveryRun` | django_rls_tenants/tenants/affinity.py:193-332 | after every run, a look at a session not in error finds unknown values or exactly those its statements see |
| `Runs.EveryStatementSeesItsContext` | django_rls_tenants/tenants/affinity.py:1095-1140 | in every run, each data statement is shown the values of the task that runs it, in both modes, with any interleaving |
| `Limits.DroppedSavepointShowsAnotherTenant` | django_rls_tenants/tenants/affinity.py:951-966 | one run from a new session: a rollback to an unseen savepoint drops a tracked one of a repeated name, and a later statement is shown another tenant |
| `Limits.InterruptedChainShowsATenant` | django_rls_tenants/tenants/affinity.py:1122-1126 | one run from a new session: an interrupted COMMIT AND CHAIN and a rollback, and a statement outside any context is shown the tenant that was kept |
| `Limits.UnseenTransactionShowsATenant` | django_rls_tenants/tenants/affinity.py:245-260 | one run from a new session: a transaction ended and another begun past the cursor, a rollback the guard sees, and a statement outside any context is shown what was kept |
| `Limits.InterruptedCompoundShowsItsValue` | django_rls_tenants/tenants/affinity.py:1122-1129 | one run from a new session: a compound statement that wrote the settings is interrupted once done, and the next statement outside any context is shown them |
| `GuardSoundness.ChainedUnnoticed` | django_rls_tenants/tenants/affinity.py:1122-1126 | after an unnoticed chained end, a record that forgets is sound if and only if it took what the end has left for the start |
| `ExactLimits.EndIsSafeIff` | django_rls_tenants/tenants/affinity.py:1095-1140 | an end of the transaction, chained or not, under each fault, is harmless in every run that follows if and only if it is no interrupted COMMIT AND CHAIN that keeps something else than the record takes for the start |
| `ExactLimits.SavepointLimitIsExact` | django_rls_tenants/tenants/affinity.py:951-966 | a statement on savepoints, under each fault, is harmless whatever values they hold and whatever run follows, if and only if it is followed, takes no effect, or leaves and sets no unnoticed namesake of a tracked one |
| `LocalMode.NoContextIsEverKept` | django_rls_tenants/tenants/affinity.py:642-649 | in local mode a session only ever keeps its initial values or none, over every run in which contexts are written locally |
| `LocalBlocks.BlocksKeepNoContext` | django_rls_tenants/tenants/context.py:234-738 | the same of any number of tasks entering and exiting blocks of either kind in local mode, where the library's local writes are derived from the blocks |
| `LocalBlocks.SessionBlockKeepsItsContext` | django_rls_tenants/tenants/context.py:234-316 | false in session mode: a block keeps its values for the session |
| `ForeignWrites.NoForeignWriteOutlivesItsContext` | django_rls_tenants/tenants/affinity.py:1132-1140 | in local mode, what code inside contexts wrote for the session, committed, rolled back or noticed when interrupted, is not shown to a statement outside, from any moment on at which the record was in step |
| `ForeignWrites.ForeignWriteIsSafeIff` | django_rls_tenants/tenants/affinity.py:1095-1140 | whatever is written and whatever run follows, a foreign write does not outlive its context if and only if the guard notices it |
| `ForeignWrites.UnnoticedOutlives` | django_rls_tenants/tenants/affinity.py:1095-1140 | for each unnoticed write of another value, a run after which a statement outside every context is shown it |
| `ForeignWrites.ForeignWriteNoticedIff` | django_rls_tenants/tenants/affinity.py:1023-1089 | a foreign write in the guard's own transaction is noticed if and only if its COMMIT was not interrupted once done, or nothing was believed before |
| `ForeignWrites.SuspectedIdleIsSound` | django_rls_tenants/tenants/affinity.py:729-762 | suspecting an idle session at the end of a context makes the record sound, whatever went unnoticed |
| `ForeignWrites.SuspectedCommitIsSound` | django_rls_tenants/tenants/affinity.py:283-303 | so does suspecting one in a transaction that is then committed |
| `AliasLoops.SettleAlias` | django_rls_tenants/tenants/affinity.py:701-726 | one turn of the loop: when the active context is applied, what a database error leaves, and that any other exception ends the loop |
| `AliasLoops.SettleOtherAliases` | django_rls_tenants/tenants/affinity.py:676-726 | each configured alias but the restored one is settled, in order, past database errors |
| `AliasLoops.SuspectSessions` | django_rls_tenants/tenants/affinity.py:729-762 | each open connection is looked at and suspected |
| `AliasLoops.SettleAfterACallWithoutContext` | django_rls_tenants/tenants/context.py:169-199 | suspects first and settles second |
| `Aliases.EachAliasIsSettled` | django_rls_tenants/tenants/affinity.py:676-726 | no alias is left out or settled twice, unless an exception not of the database ends the loop |
| `Aliases.DatabaseErrorsEndNoLoop` | django_rls_tenants/tenants/affinity.py:701-726 | an error of the database leaves no alias unsettled |
| `Aliases.SettlingKeeps` | django_rls_tenants/tenants/affinity.py:676-726 | settling keeps every record sound |
| `Aliases.GuardRemembers` | django_rls_tenants/tenants/affinity.py:617-656 | after a statement that went through the guard knows the context, and writes nothing before the next one under it |
| `Aliases.SuspectThenSettle` | django_rls_tenants/tenants/context.py:169-199 | after a call without context every healthy alias holds the enclosing context, and the record knows it |
| `Aliases.LocalSuspectThenSettleOne` | django_rls_tenants/tenants/context.py:169-199 | so in local mode, in an open transaction or without an enclosing context |
| `Aliases.HeldAfterCommit` | django_rls_tenants/tenants/affinity.py:283-303 | what was settled is held and known after a commit in session mode |
| `Aliases.BaseAfterRollback` | django_rls_tenants/tenants/affinity.py:305-325 | after a rollback the record is back at what it knew when the transaction began |
| `Aliases.EnclosingExitTakesThemOff` | django_rls_tenants/tenants/context.py:169-199 | right after the call, or after the commit of its transaction, the enclosing block's exit takes the values off the alias again |
| `Aliases.ExitTakesOffIff` | django_rls_tenants/tenants/affinity.py:701-726 | whatever happened in between, an exit leaves the enclosing context on a healthy alias if and only if a context is known there, or the session shows it already |
| `Precision.ExitLeavesNoOtherContext` | django_rls_tenants/tenants/affinity.py:676-726 | after every run the guard can follow, in session mode, an exit leaves the alias with the context around the block or with none |
| `Precision.ExitAfterNestingTakesItOff` | django_rls_tenants/tenants/affinity.py:676-726 | after properly nested savepoints, in both modes, the exit leaves exactly the context around the block |
| `Aliases.ExitAfterRollbackIff` | django_rls_tenants/tenants/context.py:169-199 | after a call in a transaction that is rolled back: if and only if a context was known when it began, or the session showed that one then |
| `Aliases.NothingIsLocalInSessionMode` | django_rls_tenants/tenants/affinity.py:262-277 | no run in session mode records a local write |
| `HolderObjects.Holder.constructor` | django_rls_tenants/tenants/state.py:177-181 | a new holder lives |
| `HolderObjects.ContextGucsVariable.GetContextGucs` | django_rls_tenants/tenants/state.py:206-213 | the values of the current holder while it lives |
| `HolderObjects.ContextGucsVariable.SetContextGucs` | django_rls_tenants/tenants/state.py:238-252 | a fresh, newest holder becomes current, and the token remembers what was |
| `HolderObjects.ContextGucsVariable.ResetContextGucs` | django_rls_tenants/tenants/state.py:255-283 | ends the block first, then restores, or ends what is current for a used token, or leaves another Context alone |
| `HolderObjects.ContextGucsVariable.EndIfNewerThan` | django_rls_tenants/tenants/state.py:221-228 | a holder left current is ended only if it is newer |
| `HolderObjects.ContextGucsVariable.HoldContextGucs` | django_rls_tenants/tenants/state.py:286-300 | the current holder is set again, or one of no context |
| `HolderObjects.ContextGucsVariable.ReleaseContextGucs` | django_rls_tenants/tenants/state.py:303-312 | what was found comes back, a newer holder is ended |
| `HolderObjects.ContextGucsVariable.ClearContextGucs` | django_rls_tenants/tenants/state.py:315-322 | the current holder is ended and none is current |
| `HolderObjects.ContextGucsVariable.CopyInto` | django_rls_tenants/tenants/state.py:149-168 | asgiref copies a value where the two differ, in the sense of the holders' own inequality |
| `HolderProperties.EndedStaysEnded` | django_rls_tenants/tenants/state.py:141-188 | no run makes an ended holder live again, or changes a holder's values |
| `HolderProperties.VisibleValuesAreOfAnOpenBlock` | django_rls_tenants/tenants/state.py:141-188 | in every run, over any Contexts, the values visible anywhere are of a block entered and not exited |
| `HolderProperties.EntryIsVisible` | django_rls_tenants/tenants/state.py:238-252 | an entry is visible in its own Context and changes what no other one sees |
| `HolderProperties.HoldIsInvisible` | django_rls_tenants/tenants/state.py:286-300 | a hold changes nothing that is visible |
| `HolderProperties.CopiesExactly` | django_rls_tenants/tenants/state.py:149-168 | exactly what asgiref copies: a value that is set, but never a block's holder over a holder |
| `HolderProperties.ClearEndsExactly` | django_rls_tenants/tenants/state.py:315-322 | a clear ends the current holder in every copy, and no other |
| `HolderProperties.ExitEndsEveryCopy` | django_rls_tenants/tenants/state.py:255-283 | after an exit, in whatever Context and order, no Context ever shows the block through its holder again |
| `HolderProperties.ExitEndsExactly` | django_rls_tenants/tenants/state.py:255-283 | an exit ends the block's holder, a newer one left current, and for a used token the current one; nothing else |
| `HolderProperties.SparesOlderIff` | django_rls_tenants/tenants/state.py:221-228 | an exit ends no older block, if and only if it is not a used token over a live older current one |
| `HolderProperties.UsedTokenEndsAnEnclosingBlock` | django_rls_tenants/tenants/state.py:255-283 | a concrete run: the inner block's exit run twice ends the outer block |
| `HolderProperties.HeldContextIsNotInvaded` | django_rls_tenants/tenants/middleware.py:201-219 | between hold and release, copied-in blocks replace neither the holder nor what is visible |
| `HolderProperties.ReleaseRestoresWhatWasHeld` | django_rls_tenants/tenants/state.py:303-312 | whatever happened meanwhile, the release restores the slot found and ends exactly a newer current holder |
| `PlainStacks.OrderlyExitsAreAStack` | django_rls_tenants/tenants/state.py:141-188 | with exits newest first in each Context and any copies between them, every Context sees the top of its own plain stack |
| `AutoScope.StepAgreesIff` | django_rls_tenants/tenants/state.py:36-76 | each event leaves every Context filtering for its visible context if and only if it is no copy or release that brings one without the other |
| `AutoScope.AlwaysAgreesIff` | django_rls_tenants/tenants/state.py:141-188 | so over every run, at every moment |
| `AutoScope.EntryAndExitRestoreTheTenant` | django_rls_tenants/tenants/state.py:36-76 | an entry filters for its context's tenant, its exit for the one found, a clear for none |
| `AutoScope.CancelledCallBringsItsTenant` | django_rls_tenants/tenants/state.py:149-168 | a concrete run: a cancelled call leaves the task its holder, and another tenant to filter for |
| `ContextBlocks.SetGuc` | django_rls_tenants/rls/guc.py:42-75 | one setting written for the session; the guard only looks |
| `ContextBlocks.RestoreSaved` | django_rls_tenants/rls/context.py:28-96 | both settings restored, database errors skipped only with an exception pending, the rollback mark put back |
| `ContextBlocks.TakeSnapshot` | django_rls_tenants/tenants/context.py:394-404 | both settings read through the guard under the enclosing context |
| `ContextBlocks.RestoreBlock` | django_rls_tenants/tenants/context.py:474-506 | restored on the block's own session only, recorded as the active context, unknown or forgotten |
| `ContextBlocks.ContextManager.Enter` | django_rls_tenants/tenants/context.py:234-316 | snapshot, holder, write; a write that raises exits the block |
| `ContextBlocks.ContextManager.Exit` | django_rls_tenants/tenants/context.py:407-471 | the holder is reset, then the snapshot restored, or the alias settled and suspected |
| `ContextBlocks.EnterOnConnection` | django_rls_tenants/tenants/context.py:509-560 | the hop of an asynchronous entry: the active context applied, both settings read as they are, the block's values written, and undone when the second write raises; what it holds then is `BlockEntries.HopHolds` |
| `ContextBlocks.ContextManager.EnterInHop` | django_rls_tenants/tenants/context.py:636-645 | the first half of an asynchronous entry, in a copy of the coroutine's Context; no holder yet |
| `ContextBlocks.ContextManager.PushAfterHop` | django_rls_tenants/tenants/context.py:646-659 | the second half: the holder is entered in the coroutine |
| `ContextBlocks.ContextManager.ResetHolder` | django_rls_tenants/tenants/context.py:109-131 | the first half of an asynchronous exit |
| `ContextBlocks.ContextManager.Restore` | django_rls_tenants/tenants/context.py:407-506 | the second half, the restore in a hop |
| `ContextBlocks.ContextManager.UndoInHop` | django_rls_tenants/rls/context.py:201-246 | the undo of an entry that was cancelled in its hop |
| `Blocks.SnapshotIsTheEnclosingContext` | django_rls_tenants/tenants/context.py:394-404 | a snapshot is exactly what the enclosing context shows |
| `Blocks.HopReadsTheEnclosingContext` | django_rls_tenants/tenants/context.py:509-560 | so is the one an asynchronous entry takes in its hop, past the guard |
| `Blocks.HopKeeps` | django_rls_tenants/tenants/context.py:509-560 | the hop keeps the record sound, whatever fails in it |
| `Blocks.WrittenBackIsTheEnclosingContext` | django_rls_tenants/tenants/context.py:489-506 | what an exit writes back is what the context active again shows, cleared if that has ended |
| `Blocks.RestoreKeeps` | django_rls_tenants/tenants/context.py:474-506 | every way a restore can end, in the same or another Context, keeps the record sound |
| `BlockEntries.EntryHolds` | django_rls_tenants/tenants/context.py:234-316 | a synchronous entry that does not raise leaves the block's values on the session, now and after a commit, and known; where nothing fails it does not raise |
| `BlockEntries.HopHolds` | django_rls_tenants/tenants/context.py:509-560 | the same of the hop of an asynchronous entry, whose snapshot is the enclosing context |
| `BlockEntries.FailedHopIsUndoneIff` | django_rls_tenants/rls/context.py:189-198 | a hop whose write failed leaves the enclosing context on an idle session if and only if no write was done before it raised, or none of another value; nothing is believed of the session either way |
| `BlockEntries.SynchronousEntry` | django_rls_tenants/tenants/context.py:234-316 | whatever fails: an entry that went through makes the block's values those of its task's context, puts them on the session in session mode and leaves the connection alone in local mode; it goes through in local mode, and where nothing fails |
| `BlockEntries.AsynchronousEntry` | django_rls_tenants/tenants/context.py:636-645 | so the first half of an asynchronous one, which enters no holder |
| `BlockEntries.PushedEntry` | django_rls_tenants/tenants/context.py:646-659 | the second half makes the block's values those of the coroutine's context |
| `BlockEntries.FaultlessExit` | django_rls_tenants/tenants/context.py:407-506 | in its own Context, where its writes work, the restore of a block leaves the enclosing context on the session, now and after a commit, and known |
| `BlockEntries.ExitElsewhere` | django_rls_tenants/tenants/context.py:489-506 | in another one, the block's own session gets its snapshot back, another session is left alone, and nothing is believed |
| `BlockEntries.SettledHoldsTheTasksContext` | django_rls_tenants/tenants/affinity.py:676-726 | the exit of a block of another alias leaves the task's context on this one, if a context was known there |
| `BlockEntries.InAndOut` | django_rls_tenants/tenants/context.py:234-471 | a session-mode block, entered and left where nothing fails: the Context as it was, and the enclosing context on the session, kept and known |
| `BlockEntries.LocalExitInTransaction` | django_rls_tenants/tenants/context.py:455-471 | in local mode an exit in an open transaction leaves the enclosing context there, and what a commit leaves counts as unknown |
| `BlockEntries.LocalExitWhileIdle` | django_rls_tenants/tenants/context.py:455-471 | an idle session is forgotten |
| `BlockEntries.LocalInAndOut` | django_rls_tenants/tenants/context.py:234-471 | a local block, a data statement shown its values, and its exit: the Context as it was, and the enclosing context in the transaction |
| `Snapshots.RecordedBothKeeps` | django_rls_tenants/tenants/affinity.py:540-572 | two single writes recorded as one pair keep the record sound |
| `Snapshots.WriteBothIsHalf` | django_rls_tenants/tenants/affinity.py:540-572 | a write that fails half-way is sound once the record forgets |
| `Blocks.StepKeeps` | django_rls_tenants/tenants/context.py:234-738 | entries, exits, the halves of asynchronous ones, statements and anything else keep the joint invariant of holders, connection and blocks |
| `Blocks.TraceMovesHolders` | django_rls_tenants/tenants/context.py:234-738 | what a run of blocks does to the holders is a run of theirs, so what is proved of those holds here |
| `Blocks.EveryTaskSeesItsOwnContext` | django_rls_tenants/tenants/affinity.py:1095-1140 | after any run of tasks sharing a connection, with anything between the halves of asynchronous entries and exits, a data statement is shown the innermost live context of its own task |
| `Blocks.EveryExitLeavesTheEnclosingContext` | django_rls_tenants/tenants/context.py:407-738 | sibling blocks, synchronous and asynchronous, exit in any order, with anything between their halves: what restores one leaves the session, now and after a commit, at its enclosing context or cleared, and known |
| `SettingBlocks.SettingsConnection.SetOne` | django_rls_tenants/rls/guc.py:42-75 | a local write needs a transaction, a marked or failed one refuses, else the value is set in its scope |
| `SettingBlocks.SettingsConnection.Restore` | django_rls_tenants/rls/context.py:28-96 | the loop of restores |
| `SettingBlocks.SettingsConnection.WriteEach` | django_rls_tenants/rls/context.py:189-195 | the loop of writes, which stops at the first failure and knows what it has done |
| `SettingBlocks.SettingsConnection.Enter` | django_rls_tenants/rls/context.py:168-198 | snapshot, writes, and the undo of those done when one fails |
| `SettingBlocks.SettingsConnection.EnterContext` | django_rls_tenants/rls/context.py:117-130 | the entry of a block of several settings, with its undo; when it goes through, and what it shows then, is `SettingBlocks.EntryGoesThroughIff` and `EntryShowsItsValues` |
| `SettingBlocks.SettingsConnection.EnterFlag` | django_rls_tenants/rls/context.py:150-152 | the entry of a bypass flag |
| `SettingBlocks.RestoreReportsTheTruth` | django_rls_tenants/rls/context.py:28-96 | True if and only if the session accepted every write, and then every setting is back; the rollback mark stops no write and is always put back |
| `SettingBlocks.EntryGoesThroughIff` | django_rls_tenants/rls/context.py:117-198 | an entry of any of the three kinds returns its snapshot if and only if it has nothing to write, or the session takes it (a local one in a transaction) and every write is done |
| `SettingBlocks.EntryShowsItsValues` | django_rls_tenants/rls/context.py:117-198 | then exactly its settings have its values, for statements and, outside local mode, for a commit, and the snapshot holds what they were |
| `SettingBlocks.FaultlessBlocksRun` | django_rls_tenants/rls/context.py:117-198 | blocks nested to any depth run, none raises, and every setting is back |
| `SettingBlocks.FailedEntryUndoesIff` | django_rls_tenants/rls/context.py:189-198 | when the k-th write fails the first k-1 settings are restored in every case, where the session still accepts statements; all are as before if and only if the failed write did not take effect or changed nothing |
| `SettingBlocks.FailedRlsContextUndoes` | django_rls_tenants/rls/context.py:117-130 | here also a write that took effect before raising is undone |
| `SettingBlocks.FailedBypassFlagIff` | django_rls_tenants/rls/context.py:150-152 | a failed entry of a bypass flag leaves the settings alone if and only if the write did not take effect or the flag was set already |
| `SettingBlocks.NestedBlocksUndo` | django_rls_tenants/rls/context.py:28-198 | blocks of every kind nested to any depth, in any mix of modes, with entries that fail and exceptions caught or pending, leave every setting as it was where their restores report success, empty counting as unset |
| `SettingBlocks.LocalBlocksKeepNothing` | django_rls_tenants/rls/context.py:28-198 | nested blocks that are local throughout leave what a commit keeps untouched, whatever fails |
| `SettingBlocks.SessionBlockKeepsIff` | django_rls_tenants/rls/context.py:28-198 | a restored session block leaves what a commit keeps as it was, if and only if that was what statements saw |
| `Keys.CastReadsTheKey` | django_rls_tenants/rls/policy_sql.py:46-61 | the cast of the setting reads the key the context was entered with |
| `Keys.KeysDoNotCollide` | django_rls_tenants/rls/policy_sql.py:46-61 | the settings of two contexts are equal only if their keys are |
| `Policies.SafeTenantSql` | django_rls_tenants/tenants/sql.py:137-160 | the fragment for any list of flags, with or without the admin bypass |
| `Policies.TenantMatchMeans` | django_rls_tenants/rls/policy_sql.py:64-80 | true exactly for rows of the set, non-empty tenant; unknown, not an error, without one |
| `Policies.UsingMeans` | django_rls_tenants/rls/constraints.py:107-143 | the USING clause is true exactly for an admin, a set bypass flag, or the row's tenant |
| `Policies.SafeTenantIsThePolicy` | django_rls_tenants/tenants/sql.py:137-160 | the OR spelling is true exactly where the policy's CASE is, in three-valued logic |
| `Policies.BareMatchIsThePolicyWithoutBypass` | django_rls_tenants/tenants/sql.py:146-148 | without the admin bypass it implies the policy, and equals it when no bypass is set |
| `Policies.FlagsNeverWidenWrites` | django_rls_tenants/rls/constraints.py:107-143 | WITH CHECK admits exactly the admin's rows and the tenant's own, whatever flags are set |
| `Policies.SharingWidensSelectOnly` | django_rls_tenants/rls/constraints.py:190-237 | extra predicates add to SELECT exactly the rows they hold for, and change no other command |
| `Policies.NothingIsSharedWithoutATenant` | django_rls_tenants/rls/predicates.py:216-255 | neither kind of library predicate holds without a tenant |
| `Policies.SharedWithMeans` | django_rls_tenants/rls/predicates.py:216-220 | true exactly when a record points at the row and at the current tenant |
| `Policies.TenantFieldMeans` | django_rls_tenants/rls/predicates.py:247-255 | true exactly when the named column holds the current tenant |
| `Policies.JoinPolicyMeans` | django_rls_tenants/rls/constraints.py:496-531 | a join row passes for an admin, or when every protected side it points at is of the tenant |
| `Policies.SidePolicyChangesNothing` | django_rls_tenants/rls/constraints.py:514-531 | the side's own policy inside the subquery changes nothing |
| `Isolation.PolicyReturnsTheRowsInReach` | django_rls_tenants/rls/constraints.py:107-143 | under a context's values a SELECT returns exactly the rows in its reach |
| `Isolation.GuardedReadIsIsolated` | django_rls_tenants/tenants/affinity.py:1095-1140 | end to end, after any run: exactly the innermost live tenant's rows, all for an admin, none without a context |
| `Isolation.ManagerNeverWidens` | django_rls_tenants/tenants/managers.py:1247-1257 | the manager's filter never shows a row the policy hides, whatever tenant it is for |
| `Isolation.ManagedReadIsIsolated` | django_rls_tenants/tenants/managers.py:1247-1257 | end to end, after any run without a harmful copy: the manager's query returns exactly the innermost live tenant's rows, all for an admin, none without a context |
| `Isolation.CancelledCallLosesRows` | django_rls_tenants/tenants/state.py:149-168 | a concrete run: after a cancelled call the task's own row is filtered out under its own context |
| `Isolation.ManagerChangesNothingIff` | django_rls_tenants/tenants/managers.py:1247-1257 | under one context the filter changes no result, of any table, if and only if nothing is in reach, it is for no tenant, or it is for the context's |
| `Isolation.ManagerKeepsIff` | django_rls_tenants/tenants/managers.py:1247-1257 | of one table, with any flags and sharing, exactly when every row the policy lets through is of the tenant |
| `SelectRelated.ResolveRelatedPath` | django_rls_tenants/tenants/managers.py:988-1022 | the model a path leads to and whether any hop can be NULL |
| `SelectRelated.FiltersOfSelectRelated` | django_rls_tenants/tenants/managers.py:336-359 | one filter for each path to a protected model with a tenant field |
| `SelectRelated.FilteredIff` | django_rls_tenants/tenants/managers.py:336-359 | a path gets a filter if and only if it leads to a protected model with a tenant field; it is for the active tenant, on that field, and lets a NULL pass if some hop may be one |
| `SelectRelated.FilterIsExact` | django_rls_tenants/tenants/managers.py:346-358 | a filter keeps a row exactly when its chain ends in the tenant, is broken by a NULL, or leads to a hidden row that reads as a NULL |
| `SelectRelated.SelectRelatedIsExact` | django_rls_tenants/tenants/managers.py:336-359 | all filters together keep a row exactly when every such path does so |
| `SelectRelated.FiltersDropNothingIff` | django_rls_tenants/tenants/managers.py:336-359 | while relations stay in the tenant, a row of the unfiltered left join is in the result if and only if no path leads to a hidden row that does not read as a NULL |
| `PrefetchResults.PrefetchScope.ScopeEachHop` | django_rls_tenants/tenants/managers.py:1103-1130 | the loop over the hops of one lookup, with the shared set and dictionary |
| `PrefetchResults.PrefetchScope.ScopeOne` | django_rls_tenants/tenants/managers.py:1101-1158 | one lookup: what is put before it, and what replaces it |
| `PrefetchResults.PrefetchScope.ScopeEach` | django_rls_tenants/tenants/managers.py:1097-1159 | all lookups, nested querysets included |
| `PrefetchResults.RewritingScopesTheRun` | django_rls_tenants/tenants/managers.py:1040-1159 | Django runs the caller's queries in the caller's order, and exactly the base-manager ones onto protected models without a queryset are replaced by the tenant's rows of the base manager |
| `PrefetchResults.NothingIsUnfiltered` | django_rls_tenants/tenants/managers.py:1040-1159 | no such query is left without it |
| `PrefetchResults.EachPathIsFetchedOnce` | django_rls_tenants/tenants/managers.py:1121-1137 | no path is fetched twice |
| `PrefetchResults.RewritingAddsNoSecondQueryset` | django_rls_tenants/tenants/managers.py:1103-1158 | no queryset is given to a path that is fetched already or has one, inserted, added or the caller's, at any depth |
| `PrefetchResults.NothingToScope` | django_rls_tenants/tenants/managers.py:1159 | with nothing to filter the input is returned |
| `PrefetchResults.CallersLookupsKeepTheirOrder` | django_rls_tenants/tenants/managers.py:1131-1158 | the caller's lookups keep order, path, to_attr and queryset |
| `PrefetchResults.SharedToAttrIsRefusedIff` | django_rls_tenants/tenants/managers.py:1108-1130 | two relations stored in one to_attr: fine as the caller wrote them; once rewritten, refused if and only if the second goes through the base manager, the first fetched a protected model, and got no filter |
| `RequestObjects.SetAliases` | django_rls_tenants/tenants/middleware.py:892-919 | the settings on every alias; or a failure, and a clear of those done, unless it passes the handler |
| `RequestObjects.ClearAliases` | django_rls_tenants/tenants/middleware.py:300-317 | clears until one raises |
| `RequestObjects.TenantRequest.ResetContextState` | django_rls_tenants/tenants/middleware.py:935-961 | holder, tenant and flag reset through their tokens, or cleared, or left alone inside a context |
| `RequestObjects.TenantRequest.CleanUp` | django_rls_tenants/tenants/middleware.py:922-969 | every part of the cleanup runs, even if the one before raised |
| `RequestObjects.TenantRequest.EndLeftOpen` | django_rls_tenants/tenants/middleware.py:228-248 | a current holder newer than the request, and not its own, is ended |
| `RequestObjects.TenantRequest.ProcessException` | django_rls_tenants/tenants/middleware.py:842-889 | the exception hook: a cleanup, or only the rollback mark in a transaction of its own; a block left open is ended either way |
| `RequestObjects.TenantRequest.Process` | django_rls_tenants/tenants/middleware.py:757-840 | the entry of a request with a context, and what a failed write leaves, caught or not; what the request is served with is in `RequestEntries` |
| `Requests.CleanupIsIdempotent` | django_rls_tenants/tenants/middleware.py:922-969 | after a cleanup that did not raise another changes nothing |
| `Requests.CleanupsAreOne` | django_rls_tenants/tenants/middleware.py:922-969 | any non-empty sequence of cleanups, the first of which did not raise, equals one |
| `Requests.CleanupsEndWithASuccess` | django_rls_tenants/tenants/middleware.py:922-969 | cleanups after one that did not raise change nothing, whatever those before it did |
| `Requests.ErrorsSeeNoBlockLeftOpen` | django_rls_tenants/tenants/middleware.py:228-248 | an error response is built in the request's own context, one at least as old as the request, or none; nothing else is ended |
| `Requests.HooksAreCleanups` | django_rls_tenants/tenants/middleware.py:842-889 | response hook, exception hook and error signal, in any order and number, equal the cleanups among them, after the end of a block left open |
| `Requests.HooksRestore` | django_rls_tenants/tenants/middleware.py:842-969 | one of them that cleans up restores holder, tenant and flag, and logs exactly one exit |
| `Requests.CleanupsRestore` | django_rls_tenants/tenants/middleware.py:922-969 | also with failing clears the first cleanup restores holder, tenant and flag for good, and ends the request's context |
| `Requests.CleanupClearsEveryAlias` | django_rls_tenants/tenants/middleware.py:300-317 | in session mode a cleanup that does not raise leaves every alias cleared, now and after a commit, and known |
| `Requests.CleanupsBalance` | django_rls_tenants/tenants/middleware.py:396-420 | each entry logged gets exactly one exit, however often the cleanup runs and whatever raises |
| `Requests.EntryIsOnAllOrNone` | django_rls_tenants/tenants/middleware.py:892-919 | a request is entered on every alias, or raises and leaves those that still take a write cleared, or what it raised passed the handlers |
| `Requests.FailedEntryIsTidyIff` | django_rls_tenants/tenants/middleware.py:822-840 | in autocommit, a failed entry leaves every alias that takes a write cleared and known to be, also after the cleanup, if and only if what it raised did not pass the handlers |
| `Requests.InterruptedEntryLeavesTheTenant` | django_rls_tenants/tenants/middleware.py:508-540 | an interrupted write on one alias: after the cleanup every alias before it keeps the tenant's values |
| `Requests.RequestLeavesWhatItFound` | django_rls_tenants/tenants/middleware.py:508-559 | from hold to release, with any view: the Context is as found, and no older holder has ended |
| `RequestEntries.EntryGoesThrough` | django_rls_tenants/tenants/middleware.py:757-840 | an entry succeeds in local mode, and in session mode where no write fails |
| `RequestEntries.EntryServesTheTenant` | django_rls_tenants/tenants/middleware.py:801-821 | one that succeeds serves the request in a new holder of its own values, with its tenant, the flag, and one entry logged; every alias holds the values in session mode, and none is touched in local mode |
| `RequestEntries.FailedEntryServesNothing` | django_rls_tenants/tenants/middleware.py:822-840 | one that raised leaves holders and log alone, and, if it was caught, no tenant and no flag |
| `RequestEntries.FailedSetClearsThoseWritten` | django_rls_tenants/tenants/middleware.py:892-919 | a write that raised and was caught: each alias written before it is cleared again, for good, where its own clear works, whatever comes of the second clear of all; those after it are untouched |
| `RequestEntries.ViewIsShownTheTenant` | django_rls_tenants/tenants/middleware.py:757-840 | a data statement of the view, on any configured alias, in both modes, is shown the request's values or nothing |
| `RequestEntries.FaultlessCleanup` | django_rls_tenants/tenants/middleware.py:922-969 | where nothing fails the cleanup of a request that entered does not raise, restores what it found, and leaves every alias cleared, for good, and known |
| `RequestEntries.UsedTokenStopsTheReset` | django_rls_tenants/tenants/middleware.py:935-961 | the reset raises if and only if one of its tokens was used; what comes after that one is left as it is, and is tried again by the next cleanup |
| `RequestEntries.LocalCleanupSuspects` | django_rls_tenants/tenants/middleware.py:300-317 | in local mode it runs no statement and suspects every open session |
| `RequestEntries.CleanupOfNothing` | django_rls_tenants/tenants/middleware.py:935-961 | a request that set nothing leaves all three variables alone inside a live context, and else clears tenant and flag |
| `RequestEntries.RequestInAndOut` | django_rls_tenants/tenants/middleware.py:757-969 | a whole request in session mode, where nothing fails: served with its values on every alias, and everything as found and cleared after it |
| `Pool.DeclaredNames` | django_rls_tenants/pool.py:143-165 | the names the constraints of all models read, each once |
| `Pool.DeclaredNamesAreThoseRead` | django_rls_tenants/pool.py:143-165 | exactly those some constraint reads |
| `Pool.PolicyNames` | django_rls_tenants/pool.py:116-140 | exactly the custom names among the two settings and the declared ones |
| `PoolConnections.PooledConnection.Clear` | django_rls_tenants/pool.py:97-113 | one statement clears all names, committed outside autocommit, and is recorded |
| `PoolConnections.PooledConnection.ClearNew` | django_rls_tenants/apps.py:50-96 | a failure the handler catches ends a pooled session and is logged on any other; one that passes it leaves the session open |
| `PoolConnections.PooledConnection.Install` | django_rls_tenants/tenants/affinity.py:389-416 | a pooled session is attached with unknown values, one already tracked keeps its record |
| `PoolConnections.PooledConnection.PrepareNew` | django_rls_tenants/apps.py:180-231 | install, clear and apply, by thread, pool and mode |
| `Pool.CheckoutKeeps` | django_rls_tenants/apps.py:180-231 | a checkout leaves the record sound, raises where the session ended or a failure passed a handler, and otherwise starts clean, with the request's values where they were applied |
| `Pool.CheckoutIsCleanOrEndedIff` | django_rls_tenants/apps.py:50-96 | whatever was left, a checkout ends its session or starts with every policy setting cleared but for the request's two, if and only if no clear was interrupted past the handler before it took effect for good |
| `Pool.PassedClearLeaves` | django_rls_tenants/apps.py:74-95 | an interrupted clear leaves the session open, with what the previous borrower left, or cleared if it had taken effect |
| `Pool.FirstStatementFinds` | django_rls_tenants/apps.py:180-231 | after a checkout that did not raise, a borrower's first statement finds its own context's two settings and every other one cleared, also where applying the request's values failed |
| `Pool.FaultlessCheckout` | django_rls_tenants/apps.py:180-231 | where nothing fails a pooled checkout is open and clean, with the request's values applied and known where they are due, and no other setting touched |
| `Pool.NewSessionIsKnown` | django_rls_tenants/apps.py:204-231 | a session that is no pool's is never ended by a failed clear; it is known to hold nothing, or the request's values where they are due |
| `Pool.InstallKeepsATrackedRecord` | django_rls_tenants/tenants/affinity.py:389-416 | a session already tracked keeps its record, unless it may hold anything |
| `Pool.ReturnGoesThroughIff` | django_rls_tenants/pool.py:53-89 | a session is given back if and only if it is not lost and its reset, if it has one, works; exactly the names of the reset are cleared |
| `Pool.ReturnIsCleanOrDiscarded` | django_rls_tenants/pool.py:53-89 | with the reset a session returns clean or not at all |
| `Pool.EveryCheckoutIsCleanOrEnded` | django_rls_tenants/apps.py:180-231 | the same after every run of checkouts and returns, with or without the reset, interrupted ones included |
| `Pool.EveryFirstStatementFinds` | django_rls_tenants/apps.py:180-231 | so for the first statement of every borrower |

## Left out

- Keys.CastReadsTheKey: keys are integers; UUID keys, whose text is compared in the same way, are not modelled.
- PrefetchResults.SharedToAttrIsRefusedIff: exact for two lookups of one hop; for other lists `PrefetchSoundness.LegalAll` is sufficient.
- PrefetchResults.RewritingScopesTheRun: assumes that lookups reach a path through one relation (no two store different relations in one `to_attr`), because otherwise it is false (`PrefetchResults.SharedToAttrIsRefusedIff`); objects Django has cached before the prefetch are not part of the model.
- Isolation.GuardedReadIsIsolated: it and `Isolation.ManagedReadIsIsolated` are for models without bypass flags and sharing predicates; what those add is in `Policies.UsingMeans` and `Policies.SharingWidensSelectOnly`.
- Blocks.EveryExitLeavesTheEnclosingContext: one connection is modelled; an exit that finds it closed forgets its values, and the reconnection is an event of its own. A hop runs at one moment, as its thread runs nothing else; a second cancellation, of the undo itself, is left out.
- ContextBlocks.RestoreBlock: one connection; a closed one is forgotten where the source's cursor opens it again.
- ContextBlocks.ContextManager.Enter: on one connection; a closed one makes an entry that writes for the session fail, where the source opens it again.
- ContextBlocks.ContextManager.Exit: on one connection; the other aliases are settled in `AliasLoops`.
- RequestObjects.ClearAliases: a closed connection is skipped, where the source's cursor opens it again; a session opened so is an event of its own.
- RequestObjects.TenantRequest.Process: of the failures, those of the writes to the aliases; resolving the user does not fail in the model.
- Requests.RequestLeavesWhatItFound: the synchronous path, with all hooks in one `Context`; the native asynchronous path and the hook path under ASGI are not modelled.
- Requests.EntryIsOnAllOrNone: a closed connection raises on a write and is skipped by a clear; opening one is modelled in `Pool`. A logging handler that raises is not modelled.
- Statement parsing: a statement is a datatype of commands, with what an opaque one does; `_skip_leading_comments` and the classification of words are not part of this model.
- The setting blocks work on any settings and are not combined with the guard's record; the pair the guard follows is in `Snapshots`.
- Connections without a tracker, and the libpq status of a running query.
- A status reader or a logger that raises.
- Cast errors on malformed tenant ids, and names captured inside a policy's subquery.
- SQL text, quoting, identifier checks, and the DDL's `IF NOT EXISTS` blocks.
- `with_rls_context`'s choice of user, tenant selection, cross-tenant foreign key checks, system checks, audit records other than the request's.
- Fetch modes of Django 6.1 in the prefetch rewriting: they do not affect which rows are read.
- Changes of `USE_LOCAL_SET` during a run.
