# sqi-server's broker account: guard, standby, revocation

sqi-server keeps its messages in one NATS account, and only one server may work on it. This
project models the code that sees to that, and the code around it, and proves what it promises.

* **The guard** (`internal/bus/guard.go`). A lease on one key of a JetStream bucket. `KvBucket`
  is the broker's side: per-key compare-and-set, one sequence for all writes, delete markers, a
  TTL that never expires a message early. `GuardProtocol` is a step machine of any number of
  servers running the acquire, refresh and release code against it over a network that may
  delay, reorder or lose any request or reply, even past its sender's timeout. `GuardCustody`,
  `GuardTenure`, `GuardDeposed`, `GuardSplitBrain`, `GuardRetake` and `GuardLease` prove what
  every run keeps; `GuardProgress` what a server gets done when nothing disturbs it;
  `GuardExamples` has the runs that break claims. `GuardObject` is guard.go in its own form, a
  `Guard` object and the loops that take the key, proved against one server's part of the machine
  for every sequence of answers. `GuardAnswers` says what that part makes of which answers, and
  `GuardCode` proves it to be a run of the machine in any surroundings.
* **The standby** (`internal/bus/remote_ha.go`, `remote.go`, `callout.go`). `RemoteState` has
  the fields the threads share and their lock-protected sections; `RemoteMachine` interleaves
  promotions, shutdowns, the broker check and `SetCalloutActive`; `RemoteProgress` says what
  they bring about; `ResponderDrain` follows the responder's requests. `RemoteObjects` is the code in its own form, the `Remote` and `Responder`
  objects with the threads that call them, proved to go through runs of both machines.
* **Revocation** (`internal/bus/remote.go`, `embedded.go`): `BrokerRevocation`, and the retry loop in
  `RetryUntil`.
* **Pure cores**: worker permissions under NATS matching (`Subjects`), the callout's decision
  (`Authorize`), shell quoting (`ShellQuote`), the two renderings of the account layout
  (`ConfigText`, `Layout`, `LayoutReadBack`), log paging (`LogPaging`).

Conventions. Times are in nanoseconds on one clock. Reads of the bucket are linearizable. An
instance id stands for a server; a holder value that cannot be read has the id "". Membership
is any predicate of the asking server, the id asked about and the instant. A request's answer,
the clock and every failure are inputs: the step machines choose them freely, and the methods take them as parameters.

Where the code falls short of what it says of itself. `retakeExpired` (guard.go:742-746) is said to
find out whether another server held the account in between. It reads the last sequence and
creates the key in two requests, so it does not when the other server's whole tenure falls
between them: `GuardExamples.RetakeMayHideTenure` is such a run, and
`GuardRetake.RetakeHidesTenureIff` says exactly when it happens. And a create that timed out may
still be handled later, after another server's tenure, and give the account back to a guard that had lost
it: `GuardExamples.LateCreateResurrects` is such a run. `GuardDeposed.ResurrectedIff` says that
these late creates are the only way: no late update or delete, and nothing any other server does, brings
it about. `streamTaskLogs` (tasks.go:440) means to stop once the task is terminal and no more chunks
arrived, but it reads the status after it listed the chunks: `LogPaging.ChunkLeftUnsent` is a tick
that leaves a chunk unsent, and `LogPaging.StreamTaskLogs` says exactly when none is. And a shutdown
does not wait for a check that runs in the foreground: `RemoteMachine.ServesAfterShutdown` is a run
in which the responder then serves after it was stopped, and `RemoteMachine.ServesAfterShutdownIff` says
when it can.

## Model

| member | source | states |
|---|---|---|
| GuardCustody.RunKeeps | internal/bus/guard.go:238-450 | every run keeps the invariant: each request in flight, reply, watch and lease is justified by the bucket's history, late and lost messages included |
| GuardCustody.ChainOfCustody | internal/bus/guard.go:238-450 | in every run, each step that takes the key from its holder is its expiry, the holder's own write or delete, an overwrite by a server that found the holder a member, or an overwrite of a value unwritten for a full TTL; nobody deletes another's key; a key without a value is only created |
| GuardCustody.Fencing | internal/bus/guard.go:614-741 | a held guard's revision is a write under its own id, no two held guards share one, and once anyone has written past it no refresh at it is accepted, then or later |
| GuardCustody.LostIsFinal | internal/bus/guard.go:692-741 | a guard that was told it is lost stays lost through the whole run until its release, which sends nothing |
| GuardCustody.HealthBound | internal/bus/guard.go:538-548 | whenever a guard reports itself healthy, during and after its release too, the broker's key named its instance at an instant of the run within the last TTL plus one operation timeout, by whichever of acquisition, refresh, adoption and retake |
| GuardCustody.NamedWitness | internal/bus/guard.go:538-548 | the history variable behind the health bound tells the truth: the run has a world in which the key named the instance at that instant |
| GuardTenure.RunTenures | internal/bus/guard.go:553-769 | every run keeps the tenures: after a held guard's revision its server writes again after another instance only by a late create of its own, and no update of its own still on its way can do otherwise |
| GuardDeposed.NoSilentResurrection | internal/bus/guard.go:631-686 | once another instance has written after a guard's revision the guard stays deposed, never again owns the key and its refresh is refused, whatever becomes of the other's key and whatever comes late, unless a create of the guard's own is accepted late after that write |
| GuardDeposed.ResurrectedIff | internal/bus/guard.go:631-769 | from the moment another instance has written over a guard, the key names it again if and only if a create of its own is accepted late: after its sender gave up, or in a retake after a write since the last-sequence read |
| GuardDeposed.DeposedRefreshEndsLost | internal/bus/guard.go:631-769 | a deposed guard's refresh ends lost wherever in the run its three requests are handled: update refused, count different, so that the retake's create is not reached, and the read foreign or missing unless a create of its own came late |
| GuardSplitBrain.SplitBrainBound | internal/bus/guard.go:538-548 | in every run, after anyone's write past its revision a guard reports itself healthy for at most one TTL and one operation timeout, released or not |
| GuardRetake.RetakeHidesTenureIff | internal/bus/guard.go:747-769 | a retake's new revision is not one past the old if and only if another instance, or a create the server itself had given up on, wrote in between; without the latter, if and only if another's write was hidden |
| GuardExamples.RetakeMayHideTenure | internal/bus/guard.go:742-769 | a concrete run in which another server's tenure falls between the retake's two requests and the guard is healthy after it |
| GuardExamples.LateCreateResurrects | internal/bus/guard.go:238-274 | a concrete run in which a create that timed out is handled after another server's tenure and gives a deposed guard the key back |
| GuardProgress.FreeKeyIsTaken | internal/bus/guard.go:238-274 | from any world of any run, an acquisition whose create is handled at once on a key without a value holds the guard at the next revision, and the key names it |
| GuardProgress.MemberKeyIsTaken | internal/bus/guard.go:341-384 | likewise an HA server whose three requests are handled undisturbed takes over a live key that names a member |
| GuardProgress.StaleKeyIsTaken | internal/bus/guard.go:291-450 | likewise one takes over anyone else's live key that stands still for 32 seconds |
| GuardProgress.OwnKeyIsAdopted | internal/bus/guard.go:238-274 | likewise a server that finds the key its own holds it at the revision found, without a write |
| GuardProgress.OtherKeyIsLeft | internal/bus/guard.go:238-274 | likewise a server without members gives up on another's live key and leaves the bucket as it was |
| GuardProgress.RefreshRenews | internal/bus/guard.go:631-661 | from any world of any run, a refresh at the key's revision, undisturbed, renews the lease at the next one |
| GuardProgress.ExpiredKeyIsRetaken | internal/bus/guard.go:747-769 | likewise a refresh of an expired key with nothing written since gets the key back |
| GuardProgress.ReleaseFreesKey | internal/bus/guard.go:553-588 | likewise a release at the key's revision leaves the key without a value |
| GuardProgress.ReleaseFindsKey | internal/bus/guard.go:568-588 | likewise a release at an older revision of its own value reads again and leaves the key without a value |
| GuardProgress.LostIff | internal/bus/guard.go:671-769 | a step makes a guard lost if and only if it delivers a read that shows another holder, or a last sequence other than the guard's revision |
| GuardProgress.KeptUpStaysHealthy | internal/bus/guard.go:614-661 | over every run, a holder whose refreshes start within the refresh interval, come back in time and are accepted still holds the guard, with a success at most 15 seconds ago, and is healthy |
| GuardLease.FreshCommit | internal/bus/guard.go:25-42 | if of every two consecutive refresh ticks one commits, the first tick coming one period after the loop starts, there is a commit within the last TTL at every instant |
| GuardLease.OnlyMembersTake | internal/bus/guard.go:291-336 | such a holder's key does not expire, and leaves it only by its own release or by a server that found it a member, whatever it held and released before |
| GuardLease.RefreshedKeyIsKept | internal/bus/guard.go:614-661 | such a holder, outside every other database and not releasing the guard, keeps the key for the whole run, and every write to the bucket is its own |
| GuardLease.RestoreExclusion | internal/bus/remote_restore.go:60-131 | while a restore holds the account under an id no database knows and keeps refreshing, no other server comes to hold the guard, plain or HA, starting meanwhile or already under way, unless it had the answer that gives it the key in hand before |
| GuardLease.AnswerGives | internal/bus/guard.go:238-408 | a server without a guard gets one from an answer if and only if it is one of those |
| GuardCode.TurnIsSteps | internal/bus/guard.go:238-450 | each turn of the code, of an acquisition, a refresh or a release, is one or two enabled steps of the machine that send the same request |
| GuardCode.CodeIsRun | internal/bus/guard.go:141-187 | in whatever surroundings the code gets whatever inputs, there is a run of the machine in which the server sends the code's requests in the code's order and ends where the code ends |
| GuardCode.TakenKeyIsOwn | internal/bus/guard.go:141-187 | when an acquisition's code holds the guard, its revision is its own write and no other held guard has it |
| GuardObject.CreateGuardKey | internal/bus/guard.go:238-274 | the retry loop sends what the machine sends and holds exactly when it does, for every sequence of answers; an accepted create is held, a declined one leads to a read that adopts its own value and refuses any other |
| GuardObject.TakeGuardKey | internal/bus/guard.go:291-336 | the bounded rounds send what the machine sends and hold the guard exactly when it does; from the answers: an accepted create, its own value found, an accepted overwrite of a member's key, and one of an outsider's that stood still through any number of polls to the end of the watch each give the guard at that answer's revision, with exactly these requests sent |
| GuardAnswers.MemberKeyOverwritten | internal/bus/guard.go:341-384 | an attempt that finds a member's key updates it at the revision found: accepted, it holds the new revision; declined, the next of three rounds begins; failed, it tries again unless the failure is definite |
| GuardAnswers.StaleKeyTaken | internal/bus/guard.go:293-450 | an outsider's key that stood still through n polls until 32 seconds had passed, and on the look after, is overwritten at its revision, and the guard held at the new one |
| GuardAnswers.StaleKeyRetaken | internal/bus/guard.go:390-408 | after the watch a missing key is created and an unchanged one overwritten, and the write's answer decides; a changed one begins the next round; a failed read or write ends the acquisition |
| GuardAnswers.WatchSeesMove | internal/bus/guard.go:305-320 | a watched key that moved to an outsider ends the acquisition; to this instance or a member, the round, of three |
| GuardAnswers.AttemptRetried | internal/bus/guard.go:341-384 | a create or read that failed, or found the key gone, is attempted again unless the failure is definite |
| GuardObject.TakeRound | internal/bus/guard.go:293-327 | one round probes, watches a non-member's key and retakes it, and leaves the machine where the next round starts; where the first attempt's answers settle it, it has taken or lost the key as they say |
| GuardObject.ProbeGuardKey | internal/bus/guard.go:341-384 | the probe's retries follow the machine to a taken key, a contested one, a non-member's revision, or failure; an accepted create, its own value, an accepted or declined overwrite of a member's, and a non-member's value each settle it, as taken, taken, taken or contested, and foreign |
| GuardObject.WatchGuardKey | internal/bus/guard.go:422-450 | "moved" exactly for another revision, "not moved" exactly for a missing key or one unchanged for the TTL and a poll, and nothing before either; it only reads |
| GuardObject.RetakeStale | internal/bus/guard.go:390-408 | create when the key is gone, overwrite at the watched revision, look again when it changed; the write accepted, the key is taken |
| GuardObject.CheckGuard | internal/bus/guard.go:457-497 | a standby is refused exactly for a non-member's key whose watch ends with a move to a non-member; it may join exactly when there is no bucket or the key is missing, a member's, or watched until it is one of these or stood still for a TTL and a poll; it fails exactly when no answer settles it; nothing is written |
| GuardObject.Guard.IsHealthy | internal/bus/guard.go:538-548 | it answers nil exactly when not lost and within 30 seconds of the last success; at the end of any run the key then named this instance within the last TTL plus one operation timeout, and whatever was written past its revision was written within that time |
| GuardObject.Guard.RefreshOnce | internal/bus/guard.go:631-661 | one refresh sends the machine's requests and ends in the machine's state; from the answers: an accepted update renews the lease, after a declined one the guard is lost exactly when the key is another's or gone with a different last sequence, its own value is adopted and a retake's accepted create renews it; anything else leaves the lease as it was |
| GuardObject.Guard.Reconcile | internal/bus/guard.go:671-686 | the same from the read after a refused refresh: lost, adopted, retaken or unchanged, each exactly by the answers |
| GuardObject.Guard.RetakeExpired | internal/bus/guard.go:747-769 | the same from the last-sequence read: lost exactly for another sequence, renewed exactly by an accepted create after the same one |
| GuardObject.Guard.Release | internal/bus/guard.go:553-588 | acts once; a lost guard deletes nothing; otherwise it deletes at its revision, and exactly when that is declined reads, and exactly when it finds its own value deletes at that revision |
| RemoteMachine.GuardConservation | internal/bus/remote_ha.go:344-419 | over every interleaving, each guard acquired is in exactly one place or released exactly once, at most one promotion runs, and a guard is held only with passed checks |
| RemoteMachine.NothingHeldAfterShutdown | internal/bus/remote.go:1188-1213 | after a shutdown, with no promotion or shutdown under way, every guard ever acquired was released once |
| RemoteProgress.ReleasedIffFailed | internal/bus/remote_ha.go:344-419 | in every run, before a shutdown a guard is released if and only if the promotion that acquired it failed; any other is stored by a leading server or in the hands of the promotion still running |
| RemoteProgress.PromotionStands | internal/bus/remote_ha.go:344-363 | a promotion that did not fail and finished on an open server leaves its guard stored and unreleased and the server leading, in every world until a shutdown |
| RemoteProgress.LeadingIff | internal/bus/remote_ha.go:344-419 | before a shutdown a server counts as leading exactly while a promotion runs or its guard is stored, so a failed promotion leaves it free for another |
| RemoteProgress.StandbyLeads | internal/bus/remote_ha.go:344-419 | from any run, an open standby whose check passed and that is not leading can be promoted and then leads with the guard acquired |
| RemoteProgress.CheckIsRecorded | internal/bus/remote_ha.go:189-245 | in every run a recorded outcome is the check's: passed, with the callout open, if and only if the check passed |
| RemoteMachine.CalloutAgreement | internal/bus/remote_ha.go:449-482 | until a shutdown, whenever calloutMu is free the responder serves only when the callout is open and the last requested state is active, failed subscriptions included; and exactly then while none has failed |
| RemoteProgress.WantedIsLastAsked | internal/bus/remote_ha.go:449-482 | the wanted state is what the last call of SetCalloutActive to write it asked for, and active before any |
| RemoteProgress.ServesIff | internal/bus/remote_ha.go:449-482 | until a shutdown, without failed subscriptions and with calloutMu free, the responder serves if and only if worker authentication is on, the check has passed and opened the callout, and active was last asked for |
| RemoteProgress.ShutdownStops | internal/bus/remote.go:1188-1213 | a responder attached before a shutdown is stopped and does not serve once the shutdowns are through |
| RemoteMachine.NeverServesUnchecked | internal/bus/remote_ha.go:189-245 | failures, shutdowns and a cancelled check included, the responder serves only once the checks passed, with the outcome recorded or about to be; the outcome is set once and its channel closed once |
| RemoteMachine.ServesAfterShutdownIff | internal/bus/callout.go:602-619 | once a shutdown has begun, a responder that does not serve can serve again if and only if a thread was already about to make it: a check with the responder in hand, unattached, so that Stop does nothing, or a resume |
| RemoteMachine.ServesAfterShutdown | internal/bus/remote_ha.go:59-109 | a concrete run in which a foreground check listens on a responder that a shutdown has already stopped |
| RemoteObjects.Perform | internal/bus/remote_ha.go:344-482 | one section of one thread on the Remote and Responder objects is the machine's step |
| RemoteObjects.Interleave | internal/bus/remote_ha.go:189-482 | any interleaving of promotions, shutdowns, the check and SetCalloutActive takes fresh objects through a run: the responder serves only once the checks passed, a stored guard means an open leader whose checks passed, and guards are conserved |
| ResponderDrain.SlotsAndAnswers | internal/bus/callout.go:503-534 | at every point of every run at most 16 requests hold a slot, no slot is lost or made up, the in-flight count is exact, and each request is answered exactly once or not yet |
| ResponderDrain.NoneAcceptedAfterClosing | internal/bus/callout.go:623-657 | once closing, no request is ever accepted, and what drain reported does not change |
| ResponderDrain.DrainedMeansAnswered | internal/bus/callout.go:623-657 | when drain reports true every request ever accepted was answered exactly once, and no other at all, from then on |
| ResponderDrain.NoneTurnedAwayBeforeClosing | internal/bus/callout.go:503-534 | in every run, until a drain begins no request is turned away |
| ResponderDrain.SlotFreeIff | internal/bus/callout.go:503-534 | a delivered request can take a slot exactly while fewer than 16 requests hold one |
| ResponderDrain.DrainCanEnd | internal/bus/callout.go:623-657 | from any world of any run in which a drain is under way, every request in flight can be answered and the drain then reports true |
| ResponderDrain.DrainReports | internal/bus/callout.go:623-657 | a drain that ends with nothing in flight before its deadline reports true, and only then; one whose deadline passes reports false |
| RemoteObjects.Dispatch | internal/bus/callout.go:503-534 | one step of dispatch or drain on the Responder object is the machine's |
| RemoteObjects.Serve | internal/bus/callout.go:503-657 | any interleaving of requests and a drain takes a fresh responder through a run: never more than 16 slots, and a drain that reports true leaves every accepted request answered once |
| BrokerRevocation.MergeAllIsLeast | internal/bus/remote.go:702-704 | merged views are the least bound of everything merged |
| BrokerRevocation.MergeOrderDoesNotMatter | internal/bus/remote.go:702-704 | concurrent merges in any order, with repeats, agree and never lower what was known |
| BrokerRevocation.KickAll | internal/bus/remote.go:1406-1431 | kicks exactly the listed connections of the worker; succeeds exactly when nothing else was listed and every kick was confirmed |
| BrokerRevocation.KickPass | internal/bus/remote.go:1383-1451 | counts the nodes that listed; succeeds exactly when connected, asked, answered, and every answer was good |
| BrokerRevocation.Revoke | internal/bus/remote.go:1314-1367 | nothing to do without auth or a system credential, an error without a worker id or a system connection; otherwise it succeeds if and only if the wait was not canceled and both passes were connected, asked and answered, every answer good, by at least as many nodes as the view has; the view is the least above what was known and learned; on success the final pass begins at the end of the first pass or the wait, whichever is later; the whole call fits the budget read before it unless the auth timeout was raised meanwhile, and the budget of the new view in any case; its kicks are those of the passes made |
| BrokerRevocation.RevokedWorkerIsGone | internal/bus/remote.go:1314-1367 | under those conditions, with the view bounding the cluster and one answer a node, no node holds a connection of the worker from then on |
| BrokerRevocation.NobodyElseIsKicked | internal/bus/remote.go:1383-1480 | every kick of either pass of a Revoke names a connection of the worker, whatever a node lists |
| BrokerRevocation.DisconnectUser | internal/bus/embedded.go:636-652 | closes every listed connection of the user and no other |
| BrokerRevocation.RevokeEmbedded | internal/bus/embedded.go:596-633 | success exactly when named, started, listed twice and not canceled; the final pass is after the wait and closes every connection of the worker; only the worker's are closed; the call fits the budget |
| BrokerRevocation.EmbeddedRevokedWorkerIsGone | internal/bus/embedded.go:596-618 | after such a final pass the broker holds no connection of the worker |
| RetryUntil.RetryUntil | internal/bus/remote.go:1031-1061 | the first attempt is made at once; each later one follows a transient failure, with the context not ended, a full wait after it ended and before the deadline; attempts are at most the budget's share of waits; nil exactly when the last succeeded, the context's error exactly when it ended after a transient failure with time left, a transient error only when the next attempt would not start before the deadline |
| Subjects.GrantsMeetIff | internal/brokerauth/permissions.go:35-102 | for a valid id and any other string, the two grants share a subject if and only if that string is a whole wildcard or the id followed by a dot |
| Subjects.WorkersIsolated | internal/brokerauth/permissions.go:61-102 | no subject is granted to two workers with distinct valid ids, publishing and subscribing taken together, on the concatenated strings |
| Subjects.MayPublishIff | internal/brokerauth/permissions.go:76-88 | on tokens, a valid id may publish on exactly task.status.ID.x, task.logs.ID.x, work.lease.ID.x for any one token x, and worker.register, heartbeat, deregister and diag of the id |
| Subjects.MaySubscribeIff | internal/brokerauth/permissions.go:89-102 | on tokens, a valid id may subscribe to exactly task.cancel.ID and anything below _INBOX_ID |
| Subjects.WildcardMeets | internal/brokerauth/permissions.go:51-66 | the claim fails for the id "*", and by matching alone for ">", some of whose grants nats-server refuses as malformed |
| Subjects.DottedMeets | internal/brokerauth/permissions.go:51-66 | the claim fails for an id that continues another's after a dot; when nothing follows the dot the shared subject has an empty token, which nats-server refuses |
| Subjects.TokensOfJoin | internal/brokerauth/permissions.go:76-102 | the tokens of two strings joined by a dot are the tokens of both, for strings with dots of their own too |
| Authorize.AllowedWorkersShareNothing | internal/bus/callout.go:150-179 | two connections let in under different ids share no subject, whatever the store answers and however it changes between them |
| Authorize.AllowedWorkerMay | internal/bus/callout.go:150-179 | what the claims of an allowed connection let it publish and subscribe to is exactly those subjects of its worker |
| ShellQuote.QuotedWordsReadBack | cmd/sqi-server/restore.go:268-279 | for every list of strings, quoting each and joining with blanks reads back as that list under POSIX single-quote rules |
| ShellQuote.ConnFlags | cmd/sqi-server/restore.go:252-266 | the printed flags read back as exactly the flags that have a value, each with its value |
| ShellQuote.ExternalConnFlags | cmd/sqi-server/restore.go:252-266 | the six settings of an external broker, in their order, under their flags |
| ShellQuote.BareIff | cmd/sqi-server/restore.go:268-279 | a word is printed without quotes if and only if it is nonempty and of literal characters only |
| ConfigText.FileRoundTrip | internal/bus/layout.go:206-264 | parsing the tokens of any printable document gives the document |
| ConfigText.TextReadsBack | internal/bus/layout.go:206-287 | lexing and parsing printed text gives the document whose tokens it prints |
| Layout.Options.Apply | internal/bus/layout.go:69-146 | refuses exactly the invalid layouts, changing nothing; otherwise accounts, users, grants, callout and no-auth user are the layout's, without duplicates |
| Layout.LayoutsAccepted | internal/bus/layout.go:69-97 | every account name of the allowed characters but the reserved ones, with keys of the right kind and any storage cap, 0 included, is accepted, with and without worker authentication |
| LayoutReadBack.FragmentMeansApply | internal/bus/layout.go:206-287 | text is printed for exactly the valid layouts and system users, and reads back as the same accounts, users, grants, callout and no-auth user as Apply sets, with the system user added to its account and to auth_users; no map key is given twice |
| LogPaging.GetTaskLogs | internal/api/tasks.go:283-338 | one page is the beginning of what is after the cursor, as long as the limit, held to 1..1000, allows, and with the chunks after the returned cursor makes up all of it |
| LogPaging.PageSplits | internal/api/tasks.go:283-338 | what is after the cursor is the page followed by what is after the next cursor; an empty page means nothing is left |
| LogPaging.FollowCursor | internal/api/tasks.go:283-338 | following the cursor with any limit yields every stored chunk after the start exactly once, in order |
| LogPaging.CursorAdvances | internal/api/tasks.go:318-338 | moving the cursor to any chunk of what is left leaves exactly what follows it |
| LogPaging.GrownPage | internal/api/tasks.go:394-449 | a page of a log that has grown continues where the last left off |
| LogPaging.StreamTaskLogs | internal/api/tasks.go:394-449 | sequence numbers sent strictly increase even when the attempt changes; the loop ends by itself only at a terminal task whose attempt, as last listed, has nothing left; with one attempt all that was listed was then sent, and all that was stored when the status was read if and only if no chunk was stored in between |
| LogPaging.StreamFinishes | internal/api/tasks.go:394-449 | the stream of a finished task ends by itself with every stored chunk after the start sent, in at most one listing more than there are chunks |
| LogPaging.ChunkLeftUnsent | internal/api/tasks.go:425-447 | a concrete tick after which the loop ends with a chunk unsent that was stored between its two reads |

## Left out

- NoSilentResurrection: excepts a late create of the guard's own, with which the claim is false (LateCreateResurrects, RetakeMayHideTenure); ResurrectedIff is the exact condition.
- DeposedRefreshEndsLost: its read excepts the same; the update and the count do not.
- Fencing: does not say that a lost guard was taken by someone else, since a late write of its own followed by an expiry also reports lost.
- RestoreExclusion: excepts a server that already has the answer that gives it the key (AnswerGives), which then holds a guard at a revision that is dead.
- OnlyMembersTake: asks for one committed refresh in every two ticks; a holder whose refreshes fail longer than that may lose its key to expiry, as the source says.
- CalloutAgreement: before a shutdown; after one, ServesAfterShutdownIff is what holds.
- ServesAfterShutdownIff: a subscription may succeed at any time here; in the program it fails once the shutdown has closed the connection.
- StreamTaskLogs: excepts chunks stored between the listing and the status read, with which the claim that everything was sent is false (ChunkLeftUnsent).
- GuardConservation: a shutdown does not wait for the broker check here, which allows more interleavings than the source; the releases' own requests are the guard's model.
- RevokedWorkerIsGone: takes from nats-server that it gives up an authorization after its auth timeout and the margin, that a node lists every connection it has and that a confirmed kick closes it.
- FragmentMeansApply: comment lines may say anything; the JetStream storage cap is printed and read but is not part of the options, where another call sets it.
- Apply: a public key is known by its shape, without its checksum; EnableAccountJetStream is not modelled.
- The JetStream client's create is one request here; its retry of a create over a delete marker is not.
- The guard bucket's own creation and its replica count, and the logging and OnLost callback of a lost guard.
- remote_restore.go's purge of streams and consumers, with its per-target retries.
- Remote.Start, the connection states and their readiness report, checkWhenConnected's waiting, and askCluster and pingServers, whose results are inputs here.
- Signatures, JWT encoding and the credential store, which are parameters of the callout's decision.
- URL redaction in the printed connection flags.
- The rest of the program: the scheduler, the SQL store and leader election behind the store's interface, the REST handlers other than task logs, the workers, the OpenJD engine, the web assets and the load generator.
