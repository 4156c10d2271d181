# A verified model of supergraph's read models

supergraph runs one aggregator per box. Each plugin keeps a small SQLite read model in agreement with
an outside source (git, GitHub, tmux, Claude Code, a remote box) and emits change events on a bus. SQL
is only the carrier here: a table is a map or a set, a statement is a map update, and what is proved is
what whole runs keep.

The project models the plugins' hard cores. Code that updates tables or loops is a class or a method,
proved against a function on values; the theorems are about those functions, over every run, every
interleaving and every input. Where goroutines interleave there is an explicit step machine. Clocks,
subprocess output, HTTP answers, store failures and remote answers are inputs of the steps.

| files | component |
|---|---|
| `GitPorcelain`, `GitReconcile`, `GitReplay`, `GitOrphans`, `GitDelivery`, `GitMirror`, `GitFields`, `GitIsolation` | git reconcile: what is announced, what a subscriber holds of it when emits are lost, and exactly when each is what is live; roots that cannot disturb each other |
| `GithubFetch`, `GithubReuse`, `GithubPurge`, `GithubFlight` | the caching proxy: conditional fetches under interleaving, where bodies and ETags come from, what a purge promises, singleflight |
| `GithubKeys`, `GithubEvents`, `GithubStore`, `GithubObjects`, `GithubQuestions`, `GithubLike` | the key grammar, the tag index and eviction, whether a hit answers the question, LIKE queries |
| `ClaudeStore`, `ClaudeHistory`, `ClaudeMeaning`, `ClaudeReplay`, `ClaudeTail`, `ClaudeCrash`, `ClaudeColumns`, `ClaudeLost` | sessions fed by three channels, the transcript tail with its byte cursor, its crashes and its failing calls |
| `Timestamps`, `TimeText`, `PeerMesh`, `PeerCalls`, `PeerRace`, `PeerLiveness` | timestamp text, its order and the calendar, the peer mesh, what a call does, concurrent mirrors, liveness and backoff |
| `Bus`, `Delivery` | the fan-out bus; a change stream whose emits can be lost |
| `Tmux`, `TmuxRun`, `TmuxView`, `TmuxDelivery`, `TmuxText`, `TmuxFields`, `TmuxWatch` | the pane read model, polls racing with the control loop, what is announced and what a consumer holds of it, text formats, the loop |
| `Text`, `Backoff` | Go's string functions, options, sequences and row lists; the doubling delays |

## Where the code and its own words differ

- `core/bus.go:8-9` says a slow subscriber loses the oldest events; the code drops the new one (`Bus.FullDropsNewest`).
- `core/time.go:5-7` and `plugins/github/store.go:266` say RFC3339Nano text sorts by time; it does across whole seconds, and inside one second exactly unless one trimmed fraction is a prefix of the other (`Timestamps.TextOrderExactly`). A mirror TTL under a second can therefore delete what it just wrote (`PeerMesh.ShortTtlLosesRefresh`).
- `plugins/github/store.go:130-131` says a purge of any contained object evicts a list; a list is filed under its op's first key template alone (`GithubStore.PurgeListExactly`, `GithubStore.SecondKindNeverEvicts`). Every op shipped today has one template.
- `plugins/peer/liveness.go:38-41` emits peer.stale on a genuine transition; a 401 on a proxied call that marks the row first hides it (`PeerLiveness.ProxyHidesTheDrop`). With a cap under 500ms the first sleep exceeds the cap (`PeerLiveness.SleepFormulaExactly`).
- `plugins/tmux/snapshot.go:28-33` says a failed poll re-marks what a poll in flight brought back to life; it does (`TmuxRun.OutageHeals`), and until then the pane is offered (`TmuxRun.PhantomSlot`). A pane lost to an outage never gets tmux.pane.closed (`TmuxView.OrphanStays`).
- A cached list is keyed by op and repository alone, so four shipped ops serve the answer to another question (`GithubQuestions.HitAnswersExactly`, `GithubQuestions.ShippedFailures`).
- A transcript record with several tool_use blocks counts one tool call (`ClaudeReplay.BlocksCountOnce`), and one without a timestamp counts again on every re-read (`ClaudeReplay.UnstampedLineCountsTwice`).
- A stale-mark that fails half way leaves rows stale that no event announces (`GitReplay.HalfMarkLeavesOrphan`); exactly which rows, in every run, is `GitOrphans.ViewExactly`.
- An emit is a store call of its own that can fail (`core/supervisor.go:75-83`), and the plugins drop the error. git and tmux both remember a change as told before the emit, so a lost emit is not repeated: a live row can stay unknown (`GitDelivery.LostUpdateHidesLiveRow`, `TmuxDelivery.LostUpdateHidesPane`) and a removed one known (`GitDelivery.LostRemovalStays`, `TmuxDelivery.LostClosedStays`). What a subscriber holds is exact when `GitDelivery.SubscriberExactly` and `TmuxDelivery.ConsumerExactly` say; a restart heals git's updates, an outage tmux's.
- A store call that fails inside a transcript scan is skipped and the cursor still passes it; its tool call is then not counted. Nor is that of a fold cut between its dedup row and its count, however often its line is read again (`ClaudeLost.ToolCallsExactly`, `ClaudeLost.CutFoldIsLost`).
- A webhook purge does not stop a fetch in flight from storing the old body again (`GithubPurge.PurgeExactly`).

## Model

| member | source | states |
|---|---|---|
| `GitPorcelain.ReadWorktreeList` | plugins/git/worktree.go:39-82 | the one-pass parser returns what the line-by-line specification reads, whatever the input text |
| `GitPorcelain.PorcelainRoundTrip` | plugins/git/worktree.go:33-82 | stanzas printed with attributes in any order and unknown lines between them parse back to the worktrees they describe, in order |
| `GitPorcelain.ParsedFieldsClean` | plugins/git/worktree.go:39-82 | no parsed field, of any input, holds a newline or ends in a carriage return |
| `GitPorcelain.PrintedListSurvives` | plugins/git/worktree.go:33-82 | a list of worktrees printed as git prints it parses back to itself if and only if every field is clean |
| `GitPorcelain.AheadBehindRoundTrip` | plugins/git/worktree.go:84-101 | any two 64-bit counts printed as rev-list prints them parse back to those counts |
| `GitReconcile.Plugin.constructor` | plugins/git/reconcile.go:49-109 | a new plugin has empty tables, an empty gate and a zero count |
| `GitReconcile.Plugin.StoreWorktree` | plugins/git/store.go:95-111 | the worktree upsert: the row is replaced or appended and its stale mark cleared |
| `GitReconcile.Plugin.EmitChange` | plugins/git/reconcile.go:138-157 | the hash gate: an event is appended exactly when the stored hash is missing or different |
| `GitReconcile.Plugin.MarkStale` | plugins/git/store.go:113-151 | the vanished rows are collected in table order, then stamped one by one, possibly cut short by an error |
| `GitReconcile.Plugin.StoreListing` | plugins/git/reconcile.go:70-95 | the loop over one root's worktrees, with failing upserts skipped and reported |
| `GitReconcile.Plugin.Announce` | plugins/git/reconcile.go:98-109 | one removal event per vanished row and its hash forgotten |
| `GitReconcile.Plugin.ReconcileRoot` | plugins/git/reconcile.go:53-109 | one root's turn, with each way it can fail |
| `GitReconcile.Plugin.Run` | plugins/git/reconcile.go:49-112 | a whole reconcile over all roots leaves the specified tables, events, count and errors |
| `GitReplay.HashEqualExactly` | plugins/git/reconcile.go:161-193 | two states hash alike if and only if their flags and counts agree and the text branch-bar-head is the same |
| `GitReplay.HashInjective` | plugins/git/reconcile.go:161-193 | the hash tells any two states apart when heads hold no bar and branches no NUL |
| `GitReplay.HashCollides` | plugins/git/reconcile.go:161-193 | two pairs of different states with one hash, when those conditions fail |
| `GitReplay.GoneExactly` | plugins/git/store.go:116-151 | the rows marked stale are exactly the live rows of that repository that were not seen |
| `GitReplay.StampAllExactly` | plugins/git/store.go:116-151 | stamping changes the stale mark of exactly those rows and nothing else |
| `GitReplay.ForgetAllExactly` | plugins/git/reconcile.go:98-109 | announcing removals takes exactly those keys out of the gate and out of what stands announced |
| `GitReplay.RunKeeps` | plugins/git/reconcile.go:49-191 | the agreement of store, gate and announced events is kept by every run of reconciles and restarts |
| `GitReplay.LiveNeverMissing` | plugins/git/reconcile.go:49-191 | in every run, whatever store call fails and however far a failing stale-mark got, every live row has been announced with the same hash (what of it arrives: `GitDelivery.SubscriberExactly`) |
| `GitReplay.ReplayExact` | plugins/git/reconcile.go:49-191 | what any run announces, restarts included, is exactly the live rows, field by field, while no stale-mark stops half way |
| `GitReplay.GateExact` | plugins/git/reconcile.go:138-159 | in every run of one process the gate's keys are exactly the live keys |
| `GitReplay.AnnouncedExactlyOnChange` | plugins/git/reconcile.go:138-157 | a stored worktree is announced if and only if that is not the state last announced |
| `GitReplay.HalfMarkLeavesOrphan` | plugins/git/store.go:138-151 | the witness of the other case: a stale-mark that fails half way leaves announced a row that is no longer live (exactly when: `GitOrphans.ViewExactly`) |
| `GitOrphans.RunFate` | plugins/git/store.go:113-151 | in every run, what last touched a worktree decides both sides: stored rows are live and announced, closed ones neither, and those a stopped mark reached are stale and still stand announced |
| `GitOrphans.ViewExactly` | plugins/git/reconcile.go:49-109 | in every run, whatever store call fails, a worktree stands announced if and only if it is live or its last touch was a stale-mark that stopped after reaching it |
| `GitOrphans.ReplicaExactly` | plugins/git/reconcile.go:49-191 | what is announced is what is live, field by field, if and only if no worktree was last touched by a stopped mark |
| `GitOrphans.MarkLeavesNoneExactly` | plugins/git/store.go:113-151 | with nothing announced that is not live, one mark keeps it so if and only if it completes or reaches no row |
| `Delivery.HeldIsAnnouncedExactly` | core/supervisor.go:75-83 | over any log of emits, any of which may be lost, what a subscriber holds of a key is what was announced if and only if the last emit about it got through or said what was already held |
| `GitDelivery.ToldIsAnnouncedExactly` | plugins/git/reconcile.go:138-157 | in every run and for every outcome of its emits, a subscriber holds of a worktree what was announced under that one condition |
| `GitDelivery.SubscriberExactly` | plugins/git/reconcile.go:49-218 | in every run, with failing store calls, lost emits, kills and restarts, a subscriber holds exactly the live fields of a worktree, and nothing of one not live, if and only if its last emit got through or said nothing new, or, after a stopped mark, it was never heard of |
| `GitDelivery.ReplicaExactly` | plugins/git/reconcile.go:49-218 | the whole replica is exact if and only if that holds of every worktree |
| `GitDelivery.LostUpdateStays` | plugins/git/reconcile.go:138-157 | without a restart, storing a worktree whose state is the one last announced sends nothing, held or not |
| `GitDelivery.LostUpdateHidesLiveRow` | plugins/git/reconcile.go:145-157 | the witness: one lost emit and two complete passes leave a live row the subscriber never heard of |
| `GitDelivery.LostRemovalStays` | plugins/git/reconcile.go:98-109 | once a worktree is not live nothing is sent about it until it is stored again, through any polls, failures and restarts, so a lost removal is for good |
| `GitDelivery.RestartResends` | plugins/git/reconcile.go:138-157 | in every run after a restart, every worktree stored since has been emitted since |
| `GitDelivery.RestartHeals` | plugins/git/reconcile.go:138-157 | so a restart heals a lost update: the worktree stored again and the emits since arriving, the subscriber holds its live row whatever was lost before |
| `GitMirror.RootMirrorsGit` | plugins/git/reconcile.go:53-134 | after a root's turn succeeds its live rows are exactly git's listing, each with the fields last listed and the counts rev-list printed, left as ahead and right as behind |
| `GitFields.ListingReads` | plugins/git/worktree.go:33-82 | the text git prints, line for line, is read as the worktrees it printed, in order |
| `GitFields.RootSays` | plugins/git/reconcile.go:70-134 | for any printed listing, whatever else in the turn fails, a stored worktree's row is live under host and cleaned path, with the printed path, branch, commit and detachment, and the root's host and repository |
| `GitFields.CountsStored` | plugins/git/reconcile.go:115-134 | for all 64-bit counts a and b, a row whose rev-list printed a, tab, b is stored with ahead a and behind b, and with neither when rev-list failed |
| `GitFields.EventsSay` | plugins/git/reconcile.go:70-157 | every update a turn emits describes a worktree of the listing in full, key, host, repository, slug, path, branch, commit and counts, and a stored worktree that was not in the gate is told |
| `GitFields.RootReports` | plugins/git/reconcile.go:53-112 | what a turn reports: the root's own row with slug and path, how many worktrees it stored, and one failure for each that it could not and for a mark that stopped |
| `GitMirror.RunCovered` | plugins/git/store.go:95-151 | in every run each row is in table order, so no stale scan can miss one |
| `GitIsolation.RootNonInterference` | plugins/git/reconcile.go:53-109 | over whole runs, restarts included, every row, event, hash and repository outside one root is what the same run without that root gives |
| `GitIsolation.CountWithoutRoot` | plugins/git/reconcile.go:53-112 | the worktree count is the count without the root plus what the root stored |
| `GitIsolation.FailedRootIsAbsent` | plugins/git/reconcile.go:53-68 | a root whose listing or repository upsert fails leaves tables, events and count exactly as if it were not configured |
| `GitIsolation.FailedRootRowsUntouched` | plugins/git/reconcile.go:53-68 | such a root's own worktree rows are untouched by the whole reconcile |
| `GitIsolation.FailedUpsertStalesNothing` | plugins/git/reconcile.go:70-109 | a failed worktree upsert in a root never turns a live row stale |
| `GitIsolation.OtherRootLeavesMine` | plugins/git/reconcile.go:53-109 | one root's turn leaves the rows of another root as they were |
| `GithubFetch.StepKeeps` | plugins/github/proxy.go:97-190 | ETag version at most body version at most upstream version is kept by every step of every interleaving |
| `GithubFetch.RunConsistent` | plugins/github/proxy.go:97-190 | and so holds, with what every task in flight carries, in every reachable world |
| `GithubFetch.StoredNeverAhead` | plugins/github/proxy.go:97-138 | every stored node has an empty ETag or an ETag no newer than its body, and a body no newer than upstream |
| `GithubFetch.RevalidationSound` | plugins/github/proxy.go:97-138 | under every interleaving, a 304 hands back a body equal to upstream's at the GET, a 200 that lands a body no older than its GET, and a 200 that keeps the stored body exactly what the task had read, no newer than its GET |
| `GithubFetch.OlderThanGetExactly` | plugins/github/proxy.go:112-127 | in every run and interleaving, a 200 hands back a body older than its GET if and only if its canonical re-read failed, the key has a point op and the task had read the canonical shape of another version |
| `GithubFetch.AloneEffect` | plugins/github/proxy.go:97-190 | an undisturbed fetch changes nothing on a 304 or when it keeps the stored body; else it leaves exactly upstream's version, canonical when re-read, with an ETag naming it if and only if the answer had one |
| `GithubFetch.RevalidationHeals` | plugins/github/proxy.go:97-190 | what an undisturbed revalidation leaves in the store: upstream's body if and only if it is not the case that the object changed, its re-read failed and the store held an older canonical body (under interleaving: `GithubFetch.OlderThanGetExactly`) |
| `GithubFetch.KeptBodyCanBeOld` | plugins/github/proxy.go:112-127 | the failing case is reachable: a list store, a change upstream, then a fetch whose re-read fails |
| `GithubReuse.RunHistory` | plugins/github/proxy.go:97-190 | in every run of any number of interleaved tasks, every row came from a fetch, with the ETag of its GET and the body of its re-read or GET, or from a list, with none; and every finished fetch handed back what its own reads, GET and write say, a failed one the row it had read |
| `GithubReuse.LandedTag` | plugins/github/proxy.go:127-135 | a landed 200, in every run, has an ETag exactly when its GET was tagged, and then it names the version of that GET |
| `GithubReuse.TablesExactly` | plugins/github/store.go:104-142 | in every run each row and each list are those last written and not purged since, and no other step touches either |
| `GithubReuse.SecondFetch` | plugins/github/proxy.go:97-138 | from any reachable state, after an undisturbed fetch with an ETag and any changes upstream, a second fetch gets a 304 if and only if none of the changes was to the object and the first did not keep an old body |
| `GithubReuse.TwiceFetched` | plugins/github/proxy.go:97-138 | the witness: a run that reaches a 304 |
| `GithubPurge.PurgeExactly` | plugins/github/store.go:144-179 | after a purge, through every continuation of every interleaving, every stored body of the object is at least upstream's version at the purge, if and only if no task in flight and no list left carries an older body it may still store |
| `GithubPurge.RunClear` | plugins/github/proxy.go:97-190 | the same guarantee from any moment: with the stored body, the tasks and the lists at least at a version, no run stores an older one |
| `GithubPurge.StraddlingFetchStoresOld` | plugins/github/proxy.go:97-138 | the witness: a fetch whose GET came before the change and whose write comes after the purge stores the old version |
| `GithubFlight.RunValid` | plugins/github/proxy.go:49-68 | the flights map, flights and callers agree in every reachable state, with any number of callers |
| `GithubFlight.OneFetchPerKey` | plugins/github/proxy.go:49-68 | at most one fetch function runs per key |
| `GithubFlight.EveryCallerGetsTheLeadersResult` | plugins/github/proxy.go:49-68 | every returned caller has the node and error of the single call its flight's leader made |
| `GithubFlight.ReturnedWasFetched` | plugins/github/proxy.go:49-68 | every returned caller asked for its key and has what the fetch function of a caller of that key returned |
| `GithubFlight.ArrivalJoins` | plugins/github/proxy.go:49-68 | a caller that arrives while a fetch of its key is registered waits on that flight; any other starts the key's one flight |
| `GithubFlight.EntriesBelongToActiveCallers` | plugins/github/proxy.go:49-68 | an entry in the flights map always has an active caller, so the map is empty when none is active |
| `GithubFlight.NoStuckCaller` | plugins/github/proxy.go:49-68 | a caller that has not returned can step, or waits on a leader that can |
| `GithubKeys.FillIsSubst` | plugins/github/keys.go:134-143 | filling a rendered template replaces exactly its placeholders, whatever text the values hold |
| `GithubKeys.KeyRoundTrip` | plugins/github/keys.go:45-143 | over the whole kind table, a built key has its kind and parses back to its segments if and only if they are clean |
| `GithubKeys.ShapeRoundTrip` | plugins/github/keys.go:87-143 | the same for every key shape and any kind word |
| `GithubKeys.HostSuffixIgnored` | plugins/github/keys.go:79-131 | appending an @host suffix changes neither the kind nor any part |
| `GithubKeys.SafeNameIsClean` | plugins/github/keys.go:14-26 | an accepted owner or repo name holds none of the separators |
| `GithubKeys.EventKeyParses` | plugins/github/keys.go:190-222 | a webhook key has the event's kind and always gives back its owner and repo, and its discriminator if and only if that holds no slash and no at-sign |
| `GithubKeys.NumbersAreClean` | plugins/github/keys.go:276-287 | numeric discriminators are always clean |
| `GithubKeys.KeysOfListed` | plugins/github/keys.go:239-252 | the loop of relatedKeys yields one key per listed number, in order, skipping entries without one |
| `GithubKeys.RelatedKeys` | plugins/github/keys.go:224-252 | relatedKeys yields the keys of the named pull requests, and none for an untrusted payload |
| `GithubKeys.RelatedKeysParse` | plugins/github/keys.go:224-252 | every related key is a pull request key that parses back to its repository and number if and only if the number is clean |
| `GithubKeys.ScopeTagInjective` | plugins/github/keys.go:166-184 | equal tags have equal owner, repo and kind |
| `GithubKeys.EventKeyTag` | plugins/github/keys.go:166-222 | a webhook key's tag is that of its owner, repo and kind, whatever its discriminator |
| `GithubEvents.KindKeys` | plugins/github/keys.go:45-58 | the key of each of the eleven kinds, in full text |
| `GithubEvents.KeyParts` | plugins/github/keys.go:93-131 | the named parts parseKey gives of a key of each shape with clean segments |
| `GithubEvents.IssueKey` | plugins/github/keys.go:193-222 | issues and issue_comment touch issue:o/r#n, and a comment on a pull request pr:o/r#n, for every payload of a safely named repository that carries the number |
| `GithubEvents.PullRequestKey` | plugins/github/keys.go:193-222 | the three pull request events touch pr:o/r#n |
| `GithubEvents.CheckRunKey` | plugins/github/keys.go:193-222 | check_run touches checkRun:o/r/id |
| `GithubEvents.LabelKey` | plugins/github/keys.go:193-222 | label touches label:o/r/name |
| `GithubEvents.ReleaseKey` | plugins/github/keys.go:193-222 | release touches release:o/r/tag |
| `GithubEvents.NoEventKey` | plugins/github/keys.go:193-222 | any other event, an empty or unsafe name, and a payload without a repository touch no key |
| `GithubEvents.RelatedKeysText` | plugins/github/keys.go:224-257 | a check run also purges pr:o/r#n for each pull request it names, in order, and no other event purges a second key |
| `GithubEvents.WebhookEvicts` | plugins/github/webhook.go:50-80 | after a webhook a stored list is gone if and only if it is of the webhook's repository and lists first the kind, named per event, that the event touches, or pull requests when it is a check run that names some |
| `GithubObjects.SafeNameExactly` | plugins/github/keys.go:10-23 | a name is let through if and only if it is empty, or made of letters, digits, hyphens, dots and underscores without two dots in a row |
| `GithubStore.RunIndexed` | plugins/github/store.go:104-185 | in every run of node stores, list queries and purges, each stored list has its covering tag and each tag names a stored list |
| `GithubStore.CoveredExactly` | plugins/github/store.go:144-168 | the lists a purge removes are exactly the stored ones whose covering tag is the key's |
| `GithubStore.PurgeListExactly` | plugins/github/store.go:144-185 | a stored list is evicted if and only if it lists the key's owner and repo and its op's first key template has the key's kind |
| `GithubStore.PurgeSparesTheRest` | plugins/github/store.go:144-185 | a purge removes no object but the one named and changes no row it keeps |
| `GithubStore.SecondKindNeverEvicts` | plugins/github/executor.go:199-206 | a list of two kinds is filed under the first alone, so no purge of the second kind evicts it |
| `GithubStore.WebhookEvictsExactly` | plugins/github/webhook.go:53-78 | after a whole webhook, related keys included, which stored lists are gone: those of its repository filed under the touched kind, or under pull requests when it names some, and no other |
| `GithubStore.WebhookObjectsExactly` | plugins/github/webhook.go:53-78 | of the objects, a whole webhook removes exactly the touched key and the related ones, and changes none it keeps |
| `GithubStore.ServedUntilEvicted` | plugins/github/executor.go:184-209 | a stored list is served unchanged through every run that holds no purge evicting it |
| `GithubStore.MissServesLatest` | plugins/github/executor.go:184-209 | after an eviction the next run of the op goes upstream, and what it finds is served until the next eviction |
| `GithubObjects.ObjectsExactly` | plugins/github/executor.go:219-260 | in every run an object's key holds the body last stored for it, by itself or as the last such member of a list, since it was last purged |
| `GithubQuestions.HitAnswersWhenPlain` | plugins/github/executor.go:184-209 | in every run, a cached list of an op that asks about nothing but its repository was fetched for the very question asked |
| `GithubQuestions.OtherValueServed` | plugins/github/executor.go:184-209 | for every op with another variable, a list cached for one value is served for another, since the list key leaves the variable out |
| `GithubQuestions.HitAnswersExactly` | plugins/github/executor.go:184-209 | a hit answers the question asked, in every run, if and only if the op's query has no variable besides owner and repo |
| `GithubQuestions.ShippedFailures` | plugins/github/queries/checkRunsForPR.graphql:4-4 | of the shipped list ops, the ones that fail this are checkRunsForPR, issueComments, myClaimed and paneForBranch |
| `GithubStore.Store.constructor` | plugins/github/store.go:67-73 | empty tables |
| `GithubStore.Store.UpsertNode` | plugins/github/store.go:104-120 | one node row is replaced |
| `GithubStore.Store.PutListRow` | plugins/github/store.go:130-142 | the list row is stored and, unless the composite is empty, its tag added |
| `GithubStore.Store.DeleteKey` | plugins/github/store.go:161-168 | both DELETE statements for one key |
| `GithubStore.Store.DeleteAll` | plugins/github/store.go:161-168 | the loop over the tag rows deletes each and reports each once |
| `GithubStore.Store.PurgeKey` | plugins/github/store.go:144-185 | purge as a whole: what is deleted, and exactly which keys it reports |
| `GithubLike.LikeIsPrefix` | plugins/github/store.go:214-230 | a key matches the escaped prefix and a percent sign if and only if the prefix is the key's, up to ASCII case, for every prefix and key |
| `GithubLike.UnescapedOvermatches` | plugins/github/store.go:225-229 | without the escape a repository a_b matches axb |
| `GithubLike.NodesByKind` | plugins/github/store.go:220-246 | the row loop returns the chosen rows in scan order |
| `GithubLike.SelectExactly` | plugins/github/store.go:220-246 | a row is returned if and only if it is an object whose key has the prefix, up to ASCII case |
| `GithubLike.SelectMore` | plugins/github/store.go:218-246 | and the query returns its matches in scan order |
| `GithubLike.KindScopeExact` | plugins/github/store.go:220-246 | for safe names that means the kind, owner and repo asked for, never a sibling repository |
| `ClaudeStore.Store.constructor` | plugins/claude/store.go:62-76 | empty tables |
| `ClaudeStore.Store.Fold` | plugins/claude/store.go:109-150 | the fold is refused when its key was seen, and otherwise recorded and laid over the row |
| `ClaudeStore.Store.Enrich` | plugins/claude/store.go:95-163 | enrichment fills columns without touching state or counters, creating an idle row if there is none |
| `ClaudeStore.Store.File` | plugins/claude/store.go:165-238 | a state file fills its columns, moves state only for a session never folded, and reports a change exactly when there is one |
| `ClaudeStore.Store.Scan` | plugins/claude/store.go:377-414 | the liveness sweep marks and lists exactly the unmarked, unended sessions whose process is gone |
| `ClaudeStore.Store.PruneOld` | plugins/claude/store.go:341-375 | prune deletes exactly the expired sessions and their folds |
| `ClaudeHistory.StepKeeps` | plugins/claude/store.go:95-238 | every store call keeps every column of every session in agreement with what the session was told |
| `ClaudeHistory.RunAgrees` | plugins/claude/store.go:95-238 | so in every reachable store each text and number column is the last non-empty value any channel gave it, and host_id, started_at, last_event_at and stale_since are those of the history |
| `ClaudeHistory.FileQuietExactly` | plugins/claude/store.go:208-211 | a state-file scan leaves a row alone if and only if the file says nothing the session was not already told |
| `ClaudeHistory.Authority` | plugins/claude/store.go:120-238 | in every run, tool_calls is the number of distinct PreToolUse folds, state is the word of the last applied fold if any, else the last non-empty state-file state, else idle; a session with no row has no folds |
| `ClaudeHistory.ChannelAuthority` | plugins/claude/hook.go:46-61 | the same for whole runs of hooks, good or refused, transcript lines, state files, sweeps and prunes |
| `ClaudeMeaning.StateIsNamed` | plugins/claude/reducer.go:26-50 | over every run of hooks, good or refused, lines, state files, sweeps and prunes, a session's state is the word named for the last event it was told (working, input, ended or idle), and if it was told none, what its state files last said, else idle |
| `ClaudeMeaning.SweepExactly` | plugins/claude/store.go:381-414 | in every run a sweep marks a session if and only if it was last told a pid, that process is gone, no mark is known and it has not ended, and changes nothing else of its row |
| `ClaudeMeaning.PruneExactly` | plugins/claude/store.go:341-379 | in every run a prune forgets a session, row and folds, if and only if the last thing that reached it came before the cutoff |
| `ClaudeMeaning.PromptsShown` | plugins/claude/store.go:188-233 | a state file's prompt and response are shown to 120 and 200 characters, and an empty one keeps what was there |
| `ClaudeHistory.StaleSticks` | plugins/claude/store.go:109-117 | stale_since, once set, stays set until the session is pruned |
| `ClaudeReplay.DuplicatesVanish` | plugins/claude/store.go:121-131 | a prune-free run leaves the very database of the run without its repeated folds |
| `ClaudeReplay.CoreRefines` | plugins/claude/store.go:95-238 | tool_calls, state, last_tool, stale_since and pid move on their own: no other column reaches them |
| `ClaudeReplay.CoreRefinesRun` | plugins/claude/store.go:95-238 | the same over runs |
| `ClaudeReplay.ReReadsVanish` | plugins/claude/tail.go:93-146 | re-reading lines already read, at any later moment of a prune-free run, never shows in those columns |
| `ClaudeReplay.BlocksCountOnce` | plugins/claude/redact.go:107-125 | however many tool_use blocks a record has, they count once, and last_tool is the first block's |
| `ClaudeReplay.LineMovesCoreExactly` | plugins/claude/tail.go:126-146 | a line changes the core columns of a known session, the dedup set apart, if and only if it holds a tool_use block with a new dedup key |
| `ClaudeReplay.UnstampedLineCountsTwice` | plugins/claude/tail.go:138-141 | a line without a timestamp, read twice, counts twice |
| `ClaudeTail.ReadLine` | plugins/claude/tail.go:100-124 | one line, its size against the cap, the bytes consumed and whether it was complete, for every position |
| `ClaudeTail.ScanFile` | plugins/claude/tail.go:67-98 | a scan folds the complete lines that fit the cap from the cursor on, and saves the position past the last complete line |
| `ClaudeTail.LinesAreShort` | plugins/claude/tail.go:67-124 | the folded lines are the complete lines of at most the cap, in order |
| `ClaudeTail.LinesPartition` | plugins/claude/tail.go:67-124 | the bytes are the complete lines end to end, then the cursor, then a part with no newline |
| `ClaudeTail.IncrementalIsBatch` | plugins/claude/tail.go:67-98 | scans of an append-only file at any growing lengths fold exactly the lines of one batch read, each once, and leave its cursor |
| `ClaudeCrash.CrashesVanish` | plugins/claude/tail.go:67-146 | scans that may die after any store call of any line, before the cursor is saved, leave the core columns of one read of the file that dies once, past at least the saved cursor |
| `ClaudeCrash.TailIsBatch` | plugins/claude/tail.go:67-98 | once a scan completes at the furthest length, the core columns and the cursor are those of one batch read of that length |
| `ClaudeColumns.ColumnsAreBatch` | plugins/claude/tail.go:126-146 | and when only the tail writes so is every enrichment column, with or without timestamps |
| `ClaudeColumns.SessionsAreBatch` | plugins/claude/tail.go:67-146 | and so then are the dedup set and every session's whole row but for started_at and last_event_at |
| `ClaudeColumns.ScanMovesColumnsExactly` | plugins/claude/store.go:95-150 | when other channels write too, a scan moves a session's enrichment columns if and only if the lines it begins, read before or not, last said something else than the row now holds |
| `ClaudeColumns.NewerBranchUndone` | plugins/claude/store.go:95-150 | the witness: a hook's newer branch put back by a re-read line |
| `ClaudeLost.FoldsExactly` | plugins/claude/tail.go:126-146 | with any crashes and any failing store calls, a fold is in the dedup set if and only if it was before or some call for it got as far as its dedup row |
| `ClaudeLost.ToolCallsExactly` | plugins/claude/store.go:123-150 | with any crashes between or inside store calls and any failures, tool_calls of a session is that of one batch read if and only if the fold of each of its blocks was stored by some scan or before and none was cut between its dedup row and its count |
| `ClaudeLost.FailedFoldIsLost` | plugins/claude/tail.go:67-146 | the witness: a fold that fails in a scan that saves its cursor is not counted where a batch read counts it |
| `ClaudeLost.CutFoldIsLost` | plugins/claude/store.go:123-150 | the witness: a death between the two statements of a fold, and reading the line again never counts its tool call |
| `Timestamps.SecondsOrder` | core/time.go:5-8 | the order of the printed fields is the order of whole seconds on the calendar |
| `Timestamps.TextOrderAcrossSeconds` | core/time.go:5-8 | across different whole seconds the RFC3339Nano text sorts by time |
| `Timestamps.TextOrderExactly` | core/time.go:5-8 | text order is time order if and only if it is not the case that, inside one second, one trimmed fraction is a proper prefix of the other |
| `Timestamps.SecondApart` | plugins/peer/store.go:87-92 | times a second or more apart never compare the wrong way |
| `Timestamps.CutoffWithinSecond` | plugins/github/store.go:264-271 | a text cutoff deletes everything a second older and nothing a second newer |
| `Timestamps.PruneWithinSecond` | plugins/github/store.go:264-271 | delivery pruning is right to within a second, id by id |
| `Timestamps.ShortWindowEvictsFresh` | plugins/peer/mirror.go:84-86 | for every window under a second some moment's cutoff deletes a row written at that moment |
| `TimeText.StampText` | core/time.go:1-12 | a stamp is year, month, day, hour, minute and second, each in its digits after its own separator, and each reads back |
| `TimeText.FractionText` | core/time.go:1-12 | the fraction is absent for a whole second, else a dot and up to nine digits that end in no zero and are the nanoseconds |
| `TimeText.SecondsAre` | core/time.go:1-12 | the instant of a time by the closed form of the Gregorian calendar |
| `PeerMesh.HostOfSuffixed` | plugins/peer/mirror.go:19-26 | a host put on a key with an at-sign is the one read back |
| `PeerMesh.MeshSafe` | plugins/peer/mirror.go:61-79 | for any number of boxes and arbitrary answers, every mirrored row's key suffix is its peer_host, a configured peer, never the box itself |
| `PeerMesh.WarmReadExact` | plugins/peer/store.go:65-85 | the warm read by peer_host returns exactly the rows whose key names the host |
| `PeerMesh.PeersIsolated` | plugins/peer/mirror.go:61-87 | a mirror or TTL purge for one host never adds, changes or deletes a row of another |
| `PeerMesh.HostDecidesAlone` | plugins/peer/mirror.go:32-88 | over whole runs of a mesh, what a box holds for a host is decided by that box's calls for that host alone |
| `PeerMesh.RefreshKeepsWhatItWrote` | plugins/peer/mirror.go:80-87 | with no TTL or one of a second or more, a refresh keeps every row it accepted |
| `PeerMesh.ShortTtlLosesRefresh` | plugins/peer/mirror.go:80-87 | any shorter TTL loses, at some moment, every row of the refresh that wrote it |
| `PeerMesh.Store.constructor` | plugins/peer/store.go:35-40 | no mirrored rows |
| `PeerMesh.Store.UpsertNode` | plugins/peer/store.go:53-63 | one mirrored row is replaced |
| `PeerMesh.Store.StoreAnswer` | plugins/peer/mirror.go:61-79 | the loop over an answer stores, and hands on in order, exactly the nodes both guards let through |
| `PeerMesh.Store.MirrorOp` | plugins/peer/mirror.go:32-88 | mirror as a whole: the outcome, the table, the envelopes emitted, the nodes returned and the mark left on peer_state, for every hop and answer |
| `PeerCalls.HopExactly` | plugins/peer/mirror.go:32-50 | a request is made to a configured peer alone, for an op some plugin serves, each op named with its plugin, and never to the peer plugin |
| `PeerCalls.KeepExactly` | plugins/peer/mirror.go:61-72 | a node is accepted if and only if its key's last suffix is the peer's and not this box's own |
| `PeerCalls.KeptMore` | plugins/peer/mirror.go:61-79 | the accepted nodes are announced and handed on one by one in the order of the answer |
| `PeerCalls.MirrorRow` | plugins/peer/mirror.go:61-87 | what a call leaves of every key: the last body answered for it, stamped now, when it is the host's; else the row as it was; and then no row of the host older than the TTL |
| `PeerCalls.MarkPeer` | plugins/peer/store.go:112-138 | a seen mark is one sighting by proxy in the peer's liveness history, a stale mark one rejection, and no mark no step |
| `PeerCalls.CallPeer` | plugins/peer/mirror.go:50-88 | a call as it runs moves the peer's liveness row by exactly the step its hop and answer say: a 401 is a rejection, a refused connection or a failing store nothing, a success a sighting |
| `PeerRace.RaceSafe` | plugins/peer/mirror.go:32-88 | however the upserts and purges of concurrent calls interleave, every mirrored row is a first-hop row of a configured peer that is not the box |
| `PeerRace.MovesIsolated` | plugins/peer/mirror.go:61-87 | no step of a call for one host touches a row of another |
| `PeerRace.RowStaysExactly` | plugins/peer/mirror.go:61-87 | through any interleaving that does not store it again, a row just written stays, unchanged, if and only if no call for its host purges with a cutoff past its time |
| `PeerRace.TakesWithinSecond` | plugins/peer/mirror.go:80-87 | in moments: such a purge spares a row up to a second before its TTL is over and takes it from a second after |
| `PeerRace.CallAlone` | plugins/peer/mirror.go:32-88 | a call that nothing disturbs leaves exactly what the one-step mirror says |
| `PeerRace.CallFailing` | plugins/peer/mirror.go:61-79 | a call whose store fails part way leaves what it had stored, and no purge |
| `PeerRace.FreshRowTaken` | plugins/peer/mirror.go:61-87 | the witness: another call's purge takes a row right after a slow call stored it, since the row carries the time of the answer |
| `PeerRace.OlderReplacesNewer` | plugins/peer/store.go:53-63 | an older answer stored late replaces a newer row of the same key |
| `PeerLiveness.StaleIsFirstFailure` | plugins/peer/store.go:118-138 | from any row, stale_since is null if and only if no failure is open since the peer was last seen, and otherwise is the first failure's time, be it the mark an earlier process left |
| `PeerLiveness.SightIsLast` | plugins/peer/store.go:112-126 | last_seen_at and the lag are those of the last sighting, whoever made it |
| `PeerLiveness.EverUpIsUp` | plugins/peer/liveness.go:22-48 | the loop counts as up exactly when it connected and met no 401 since |
| `PeerLiveness.EmitsExactly` | plugins/peer/liveness.go:38-44 | the loop emits peer.stale if and only if a drop starts an outage while it counts as up |
| `PeerLiveness.EmitsSeparated` | plugins/peer/liveness.go:38-44 | between two emits the peer was seen, and none comes before the first connect |
| `PeerLiveness.ProxyHidesTheDrop` | plugins/peer/mirror.go:53-58 | a 401 on a proxied call that lands first silences the drop that follows |
| `PeerLiveness.SleepsExactly` | plugins/peer/liveness.go:49-54 | every drop sleeps exactly what its place in the row of failures says |
| `PeerLiveness.SleepFormulaExactly` | plugins/peer/liveness.go:49-54 | that is min(500ms times 2 to the k, max) for every k if and only if max is at least 500ms |
| `PeerLiveness.SleepsFrom500` | plugins/peer/liveness.go:21-68 | in milliseconds: 500, then twice as long each time, up to the cap |
| `PeerLiveness.SessionIs` | plugins/peer/liveness.go:21-55 | what one subscription is to the peer: connected if it was, then its frames in order with their lags, then a drop unless cancelled |
| `Backoff.SleepDoubles` | plugins/peer/liveness.go:49-54 | doubling up to the cap walks through the sleeps of the closed form |
| `PeerLiveness.Peer.constructor` | plugins/peer/store.go:110-117 | a seeded row |
| `PeerLiveness.Peer.Seen` | plugins/peer/store.go:119-125 | markSeen advances last_seen_at, sets the lag and clears the stale mark |
| `PeerLiveness.Peer.Stale` | plugins/peer/store.go:127-138 | markStale keeps the first failure's time and reports the transition |
| `PeerLiveness.Peer.Frames` | plugins/peer/liveness.go:31-31 | each lag frame marks the peer seen |
| `PeerLiveness.Peer.Dropped` | plugins/peer/liveness.go:38-54 | the mark, the emit, the 401 rule, the sleep and the doubling after a subscription ends |
| `PeerLiveness.Peer.Turn` | plugins/peer/liveness.go:24-54 | one turn of the loop |
| `PeerLiveness.Peer.RunLiveness` | plugins/peer/liveness.go:21-55 | the whole loop over any script of subscriptions, on whatever row it finds, leaves the row, emits and sleeps of its steps |
| `Bus.NeverPanics` | core/bus.go:31-59 | in every run the cancel goroutines still waiting are exactly the subscriptions, so no send hits a closed channel and no channel is closed twice |
| `Bus.DeliversExactly` | core/bus.go:31-59 | a subscriber's received and buffered events are exactly those published while it was live with fewer than 256 pending, in order |
| `Bus.SubscribersIndependent` | core/bus.go:49-59 | two runs that look the same from one subscription give it the same events |
| `Bus.OrderPreserved` | core/bus.go:49-59 | what reaches a subscriber is an order-preserving subsequence of what was published while it was live |
| `Bus.NothingMissedWhileNotFull` | core/bus.go:49-59 | an event is missed only when 256 are pending |
| `Bus.FullDropsNewest` | core/bus.go:11-59 | a publish goes to the end of a queue of fewer than 256 events, and with 256 pending the new event is lost |
| `Bus.Fanout.constructor` | core/bus.go:23-26 | an empty bus |
| `Bus.Fanout.SubscribeNew` | core/bus.go:31-37 | a new id with an empty open channel |
| `Bus.Fanout.Send` | core/bus.go:54-57 | into the buffer, or dropped when it is full; a closed channel is never sent to |
| `Bus.Fanout.PublishAll` | core/bus.go:49-59 | the loop over the subscribers offers the event to each exactly once |
| `Bus.Fanout.CloseChan` | core/bus.go:39-45 | a close; a closed channel is never closed again |
| `Bus.Fanout.Cancelled` | core/bus.go:39-45 | a cancel goroutine's body removes its subscription and closes its channel |
| `Tmux.PollMirrorsListing` | plugins/tmux/snapshot.go:44-79 | after a poll that nothing interrupts the live panes are exactly the listed ones, as last listed |
| `TmuxFields.PollRows` | plugins/tmux/snapshot.go:45-80 | what a poll leaves of every pane: a listed one live with its last line's fields, one that was live and is not listed marked with the poll's time, any other as it was |
| `TmuxFields.OutageRows` | plugins/tmux/store.go:108-117 | an outage marks every live pane and session with its time and changes nothing else |
| `TmuxFields.SessionRows` | plugins/tmux/store.go:70-82 | a listed session is live as last listed, and a poll marks no session |
| `TmuxFields.StepRows` | plugins/tmux/snapshot.go:45-80 | every step of every interleaving, row by row: who marks or stores it, with which time and fields |
| `TmuxFields.AnnouncesExactly` | plugins/tmux/snapshot.go:85-92 | a pane is announced when it is new or its free flag, command or path changed, and for nothing else |
| `TmuxFields.UpdatesMore` | plugins/tmux/snapshot.go:56-69 | and a poll announces in listing order |
| `TmuxFields.LineReads` | plugins/tmux/snapshot.go:94-123 | a line of seven fields or more with two good indices is that pane under its key, a bad pid reading as zero, free exactly when its command is an idle shell |
| `TmuxFields.NumberExactly` | plugins/tmux/snapshot.go:104-108 | a pid outside 64 bits reads as the nearest bound |
| `TmuxFields.LineSkipped` | plugins/tmux/snapshot.go:94-108 | a line is skipped if and only if it has fewer than seven fields or a bad index |
| `TmuxFields.SessionReads` | plugins/tmux/snapshot.go:125-143 | a session line is its name, its path and the branch of that path, more fields ignored, and fewer than two none |
| `TmuxFields.SessionListingReads` | plugins/tmux/snapshot.go:125-153 | a whole list-sessions output reads back as its sessions, in order |
| `Tmux.ParsePanes` | plugins/tmux/snapshot.go:94-123 | the line loop returns the rows of the well-formed lines, in order |
| `Tmux.ReadRows` | plugins/tmux/snapshot.go:145-153 | the loop over the non-blank lines returns the rows that parse, in order |
| `Tmux.ParseSessions` | plugins/tmux/snapshot.go:125-143 | the session lines likewise, each with its branch |
| `Tmux.Store.constructor` | plugins/tmux/store.go:60-65 | no panes and no sessions |
| `Tmux.Store.Outage` | plugins/tmux/store.go:106-115 | markAllStale stamps every live pane and session and no other row |
| `Tmux.Store.StoreSessions` | plugins/tmux/snapshot.go:49-53 | the session loop, up to the store call that fails |
| `Tmux.Store.UpsertPane` | plugins/tmux/store.go:83-96 | one pane is replaced and its stale mark cleared |
| `Tmux.Store.MarkPaneStale` | plugins/tmux/store.go:98-104 | one live pane gets a stale mark |
| `Tmux.Store.StoreListed` | plugins/tmux/snapshot.go:55-69 | every listed pane is stored and, if new or changed, announced, up to the store call that fails |
| `Tmux.Store.CloseAll` | plugins/tmux/snapshot.go:71-78 | the vanished panes are stamped and named once each, in any order, up to the store call that fails, and no other row changes |
| `Tmux.Store.ReconcileNow` | plugins/tmux/snapshot.go:44-79 | a poll that reached the server as a whole, with every store call that can end it: the tables, the updates, the closings, and exactly when it succeeds |
| `TmuxRun.RunOk` | plugins/tmux/snapshot.go:27-85 | with the server going down between any two statements of any poll, the live panes are at every moment those the poll's own progress says |
| `TmuxRun.FinishedPollExact` | plugins/tmux/snapshot.go:44-85 | after a poll whose last server-down came when j panes were stored, the live panes are exactly what the listing from j on says; with none after the listing, exactly the listing |
| `TmuxRun.MirrorsListingExactly` | plugins/tmux/snapshot.go:44-85 | a finished poll mirrors its listing if and only if no server-down followed its first store |
| `TmuxRun.NoPhantomSlot` | plugins/tmux/resolver.go:36-56 | after a finished poll a pane is offered as free if and only if what the poll stored after the last server-down shows it with an idle shell |
| `TmuxRun.OutageHeals` | plugins/tmux/snapshot.go:28-38 | in every run a failed poll, and every server-down, leaves nothing offered |
| `TmuxRun.NothingUntilPut` | plugins/tmux/snapshot.go:28-38 | and nothing is offered again until a poll stores a pane |
| `TmuxRun.PhantomSlot` | plugins/tmux/snapshot.go:28-33 | the race itself: a poll in flight offers a pane after the server went down |
| `TmuxRun.LostSlot` | plugins/tmux/snapshot.go:55-69 | and the other way round: a poll succeeds and a pane it listed is not live |
| `TmuxRun.PollAlone` | plugins/tmux/snapshot.go:27-85 | a poll with nothing between its statements writes what `Tmux.Store.ReconcileNow` writes, in whatever order it closes |
| `TmuxRun.PollAfterAbort` | plugins/tmux/snapshot.go:27-85 | a poll that dies leaves what it wrote, and the next one starts afresh on it |
| `TmuxView.RunFate` | plugins/tmux/snapshot.go:53-79 | at every moment of every run the last touch of a pane decides what is live of it and what stands announced |
| `TmuxView.ViewExactly` | plugins/tmux/snapshot.go:53-79 | at every moment of every run, races, aborts and repeated lines included, a pane stands announced if and only if it is live or an outage came after its last store |
| `TmuxView.SlotExactly` | plugins/tmux/resolver.go:36-56 | at every moment of every run a pane is offered as free if and only if its last touch is a store that shows an idle shell |
| `TmuxView.OrphanStays` | plugins/tmux/snapshot.go:71-79 | no event about a pane lost to an outage is announced until a poll lists it again |
| `TmuxView.OutageLeavesOrphan` | plugins/tmux/snapshot.go:53-79 | such panes are real: one stored just before the server goes down |
| `TmuxView.ViewShowsLive` | plugins/tmux/snapshot.go:55-69 | with listings that name each pane once, the free, command and path last announced of every live pane are the store's, at every moment (what of it arrives: `TmuxDelivery.ConsumerExactly`) |
| `TmuxView.RepeatedLinesExactly` | plugins/tmux/snapshot.go:55-69 | for any listing, announced and stored fields agree after a poll if and only if it is not the case that an earlier line changed a pane and its last line changed it back |
| `TmuxView.PutsTell` | plugins/tmux/snapshot.go:55-69 | what stands announced of a pane after the pane loop is its last announced line |
| `TmuxDelivery.ToldIsAnnouncedExactly` | plugins/tmux/snapshot.go:176-189 | in every run and for every outcome of its emits, a consumer holds of a pane what was announced if and only if the last emit about it got through or said nothing new |
| `TmuxDelivery.PresentExactly` | plugins/tmux/snapshot.go:53-79 | at every moment of every run, any emits lost, a consumer knows of a pane if and only if it is live, under one exact condition on the last emit about it |
| `TmuxDelivery.ConsumerExactly` | plugins/tmux/snapshot.go:53-79 | at every moment, with listings that name each pane once and any emits lost, a consumer holds exactly a live pane's fields, and nothing of any other, if and only if its last emit got through or said nothing new, or, where an outage orphaned the pane, it was never heard of |
| `TmuxFields.ConsumerFields` | plugins/tmux/snapshot.go:53-79 | what a consumer holds of a live pane is its free flag, command and path if and only if its last emit got through or said nothing new |
| `TmuxDelivery.LostUpdateStays` | plugins/tmux/snapshot.go:55-69 | a lost update is not sent again while the pane stays as it is and no outage comes, through any polls, aborts and restarts |
| `TmuxDelivery.LostClosedStays` | plugins/tmux/snapshot.go:71-79 | a lost closing is for good: nothing is sent of a pane that is gone until a poll lists it again |
| `TmuxDelivery.LostUpdateHidesPane` | plugins/tmux/snapshot.go:55-69 | the witness: one lost emit and, through any number of polls that succeed, a live pane the consumer never hears of |
| `TmuxDelivery.OutageResends` | plugins/tmux/snapshot.go:28-69 | in every run after an outage between polls, every live pane has been emitted since it |
| `TmuxDelivery.OutageHeals` | plugins/tmux/snapshot.go:28-69 | so an outage heals a lost update: a pane live again and the emits since arriving, the consumer holds its fields whatever was lost before |
| `TmuxText.PaneKeyRoundTrip` | plugins/tmux/keys.go:43-99 | a pane key reads back as its parts if and only if the session is non-empty without a colon and the host non-empty without an at-sign |
| `TmuxText.LineRoundTrip` | plugins/tmux/snapshot.go:94-123 | a printed pane line reads back as that pane, with its key and its free flag |
| `TmuxText.ListingRoundTrip` | plugins/tmux/snapshot.go:94-153 | a whole printed listing reads back as its panes, in order |
| `TmuxWatch.LoopTells` | plugins/tmux/control.go:91-129 | the loop counts as up exactly when the last turn was genuine, and its backoff is that of the failures in a row |
| `TmuxWatch.NextIsDoubled` | plugins/tmux/control.go:117-129 | nextBackoff is the doubling up to the cap, never overshooting |
| `TmuxWatch.OneDownPerOutage` | plugins/tmux/control.go:80-115 | the server is announced down exactly once per outage, at its first failed turn |
| `TmuxWatch.SleepsExactly` | plugins/tmux/control.go:108-129 | every failed turn sleeps exactly what its place in the outage says |
| `TmuxWatch.SleepsFrom1000` | plugins/tmux/control.go:91-129 | in milliseconds: 1000, then twice as long each time, up to the cap |
| `TmuxWatch.DownsExactly` | plugins/tmux/control.go:91-115 | announced are exactly the turns that do not hold, at the start or after one that did, a turn holding when the server lives, an attach is made and it lasts the configured time |
| `TmuxWatch.Watch` | plugins/tmux/control.go:91-115 | the whole loop over any script of turns announces and sleeps as specified |

## Left out

- Generated GraphQL code, resolvers and field mapping, HTTP, websockets, subprocesses and signals: plumbing whose results are inputs of the steps here.
- JSON and TOML decoding, SHA-256, HMAC and regular expressions: library code. Decoded values are inputs; UTF-8 is not modelled, a string is a sequence of characters.
- `RepoSlug` and remote URL parsing: the slug is an input of a root's poll, and `filepath.Clean` a parameter of the configuration.
- The bus as the place where an envelope is lost: `GitDelivery` and `TmuxDelivery` take the outcome of each emit as an input of the run, and `Bus` says when a slow subscriber misses one. A process killed in the middle of a git pass is a pass whose remaining calls fail and whose last emit is lost, then a restart; of a tmux poll, a lost emit and an abort.
- Lost emits of the claude, github and peer plugins, from whose streams no replica is promised.
- GitIsolation.RootNonInterference: for roots with disjoint worktree paths, because overlapping roots write each other's rows in the program too.
- GitReplay.ReplayExact: needs heads without a bar and branches without NUL, which is what the hash needs, and store failures without effect; `GitOrphans.ReplicaExactly` is the exact form over all store failures, `GitDelivery.ReplicaExactly` over lost emits too.
- GitReplay.LiveNeverMissing: of what is announced, as are the lemmas of `GitReplay`, `GitOrphans`, `TmuxRun` and `TmuxView` about events; of what arrives, `GitDelivery` and `TmuxDelivery`.
- GitDelivery.SubscriberExactly: needs heads without a bar and branches without NUL; `GitDelivery.ToldIsAnnouncedExactly` needs neither.
- GitDelivery.LostUpdateStays: for runs of one process, since a restart sends again (`GitDelivery.RestartResends`).
- GithubFetch.RevalidationSound: upstream versions only grow and one ETag names one version, as section 8.8.3 of RFC 9110 asks of an origin.
- The fresh-hit path of `resolve`, TTLs, pinning, the content hash and the update event of a fetch: each only compares or copies.
- A panicking fetch function under singleflight, whose callers would wait for ever.
- GithubStore.RunIndexed: each store method is one atomic step; a fetch that straddles a purge is in `GithubPurge`, where steps of fetches and lists interleave.
- REST paths, typenames and pin rules of the kind table.
- GithubEvents.WebhookEvicts: of the purges that succeed; the handler answers 500 to a failing first one and goes on past a failing related one.
- GithubLike.LikeIsPrefix: NUL characters, at which SQLite stops reading a pattern, are not told apart.
- ClaudeHistory.RunAgrees: each store call is one atomic step, though a fold and a state file are several statements without a transaction; a fold cut between its two is in `ClaudeLost`.
- ClaudeCrash.CrashesVanish: for transcripts whose records with tool_use blocks carry timestamps, for files that only grow, and while no store call fails and no fold is cut between its two statements (`ClaudeLost.FoldsExactly` and `ClaudeLost.ToolCallsExactly` say what those do); the calls of one line share one clock reading, and the cursor is a number, its decimal text is not modelled.
- ClaudeColumns.ColumnsAreBatch: while no store call fails, and when only the tail writes; `ClaudeColumns.ScanMovesColumnsExactly` says what a re-read does otherwise.
- ClaudeReplay.ReReadsVanish: says nothing of the enrichment columns, which `ClaudeColumns` does.
- Events, privacy projection and pane titles of the claude plugin.
- Timestamps.TextOrderExactly: UTC and years of four digits, as the plugins' clocks give them.
- Loop freedom of requests: a hop's guards are in `PeerMesh.Hop`; that source plugins make no peer requests of their own is read from the program, not modelled plugin by plugin. Loop freedom of the data is `PeerMesh.MeshSafe`.
- PeerMesh.RefreshKeepsWhatItWrote: of a call's own purge, as one step; the purges of concurrent calls are in `PeerRace`. The cutoff is given as the calendar time of now less the TTL; the subtraction on calendar fields is not modelled.
- PeerLiveness.SleepsExactly: durations do not overflow 64 bits.
- Failing `markSeen`, `markStale` and `markAllStale` calls, whose errors the plugins ignore.
- TmuxView.ViewShowsLive: for listings that name each pane once, as tmux does; which panes stand announced (`TmuxView.ViewExactly`) and which a consumer knows of (`TmuxDelivery.PresentExactly`) need no such thing, and `TmuxView.RepeatedLinesExactly` says when the fields agree otherwise.
- The order of a session's statements against the control loop: only pane statements are interleaved, since nothing offered depends on a session row.
- The last_seen_at columns of the tmux tables, which nothing modelled here reads.
- `paneForBranch` and the host filter of the tmux queries.
- core/config, the registry, heartbeat, health, and the event ring: only easy members.
