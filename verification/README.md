# Model of kigeon

kigeon watches Kubernetes events, keeps them in an embedded NATS JetStream and
forwards them to Loki. This project models how its parts compose and proves
what the composition guarantees. `dafny verify dfyconfig.toml` checks it all.

**One machine for whole runs.** `System` is kigeon as a state machine: the
stream, bucket and consumers which `eventqueue.go` configures (`JetStream`),
any number of publishing loops with a program counter inside `PublishEvent`,
the startup sequence of `main.go`, and one loop per sender. A run is any
sequence of steps: clock ticks, expiry, eviction, crashes (which may make the
stream forget message ids), lost replies, failed records, lost deliveries,
pruning, any response of Loki, any fate of an acknowledgement. Theorems about
runs hold for every sequence and every setting.

**Classes for the code that works in place.** `EventQueue`, `EventPusher`,
`Main`, `LokiSender`, `Hook`, `Starlark`, `OomKills`, `OomWatch`,
`PodInformer`, `NamespaceFilter` and `FilteredFetcher` follow the Go code
method by method and are proved against specification functions.
`EventQueue.PublishEventIsRun`, `Main.StartUpIsRun`, `LokiSender.DecisionIsStep`
and `OomDeduplication.ReportsAreObservable` tie them to the steps of the machine.

| module | source |
|---|---|
| Base, Events | shared vocabulary |
| EventIdentifier, EventQueue | internal/eventqueue/eventqueue.go |
| JetStream, System, Runs | the machine and how runs are built |
| Deduplication, DeduplicationLimits | what is stored once, and when it is not |
| StartupOrder, Main | cmd/kigeon/main.go |
| Fanout, Backlog, Requests, Accounting | from the stream to the receivers |
| EventPusher | internal/eventpusher/eventpusher.go |
| Pods | pods and informer objects, for both files of internal/pods |
| OomKills, OomKillFacts | internal/pods/oom.go |
| OomWatch, PodInformer | internal/pods/informer.go |
| OomDeduplication | reporting window and deduplication together |
| Numbers | 64-bit integers through JSON and a float64 |
| Starlark, StarlarkFacts, Hook | internal/eventsender/loki/hook.go |
| LokiConfig, LokiSender | internal/eventsender/loki/config.go, loki.go |
| NamespaceFilter, FilteredFetcher | internal/filter/namespace_filter.go, internal/eventsender/filter.go |

## Where code and documentation disagree

The model follows the code in each case.

- "Each event is sent exactly once" (README.md:17-18): refuted twice. A lost
  acknowledgement is enough to send an event again, without any crash
  (`Requests.SentTwice`), and a crash between publishing and recording, with
  the message id forgotten, stores a second copy of an event which was sent and
  acknowledged already (`Requests.ExactlyOnceFails`). The exact conditions are
  `Requests.SentAgainIff` for sending a stored event once more and
  `DeduplicationLimits.StoredIffForgotten` for storing a further copy.
- "No events are lost" (README.md:15-16): holds for events which the stream
  accepted, up to acknowledgement, pruning, eviction by the stream's limits and
  eleven deliveries without acknowledgement (`Backlog.NoSilentLoss`); exactly
  which messages can still reach a sender is `Backlog.TriedAgainIff`. Events in
  the channel are lost in a crash, and draining it on shutdown stores nothing,
  because the publishes get a cancelled context (`EventPusher.EventPusher.Drain`).
- "Re-deliver for around 10 minutes" (internal/eventqueue/eventqueue.go:235):
  the configured back-off spans 403 seconds (`Fanout.BackOffOfAllDeliveries`).
- "Older ones might have been sent already" (cmd/kigeon/main.go:253-254): the
  reporting window is counted from the kill, the TTL from its record, so both
  leave a gap whose exact size `OomDeduplication.StoredTwiceIff` gives.
- "This wins over writing to a closed channel"
  (internal/eventpusher/eventpusher.go:139): `select` prefers neither case. A
  handler which is still at work after the channel was closed may panic
  (`EventPusher.OutcomeIff`).
- "Pod definitions are cached for 30 seconds"
  (internal/eventsender/loki/config.go:65): there is no such cache; what
  `GetPod` remembers is in `PodInformer`.
- A hook whose timeout is 2^63 - 512 nanoseconds or more, of either sign
  (for example the longest duration of Go, `Hook.LongestTimeoutFails`), fails
  even with an identity script, because the timeout goes through a float64 to
  the script and back; all other timeouts work (`Numbers.ReadableIff`,
  `Hook.IdentityTransform`).
- The deduplication key is not injective over all strings: a UID and the same
  UID with a trailing dash share a key for opposite counts
  (`EventIdentifier.IdentifierCollisions`). UIDs of the API server never end in
  a dash.

## Model

| member | source | states |
|---|---|---|
| Deduplication.OneLoopDeduplicates | internal/eventqueue/eventqueue.go:287-336 | In every run, crashes at any step included: of two stored copies of one key by the same publishing loop, the second was looked up at least a TTL after the first was recorded, or the first was never recorded; copies stored without a restart in between are two minutes apart. |
| Deduplication.AnyLoopsDeduplicate | internal/eventqueue/eventqueue.go:287-336 | The same for any number of interleaved loops and any restarts, as soon as two push timeouts fit into the duplicate window. |
| DeduplicationLimits.DeduplicatesIff | internal/eventqueue/eventqueue.go:150 | That bound on the push timeout is exact: all runs of any number of loops deduplicate if and only if it holds. |
| DeduplicationLimits.SlowLoopsDuplicate | internal/eventqueue/eventqueue.go:297-335 | The concrete interleaving of two slow loops which stores a key twice within the TTL. |
| Requests.SentTwice | README.md:17-18 | "Exactly once" fails without any crash: a run with a single stored message, which Loki accepts twice from one sender, because an acknowledgement is lost. |
| Requests.ExactlyOnceFails | README.md:17-18 | Nor is an event stored once: the one loop stores two copies a minute apart, and both are sent and acknowledged. |
| Requests.SentAgainIff | internal/eventsender/loki/loki.go:201-238 | In every reachable state, an idle sender which stays configured can request Loki to take an accepted message (again) if and only if the message is owed to it and had fewer than eleven deliveries; the same for requests which Loki accepts. |
| DeduplicationLimits.StoredIffForgotten | internal/eventqueue/eventqueue.go:297-335 | After any run, an undisturbed publish stores its event, owed to all consumers and recorded, exactly if every record of the key has outlived the TTL and the stream has forgotten the id; otherwise the log stays as it is. |
| DeduplicationLimits.RunKnowsKeys | internal/eventqueue/eventqueue.go:317-335 | Bucket and duplicate window only ever hold keys of messages which the stream accepted, with the times of their records. |
| StartupOrder.AcceptedForConfiguredSenders | cmd/kigeon/main.go:140-244 | In every run, whenever a message is accepted, the consumers are exactly the configured senders, at least one, and each of them is owed it. |
| StartupOrder.RecordedOnlyIfHeard | internal/eventqueue/eventqueue.go:223-228 | No key is ever in the bucket for an event nobody was subscribed to. |
| Main.StartUp | cmd/kigeon/main.go:140-250 | The pusher starts exactly if every namespace filter, subscription and sender starts, all stale consumers can be listed and deleted, and the pod informer starts; the consumers are then those of the senders. Whatever fails, no configured sender loses its backlog. |
| Main.SubscribeAll | cmd/kigeon/main.go:143-216 | Succeeds exactly if every sender can be started, and then all are subscribed in order and named for pruning; it stops at the first which cannot. |
| Main.StartSender | cmd/kigeon/main.go:152-204 | A sender starts exactly if its filter starts, it can subscribe and it can be created; it is subscribed before it is created. |
| Main.StartUpIsRun | cmd/kigeon/main.go:140-244 | A successful startup is the boot sequence of the machine, from whatever consumers were left on disk. |
| Main.SubscribeSteps | cmd/kigeon/main.go:144-216 | Subscribing the first k senders one step at a time leaves the queue as subscribing them in a loop does. |
| Fanout.LeavesOnlyIfSettled | internal/eventqueue/eventqueue.go:138-151 | A step takes a message out of a sender's backlog if and only if it evicts the oldest message, prunes a sender which is not configured, or is an acknowledgement of this message which takes effect. |
| Fanout.SettlingHadOutcome | internal/eventsender/loki/loki.go:167-238 | A loop which acknowledges a message held it before and had it filtered, skipped, sent or rejected. |
| Backlog.NoSilentLoss | internal/eventqueue/eventqueue.go:223-245 | However a run goes on after an event was accepted, crashes and failures included, each configured sender can still be given it, or it left the backlog by eviction, by pruning, or by an acknowledgement after it was filtered, skipped, sent or rejected, or the queue gave up after eleven deliveries over 403 seconds. |
| Backlog.TriedAgainIff | internal/eventqueue/eventqueue.go:228-240 | In every reachable state, exactly when some continuation puts an accepted message into the hands of a sender which stays configured: if it holds it already, or is owed it with a delivery to spare. |
| Backlog.NeverStuck | internal/eventqueue/eventqueue.go:228-240 | In every reachable state, an idle sender gets every message of its backlog which has a delivery to spare, after a minute and some steps of its own loop only, in spite of the limit on pending messages. |
| Backlog.AtMostTwoPending | internal/eventqueue/eventqueue.go:237-239 | No sender ever has more than two delivered and unacknowledged messages which the queue has not given up. |
| Backlog.NoPushAfterAck | internal/eventsender/loki/loki.go:234-238 | Once an acknowledgement takes effect, a sender which stays configured never pushes that message again, whatever follows. |
| Requests.NoopMakesNoRequest | internal/eventsender/loki/loki.go:202-210 | A sender which is always configured as noop makes no request in any run. |
| Requests.PushBound | internal/eventqueue/eventqueue.go:229-240 | Over any stretch of any run, crashes included, in which a sender is not removed from the configuration, it makes at most eleven requests for a message. |
| Requests.PrunedSenderStartsAfresh | internal/eventqueue/eventqueue.go:247-274 | The bound needs that condition: a run in which a sender that is removed and added again makes twelve requests for the only message there is. |
| Requests.PruningForgets | internal/eventqueue/eventqueue.go:228-274 | From every reachable state, a sender which is removed and added again can be owed a message with no delivery counted, as long as another sender is still owed it. |
| Fanout.DeliveryBound | internal/eventqueue/eventqueue.go:229-240 | Since its consumer was created, in every run: at most one push per delivery, at most eleven deliveries of a message, the eleventh at least 403 seconds after the first. |
| Fanout.DeliverableIff | internal/eventqueue/eventqueue.go:25-27 | A message of a backlog can be delivered exactly if it is new and at most one is pending, or it had at most ten deliveries and 1, 2, 10, 30 or, from the fifth on, 60 seconds passed since the last. |
| Accounting.MetricsAddUp | internal/eventsender/loki/loki.go:153-268 | In every state of every run: fetched is filtered plus sent, rejected, skipped, failed, failed filter acknowledgements and the one in flight; acknowledgements are fetched minus failed minus the one in flight. |
| Accounting.RunKeeps | internal/eventsender/loki/loki.go:135-146 | Whatever the moves of a sender's loop and metrics preserve holds in every run, restarts included. |
| EventIdentifier.IdentifierCollisions | internal/eventqueue/eventqueue.go:276-283 | Two pairs of UID and count share a key exactly if they are equal or dash twins. |
| EventIdentifier.IdentifierInjective | internal/eventqueue/eventqueue.go:276-283 | Over UIDs which do not end in a dash the key determines UID and count, negative counts included. |
| EventIdentifier.KeyIff | internal/eventqueue/eventqueue.go:276-286 | Two events are duplicates exactly if they agree in UID and count, whatever else they carry. |
| EventIdentifier.ParseDigits | internal/eventqueue/eventqueue.go:282 | Decimal printing can be read back. |
| EventQueue.EventQueue.PublishEvent | internal/eventqueue/eventqueue.go:287-336 | A known event changes nothing, is counted as a duplicate and is no error. Any other which reaches the queue is stored without managed fields at the end of the log and in every backlog, and recorded if that works. An error is returned and counted exactly if the lookup fails or the reply does not arrive, never because recording fails. |
| EventQueue.PublishEventIsRun | internal/eventqueue/eventqueue.go:287-336 | The method is the machine's four publisher steps with nothing in between. |
| EventQueue.EventQueue.SubscribeService | internal/eventqueue/eventqueue.go:228-245 | A new consumer is owed exactly the messages which some other consumer still needs, with no deliveries counted; existing consumers, the service's own included, keep backlog and deliveries. |
| EventQueue.EventQueue.PruneConsumers | internal/eventqueue/eventqueue.go:250-274 | Leaves exactly the consumers of the given services; succeeds exactly if listing works and no stale consumer is undeletable; on failure it has deleted stale ones only. |
| EventQueue.StaleConsumers | internal/eventqueue/eventqueue.go:251-262 | Collects exactly the listed names which are no services. |
| EventQueue.EventFetcher.Fetch | internal/eventqueue/eventqueue.go:197-221 | The returned event is the stored one; the message stays in the backlog, was delivered exactly once more, is pending and cannot be delivered again before its wait is over, while nothing else changes; without an event an error is returned. |
| EventPusher.EventPusher.Enqueue | internal/eventpusher/eventpusher.go:134-143 | Before a shutdown the event is appended to the channel if fewer than 1024 wait, and blocks otherwise; after it, it may be dropped, and sending on a closed channel panics. The channel changes in no other way. |
| EventPusher.OutcomeIff | internal/eventpusher/eventpusher.go:135-142 | An event can be queued exactly while the channel is open and has room, dropped exactly after a shutdown was requested, and a handler can panic exactly once the channel is closed; before a shutdown nothing is left to chance. |
| EventPusher.EventPusher.HandleAdd | internal/eventpusher/eventpusher.go:106-111 | Before a shutdown an added event is appended to the channel if there is room, and waits otherwise. |
| EventPusher.EventPusher.HandleUpdate | internal/eventpusher/eventpusher.go:112-123 | An update is ignored exactly if the resource version is the same; before a shutdown any other is appended to the channel if there is room, and waits otherwise. |
| EventPusher.EventPusher.PublishBuffered | internal/eventpusher/eventpusher.go:192-204 | The loop publishes the buffered events one after the other in their order. |
| EventPusher.EventPusher.Drain | internal/eventpusher/eventpusher.go:200-208 | After a shutdown the buffer is emptied and nothing is stored. |
| EventPusher.PublishedAreKnown | internal/eventpusher/eventpusher.go:192-204 | Every event which the loop published without trouble is known to bucket or window afterwards, whatever else it published. |
| EventPusher.PublishedInOrder | internal/eventpusher/eventpusher.go:192-204 | New events which are published without trouble end up in the log one by one in the order of the channel, and nothing else does. |
| OomKills.OOMKilledEvents | internal/pods/oom.go:29-58 | The nested loops with `seen` yield the events of the first kill of every id, in order. |
| OomKills.Collector.AddState | internal/pods/oom.go:33-49 | One termination joins the collected kills exactly if it qualifies, and `seen` and `events` stay the ids and first occurrences of what was collected. |
| OomKillFacts.FirstOccurrences | internal/pods/oom.go:43-47 | Every first occurrence of an id is reported, at the position which the order of first occurrences gives it. |
| OomKillFacts.IdsDistinctAndComplete | internal/pods/oom.go:31-48 | No id is reported twice, none is missing, nothing is invented. |
| OomKillFacts.ReportedIff | internal/pods/oom.go:29-58 | An id is reported exactly if some container status, in its state or last termination, shows an OOM kill of that id not older than the bound. |
| OomKillFacts.EventsDescribeKills | internal/pods/oom.go:29-92 | Every reported event names the pod, its container and node, and says when it was killed, with its memory limit, as some recent OOM termination in the pod's status does; its UID comes from the container id, or from pod, container and second. |
| OomKillFacts.InitContainersFirst | internal/pods/oom.go:51-56 | Kills of init containers come before all others. |
| OomKillFacts.StateComesFirst | internal/pods/oom.go:33-49 | The kill of a container's present state comes before that of its last termination, and there are no more. |
| OomKillFacts.ListKillsAppend | internal/pods/oom.go:51-56 | The containers of a list come in their order, none left out. |
| OomKillFacts.ReportedShrinks | internal/pods/oom.go:36 | A later bound reports no more ids. |
| OomKillFacts.RestartKeepsId | internal/pods/oom.go:26-56 | A kill of an init container or any other keeps its id when a restart moves it from the state to the last termination. |
| OomKillFacts.MemoryLimitIsFirst | internal/pods/oom.go:94-104 | The limit in the message is that of the first container of this name which sets one, or none. |
| OomWatch.Watcher.Notify | internal/pods/informer.go:181-198 | Calls fn, in order, for the kills of the new pod which the old one did not have. |
| OomWatch.Watcher.HandleUpdate | internal/pods/informer.go:206-211 | Updates are compared with the old pod, tombstones unwrapped and other objects ignored. |
| OomWatch.UnknownExact | internal/pods/informer.go:189-197 | The forwarded UIDs are exactly the unknown ones. |
| OomWatch.UnknownAppend | internal/pods/informer.go:189-197 | Forwarding keeps the order and multiplicity of unknown events, however the list is split. |
| OomWatch.CalledIff | internal/pods/informer.go:180-217 | Over every sequence of observations of a pod: fn is called for a kill exactly when the pod shows it, it is within maxAge, and the observation before did not show it. |
| OomWatch.CalledOncePerStretch | internal/pods/informer.go:177-179 | While the pod keeps showing a kill, fn is called for it at the first observation at most. |
| OomDeduplication.SecondCopyNeedsDelay | cmd/kigeon/main.go:252-255 | Over every run with any restarts: a kill is stored again after it was recorded only if its report waited for the lookup at least as long as the first record came after the kill. |
| OomDeduplication.StoredTwiceIff | cmd/kigeon/main.go:252-255 | Exactly for which lags and delays some run stores a kill twice. |
| OomDeduplication.ReportsAreObservable | internal/pods/informer.go:181-197 | What OnOOMKilled reports with maxAge set to the TTL is what the machine lets handlers observe. |
| Starlark.StarlarkValueToGo | internal/eventsender/loki/hook.go:260-291 | On heap containers, shared or not, the conversion computes the specified value or the first error, and terminates on everything which unfolds to a tree; StarlarkFacts.SamePaths and FailureHasCause say what value and error that is. |
| Starlark.StarlarkDictToGoMap | internal/eventsender/loki/hook.go:244-258 | The same for dicts. |
| Starlark.GoValueToStarlark | internal/eventsender/loki/hook.go:217-242 | Succeeds exactly for JSON-shaped values of any depth, in fresh containers which encode the value. |
| Starlark.GoMapToStarlarkDict | internal/eventsender/loki/hook.go:203-215 | The same for maps, whose entries may be visited in any order. |
| StarlarkFacts.ConvertsBack | internal/eventsender/loki/hook.go:203-291 | Whatever encodes a Go value converts back to it, at any depth and in any order of dict entries. |
| StarlarkFacts.RoundTrip | internal/eventsender/loki/hook.go:203-291 | Both conversions one after the other, on the heap: succeed exactly for JSON-shaped values, and return the original. |
| StarlarkFacts.SucceedsIff | internal/eventsender/loki/hook.go:244-291 | Converting to Go succeeds exactly if every reachable dict has string keys only, every reachable integer fits int64 and no other type is reachable. |
| StarlarkFacts.SamePaths | internal/eventsender/loki/hook.go:244-291 | On success every path of keys and indices leads to the same on both sides: an equal bool, integer, float or string, None, a dict with the same keys, a list of the same length, or nowhere. |
| StarlarkFacts.FailureHasCause | internal/eventsender/loki/hook.go:244-291 | Every error names a defect which some reachable value has: a key which is no string, an integer beyond int64, or a type. |
| StarlarkFacts.FirstEntryFails | internal/eventsender/loki/hook.go:246-256 | The first entry of a dict which does not convert decides the error. |
| StarlarkFacts.JsonShapedIff | internal/eventsender/loki/hook.go:217-241 | A value is JSON-shaped exactly if no path leads to an int64 or to another type. |
| StarlarkFacts.EntriesExact | internal/eventsender/loki/hook.go:244-258 | No key is lost or added, and each keeps its value. |
| StarlarkFacts.ElemsExact | internal/eventsender/loki/hook.go:278-287 | Lists keep length and order. |
| StarlarkFacts.UnfoldDenotes | internal/eventsender/loki/hook.go:260-291 | Every value over a heap with an acyclicity rank unfolds to a tree, so the conversion terminates on it however containers are shared. |
| Numbers.ReadableIff | internal/eventsender/loki/hook.go:166-201 | An int64 which JSON turns into the nearest float64 and writes in its shortest form reads as an int64 again if and only if its absolute value is below 2^63 - 512. |
| Numbers.SmallSurvives | internal/eventsender/loki/hook.go:166-201 | Up to 2^53 it comes back unchanged. |
| Numbers.NearestIsNearest | internal/eventsender/loki/hook.go:173-176 | Parsing rounds to a number with 53 significant bits than which none is nearer. |
| Numbers.TiesToEven | internal/eventsender/loki/hook.go:173-176 | Halfway between two of them, the even one is taken. |
| Numbers.TextDenotesDouble | internal/eventsender/loki/hook.go:190-193 | The shortest text of a float64 denotes that float64. |
| LokiConfig.JsonRoundTrip | internal/eventsender/loki/config.go:19-74 | Encoding a config with omitempty and decoding it keeps every field, up to rounding of a timeout above 2^53 nanoseconds, and turns an empty labels map into nil; it fails exactly for the largest timeouts. |
| LokiConfig.EncodedFields | internal/eventsender/loki/config.go:19-37 | The encoded config holds exactly the marshalled value of each field under its key. |
| LokiConfig.SettingsUnderNames | internal/eventsender/loki/config.go:19-37 | Under which names a script finds the settings, and which are left out when empty. |
| LokiConfig.HookUnderNames | internal/eventsender/loki/config.go:45-74 | The same for the settings of the hook. |
| LokiConfig.DecodedFrom | internal/eventsender/loki/config.go:19-37 | What is decoded is exactly what stands under these names, null being as good as nothing; wrong types are errors. |
| LokiConfig.DecodeReads | internal/eventsender/loki/hook.go:190-200 | Other keys do not matter. |
| LokiConfig.EncodedIsJsonShaped | internal/eventsender/loki/hook.go:166-179 | Every config can be turned into a Starlark dict. |
| Hook.Execute | internal/eventsender/loki/hook.go:76-142 | The script gets an encoding of the config and one of the event, with its pod if found; whatever it does to them, nothing else changes. The event is skipped exactly if it returns None, or if the pod is missing and the hook says so; failing or returning no dict is an error; the hook settings stay. |
| Hook.EnrichPod | internal/eventsender/loki/hook.go:147-164 | The event then encodes the event's JSON with the pod under "pod", or as it was; skips exactly if the pod is missing and the hook says so. |
| Hook.ScriptIsObeyed | internal/eventsender/loki/hook.go:133-141 | A script which returns any config: exactly that config is used, with the hook of the base config, unless its timeout is one of the largest. |
| Hook.ScriptDecides | internal/eventsender/loki/hook.go:124-141 | Whatever dict a script returns: the settings which are used are those under their names, and no number in it is NaN or infinite. |
| Hook.HasJsonIff | internal/eventsender/loki/hook.go:190-193 | A value has a JSON text exactly if no path leads to NaN or an infinity. |
| Hook.IdentityTransform | internal/eventsender/loki/hook.go:76-142 | A script which returns its config gives back the config it started from, hook included, for every config whose timeout is not one of the largest, and an error for the others. |
| Hook.LongestTimeoutFails | internal/eventsender/loki/hook.go:76-142 | The longest duration of Go as a timeout makes the identity script fail. |
| LokiSender.LokiSender.BuildLabels | internal/eventsender/loki/loki.go:349-376 | A fresh map which says under each label what the event says, source labels only if not empty, and otherwise what is configured; the configured map is untouched. |
| LokiSender.DefaultConfigIsDefault | internal/eventsender/loki/loki.go:193-197 | The config for an event is the configured one in everything but the labels, which are those of the event over the configured ones. |
| LokiSender.LabelsAreNeverEmpty | internal/eventsender/loki/loki.go:349-376 | Labels are never empty, labels of the event win and configured ones stay otherwise. |
| LokiSender.LokiSender.SendToLoki | internal/eventsender/loki/loki.go:270-313 | The request carries URL, tenant, credentials, labels, message and timestamp of its config and event; sent exactly for 200 to 299, rejected exactly for 400, failed otherwise. |
| LokiSender.LokiSender.DeliverEvent | internal/eventsender/loki/loki.go:201-238 | One decision per event; acknowledged exactly if not failed. |
| LokiSender.LokiSender.HandleHookError | internal/eventsender/loki/loki.go:241-268 | Skip, fail or deliver with the default config, as onError says. |
| LokiSender.LokiSender.ProcessEvent | internal/eventsender/loki/loki.go:153-189 | Exactly one decision for a fetched event, following from the configured labels, the hook and the response; nothing happens without an event. |
| LokiSender.LokiSender.Run | internal/eventsender/loki/loki.go:135-146 | Over any number of rounds and any scripts, every event is decided with the configuration the sender was created with. |
| LokiSender.DecisionsAreSound | internal/eventsender/loki/loki.go:167-268 | In each case, without a hook, after one, for a skipped event and after an error by onError: which request is made under which config, how status or noop decide the result both ways, and that the event is acknowledged exactly if not failed. |
| LokiSender.EventIsDecided | internal/eventsender/loki/loki.go:153-189 | From the fetched event to the decision: no hook, a missing pod, a script which returns None, and one which fails. |
| LokiSender.ScriptConfigIsSent | internal/eventsender/loki/loki.go:167-188 | The request is made under exactly the config which the script returned. |
| LokiSender.DecisionsAppend | internal/eventsender/loki/loki.go:135-146 | Every fetched event is decided once, in order, and independently of what came before. |
| LokiSender.IdentityIsNoHook | internal/eventsender/loki/loki.go:167-268 | A script which returns its config: the same request and outcome as without a hook, except for the largest timeouts with onError skip or fail, which skip or fail the event. |
| LokiSender.DecisionIsStep | internal/eventsender/loki/loki.go:153-268 | What is decided, counted and requested for an event is the corresponding step of the machine. |
| NamespaceFilter.DynamicNamespaceFilter.Handle | internal/filter/namespace_filter.go:98-120 | After any sequence of additions, updates, resyncs, deletions and tombstones, the allowed namespaces are exactly those whose labels matched when last seen. |
| NamespaceFilter.DynamicNamespaceFilter.HandleNamespaceChange | internal/filter/namespace_filter.go:144-152 | Adds a matching namespace, removes another. |
| NamespaceFilter.DynamicNamespaceFilter.IsAllowedForObject | internal/filter/namespace_filter.go:194-202 | Allowed exactly if the labels of the namespace matched when last seen; the setting decides for objects without one. |
| NamespaceFilter.LatestIsLast | internal/filter/namespace_filter.go:144-166 | The last notice about a namespace decides, however many others come after it. |
| NamespaceFilter.MatchesIff | internal/filter/namespace_filter.go:144-152 | A namespace matches exactly if every pair of the selector is among its labels. |
| NamespaceFilter.ViewIff | internal/filter/namespace_filter.go:98-166 | What each notice shows: labels for additions and updates, absence for deletions, also when the informer passes a tombstone. |
| FilteredFetcher.FilteredFetcher.Fetch | internal/eventsender/filter.go:42-62 | Ends on every finite backlog with the first allowed event or failing acknowledgement; exactly the rejected events before are acknowledged and counted, and what follows is left. |
| FilteredFetcher.FirstStop | internal/eventsender/filter.go:42-62 | Where the search stops: at the first event which is allowed or whose acknowledgement fails; all before are rejected and acknowledged. |
| PodInformer.Informer.GetPod | internal/pods/informer.go:145-171 | The live pod, else the last one deleted within the retention, else a denial of the API within the last minute, else the API's answer; NotFound only with a denial less than a minute old for a pod which is neither live nor recently deleted. Whatever does not come from the API is about the pod of this namespace and name. |
| PodInformer.PodKeyInjective | internal/pods/informer.go:173-175 | Between names without a slash, a key determines namespace and name. |
| PodInformer.Informer.HandleDelete | internal/pods/informer.go:113-120 | Every observed deletion is kept for the retention from now on, tombstones included; denials stay at least a minute apart. |
| Pods.ToPod | internal/pods/informer.go:219-225 | Yields the pod of an object exactly if it is one or a tombstone of one. |
| PodInformer.DeletedIsRecent | internal/pods/informer.go:158-160 | The cache of deleted pods has an unexpired entry exactly if some deletion of the pod is within the retention. |
| PodInformer.NotFoundIsRecent | internal/pods/informer.go:161-163 | The cache of missing pods has an unexpired entry exactly if the API denied the pod within the last minute. |
| PodInformer.RecordDeletion | internal/pods/informer.go:115-119 | Recording a deletion keeps the cache in step with the history of deletions. |
| PodInformer.RecordMiss | internal/pods/informer.go:165-169 | Recording a denial keeps the cache in step with the history, in which two denials of one pod are at least a minute apart. |

## Left out

- JetStream and client-go internals: only what kigeon configures is modelled. Stream, bucket and consumers survive a crash with everything they accepted; the duplicate window may lose any ids. An access which outlives its caller's deadline and takes effect later, redelivery order, and limits of the bucket's size and keys are not modelled.
- Backlog.NeverStuck: the way to a message may acknowledge another one first. It says that a message can be fetched, not that a sender does so; fairness of loops is not modelled.
- EventQueue.EventQueue.PublishEvent: a failing json.Marshal has no case of its own; it leaves the queue and the metrics as a publish which fails without storing. The clock stands still inside the method and moves between the machine's publisher steps.
- EventQueue.EventFetcher.Fetch: stored messages are always readable, so the unmarshalling error is not modelled.
- EventPusher.EventPusher.Enqueue: one atomic choice; a handler which blocks is not resumed, and which case `select` takes is a parameter.
- OomWatch.CalledIff: the truncated SHA-256 is an open function, assumed not to confuse the ids in play, and a recorded termination is assumed to keep its finishing time. RFC 3339 text is open, at the granularity of seconds.
- Hook.CallTransform: the Starlark interpreter is left out. A call fails or returns any acyclic value, possibly built from the dicts it was given, with those dicts changed in any way; a cyclic result makes the Go code overflow its stack.
- Hook.Execute: the event's JSON is an arbitrary JSON-shaped map without a "pod" key; the timeout is one way in which a script fails.
- LokiConfig.JsonRoundTrip: JSON text other than that of integers is left out, and with it invalid UTF-8 and keys which match a field in another case. Doubles have no negative zero.
- LokiSender.LokiSender.SendToLoki: HTTP, TLS, headers and the text of the default message are left out; a request fails to be created, gets no response or gets a status.
- PodInformer.Informer.GetPod: one atomic step, as concurrent calls could ask the API twice; the lister reports no other error than a missing pod.
- System.State: the TTL and the push timeout stay the same across restarts, and a pod is identified by its key.
- Settings, their defaults and validation, the sender registry, metrics server, collectors and logging: plumbing without protocol behaviour.
