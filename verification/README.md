# Verification model of kemp_exporter

kemp_exporter polls Kemp LoadMaster appliances over two management APIs (XML with basic authentication, JSON
with a login token), derives metric samples from what they answer, and exposes them through a Prometheus
collector and an OTLP exporter. This project models its concurrent, stateful and loop-driven parts and proves
what they promise:

- **Login.** Any number of callers share one token, a generation counter and one login in flight
  (`LoginSession`, `SessionProtocol`).
- **Transport detection and the anti-lockout cooldown**, over concurrent calls, a moving clock and reloads
  (`Client`, `ClientProtocol`, `Transports`, `Lockout`, `Reloads`, `Fingerprint`).
- **Two readers over one snapshot**, the one-pass Prometheus filter and the per-name OTLP callbacks, and what
  feeds them (`Snapshots`, `Prometheus`, `Otlp`, `Metrics`, `Derivations`, `Health`, `Readings`, `Config`,
  `Collector`, `NoInterference`).
- **Lifecycles**: the configuration watcher (`ConfigWatcher`) and the bounded fan-out of a cycle (`FanOut`).
- **Streaming XML**: depth-counting token loops against a tree (`XmlTokens`, `Sections`).

`Prelude` holds options, faults and sums over sequences; `Text` holds decimal rendering and joined strings.

## How to read it

Objects the program updates in place are classes (`Session`, `SystemClient`, `CollectionLoop`, `PromCollector`,
`OTLPExporter`, `SnapshotStore`, `Watcher`, `Decoder`) and its loops are loops. Where several threads meet, the
bodies of the locked sections are functions on a plain `Core` value. The class methods are proved to compute
those functions, and a step system with one program counter per thread interleaves the same functions freely.
A run is a list of events that is legal from an initial state; every safety result speaks of every such list.
Progress is stated as enabledness plus a measure that every step decreases, so that it holds under any
scheduler that keeps running what can run.

The readers and the derivations are specified by functions that say what a prefix of the samples decides
(`Emits`, `Seen`, `Emitted`); the loops are proved to compute them, and the properties are then proved of the
functions. `Readings` says of the derivations, metric by metric, which payload number each name exposes.

## Where the code falls short of a promise

The model follows the code in each of these.

- `obtain` is documented to return a token of a generation newer than the one presented (auth.go:88-89), and
  `refresh` likewise (auth.go:78-79). A failed attempt moves the generation and keeps the old token
  (auth.go:162-165), so a late caller can be handed the very token it saw rejected, under a newer number:
  `RefreshMayReturnTheRejectedToken` is such a run. A caller that led or waited always gets a new token
  (`SharedTokenIsNew`). The cached branch meets the promise if and only if some attempt above the presented
  generation succeeded, and otherwise returns the token of the rejected attempt itself (`CachedTokenIsNew`).
- `SetClients` is said to carry the cooldown over every reload (collector.go:36-40). It copies what has been
  recorded so far, but a cycle in flight keeps calling the superseded clients of its private copy
  (collector.go:47-57), so a rejection recorded after the swap is lost to the new client:
  `ReloadInFlightLosesTheCooldown`. No such rejection can follow, whatever the superseded client still meets, if
  and only if none of its calls is planned by a cycle, entering, past the cooldown check, asking the probe or the
  active transport, or about to note a rejection (`HandedOnIsFinal`). A call of the superseded client that ends
  well forgets its cooldown, which the new one keeps; `HandedOnIsExact` gives the condition under which the two
  agree to the end. Reloads between cycles keep the bound of one client for the whole chain (`LockoutBound`);
  a reload at any other time costs at most one more rejection for each call that could still note one, at most k
  in all (`ChainBound`).
- `decodeSuccessData` is said to look for a child of Response>Success (transport_xml.go:107-109). The loop does
  not look above Success, so a Response>Wrap>Success>Data that passes the envelope check is decoded
  (`SuccessMayBeDeeper`). It keeps to the documentation if and only if every other Data below an outermost
  Success comes after a documented one (`MeetsDocumentationExactly`).
- `Close` blocks until no callback can fire (watcher.go:137-141), but `reload` holds the mutex while `onReload`
  runs and `Close` takes it first, so a callback must not call it: `CallbackMustNotClose` is a run from the
  start after which no Close ever returns, and `EveryCloseCompletes` covers every run without such a callback.
  The shipped handler cannot do it, because it never holds the watcher (main.go:288-293).
- `Load` does not refuse a NUL inside a system name, and the readers join label values with a NUL. With such
  names one system's rows can push out another's. `ExactlyNulExtensionsInterfere` says when: if and only if one
  name is the other followed by a NUL and anything.

## Model

| member | source | states |
|---|---|---|
| LoginSession.Session.Check | internal/kemp/auth.go:136-150 | A cached token of another generation is used as it is; otherwise the pending attempt is joined, and one is started, for every later caller to join, only when there is none; token and generation never change here |
| LoginSession.Session.Publish | internal/kemp/auth.go:154-178 | The deferred end of an attempt moves the generation by one, replaces the token on success only, clears the pending attempt and closes it with its own token or its own error; after a panic with an error that is no rejection |
| LoginSession.Session.Obtain | internal/kemp/auth.go:135-181 | One uncontended caller logs in exactly when nothing usable is cached and gets the token or the very error of its attempt; a failed login never discards a token, no error means a non-empty token, and the generation returned is above any earlier one presented |
| SessionProtocol.StepInv | internal/kemp/auth.go:135-181 | The invariant over session, attempts and callers is kept by every step of every caller, which is what the results below rest on |
| SessionProtocol.SingleFlight | internal/kemp/auth.go:135-181 | In every reachable state attempts started = generation + pending, at most one attempt runs, a pending attempt has a live leader, and each attempt is closed at most once, published and detached before that, with its own token or error as the reply; once nobody is inside Do each has been closed exactly once |
| SessionProtocol.StampedeCollapse | internal/kemp/transport_json.go:57-82 | Callers that present one rejected generation while a token is cached start at most one attempt between them, and a login without a cached token happens only after failures alone |
| SessionProtocol.CheckAgreesWithClass | internal/kemp/auth.go:136-150 | The number the class gives an attempt is the number the run gives it, so the locked section of the class is the step of the protocol |
| SessionProtocol.TokenStays | internal/kemp/auth.go:162-165 | Once a token is cached no step of any caller empties it |
| SessionProtocol.Freshness | internal/kemp/auth.go:53-57 | Every token handed out belongs to the latest success numbered at or below the returned generation, which is above the one presented; it is newer than the presented one exactly when an attempt in between succeeded |
| SessionProtocol.SharedTokenIsNew | internal/kemp/auth.go:154-181 | A caller that led or waited gets the token of the attempt whose generation it is told |
| SessionProtocol.SharedOutcome | internal/kemp/auth.go:135-181 | In every reachable state a waiter that wakes and a leader that leaves have the end of the attempt they shared: its token and generation, or its own error, so a rejected login is a rejection for all who shared it and a panic for none |
| SessionProtocol.CachedTokenIsNew | internal/kemp/auth.go:88-98 | The cached branch hands out the token of the latest successful attempt; it is newer than the presented generation if and only if an attempt in between succeeded, and for a refresh it is otherwise the rejected attempt's own token |
| SessionProtocol.RefreshMayReturnTheRejectedToken | internal/kemp/auth.go:78-86 | A run of two callers in which refresh returns the rejected token under a newer generation |
| SessionProtocol.NobodyHangs | internal/kemp/auth.go:116-134 | A caller inside Do can step or waits for an attempt whose leader can, also when the attempt panicked |
| SessionProtocol.RunsEnd | internal/kemp/transport_json.go:57-104 | Without new calls the length of any run is bounded by the steps its callers have left |
| SessionProtocol.LoginsPerCall | internal/kemp/transport_json.go:57-104 | Over any run from a cold session: at most two login attempts for each call of Do, at most one for each call and each rejected post, and at most one for each call while none has succeeded |
| Fingerprint.FeedHash | internal/kemp/client.go:97-112 | The hashing loop feeds the length-prefixed encoding, and a decoder recovers the fields from what was fed |
| Fingerprint.DecodeUndoesEncode | internal/kemp/client.go:85-112 | The encoding is uniquely decodable for all field lists, colons and digits included |
| Fingerprint.PreimageDistinguishes | internal/kemp/client.go:97-112 | Two systems have one preimage if and only if every field except the name is equal |
| Client.SystemClient.CheckCooldown | internal/kemp/client.go:243-253 | Reports the recorded rejection itself, never nil for sixty seconds and always nil after them |
| Client.SystemClient.NoteAuthResult | internal/kemp/client.go:259-280 | A rejection is recorded with its time, nil clears the record, any other error leaves it; detection state is untouched |
| Client.SystemClient.EnsureTransport | internal/kemp/client.go:298-335 | An active transport is used; JSON is probed exactly when nothing is active and it is configured; its success settles on JSON, an unsupported or rejected probe falls back to XML where configured, and any other failure leaves the client undetected with an error that is no rejection |
| Client.SystemClient.Reprobe | internal/kemp/client.go:348-395 | The alternate is asked at most once in the client's life, becomes active only on success, and the errors of both sides are kept |
| Client.SystemClient.Do | internal/kemp/client.go:209-238 | One uncontended call, case by case: suppressed it asks nobody and changes nothing; which transport it asks, what it records, which error it returns and which transport is active after it |
| Client.LastNamed | internal/kemp/client.go:131-143 | The map by name holds a real client of the previous set with that name, or none exists |
| Client.LastNamedIsLast | internal/kemp/client.go:135-140 | No later real client of the previous set has that name |
| Client.CarriedFromTheNamesake | internal/kemp/client.go:141-157 | Nothing but the cooldown is carried, exactly from a namesake with the same credential that has one; every other client keeps its own |
| Client.CooldownFollowsTheCredential | internal/kemp/client.go:114-162 | A rebuilt client is suppressed as its predecessor was if nothing but the name may differ, and not at all otherwise |
| Client.CarryAuthCooldown | internal/kemp/client.go:131-162 | For any two client sets, also sets that share clients: exactly the cooldown fields of the new set change, each to what the last client of that name and credential held before the call |
| ClientProtocol.StepMutex | internal/kemp/client.go:298-335 | The mutex is held over the whole probe and by one call at most, in every interleaving |
| ClientProtocol.DoIsARun | internal/kemp/client.go:209-238 | The class's do is one of the protocol's runs: same client state, same number of JSON calls, for all answers and states |
| Transports.TransportStability | internal/kemp/client.go:298-395 | Over all runs the active transport is never unset, is always configured, and changes at most once after detection |
| Transports.ProbeDecides | internal/kemp/client.go:298-335 | In every run of one client: what each answer to the probe does; after a transport-level failure the client stays undetected, no other transport is asked and the call ends in an error that is no rejection |
| Transports.DetectionNeedsEvidence | internal/kemp/client.go:303-325 | An undetected client settles on JSON only after a probe it served, and on XML, where JSON is configured, only after one that was unsupported or rejected |
| Transports.SuppressedIsTold | internal/kemp/client.go:209-253 | In every run a call within sixty seconds of a recorded rejection ends at once and is told of a rejection; any other goes on, and the check changes nothing |
| Transports.RejectedJsonIsTriedTwice | internal/kemp/client.go:298-395 | With both transports and JSON always rejecting the credential, whatever XML answers: JSON is asked at most twice in the client's life, never becomes active, and the rejections noted or about to be are exactly as many as XML gave |
| Transports.AcceptedXmlIsNeverSuppressed | internal/kemp/client.go:348-395 | So an XML side that accepts the credential is never suppressed on account of JSON |
| Transports.ScheduleIndependence | internal/kemp/client.go:209-238 | With fixed JSON answers, any number of concurrent calls in any interleaving settles on JSON if and only if JSON serves both commands, else on XML |
| Transports.NobodyHangs | internal/kemp/client.go:209-238 | A call planned or in flight can step or waits for a probe that can end |
| Transports.CallsEnd | internal/kemp/client.go:209-238 | A run that plans no new calls is bounded, so all calls planned or in flight end |
| Lockout.LockoutBound | internal/kemp/client.go:243-280 | Without success, with at most k calls planned or in flight, any interleaving, a moving clock and reloads between cycles: k rejections before the first is noted, and k * (1 + elapsed / 60 s) from then on, for the whole chain of clients; with both transports configured, two more for each client of the chain |
| Lockout.LoginAttemptsBound | internal/kemp/client.go:209-280 | The same bound on the JSON calls begun by a JSON-only client that is always rejected, answered or not |
| Lockout.BothCallsCanBeRejected | internal/kemp/collector.go:146-170 | A run in which both calls of one target are rejected at once: the factor k cannot be dropped |
| Reloads.ReloadInFlightLosesTheCooldown | internal/kemp/collector.go:36-46 | A run in which a client swapped while its call is with the appliance, its mutex free, hands on no cooldown, and both clients are rejected within one period |
| Reloads.HandedOnIsFinal | internal/kemp/collector.go:36-57 | At any state a reload can find, and whatever the planned and running calls of the superseded client still meet, it records no rejection the reload did not hand on if and only if none of them can still note one |
| Reloads.HandedOnIsExact | internal/kemp/client.go:131-162 | The cooldown handed on is the one the superseded client ends with, in every continuation, if and only if no call can still note a rejection and, where there is a cooldown, none can still end well |
| Reloads.ChainBound | internal/kemp/collector.go:41-57 | With reloads at any time the mutex is free, also in the middle of a cycle: the rejections given to all clients of the chain exceed the bound of one client by at most one for each call that could still note one when superseded, at most k for each reload |
| Snapshots.SortedIsUnique | internal/kemp/snapshot.go:36-49 | The sorted name list is determined by the set of names, whatever order the set is ranged in |
| Snapshots.LessIsLexical | internal/kemp/snapshot.go:36-49 | The order of the names is that of strings compared byte by byte |
| Snapshots.FlattenAt | internal/kemp/prometheus.go:96-98 | Every sample of every system is visited at its own place, system after system |
| Snapshots.ByNameSelects | internal/kemp/snapshot.go:54-64 | The samples of a name at strictly increasing positions, which are exactly those that have it |
| Snapshots.MetricNames | internal/kemp/snapshot.go:36-49 | Exactly the names of the snapshot, each once, sorted |
| Snapshots.SamplesByName | internal/kemp/snapshot.go:54-64 | Exactly the samples of one name, in visiting order |
| Snapshots.SnapshotStore.Store | internal/kemp/snapshot.go:85-89 | A stored snapshot replaces the last one as a whole |
| Prometheus.PromCollector.Collect | internal/kemp/prometheus.go:92-152 | The nested loops emit, in visiting order, one metric with the name, labels and value of each sample whose turn it is, and no other |
| Prometheus.Visit | internal/kemp/prometheus.go:101-148 | One sample: the schema map stays what the prefix determines, a failed rendering does not mark the series as seen |
| Prometheus.FirstKeysMeaning | internal/kemp/prometheus.go:101-125 | The schema of a name is the key sequence of its first sample |
| Prometheus.SeenMeaning | internal/kemp/prometheus.go:126-148 | A signature is seen if and only if an earlier sample of the name was emitted with it |
| Prometheus.FirstWins | internal/kemp/prometheus.go:92-152 | A NUL-free sample is emitted if and only if it renders, has the first keys of its name and repeats no earlier series |
| Prometheus.EmittedSelects | internal/kemp/prometheus.go:133-148 | The k-th metric shows the sample at the k-th of strictly increasing positions, value included, and those are exactly the samples emitted at their turn |
| Prometheus.OutputIsFirstWins | internal/kemp/prometheus.go:92-152 | On NUL-free samples those positions are exactly the samples that render, have the keys of the first of their name and repeat no earlier series |
| Prometheus.NoDuplicateSeries | internal/kemp/prometheus.go:92-152 | For every snapshot, NUL or not, the output has no two metrics of one name and equal values, and one key sequence per name |
| Prometheus.SignatureIsFaithful | internal/kemp/prometheus.go:126-132 | Joined values determine the values when none holds a NUL |
| Prometheus.NulValuesCollide | internal/kemp/prometheus.go:126-132 | Two different series with one signature, for any constructor that accepts the first: first-wins needs the NUL hypothesis |
| Otlp.OTLPExporter.EnsureInstruments | internal/kemp/otlp.go:121-195 | Registers exactly the new names; when the SDK refuses one, exactly the names below it have been added |
| Otlp.OTLPExporter.Observe | internal/kemp/otlp.go:132-187 | The callback of a name observes, in order and with label lists and values of their own, the first-wins selection from the samples of that name |
| Otlp.PerNameState | internal/kemp/otlp.go:132-187 | A pass over one name's samples carries the filter state of the pass over all samples |
| Otlp.PerNameOutput | internal/kemp/otlp.go:132-187 | It emits the metrics of that name, in the order of the pass over all |
| Otlp.RendererIsIdle | internal/kemp/prometheus.go:133-148 | A renderer that refuses nothing observed changes neither output nor filter state |
| Otlp.ReadersAgree | internal/kemp/otlp.go:121-195 | For any snapshot the OTLP callbacks observe, name by name and in order, what Collect emits, if and only if everything observed renders |
| Otlp.ReadersAgreeWhenAllRender | internal/kemp/otlp.go:121-195 | They agree on every snapshot whose samples all render |
| Otlp.ExportIsPermutation | internal/kemp/otlp.go:121-195 | Once all names of the snapshot are registered, the callbacks together observe a permutation of Collect's output; names registered earlier and gone since add nothing |
| Metrics.BuildersAreClean | internal/kemp/metrics.go:28-104 | Every builder leads with the cleaned system name and yields valid values only, whatever the appliance reports |
| Derivations.VsKeyIsInjective | internal/kemp/derivations.go:15-17 | Equal keys if and only if equal address and port, for addresses that hold colons too |
| Derivations.LastMatchIsLast | internal/kemp/derivations.go:20-26 | The specification of the index is the last matching row of a linear scan |
| Derivations.IndexVSInfo | internal/kemp/derivations.go:20-26 | The map answers every address and port with that last matching row |
| Derivations.ParentIsFound | internal/kemp/derivations.go:108-131 | A real server's parent is the last stats row with its index, else the first listvs row, else none |
| Derivations.IndexParents | internal/kemp/derivations.go:108-131 | The two filling loops compute that search for every index |
| Derivations.ParsedExactly | internal/kemp/derivations.go:51-57 | A sample appears if and only if its field parsed |
| Derivations.DeriveVirtualServices | internal/kemp/derivations.go:61-104 | The loops with the index compute the row-by-row join with the linear scan; what that exposes is VirtualServicesExpose |
| Derivations.DeriveRealServers | internal/kemp/derivations.go:108-149 | The same for real servers, with the searched parent; what that exposes is RealServersExpose |
| Health.DeriveHealth | internal/kemp/health.go:10-46 | Totals, processors, load figures and interfaces in this order, each field once and only when parsed |
| Readings.VirtualServicesExpose | internal/kemp/derivations.go:61-104 | Metric by metric: a sample of the name is in the output if and only if some row has that number parsed, with its value and the five labels of the row joined with the last matching listvs entry; the status of that entry as an up reading and as a word |
| Readings.RealServersExpose | internal/kemp/derivations.go:108-149 | The same for real servers, under their own labels and those of the virtual service found for them |
| Readings.HealthExposes | internal/kemp/health.go:10-46 | Each appliance-wide number under its name and the system label, each processor's and interface's under its own row's labels, and nothing else under these names |
| Readings.StatusWords | internal/kemp/derivations.go:35-44 | Up, sick and redirect read as 1, down and disabled as 0, any other word as absent |
| Readings.TargetExposes | internal/kemp/collector.go:193-200 | A target with statistics says up in its one up sample, and every other name has exactly the samples of its one derivation |
| Readings.DownTargetExposes | internal/kemp/collector.go:180-191 | A target without statistics has one sample, which says down |
| Config.CheckSystems | internal/config/config.go:214-292 | Accepts if and only if names are distinct, non-empty and valid and every system is usable; otherwise reports the first offender for its first failed check |
| Config.AcceptedMeans | internal/config/config.go:214-292 | Accepted lists have distinct, non-empty, valid names, a host and one usable credential for every system, and these are accepted |
| Collector.CollectSystem | internal/kemp/collector.go:146-200 | A target is up if and only if statistics arrived, which its first sample says as 1 or 0; a failed listvs loses names only; transport name and error are those of the outcome |
| Collector.SamplesWellKeyed | internal/kemp/metrics.go:54-112 | For every answer of an appliance, the key sequence of every sample is a function of its metric name and its first label is the system |
| Collector.CollectionLoop.SetClients | internal/kemp/collector.go:41-46 | The new set is in place and each client has the cooldown of the last old client of its name and credential |
| Collector.CollectionLoop.CollectOnce | internal/kemp/collector.go:95-130 | For given answers, one result per client, in config order, whatever order the targets finish in |
| Collector.RunTargets | internal/kemp/collector.go:95-125 | For every choice of what starts and finishes when, each target's own slot holds its own result |
| FanOut.CycleReturnsInOrder | internal/kemp/collector.go:41-130 | For every interleaving with other SetClients calls, a cycle returns one result per client of its private copy, in order, with at most max(1, limit) running at any time |
| FanOut.FinishedAnswer | internal/kemp/collector.go:118-125 | What a target answers stands at its own place under its own client from then on, whatever the others and SetClients do |
| FanOut.CycleEnds | internal/kemp/collector.go:95-130 | An unfinished cycle always has a step of its own that leaves less to do |
| FanOut.EveryStepCounts | internal/kemp/collector.go:95-130 | Every step of a cycle leaves less to do, so it ends once its targets do |
| NoInterference.NoKeyDrift | internal/kemp/prometheus.go:113-125 | On the snapshot of any cycle, whatever the appliances report, each sample has the keys of the first of its name, so the key-drift branch is unreachable |
| NoInterference.SystemsDoNotInterfere | internal/kemp/collector.go:193-199 | Collect on a cycle's snapshot is the concatenation of Collect on each system alone, whatever the appliances report, when no name extends another by a NUL |
| NoInterference.LoadedSystemsDoNotInterfere | internal/config/config.go:268-285 | The same for every configuration Load accepts whose names hold no NUL |
| NoInterference.ReadersAgreeOnEveryCycle | internal/kemp/metrics.go:17-34 | With a constructor that accepts the derived metrics under their own keys and valid values, the two readers agree on every name of the snapshot of any cycle, since values are cleaned before either sees them |
| NoInterference.CarefulRendererAccepts | internal/kemp/prometheus.go:133-148 | A constructor that checks the name, the number of values and their validity is such a constructor |
| NoInterference.ExactlyNulExtensionsInterfere | internal/config/config.go:268-285 | Two accepted names can disturb each other if and only if one is the other followed by a NUL and anything |
| ConfigWatcher.Watcher.ScheduleReload | internal/config/watcher.go:105-115 | Stops the pending timer if it is still armed and arms a new pending one, and does nothing on a closed watcher |
| ConfigWatcher.Watcher.Reload | internal/config/watcher.go:122-135 | Calls onReload if and only if the watcher is open and the file loads |
| ConfigWatcher.Watcher.MarkClosed | internal/config/watcher.go:142-152 | The first Close marks the watcher and disarms the timer; the tearing down belongs to that call alone |
| ConfigWatcher.StepInv | internal/config/watcher.go:69-159 | Mutual exclusion and the close protocol are kept by every step of loop, timers and closers |
| ConfigWatcher.OneCallbackAtATime | internal/config/watcher.go:117-135 | In every interleaving at most one onReload runs, none once closed, and the close channel is closed at most once |
| ConfigWatcher.ReloadStages | internal/config/watcher.go:122-135 | A failed load releases the mutex and leaves no callback, a successful one leads to it under the mutex, a closed watcher ends the reload at its lock |
| ConfigWatcher.NoCallbackWithoutLoad | internal/config/watcher.go:128-134 | In every run an actor is in a callback only if its latest load succeeded |
| ConfigWatcher.LoopStages | internal/config/watcher.go:69-115 | A signal reloads at once, an event of the watched file arms the timer, one of any other file does nothing |
| ConfigWatcher.OnePendingTimer | internal/config/watcher.go:102-115 | In every run at most one timer is armed, so a burst of events leaves one to fire, and none once closed |
| ConfigWatcher.CloseStages | internal/config/watcher.go:142-159 | The first Close marks, tells the loop, waits for it and then releases the filesystem watch; a repeated one returns at the mark |
| ConfigWatcher.ReleasedLast | internal/config/watcher.go:137-159 | In every run the filesystem watch is released only after the loop has gone |
| ConfigWatcher.QuietAfterClose | internal/config/watcher.go:137-159 | After any Close has returned no onReload runs and none ever starts, also from a timer that fired before Stop |
| ConfigWatcher.CloseGetsOn | internal/config/watcher.go:142-159 | A Close under way can step itself, or the reload that holds its mutex or the loop it waits for can, unless a callback is stuck in Close |
| ConfigWatcher.StepPending | internal/config/watcher.go:69-159 | Every internal step, in any order, leaves less pending |
| ConfigWatcher.EveryCloseCompletes | internal/config/watcher.go:137-159 | In every interleaving with signals, file events, cancellation and other Close calls: the run is bounded by what it started with and what arrived, and when the watcher cannot move every Close that was called has returned |
| ConfigWatcher.CloseInsideCallbackHangs | internal/config/watcher.go:122-135 | Once a callback has called Close it keeps the mutex for good and no Close that has not passed its lock returns |
| ConfigWatcher.CallbackMustNotClose | internal/config/watcher.go:122-142 | A run from the start reaches that state, and no continuation of it lets any Close return |
| XmlTokens.DecodeSuccessData | internal/kemp/transport_xml.go:121-147 | The loop computes the scan of the tokens, and what it decodes is a Data start-tag |
| XmlTokens.DepthIsNesting | internal/kemp/transport_xml.go:124-144 | The counter, start-tags less end-tags read so far, equals the number of enclosing elements at every node of every well-nested document |
| XmlTokens.ScanFinds | internal/kemp/transport_xml.go:121-147 | On the tokens of any well-nested nodes the scan stops where the search of the tree finds its element, and otherwise passes them all in the state it began with |
| XmlTokens.DecodesTheFirstPayload | internal/kemp/transport_xml.go:107-147 | It stops at the first Data in document order whose parent is a Success with no Success above it, and fails if and only if the document has none |
| XmlTokens.StreamAt | internal/kemp/transport_xml.go:135 | What is decoded from that position is the found element as a whole |
| XmlTokens.MeetsDocumentationExactly | internal/kemp/transport_xml.go:107-119 | What is found is a Data of Response>Success, and nothing is found only if there is none, if and only if every payload elsewhere comes after a documented one |
| XmlTokens.SuccessMayBeDeeper | internal/kemp/transport_xml.go:63-93 | A document that passes the envelope check and whose Data is found below Response>Wrap>Success |
| Sections.Decoder.DecodeElement | internal/models/statistics.go:108-112 | It consumes up to the end-tag that matches by nesting, and fails exactly when there is none |
| Sections.ContentOfElement | internal/models/statistics.go:99-143 | For a well-nested element that is its own end-tag, even when descendants share its name |
| Sections.ReadRow | internal/models/statistics.go:105-113 | One child: its row is appended under the child's own name, and the decoder is left behind the child |
| Sections.RowOfChild | internal/models/statistics.go:105-113 | One row for each child element and no other, at the place the elements before it leave off, under the child's own name and with its own fields |
| Sections.UnmarshalXML | internal/models/statistics.go:99-143 | For any well-nested children one row per direct child in order, stopping exactly behind the section's own end-tag; it fails if and only if a child does not decode |

## Left out

- HTTP, TLS, the retrying client and the body of `login`: an attempt is a token, an error or a panic, a
  transport call is success or one of three faults, and a cancelled context is one of those errors. A successful
  attempt has a non-empty token, as `login` ensures (auth.go:230).
- LoginSession.Session.Obtain: one caller that meets no other, because a method body cannot be interleaved;
  interleavings are the runs of `SessionProtocol` over the same locked sections.
- Client.SystemClient.Do: one call that meets no other, for the same reason; `DoIsARun` ties it to
  `ClientProtocol`.
- SHA-256: a fingerprint is the hash's preimage, so equality of fingerprints assumes a collision-free hash.
- Real time: the clock is a nondecreasing integer of seconds, timers and debouncing are states of a callback
  (armed, fired, running, stopped), and per-target timeouts are outcomes.
- Lockout.LockoutBound: reloads happen between cycles; with a reload during a cycle it fails, as
  `ReloadInFlightLosesTheCooldown` shows, `HandedOnIsFinal` says which calls do the harm and `ChainBound` how much.
- Reloads.ChainBound: a swap is one step, taken where the old client is read; until the new set is in place no
  cycle can take its copy, because `SetClients` holds the loop's mutex (collector.go:41-57).
- Collector.CollectionLoop.CollectOnce: the answers of the targets are given in advance; the limit on targets in
  flight and concurrent `SetClients` calls during a cycle are properties of the runs in `FanOut`.
- ConfigWatcher.EveryCloseCompletes: `Load` and `onReload` are steps that end; that they do is assumed.
- The string library: UTF-8 validity, its repair and the folding of a status are parameters under the laws of
  `Library.Lawful`; `strconv.Itoa` is modelled.
- The Prometheus constructor is a parameter that accepts or refuses a name, keys and values; the float value
  takes no part in that.
- Numbers are reals with a parsed flag; `strconv.ParseFloat`, infinities and not-a-number are not modelled.
- Decoding a struct from an element is a parameter over the element's tokens; XML namespaces, attributes and
  text are not modelled, and the tokens are those of a decoder that enforces the nesting of start-tags and
  end-tags (section 3.1 of XML 1.0).
- The errors `NewSystemClient` returns without credentials; `Load` has refused such systems.
- `Load`'s defaults, interpolation, secret files and URI checks; only the per-system loop is modelled.
- Warnings, drop counters, tracing, redaction, `checkEnvelopeStat` and `checkJSONEnvelope`: easy members.
- `CollectionLoop.Run`, the scheduling of cycles, and `main`'s handlers and shutdown.
- `Watcher.Start` runs at most once, and before any `Close`.
