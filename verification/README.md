# egressd in Dafny

A model of egressd, which watches the network traffic of Kubernetes pods, with proofs
about it. A *collector* on each node lists conntrack entries, turns readings of each
connection into increments, adds them up per source, destination and protocol, and hands
the totals to whoever scrapes it. An *exporter* fetches those totals from all collectors,
attaches pods, nodes, zones and DNS names, and pushes the result to sinks.

`dafny verify dfyconfig.toml` checks everything.

## How the model is laid out

| file | part of the program |
|---|---|
| `Basics`, `Counters`, `Net` | options and histories; counters, sums, machine words; addresses, keys, the wire form |
| `Ledger` | the collector's accounting as a state machine over values; a run is any sequence of events |
| `LedgerConservation`, `LedgerLifetimes`, `LedgerGrouping`, `LedgerOrder` | what holds of every run |
| `Conntrack` | entries and the netfilter client |
| `Collecting` | the collector's objects: maps of pointers, rewritten entries, `int64` totals |
| `Deliveries` | what the batches a collector wrote add up to |
| `NodePods`, `Agent`, `Symmetry` | running pods and tracked addresses; the whole collector process; both ends of a session |
| `FanIn`, `Export`, `Pipeline` | the exporter's workers and channel; enrichment and aggregation; the two together |
| `PodByIP` | the pod-by-address cache |
| `Dns`, `Labels`, `Clock` | names for addresses; label lists; kernel clock conversion |

Traffic is stated counter by counter: a statement with a parameter `c: Counter` holds of
sent and received bytes and packets alike.

## Main results

- **Ledger.** Under every interleaving of collects, cleanups and scrapes, credited traffic is
  delivered, pending or discarded, group by group (`LedgerBalances`), and it comes from the
  connections: last reading minus baseline, plus counter drops, plus what eviction forgot
  (`Telescoping`, `TrafficAccountedFor`).
- **Lifetimes.** In cumulative mode a group outlives its cached connections and its totals
  never go down meanwhile; in either mode a cleanup discards traffic only after every
  reading behind it has expired.
- **Grouping.** Grouping public destinations is exactly merging and summing the ungrouped run,
  and merged groups outlive their parts precisely while a scrape's caps are in order.
- **Symmetry.** Between two pods tracked at every successful collect, the two groups mirror each
  other, lifetimes included: what one has sent the other has received, and both are dropped
  together. That is always so in cumulative mode, and in delta mode precisely while scrapes cap
  both groups alike.
- **Refinement.** The objects, with in-place updates, a rewritten destination on cached
  entries and 64-bit wrap-around, stand for the value-level run of whatever happened to them.
- **Completeness.** In every history each session of a tracked pod in a successful dump is fed to
  the ledger, under the endpoint that answered, and only sources of such pods are.
- **Attribution.** Every exported metric carries the attributes of pods the index held at its
  addresses and of their one node, or the DNS name the batches gave.
- **Deliveries.** The words of the batches a history wrote add up, group by group and modulo 2^64,
  to what the ledger shipped, and exactly while credited sums stay below 2^63.
- **Fan-in.** Every interleaving of the exporter's parties stays within its limits, ends, and
  delivers each fetched batch exactly once. Group by group, what is exported together with what
  enrichment lost is the sum of what the delivering collectors held pending.
- **Pod cache.** Lookups drain finished pods in creation order and come to rest within as many
  calls as pods were finished. A record stays indexed exactly until a lookup or a cleanup
  removes a pod of its name, so a deleted live pod resolves throughout its grace period,
  whatever order the cleanup ranges in, unless a lookup queued a pod of its name.

## Properties that do not hold as one might expect

- A session from an endpoint to itself shares one cache entry with its mirror image. It keeps
  sent equal to received if and only if its reading and the counters held agree on both as far
  as they both reach (`SelfPairMetricsIff`, `SelfSessionBreaksSymmetry`).
- In delta mode a scrape reads the clock once per group. A merged group can therefore be dropped
  before one of its parts (`ClocksMatter`), unless its caps are in order, which is exactly what
  it takes (`ScrapeCoversIff`, `GroupedOutlivesParts`).
- For the same reason one end of a session can be dropped while the other stays: some cleanup
  does that if and only if the scrape did not cap the two groups alike (`OneEndDroppedIff`,
  `ScrapeMirrorsIff`, `BothEndsAgreeIff`).
- Sessions with missing fields are meant to be skipped, but the nil checks test the origin's
  source and the reply's destination while the code follows the origin's destination and the
  reply's source; `ListEntries` states exactly which dumps bring the process down.
- The pod cleanup's comment supposes its map is ordered by deletion time. It is not, and an
  expired pod may be left behind exactly when an unexpired one is queued too
  (`UnorderedSweepMayStop`); in order, nothing would be lost (`SortedSweepIsComplete`).
- A cleanup removes by name. It can take a record out of the index if and only if an expired pod
  is queued under that name (`SweepLosesIff`), whoever holds the name by then: a new pod reusing
  it (`ReuseLosesLivePod`), or the same pod, reported running again after a lookup queued it
  without a deletion timestamp (`RevivedPodLost`).
- A lookup reads and removes in two steps. A report that comes in between is lost
  (`StaleRemovalLosesPod`); exactly when a record is kept is `KeptIff`.
- Lookups settle on a live pod only if no other pod at the address was created at the same
  instant (`SettledIffFixed`). A test of the pod cache speaks of preferring the newest pod;
  the code returns the earliest, and so does the model.
- `nearest` is right except for 0 against a list of nothing but 65535 (`Nearest`).
- Jiffies differences of 2^55 and more wrap in the shift; the conversion is within a second of the
  exact quotient precisely below that (`JiffiesExactIff`, `JiffiesWrap`).
- A batch reports an expired but stored address with an empty name, which replaces the name another
  collector supplied; `RecordsEraseIff` says exactly when.
- A run of the exporter ends properly if and only if its fetch limit is positive or no pod has a
  URL (`EveryBatchExactlyOnce`). Loading the configuration turns zero into 20, so a zero limit
  needs an exporter constructed without loading (`ZeroLimitBlocks`). A negative one passes and
  makes the export panic as soon as there is a collector pod (`LoadedLimitDelivers`).

## Modelling decisions

- Hash keys are replaced by the tuples that are hashed; `KeyBytesInjective` shows that the
  hashed bytes determine them. Collisions of the 64-bit hash are not modelled.
- Time is an integer number of nanoseconds since the zero time, passed to each step. A failed
  `collect` is no event; a scrape is one outcome, written or not.
- Snapshots are separately allocated entries; they need not have distinct connection keys
  except where a statement says so.
- Where code ranges over a Go map, the model picks any remaining key at each turn, so the
  statements hold for every order.

## Model

| member | source | states |
|---|---|---|
| `Net.PrivateBlocks` | collector/collector.go:388-395 | private addresses are the three blocks of section 3 of RFC 1918, and grouping leaves alone exactly these and 127/8, 224/4 and 169.254/16 |
| `Net.WireRoundTrip` | dns/resolutions.go:102-105 | every IPv4 address survives the signed 32-bit form; the sign is the top bit and only 0.0.0.0 is zero |
| `Net.WireRoundTripBack` | exporter/exporter.go:296-300 | every `int32` is the form of the address it decodes to |
| `Net.KeyBytesInjective` | collector/collector.go:355-386 | the 13 bytes hashed for a connection and the 9 for a group determine it |
| `Counters.Wrap64` | collector/collector.go:264-267 | the `int64` reduction is the identity exactly on the `int64` range |
| `Counters.WrapAddWrapped` | collector/collector.go:264-267 | accumulating converted increments is the conversion of the exact sum |
| `LedgerConservation.CacheIsMemory` | collector/collector.go:231-239 | in every run the cache holds, per connection, its latest reading unless a later cleanup found it expired, whatever the mode and grouping |
| `LedgerConservation.StepBalance` | collector/collector.go:231-239 | at every event, credit plus previous reading is new reading plus drop plus eviction |
| `LedgerConservation.Telescoping` | collector/collector.go:224-285 | over every run, increments of a connection sum to last reading minus baseline plus drops plus evictions; nothing is credited in the silent first round |
| `LedgerConservation.SteadyConnection` | collector/collector.go:231-256 | without eviction and drops, exactly last reading minus baseline |
| `LedgerConservation.ObservePending` | collector/collector.go:262-284 | a reading moves its credit, and nothing else, into its group |
| `LedgerConservation.LedgerBalances` | collector/collector.go:135-319 | credited traffic equals delivered plus pending plus discarded, per group, for every interleaving in both modes |
| `LedgerConservation.GroupIsSumOfConnections` | collector/collector.go:262-284 | a group is credited the sum over its connections |
| `LedgerConservation.TrafficAccountedFor` | collector/collector.go:135-319 | delivered, pending and discarded traffic of a group expressed by the readings of its connections |
| `LedgerLifetimes.GroupsOutliveConnections` | collector/collector.go:262-284 | cumulative mode: the group of a cached connection is held and expires no earlier |
| `LedgerLifetimes.TotalsGrowWhileConnected` | collector/collector.go:295-319 | cumulative mode: totals never go down while a connection of the group stays cached |
| `LedgerLifetimes.PendingIsFed` | collector/collector.go:165-179 | a held total is the sum of the readings fed since it was last emptied or dropped |
| `LedgerLifetimes.GroupOutlivesFeeders` | collector/collector.go:165-179 | a group outlives every reading that fed it since, despite the two-minute cap |
| `LedgerLifetimes.CleanupDiscardsOnlyExpired` | collector/collector.go:304-316 | a dropped group loses exactly its feeders' traffic, all expired; in cumulative mode it is dropped if and only if all have expired |
| `LedgerLifetimes.IdleGroupExpires` | collector/collector.go:173-177 | a group not fed after a written delta scrape is dropped, at no loss, by any cleanup after its old lifetime or two minutes after its reset, whichever is first |
| `LedgerLifetimes.IdleGroupStaysCapped` | collector/collector.go:165-179 | until then its total is zero and no event extends its lifetime |
| `LedgerGrouping.SameCache` | collector/collector.go:225-239 | grouping never changes what is remembered of connections |
| `LedgerGrouping.GroupingIsCoarsening` | collector/collector.go:258-284 | without cleanups the grouped run holds exactly the merged groups with the sums of their parts |
| `LedgerGrouping.CoversIffCleanupsSafe` | collector/collector.go:304-316 | merged groups outlive their parts exactly when every cleanup keeps the merged group of each part it keeps |
| `LedgerGrouping.ScrapeCoversIff` | collector/collector.go:167-178 | a written delta scrape keeps that if and only if no held part is capped later than its merged group as far as the cap reaches it |
| `LedgerGrouping.GroupedOutlivesParts` | collector/collector.go:295-319 | merged groups outlive their parts all along a run if and only if its written delta scrapes are in that order; always in cumulative mode |
| `LedgerGrouping.GroupedCoversParts` | collector/collector.go:295-319 | with cleanups a grouped total is at least the sum of its surviving parts, always in cumulative mode and in delta mode while the caps are in order |
| `LedgerGrouping.ClocksMatter` | collector/collector.go:173-177 | in delta mode differing clock readings can make the grouped run lose what a part still holds |
| `LedgerOrder.CollectIgnoresOrder` | collector/collector.go:224-289 | for distinct connections every ordering of a snapshot gives the same state |
| `LedgerOrder.RecollectAddsNothing` | collector/collector.go:231-239 | collecting the same snapshot again adds zero to every total |
| `Conntrack.WholeSessionListed` | conntrack/nf_conntrack.go:82-116 | a session with every field read is listed from its source to the endpoint that answered, whatever address it was sent to, and back with counters exchanged, each exactly when its source is tracked, expiring timeout seconds from now |
| `Conntrack.WhatIsListed` | conntrack/nf_conntrack.go:70-94 | only sessions with every field read are listed; the process goes down exactly for those with all checked fields and some other missing |
| `Conntrack.Translate` | conntrack/nf_conntrack.go:82-116 | a session becomes its remapped entry and the mirror image, each kept if its source is tracked, freshly allocated |
| `Conntrack.ListEntries` | conntrack/nf_conntrack.go:57-123 | lists exactly the accepted sessions in order, fails with the dump, and crashes exactly when an accepted session lacks an unchecked field |
| `Collecting.ClampedDifference` | collector/collector.go:234-237 | the wrapped difference is never the one chosen when it wrapped |
| `Collecting.ReportsExactly` | collector/collector.go:264-267 | reported words are the exact totals precisely while these are below 2^63 |
| `Collecting.ReportsSum` | collector/collector.go:264-267 | word-by-word addition keeps reporting the exact sum |
| `Collecting.RawMetric.Add` | collector/collector.go:264-270 | in-place addition and lifetime extension of a metric |
| `Collecting.RawMetric.Reset` | collector/collector.go:168-177 | zeroes the counters and caps the lifetime at two minutes from now |
| `Collecting.Collector.Delta` | collector/collector.go:226-238 | the clamped growth over the cached entry, in `uint64` arithmetic |
| `Collecting.Collector.Credit` | collector/collector.go:262-284 | updates the group's object or creates it, leaving all others alone |
| `Collecting.Collector.Observe` | collector/collector.go:225-284 | one loop iteration on objects refines one ledger step, with the key taken before the destination is rewritten |
| `Collecting.Collector.Collect` | collector/collector.go:224-289 | a whole collect refines the ledger's events for the entries as they were listed |
| `Collecting.Collector.Cleanup` | collector/collector.go:295-319 | both maps expire as the ledger says, for every range order |
| `Collecting.Collector.ResetAll` | collector/collector.go:167-178 | resets every metric, reading the clock for each, for every range order |
| `Collecting.Collector.Scrape` | collector/collector.go:135-180 | a successful write ships every group's values from before the reset; a failed one changes nothing |
| `Agent.KnownWasReported` | kube/watcher.go:65-88 | a pod the watcher holds is the latest of its UID reported Running with an address, and was not deleted since |
| `Agent.ReportedIsKnown` | kube/watcher.go:65-88 | conversely the latest report of a pod Running with an address is held until the pod is deleted |
| `NodePods.RunningPodsCache.Get` | kube/watcher.go:59-63 | a fresh slice of exactly the kept pods |
| `NodePods.SelectedPods` | collector/collector.go:327-340 | selected are exactly the listed pods with an address, not on the host network and not in an excluded namespace |
| `NodePods.FilterInPlace` | collector/collector.go:321-342 | the prefix left in the shared array is the order-preserving filter of the original contents: exactly the pods with an address, off the host network, outside excluded namespaces |
| `NodePods.PodIPs` | collector/collector.go:344-350 | exactly the addresses of the listed pods |
| `NodePods.NodeIPs` | collector/collector.go:211-215 | exactly the addresses of the known pods off the host network and outside excluded namespaces |
| `Agent.CollectOnce` | collector/collector.go:209-293 | pods, listing and accounting together refine the ledger; an error leaves the collector alone |
| `Agent.Handle` | collector/collector.go:117-133 | each happening of the process has exactly its ledger effect on the objects |
| `Agent.Play` | collector/collector.go:117-180 | after any history that survives, the objects stand for its run and the batches written are those of the run |
| `Agent.NoWrap` | collector/collector.go:262-284 | after any history, while a group's credited sum stays below 2^63 the words the collector's object holds for it are exactly what is pending |
| `Deliveries.BatchReports` | collector/collector.go:135-163 | a written batch reports, for every group, its pending total reduced to one word |
| `Deliveries.ReportedIsShipped` | collector/collector.go:135-180 | over every run the words of the written batches differ from what was shipped by a multiple of 2^64 |
| `Deliveries.ReportedExactly` | collector/collector.go:135-180 | while the credited sum stays below 2^63 they are exactly what was shipped |
| `Deliveries.BatchesAccountForTraffic` | collector/collector.go:135-319 | in delta mode credited traffic is what the written batches report plus what is pending plus what cleanups discarded |
| `Agent.GroupSourceObserved` | collector/collector.go:272-283 | every group's source is the source of an observed entry |
| `Agent.TrackedSourcesOnly` | collector/collector.go:211-215 | every group's source belonged at some collect to a pod whose current report had it Running with that address, not on the host network, not excluded |
| `Agent.SourceSessionsObserved` | collector/collector.go:209-239 | in every history a whole session of a successful dump is fed to the ledger, from its source to the endpoint that answered, if a current tracked pod has the source's address |
| `Agent.AnsweredSessionsObserved` | collector/collector.go:209-239 | and the other way, counters exchanged, if a current tracked pod has the answering address |
| `Agent.CleanedKeeps` | collector/collector.go:295-319 | in every history a cleanup keeps exactly the connections and groups that have not expired |
| `Agent.ScrapedResets` | collector/collector.go:135-180 | a scrape that gets its batch out in delta mode empties every group and caps it at two minutes; any other changes nothing |
| `Symmetry.GroupBetween` | collector/collector.go:258-262 | only connections between two ungrouped addresses feed their group |
| `Symmetry.PairMetrics` | conntrack/nf_conntrack.go:103-116 | an entry and its mirror keep the two directions' metrics mirror images |
| `Symmetry.SelfPairEvenIff` | conntrack/nf_conntrack.go:103-116 | counter by counter, a self session keeps sent equal to received if and only if its reading and the held counters agree as far as both reach |
| `Symmetry.SelfPairMetricsIff` | conntrack/nf_conntrack.go:103-116 | a self session keeps a pod's metrics toward itself mirrored if and only if it is silent or even |
| `Symmetry.ScrapeMirrorsIff` | collector/collector.go:167-178 | a written delta scrape keeps the two directions mirrored if and only if it caps both alike |
| `Symmetry.OneEndDroppedIff` | collector/collector.go:304-316 | some cleanup after the scrape drops exactly one end if and only if it does not |
| `Symmetry.BothEndsAgree` | conntrack/nf_conntrack.go:82-116 | after any history with fair self sessions and scrapes that cap alike, two tracked pods' groups exist and expire together and one's sent is the other's received |
| `Symmetry.BothEndsAgreeIff` | collector/collector.go:117-180 | for two different pods tracked at every successful collect, the two directions' metrics, lifetimes included, mirror each other all along if and only if delta scrapes cap them alike; always in cumulative mode |
| `Symmetry.SelfSessionTwiceIff` | conntrack/nf_conntrack.go:103-116 | two collects of a self session report as much sent as received if and only if the second is even with the mirror of the first |
| `Symmetry.SelfSessionBreaksSymmetry` | conntrack/nf_conntrack.go:103-116 | 1 byte sent and 5 received, then 6 and 7, leave sent and received different |
| `FanIn.StepInv` | exporter/exporter.go:106-156 | every step keeps the protocol's invariant and nothing is sent on a closed channel |
| `FanIn.RunInv` | exporter/exporter.go:106-156 | in every reachable state workers and buffered batches are within the limit and each sent batch is queued or received exactly once |
| `FanIn.RunsAreShort` | exporter/exporter.go:112-156 | no interleaving takes more than five steps per pod plus two |
| `FanIn.Progress` | exporter/exporter.go:112-156 | some step is possible until the consumer has stopped |
| `FanIn.EveryBatchExactlyOnce` | exporter/exporter.go:127-156 | a run that cannot go on has ended if and only if the limit is positive or no pod has a URL, and then delivered each fetched non-empty batch exactly once and nothing else |
| `FanIn.ZeroLimitBlocks` | exporter/exporter.go:106-110 | with a limit of zero one pod with a URL keeps the channel open forever |
| `FanIn.LoadedLimitDelivers` | exporter/config/config.go:81-83 | under a loaded configuration an export panics exactly for a negative limit and some pod, and otherwise delivers everything |
| `PodByIP.PodByIPCache.FindEarliest` | kube/podbyipcache.go:82-92 | a pod of minimal creation time, for every item order |
| `PodByIP.GetResolves` | kube/podbyipcache.go:73-108 | a lookup answers an oldest indexed pod with the address asked for, nothing only if there is none; a pending or running one stays, any other leaves the index under namespace and name and is queued under its UID |
| `PodByIP.PodByIPCache.Get` | kube/podbyipcache.go:73-108 | answers an earliest pod at the address; a finished one leaves the index and is queued for deletion |
| `PodByIP.QueuedBy` | kube/podbyipcache.go:94-119 | in every history a queued pod was put there by a deletion or a lookup |
| `PodByIP.QueuedIff` | kube/podbyipcache.go:94-155 | in every history a pod is queued exactly from its deletion, or the lookup that took it out, until a cleanup removes it |
| `PodByIP.IndexedWasUpserted` | kube/podbyipcache.go:121-131 | in every history an indexed pod is under its own name and was reported |
| `PodByIP.GetIsDrainEvent` | kube/podbyipcache.go:94-105 | a lookup on the table a history leads to changes nothing or is one more legal removal |
| `PodByIP.SweepSparesRecent` | kube/podbyipcache.go:144-156 | a cleanup removes no pod within two minutes of its deletion timestamp and leaves something behind only if it met such a pod |
| `PodByIP.PodByIPCache.CleanupExpired` | kube/podbyipcache.go:139-157 | removes an allowed set of queued pods, none within two minutes of its deletion timestamp, and from the index whatever holds their names |
| `PodByIP.GetTakesOnlyFinished` | kube/podbyipcache.go:94-105 | a lookup removes at most the pod it answers, never a pending or running one |
| `PodByIP.DrainingLookups` | kube/podbyipcache.go:73-108 | repeated lookups answer in nondecreasing creation order and remove at most the finished pods at the address |
| `PodByIP.DrainsSettle` | kube/podbyipcache.go:73-108 | without ties, lookups reach a fixed point within as many calls as pods were finished at the address, and stay there |
| `PodByIP.SettledIffFixed` | kube/podbyipcache.go:82-105 | lookups are at a fixed point exactly on a live pod strictly earlier than all others there |
| `PodByIP.SweepLosesIff` | kube/podbyipcache.go:144-156 | a cleanup can take a name out of the index if and only if a pod is queued under it without a deletion timestamp or more than two minutes after it |
| `PodByIP.KeptIff` | kube/podbyipcache.go:94-163 | in every history the latest record of a name is indexed exactly until a lookup or a cleanup removes a pod of that name |
| `PodByIP.GracePeriod` | kube/podbyipcache.go:110-163 | in every history a name whose latest record is live keeps it while no cleanup finds an expired pod queued under the name |
| `PodByIP.GraceIsQuiet` | kube/podbyipcache.go:139-157 | cleanups within the grace period of the pods deleted under a name find none, unless a lookup queued a pod under it |
| `PodByIP.StaysResolvable` | kube/podbyipcache.go:73-163 | while no cleanup finds an expired pod queued under its name, every lookup of a pod last reported live finds a pod created no later and leaves its record, deleted or not, name reused or not |
| `PodByIP.DeletedPodStaysResolvable` | kube/podbyipcache.go:110-163 | in particular a deleted pod does, no lookup having queued a pod of its name, while every cleanup comes within two minutes of the deletion timestamps under the name |
| `PodByIP.QueuedNamesakeLosesPod` | kube/podbyipcache.go:144-156 | after any history that leaves an expired pod queued under a name, a newly reported pod of that name is lost to the next cleanup in some order |
| `PodByIP.ReuseLosesLivePod` | kube/podbyipcache.go:144-156 | with a reused name the cleanup removes a live pod that was never deleted |
| `PodByIP.RevivedPodLost` | kube/podbyipcache.go:94-156 | a pod queued by a lookup without a deletion timestamp and reported running again is removed, though nothing was deleted |
| `PodByIP.StaleRemovalLosesPod` | kube/podbyipcache.go:94-105 | a report between a lookup's read and its removal is lost |
| `PodByIP.EveryOrderAllowed` | kube/podbyipcache.go:144-156 | in every range order only expired pods go, and all pods unless one has not expired |
| `PodByIP.AllowedIsSomeOrder` | kube/podbyipcache.go:144-156 | every such removal is what some range order gives |
| `PodByIP.SortedSweepIsComplete` | kube/podbyipcache.go:145-150 | in order of deletion exactly the expired pods would go |
| `PodByIP.UnorderedSweepMayStop` | kube/podbyipcache.go:144-150 | some order leaves an expired pod behind if and only if an unexpired one is queued with it |
| `Dns.IP2DNS.Process` | dns/resolutions.go:73-88 | the answers of an event update the two caches in turn |
| `Dns.IP2DNS.Records` | dns/resolutions.go:93-100 | reports each stored address once, with an empty name once it has expired |
| `Dns.AttributionIsHistory` | dns/resolutions.go:73-88 | the name held for an address is its latest fresh A answer renamed once through the latest fresh preceding CNAME |
| `Dns.DnsStorage.Fill` | exporter/ip2dns.go:27-31 | stores the mappings in turn for an hour |
| `Dns.FilledGivesLast` | exporter/ip2dns.go:27-42 | a listed address resolves to its last mapping for an hour and to nothing after that, an unlisted one as before |
| `Dns.NamesReachTheExporter` | dns/resolutions.go:93-100 | a batch of records makes the exporter resolve an address to the name the answers attribute to it |
| `Dns.RecordsEraseIff` | dns/resolutions.go:93-100 | a batch replaces a held name by the empty one exactly for addresses stored with an expired or empty name |
| `Export.EnrichedAttributes` | exporter/exporter.go:199-263 | every successful enrichment carries the source pod's name, namespace, node and the zone of its one node; for a private destination those of the pod found and its one node, or of the one node at the address; otherwise a DNS name at most |
| `Export.Exporter.Build` | exporter/exporter.go:199-263 | the enrichment of possible source and destination lookups, in that order |
| `Export.EnrichedFails` | exporter/exporter.go:199-263 | enrichment fails exactly for an unknown source pod or when several nodes share the name or address asked for |
| `Export.EnrichedKeeps` | exporter/exporter.go:206-217 | enrichment keeps counters, protocol and addresses |
| `Export.Exporter.Aggregate` | exporter/exporter.go:154-173 | every item is tried once in arrival order with its own batch's names filled in, and each success is one output in that order |
| `Export.OwnBatchNames` | exporter/exporter.go:156-172 | a public destination listed in its own batch gets that batch's last name, in every arrival order |
| `Export.MappingsAreHistory` | exporter/ip2dns.go:27-42 | the name held for an address is the last mapping of the latest batch that lists it, for an hour, or what was held before |
| `Export.ExportedAttributes` | exporter/exporter.go:154-263 | end to end for every exported metric: attributes of pods the index held at its addresses, of their one node, or the name the batches gave |
| `Export.ExportConserves` | exporter/exporter.go:154-173 | exported counters are those of exactly the items whose enrichment succeeded |
| `Pipeline.EveryItemTriedOnce` | exporter/exporter.go:127-173 | the items enriched are exactly those of the fetched batches, whatever the interleaving, each pod's in its own order as one batch |
| `Pipeline.ArrivalsInOrder` | exporter/exporter.go:154-157 | batches are taken one after the other in the order received |
| `Pipeline.ExportIsComplete` | exporter/exporter.go:106-173 | for every ended run, the items tried are those of every fetched batch and the exported counters those of the items enriched |
| `Pipeline.GroupConserved` | exporter/exporter.go:154-263 | group by group, what the tried items report is exported or lost to a failed enrichment |
| `Pipeline.ExportedIsPending` | exporter/exporter.go:106-173 | for every ended run over batches the collectors wrote, what is exported and lost of a group is the sum of the words they held pending, and of the exact totals below 2^63 |
| `Labels.SortStable` | exporter/sinks/prom.go:100-102 | sorts by name without reordering equal names |
| `Labels.StableSortUnique` | exporter/sinks/prom.go:100-102 | a list has at most one stable sort |
| `Labels.BuildLabels` | exporter/sinks/prom.go:76-103 | emits the name-sorted labels, the fixed one first under each name, for every range order |
| `Labels.LabelsDeterministic` | exporter/sinks/prom.go:94-103 | all range orders and all stable sorts emit the same permutation of fixed and custom labels |
| `Labels.EmittedIsSorted` | exporter/sinks/prom.go:76-103 | the list is sorted with and without custom labels |
| `Clock.Nearest` | conntrack/kernel_hz.go:111-134 | the earliest closest value, except exactly for 0 against nothing but 65535 |
| `Clock.Hertz` | conntrack/time.go:13-21 | the divisor is a closest one of 1000, 300, 250 and 100, or 1 without an estimate |
| `Clock.ShiftExact` | conntrack/time.go:51-52 | the shift by eight is exact precisely below 2^55 in magnitude |
| `Clock.JiffiesConversion` | conntrack/time.go:50-55 | below that the conversion is monotone, sign-preserving and within one second of the exact quotient |
| `Clock.JiffiesExactIff` | conntrack/time.go:50-55 | the conversion is within one second of the exact quotient if and only if the difference is below 2^55 in magnitude |
| `Clock.JiffiesWrap` | conntrack/time.go:50-55 | a time from 2^55 up to 2^56 ahead never converts to one ahead |

## Left out

- HTTP serving, gzip, protobuf and remote write: a fetch or write is only an outcome.
- The Cilium conntrack client and the eBPF tracer: foreign map iteration and kernel code.
- `interpolate` and reading `/proc/schedstat`: floating point; the estimate is a parameter of `Clock.Hertz`.
- The ktime clock source: one subtraction of seconds.
- IPv6 addresses and malformed pod addresses: every modelled path uses four-byte addresses.
- Cancellation of an export: with a cancelled context the dispatcher returns without closing the channel.
- The sweeper of the DNS caches: an expired entry is not found, and stays stored.
- Processing time within a batch: the exporter fills in and looks up names at one instant per batch.
- Node informer updates during an export: the node indexes are fixed for one `Aggregate`.
- `Export.Exporter.Build`: a lookup is one step here; `PodByIP.KeptIff` and `PodByIP.StaleRemovalLosesPod` cover informer events between its read and its removal.
- Log lines, gauges, configuration loading beyond the fetch limit, `isCrossZoneValue` and `protoString`: no state, or only easy members.
