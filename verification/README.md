# matter2mqtt: a verified model

matter2mqtt joins a Matter fabric, reached over the websocket of matter-server, to an MQTT broker,
and ships Node-RED nodes that find devices by name over that broker. Its value is that several
indexes stay in agreement: the cache of the fabric, the names derived from device labels, the record
of published topics, the broker's retained store, and, on the Node-RED side, the device registry,
the subscriptions, and the requests still waiting for a reply. This project models those indexes and
proves that they agree, over every event, every interleaving and every run.

| file | module | what it holds |
|---|---|---|
| Text.dfy | Text | numerals, topic levels, trimming, case folding |
| Fabric.dfy | Fabric | nodes, attributes, abstract JSON |
| Naming.dfy | Naming | labels, suffixes, uniqueness, lookup, how far a rename reaches |
| Namer.dfy | NameIndex | the name index object |
| DataModel.dfy | DataModel | cluster and attribute names, loading and both directions |
| Topics.dfy | Topics | the topic tree, the command filters, the Node-RED parser and filters |
| Retained.dfy, Agreement.dfy | Retained, Agreement | the bridge's steps as relations over cache, names, records and retained store, and what one refresh keeps |
| Runs.dfy | Runs | one event: records, agreement, removal, how many names it changes |
| Sessions.dfy | Sessions | every session and every run |
| Exactness.dfy | Exactness | when the tree holds nothing but what the cache describes, and when its names are right |
| Mirror.dfy | Mirror | what the tree shows, topic by topic, and the named mirror, from the model file |
| Grammar.dfy | Grammar | what the bridge publishes stays within the topic grammar, over every run |
| Bridge.dfy | BridgeObject | the bridge object, method by method, refining those relations |
| Commands.dfy | Commands | writing back through the topic tree |
| Registry.dfy | Discovery | the Node-RED device registry |
| Flow.dfy | Flow | the shared broker node and the input nodes bound through it |
| Session.dfy | MatterSession | one websocket session as interleaved steps, and the client object |
| Correlation.dfy | Correlation | request mode of an output node |
| EndToEnd.dfy | EndToEnd | request and reply across all the parts above |
| Reaching.dfy | Reaching | reaching one world from another, and how a request gets its answer |
| Progress.dfy | Progress | every ending of a request is within reach |
| Redeployment.dfy | Redeployment | when an output node may be deployed again |
| Scaling.dfy | Scaling | engineering units in exact arithmetic |

The bridge's retained store is a map from topic to payload in which a retained publish with an empty
payload deletes the entry (section 3.3.1.3 of MQTT 3.1.1); it covers the per-node topics. A topic is
a datatype, and `Grammar.RunStoreFaithful` shows that nothing is lost by that: in every run two
recorded or retained topics with the same string are the same topic. Loops that visit a Go
map in no fixed order are loops that pick elements arbitrarily, so each claim holds for every order.
Each step of the bridge is a relation between two states; `BridgeObject.Bridge`, whose methods demand
nothing of an event or a node list, is the implementation that refines those relations, so every event
and every list has an outcome.

## What holds, and exactly when

- **Records.** `Sessions.RunKeeps`: after every step of every run the names are those of the cached
  fabric and each retained topic is recorded, the availability topics of nodes adrift excepted (see
  stray reports). It holds whatever the labels are, clashes included, whatever nodes the reports name,
  and whatever was renamed or removed while disconnected. It asks only that node lists have no
  duplicates, which would give a lone node a suffix (`NameIndex.DuplicateSuffixes`).
- **Retained tree and cache.** `Sessions.RunSafe`: while names are unique and no record holds an alias
  that another node carries, each cached node's availability, name, attributes and aliases are retained
  with the cached values, after every step of every run, up or down. Both conditions matter. Two nodes
  with one name cannot both agree (`Exactness.ClashDisagrees`), and clearing a node leaves the others in
  agreement if and only if its record holds nothing of theirs (`Sessions.ClearedAgreesIff`). A node
  whose topics a requested removal has cleared is outside the claim until it is reported again.
- **Nothing else.** An event leaves nothing stale behind if and only if it is tidy
  (`Exactness.NothingStaleIffTidy`): a retained report names a cached node, a node report lists every
  mirrored attribute of the node it replaces, and a removed node has its availability topic on record.
  A session starts with nothing stale if and only if its node list publishes every topic retained
  before it (`Exactness.StartStaleIff`). In such a session the tree is *exactly* what the cache
  describes (`Exactness.SessionExact`).
- **Names.** Names are unique up to case if and only if no bare label folds to another node's
  suffixed name (`Naming.UniqueIffNoClash`). "Sensor" on nodes 4 and 9 with "Sensor-4" on node 7
  gives nodes 4 and 7 one name (`Naming.ClashExample`), although naming.go:73-76 sets out to keep
  devices off each other's topics.
- **Renames while disconnected.** README.md:328-332 says that retained state heals itself on
  reconnect. The code discards what `Recompute` reports (bridge.go:277), so records lie under
  current names after a reconnect if and only if every node with recorded aliases kept its name
  (`Sessions.StartTracksIffKept`). If that holds at every reconnect, records lie under current names
  throughout (`Sessions.RunAliased`) and hold nothing of anybody else's (`Sessions.KeptSeparated`).
  Otherwise an old alias stays on the broker (`Sessions.OfflineRenameLeavesAlias`), and if another node
  takes the name, its aliases will be cleared with the old owner's (`Sessions.HandoverEntangles`).
- **Stray reports.** Going offline publishes an availability topic for every node with a record, and
  sets adrift exactly those whose record does not hold that topic (`Sessions.OfflineTracking`). A
  report about an attribute creates such a record if and only if the node had none, the report is
  retained, and it does not rename a cached node (`Sessions.StrayReport`). The topic then outlives even
  the node's removal (`Sessions.StrayAvailabilityStays`). If reports only concern nodes with a record,
  nothing is ever adrift (`Sessions.NothingAdrift`). One way into it is bridge.go:655-665, which clears
  a node's topics whether or not the requested removal succeeded.
- **Dropped attributes.** A node report that no longer lists an attribute leaves its topic retained
  (`Exactness.DroppedAttributeLingers`); when that matters is the condition above.
- **The named mirror.** With name publishing off no run ever records or retains an alias
  (`Mirror.RunUnmirrored`). With it on, an alias is retained in a tidy session if and only if some cached
  node carries the name and has an attribute whose cluster and attribute the model file names so
  (`Mirror.SessionMirror`).
- **Discovery.** In every reachable state, up or down, after dropped attributes and through removals,
  a registry filled from the broker resolves every name that is not a numeral to the node the bridge
  resolves it to (`Discovery.RunLookupAgrees`), given unique names, separate records, and node lists that
  cover every node whose name topic is retained; a new session has right name topics if and only if they do
  (`Exactness.StartRightsNamesIff`).
- **Numeric names.** Writing to an alias reaches the node it belongs to if and only if the name is
  not the number of another node (`Commands.AliasWriteRoundTrip`). A numeral is always a node id to
  the bridge, and one only if it is known to the registry; they agree on one if and only if it is the
  id of a known node without leading zeros, or the name of the very node with that id
  (`Discovery.NumeralAgrees`).
- **Labels edged with U+FEFF.** A listed node is found under its own name from Node-RED if and only if
  the name has no JavaScript white space at its ends (`Discovery.OwnNameFound`). JavaScript's trim
  removes U+FEFF and Go's does not, so such a name can be published and not looked up
  (`Discovery.MarkedName`).
- **Unsubscribing twice.** Running an unsubscribe function a second time changes nobody's handlers if
  and only if its node has none or the set it remembers still has one (`Flow.SecondRunIff`); otherwise
  it silences a newcomer (`Flow.SecondRunSilences`). The input node's `refresh` never runs one twice.
- **Replies that come early.** A call returns the first reply with its id that was read since it began,
  be it a result or a rejection (`MatterSession.FirstHeld`, `MatterSession.FirstReturned`). A reply with
  its number that was read before it began reaches nobody (`MatterSession.EarlyReplyLost`).
- **Unsubscribing while disconnected.** A connection starts without spare subscriptions if and only if
  the MQTT client restores none by itself that nobody wants (`Flow.ConnectSpareIff`). What was unbound
  while disconnected is such a one, because the client is not told (matter2mqtt-broker.js:154-156).
- **Redeploying a node.** An output node deployed again under its old id restarts its numbering.
  Misdelivery is possible afterwards if and only if a published request carries one of its ids
  (`Redeployment.RedeployIff`). Correlation is proved for deployments, first or later, while none does.
- **An attribute called `command`.** A publication of the bridge is taken for a command if and only if
  its last level is `command` (`Topics.OwnTopicIsCommand`); if no attribute is called that, no topic
  of any run is (`Grammar.RunHearsNoEcho`).
- **Rounding.** Writing back a scaled reading gives the raw value at every raw value if and only if
  ten to the precision is at least the factor, or the precision is negative
  (`Scaling.UnscaleUndoesScale`).

## Model

| member | source | states |
|---|---|---|
| Naming.SpecialCharacters | naming.go:152-162 | which characters are separators or wildcards, which are dropped, and which are space |
| Naming.SanitiseCharacters | naming.go:149-167 | character by character: of the characters carried over the first there is room for, a dash for `/`, `+` and `#`, every other as it is |
| Naming.SegmentCharacters | naming.go:149-167 | a label becomes a name by trimming, carrying over at most 128 characters in that way, and trimming again |
| Naming.NameFromLabel | naming.go:126-136 | attribute 0/40/5 decides the name if it holds a string; without a string there is none |
| Naming.SanitiseSafe | naming.go:149-167 | the rewriting loop yields only what one topic level can carry, never more than the bound, and leaves an already safe text alone |
| Naming.SegmentSafe | naming.go:149-167 | a sanitised label has no separator, wildcard or control character, at most 128 characters and no space at its ends; sanitising is idempotent and keeps safe labels verbatim |
| Naming.SameFoldCrowded | naming.go:60-68 | two devices whose labels fold together are both counted as colliding |
| Naming.CrowdedIff | naming.go:60-79 | a node is suffixed if and only if another node has a label that folds to the same name |
| Naming.CoincidenceNeedsOneSuffix | naming.go:72-82 | two folded names coincide only when exactly one of the two carries a suffix |
| Naming.UniqueIffNoClash | naming.go:70-82 | names are unique up to case if and only if no bare label folds to another node's suffixed name |
| Naming.ClashExample | naming.go:72-82 | "Sensor" on 4 and 9 and "Sensor-4" on 7: nodes 4 and 7 get the same name, whatever the case folding |
| Naming.LookupSound | naming.go:45-50 | a hit always names a node whose name matches up to case, a miss means there is none; without clashes any case variant of a name finds its node |
| Naming.LastCompanion | naming.go:72-79 | a peer that loses its suffix shared its folded label with the changed node and nobody else |
| Naming.BoundedRename | naming.go:72-95 | changing one node renames at most it, one peer that loses a suffix and one that gains one |
| NameIndex.NamesIgnoreOrder | naming.go:59-82 | names computed from a node list depend only on the nodes in it, not on their order |
| NameIndex.ListCountIsGroup | naming.go:60-68 | the per-name counter is the size of the group of nodes whose labels fold to that name |
| NameIndex.ListNamesNonEmpty | naming.go:62-65 | no name is empty, so comparing with a missing entry is comparing with no name |
| NameIndex.SortIds | naming.go:96 | the ids come back strictly ascending, each once and no other |
| NameIndex.Namer.constructor | naming.go:28-33 | a new index knows no name |
| NameIndex.Namer.Name | naming.go:37-42 | the current name of a node, if it has one; a name is never empty and can always be looked up |
| NameIndex.Namer.Lookup | naming.go:45-50 | a hit is a named node whose name matches up to case; a miss means no name does |
| NameIndex.Namer.Recompute | naming.go:55-101 | names become those of the list whatever they were before, the reverse index matches them, and exactly the ids whose name was gained, lost or altered are reported in ascending order |
| NameIndex.Namer.Tally | naming.go:59-68 | base names and counts of the whole list, nodes without a usable label left out |
| NameIndex.Namer.Disambiguate | naming.go:70-82 | every member of a colliding group gets its suffix, in any visiting order, and the reverse index covers all |
| NameIndex.Namer.Moved | naming.go:84-96 | exactly the ids whose name differs between the old and the new names |
| NameIndex.Namer.Collisions | naming.go:106-122 | for any node list, exactly the folded names listed more than once, each with its ids in ascending order, duplicates kept |
| NameIndex.MembersAreGroup | naming.go:106-122 | on a list without duplicates those ids are exactly the suffixed nodes |
| NameIndex.DuplicateSuffixes | naming.go:60-79 | a node listed twice is suffixed though it is alone under its label |
| DataModel.LoadModel | model.go:48-100 | every entry with a numeral key is indexed by id and by folded name, nothing else is, and global attributes win over a cluster's own |
| DataModel.ReverseAttributes | model.go:80-91 | one cluster's reverse index, whatever order its attributes and the globals are visited in |
| DataModel.ClusterMeans | model.go:132-138 | a cluster resolves to its number or to an entry so named up to case, and is unknown exactly when there is none |
| DataModel.AttributeMeans | model.go:141-151 | an attribute resolves to its number, a global attribute or an entry of its cluster, and is unknown exactly when there is none |
| DataModel.GlobalNames | model.go:17-24 | the global attributes and their names |
| DataModel.NamePathIff | model.go:156-175 | a path has an alias if and only if the model file names its cluster and its attribute, a global attribute keeping its own name |
| DataModel.ClusterNameResolves | model.go:132-138 | the printed name of a known cluster resolves to its id |
| DataModel.AttributeNameResolves | model.go:141-151 | the printed name of an attribute, global or not, resolves to its id within its cluster |
| DataModel.AliasReadsBack | model.go:132-175 | the three levels of an alias resolve to the endpoint, cluster and attribute it was printed from |
| DataModel.AliasInjective | model.go:156-175 | two canonical attribute paths never share an alias |
| DataModel.OnOffLoads | model.go:48-100 | the conditions on a model can be met: one cluster with one attribute is well formed and loads |
| Topics.RenderedLevels | bridge.go:761-764 | stripping the prefix and splitting a published topic gives its levels, whatever the prefix holds |
| Topics.RenderInjective | bridge.go:380-445 | distinct topics have distinct strings |
| Topics.Spelled | bridge.go:368-440 | one topic of each kind, spelled out |
| Topics.NamedPrefix | bridge.go:801-818 | the string prefix test selects exactly the aliases, whatever the configured prefix |
| Topics.OwnTopicIsCommand | bridge.go:513-520 | a published topic matches a command filter (section 4.7.1 of MQTT 3.1.1) if and only if its last attribute level is `command` |
| Topics.CommandsAre | bridge.go:513-520 | what the bridge hears as a command, level by level |
| Topics.FiltersSelect | nodered/lib/topics.js:24-32 | each of the reader's filters selects exactly one kind of topic, and a node's attribute filter only that node's attributes |
| Topics.ParseRecoversAttribute | nodered/lib/topics.js:61-95 | an attribute topic gives back its node and path; a path that is not numeric is rejected |
| Topics.ParseRecovers | nodered/lib/topics.js:61-95 | metadata, status and response topics are recovered exactly; occurrences and aliases are rejected |
| Topics.ParsedOnly | nodered/lib/topics.js:46-95 | nothing but a topic under the prefix with the levels of its kind is recognised |
| Topics.CleanSound | nodered/lib/topics.js:17-19 | cleaning takes all leading and trailing slashes off a prefix and nothing else |
| Topics.CommandsAreForeign | nodered/lib/topics.js:61-95 | nothing the bridge hears as a command, in either tree or as a request, is ever read as state |
| Fabric.NonNil | bridge.go:833-838 | a published value is never empty, so publishing one never deletes |
| Retained.PublishedTracking | bridge.go:380-424 | publishing a node keeps every retained topic recorded and every record with its owner, and puts its availability topic on record |
| Retained.ListedPublished | bridge.go:726-733 | publishing a list leaves each listed node fully published, its neighbours notwithstanding |
| Retained.OthersUntouched | bridge.go:726-733 | and leaves every topic of an unlisted node as it was |
| Retained.ClearAllEffect | bridge.go:719-721 | clearing a list of nodes removes exactly the aliases recorded for them, from the records and from the store |
| Agreement.RefreshTracking | bridge.go:706-734 | a refresh keeps every retained topic recorded, and every record under its owner's current name if it was |
| Agreement.RefreshKeeps | bridge.go:706-734 | a node that keeps its name keeps every topic no other record holds, however many others are renamed at once |
| Agreement.NoStaleAlias | bridge.go:719-721 | clearing before republishing leaves nothing under a name a renamed node is about to take |
| Agreement.RefreshPublishes | bridge.go:722-733 | a renamed node that is still cached is published in full under its new name and no old alias of it survives |
| Agreement.RefreshAgrees | bridge.go:706-734 | agreement with the cache survives simultaneous renames |
| Agreement.RefreshLeaves | bridge.go:722-733 | the numeric topics a renamed node does not publish stand |
| Agreement.PublishAttributeEffect | bridge.go:426-445 | one attribute report writes its numeric topic and its alias, if `Mirror.AliasIff` says it has one, and nothing else |
| Agreement.PublishAttributeAgrees | bridge.go:426-445 | after it the node's topics show the cache again |
| Agreement.PublishAttributeOthers | bridge.go:426-445 | and no other node's topics stop doing so |
| Runs.LabelUntouched | bridge.go:330-333 | an attribute other than the label changes no name, so skipping the refresh is sound |
| Runs.EventTracking | bridge.go:314-378 | after any event the names are those of the new cache, every retained topic is recorded and, if records lay under current names, they still do, clashes or not; only an attribute report can create a record without its availability topic |
| Runs.EventAgrees | bridge.go:314-378 | after any event each cached node's retained topics show it as cached |
| Runs.RemovalComplete | bridge.go:350-361 | after a removal the node has no record and whatever is retained is another node's; the availability topic alone is left, exactly when it was retained without being recorded |
| Runs.RemovalPeers | bridge.go:350-361 | a peer renamed by the removal is published in full under its new name; every other node's topics are unchanged |
| Runs.EventRenames | bridge.go:314-361 | one event changes at most three names; a removal, or an event on a node without a name, at most two |
| Sessions.StartTracksIffKept | bridge.go:269-289 | after a reconnect records lie under current names if and only if every node with recorded aliases kept its name; listed nodes are adrift no longer |
| Sessions.StartAgrees | bridge.go:269-289 | a new session publishes every listed node, whatever the store held |
| Sessions.OfflineRenameLeavesAlias | bridge.go:277-289 | after a rename while disconnected the old alias is still retained, under a name nobody has |
| Sessions.HandoverEntangles | bridge.go:277-289 | if another node took the name, the old owner's record holds the new one's aliases |
| Sessions.OfflineTracking | bridge.go:820-831 | going offline sets adrift exactly the nodes whose record does not hold their availability topic |
| Sessions.StrayReport | bridge.go:329-334 | an attribute report leaves such a record if and only if the node had none, the report is retained and it renames no cached node |
| Sessions.StrayAvailabilityStays | bridge.go:820-831 | a report about an unknown node, a lost session and a removal leave `offline` on the broker for good |
| Sessions.OfflineAgrees | bridge.go:820-831 | every cached node is then shown offline, with everything else as cached |
| Sessions.ClearedAgreesIff | bridge.go:655-665 | clearing a node's topics leaves the others in agreement if and only if its record holds nothing of theirs |
| Sessions.StepKeeps | bridge.go:163-192 | every step of the bridge's life keeps names and records, whatever the labels, the reports and the reconnects are |
| Sessions.RunKeeps | bridge.go:163-192 | so they hold after every step of every run |
| Sessions.RunAliased | bridge.go:163-192 | if nodes kept their names at every reconnect, every record lies under its owner's current name throughout |
| Sessions.KeptSeparated | bridge.go:163-192 | and, names being unique, no record holds a topic of another node |
| Sessions.AgreesOn | bridge.go:163-192 | while names are unique and records separate every step keeps the tree in agreement with the cache |
| Sessions.RunSafe | bridge.go:163-192 | so the tree shows the cache after every step of every such run |
| Sessions.NothingAdrift | bridge.go:774-831 | if reports only concern nodes with a record, every retained topic is recorded |
| Exactness.NothingStaleIffTidy | bridge.go:314-378 | an event leaves nothing retained that the cache does not describe if and only if it is tidy |
| Exactness.StartStaleIff | bridge.go:269-289 | a new session leaves nothing stale if and only if its node list publishes every topic retained before |
| Exactness.DroppedAttributeLingers | bridge.go:339-347 | a node report that drops an attribute leaves its topic retained and undescribed |
| Exactness.SessionExact | bridge.go:265-310 | throughout a tidy session, the first or a later one, a topic is retained if and only if the cache describes it, nodes being removed excepted |
| Exactness.EventRightsNames | bridge.go:387-391 | after any event each retained name topic holds its node's current name, clashes or not |
| Exactness.StartRightsNamesIff | bridge.go:269-289 | after a new session they do if and only if the node list covers every node whose name topic was retained |
| Exactness.ClashDisagrees | bridge.go:435-443 | two nodes with one name and different values of a shared attribute cannot both be shown as cached |
| Exactness.AliasExact | bridge.go:435-443 | with a well-formed model each alias holds the very value of its own attribute |
| Grammar.PublishesOk | bridge.go:380-445 | whatever the publication of a node writes has the levels of its kind |
| Grammar.RunStoreFaithful | bridge.go:774-784 | in every run each recorded or retained topic has the levels of its kind, and distinct topics have distinct strings |
| Grammar.RunHearsNoEcho | bridge.go:513-520 | if no attribute is called `command`, no recorded or retained topic of any run matches a command filter |
| Mirror.RunShows | bridge.go:380-445 | in every run with unique names and separate records each cached node shows whether it is online, its name or nothing, a descriptor with its name, and every attribute's cached value |
| Mirror.ReportDescribes | bridge.go:339-347 | a node report leaves a descriptor of the node as reported, with its name at that time |
| Mirror.RequestClears | bridge.go:655-665 | a requested removal leaves no record of the node, nothing its record held, and everything else |
| Mirror.RunUnmirrored | bridge.go:437 | with name publishing off no run ever records or retains an alias |
| Mirror.AliasIff | bridge.go:437-443 | an attribute has an alias if and only if names are published, the node has a name, and the model file names cluster and attribute |
| Mirror.RunMirrored | bridge.go:437-443 | such an attribute is retained under the node's name with its cached value |
| Mirror.SessionMirror | bridge.go:437-443 | in a tidy session an alias is retained if and only if some cached node of that name has such an attribute |
| BridgeObject.Bridge.constructor | bridge.go:57-66 | a new bridge has an empty cache, no names, no records and nothing published |
| BridgeObject.Bridge.Publish | bridge.go:766-771 | a retained publish updates the store, an empty one deletes |
| BridgeObject.Bridge.PublishTrackedTopic | bridge.go:774-784 | records a retained topic for its node before publishing it |
| BridgeObject.Bridge.PublishAttributeTopics | bridge.go:426-445 | the numeric topic, then the alias when the node has a name and the model knows the path |
| BridgeObject.Bridge.PublishNode | bridge.go:380-424 | availability, name, every attribute in any order, descriptor: the whole publication and nothing else |
| BridgeObject.Bridge.ClearNodeTopics | bridge.go:788-797 | drops a node's record and everything in it from the store |
| BridgeObject.Bridge.ClearNamedTopics | bridge.go:801-818 | drops exactly the node's aliases from its record and from the store |
| BridgeObject.Bridge.Nodes | bridge.go:97-112 | a snapshot that lists each cached node once, by ascending id |
| BridgeObject.Bridge.RefreshNames | bridge.go:706-734 | the loops clear all changed nodes and then publish them, which is the relation the agreement lemmas are about |
| BridgeObject.Bridge.CacheNode | bridge.go:736-745 | replaces one node in the cache and no other |
| BridgeObject.Bridge.CacheAttributeValue | bridge.go:747-758 | updates one attribute of a cached node; an unknown node is left out |
| BridgeObject.Bridge.HandleEvent | bridge.go:314-378 | each event takes the object through the step the run lemmas are about |
| BridgeObject.Bridge.LoadNodes | bridge.go:269-289 | loading a session's node list, in list order |
| BridgeObject.Bridge.MarkAllUnavailable | bridge.go:820-831 | publishes `offline` for every node with a record and touches nothing else |
| Commands.NameResolves | bridge.go:551-559 | a node's name resolves to it if and only if the name is not another node's number |
| Commands.NodeMeans | bridge.go:551-559 | a node resolves to its number, or to the node whose name it is up to case, and is unknown exactly when there is none |
| Commands.AtoiNegative | bridge.go:538 | a negative endpoint is read, down to the least 64-bit number |
| Commands.AtoiPositive | bridge.go:538 | an endpoint is read with or without a plus sign, up to the greatest |
| Commands.Widths | bridge.go:551-554 | the widths of node ids, of cluster and attribute ids, and of endpoints |
| Commands.PartsJoin | bridge.go:761-764 | a topic is its prefix and its parts; without the prefix it is all parts |
| Commands.WriteOnly | bridge.go:563-589 | a write is made exactly for a topic of six levels that all resolve, and goes where they resolve to |
| Commands.SetHeard | bridge.go:513-520 | the topic of an attribute plus `/set`, numeric or alias, is heard as a command |
| Commands.AliasWriteRoundTrip | bridge.go:533-588 | publishing to an alias plus `/set` writes exactly the node and attribute path the alias was published for, if and only if the name is not another node's number |
| Commands.NumericWriteRoundTrip | bridge.go:563-588 | on the numeric tree it always does, with neither a name nor a model entry |
| Commands.KitchenExample | bridge.go:563-589 | all the conditions together: a device labelled "Kitchen" is written to at `<prefix>/named/Kitchen/1/OnOff/OnOff/set` |
| Commands.NodeRedWrite | nodered/lib/topics.js:34-36 | what an output node publishes is heard as a command and written to the node it looked up, or ignored when the bridge cannot resolve the cluster or the attribute |
| Commands.NodeRedWriteByName | nodered/nodes/matter2mqtt-out.js:87-108 | cluster and attribute spelled by name in any case write the attribute so named |
| Discovery.AppliedEffect | nodered/lib/registry.js:38-64 | one metadata message changes its own device's entry, creating it if need be, and no other |
| Discovery.EntryMeans | nodered/lib/registry.js:42-59 | what each metadata topic sets; a descriptor that is no object changes nothing |
| Discovery.AppliedOrder | nodered/lib/registry.js:25-32 | devices keep their places and a new one goes last |
| Discovery.FirstNamedSound | nodered/lib/registry.js:79-86 | the search finds a device with the wanted name, or there is none |
| Discovery.FirstNamedFirst | nodered/lib/registry.js:79-86 | it takes the first device that matches |
| Discovery.ExactPreferred | nodered/lib/registry.js:79-81 | an exact match is preferred to one that differs in case |
| Discovery.SpacesDiffer | nodered/lib/registry.js:75 | the two trims differ in U+0085 and U+FEFF only |
| Discovery.ReplayConfluent | nodered/lib/registry.js:25-64 | replaying retained metadata into a fresh registry gives what the store holds, in every order |
| Discovery.NameShown | bridge.go:387-391 | up or down, the name topic of a node that is not being removed is retained if and only if the node has a name, and holds it |
| Discovery.ReplayMirrors | nodered/lib/registry.js:38-64 | a registry filled from the broker mirrors the bridge's names, whatever else is retained |
| Discovery.LookupMeans | nodered/lib/registry.js:74-87 | what a lookup answers, for every input: nothing for a blank one, a known id, or the listed node the bridge's index has for the trimmed name |
| Discovery.LookupAgrees | nodered/lib/registry.js:74-87 | for a trimmed name that is not a numeral the registry and the bridge resolve alike, hit or miss |
| Discovery.NumeralAgrees | nodered/lib/registry.js:74-87 | on a 64-bit numeral they agree if and only if it is a known node's id without leading zeros, or the name of the node with that id |
| Discovery.OwnNameFound | nodered/lib/registry.js:74-87 | a listed node is found under its own name if and only if JavaScript's trim leaves the name alone |
| Discovery.MarkedName | nodered/lib/registry.js:74-76 | a label edged with U+FEFF becomes a name that cannot be looked up |
| Discovery.RunLookupAgrees | nodered/lib/registry.js:38-87 | in every reachable state a registry filled in any order resolves names as the bridge does |
| Discovery.RunDevice | nodered/lib/registry.js:38-64 | in every reachable state it has the name, the availability and the descriptor of each cached node that is not being removed |
| Flow.SubscribeKeeps | nodered/nodes/matter2mqtt-broker.js:134-147 | subscribing adds one handler, keeps handler keys and subscribed nodes equal, and is live on the connection |
| Flow.UnsubscribeKeeps | nodered/nodes/matter2mqtt-broker.js:149-157 | an unsubscribe run once removes exactly its handler and keeps every subscription somebody still needs |
| Flow.SecondRunSilences | nodered/nodes/matter2mqtt-broker.js:149-157 | run twice, it can silence a later subscriber |
| Flow.SecondRunIff | nodered/nodes/matter2mqtt-broker.js:149-157 | run again, it changes nobody's handlers if and only if its node has none or its old set is not empty |
| Flow.ConnectKeeps | nodered/nodes/matter2mqtt-broker.js:45-67 | reconnecting subscribes to every wanted node; disconnecting loses no handler |
| Flow.SpareNothing | nodered/nodes/matter2mqtt-broker.js:134-177 | while connected the client is subscribed to nothing nobody wants: the last handler's going ends the subscription |
| Flow.ConnectSpareIff | nodered/nodes/matter2mqtt-broker.js:45-59 | a connection starts so if and only if the client restores no unwanted subscription by itself |
| Flow.RespondersKeep | nodered/nodes/matter2mqtt-broker.js:165-177 | the response topic is subscribed to while anybody listens |
| Flow.Broker.Refresh | nodered/nodes/matter2mqtt-in.js:50-61 | afterwards the input node is bound to what its name means now, and nobody else's binding moved |
| Flow.Broker.EmitStatus | nodered/nodes/matter2mqtt-broker.js:113-121 | afterwards every input node is, in whatever order the callbacks run |
| Flow.Broker.OnMeta | nodered/nodes/matter2mqtt-broker.js:74-78 | metadata is taken in and every binding follows it |
| Flow.Broker.OnConnect | nodered/nodes/matter2mqtt-broker.js:45-59 | bindings and subscriptions are in place on the new connection |
| Flow.Broker.OnClose | nodered/nodes/matter2mqtt-broker.js:63-67 | bindings outlive the connection |
| Flow.Broker.AddInput | nodered/nodes/matter2mqtt-in.js:42-43 | a new input node is bound at once and disturbs none |
| Flow.Broker.CloseInput | nodered/nodes/matter2mqtt-in.js:148-152 | a closed input node leaves with its handler, and alone |
| Flow.Broker.OnAttribute | nodered/nodes/matter2mqtt-broker.js:95-106 | a message reaches exactly the input nodes whose device name currently means its node, and the client is subscribed if there are any |
| MatterSession.IdsKept | matterws.go:141-152 | message ids are handed out once and the pending keys are exactly the calls in flight |
| MatterSession.CallsKept | matterws.go:196-207 | the first reply read since a call began, result or rejection, is buffered for it or about to be, is never lost, and no duplicate replaces it |
| MatterSession.WritesKept | matterws.go:159-160 | each call is written at most once and only after it got past the write channel |
| MatterSession.CloseKept | matterws.go:244-255 | `done` is never closed without a reason |
| MatterSession.EventsKept | matterws.go:208-217 | queued and consumed events are an in-order selection of the event frames read |
| MatterSession.EventQueued | matterws.go:208-217 | an event is queued while fewer than 256 are, and dropped otherwise |
| MatterSession.RoomToWrite | matterws.go:159-160 | a call gets past the write channel while fewer than 64 wait there |
| MatterSession.StepKeeps | matterws.go:141-255 | every step of every goroutine keeps all of these |
| MatterSession.RunSafe | matterws.go:141-255 | so they hold in every reachable session |
| MatterSession.FirstHeld | matterws.go:196-207 | once that reply has been read, a call that still waits has it in its slot or the read pump has it in hand |
| MatterSession.FirstReturned | matterws.go:167-172 | a reply a call has taken is the first frame with its id that was read since it began |
| MatterSession.FirstReturns | matterws.go:167-172 | and a waiting call can return it |
| MatterSession.FirstReplyMeans | matterws.go:196-207 | what makes a reply the first among frames |
| MatterSession.EarlyReplyLost | matterws.go:199-201 | a reply read before its call began is not for that call, though it carries its number |
| MatterSession.GaveUp | matterws.go:161-177 | a call that gives up returns the outcome it gave up with |
| MatterSession.RunTrace | matterws.go:159-226 | in every run all frames read are on record, and the calls that got past the write channel are written in that order, none lost |
| MatterSession.ReturnedReply | matterws.go:167-172 | a call only ever returns a reply that carries its own id and was read off the wire |
| MatterSession.StrayReply | matterws.go:197-207 | a reply to no call in flight, late or foreign, changes no call |
| MatterSession.DuplicateReply | matterws.go:203-206 | a second reply to a call whose first is buffered changes no call either |
| MatterSession.FirstReasonWins | matterws.go:244-273 | the first close reason stays, is a real one, and is what anybody who sees `done` closed finds |
| MatterSession.CloseFinishes | matterws.go:244-255 | closing an open session records the reason, closes `done` and comes to its end |
| MatterSession.FailedReadCloses | matterws.go:181-187 | a failed read closes the session with its cause, and then the pump ends |
| MatterSession.ConsumedInOrder | matterws.go:208-217 | what the consumer has seen is in the order it was read |
| MatterSession.NobodyStuck | matterws.go:161-177 | once `done` is closed every waiting call can return with that reason |
| MatterSession.CallsOnlyGrow | matterws.go:141-178 | a call keeps its command and arguments, and its outcome once returned |
| MatterSession.MatterClient.BeginCall | matterws.go:142-147 | takes the next id and registers the call |
| MatterSession.MatterClient.TakeReply | matterws.go:168 | returns what was buffered for this call |
| MatterSession.MatterClient.LeaveCall | matterws.go:148-152 | removes exactly the call's own pending entry |
| MatterSession.MatterClient.PumpReads | matterws.go:190-217 | a reply is matched by id, an event is queued while there is room, anything else is skipped |
| MatterSession.MatterClient.PumpDelivers | matterws.go:203-206 | buffers the reply unless the slot is taken |
| MatterSession.MatterClient.CloseOnce | matterws.go:244-250 | only the first close records its reason |
| MatterSession.MatterClient.PumpExit | matterws.go:181 | the deferred close with no reason always finds one recorded |
| Correlation.SendKeeps | nodered/nodes/matter2mqtt-out.js:153-178 | a new input is pending with a timer, or has failed with neither |
| Correlation.ResponseKeeps | nodered/nodes/matter2mqtt-out.js:50-72 | a reply settles its input once and stops its timer |
| Correlation.TimeoutKeeps | nodered/nodes/matter2mqtt-out.js:161-165 | so does a timeout |
| Correlation.CloseKeeps | nodered/nodes/matter2mqtt-out.js:180-186 | closing drops what is pending, stops every timer and calls nobody's `done` |
| Correlation.FreshId | nodered/nodes/matter2mqtt-out.js:158 | the next request id was never used by this node |
| Correlation.ForeignResponse | nodered/nodes/matter2mqtt-out.js:53-54 | a reply this node is not waiting for changes nothing |
| Correlation.TimeoutSettles | nodered/nodes/matter2mqtt-out.js:161-165 | a timer that fires times out the input that waits under its id, removes entry and timer, calls that `done` once, and touches no other input |
| Correlation.ReplySettles | nodered/nodes/matter2mqtt-out.js:56-71 | so does a reply: with the payload if it succeeded, as failed if not |
| Correlation.SendLeaves | nodered/nodes/matter2mqtt-out.js:153-178 | what sending leaves online, offline and without a command |
| Correlation.CloseDrops | nodered/nodes/matter2mqtt-out.js:180-186 | closing drops every input that waits and touches no other |
| Correlation.MatterOut.OnInput | nodered/nodes/matter2mqtt-out.js:153-178 | publishes the request under the next id, or undoes the entry and fails the input |
| Correlation.MatterOut.OnReply | nodered/nodes/matter2mqtt-out.js:50-72 | the object takes the step the lemmas are about |
| Correlation.MatterOut.OnTimer | nodered/nodes/matter2mqtt-out.js:161-165 | likewise for a timer that fires; `Correlation.TimeoutSettles` says what that step does |
| Correlation.MatterOut.Close | nodered/nodes/matter2mqtt-out.js:180-186 | likewise for closing |
| EndToEnd.AnswerResponds | bridge.go:669-688 | every call that returns is answered under the request's own id, as a success exactly when the server returned a result |
| EndToEnd.RefuseResponds | bridge.go:678-684 | a request that finds the bridge disconnected is answered with a failure under its id |
| EndToEnd.FailureHeard | nodered/nodes/matter2mqtt-out.js:64-68 | a failure heard under an id a node waits for fails that input and calls its `done`, and changes nothing else |
| Progress.CanBeAnswered | bridge.go:636-689 | whatever the server says to a request, the input it was made for can end that way, with the result or failed |
| Progress.CanBeRefused | bridge.go:678-684 | with the bridge disconnected it can fail without a session |
| Progress.CanExpireOrDrop | nodered/nodes/matter2mqtt-out.js:161-186 | it can time out, or be dropped with its node |
| EndToEnd.MoveKeeps | bridge.go:636-689 | every move of every part keeps the whole path correlated |
| EndToEnd.Correlated | nodered/nodes/matter2mqtt-out.js:50-72 | an input that completed successfully carries the server's result for a message issued for that input's own command and arguments, redeployments included |
| EndToEnd.ExactlyOnce | nodered/nodes/matter2mqtt-out.js:153-187 | each input is in exactly one state, `done` is called once for a completed one and never otherwise, and every live timer belongs to a pending entry |
| EndToEnd.NextIdUnused | nodered/nodes/matter2mqtt-out.js:158 | no request already published carries a node's next id |
| Redeployment.RedeployMisdelivers | nodered/nodes/matter2mqtt-out.js:33-54 | a node redeployed while a published request carries its n-th id makes n requests, and a late reply to the old one completes the newest |
| Redeployment.RedeployIff | nodered/nodes/matter2mqtt-out.js:153-178 | misdelivery is possible after a redeployment if and only if a published request carries one of the node's ids |
| Scaling.ExactIff15 | nodered/lib/scale.js:206-210 | a reading is shown exactly if and only if the precision is at most 15, at every precision that shows a device step |
| Scaling.UnscaleUndoesScale | nodered/lib/scale.js:151-189 | for every linear encoding, writing back a reading gives every raw value if and only if the precision shows a device step or nothing is rounded |
| Scaling.RoundingError | nodered/lib/scale.js:206-210 | rounding is off by at most half a last digit and the epsilon, at every precision |
| Scaling.ScaleMonotone | nodered/lib/scale.js:151-168 | a larger raw value never reads smaller, at every precision |
| Scaling.ReadBack | nodered/lib/scale.js:151-189 | a quantity written and read back at the default precision is within half a device step |
| Scaling.Readings | nodered/lib/scale.js:41-69 | one reading for each linear encoding, with its unit |
| Scaling.Writings | nodered/lib/scale.js:179-189 | and one write |
| Scaling.EpsilonIs | nodered/lib/scale.js:206-210 | the epsilon is two to the power of -52 |
| Scaling.Untouched | nodered/lib/scale.js:151-189 | values that are no numbers, attributes without an encoding and tolerances come through as they are; illuminance goes through its curve |

## Left out

- The websocket, MQTT and HTTP libraries, dialling, deadlines, pings, TLS and quality of service: the wire is arbitrary input and output.
- MQTT outages on the bridge side: `publish` does nothing while disconnected, so the retained-store claims are about an open connection.
- The web console, its event stream and `broadcast`, the Node-RED editor pages and the device node: best-effort display.
- Configuration, `main.go` and the model dump script.
- The bridge's own status topics (`bridge/availability`, `bridge/info`, `bridge/matter_connected`): the retained store holds the per-node topics.
- JSON encoding, Unicode tables, logging and clocks. JSON values are abstract with a non-empty encoding; case folding is any function on single characters that fixes digits and the dash and maps nothing else onto them.
- The contents of the descriptor document. It is a value built from the node and its name; between full publications only its name is claimed to be current.
- Occurrence topics are part of the topic grammar but publish nothing retained, so they take no part in runs; malformed events, shutdown notices and unknown events leave the state alone.
- Races inside a requested removal: the clearing of a node's topics is one step, and until the fabric reports the removal that node is outside the agreement claim.
- Sends on the event channel after it is closed: event reads stop once the close has finished.
- Concurrency is modelled as interleaved atomic steps: a lock's critical section, a channel operation or an event-loop turn is one step. Taking the current session and beginning a call on it is one step of a bridge worker.
- Wrap-around of the id counter and of the sequence number; numbers above 2^53 in JavaScript.
- Floating-point rounding and the illuminance logarithm: arithmetic is exact over the reals, and the logarithmic pair is a parameter.
- `onDeviceCommand`, `encodeValue`, `commandBody`, `pick`, and what an input node filters and formats for the flow.
- Device type names, `list`, `remove` and `clear` of the registry, the registry's own events, and the closing of the broker node. The registry's `renamed` event runs the same callbacks as the message handler that follows it.
- MatterSession.WritesKept: a write that fails counts as written; the close that follows it is a separate step.
- Flow.Broker.Refresh: input nodes are values held by one object rather than objects of their own; handler sets keep their identity as numbers, because an unsubscribe function holds on to the set it added to.
- BridgeObject.Bridge.PublishNode: when two paths of one node share an alias, which cannot happen with a well-formed model and canonical paths, either value may be the one retained.
- Scaling.ReadBack: for linear encodings only; the illuminance curve is a parameter.
- EndToEnd.Correlated: request ids of other callers must differ from those of the output nodes. A request whose payload is not a JSON object is answered without a request id, which no output node waits for, and is not a move of its own.
- DataModel.LoadModel: device types are not loaded, and reading and parsing the file cannot fail.
- BridgeObject.Bridge.Publish: the connection is open; while it is not, the source does nothing.
- Commands.NodeRedWriteByName: which value is written, because `encodeValue` is not part of the model; the claim is about the node and the attribute.
- Sessions.RunKeeps: runs in which a node list held duplicates; `NameIndex.DuplicateSuffixes` shows what a duplicate does.
