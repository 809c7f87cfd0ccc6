# tragen, modelled in Dafny

tragen is an OPC UA traffic generator. A user describes a server's namespace as a `UaDataStruct`, a recursive graph with these parts at every level:

- `folders`: a dict from folder descriptors to sub-levels;
- `objects`: a dict from object descriptors to `{variables, properties}`;
- `variables` and `properties`: two lists.

A Tragen context then builds the following from that graph:

- one `ServerTragen`, whose address space is populated by walking the graph;
- the server's rosters:
  - variable updaters;
  - notifying events;
  - notifier threads;
- its clients (`ClientTragen`), each with:
  - a subscription table;
  - a reader and a writer that are fed the readable and writable nodes found by the same walk.

This project models that core:

- **Graph values** (`graph.dfy`, module `NamespaceGraph`).
  - A level is the datatype `Level`. Each dict is a sequence in its fixed enumeration order, and new keys go last.
  - A reference to a sub-dict is a path (`NodeRef`).
  - The recursive lookups `FindFolder`, `FindObject` and `FindVariable` are functions. They are proved sound and complete against declarative predicates (`IsFolderNamed`, `IsVisibleObject`, `IsVariableNamed`).
- **The graph object** (`ua_data_struct.dfy`, module `UaDataStructure`). The class `UaDataStruct` holds `graph`. Its `add_*` methods reassign it, with every error path of the source made explicit as a `GraphError`: ambiguous name, no match, duplicate, bad property value, an undefined Python name, an attribute missing on a dict, and a missing key.
- **The address space** (`address_space.dfy`). An endpoint node is the path of `namespace:name` pairs that leads to it from the root. `get_child` and the `add_*` calls of the OPC UA library return that path (`ChildOf`).
- **The walk** (`walk.dfy`). One canonical depth-first walk, `Visits`, goes through each level's folders, then objects, then variables, then properties. Every roster the source builds in a recursive loop is proved equal to a `FlatMap` of that walk. Every dict the source writes in such a loop is proved equal to a left-to-right `Assign` of it, so the last write wins.
- **The server** (`server.dfy`, module `TragenServer`):
  - `ServerTragen` with `_rec_populate`, `create_notifying_events`, `set_updaters`, `set_notifiers`, `populate_ns` and the roster part of `init`;
  - the updater `VariableNodeValue` and its sleep choice;
  - the notifier `AsynchronousNotfication`: its constructor and one `run` iteration, over exact reals.
- **The client** (`client.dfy`, module `TragenClient`): `ClientTragen` with its subscription table, `rec_subs`, `subscribe_node`, `_add_subscription`, `delete_all_subscription`, `set_client_agents` and `setup_rw`, plus the `stop` flags of the reader and the writer.
- **The context** (`tragen.dfy`, module `TragenContext`): `Tragen` with its rosters, `set_updaters`, the recursive `set_client_agents`, `set_notifiers` and `add_client`.
- **`show`** (`show.dfy`): it returns its lines instead of printing them, and `next_trail` is a loop.

Python's mutable default arguments are modelled as they behave. `ItemValueReader(items_list=[])` and `VariableValueWriter(var_list=[])` evaluate their default list once, so every reader built without arguments shares one list. That list is the `NodeList` object `readerDefault`, and `writerDefault` plays the same part for writers.

## Model

| member | source | states |
|---|---|---|
| UaDataStructure.NewProperty | tragen/ua_data_structure/uaDataStructure.py:49-56 | a property is built iff its value is falsy or a `str`; otherwise the error is `InvalidValueType`; it is never writable |
| UaDataStructure.UaDataStruct.constructor | tragen/ua_data_structure/uaDataStructure.py:63-64 | a fresh graph has empty `folders` and `objects` and empty `variables` and `properties` |
| UaDataStructure.UaDataStruct.Seed | tragen/ua_data_structure/uaDataStructure.py:63-74 | the optional folder, object, variables and properties of `__init__` are added through the `add_*` calls, with the outcome (including a duplicate variable's error) given by `SeedOutcome` |
| UaDataStructure.ResolveFolder | tragen/ua_data_structure/uaDataStructure.py:108-113 | resolving a parent folder by bare name fails with `NoSuchNode` iff no folder has the name, fails with `AmbiguousName` iff two or more do, and otherwise returns the unique match |
| UaDataStructure.ResolveObject | tragen/ua_data_structure/uaDataStructure.py:131-136 | the same for objects, as far as `find_object` can see them |
| UaDataStructure.UaDataStruct.AddFolder | tragen/ua_data_structure/uaDataStructure.py:103-123 | at the root, an empty folder is appended with no duplicate check. Under `parent_name`, the lookup errors apply, a name already in the parent's folder subtree is rejected, and otherwise an empty folder goes at the end of the parent's `folders`. With `parent_node`, the call raises `NameError` (`folder_node` is undefined). Any error leaves the graph unchanged |
| UaDataStructure.UaDataStruct.AddObject | tragen/ua_data_structure/uaDataStructure.py:76-101 | a bad property value fails first. At the root there is no duplicate check. An unresolved folder name raises `NameError` (`parent_name` is undefined). A name `find_object` already sees in the target folder is rejected. An object reference as `folder_node` fails with a missing key. Otherwise the object and its contents are appended at the target, and errors leave the graph unchanged |
| UaDataStructure.UaDataStruct.AddVariable | tragen/ua_data_structure/uaDataStructure.py:126-147 | at the root it always appends. By `par_name` it always raises: `NameError` when nothing matches, a duplicate, or an `AttributeError` on `.name` of a dict. With `par_node` it rejects a name already in that node's subtree, or else appends at the end of that node's `variables`, keeping everything else |
| UaDataStructure.UaDataStruct.AddProperty | tragen/ua_data_structure/uaDataStructure.py:150-165 | the value check comes before any change. There is never a duplicate check. The property is appended at the root, at the resolved object or at `par_node`, and nothing else changes |
| NamespaceGraph.FindFolderMember | tragen/ua_data_structure/uaDataStructure.py:175-186 | a path is in `find_folder`'s result iff it leads to a folder of that name, for every graph |
| NamespaceGraph.FindFolderNoDuplicates | tragen/ua_data_structure/uaDataStructure.py:175-186 | `find_folder` lists each match once |
| NamespaceGraph.FindFolderOrder | tragen/ua_data_structure/uaDataStructure.py:175-186 | the findings of the sub-folders come first, grouped by sub-folder in enumeration order; the level's own matches come after all of them, in enumeration order |
| NamespaceGraph.FolderLookupCases | tragen/ua_data_structure/uaDataStructure.py:108-113 | zero, one or many `find_folder` results correspond exactly to no, a unique, or several folders of that name |
| NamespaceGraph.FindObjectMember | tragen/ua_data_structure/uaDataStructure.py:175-186 | a reference is in `find_object`'s result iff it names a visible object: every level on the way to it has a non-empty `objects` map |
| NamespaceGraph.FindObjectNoDuplicates | tragen/ua_data_structure/uaDataStructure.py:175-186 | `find_object` lists each match once |
| NamespaceGraph.FindObjectOrder | tragen/ua_data_structure/uaDataStructure.py:175-186 | every finding is an object; the sub-folders' findings come first, grouped by sub-folder in enumeration order, and the level's own objects (empty path) come last, in enumeration order |
| NamespaceGraph.ObjectLookupCases | tragen/ua_data_structure/uaDataStructure.py:131-136 | zero, one or many `find_object` results correspond exactly to no, a unique, or several visible objects of that name |
| NamespaceGraph.VisibleObjectIsObject | tragen/ua_data_structure/uaDataStructure.py:175-186 | what `find_object` returns is an object of that name |
| NamespaceGraph.ObjectLookupIsBlindBelowEmptyLevel | tragen/ua_data_structure/uaDataStructure.py:177-178 | an object inside a sub-folder is not found when the root level has no objects |
| NamespaceGraph.FindVariableMember | tragen/ua_data_structure/uaDataStructure.py:200-217 | a leaf reference is in `find_variable`'s result iff it names a variable of that name in the subtree |
| NamespaceGraph.VariableLookupCases | tragen/ua_data_structure/uaDataStructure.py:200-217 | `find_variable` finds something iff the subtree holds a variable of that name |
| NamespaceGraph.FindVariableFrom | tragen/ua_data_structure/uaDataStructure.py:142-144 | the duplicate check on `par_node` finds something iff the name is taken in that node's subtree, whether it is a folder or an object |
| NamespaceGraph.AddFolderAtSpec | tragen/ua_data_structure/uaDataStructure.py:117 | attaching a folder appends one entry with empty contents to the parent's `folders` |
| NamespaceGraph.AppendVariableAtSpec | tragen/ua_data_structure/uaDataStructure.py:145 | appending a variable extends that node's `variables` by exactly it and leaves its `properties` unchanged |
| NamespaceGraph.AppendPropertyAtSpec | tragen/ua_data_structure/uaDataStructure.py:161-163 | appending a property extends that node's `properties` by exactly it and leaves its `variables` unchanged |
| NamespaceGraph.SameNamedRootFoldersCoexist | tragen/ua_data_structure/uaDataStructure.py:105-106 | a root folder whose name is already used makes that name ambiguous instead of being rejected: the keys are distinct |
| GraphShow.Blanked | tragen/ua_data_structure/uaDataStructure.py:224-228 | the blanked trail has the old trail's length, with a bar exactly where the old one had a bar and a space elsewhere |
| GraphShow.NextTrail | tragen/ua_data_structure/uaDataStructure.py:222-229 | the loop yields the blanked trail followed by `comp`, of length `|old| + |comp|`, keeping every bar of `old` and nothing else of it |
| GraphShow.LevelDescribed | tragen/ua_data_structure/uaDataStructure.py:231-248 | `rec_show` prints one line per node of the level, in walk order, each ending with that node's text |
| GraphShow.ShowListsWalk | tragen/ua_data_structure/uaDataStructure.py:220-250 | `show()` lists exactly the nodes of the whole graph, one line each, in the order of the walk |
| AddressSpace.ChildOfInjective | tragen/server_tragen/tragenServer.py:130 | the path a node is named by determines its parent and its `namespace:name`: two paths built by `ChildOf` are equal iff they extend the same parent by the same `namespace:name` |
| AddressSpace.NotifNodesDistinct | tragen/server_tragen/tragenServer.py:168-169 | distinct variable names get distinct `_NotifObject` nodes and `_NotifEvent` types |
| Walk.VisitsPlaced | tragen/server_tragen/tragenServer.py:126-148 | every node `_rec_populate` creates is named after its graph entry and lies strictly below the root or the objects node it was started from |
| Walk.ReadableNames | tragen/server_tragen/tragenServer.py:136-148 | a name is readable iff some visited variable or property has it |
| Walk.WritableNames | tragen/server_tragen/tragenServer.py:140-142 | a name is writable iff some visited variable with `is_writable` has it; properties never contribute |
| Walk.WritableAreReadable | tragen/server_tragen/tragenServer.py:139-142 | the writable list is a sub-multiset of the readable list |
| Walk.KeyOrder | tragen/server_tragen/tragenServer.py:227 | a dict's iteration visits every key exactly once |
| TragenServer.VariableNodeValue.constructor | tragen/server_tragen/tragenServer.py:25-32 | an updater records its node, mode, period and deviations, and starts updating |
| TragenServer.VariableNodeValue.Stop | tragen/server_tragen/tragenServer.py:34-35 | `stop` clears `_updating` |
| TragenServer.VariableNodeValue.SleepInterval | tragen/server_tragen/tragenServer.py:41 | a regular updater sleeps exactly its period; an irregular one sleeps the drawn value |
| TragenServer.AsynchronousNotfication.constructor | tragen/server_tragen/tragenServer.py:59-71 | without `auto`, the bounds are the given limits (default -inf and +inf); with `auto`, they are `c - 0.2c` and `c + 0.2c` around the node's value |
| TragenServer.NewNotifier | tragen/server_tragen/tragenServer.py:59-71 | with `auto`, a non-numeric node value raises `TypeError`; otherwise the notifier is built as above |
| TragenServer.AsynchronousNotfication.Stop | tragen/server_tragen/tragenServer.py:73-74 | `stop` clears `_running` |
| TragenServer.AsynchronousNotfication.RunOnce | tragen/server_tragen/tragenServer.py:77-86 | one iteration gives the bounds and messages of `NotifierRound` and leaves `_running` alone |
| TragenServer.RoundSilentIffInBand | tragen/server_tragen/tragenServer.py:79-86 | an iteration triggers nothing iff the value is within the bounds, and then the bounds stay as they were |
| TragenServer.RoundRecentres | tragen/server_tragen/tragenServer.py:79-86 | after any trigger, the bounds are `val - 0.2val` and `val + 0.2val` |
| TragenServer.RoundMessages | tragen/server_tragen/tragenServer.py:79-86 | "Above" comes first iff the value exceeds the upper bound. "Below" follows iff the value is under the lower bound, or it was above and is negative (the re-centred lower bound then exceeds it) |
| TragenServer.RoundWarnsTwiceOnlyWhenNegative | tragen/server_tragen/tragenServer.py:79-86 | at most two messages, and two exactly when the value breaches the upper bound while negative; so a non-negative value triggers at most once |
| TragenServer.NegativeCentreAlwaysWarns | tragen/server_tragen/tragenServer.py:65-86 | auto bounds around a negative centre are inverted, so every value triggers |
| TragenServer.CentreIsQuiet | tragen/server_tragen/tragenServer.py:65-86 | a non-negative centre read again triggers nothing |
| TragenServer.OneNodePerVisit | tragen/server_tragen/tragenServer.py:126-148 | `_rec_populate` creates one endpoint node per visited folder, object, variable and property, at the visited path; variables and properties become variable nodes |
| TragenServer.WritableNodes | tragen/server_tragen/tragenServer.py:140-148 | a created node is writable iff it is a writable variable, or a writable property with a non-empty name (`set_writable(prt.name)`) |
| TragenServer.ServerTragen.constructor | tragen/server_tragen/tragenServer.py:103-124 | empty tables and lists, no root or objects node, and updater and notifier lists only when independent |
| TragenServer.NewServer | tragen/server_tragen/tragenServer.py:110-111 | with `by_uri` false the constructor raises `NameError` (`addr` is undefined); otherwise it builds the server |
| TragenServer.ServerTragen.RecPopulate | tragen/server_tragen/tragenServer.py:126-148 | the address space grows by the walk's nodes, and `readable_items` and `writable_variables` by the walk's readable and writable names, in walk order |
| TragenServer.ServerTragen.PopulateNs | tragen/server_tragen/tragenServer.py:175-185 | the root and objects nodes are recorded and the whole graph is populated from them |
| TragenServer.ServerTragen.CreateNotifyingEvents | tragen/server_tragen/tragenServer.py:150-172 | one `_NotifObject` node and one `_NotifEvent` type per `is_reg_ud` variable; the table is the old one with the walk's entries assigned in order |
| TragenServer.NotifyingKeys | tragen/server_tragen/tragenServer.py:164-172 | the table's keys are exactly the names of the visited `is_reg_ud` variables |
| TragenServer.NotifyingLastWins | tragen/server_tragen/tragenServer.py:172 | the entry under a name is that of the last `is_reg_ud` variable with that name, with its node and its companion event generator |
| TragenServer.NotifyingAreReadable | tragen/server_tragen/tragenServer.py:139-172 | every notifying name is also a readable name |
| TragenServer.ServerTragen.SetUpdaters | tragen/server_tragen/tragenServer.py:188-219 | the returned roster is the walk's per-variable updaters, in walk order |
| TragenServer.UpdaterRoster | tragen/server_tragen/tragenServer.py:209-216 | an updater is in the roster iff some visited variable has `is_irreg_ud` (irregular, period 3) or `is_reg_ud` (regular, period 0.1) for it; properties give none |
| TragenServer.BuildNotifiers | tragen/server_tragen/tragenServer.py:227-236 | the loop visits the table's keys once each, in the order `ks`, building for the i-th key a notifier (always with `auto`) that matches its entry. It raises `TypeError` iff some entry has a truthy bound or a non-numeric value; then exactly the keys before the first such key have notifiers, and otherwise every key has one |
| TragenServer.ServerTragen.SetNotifiers | tragen/server_tragen/tragenServer.py:222-238 | either `TypeError`, exactly when some entry is faulty, or one notifier per table key, with no key twice |
| TragenServer.ServerTragen.StoreRosters | tragen/server_tragen/tragenServer.py:268-276 | only an independent server stores its rosters: the updaters are the walk's per-variable roster, and on success the notifiers cover every key of `notifying_events` once, each built for that key's entry; a failing `set_notifiers` (`TypeError` iff some entry is faulty) leaves `notifiers` unchanged |
| TragenServer.ServerTragen.Init | tragen/server_tragen/tragenServer.py:242-278 | population, then notifying events, then the rosters: the address space, both name lists and the table are the walk's, the updaters are its per-variable roster, and on success the notifiers cover every table key once, each built for that key's entry. With the default `data_nodes=None`, it raises `AttributeError` after only the root and objects nodes are recorded |
| TragenClient.NodeList.Append | tragen/client_tragen/tragenClient.py:210-219 | `append` adds one node at the end of the shared list |
| TragenClient.ItemValueReader.constructor | tragen/client_tragen/tragenClient.py:44-48 | a reader holds the list it is given (the shared default when called without one), its period, and is running |
| TragenClient.ItemValueReader.Stop | tragen/client_tragen/tragenClient.py:50-51 | `stop` assigns a local, so `_running` keeps its value |
| TragenClient.VariableValueWriter.constructor | tragen/client_tragen/tragenClient.py:70-74 | a writer holds its list and period, and is writing |
| TragenClient.VariableValueWriter.Stop | tragen/client_tragen/tragenClient.py:76-77 | `stop` clears `_writing` |
| TragenClient.ClientTragen.constructor | tragen/client_tragen/tragenClient.py:97-107 | empty subscription table, not connected, and when independent a reader and a writer on the shared default lists |
| TragenClient.ClientTragen.AddSubscription | tragen/client_tragen/tragenClient.py:111-121 | the entry for the node is overwritten, and nothing is unsubscribed |
| TragenClient.ClientTragen.SubscribeNode | tragen/client_tragen/tragenClient.py:123-130 | one new subscription (period 1000) is created and stored under the node |
| TragenClient.ClientTragen.RecSubs | tragen/client_tragen/tragenClient.py:132-151 | the table is the old one with the walk's subscription entries assigned in order, and one subscription is created per entry |
| TragenClient.SubscribedNodes | tragen/client_tragen/tragenClient.py:144-151 | a node has an entry iff some visited variable at that node has `is_irreg_ud` or `is_reg_ud` |
| TragenClient.EventEntryWins | tragen/client_tragen/tragenClient.py:121-151 | a variable with both flags ends with its EVENT entry on `2:<name>_NotifObject` and `2:<name>_NotifEvent`; its DATA_CHANGE entry is overwritten |
| TragenClient.EntriesAtMostCreated | tragen/client_tragen/tragenClient.py:121-151 | the table can hold fewer entries than subscriptions were created |
| TragenClient.ClientTragen.InitializeSubs | tragen/client_tragen/tragenClient.py:159-168 | the root and objects nodes are recorded and `rec_subs` runs from them over the whole graph |
| TragenClient.ClientTragen.DeleteSubscription | tragen/client_tragen/tragenClient.py:170-179 | one subscription is unsubscribed and deleted |
| TragenClient.ClientTragen.DeleteAllSubscription | tragen/client_tragen/tragenClient.py:181-186 | each table entry's subscription is deleted exactly once, in key order, and the table is left unchanged |
| TragenClient.ClientTragen.SetClientAgents | tragen/client_tragen/tragenClient.py:189-222 | the reader's list grows by the walk's listed variable and property nodes, and the writer's by its listed variable nodes. Without agents (not independent), `AttributeError` is raised iff something would be appended |
| TragenClient.ReaderNodes | tragen/client_tragen/tragenClient.py:208-220 | a node joins the reader list iff a visited variable or property there has its name in `items_list` |
| TragenClient.WriterNodes | tragen/client_tragen/tragenClient.py:211-213 | a node joins the writer list iff a visited variable there has its name in `var_list`; properties never do |
| TragenClient.ReaderGetsEveryItem | tragen/client_tragen/tragenClient.py:266-267 | fed its own readable names, the reader list is every variable and property node of the walk, in order |
| TragenClient.WriterGetsWritable | tragen/client_tragen/tragenClient.py:266-267 | fed the writable names, the writer list holds every variable node whose name some writable variable shares: membership is by name, not by flag |
| TragenClient.ClientTragen.SetupRw | tragen/client_tragen/tragenClient.py:226-249 | `readables` are the walk's variable and property names and `writables` its writable variable names, in walk order |
| TragenContext.Tragen.constructor | tragen/tragen.py:47-63 | an independent server, exactly `nb_client` distinct fresh clients on its URI, and empty `var_updaters`, `notifiers`, `writers` and `readers` |
| TragenContext.NewClients | tragen/tragen.py:55 | the list comprehension builds `nb_client` distinct unconnected clients |
| TragenContext.Tragen.Init | tragen/tragen.py:66-80 | `init` records the data, then its call to `ServerTragen.init` raises `TypeError` for the unknown `independant` keyword |
| TragenContext.Tragen.SetUpdaters | tragen/tragen.py:99-124 | `var_updaters` grows by the same per-variable roster as the server's `set_updaters` |
| TragenContext.AgentsAt | tragen/tragen.py:127-161 | every call, the recursive ones included, builds one reader and one writer on the shared default lists, which receive every eligible node of the walk |
| TragenContext.CallsCount | tragen/tragen.py:136-148 | one call plus one per folder and object visited |
| TragenContext.SharedAgentsExample | tragen/tragen.py:136-161 | a variable declared inside a folder still reaches the top-level call's reader, because all readers share one list |
| TragenContext.Tragen.SetClientAgents | tragen/tragen.py:127-161 | `readers` and `writers` grow by the same count, one per call, each new agent on the shared default lists, which grow by the walk's eligible nodes |
| TragenContext.Tragen.SetNotifiers | tragen/tragen.py:164-178 | the earlier notifiers stay, and one notifier is appended per key of the server's table, in iteration order `order`, each matching its entry. `TypeError` arises iff some entry has a truthy bound or a non-numeric value; then exactly the keys before the first such key have notifiers |
| TragenContext.Tragen.AddClient | tragen/tragen.py:181-190 | the new client is appended, and `init` is requested iff the first client is connected |

## Left out

- The OPC UA library is not modelled: server and client construction, endpoints, security policies, `connect`/`disconnect`, `load_type_definitions`, `start`/`stop` of the server, real node creation, subscriptions and event generators. The endpoint is a path-keyed address space. A subscription is a value recording its node, type, event and event object.
- `populate_ns` with `by_xml` (an `import_xml` of a file) is not modelled.
- Threads are not modelled: `start`, the `run` loops, `sleep` and the timing of cooperative stops. Only the stop flags, the sleep choice and one notifier iteration are modelled.
- Random draws are parameters, not distributions: `random.normalvariate`, `random.uniform` and `random.choice`. The interval drawn by an irregular updater is `drawn`, and the node values a notifier reads are `valueOf` and `val`.
- Python floats are exact `real`s. Their text in `show` (`%s` of a float) is the parameter `floatText`.
- Python 2 dicts keyed by identity-hashed descriptors iterate in an unspecified order. The model fixes it as an enumeration in which new keys come last, and `KeyOrder` picks an arbitrary order for a map.
- `SubHandler`'s printing and the `print` in `show` are not modelled; `show` returns its lines.
- `show`'s `starting_point` is ignored by the source and not modelled.
- `ClientTragen.init`, `Tragen.close`, and the `init` that `add_client` triggers are not modelled. Those are connection and thread orchestration; `AddClient` reports whether it would call `init`.
- `Tragen.init` stops at its first call, which raises; what follows it is not modelled.
- `del_element` and `add_element` are empty or unused, and `setup.py` is packaging.
- Falsy names and values: `None` and the empty string are both falsy and are modelled as `""`.
- AddressSpace.ChildOfInjective: a node is modelled by its path from the root, so same-named siblings (which the graph allows: root adds and `add_property` have no duplicate check) share one path, while the source creates a distinct OPC UA node for each. Which of them `get_child` returns, for instance for two `x_NotifObject` nodes, is not modelled.
- UaDataStructure.UaDataStruct.AddVariable / AddObject: a variable's attributes (`is_reg_ud`, `is_irreg_ud`, `is_writable`, the bounds) are fixed when it is inserted, through `AddVariable`'s attributes or the class defaults for an object's variables. The source sets them afterwards by mutating the returned `TragenVariable`, which is the object stored in the graph; that aliasing and later mutation are not modelled. The walks take any `Level`, so a graph with such attributes set is still covered there.
- TragenContext.Tragen.SetClientAgents: does not state that a node goes only to the reader built at its own level. With the shared default lists, every reader gets every eligible node of the walk (`SharedAgentsExample`).
