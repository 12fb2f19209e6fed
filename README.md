# Optimus transform engine, modelled in Dafny

Optimus is a streaming XML rewriting engine. A `Transformer` pulls events from a
StAX reader and keeps a `TransformContext` with the path of the node being
visited, per-parent sibling counters, skip flags, default namespaces and the
per-event override fields. For every event it looks up the handlers that match
the path in an `EventHandlerPathMap` and runs them as a chain (`callStack`,
`cancelNext`, `callNext`). Then, unless the handlers said otherwise, it writes
the event to a `TransformSimpleWriter`. A handler may read the current element
into memory (`readElement`) and feed nodes back through the same dispatch
(`apply`), which replays them through an `ApplyReader`.

The model has one module per file:

| file | module | models |
|---|---|---|
| wrappers.dfy | Wrappers | `Option`, `Result` and the exceptions the engine throws |
| qnames.dfy | QNames | `QName`, whose identity is namespace URI and local part |
| namespace_context.dfy | NamespaceContexts | `TransformNamespaceContext`: functions on a value and a class proved against them |
| writer_calls.dfy | WriterCalls | the calls made on the underlying `XMLStreamWriter`, as a log |
| nodes.dfy | Nodes | the node values (`Element`, `Attribute`, `Text`, …), `Element.write`, `getAttribute`, `getText`, `getAllText` |
| events.dfy | Events | the StAX events and the reader accessors on an event |
| handlers.dfy | Handlers | holders, `ContinueState`, scripted handler bodies and `EventHandlerList` |
| path_map.dfy | PathMaps | `EventHandlerPathMap`: expression parsing and resolution, the trie insert, and lookup |
| simple_writer.dfy | SimpleWriters | `TransformSimpleWriter`: the attribute buffer, the open-element counter and the flushing rules |
| apply_reader.dfy | ApplyReaders | `ApplyReader`: flattening and balance checking, and the cursor with its look-ahead |
| readers.dfy | Readers | the live parser and the replay reader behind one interface |
| context_state.dfy | ContextStates | `TransformContext`: the parallel stacks, initialisation per event, push and pop, `readElement` |
| dispatch.dfy | Dispatch | `Transformer`'s event loop, the `handle*` methods, `apply` and the handler chain, as functions on one engine value |
| transformer.dfy | Transformers | `doTransform` and `apply` as loops proved equal to the dispatch functions |
| bubbling.dfy | Bubbling | a reference for the handler chain, and the proof that the engine computes it |
| scenarios.dfy, nested_dispatch.dfy, path_scenarios.dfy, element_scenarios.dfy, writer_scenarios.dfy | Scenarios, NestedDispatch, PathMapScenarios, ElementScenarios, WriterScenarios | the outcomes the repository's tests assert, derived from the model |


The model follows what the code does where its own comments suggest
otherwise. When a second handler is registered at the same resolved path, the
branch commented "make it into a list" tests whether the level already holds
a path map (`EventHandlerPathMap.java:189-195`). It only ever holds a handler
holder there, so the code falls through to the `throw` of
`BadMatchPathException` (`EventHandlerPathMap.java:200-202`).
`PathMaps.InsertNoLists` states that behaviour.

## Model

| member | source | states |
|---|---|---|
| NamespaceContexts.Add | src/main/java/com/adpetions/optimus/namespaces/TransformNamespaceContext.java:119-129 | addNamespace keeps the default URI and keeps each bound prefix listed once in the iteration order; the rebinding is stated by AddThenGet and the append to the URI's list by AddAppendsPrefix |
| NamespaceContexts.AddAll | src/main/java/com/adpetions/optimus/namespaces/TransformNamespaceContext.java:52-57 | adding every entry of a map, in iteration order, keeps the default URI and the one-entry-per-prefix shape |
| NamespaceContexts.GetNamespaceURI | src/main/java/com/adpetions/optimus/namespaces/TransformNamespaceContext.java:137-146 | fails with IllegalArgumentException exactly for a null prefix; otherwise the bound URI, or "" for an unbound prefix |
| NamespaceContexts.GetPrefix | src/main/java/com/adpetions/optimus/namespaces/TransformNamespaceContext.java:152-161 | fails exactly for a null URI; null for a URI never added; otherwise the first prefix in the URI's list |
| NamespaceContexts.GetPrefixes | src/main/java/com/adpetions/optimus/namespaces/TransformNamespaceContext.java:167-176 | fails exactly for a null URI; null exactly when the URI has no prefix list; otherwise that list (AddAllPrefixes shows it holds every prefix added for the URI, in order) |
| NamespaceContexts.AddAppendsPrefix | src/main/java/com/adpetions/optimus/namespaces/TransformNamespaceContext.java:119-129 | after addNamespace(p, u), getPrefixes(u) is the earlier list of u (empty if none) with p appended; every other URI's list is unchanged |
| NamespaceContexts.PrefixesFor | src/main/java/com/adpetions/optimus/namespaces/TransformNamespaceContext.java:119-129 | the prefixes of the additions naming a URI, in call order, never more than the additions |
| NamespaceContexts.AddAllPrefixes | src/main/java/com/adpetions/optimus/namespaces/TransformNamespaceContext.java:119-176 | after a run of additions on a context that did not know u, getPrefixes(u) lists the prefix of every addition naming u, in call order, and is null when none names it |
| NamespaceContexts.InitializedBindsReservedPrefixes | src/main/java/com/adpetions/optimus/namespaces/TransformNamespaceContext.java:86-89 | a fresh context binds xml and xmlns to their reserved URIs, binds no other prefix, has no default URI, and getPrefix of the xml URI is "xml" |
| NamespaceContexts.AddThenGet | src/main/java/com/adpetions/optimus/namespaces/TransformNamespaceContext.java:119-146 | after addNamespace(p, u), getNamespaceURI(p) is u and every other prefix resolves as before |
| NamespaceContexts.GetPrefixReturnsFirstAdded | src/main/java/com/adpetions/optimus/namespaces/TransformNamespaceContext.java:119-161 | after a run of additions, getPrefix(u) for a URI not bound before is the prefix of the first addition naming u, and null if none names it |
| NamespaceContexts.AddAllBinding | src/main/java/com/adpetions/optimus/namespaces/TransformNamespaceContext.java:52-57 | after adding a map's entries, a prefix resolves to the value of the last entry naming it, and is unchanged if no entry names it |
| NamespaceContexts.CopyPreservesBindings | src/main/java/com/adpetions/optimus/namespaces/TransformNamespaceContext.java:73-78 | the copy constructor keeps the default URI and binds exactly the same prefixes to the same URIs |
| NamespaceContexts.TransformNamespaceContext.constructor | src/main/java/com/adpetions/optimus/namespaces/TransformNamespaceContext.java:22-24 | the no-argument constructor yields the initialized context (xml and xmlns bound) |
| NamespaceContexts.TransformNamespaceContext.WithNamespace | src/main/java/com/adpetions/optimus/namespaces/TransformNamespaceContext.java:32-35 | initialize, then addNamespace(prefix, uri) |
| NamespaceContexts.TransformNamespaceContext.WithDefaultNamespace | src/main/java/com/adpetions/optimus/namespaces/TransformNamespaceContext.java:42-45 | initialize, then set the default URI |
| NamespaceContexts.TransformNamespaceContext.WithNamespaces | src/main/java/com/adpetions/optimus/namespaces/TransformNamespaceContext.java:52-57 | initialize, then add each map entry in iteration order |
| NamespaceContexts.TransformNamespaceContext.WithDefaultAndNamespaces | src/main/java/com/adpetions/optimus/namespaces/TransformNamespaceContext.java:66-71 | as the map constructor; the default-URI argument is ignored, so the default URI stays null |
| NamespaceContexts.TransformNamespaceContext.CopyOf | src/main/java/com/adpetions/optimus/namespaces/TransformNamespaceContext.java:73-78 | copies the default URI and re-adds every binding of the inherited context, without the reserved prefixes being added first |
| NamespaceContexts.TransformNamespaceContext.InitializeNamespaces | src/main/java/com/adpetions/optimus/namespaces/TransformNamespaceContext.java:86-89 | adds the xml binding, then the xmlns binding |
| NamespaceContexts.TransformNamespaceContext.AddNamespace | src/main/java/com/adpetions/optimus/namespaces/TransformNamespaceContext.java:119-129 | the two maps change exactly as Add says |
| NamespaceContexts.TransformNamespaceContext.SetDefaultNamespaceURI | src/main/java/com/adpetions/optimus/namespaces/TransformNamespaceContext.java:95-97 | only the default URI changes |
| NamespaceContexts.TransformNamespaceContext.GetDefaultNamespaceURI | src/main/java/com/adpetions/optimus/namespaces/TransformNamespaceContext.java:103-105 | returns the default URI |
| NamespaceContexts.TransformNamespaceContext.GetNamespacePrefixes | src/main/java/com/adpetions/optimus/namespaces/TransformNamespaceContext.java:111-113 | returns a fresh map with exactly the bound prefixes and their URIs; the context is not changed |
| NamespaceContexts.TransformNamespaceContext.GetNamespaceURIFor | src/main/java/com/adpetions/optimus/namespaces/TransformNamespaceContext.java:137-146 | agrees with GetNamespaceURI on the context's state |
| NamespaceContexts.TransformNamespaceContext.GetPrefixFor | src/main/java/com/adpetions/optimus/namespaces/TransformNamespaceContext.java:152-161 | agrees with GetPrefix on the context's state |
| Nodes.PutAttribute | src/main/java/com/adpetions/optimus/nodes/AttributeMap.java:53-55 | put adds the attribute; a name already present keeps its position and takes the new attribute, a new name is appended |
| Nodes.PutAttributeKeepsKeysDistinct | src/main/java/com/adpetions/optimus/nodes/AttributeMap.java:53-55 | put never leaves two attributes with equal names in the map |
| Nodes.FindAttribute | src/main/java/com/adpetions/optimus/nodes/AttributeMap.java:48-50 | get returns an attribute stored under an equal name, and null exactly when no stored name is equal |
| Nodes.GetAttribute | src/main/java/com/adpetions/optimus/nodes/Element.java:55-57 | the element's attribute whose name equals the given QName (namespace and local part, prefix ignored), null exactly when there is none |
| Nodes.GetAttributeByLocalName | src/main/java/com/adpetions/optimus/nodes/Element.java:59-61 | the attribute with no namespace and the given local name, null exactly when there is none |
| Nodes.GetAttributeByName | src/main/java/com/adpetions/optimus/nodes/Element.java:63-65 | the attribute with the given namespace and local name, null exactly when there is none |
| Nodes.CollectTextMeaning | src/main/java/com/adpetions/optimus/nodes/Element.java:73-89 | the getText loop appends exactly the immediate Text and CDATA pieces, in order, and sets the flag exactly when there is one |
| Nodes.GetTextMeaning | src/main/java/com/adpetions/optimus/nodes/Element.java:73-89 | getText is null exactly when the element has no immediate Text or CDATA child, and otherwise their concatenation in order (a Text with null text contributes "null") |
| Nodes.CollectAllTextMeaning | src/main/java/com/adpetions/optimus/nodes/Element.java:96-119 | the getAllText loop appends every Text and CDATA piece below the nodes, depth first, and sets the flag exactly when there is one |
| Nodes.GetAllTextMeaningRec | src/main/java/com/adpetions/optimus/nodes/Element.java:96-119 | getAllText, recursing through child elements whose own result is null, equals the concatenation of all pieces below, or null when there are none |
| Nodes.GetAllTextMeaning | src/main/java/com/adpetions/optimus/nodes/Element.java:96-119 | getAllText is null exactly when no Text or CDATA lies anywhere below the element, and otherwise the depth-first concatenation |
| Nodes.GetAllTextOfFlatElement | src/main/java/com/adpetions/optimus/nodes/Element.java:73-119 | for an element without element children getAllText and getText agree |
| Nodes.AttrCalls | src/main/java/com/adpetions/optimus/nodes/AttributeMap.java:16-20 | writing an attribute map writes one attribute per entry, in map order, with its name and value |
| Nodes.PlainTreeWriteBalanced | src/main/java/com/adpetions/optimus/nodes/Element.java:30-36 | Element.write makes as many writeEndElement calls as writeStartElement calls, for any tree of whole elements |
| Nodes.PlainListWriteBalanced | src/main/java/com/adpetions/optimus/nodes/NodeCollection.java:21-25 | writing a collection of whole-element trees makes balanced start and end tag calls |
| Events.GetName | src/main/java/com/adpetions/optimus/ApplyReader.java:678-686 | getName succeeds exactly at a start or end tag and throws IllegalStateException elsewhere |
| Events.GetAttributes | src/main/java/com/adpetions/optimus/ApplyReader.java:414-434 | the attribute list is available exactly at a start tag, in reader order; elsewhere IllegalStateException |
| Events.GetAttributeCount | src/main/java/com/adpetions/optimus/ApplyReader.java:414-419 | the number of attributes of the start tag; IllegalStateException off a start tag |
| Events.GetAttribute | src/main/java/com/adpetions/optimus/ApplyReader.java:397-402 | the index-th attribute of the start tag; IllegalStateException off a start tag, IndexOutOfBoundsException exactly for an index outside the list |
| Events.GetAttributeValue | src/main/java/com/adpetions/optimus/ApplyReader.java:368-386 | off a start tag IllegalStateException; otherwise the value of the last attribute matching the local name (and the namespace when one is given), or null when none matches |
| Events.LastMatch | src/main/java/com/adpetions/optimus/ApplyReader.java:368-386 | the value of the last matching attribute, which is the one the reader's maps keep, or null exactly when none matches |
| Events.GetNamespaces | src/main/java/com/adpetions/optimus/ApplyReader.java:511-549 | the namespace declarations are available exactly at a start tag, in reader order |
| Events.GetNamespaceCount | src/main/java/com/adpetions/optimus/ApplyReader.java:511-516 | the number of declarations of the start tag; IllegalStateException elsewhere |
| Events.GetNamespace | src/main/java/com/adpetions/optimus/ApplyReader.java:528-549 | the index-th declaration (prefix and URI); IllegalStateException off a start tag, failure exactly for an index outside the list |
| Events.GetPITarget | src/main/java/com/adpetions/optimus/ApplyReader.java:731-738 | the target, exactly at a processing instruction |
| Events.GetPIData | src/main/java/com/adpetions/optimus/ApplyReader.java:746-753 | the data, exactly at a processing instruction |
| Events.GetText | src/main/java/com/adpetions/optimus/ApplyReader.java:643-656 | text is available exactly at character data, white space, CDATA, comments and entity references; IllegalStateException elsewhere |
| Handlers.InsertByPriorityKeeps | src/main/java/com/adpetions/optimus/EventHandlerList.java:19 | one insertion step of the priority sort adds exactly the inserted holder and loses none |
| Handlers.InsertByPriorityDescending | src/main/java/com/adpetions/optimus/EventHandlerList.java:19 | inserting a holder after every holder of equal or higher priority keeps a list in comparator order |
| Handlers.InsertByPriorityStable | src/main/java/com/adpetions/optimus/EventHandlerList.java:19 | the inserted holder goes after the holders of its own priority, whose order is kept |
| Handlers.PrioritySortedFacts | src/main/java/com/adpetions/optimus/EventHandlerList.java:19-37 | sorting with the priority comparator yields highest priority first, the same holders with the same multiplicities, and holders of equal priority in their original order (a stable sort) |
| Handlers.PrioritySortedIdempotent | src/main/java/com/adpetions/optimus/EventHandlerList.java:31-37 | sorting a list already in comparator order leaves it unchanged, so a second ensurePrioritySorted changes nothing |
| Handlers.Reversed | src/main/java/com/adpetions/optimus/EventHandlerList.java:39-49 | the stack holds the list backwards, so its top (last element) is the list's first holder |
| Handlers.EventHandlerList.constructor | src/main/java/com/adpetions/optimus/EventHandlerList.java:23-25 | an empty, unsorted list |
| Handlers.EventHandlerList.FromCollection | src/main/java/com/adpetions/optimus/EventHandlerList.java:27-29 | a list holding the collection, unsorted |
| Handlers.EventHandlerList.EnsurePrioritySorted | src/main/java/com/adpetions/optimus/EventHandlerList.java:31-37 | afterwards the list is flagged sorted, equals the stable priority sort of its old contents, is in descending priority and is a permutation of them |
| Handlers.EventHandlerList.ToStack | src/main/java/com/adpetions/optimus/EventHandlerList.java:39-49 | the list is sorted as by ensurePrioritySorted and the returned stack is the sorted list reversed, so pops come out highest priority first |
| Handlers.EventHandlerList.Add | src/main/java/com/adpetions/optimus/EventHandlerList.java:55-59 | appends the holder, clears the sorted flag and returns true |
| Handlers.EventHandlerList.AddAt | src/main/java/com/adpetions/optimus/EventHandlerList.java:61-65 | inserts at the index and clears the flag; an index outside 0..size fails with IndexOutOfBoundsException and changes nothing |
| Handlers.EventHandlerList.AddAll | src/main/java/com/adpetions/optimus/EventHandlerList.java:67-71 | appends the collection, clears the flag, and reports a change exactly when the collection is not empty |
| Handlers.EventHandlerList.AddAllAt | src/main/java/com/adpetions/optimus/EventHandlerList.java:73-77 | inserts the collection at the index; an index outside 0..size fails and changes nothing |
| Handlers.EventHandlerList.Remove | src/main/java/com/adpetions/optimus/EventHandlerList.java:79-83 | removes the first occurrence of the holder, reporting whether there was one; otherwise the list is unchanged |
| Handlers.EventHandlerList.RemoveAll | src/main/java/com/adpetions/optimus/EventHandlerList.java:85-89 | keeps, in order, exactly the holders not in the collection; reports a change exactly when something was removed |
| Handlers.EventHandlerList.RetainAll | src/main/java/com/adpetions/optimus/EventHandlerList.java:91-95 | keeps, in order, exactly the holders in the collection; reports a change exactly when something was removed |
| Handlers.EventHandlerList.Sort | src/main/java/com/adpetions/optimus/EventHandlerList.java:97-101 | whatever comparator is passed, the list becomes its priority sort and the flag is cleared |
| Handlers.EventHandlerList.Set | src/main/java/com/adpetions/optimus/EventHandlerList.java:103-107 | replaces the index-th holder and returns the old one; an index outside the list fails and changes nothing |
| Handlers.Filter | src/main/java/com/adpetions/optimus/EventHandlerList.java:85-95 | the result holds exactly the holders of the list that are (or are not) in the collection, never more of them |
| PathMaps.Pieces | src/main/java/com/adpetions/optimus/EventHandlerPathMap.java:114 | the split pieces are never fewer than one |
| PathMaps.PiecesJoin | src/main/java/com/adpetions/optimus/EventHandlerPathMap.java:114-128 | splitting on a separator and joining with it gives back the string; no piece holds the separator and every piece's characters come from the string |
| PathMaps.DropTrailingEmpty | src/main/java/com/adpetions/optimus/EventHandlerPathMap.java:128 | the result is the longest prefix of the pieces that does not end in an empty string; everything dropped is empty |
| PathMaps.JavaSplit | src/main/java/com/adpetions/optimus/EventHandlerPathMap.java:114-128 | String.split on one character: no piece holds the separator, pieces use only characters of the string, and a string without the separator is its own single piece |
| PathMaps.RemoveSpaces | src/main/java/com/adpetions/optimus/EventHandlerPathMap.java:126 | the result has no space and holds exactly the other characters of the input |
| PathMaps.SettingsFor | src/main/java/com/adpetions/optimus/EventHandlerPathMap.java:49-86 | only element maps have no sigil; the wildcard is "*" for elements and the sigil followed by "*" otherwise; text and comment maps, and only they, give a bare "*" a special name |
| PathMaps.ResolveSegment | src/main/java/com/adpetions/optimus/EventHandlerPathMap.java:132-160 | an empty first segment is the root "/", an empty later segment is a BadMatchPathException, no slash enters a resolved name, and an unprefixed name other than a final bare "*" keeps its local part |
| PathMaps.ResolveDownReverses | src/main/java/com/adpetions/optimus/EventHandlerPathMap.java:131-163 | the resolved path lists the segments from last to first, one name per segment |
| PathMaps.InnerSegmentsNonEmpty | src/main/java/com/adpetions/optimus/EventHandlerPathMap.java:131-163 | a successful resolution implies no empty segment after the first |
| PathMaps.RootAnchorIff | src/main/java/com/adpetions/optimus/EventHandlerPathMap.java:153-155 | a resolved alternative ends at the root name exactly when the written expression starts with "/" |
| PathMaps.EmptyInnerSegmentFails | src/main/java/com/adpetions/optimus/EventHandlerPathMap.java:156-159 | an expression with an empty segment after the first ("a//b") is rejected |
| PathMaps.InsertNoLists | src/main/java/com/adpetions/optimus/EventHandlerPathMap.java:177-207 | mapHandler never creates a holder list, and a second holder at a resolved path that already holds one fails with BadMatchPathException (the list branches are unreachable as written) |
| PathMaps.MatchEmpty | src/main/java/com/adpetions/optimus/EventHandlerPathMap.java:240-288 | an empty map finds nothing |
| PathMaps.InsertThenMatch | src/main/java/com/adpetions/optimus/EventHandlerPathMap.java:177-288 | after mapHandler, lookup from any path entry finds what it found before plus the holder exactly when the resolved path matches the live path there |
| PathMaps.VisitInserted | src/main/java/com/adpetions/optimus/EventHandlerPathMap.java:177-207 | at the level of the inserted key, lookup gains the holder exactly where the rest of the resolved path matches |
| PathMaps.MatchUpdate | src/main/java/com/adpetions/optimus/EventHandlerPathMap.java:240-288 | replacing one level changes the lookup only by what that level adds where its key matches the path entry |
| PathMaps.RegisterThenMatch | src/main/java/com/adpetions/optimus/EventHandlerPathMap.java:111-288 | after add(holder) succeeds, lookup finds the new holder at exactly the paths one of its alternatives matches, and everything it found before |
| PathMaps.SomeAlternativeSplit | src/main/java/com/adpetions/optimus/EventHandlerPathMap.java:114-125 | an expression with alternatives matches exactly when its first alternative resolves and matches or one of the others does |
| PathMaps.AnchoredMatchesExactLength | src/main/java/com/adpetions/optimus/EventHandlerPathMap.java:240-256 | an expression anchored at the root matches only a path exactly as deep as it is written, since the root is matched only exactly and only at the top |
| PathMaps.MatchSurvivesAncestors | src/main/java/com/adpetions/optimus/EventHandlerPathMap.java:240-288 | a match found for a path is still found when more ancestors are placed above it |
| PathMaps.PayloadSeq | src/main/java/com/adpetions/optimus/EventHandlerPathMap.java:246-251 | a level contributes exactly its mapped holders |
| PathMaps.AddNew | src/main/java/com/adpetions/optimus/EventHandlerPathMap.java:223 | adding to the HashSet keeps what was there in front, adds exactly the new holders, and never repeats a holder |
| PathMaps.GatherIsMatch | src/main/java/com/adpetions/optimus/EventHandlerPathMap.java:240-288 | the walk in discovery order finds exactly the holders the lookup relation describes, each once |
| PathMaps.GatherAtIsVisit | src/main/java/com/adpetions/optimus/EventHandlerPathMap.java:244-256 | the walk at one key finds exactly that level's holders and those of its matching ancestors, each once |
| PathMaps.LookupFacts | src/main/java/com/adpetions/optimus/EventHandlerPathMap.java:215-231 | getHolders returns every matching holder exactly once, highest priority first |
| PathMaps.EventHandlerPathMap.constructor | src/main/java/com/adpetions/optimus/EventHandlerPathMap.java:49-86 | keeps the node type and the shared namespace context, chooses the settings of the node type, and starts with an empty trie |
| PathMaps.EventHandlerPathMap.Context | src/main/java/com/adpetions/optimus/EventHandlerPathMap.java:124 | reads the shared namespace context's current bindings and default URI |
| PathMaps.RegisterPartial | src/main/java/com/adpetions/optimus/EventHandlerPathMap.java:111-167 | the trie add leaves behind: the alternatives before the first failing one stay mapped, and on success it is Register's trie |
| PathMaps.EventHandlerPathMap.Add | src/main/java/com/adpetions/optimus/EventHandlerPathMap.java:111-167 | succeeds exactly when every alternative resolves and maps, and then the trie is Register of the old one; a failure carries Register's exception and leaves the alternatives before the failing one mapped (RegisterPartial); the namespace context is unchanged |
| PathMaps.EventHandlerPathMap.GetHolders | src/main/java/com/adpetions/optimus/EventHandlerPathMap.java:215-231 | a fresh sorted list whose holders are the lookup of the path in the trie |
| PathMaps.ResolveAlternativeLoop | src/main/java/com/adpetions/optimus/EventHandlerPathMap.java:126-163 | the segment loop, from the last segment down to the first, computes the resolved alternative or the same exception |
| PathMaps.CollectHolders | src/main/java/com/adpetions/optimus/EventHandlerPathMap.java:240-288 | the recursive collection adds to the found holders exactly what the discovery-order walk adds |
| PathMaps.CollectAt | src/main/java/com/adpetions/optimus/EventHandlerPathMap.java:244-286 | one key's holders and its ancestors, added as the discovery-order walk adds them |
| SimpleWriters.BufferIndex | src/main/java/com/adpetions/optimus/writers/TransformSimpleWriter.java:161-163 | the LinkedHashMap lookup: the first position holding an equal name, or the length when no entry has that name |
| SimpleWriters.BufferPutLastWriteWins | src/main/java/com/adpetions/optimus/writers/TransformSimpleWriter.java:161-163 | after put the buffer maps the name to the new value, every other name keeps its value, no entry moves, names stay distinct, and it grows by one exactly for a new name |
| SimpleWriters.AttributeCalls | src/main/java/com/adpetions/optimus/writers/TransformSimpleWriter.java:165-171 | writeBufferedAttributes writes one attribute per buffered entry, in insertion order, with that entry's name and value |
| SimpleWriters.PrefixDeclarationsExact | src/main/java/com/adpetions/optimus/writers/TransformSimpleWriter.java:139-145 | the declarations written for the root are exactly the bound prefixes whose URI is neither the xml nor the xmlns namespace, each with its own URI |
| SimpleWriters.PrefixDeclarationsStep | src/main/java/com/adpetions/optimus/writers/TransformSimpleWriter.java:140-145 | one turn of the prefix loop writes the entry's declaration exactly when its URI is not reserved |
| SimpleWriters.EndTags | src/main/java/com/adpetions/optimus/writers/TransformSimpleWriter.java:186-188 | the end-tag loop writes max(n, 0) end tags and nothing else |
| SimpleWriters.NodesCalls | src/main/java/com/adpetions/optimus/writers/TransformSimpleWriter.java:708-715 | write(nodes...) skips null nodes and lets every other node write itself, in order |
| SimpleWriters.XmlString | src/main/java/com/adpetions/optimus/writers/TransformSimpleWriter.java:182-193 | fails with XMLStreamException exactly when the writer is not writing to a string; otherwise ends every open element, flushes and closes, and returns the whole output with the counter at zero |
| SimpleWriters.FlushBeforeContent | src/main/java/com/adpetions/optimus/writers/TransformSimpleWriter.java:205-590 | an unfolding step of the call dispatch: every call except the attribute, namespace, DTD, start-document and setter calls first emits the buffered attributes and leaves the buffer empty; those calls leave the buffer alone or add to it |
| SimpleWriters.OpenCounter | src/main/java/com/adpetions/optimus/writers/TransformSimpleWriter.java:205-324 | until close, the open-element counter moves up by one per start tag and down by one per end tag, and by nothing else |
| SimpleWriters.PerformOpen | src/main/java/com/adpetions/optimus/writers/TransformSimpleWriter.java:205-324 | an unfolding step used by OpenCounter: one call other than close moves the counter by its start or end tag only |
| SimpleWriters.WritePlainNodeKeepsOpenCount | src/main/java/com/adpetions/optimus/nodes/Element.java:30-36 | writing a whole element tree through the writer leaves the open-element counter where it was |
| SimpleWriters.EndTagsCount | src/main/java/com/adpetions/optimus/writers/TransformSimpleWriter.java:332-334 | the end-tag loop writes no start tag and exactly as many end tags as there are open elements |
| SimpleWriters.FlushedLogCounts | src/main/java/com/adpetions/optimus/writers/TransformSimpleWriter.java:165-171 | emitting the buffered attributes adds no start or end tag |
| SimpleWriters.EndDocumentBalances | src/main/java/com/adpetions/optimus/writers/TransformSimpleWriter.java:330-337 | writeEndDocument ends every element left open, so the output's start and end tags balance; the counter itself is not reset |
| SimpleWriters.CloseBalances | src/main/java/com/adpetions/optimus/writers/TransformSimpleWriter.java:344-352 | close ends every open element, resets the counter to zero and leaves a balanced output |
| SimpleWriters.EndTagsBalance | src/main/java/com/adpetions/optimus/writers/TransformSimpleWriter.java:344-352 | as many end tags as unmatched start tags, followed by untagged calls, balance the output |
| SimpleWriters.PerformKeepsOpenMatchesLog | src/main/java/com/adpetions/optimus/writers/TransformSimpleWriter.java:205-590 | every call other than writeEndDocument and close keeps the counter equal to the number of unmatched start tags written |
| SimpleWriters.StartKeepsOpenMatchesLog | src/main/java/com/adpetions/optimus/writers/TransformSimpleWriter.java:205-258 | a start tag adds one written start tag and one to the counter |
| SimpleWriters.EndKeepsOpenMatchesLog | src/main/java/com/adpetions/optimus/writers/TransformSimpleWriter.java:319-324 | an end tag adds one written end tag and takes one from the counter |
| SimpleWriters.UntaggedKeepsOpenMatchesLog | src/main/java/com/adpetions/optimus/writers/TransformSimpleWriter.java:439-590 | content, namespace and other calls write no tag and leave the counter alone |
| SimpleWriters.RootNamespacesOnlyAtFirstStart | src/main/java/com/adpetions/optimus/writers/TransformSimpleWriter.java:133-147 | an unfolding step of writeStartElement: the root namespace declarations follow a start tag exactly when no element was open before it |
| SimpleWriters.PerformAllAppend | src/main/java/com/adpetions/optimus/writers/TransformSimpleWriter.java:708-715 | performing two runs of calls one after the other is performing their concatenation |
| SimpleWriters.TransformSimpleWriter.ForString | src/main/java/com/adpetions/optimus/writers/TransformSimpleWriter.java:51-70 | a string writer with an empty output, an empty buffer, no open elements and the given namespace context |
| SimpleWriters.TransformSimpleWriter.ForOutput | src/main/java/com/adpetions/optimus/writers/TransformSimpleWriter.java:76-119 | the same for a writer or stream target, which is not a string writer |
| SimpleWriters.TransformSimpleWriter.WriteBufferedAttributes | src/main/java/com/adpetions/optimus/writers/TransformSimpleWriter.java:165-171 | the buffered attributes are written in order and the buffer is cleared |
| SimpleWriters.TransformSimpleWriter.WriteRootNamespaces | src/main/java/com/adpetions/optimus/writers/TransformSimpleWriter.java:133-147 | when no element is open: the default namespace if any, then every non-reserved prefix binding; otherwise nothing |
| SimpleWriters.TransformSimpleWriter.WriteOpenEndTags | src/main/java/com/adpetions/optimus/writers/TransformSimpleWriter.java:186-188 | one end tag per open element, the counter untouched |
| SimpleWriters.TransformSimpleWriter.WriteStartElement | src/main/java/com/adpetions/optimus/writers/TransformSimpleWriter.java:205-258 | buffered attributes, the start tag, the root namespaces at the first start tag, and the counter up by one |
| SimpleWriters.TransformSimpleWriter.WriteEndElement | src/main/java/com/adpetions/optimus/writers/TransformSimpleWriter.java:319-324 | buffered attributes, the end tag, and the counter down by one |
| SimpleWriters.TransformSimpleWriter.WriteEndDocument | src/main/java/com/adpetions/optimus/writers/TransformSimpleWriter.java:330-337 | buffered attributes, an end tag per open element, then writeEndDocument; the counter is not reset |
| SimpleWriters.TransformSimpleWriter.Close | src/main/java/com/adpetions/optimus/writers/TransformSimpleWriter.java:344-352 | buffered attributes, an end tag per open element, the counter reset, then flush and close |
| SimpleWriters.TransformSimpleWriter.WriteAttribute | src/main/java/com/adpetions/optimus/writers/TransformSimpleWriter.java:372-427 | nothing is written; the buffer takes the attribute, a repeated name keeping its place and taking the new value |
| SimpleWriters.TransformSimpleWriter.Call | src/main/java/com/adpetions/optimus/writers/TransformSimpleWriter.java:358-631 | namespace, DTD, start-document and setter calls pass through unbuffered; comments, PIs, CDATA, entity references, characters, empty elements and flush emit the buffer first |
| SimpleWriters.TransformSimpleWriter.WriteNode | src/main/java/com/adpetions/optimus/writers/TransformSimpleWriter.java:708-715 | writing a node has the effect of performing exactly the calls its write method makes |
| SimpleWriters.TransformSimpleWriter.WriteList | src/main/java/com/adpetions/optimus/nodes/NodeCollection.java:21-25 | writing a node collection performs each node's calls in order |
| SimpleWriters.TransformSimpleWriter.WriteAttributes | src/main/java/com/adpetions/optimus/nodes/AttributeMap.java:16-20 | writing an attribute map buffers each attribute in iteration order |
| SimpleWriters.TransformSimpleWriter.Write | src/main/java/com/adpetions/optimus/writers/TransformSimpleWriter.java:708-715 | write(nodes...) performs the calls of each non-null node in order and skips nulls |
| SimpleWriters.TransformSimpleWriter.GetXmlString | src/main/java/com/adpetions/optimus/writers/TransformSimpleWriter.java:182-193 | as XmlString: an XMLStreamException and no change for a non-string writer; otherwise end tags, flush and close, and the whole output returned |
| ApplyReaders.AttrNodes | src/main/java/com/adpetions/optimus/ApplyReader.java:127 | an element's attributes become one attribute entry each, in order |
| ApplyReaders.FlattenNode | src/main/java/com/adpetions/optimus/ApplyReader.java:76-141 | an attribute, namespace or attribute map fails exactly outside a start tag, an end marker fails exactly when no start marker is pending, and every failure is an XMLStreamException |
| ApplyReaders.FlattenNodes | src/main/java/com/adpetions/optimus/ApplyReader.java:75-143 | addNodes stops at the first failing node with an XMLStreamException |
| ApplyReaders.OpenOutcomes | src/main/java/com/adpetions/optimus/ApplyReader.java:54-73 | the constructor's three outcomes: an exception from addNodes is rethrown, a depth other than zero is an XMLStreamException, and otherwise the reader stands before the first of the flattened nodes, all of them flat |
| ApplyReaders.BalanceAppend | src/main/java/com/adpetions/optimus/ApplyReader.java:75-143 | the start-minus-end balance of concatenated nodes is the sum of their balances |
| ApplyReaders.AttrNodesBalance | src/main/java/com/adpetions/optimus/ApplyReader.java:127 | attribute entries open and close nothing |
| ApplyReaders.NeverNegativeAppendAttrs | src/main/java/com/adpetions/optimus/ApplyReader.java:127 | appending an element's attribute entries keeps every prefix from closing more than it opened |
| ApplyReaders.FlattenElementFacts | src/main/java/com/adpetions/optimus/ApplyReader.java:121-132 | expanding a whole Element keeps the flattening invariant, only extends what was emitted, and opens and closes its own element |
| ApplyReaders.OpenElementFacts | src/main/java/com/adpetions/optimus/ApplyReader.java:124-127 | the start marker and attributes of a whole Element open one element and keep the invariant |
| ApplyReaders.CloseElementFacts | src/main/java/com/adpetions/optimus/ApplyReader.java:130-131 | the end marker of a whole Element closes the element it opened and keeps the invariant |
| ApplyReaders.FlattenNodeFacts | src/main/java/com/adpetions/optimus/ApplyReader.java:76-141 | each node of addNodes keeps the invariant (depth equals the balance emitted, no prefix closes more than it opened, the output is flat) and extends the output |
| ApplyReaders.FlattenNodesFacts | src/main/java/com/adpetions/optimus/ApplyReader.java:75-143 | the whole addNodes loop keeps that invariant and only extends the output |
| ApplyReaders.FlattenFacts | src/main/java/com/adpetions/optimus/ApplyReader.java:54-143 | a successful flattening is flat, never closes an element it has not opened, its depth is its balance, and the depth is zero exactly when no start marker is pending |
| ApplyReaders.Open | src/main/java/com/adpetions/optimus/ApplyReader.java:54-73 | a reader that opens stands before the first node, over a flattening that is balanced and never closes more than it opened |
| ApplyReaders.Advance | src/main/java/com/adpetions/optimus/ApplyReader.java:196-273 | next() throws NoSuchElementException exactly when hasNext() is false; otherwise it moves forward over the same nodes onto an event |
| ApplyReaders.GetNamespaceURIFor | src/main/java/com/adpetions/optimus/ApplyReader.java:568-574 | away from an end tag, getNamespaceURI(prefix) answers from the context in scope; a null prefix fails |
| ApplyReaders.GetLocalNameAsWritten | src/main/java/com/adpetions/optimus/ApplyReader.java:700-708 | succeeds exactly at start and end tags, with the name's local part |
| ApplyReaders.GetLocalName | src/main/java/com/adpetions/optimus/ApplyReader.java:700-708 | agrees with the code at start and end tags and also gives the entity name at an entity reference, as the transformer's callers expect |
| ApplyReaders.EntityNameCounterexample | src/main/java/com/adpetions/optimus/ApplyReader.java:700-708 | for any entity name, a reader over one EntityRef node opens and moves onto it; getLocalName as written throws there, and the corrected one gives the entity's name |
| ApplyReaders.LookaheadStep | src/main/java/com/adpetions/optimus/ApplyReader.java:216-239 | an unfolding step used by LookaheadRun: an attribute or namespace entry is taken into the group and the lookahead goes on |
| ApplyReaders.LookaheadStop | src/main/java/com/adpetions/optimus/ApplyReader.java:236-237 | an unfolding step used by LookaheadRun: any other node, or the end of the nodes, stops the lookahead |
| ApplyReaders.RunEnd | src/main/java/com/adpetions/optimus/ApplyReader.java:216-239 | the end of the longest run of attribute and namespace entries from a position |
| ApplyReaders.LookaheadRun | src/main/java/com/adpetions/optimus/ApplyReader.java:214-240 | the lookahead collects exactly the attributes and declarations of the run after the start marker, in order, and counts every entry of it |
| ApplyReaders.NextAtStart | src/main/java/com/adpetions/optimus/ApplyReader.java:204-241 | at a start marker next() reports the start tag with the run's attributes and declarations, skips to the run's last entry, saves the context in scope and makes the new one the end tag's context; getAttributeCount is the number of attributes skipped |
| ApplyReaders.PrefixedDeclarationSetsDefault | src/main/java/com/adpetions/optimus/ApplyReader.java:229-230 | as written, a declaration with a non-empty prefix replaces the default namespace and binds no prefix |
| ApplyReaders.UnprefixedDeclarationBindsPrefix | src/main/java/com/adpetions/optimus/ApplyReader.java:231-232 | as written, a declaration without a prefix is bound as that prefix and the default namespace is kept |
| ApplyReaders.OpenSatisfiesInvariant | src/main/java/com/adpetions/optimus/ApplyReader.java:54-73 | a new reader holds one saved context, matching no open element |
| ApplyReaders.NextKeepsInvariant | src/main/java/com/adpetions/optimus/ApplyReader.java:211-245 | over a balanced flattening next() never pops an empty context stack, and the saved contexts stay one more than the open elements |
| ApplyReaders.ApplyReader.Empty | src/main/java/com/adpetions/optimus/ApplyReader.java:55-64 | the fields as the constructor sets them before flattening |
| ApplyReaders.ApplyReader.New | src/main/java/com/adpetions/optimus/ApplyReader.java:54-73 | the constructor succeeds exactly when Open does, and the reader's fields then hold Open's cursor; otherwise the same exception |
| ApplyReaders.ApplyReader.AddNodes | src/main/java/com/adpetions/optimus/ApplyReader.java:75-143 | the loop changes the flattening fields exactly as FlattenNodes, failing exactly when it fails |
| ApplyReaders.ApplyReader.AddNode | src/main/java/com/adpetions/optimus/ApplyReader.java:77-141 | the switch for one node changes the flattening fields exactly as FlattenNode |
| ApplyReaders.ApplyReader.AddElement | src/main/java/com/adpetions/optimus/ApplyReader.java:121-132 | expanding a whole element changes the flattening fields exactly as FlattenNode does for it, failing exactly when its namespaces or children fail |
| ApplyReaders.ApplyReader.AddAttributes | src/main/java/com/adpetions/optimus/ApplyReader.java:127 | the attribute values are appended as attribute nodes, in order, and nothing else changes |
| ApplyReaders.ApplyReader.StandBeforeFirst | src/main/java/com/adpetions/optimus/ApplyReader.java:69-71 | after flattening, the reader holds the flattened nodes at position -1 with no current event |
| ApplyReaders.ApplyReader.HasNext | src/main/java/com/adpetions/optimus/ApplyReader.java:155-157 | true exactly when a node follows the position |
| ApplyReaders.ApplyReader.Next | src/main/java/com/adpetions/optimus/ApplyReader.java:196-273 | the fields move exactly as Advance moves the cursor, and the new event is returned; the same exception otherwise |
| ApplyReaders.ApplyReader.ReadStartTag | src/main/java/com/adpetions/optimus/ApplyReader.java:204-241 | saves the context in scope, takes a copy as the current and end-tag context, and moves past the looked-ahead entries, reporting the start tag with what they hold |
| Readers.Next | src/main/java/com/adpetions/optimus/ApplyReader.java:155-200 | next() throws NoSuchElementException exactly when hasNext() is false; otherwise the reader moves strictly forward onto an event and stays the same kind of reader |
| Readers.GetLocalName | src/main/java/com/adpetions/optimus/ApplyReader.java:700-708 | the local name at a start or end tag and the entity name at an entity reference; nothing elsewhere |
| Readers.NamespaceOf | src/main/java/com/adpetions/optimus/TransformContext.java:978-986 | a declaration read into a Namespace node keeps its URI and is a default declaration exactly when its prefix is missing or empty |
| Readers.NamespacesRead | src/main/java/com/adpetions/optimus/TransformContext.java:978-986 | one Namespace node per declaration, in reader order |
| Readers.ReadElement | src/main/java/com/adpetions/optimus/TransformContext.java:968-1023 | off a start tag IllegalStateException; otherwise an element named as the start tag, the reader left no earlier than it was and of the same kind |
| Readers.ReadChildren | src/main/java/com/adpetions/optimus/TransformContext.java:988-1022 | the child loop only adds to what it has collected and never moves the reader backwards |
| ContextStates.Initial | src/main/java/com/adpetions/optimus/TransformContext.java:70-92 | a new context has an empty path, one false on each skip stack, "" as the default namespace, an attribute snapshot stack only when tracking, and no skipping, cancelling or read element |
| ContextStates.PathPushed | src/main/java/com/adpetions/optimus/TransformContext.java:261-276 | pushPath adds the name to the path and a fresh indexer, counts the name in its parent's indexer, snapshots the attributes when tracking, and keeps the paired stacks paired |
| ContextStates.PathPopped | src/main/java/com/adpetions/optimus/TransformContext.java:292-298 | popPath succeeds exactly when the stacks it pops are non-empty, drops the last path entry, and otherwise throws EmptyStackException |
| ContextStates.FirstDefault | src/main/java/com/adpetions/optimus/TransformContext.java:204-213 | the URI of the first declaration without a prefix, and none exactly when every declaration has a prefix |
| ContextStates.ElementPushed | src/main/java/com/adpetions/optimus/TransformContext.java:176-221 | pushPathElement pushes the name, saves the skipping state, starts the element unskipped, and pushes the element's own default namespace or else the inherited one, which is also handed to the writer |
| ContextStates.ElementPopped | src/main/java/com/adpetions/optimus/TransformContext.java:284-290 | popPathElement pops the path, restores the saved skipping state, and hands the popped default namespace to the writer; any empty stack throws |
| ContextStates.DocumentPopped | src/main/java/com/adpetions/optimus/TransformContext.java:278-282 | a nested transform keeps the document entry; otherwise popPath |
| ContextStates.ElementSkipped | src/main/java/com/adpetions/optimus/TransformContext.java:302-305 | skipThisElement sets the top of the skipped stack and changes nothing else; an empty stack throws |
| ContextStates.SkippingThisElement | src/main/java/com/adpetions/optimus/TransformContext.java:307-309 | the top of the skipped stack |
| ContextStates.AncestorIndexOf | src/main/java/com/adpetions/optimus/TransformContext.java:422-427 | for levels 0 to depth-2 the 1-based position of the ancestor among its parent's same-named children; other levels fail |
| ContextStates.AncestorNameOf | src/main/java/com/adpetions/optimus/TransformContext.java:511-514 | level 0 is the current node, level k the k-th ancestor; a level outside the path throws |
| ContextStates.AncestorAttributeValueOf | src/main/java/com/adpetions/optimus/TransformContext.java:573-592 | IllegalStateException unless attributes are tracked; otherwise the value of the named attribute in the ancestor's snapshot, null when absent, and a failure for a level outside the path |
| ContextStates.InitializeForEvent | src/main/java/com/adpetions/optimus/TransformContext.java:104-168 | the event type and index are recorded, the overrides cleared, one path entry pushed, the stacks kept paired, and only a start tag hands a default namespace to the writer |
| ContextStates.EventPushed | src/main/java/com/adpetions/optimus/TransformContext.java:116-167 | every case of the switch keeps the recorded event and the stack invariants |
| ContextStates.StartTagPushed | src/main/java/com/adpetions/optimus/TransformContext.java:120-128 | at a start tag the element is pushed and its name becomes the override name |
| ContextStates.AttributePushed | src/main/java/com/adpetions/optimus/TransformContext.java:129-138 | the index-th attribute's path name is pushed; its name and value become the overrides |
| ContextStates.NamespacePushed | src/main/java/com/adpetions/optimus/TransformContext.java:139-143 | the index-th declaration's path name is pushed; its prefix and URI become the overrides |
| ContextStates.InstructionPushed | src/main/java/com/adpetions/optimus/TransformContext.java:144-148 | "?target" is pushed exactly at a processing instruction; target and data become the overrides |
| ContextStates.ReaderTextPushed | src/main/java/com/adpetions/optimus/TransformContext.java:149-158 | at a comment "!comment()", at characters, white space and CDATA "#text()" is pushed; the reader's text becomes the override text, and it fails exactly when getText does |
| ContextStates.EntityPushed | src/main/java/com/adpetions/optimus/TransformContext.java:159-166 | "#text()" is pushed; the override text is the resolver's text for the entity name when a resolver is set, else "&name;"; it fails exactly when getLocalName does |
| ContextStates.NameAt | src/main/java/com/adpetions/optimus/TransformContext.java:381-386 | the attribute's name at an attribute event, the reader's name otherwise |
| ContextStates.AttributeValueAt | src/main/java/com/adpetions/optimus/TransformContext.java:623-628 | IllegalStateException away from an attribute event; otherwise the index-th attribute's value |
| ContextStates.ReadElementAt | src/main/java/com/adpetions/optimus/TransformContext.java:958-966 | IllegalStateException off a start tag or while applying; otherwise the element is marked read and read as readElementAndChildren reads it |
| ContextStates.PushPopRestores | src/main/java/com/adpetions/optimus/TransformContext.java:261-298 | pushPath then popPath leaves the path and snapshots as they were, with the parent having counted the name once more |
| ContextStates.ElementPushPopRestores | src/main/java/com/adpetions/optimus/TransformContext.java:176-290 | pushPathElement then popPathElement restores the skipping state, both skip stacks, the default-namespace stack and the path, whatever handlers did in between |
| ContextStates.Siblings | src/main/java/com/adpetions/optimus/TransformContext.java:261-298 | visiting children changes only the indexer of the current node |
| ContextStates.SiblingIndex | src/main/java/com/adpetions/optimus/TransformContext.java:410-427 | the next child named q has index one more than the number of earlier siblings with q's name |
| ContextStates.PushedTopIndex | src/main/java/com/adpetions/optimus/TransformContext.java:261-276 | a child pushed under the current node has index one more than its name's count there |
| ContextStates.TransformContext.constructor | src/main/java/com/adpetions/optimus/TransformContext.java:70-92 | the fields hold the initial state |
| ContextStates.TransformContext.PushPath | src/main/java/com/adpetions/optimus/TransformContext.java:261-276 | the fields change exactly as PathPushed says |
| ContextStates.TransformContext.PopPath | src/main/java/com/adpetions/optimus/TransformContext.java:292-298 | exactly as PathPopped, failing exactly when it fails |
| ContextStates.TransformContext.PushPathDocument | src/main/java/com/adpetions/optimus/TransformContext.java:172-174 | pushes the root name "/" without attributes |
| ContextStates.TransformContext.PushPathAttribute | src/main/java/com/adpetions/optimus/TransformContext.java:223-232 | pushes the attribute's name with "@" before its local part |
| ContextStates.TransformContext.PushPathNamespace | src/main/java/com/adpetions/optimus/TransformContext.java:234-243 | pushes "@prefix" in the XML namespace, or "@" for a default declaration |
| ContextStates.TransformContext.PushPathText | src/main/java/com/adpetions/optimus/TransformContext.java:245-247 | pushes "#text()" |
| ContextStates.TransformContext.PushPathComment | src/main/java/com/adpetions/optimus/TransformContext.java:249-251 | pushes "!comment()" |
| ContextStates.TransformContext.PushPathProcessingInstruction | src/main/java/com/adpetions/optimus/TransformContext.java:253-255 | pushes "?target" |
| ContextStates.TransformContext.PushPathElement | src/main/java/com/adpetions/optimus/TransformContext.java:176-221 | the fields change as ElementPushed says, and its default namespace is returned |
| ContextStates.TransformContext.AttributeMap | src/main/java/com/adpetions/optimus/TransformContext.java:184-199 | the attribute loop puts each attribute into a fresh map in reader order |
| ContextStates.TransformContext.DefaultDeclaration | src/main/java/com/adpetions/optimus/TransformContext.java:204-213 | the declaration loop returns the URI of the first declaration without a prefix |
| ContextStates.TransformContext.PopPathElement | src/main/java/com/adpetions/optimus/TransformContext.java:284-290 | exactly as ElementPopped, returning the popped default namespace |
| ContextStates.TransformContext.PopPathDocument | src/main/java/com/adpetions/optimus/TransformContext.java:278-282 | exactly as DocumentPopped |
| ContextStates.TransformContext.SkipThisElement | src/main/java/com/adpetions/optimus/TransformContext.java:302-305 | exactly as ElementSkipped |
| ContextStates.TransformContext.IsSkippingThisElement | src/main/java/com/adpetions/optimus/TransformContext.java:307-309 | exactly SkippingThisElement, changing nothing |
| ContextStates.TransformContext.CancelNext | src/main/java/com/adpetions/optimus/TransformContext.java:328-330 | sets cancelBubble and nothing else |
| ContextStates.TransformContext.GetAncestorIndex | src/main/java/com/adpetions/optimus/TransformContext.java:422-427 | exactly AncestorIndexOf |
| ContextStates.TransformContext.GetAncestorName | src/main/java/com/adpetions/optimus/TransformContext.java:511-514 | exactly AncestorNameOf |
| ContextStates.TransformContext.HasAncestor | src/main/java/com/adpetions/optimus/TransformContext.java:522-531 | the scan from the root finds the name exactly when some path entry equals it |
| ContextStates.TransformContext.GetAncestorAttributeValue | src/main/java/com/adpetions/optimus/TransformContext.java:573-592 | exactly AncestorAttributeValueOf |
| ContextStates.TransformContext.InitializeForEventHandler | src/main/java/com/adpetions/optimus/TransformContext.java:104-168 | the fields change exactly as InitializeForEvent says |
| ContextStates.TransformContext.PushForEvent | src/main/java/com/adpetions/optimus/TransformContext.java:116-167 | the switch changes the fields exactly as EventPushed says |
| ContextStates.TransformContext.InitializeStartElement | src/main/java/com/adpetions/optimus/TransformContext.java:120-128 | exactly as StartTagPushed |
| ContextStates.TransformContext.InitializeAttribute | src/main/java/com/adpetions/optimus/TransformContext.java:129-138 | exactly as AttributePushed |
| ContextStates.TransformContext.InitializeNamespace | src/main/java/com/adpetions/optimus/TransformContext.java:139-143 | exactly as NamespacePushed |
| ContextStates.TransformContext.InitializeInstruction | src/main/java/com/adpetions/optimus/TransformContext.java:144-148 | exactly as InstructionPushed |
| ContextStates.TransformContext.InitializeComment | src/main/java/com/adpetions/optimus/TransformContext.java:149-152 | exactly as ReaderTextPushed with "!comment()" |
| ContextStates.TransformContext.InitializeText | src/main/java/com/adpetions/optimus/TransformContext.java:153-158 | exactly as ReaderTextPushed with "#text()" |
| ContextStates.TransformContext.InitializeEntityReference | src/main/java/com/adpetions/optimus/TransformContext.java:159-166 | exactly as EntityPushed |
| ContextStates.TransformContext.ReadElement | src/main/java/com/adpetions/optimus/TransformContext.java:958-966 | exactly as ReadElementAt |
| ContextStates.TransformContext.ReadElementAndChildren | src/main/java/com/adpetions/optimus/TransformContext.java:968-1023 | the recursive method reads what the ReadElement function reads and leaves the reader where it does |
| ContextStates.TransformContext.ReadChildNodes | src/main/java/com/adpetions/optimus/TransformContext.java:988-1022 | the child loop computes what ReadChildren computes |
| Dispatch.Initialize | src/main/java/com/adpetions/optimus/TransformContext.java:104-168 | the engine's initialisation succeeds exactly when the context's initializeForEventHandler does, takes its new context, and leaves reader, quit flag, cargo and stacks as they were |
| Dispatch.PopPath | src/main/java/com/adpetions/optimus/TransformContext.java:292-298 | popPath fails exactly when the context's pop fails; otherwise only the context changes, to the popped one |
| Dispatch.PopElement | src/main/java/com/adpetions/optimus/TransformContext.java:284-290 | popPathElement fails exactly when the element pop fails; otherwise the context is the popped one and the writer receives the popped scope's default namespace |
| Dispatch.Required | src/main/java/com/adpetions/optimus/Transformer.java:346 | a missing override where the writer needs a value is a NullPointerException; a present one is passed through |
| Dispatch.Merge | src/main/java/com/adpetions/optimus/TransformContext.java:320 | a null or CONTINUE state from a handler leaves the chain's result unchanged; any other state replaces it |
| Dispatch.SourceNodes | src/test/java/com/adpetions/optimus/TransformerBasicsTest.java:133-190 | a literal collection is applied as given; the read element, its children or its text children need an element read before, else NullPointerException |
| Dispatch.TextChildren | src/test/java/com/adpetions/optimus/TransformerBasicsTest.java:182-187 | the collection keeps every TEXT child and nothing but TEXT children of the element |
| Dispatch.CallAll | src/main/java/com/adpetions/optimus/EventHandlerList.java:39-53 | a successful chain keeps the engine sound, never loses a stack or a saved reader, keeps the applying level and never clears quit (what it computes is stated by Bubbling.CallAllBubbles) |
| Dispatch.CallStack | src/main/java/com/adpetions/optimus/TransformContext.java:313-316 | as CallAll: the chain keeps soundness, stacks, saved readers, level and quit |
| Dispatch.CallLoop | src/main/java/com/adpetions/optimus/TransformContext.java:317-323 | the loop returns the engine and result unchanged when the chain is cancelled, the transform has quit or the stack is empty; every round keeps soundness and never clears quit |
| Dispatch.Pop | src/main/java/com/adpetions/optimus/TransformContext.java:318 | whichever pop is configured, it is the pop of the loop's own stack while the field still refers to it |
| Dispatch.PopHolderAsWritten | src/main/java/com/adpetions/optimus/TransformContext.java:318 | callStack.pop() takes the top of the stack the field refers to now: NullPointerException without a field, EmptyStackException when that stack is empty, otherwise that stack loses exactly its top and nothing else changes |
| Dispatch.PopHolder | src/main/java/com/adpetions/optimus/TransformContext.java:317-318 | the pop of the stack the loop tests succeeds exactly when that stack is non-empty, removes exactly its top and changes nothing else |
| Dispatch.CallHolder | src/main/java/com/adpetions/optimus/EventHandlerHolder.java:44-58 | a holder's call returns the state its handler returns for the current applying level (reading or applying) |
| Dispatch.RunActions | src/main/java/com/adpetions/optimus/EventHandler.java:21 | a handler body keeps soundness, stacks, saved readers, level and quit |
| Dispatch.RunAction | src/main/java/com/adpetions/optimus/TransformContext.java:328-336 | every action other than callNext, readElement, apply and the attribute copy is exactly its Effect, and the handler's element is unchanged |
| Dispatch.CallNextAction | src/main/java/com/adpetions/optimus/TransformContext.java:332-336 | callNext without a current stack is a NullPointerException; otherwise the rest of the stack runs and the step keeps soundness |
| Dispatch.WriteAttributeValueAction | src/main/java/com/adpetions/optimus/TransformContext.java:623-628 | writing the attribute value under another name succeeds exactly when there is an attribute value to read, and then writes exactly that attribute |
| Dispatch.ReadElementAction | src/main/java/com/adpetions/optimus/TransformContext.java:958-966 | readElement succeeds exactly when the context can read the element, and then the engine moves to the reader and context after it and holds the element read |
| Dispatch.ApplyAction | src/main/java/com/adpetions/optimus/TransformContext.java:1025-1027 | apply keeps the handler's element and keeps soundness, saved readers and level |
| Dispatch.Effect | src/main/java/com/adpetions/optimus/TransformContext.java:328-330 | a Mark records exactly its tag; cancelNext sets exactly the cancel flag; no such action moves the reader, the path, the stacks or the quit flag |
| Dispatch.SetOverrides | src/main/java/com/adpetions/optimus/TransformContext.java:878-932 | the override setters change the overrides and nothing else |
| Dispatch.ApplyNodes | src/main/java/com/adpetions/optimus/Transformer.java:535-578 | apply fails when the replay reader cannot be built; otherwise it succeeds exactly when the event loop over that reader, one level deeper, succeeds, and then restores the reader, the saved readers and the level it started with |
| Dispatch.Entered | src/main/java/com/adpetions/optimus/Transformer.java:536-542 | entering apply saves the current reader on the stack, puts the replay reader in its place and deepens the level, changing nothing else |
| Dispatch.Loop | src/main/java/com/adpetions/optimus/Transformer.java:276-307 | the loop ends only when the transform has quit or the reader has no next event; it does nothing when either already holds |
| Dispatch.HandleEvent | src/main/java/com/adpetions/optimus/Transformer.java:278-306 | the switch on the event kind keeps soundness, stacks, saved readers, level and quit |
| Dispatch.HandleStartDocument | src/main/java/com/adpetions/optimus/Transformer.java:310-316 | handleStartDocument keeps soundness, stacks, saved readers, level and quit (its cargo is stated by Scenarios.StartDocumentKeepsCargo) |
| Dispatch.HandleEndDocument | src/main/java/com/adpetions/optimus/Transformer.java:318-325 | handleEndDocument keeps soundness, stacks, saved readers, level and quit |
| Dispatch.HandleStartElement | src/main/java/com/adpetions/optimus/Transformer.java:327-389 | handleStartElement keeps soundness, stacks, saved readers, level and quit |
| Dispatch.StartTagDecision | src/main/java/com/adpetions/optimus/Transformer.java:337-349 | SKIP_THIS marks the element skipped, SKIP_THIS_AND_DESCENDANTS starts skipping, CONTINUE writes the start tag with the override name unless already skipping (a missing name is a NullPointerException), HANDLED and QUIT change nothing |
| Dispatch.StartElementPhases | src/main/java/com/adpetions/optimus/Transformer.java:350-388 | the phases after the start tag keep soundness and a quit transform stays quit |
| Dispatch.HandlePhase | src/main/java/com/adpetions/optimus/Transformer.java:391-394 | one before/after phase keeps soundness and a quit transform stays quit |
| Dispatch.HandleAttributes | src/main/java/com/adpetions/optimus/Transformer.java:359-364 | the attribute loop keeps soundness, stacks, saved readers, level and quit |
| Dispatch.HandleAttribute | src/main/java/com/adpetions/optimus/Transformer.java:396-403 | handleAttribute keeps soundness, stacks, saved readers, level and quit |
| Dispatch.AttributeWrite | src/main/java/com/adpetions/optimus/Transformer.java:399-401 | only a CONTINUE while not skipping and not skipping this element writes, and then exactly the attribute with the override name and value; the context is untouched |
| Dispatch.HandleNamespaces | src/main/java/com/adpetions/optimus/Transformer.java:376-381 | the namespace loop keeps soundness, stacks, saved readers, level and quit |
| Dispatch.HandleNamespace | src/main/java/com/adpetions/optimus/Transformer.java:415-426 | handleNamespace keeps soundness, stacks, saved readers, level and quit |
| Dispatch.NamespaceWrite | src/main/java/com/adpetions/optimus/Transformer.java:418-424 | only a CONTINUE while not skipping and not skipping this element writes, and then exactly one declaration: the prefixed one for a non-empty override prefix, the default namespace otherwise |
| Dispatch.HandleEndElement | src/main/java/com/adpetions/optimus/Transformer.java:438-452 | handleEndElement keeps soundness, stacks, saved readers, level and quit |
| Dispatch.EndTagWrite | src/main/java/com/adpetions/optimus/Transformer.java:442-450 | a state other than CONTINUE, skipping or an element marked skipped writes nothing; otherwise the end tag is written, preceded by an empty text run under forceNonSelfClosing unless the element's name may self-close |
| Dispatch.HandleCharacters | src/main/java/com/adpetions/optimus/Transformer.java:454-465 | characters the reader reports as white space are handled exactly as handleWhitespace handles them; the write for other characters is TextWrite |
| Dispatch.HandleCData | src/main/java/com/adpetions/optimus/Transformer.java:467-474 | handleCData keeps soundness, stacks, saved readers, level and quit |
| Dispatch.HandleComment | src/main/java/com/adpetions/optimus/Transformer.java:490-497 | handleComment keeps soundness, stacks, saved readers, level and quit |
| Dispatch.HandleProcessingInstruction | src/main/java/com/adpetions/optimus/Transformer.java:499-506 | handleProcessingInstruction keeps soundness, stacks, saved readers, level and quit |
| Dispatch.ContentWrite | src/main/java/com/adpetions/optimus/Transformer.java:470-472 | only a CONTINUE while not skipping writes, and then exactly the override value (a missing one is a NullPointerException); the context is untouched |
| Dispatch.HandleWhitespace | src/main/java/com/adpetions/optimus/Transformer.java:476-488 | handleWhitespace keeps soundness, stacks, saved readers, level and quit |
| Dispatch.UnhandledWhitespace | src/main/java/com/adpetions/optimus/Transformer.java:484-486 | white space with no handler is written from the reader's text exactly when not skipping and white space is not suppressed |
| Dispatch.HandleEntityReference | src/main/java/com/adpetions/optimus/Transformer.java:508-531 | handleEntityReference keeps soundness, stacks, saved readers, level and quit |
| Dispatch.TextWrite | src/main/java/com/adpetions/optimus/Transformer.java:512-514 | the override text is written exactly for a CONTINUE while not skipping |
| Dispatch.UnhandledEntity | src/main/java/com/adpetions/optimus/Transformer.java:522-528 | an entity nobody handles writes nothing while skipping; otherwise the resolver's text for its name, or the entity reference itself without a resolver |
| Dispatch.Start | src/main/java/com/adpetions/optimus/Transformer.java:249-270 | the transform starts from a sound engine |
| Dispatch.Transform | src/main/java/com/adpetions/optimus/Transformer.java:240-308 | a transform that succeeds ends at level 0 with no saved reader, having quit or read the input to its end |
| Transformers.RunLoop | src/main/java/com/adpetions/optimus/Transformer.java:276-307 | the event loop computes exactly Dispatch.Loop: it ends only on quit or at the end of the input, keeping soundness, saved readers and level |
| Transformers.Turn | src/main/java/com/adpetions/optimus/Transformer.java:277-306 | one turn (next, then dispatch) keeps the engine a legal step of the loop and leaves a loop whose end is the end of the whole loop; an out-of-fuel or reader failure is the failure of the whole loop |
| Transformers.DoTransform | src/main/java/com/adpetions/optimus/Transformer.java:240-308 | doTransform computes exactly Dispatch.Transform |
| Transformers.Apply | src/main/java/com/adpetions/optimus/Transformer.java:535-578 | apply computes exactly Dispatch.ApplyNodes: the nested loop one level deeper, then the level and the reader restored |
| Bubbling.Bubble | src/main/java/com/adpetions/optimus/TransformContext.java:313-324 | the reference loop of callStack stops only when the chain is cancelled, the transform has quit or no holder is left; it never drops a record; on a quit transform it does nothing |
| Bubbling.BubbleActions | src/main/java/com/adpetions/optimus/EventHandler.java:21 | a recording, cancelling or call-next handler body never grows the chain, never drops a record, and a quit transform stays quit |
| Bubbling.BubbleAction | src/main/java/com/adpetions/optimus/TransformContext.java:328-336 | a Mark records exactly its tag, cancelNext only sets the cancel flag, and callNext never grows the chain |
| Bubbling.BubbleRound | src/main/java/com/adpetions/optimus/TransformContext.java:317-322 | one round of the reference: pop the first holder, run its body, merge its state, and quit on QUIT |
| Bubbling.PopMirrors | src/main/java/com/adpetions/optimus/TransformContext.java:318 | on a stack that mirrors the chain, the engine's pop yields the chain's first holder and the chain without it |
| Bubbling.LoopStops | src/main/java/com/adpetions/optimus/TransformContext.java:317 | a cancelled chain, a quit transform or an empty stack ends callStack's loop with the engine and the result as they were |
| Bubbling.LoopStep | src/main/java/com/adpetions/optimus/TransformContext.java:317-322 | one round of the engine's loop is pop, call, merge, then quit on QUIT, and the loop goes on from there |
| Bubbling.RoundBubbles | src/main/java/com/adpetions/optimus/TransformContext.java:317-322 | on a mirroring stack, one round of the engine and one round of the reference continue from the same chain and the same result |
| Bubbling.HolderBubbles | src/main/java/com/adpetions/optimus/EventHandlerHolder.java:44-58 | a holder's call on the engine ends as its body does on the reference, returning the handler's state |
| Bubbling.RunActionsBubbles | src/main/java/com/adpetions/optimus/EventHandler.java:21 | a handler body run by the engine ends, on a mirroring stack, exactly where BubbleActions ends |
| Bubbling.ActionBubbles | src/main/java/com/adpetions/optimus/TransformContext.java:328-336 | one action run by the engine ends exactly where BubbleAction ends |
| Bubbling.CallNextBubbles | src/main/java/com/adpetions/optimus/TransformContext.java:332-336 | callNext runs the rest of the chain on the same stack and then cancels it, as the reference does |
| Bubbling.CallLoopBubbles | src/main/java/com/adpetions/optimus/TransformContext.java:317-323 | callStack's loop on a stack that mirrors a chain ends exactly where Bubble ends: the same remaining holders, flags, records and result |
| Bubbling.SortedBubbling | src/main/java/com/adpetions/optimus/EventHandlerList.java:31-37 | sorting by priority keeps every holder a recording, cancelling or call-next one, and keeps their number |
| Bubbling.CallAllBubbles | src/main/java/com/adpetions/optimus/EventHandlerList.java:39-53 | callAll makes exactly one new stack, points the field at it, runs the holders in descending priority as Bubble does and changes nothing else in the engine |
| Scenarios.ThreeSorted | src/main/java/com/adpetions/optimus/EventHandlerList.java:31-37 | the three handlers, registered at 30, 20 and 10, are already in priority order |
| Scenarios.OneAction | src/main/java/com/adpetions/optimus/EventHandler.java:21 | a body of one action is that action |
| Scenarios.TwoActions | src/main/java/com/adpetions/optimus/EventHandler.java:21 | a body of two actions is the first, then the second |
| Scenarios.ThreeBubbling | src/test/java/com/adpetions/optimus/TransformerBubblingTests.java:16-29 | three lambda handlers made of recording, cancelNext and callNext are handled by the reference |
| Scenarios.MarkRound | src/main/java/com/adpetions/optimus/TransformContext.java:317-322 | a handler that records and returns null lets the chain go on with its record added |
| Scenarios.MarkCancelRound | src/main/java/com/adpetions/optimus/TransformContext.java:328-330 | a handler that records and calls cancelNext ends the chain after it, with its record added |
| Scenarios.MarkCallNextRound | src/main/java/com/adpetions/optimus/TransformContext.java:332-336 | a handler that records and calls callNext runs the rest of the chain inside it, and the chain is cancelled afterwards |
| Scenarios.CancelBubbleChain | src/test/java/com/adpetions/optimus/TransformerBubblingTests.java:11-31 | the reference records [1][2]: the handler at 10 never runs |
| Scenarios.CallNextMiddleChain | src/test/java/com/adpetions/optimus/TransformerBubblingTests.java:38-58 | the reference records [1][3][2] |
| Scenarios.CallNextFirstChain | src/test/java/com/adpetions/optimus/TransformerBubblingTests.java:65-85 | the reference records [3][2] |
| Scenarios.StartDocumentCargo | src/main/java/com/adpetions/optimus/Transformer.java:310-316 | handleStartDocument at the start of a transform succeeds, and its cargo is exactly what the reference records for the start-document handlers |
| Scenarios.StartDocumentKeepsCargo | src/main/java/com/adpetions/optimus/Transformer.java:313-315 | after the start-document chain, handleStartDocument only writes: its cargo is the chain's |
| Scenarios.CancelBubbleScenario | src/test/java/com/adpetions/optimus/TransformerBubblingTests.java:11-31 | testOptimusCancelBubble's handlers record exactly [1][2] |
| Scenarios.CallNextMiddleScenario | src/test/java/com/adpetions/optimus/TransformerBubblingTests.java:38-58 | testOptimusCallNext's handlers record exactly [1][3][2] |
| Scenarios.CallNextFirstScenario | src/test/java/com/adpetions/optimus/TransformerBubblingTests.java:65-85 | testOptimusCallNext2's handlers record exactly [3][2] |
| NestedDispatch.LookupNothing | src/main/java/com/adpetions/optimus/EventHandlerPathMap.java:215-231 | an empty path map finds no holders for any path |
| NestedDispatch.ReplayOneComment | src/main/java/com/adpetions/optimus/ApplyReader.java:196-273 | the replay reader over one comment has exactly one event, that comment, and then nothing |
| NestedDispatch.CommentInitialized | src/main/java/com/adpetions/optimus/TransformContext.java:149-152 | at a comment the context pushes a comment entry onto the path and makes the comment's text the text override |
| NestedDispatch.EmptyChain | src/main/java/com/adpetions/optimus/TransformContext.java:313-324 | callAll with no handlers makes one new, empty stack, points the field at it and returns CONTINUE |
| NestedDispatch.CommentWithoutHandlers | src/main/java/com/adpetions/optimus/Transformer.java:490-497 | handleComment with no comment handlers succeeds, leaving one more, empty stack that the field refers to |
| NestedDispatch.CommentDispatched | src/main/java/com/adpetions/optimus/Transformer.java:297-299 | the event switch sends a comment to handleComment |
| NestedDispatch.LoopOnce | src/main/java/com/adpetions/optimus/Transformer.java:544-575 | a reader with one event left: the loop handles it once and stops |
| NestedDispatch.NestedLoop | src/main/java/com/adpetions/optimus/Transformer.java:544-575 | the loop over one comment leaves one more, empty stack that the field refers to |
| NestedDispatch.ApplyComment | src/main/java/com/adpetions/optimus/Transformer.java:535-578 | apply of one comment returns to the reader it started from, with the field left on the nested dispatch's empty stack |
| NestedDispatch.ApplyActionStep | src/main/java/com/adpetions/optimus/TransformContext.java:1025-1027 | apply of literal nodes from a handler is the nested dispatch, and the handler's element is unchanged |
| NestedDispatch.ApplyDispatched | src/main/java/com/adpetions/optimus/TransformContext.java:1025-1027 | the apply action of a handler body is ApplyAction |
| NestedDispatch.SingleAction | src/main/java/com/adpetions/optimus/EventHandler.java:21 | a body of one action ends where that action ends |
| NestedDispatch.ApplyingHandlerRuns | src/main/java/com/adpetions/optimus/EventHandlerHolder.java:44-58 | the applying handler's call is exactly the nested dispatch of its node, returning null |
| NestedDispatch.ApplyBody | src/main/java/com/adpetions/optimus/TransformContext.java:1025-1027 | a body that is one apply of literal nodes ends where the nested dispatch ends |
| NestedDispatch.HolderRuns | src/main/java/com/adpetions/optimus/EventHandlerHolder.java:44-58 | a holder's call is its body for the current level, then its return value |
| NestedDispatch.ChainOpened | src/main/java/com/adpetions/optimus/EventHandlerList.java:39-53 | callAll on the two handlers makes their stack with the handler at 20 on top and points the field at it |
| NestedDispatch.FirstRound | src/main/java/com/adpetions/optimus/TransformContext.java:317-322 | the first round pops the handler at 20, runs its apply, and the loop goes on with the handler at 10 still on the chain's own stack |
| NestedDispatch.FieldPopFails | src/main/java/com/adpetions/optimus/TransformContext.java:313-324 | as written, after a handler applies nodes the loop pops the field's (nested, empty) stack and the chain fails with EmptyStackException |
| NestedDispatch.OwnStackPopContinues | src/main/java/com/adpetions/optimus/TransformContext.java:317-318 | popping the stack the loop tests, the chain goes on to the handler at 10, records [2] and returns CONTINUE |
| PathMapScenarios.TestContext | src/test/java/com/adpetions/optimus/EventHandlerPathMapTest.java:33-37 | the test's namespace context: the default URI and the foo, bar and def prefixes resolve as the test sets them |
| PathMapScenarios.PrefixedWildcardResolves | src/main/java/com/adpetions/optimus/EventHandlerPathMap.java:138-152 | "p:*" resolves to the single name with p's URI and local part "*" |
| PathMapScenarios.BareWildcardResolves | src/main/java/com/adpetions/optimus/EventHandlerPathMap.java:147-148 | a bare "*" in an element map resolves to the plain wildcard name, without namespace |
| PathMapScenarios.RegisterLeaf | src/main/java/com/adpetions/optimus/EventHandlerPathMap.java:111-207 | registering a one-segment expression at a fresh key adds exactly one level holding the holder |
| PathMapScenarios.RepeatedAlternativeKeepsFirst | src/main/java/com/adpetions/optimus/EventHandlerPathMap.java:111-203 | an expression whose two alternatives resolve to the same fresh name, as "a" twice joined by a vertical bar does, fails with BadMatchPathException and leaves the holder mapped at that name |
| PathMapScenarios.RegisterFour | src/test/java/com/adpetions/optimus/EventHandlerPathMapTest.java:43-46 | the four registrations of the test all succeed and build the expected trie, one level per wildcard |
| PathMapScenarios.TwoWildcardLookup | src/main/java/com/adpetions/optimus/EventHandlerPathMap.java:215-231 | when exactly two levels match and the second has the higher priority, getHolders lists it first |
| PathMapScenarios.RootLookup | src/test/java/com/adpetions/optimus/EventHandlerPathMapTest.java:49-59 | the path /root (default namespace) finds the "*" handler then the "def:*" handler |
| PathMapScenarios.FooItemLookup | src/test/java/com/adpetions/optimus/EventHandlerPathMapTest.java:62-68 | adding foo:item finds the "*" handler then the "foo:*" handler |
| PathMapScenarios.BarItemLookup | src/test/java/com/adpetions/optimus/EventHandlerPathMapTest.java:71-77 | adding bar:item finds the "*" handler then the "bar:*" handler |
| ElementScenarios.FirstTestText | src/test/java/com/adpetions/optimus/TransformerBasicsTest.java:116 | getText of the first collected test element (text, comment, PI) is "TEXT" |
| ElementScenarios.SecondTestText | src/test/java/com/adpetions/optimus/TransformerBasicsTest.java:117 | getText of the second collected element, whose only child is an element, is null |
| ElementScenarios.SecondTestAllText | src/test/java/com/adpetions/optimus/TransformerBasicsTest.java:118 | getAllText of the second element is "FOO-1...BAR...FOO-2", the nested bar text in document order |
| WriterScenarios.OverrideAttributeWriting | src/test/java/com/adpetions/optimus/TransformerBasicsTest.java:205-221 | three writes of att interleaved with att1..att3 leave four buffered attributes: att first with the last value "3", then att1, att2, att3, flushed in that order |

## Left out

- The `Transformer` is modelled on values, not as a class. Its fields (`quit`, `applyingLevel`, `applyReadersStack`, the reader, the writer and the context) are the fields of one `Dispatch.Engine` value, and each `handle*` method is a function from one engine to the next. The loops of `doTransform` and `apply` are methods (`Transformers`), proved equal to those functions. Aliasing between the transformer, its context and its writer is therefore not modelled; Java's shared `Stack` objects are the one exception, kept in a table of stacks.
- Handlers re-enter the dispatch through `callNext` and `apply`, so the dispatch functions carry a fuel bound. Running out of fuel is the `OutOfFuel` failure, which the Java code does not have. Every proved property either holds whatever the fuel, or names the fuel it needs.
- Handler bodies are scripts of actions, each chosen by `isApplying()`: record a tag in the cargo, `cancelNext`, `callNext`, a writer call, an override setter, `readElement`, `apply`. Lambdas that compute anything else are not modelled.
- Template and annotation registration (`buildTemplating` and the rest of `Transformer.java:1358-1562`, the `templating/` package, the reflective branch of `EventHandlerHolder.call`) is not part of this model. Handlers are given directly as registry entries.
- The StAX parser is a sequence of events (`Readers.Live`) with a pull cursor. The `XMLStreamWriter` behind `TransformSimpleWriter` is a log of calls (`WriterCalls`). Character encoding, serialisation and the `XMLInputFactory` options are not modelled.
- `writeFragment` starts a nested transform over an unparsed string; `switchWriter` redirects output; `TransformNullWriter` does nothing. None is part of this model.
- The HTML entity resolver is a map from entity name to text.
- The path-map lookup cache (`EventHandlerPathMap.java:216-229`) is not modelled. Lookup is specified without it, which is what the cache returns as long as nothing is registered after the first lookup.
- `HashMap` and `HashSet` iteration order is taken as first-insertion order. For the path-map lookup, only the set of holders found and their priority order are stated; the order among equal priorities is left open. An expanded `Element`'s attributes follow the order of its `AttributeMap`.
- Namespace URIs are never null in the namespace context. Java's `addNamespace(prefix, null)` stores a null URI and lists its prefix under the null key; the model's URIs are strings, so that case is not modelled.
- The writer's namespace context is a copy in the writer's state, not an object shared with the caller.
- The unsupported `ApplyReader` methods (location, DTD and document information) and the `Transformer` option setters are not modelled.
- Read-then-apply reproducing the input document (`TransformerBasicsTest.java:127-152`) is not proved as a whole-document property. Its pieces are stated separately: reading the element by `ContextStates.ReadElementAt` and `Readers.ReadElement`, and the replay reader over it by `ApplyReaders.FlattenFacts` and `ApplyReaders.Open`.
- The identity-transform outputs for SKIP_THIS and SKIP_THIS_AND_DESCENDANTS under `apply` (`TransformerIdentityTransformTests.java:81-107`) are not worked out as whole-document runs. The decisions they rest on are stated by `Dispatch.StartTagDecision`, `Dispatch.EndTagWrite` and `Dispatch.ApplyNodes`.
- Dispatch.CallAll: states only what every step keeps (soundness, stacks, saved readers, level, quit). What the chain computes is stated by `Bubbling.CallAllBubbles` for recording, cancelling and call-next handlers.
- Dispatch.CallStack: states only what every step keeps; see `Bubbling.CallLoopBubbles`.
- Dispatch.RunActions: states only what every step keeps; see `Bubbling.RunActionsBubbles`.
- Dispatch.CallNextAction: states the missing-stack failure and what every step keeps; see `Bubbling.CallNextBubbles`.
- Dispatch.ApplyAction: states that the element is kept and what every step keeps; see `NestedDispatch.ApplyActionStep`.
- Dispatch.HandleEvent: states only what every step keeps; the dispatch by event kind is its body.
- Dispatch.HandleStartDocument: states only what every step keeps; its cargo is stated by `Scenarios.StartDocumentKeepsCargo` and `Scenarios.StartDocumentCargo`.
- Dispatch.HandleEndDocument: states only what every step keeps.
- Dispatch.HandleStartElement: states only what every step keeps; the start tag is stated by `Dispatch.StartTagDecision`.
- Dispatch.StartElementPhases: states only what every step keeps and that quit is never cleared.
- Dispatch.HandlePhase: states only what every step keeps and that quit is never cleared.
- Dispatch.HandleAttributes: states only what every step keeps.
- Dispatch.HandleAttribute: states only what every step keeps; the write is stated by `Dispatch.AttributeWrite`.
- Dispatch.HandleNamespaces: states only what every step keeps.
- Dispatch.HandleNamespace: states only what every step keeps; the write is stated by `Dispatch.NamespaceWrite`.
- Dispatch.HandleEndElement: states only what every step keeps; the write is stated by `Dispatch.EndTagWrite`.
- Dispatch.HandleCData: states only what every step keeps; the write is stated by `Dispatch.ContentWrite`.
- Dispatch.HandleComment: states only what every step keeps; the write is stated by `Dispatch.ContentWrite` and `NestedDispatch.CommentWithoutHandlers`.
- Dispatch.HandleProcessingInstruction: states only what every step keeps; the write is stated by `Dispatch.ContentWrite`.
- Dispatch.HandleWhitespace: states only what every step keeps; the write is stated by `Dispatch.UnhandledWhitespace`.
- Dispatch.HandleEntityReference: states only what every step keeps; the writes are stated by `Dispatch.TextWrite` and `Dispatch.UnhandledEntity`.
- Dispatch.Start: states only that the engine it builds is sound.
- Dispatch.HandleCharacters: states the white-space redirect and what every step keeps; the write for other characters is stated by `Dispatch.TextWrite`.
- Readers.GetLocalName: the replay reader answers with the corrected `ApplyReaders.GetLocalName`, so the engine gives the entity name at an entity reference where `ApplyReader.java:700-708` throws `IllegalStateException`. The as-written behaviour is stated separately by `ApplyReaders.GetLocalNameAsWritten` and `ApplyReaders.EntityNameCounterexample`, and the engine does not run it.

## Findings

| source | as written | input that shows it | evidently intended | confidence | as-written member | corrected member |
|---|---|---|---|---|---|---|
| src/main/java/com/adpetions/optimus/TransformContext.java:313-324 | the loop tests `stack.empty()` but pops `callStack`, the field. A handler that calls `apply` runs a nested dispatch whose `callAll` points the field at a new stack, and that field is not restored | two start-document handlers at 20 and 10; the one at 20 applies a single comment node while no comment handler is registered. The outer loop then pops the nested, empty stack and throws `EmptyStackException` | pop the stack the loop was given, so the handler at 10 still runs | not executed | NestedDispatch.FieldPopFails | NestedDispatch.OwnStackPopContinues (with Dispatch.PopHolder) |
| src/main/java/com/adpetions/optimus/ApplyReader.java:700-708 | `getLocalName` throws `IllegalStateException` unless the event is a start or end element, yet `TransformContext.initializeForEventHandler` (`TransformContext.java:159-166`) and `readElementAndChildren` (`TransformContext.java:1012-1013`) call it at ENTITY_REFERENCE | applying a collection holding one `EntityRef("amp")`: the replay reader moves onto the entity reference, and initialising the context for it throws | return the entity's name at ENTITY_REFERENCE, as the StAX reader does | not executed | ApplyReaders.GetLocalNameAsWritten (with ApplyReaders.EntityNameCounterexample) | ApplyReaders.GetLocalName |
