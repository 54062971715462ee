# BinaryTagOps in Dafny

This project models BinaryTagOps. BinaryTagOps is a `DynamicOps<BinaryTag>` that bridges Mojang's DataFixerUpper serialization algebra ("ops") to the adventure-nbt binary tag tree. The model covers two parts:

- **The list collector.** This is the state machine behind `mergeToList`. It appends tags to a list-shaped tag and keeps a compact byte, int or long array while every appended tag has that width. On the first tag of another width it widens to a heterogeneous list, and never narrows back.
- **The bridge.** This covers:
  - scalar creation and extraction;
  - `mergeToList` and the three `mergeToMap` overloads;
  - map and list decomposition, with array elements boxed to scalar tags;
  - `createMap` and the typed array bridges;
  - `remove`;
  - the record builder's `initBuilder`, `append` and `build` hooks;
  - the structural transcoder `convertTo`.

Files:

- `Tags.dfy`: the tag tree as a closed datatype of thirteen variants.
  - Java's `byte`/`short`/`int`/`long` become range-restricted integers.
  - `float`/`double` payloads are raw bit patterns that are only passed along.
  - A compound is an insertion-ordered entry sequence with unique keys. Its `put` (overwrite in place, or append), `remove` and bulk `put` are specified through `Lookup`.
- `Results.dfy`: `DataResult` as success, or error with a reason and an optional partial value. The reason records what the error message names: the input, the rejected key or keys.
- `ListCollector.dfy`: the collector in two halves.
  - First, a pure state machine: `Start`, `Step`, `StepAll`, `Finish`.
  - Second, the four collector classes. Each owns a buffer that `Accept` appends to in place. `Accept` returns either the same collector or a freshly allocated generic one built from the boxed buffer. Every class method is proved against the state machine.
- `BinaryTagOps.dfy`: the bridge. The multi-entry `mergeToMap`, `createMap`, `getMapEntries` and `createByteList` are loops, as in the source. The record builder is a class over a mutable field sequence.

The end tag starts a generic collector (`ListCollector.java:21`), never a compact one. So merging only bytes into End gives a heterogeneous list, not a byte array. `Start`, `MergeIntoEndIsList` and `NewCollector` state this behaviour.

`convertTo` is modelled against these same ops. `ConvertTo` yields the term of construction calls that it makes on a target ops. `Evaluate` runs such a term with this bridge's own `create*` functions. The one exception is a `createByteList` call: `CreateByteList` is a method over an array buffer, which a function cannot call, so `Evaluate` builds the byte array of the call's bytes directly. That is the tag `CreateByteList` returns for a buffer holding those bytes, by its `ensures`. The round trip `Evaluate(ConvertTo(t)) == Some(t)` is proved for every tree whose compounds have unique keys.

## Model

| member | source | states |
|---|---|---|
| Tags.Lookup | src/main/java/me/glicz/binarytagops/BinaryTagOps.java:359 | `get` finds nothing exactly when no entry has the key; a value it finds is stored under that key |
| Tags.Put | src/main/java/me/glicz/binarytagops/BinaryTagOps.java:163 | after `put` the key maps to the new value and every other key keeps its value; a new key is appended at the end; an existing key keeps its position |
| Tags.PutKeepsKeysUnique | src/main/java/me/glicz/binarytagops/BinaryTagOps.java:163 | `put` keeps a compound's keys unique |
| Tags.PutOverwritesInPlace | src/main/java/me/glicz/binarytagops/BinaryTagOps.java:163 | on a key-unique compound, `put` of a present key replaces exactly that entry and leaves every other entry where it was |
| Tags.Remove | src/main/java/me/glicz/binarytagops/BinaryTagOps.java:333 | after `remove` the key is absent and every other key keeps its value; removing an absent key changes nothing |
| Tags.RemoveKeepsOthers | src/main/java/me/glicz/binarytagops/BinaryTagOps.java:333 | `remove` only drops entries: what remains was there before and has another key |
| Tags.RemoveKeepsKeysUnique | src/main/java/me/glicz/binarytagops/BinaryTagOps.java:333 | `remove` keeps a compound's keys unique |
| Tags.RemoveDeletesOneEntry | src/main/java/me/glicz/binarytagops/BinaryTagOps.java:333 | on a key-unique compound, removing entry i's key deletes entry i alone and keeps the order of the rest |
| Tags.LookupFindsEntry | src/main/java/me/glicz/binarytagops/BinaryTagOps.java:359 | in a key-unique compound, `get` of an entry's key returns that entry's value |
| Tags.PutAllIntoEmpty | src/main/java/me/glicz/binarytagops/BinaryTagOps.java:182 | bulk-putting a key-unique compound into an empty builder rebuilds it entry for entry |
| Tags.PutAll | src/main/java/me/glicz/binarytagops/BinaryTagOps.java:396 | a bulk `put` adds at most one entry per added entry and keeps the base's keys at their positions |
| Tags.PutAllLookup | src/main/java/me/glicz/binarytagops/BinaryTagOps.java:396 | after a bulk `put`, a key has the value the added entries give it, and otherwise the value the base had |
| Tags.PutAllKeepsKeysUnique | src/main/java/me/glicz/binarytagops/BinaryTagOps.java:396 | a bulk `put` keeps the base's keys unique |
| ListCollector.Start | src/main/java/me/glicz/binarytagops/ListCollector.java:19-30 | a collector exists exactly for End, List and the three array tags; End starts an empty generic collector |
| ListCollector.Finish | src/main/java/me/glicz/binarytagops/ListCollector.java:44 | `result` is a list exactly for the generic collector; starting a collector from a result gives back the same state |
| ListCollector.Step | src/main/java/me/glicz/binarytagops/ListCollector.java:46-147 | `accept` of a tag of the collector's width keeps the collector's kind; any other tag gives a generic collector of the boxed buffer followed by that tag |
| ListCollector.StepAll | src/main/java/me/glicz/binarytagops/ListCollector.java:34-42 | `acceptAll` ends with the start's kind or a generic collector, and a generic collector stays generic |
| ListCollector.StepAppends | src/main/java/me/glicz/binarytagops/ListCollector.java:46-147 | one `accept` appends exactly the accepted tag to the boxed elements; a tag of the collector's width keeps its kind; any other tag gives a generic collector of the boxed buffer followed by that tag |
| ListCollector.StepAllKeepsOrder | src/main/java/me/glicz/binarytagops/ListCollector.java:34-42 | after `acceptAll`, the boxed elements are the start's elements followed by the accepted tags in order, whatever states were visited |
| ListCollector.GenericIsTerminal | src/main/java/me/glicz/binarytagops/ListCollector.java:137-141 | a generic collector stays generic and appends every tag as it is |
| ListCollector.StepAllIsOneWay | src/main/java/me/glicz/binarytagops/ListCollector.java:46-147 | a collector only keeps its kind or ends generic, and keeps its kind when every tag has its width |
| ListCollector.MismatchWidens | src/main/java/me/glicz/binarytagops/ListCollector.java:54-135 | a compact collector that gets a tag of another width anywhere ends as a list of its boxed buffer followed by all accepted tags |
| ListCollector.BytesStayCompact | src/main/java/me/glicz/binarytagops/ListCollector.java:54-66 | a byte collector fed only byte tags stays one, holding the original bytes followed by the new values |
| ListCollector.IntsStayCompact | src/main/java/me/glicz/binarytagops/ListCollector.java:77-89 | an int collector fed only int tags stays one, holding the original ints followed by the new values |
| ListCollector.LongsStayCompact | src/main/java/me/glicz/binarytagops/ListCollector.java:100-112 | a long collector fed only long tags stays one, holding the original longs followed by the new values |
| ListCollector.FinishOfNothingIsStart | src/main/java/me/glicz/binarytagops/ListCollector.java:19-30 | accepting nothing gives back the start tag in its own representation; End gives an empty list |
| ListCollector.ByteListCollector.constructor | src/main/java/me/glicz/binarytagops/ListCollector.java:49-51 | the buffer starts as the array's bytes |
| ListCollector.ByteListCollector.Accept | src/main/java/me/glicz/binarytagops/ListCollector.java:54-61 | a byte tag is appended in place and the same collector is returned; any other tag leaves the buffer alone and returns a new generic collector in the widened state |
| ListCollector.ByteListCollector.Result | src/main/java/me/glicz/binarytagops/ListCollector.java:64-66 | the result is a byte array of the buffer |
| ListCollector.IntListCollector.constructor | src/main/java/me/glicz/binarytagops/ListCollector.java:72-74 | the buffer starts as the array's ints |
| ListCollector.IntListCollector.Accept | src/main/java/me/glicz/binarytagops/ListCollector.java:77-84 | an int tag is appended in place and the same collector is returned; any other tag returns a new generic collector in the widened state |
| ListCollector.IntListCollector.Result | src/main/java/me/glicz/binarytagops/ListCollector.java:87-89 | the result is an int array of the buffer |
| ListCollector.LongListCollector.constructor | src/main/java/me/glicz/binarytagops/ListCollector.java:95-97 | the buffer starts as the array's longs |
| ListCollector.LongListCollector.Accept | src/main/java/me/glicz/binarytagops/ListCollector.java:100-107 | a long tag is appended in place and the same collector is returned; any other tag returns a new generic collector in the widened state |
| ListCollector.LongListCollector.Result | src/main/java/me/glicz/binarytagops/ListCollector.java:110-112 | the result is a long array of the buffer |
| ListCollector.GenericListCollector.constructor | src/main/java/me/glicz/binarytagops/ListCollector.java:118-119 | a generic collector for End starts empty |
| ListCollector.GenericListCollector.FromTags | src/main/java/me/glicz/binarytagops/ListCollector.java:121-123 | a generic collector for a list starts with its elements |
| ListCollector.GenericListCollector.FromBytes | src/main/java/me/glicz/binarytagops/ListCollector.java:125-127 | widening boxes every buffered byte to a byte tag, in order |
| ListCollector.GenericListCollector.FromInts | src/main/java/me/glicz/binarytagops/ListCollector.java:129-131 | widening boxes every buffered int to an int tag, in order |
| ListCollector.GenericListCollector.FromLongs | src/main/java/me/glicz/binarytagops/ListCollector.java:133-135 | widening boxes every buffered long to a long tag, in order |
| ListCollector.GenericListCollector.Accept | src/main/java/me/glicz/binarytagops/ListCollector.java:138-141 | appends the tag as it is and returns the same collector |
| ListCollector.GenericListCollector.Result | src/main/java/me/glicz/binarytagops/ListCollector.java:144-146 | the result is the list of the collected tags |
| ListCollector.NewCollector | src/main/java/me/glicz/binarytagops/ListCollector.java:19-30 | `listCollector` gives a fresh collector exactly for list-shaped input, in the state `Start` prescribes |
| ListCollector.Accept | src/main/java/me/glicz/binarytagops/ListCollector.java:32 | dispatching `accept` moves the collector one `Step`, returning the same object or a fresh one |
| ListCollector.AcceptAll | src/main/java/me/glicz/binarytagops/ListCollector.java:34-42 | the `acceptAll` loop ends in the state of the left fold of `accept` over the input |
| ListCollector.Result | src/main/java/me/glicz/binarytagops/ListCollector.java:44 | dispatching `result` gives `Finish` of the collector's state |
| BinaryTagOps.Empty | src/main/java/me/glicz/binarytagops/BinaryTagOps.java:41-43 | `empty` is neither a map nor a list to the getters, and starts a generic list collector |
| BinaryTagOps.CreateByte | src/main/java/me/glicz/binarytagops/BinaryTagOps.java:92-94 | `getNumberValue` reads the created tag back as that byte |
| BinaryTagOps.CreateShort | src/main/java/me/glicz/binarytagops/BinaryTagOps.java:117-119 | `getNumberValue` reads the created tag back as that short |
| BinaryTagOps.CreateInt | src/main/java/me/glicz/binarytagops/BinaryTagOps.java:107-109 | `getNumberValue` reads the created tag back as that int |
| BinaryTagOps.CreateLong | src/main/java/me/glicz/binarytagops/BinaryTagOps.java:112-114 | `getNumberValue` reads the created tag back as that long |
| BinaryTagOps.CreateFloat | src/main/java/me/glicz/binarytagops/BinaryTagOps.java:102-104 | `getNumberValue` reads the created tag back as that float |
| BinaryTagOps.CreateDouble | src/main/java/me/glicz/binarytagops/BinaryTagOps.java:97-99 | `getNumberValue` reads the created tag back as that double |
| BinaryTagOps.CreateString | src/main/java/me/glicz/binarytagops/BinaryTagOps.java:127-129 | `getStringValue` reads the created tag back as that string |
| BinaryTagOps.GetNumberValue | src/main/java/me/glicz/binarytagops/BinaryTagOps.java:72-84 | succeeds exactly for the six numeric variants, with a number of the tag's own width that rebuilds the tag; anything else is a "not a number" error without a partial value |
| BinaryTagOps.GetStringValue | src/main/java/me/glicz/binarytagops/BinaryTagOps.java:122-124 | succeeds exactly for string tags, with the tag's string; anything else is a "not a string" error |
| BinaryTagOps.MergeToListOf | src/main/java/me/glicz/binarytagops/BinaryTagOps.java:141-145 | succeeds exactly for list-shaped input; otherwise the error carries the unchanged input |
| BinaryTagOps.MergeToList | src/main/java/me/glicz/binarytagops/BinaryTagOps.java:132-134 | one `accept` on a fresh collector computes the merge of that single value |
| BinaryTagOps.MergeValuesToList | src/main/java/me/glicz/binarytagops/BinaryTagOps.java:137-139 | `acceptAll` on a fresh collector computes the merge of the values |
| BinaryTagOps.GetStreamOfFinish | src/main/java/me/glicz/binarytagops/BinaryTagOps.java:258-272 | streaming a collector's result gives exactly the collected elements |
| BinaryTagOps.MergeToListKeepsOrder | src/main/java/me/glicz/binarytagops/BinaryTagOps.java:141-145 | the merged tag streams the input's elements followed by the merged values, in order |
| BinaryTagOps.MergeIntoEndIsList | src/main/java/me/glicz/binarytagops/ListCollector.java:21 | merging into End always gives a heterogeneous list of the values, empty for no values, even when all of them are bytes |
| BinaryTagOps.MergeIntoListAppends | src/main/java/me/glicz/binarytagops/ListCollector.java:22 | merging into a list appends the values unchanged |
| BinaryTagOps.MergeToListKeepsArraysCompact | src/main/java/me/glicz/binarytagops/BinaryTagOps.java:141-145 | values of an array's own width keep it an array of the old elements followed by the new |
| BinaryTagOps.MergeToListWidensOnMismatch | src/main/java/me/glicz/binarytagops/BinaryTagOps.java:141-145 | one value of another width turns an array into the list of its boxed elements followed by all the values |
| BinaryTagOps.MergeByteIntoByteArray | src/main/java/me/glicz/binarytagops/BinaryTagOps.java:132-134 | merging byte 3 into bytes [1, 2] gives the byte array [1, 2, 3] |
| BinaryTagOps.MergeStringIntoByteArray | src/main/java/me/glicz/binarytagops/BinaryTagOps.java:132-134 | merging a string into bytes [1, 2] gives the list [1b, 2b, "x"] |
| BinaryTagOps.MergeToMap | src/main/java/me/glicz/binarytagops/BinaryTagOps.java:148-164 | a non-string key is an error carrying the map; End gives the singleton compound; a compound gets the key put with the other keys unchanged; any other map is an error carrying it |
| BinaryTagOps.NonStringKeys | src/main/java/me/glicz/binarytagops/BinaryTagOps.java:193-199 | the rejected keys are none exactly when every key is a string, are all non-strings, and each is the key of one of the pairs |
| BinaryTagOps.MergeToMapOf | src/main/java/me/glicz/binarytagops/BinaryTagOps.java:180-206 | succeeds exactly for a compound or End with no rejected key; a non-map is an error carrying it; rejected keys give an error that names them and still carries the merged compound |
| BinaryTagOps.MergePairsToMap | src/main/java/me/glicz/binarytagops/BinaryTagOps.java:180-206 | the builder loop over the pairs computes `MergeToMapOf` |
| BinaryTagOps.MergeMapLikeToMap | src/main/java/me/glicz/binarytagops/BinaryTagOps.java:167-171 | merging any map view's entry pairs, whatever their key types, equals the multi-entry merge of those pairs in order |
| BinaryTagOps.MergeCompoundViewToMap | src/main/java/me/glicz/binarytagops/BinaryTagOps.java:167-171 | a view made by `getMap` has only string keys, so merging it succeeds exactly when the target is a compound or End |
| BinaryTagOps.MergeJavaMapToMap | src/main/java/me/glicz/binarytagops/BinaryTagOps.java:174-178 | merges a Java map's entries in iteration order |
| BinaryTagOps.MergedLookup | src/main/java/me/glicz/binarytagops/BinaryTagOps.java:193-199 | after the merge, a key has the value of the last string-keyed pair for it, and otherwise its original value |
| BinaryTagOps.NonStringKeysAreRejected | src/main/java/me/glicz/binarytagops/BinaryTagOps.java:193-199 | every non-string key is among the rejected keys |
| BinaryTagOps.MergeToMapKeySafety | src/main/java/me/glicz/binarytagops/BinaryTagOps.java:180-206 | the compound the merge returns (success or partial) starts from the original entries, holds exactly the string-keyed pairs' last values, and the rejected keys include every non-string key |
| BinaryTagOps.MergeWithOneNonStringKey | src/main/java/me/glicz/binarytagops/BinaryTagOps.java:180-206 | merging "a", a non-string key and "b" into an empty compound is an error naming that key, carrying {a, b} in order |
| BinaryTagOps.GetMapValues | src/main/java/me/glicz/binarytagops/BinaryTagOps.java:209-218 | succeeds exactly for compounds, streaming one (string tag, value) pair per entry in order; otherwise a "not a map" error |
| BinaryTagOps.GetMapEntries | src/main/java/me/glicz/binarytagops/BinaryTagOps.java:221-231 | the callback gets the same pairs, in the same order, that `getMapValues` streams |
| BinaryTagOps.MapLike.Get | src/main/java/me/glicz/binarytagops/BinaryTagOps.java:349-355 | a string key is looked up by its string: absent exactly when no entry of the compound has that key, and a found value is stored under it |
| BinaryTagOps.MapLike.GetByName | src/main/java/me/glicz/binarytagops/BinaryTagOps.java:358-360 | `get(String)` is absent exactly when no entry of the compound has the key, and a found value is stored under it |
| BinaryTagOps.MapLike.Entries | src/main/java/me/glicz/binarytagops/BinaryTagOps.java:362-368 | one (string tag of the key, value) pair per entry in the compound's order; no key is rejected, and the string-keyed pairs give the compound's entries back |
| BinaryTagOps.GetMap | src/main/java/me/glicz/binarytagops/BinaryTagOps.java:234-240 | succeeds exactly for compounds with a view whose entries are the `getMapValues` pairs and whose `get(String)` is the compound's own lookup for every key, present or not; otherwise a "not a map" error |
| BinaryTagOps.MapLikeFindsItsEntries | src/main/java/me/glicz/binarytagops/BinaryTagOps.java:341-369 | every pair the view lists is found again by `get` under its own key |
| BinaryTagOps.CreateMapOf | src/main/java/me/glicz/binarytagops/BinaryTagOps.java:243-255 | `createMap` returns a compound exactly when every key is a string, and aborts otherwise |
| BinaryTagOps.CreateMap | src/main/java/me/glicz/binarytagops/BinaryTagOps.java:243-255 | the builder loop computes `CreateMapOf`, stopping at the first non-string key |
| BinaryTagOps.CreateMapOfMapValues | src/main/java/me/glicz/binarytagops/BinaryTagOps.java:243-255 | `createMap` of a compound's own `getMapValues` pairs rebuilds the compound, order included |
| BinaryTagOps.GetStream | src/main/java/me/glicz/binarytagops/BinaryTagOps.java:258-272 | succeeds exactly for lists and arrays; list elements come unchanged; array elements come boxed to byte, int or long tags, same length and order; otherwise a "not a list" error |
| BinaryTagOps.GetList | src/main/java/me/glicz/binarytagops/BinaryTagOps.java:275-291 | the consumer gets exactly what `getStream` streams; the error names the input |
| BinaryTagOps.GetByteBuffer | src/main/java/me/glicz/binarytagops/BinaryTagOps.java:294-296 | a byte array gives its bytes; any other tag goes to the default implementation |
| BinaryTagOps.CreateByteList | src/main/java/me/glicz/binarytagops/BinaryTagOps.java:299-304 | the new byte array holds the whole buffer, read back by `getByteBuffer` |
| BinaryTagOps.GetIntStream | src/main/java/me/glicz/binarytagops/BinaryTagOps.java:307-309 | an int array gives its ints; any other tag goes to the default implementation |
| BinaryTagOps.CreateIntList | src/main/java/me/glicz/binarytagops/BinaryTagOps.java:312-314 | `getIntStream` reads the created int array back as the same ints |
| BinaryTagOps.GetLongStream | src/main/java/me/glicz/binarytagops/BinaryTagOps.java:317-319 | a long array gives its longs; any other tag goes to the default implementation |
| BinaryTagOps.CreateLongList | src/main/java/me/glicz/binarytagops/BinaryTagOps.java:322-324 | `getLongStream` reads the created long array back as the same longs |
| BinaryTagOps.CreateList | src/main/java/me/glicz/binarytagops/BinaryTagOps.java:327-329 | `getStream` reads the created list back as the same tags, and a merge into it starts generic |
| BinaryTagOps.Remove | src/main/java/me/glicz/binarytagops/BinaryTagOps.java:332-334 | on a compound the key is gone and every other key is unchanged; any other tag is returned as it is |
| BinaryTagOps.RemoveDeletesEntry | src/main/java/me/glicz/binarytagops/BinaryTagOps.java:332-334 | on a key-unique compound, `remove` drops just that entry, keeps the order of the rest and keeps the keys unique |
| BinaryTagOps.RemoveFromString | src/main/java/me/glicz/binarytagops/BinaryTagOps.java:332-334 | `remove` on a string tag returns it unchanged |
| BinaryTagOps.BuildOf | src/main/java/me/glicz/binarytagops/BinaryTagOps.java:387-397 | a null or End prefix gives the fields alone; a compound prefix succeeds; any other prefix is an error carrying it |
| BinaryTagOps.BuildWithPrefix | src/main/java/me/glicz/binarytagops/BinaryTagOps.java:396 | with a compound prefix the accumulated fields win on a shared key, and the prefix's other keys survive |
| BinaryTagOps.BuildOntoCompoundPrefix | src/main/java/me/glicz/binarytagops/BinaryTagOps.java:396 | a new field lands after the prefix's own entries |
| BinaryTagOps.BuildOntoScalarPrefix | src/main/java/me/glicz/binarytagops/BinaryTagOps.java:392-394 | an int prefix is a "not a map" error carrying that prefix |
| BinaryTagOps.RecordBuilder.constructor | src/main/java/me/glicz/binarytagops/BinaryTagOps.java:377-379 | `initBuilder` starts with no fields |
| BinaryTagOps.RecordBuilder.Append | src/main/java/me/glicz/binarytagops/BinaryTagOps.java:382-384 | `append` puts the field into the builder and keeps its keys unique |
| BinaryTagOps.RecordBuilder.Build | src/main/java/me/glicz/binarytagops/BinaryTagOps.java:387-397 | `build` computes `BuildOf` of the accumulated fields and the prefix; on a compound prefix every key has the field's value if a field has that key, and the prefix's value otherwise |
| BinaryTagOps.ConvertTo | src/main/java/me/glicz/binarytagops/BinaryTagOps.java:46-68 | End, strings, compounds and lists each become their own construction call; a compound gives one pair per entry whose key is a `createString` call of the entry's key, and a list one call per element |
| BinaryTagOps.ConvertToRoundTrip | src/main/java/me/glicz/binarytagops/BinaryTagOps.java:46-68 | converting a well-formed tag to these same ops rebuilds it exactly: every width, every array, order, nesting and End |

## Left out

- `createNumeric`: not modelled. It narrows any number to a double through `doubleValue()`, and floating-point conversion is out of scope. Float and double payloads are raw bit patterns that the model only passes along.
- Error messages: `Reason` keeps the facts a message names, not the message text or its supplier.
- Streams and consumers: they become finite sequences, so laziness is not modelled. `getList` and `getMapEntries` yield the sequence their callback would receive.
- BinaryTagOps.CreateByteList: takes the buffer's backing array and copies all of it. This matches the source, which copies `capacity()` bytes from index 0. `ByteBuffer` position, limit and `duplicate` are not modelled.
- BinaryTagOps.GetByteBuffer: `None` stands for the fall-through to the algebra's default implementation, which is library code outside this model. The same holds for BinaryTagOps.GetIntStream and BinaryTagOps.GetLongStream.
- BinaryTagOps.MapLike.Get: a non-string key throws in the source. It is a precondition here.
- BinaryTagOps.ConvertTo: the target ops is represented by the term of construction calls it receives. `convertMap` and `convertList` belong to the algebra's library code. They are modelled as converting each (string-tag key, value) pair and each element in order, with the key converting to a `createString` call. The `Unknown tag type` branch cannot occur in a closed datatype.
- BinaryTagOps.MergeMapLikeToMap: a map view from outside this bridge is given by the pairs its `entries()` streams, which is all the source reads of it. Its other methods are not modelled.
- BinaryTagOps.MergeJavaMapToMap: the Java map is given as its entries in iteration order, with distinct keys.
- The adventure-nbt compound, its builder and list builder, and the fastutil growable arrays are specified abstractly. A compound is an insertion-ordered, key-unique entry sequence; a growable array is a sequence field.
- The record builder's inherited key conversion and error accumulation: not modelled. Only `initBuilder`, `append` and `build` are.
- The `INSTANCE` singleton and the private constructor: not modelled.
- `build.gradle.kts`: build configuration with no logic.
