/**
 * The bridge between the serialization algebra ("ops") and the binary tag
 * tree: scalar creation and extraction, list and map merges, list and map
 * decomposition, the typed array bridges, `remove`, the record builder, and
 * the structural transcoder `convertTo`.
 */
module BinaryTagOps {
  import opened Tags
  import opened Results
  import LC = ListCollector

  // ---------------------------------------------------------------------------
  // Scalars
  // ---------------------------------------------------------------------------

  /** A boxed Java number; its runtime class records the width it came from. */
  datatype Number =
    | ByteNumber(byteNumber: Int8)
    | ShortNumber(shortNumber: Int16)
    | IntNumber(intNumber: Int32)
    | LongNumber(longNumber: Int64)
    | FloatNumber(floatNumber: Float32Bits)
    | DoubleNumber(doubleNumber: Float64Bits)

  /** A key/value pair as the algebra passes it: both halves are tags. */
  datatype Pair = Pair(first: Tag, second: Tag)

  /** `empty`: the end tag, which is neither a map nor a list to the getters. */
  function Empty(): (r: Tag)
    ensures GetMapValues(r).Error? && GetStream(r).Error?
    ensures LC.Start(r) == Some(LC.Generic([]))
  {
    EndTag
  }

  function CreateByte(value: Int8): (r: Tag)
    ensures GetNumberValue(r) == Success(ByteNumber(value))
  {
    ByteTag(value)
  }

  function CreateShort(value: Int16): (r: Tag)
    ensures GetNumberValue(r) == Success(ShortNumber(value))
  {
    ShortTag(value)
  }

  function CreateInt(value: Int32): (r: Tag)
    ensures GetNumberValue(r) == Success(IntNumber(value))
  {
    IntTag(value)
  }

  function CreateLong(value: Int64): (r: Tag)
    ensures GetNumberValue(r) == Success(LongNumber(value))
  {
    LongTag(value)
  }

  function CreateFloat(value: Float32Bits): (r: Tag)
    ensures GetNumberValue(r) == Success(FloatNumber(value))
  {
    FloatTag(value)
  }

  function CreateDouble(value: Float64Bits): (r: Tag)
    ensures GetNumberValue(r) == Success(DoubleNumber(value))
  {
    DoubleTag(value)
  }

  function CreateString(value: string): (r: Tag)
    ensures GetStringValue(r) == Success(value)
  {
    StringTag(value)
  }

  /** The tag of a boxed number's own width. */
  function NumberTag(n: Number): Tag {
    match n
    case ByteNumber(v) => ByteTag(v)
    case ShortNumber(v) => ShortTag(v)
    case IntNumber(v) => IntTag(v)
    case LongNumber(v) => LongTag(v)
    case FloatNumber(v) => FloatTag(v)
    case DoubleNumber(v) => DoubleTag(v)
  }

  /** `getNumberValue`: the six numeric tags give their value, boxed at their own width. */
  function GetNumberValue(input: Tag): (r: DataResult<Number>)
    ensures r.Success? <==>
      input.ByteTag? || input.ShortTag? || input.IntTag? || input.LongTag? || input.FloatTag? || input.DoubleTag?
    ensures r.Success? ==> NumberTag(r.value) == input
    ensures r.Error? ==> r == Error(NotANumber, None)
  {
    match input
    case ByteTag(v) => Success(ByteNumber(v))
    case DoubleTag(v) => Success(DoubleNumber(v))
    case FloatTag(v) => Success(FloatNumber(v))
    case IntTag(v) => Success(IntNumber(v))
    case LongTag(v) => Success(LongNumber(v))
    case ShortTag(v) => Success(ShortNumber(v))
    case _ => Error(NotANumber, None)
  }

  /** `getStringValue`: only a string tag has a string value. */
  function GetStringValue(input: Tag): (r: DataResult<string>)
    ensures r.Success? <==> input.StringTag?
    ensures r.Success? ==> StringTag(r.value) == input
    ensures r.Error? ==> r == Error(NotAString, None)
  {
    if input.StringTag? then Success(input.stringValue) else Error(NotAString, None)
  }

  // ---------------------------------------------------------------------------
  // mergeToList
  // ---------------------------------------------------------------------------

  /** What both `mergeToList` overloads compute: the collector's result, or an error carrying the input. */
  function MergeToListOf(input: Tag, values: seq<Tag>): (r: DataResult<Tag>)
    ensures r.Success? <==> IsListShaped(input)
    ensures r.Error? ==> r == Error(MergeToListNotAList(input), Some(input))
  {
    match LC.Start(input)
    case None => Error(MergeToListNotAList(input), Some(input))
    case Some(s) => Success(LC.Finish(LC.StepAll(s, values)))
  }

  /** `mergeToList(input, value)`: one `accept` on a fresh collector. */
  method MergeToList(input: Tag, value: Tag) returns (r: DataResult<Tag>)
    ensures r == MergeToListOf(input, [value])
  {
    var collector := LC.NewCollector(input);
    if collector.None? {
      return Error(MergeToListNotAList(input), Some(input));
    }
    ghost var start := collector.value.State();
    assert LC.StepAll(start, [value]) == LC.Step(start, value) by {
      assert [value][..0] == [];
    }
    var next := LC.Accept(collector.value, value);
    var result := LC.Result(next);
    r := Success(result);
  }

  /** `mergeToList(input, values)`: `acceptAll` on a fresh collector. */
  method MergeValuesToList(input: Tag, values: seq<Tag>) returns (r: DataResult<Tag>)
    ensures r == MergeToListOf(input, values)
  {
    var collector := LC.NewCollector(input);
    if collector.None? {
      return Error(MergeToListNotAList(input), Some(input));
    }
    var next := LC.AcceptAll(collector.value, values);
    var result := LC.Result(next);
    r := Success(result);
  }

  /** A collector's result, read back as a stream, gives exactly its elements. */
  lemma GetStreamOfFinish(s: LC.CollectorState)
    ensures GetStream(LC.Finish(s)) == Success(LC.Elements(s))
  {
  }

  /**
   * Merging keeps order: the merged tag streams the input's elements followed
   * by the merged values, whatever representation the collector ended in.
   */
  lemma MergeToListKeepsOrder(input: Tag, values: seq<Tag>)
    requires IsListShaped(input)
    ensures MergeToListOf(input, values).Success?
    ensures GetStream(MergeToListOf(input, values).value) ==
      Success((if input.EndTag? then [] else GetStream(input).value) + values)
  {
    var s := LC.Start(input).value;
    LC.StepAllKeepsOrder(s, values);
    GetStreamOfFinish(LC.StepAll(s, values));
  }

  /** Merging into the end tag always gives a heterogeneous list, even of bytes only. */
  lemma MergeIntoEndIsList(values: seq<Tag>)
    ensures MergeToListOf(EndTag, values) == Success(ListTag(values))
  {
    LC.GenericIsTerminal([], values);
    assert [] + values == values;
  }

  /** Merging into a list appends every value as it is. */
  lemma MergeIntoListAppends(elements: seq<Tag>, values: seq<Tag>)
    ensures MergeToListOf(ListTag(elements), values) == Success(ListTag(elements + values))
  {
    LC.GenericIsTerminal(elements, values);
  }

  /** Values of an array's own width keep it an array: the old elements, then the new. */
  lemma MergeToListKeepsArraysCompact(input: Tag, values: seq<Tag>)
    ensures input.ByteArrayTag? && (forall i | 0 <= i < |values| :: values[i].ByteTag?) ==>
      MergeToListOf(input, values) == Success(ByteArrayTag(input.bytes + LC.ByteValues(values)))
    ensures input.IntArrayTag? && (forall i | 0 <= i < |values| :: values[i].IntTag?) ==>
      MergeToListOf(input, values) == Success(IntArrayTag(input.ints + LC.IntValues(values)))
    ensures input.LongArrayTag? && (forall i | 0 <= i < |values| :: values[i].LongTag?) ==>
      MergeToListOf(input, values) == Success(LongArrayTag(input.longs + LC.LongValues(values)))
  {
    if input.ByteArrayTag? && forall i | 0 <= i < |values| :: values[i].ByteTag? {
      LC.BytesStayCompact(input.bytes, values);
    }
    if input.IntArrayTag? && forall i | 0 <= i < |values| :: values[i].IntTag? {
      LC.IntsStayCompact(input.ints, values);
    }
    if input.LongArrayTag? && forall i | 0 <= i < |values| :: values[i].LongTag? {
      LC.LongsStayCompact(input.longs, values);
    }
  }

  /**
   * One value of another width anywhere widens an array to a list: its
   * elements boxed, in order, then all the merged values.
   */
  lemma MergeToListWidensOnMismatch(input: Tag, values: seq<Tag>, k: nat)
    requires input.ByteArrayTag? || input.IntArrayTag? || input.LongArrayTag?
    requires k < |values| && !LC.Fits(LC.Start(input).value, values[k])
    ensures MergeToListOf(input, values) == Success(ListTag(GetStream(input).value + values))
  {
    assert !LC.Fits(LC.Start(input).value, values[k]);
    LC.MismatchWidens(LC.Start(input).value, values);
  }

  lemma MergeByteIntoByteArray()
    ensures MergeToListOf(ByteArrayTag([1, 2]), [ByteTag(3)]) == Success(ByteArrayTag([1, 2, 3]))
  {
    assert [ByteTag(3)][..0] == [];
    assert LC.Step(LC.Bytes([1, 2]), ByteTag(3)) == LC.Bytes([1, 2] + [3]);
    assert [1, 2] + [3] == [1, 2, 3];
  }

  lemma MergeStringIntoByteArray()
    ensures MergeToListOf(ByteArrayTag([1, 2]), [StringTag("x")]) ==
      Success(ListTag([ByteTag(1), ByteTag(2), StringTag("x")]))
  {
    assert [StringTag("x")][..0] == [];
    var boxed := BoxBytes([1, 2]);
    assert |boxed| == 2 && boxed[0] == ByteTag(1) && boxed[1] == ByteTag(2);
    assert boxed == [ByteTag(1), ByteTag(2)];
    assert LC.Step(LC.Bytes([1, 2]), StringTag("x")) == LC.Generic(boxed + [StringTag("x")]);
    assert boxed + [StringTag("x")] == [ByteTag(1), ByteTag(2), StringTag("x")];
  }

  // ---------------------------------------------------------------------------
  // mergeToMap
  // ---------------------------------------------------------------------------

  /**
   * `mergeToMap(map, key, value)`: a string key is put into a compound, or
   * into a new one for the end tag; a non-string key or a non-map is an error
   * carrying the map unchanged.
   */
  function MergeToMap(target: Tag, key: Tag, value: Tag): (r: DataResult<Tag>)
    ensures r.Success? <==> key.StringTag? && (target.CompoundTag? || target.EndTag?)
    ensures !key.StringTag? ==> r == Error(KeyNotString(key), Some(target))
    ensures key.StringTag? && target.EndTag? ==> r == Success(CompoundTag([Entry(key.stringValue, value)]))
    ensures r.Success? ==> r.value.CompoundTag? && Lookup(r.value.entries, key.stringValue) == Some(value)
    ensures r.Success? && target.CompoundTag? ==>
      forall k | k != key.stringValue :: Lookup(r.value.entries, k) == Lookup(target.entries, k)
    ensures key.StringTag? && !target.CompoundTag? && !target.EndTag? ==>
      r == Error(MergeToMapNotAMap(target), Some(target))
  {
    if !key.StringTag? then Error(KeyNotString(key), Some(target))
    else
      match target
      case CompoundTag(entries) => Success(CompoundTag(Put(entries, key.stringValue, value)))
      case EndTag => Success(CompoundTag(Put([], key.stringValue, value)))
      case _ => Error(MergeToMapNotAMap(target), Some(target))
  }

  /** The string-keyed pairs as entries, in order; the other pairs are skipped. */
  function StringKeyed(pairs: seq<Pair>): seq<Entry> {
    if pairs == [] then []
    else
      var last := pairs[|pairs| - 1];
      StringKeyed(pairs[..|pairs| - 1]) +
        if last.first.StringTag? then [Entry(last.first.stringValue, last.second)] else []
  }

  /** The keys that are not strings, in order. */
  function NonStringKeys(pairs: seq<Pair>): (r: seq<Tag>)
    ensures r == [] <==> forall i | 0 <= i < |pairs| :: pairs[i].first.StringTag?
    ensures forall i | 0 <= i < |r| :: !r[i].StringTag?
    ensures forall t | t in r :: exists i | 0 <= i < |pairs| :: pairs[i].first == t
  {
    if pairs == [] then []
    else
      var last := pairs[|pairs| - 1];
      var init := pairs[..|pairs| - 1];
      assert forall i | 0 <= i < |init| :: init[i] == pairs[i];
      NonStringKeys(init) + if last.first.StringTag? then [] else [last.first]
  }

  /** The value the last pair keyed by the string `key` carries, if any. */
  function LastValueFor(pairs: seq<Pair>, key: string): Option<Tag> {
    if pairs == [] then None
    else if pairs[|pairs| - 1].first == StringTag(key) then Some(pairs[|pairs| - 1].second)
    else LastValueFor(pairs[..|pairs| - 1], key)
  }

  lemma PutAllSnoc(base: seq<Entry>, others: seq<Entry>, e: Entry)
    ensures PutAll(base, others + [e]) == Put(PutAll(base, others), e.key, e.value)
  {
    assert (others + [e])[..|others|] == others;
  }

  lemma StringKeyedSnoc(pairs: seq<Pair>, i: nat)
    requires i < |pairs|
    ensures StringKeyed(pairs[..i + 1]) ==
      StringKeyed(pairs[..i]) + if pairs[i].first.StringTag? then [Entry(pairs[i].first.stringValue, pairs[i].second)] else []
    ensures NonStringKeys(pairs[..i + 1]) ==
      NonStringKeys(pairs[..i]) + if pairs[i].first.StringTag? then [] else [pairs[i].first]
  {
    assert pairs[..i + 1][..i] == pairs[..i];
  }

  /** The compound a map merge starts from: a copy of a compound, a new one for the end tag. */
  function MergeBase(target: Tag): Option<seq<Entry>> {
    match target
    case CompoundTag(entries) => Some(PutAll([], entries))
    case EndTag => Some([])
    case _ => None
  }

  /**
   * What the multi-entry `mergeToMap` computes: the string-keyed pairs put in
   * order; success only if no key was rejected, otherwise an error that names
   * the rejected keys and still carries the merged compound.
   */
  function MergeToMapOf(target: Tag, pairs: seq<Pair>): (r: DataResult<Tag>)
    ensures r.Success? <==> (target.CompoundTag? || target.EndTag?) && NonStringKeys(pairs) == []
    ensures !target.CompoundTag? && !target.EndTag? ==> r == Error(MergeToMapNotAMap(target), Some(target))
    ensures (target.CompoundTag? || target.EndTag?) && NonStringKeys(pairs) != [] ==>
      r.reason == KeysNotStrings(NonStringKeys(pairs)) && r.partial.Some?
  {
    match MergeBase(target)
    case None => Error(MergeToMapNotAMap(target), Some(target))
    case Some(base) =>
      var merged := CompoundTag(PutAll(base, StringKeyed(pairs)));
      var rejected := NonStringKeys(pairs);
      if rejected == [] then Success(merged) else Error(KeysNotStrings(rejected), Some(merged))
  }

  /** The iterator-driven core of both multi-entry `mergeToMap` overloads. */
  method MergePairsToMap(target: Tag, pairs: seq<Pair>) returns (r: DataResult<Tag>)
    ensures r == MergeToMapOf(target, pairs)
  {
    var base: seq<Entry>;
    if target.CompoundTag? {
      base := PutAll([], target.entries);
    } else if target.EndTag? {
      base := [];
    } else {
      return Error(MergeToMapNotAMap(target), Some(target));
    }
    assert base == MergeBase(target).value;
    var builder := base;
    var unsupportedKeys: seq<Tag> := [];
    assert pairs[..0] == [];
    ghost var done: seq<Entry> := [];
    for i := 0 to |pairs|
      invariant builder == PutAll(base, done)
      invariant done == StringKeyed(pairs[..i])
      invariant unsupportedKeys == NonStringKeys(pairs[..i])
    {
      var pair := pairs[i];
      StringKeyedSnoc(pairs, i);
      if pair.first.StringTag? {
        var entry := Entry(pair.first.stringValue, pair.second);
        PutAllSnoc(base, done, entry);
        builder := Put(builder, pair.first.stringValue, pair.second);
        done := done + [entry];
      } else {
        unsupportedKeys := unsupportedKeys + [pair.first];
      }
    }
    assert pairs[..|pairs|] == pairs;
    var compound := CompoundTag(builder);
    if unsupportedKeys == [] {
      r := Success(compound);
    } else {
      r := Error(KeysNotStrings(unsupportedKeys), Some(compound));
    }
  }

  /**
   * `mergeToMap(map, MapLike)`: merges the pairs that the view's `entries()`
   * streams, in their order. The view may be any map view, not only one made
   * by `getMap`, so its keys may be tags of any type.
   */
  method MergeMapLikeToMap(target: Tag, entries: seq<Pair>) returns (r: DataResult<Tag>)
    ensures r == MergeToMapOf(target, entries)
  {
    r := MergePairsToMap(target, entries);
  }

  /** A view made by `getMap` has only string keys, so merging it is rejected only for a non-map target. */
  lemma MergeCompoundViewToMap(target: Tag, input: Tag)
    requires input.CompoundTag?
    ensures GetMap(input).Success?
    ensures MergeToMapOf(target, GetMap(input).value.Entries()).Success? <==> target.CompoundTag? || target.EndTag?
  {
    assert NonStringKeys(GetMap(input).value.Entries()) == [];
  }

  /**
   * `mergeToMap(map, Map)`: merges a Java map's entries, given in its
   * iteration order; a Java map has no key twice.
   */
  method MergeJavaMapToMap(target: Tag, values: seq<Pair>) returns (r: DataResult<Tag>)
    requires forall i, j | 0 <= i < j < |values| :: values[i].first != values[j].first
    ensures r == MergeToMapOf(target, values)
  {
    r := MergePairsToMap(target, values);
  }

  /**
   * Key safety of the map merge: a key ends with the value of the last
   * string-keyed pair for it, a key no such pair names keeps its old value,
   * and the rejected keys are exactly the non-string ones.
   */
  lemma {:induction false} MergedLookup(base: seq<Entry>, pairs: seq<Pair>, key: string)
    ensures Lookup(PutAll(base, StringKeyed(pairs)), key) ==
      if LastValueFor(pairs, key).Some? then LastValueFor(pairs, key) else Lookup(base, key)
  {
    if pairs != [] {
      var n := |pairs| - 1;
      var init := pairs[..n];
      MergedLookup(base, init, key);
      if pairs[n].first.StringTag? {
        var entry := Entry(pairs[n].first.stringValue, pairs[n].second);
        assert StringKeyed(pairs) == StringKeyed(init) + [entry];
        PutAllSnoc(base, StringKeyed(init), entry);
        var before := PutAll(base, StringKeyed(init));
        assert PutAll(base, StringKeyed(pairs)) == Put(before, entry.key, entry.value);
        if entry.key == key {
          assert LastValueFor(pairs, key) == Some(entry.value);
        } else {
          assert Lookup(Put(before, entry.key, entry.value), key) == Lookup(before, key);
          assert LastValueFor(pairs, key) == LastValueFor(init, key);
        }
      } else {
        assert StringKeyed(pairs) == StringKeyed(init);
        assert LastValueFor(pairs, key) == LastValueFor(init, key);
      }
    }
  }

  lemma {:induction false} NonStringKeysAreRejected(pairs: seq<Pair>)
    ensures forall i | 0 <= i < |pairs| && !pairs[i].first.StringTag? :: pairs[i].first in NonStringKeys(pairs)
  {
    if pairs != [] {
      var n := |pairs| - 1;
      var init := pairs[..n];
      NonStringKeysAreRejected(init);
      assert forall i | 0 <= i < n :: pairs[i] == init[i];
    }
  }

  lemma MergeToMapKeySafety(target: Tag, pairs: seq<Pair>, key: string)
    requires target.CompoundTag? || target.EndTag?
    requires target.CompoundTag? ==> KeysUnique(target.entries)
    ensures MergeToMapOf(target, pairs).Success? || MergeToMapOf(target, pairs).partial.Some?
    ensures var merged := if MergeToMapOf(target, pairs).Success? then MergeToMapOf(target, pairs).value
                          else MergeToMapOf(target, pairs).partial.value;
      merged.CompoundTag? &&
      Lookup(merged.entries, key) ==
        if LastValueFor(pairs, key).Some? then LastValueFor(pairs, key)
        else if target.CompoundTag? then Lookup(target.entries, key) else None
    ensures forall i | 0 <= i < |pairs| && !pairs[i].first.StringTag? :: pairs[i].first in NonStringKeys(pairs)
  {
    var base := MergeBase(target).value;
    MergedLookup(base, pairs, key);
    if target.CompoundTag? {
      PutAllIntoEmpty(target.entries);
    }
    NonStringKeysAreRejected(pairs);
  }

  lemma ThreePairsSplit(a: string, b: string, bad: Tag, u: Tag, v: Tag, w: Tag)
    requires !bad.StringTag?
    ensures var pairs := [Pair(StringTag(a), u), Pair(bad, v), Pair(StringTag(b), w)];
      StringKeyed(pairs) == [Entry(a, u), Entry(b, w)] && NonStringKeys(pairs) == [bad]
  {
    var pairs := [Pair(StringTag(a), u), Pair(bad, v), Pair(StringTag(b), w)];
    assert pairs[..0] == [] && pairs[..3] == pairs;
    StringKeyedSnoc(pairs, 0);
    StringKeyedSnoc(pairs, 1);
    StringKeyedSnoc(pairs, 2);
  }

  /** Merging two string keys around a non-string one into an empty compound. */
  lemma MergeWithOneNonStringKey(a: string, b: string, bad: Tag, u: Tag, v: Tag, w: Tag)
    requires a != b && !bad.StringTag?
    ensures MergeToMapOf(CompoundTag([]), [Pair(StringTag(a), u), Pair(bad, v), Pair(StringTag(b), w)]) ==
      Error(KeysNotStrings([bad]), Some(CompoundTag([Entry(a, u), Entry(b, w)])))
  {
    ThreePairsSplit(a, b, bad, u, v, w);
    var entries := [Entry(a, u), Entry(b, w)];
    assert MergeBase(CompoundTag([])) == Some([]);
    PutAllIntoEmpty(entries);
  }

  // ---------------------------------------------------------------------------
  // Map decomposition and createMap
  // ---------------------------------------------------------------------------

  /** The entries of a compound as pairs of a string tag and a value, in order. */
  function EntryPairs(entries: seq<Entry>): seq<Pair> {
    seq(|entries|, i requires 0 <= i < |entries| => Pair(CreateString(entries[i].key), entries[i].value))
  }

  /** `getMapValues`: a compound streams its entries in order; anything else is not a map. */
  function GetMapValues(input: Tag): (r: DataResult<seq<Pair>>)
    ensures r.Success? <==> input.CompoundTag?
    ensures r.Success? ==> (|r.value| == |input.entries| &&
      forall i | 0 <= i < |r.value| :: r.value[i] == Pair(StringTag(input.entries[i].key), input.entries[i].value))
    ensures r.Error? ==> r == Error(NotAMap(input), None)
  {
    if input.CompoundTag? then Success(EntryPairs(input.entries)) else Error(NotAMap(input), None)
  }

  /** `getMapEntries`: the pairs its callback is handed, one per entry, in order. */
  method GetMapEntries(input: Tag) returns (r: DataResult<seq<Pair>>)
    ensures r == GetMapValues(input)
  {
    if !input.CompoundTag? {
      return Error(NotAMap(input), None);
    }
    var visited: seq<Pair> := [];
    for i := 0 to |input.entries|
      invariant visited == EntryPairs(input.entries[..i])
    {
      var entry := input.entries[i];
      visited := visited + [Pair(CreateString(entry.key), entry.value)];
    }
    assert input.entries[..|input.entries|] == input.entries;
    r := Success(visited);
  }

  /** The read-only keyed view `getMap` makes of a compound. */
  datatype MapLike = MapLike(tag: seq<Entry>) {
    /**
     * `get(BinaryTag)`: the compound's value under a string key, absent when
     * no entry has it. Callers pass only string keys; any other key throws.
     */
    function Get(key: Tag): (r: Option<Tag>)
      requires key.StringTag?
      ensures r == GetByName(key.stringValue)
      ensures r.None? <==> forall i | 0 <= i < |tag| :: tag[i].key != key.stringValue
      ensures r.Some? ==> Entry(key.stringValue, r.value) in tag
    {
      GetByName(key.stringValue)
    }

    /** `get(String)`: the compound's value under `key`, absent when no entry has it. */
    function GetByName(key: string): (r: Option<Tag>)
      ensures r.None? <==> forall i | 0 <= i < |tag| :: tag[i].key != key
      ensures r.Some? ==> Entry(key, r.value) in tag
    {
      Lookup(tag, key)
    }

    /**
     * `entries`: one (string tag, value) pair per entry, in the compound's
     * order; its string-keyed entries are the compound's entries again.
     */
    function Entries(): (r: seq<Pair>)
      ensures |r| == |tag| && forall i | 0 <= i < |r| :: r[i] == Pair(StringTag(tag[i].key), tag[i].value)
      ensures NonStringKeys(r) == []
      ensures StringKeyed(r) == tag
    {
      StringKeyedOfEntryPairs(tag);
      EntryPairs(tag)
    }
  }

  /** `getMap`: a keyed view of a compound; anything else is not a map. */
  function GetMap(input: Tag): (r: DataResult<MapLike>)
    ensures r.Success? <==> input.CompoundTag?
    ensures r.Success? ==> Success(r.value.Entries()) == GetMapValues(input)
    ensures r.Success? ==> forall k :: r.value.GetByName(k) == Lookup(input.entries, k)
    ensures r.Error? ==> r == Error(NotAMap(input), None)
  {
    if input.CompoundTag? then Success(MapLike(input.entries)) else Error(NotAMap(input), None)
  }

  /** Every pair the view lists can be looked up again under its own key. */
  lemma MapLikeFindsItsEntries(input: Tag)
    requires input.CompoundTag? && KeysUnique(input.entries)
    ensures var view := GetMap(input).value;
      forall i | 0 <= i < |view.Entries()| :: view.Get(view.Entries()[i].first) == Some(view.Entries()[i].second)
  {
    forall i | 0 <= i < |input.entries| {
      LookupFindsEntry(input.entries, i);
    }
  }

  /** What `createMap` computes: the pairs put in order, or a throw on a non-string key. */
  function CreateMapOf(pairs: seq<Pair>): (r: Option<Tag>)
    ensures r.Some? <==> forall i | 0 <= i < |pairs| :: pairs[i].first.StringTag?
    ensures r.Some? ==> r.value.CompoundTag?
  {
    if NonStringKeys(pairs) == [] then Some(CompoundTag(PutAll([], StringKeyed(pairs)))) else None
  }

  lemma NonStringKeyRejects(pairs: seq<Pair>, i: nat)
    requires i < |pairs| && !pairs[i].first.StringTag?
    ensures CreateMapOf(pairs) == None
  {
  }

  /**
   * `createMap`: puts each pair into a new compound in order; the first
   * non-string key aborts the whole call (None: an exception is thrown).
   */
  method CreateMap(pairs: seq<Pair>) returns (r: Option<Tag>)
    ensures r == CreateMapOf(pairs)
  {
    var empty: seq<Entry> := [];
    var builder: seq<Entry> := empty;
    ghost var done: seq<Entry> := [];
    assert pairs[..0] == [];
    for i := 0 to |pairs|
      invariant builder == PutAll(empty, done)
      invariant done == StringKeyed(pairs[..i])
      invariant NonStringKeys(pairs[..i]) == []
    {
      var pair := pairs[i];
      if !pair.first.StringTag? {
        NonStringKeyRejects(pairs, i);
        return None;
      }
      var entry := Entry(pair.first.stringValue, pair.second);
      StringKeyedSnoc(pairs, i);
      PutAllSnoc(empty, done, entry);
      builder := Put(builder, pair.first.stringValue, pair.second);
      done := done + [entry];
    }
    assert pairs[..|pairs|] == pairs;
    r := Some(CompoundTag(builder));
  }

  lemma {:induction false} StringKeyedOfEntryPairs(entries: seq<Entry>)
    ensures StringKeyed(EntryPairs(entries)) == entries
  {
    if entries != [] {
      var n := |entries| - 1;
      StringKeyedOfEntryPairs(entries[..n]);
      assert EntryPairs(entries)[..n] == EntryPairs(entries[..n]);
      assert entries[..n] + [entries[n]] == entries;
    }
  }

  /** `createMap` of a key-unique compound's own pairs rebuilds that compound. */
  lemma CreateMapOfMapValues(input: Tag)
    requires input.CompoundTag? && KeysUnique(input.entries)
    ensures CreateMapOf(GetMapValues(input).value) == Some(input)
  {
    StringKeyedOfEntryPairs(input.entries);
    PutAllIntoEmpty(input.entries);
  }

  // ---------------------------------------------------------------------------
  // List decomposition and the typed array bridges
  // ---------------------------------------------------------------------------

  /** `getStream`: a list's elements as they are; an array's elements boxed to scalar tags. */
  function GetStream(input: Tag): (r: DataResult<seq<Tag>>)
    ensures r.Success? <==> input.ListTag? || input.ByteArrayTag? || input.IntArrayTag? || input.LongArrayTag?
    ensures input.ListTag? ==> r == Success(input.elements)
    ensures input.ByteArrayTag? ==> (|r.value| == |input.bytes| &&
      forall i | 0 <= i < |input.bytes| :: r.value[i] == CreateByte(input.bytes[i]))
    ensures input.IntArrayTag? ==> (|r.value| == |input.ints| &&
      forall i | 0 <= i < |input.ints| :: r.value[i] == CreateInt(input.ints[i]))
    ensures input.LongArrayTag? ==> (|r.value| == |input.longs| &&
      forall i | 0 <= i < |input.longs| :: r.value[i] == CreateLong(input.longs[i]))
    ensures r.Error? ==> r == Error(NotAList(None), None)
  {
    match input
    case ListTag(elements) => Success(elements)
    case ByteArrayTag(bytes) => Success(BoxBytes(bytes))
    case IntArrayTag(ints) => Success(BoxInts(ints))
    case LongArrayTag(longs) => Success(BoxLongs(longs))
    case _ => Error(NotAList(None), None)
  }

  /** `getList`: its callback is handed the same elements `getStream` gives; its error names the input. */
  function GetList(input: Tag): (r: DataResult<seq<Tag>>)
    ensures r.Success? <==> GetStream(input).Success?
    ensures r.Success? ==> r == GetStream(input)
    ensures r.Error? ==> r == Error(NotAList(Some(input)), None)
  {
    match input
    case ListTag(elements) => Success(elements)
    case ByteArrayTag(bytes) => Success(BoxBytes(bytes))
    case IntArrayTag(ints) => Success(BoxInts(ints))
    case LongArrayTag(longs) => Success(BoxLongs(longs))
    case _ => Error(NotAList(Some(input)), None)
  }

  /**
   * `getByteBuffer`: the bytes of a byte array. None stands for the fall-through
   * to the algebra's default implementation, which is not part of this model.
   */
  function GetByteBuffer(input: Tag): (r: Option<seq<Int8>>)
    ensures r.Some? <==> input.ByteArrayTag?
    ensures r.Some? ==> ByteArrayTag(r.value) == input
  {
    if input.ByteArrayTag? then Some(input.bytes) else None
  }

  /** `createByteList`: copies the whole backing array of the buffer into a new byte array. */
  method CreateByteList(buffer: array<Int8>) returns (r: Tag)
    ensures GetByteBuffer(r) == Some(buffer[..])
  {
    var bytes := new Int8[buffer.Length];
    for i := 0 to buffer.Length
      invariant bytes[..i] == buffer[..i]
    {
      bytes[i] := buffer[i];
      assert bytes[..i + 1] == bytes[..i] + [bytes[i]];
    }
    assert bytes[..] == bytes[..buffer.Length];
    assert buffer[..] == buffer[..buffer.Length];
    r := ByteArrayTag(bytes[..]);
  }

  /** `getIntStream`: the ints of an int array; None stands for the default fall-through. */
  function GetIntStream(input: Tag): (r: Option<seq<Int32>>)
    ensures r.Some? <==> input.IntArrayTag?
    ensures r.Some? ==> IntArrayTag(r.value) == input
  {
    if input.IntArrayTag? then Some(input.ints) else None
  }

  function CreateIntList(ints: seq<Int32>): (r: Tag)
    ensures GetIntStream(r) == Some(ints)
  {
    IntArrayTag(ints)
  }

  /** `getLongStream`: the longs of a long array; None stands for the default fall-through. */
  function GetLongStream(input: Tag): (r: Option<seq<Int64>>)
    ensures r.Some? <==> input.LongArrayTag?
    ensures r.Some? ==> LongArrayTag(r.value) == input
  {
    if input.LongArrayTag? then Some(input.longs) else None
  }

  function CreateLongList(longs: seq<Int64>): (r: Tag)
    ensures GetLongStream(r) == Some(longs)
  {
    LongArrayTag(longs)
  }

  /** `createList`: a heterogeneous list of the given tags, in order. */
  function CreateList(tags: seq<Tag>): (r: Tag)
    ensures GetStream(r) == Success(tags)
    ensures LC.Start(r) == Some(LC.Generic(tags))
  {
    ListTag(tags)
  }

  // ---------------------------------------------------------------------------
  // remove
  // ---------------------------------------------------------------------------

  /** `remove`: drops `key` from a compound; any other tag comes back unchanged, with no error. */
  function Remove(input: Tag, key: string): (r: Tag)
    ensures !input.CompoundTag? ==> r == input
    ensures input.CompoundTag? ==> (r.CompoundTag? && Lookup(r.entries, key) == None &&
      forall k | k != key :: Lookup(r.entries, k) == Lookup(input.entries, k))
  {
    if input.CompoundTag? then CompoundTag(Tags.Remove(input.entries, key))
    else input
  }

  /** On a key-unique compound, removing entry `i`'s key deletes that entry alone and keeps the order. */
  lemma RemoveDeletesEntry(entries: seq<Entry>, i: nat)
    requires KeysUnique(entries) && i < |entries|
    ensures Remove(CompoundTag(entries), entries[i].key) == CompoundTag(entries[..i] + entries[i + 1..])
    ensures KeysUnique(Remove(CompoundTag(entries), entries[i].key).entries)
  {
    RemoveDeletesOneEntry(entries, i);
    RemoveKeepsKeysUnique(entries, entries[i].key);
  }

  lemma RemoveFromString()
    ensures Remove(StringTag("s"), "k") == StringTag("s")
  {
  }

  // ---------------------------------------------------------------------------
  // The record builder
  // ---------------------------------------------------------------------------

  /**
   * What `build(prefix)` computes from the accumulated fields: no prefix or an
   * end tag gives the fields alone; a compound prefix gets the fields put on
   * top; any other prefix is an error carrying it.
   */
  function BuildOf(fields: seq<Entry>, prefix: Option<Tag>): (r: DataResult<Tag>)
    ensures r.Success? <==> prefix.None? || prefix.value.EndTag? || prefix.value.CompoundTag?
    ensures prefix.None? || prefix.value.EndTag? ==> r == Success(CompoundTag(fields))
    ensures r.Error? ==> r == Error(MergeToMapNotAMap(prefix.value), prefix)
  {
    if prefix.None? || prefix.value.EndTag? then Success(CompoundTag(fields))
    else if !prefix.value.CompoundTag? then Error(MergeToMapNotAMap(prefix.value), prefix)
    else Success(CompoundTag(PutAll(prefix.value.entries, fields)))
  }

  /**
   * With a compound prefix, the accumulated fields win on a shared key and
   * the prefix's other keys survive.
   */
  lemma BuildWithPrefix(fields: seq<Entry>, prefix: seq<Entry>, key: string)
    requires KeysUnique(fields)
    ensures BuildOf(fields, Some(CompoundTag(prefix))).Success?
    ensures Lookup(BuildOf(fields, Some(CompoundTag(prefix))).value.entries, key) ==
      if Lookup(fields, key).Some? then Lookup(fields, key) else Lookup(prefix, key)
  {
    PutAllLookup(prefix, fields, key);
  }

  /** A new field lands after the prefix's own entries. */
  lemma BuildOntoCompoundPrefix(field: Entry, earlier: Entry)
    requires field.key != earlier.key
    ensures BuildOf([field], Some(CompoundTag([earlier]))) == Success(CompoundTag([earlier, field]))
  {
    assert [field][..0] == [];
    assert PutAll([earlier], [field]) == Put([earlier], field.key, field.value);
    assert Lookup([earlier], field.key).None?;
    assert field == Entry(field.key, field.value);
    assert [earlier] + [field] == [earlier, field];
  }

  lemma BuildOntoScalarPrefix()
    ensures BuildOf([Entry("x", IntTag(1))], Some(IntTag(7))) == Error(MergeToMapNotAMap(IntTag(7)), Some(IntTag(7)))
  {
  }

  /** The record builder: fields accumulate, in order, in a private compound builder. */
  class RecordBuilder {
    var fields: seq<Entry>

    ghost predicate Valid()
      reads this
    {
      KeysUnique(fields)
    }

    /** `initBuilder`: a new, empty compound builder. */
    constructor ()
      ensures Valid() && fields == []
    {
      fields := [];
    }

    /** `append`: puts the field into the builder. */
    method Append(key: string, value: Tag)
      requires Valid()
      modifies this
      ensures Valid()
      ensures fields == Put(old(fields), key, value)
    {
      PutKeepsKeysUnique(fields, key, value);
      fields := Put(fields, key, value);
    }

    /**
     * `build(prefix)`: None stands for a null prefix. On a compound prefix the
     * accumulated fields win on a shared key and the prefix's other keys survive.
     */
    method Build(prefix: Option<Tag>) returns (r: DataResult<Tag>)
      requires Valid()
      ensures r == BuildOf(fields, prefix)
      ensures prefix.Some? && prefix.value.CompoundTag? ==> (r.Success? &&
        forall k :: Lookup(r.value.entries, k) ==
          if Lookup(fields, k).Some? then Lookup(fields, k) else Lookup(prefix.value.entries, k))
    {
      r := BuildOf(fields, prefix);
      if prefix.Some? && prefix.value.CompoundTag? {
        forall k
          ensures Lookup(r.value.entries, k) ==
            if Lookup(fields, k).Some? then Lookup(fields, k) else Lookup(prefix.value.entries, k)
        {
          BuildWithPrefix(fields, prefix.value.entries, k);
        }
      }
    }
  }

  // ---------------------------------------------------------------------------
  // convertTo
  // ---------------------------------------------------------------------------

  /**
   * The construction calls `convertTo` makes on a target ops: one call per
   * tag, with the call's arguments (converted children for maps and lists).
   */
  datatype TargetCall =
    | CallEmpty
    | CallCreateByte(byteArg: Int8)
    | CallCreateShort(shortArg: Int16)
    | CallCreateInt(intArg: Int32)
    | CallCreateLong(longArg: Int64)
    | CallCreateFloat(floatArg: Float32Bits)
    | CallCreateDouble(doubleArg: Float64Bits)
    | CallCreateString(stringArg: string)
    | CallCreateByteList(bytesArg: seq<Int8>)
    | CallCreateIntList(intsArg: seq<Int32>)
    | CallCreateLongList(longsArg: seq<Int64>)
    | CallCreateMap(pairsArg: seq<CallPair>)
    | CallCreateList(elementsArg: seq<TargetCall>)

  datatype CallPair = CallPair(keyCall: TargetCall, valueCall: TargetCall)

  /**
   * `convertTo(ops, input)`: each variant becomes its matching constructor
   * call. Compounds and lists go through the algebra's `convertMap` and
   * `convertList`, which convert each (string-tag key, value) pair and each
   * element in order; a string-tag key converts to a `createString` call.
   */
  function ConvertTo(input: Tag): (r: TargetCall)
    ensures r.CallEmpty? <==> input.EndTag?
    ensures r.CallCreateString? <==> input.StringTag?
    ensures r.CallCreateMap? <==> input.CompoundTag?
    ensures r.CallCreateList? <==> input.ListTag?
    ensures input.CompoundTag? ==> (|r.pairsArg| == |input.entries| &&
      forall i | 0 <= i < |r.pairsArg| :: r.pairsArg[i].keyCall == CallCreateString(input.entries[i].key))
    ensures input.ListTag? ==> |r.elementsArg| == |input.elements|
  {
    match input
    case ByteTag(v) => CallCreateByte(v)
    case DoubleTag(v) => CallCreateDouble(v)
    case FloatTag(v) => CallCreateFloat(v)
    case IntTag(v) => CallCreateInt(v)
    case LongTag(v) => CallCreateLong(v)
    case ShortTag(v) => CallCreateShort(v)
    case ByteArrayTag(bytes) => CallCreateByteList(bytes)
    case IntArrayTag(ints) => CallCreateIntList(ints)
    case LongArrayTag(longs) => CallCreateLongList(longs)
    case CompoundTag(entries) =>
      CallCreateMap(seq(|entries|, i requires 0 <= i < |entries| =>
        CallPair(CallCreateString(entries[i].key), ConvertTo(entries[i].value))))
    case ListTag(elements) =>
      CallCreateList(seq(|elements|, i requires 0 <= i < |elements| => ConvertTo(elements[i])))
    case StringTag(s) => CallCreateString(s)
    case EndTag => CallEmpty
  }

  /** Runs construction calls against these ops; None when `createMap` throws. */
  function Evaluate(call: TargetCall): Option<Tag>
    decreases call, 1
  {
    match call
    case CallEmpty => Some(Empty())
    case CallCreateByte(v) => Some(CreateByte(v))
    case CallCreateShort(v) => Some(CreateShort(v))
    case CallCreateInt(v) => Some(CreateInt(v))
    case CallCreateLong(v) => Some(CreateLong(v))
    case CallCreateFloat(v) => Some(CreateFloat(v))
    case CallCreateDouble(v) => Some(CreateDouble(v))
    case CallCreateString(s) => Some(CreateString(s))
    case CallCreateByteList(bytes) => Some(ByteArrayTag(bytes))
    case CallCreateIntList(ints) => Some(CreateIntList(ints))
    case CallCreateLongList(longs) => Some(CreateLongList(longs))
    case CallCreateMap(pairs) =>
      var built := EvaluatePairs(call, |pairs|);
      if built.Some? then CreateMapOf(built.value) else None
    case CallCreateList(elements) =>
      var tags := seq(|elements|, i requires 0 <= i < |elements| => Evaluate(elements[i]));
      if forall i | 0 <= i < |elements| :: tags[i].Some? then
        Some(CreateList(seq(|elements|, i requires 0 <= i < |elements| => tags[i].value)))
      else None
  }

  /** The first `n` key and value calls of a `createMap` call, evaluated in order; None if one fails. */
  function EvaluatePairs(call: TargetCall, n: nat): Option<seq<Pair>>
    requires call.CallCreateMap? && n <= |call.pairsArg|
    decreases call, 0, n
  {
    if n == 0 then Some([])
    else
      var init := EvaluatePairs(call, n - 1);
      var key := Evaluate(call.pairsArg[n - 1].keyCall);
      var value := Evaluate(call.pairsArg[n - 1].valueCall);
      if init.Some? && key.Some? && value.Some? then Some(init.value + [Pair(key.value, value.value)]) else None
  }

  lemma {:induction false} EvaluatePairsPrefix(calls: seq<CallPair>, pairs: seq<Pair>, n: nat)
    requires |calls| == |pairs| && n <= |calls|
    requires forall i | 0 <= i < |calls| ::
      Evaluate(calls[i].keyCall) == Some(pairs[i].first) && Evaluate(calls[i].valueCall) == Some(pairs[i].second)
    ensures EvaluatePairs(CallCreateMap(calls), n) == Some(pairs[..n])
  {
    if n > 0 {
      EvaluatePairsPrefix(calls, pairs, n - 1);
      assert pairs[..n] == pairs[..n - 1] + [Pair(pairs[n - 1].first, pairs[n - 1].second)];
    }
  }

  /** A `createList` call whose element calls evaluate to `tags` evaluates to the list of `tags`. */
  lemma EvaluateCreateList(calls: seq<TargetCall>, tags: seq<Tag>)
    requires |calls| == |tags|
    requires forall i | 0 <= i < |calls| :: Evaluate(calls[i]) == Some(tags[i])
    ensures Evaluate(CallCreateList(calls)) == Some(ListTag(tags))
  {
    var evaluated := seq(|calls|, i requires 0 <= i < |calls| => Evaluate(calls[i]));
    assert forall i | 0 <= i < |calls| :: evaluated[i].Some?;
    var values := seq(|calls|, i requires 0 <= i < |calls| => evaluated[i].value);
    assert values == tags;
  }

  /** A `createMap` call whose key and value calls evaluate to `pairs` evaluates to `createMap(pairs)`. */
  lemma EvaluateCreateMap(calls: seq<CallPair>, pairs: seq<Pair>)
    requires |calls| == |pairs|
    requires forall i | 0 <= i < |calls| ::
      Evaluate(calls[i].keyCall) == Some(pairs[i].first) && Evaluate(calls[i].valueCall) == Some(pairs[i].second)
    ensures Evaluate(CallCreateMap(calls)) == CreateMapOf(pairs)
  {
    EvaluatePairsPrefix(calls, pairs, |calls|);
    assert pairs[..|calls|] == pairs;
    EvaluateBuiltMap(CallCreateMap(calls), pairs);
  }

  lemma EvaluateBuiltMap(call: TargetCall, pairs: seq<Pair>)
    requires call.CallCreateMap? && EvaluatePairs(call, |call.pairsArg|) == Some(pairs)
    ensures Evaluate(call) == CreateMapOf(pairs)
  {
  }


  /** A compound whose values round-trip is rebuilt from its `createMap` call. */
  lemma EvaluateConvertedCompound(entries: seq<Entry>)
    requires KeysUnique(entries)
    requires forall i | 0 <= i < |entries| :: Evaluate(ConvertTo(entries[i].value)) == Some(entries[i].value)
    ensures Evaluate(ConvertTo(CompoundTag(entries))) == Some(CompoundTag(entries))
  {
    var calls := ConvertTo(CompoundTag(entries)).pairsArg;
    var pairs := GetMapValues(CompoundTag(entries)).value;
    assert forall i | 0 <= i < |calls| :: calls[i] == CallPair(CallCreateString(entries[i].key), ConvertTo(entries[i].value));
    EvaluateCreateMap(calls, pairs);
    CreateMapOfMapValues(CompoundTag(entries));
  }

  /** A list whose elements round-trip is rebuilt from its `createList` call. */
  lemma EvaluateConvertedList(elements: seq<Tag>)
    requires forall i | 0 <= i < |elements| :: Evaluate(ConvertTo(elements[i])) == Some(elements[i])
    ensures Evaluate(ConvertTo(ListTag(elements))) == Some(ListTag(elements))
  {
    var calls := ConvertTo(ListTag(elements)).elementsArg;
    assert forall i | 0 <= i < |calls| :: calls[i] == ConvertTo(elements[i]);
    EvaluateCreateList(calls, elements);
  }

  /**
   * Converting a well-formed tag to these same ops rebuilds it exactly:
   * widths, array compactness, order and nesting are all preserved.
   */
  lemma {:induction false} ConvertToRoundTrip(input: Tag)
    requires WellFormed(input)
    ensures Evaluate(ConvertTo(input)) == Some(input)
  {
    match input
    case CompoundTag(entries) =>
      forall i | 0 <= i < |entries|
        ensures Evaluate(ConvertTo(entries[i].value)) == Some(entries[i].value)
      {
        ConvertToRoundTrip(entries[i].value);
      }
      EvaluateConvertedCompound(entries);
    case ListTag(elements) =>
      forall i | 0 <= i < |elements|
        ensures Evaluate(ConvertTo(elements[i])) == Some(elements[i])
      {
        ConvertToRoundTrip(elements[i]);
      }
      EvaluateConvertedList(elements);
    case _ =>
  }
}
