/**
 * The binary tag tree that the bridge reads and builds: a closed sum of
 * thirteen variants, plus the ordered, key-unique compound operations the
 * tag library offers (`put`, `remove`, `get`, bulk `put`).
 */
module Tags {

  datatype Option<+T> = None | Some(value: T)

  /** Java's fixed-width signed integers. */
  type Int8 = x: int | -0x80 <= x < 0x80
  type Int16 = x: int | -0x8000 <= x < 0x8000
  type Int32 = x: int | -0x8000_0000 <= x < 0x8000_0000
  type Int64 = x: int | -0x8000_0000_0000_0000 <= x < 0x8000_0000_0000_0000

  /** IEEE 754 payloads, kept as raw bit patterns: the bridge only passes them through. */
  type Float32Bits = bv32
  type Float64Bits = bv64

  datatype Tag =
    | EndTag
    | ByteTag(byteValue: Int8)
    | ShortTag(shortValue: Int16)
    | IntTag(intValue: Int32)
    | LongTag(longValue: Int64)
    | FloatTag(floatBits: Float32Bits)
    | DoubleTag(doubleBits: Float64Bits)
    | StringTag(stringValue: string)
    | ByteArrayTag(bytes: seq<Int8>)
    | IntArrayTag(ints: seq<Int32>)
    | LongArrayTag(longs: seq<Int64>)
    | ListTag(elements: seq<Tag>)
    | CompoundTag(entries: seq<Entry>)

  /** One entry of a compound, in insertion order. */
  datatype Entry = Entry(key: string, value: Tag)

  /** The shapes a list collector can be seeded from. */
  predicate IsListShaped(t: Tag) {
    t.EndTag? || t.ListTag? || t.ByteArrayTag? || t.IntArrayTag? || t.LongArrayTag?
  }

  // ---------------------------------------------------------------------------
  // Boxing of compact array elements into scalar tags
  // ---------------------------------------------------------------------------

  function BoxBytes(bytes: seq<Int8>): seq<Tag> {
    seq(|bytes|, i requires 0 <= i < |bytes| => ByteTag(bytes[i]))
  }

  function BoxInts(ints: seq<Int32>): seq<Tag> {
    seq(|ints|, i requires 0 <= i < |ints| => IntTag(ints[i]))
  }

  function BoxLongs(longs: seq<Int64>): seq<Tag> {
    seq(|longs|, i requires 0 <= i < |longs| => LongTag(longs[i]))
  }

  // ---------------------------------------------------------------------------
  // Compounds: insertion-ordered entry sequences with unique keys
  // ---------------------------------------------------------------------------

  /** No key occurs twice: the invariant every compound of the tag library keeps. */
  predicate KeysUnique(entries: seq<Entry>) {
    forall i, j | 0 <= i < j < |entries| :: entries[i].key != entries[j].key
  }

  /** A tree whose every compound, at any depth, has unique keys. */
  predicate WellFormed(t: Tag) {
    match t
    case ListTag(elements) => forall i | 0 <= i < |elements| :: WellFormed(elements[i])
    case CompoundTag(entries) =>
      KeysUnique(entries) && forall i | 0 <= i < |entries| :: WellFormed(entries[i].value)
    case _ => true
  }

  /** `get`: the value stored under `key`, if any. */
  function Lookup(entries: seq<Entry>, key: string): (r: Option<Tag>)
    ensures r.None? <==> forall i | 0 <= i < |entries| :: entries[i].key != key
    ensures r.Some? ==> exists i | 0 <= i < |entries| :: entries[i] == Entry(key, r.value)
  {
    if entries == [] then None
    else if entries[0].key == key then
      assert entries[0] == Entry(key, entries[0].value);
      Some(entries[0].value)
    else
      var r := Lookup(entries[1..], key);
      assert r.Some? ==> exists i | 1 <= i < |entries| :: entries[i] == Entry(key, r.value) by {
        if r.Some? {
          var i :| 0 <= i < |entries[1..]| && entries[1..][i] == Entry(key, r.value);
          assert entries[i + 1] == Entry(key, r.value);
        }
      }
      r
  }

  /**
   * `put`: an existing key keeps its position and takes the new value; a new
   * key is appended at the end.
   */
  function Put(entries: seq<Entry>, key: string, value: Tag): (r: seq<Entry>)
    ensures Lookup(r, key) == Some(value)
    ensures forall k | k != key :: Lookup(r, k) == Lookup(entries, k)
    ensures Lookup(entries, key).None? ==> r == entries + [Entry(key, value)]
    ensures Lookup(entries, key).Some? ==>
      |r| == |entries| && forall i | 0 <= i < |r| :: r[i].key == entries[i].key
  {
    if entries == [] then [Entry(key, value)]
    else if entries[0].key == key then [Entry(key, value)] + entries[1..]
    else [entries[0]] + Put(entries[1..], key, value)
  }

  /** `remove`: every entry under `key` is dropped; the others keep their order. */
  function Remove(entries: seq<Entry>, key: string): (r: seq<Entry>)
    ensures Lookup(r, key) == None
    ensures forall k | k != key :: Lookup(r, k) == Lookup(entries, k)
    ensures Lookup(entries, key).None? ==> r == entries
  {
    if entries == [] then []
    else if entries[0].key == key then Remove(entries[1..], key)
    else [entries[0]] + Remove(entries[1..], key)
  }

  /** Bulk `put`: the entries of `others`, in their order, put on top of `base`. */
  function PutAll(base: seq<Entry>, others: seq<Entry>): (r: seq<Entry>)
    ensures |base| <= |r| <= |base| + |others|
    ensures forall i | 0 <= i < |base| :: r[i].key == base[i].key
  {
    if others == [] then base
    else
      var last := others[|others| - 1];
      Put(PutAll(base, others[..|others| - 1]), last.key, last.value)
  }

  lemma PutKeepsKeysUnique(entries: seq<Entry>, key: string, value: Tag)
    requires KeysUnique(entries)
    ensures KeysUnique(Put(entries, key, value))
  {
    var r := Put(entries, key, value);
    if Lookup(entries, key).None? {
      forall i, j | 0 <= i < j < |r| ensures r[i].key != r[j].key {
        if j == |entries| { assert r[i] == entries[i]; }
      }
    }
  }

  /** On a key-unique compound, `put` of a present key replaces exactly that entry's value. */
  lemma {:induction false} PutOverwritesInPlace(entries: seq<Entry>, key: string, value: Tag)
    requires KeysUnique(entries) && Lookup(entries, key).Some?
    ensures var r := Put(entries, key, value);
      |r| == |entries| &&
      forall i | 0 <= i < |r| :: r[i] == if entries[i].key == key then Entry(key, value) else entries[i]
  {
    if entries[0].key != key {
      var tail := entries[1..];
      TailKeysUnique(entries);
      PutOverwritesInPlace(tail, key, value);
    }
  }

  lemma {:induction false} RemoveKeepsOthers(entries: seq<Entry>, key: string)
    ensures forall e | e in Remove(entries, key) :: e in entries && e.key != key
  {
    if entries != [] {
      RemoveKeepsOthers(entries[1..], key);
    }
  }

  lemma {:induction false} RemoveKeepsKeysUnique(entries: seq<Entry>, key: string)
    requires KeysUnique(entries)
    ensures KeysUnique(Remove(entries, key))
  {
    if entries != [] {
      var tail := entries[1..];
      TailKeysUnique(entries);
      RemoveKeepsKeysUnique(tail, key);
      RemoveKeepsOthers(tail, key);
      var r := Remove(entries, key);
      if entries[0].key != key {
        forall i, j | 0 <= i < j < |r| ensures r[i].key != r[j].key {
          if i == 0 {
            assert r[j] in Remove(tail, key);
          } else {
            assert r[i] == Remove(tail, key)[i - 1] && r[j] == Remove(tail, key)[j - 1];
          }
        }
      }
    }
  }

  lemma TailKeysUnique(entries: seq<Entry>)
    requires KeysUnique(entries) && entries != []
    ensures KeysUnique(entries[1..])
  {
    var tail := entries[1..];
    forall a, b | 0 <= a < b < |tail| ensures tail[a].key != tail[b].key {
      assert tail[a] == entries[a + 1] && tail[b] == entries[b + 1];
    }
  }

  /** On a key-unique compound, `remove` of entry `i`'s key deletes exactly that entry. */
  lemma {:induction false} RemoveDeletesOneEntry(entries: seq<Entry>, i: nat)
    requires KeysUnique(entries) && i < |entries|
    ensures Remove(entries, entries[i].key) == entries[..i] + entries[i + 1..]
  {
    var key := entries[i].key;
    var tail := entries[1..];
    TailKeysUnique(entries);
    if i == 0 {
      assert Lookup(tail, key).None? by {
        forall j | 0 <= j < |tail| ensures tail[j].key != key {
          assert tail[j] == entries[j + 1];
        }
      }
      assert Remove(entries, key) == Remove(tail, key) == tail;
      assert entries[..0] + entries[1..] == tail;
    } else {
      assert entries[0].key != key;
      assert tail[i - 1] == entries[i];
      RemoveDeletesOneEntry(tail, i - 1);
      assert Remove(entries, key) == [entries[0]] + (tail[..i - 1] + tail[i..]);
      assert entries[..i] == [entries[0]] + tail[..i - 1];
      assert entries[i + 1..] == tail[i..];
    }
  }

  /** In a key-unique compound, looking up the key of entry `i` finds entry `i`'s value. */
  lemma LookupFindsEntry(entries: seq<Entry>, i: nat)
    requires KeysUnique(entries) && i < |entries|
    ensures Lookup(entries, entries[i].key) == Some(entries[i].value)
  {
    var k := entries[i].key;
    var j :| 0 <= j < |entries| && entries[j] == Entry(k, Lookup(entries, k).value);
    assert i == j;
  }

  /** Bulk-putting a key-unique compound into an empty one rebuilds it entry for entry. */
  lemma {:induction false} PutAllIntoEmpty(entries: seq<Entry>)
    requires KeysUnique(entries)
    ensures PutAll([], entries) == entries
  {
    if entries != [] {
      var n := |entries| - 1;
      var init := entries[..n];
      assert KeysUnique(init) by {
        forall a, b | 0 <= a < b < n ensures init[a].key != init[b].key {
          assert init[a] == entries[a] && init[b] == entries[b];
        }
      }
      PutAllIntoEmpty(init);
      assert Lookup(init, entries[n].key).None? by {
        forall a | 0 <= a < n ensures init[a].key != entries[n].key {
          assert init[a] == entries[a];
        }
      }
      assert PutAll([], entries) == Put(init, entries[n].key, entries[n].value);
      assert entries[n] == Entry(entries[n].key, entries[n].value);
      assert init + [entries[n]] == entries;
    }
  }

  /**
   * After a bulk `put`, a key carries the value `others` gives it, and
   * otherwise the value it had in `base`.
   */
  lemma {:induction false} PutAllLookup(base: seq<Entry>, others: seq<Entry>, key: string)
    requires KeysUnique(others)
    ensures Lookup(PutAll(base, others), key) ==
      if Lookup(others, key).Some? then Lookup(others, key) else Lookup(base, key)
  {
    if others != [] {
      var n := |others| - 1;
      var init := others[..n];
      var last := others[n];
      assert KeysUnique(init);
      PutAllLookup(base, init, key);
      var before := PutAll(base, init);
      assert PutAll(base, others) == Put(before, last.key, last.value);
      if last.key == key {
        LookupFindsEntry(others, n);
      } else {
        assert Lookup(PutAll(base, others), key) == Lookup(before, key);
        LookupOfInit(others, key);
      }
    }
  }

  lemma {:induction false} LookupOfInit(entries: seq<Entry>, key: string)
    requires entries != [] && entries[|entries| - 1].key != key
    ensures Lookup(entries, key) == Lookup(entries[..|entries| - 1], key)
  {
    if entries[0].key != key && |entries| > 1 {
      LookupOfInit(entries[1..], key);
      assert entries[1..][..|entries| - 2] == entries[..|entries| - 1][1..];
    }
  }

  lemma {:induction false} PutAllKeepsKeysUnique(base: seq<Entry>, others: seq<Entry>)
    requires KeysUnique(base)
    ensures KeysUnique(PutAll(base, others))
  {
    if others != [] {
      var n := |others| - 1;
      PutAllKeepsKeysUnique(base, others[..n]);
      PutKeepsKeysUnique(PutAll(base, others[..n]), others[n].key, others[n].value);
    }
  }
}
