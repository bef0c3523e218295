/**
 The VM's map object: an array of slots searched from the front.  It behaves as a finite
 map over keys, for every sequence of insertions, overwrites and growth.
 */
module MapObject {

  /** What a slot can hold; objects are numbered by their address. */
  datatype Item = Nil | Bool(b: bool) | Int(i: int) | Text(address: nat, chars: string) | Object(address: nat)

  datatype Slot = Slot(occupied: bool, key: Item, value: Item)

  const EMPTY := Slot(false, Nil, Nil)

  /** Strings are keys by content, other objects by address. */
  predicate KeyEquals(x: Item, y: Item) {
    match (x, y)
    case (Nil, Nil) => true
    case (Bool(b), Bool(c)) => b == c
    case (Int(i), Int(j)) => i == j
    case (Text(_, s), Text(_, t)) => |s| == |t| && s == t
    case (Object(a), Object(b)) => a == b
    case _ => false
  }

  /** A representative of all items that are the same key. */
  function Canonical(x: Item): Item {
    if x.Text? then Text(0, x.chars) else x
  }

  lemma KeyEqualsIff(x: Item, y: Item)
    ensures KeyEquals(x, y) <==> Canonical(x) == Canonical(y)
  {
  }

  /** Two items are the same key: equal numbers, equal truth values, texts with the same characters,
      one object; never items of two kinds. */
  ghost predicate SameKey(x: Item, y: Item) {
    || (x == Nil && y == Nil)
    || (exists b :: x == Bool(b) && y == Bool(b))
    || (exists i :: x == Int(i) && y == Int(i))
    || (exists a, b, s :: x == Text(a, s) && y == Text(b, s))
    || (exists a :: x == Object(a) && y == Object(a))
  }

  lemma SameKeyIff(x: Item, y: Item)
    ensures KeyEquals(x, y) <==> SameKey(x, y)
    ensures Canonical(x) == Canonical(y) <==> SameKey(x, y)
  {
    if x.Text? && y.Text? && x.chars == y.chars {
      assert x == Text(x.address, x.chars) && y == Text(y.address, x.chars);
    }
  }

  /** The finite map that a run of occupied slots stands for. */
  function MapOf(slots: seq<Slot>): map<Item, Item> {
    if slots == [] then map[]
    else
      var s := slots[|slots| - 1];
      MapOf(slots[..|slots| - 1])[Canonical(s.key) := s.value]
  }

  ghost predicate DistinctKeys(slots: seq<Slot>) {
    forall i, j | 0 <= i < j < |slots| :: Canonical(slots[i].key) != Canonical(slots[j].key)
  }

  lemma {:induction false} KeyIn(slots: seq<Slot>, k: Item)
    ensures k in MapOf(slots) <==> exists i :: 0 <= i < |slots| && Canonical(slots[i].key) == k
    decreases |slots|
  {
    if slots != [] {
      var n := |slots| - 1;
      KeyIn(slots[..n], k);
      assert forall i | 0 <= i < n :: slots[..n][i] == slots[i];
      assert k in MapOf(slots) <==> (k in MapOf(slots[..n]) || Canonical(slots[n].key) == k);
    }
  }

  lemma {:induction false} ValueAt(slots: seq<Slot>, i: nat)
    requires DistinctKeys(slots) && i < |slots|
    ensures Canonical(slots[i].key) in MapOf(slots) && MapOf(slots)[Canonical(slots[i].key)] == slots[i].value
    decreases |slots|
  {
    if i < |slots| - 1 { ValueAt(slots[..|slots| - 1], i); }
  }

  lemma {:induction false} Overwritten(slots: seq<Slot>, i: nat, v: Item)
    requires DistinctKeys(slots) && i < |slots|
    ensures MapOf(slots[i := slots[i].(value := v)]) == MapOf(slots)[Canonical(slots[i].key) := v]
    decreases |slots|
  {
    var n := |slots| - 1;
    var more := slots[i := slots[i].(value := v)];
    if i < n {
      Overwritten(slots[..n], i, v);
      assert more[..n] == slots[..n][i := slots[i].(value := v)];
    } else {
      assert more[..n] == slots[..n];
    }
  }

  lemma Appended(slots: seq<Slot>, s: Slot)
    ensures MapOf(slots + [s]) == MapOf(slots)[Canonical(s.key) := s.value]
  {
    assert (slots + [s])[..|slots|] == slots;
  }

  class MapTable {
    var entries: array<Slot>
    var count: nat

    /** Exactly the first `count` slots are occupied, with pairwise different keys. */
    ghost predicate Valid()
      reads this, entries
    {
      && count <= entries.Length && entries.Length >= 8
      && (forall i | 0 <= i < entries.Length :: entries[i].occupied <==> i < count)
      && DistinctKeys(entries[..count])
    }

    ghost function Contents(): map<Item, Item>
      requires count <= entries.Length
      reads this, entries
    {
      MapOf(entries[..count])
    }

    /** Small capacities are rounded up to 8. */
    constructor (capacity: nat)
      ensures Valid() && fresh(entries) && Contents() == map[] && count == 0
      ensures entries.Length == if capacity < 8 then 8 else capacity
    {
      entries := new Slot[if capacity < 8 then 8 else capacity](_ => EMPTY);
      count := 0;
    }

    /** Moves the occupied slots, each to the first free slot of a larger array. */
    method Expand(newCapacity: nat)
      requires Valid()
      modifies this`entries
      ensures Valid() && entries[..count] == old(entries[..count]) && Contents() == old(Contents())
      ensures if newCapacity <= old(entries.Length) then entries == old(entries)
              else fresh(entries) && entries.Length == newCapacity
    {
      if newCapacity <= entries.Length { return; }
      var bigger := new Slot[newCapacity](_ => EMPTY);
      var i := 0;
      while i < entries.Length
        modifies bigger
        invariant i <= entries.Length
        invariant forall k | 0 <= k < i && k < count :: bigger[k] == entries[k]
        invariant forall k | 0 <= k < newCapacity && (k >= i || k >= count) :: bigger[k] == EMPTY
      {
        if entries[i].occupied {
          var j := 0;
          while bigger[j].occupied
            invariant j <= i
            decreases i - j
          {
            j := j + 1;
          }
          bigger[j] := Slot(true, entries[i].key, entries[i].value);
        }
        i := i + 1;
      }
      assert bigger[..count] == entries[..count];
      entries := bigger;
    }

    /** The occupied slot that holds the key, or the capacity if there is none. */
    method IndexOf(key: Item) returns (i: nat)
      requires Valid()
      ensures i < count || i == entries.Length
      ensures i < count ==> Canonical(entries[i].key) == Canonical(key)
      ensures (Canonical(key) in Contents()) <==> i < count
    {
      KeyIn(entries[..count], Canonical(key));
      i := 0;
      while i < entries.Length
        invariant i <= entries.Length
        invariant forall k | 0 <= k < i && k < count :: Canonical(entries[k].key) != Canonical(key)
      {
        KeyEqualsIff(entries[i].key, key);
        if entries[i].occupied && KeyEquals(entries[i].key, key) {
          assert entries[..count][i] == entries[i];
          return;
        }
        i := i + 1;
      }
    }

    /** The first free slot. */
    method FreeSlot() returns (i: nat)
      requires Valid() && count < entries.Length
      ensures i == count
    {
      i := 0;
      while entries[i].occupied
        invariant i <= count
        decreases count - i
      {
        i := i + 1;
      }
    }

    /** Stores the value in an occupied slot. */
    method Overwrite(i: nat, value: Item)
      requires Valid() && i < count
      modifies entries
      ensures Valid() && Contents() == old(Contents())[Canonical(old(entries[i].key)) := value]
      ensures entries[..] == old(entries[..])[i := old(entries[i]).(value := value)]
    {
      hide MapOf;
      ghost var before := entries[..count];
      Overwritten(before, i, value);
      entries[i] := entries[i].(value := value);
      assert entries[..count] == before[i := before[i].(value := value)];
    }

    /** Occupies the first free slot. */
    method Insert(key: Item, value: Item)
      requires Valid() && count < entries.Length && Canonical(key) !in Contents()
      modifies this`count, entries
      ensures Valid() && Contents() == old(Contents())[Canonical(key) := value]
      ensures count == old(count) + 1 && entries[..] == old(entries[..])[old(count) := Slot(true, key, value)]
    {
      hide MapOf;
      ghost var before := entries[..count];
      KeyIn(before, Canonical(key));
      Appended(before, Slot(true, key, value));
      var i := FreeSlot();
      entries[i] := Slot(true, key, value);
      count := count + 1;
      assert entries[..count] == before + [Slot(true, key, value)];
    }

    /** Overwrites the value of a key that is there, otherwise takes the first free slot;
        a full table is doubled first, even for an overwrite. */
    method Set(key: Item, value: Item)
      requires Valid()
      modifies this, entries
      ensures Valid() && Contents() == old(Contents())[Canonical(key) := value]
      ensures entries == old(entries) || fresh(entries)
      ensures entries.Length == old(entries.Length) * if old(count) == old(entries.Length) then 2 else 1
      ensures count == old(count) + if Canonical(key) in old(Contents()) then 0 else 1
    {
      hide MapOf, DistinctKeys, Canonical;
      if count >= entries.Length { Expand(if entries.Length < 8 then 8 else entries.Length * 2); }
      var i := IndexOf(key);
      if i < entries.Length { Overwrite(i, value); } else { Insert(key, value); }
    }

    /** The last value set for the key, if any. */
    method Get(key: Item) returns (found: bool, value: Item)
      requires Valid()
      ensures found == (Canonical(key) in Contents())
      ensures found ==> value == Contents()[Canonical(key)]
    {
      var i := IndexOf(key);
      if i == entries.Length { return false, Nil; }
      ValueAt(entries[..count], i);
      return true, entries[i].value;
    }
  }
}
