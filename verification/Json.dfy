/** Ordered JSON trees and the record shapes that serde derives over them.

    Objects keep their entries in order (`serde_json` with `preserve_order`). A derived
    struct reader takes an object, or an array holding the fields in declaration order;
    both views become one list of slots, `None` where the field is absent. */
module Json {
  import opened Wrappers

  const TWO_64: nat := 0x1_0000_0000_0000_0000

  type U64 = n: nat | n < TWO_64

  /** The magnitude of a negative `i64`. */
  type NegI64 = n: nat | 0 < n <= 0x8000_0000_0000_0000 witness 1

  /** The bits of a finite `f64`: its eleven exponent bits are not all ones. */
  type FiniteF64 = b: U64 | b / 0x10_0000_0000_0000 % 2048 != 2047

  /** `serde_json::Number`: an unsigned 64-bit integer, a negative one, or a finite float. */
  datatype Number = UInt(n: U64) | Negative(magnitude: NegI64) | Float(bits: FiniteF64)

  datatype Json =
    | Null
    | Bool(b: bool)
    | Num(n: Number)
    | Str(s: string)
    | Arr(items: seq<Json>)
    | Obj(entries: seq<Entry>)

  datatype Entry = Entry(key: string, value: Json)

  /** Containers the text parser of `serde_json` opens before it refuses: its depth
      counter starts at 128 and may not reach zero. The printer has no such limit. */
  const MAX_NESTING: nat := 127

  ghost predicate DistinctStrings(s: seq<string>) {
    forall i, j :: 0 <= i < j < |s| ==> s[i] != s[j]
  }

  ghost predicate DistinctKeys(entries: seq<Entry>) {
    forall i, j :: 0 <= i < j < |entries| ==> entries[i].key != entries[j].key
  }

  /** A tree the in-memory `Value` type can hold (no key twice in one object), at most
      `depth` containers deep. */
  ghost predicate Sane(j: Json, depth: nat)
    decreases depth
  {
    match j
    case Arr(items) => depth > 0 && forall i :: 0 <= i < |items| ==> Sane(items[i], depth - 1)
    case Obj(entries) =>
      && depth > 0
      && DistinctKeys(entries)
      && forall i :: 0 <= i < |entries| ==> Sane(entries[i].value, depth - 1)
    case _ => true
  }

  lemma {:induction false} SaneDeeper(j: Json, shallow: nat, deep: nat)
    requires shallow <= deep && Sane(j, shallow)
    ensures Sane(j, deep)
    decreases shallow
  {
    match j
    case Arr(items) =>
      forall i | 0 <= i < |items| ensures Sane(items[i], deep - 1) {
        SaneDeeper(items[i], shallow - 1, deep - 1);
      }
    case Obj(entries) =>
      forall i | 0 <= i < |entries| ensures Sane(entries[i].value, deep - 1) {
        SaneDeeper(entries[i].value, shallow - 1, deep - 1);
      }
    case _ =>
  }

  // ---------------------------------------------------------------- lookup

  /** The value under `key`, as `Value::get` finds it. */
  function Lookup(entries: seq<Entry>, key: string): (r: Option<Json>)
    ensures r.Some? <==> exists i :: 0 <= i < |entries| && entries[i].key == key
    ensures r.Some? ==> exists i :: 0 <= i < |entries| && entries[i] == Entry(key, r.value)
  {
    if entries == [] then None
    else if entries[0].key == key then
      assert entries[0] == Entry(key, entries[0].value);
      Some(entries[0].value)
    else
      assert forall i :: 1 <= i < |entries| ==> entries[i] == entries[1..][i - 1];
      var r := Lookup(entries[1..], key);
      assert r.Some? ==> exists i :: 0 <= i < |entries[1..]| && entries[1..][i] == Entry(key, r.value);
      r
  }

  // ---------------------------------------------------------------- slots

  type Slots = seq<Option<Json>>

  /** A positional reader: an array no longer than the field list fills the first slots. */
  function ArraySlots(items: seq<Json>, names: seq<string>): Option<Slots> {
    if |items| <= |names| then
      Some(seq(|names|, i requires 0 <= i < |names| => if i < |items| then Some(items[i]) else None))
    else
      None
  }

  /** A closed struct (`deny_unknown_fields`): a key outside `names` refuses the whole. */
  function ClosedSlots(j: Json, names: seq<string>): Option<Slots> {
    match j
    case Obj(entries) =>
      if forall i :: 0 <= i < |entries| ==> entries[i].key in names then
        Some(seq(|names|, i requires 0 <= i < |names| => Lookup(entries, names[i])))
      else
        None
    case Arr(items) => ArraySlots(items, names)
    case _ => None
  }

  /** An open struct: unknown keys are tolerated. */
  function OpenSlots(j: Json, names: seq<string>): Option<Slots> {
    match j
    case Obj(entries) => Some(seq(|names|, i requires 0 <= i < |names| => Lookup(entries, names[i])))
    case Arr(items) => ArraySlots(items, names)
    case _ => None
  }

  /** What stands in a tree for the i-th field: in an object the value under its name, in an
      array the i-th item. */
  ghost predicate SlotIs(j: Json, names: seq<string>, i: nat, slot: Option<Json>)
    requires i < |names|
  {
    match j
    case Obj(entries) =>
      if slot.Some? then Entry(names[i], slot.value) in entries else forall e :: e in entries ==> e.key != names[i]
    case Arr(items) => slot == if i < |items| then Some(items[i]) else None
    case _ => false
  }

  /** Reading a closed struct: refused for a key of no field or an item too many, and for
      what is neither object nor array, and for nothing else. */
  lemma ClosedSlotsMean(j: Json, names: seq<string>)
    ensures var s := ClosedSlots(j, names);
            && (s.Some? <==>
                  || (j.Obj? && forall e :: e in j.entries ==> e.key in names)
                  || (j.Arr? && |j.items| <= |names|))
            && (s.Some? ==> |s.value| == |names| && forall i :: 0 <= i < |names| ==> SlotIs(j, names, i, s.value[i]))
  {
    if j.Obj? {
      assert forall i :: 0 <= i < |j.entries| ==> j.entries[i] in j.entries;
      FieldsMean(j.entries, names);
    }
  }

  /** Reading an open struct: any object will do. */
  lemma OpenSlotsMean(j: Json, names: seq<string>)
    ensures var s := OpenSlots(j, names);
            && (s.Some? <==> j.Obj? || (j.Arr? && |j.items| <= |names|))
            && (s.Some? ==> |s.value| == |names| && forall i :: 0 <= i < |names| ==> SlotIs(j, names, i, s.value[i]))
  {
    if j.Obj? { FieldsMean(j.entries, names); }
  }

  lemma FieldsMean(entries: seq<Entry>, names: seq<string>)
    ensures forall i :: 0 <= i < |names| ==> SlotIs(Obj(entries), names, i, Lookup(entries, names[i]))
  {
    forall i | 0 <= i < |names| ensures SlotIs(Obj(entries), names, i, Lookup(entries, names[i])) {
      var slot := Lookup(entries, names[i]);
      if slot.Some? {
        var k :| 0 <= k < |entries| && entries[k] == Entry(names[i], slot.value);
      }
    }
  }

  /** The object a struct serializes to: declared order, absent optional fields skipped. */
  function Compact(names: seq<string>, slots: Slots): seq<Entry>
    requires |slots| == |names|
  {
    if names == [] then []
    else (if slots[0].Some? then [Entry(names[0], slots[0].value)] else []) + Compact(names[1..], slots[1..])
  }

  lemma {:induction false} CompactEntries(names: seq<string>, slots: Slots)
    requires |slots| == |names|
    ensures forall e :: e in Compact(names, slots) <==>
              exists i :: 0 <= i < |names| && slots[i] == Some(e.value) && e.key == names[i]
  {
    if names != [] {
      CompactEntries(names[1..], slots[1..]);
      var rest := Compact(names[1..], slots[1..]);
      forall e | e in Compact(names, slots)
        ensures exists i :: 0 <= i < |names| && slots[i] == Some(e.value) && e.key == names[i]
      {
        if e in rest {
          var i :| 0 <= i < |names[1..]| && slots[1..][i] == Some(e.value) && e.key == names[1..][i];
          assert slots[i + 1] == Some(e.value) && e.key == names[i + 1];
        } else {
          assert slots[0] == Some(e.value) && e.key == names[0];
        }
      }
      forall e: Entry, i | 0 <= i < |names| && slots[i] == Some(e.value) && e.key == names[i]
        ensures e in Compact(names, slots)
      {
        if i > 0 {
          assert slots[1..][i - 1] == Some(e.value) && e.key == names[1..][i - 1];
        } else {
          assert e == Entry(names[0], slots[0].value);
        }
      }
    }
  }

  /** Fields are written in the order they are declared in. */
  lemma {:induction false} CompactInOrder(names: seq<string>, slots: Slots, i: nat, j: nat) returns (a: nat, b: nat)
    requires |slots| == |names| && i < j < |Compact(names, slots)|
    ensures a < b < |names| && Compact(names, slots)[i].key == names[a] && Compact(names, slots)[j].key == names[b]
    decreases |names|
  {
    var rest := Compact(names[1..], slots[1..]);
    if slots[0].None? {
      assert Compact(names, slots) == rest;
      a, b := CompactInOrder(names[1..], slots[1..], i, j);
      a, b := a + 1, b + 1;
    } else {
      assert Compact(names, slots) == [Entry(names[0], slots[0].value)] + rest;
      if i > 0 {
        a, b := CompactInOrder(names[1..], slots[1..], i - 1, j - 1);
        a, b := a + 1, b + 1;
      } else {
        CompactEntries(names[1..], slots[1..]);
        assert rest[j - 1] in rest;
        var k :| 0 <= k < |names[1..]| && slots[1..][k] == Some(rest[j - 1].value) && rest[j - 1].key == names[1..][k];
        a, b := 0, k + 1;
      }
    }
  }

  lemma {:induction false} CompactDistinct(names: seq<string>, slots: Slots)
    requires |slots| == |names| && DistinctStrings(names)
    ensures DistinctKeys(Compact(names, slots))
  {
    if names != [] {
      CompactDistinct(names[1..], slots[1..]);
      CompactEntries(names[1..], slots[1..]);
      var rest := Compact(names[1..], slots[1..]);
      if slots[0].Some? {
        assert Compact(names, slots) == [Entry(names[0], slots[0].value)] + rest;
        forall i | 0 <= i < |rest| ensures rest[i].key != names[0] {
          assert rest[i] in rest;
          var k :| 0 <= k < |names[1..]| && slots[1..][k] == Some(rest[i].value) && rest[i].key == names[1..][k];
          assert names[0] != names[k + 1];
        }
      } else {
        assert Compact(names, slots) == rest;
      }
    }
  }

  lemma CompactLookup(names: seq<string>, slots: Slots, i: nat)
    requires |slots| == |names| && DistinctStrings(names) && i < |names|
    ensures Lookup(Compact(names, slots), names[i]) == slots[i]
  {
    var entries := Compact(names, slots);
    CompactEntries(names, slots);
    assert slots[i].Some? ==> Entry(names[i], slots[i].value) in entries;
    var r := Lookup(entries, names[i]);
    if r.Some? {
      var k :| 0 <= k < |entries| && entries[k] == Entry(names[i], r.value);
      assert entries[k] in entries;
      var h :| 0 <= h < |names| && slots[h] == Some(entries[k].value) && entries[k].key == names[h];
      assert h == i;
    }
  }

  /** Writing a struct and reading it back finds every field where it was. */
  lemma SlotsReadBack(names: seq<string>, slots: Slots)
    requires |slots| == |names| && DistinctStrings(names)
    ensures ClosedSlots(Obj(Compact(names, slots)), names) == Some(slots)
  {
    var entries := Compact(names, slots);
    CompactEntries(names, slots);
    forall i | 0 <= i < |entries| ensures entries[i].key in names {
      assert entries[i] in entries;
    }
    forall i | 0 <= i < |names| ensures Lookup(entries, names[i]) == slots[i] {
      CompactLookup(names, slots, i);
    }
    var got := seq(|names|, i requires 0 <= i < |names| => Lookup(entries, names[i]));
    assert got == slots;
  }

  ghost predicate SlotsSane(slots: Slots, depth: nat) {
    forall i :: 0 <= i < |slots| && slots[i].Some? ==> Sane(slots[i].value, depth)
  }

  /** A struct's object nests one deeper than its deepest field. */
  lemma CompactSane(names: seq<string>, slots: Slots, depth: nat)
    requires |slots| == |names| && DistinctStrings(names)
    ensures Sane(Obj(Compact(names, slots)), depth) <==> depth > 0 && SlotsSane(slots, depth - 1)
  {
    var entries := Compact(names, slots);
    CompactEntries(names, slots);
    CompactDistinct(names, slots);
    if depth > 0 {
      if SlotsSane(slots, depth - 1) {
        forall i | 0 <= i < |entries| ensures Sane(entries[i].value, depth - 1) {
          assert entries[i] in entries;
        }
      }
      if Sane(Obj(entries), depth) {
        forall i | 0 <= i < |slots| && slots[i].Some? ensures Sane(slots[i].value, depth - 1) {
          var e := Entry(names[i], slots[i].value);
          assert e in entries;
          var k :| 0 <= k < |entries| && entries[k] == e;
        }
      }
    }
  }

  /** What a sane tree hands its reader is sane, one level down. */
  lemma ReadSlotsSane(j: Json, names: seq<string>, depth: nat)
    requires Sane(j, depth)
    ensures ClosedSlots(j, names).Some? ==> depth > 0 && SlotsSane(ClosedSlots(j, names).value, depth - 1)
    ensures OpenSlots(j, names).Some? ==> depth > 0 && SlotsSane(OpenSlots(j, names).value, depth - 1)
  {
    match j
    case Obj(entries) =>
      forall i | 0 <= i < |names| && Lookup(entries, names[i]).Some?
        ensures Sane(Lookup(entries, names[i]).value, depth - 1)
      {
        var v := Lookup(entries, names[i]).value;
        var k :| 0 <= k < |entries| && entries[k] == Entry(names[i], v);
      }
    case _ =>
  }

  // ---------------------------------------------------------------- field readers

  /** A required string field. */
  function AsString(slot: Option<Json>): Option<string> {
    if slot.Some? && slot.value.Str? then Some(slot.value.s) else None
  }

  /** A field read as `u64`: only an unsigned integer will do. */
  function AsU64(slot: Option<Json>): Option<U64> {
    if slot.Some? && slot.value.Num? && slot.value.n.UInt? then Some(slot.value.n.n) else None
  }

  /** An optional string: absent and `null` both read as none; anything else must be a string. */
  function AsOptString(slot: Option<Json>): Option<Option<string>> {
    match slot
    case None => Some(None)
    case Some(Null) => Some(None)
    case Some(Str(s)) => Some(Some(s))
    case Some(_) => None
  }

  /** An optional opaque object (`ext`, `params`), its entries kept as they are. */
  function AsOptObject(slot: Option<Json>): Option<Option<seq<Entry>>> {
    match slot
    case None => Some(None)
    case Some(Null) => Some(None)
    case Some(Obj(entries)) => Some(Some(entries))
    case Some(_) => None
  }

  /** An optional opaque value: `null` reads as absent. */
  function AsOptValue(slot: Option<Json>): Option<Json> {
    match slot
    case Some(Null) => None
    case _ => slot
  }

  function AsStrings(slot: Option<Json>): Option<seq<string>> {
    if slot.Some? && slot.value.Arr? && forall i :: 0 <= i < |slot.value.items| ==> slot.value.items[i].Str? then
      var items := slot.value.items;
      Some(seq(|items|, i requires 0 <= i < |items| => items[i].s))
    else
      None
  }

  /** A list whose every item must read. */
  function AsList<T>(slot: Option<Json>, read: Json -> Option<T>): Option<seq<T>> {
    if slot.Some? && slot.value.Arr? && forall i :: 0 <= i < |slot.value.items| ==> read(slot.value.items[i]).Some? then
      var items := slot.value.items;
      Some(seq(|items|, i requires 0 <= i < |items| => read(items[i]).value))
    else
      None
  }

  // ---------------------------------------------------------------- field writers

  function OfOptString(s: Option<string>): Option<Json> {
    if s.Some? then Some(Str(s.value)) else None
  }

  function OfOptObject(o: Option<seq<Entry>>): Option<Json> {
    if o.Some? then Some(Obj(o.value)) else None
  }

  function OfStrings(s: seq<string>): Json {
    Arr(seq(|s|, i requires 0 <= i < |s| => Str(s[i])))
  }

  function OfList<T>(xs: seq<T>, write: T -> Json): Json {
    Arr(seq(|xs|, i requires 0 <= i < |xs| => write(xs[i])))
  }

  lemma StringsReadBack(s: seq<string>)
    ensures AsStrings(Some(OfStrings(s))) == Some(s)
  {
    var items := OfStrings(s).items;
    assert seq(|items|, i requires 0 <= i < |items| => items[i].s) == s;
  }

  lemma ListReadsBack<T>(xs: seq<T>, write: T -> Json, read: Json -> Option<T>)
    requires forall i :: 0 <= i < |xs| ==> read(write(xs[i])) == Some(xs[i])
    ensures AsList(Some(OfList(xs, write)), read) == Some(xs)
  {
    var items := OfList(xs, write).items;
    assert seq(|items|, i requires 0 <= i < |items| => read(items[i]).value) == xs;
  }
}
