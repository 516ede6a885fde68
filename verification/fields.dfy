/** The field system (redlog/fields.py): a field is a key and an already
    stringified value; a field set is an ordered sequence of fields that keeps
    duplicate keys. The in-place builders `add` and `merge` are modelled as
    transitions from the receiver's old contents to its new ones; `with_field`
    and `with_fields` return a new set and leave their inputs alone. */
module Fields {
  import opened Utils

  datatype Field = Field(key: string, value: string)

  /** `Field(key, value)`: the value is stringified once, at construction. */
  function MakeField(key: string, v: Value): (f: Field)
    ensures f.key == key
    ensures f.value == Stringify(v)
  {
    Field(key, Stringify(v))
  }

  /** What the constructor stores for the value kinds callers use most. */
  lemma FieldValues(key: string)
    ensures MakeField(key, Str("value1")).value == "value1"
    ensures MakeField(key, Null).value == "null"
    ensures MakeField(key, Int(42)).value == "42"
    ensures MakeField(key, Bool(true)).value == "True"
  {
    assert Text.NatToString(42) == Text.NatToString(4) + [Text.DigitChar(2)];
  }

  datatype FieldSet = FieldSet(items: seq<Field>)

  const NoFields: FieldSet := FieldSet([])

  /** `len(field_set)`. */
  function Len(fs: FieldSet): nat
  {
    |fs.items|
  }

  /** `field_set.empty()`. */
  function Empty(fs: FieldSet): (r: bool)
    ensures r <==> Len(fs) == 0
    ensures r <==> fs == NoFields
  {
    |fs.items| == 0
  }

  /** `add(field)`: the receiver's contents after appending in place. */
  function Add(fs: FieldSet, f: Field): (r: FieldSet)
    ensures Len(r) == Len(fs) + 1
    ensures r.items[..Len(fs)] == fs.items
    ensures r.items[Len(fs)] == f
  {
    FieldSet(fs.items + [f])
  }

  /** `merge(other)`: the receiver's contents after extending it in place. */
  function Merge(fs: FieldSet, other: FieldSet): (r: FieldSet)
    ensures Len(r) == Len(fs) + Len(other)
    ensures r.items[..Len(fs)] == fs.items
    ensures r.items[Len(fs)..] == other.items
  {
    FieldSet(fs.items + other.items)
  }

  /** `with_field(field)`: a new set, the receiver's fields followed by `f`. */
  function WithField(fs: FieldSet, f: Field): (r: FieldSet)
    ensures Len(r) == Len(fs) + 1
    ensures r.items[..Len(fs)] == fs.items
    ensures r.items[Len(fs)] == f
  {
    FieldSet(fs.items + [f])
  }

  /** `with_fields(other)`: a new set, the receiver's fields followed by all of `other`'s. */
  function WithFields(fs: FieldSet, other: FieldSet): (r: FieldSet)
    ensures Len(r) == Len(fs) + Len(other)
    ensures r.items[..Len(fs)] == fs.items
    ensures r.items[Len(fs)..] == other.items
  {
    FieldSet(fs.items + other.items)
  }

  /** The in-place builders leave the receiver holding exactly what the
      persistent builders return. */
  lemma BuildersAgree(fs: FieldSet, f: Field, other: FieldSet)
    ensures Add(fs, f) == WithField(fs, f)
    ensures Merge(fs, other) == WithFields(fs, other)
  {
  }

  /** Iterating a field set yields its fields in insertion order. */
  function Iterate(fs: FieldSet): (r: seq<Field>)
    ensures |r| == Len(fs)
    ensures forall i :: 0 <= i < |r| ==> r[i] == fs.items[i]
  {
    fs.items
  }

  /** How many fields carry key `k`. */
  function CountKey(items: seq<Field>, k: string): nat
  {
    if |items| == 0 then 0
    else CountKey(items[..|items| - 1], k) + (if items[|items| - 1].key == k then 1 else 0)
  }

  lemma {:induction false} CountKeyConcat(a: seq<Field>, b: seq<Field>, k: string)
    ensures CountKey(a + b, k) == CountKey(a, k) + CountKey(b, k)
    decreases |b|
  {
    if |b| > 0 {
      assert (a + b)[..|a + b| - 1] == a + b[..|b| - 1];
      CountKeyConcat(a, b[..|b| - 1], k);
    } else {
      assert a + b == a;
    }
  }

  /** Duplicate keys are never collapsed: appending adds to the count of
      every key instead of replacing an earlier field with the same key. */
  lemma KeepsDuplicates(fs: FieldSet, f: Field, other: FieldSet, k: string)
    ensures CountKey(WithField(fs, f).items, k) == CountKey(fs.items, k) + (if f.key == k then 1 else 0)
    ensures CountKey(WithFields(fs, other).items, k) == CountKey(fs.items, k) + CountKey(other.items, k)
  {
    CountKeyConcat(fs.items, [f], k);
    assert [f][..0] == [];
    CountKeyConcat(fs.items, other.items, k);
  }
}
