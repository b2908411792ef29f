/**
 JSON values and the two serializers that sort object keys: the kernel's `Canonicalize` and the orchestrator's
 `StableStringify`. Strings are quoted as section 7 of RFC 8259 prescribes, with the escapes `JSON.stringify` chooses.
 */
module Json {
  import opened Wrappers

  predicate NumeralChar(c: char) {
    ('0' <= c <= '9') || c == '-' || c == '+' || c == '.' || c == 'e' || c == 'E'
  }

  predicate AllNumeral(s: string) {
    forall i | 0 <= i < |s| :: NumeralChar(s[i])
  }

  /** The text of a finite number; equal numbers have equal text. */
  type Numeral = s: string | |s| >= 1 && AllNumeral(s) witness "0"

  datatype Value =
    | Null
    | Bool(b: bool)
    | Num(text: Numeral)
    | Str(s: string)
    | Arr(items: seq<Value>)
    | Obj(fields: seq<Field>)

  datatype Field = Field(key: string, value: Value)

  /* ---------- quoting ---------- */

  function HexDigit(d: nat): char
    requires d < 16
  {
    if d < 10 then ('0' as int + d) as char else ('a' as int + (d - 10)) as char
  }

  function EscapeChar(c: char): string {
    if c == '"' then "\\\""
    else if c == '\\' then "\\\\"
    else if c == 8 as char then "\\b"
    else if c == 12 as char then "\\f"
    else if c == '\n' then "\\n"
    else if c == '\r' then "\\r"
    else if c == '\t' then "\\t"
    else if c as int < 32 then ['\\', 'u', '0', '0', HexDigit(c as int / 16), HexDigit(c as int % 16)]
    else [c]
  }

  function Escape(s: string): string {
    if s == "" then "" else EscapeChar(s[0]) + Escape(s[1..])
  }

  function Quote(s: string): string {
    "\"" + Escape(s) + "\""
  }

  /* ---------- sorting by key ---------- */

  /** Comparison character by character; a proper prefix comes first. */
  predicate KeyLess(a: string, b: string) {
    b != "" && (a == "" || a[0] < b[0] || (a[0] == b[0] && KeyLess(a[1..], b[1..])))
  }

  function Insert(f: Field, sorted: seq<Field>): seq<Field> {
    if sorted == [] || KeyLess(f.key, sorted[0].key) then [f] + sorted else [sorted[0]] + Insert(f, sorted[1..])
  }

  function SortByKey(fields: seq<Field>): (sorted: seq<Field>)
    ensures forall f :: f in sorted <==> f in fields
  {
    if fields == [] then []
    else
      var rest := SortByKey(fields[1..]);
      InsertMembers(fields[0], rest);
      assert fields == [fields[0]] + fields[1..];
      Insert(fields[0], rest)
  }

  lemma {:induction false} InsertMembers(f: Field, sorted: seq<Field>)
    ensures forall g :: g in Insert(f, sorted) <==> g == f || g in sorted
  {
    if !(sorted == [] || KeyLess(f.key, sorted[0].key)) {
      InsertMembers(f, sorted[1..]);
      assert sorted == [sorted[0]] + sorted[1..];
    }
  }

  /* ---------- the serializers ---------- */

  function Join(parts: seq<string>): string {
    if parts == [] then "" else if |parts| == 1 then parts[0] else parts[0] + "," + Join(parts[1..])
  }

  function BoolText(b: bool): string {
    if b then "true" else "false"
  }

  /** Sorted entries, each written as its quoted key, a colon, and the canonical form of its value. */
  function Canonicalize(v: Value): string
    decreases v, 1, 0
  {
    match v
    case Null => "null"
    case Bool(b) => BoolText(b)
    case Num(text) => text
    case Str(s) => Quote(s)
    case Arr(items) => "[" + Join(CanonicalItems(v, items)) + "]"
    case Obj(fields) => "{" + Join(CanonicalEntries(v, SortByKey(fields))) + "}"
  }

  function CanonicalItems(parent: Value, items: seq<Value>): seq<string>
    requires parent.Arr? && forall x | x in items :: x in parent.items
    decreases parent, 0, |items|
  {
    if items == [] then []
    else
      assert items[0] in parent.items;
      [Canonicalize(items[0])] + CanonicalItems(parent, items[1..])
  }

  function CanonicalEntries(parent: Value, fields: seq<Field>): seq<string>
    requires parent.Obj? && forall f | f in fields :: f in parent.fields
    decreases parent, 0, |fields|
  {
    if fields == [] then []
    else
      assert fields[0] in parent.fields;
      [Quote(fields[0].key) + ":" + Canonicalize(fields[0].value)] + CanonicalEntries(parent, fields[1..])
  }

  /** Sorted keys, each looked up again in the object. */
  function StableStringify(v: Value): string
    decreases v, 1, 0
  {
    match v
    case Null => "null"
    case Bool(b) => BoolText(b)
    case Num(text) => text
    case Str(s) => Quote(s)
    case Arr(items) => "[" + Join(StableItems(v, items)) + "]"
    case Obj(fields) => "{" + Join(StableEntries(v, SortedKeys(fields))) + "}"
  }

  function StableItems(parent: Value, items: seq<Value>): seq<string>
    requires parent.Arr? && forall x | x in items :: x in parent.items
    decreases parent, 0, |items|
  {
    if items == [] then []
    else
      assert items[0] in parent.items;
      [StableStringify(items[0])] + StableItems(parent, items[1..])
  }

  function StableEntries(parent: Value, keys: seq<string>): seq<string>
    requires parent.Obj? && forall k | k in keys :: Lookup(parent.fields, k).Some?
    decreases parent, 0, |keys|
  {
    if keys == [] then []
    else
      LookupIn(parent.fields, keys[0]);
      [Quote(keys[0]) + ":" + StableStringify(Lookup(parent.fields, keys[0]).value)] + StableEntries(parent, keys[1..])
  }

  /** The value under a key; the last of equally named fields wins. */
  function Lookup(fields: seq<Field>, key: string): Option<Value> {
    if fields == [] then None
    else if fields[|fields| - 1].key == key then Some(fields[|fields| - 1].value)
    else Lookup(fields[..|fields| - 1], key)
  }

  lemma {:induction false} LookupIn(fields: seq<Field>, key: string)
    requires Lookup(fields, key).Some?
    ensures Field(key, Lookup(fields, key).value) in fields
  {
    var last := |fields| - 1;
    if fields[last].key == key {
      assert fields[last] in fields;
    } else {
      LookupIn(fields[..last], key);
    }
  }

  lemma {:induction false} LookupFinds(fields: seq<Field>, i: nat)
    requires i < |fields|
    ensures Lookup(fields, fields[i].key).Some?
  {
    if i < |fields| - 1 { LookupFinds(fields[..|fields| - 1], i); }
  }

  function KeysOf(fields: seq<Field>): seq<string> {
    seq(|fields|, i requires 0 <= i < |fields| => fields[i].key)
  }

  function SortedKeys(fields: seq<Field>): (keys: seq<string>)
    ensures forall k | k in keys :: Lookup(fields, k).Some?
  {
    var sorted := SortByKey(fields);
    var keys := KeysOf(sorted);
    assert forall k | k in keys :: Lookup(fields, k).Some? by {
      forall k | k in keys
        ensures Lookup(fields, k).Some?
      {
        var i :| 0 <= i < |keys| && keys[i] == k;
        assert sorted[i] in fields && sorted[i].key == k;
        var j :| 0 <= j < |fields| && fields[j] == sorted[i];
        LookupFinds(fields, j);
      }
    }
    keys
  }
}
