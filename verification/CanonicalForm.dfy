/**
 The canonical form is a faithful code: two values have the same one exactly when they are equal up to the order of
 object keys; and the two serializers agree.
 */
module CanonicalForm {
  import opened Wrappers
  import opened Json

  /* ---------- equality up to key order ---------- */

  predicate DistinctKeys(fields: seq<Field>) {
    forall i, j | 0 <= i < j < |fields| :: fields[i].key != fields[j].key
  }

  /** No object has two fields with the same key, as is true of every JavaScript object. */
  predicate WellFormed(v: Value) {
    match v
    case Arr(items) => forall x | x in items :: WellFormed(x)
    case Obj(fields) => DistinctKeys(fields) && forall f | f in fields :: WellFormed(f.value)
    case _ => true
  }

  predicate HasKey(fs: seq<Field>, k: string) {
    exists f :: f in fs && f.key == k
  }

  ghost predicate Equiv(a: Value, b: Value)
    decreases a
  {
    match a
    case Null => b.Null?
    case Bool(x) => b.Bool? && b.b == x
    case Num(text) => b.Num? && b.text == text
    case Str(s) => b.Str? && b.s == s
    case Arr(items) => b.Arr? && |b.items| == |items| && forall i | 0 <= i < |items| :: Equiv(items[i], b.items[i])
    case Obj(fields) =>
      && b.Obj?
      && (forall f | f in fields :: HasEqual(f, b.fields))
      && (forall g | g in b.fields :: HasKey(fields, g.key))
  }

  /** Some field has the key of `f` and an equal value. */
  ghost predicate HasEqual(f: Field, fields: seq<Field>)
    decreases f
  {
    exists g :: g in fields && g.key == f.key && Equiv(f.value, g.value)
  }

  /* ---------- strings and numerals delimit themselves ---------- */

  lemma {:induction false} EscapeCharSplit(c: char, d: char, x: string, y: string)
    requires EscapeChar(c) + x == EscapeChar(d) + y
    ensures c == d && x == y
  {
    var e, f := EscapeChar(c), EscapeChar(d);
    assert e[0] == (e + x)[0] && f[0] == (f + y)[0];
    if |e| > 1 && |f| > 1 {
      assert e[1] == (e + x)[1] && f[1] == (f + y)[1];
      if |e| == 6 && |f| == 6 {
        assert e[4] == (e + x)[4] && f[4] == (f + y)[4];
        assert e[5] == (e + x)[5] && f[5] == (f + y)[5];
        HexInjective(c as int / 16, d as int / 16);
        HexInjective(c as int % 16, d as int % 16);
        assert c as int == d as int;
      }
    }
    assert e == f;
    assert x == (e + x)[|e|..] && y == (f + y)[|f|..];
  }

  lemma {:induction false} HexInjective(d: nat, e: nat)
    requires d < 16 && e < 16
    ensures HexDigit(d) == HexDigit(e) ==> d == e
  {}

  /** An escaped string up to its closing quote, and the text after that. */
  function Quoted(s: string, x: string): string {
    if s == "" then "\"" + x else EscapeChar(s[0]) + Quoted(s[1..], x)
  }

  lemma {:induction false} QuotedIs(s: string, x: string)
    ensures Escape(s) + "\"" + x == Quoted(s, x)
  {
    if s != "" {
      QuotedIs(s[1..], x);
      assert Escape(s) + "\"" + x == EscapeChar(s[0]) + (Escape(s[1..]) + "\"" + x);
    }
  }

  lemma {:induction false} QuotedHead(s: string, x: string)
    ensures |Quoted(s, x)| >= 1 && (Quoted(s, x)[0] == '"' <==> s == "")
    ensures s == "" ==> Quoted(s, x)[1..] == x
  {}

  lemma {:induction false} EscapeSplit(a: string, b: string, x: string, y: string)
    requires Quoted(a, x) == Quoted(b, y)
    ensures a == b && x == y
    decreases |a|
  {
    hide EscapeChar;
    QuotedHead(a, x);
    QuotedHead(b, y);
    if a != "" {
      EscapeCharSplit(a[0], b[0], Quoted(a[1..], x), Quoted(b[1..], y));
      EscapeSplit(a[1..], b[1..], x, y);
      assert a == [a[0]] + a[1..] && b == [b[0]] + b[1..];
    }
  }

  lemma {:induction false} QuoteIs(s: string, x: string)
    ensures Quote(s) + x == "\"" + Quoted(s, x)
  {
    QuotedIs(s, x);
    assert Quote(s) + x == "\"" + (Escape(s) + "\"" + x);
  }

  /** A quoted string can be read off the front of any text, and what follows it is then known too. */
  lemma {:induction false} QuoteSplit(a: string, b: string, x: string, y: string)
    requires Quote(a) + x == Quote(b) + y
    ensures a == b && x == y
  {
    hide Quote, Quoted;
    QuoteIs(a, x);
    QuoteIs(b, y);
    ConstantSplit("\"", Quoted(a, x), Quoted(b, y));
    EscapeSplit(a, b, x, y);
  }

  /** What may follow a value: nothing, a comma or a closing bracket. */
  predicate Stops(s: string) {
    s == "" || s[0] == ',' || s[0] == ']' || s[0] == '}'
  }

  lemma {:induction false} NumeralSplit(a: string, b: string, x: string, y: string)
    requires AllNumeral(a) && AllNumeral(b) && Stops(x) && Stops(y) && a + x == b + y
    ensures a == b && x == y
  {
    if |a| < |b| {
      NumeralShorter(a, b, x, y);
    } else if |b| < |a| {
      NumeralShorter(b, a, y, x);
    }
    assert a == (a + x)[..|a|] && b == (b + y)[..|b|];
    assert x == (a + x)[|a|..] && y == (b + y)[|b|..];
  }

  lemma {:induction false} NumeralShorter(a: string, b: string, x: string, y: string)
    requires AllNumeral(b) && Stops(x) && |a| < |b|
    ensures a + x != b + y
  {
    if x == "" {
      assert |a + x| < |b + y|;
    } else {
      assert (a + x)[|a|] == x[0] && (b + y)[|a|] == b[|a|];
    }
  }

  /* ---------- lists ---------- */

  /** What follows the first part of a list: the remaining parts, the closing bracket, and the rest of the text. */
  function Following(parts: seq<string>, close: string, s: string): string {
    if parts == [] then close + s else "," + (Join(parts) + (close + s))
  }

  lemma {:induction false} JoinFirst(parts: seq<string>, close: string, s: string)
    requires parts != []
    ensures Join(parts) + (close + s) == parts[0] + Following(parts[1..], close, s)
  {
    if |parts| == 1 {
      assert parts[1..] == [];
    } else {
      assert Join(parts) + (close + s) == parts[0] + ("," + (Join(parts[1..]) + (close + s)));
    }
  }

  lemma {:induction false} FollowingSplit(p: seq<string>, q: seq<string>, close: string, x: string, y: string)
    requires close == "]" || close == "}"
    requires Following(p, close, x) == Following(q, close, y)
    ensures p == [] <==> q == []
    ensures p != [] ==> Join(p) + (close + x) == Join(q) + (close + y)
    ensures p == [] ==> x == y
  {
    var f, g := Following(p, close, x), Following(q, close, y);
    assert f[0] == (if p == [] then close[0] else ',');
    assert g[0] == (if q == [] then close[0] else ',');
    assert f[1..] == (if p == [] then x else Join(p) + (close + x));
    assert g[1..] == (if q == [] then y else Join(q) + (close + y));
  }

  /* ---------- reading a value ---------- */

  /** The first character of a canonical form tells the kind of the value. */
  lemma {:induction false} FirstChar(v: Value)
    ensures |Canonicalize(v)| >= 1
    ensures var c := Canonicalize(v)[0];
            && (v.Null? <==> c == 'n') && (v.Bool? <==> c == 't' || c == 'f') && (v.Num? <==> NumeralChar(c))
            && (v.Str? <==> c == '"') && (v.Arr? <==> c == '[') && (v.Obj? <==> c == '{')
  {
    match v {
      case Null => case Bool(b) => case Num(text) =>
      case Str(s) => case Arr(items) => case Obj(fields) =>
    }
  }

  /** Where a canonical form ends is determined by the text, and equal forms come from equivalent values. */
  lemma {:induction false} ValueSplit(a: Value, b: Value, x: string, y: string)
    requires Stops(x) && Stops(y) && Canonicalize(a) + x == Canonicalize(b) + y
    ensures Equiv(a, b) && x == y
    decreases a, 1, 0
  {
    FirstChar(a);
    FirstChar(b);
    assert Canonicalize(a)[0] == (Canonicalize(a) + x)[0] && Canonicalize(b)[0] == (Canonicalize(b) + y)[0];
    match a {
      case Null => ConstantSplit("null", x, y);
      case Bool(t) => BoolSplit(t, b.b, x, y);
      case Num(text) => NumeralSplit(text, b.text, x, y);
      case Str(s) => QuoteSplit(s, b.s, x, y);
      case Arr(items) =>
        BracketSplit("[", Join(CanonicalItems(a, items)), Join(CanonicalItems(b, b.items)), "]", x, y);
        ItemsSplit(a, items, b, b.items, x, y);
      case Obj(fields) =>
        BracketSplit("{", Join(CanonicalEntries(a, SortByKey(fields))), Join(CanonicalEntries(b, SortByKey(b.fields))),
          "}", x, y);
        EntriesSplit(a, SortByKey(fields), b, SortByKey(b.fields), x, y);
        SortedPairsEquiv(a, b);
    }
  }

  lemma {:induction false} ConstantSplit(c: string, x: string, y: string)
    requires c + x == c + y
    ensures x == y
  {
    assert x == (c + x)[|c|..] && y == (c + y)[|c|..];
  }

  lemma {:induction false} BoolSplit(a: bool, b: bool, x: string, y: string)
    requires BoolText(a) + x == BoolText(b) + y
    ensures a == b && x == y
  {
    assert (BoolText(a) + x)[0] == BoolText(a)[0] && (BoolText(b) + y)[0] == BoolText(b)[0];
    ConstantSplit(BoolText(a), x, y);
  }

  lemma {:induction false} BracketSplit(open: string, p: string, q: string, close: string, x: string, y: string)
    requires |open| == 1 && (open + p + close) + x == (open + q + close) + y
    ensures p + (close + x) == q + (close + y)
  {
    assert (open + p + close) + x == open + (p + (close + x));
    assert (open + q + close) + y == open + (q + (close + y));
    ConstantSplit(open, p + (close + x), q + (close + y));
  }

  lemma {:induction false} ItemsSplit(a: Value, xs: seq<Value>, b: Value, ys: seq<Value>, x: string, y: string)
    requires a.Arr? && b.Arr? && (forall v | v in xs :: v in a.items) && (forall v | v in ys :: v in b.items)
    requires Join(CanonicalItems(a, xs)) + ("]" + x) == Join(CanonicalItems(b, ys)) + ("]" + y)
    ensures |xs| == |ys| && (forall i | 0 <= i < |xs| :: Equiv(xs[i], ys[i])) && x == y
    decreases a, 0, |xs|
  {
    var p, q := CanonicalItems(a, xs), CanonicalItems(b, ys);
    if xs == [] || ys == [] {
      ItemsHead(a, xs, x);
      ItemsHead(b, ys, y);
      assert xs == [] && ys == [];
      assert x == (Join(p) + ("]" + x))[1..] && y == (Join(q) + ("]" + y))[1..];
    } else {
      JoinFirst(p, "]", x);
      JoinFirst(q, "]", y);
      assert p[0] == Canonicalize(xs[0]) && q[0] == Canonicalize(ys[0]);
      assert xs[0] in a.items;
      ValueSplit(xs[0], ys[0], Following(p[1..], "]", x), Following(q[1..], "]", y));
      FollowingSplit(p[1..], q[1..], "]", x, y);
      assert p[1..] == CanonicalItems(a, xs[1..]) && q[1..] == CanonicalItems(b, ys[1..]);
      if xs[1..] != [] { ItemsSplit(a, xs[1..], b, ys[1..], x, y); }
    }
  }

  lemma {:induction false} ItemsHead(a: Value, xs: seq<Value>, x: string)
    requires a.Arr? && forall v | v in xs :: v in a.items
    ensures (Join(CanonicalItems(a, xs)) + ("]" + x))[0] == ']' <==> xs == []
  {
    if xs != [] {
      FirstChar(xs[0]);
      var p := CanonicalItems(a, xs);
      assert p[0] == Canonicalize(xs[0]);
      JoinFirst(p, "]", x);
      assert (p[0] + Following(p[1..], "]", x))[0] == p[0][0];
    }
  }

  lemma {:induction false} EntriesSplit(a: Value, fs: seq<Field>, b: Value, gs: seq<Field>, x: string, y: string)
    requires a.Obj? && b.Obj? && (forall f | f in fs :: f in a.fields) && (forall g | g in gs :: g in b.fields)
    requires Join(CanonicalEntries(a, fs)) + ("}" + x) == Join(CanonicalEntries(b, gs)) + ("}" + y)
    ensures |fs| == |gs| && x == y
    ensures forall i | 0 <= i < |fs| :: fs[i].key == gs[i].key && Equiv(fs[i].value, gs[i].value)
    decreases a, 0, |fs|
  {
    var p, q := CanonicalEntries(a, fs), CanonicalEntries(b, gs);
    if fs == [] || gs == [] {
      EntriesHead(a, fs, x);
      EntriesHead(b, gs, y);
      assert x == (Join(p) + ("}" + x))[1..] && y == (Join(q) + ("}" + y))[1..];
    } else {
      JoinFirst(p, "}", x);
      JoinFirst(q, "}", y);
      assert fs[0] in a.fields;
      var u, v := Following(p[1..], "}", x), Following(q[1..], "}", y);
      EntrySplit(fs[0].key, Canonicalize(fs[0].value), u, gs[0].key, Canonicalize(gs[0].value), v);
      ValueSplit(fs[0].value, gs[0].value, u, v);
      FollowingSplit(p[1..], q[1..], "}", x, y);
      assert p[1..] == CanonicalEntries(a, fs[1..]) && q[1..] == CanonicalEntries(b, gs[1..]);
      if fs[1..] != [] { EntriesSplit(a, fs[1..], b, gs[1..], x, y); }
    }
  }

  lemma {:induction false} EntrySplit(k: string, v: string, x: string, l: string, w: string, y: string)
    requires (Quote(k) + ":" + v) + x == (Quote(l) + ":" + w) + y
    ensures k == l && v + x == w + y
  {
    assert (Quote(k) + ":" + v) + x == Quote(k) + (":" + (v + x));
    assert (Quote(l) + ":" + w) + y == Quote(l) + (":" + (w + y));
    QuoteSplit(k, l, ":" + (v + x), ":" + (w + y));
    ConstantSplit(":", v + x, w + y);
  }

  lemma {:induction false} EntriesHead(a: Value, fs: seq<Field>, x: string)
    requires a.Obj? && forall f | f in fs :: f in a.fields
    ensures (Join(CanonicalEntries(a, fs)) + ("}" + x))[0] == '}' <==> fs == []
  {
    if fs != [] {
      var p := CanonicalEntries(a, fs);
      JoinFirst(p, "}", x);
      assert (p[0] + Following(p[1..], "}", x))[0] == p[0][0] == '"';
    }
  }

  /** Sorted field lists that match pair by pair make their objects equivalent. */
  lemma {:induction false} SortedPairsEquiv(a: Value, b: Value)
    requires a.Obj? && b.Obj?
    requires var fs, gs := SortByKey(a.fields), SortByKey(b.fields);
             |fs| == |gs| && forall i | 0 <= i < |fs| :: fs[i].key == gs[i].key && Equiv(fs[i].value, gs[i].value)
    ensures Equiv(a, b)
  {
    var fs, gs := SortByKey(a.fields), SortByKey(b.fields);
    forall f | f in a.fields
      ensures HasEqual(f, b.fields)
    {
      assert f in fs;
      var i :| 0 <= i < |fs| && fs[i] == f;
      assert gs[i] in b.fields;
    }
    forall g | g in b.fields
      ensures HasKey(a.fields, g.key)
    {
      assert g in gs;
      var i :| 0 <= i < |gs| && gs[i] == g;
      assert fs[i] in a.fields;
    }
  }

  /* ---------- equivalent values have the same form ---------- */

  lemma {:induction false} KeyOrder(a: string, b: string, c: string)
    ensures !KeyLess(a, a)
    ensures KeyLess(a, b) || a == b || KeyLess(b, a)
    ensures KeyLess(a, b) && KeyLess(b, c) ==> KeyLess(a, c)
    decreases |a|
  {
    if a != "" {
      KeyOrder(a[1..], if b == "" then "" else b[1..], if c == "" then "" else c[1..]);
      if b != "" { assert a == [a[0]] + a[1..] && b == [b[0]] + b[1..]; }
    }
  }

  predicate Ascending(fs: seq<Field>) {
    fs != [] ==> (forall g | g in fs[1..] :: KeyLess(fs[0].key, g.key)) && Ascending(fs[1..])
  }

  lemma {:induction false} InsertAscending(f: Field, fs: seq<Field>)
    requires Ascending(fs) && forall g | g in fs :: g.key != f.key
    ensures Ascending(Insert(f, fs))
  {
    if fs == [] {
    } else if KeyLess(f.key, fs[0].key) {
      forall g | g in fs
        ensures KeyLess(f.key, g.key)
      {
        KeyOrder(f.key, fs[0].key, g.key);
        assert g == fs[0] || g in fs[1..];
      }
      assert ([f] + fs)[1..] == fs;
    } else {
      InsertAscending(f, fs[1..]);
      InsertMembers(f, fs[1..]);
      KeyOrder(f.key, fs[0].key, f.key);
      assert fs[0] in fs;
      assert Insert(f, fs)[1..] == Insert(f, fs[1..]);
    }
  }

  lemma {:induction false} SortAscending(fields: seq<Field>)
    requires DistinctKeys(fields)
    ensures Ascending(SortByKey(fields))
  {
    if fields != [] {
      SortAscending(fields[1..]);
      forall g | g in SortByKey(fields[1..])
        ensures g.key != fields[0].key
      {
        assert g in fields[1..];
      }
      InsertAscending(fields[0], SortByKey(fields[1..]));
    }
  }

  /** Ascending lists with the same keys have them in the same places. */
  lemma {:induction false} AscendingKeys(fs: seq<Field>, gs: seq<Field>)
    requires Ascending(fs) && Ascending(gs) && forall k :: HasKey(fs, k) <==> HasKey(gs, k)
    ensures KeysOf(fs) == KeysOf(gs)
  {
    if fs == [] {
      if gs != [] { assert HasKey(gs, gs[0].key); }
    } else if gs == [] {
      assert HasKey(fs, fs[0].key);
    } else {
      FirstKeys(fs, gs);
      forall k
        ensures HasKey(fs[1..], k) <==> HasKey(gs[1..], k)
      {
        TailKeys(fs, k);
        TailKeys(gs, k);
      }
      AscendingKeys(fs[1..], gs[1..]);
      assert KeysOf(fs) == [fs[0].key] + KeysOf(fs[1..]);
      assert KeysOf(gs) == [gs[0].key] + KeysOf(gs[1..]);
    }
  }

  lemma {:induction false} FirstKeys(fs: seq<Field>, gs: seq<Field>)
    requires fs != [] && gs != [] && Ascending(fs) && Ascending(gs) && forall k :: HasKey(fs, k) <==> HasKey(gs, k)
    ensures fs[0].key == gs[0].key
  {
    var a, b := fs[0].key, gs[0].key;
    assert HasKey(fs, a) && HasKey(gs, b);
    TailKeys(gs, a);
    TailKeys(fs, b);
    KeyOrder(a, b, a);
  }

  lemma {:induction false} TailKeys(fs: seq<Field>, k: string)
    requires fs != [] && Ascending(fs)
    ensures HasKey(fs[1..], k) <==> HasKey(fs, k) && k != fs[0].key
    ensures HasKey(fs[1..], k) ==> KeyLess(fs[0].key, k)
  {
    KeyOrder(fs[0].key, fs[0].key, fs[0].key);
    assert fs == [fs[0]] + fs[1..];
  }

  lemma {:induction false} SortKeepsKeys(fields: seq<Field>, k: string)
    ensures HasKey(SortByKey(fields), k) <==> HasKey(fields, k)
  {}

  lemma {:induction false} EquivKeys(a: Value, b: Value, k: string)
    requires a.Obj? && b.Obj? && Equiv(a, b)
    ensures HasKey(a.fields, k) <==> HasKey(b.fields, k)
  {
    if HasKey(a.fields, k) {
      var f :| f in a.fields && f.key == k;
      assert HasEqual(f, b.fields);
    }
    if HasKey(b.fields, k) {
      var g :| g in b.fields && g.key == k;
      assert HasKey(a.fields, g.key);
    }
  }

  lemma {:induction false} SameKeySets(a: Value, b: Value)
    requires a.Obj? && b.Obj? && Equiv(a, b)
    ensures forall k :: HasKey(SortByKey(a.fields), k) <==> HasKey(SortByKey(b.fields), k)
  {
    hide Equiv, HasKey, SortByKey;
    forall k
      ensures HasKey(SortByKey(a.fields), k) <==> HasKey(SortByKey(b.fields), k)
    {
      SortKeepsKeys(a.fields, k);
      SortKeepsKeys(b.fields, k);
      EquivKeys(a, b, k);
    }
  }

  lemma {:induction false} OneFieldPerKey(fields: seq<Field>, f: Field, g: Field)
    requires DistinctKeys(fields) && f in fields && g in fields && f.key == g.key
    ensures f == g
  {
    var i :| 0 <= i < |fields| && fields[i] == f;
    var j :| 0 <= j < |fields| && fields[j] == g;
  }

  lemma {:induction false} EquivSameForm(a: Value, b: Value)
    requires WellFormed(a) && WellFormed(b) && Equiv(a, b)
    ensures Canonicalize(a) == Canonicalize(b)
    decreases a, 1, 0
  {
    match a {
      case Arr(items) =>
        ItemsSame(a, items, b, b.items);
      case Obj(fields) =>
        SortAscending(a.fields);
        SortAscending(b.fields);
        SameKeySets(a, b);
        AscendingKeys(SortByKey(a.fields), SortByKey(b.fields));
        EntriesSame(a, SortByKey(a.fields), b, SortByKey(b.fields));
      case _ =>
    }
  }

  lemma {:induction false} ItemsSame(a: Value, xs: seq<Value>, b: Value, ys: seq<Value>)
    requires a.Arr? && b.Arr? && (forall v | v in xs :: v in a.items) && (forall v | v in ys :: v in b.items)
    requires WellFormed(a) && WellFormed(b) && |xs| == |ys| && forall i | 0 <= i < |xs| :: Equiv(xs[i], ys[i])
    ensures CanonicalItems(a, xs) == CanonicalItems(b, ys)
    decreases a, 0, |xs|
  {
    if xs != [] {
      assert xs[0] in a.items && ys[0] in b.items;
      EquivSameForm(xs[0], ys[0]);
      ItemsSame(a, xs[1..], b, ys[1..]);
    }
  }

  lemma {:induction false} FieldsMatch(a: Value, b: Value, f: Field, g: Field)
    requires a.Obj? && b.Obj? && WellFormed(a) && WellFormed(b) && Equiv(a, b)
    requires f in a.fields && g in b.fields && f.key == g.key
    ensures WellFormed(f.value) && WellFormed(g.value) && Equiv(f.value, g.value)
  {
    assert HasEqual(f, b.fields);
    var h :| h in b.fields && h.key == f.key && Equiv(f.value, h.value);
    OneFieldPerKey(b.fields, h, g);
  }

  lemma {:induction false} EntriesSame(a: Value, fs: seq<Field>, b: Value, gs: seq<Field>)
    requires a.Obj? && b.Obj? && (forall f | f in fs :: f in a.fields) && (forall g | g in gs :: g in b.fields)
    requires WellFormed(a) && WellFormed(b) && Equiv(a, b) && KeysOf(fs) == KeysOf(gs)
    ensures CanonicalEntries(a, fs) == CanonicalEntries(b, gs)
    decreases a, 0, |fs|
  {
    hide Canonicalize, WellFormed, Equiv, Quote;
    assert |fs| == |KeysOf(fs)| == |gs|;
    if fs != [] {
      assert fs[0] in a.fields && gs[0] in b.fields;
      assert KeysOf(fs)[0] == KeysOf(gs)[0];
      FieldsMatch(a, b, fs[0], gs[0]);
      EquivSameForm(fs[0].value, gs[0].value);
      assert KeysOf(fs[1..]) == KeysOf(fs)[1..] && KeysOf(gs[1..]) == KeysOf(gs)[1..];
      EntriesSame(a, fs[1..], b, gs[1..]);
    }
  }

  /** The canonical form identifies a value exactly up to the order of object keys. */
  lemma {:induction false} CanonicalFaithful(a: Value, b: Value)
    requires WellFormed(a) && WellFormed(b)
    ensures Canonicalize(a) == Canonicalize(b) <==> Equiv(a, b)
  {
    hide Canonicalize, Equiv, WellFormed;
    if Canonicalize(a) == Canonicalize(b) {
      assert Canonicalize(a) + "" == Canonicalize(b) + "";
      ValueSplit(a, b, "", "");
    }
    if Equiv(a, b) { EquivSameForm(a, b); }
  }

  /* ---------- the two serializers ---------- */

  lemma {:induction false} LookupIs(fields: seq<Field>, f: Field)
    requires DistinctKeys(fields) && f in fields
    ensures Lookup(fields, f.key) == Some(f.value)
  {
    var i :| 0 <= i < |fields| && fields[i] == f;
    LookupFinds(fields, i);
    LookupIn(fields, f.key);
    OneFieldPerKey(fields, f, Field(f.key, Lookup(fields, f.key).value));
  }

  /** On well-formed values the orchestrator's serializer computes the kernel's canonical form. */
  lemma {:induction false} SerializersAgree(v: Value)
    requires WellFormed(v)
    ensures StableStringify(v) == Canonicalize(v)
    decreases v, 1, 0
  {
    match v {
      case Arr(items) => ItemsAgree(v, items);
      case Obj(fields) => EntriesAgree(v, SortByKey(fields));
      case _ =>
    }
  }

  lemma {:induction false} ItemsAgree(v: Value, xs: seq<Value>)
    requires v.Arr? && WellFormed(v) && forall x | x in xs :: x in v.items
    ensures StableItems(v, xs) == CanonicalItems(v, xs)
    decreases v, 0, |xs|
  {
    if xs != [] {
      assert xs[0] in v.items;
      SerializersAgree(xs[0]);
      ItemsAgree(v, xs[1..]);
    }
  }

  lemma {:induction false} FieldsWellFormed(v: Value, f: Field)
    requires v.Obj? && WellFormed(v) && f in v.fields
    ensures DistinctKeys(v.fields) && WellFormed(f.value)
  {}

  lemma {:induction false} EntriesAgree(v: Value, fs: seq<Field>)
    requires v.Obj? && WellFormed(v) && forall f | f in fs :: f in v.fields
    ensures forall k | k in KeysOf(fs) :: Lookup(v.fields, k).Some?
    ensures StableEntries(v, KeysOf(fs)) == CanonicalEntries(v, fs)
    decreases v, 0, |fs|
  {
    hide Canonicalize, StableStringify, Quote, WellFormed;
    if fs != [] {
      assert fs[0] in v.fields;
      FieldsWellFormed(v, fs[0]);
      LookupIs(v.fields, fs[0]);
      SerializersAgree(fs[0].value);
      EntriesAgree(v, fs[1..]);
      assert KeysOf(fs) == [fs[0].key] + KeysOf(fs[1..]);
    }
  }

  /* ---------- no NUL ---------- */

  predicate NoNul(s: string) {
    forall i | 0 <= i < |s| :: s[i] != '\0'
  }

  lemma {:induction false} QuoteHasNoNul(s: string)
    ensures NoNul(Escape(s)) && NoNul(Quote(s))
  {
    if s != "" {
      QuoteHasNoNul(s[1..]);
      assert NoNul(EscapeChar(s[0]));
    }
  }

  predicate NoneHasNul(parts: seq<string>) {
    forall p | p in parts :: NoNul(p)
  }

  lemma {:induction false} JoinHasNoNul(parts: seq<string>)
    requires NoneHasNul(parts)
    ensures NoNul(Join(parts))
  {
    if |parts| > 1 {
      assert parts[0] in parts;
      JoinHasNoNul(parts[1..]);
    } else if |parts| == 1 {
      assert parts[0] in parts;
    }
  }

  /** The serialized input of a node never contains the character that separates it from the node's name. */
  lemma {:induction false} StableHasNoNul(v: Value)
    ensures NoNul(StableStringify(v))
    decreases v, 1, 0
  {
    match v {
      case Null => case Bool(b) => case Num(text) =>
      case Str(s) => QuoteHasNoNul(s);
      case Arr(items) => ItemsHaveNoNul(v, items); JoinHasNoNul(StableItems(v, items));
      case Obj(fields) =>
        EntriesHaveNoNul(v, SortedKeys(fields));
        JoinHasNoNul(StableEntries(v, SortedKeys(fields)));
    }
  }

  lemma {:induction false} ItemsHaveNoNul(v: Value, xs: seq<Value>)
    requires v.Arr? && forall x | x in xs :: x in v.items
    ensures NoneHasNul(StableItems(v, xs))
    decreases v, 0, |xs|
  {
    if xs != [] {
      assert xs[0] in v.items;
      StableHasNoNul(xs[0]);
      ItemsHaveNoNul(v, xs[1..]);
    }
  }

  lemma {:induction false} EntriesHaveNoNul(v: Value, keys: seq<string>)
    requires v.Obj? && forall k | k in keys :: Lookup(v.fields, k).Some?
    ensures NoneHasNul(StableEntries(v, keys))
    decreases v, 0, |keys|
  {
    if keys != [] {
      LookupIn(v.fields, keys[0]);
      QuoteHasNoNul(keys[0]);
      StableHasNoNul(Lookup(v.fields, keys[0]).value);
      EntriesHaveNoNul(v, keys[1..]);
    }
  }
}
