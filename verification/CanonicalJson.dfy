/**
 Canonical JSON (internal/iogrid/recipe.go).

 `Json` is what json.Unmarshal yields for an `any`: objects are unordered maps.
 `Ordered` is what sortKeys returns: the same tree with every object turned into a list
 of pairs. `Render` is the text json.Marshal writes for an `Ordered` (no white space,
 HTML-safe string escapes). A number is represented by the token json.Marshal writes
 for it, so equality of numbers is equality of tokens.
 */
module CanonicalJson {
  import opened Common

  datatype Json =
    | Null
    | Bool(b: bool)
    | Num(token: string)
    | Str(s: string)
    | Arr(items: seq<Json>)
    | Obj(fields: map<string, Json>)

  datatype Ordered =
    | ONull
    | OBool(b: bool)
    | ONum(token: string)
    | OStr(s: string)
    | OArr(items: seq<Ordered>)
    | OObj(pairs: seq<OrderedKV>)

  datatype OrderedKV = KV(k: string, v: Ordered)

  // ---------------------------------------------------------------- leaves

  predicate NumChar(c: char)
  {
    '0' <= c <= '9' || c in "+-.eE"
  }

  /** A token of the shape json.Marshal gives a float64. */
  predicate IsNumber(token: string)
  {
    && token != ""
    && (token[0] == '-' || '0' <= token[0] <= '9')
    && forall i :: 0 <= i < |token| ==> NumChar(token[i])
  }

  function Hex(d: nat): (c: char)
    requires d < 16
  {
    "0123456789abcdef"[d]
  }

  /** json.Marshal's escape of one character: short forms, \u00xx for control and HTML
      characters, \u2028 and \u2029, and every other character as it is. */
  function EscapeChar(c: char): (r: string)
  {
    if c == '"' then "\\\""
    else if c == '\\' then "\\\\"
    else if c == '\n' then "\\n"
    else if c == '\r' then "\\r"
    else if c == '\t' then "\\t"
    else if c as int == 8 then "\\b"
    else if c as int == 12 then "\\f"
    else if c < ' ' || c == '<' || c == '>' || c == '&' then
      "\\u00" + [Hex((c as int) / 16), Hex((c as int) % 16)]
    else if c as int == 0x2028 then "\\u2028"
    else if c as int == 0x2029 then "\\u2029"
    else [c]
  }

  function Escape(s: string): (r: string)
  {
    if s == "" then "" else EscapeChar(s[0]) + Escape(s[1..])
  }

  function Quote(s: string): (r: string)
  {
    "\"" + Escape(s) + "\""
  }

  // ------------------------------------------------------------- rendering

  function Render(o: Ordered): (r: string)
  {
    match o
    case ONull => "null"
    case OBool(b) => if b then "true" else "false"
    case ONum(token) => token
    case OStr(s) => Quote(s)
    case OArr(items) => "[" + RenderItems(items) + "]"
    case OObj(pairs) => "{" + RenderPairs(pairs) + "}"
  }

  function RenderItems(items: seq<Ordered>): (r: string)
  {
    if items == [] then ""
    else if |items| == 1 then Render(items[0])
    else Render(items[0]) + "," + RenderItems(items[1..])
  }

  function RenderPair(p: OrderedKV): (r: string)
  {
    Quote(p.k) + ":" + Render(p.v)
  }

  function RenderPairs(pairs: seq<OrderedKV>): (r: string)
  {
    if pairs == [] then ""
    else if |pairs| == 1 then RenderPair(pairs[0])
    else RenderPair(pairs[0]) + "," + RenderPairs(pairs[1..])
  }

  predicate NumbersOk(o: Ordered)
  {
    match o
    case ONum(token) => IsNumber(token)
    case OArr(items) => forall i :: 0 <= i < |items| ==> NumbersOk(items[i])
    case OObj(pairs) => forall i :: 0 <= i < |pairs| ==> NumbersOk(pairs[i].v)
    case _ => true
  }

  // --------------------------------------------- the text determines the tree

  /** What may follow a rendered value: nothing, or the separator that ends it. */
  predicate Stops(rest: string)
  {
    rest == "" || rest[0] == ',' || rest[0] == ']' || rest[0] == '}'
  }

  lemma HexInjective(d: nat, e: nat)
    requires d < 16 && e < 16 && Hex(d) == Hex(e)
    ensures d == e
  {
    assert forall i: nat :: i < 16 ==> Hex(i) as int == if i < 10 then 48 + i else 87 + i;
  }

  lemma {:induction false} SplitEqual<T>(a: seq<T>, b: seq<T>, x: seq<T>, y: seq<T>)
    requires a + x == b + y && |a| == |b|
    ensures a == b && x == y
  {
    assert a == (a + x)[..|a|] && b == (b + y)[..|b|];
    assert x == (a + x)[|a|..] && y == (b + y)[|b|..];
  }

  /** The escape code is prefix free and one-to-one. */
  lemma {:induction false} EscapeCharDecodes(c: char, d: char, x: string, y: string)
    requires EscapeChar(c) + x == EscapeChar(d) + y
    ensures c == d && x == y
  {
    var e, f := EscapeChar(c), EscapeChar(d);
    assert (e + x)[0] == e[0] && (f + y)[0] == f[0];
    if |e| > 1 && |f| > 1 {
      assert (e + x)[1] == e[1] && (f + y)[1] == f[1];
    }
    assert |e| == |f|;
    SplitEqual(e, f, x, y);
    if |e| == 6 {
      assert e[2] == f[2] && e[3] == f[3] && e[4] == f[4] && e[5] == f[5];
      if c as int < 0x80 && (d as int) < 0x80 {
        HexInjective(c as int / 16, d as int / 16);
        HexInjective(c as int % 16, d as int % 16);
      }
    }
  }

  lemma Concat3<T>(a: seq<T>, b: seq<T>, c: seq<T>)
    ensures a + b + c == a + (b + c)
  {
  }

  lemma {:induction false} EscapeStarts(s: string, x: string)
    ensures s != "" ==> Escape(s) + "\"" + x == EscapeChar(s[0]) + (Escape(s[1..]) + "\"" + x)
    ensures s == "" ==> Escape(s) + "\"" + x == "\"" + x
    ensures (Escape(s) + "\"" + x)[0] == '"' <==> s == ""
  {
    Concat3(Escape(s), "\"", x);
    if s != "" {
      Concat3(EscapeChar(s[0]), Escape(s[1..]), "\"" + x);
      Concat3(Escape(s[1..]), "\"", x);
      assert EscapeChar(s[0])[0] != '"';
    }
  }

  /** A quoted string ends at its closing quote and decodes to one string. */
  lemma {:induction false} EscapeDecodes(s: string, t: string, x: string, y: string)
    requires Escape(s) + "\"" + x == Escape(t) + "\"" + y
    ensures s == t && x == y
    decreases |s|
  {
    EscapeStarts(s, x);
    EscapeStarts(t, y);
    if s == "" {
      SplitEqual("\"", "\"", x, y);
    } else {
      EscapeCharDecodes(s[0], t[0], Escape(s[1..]) + "\"" + x, Escape(t[1..]) + "\"" + y);
      EscapeDecodes(s[1..], t[1..], x, y);
      assert s == [s[0]] + s[1..] && t == [t[0]] + t[1..];
    }
  }

  lemma {:induction false} QuoteDecodes(s: string, t: string, x: string, y: string)
    requires Quote(s) + x == Quote(t) + y
    ensures s == t && x == y
  {
    QuoteParts(s, x);
    QuoteParts(t, y);
    EscapeDecodes(s, t, x, y);
  }

  lemma QuoteParts(s: string, x: string)
    ensures (Quote(s) + x)[1..] == Escape(s) + "\"" + x
  {
  }

  /** A number token ends at the first character that cannot belong to one. */
  lemma {:induction false} NumberDecodes(a: string, b: string, x: string, y: string)
    requires IsNumber(a) && IsNumber(b) && Stops(x) && Stops(y)
    requires a + x == b + y
    ensures a == b && x == y
  {
    assert forall i :: 0 <= i < |b| ==> (b + y)[i] == b[i];
    assert forall i :: 0 <= i < |a| ==> (a + x)[i] == a[i];
    assert x != "" ==> (a + x)[|a|] == x[0];
    assert y != "" ==> (b + y)[|b|] == y[0];
    assert |a| == |b|;
    SplitEqual(a, b, x, y);
  }

  /** The first character of a rendering tells which kind of value it is. */
  function Kind(c: char): (r: nat)
  {
    if c == 'n' then 0 else if c == 't' then 1 else if c == 'f' then 2
    else if c == '"' then 4 else if c == '[' then 5 else if c == '{' then 6
    else if c == '-' || '0' <= c <= '9' then 3 else 7
  }

  function KindOf(o: Ordered): (r: nat)
  {
    match o
    case ONull => 0
    case OBool(b) => if b then 1 else 2
    case ONum(_) => 3
    case OStr(_) => 4
    case OArr(_) => 5
    case OObj(_) => 6
  }

  lemma FirstCharTellsKind(o: Ordered)
    requires NumbersOk(o)
    ensures Render(o) != "" && Kind(Render(o)[0]) == KindOf(o)
  {
    match o
    case ONull => assert Render(o)[0] == 'n';
    case OBool(b) => assert Render(o)[0] == if b then 't' else 'f';
    case ONum(token) =>
    case OStr(s) => assert Render(o)[0] == '"';
    case OArr(_) => assert Render(o)[0] == '[';
    case OObj(_) => assert Render(o)[0] == '{';
  }

  lemma BracketText(open: string, body: string, close: string, x: string)
    requires |open| == 1 && |close| == 1
    ensures (open + body + close + x)[1..] == body + (close + x)
  {
  }

  /** Unique decoding: a rendered value at the head of a text, followed by a separator
      or by nothing, determines both the tree and the rest of the text. */
  lemma {:induction false} RenderDecodes(a: Ordered, b: Ordered, x: string, y: string)
    requires NumbersOk(a) && NumbersOk(b) && Stops(x) && Stops(y)
    requires Render(a) + x == Render(b) + y
    ensures a == b && x == y
    decreases a, 1
  {
    SameKind(a, b, x, y);
    match a
    case ONull => SplitEqual(Render(a), Render(b), x, y);
    case OBool(_) => SplitEqual(Render(a), Render(b), x, y);
    case ONum(token) => NumberDecodes(token, b.token, x, y);
    case OStr(s) => QuoteDecodes(s, b.s, x, y);
    case OArr(items) =>
      BracketText("[", RenderItems(items), "]", x);
      BracketText("[", RenderItems(b.items), "]", y);
      ItemsDecode(items, b.items, "]" + x, "]" + y);
      SplitEqual("]", "]", x, y);
    case OObj(pairs) =>
      BracketText("{", RenderPairs(pairs), "}", x);
      BracketText("{", RenderPairs(b.pairs), "}", y);
      PairsDecode(pairs, b.pairs, "}" + x, "}" + y);
      SplitEqual("}", "}", x, y);
  }

  lemma SameKind(a: Ordered, b: Ordered, x: string, y: string)
    requires NumbersOk(a) && NumbersOk(b) && Render(a) + x == Render(b) + y
    ensures KindOf(a) == KindOf(b)
  {
    FirstCharTellsKind(a);
    FirstCharTellsKind(b);
    assert (Render(a) + x)[0] == Render(a)[0] && (Render(b) + y)[0] == Render(b)[0];
  }

  lemma {:induction false} ItemsDecode(a: seq<Ordered>, b: seq<Ordered>, x: string, y: string)
    requires forall i :: 0 <= i < |a| ==> NumbersOk(a[i])
    requires forall i :: 0 <= i < |b| ==> NumbersOk(b[i])
    requires x != "" && x[0] == ']' && y != "" && y[0] == ']'
    requires RenderItems(a) + x == RenderItems(b) + y
    ensures a == b && x == y
    decreases a, 0
  {
    ItemsText(a, x);
    ItemsText(b, y);
    if a != [] {
      RenderDecodes(a[0], b[0], AfterItem(a, x), AfterItem(b, y));
      if |a| > 1 {
        SplitEqual(",", ",", RenderItems(a[1..]) + x, RenderItems(b[1..]) + y);
        ItemsDecode(a[1..], b[1..], x, y);
      }
      SameHeadAndTail(a, b);
    }
  }

  /** The text that follows the first item of a non-empty list. */
  function AfterItem(a: seq<Ordered>, x: string): (r: string)
    requires a != []
  {
    if |a| == 1 then x else "," + (RenderItems(a[1..]) + x)
  }

  lemma {:induction false} ItemsText(a: seq<Ordered>, x: string)
    requires x != "" && x[0] == ']'
    requires forall i :: 0 <= i < |a| ==> NumbersOk(a[i])
    ensures (RenderItems(a) + x)[0] == ']' <==> a == []
    ensures a != [] ==> RenderItems(a) + x == Render(a[0]) + AfterItem(a, x)
    ensures a == [] ==> RenderItems(a) + x == x
  {
    if a != [] {
      FirstCharTellsKind(a[0]);
      if |a| > 1 {
        Concat3(Render(a[0]), ",", RenderItems(a[1..]));
        Concat3(Render(a[0]), "," + RenderItems(a[1..]), x);
        Concat3(",", RenderItems(a[1..]), x);
      }
    }
  }

  lemma {:induction false} PairsDecode(a: seq<OrderedKV>, b: seq<OrderedKV>, x: string, y: string)
    requires forall i :: 0 <= i < |a| ==> NumbersOk(a[i].v)
    requires forall i :: 0 <= i < |b| ==> NumbersOk(b[i].v)
    requires x != "" && x[0] == '}' && y != "" && y[0] == '}'
    requires RenderPairs(a) + x == RenderPairs(b) + y
    ensures a == b && x == y
    decreases a, 0
  {
    PairsText(a, x);
    PairsText(b, y);
    if a != [] {
      QuoteDecodes(a[0].k, b[0].k, ":" + (Render(a[0].v) + AfterPair(a, x)),
                   ":" + (Render(b[0].v) + AfterPair(b, y)));
      SplitEqual(":", ":", Render(a[0].v) + AfterPair(a, x), Render(b[0].v) + AfterPair(b, y));
      RenderDecodes(a[0].v, b[0].v, AfterPair(a, x), AfterPair(b, y));
      if |a| > 1 {
        SplitEqual(",", ",", RenderPairs(a[1..]) + x, RenderPairs(b[1..]) + y);
        PairsDecode(a[1..], b[1..], x, y);
      }
      SameHeadAndTail(a, b);
    }
  }

  lemma SameHeadAndTail<T>(a: seq<T>, b: seq<T>)
    requires a != [] && b != [] && a[0] == b[0] && a[1..] == b[1..]
    ensures a == b
  {
    assert a == [a[0]] + a[1..] && b == [b[0]] + b[1..];
  }

  /** The text that follows the first pair of a non-empty list. */
  function AfterPair(a: seq<OrderedKV>, x: string): (r: string)
    requires a != []
  {
    if |a| == 1 then x else "," + (RenderPairs(a[1..]) + x)
  }

  lemma {:induction false} PairsText(a: seq<OrderedKV>, x: string)
    requires x != "" && x[0] == '}'
    ensures (RenderPairs(a) + x)[0] == '}' <==> a == []
    ensures a != [] ==>
      RenderPairs(a) + x == Quote(a[0].k) + (":" + (Render(a[0].v) + AfterPair(a, x)))
    ensures a == [] ==> RenderPairs(a) + x == x
  {
    if a != [] {
      var rest := AfterPair(a, x);
      Concat3(Quote(a[0].k), ":", Render(a[0].v));
      Concat3(Quote(a[0].k), ":" + Render(a[0].v), rest);
      Concat3(":", Render(a[0].v), rest);
      assert RenderPair(a[0])[0] == '"';
      if |a| > 1 {
        Concat3(RenderPair(a[0]), ",", RenderPairs(a[1..]));
        Concat3(RenderPair(a[0]), "," + RenderPairs(a[1..]), x);
        Concat3(",", RenderPairs(a[1..]), x);
      }
    }
  }

  // --------------------------------------------------------------- key order

  /** Go's string order: by the first differing character, a proper prefix first. On
      valid UTF-8 the order of bytes and of code points is the same. */
  predicate Less(a: string, b: string)
  {
    b != "" && (a == "" || a[0] < b[0] || (a[0] == b[0] && Less(a[1..], b[1..])))
  }

  predicate Ascending(ks: seq<string>)
  {
    forall i, j :: 0 <= i < j < |ks| ==> Less(ks[i], ks[j])
  }

  lemma {:induction false} LessTotal(a: string, b: string)
    ensures a == b || Less(a, b) || Less(b, a)
    ensures !(Less(a, b) && Less(b, a))
    ensures !Less(a, a)
  {
    if a != "" {
      LessTotal(a[1..], if b != "" then b[1..] else "");
    }
    if a != "" && b != "" && a[0] == b[0] {
      assert a == [a[0]] + a[1..] && b == [b[0]] + b[1..];
    }
  }

  lemma {:induction false} LessTransitive(a: string, b: string, c: string)
    requires Less(a, b) && Less(b, c)
    ensures Less(a, c)
  {
    if a != "" && a[0] == b[0] == c[0] {
      LessTransitive(a[1..], b[1..], c[1..]);
    }
  }

  lemma {:induction false} LessStrict()
    ensures StrictTotal(Less)
  {
    forall a, b ensures (a == b || Less(a, b) || Less(b, a)) && !(Less(a, b) && Less(b, a)) {
      LessTotal(a, b);
    }
    forall a, b, c | Less(a, b) && Less(b, c) ensures Less(a, c) {
      LessTransitive(a, b, c);
    }
  }

  /** The elements of `s` in ascending order. */
  ghost function SortedKeys(s: set<string>): (ks: seq<string>)
    ensures Ascending(ks)
    ensures forall k :: k in ks <==> k in s
  {
    LessStrict();
    Listed(Less, s)
  }

  lemma LeastIsFirst(a: seq<string>)
    requires Ascending(a) && a != []
    ensures forall k :: k in a[1..] <==> k in a && k != a[0]
  {
    LessTotal(a[0], a[0]);
  }

  /** A set has one ascending listing. */
  lemma {:induction false} AscendingUnique(a: seq<string>, b: seq<string>)
    requires Ascending(a) && Ascending(b)
    requires forall k :: k in a <==> k in b
    ensures a == b
    decreases |a|
  {
    assert b != [] ==> b[0] in b;
    if a != [] {
      assert a[0] in b && b != [] && b[0] in a;
      LessTotal(a[0], b[0]);
      assert a[0] == b[0];
      LeastIsFirst(a);
      LeastIsFirst(b);
      AscendingUnique(a[1..], b[1..]);
      SameHeadAndTail(a, b);
    }
  }

  // ---------------------------------------------------------- canonical form

  /** The tree with every object listed by ascending key. */
  ghost function SortedForm(v: Json): (o: Ordered)
  {
    match v
    case Null => ONull
    case Bool(b) => OBool(b)
    case Num(token) => ONum(token)
    case Str(s) => OStr(s)
    case Arr(items) => OArr(seq(|items|, i requires 0 <= i < |items| => SortedForm(items[i])))
    case Obj(fields) =>
      var ks := SortedKeys(fields.Keys);
      OObj(seq(|ks|, i requires 0 <= i < |ks| =>
        assert ks[i] in ks; KV(ks[i], SortedForm(fields[ks[i]]))))
  }

  ghost function Canon(v: Json): (r: string)
  {
    Render(SortedForm(v))
  }

  ghost predicate WellFormed(v: Json)
  {
    match v
    case Num(token) => IsNumber(token)
    case Arr(items) => forall i :: 0 <= i < |items| ==> WellFormed(items[i])
    case Obj(fields) => forall k :: k in fields ==> WellFormed(fields[k])
    case _ => true
  }

  lemma {:induction false} SortedFormNumbersOk(v: Json)
    requires WellFormed(v)
    ensures NumbersOk(SortedForm(v))
  {
    match v
    case Arr(items) =>
      forall i | 0 <= i < |items| ensures NumbersOk(SortedForm(items[i])) {
        SortedFormNumbersOk(items[i]);
      }
    case Obj(fields) =>
      var ks := SortedKeys(fields.Keys);
      forall i | 0 <= i < |ks| ensures ks[i] in fields && NumbersOk(SortedForm(fields[ks[i]])) {
        assert ks[i] in ks;
        SortedFormNumbersOk(fields[ks[i]]);
      }
    case _ =>
  }

  /** Sorting loses nothing: the unordered value can be read back from the sorted tree. */
  lemma {:induction false} SortedFormInjective(v: Json, w: Json)
    requires SortedForm(v) == SortedForm(w)
    ensures v == w
  {
    match v
    case Arr(items) =>
      var a, b := SortedForm(v).items, SortedForm(w).items;
      forall i | 0 <= i < |items| ensures items[i] == w.items[i] {
        assert a[i] == b[i];
        SortedFormInjective(items[i], w.items[i]);
      }
    case Obj(fields) =>
      SameFields(fields, w.fields);
      forall k | k in fields ensures fields[k] == w.fields[k] {
        SortedFormInjective(fields[k], w.fields[k]);
      }
      assert fields == w.fields;
    case _ =>
  }

  /** Objects with one sorted form have the same keys and, by key, the same sorted values. */
  lemma {:induction false} SameFields(x: map<string, Json>, y: map<string, Json>)
    requires SortedForm(Obj(x)) == SortedForm(Obj(y))
    ensures x.Keys == y.Keys
    ensures forall k :: k in x ==> SortedForm(x[k]) == SortedForm(y[k])
  {
    var ks, ls := SortedKeys(x.Keys), SortedKeys(y.Keys);
    var a, b := SortedForm(Obj(x)).pairs, SortedForm(Obj(y)).pairs;
    forall i | 0 <= i < |ks| ensures ks[i] == ls[i] && SortedForm(x[ks[i]]) == SortedForm(y[ks[i]]) {
      assert a[i] == b[i];
    }
    assert ks == ls;
    forall k ensures k in x <==> k in y {
      assert k in x <==> k in ks;
    }
    forall k | k in x ensures SortedForm(x[k]) == SortedForm(y[k]) {
      assert k in ks;
    }
  }

  /** The canonical bytes decide equality, for values nested to any depth. */
  lemma {:induction false} CanonDecidesEquality(v: Json, w: Json)
    requires WellFormed(v) && WellFormed(w)
    ensures Canon(v) == Canon(w) <==> v == w
  {
    if Canon(v) == Canon(w) {
      SortedFormNumbersOk(v);
      SortedFormNumbersOk(w);
      RenderDecodes(SortedForm(v), SortedForm(w), "", "");
      SortedFormInjective(v, w);
    }
  }

  /** What json.Unmarshal into an `any` makes of a parsed document: a later duplicate of
      a key replaces an earlier one. */
  function Unordered(o: Ordered): (v: Json)
  {
    match o
    case ONull => Null
    case OBool(b) => Bool(b)
    case ONum(token) => Num(token)
    case OStr(s) => Str(s)
    case OArr(items) => Arr(seq(|items|, i requires 0 <= i < |items| => Unordered(items[i])))
    case OObj(pairs) => Obj(UnorderedPairs(pairs))
  }

  function UnorderedPairs(pairs: seq<OrderedKV>): (m: map<string, Json>)
  {
    if pairs == [] then map[]
    else
      var last := pairs[|pairs| - 1];
      UnorderedPairs(pairs[..|pairs| - 1])[last.k := Unordered(last.v)]
  }

  lemma {:induction false} UnorderedPairsLookup(pairs: seq<OrderedKV>)
    requires forall i, j :: 0 <= i < j < |pairs| ==> pairs[i].k != pairs[j].k
    ensures forall i :: 0 <= i < |pairs| ==>
      pairs[i].k in UnorderedPairs(pairs) && UnorderedPairs(pairs)[pairs[i].k] == Unordered(pairs[i].v)
  {
    if pairs != [] {
      var n := |pairs| - 1;
      UnorderedPairsLookup(pairs[..n]);
      forall i | 0 <= i < n ensures
        pairs[i].k in UnorderedPairs(pairs) && UnorderedPairs(pairs)[pairs[i].k] == Unordered(pairs[i].v)
      {
        assert pairs[..n][i] == pairs[i];
      }
    }
  }

  lemma {:induction false} UnorderedPairsKeys(pairs: seq<OrderedKV>, k: string)
    requires k in UnorderedPairs(pairs)
    ensures exists i :: 0 <= i < |pairs| && pairs[i].k == k
  {
    var n := |pairs| - 1;
    if k != pairs[n].k {
      UnorderedPairsKeys(pairs[..n], k);
      var i :| 0 <= i < n && pairs[..n][i].k == k;
      assert pairs[i].k == k;
    }
  }

  /** Reading the sorted tree back gives the value it came from. */
  lemma {:induction false} UnorderedInvertsSortedForm(v: Json)
    ensures Unordered(SortedForm(v)) == v
  {
    match v
    case Arr(items) =>
      forall i | 0 <= i < |items| ensures Unordered(SortedForm(v).items[i]) == items[i] {
        UnorderedInvertsSortedForm(items[i]);
      }
    case Obj(fields) =>
      forall k | k in fields ensures Unordered(SortedForm(fields[k])) == fields[k] {
        UnorderedInvertsSortedForm(fields[k]);
      }
      SortedPairsReadBack(fields);
    case _ =>
  }

  lemma {:induction false} SortedPairsReadBack(fields: map<string, Json>)
    requires forall k :: k in fields ==> Unordered(SortedForm(fields[k])) == fields[k]
    ensures UnorderedPairs(SortedForm(Obj(fields)).pairs) == fields
  {
    var ks, pairs := SortedKeys(fields.Keys), SortedForm(Obj(fields)).pairs;
    forall i | 0 <= i < |ks|
      ensures ks[i] in fields && pairs[i].k == ks[i] && Unordered(pairs[i].v) == fields[ks[i]]
    {
      assert ks[i] in ks;
    }
    ReadBack(fields, ks, pairs);
  }

  lemma {:induction false} ReadBack(fields: map<string, Json>, ks: seq<string>, pairs: seq<OrderedKV>)
    requires |ks| == |pairs| && Ascending(ks) && forall k :: k in ks <==> k in fields
    requires forall i :: 0 <= i < |ks| ==>
      ks[i] in fields && pairs[i].k == ks[i] && Unordered(pairs[i].v) == fields[ks[i]]
    ensures UnorderedPairs(pairs) == fields
  {
    forall i, j | 0 <= i < j < |pairs| ensures pairs[i].k != pairs[j].k {
      LessTotal(ks[i], ks[j]);
    }
    UnorderedPairsLookup(pairs);
    var m := UnorderedPairs(pairs);
    forall k | k in m ensures k in fields {
      UnorderedPairsKeys(pairs, k);
      var i :| 0 <= i < |pairs| && pairs[i].k == k;
    }
    forall k | k in fields ensures k in m && m[k] == fields[k] {
      var i :| 0 <= i < |ks| && ks[i] == k;
      assert pairs[i].k == k;
    }
  }

  /** Idempotence: any document whose text is canonical, parsed and canonicalised again,
      gives the same text; and it denotes the value that was canonicalised. */
  lemma {:induction false} CanonIdempotent(v: Json, document: Ordered)
    requires WellFormed(v) && NumbersOk(document)
    requires Render(document) == Canon(v)
    ensures Unordered(document) == v
    ensures Canon(Unordered(document)) == Render(document)
  {
    SortedFormNumbersOk(v);
    RenderDecodes(document, SortedForm(v), "", "");
    UnorderedInvertsSortedForm(v);
  }

  // ------------------------------------------------------------ the Go methods

  /** Stand-in for sort.Strings on distinct keys. */
  method SortStrings(keys: seq<string>) returns (out: seq<string>)
    requires forall i, j :: 0 <= i < j < |keys| ==> keys[i] != keys[j]
    ensures Ascending(out) && forall k :: k in out <==> k in keys
  {
    out := [];
    for n := 0 to |keys|
      invariant Ascending(out) && forall k :: k in out <==> k in keys[..n]
    {
      var at := 0;
      while at < |out| && Less(out[at], keys[n])
        invariant 0 <= at <= |out|
        invariant forall i :: 0 <= i < at ==> Less(out[i], keys[n])
      {
        at := at + 1;
      }
      assert keys[n] !in keys[..n] && keys[..n + 1] == keys[..n] + [keys[n]];
      InsertAscending(out, at, keys[n]);
      assert out == out[..at] + out[at..];
      out := out[..at] + [keys[n]] + out[at..];
    }
  }

  lemma InsertAscending(ks: seq<string>, at: nat, k: string)
    requires Ascending(ks) && at <= |ks| && k !in ks
    requires forall i :: 0 <= i < at ==> Less(ks[i], k)
    requires at < |ks| ==> !Less(ks[at], k)
    ensures Ascending(ks[..at] + [k] + ks[at..])
  {
    forall i | at <= i < |ks| ensures Less(k, ks[i]) {
      LessTotal(k, ks[at]);
      if at < i {
        LessTransitive(k, ks[at], ks[i]);
      }
    }
  }

  /** Go's walk over a map gives its keys in any order. */
  method KeysOf(x: map<string, Json>) returns (keys: seq<string>)
    ensures forall k :: k in keys <==> k in x
    ensures forall i, j :: 0 <= i < j < |keys| ==> keys[i] != keys[j]
  {
    keys := [];
    var rest := x.Keys;
    while rest != {}
      invariant rest <= x.Keys
      invariant forall k :: k in keys <==> k in x && k !in rest
      invariant forall i, j :: 0 <= i < j < |keys| ==> keys[i] != keys[j]
      decreases |rest|
    {
      var k :| k in rest;
      rest := rest - {k};
      keys := keys + [k];
    }
  }

  method KeysInOrder(x: map<string, Json>) returns (keys: seq<string>)
    ensures keys == SortedKeys(x.Keys)
  {
    var walked := KeysOf(x);
    keys := SortStrings(walked);
    AscendingUnique(keys, SortedKeys(x.Keys));
  }

  method SortKeys(v: Json) returns (out: Ordered)
    ensures out == SortedForm(v)
    decreases v, 1
  {
    match v
    case Obj(_) => out := SortObject(v);
    case Arr(_) => out := SortItems(v);
    case Null => return ONull;
    case Bool(b) => return OBool(b);
    case Num(token) => return ONum(token);
    case Str(s) => return OStr(s);
  }

  method SortObject(v: Json) returns (out: Ordered)
    requires v.Obj?
    ensures out == SortedForm(v)
    decreases v, 0
  {
    var x := v.fields;
    var keys := KeysInOrder(x);
    var pairs: seq<OrderedKV> := [];
    for i := 0 to |keys|
      invariant |pairs| == i
      invariant forall j :: 0 <= j < i ==> keys[j] in x && pairs[j] == KV(keys[j], SortedForm(x[keys[j]]))
    {
      assert keys[i] in keys;
      var value := SortKeys(x[keys[i]]);
      pairs := pairs + [KV(keys[i], value)];
    }
    assert pairs == SortedForm(v).pairs;
    return OObj(pairs);
  }

  method SortItems(v: Json) returns (out: Ordered)
    requires v.Arr?
    ensures out == SortedForm(v)
    decreases v, 0
  {
    var sorted: seq<Ordered> := [];
    for i := 0 to |v.items|
      invariant |sorted| == i
      invariant forall j :: 0 <= j < i ==> sorted[j] == SortedForm(v.items[j])
    {
      var value := SortKeys(v.items[i]);
      sorted := sorted + [value];
    }
    assert sorted == SortedForm(v).items;
    return OArr(sorted);
  }

  lemma AssocCommas(x: string, y: string, z: string)
    ensures x + "," + (y + "," + z) == x + "," + y + "," + z
  {
  }

  lemma {:induction false} RenderPairsAppend(a: seq<OrderedKV>, p: OrderedKV)
    ensures RenderPairs(a + [p]) == (if a == [] then "" else RenderPairs(a) + ",") + RenderPair(p)
  {
    if |a| > 1 {
      var rest := a[1..];
      RenderPairsAppend(rest, p);
      assert (a + [p])[1..] == rest + [p];
      assert RenderPairs(a + [p]) == RenderPair(a[0]) + "," + RenderPairs(rest + [p]);
      AssocCommas(RenderPair(a[0]), RenderPairs(rest), RenderPair(p));
    } else if |a| == 1 {
      assert (a + [p])[1..] == [p];
    }
  }

  lemma PairText(open: string, before: string, k: string, v: string)
    ensures open + before + k + ":" + v == open + (before + (k + ":" + v))
  {
    Concat3(open + before, k, ":");
    Concat3(open + before, k + ":", v);
    Concat3(open, before, k + ":" + v);
  }

  method MarshalJSON(m: seq<OrderedKV>) returns (buf: string)
    ensures buf == Render(OObj(m))
    decreases m, 0
  {
    if |m| == 0 {
      return "{}";
    }
    buf := "{";
    for i := 0 to |m|
      invariant buf == "{" + RenderPairs(m[..i])
    {
      ghost var before := RenderPairs(m[..i]);
      ghost var comma := if i == 0 then "" else before + ",";
      if i > 0 {
        buf := buf + ",";
      }
      assert buf == "{" + comma;
      var k := Quote(m[i].k);
      var v := Marshal(m[i].v);
      buf := buf + k;
      buf := buf + ":";
      buf := buf + v;
      PairText("{", comma, k, v);
      assert m[..i + 1] == m[..i] + [m[i]];
      RenderPairsAppend(m[..i], m[i]);
    }
    assert m[..|m|] == m;
    buf := buf + "}";
  }

  /** json.Marshal: objects go through MarshalJSON, everything else is the library's. */
  method Marshal(o: Ordered) returns (buf: string)
    ensures buf == Render(o)
    decreases o, 1
  {
    if o.OObj? {
      buf := MarshalJSON(o.pairs);
    } else {
      buf := Render(o);
    }
  }

  /** canonicalJSON, from the generic value on. Whatever order the map iteration in
      SortKeys takes, the bytes are the same. */
  method CanonicalJSON(generic: Json) returns (out: string)
    ensures out == Canon(generic)
  {
    var sorted := SortKeys(generic);
    out := Marshal(sorted);
  }
}
