/**
 The canonical form of RFC 8785, beside the one the code writes (internal/iogrid/recipe.go):
 strings with the escapes of its section 3.2.2.2 only, negative zero as 0 (section 3.2.2.3),
 and keys in the order of their UTF-16 code units (section 3.2.3).
 */
module Rfc8785 {
  import opened CanonicalJson
  import opened Common

  // ---------------------------------------------------------------- strings

  /** The characters json.Marshal escapes and the standard does not. */
  predicate IsHtml(c: char)
  {
    c == '<' || c == '>' || c == '&' || c as int == 0x2028 || c as int == 0x2029
  }

  predicate NoHtml(s: string)
  {
    forall i :: 0 <= i < |s| ==> !IsHtml(s[i])
  }

  /** The standard's escapes: quote, backslash and control characters. */
  function MinEscapeChar(c: char): (r: string)
  {
    if c == '"' then "\\\""
    else if c == '\\' then "\\\\"
    else if c as int == 8 then "\\b"
    else if c as int == 9 then "\\t"
    else if c as int == 10 then "\\n"
    else if c as int == 12 then "\\f"
    else if c as int == 13 then "\\r"
    else if (c as int) < 32 then "\\u00" + [Hex((c as int) / 16), Hex((c as int) % 16)]
    else [c]
  }

  function MinEscape(s: string): (r: string)
  {
    if s == "" then "" else MinEscapeChar(s[0]) + MinEscape(s[1..])
  }

  function MinQuote(s: string): (r: string)
  {
    "\"" + MinEscape(s) + "\""
  }

  // ---------------------------------------------------------------- trees

  function MinRender(o: Ordered): (r: string)
  {
    match o
    case ONull => "null"
    case OBool(b) => if b then "true" else "false"
    case ONum(token) => token
    case OStr(s) => MinQuote(s)
    case OArr(items) => "[" + MinRenderItems(items) + "]"
    case OObj(pairs) => "{" + MinRenderPairs(pairs) + "}"
  }

  function MinRenderItems(items: seq<Ordered>): (r: string)
  {
    if items == [] then ""
    else if |items| == 1 then MinRender(items[0])
    else MinRender(items[0]) + "," + MinRenderItems(items[1..])
  }

  function MinRenderPair(p: OrderedKV): (r: string)
  {
    MinQuote(p.k) + ":" + MinRender(p.v)
  }

  function MinRenderPairs(pairs: seq<OrderedKV>): (r: string)
  {
    if pairs == [] then ""
    else if |pairs| == 1 then MinRenderPair(pairs[0])
    else MinRenderPair(pairs[0]) + "," + MinRenderPairs(pairs[1..])
  }

  /** No key and no string of the tree has one of those characters. */
  predicate NoHtmlIn(o: Ordered)
  {
    match o
    case OStr(s) => NoHtml(s)
    case OArr(items) => forall i :: 0 <= i < |items| ==> NoHtmlIn(items[i])
    case OObj(pairs) => forall i :: 0 <= i < |pairs| ==> NoHtml(pairs[i].k) && NoHtmlIn(pairs[i].v)
    case _ => true
  }

  lemma NoHtmlConcat(a: string, b: string)
    ensures NoHtml(a + b) <==> NoHtml(a) && NoHtml(b)
  {
    assert forall i :: 0 <= i < |a| ==> (a + b)[i] == a[i];
    assert forall i :: 0 <= i < |b| ==> (a + b)[|a| + i] == b[i];
  }

  lemma NoHtmlList(head: string, rest: string)
    ensures NoHtml(head + "," + rest) <==> NoHtml(head) && NoHtml(rest)
  {
    NoHtmlConcat(head, ",");
    NoHtmlConcat(head + ",", rest);
  }

  lemma HexNoHtml(d: nat)
    requires d < 16
    ensures !IsHtml(Hex(d))
  {
    assert Hex(d) as int < 0x80 && ('0' <= Hex(d) <= '9' || 'a' <= Hex(d) <= 'f');
  }

  lemma EscapeCharNoHtml(c: char)
    ensures NoHtml(EscapeChar(c))
  {
    if (c as int) < 256 {
      HexNoHtml((c as int) / 16);
      HexNoHtml((c as int) % 16);
    }
  }

  /** The two escapes of a character differ exactly on those characters. */
  lemma MinEscapeCharHtml(c: char)
    ensures NoHtml(MinEscapeChar(c)) <==> !IsHtml(c)
    ensures !IsHtml(c) ==> MinEscapeChar(c) == EscapeChar(c)
  {
    if IsHtml(c) {
      assert MinEscapeChar(c)[0] == c;
    } else {
      EscapeCharNoHtml(c);
    }
  }

  lemma {:induction false} EscapeNoHtml(s: string)
    ensures NoHtml(Escape(s))
  {
    if s != "" {
      EscapeCharNoHtml(s[0]);
      EscapeNoHtml(s[1..]);
      NoHtmlConcat(EscapeChar(s[0]), Escape(s[1..]));
    }
  }

  lemma {:induction false} QuoteNoHtml(s: string)
    ensures NoHtml(Quote(s))
  {
    EscapeNoHtml(s);
    NoHtmlConcat("\"", Escape(s));
    NoHtmlConcat("\"" + Escape(s), "\"");
  }

  /** The code's text never has one of those characters. */
  lemma {:induction false} RenderNoHtml(o: Ordered)
    requires NumbersOk(o)
    ensures NoHtml(Render(o))
    decreases o, 1
  {
    match o
    case OStr(s) => QuoteNoHtml(s);
    case OArr(items) =>
      ItemsNoHtml(items);
      NoHtmlConcat("[", RenderItems(items));
      NoHtmlConcat("[" + RenderItems(items), "]");
    case OObj(pairs) =>
      PairsNoHtml(pairs);
      NoHtmlConcat("{", RenderPairs(pairs));
      NoHtmlConcat("{" + RenderPairs(pairs), "}");
    case _ =>
  }

  lemma {:induction false} ItemsNoHtml(items: seq<Ordered>)
    requires forall i :: 0 <= i < |items| ==> NumbersOk(items[i])
    ensures NoHtml(RenderItems(items))
    decreases items, 0
  {
    if items != [] {
      RenderNoHtml(items[0]);
      if |items| > 1 {
        ItemsNoHtml(items[1..]);
        NoHtmlConcat(Render(items[0]), ",");
        NoHtmlConcat(Render(items[0]) + ",", RenderItems(items[1..]));
      }
    }
  }

  lemma {:induction false} PairsNoHtml(pairs: seq<OrderedKV>)
    requires forall i :: 0 <= i < |pairs| ==> NumbersOk(pairs[i].v)
    ensures NoHtml(RenderPairs(pairs))
    decreases pairs, 0
  {
    if pairs != [] {
      QuoteNoHtml(pairs[0].k);
      RenderNoHtml(pairs[0].v);
      NoHtmlConcat(Quote(pairs[0].k), ":");
      NoHtmlConcat(Quote(pairs[0].k) + ":", Render(pairs[0].v));
      if |pairs| > 1 {
        PairsNoHtml(pairs[1..]);
        NoHtmlConcat(RenderPair(pairs[0]), ",");
        NoHtmlConcat(RenderPair(pairs[0]) + ",", RenderPairs(pairs[1..]));
      }
    }
  }

  lemma {:induction false} MinEscapeHtml(s: string)
    ensures NoHtml(MinEscape(s)) <==> NoHtml(s)
    ensures NoHtml(s) ==> MinEscape(s) == Escape(s)
  {
    if s != "" {
      MinEscapeHtml(s[1..]);
      NoHtmlConcat(MinEscapeChar(s[0]), MinEscape(s[1..]));
      MinEscapeCharHtml(s[0]);
      assert NoHtml(s) <==> !IsHtml(s[0]) && NoHtml(s[1..]) by {
        assert s == [s[0]] + s[1..];
      }
    }
  }

  lemma {:induction false} MinQuoteHtml(s: string)
    ensures NoHtml(MinQuote(s)) <==> NoHtml(s)
    ensures NoHtml(s) ==> MinQuote(s) == Quote(s)
  {
    MinEscapeHtml(s);
    NoHtmlConcat("\"", MinEscape(s));
    NoHtmlConcat("\"" + MinEscape(s), "\"");
  }

  /** The standard's text has one of those characters exactly when the tree has; if not, it is
      the code's text of the tree. */
  lemma {:induction false} MinRenderHtml(o: Ordered)
    requires NumbersOk(o)
    ensures NoHtml(MinRender(o)) <==> NoHtmlIn(o)
    ensures NoHtmlIn(o) ==> MinRender(o) == Render(o)
    decreases o, 1
  {
    match o
    case OStr(s) => MinQuoteHtml(s);
    case OArr(items) =>
      MinItemsHtml(items);
      NoHtmlConcat("[", MinRenderItems(items));
      NoHtmlConcat("[" + MinRenderItems(items), "]");
    case OObj(pairs) =>
      MinPairsHtml(pairs);
      NoHtmlConcat("{", MinRenderPairs(pairs));
      NoHtmlConcat("{" + MinRenderPairs(pairs), "}");
    case _ =>
  }

  predicate NoHtmlInItems(items: seq<Ordered>)
  {
    forall i :: 0 <= i < |items| ==> NoHtmlIn(items[i])
  }

  predicate NoHtmlInPairs(pairs: seq<OrderedKV>)
  {
    forall i :: 0 <= i < |pairs| ==> NoHtml(pairs[i].k) && NoHtmlIn(pairs[i].v)
  }

  lemma {:induction false} MinItemsHtml(items: seq<Ordered>)
    requires forall i :: 0 <= i < |items| ==> NumbersOk(items[i])
    ensures NoHtml(MinRenderItems(items)) <==> NoHtmlInItems(items)
    ensures NoHtmlInItems(items) ==> MinRenderItems(items) == RenderItems(items)
    decreases items, 0
  {
    if items != [] {
      MinRenderHtml(items[0]);
      if |items| > 1 {
        MinItemsHtml(items[1..]);
        NoHtmlList(MinRender(items[0]), MinRenderItems(items[1..]));
        ItemsFromHead(items);
      }
    }
  }

  lemma {:induction false} MinPairHtml(p: OrderedKV)
    requires NumbersOk(p.v)
    ensures NoHtml(MinRenderPair(p)) <==> NoHtml(p.k) && NoHtmlIn(p.v)
    ensures NoHtml(p.k) && NoHtmlIn(p.v) ==> MinRenderPair(p) == RenderPair(p)
    decreases p, 2
  {
    MinQuoteHtml(p.k);
    MinRenderHtml(p.v);
    NoHtmlConcat(MinQuote(p.k), ":");
    NoHtmlConcat(MinQuote(p.k) + ":", MinRender(p.v));
  }

  lemma ItemsFromHead(items: seq<Ordered>)
    requires items != []
    ensures NoHtmlInItems(items) <==> NoHtmlIn(items[0]) && NoHtmlInItems(items[1..])
  {
    assert items == [items[0]] + items[1..];
  }

  lemma PairsFromHead(pairs: seq<OrderedKV>)
    requires pairs != []
    ensures NoHtmlInPairs(pairs) <==> NoHtml(pairs[0].k) && NoHtmlIn(pairs[0].v) && NoHtmlInPairs(pairs[1..])
  {
    assert pairs == [pairs[0]] + pairs[1..];
  }

  lemma {:induction false} MinPairsHtml(pairs: seq<OrderedKV>)
    requires forall i :: 0 <= i < |pairs| ==> NumbersOk(pairs[i].v)
    ensures NoHtml(MinRenderPairs(pairs)) <==> NoHtmlInPairs(pairs)
    ensures NoHtmlInPairs(pairs) ==> MinRenderPairs(pairs) == RenderPairs(pairs)
    decreases pairs, 0
  {
    if pairs != [] {
      MinPairHtml(pairs[0]);
      if |pairs| > 1 {
        MinPairsHtml(pairs[1..]);
        NoHtmlList(MinRenderPair(pairs[0]), MinRenderPairs(pairs[1..]));
        PairsFromHead(pairs);
      }
    }
  }

  // ---------------------------------------------------------------- key order

  /** The UTF-16 code units of a character: itself, or a surrogate pair. */
  function UnitsOf(c: char): (u: seq<int>)
    ensures 1 <= |u| <= 2
  {
    if (c as int) < 0x10000 then [c as int]
    else [0xD800 + (c as int - 0x10000) / 0x400, 0xDC00 + (c as int - 0x10000) % 0x400]
  }

  function Units(s: string): (u: seq<int>)
  {
    if s == "" then [] else UnitsOf(s[0]) + Units(s[1..])
  }

  /** The order of code units: by the first that differs, a proper prefix first. */
  predicate LessUnits(a: seq<int>, b: seq<int>)
  {
    b != [] && (a == [] || a[0] < b[0] || (a[0] == b[0] && LessUnits(a[1..], b[1..])))
  }

  predicate Less16(a: string, b: string)
  {
    LessUnits(Units(a), Units(b))
  }

  lemma {:induction false} LessUnitsTotal(a: seq<int>, b: seq<int>)
    ensures a == b || LessUnits(a, b) || LessUnits(b, a)
    ensures !(LessUnits(a, b) && LessUnits(b, a))
    ensures !LessUnits(a, a)
  {
    if a != [] {
      LessUnitsTotal(a[1..], if b != [] then b[1..] else []);
    }
    if a != [] && b != [] && a[0] == b[0] {
      assert a == [a[0]] + a[1..] && b == [b[0]] + b[1..];
    }
  }

  lemma {:induction false} LessUnitsTransitive(a: seq<int>, b: seq<int>, c: seq<int>)
    requires LessUnits(a, b) && LessUnits(b, c)
    ensures LessUnits(a, c)
  {
    if a != [] && a[0] == b[0] == c[0] {
      LessUnitsTransitive(a[1..], b[1..], c[1..]);
    }
  }

  /** Different strings have different code units. */
  lemma {:induction false} UnitsInjective(a: string, b: string)
    requires Units(a) == Units(b)
    ensures a == b
  {
    if a != "" && b != "" {
      var u, v := UnitsOf(a[0]), UnitsOf(b[0]);
      assert Units(a)[0] == u[0] && Units(b)[0] == v[0];
      if |u| == 2 && |v| == 2 {
        assert Units(a)[1] == u[1] && Units(b)[1] == v[1];
      }
      assert |u| == |v| && u == v;
      assert Units(a)[|u|..] == Units(a[1..]) && Units(b)[|v|..] == Units(b[1..]);
      UnitsInjective(a[1..], b[1..]);
      assert a == [a[0]] + a[1..] && b == [b[0]] + b[1..];
    }
  }

  lemma {:induction false} Less16Total(a: string, b: string)
    ensures a == b || Less16(a, b) || Less16(b, a)
    ensures !(Less16(a, b) && Less16(b, a)) && !Less16(a, a)
  {
    LessUnitsTotal(Units(a), Units(b));
    LessUnitsTotal(Units(a), Units(a));
    if Units(a) == Units(b) {
      UnitsInjective(a, b);
    }
  }

  predicate Ascending16(ks: seq<string>)
  {
    forall i, j :: 0 <= i < j < |ks| ==> Less16(ks[i], ks[j])
  }

  lemma {:induction false} Less16Strict()
    ensures StrictTotal(Less16)
  {
    forall a, b ensures (a == b || Less16(a, b) || Less16(b, a)) && !(Less16(a, b) && Less16(b, a)) {
      Less16Total(a, b);
    }
    forall a, b, c | Less16(a, b) && Less16(b, c) ensures Less16(a, c) {
      LessUnitsTransitive(Units(a), Units(b), Units(c));
    }
  }

  /** The elements of `s` in the standard's order. */
  ghost function SortedKeys16(s: set<string>): (ks: seq<string>)
    ensures Ascending16(ks)
    ensures forall k :: k in ks <==> k in s
  {
    Less16Strict();
    Listed(Less16, s)
  }

  /** The two orders list these keys alike. */
  predicate SameOrder(s: set<string>)
  {
    forall k, l :: k in s && l in s ==> (Less(k, l) <==> Less16(k, l))
  }

  lemma {:induction false} ListedAlike(s: set<string>)
    ensures SortedKeys(s) == SortedKeys16(s) <==> SameOrder(s)
  {
    var a, b := SortedKeys(s), SortedKeys16(s);
    if SameOrder(s) {
      forall i, j | 0 <= i < j < |b| ensures Less(b[i], b[j]) {
        assert b[i] in b && b[j] in b;
      }
      AscendingUnique(a, b);
    }
    if a == b {
      forall k, l | k in s && l in s ensures Less(k, l) <==> Less16(k, l) {
        InBothOrders(a, k, l);
      }
    }
  }

  lemma {:induction false} InBothOrders(ks: seq<string>, k: string, l: string)
    requires Ascending(ks) && Ascending16(ks) && k in ks && l in ks
    ensures Less(k, l) <==> Less16(k, l)
  {
    var i :| 0 <= i < |ks| && ks[i] == k;
    var j :| 0 <= j < |ks| && ks[j] == l;
    LessTotal(k, l);
    Less16Total(k, l);
    if i < j {
      assert Less(ks[i], ks[j]) && Less16(ks[i], ks[j]);
    } else if j < i {
      assert Less(ks[j], ks[i]) && Less16(ks[j], ks[i]);
    }
  }

  // ---------------------------------------------------------------- the standard's form

  function PlainZero(token: string): (r: string)
  {
    if token == "-0" then "0" else token
  }

  ghost function JcsForm(v: Json): (o: Ordered)
  {
    match v
    case Null => ONull
    case Bool(b) => OBool(b)
    case Num(token) => ONum(PlainZero(token))
    case Str(s) => OStr(s)
    case Arr(items) => OArr(seq(|items|, i requires 0 <= i < |items| => JcsForm(items[i])))
    case Obj(fields) =>
      var ks := SortedKeys16(fields.Keys);
      OObj(seq(|ks|, i requires 0 <= i < |ks| =>
        assert ks[i] in ks; KV(ks[i], JcsForm(fields[ks[i]]))))
  }

  ghost function Jcs(v: Json): (r: string)
  {
    MinRender(JcsForm(v))
  }

  /** What a value must be for the code to meet the standard: no string or key with one of
      those characters, no negative zero, and no object whose keys the two orders list
      differently. */
  ghost predicate Conforms(v: Json)
  {
    match v
    case Num(token) => token != "-0"
    case Str(s) => NoHtml(s)
    case Arr(items) => forall i :: 0 <= i < |items| ==> Conforms(items[i])
    case Obj(fields) => SameOrder(fields.Keys) && forall k :: k in fields ==> NoHtml(k) && Conforms(fields[k])
    case _ => true
  }

  lemma {:induction false} JcsFormNumbersOk(v: Json)
    requires WellFormed(v)
    ensures NumbersOk(JcsForm(v))
  {
    match v
    case Arr(items) =>
      forall i | 0 <= i < |items| ensures NumbersOk(JcsForm(items[i])) {
        JcsFormNumbersOk(items[i]);
      }
    case Obj(fields) =>
      var ks := SortedKeys16(fields.Keys);
      forall i | 0 <= i < |ks| ensures NumbersOk(JcsForm(v).pairs[i].v) {
        assert ks[i] in ks;
        JcsFormNumbersOk(fields[ks[i]]);
      }
    case _ =>
  }

  /** The two trees are the same, and free of those characters, exactly for such values. */
  lemma {:induction false} SameTrees(v: Json)
    ensures SortedForm(v) == JcsForm(v) && NoHtmlIn(JcsForm(v)) <==> Conforms(v)
  {
    match v
    case Arr(items) =>
      forall i | 0 <= i < |items|
        ensures SortedForm(items[i]) == JcsForm(items[i]) && NoHtmlIn(JcsForm(items[i])) <==> Conforms(items[i])
      {
        SameTrees(items[i]);
      }
      SameArrays(items);
    case Obj(fields) =>
      forall k | k in fields
        ensures SortedForm(fields[k]) == JcsForm(fields[k]) && NoHtmlIn(JcsForm(fields[k])) <==> Conforms(fields[k])
      {
        SameTrees(fields[k]);
      }
      SameObjects(fields);
    case _ =>
  }

  lemma {:induction false} SameArrays(items: seq<Json>)
    requires forall i :: 0 <= i < |items| ==>
      (SortedForm(items[i]) == JcsForm(items[i]) && NoHtmlIn(JcsForm(items[i])) <==> Conforms(items[i]))
    ensures SortedForm(Arr(items)) == JcsForm(Arr(items)) && NoHtmlIn(JcsForm(Arr(items))) <==> Conforms(Arr(items))
  {
    var a, b := SortedForm(Arr(items)).items, JcsForm(Arr(items)).items;
    assert forall i :: 0 <= i < |items| ==> a[i] == SortedForm(items[i]) && b[i] == JcsForm(items[i]);
    if Conforms(Arr(items)) {
      assert a == b;
    }
  }

  lemma {:induction false} SameObjects(fields: map<string, Json>)
    requires forall k :: k in fields ==>
      (SortedForm(fields[k]) == JcsForm(fields[k]) && NoHtmlIn(JcsForm(fields[k])) <==> Conforms(fields[k]))
    ensures SortedForm(Obj(fields)) == JcsForm(Obj(fields)) && NoHtmlIn(JcsForm(Obj(fields))) <==> Conforms(Obj(fields))
  {
    ListedAlike(fields.Keys);
    if Conforms(Obj(fields)) {
      ConformingPairs(fields);
    }
    if SortedForm(Obj(fields)) == JcsForm(Obj(fields)) && NoHtmlIn(JcsForm(Obj(fields))) {
      SamePairs(fields);
    }
  }

  lemma {:induction false} SamePairs(fields: map<string, Json>)
    requires SortedForm(Obj(fields)) == JcsForm(Obj(fields)) && NoHtmlIn(JcsForm(Obj(fields)))
    ensures SortedKeys(fields.Keys) == SortedKeys16(fields.Keys)
    ensures forall k :: k in fields ==>
      NoHtml(k) && SortedForm(fields[k]) == JcsForm(fields[k]) && NoHtmlIn(JcsForm(fields[k]))
  {
    var ks, ls := SortedKeys(fields.Keys), SortedKeys16(fields.Keys);
    var a, b := SortedForm(Obj(fields)).pairs, JcsForm(Obj(fields)).pairs;
    forall i | 0 <= i < |ks| ensures ks[i] == ls[i] {
      assert a[i].k == b[i].k;
    }
    assert ks == ls;
    forall k | k in fields
      ensures NoHtml(k) && SortedForm(fields[k]) == JcsForm(fields[k]) && NoHtmlIn(JcsForm(fields[k]))
    {
      assert k in ls;
      var i :| 0 <= i < |ls| && ls[i] == k;
      assert a[i] == b[i] && NoHtml(b[i].k) && NoHtmlIn(b[i].v);
    }
  }

  lemma {:induction false} ConformingPairs(fields: map<string, Json>)
    requires SortedKeys(fields.Keys) == SortedKeys16(fields.Keys)
    requires forall k :: k in fields ==>
      NoHtml(k) && SortedForm(fields[k]) == JcsForm(fields[k]) && NoHtmlIn(JcsForm(fields[k]))
    ensures SortedForm(Obj(fields)) == JcsForm(Obj(fields)) && NoHtmlIn(JcsForm(Obj(fields)))
  {
    var ls := SortedKeys16(fields.Keys);
    var a, b := SortedForm(Obj(fields)).pairs, JcsForm(Obj(fields)).pairs;
    forall i | 0 <= i < |ls| ensures a[i] == b[i] && NoHtml(b[i].k) && NoHtmlIn(b[i].v) {
      assert ls[i] in ls;
    }
    assert a == b;
  }

  /** Exactly when the code writes the standard's canonical form: for every value, nested to any
      depth, its text is that of RFC 8785 if and only if no string or key has `<`, `>`, `&`,
      U+2028 or U+2029, no number is negative zero, and no object's keys are listed differently
      by code points and by UTF-16 code units. */
  lemma {:induction false} JcsExactly(v: Json)
    requires WellFormed(v)
    ensures Canon(v) == Jcs(v) <==> Conforms(v)
  {
    SortedFormNumbersOk(v);
    JcsFormNumbersOk(v);
    RenderNoHtml(SortedForm(v));
    MinRenderHtml(JcsForm(v));
    SameTrees(v);
    if Canon(v) == Jcs(v) {
      RenderDecodes(SortedForm(v), JcsForm(v), "", "");
    }
  }

  /** A string with one of those characters. */
  lemma HtmlWitness()
    ensures Canon(Str("<")) == "\"\\u003c\"" && Jcs(Str("<")) == "\"<\""
  {
    assert Escape("<") == EscapeChar('<') + Escape("<"[1..]);
    assert MinEscape("<") == MinEscapeChar('<') + MinEscape("<"[1..]);
  }

  /** Two keys, U+E000 and U+10000, that the two orders list differently. */
  lemma {:induction false} KeyOrderWitness()
    ensures var v := Obj(map["\U{E000}" := Null, "\U{10000}" := Null]);
      WellFormed(v) && Canon(v) != Jcs(v)
  {
    var k, l := "\U{E000}", "\U{10000}";
    var v := Obj(map[k := Null, l := Null]);
    assert Less(k, l);
    assert Units(k) == [0xE000] && Units(l)[0] == 0xD800;
    assert !SameOrder(v.fields.Keys) by {
      assert k in v.fields.Keys && l in v.fields.Keys;
    }
    JcsExactly(v);
  }

  lemma {:induction false} NegativeZeroWitness()
    ensures WellFormed(Num("-0")) && Canon(Num("-0")) == "-0" && Jcs(Num("-0")) == "0"
  {
  }
}
