/** stableJson: the JSON text in which the keys of every object are sorted. Its digest decides
    equality, so the text must determine the value up to key order. */
module StableJson {
  import Bytes
  import opened Options
  import opened Order

  /** A UTF-16 code unit; texts are sequences of them. */
  type Unit = u: int | 0 <= u < 0x1_0000

  type String = seq<Unit>

  const QUOTE: Unit := 0x22
  const BACKSLASH: Unit := 0x5c
  const COMMA: Unit := 0x2c
  const COLON: Unit := 0x3a
  const MINUS: Unit := 0x2d
  const OPEN_ARRAY: Unit := 0x5b
  const CLOSE_ARRAY: Unit := 0x5d
  const OPEN_OBJECT: Unit := 0x7b
  const CLOSE_OBJECT: Unit := 0x7d

  datatype Json = Null | Bool(value: bool) | Number(n: int) | Text(text: String) | Array(items: seq<Json>) | Object(members: seq<Member>)

  /** The members of an object come in insertion order. */
  datatype Member = Member(key: String, value: Json)

  // ---- JSON.stringify on strings ----

  predicate High(u: Unit) {
    0xd800 <= u <= 0xdbff
  }

  predicate Low(u: Unit) {
    0xdc00 <= u <= 0xdfff
  }

  function Hex(d: int): Unit
    requires 0 <= d < 16
  {
    if d < 10 then 48 + d else 87 + d
  }

  function EscapeUnit(u: Unit): String {
    [BACKSLASH, 0x75, Hex(u / 4096), Hex(u / 256 % 16), Hex(u / 16 % 16), Hex(u % 16)]
  }

  /** A unit outside a surrogate pair. */
  function One(u: Unit): (s: String)
    ensures s != []
  {
    if u == QUOTE then [BACKSLASH, QUOTE]
    else if u == BACKSLASH then [BACKSLASH, BACKSLASH]
    else if u == 8 then [BACKSLASH, 0x62]
    else if u == 9 then [BACKSLASH, 0x74]
    else if u == 10 then [BACKSLASH, 0x6e]
    else if u == 12 then [BACKSLASH, 0x66]
    else if u == 13 then [BACKSLASH, 0x72]
    else if u < 32 || High(u) || Low(u) then EscapeUnit(u)
    else [u]
  }

  /** Surrogate pairs are kept; a lone surrogate is escaped. */
  function Escape(s: String): String {
    if s == [] then []
    else if High(s[0]) && |s| > 1 && Low(s[1]) then s[..2] + Escape(s[2..])
    else One(s[0]) + Escape(s[1..])
  }

  function Quote(s: String): String {
    [QUOTE] + Escape(s) + [QUOTE]
  }

  // ---- stableJson ----

  function Keys(members: seq<Member>): (keys: seq<String>)
    ensures |keys| == |members| && forall i :: 0 <= i < |members| ==> keys[i] == members[i].key
  {
    seq(|members|, i requires 0 <= i < |members| => members[i].key)
  }

  /** value[key] */
  function Lookup(members: seq<Member>, key: String): (v: Json)
    requires key in Keys(members)
    ensures exists i :: 0 <= i < |members| && members[i] == Member(key, v)
  {
    if members[0].key == key then members[0].value
    else
      assert key in Keys(members[1..]) by {
        var i :| 0 <= i < |members| && Keys(members)[i] == key;
        assert Keys(members[1..])[i - 1] == key;
      }
      Lookup(members[1..], key)
  }

  function Join(parts: seq<String>): String {
    if parts == [] then [] else if |parts| == 1 then parts[0] else parts[0] + [COMMA] + Join(parts[1..])
  }

  /** Sorted by code units. */
  function SortedKeys(members: seq<Member>): (keys: seq<String>)
    ensures forall k :: k in keys <==> k in Keys(members)
  {
    var keys: seq<Order.Text> := Sort(Keys(members));
    assert forall i :: 0 <= i < |keys| ==> keys[i] in keys && keys[i] in Keys(members);
    assert forall i, j :: 0 <= i < |keys| && 0 <= j < |keys[i]| ==> 0 <= keys[i][j] < 0x1_0000;
    keys
  }

  function Stringify(v: Json): String
    decreases v, 0
  {
    match v
    case Null => [0x6e, 0x75, 0x6c, 0x6c]
    case Bool(b) => if b then [0x74, 0x72, 0x75, 0x65] else [0x66, 0x61, 0x6c, 0x73, 0x65]
    case Number(n) => if n < 0 then [MINUS] + Bytes.Decimal(-n) else Bytes.Decimal(n)
    case Text(s) => Quote(s)
    case Array(items) => [OPEN_ARRAY] + Join(StringifyAll(items)) + [CLOSE_ARRAY]
    case Object(members) => [OPEN_OBJECT] + Join(StringifyMembers(members, SortedKeys(members))) + [CLOSE_OBJECT]
  }

  function StringifyAll(items: seq<Json>): (parts: seq<String>)
    ensures |parts| == |items|
    decreases items, 0
  {
    if items == [] then [] else [Stringify(items[0])] + StringifyAll(items[1..])
  }

  function StringifyMembers(members: seq<Member>, keys: seq<String>): (parts: seq<String>)
    requires forall k :: k in keys ==> k in Keys(members)
    ensures |parts| == |keys|
    decreases members, |keys|
  {
    if keys == [] then []
    else [Quote(keys[0]) + [COLON] + Stringify(Lookup(members, keys[0]))] + StringifyMembers(members, keys[1..])
  }

  // ---- Equality up to key order ----

  /** No object repeats a key. */
  predicate Valid(v: Json) {
    match v
    case Array(items) => forall i :: 0 <= i < |items| ==> Valid(items[i])
    case Object(members) =>
      && (forall i, j :: 0 <= i < j < |members| ==> members[i].key != members[j].key)
      && (forall i :: 0 <= i < |members| ==> Valid(members[i].value))
    case _ => true
  }

  /** The same value, except that the members of objects may come in another order. */
  ghost predicate Same(a: Json, b: Json) {
    match (a, b)
    case (Array(xs), Array(ys)) => |xs| == |ys| && forall i :: 0 <= i < |xs| ==> Same(xs[i], ys[i])
    case (Object(ms), Object(ns)) =>
      && (forall k :: k in Keys(ms) <==> k in Keys(ns))
      && (forall i, j :: 0 <= i < |ms| && 0 <= j < |ns| && ms[i].key == ns[j].key ==> Same(ms[i].value, ns[j].value))
    case _ => a == b
  }

  // ---- Strings decode ----

  function HexValue(u: Unit): Option<int> {
    if 48 <= u <= 57 then Some(u - 48) else if 97 <= u <= 102 then Some(u - 87) else None
  }

  /** The unit that an escaped text starts with, and how much of the text it takes. */
  function FirstUnit(t: String): (r: Option<(Unit, nat)>)
    ensures r.Some? ==> 0 < r.value.1 <= |t|
  {
    if t == [] || t[0] == QUOTE then None
    else if t[0] != BACKSLASH then Some((t[0], 1))
    else if |t| < 2 then None
    else if t[1] == QUOTE || t[1] == BACKSLASH then Some((t[1], 2))
    else if t[1] == 0x62 then Some((8, 2))
    else if t[1] == 0x74 then Some((9, 2))
    else if t[1] == 0x6e then Some((10, 2))
    else if t[1] == 0x66 then Some((12, 2))
    else if t[1] == 0x72 then Some((13, 2))
    else if t[1] != 0x75 || |t| < 6 then None
    else
      var a, b, c, d := HexValue(t[2]), HexValue(t[3]), HexValue(t[4]), HexValue(t[5]);
      if a.None? || b.None? || c.None? || d.None? then None
      else Some((4096 * a.value + 256 * b.value + 16 * c.value + d.value, 6))
  }

  /** Reads up to the closing quote: the string, and what follows it. */
  function Unescape(t: String): Option<(String, String)>
    decreases |t|
  {
    if t == [] then None
    else if t[0] == QUOTE then Some(([], t[1..]))
    else
      var first := FirstUnit(t);
      if first.None? then None
      else
        var rest := Unescape(t[first.value.1..]);
        if rest.None? then None else Some(([first.value.0] + rest.value.0, rest.value.1))
  }

  lemma HexReadsBack(u: Unit)
    ensures u == 4096 * (u / 4096) + 256 * (u / 256 % 16) + 16 * (u / 16 % 16) + u % 16
    ensures u / 4096 < 16
  {
  }

  lemma OneReadsBack(u: Unit, rest: String)
    ensures One(u)[0] != QUOTE
    ensures FirstUnit(One(u) + rest) == Some((u, |One(u)|))
  {
    HexReadsBack(u);
    var t := One(u) + rest;
    assert forall i :: 0 <= i < |One(u)| ==> t[i] == One(u)[i];
  }

  /** One more unit in front of a text that reads as `r`. */
  function Prepend(u: Unit, r: Option<(String, String)>): Option<(String, String)> {
    if r.None? then None else Some(([u] + r.value.0, r.value.1))
  }

  lemma RawUnescapes(u: Unit, rest: String)
    requires High(u) || Low(u)
    ensures Unescape([u] + rest) == Prepend(u, Unescape(rest))
  {
    assert ([u] + rest)[1..] == rest;
  }

  lemma OneUnescapes(u: Unit, rest: String)
    ensures Unescape(One(u) + rest) == Prepend(u, Unescape(rest))
  {
    hide One, FirstUnit;
    OneReadsBack(u, rest);
    assert (One(u) + rest)[0] == One(u)[0];
    assert (One(u) + rest)[|One(u)|..] == rest;
  }

  predicate StartsWithPair(s: String) {
    |s| > 1 && High(s[0]) && Low(s[1])
  }

  lemma EscapedPair(s: String, rest: String)
    requires StartsWithPair(s)
    ensures Escape(s) + [QUOTE] + rest == [s[0]] + ([s[1]] + (Escape(s[2..]) + [QUOTE] + rest))
  {
    hide One;
    var e := Escape(s[2..]);
    assert Escape(s) == s[..2] + e;
    assert s[..2] == [s[0]] + [s[1]];
  }

  lemma EscapedOne(s: String, rest: String)
    requires s != [] && !StartsWithPair(s)
    ensures Escape(s) + [QUOTE] + rest == One(s[0]) + (Escape(s[1..]) + [QUOTE] + rest)
  {
    hide One;
    assert Escape(s) == One(s[0]) + Escape(s[1..]);
  }

  /** Escaping then reading gives the string back, and leaves what follows. */
  lemma {:induction false} EscapeReadsBack(s: String, rest: String)
    ensures Unescape(Escape(s) + [QUOTE] + rest) == Some((s, rest))
    decreases |s|
  {
    if s == [] {
      assert Escape(s) + [QUOTE] + rest == [QUOTE] + rest;
    } else if StartsWithPair(s) {
      hide Unescape, Escape;
      EscapeReadsBack(s[2..], rest);
      EscapedPair(s, rest);
      RawUnescapes(s[1], Escape(s[2..]) + [QUOTE] + rest);
      RawUnescapes(s[0], [s[1]] + (Escape(s[2..]) + [QUOTE] + rest));
      assert s == [s[0]] + ([s[1]] + s[2..]);
    } else {
      hide Unescape, Escape, One;
      EscapeReadsBack(s[1..], rest);
      EscapedOne(s, rest);
      OneUnescapes(s[0], Escape(s[1..]) + [QUOTE] + rest);
      assert s == [s[0]] + s[1..];
    }
  }

  /** A quoted string is determined by any text that starts with it. */
  lemma QuoteIsUnique(s: String, t: String, after: String, rest: String)
    requires Quote(s) + after == Quote(t) + rest
    ensures s == t && after == rest
  {
    hide Escape, Unescape;
    EscapeReadsBack(s, after);
    EscapeReadsBack(t, rest);
    assert (Quote(s) + after)[1..] == Escape(s) + [QUOTE] + after;
    assert (Quote(t) + rest)[1..] == Escape(t) + [QUOTE] + rest;
  }

  // ---- Values decode ----

  /** What can follow a value inside a JSON text. */
  predicate Tail(t: String) {
    t == [] || t[0] in {COMMA, CLOSE_ARRAY, CLOSE_OBJECT}
  }

  /** The kind of value that a first unit announces. */
  function KindOf(u: Unit): nat {
    if u == 0x6e then 0 else if u == 0x74 then 1 else if u == 0x66 then 2
    else if u == MINUS || 48 <= u <= 57 then 3
    else if u == QUOTE then 4 else if u == OPEN_ARRAY then 5 else if u == OPEN_OBJECT then 6 else 7
  }

  function Kind(v: Json): nat {
    match v
    case Null => 0
    case Bool(b) => if b then 1 else 2
    case Number(_) => 3
    case Text(_) => 4
    case Array(_) => 5
    case Object(_) => 6
  }

  lemma StartTellsKind(v: Json)
    ensures Stringify(v) != [] && KindOf(Stringify(v)[0]) == Kind(v)
  {
    if v.Number? && v.n >= 0 {
      Bytes.DecimalIsNumeral(v.n);
    }
  }

  lemma SameStart(a: Json, b: Json, r: String, t: String)
    requires Stringify(a) + r == Stringify(b) + t
    ensures Kind(a) == Kind(b)
  {
    hide Stringify, KindOf, Kind;
    StartTellsKind(a);
    StartTellsKind(b);
    assert (Stringify(a) + r)[0] == Stringify(a)[0];
    assert (Stringify(b) + t)[0] == Stringify(b)[0];
  }

  /** How many digits a text starts with. */
  function Span(t: String): (n: nat)
    ensures n <= |t|
  {
    if t == [] || !(48 <= t[0] <= 57) then 0 else 1 + Span(t[1..])
  }

  lemma {:induction false} SpanOfNumeral(x: String, r: String)
    requires (forall i :: 0 <= i < |x| ==> 48 <= x[i] <= 57) && Tail(r)
    ensures Span(x + r) == |x|
  {
    if x == [] {
      assert x + r == r;
    } else {
      assert (x + r)[1..] == x[1..] + r;
      SpanOfNumeral(x[1..], r);
    }
  }

  lemma NumeralsAreUnique(m: nat, n: nat, r: String, t: String)
    requires Tail(r) && Tail(t) && Bytes.Decimal(m) + r == Bytes.Decimal(n) + t
    ensures m == n && r == t
  {
    hide Bytes.Decimal, Span;
    var x: String, y: String := Bytes.Decimal(m), Bytes.Decimal(n);
    Bytes.DecimalIsNumeral(m);
    Bytes.DecimalIsNumeral(n);
    SpanOfNumeral(x, r);
    SpanOfNumeral(y, t);
    assert x == (x + r)[..|x|] && r == (x + r)[|x|..];
    assert y == (y + t)[..|y|] && t == (y + t)[|y|..];
  }

  /** A sign stands in front of exactly the negative numbers. */
  lemma SignOfNumber(n: int, r: String)
    ensures var text := Stringify(Number(n)) + r;
            && (text[0] == MINUS <==> n < 0)
            && (if n < 0 then text[1..] == Bytes.Decimal(-n) + r else text == Bytes.Decimal(n) + r)
  {
    hide Bytes.Decimal;
    if n >= 0 {
      Bytes.DecimalIsNumeral(n);
    }
  }

  lemma NumbersAreUnique(m: int, n: int, r: String, t: String)
    requires Tail(r) && Tail(t) && Stringify(Number(m)) + r == Stringify(Number(n)) + t
    ensures m == n && r == t
  {
    hide Stringify, Bytes.Decimal;
    SignOfNumber(m, r);
    SignOfNumber(n, t);
    if m < 0 {
      NumeralsAreUnique(-m, -n, r, t);
    } else {
      NumeralsAreUnique(m, n, r, t);
    }
  }

  /** What follows the first of some joined parts. */
  function AfterFirst(parts: seq<String>, close: String): String
    requires parts != []
  {
    if |parts| == 1 then close else [COMMA] + (Join(parts[1..]) + close)
  }

  lemma JoinStarts(parts: seq<String>, close: String)
    requires parts != []
    ensures Join(parts) + close == parts[0] + AfterFirst(parts, close)
  {
  }

  lemma {:induction false} ItemsAreUnique(xs: seq<Json>, ys: seq<Json>, r: String, t: String)
    requires (forall x :: x in xs ==> Valid(x)) && (forall y :: y in ys ==> Valid(y))
    requires Join(StringifyAll(xs)) + ([CLOSE_ARRAY] + r) == Join(StringifyAll(ys)) + ([CLOSE_ARRAY] + t)
    ensures |xs| == |ys| && (forall i :: 0 <= i < |xs| ==> Same(xs[i], ys[i])) && r == t
    decreases xs, 0
  {
    hide Same, Valid, Stringify, Join;
    var px, py := StringifyAll(xs), StringifyAll(ys);
    var cx, cy := [CLOSE_ARRAY] + r, [CLOSE_ARRAY] + t;
    if xs == [] || ys == [] {
      EmptyListIsUnique(xs, ys, r, t);
    } else {
      JoinStarts(px, cx);
      JoinStarts(py, cy);
      IsUnique(xs[0], ys[0], AfterFirst(px, cx), AfterFirst(py, cy));
      assert AfterFirst(px, cx)[1..] == AfterFirst(py, cy)[1..];
      if |xs| > 1 && |ys| > 1 {
        ItemsAreUnique(xs[1..], ys[1..], r, t);
      } else {
        assert |xs| == |ys| == 1;
        assert cx[1..] == r && cy[1..] == t;
      }
    }
  }

  lemma EmptyListIsUnique(xs: seq<Json>, ys: seq<Json>, r: String, t: String)
    requires xs == [] || ys == []
    requires Join(StringifyAll(xs)) + ([CLOSE_ARRAY] + r) == Join(StringifyAll(ys)) + ([CLOSE_ARRAY] + t)
    ensures xs == ys == [] && r == t
  {
    hide Stringify;
    if xs != [] {
      StartTellsKind(xs[0]);
      JoinStarts(StringifyAll(xs), [CLOSE_ARRAY] + r);
    }
    if ys != [] {
      StartTellsKind(ys[0]);
      JoinStarts(StringifyAll(ys), [CLOSE_ARRAY] + t);
    }
    var left, right := Join(StringifyAll(xs)) + ([CLOSE_ARRAY] + r), Join(StringifyAll(ys)) + ([CLOSE_ARRAY] + t);
    assert xs == [] ==> left[0] == CLOSE_ARRAY && left[1..] == r;
    assert ys == [] ==> right[0] == CLOSE_ARRAY && right[1..] == t;
  }

  function MemberText(ms: seq<Member>, k: String): String
    requires k in Keys(ms)
  {
    Quote(k) + [COLON] + Stringify(Lookup(ms, k))
  }

  lemma MembersStart(ms: seq<Member>, ks: seq<String>, close: String)
    requires ks != [] && forall k :: k in ks ==> k in Keys(ms)
    ensures Join(StringifyMembers(ms, ks)) + close
            == Quote(ks[0]) + ([COLON] + (Stringify(Lookup(ms, ks[0])) + AfterFirst(StringifyMembers(ms, ks), close)))
  {
    hide Quote, Stringify, Lookup, Join;
    JoinStarts(StringifyMembers(ms, ks), close);
  }

  lemma MembersOrClose(ms: seq<Member>, ks: seq<String>, r: String)
    requires forall k :: k in ks ==> k in Keys(ms)
    ensures var text := Join(StringifyMembers(ms, ks)) + ([CLOSE_OBJECT] + r);
            text[0] == (if ks == [] then CLOSE_OBJECT else QUOTE) && (ks == [] ==> text[1..] == r)
  {
    hide Stringify, Lookup, Escape;
    if ks != [] {
      MembersStart(ms, ks, [CLOSE_OBJECT] + r);
    }
  }

  lemma EmptyMembersAreUnique(ms: seq<Member>, ns: seq<Member>, ks: seq<String>, ls: seq<String>, r: String, t: String)
    requires (forall k :: k in ks ==> k in Keys(ms)) && (forall k :: k in ls ==> k in Keys(ns))
    requires ks == [] || ls == []
    requires Join(StringifyMembers(ms, ks)) + ([CLOSE_OBJECT] + r) == Join(StringifyMembers(ns, ls)) + ([CLOSE_OBJECT] + t)
    ensures ks == ls == [] && r == t
  {
    hide Join, StringifyMembers;
    MembersOrClose(ms, ks, r);
    MembersOrClose(ns, ls, t);
  }

  lemma {:induction false} MembersAreUnique(ms: seq<Member>, ns: seq<Member>, ks: seq<String>, ls: seq<String>, r: String, t: String)
    requires (forall k :: k in ks ==> k in Keys(ms)) && (forall k :: k in ls ==> k in Keys(ns))
    requires (forall m :: m in ms ==> Valid(m.value)) && (forall n :: n in ns ==> Valid(n.value))
    requires Join(StringifyMembers(ms, ks)) + ([CLOSE_OBJECT] + r) == Join(StringifyMembers(ns, ls)) + ([CLOSE_OBJECT] + t)
    ensures ks == ls && (forall k :: k in ks ==> Same(Lookup(ms, k), Lookup(ns, k))) && r == t
    decreases ms, |ks|
  {
    hide Same, Valid, Stringify, Join, Quote, Lookup;
    if ks == [] || ls == [] {
      EmptyMembersAreUnique(ms, ns, ks, ls, r, t);
    } else {
      var cx, cy := [CLOSE_OBJECT] + r, [CLOSE_OBJECT] + t;
      var px, py := AfterFirst(StringifyMembers(ms, ks), cx), AfterFirst(StringifyMembers(ns, ls), cy);
      var v, w := Lookup(ms, ks[0]), Lookup(ns, ls[0]);
      MembersStart(ms, ks, cx);
      MembersStart(ns, ls, cy);
      QuoteIsUnique(ks[0], ls[0], [COLON] + (Stringify(v) + px), [COLON] + (Stringify(w) + py));
      assert ([COLON] + (Stringify(v) + px))[1..] == Stringify(v) + px;
      assert ([COLON] + (Stringify(w) + py))[1..] == Stringify(w) + py;
      IsUnique(v, w, px, py);
      assert px[1..] == py[1..];
      if |ks| > 1 && |ls| > 1 {
        MembersAreUnique(ms, ns, ks[1..], ls[1..], r, t);
        assert ks == [ks[0]] + ks[1..] && ls == [ls[0]] + ls[1..];
      } else {
        assert |ks| == |ls| == 1;
        assert cx[1..] == r && cy[1..] == t;
      }
    }
  }

  lemma {:induction false} LookupFinds(ms: seq<Member>, i: nat)
    requires i < |ms| && forall j, k :: 0 <= j < k < |ms| ==> ms[j].key != ms[k].key
    ensures ms[i].key == Keys(ms)[i] && Lookup(ms, ms[i].key) == ms[i].value
  {
    var key := Keys(ms)[i];
    var j :| 0 <= j < |ms| && ms[j] == Member(key, Lookup(ms, key));
  }

  /** Objects whose sorted keys agree, with the same value for each key, are the same. */
  lemma ObjectsAreSame(ms: seq<Member>, ns: seq<Member>)
    requires Valid(Object(ms)) && Valid(Object(ns)) && SortedKeys(ms) == SortedKeys(ns)
    requires forall k :: k in SortedKeys(ms) ==> Same(Lookup(ms, k), Lookup(ns, k))
    ensures Same(Object(ms), Object(ns))
  {
    hide SortedKeys, Lookup;
    forall i, j | 0 <= i < |ms| && 0 <= j < |ns| && ms[i].key == ns[j].key ensures Same(ms[i].value, ns[j].value) {
      LookupFinds(ms, i);
      LookupFinds(ns, j);
      assert ms[i].key in SortedKeys(ms);
    }
  }

  lemma ArraysAreUnique(xs: seq<Json>, ys: seq<Json>, r: String, t: String)
    requires Valid(Array(xs)) && Valid(Array(ys)) && Stringify(Array(xs)) + r == Stringify(Array(ys)) + t
    ensures Same(Array(xs), Array(ys)) && r == t
    decreases xs, 1
  {
    hide Join, StringifyAll;
    assert (Stringify(Array(xs)) + r)[1..] == Join(StringifyAll(xs)) + ([CLOSE_ARRAY] + r);
    assert (Stringify(Array(ys)) + t)[1..] == Join(StringifyAll(ys)) + ([CLOSE_ARRAY] + t);
    ItemsAreUnique(xs, ys, r, t);
  }

  lemma ObjectsAreUnique(ms: seq<Member>, ns: seq<Member>, r: String, t: String)
    requires Valid(Object(ms)) && Valid(Object(ns)) && Stringify(Object(ms)) + r == Stringify(Object(ns)) + t
    ensures Same(Object(ms), Object(ns)) && r == t
    decreases ms, |SortedKeys(ms)| + 1
  {
    hide Join, SortedKeys, StringifyMembers, Same;
    var ks, ls := SortedKeys(ms), SortedKeys(ns);
    assert (Stringify(Object(ms)) + r)[1..] == Join(StringifyMembers(ms, ks)) + ([CLOSE_OBJECT] + r);
    assert (Stringify(Object(ns)) + t)[1..] == Join(StringifyMembers(ns, ls)) + ([CLOSE_OBJECT] + t);
    MembersAreUnique(ms, ns, ks, ls, r, t);
    ObjectsAreSame(ms, ns);
  }

  /** Two texts that start with printed values, and agree, agree in the values and in the rest. */
  lemma {:induction false} IsUnique(a: Json, b: Json, r: String, t: String)
    requires Valid(a) && Valid(b) && Tail(r) && Tail(t) && Stringify(a) + r == Stringify(b) + t
    ensures Same(a, b) && r == t
    decreases a, 1
  {
    hide Join, Quote, SortedKeys, StringifyAll, StringifyMembers, Valid;
    SameStart(a, b, r, t);
    match a {
      case Null => assert (Stringify(a) + r)[4..] == r && (Stringify(b) + t)[4..] == t;
      case Bool(value) =>
        var n := if value then 4 else 5;
        assert (Stringify(a) + r)[n..] == r && (Stringify(b) + t)[n..] == t;
      case Number(n) => NumbersAreUnique(n, b.n, r, t);
      case Text(s) => QuoteIsUnique(s, b.text, r, t);
      case Array(items) => ArraysAreUnique(items, b.items, r, t);
      case Object(members) => ObjectsAreUnique(members, b.members, r, t);
    }
  }

  // ---- The same value prints the same text ----

  lemma KeysAreDistinct(ms: seq<Member>)
    requires Valid(Object(ms))
    ensures Distinct(Keys(ms))
  {
  }

  lemma SameSortedKeys(ms: seq<Member>, ns: seq<Member>)
    requires Valid(Object(ms)) && Valid(Object(ns)) && forall k :: k in Keys(ms) <==> k in Keys(ns)
    ensures SortedKeys(ms) == SortedKeys(ns)
  {
    hide Valid;
    KeysAreDistinct(ms);
    KeysAreDistinct(ns);
    SortIncreases(Keys(ms));
    SortIncreases(Keys(ns));
    IncreasingIsUnique(SortedKeys(ms), SortedKeys(ns));
  }

  lemma {:induction false} SameItemsPrint(xs: seq<Json>, ys: seq<Json>)
    requires |xs| == |ys| && forall i :: 0 <= i < |xs| ==> Valid(xs[i]) && Valid(ys[i]) && Same(xs[i], ys[i])
    ensures StringifyAll(xs) == StringifyAll(ys)
    decreases xs, 0
  {
    hide Stringify, Same, Valid;
    if xs != [] {
      SamePrints(xs[0], ys[0]);
      SameItemsPrint(xs[1..], ys[1..]);
    }
  }

  lemma {:induction false} SameMembersPrint(ms: seq<Member>, ns: seq<Member>, keys: seq<String>)
    requires Valid(Object(ms)) && Valid(Object(ns)) && Same(Object(ms), Object(ns))
    requires forall k :: k in keys ==> k in Keys(ms) && k in Keys(ns)
    ensures StringifyMembers(ms, keys) == StringifyMembers(ns, keys)
    decreases ms, |keys|
  {
    hide Stringify, Quote;
    if keys != [] {
      SamePrints(Lookup(ms, keys[0]), Lookup(ns, keys[0]));
      SameMembersPrint(ms, ns, keys[1..]);
    }
  }

  lemma {:induction false} SamePrints(a: Json, b: Json)
    requires Valid(a) && Valid(b) && Same(a, b)
    ensures Stringify(a) == Stringify(b)
    decreases a, 1
  {
    hide Join, SortedKeys;
    match a {
      case Array(items) => SameItemsPrint(items, b.items);
      case Object(members) =>
        SameSortedKeys(members, b.members);
        SameMembersPrint(members, b.members, SortedKeys(members));
      case _ =>
    }
  }

  /** stableJsonEqual is equality up to the order of object keys. */
  lemma CanonicalForm(a: Json, b: Json)
    requires Valid(a) && Valid(b)
    ensures Stringify(a) == Stringify(b) <==> Same(a, b)
  {
    hide Stringify, Same, Valid;
    if Same(a, b) {
      SamePrints(a, b);
    }
    if Stringify(a) == Stringify(b) {
      IsUnique(a, b, [], []);
    }
  }
}
