/** Canonical JSON text and bounded JSON values (packages/workload-plan/contracts.ts). Text is a sequence of UTF-16
    units. The order of keys is that of section 3.2.3 of RFC 8785; strings are quoted as in section 7 of RFC 8259. */
module StableJson {
  type Unit = x: int | 0 <= x < 0x10000

  type Text = seq<Unit>

  /** A number is its shortest decimal text; the members of an object are in the order of their creation. */
  datatype Json =
    | Null | Bool(truth: bool) | Number(numeral: Text) | String(text: Text)
    | Array(items: seq<Json>) | Object(members: seq<Member>)

  datatype Member = Member(key: Text, value: Json)

  const QUOTE: Unit := 0x22
  const COMMA: Unit := 0x2C
  const COLON: Unit := 0x3A
  const OPEN_ARRAY: Unit := 0x5B
  const BACKSLASH: Unit := 0x5C
  const CLOSE_ARRAY: Unit := 0x5D
  const OPEN_OBJECT: Unit := 0x7B
  const CLOSE_OBJECT: Unit := 0x7D

  const NULL_TEXT: Text := [0x6E, 0x75, 0x6C, 0x6C]
  const TRUE_TEXT: Text := [0x74, 0x72, 0x75, 0x65]
  const FALSE_TEXT: Text := [0x66, 0x61, 0x6C, 0x73, 0x65]

  predicate Digit(u: Unit) {
    0x30 <= u <= 0x39
  }

  /** Digits, plus, minus, point and exponent. */
  predicate NumeralUnit(u: Unit) {
    Digit(u) || u == 0x2B || u == 0x2D || u == 0x2E || u == 0x45 || u == 0x65
  }

  predicate Numeral(t: Text) {
    t != [] && (Digit(t[0]) || t[0] == 0x2D) && forall i :: 0 <= i < |t| ==> NumeralUnit(t[i])
  }

  predicate DistinctKeys(members: seq<Member>) {
    forall i, j :: 0 <= i < j < |members| ==> members[i].key != members[j].key
  }

  /** A finite JSON value. */
  predicate Valid(v: Json) {
    match v
    case Number(t) => Numeral(t)
    case Array(items) => forall i :: 0 <= i < |items| ==> Valid(items[i])
    case Object(members) => DistinctKeys(members) && forall i :: 0 <= i < |members| ==> Valid(members[i].value)
    case _ => true
  }

  predicate HasKey(members: seq<Member>, key: Text) {
    exists i :: 0 <= i < |members| && members[i].key == key
  }

  predicate SameKeys(a: seq<Member>, b: seq<Member>) {
    && (forall i :: 0 <= i < |a| ==> HasKey(b, a[i].key))
    && (forall j :: 0 <= j < |b| ==> HasKey(a, b[j].key))
  }

  /** Equal values, with objects as maps from keys to values. */
  predicate Same(a: Json, b: Json) {
    match (a, b)
    case (Array(x), Array(y)) => |x| == |y| && forall i :: 0 <= i < |x| ==> Same(x[i], y[i])
    case (Object(x), Object(y)) =>
      SameKeys(x, y) && forall i, j :: 0 <= i < |x| && 0 <= j < |y| && x[i].key == y[j].key ==> Same(x[i].value, y[j].value)
    case _ => a == b
  }

  /* ---------- strings ---------- */

  predicate High(u: Unit) {
    0xD800 <= u < 0xDC00
  }

  predicate Low(u: Unit) {
    0xDC00 <= u < 0xE000
  }

  predicate PairAhead(s: Text) {
    |s| > 1 && High(s[0]) && Low(s[1])
  }

  function Hex(n: int): Unit
    requires 0 <= n < 16
  {
    if n < 10 then 0x30 + n else 0x57 + n
  }

  function LongEscape(u: Unit): Text {
    var tens := u / 0x10;
    var hundreds := tens / 0x10;
    [BACKSLASH, 0x75, Hex(hundreds / 0x10), Hex(hundreds % 0x10), Hex(tens % 0x10), Hex(u % 0x10)]
  }

  /** The letter of a two-unit escape, or zero. */
  function ShortEscape(u: Unit): Unit {
    if u == QUOTE then QUOTE
    else if u == BACKSLASH then BACKSLASH
    else if u == 8 then 0x62
    else if u == 9 then 0x74
    else if u == 10 then 0x6E
    else if u == 12 then 0x66
    else if u == 13 then 0x72
    else 0
  }

  function QuotedUnit(u: Unit): Text {
    if ShortEscape(u) != 0 then [BACKSLASH, ShortEscape(u)]
    else if u < 0x20 || High(u) || Low(u) then LongEscape(u)
    else [u]
  }

  /** The text of the first code point, and how many units it takes; a lone surrogate is escaped. */
  function Head(s: Text): Text
    requires s != []
  {
    if PairAhead(s) then [s[0], s[1]] else QuotedUnit(s[0])
  }

  function HeadLength(s: Text): (n: nat)
    requires s != []
    ensures 1 <= n <= |s|
  {
    if PairAhead(s) then 2 else 1
  }

  function Quoted(s: Text): Text {
    if s == [] then [] else Head(s) + Quoted(s[HeadLength(s)..])
  }

  function Quote(s: Text): Text {
    [QUOTE] + Quoted(s) + [QUOTE]
  }

  /* ---------- key order ---------- */

  /** The order of UTF-16 units, shorter first. */
  predicate Less(a: Text, b: Text) {
    b != [] && (a == [] || a[0] < b[0] || (a[0] == b[0] && Less(a[1..], b[1..])))
  }

  function Inserted(key: Text, keys: seq<Text>): seq<Text> {
    if keys == [] || Less(key, keys[0]) then [key] + keys else [keys[0]] + Inserted(key, keys[1..])
  }

  function SortedKeys(members: seq<Member>): seq<Text> {
    if members == [] then [] else Inserted(members[0].key, SortedKeys(members[1..]))
  }

  function Position(members: seq<Member>, key: Text): (i: nat)
    requires HasKey(members, key)
    ensures i < |members| && members[i].key == key
  {
    if members[0].key == key then 0
    else
      assert HasKey(members[1..], key) by {
        var i :| 0 <= i < |members| && members[i].key == key;
        assert members[1..][i - 1] == members[i];
      }
      1 + Position(members[1..], key)
  }

  ghost predicate KeysOf(members: seq<Member>, keys: seq<Text>) {
    forall i :: 0 <= i < |keys| ==> HasKey(members, keys[i])
  }

  /* ---------- the serializer ---------- */

  function Stable(v: Json): Text
    decreases v, 1
  {
    match v
    case Null => NULL_TEXT
    case Bool(b) => if b then TRUE_TEXT else FALSE_TEXT
    case Number(t) => t
    case String(s) => Quote(s)
    case Array(items) => [OPEN_ARRAY] + Elements(items) + [CLOSE_ARRAY]
    case Object(members) =>
      SortedKeysAreKeys(members);
      [OPEN_OBJECT] + Entries(members, SortedKeys(members)) + [CLOSE_OBJECT]
  }

  function Elements(items: seq<Json>): Text
    decreases items, 0
  {
    if items == [] then []
    else if |items| == 1 then Stable(items[0])
    else Stable(items[0]) + [COMMA] + Elements(items[1..])
  }

  function Entry(members: seq<Member>, key: Text): Text
    requires HasKey(members, key)
    decreases members, 0, 0
  {
    var m := members[Position(members, key)];
    assert m.value < m;
    Quote(key) + [COLON] + Stable(m.value)
  }

  function Entries(members: seq<Member>, keys: seq<Text>): Text
    requires KeysOf(members, keys)
    decreases members, 1, |keys|
  {
    if keys == [] then []
    else if |keys| == 1 then Entry(members, keys[0])
    else
      assert forall i :: 0 <= i < |keys[1..]| ==> keys[1..][i] == keys[i + 1];
      Entry(members, keys[0]) + [COMMA] + Entries(members, keys[1..])
  }

  lemma {:induction false} InsertedKeys(key: Text, keys: seq<Text>)
    ensures |Inserted(key, keys)| == |keys| + 1
    ensures forall k :: k in Inserted(key, keys) <==> k == key || k in keys
  {
    if keys != [] && !Less(key, keys[0]) {
      InsertedKeys(key, keys[1..]);
      assert forall k :: k in keys <==> k == keys[0] || k in keys[1..];
    }
  }

  lemma {:induction false} SortedKeysMembers(members: seq<Member>)
    ensures forall k :: k in SortedKeys(members) <==> HasKey(members, k)
  {
    if members != [] {
      SortedKeysMembers(members[1..]);
      InsertedKeys(members[0].key, SortedKeys(members[1..]));
      forall k ensures HasKey(members, k) <==> k == members[0].key || HasKey(members[1..], k) {
        if HasKey(members, k) && k != members[0].key {
          var i :| 0 <= i < |members| && members[i].key == k;
          assert members[1..][i - 1].key == k;
        }
        if HasKey(members[1..], k) {
          var i :| 0 <= i < |members[1..]| && members[1..][i].key == k;
          assert members[i + 1].key == k;
        }
      }
    }
  }

  lemma SortedKeysAreKeys(members: seq<Member>)
    ensures KeysOf(members, SortedKeys(members))
  {
    SortedKeysMembers(members);
    forall i | 0 <= i < |SortedKeys(members)| ensures HasKey(members, SortedKeys(members)[i]) {
      assert SortedKeys(members)[i] in SortedKeys(members);
    }
  }

  /* ---------- sorted keys depend on the set of keys only ---------- */

  ghost predicate Ascending(keys: seq<Text>) {
    forall i, j :: 0 <= i < j < |keys| ==> Less(keys[i], keys[j])
  }

  /** The order of keys: the first different unit decides, and a prefix comes first. */
  lemma {:induction false} LessByFirstDifference(a: Text, b: Text)
    ensures Less(a, b) <==> exists k :: ComesFirst(a, b, k)
  {
    if a != [] && b != [] && a[0] == b[0] {
      LessByFirstDifference(a[1..], b[1..]);
      if Less(a[1..], b[1..]) {
        var k :| ComesFirst(a[1..], b[1..], k);
        assert ComesFirst(a, b, k + 1);
      }
      if k :| ComesFirst(a, b, k) {
        assert ComesFirst(a[1..], b[1..], k - 1);
      }
    } else if Less(a, b) {
      assert ComesFirst(a, b, 0);
    }
  }

  predicate ComesFirst(a: Text, b: Text, k: int) {
    && 0 <= k <= |a| && k < |b| && (forall i :: 0 <= i < k ==> a[i] == b[i])
    && (k == |a| || a[k] < b[k])
  }

  lemma {:induction false} LessIsStrict(a: Text)
    ensures !Less(a, a)
  {
    if a != [] {
      LessIsStrict(a[1..]);
    }
  }

  lemma {:induction false} LessIsTransitive(a: Text, b: Text, c: Text)
    requires Less(a, b) && Less(b, c)
    ensures Less(a, c)
  {
    if a != [] && a[0] == b[0] == c[0] {
      LessIsTransitive(a[1..], b[1..], c[1..]);
    }
  }

  lemma {:induction false} LessIsTotal(a: Text, b: Text)
    ensures Less(a, b) || a == b || Less(b, a)
  {
    if a != [] && b != [] && a[0] == b[0] {
      LessIsTotal(a[1..], b[1..]);
      assert a == [a[0]] + a[1..] && b == [b[0]] + b[1..];
    }
  }

  lemma {:induction false} InsertedAscends(key: Text, keys: seq<Text>)
    requires Ascending(keys) && key !in keys
    ensures Ascending(Inserted(key, keys))
  {
    if keys != [] {
      if Less(key, keys[0]) {
        forall j | 0 <= j < |keys| ensures Less(key, keys[j]) {
          if j > 0 {
            LessIsTransitive(key, keys[0], keys[j]);
          }
        }
      } else {
        var rest := Inserted(key, keys[1..]);
        InsertedAscends(key, keys[1..]);
        InsertedKeys(key, keys[1..]);
        LessIsTotal(key, keys[0]);
        forall j | 0 <= j < |rest| ensures Less(keys[0], rest[j]) {
          assert rest[j] in rest;
        }
      }
    }
  }

  lemma {:induction false} SortedKeysAscend(members: seq<Member>)
    requires DistinctKeys(members)
    ensures Ascending(SortedKeys(members))
  {
    if members != [] {
      SortedKeysAscend(members[1..]);
      SortedKeysMembers(members[1..]);
      assert !HasKey(members[1..], members[0].key);
      InsertedAscends(members[0].key, SortedKeys(members[1..]));
    }
  }

  lemma SomeKey(a: seq<Text>, b: seq<Text>)
    requires a != [] && forall k :: k in a ==> k in b
    ensures b != []
  {
    assert a[0] in a;
  }

  lemma {:induction false} AscendingIsUnique(a: seq<Text>, b: seq<Text>)
    requires Ascending(a) && Ascending(b) && forall k :: k in a <==> k in b
    ensures a == b
  {
    if a == [] {
      if b != [] {
        SomeKey(b, a);
      }
    } else if b == [] {
      SomeKey(a, b);
    } else {
      assert a[0] in b && b[0] in a;
      if a[0] != b[0] {
        LessIsTransitive(a[0], b[0], a[0]);
        LessIsStrict(a[0]);
      }
      forall k ensures k in a[1..] <==> k in b[1..] {
        TailKeys(a, k);
        TailKeys(b, k);
      }
      AscendingIsUnique(a[1..], b[1..]);
      assert a == [a[0]] + a[1..] && b == [b[0]] + b[1..];
    }
  }

  lemma TailKeys(keys: seq<Text>, k: Text)
    requires Ascending(keys) && keys != []
    ensures k in keys[1..] <==> k in keys && k != keys[0]
  {
    LessIsStrict(keys[0]);
    assert keys == [keys[0]] + keys[1..];
  }

  lemma SortedKeysAgree(a: seq<Member>, b: seq<Member>)
    requires DistinctKeys(a) && DistinctKeys(b)
    ensures SameKeys(a, b) <==> SortedKeys(a) == SortedKeys(b)
  {
    SortedKeysAscend(a);
    SortedKeysAscend(b);
    SortedKeysMembers(a);
    SortedKeysMembers(b);
    if SameKeys(a, b) {
      forall k ensures HasKey(a, k) <==> HasKey(b, k) {
      }
      AscendingIsUnique(SortedKeys(a), SortedKeys(b));
    } else if SortedKeys(a) == SortedKeys(b) {
      forall k ensures HasKey(a, k) <==> HasKey(b, k) {
      }
    }
  }

  /* ---------- reading a string back ---------- */

  lemma HexIsInjective(m: int, n: int)
    requires 0 <= m < 16 && 0 <= n < 16
    ensures Hex(m) == Hex(n) ==> m == n
  {
  }

  lemma LongEscapeIsInjective(u: Unit, v: Unit)
    requires LongEscape(u) == LongEscape(v)
    ensures u == v
  {
    SameDigits(u, v, LongEscape(u), LongEscape(v));
  }

  lemma SameDigits(u: Unit, v: Unit, a: Text, b: Text)
    requires a == LongEscape(u) && b == LongEscape(v) && a == b
    ensures u / 0x10 / 0x10 / 0x10 == v / 0x10 / 0x10 / 0x10 && u / 0x10 / 0x10 % 0x10 == v / 0x10 / 0x10 % 0x10
    ensures u / 0x10 % 0x10 == v / 0x10 % 0x10 && u % 0x10 == v % 0x10
  {
    assert a[2] == b[2] && a[3] == b[3] && a[4] == b[4] && a[5] == b[5];
    HexIsInjective(u / 0x10 / 0x10 / 0x10, v / 0x10 / 0x10 / 0x10);
    HexIsInjective(u / 0x10 / 0x10 % 0x10, v / 0x10 / 0x10 % 0x10);
    HexIsInjective(u / 0x10 % 0x10, v / 0x10 % 0x10);
    HexIsInjective(u % 0x10, v % 0x10);
  }

  lemma ShortEscapeIsInjective(u: Unit, v: Unit)
    requires ShortEscape(u) == ShortEscape(v) != 0
    ensures u == v
  {
  }

  /** What the first unit of a head says about it. */
  lemma HeadStart(s: Text)
    requires s != []
    ensures |Head(s)| > 0 && Head(s)[0] != QUOTE
    ensures Head(s)[0] == BACKSLASH <==> !PairAhead(s) && |Head(s)| > 1
    ensures Head(s)[0] == BACKSLASH ==> (Head(s)[1] == 0x75 <==> ShortEscape(s[0]) == 0)
    ensures Head(s)[0] != BACKSLASH ==> Head(s)[0] == s[0] && (High(s[0]) <==> PairAhead(s))
  {
  }

  lemma SameHead(x: Text, y: Text)
    requires x != [] && y != [] && Head(x) == Head(y)
    ensures HeadLength(x) == HeadLength(y) && x[..HeadLength(x)] == y[..HeadLength(y)]
  {
    HeadStart(x);
    HeadStart(y);
    if Head(x)[0] == BACKSLASH {
      if ShortEscape(x[0]) == 0 {
        LongEscapeIsInjective(x[0], y[0]);
      } else {
        ShortEscapeIsInjective(x[0], y[0]);
      }
    }
    assert x[..HeadLength(x)] == y[..HeadLength(y)];
  }

  lemma Peel(x: Text, p: Text, y: Text, q: Text)
    requires x + p == y + q && |x| == |y|
    ensures x == y && p == q
  {
    assert x == (x + p)[..|x|] && y == (y + q)[..|y|];
    assert p == (x + p)[|x|..] && q == (y + q)[|y|..];
  }

  /** No head is a proper prefix of another. */
  lemma HeadsAgree(x: Text, p: Text, y: Text, q: Text)
    requires x != [] && y != [] && Head(x) + p == Head(y) + q
    ensures |Head(x)| == |Head(y)|
  {
    HeadStart(x);
    HeadStart(y);
    assert (Head(x) + p)[0] == Head(x)[0] && (Head(y) + q)[0] == Head(y)[0];
    if Head(x)[0] == BACKSLASH {
      assert (Head(x) + p)[1] == Head(x)[1] && (Head(y) + q)[1] == Head(y)[1];
    }
  }

  lemma QuotedSplits(x: Text, rest: Text)
    requires x != []
    ensures Quoted(x) + rest == Head(x) + (Quoted(x[HeadLength(x)..]) + rest)
  {
  }

  lemma SameHeads(x: Text, y: Text, p: Text, q: Text)
    requires x != [] && y != [] && Quoted(x) + p == Quoted(y) + q
    ensures HeadLength(x) == HeadLength(y) && x[..HeadLength(x)] == y[..HeadLength(y)]
    ensures Quoted(x[HeadLength(x)..]) + p == Quoted(y[HeadLength(y)..]) + q
  {
    QuotedSplits(x, p);
    QuotedSplits(y, q);
    HeadsAgree(x, Quoted(x[HeadLength(x)..]) + p, y, Quoted(y[HeadLength(y)..]) + q);
    Peel(Head(x), Quoted(x[HeadLength(x)..]) + p, Head(y), Quoted(y[HeadLength(y)..]) + q);
    SameHead(x, y);
  }

  /** Quoted text up to its closing quote determines the string. */
  lemma {:induction false} QuotedReadsBack(x: Text, y: Text, r: Text, s: Text)
    requires Quoted(x) + ([QUOTE] + r) == Quoted(y) + ([QUOTE] + s)
    ensures x == y && r == s
  {
    if x == [] && y == [] {
      assert Quoted(x) + ([QUOTE] + r) == [QUOTE] + r && Quoted(y) + ([QUOTE] + s) == [QUOTE] + s;
      Peel([QUOTE], r, [QUOTE], s);
    } else if x == [] {
      OpenString(y, [QUOTE] + s);
    } else if y == [] {
      OpenString(x, [QUOTE] + r);
    } else {
      SameHeads(x, y, [QUOTE] + r, [QUOTE] + s);
      QuotedReadsBack(x[HeadLength(x)..], y[HeadLength(y)..], r, s);
      assert x == x[..HeadLength(x)] + x[HeadLength(x)..];
      assert y == y[..HeadLength(y)] + y[HeadLength(y)..];
    }
  }

  lemma OpenString(x: Text, rest: Text)
    requires x != []
    ensures |Quoted(x) + rest| > 0 && (Quoted(x) + rest)[0] != QUOTE
  {
    HeadStart(x);
    assert (Quoted(x) + rest)[0] == Head(x)[0];
  }

  lemma QuoteSplits(x: Text, rest: Text)
    ensures Quote(x) + rest == [QUOTE] + (Quoted(x) + ([QUOTE] + rest))
  {
  }

  lemma QuoteReadsBack(x: Text, y: Text, r: Text, s: Text)
    requires Quote(x) + r == Quote(y) + s
    ensures x == y && r == s
  {
    QuoteSplits(x, r);
    QuoteSplits(y, s);
    Peel([QUOTE], Quoted(x) + ([QUOTE] + r), [QUOTE], Quoted(y) + ([QUOTE] + s));
    QuotedReadsBack(x, y, r, s);
  }

  /* ---------- reading a number back ---------- */

  /** What may follow a value: nothing, a comma or a closing bracket. */
  predicate Ends(r: Text) {
    r == [] || r[0] == COMMA || r[0] == CLOSE_ARRAY || r[0] == CLOSE_OBJECT
  }

  lemma UnitAfter(x: Text, r: Text, y: Text, s: Text)
    requires x + r == y + s && |x| < |y|
    ensures r != [] && r[0] == y[|x|]
  {
    assert (x + r)[|x|] == (y + s)[|x|];
  }

  lemma NumeralReadsBack(x: Text, y: Text, r: Text, s: Text)
    requires Numeral(x) && Numeral(y) && Ends(r) && Ends(s) && x + r == y + s
    ensures x == y && r == s
  {
    if |x| < |y| {
      UnitAfter(x, r, y, s);
    } else if |y| < |x| {
      UnitAfter(y, s, x, r);
    }
    Peel(x, r, y, s);
  }

  /* ---------- reading a value back ---------- */

  /** The first unit of a value tells its kind. */
  datatype Kind = NullKind | BoolKind(truth: bool) | NumberKind | StringKind | ArrayKind | ObjectKind

  function KindOf(v: Json): Kind {
    match v
    case Null => NullKind
    case Bool(b) => BoolKind(b)
    case Number(_) => NumberKind
    case String(_) => StringKind
    case Array(_) => ArrayKind
    case Object(_) => ObjectKind
  }

  predicate Opens(kind: Kind, u: Unit) {
    match kind
    case NullKind => u == 0x6E
    case BoolKind(b) => u == if b then 0x74 else 0x66
    case NumberKind => Digit(u) || u == 0x2D
    case StringKind => u == QUOTE
    case ArrayKind => u == OPEN_ARRAY
    case ObjectKind => u == OPEN_OBJECT
  }

  lemma ValueOpens(v: Json, rest: Text)
    requires Valid(v)
    ensures |Stable(v)| > 0 && Opens(KindOf(v), (Stable(v) + rest)[0]) && (Stable(v) + rest)[0] == Stable(v)[0]
    ensures !Ends([Stable(v)[0]])
  {
  }

  lemma SameKind(a: Json, b: Json, r: Text, s: Text)
    requires Valid(a) && Valid(b) && Stable(a) + r == Stable(b) + s
    ensures KindOf(a) == KindOf(b)
  {
    ValueOpens(a, r);
    ValueOpens(b, s);
  }

  /** A value, followed by anything that may follow it, is determined by its text up to the order of keys. */
  lemma {:induction false} ValueReadsBack(a: Json, b: Json, r: Text, s: Text)
    requires Valid(a) && Valid(b) && Ends(r) && Ends(s) && Stable(a) + r == Stable(b) + s
    ensures Same(a, b) && r == s
    decreases a, 2, 0
  {
    SameKind(a, b, r, s);
    match a
    case Null => Peel(Stable(a), r, Stable(b), s);
    case Bool(_) => Peel(Stable(a), r, Stable(b), s);
    case Number(t) => NumeralReadsBack(t, b.numeral, r, s);
    case String(t) => QuoteReadsBack(t, b.text, r, s);
    case Array(items) =>
      Bracketed(OPEN_ARRAY, Elements(items), CLOSE_ARRAY, r);
      Bracketed(OPEN_ARRAY, Elements(b.items), CLOSE_ARRAY, s);
      Peel([OPEN_ARRAY], Elements(items) + ([CLOSE_ARRAY] + r), [OPEN_ARRAY], Elements(b.items) + ([CLOSE_ARRAY] + s));
      ElementsReadBack(items, b.items, r, s);
    case Object(members) =>
      SortedKeysAreKeys(members);
      SortedKeysAreKeys(b.members);
      var x, y := Entries(members, SortedKeys(members)), Entries(b.members, SortedKeys(b.members));
      Bracketed(OPEN_OBJECT, x, CLOSE_OBJECT, r);
      Bracketed(OPEN_OBJECT, y, CLOSE_OBJECT, s);
      Peel([OPEN_OBJECT], x + ([CLOSE_OBJECT] + r), [OPEN_OBJECT], y + ([CLOSE_OBJECT] + s));
      EntriesReadBack(members, b.members, SortedKeys(members), SortedKeys(b.members), r, s);
      SameObjects(members, b.members);
  }

  lemma Bracketed(open: Unit, x: Text, close: Unit, r: Text)
    ensures [open] + x + [close] + r == [open] + (x + ([close] + r))
  {
  }

  /** What follows the first of several parts: the end, or a comma and the other parts. */
  function Following(more: bool, others: Text, end: Text): Text {
    if more then [COMMA] + (others + end) else end
  }

  lemma FollowingReadsBack(m: bool, n: bool, x: Text, y: Text, close: Unit, r: Text, s: Text)
    requires close != COMMA && Following(m, x, [close] + r) == Following(n, y, [close] + s)
    ensures m == n && (m ==> x + ([close] + r) == y + ([close] + s)) && (!m ==> r == s)
  {
    var p, q := Following(m, x, [close] + r), Following(n, y, [close] + s);
    assert p[0] == (if m then COMMA else close) && q[0] == (if n then COMMA else close);
    assert p[1..] == (if m then x + ([close] + r) else r);
    assert q[1..] == (if n then y + ([close] + s) else s);
  }

  lemma Regroup(first: Text, others: Text, end: Text)
    ensures (first + [COMMA] + others) + end == first + ([COMMA] + (others + end))
  {
  }

  lemma ElementsSplit(items: seq<Json>, end: Text)
    requires items != []
    ensures Elements(items) + end == Stable(items[0]) + Following(|items| > 1, Elements(items[1..]), end)
  {
    Regroup(Stable(items[0]), Elements(items[1..]), end);
  }

  lemma SomeElement(items: seq<Json>, end: Text)
    requires items != [] && Valid(items[0])
    ensures |Elements(items) + end| > 0 && !Ends([(Elements(items) + end)[0]])
  {
    ElementsSplit(items, end);
    ValueOpens(items[0], Following(|items| > 1, Elements(items[1..]), end));
  }

  lemma {:induction false} ElementsReadBack(a: seq<Json>, b: seq<Json>, r: Text, s: Text)
    requires forall i :: 0 <= i < |a| ==> Valid(a[i])
    requires forall i :: 0 <= i < |b| ==> Valid(b[i])
    requires Elements(a) + ([CLOSE_ARRAY] + r) == Elements(b) + ([CLOSE_ARRAY] + s)
    ensures |a| == |b| && (forall i :: 0 <= i < |a| ==> Same(a[i], b[i])) && r == s
    decreases a, 1, 0
  {
    var p, q := [CLOSE_ARRAY] + r, [CLOSE_ARRAY] + s;
    if a == [] && b == [] {
      assert Elements(a) + p == p && Elements(b) + q == q;
      Peel([CLOSE_ARRAY], r, [CLOSE_ARRAY], s);
    } else if a == [] {
      SomeElement(b, q);
    } else if b == [] {
      SomeElement(a, p);
    } else {
      ElementsSplit(a, p);
      ElementsSplit(b, q);
      ValueReadsBack(a[0], b[0], Following(|a| > 1, Elements(a[1..]), p), Following(|b| > 1, Elements(b[1..]), q));
      FollowingReadsBack(|a| > 1, |b| > 1, Elements(a[1..]), Elements(b[1..]), CLOSE_ARRAY, r, s);
      if |a| > 1 {
        ElementsReadBack(a[1..], b[1..], r, s);
        forall i | 0 <= i < |a| ensures Same(a[i], b[i]) {
          assert i > 0 ==> a[i] == a[1..][i - 1] && b[i] == b[1..][i - 1];
        }
      }
    }
  }

  lemma EntrySplits(members: seq<Member>, key: Text, rest: Text)
    requires HasKey(members, key)
    ensures Entry(members, key) + rest == Quote(key) + ([COLON] + (Stable(members[Position(members, key)].value) + rest))
  {
  }

  lemma EntryReadsBack(a: seq<Member>, b: seq<Member>, j: Text, k: Text, p: Text, q: Text)
    requires HasKey(a, j) && HasKey(b, k) && Valid(a[Position(a, j)].value) && Valid(b[Position(b, k)].value)
    requires Ends(p) && Ends(q) && Entry(a, j) + p == Entry(b, k) + q
    ensures j == k && Same(a[Position(a, j)].value, b[Position(b, k)].value) && p == q
    decreases a, 0, 0
  {
    var m, n := a[Position(a, j)], b[Position(b, k)];
    assert m.value < m;
    EntrySplits(a, j, p);
    EntrySplits(b, k, q);
    QuoteReadsBack(j, k, [COLON] + (Stable(m.value) + p), [COLON] + (Stable(n.value) + q));
    Peel([COLON], Stable(m.value) + p, [COLON], Stable(n.value) + q);
    ValueReadsBack(m.value, n.value, p, q);
  }

  lemma TailKeysOf(members: seq<Member>, keys: seq<Text>)
    requires KeysOf(members, keys) && keys != []
    ensures KeysOf(members, keys[1..])
  {
  }

  lemma EntriesSplit(members: seq<Member>, keys: seq<Text>, end: Text)
    requires KeysOf(members, keys) && keys != []
    ensures KeysOf(members, keys[1..])
    ensures Entries(members, keys) + end == Entry(members, keys[0]) + Following(|keys| > 1, Entries(members, keys[1..]), end)
  {
    TailKeysOf(members, keys);
    Regroup(Entry(members, keys[0]), Entries(members, keys[1..]), end);
  }

  lemma SomeEntry(members: seq<Member>, keys: seq<Text>, end: Text)
    requires KeysOf(members, keys) && keys != []
    ensures |Entries(members, keys) + end| > 0 && (Entries(members, keys) + end)[0] == QUOTE
  {
    EntriesSplit(members, keys, end);
  }

  lemma {:induction false} EntriesReadBack(a: seq<Member>, b: seq<Member>, ka: seq<Text>, kb: seq<Text>, r: Text, s: Text)
    requires KeysOf(a, ka) && KeysOf(b, kb)
    requires forall i :: 0 <= i < |a| ==> Valid(a[i].value)
    requires forall i :: 0 <= i < |b| ==> Valid(b[i].value)
    requires Entries(a, ka) + ([CLOSE_OBJECT] + r) == Entries(b, kb) + ([CLOSE_OBJECT] + s)
    ensures ka == kb && r == s
    ensures forall k :: k in ka ==> SameAt(a, b, k)
    decreases a, 1, |ka|
  {
    var p, q := [CLOSE_OBJECT] + r, [CLOSE_OBJECT] + s;
    if ka == [] && kb == [] {
      assert Entries(a, ka) + p == p && Entries(b, kb) + q == q;
      Peel([CLOSE_OBJECT], r, [CLOSE_OBJECT], s);
    } else if ka == [] {
      SomeEntry(b, kb, q);
    } else if kb == [] {
      SomeEntry(a, ka, p);
    } else {
      EntriesSplit(a, ka, p);
      EntriesSplit(b, kb, q);
      EntryReadsBack(a, b, ka[0], kb[0], Following(|ka| > 1, Entries(a, ka[1..]), p), Following(|kb| > 1, Entries(b, kb[1..]), q));
      FollowingReadsBack(|ka| > 1, |kb| > 1, Entries(a, ka[1..]), Entries(b, kb[1..]), CLOSE_OBJECT, r, s);
      if |ka| > 1 {
        EntriesReadBack(a, b, ka[1..], kb[1..], r, s);
      }
      assert ka == [ka[0]] + ka[1..] && kb == [kb[0]] + kb[1..];
    }
  }

  ghost predicate SameAt(a: seq<Member>, b: seq<Member>, k: Text) {
    HasKey(a, k) && HasKey(b, k) && Same(a[Position(a, k)].value, b[Position(b, k)].value)
  }

  lemma {:induction false} KeyAt(members: seq<Member>, i: nat)
    requires DistinctKeys(members) && i < |members|
    ensures HasKey(members, members[i].key) && Position(members, members[i].key) == i
  {
    assert HasKey(members, members[i].key);
  }

  /** Objects with the same keys and the same value under each are the same. */
  lemma SameObjects(a: seq<Member>, b: seq<Member>)
    requires DistinctKeys(a) && DistinctKeys(b) && SortedKeys(a) == SortedKeys(b)
    requires forall k :: k in SortedKeys(a) ==> SameAt(a, b, k)
    ensures Same(Object(a), Object(b))
  {
    SortedKeysAgree(a, b);
    SortedKeysMembers(a);
    forall i, j | 0 <= i < |a| && 0 <= j < |b| && a[i].key == b[j].key ensures Same(a[i].value, b[j].value) {
      KeyAt(a, i);
      KeyAt(b, j);
      assert SameAt(a, b, a[i].key);
    }
  }

  /* ---------- same values print alike ---------- */

  lemma {:induction false} SamePrintsAlike(a: Json, b: Json)
    requires Valid(a) && Valid(b) && Same(a, b)
    ensures Stable(a) == Stable(b)
    decreases a, 2, 0
  {
    match a
    case Array(items) => ElementsPrintAlike(items, b.items);
    case Object(members) =>
      SortedKeysAgree(members, b.members);
      SortedKeysAreKeys(members);
      SortedKeysAreKeys(b.members);
      EntriesPrintAlike(members, b.members, SortedKeys(members));
    case _ =>
  }

  lemma {:induction false} ElementsPrintAlike(a: seq<Json>, b: seq<Json>)
    requires forall i :: 0 <= i < |a| ==> Valid(a[i])
    requires forall i :: 0 <= i < |b| ==> Valid(b[i])
    requires |a| == |b| && forall i :: 0 <= i < |a| ==> Same(a[i], b[i])
    ensures Elements(a) == Elements(b)
    decreases a, 1, 0
  {
    if a != [] {
      SamePrintsAlike(a[0], b[0]);
      ElementsPrintAlike(a[1..], b[1..]);
    }
  }

  lemma {:induction false} EntriesPrintAlike(a: seq<Member>, b: seq<Member>, keys: seq<Text>)
    requires KeysOf(a, keys) && KeysOf(b, keys) && Valid(Object(a)) && Valid(Object(b)) && Same(Object(a), Object(b))
    ensures Entries(a, keys) == Entries(b, keys)
    decreases a, 1, |keys|
  {
    if keys != [] {
      var m, n := a[Position(a, keys[0])], b[Position(b, keys[0])];
      assert m.value < m;
      SamePrintsAlike(m.value, n.value);
      TailKeysOf(a, keys);
      TailKeysOf(b, keys);
      EntriesPrintAlike(a, b, keys[1..]);
    }
  }

  /** Two values have equal texts exactly when they are equal with objects as maps. */
  lemma EqualTextIffSame(a: Json, b: Json)
    requires Valid(a) && Valid(b)
    ensures Stable(a) == Stable(b) <==> Same(a, b)
  {
    if Same(a, b) {
      SamePrintsAlike(a, b);
    }
    if Stable(a) == Stable(b) {
      assert Stable(a) + [] == Stable(b) + [];
      ValueReadsBack(a, b, [], []);
    }
  }
}
