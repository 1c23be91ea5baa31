/** Canonical JSON: the byte string a request is fingerprinted by. */
module CanonicalJson {

  /** A decoded value. Numbers keep their literal, objects are unordered. */
  datatype Json =
    | Null
    | Bool(value: bool)
    | Number(literal: string)
    | Text(text: string)
    | Array(items: seq<Json>)
    | Object(fields: map<string, Json>)

  // ---------------------------------------------------------------- scalars

  predicate IsNumberChar(c: char) {
    '0' <= c <= '9' || c == '-' || c == '+' || c == '.' || c == 'e' || c == 'E'
  }

  /** What the decoder guarantees of a number's literal. */
  predicate IsNumber(s: string) {
    s != "" && (s[0] == '-' || '0' <= s[0] <= '9') && forall i | 0 <= i < |s| :: IsNumberChar(s[i])
  }

  function HexDigit(n: int): char
    requires 0 <= n < 16
  {
    "0123456789abcdef"[n]
  }

  /** Characters written as a `\u` escape: controls, and those that are unsafe inside HTML or JavaScript. */
  predicate IsEscaped(c: char) {
    c as int < 0x20 || c == '<' || c == '>' || c == '&' || c as int == 0x2028 || c as int == 0x2029
  }

  function Escape(c: char): string {
    if c == '"' then ['\\', '"']
    else if c == '\\' then ['\\', '\\']
    else if c as int == 8 then ['\\', 'b']
    else if c as int == 12 then ['\\', 'f']
    else if c == '\n' then ['\\', 'n']
    else if c == '\r' then ['\\', 'r']
    else if c == '\t' then ['\\', 't']
    else if IsEscaped(c) then
      var n := c as int;
      ['\\', 'u', HexDigit(n / 4096 % 16), HexDigit(n / 256 % 16), HexDigit(n / 16 % 16), HexDigit(n % 16)]
    else [c]
  }

  function Escaped(s: string): string {
    if s == "" then "" else Escape(s[0]) + Escaped(s[1..])
  }

  function Quoted(s: string): string {
    ['"'] + Escaped(s) + ['"']
  }

  lemma HexDigitIsInjective(m: int, n: int)
    requires 0 <= m < 16 && 0 <= n < 16 && HexDigit(m) == HexDigit(n)
    ensures m == n
  {
  }

  /** No escape is the beginning of another, so the first character of a text can be read off. */
  lemma EscapeIsPrefixFree(c: char, d: char, r: string, s: string)
    requires Escape(c) + r == Escape(d) + s
    ensures c == d && r == s
  {
    var x, y := Escape(c) + r, Escape(d) + s;
    assert x[0] == Escape(c)[0] && y[0] == Escape(d)[0];
    if |Escape(c)| > 1 && |Escape(d)| > 1 {
      assert x[1] == Escape(c)[1] && y[1] == Escape(d)[1];
      if Escape(c)[1] == 'u' {
        assert forall i | 2 <= i < 6 :: x[i] == Escape(c)[i] && y[i] == Escape(d)[i];
        SameCode(c, d);
      }
    }
    assert c == d;
    assert r == x[|Escape(c)|..] && s == y[|Escape(d)|..];
  }

  lemma SameCode(c: char, d: char)
    requires |Escape(c)| == 6 && Escape(d) == Escape(c)
    ensures c == d
  {
    var m, n := c as int, d as int;
    HexDigitIsInjective(m / 4096 % 16, n / 4096 % 16);
    HexDigitIsInjective(m / 256 % 16, n / 256 % 16);
    HexDigitIsInjective(m / 16 % 16, n / 16 % 16);
    HexDigitIsInjective(m % 16, n % 16);
    Digits(m);
    Digits(n);
  }

  lemma Digits(n: int)
    requires 0 <= n < 65536
    ensures n == n / 4096 % 16 * 4096 + n / 256 % 16 * 256 + n / 16 % 16 * 16 + n % 16
  {
  }

  lemma EscapeStarts(c: char)
    ensures Escape(c) != [] && Escape(c)[0] != '"'
  {
  }

  /** A quoted text ends where its closing quote says. */
  lemma {:induction false} EscapedIsSelfDelimiting(a: string, b: string, r: string, s: string)
    requires Escaped(a) + ['"'] + r == Escaped(b) + ['"'] + s
    ensures a == b && r == s
    decreases |a|
  {
    hide Escape;
    if a == "" || b == "" {
      if a != "" {
        EscapedStarts(a, r);
      }
      if b != "" {
        EscapedStarts(b, s);
      }
      assert (Escaped(a) + ['"'] + r)[0] == (Escaped(b) + ['"'] + s)[0];
      assert a == b == "";
      assert Escaped(a) + ['"'] + r == ['"'] + r && Escaped(b) + ['"'] + s == ['"'] + s;
      assert r == (['"'] + r)[1..] && s == (['"'] + s)[1..];
    } else {
      Unfold(a, r);
      Unfold(b, s);
      hide Escaped;
      EscapeIsPrefixFree(a[0], b[0], Escaped(a[1..]) + ['"'] + r, Escaped(b[1..]) + ['"'] + s);
      EscapedIsSelfDelimiting(a[1..], b[1..], r, s);
      assert a == [a[0]] + a[1..] && b == [b[0]] + b[1..];
    }
  }

  lemma EscapedStarts(a: string, r: string)
    requires a != ""
    ensures (Escaped(a) + ['"'] + r)[0] != '"'
  {
    EscapeStarts(a[0]);
    hide Escape;
    assert (Escaped(a) + ['"'] + r)[0] == Escape(a[0])[0];
  }

  lemma Unfold(a: string, r: string)
    requires a != ""
    ensures Escaped(a) + ['"'] + r == Escape(a[0]) + (Escaped(a[1..]) + ['"'] + r)
  {
    hide Escape;
  }

  lemma QuotedIsSelfDelimiting(a: string, b: string, r: string, s: string)
    requires Quoted(a) + r == Quoted(b) + s
    ensures a == b && r == s
  {
    var x, y := Quoted(a) + r, Quoted(b) + s;
    assert x[1..] == Escaped(a) + ['"'] + r && y[1..] == Escaped(b) + ['"'] + s;
    EscapedIsSelfDelimiting(a, b, r, s);
  }

  /** What may follow a value inside an array or an object, or at the end. */
  predicate IsDelimited(r: string) {
    r == "" || r[0] == ',' || r[0] == ']' || r[0] == '}'
  }

  lemma {:induction false} NumberIsSelfDelimiting(a: string, b: string, r: string, s: string)
    requires (forall i | 0 <= i < |a| :: IsNumberChar(a[i])) && (forall i | 0 <= i < |b| :: IsNumberChar(b[i]))
    requires IsDelimited(r) && IsDelimited(s) && a + r == b + s
    ensures a == b && r == s
  {
    var x, y := a + r, b + s;
    assert forall i | 0 <= i < |a| :: x[i] == a[i];
    assert forall i | 0 <= i < |b| :: y[i] == b[i];
    assert |a| < |x| ==> x[|a|] == r[0];
    assert |b| < |y| ==> y[|b|] == s[0];
    assert |a| == |b|;
    assert a == x[..|a|] && b == y[..|b|] && r == x[|a|..] && s == y[|b|..];
  }

  // ---------------------------------------------------------------- values

  /** The keys of an object, sorted. */
  ghost predicate IsSorted(keys: seq<string>) {
    forall i, k | 0 <= i < k < |keys| :: Before(keys[i], keys[k])
  }

  /** Lexicographic order, strictly. */
  predicate Before(a: string, b: string) {
    b != "" && (a == "" || a[0] < b[0] || (a[0] == b[0] && Before(a[1..], b[1..])))
  }

  ghost predicate IsKeysOf(keys: seq<string>, m: map<string, Json>) {
    IsSorted(keys) && forall k :: k in keys <==> k in m
  }

  lemma {:induction false} BeforeIsTotal(a: string, b: string)
    ensures a == b || Before(a, b) || Before(b, a)
    ensures !Before(a, a) && !(Before(a, b) && Before(b, a))
    decreases |a|
  {
    if a != "" && b != "" {
      BeforeIsTotal(a[1..], b[1..]);
      assert a == [a[0]] + a[1..] && b == [b[0]] + b[1..];
    }
    if a != "" {
      BeforeIsTotal(a[1..], a[1..]);
    }
  }

  lemma {:induction false} BeforeIsTransitive(a: string, b: string, c: string)
    requires Before(a, b) && Before(b, c)
    ensures Before(a, c)
    decreases |a|
  {
    if a != "" && a[0] == b[0] && b[0] == c[0] {
      BeforeIsTransitive(a[1..], b[1..], c[1..]);
    }
  }

  /** A set has one sorted sequence of its elements. */
  lemma {:induction false} SortedIsUnique(s: seq<string>, t: seq<string>)
    requires IsSorted(s) && IsSorted(t) && forall k :: k in s <==> k in t
    ensures s == t
  {
    if s == [] {
      HasElement(t);
    } else {
      assert s[0] in s;
      assert t != [] by {
        assert s[0] in t;
      }
      SameHead(s, t);
      forall k ensures k in s[1..] <==> k in t[1..] {
        TailKeys(s, k);
        TailKeys(t, k);
      }
      SortedIsUnique(s[1..], t[1..]);
      assert s == [s[0]] + s[1..] && t == [t[0]] + t[1..];
    }
  }

  lemma HasElement(s: seq<string>)
    ensures s != [] ==> exists k :: k in s
  {
    if s != [] {
      assert s[0] in s;
    }
  }

  lemma TailKeys(s: seq<string>, k: string)
    requires IsSorted(s) && s != []
    ensures k in s[1..] <==> k in s && k != s[0]
  {
    if k in s[1..] {
      var i :| 0 <= i < |s[1..]| && s[1..][i] == k;
      assert Before(s[0], s[i + 1]);
      BeforeIsTotal(s[0], s[0]);
    }
  }

  lemma SameHead(s: seq<string>, t: seq<string>)
    requires IsSorted(s) && IsSorted(t) && s != [] && t != [] && forall k :: k in s <==> k in t
    ensures s[0] == t[0]
  {
    assert s[0] in t && t[0] in s;
    var i :| 0 <= i < |t| && t[i] == s[0];
    var k :| 0 <= k < |s| && s[k] == t[0];
    assert i > 0 ==> Before(t[0], s[0]);
    assert k > 0 ==> Before(s[0], t[0]);
    BeforeIsTotal(s[0], t[0]);
  }

  /** One step of the library's sort. */
  function InsertKey(k: string, keys: seq<string>): seq<string> {
    if keys == [] || Before(k, keys[0]) then [k] + keys else [keys[0]] + InsertKey(k, keys[1..])
  }

  lemma {:induction false} InsertKeyFacts(k: string, keys: seq<string>)
    requires IsSorted(keys) && k !in keys
    ensures IsSorted(InsertKey(k, keys))
    ensures forall x :: x in InsertKey(k, keys) <==> x == k || x in keys
  {
    if keys == [] {
    } else if Before(k, keys[0]) {
      forall i | 0 <= i < |keys| ensures Before(k, keys[i]) {
        if i > 0 {
          BeforeIsTransitive(k, keys[0], keys[i]);
        }
      }
    } else {
      var rest := InsertKey(k, keys[1..]);
      InsertKeyFacts(k, keys[1..]);
      BeforeIsTotal(k, keys[0]);
      assert keys[0] in keys;
      forall i | 0 <= i < |rest| ensures Before(keys[0], rest[i]) {
        assert rest[i] in rest;
      }
      assert keys == [keys[0]] + keys[1..];
    }
  }

  lemma {:induction false} KeysExist(m: map<string, Json>, some: set<string>)
    requires some <= m.Keys
    ensures exists keys :: IsSorted(keys) && forall k :: k in keys <==> k in some
  {
    if k :| k in some {
      KeysExist(m, some - {k});
      var keys :| IsSorted(keys) && forall x :: x in keys <==> x in some - {k};
      InsertKeyFacts(k, keys);
      assert IsSorted(InsertKey(k, keys));
    } else {
      assert IsSorted([]);
    }
  }

  ghost function KeysOf(m: map<string, Json>): (keys: seq<string>)
    ensures IsKeysOf(keys, m)
  {
    KeysExist(m, m.Keys);
    var keys :| IsSorted(keys) && forall k :: k in keys <==> k in m.Keys;
    keys
  }

  ghost predicate IsDecoded(v: Json)
    decreases v
  {
    match v
    case Number(literal) => IsNumber(literal)
    case Array(items) => forall i | 0 <= i < |items| :: IsDecoded(items[i])
    case Object(fields) => forall k | k in fields :: IsDecoded(fields[k])
    case _ => true
  }

  /** The canonical bytes of a value: object keys in order, no white space. */
  ghost function Print(v: Json): string
    decreases v, 1, 0
  {
    match v
    case Null => "null"
    case Bool(b) => if b then "true" else "false"
    case Number(literal) => literal
    case Text(text) => Quoted(text)
    case Array(_) => "[" + PrintItems(v, 0) + "]"
    case Object(fields) => "{" + PrintFields(v, KeysOf(fields), 0) + "}"
  }

  /** The items from position `i` on, each after the first with its comma. */
  ghost function PrintItems(v: Json, i: nat): string
    requires v.Array? && i <= |v.items|
    decreases v, 0, |v.items| - i
  {
    if i == |v.items| then "" else (if i > 0 then "," else "") + Print(v.items[i]) + PrintItems(v, i + 1)
  }

  ghost function PrintFields(v: Json, keys: seq<string>, i: nat): string
    requires v.Object? && i <= |keys| && forall k | k in keys :: k in v.fields
    decreases v, 0, |keys| - i
  {
    if i == |keys| then ""
    else (if i > 0 then "," else "") + Quoted(keys[i]) + ":" + Print(v.fields[keys[i]]) + PrintFields(v, keys, i + 1)
  }

  // ---------------------------------------------------------------- the writer

  method CanonicalValue(v: Json) returns (bytes: string)
    ensures bytes == Print(v)
    decreases v, 1
  {
    hide Quoted;
    match v
    case Null => return "null";
    case Bool(b) => return if b then "true" else "false";
    case Number(literal) => return literal;
    case Text(text) => return Quoted(text);
    case Array(_) => bytes := WriteArray(v);
    case Object(_) => bytes := WriteObject(v);
  }

  method WriteArray(v: Json) returns (buffer: string)
    requires v.Array?
    ensures buffer == Print(v)
    decreases v, 0
  {
    hide Quoted;
    buffer := "[";
    for i := 0 to |v.items|
      invariant buffer + PrintItems(v, i) == "[" + PrintItems(v, 0)
    {
      ghost var before := buffer;
      if i > 0 {
        buffer := buffer + ",";
      }
      var item := CanonicalValue(v.items[i]);
      buffer := buffer + item;
      hide Print;
      assert buffer + PrintItems(v, i + 1) == before + PrintItems(v, i);
    }
    buffer := buffer + "]";
  }

  method WriteObject(v: Json) returns (buffer: string)
    requires v.Object?
    ensures buffer == Print(v)
    decreases v, 0
  {
    hide Quoted;
    var keys := SortKeys(v.fields);
    SortedIsUnique(keys, KeysOf(v.fields));
    assert Print(v) == "{" + PrintFields(v, keys, 0) + "}";
    hide IsSorted, Print, PrintFields, KeysOf;
    buffer := "{";
    for i := 0 to |keys|
      invariant buffer + PrintFields(v, keys, i) == "{" + PrintFields(v, keys, 0)
    {
      ghost var before := buffer;
      if i > 0 {
        buffer := buffer + ",";
      }
      assert keys[i] in keys;
      var value := CanonicalValue(v.fields[keys[i]]);
      buffer := buffer + Quoted(keys[i]);
      buffer := buffer + ":";
      buffer := buffer + value;
      FieldsStep(v, keys, i, before, value);
    }
    EndOfFields(v, keys);
    buffer := buffer + "}";
  }

  lemma EndOfFields(v: Json, keys: seq<string>)
    requires v.Object? && forall k | k in keys :: k in v.fields
    ensures PrintFields(v, keys, |keys|) == ""
  {
  }

  lemma FieldsStep(v: Json, keys: seq<string>, i: nat, before: string, value: string)
    requires v.Object? && i < |keys| && (forall k | k in keys :: k in v.fields) && value == Print(v.fields[keys[i]])
    ensures ((if i > 0 then before + "," else before) + Quoted(keys[i]) + ":" + value) + PrintFields(v, keys, i + 1)
         == before + PrintFields(v, keys, i)
  {
    hide Print, Quoted;
  }

  /** Collects the keys in whatever order the map yields them, and sorts them. */
  method SortKeys(m: map<string, Json>) returns (keys: seq<string>)
    ensures IsKeysOf(keys, m)
  {
    keys := [];
    var rest := m.Keys;
    while rest != {}
      invariant IsSorted(keys) && rest <= m.Keys && forall k :: k in keys <==> k in m && k !in rest
      decreases |rest|
    {
      var k :| k in rest;
      InsertKeyFacts(k, keys);
      keys := InsertKey(k, keys);
      rest := rest - {k};
    }
  }

  // ---------------------------------------------------------------- injectivity

  /** The first byte tells what kind of value follows. */
  lemma Heads(v: Json)
    requires IsDecoded(v)
    ensures
      && Print(v) != ""
      && var h := Print(v)[0];
         match v
         case Null => h == 'n'
         case Bool(b) => h == (if b then 't' else 'f')
         case Number(_) => h == '-' || '0' <= h <= '9'
         case Text(_) => h == '"'
         case Array(_) => h == '['
         case Object(_) => h == '{'
  {
    hide PrintItems, PrintFields, Escaped;
  }

  predicate SameKind(v: Json, w: Json) {
    match v
    case Null => w.Null?
    case Bool(b) => w == v
    case Number(_) => w.Number?
    case Text(_) => w.Text?
    case Array(_) => w.Array?
    case Object(_) => w.Object?
  }

  lemma SameHeadSameKind(v: Json, w: Json, r: string, s: string)
    requires IsDecoded(v) && IsDecoded(w) && Print(v) + r == Print(w) + s
    ensures SameKind(v, w)
  {
    Heads(v);
    Heads(w);
    hide Print, IsDecoded;
    assert (Print(v) + r)[0] == Print(v)[0] && (Print(w) + s)[0] == Print(w)[0];
  }

  /** A printed value ends where its own bytes say, and determines the value. */
  lemma {:induction false} PrintIsSelfDelimiting(v: Json, w: Json, r: string, s: string)
    requires IsDecoded(v) && IsDecoded(w) && IsDelimited(r) && IsDelimited(s)
    requires Print(v) + r == Print(w) + s
    ensures v == w && r == s
    decreases v, 1, 0
  {
    SameHeadSameKind(v, w, r, s);
    match v
    case Null => SameLength(Print(v), r, s);
    case Bool(_) => SameLength(Print(v), r, s);
    case Number(_) => NumberIsSelfDelimiting(v.literal, w.literal, r, s);
    case Text(_) => QuotedIsSelfDelimiting(v.text, w.text, r, s);
    case Array(_) => ArraysAgree(v, w, r, s);
    case Object(_) => ObjectsAgree(v, w, r, s);
  }

  lemma SameLength(x: string, r: string, s: string)
    requires x + r == x + s
    ensures r == s
  {
    assert r == (x + r)[|x|..] && s == (x + s)[|x|..];
  }

  /** Drops a common first character. */
  lemma Uncons(c: char, d: char, x: string, y: string)
    requires [c] + x == [d] + y
    ensures c == d && x == y
  {
    assert ([c] + x)[0] == c && ([d] + y)[0] == d;
    assert x == ([c] + x)[1..] && y == ([d] + y)[1..];
  }

  lemma ArraysAgree(v: Json, w: Json, r: string, s: string)
    requires IsDecoded(v) && IsDecoded(w) && v.Array? && w.Array? && Print(v) + r == Print(w) + s
    ensures v == w && r == s
    decreases v, 0, |v.items| + 1
  {
    var x, y := PrintItems(v, 0) + "]" + r, PrintItems(w, 0) + "]" + s;
    assert Print(v) + r == ['['] + x && Print(w) + s == ['['] + y;
    Uncons('[', '[', x, y);
    ItemsAgree(v, w, 0, r, s);
    assert v.items[0..] == v.items && w.items[0..] == w.items;
  }

  lemma {:induction false} ItemsAgree(v: Json, w: Json, i: nat, r: string, s: string)
    requires IsDecoded(v) && IsDecoded(w) && v.Array? && w.Array? && i <= |v.items| && i <= |w.items|
    requires PrintItems(v, i) + "]" + r == PrintItems(w, i) + "]" + s
    ensures v.items[i..] == w.items[i..] && r == s
    decreases v, 0, |v.items| - i
  {
    hide Print, PrintItems, IsDecoded, IsDelimited;
    if i == |v.items| || i == |w.items| {
      ItemsEnd(v, w, i, r, s);
    } else {
      var x, y := PrintItems(v, i + 1) + "]" + r, PrintItems(w, i + 1) + "]" + s;
      ItemsUnfold(v, i, r);
      ItemsUnfold(w, i, s);
      if i > 0 {
        Uncons(',', ',', Print(v.items[i]) + x, Print(w.items[i]) + y);
      } else {
        assert [] + (Print(v.items[i]) + x) == Print(v.items[i]) + x && [] + (Print(w.items[i]) + y) == Print(w.items[i]) + y;
      }
      ItemsDelimited(v, i + 1, r);
      ItemsDelimited(w, i + 1, s);
      ItemIsDecoded(v, i);
      ItemIsDecoded(w, i);
      PrintIsSelfDelimiting(v.items[i], w.items[i], x, y);
      ItemsAgree(v, w, i + 1, r, s);
      assert v.items[i..] == [v.items[i]] + v.items[i + 1..] && w.items[i..] == [w.items[i]] + w.items[i + 1..];
    }
  }

  lemma ItemIsDecoded(v: Json, i: nat)
    requires v.Array? && i < |v.items| && IsDecoded(v)
    ensures IsDecoded(v.items[i])
  {
  }

  lemma ItemsEnd(v: Json, w: Json, i: nat, r: string, s: string)
    requires IsDecoded(v) && IsDecoded(w) && v.Array? && w.Array? && i <= |v.items| && i <= |w.items|
    requires (i == |v.items| || i == |w.items|) && PrintItems(v, i) + "]" + r == PrintItems(w, i) + "]" + s
    ensures i == |v.items| == |w.items| && r == s
  {
    hide Print, IsDecoded;
    ItemsStart(v, i, r);
    ItemsStart(w, i, s);
    assert PrintItems(v, i) + "]" + r == [']'] + r && PrintItems(w, i) + "]" + s == [']'] + s;
    Uncons(']', ']', r, s);
  }

  lemma ItemsUnfold(v: Json, i: nat, r: string)
    requires v.Array? && i < |v.items|
    ensures PrintItems(v, i) + "]" + r
         == (if i > 0 then [','] else []) + (Print(v.items[i]) + (PrintItems(v, i + 1) + "]" + r))
  {
    hide Print;
  }

  lemma ItemsStart(v: Json, i: nat, r: string)
    requires IsDecoded(v) && v.Array? && i <= |v.items|
    ensures (PrintItems(v, i) + "]" + r)[0] == ']' <==> i == |v.items|
  {
    if i < |v.items| {
      Heads(v.items[i]);
      hide Print;
      ItemsUnfold(v, i, r);
    }
  }

  lemma ItemsDelimited(v: Json, i: nat, r: string)
    requires v.Array? && 0 < i <= |v.items|
    ensures IsDelimited(PrintItems(v, i) + "]" + r)
  {
    if i < |v.items| {
      hide Print;
      ItemsUnfold(v, i, r);
    }
  }

  lemma ObjectsAgree(v: Json, w: Json, r: string, s: string)
    requires IsDecoded(v) && IsDecoded(w) && v.Object? && w.Object? && Print(v) + r == Print(w) + s
    ensures v == w && r == s
    decreases v, 0, |KeysOf(v.fields)| + 1
  {
    hide Print, PrintFields, IsDecoded, IsKeysOf;
    var kv, kw := KeysOf(v.fields), KeysOf(w.fields);
    ObjectUnfold(v, r);
    ObjectUnfold(w, s);
    Uncons('{', '{', PrintFields(v, kv, 0) + "}" + r, PrintFields(w, kw, 0) + "}" + s);
    FieldsAgree(v, w, kv, kw, 0, r, s);
    assert kv[0..] == kv && kw[0..] == kw;
    SameFields(v.fields, w.fields, kv);
  }

  lemma ObjectUnfold(v: Json, r: string)
    requires v.Object?
    ensures forall k | k in KeysOf(v.fields) :: k in v.fields
    ensures Print(v) + r == ['{'] + (PrintFields(v, KeysOf(v.fields), 0) + "}" + r)
  {
    hide PrintFields, IsSorted;
  }

  lemma SameFields(m: map<string, Json>, n: map<string, Json>, keys: seq<string>)
    requires IsKeysOf(keys, m) && IsKeysOf(keys, n)
    requires forall j | 0 <= j < |keys| :: keys[j] in m && keys[j] in n && m[keys[j]] == n[keys[j]]
    ensures m == n
  {
    forall k ensures k in m <==> k in n {
      assert k in keys <==> k in m;
    }
    forall k | k in m ensures m[k] == n[k] {
      assert k in keys;
      var j :| 0 <= j < |keys| && keys[j] == k;
    }
  }

  lemma {:induction false} FieldsAgree(v: Json, w: Json, kv: seq<string>, kw: seq<string>, i: nat, r: string, s: string)
    requires IsDecoded(v) && IsDecoded(w) && v.Object? && w.Object? && i <= |kv| && i <= |kw|
    requires (forall k | k in kv :: k in v.fields) && (forall k | k in kw :: k in w.fields)
    requires PrintFields(v, kv, i) + "}" + r == PrintFields(w, kw, i) + "}" + s
    ensures kv[i..] == kw[i..] && r == s
    ensures forall j | i <= j < |kv| :: kv[j] in v.fields && kv[j] in w.fields && v.fields[kv[j]] == w.fields[kv[j]]
    decreases v, 0, |kv| - i
  {
    hide Print, PrintFields, IsDecoded, IsDelimited, Quoted;
    if i == |kv| || i == |kw| {
      FieldsEnd(v, w, kv, kw, i, r, s);
    } else {
      assert kv[i] in kv && kw[i] in kw;
      var x, y := PrintFields(v, kv, i + 1) + "}" + r, PrintFields(w, kw, i + 1) + "}" + s;
      var p, q := Print(v.fields[kv[i]]) + x, Print(w.fields[kw[i]]) + y;
      FieldsUnfold(v, kv, i, r);
      FieldsUnfold(w, kw, i, s);
      FieldIsDecoded(v, kv[i]);
      FieldIsDecoded(w, kw[i]);
      FieldsDelimited(v, kv, i + 1, r);
      FieldsDelimited(w, kw, i + 1, s);
      FieldHead(i > 0, kv[i], kw[i], p, q);
      PrintIsSelfDelimiting(v.fields[kv[i]], w.fields[kw[i]], x, y);
      FieldsAgree(v, w, kv, kw, i + 1, r, s);
      assert kv[i..] == [kv[i]] + kv[i + 1..] && kw[i..] == [kw[i]] + kw[i + 1..];
    }
  }

  lemma FieldIsDecoded(v: Json, k: string)
    requires v.Object? && k in v.fields && IsDecoded(v)
    ensures IsDecoded(v.fields[k])
  {
  }

  /** The separator, the key and its colon can be read off. */
  lemma FieldHead(later: bool, k: string, l: string, p: string, q: string)
    requires (if later then [','] else []) + (Quoted(k) + ([':'] + p)) == (if later then [','] else []) + (Quoted(l) + ([':'] + q))
    ensures k == l && p == q
  {
    hide Quoted;
    var x, y := Quoted(k) + ([':'] + p), Quoted(l) + ([':'] + q);
    if later {
      Uncons(',', ',', x, y);
    } else {
      assert [] + x == x && [] + y == y;
    }
    QuotedIsSelfDelimiting(k, l, [':'] + p, [':'] + q);
    Uncons(':', ':', p, q);
  }

  lemma FieldsEnd(v: Json, w: Json, kv: seq<string>, kw: seq<string>, i: nat, r: string, s: string)
    requires v.Object? && w.Object? && i <= |kv| && i <= |kw|
    requires (forall k | k in kv :: k in v.fields) && (forall k | k in kw :: k in w.fields)
    requires (i == |kv| || i == |kw|) && PrintFields(v, kv, i) + "}" + r == PrintFields(w, kw, i) + "}" + s
    ensures i == |kv| == |kw| && r == s
  {
    hide Print, Quoted;
    FieldsStart(v, kv, i, r);
    FieldsStart(w, kw, i, s);
    assert PrintFields(v, kv, i) + "}" + r == ['}'] + r && PrintFields(w, kw, i) + "}" + s == ['}'] + s;
    Uncons('}', '}', r, s);
  }

  lemma FieldsUnfold(v: Json, keys: seq<string>, i: nat, r: string)
    requires v.Object? && i < |keys| && forall k | k in keys :: k in v.fields
    ensures keys[i] in keys
    ensures PrintFields(v, keys, i) + "}" + r
         == (if i > 0 then [','] else [])
            + (Quoted(keys[i]) + ([':'] + (Print(v.fields[keys[i]]) + (PrintFields(v, keys, i + 1) + "}" + r))))
  {
    hide Print, Quoted;
  }

  lemma FieldsStart(v: Json, keys: seq<string>, i: nat, r: string)
    requires v.Object? && i <= |keys| && forall k | k in keys :: k in v.fields
    ensures (PrintFields(v, keys, i) + "}" + r)[0] == '}' <==> i == |keys|
  {
    if i < |keys| {
      FieldsUnfold(v, keys, i, r);
      hide Print, PrintFields;
    }
  }

  lemma FieldsDelimited(v: Json, keys: seq<string>, i: nat, r: string)
    requires v.Object? && 0 < i <= |keys| && forall k | k in keys :: k in v.fields
    ensures IsDelimited(PrintFields(v, keys, i) + "}" + r)
  {
    if i < |keys| {
      FieldsUnfold(v, keys, i, r);
      hide Print, PrintFields;
    }
  }

  /** Two decoded values have the same canonical bytes exactly when they are equal, objects being unordered. */
  lemma PrintIsInjective(v: Json, w: Json)
    requires IsDecoded(v) && IsDecoded(w)
    ensures Print(v) == Print(w) <==> v == w
  {
    if Print(v) == Print(w) {
      assert Print(v) + "" == Print(w) + "";
      PrintIsSelfDelimiting(v, w, "", "");
    }
  }

  // ---------------------------------------------------------------- fingerprints

  function Digit(n: nat): char
    requires n < 10
  {
    "0123456789"[n]
  }

  function Decimal(n: nat): string {
    if n < 10 then [Digit(n)] else Decimal(n / 10) + [Digit(n % 10)]
  }

  lemma {:induction false} DecimalIsNumber(n: nat)
    ensures IsNumber(Decimal(n))
  {
    if n >= 10 {
      DecimalIsNumber(n / 10);
    }
  }

  lemma {:induction false} DecimalIsInjective(m: nat, n: nat)
    requires Decimal(m) == Decimal(n)
    ensures m == n
    decreases m
  {
    var x, y := Decimal(m), Decimal(n);
    assert x[|x| - 1] == Digit(m % 10) && y[|y| - 1] == Digit(n % 10);
    DigitIsInjective(m % 10, n % 10);
    if m >= 10 && n >= 10 {
      assert x[..|x| - 1] == Decimal(m / 10) && y[..|y| - 1] == Decimal(n / 10);
      DecimalIsInjective(m / 10, n / 10);
    } else if m >= 10 {
      DecimalIsNumber(m / 10);
    } else if n >= 10 {
      DecimalIsNumber(n / 10);
    }
  }

  lemma DigitIsInjective(m: nat, n: nat)
    requires m < 10 && n < 10 && Digit(m) == Digit(n)
    ensures m == n
  {
  }

  /** The part of a creation request that its fingerprint covers. */
  datatype Request = Request(datasetVersionId: string, operations: Json, priority: nat, maxAttempts: nat)

  function RequestJson(q: Request): Json {
    Object(map["datasetVersionId" := Text(q.datasetVersionId), "operations" := q.operations,
               "priority" := Number(Decimal(q.priority)), "maxAttempts" := Number(Decimal(q.maxAttempts))])
  }

  /** Two requests are fingerprinted from the same bytes exactly when they ask for the same thing. */
  lemma EqualFingerprintInputs(p: Request, q: Request)
    requires IsDecoded(p.operations) && IsDecoded(q.operations)
    ensures Print(RequestJson(p)) == Print(RequestJson(q)) <==> p == q
  {
    hide Print;
    RequestIsDecoded(p);
    RequestIsDecoded(q);
    PrintIsInjective(RequestJson(p), RequestJson(q));
    if RequestJson(p) == RequestJson(q) {
      FieldsOf(p);
      FieldsOf(q);
      DecimalIsInjective(p.priority, q.priority);
      DecimalIsInjective(p.maxAttempts, q.maxAttempts);
    }
  }

  lemma RequestIsDecoded(q: Request)
    requires IsDecoded(q.operations)
    ensures IsDecoded(RequestJson(q))
  {
    DecimalIsNumber(q.priority);
    DecimalIsNumber(q.maxAttempts);
  }

  lemma FieldsOf(q: Request)
    ensures
      var m := RequestJson(q).fields;
      && m["datasetVersionId"] == Text(q.datasetVersionId) && m["operations"] == q.operations
      && m["priority"] == Number(Decimal(q.priority)) && m["maxAttempts"] == Number(Decimal(q.maxAttempts))
  {
  }
}
