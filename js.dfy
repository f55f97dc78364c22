/**
 * The pieces of JavaScript semantics that the status pipeline and the option
 * validation rely on: the tree that the XML parser yields, truthiness, template
 * rendering of values, `parseInt(_, 10)`, `String.prototype.trim`,
 * `String.prototype.split` / `Array.prototype.join` on one separator, and the
 * key-path lookup that lodash's `_.get` performs.
 */
module Js {

  datatype Option<T> = None | Some(value: T)

  /** A node of the parsed XML document: a text leaf, a number leaf (the parser
      turns `758317` and `7` into numbers) or an element with named children. */
  datatype Node =
    | Text(text: string)
    | Number(number: int)
    | Element(children: map<string, Node>)

  /** JavaScript truthiness of a parsed value: "" and 0 are falsy, objects never are. */
  predicate Truthy(v: Node) {
    match v
    case Text(s) => s != ""
    case Number(n) => n != 0
    case Element(_) => true
  }

  /** Truthiness of a value that may be `undefined` or `null` (both falsy). */
  predicate TruthyOpt(v: Option<Node>) {
    v.Some? && Truthy(v.value)
  }

  /** How `${v}` renders a parsed value inside a template literal. */
  function Show(v: Node): (r: string)
    ensures Truthy(v) ==> r != ""
    ensures v.Text? ==> r == v.text
  {
    match v
    case Text(s) => s
    case Number(n) => IntToString(n)
    case Element(_) => "[object Object]"
  }

  // ---------------------------------------------------------------------------
  // Decimal numbers

  predicate IsDigit(c: char) {
    '0' <= c <= '9'
  }

  predicate AllDigits(s: string) {
    forall i :: 0 <= i < |s| ==> IsDigit(s[i])
  }

  function DigitChar(d: nat): (c: char)
    requires d < 10
    ensures IsDigit(c) && c as int - '0' as int == d
  {
    ('0' as int + d) as char
  }

  /** Decimal rendering of a natural number, most significant digit first, no leading zeros. */
  function NatToString(n: nat): (s: string)
    ensures |s| >= 1 && AllDigits(s)
    ensures n > 0 ==> s[0] != '0'
    decreases n
  {
    if n < 10 then [DigitChar(n)] else NatToString(n / 10) + [DigitChar(n % 10)]
  }

  /** `String(n)` for an integer number. */
  function IntToString(n: int): (s: string)
    ensures |s| >= 1
    ensures s[0] == '-' <==> n < 0
  {
    if n < 0 then "-" + NatToString(-n) else NatToString(n)
  }

  /** The value of a string of decimal digits. */
  function DigitsValue(s: string): nat
    requires AllDigits(s)
  {
    if s == [] then 0 else DigitsValue(s[..|s| - 1]) * 10 + (s[|s| - 1] as int - '0' as int)
  }

  /** Length of the longest prefix of `s` made of decimal digits. */
  function DigitRun(s: string): (k: nat)
    ensures k <= |s| && AllDigits(s[..k])
    ensures k < |s| ==> !IsDigit(s[k])
  {
    if s == [] || !IsDigit(s[0]) then 0 else 1 + DigitRun(s[1..])
  }

  /** `parseInt(s, 10)`: skip leading white space, take an optional sign and the
      longest run of digits after it; `None` stands for NaN (no digit at all). */
  function ParseInt(s: string): Option<int> {
    var t := TrimStart(s);
    var signed := |t| > 0 && (t[0] == '-' || t[0] == '+');
    var u := if signed then t[1..] else t;
    var k := DigitRun(u);
    var magnitude: int := DigitsValue(u[..k]);
    if k == 0 then None
    else if signed && t[0] == '-' then Some(-magnitude)
    else Some(magnitude)
  }

  lemma {:induction false} DigitRunOfDigits(s: string)
    requires AllDigits(s)
    ensures DigitRun(s) == |s|
  {
    if s != [] {
      DigitRunOfDigits(s[1..]);
    }
  }

  lemma {:induction false} DigitsValueOfNat(n: nat)
    ensures DigitsValue(NatToString(n)) == n
    decreases n
  {
    var s := NatToString(n);
    if n >= 10 {
      DigitsValueOfNat(n / 10);
      assert s[..|s| - 1] == NatToString(n / 10);
    }
  }

  /** `parseInt(String(n), 10) == n`: reading back the rendering of an integer gives the integer. */
  lemma {:induction false} ParseIntOfIntToString(n: int)
    ensures ParseInt(IntToString(n)) == Some(n)
  {
    var s := IntToString(n);
    assert !IsWhitespace(s[0]);
    assert TrimStart(s) == s;
    var m: nat := if n < 0 then -n else n;
    var digits := NatToString(m);
    assert (if n < 0 then s[1..] else s) == digits;
    DigitRunOfDigits(digits);
    assert digits[..|digits|] == digits;
    DigitsValueOfNat(m);
  }

  // ---------------------------------------------------------------------------
  // White space and String.prototype.trim

  /** The WhiteSpace and LineTerminator code points of ECMAScript. */
  predicate IsWhitespace(c: char) {
    var k := c as int;
    k == 0x09 || k == 0x0A || k == 0x0B || k == 0x0C || k == 0x0D || k == 0x20
    || k == 0xA0 || k == 0x1680 || (0x2000 <= k <= 0x200A) || k == 0x2028 || k == 0x2029
    || k == 0x202F || k == 0x205F || k == 0x3000 || k == 0xFEFF
  }

  predicate AllWhitespace(s: string) {
    forall i :: 0 <= i < |s| ==> IsWhitespace(s[i])
  }

  function TrimStart(s: string): (r: string)
    ensures |r| <= |s| && r == s[|s| - |r|..]
    ensures r == [] || !IsWhitespace(r[0])
  {
    if s != [] && IsWhitespace(s[0]) then TrimStart(s[1..]) else s
  }

  function TrimEnd(s: string): (r: string)
    ensures |r| <= |s| && r == s[..|r|]
    ensures r == [] || !IsWhitespace(r[|r| - 1])
  {
    if s != [] && IsWhitespace(s[|s| - 1]) then TrimEnd(s[..|s| - 1]) else s
  }

  /** `s.trim()`. */
  function Trim(s: string): string {
    TrimEnd(TrimStart(s))
  }

  lemma {:induction false} TrimStartSkips(a: string, x: string)
    requires AllWhitespace(a)
    requires x != [] && !IsWhitespace(x[0])
    ensures TrimStart(a + x) == x
  {
    if a != [] {
      assert (a + x)[1..] == a[1..] + x;
      TrimStartSkips(a[1..], x);
    } else {
      assert a + x == x;
    }
  }

  lemma {:induction false} TrimEndSkips(x: string, b: string)
    requires AllWhitespace(b)
    requires x != [] && !IsWhitespace(x[|x| - 1])
    ensures TrimEnd(x + b) == x
  {
    if b != [] {
      assert (x + b)[..|x + b| - 1] == x + b[..|b| - 1];
      TrimEndSkips(x, b[..|b| - 1]);
    } else {
      assert x + b == x;
    }
  }

  /** Trimming a text framed by white space on both sides gives back exactly the
      text, whatever it holds in between. */
  lemma TrimFrame(a: string, x: string, b: string)
    requires AllWhitespace(a) && AllWhitespace(b)
    requires x != [] && !IsWhitespace(x[0]) && !IsWhitespace(x[|x| - 1])
    ensures Trim(a + x + b) == x
  {
    assert a + x + b == a + (x + b);
    TrimStartSkips(a, x + b);
    TrimEndSkips(x, b);
  }

  /** Trimming a text followed by white space gives back exactly the text. */
  lemma TrimTail(x: string, b: string)
    requires AllWhitespace(b)
    requires x != [] && !IsWhitespace(x[0]) && !IsWhitespace(x[|x| - 1])
    ensures Trim(x + b) == x
  {
    assert TrimStart(x + b) == x + b by {
      assert (x + b)[0] == x[0];
    }
    TrimEndSkips(x, b);
  }

  // ---------------------------------------------------------------------------
  // split and join on one separator

  /** `s.split(sep)` for a one-character separator: always at least one piece,
      and no piece holds the separator. */
  function Split(s: string, sep: char): (r: seq<string>)
    ensures |r| >= 1
    ensures forall i :: 0 <= i < |r| ==> sep !in r[i]
  {
    if s == [] then [""]
    else
      var rest := Split(s[1..], sep);
      if s[0] == sep then [""] + rest
      else [[s[0]] + rest[0]] + rest[1..]
  }

  /** `parts.join(sep)`. */
  function JoinWith(parts: seq<string>, sep: string): string {
    if |parts| == 0 then ""
    else if |parts| == 1 then parts[0]
    else parts[0] + sep + JoinWith(parts[1..], sep)
  }

  /** A leading piece without the separator is split off exactly. */
  lemma {:induction false} SplitAtFirst(a: string, rest: string, sep: char)
    requires sep !in a
    ensures Split(a + [sep] + rest, sep) == [a] + Split(rest, sep)
  {
    if a == [] {
      assert a + [sep] + rest == [sep] + rest;
      assert ([sep] + rest)[1..] == rest;
    } else {
      assert (a + [sep] + rest)[1..] == a[1..] + [sep] + rest;
      SplitAtFirst(a[1..], rest, sep);
      assert [a[0]] + a[1..] == a;
    }
  }

  lemma {:induction false} SplitWithoutSeparator(a: string, sep: char)
    requires sep !in a
    ensures Split(a, sep) == [a]
  {
    if a != [] {
      SplitWithoutSeparator(a[1..], sep);
      assert [a[0]] + a[1..] == a;
    }
  }

  /** Splitting a join gives back the parts, when no part holds the separator. */
  lemma {:induction false} SplitJoin(parts: seq<string>, sep: char)
    requires |parts| >= 1
    requires forall i :: 0 <= i < |parts| ==> sep !in parts[i]
    ensures Split(JoinWith(parts, [sep]), sep) == parts
  {
    if |parts| == 1 {
      SplitWithoutSeparator(parts[0], sep);
    } else {
      SplitJoin(parts[1..], sep);
      SplitAtFirst(parts[0], JoinWith(parts[1..], [sep]), sep);
      assert [parts[0]] + parts[1..] == parts;
    }
  }

  // ---------------------------------------------------------------------------
  // Key-path lookup into the parsed tree (lodash `_.get` with a dotted path)

  /** Follows `keys` from `t`; `None` as soon as a key is absent or a leaf is reached early. */
  function Lookup(t: Node, keys: seq<string>): Option<Node>
    decreases keys
  {
    if keys == [] then Some(t)
    else
      match t
      case Element(c) => if keys[0] in c then Lookup(c[keys[0]], keys[1..]) else None
      case _ => None
  }

  /** A lookup along `p + q` is a lookup along `p` followed by one along `q`. */
  lemma {:induction false} LookupAppend(t: Node, p: seq<string>, q: seq<string>)
    ensures Lookup(t, p + q) == match Lookup(t, p) case None => None case Some(u) => Lookup(u, q)
    decreases p
  {
    if p == [] {
      assert p + q == q;
    } else {
      assert (p + q)[0] == p[0] && (p + q)[1..] == p[1..] + q;
      match t
      case Element(c) =>
        if p[0] in c {
          LookupAppend(c[p[0]], p[1..], q);
        }
      case _ =>
    }
  }

  /** A lookup along a non-empty path reads the last key in what the rest of the path reaches. */
  lemma LookupLast(t: Node, keys: seq<string>)
    requires keys != []
    ensures var u := Lookup(t, keys[..|keys| - 1]);
      var k := keys[|keys| - 1];
      Lookup(t, keys) ==
        if u.Some? && u.value.Element? && k in u.value.children then Some(u.value.children[k]) else None
  {
    var p := keys[..|keys| - 1];
    var k := keys[|keys| - 1];
    assert keys == p + [k];
    LookupAppend(t, p, [k]);
    assert [k][1..] == [];
  }

  /** The walk along `keys` reaches position `i` but cannot go on: what it reached is a leaf,
      or an element without the key `keys[i]`. */
  predicate StopsAt(t: Node, keys: seq<string>, i: int)
    requires 0 <= i < |keys|
  {
    var u := Lookup(t, keys[..i]);
    u.Some? && !(u.value.Element? && keys[i] in u.value.children)
  }

  /** A lookup yields no value exactly when the walk stops at some key of the path, whatever
      else the document holds beside that path. */
  lemma {:induction false} LookupMissing(t: Node, keys: seq<string>)
    ensures Lookup(t, keys).None? <==> exists i :: 0 <= i < |keys| && StopsAt(t, keys, i)
    decreases |keys|
  {
    if keys != [] {
      var p := keys[..|keys| - 1];
      LookupLast(t, keys);
      LookupMissing(t, p);
      forall i | 0 <= i < |p|
        ensures StopsAt(t, keys, i) == StopsAt(t, p, i)
      {
        assert keys[..i] == p[..i];
      }
      assert keys[..|p|] == p;
      if Lookup(t, keys).None? && Lookup(t, p).Some? {
        assert StopsAt(t, keys, |p|);
      }
    }
  }
}
