/** The Python values the script reads out of the extractor's info dict, with
    the three Python operations whose difference matters here: truthiness
    (`a or b`), `dict.get(k)` / `dict.get(k, d)`, `str(v)` and `int(v)`. */
module PyValues {
  import opened Strings
  import opened Wrappers

  /** A Python value. A dict nested inside the info dict keeps Python's
      insertion order, so it is an association list. The values are inputs
      read from the extractor's dicts, whose keys are distinct; the type does
      not enforce that, and a lookup takes the first entry with its key. */
  datatype Value =
    | Null
    | Bool(b: bool)
    | Int(i: int)
    | Str(s: string)
    | List(items: seq<Value>)
    | Dict(entries: seq<(string, Value)>)

  /** The exceptions the modelled code can raise. */
  datatype PyError = TypeError | ValueError | KeyError | AttributeError | NameError

  datatype Result<T> = Ok(value: T) | Raise(error: PyError)

  /** The extractor's info dict. */
  type Info = map<string, Value>

  /** Python's `bool(v)`. */
  predicate Truthy(v: Value) {
    match v
    case Null => false
    case Bool(b) => b
    case Int(i) => i != 0
    case Str(s) => s != ""
    case List(items) => items != []
    case Dict(entries) => entries != []
  }

  /** `a or b`: `a` when it is truthy, otherwise `b` (whatever `b` is). */
  function Or(a: Value, b: Value): (r: Value)
    ensures r == a || r == b
    ensures Truthy(r) <==> Truthy(a) || Truthy(b)
    ensures Truthy(a) ==> r == a
  {
    if Truthy(a) then a else b
  }

  /** `info.get(k)`: `None` when the key is missing. */
  function Get(info: Info, k: string): Value {
    if k in info then info[k] else Null
  }

  /** `info.get(k, d)`: the default only when the key is missing, even if the
      stored value is falsy. */
  function GetOr(info: Info, k: string, d: Value): Value {
    if k in info then info[k] else d
  }

  /** `d.get(k)` on a nested dict: the value stored at `k`, `None` when the
      key is missing. */
  function DictGet(entries: seq<(string, Value)>, k: string): (r: Value)
    ensures !DictHas(entries, k) ==> r == Null
    ensures DictHas(entries, k) ==>
      exists i :: 0 <= i < |entries| && entries[i].0 == k && r == entries[i].1
                  && forall j :: 0 <= j < i ==> entries[j].0 != k
  {
    if entries == [] then Null
    else if entries[0].0 == k then entries[0].1
    else DictGet(entries[1..], k)
  }

  predicate DictHas(entries: seq<(string, Value)>, k: string) {
    exists i :: 0 <= i < |entries| && entries[i].0 == k
  }

  /** Python's `needle in hay` for a string needle: key membership for a
      dict, element equality for a list, substring for a string; any other
      right operand raises `TypeError`. */
  function In(needle: string, hay: Value): (r: Result<bool>)
    ensures hay.Dict? ==> r == Ok(DictHas(hay.entries, needle))
    ensures hay.List? ==> r == Ok(exists i :: 0 <= i < |hay.items| && hay.items[i] == Str(needle))
    ensures hay.Str? ==> r == Ok(exists i :: OccursAt(hay.s, needle, i))
    ensures hay.Null? || hay.Bool? || hay.Int? ==> r == Raise(TypeError)
  {
    match hay
    case Dict(entries) => Ok(DictHas(entries, needle))
    case List(items) => Ok(Str(needle) in items)
    case Str(s) => Ok(Contains(s, needle))
    case _ => Raise(TypeError)
  }

  function DigitChar(d: nat): char
    requires d < 10
  {
    ('0' as int + d) as char
  }

  function DigitValue(c: char): nat
    requires IsDigit(c)
  {
    c as int - '0' as int
  }

  /** Decimal digits of a natural number, most significant first. */
  function NatToDecimal(n: nat): (r: string)
    ensures r != [] && forall i :: 0 <= i < |r| ==> IsDigit(r[i])
  {
    if n < 10 then [DigitChar(n)] else NatToDecimal(n / 10) + [DigitChar(n % 10)]
  }

  /** `str(n)` for an int. */
  function IntToDecimal(n: int): string {
    if n < 0 then "-" + NatToDecimal(-n) else NatToDecimal(n)
  }

  /** The number a string of decimal digits denotes. */
  function DigitsValue(s: string): nat
    requires forall i :: 0 <= i < |s| ==> IsDigit(s[i])
  {
    if s == [] then 0 else DigitsValue(s[..|s| - 1]) * 10 + DigitValue(s[|s| - 1])
  }

  /** The quote `repr` puts around a string: `"` when the string holds a
      single quote and no double quote, otherwise `'`. */
  function Quote(s: string): char {
    if '\'' in s && '"' !in s then '"' else '\''
  }

  function HexDigit(d: nat): char
    requires d < 16
  {
    if d < 10 then ('0' as int + d) as char else ('a' as int + d - 10) as char
  }

  /** The characters up to U+00FF that `repr` writes as `\xhh`: the control
      characters other than tab, newline and carriage return, DEL, the C1
      controls, the no-break space and the soft hyphen. */
  predicate NeedsHex(c: char) {
    || (c < ' ' && c != '\t' && c != '\n' && c != '\r')
    || ('\U{7F}' <= c <= '\U{A0}')
    || c == '\U{AD}'
  }

  /** How `repr` writes one character inside quotes `q`. */
  function EscapeChar(c: char, q: char): string {
    if c == q || c == '\\' then ['\\', c]
    else if c == '\t' then "\\t"
    else if c == '\n' then "\\n"
    else if c == '\r' then "\\r"
    else if NeedsHex(c) then ['\\', 'x', HexDigit(c as int / 16), HexDigit(c as int % 16)]
    else [c]
  }

  function Escaped(s: string, q: char): string {
    if s == [] then "" else EscapeChar(s[0], q) + Escaped(s[1..], q)
  }

  /** `repr(s)` for a string: the quote, the escaped characters, the quote. */
  function StrRepr(s: string): string {
    [Quote(s)] + Escaped(s, Quote(s)) + [Quote(s)]
  }

  /** The value of a lower-case hexadecimal digit. */
  function HexValue(c: char): (r: Option<nat>)
    ensures r.Some? ==> r.value < 16
  {
    if '0' <= c <= '9' then Some(c as int - '0' as int)
    else if 'a' <= c <= 'f' then Some(c as int - 'a' as int + 10)
    else None
  }

  /** Reading back the escapes `repr` writes: `\\`, `\'`, `\"`, `\t`, `\n`,
      `\r` and `\xhh`. Python's string literals have more escapes; this is
      the part `repr` emits. */
  function Unescape(t: string): Option<string>
    decreases |t|
  {
    if t == [] then Some("")
    else if t[0] != '\\' then Prepend(t[0], Unescape(t[1..]))
    else if |t| < 2 then None
    else if t[1] == '\\' || t[1] == '\'' || t[1] == '"' then Prepend(t[1], Unescape(t[2..]))
    else if t[1] == 't' then Prepend('\t', Unescape(t[2..]))
    else if t[1] == 'n' then Prepend('\n', Unescape(t[2..]))
    else if t[1] == 'r' then Prepend('\r', Unescape(t[2..]))
    else if t[1] == 'x' && |t| >= 4 && HexValue(t[2]).Some? && HexValue(t[3]).Some? then
      Prepend((HexValue(t[2]).value * 16 + HexValue(t[3]).value) as char, Unescape(t[4..]))
    else None
  }

  function Prepend(c: char, o: Option<string>): Option<string> {
    if o.Some? then Some([c] + o.value) else None
  }

  function JoinWith(sep: string, parts: seq<string>): string {
    if parts == [] then "" else if |parts| == 1 then parts[0] else parts[0] + sep + JoinWith(sep, parts[1..])
  }

  /** `repr(v)`. */
  function Repr(v: Value): string {
    match v
    case Str(s) => StrRepr(s)
    case List(items) => "[" + JoinWith(", ", seq(|items|, i requires 0 <= i < |items| => Repr(items[i]))) + "]"
    case Dict(entries) =>
      "{" + JoinWith(", ", seq(|entries|, i requires 0 <= i < |entries| => StrRepr(entries[i].0) + ": " + Repr(entries[i].1))) + "}"
    case _ => ScalarStr(v)
  }

  /** `str(v)` for `None`, a bool or an int. */
  function ScalarStr(v: Value): string {
    match v
    case Null => "None"
    case Bool(b) => if b then "True" else "False"
    case Int(i) => IntToDecimal(i)
    case _ => ""
  }

  /** `str(v)`, also what an f-string substitutes for `{v}`. */
  function PyStr(v: Value): string {
    match v
    case Str(s) => s
    case List(_) => Repr(v)
    case Dict(_) => Repr(v)
    case _ => ScalarStr(v)
  }

  /** Digits with single underscores between them, as `int()` accepts. */
  predicate IsDigitGroup(s: string) {
    && s != []
    && IsDigit(s[0]) && IsDigit(s[|s| - 1])
    && (forall i :: 0 <= i < |s| ==> IsDigit(s[i]) || s[i] == '_')
    && (forall i :: 0 <= i < |s| - 1 ==> !(s[i] == '_' && s[i + 1] == '_'))
  }

  function DropUnderscores(s: string): (r: string)
    requires forall i :: 0 <= i < |s| ==> IsDigit(s[i]) || s[i] == '_'
    ensures forall i :: 0 <= i < |r| ==> IsDigit(r[i])
  {
    if s == [] then [] else (if s[0] == '_' then [] else [s[0]]) + DropUnderscores(s[1..])
  }

  /** `int(s)` for a string: surrounding white space, an optional sign,
      then decimal digits, optionally grouped by single underscores. */
  function ParseIntStr(s: string): Result<int> {
    ParseSigned(Strip(s))
  }

  function ParseSigned(t: string): Result<int> {
    if t != [] && t[0] == '-' then
      match ParseUnsigned(t[1..])
      case Ok(n) => Ok(-n)
      case Raise(e) => Raise(e)
    else if t != [] && t[0] == '+' then ParseUnsigned(t[1..])
    else ParseUnsigned(t)
  }

  function ParseUnsigned(body: string): Result<int> {
    if IsDigitGroup(body) then Ok(DigitsValue(DropUnderscores(body))) else Raise(ValueError)
  }

  /** `int(v)`. */
  function PyInt(v: Value): Result<int> {
    match v
    case Int(i) => Ok(i)
    case Bool(b) => Ok(if b then 1 else 0)
    case Str(s) => ParseIntStr(s)
    case _ => Raise(TypeError)
  }

  lemma {:induction false} DecimalValue(n: nat)
    ensures DigitsValue(NatToDecimal(n)) == n
  {
    if n >= 10 {
      DecimalValue(n / 10);
      var r := NatToDecimal(n);
      assert r[..|r| - 1] == NatToDecimal(n / 10);
    }
  }

  lemma {:induction false} NoUnderscores(s: string)
    requires forall i :: 0 <= i < |s| ==> IsDigit(s[i])
    ensures DropUnderscores(s) == s
  {
    if s != [] {
      NoUnderscores(s[1..]);
    }
  }

  lemma StripDigits(s: string)
    requires s != [] && !IsSpace(s[0]) && !IsSpace(s[|s| - 1])
    ensures Strip(s) == s
  {
    assert LeadingSpace(s) == 0;
    assert TrailingSpace(s) == 0;
  }

  lemma ParseDigits(d: string)
    requires d != [] && forall i :: 0 <= i < |d| ==> IsDigit(d[i])
    ensures ParseUnsigned(d) == Ok(DigitsValue(d))
  {
    NoUnderscores(d);
    assert IsDigitGroup(d);
  }

  lemma ParseOfDecimal(m: nat)
    ensures ParseIntStr(NatToDecimal(m)) == Ok(m)
  {
    var d := NatToDecimal(m);
    StripDigits(d);
    UnsignedDecimal(d, m);
  }

  lemma UnsignedDecimal(d: string, m: nat)
    requires d == NatToDecimal(m)
    ensures ParseSigned(d) == Ok(m)
  {
    DecimalValue(m);
    ParseDigits(d);
    assert d[0] != '-' && d[0] != '+';
  }

  lemma ParseOfNegativeDecimal(n: int)
    requires n < 0
    ensures ParseIntStr(IntToDecimal(n)) == Ok(n)
  {
    var d := NatToDecimal(-n);
    var s := "-" + d;
    assert s == IntToDecimal(n);
    assert s[0] == '-' && s[1..] == d && s[|s| - 1] == d[|d| - 1];
    StripDigits(s);
    NegativeSign(d, -n);
  }

  lemma NegativeSign(d: string, m: nat)
    requires d == NatToDecimal(m)
    ensures ParseSigned("-" + d) == Ok(-(m as int))
  {
    DecimalValue(m);
    ParseDigits(d);
    assert ("-" + d)[1..] == d;
  }

  /** `int(str(n)) == n`: a track number stored as its decimal string is read
      back as the same number. */
  lemma IntOfStrRoundTrip(n: int)
    ensures PyInt(Str(IntToDecimal(n))) == Ok(n)
  {
    if n < 0 {
      ParseOfNegativeDecimal(n);
    } else {
      ParseOfDecimal(n);
    }
  }

  lemma HexRoundTrip(n: nat)
    requires n < 256
    ensures HexValue(HexDigit(n / 16)) == Some(n / 16) && HexValue(HexDigit(n % 16)) == Some(n % 16)
  {
  }

  /** One escaped character reads back as itself. */
  lemma UnescapeChar(c: char, q: char, rest: string)
    requires q == '\'' || q == '"'
    ensures Unescape(EscapeChar(c, q) + rest) == Prepend(c, Unescape(rest))
  {
    var e := EscapeChar(c, q);
    assert (e + rest)[0] == e[0];
    if |e| == 2 {
      assert (e + rest)[1] == e[1] && (e + rest)[2..] == rest;
    } else if |e| == 4 {
      HexRoundTrip(c as int);
      assert (e + rest)[1] == 'x' && (e + rest)[2] == e[2] && (e + rest)[3] == e[3] && (e + rest)[4..] == rest;
    } else {
      assert (e + rest)[1..] == rest;
    }
  }

  lemma {:induction false} UnescapeEscaped(s: string, q: char)
    requires q == '\'' || q == '"'
    ensures Unescape(Escaped(s, q)) == Some(s)
  {
    if s != [] {
      UnescapeEscaped(s[1..], q);
      UnescapeChar(s[0], q, Escaped(s[1..], q));
      assert [s[0]] + s[1..] == s;
    }
  }

  /** No character of an escaped string is a raw control character or a
      bare quote of the kind that delimits it. */
  lemma {:induction false} EscapedIsPrintable(s: string, q: char, i: int)
    requires q == '\'' || q == '"'
    requires 0 <= i < |Escaped(s, q)|
    ensures var c := Escaped(s, q)[i];
      c != '\n' && c != '\r' && c != '\t' && !NeedsHex(c)
    ensures Escaped(s, q)[i] == q ==> 0 < i && Escaped(s, q)[i - 1] == '\\'
  {
    var e := EscapeChar(s[0], q);
    if i >= |e| {
      EscapedIsPrintable(s[1..], q, i - |e|);
      assert Escaped(s, q)[i] == Escaped(s[1..], q)[i - |e|];
      if Escaped(s, q)[i] == q {
        if i - |e| > 0 {
          assert Escaped(s, q)[i - 1] == Escaped(s[1..], q)[i - |e| - 1];
        } else {
          assert false;
        }
      }
    } else {
      assert Escaped(s, q)[i] == e[i];
      if i > 0 {
        assert Escaped(s, q)[i - 1] == e[i - 1];
      }
    }
  }

  /** `repr` of a string is its delimiting quote around an escaped body that
      reads back as the string. */
  lemma StrReprRoundTrip(s: string)
    ensures var r := StrRepr(s);
      && |r| >= 2 && r[0] == Quote(s) && r[|r| - 1] == Quote(s)
      && Unescape(r[1..|r| - 1]) == Some(s)
  {
    var r := StrRepr(s);
    assert r[1..|r| - 1] == Escaped(s, Quote(s));
    UnescapeEscaped(s, Quote(s));
  }

  /** Three strings as Python's `repr` writes them. */
  lemma ReprExamples()
    ensures StrRepr("a'b\"c") == "'a\\'b\"c'"
    ensures StrRepr("x\\y") == "'x\\\\y'"
    ensures PyStr(List([Str("a\nb")])) == "['a\\nb']"
  {
    ReprQuoteExample();
    ReprBackslashExample();
    ReprNewlineExample();
  }

  lemma ReprQuoteExample()
    ensures StrRepr("a'b\"c") == "'a\\'b\"c'"
  {
    assert Escaped("c", '\'') == "c";
    assert Escaped("\"c", '\'') == "\"c";
    assert Escaped("b\"c", '\'') == "b\"c";
    assert Escaped("'b\"c", '\'') == "\\'b\"c";
  }

  lemma ReprBackslashExample()
    ensures StrRepr("x\\y") == "'x\\\\y'"
  {
    assert Escaped("y", '\'') == "y";
    assert Escaped("\\y", '\'') == "\\\\y";
  }

  lemma ReprNewlineExample()
    ensures PyStr(List([Str("a\nb")])) == "['a\\nb']"
  {
    assert Escaped("b", '\'') == "b";
    assert Escaped("\nb", '\'') == "\\nb";
    assert Quote("a\nb") == '\'';
    assert Escaped("a\nb", '\'') == "a\\nb";
    assert Repr(Str("a\nb")) == "'a\\nb'";
    var items := [Str("a\nb")];
    assert seq(|items|, i requires 0 <= i < |items| => Repr(items[i])) == ["'a\\nb'"];
  }

  lemma {:induction false} ReprNoneIsNone()
    ensures PyStr(Null) == "None" && PyStr(Int(-12)) == "-12"
  {
    assert NatToDecimal(12) == NatToDecimal(1) + [DigitChar(2)];
  }
}
