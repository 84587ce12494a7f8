/**
 * Python's `str()` of a decoded JSON value, which the handler applies to the
 * method name before dispatching and to offers and answers before storing
 * them. A string is its own text; every other value is rendered the way
 * `repr` renders it: None, True, False, decimal integers, and lists and dicts
 * with their elements and keys in repr form.
 */
module PyText {
  import opened Values

  predicate IsDigit(c: char) {
    '0' <= c <= '9'
  }

  function DigitChar(d: int): (c: char)
    requires 0 <= d < 10
    ensures IsDigit(c) && c as int - '0' as int == d
  {
    ('0' as int + d) as char
  }

  /** The number a string of decimal digits denotes. */
  function DecimalValue(s: string): nat
    requires forall i :: 0 <= i < |s| ==> IsDigit(s[i])
  {
    if s == [] then 0
    else
      assert IsDigit(s[|s| - 1]);
      DecimalValue(s[..|s| - 1]) * 10 + (s[|s| - 1] as int - '0' as int)
  }

  /** `str(n)` for a non-negative integer: its decimal digits, without leading zeros. */
  function NatToString(n: nat): (r: string)
    ensures |r| > 0 && forall i :: 0 <= i < |r| ==> IsDigit(r[i])
    ensures r[0] == '0' ==> n == 0
    decreases n
  {
    if n < 10 then [DigitChar(n)] else NatToString(n / 10) + [DigitChar(n % 10)]
  }

  /** The decimal rendering of `n` denotes `n`. */
  lemma {:induction false} NatToStringDenotes(n: nat)
    ensures DecimalValue(NatToString(n)) == n
  {
    if n >= 10 {
      var s := NatToString(n);
      assert s[..|s| - 1] == NatToString(n / 10);
      NatToStringDenotes(n / 10);
    }
  }

  /** `str(i)` for an integer: a minus sign exactly for negative numbers, then the digits. */
  function IntToString(i: int): (r: string)
    ensures |r| > 0 && (r[0] == '-' <==> i < 0)
    ensures i < 0 ==> |r| > 1 && (forall k :: 1 <= k < |r| ==> IsDigit(r[k])) && DecimalValue(r[1..]) == -i
    ensures i >= 0 ==> (forall k :: 0 <= k < |r| ==> IsDigit(r[k])) && DecimalValue(r) == i
  {
    if i < 0 then
      NatToStringDenotes(-i);
      "-" + NatToString(-i)
    else
      NatToStringDenotes(i);
      NatToString(i)
  }

  /** The lower-case hexadecimal digit for `d`. */
  function HexDigit(d: int): char
    requires 0 <= d < 16
  {
    if d < 10 then DigitChar(d) else ('a' as int + d - 10) as char
  }

  /** The value of a lower-case hexadecimal digit, -1 for any other character. */
  function HexValue(c: char): int {
    if '0' <= c <= '9' then c as int - '0' as int
    else if 'a' <= c <= 'f' then c as int - 'a' as int + 10
    else -1
  }

  /**
   * The quote repr puts around a string: a double quote when the string holds
   * a single quote and no double quote, a single quote otherwise.
   */
  function QuoteFor(s: string): (q: char)
    ensures q == '"' <==> '\'' in s && '"' !in s
    ensures q == '\'' || q == '"'
  {
    if '\'' in s && '"' !in s then '"' else '\''
  }

  /**
   * Whether repr writes `c` as a `\xhh` escape: the control characters, DEL,
   * the C1 controls, the no-break space and the soft hyphen.
   */
  predicate HexEscaped(c: char) {
    c as int < 0x20 || 0x7f <= c as int <= 0xa0 || c as int == 0xad
  }

  /** How repr writes one character of a string quoted with `q`. */
  function EscapeChar(c: char, q: char): (r: string)
    ensures |r| > 0
  {
    if c == '\\' || c == q then ['\\', c]
    else if c == '\t' then "\\t"
    else if c == '\n' then "\\n"
    else if c == '\r' then "\\r"
    else if HexEscaped(c) then ['\\', 'x', HexDigit(c as int / 16), HexDigit(c as int % 16)]
    else [c]
  }

  function Escaped(s: string, q: char): string {
    if s == [] then [] else EscapeChar(s[0], q) + Escaped(s[1..], q)
  }

  /** `repr(s)` for a string, with the escapes Python uses below U+0100. */
  function ReprString(s: string): (r: string)
    ensures |r| >= 2 && r[0] == r[|r| - 1] && (r[0] == '\'' || r[0] == '"')
    ensures r[0] == QuoteFor(s)
  {
    var q := QuoteFor(s);
    [q] + Escaped(s, q) + [q]
  }

  /**
   * Reads the body of a string literal written with escapes as EscapeChar
   * writes them, stopping at the first unescaped `q`; what is left after the
   * closing quote is returned in `rest`.
   */
  function Unescape(t: string, q: char): (r: (string, string))
    ensures |r.1| <= |t|
    decreases |t|
  {
    if t == [] then ([], [])
    else if t[0] == q then ([], t[1..])
    else if t[0] == '\\' && |t| >= 2 then
      if t[1] == 't' then Prepend('\t', Unescape(t[2..], q))
      else if t[1] == 'n' then Prepend('\n', Unescape(t[2..], q))
      else if t[1] == 'r' then Prepend('\r', Unescape(t[2..], q))
      else if t[1] == 'x' && |t| >= 4 && HexValue(t[2]) >= 0 && HexValue(t[3]) >= 0 then
        Prepend((HexValue(t[2]) * 16 + HexValue(t[3])) as char, Unescape(t[4..], q))
      else Prepend(t[1], Unescape(t[2..], q))
    else Prepend(t[0], Unescape(t[1..], q))
  }

  function Prepend(c: char, p: (string, string)): (string, string) {
    ([c] + p.0, p.1)
  }

  /** One escaped character reads back as that character. */
  lemma UnescapeChar(c: char, q: char, rest: string)
    requires q == '\'' || q == '"'
    ensures Unescape(EscapeChar(c, q) + rest, q) == Prepend(c, Unescape(rest, q))
  {
  }

  /** Reading back an escaped string up to its closing quote gives the string. */
  lemma {:induction false} UnescapeEscaped(s: string, q: char, rest: string)
    requires q == '\'' || q == '"'
    ensures Unescape(Escaped(s, q) + [q] + rest, q) == (s, rest)
    decreases |s|
  {
    if s == [] {
      assert Escaped(s, q) + [q] + rest == [q] + rest;
    } else {
      var tail := Escaped(s[1..], q) + [q] + rest;
      assert Escaped(s, q) + [q] + rest == EscapeChar(s[0], q) + tail;
      UnescapeChar(s[0], q, tail);
      UnescapeEscaped(s[1..], q, rest);
      assert [s[0]] + s[1..] == s;
    }
  }

  /** `repr(s)` reads back as `s`: the rendering of a string loses nothing. */
  lemma ReprStringReadsBack(s: string)
    ensures Unescape(ReprString(s)[1..], ReprString(s)[0]) == (s, [])
  {
    var q := QuoteFor(s);
    assert ReprString(s)[1..] == Escaped(s, q) + [q] + [];
    UnescapeEscaped(s, q, []);
  }

  /** `repr(v)`: its first character is never a lower-case letter. */
  function Repr(v: Value): (r: string)
    ensures |r| > 0 && !('a' <= r[0] <= 'z')
    decreases v, 1
  {
    match v
    case Null => "None"
    case Bool(b) => if b then "True" else "False"
    case Int(i) => IntToString(i)
    case Str(s) => ReprString(s)
    case List(items) => "[" + ReprItems(items) + "]"
    case Dict(entries) => "{" + ReprEntries(entries) + "}"
  }

  /** The elements of a list in repr form, separated by ", ". */
  function ReprItems(items: seq<Value>): string
    decreases items, 0
  {
    if items == [] then ""
    else if |items| == 1 then Repr(items[0])
    else Repr(items[0]) + ", " + ReprItems(items[1..])
  }

  /** The entries of a dict, each as `repr(key): repr(value)`, separated by ", ". */
  function ReprEntries(entries: Fields): string
    decreases entries, 0
  {
    if entries == [] then ""
    else
      var (key, value) := entries[0];
      assert value < entries[0];
      var entry := ReprString(key) + ": " + Repr(value);
      if |entries| == 1 then entry else entry + ", " + ReprEntries(entries[1..])
  }

  /**
   * `str(v)`: the text of a string, the repr of anything else. Only a string
   * can render as text that begins with a lower-case letter.
   */
  function PyStr(v: Value): (r: string)
    ensures |r| > 0 && 'a' <= r[0] <= 'z' ==> v.Str?
    ensures v.Str? ==> r == v.s
  {
    if v.Str? then v.s else Repr(v)
  }
}
