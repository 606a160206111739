/** Shared vocabulary: optional values, error results, the string operations the
    game's Python code relies on (str(int), str.lower, the `in` substring test,
    truthiness of strings) and the values that appear in the `to_dict` dictionaries. */
module Common {

  datatype Option<+T> = None | Some(value: T)

  /** A Python call that either returns a value or raises; `error` is the message. */
  datatype Result<+T> = Ok(value: T) | Err(error: string)

  /** A value stored in one of the dictionaries the models build with `to_dict`. */
  datatype FieldValue = IntValue(i: int) | StrValue(s: string) | BoolValue(b: bool) | NoneValue

  function OptIntValue(o: Option<int>): FieldValue {
    match o
    case None => NoneValue
    case Some(i) => IntValue(i)
  }

  function OptStrValue(o: Option<string>): FieldValue {
    match o
    case None => NoneValue
    case Some(s) => StrValue(s)
  }

  /** Python truthiness of an optional string: None and "" are false. */
  predicate Truthy(o: Option<string>) {
    o.Some? && o.value != ""
  }

  /** How an f-string renders an optional string: None prints as "None". */
  function ShowOpt(o: Option<string>): string {
    match o
    case None => "None"
    case Some(s) => s
  }

  // ---------------------------------------------------------------------------
  // str(int)

  function DigitChar(d: nat): (c: char)
    requires d < 10
    ensures '0' <= c <= '9'
  {
    "0123456789"[d]
  }

  function DigitValue(c: char): nat
    requires '0' <= c <= '9'
  {
    c as int - '0' as int
  }

  predicate IsDigits(s: string) {
    forall i :: 0 <= i < |s| ==> '0' <= s[i] <= '9'
  }

  /** Decimal rendering of a natural number, as Python's str prints it. */
  function NatToString(n: nat): (s: string)
    ensures |s| >= 1 && IsDigits(s)
    decreases n
  {
    if n < 10 then [DigitChar(n)] else NatToString(n / 10) + [DigitChar(n % 10)]
  }

  /** Decimal rendering of an integer, with a leading '-' for negatives. */
  function IntToString(i: int): string {
    if i < 0 then "-" + NatToString(-i) else NatToString(i)
  }

  /** The value of a string of decimal digits: the inverse of NatToString. */
  function ParseDigits(s: string): nat
    requires IsDigits(s)
    decreases |s|
  {
    if |s| == 0 then 0 else 10 * ParseDigits(s[..|s| - 1]) + DigitValue(s[|s| - 1])
  }

  lemma {:induction false} ParseNatToString(n: nat)
    ensures ParseDigits(NatToString(n)) == n
    decreases n
  {
    if n >= 10 {
      var s := NatToString(n);
      assert s[..|s| - 1] == NatToString(n / 10);
      ParseNatToString(n / 10);
    }
  }

  /** Distinct numbers print differently. */
  lemma NatToStringInjective(a: nat, b: nat)
    requires NatToString(a) == NatToString(b)
    ensures a == b
  {
    ParseNatToString(a);
    ParseNatToString(b);
  }

  // ---------------------------------------------------------------------------
  // str.lower (ASCII and Latin-1 upper-case letters)

  function LowerChar(c: char): char {
    if 'A' <= c <= 'Z' || ('À' <= c <= 'Þ' && c != '×') then (c as int + 32) as char else c
  }

  function Lower(s: string): (r: string)
    ensures |r| == |s|
    ensures forall i :: 0 <= i < |s| ==> r[i] == LowerChar(s[i])
  {
    seq(|s|, i requires 0 <= i < |s| => LowerChar(s[i]))
  }

  /** `a.lower() == b.lower()` */
  predicate EqualsIgnoreCase(a: string, b: string) {
    Lower(a) == Lower(b)
  }

  // ---------------------------------------------------------------------------
  // the `in` operator on strings

  /** `needle in hay`: needle occurs as a contiguous block of hay. */
  predicate Contains(hay: string, needle: string)
    decreases |hay|
  {
    needle <= hay || (|hay| > 0 && Contains(hay[1..], needle))
  }

  lemma {:induction false} ContainsAt(hay: string, needle: string, i: nat)
    requires i + |needle| <= |hay| && hay[i..i + |needle|] == needle
    ensures Contains(hay, needle)
    decreases i
  {
    if i > 0 {
      assert hay[1..][i - 1..i - 1 + |needle|] == needle;
      ContainsAt(hay[1..], needle, i - 1);
    }
  }

  /** `hay.endswith(suffix)` */
  predicate EndsWith(hay: string, suffix: string) {
    |suffix| <= |hay| && hay[|hay| - |suffix|..] == suffix
  }

  // ---------------------------------------------------------------------------
  // repr(str)

  /** A lower-case hexadecimal digit. */
  function HexDigit(d: nat): (c: char)
    requires d < 16
  {
    if d < 10 then ('0' as int + d) as char else ('a' as int + d - 10) as char
  }

  /** The value of a lower-case hexadecimal digit; 16 for any other character. */
  function HexValue(c: char): nat {
    if '0' <= c <= '9' then c as int - '0' as int
    else if 'a' <= c <= 'f' then c as int - 'a' as int + 10
    else 16
  }

  /** The characters of U+0000..U+00FF that str.isprintable() rejects:
      the C0 controls, DEL, the C1 controls, the no-break space and the soft hyphen. */
  predicate NonPrintable(c: char) {
    c as int < 0x20 || (0x7f <= c as int <= 0xa0) || c as int == 0xad
  }

  /** The quote repr puts around s: double quotes exactly when s holds a
      single quote and no double quote. */
  function ReprQuote(s: string): char {
    if '\'' in s && '"' !in s then '"' else '\''
  }

  /** How repr writes one character inside a literal quoted with q. */
  function ReprChar(c: char, q: char): (r: string)
    ensures |r| >= 1
  {
    if c == '\\' then "\\\\"
    else if c == q then ['\\', q]
    else if c == '\t' then "\\t"
    else if c == '\n' then "\\n"
    else if c == '\r' then "\\r"
    else if NonPrintable(c) then "\\x" + [HexDigit(c as int / 16), HexDigit(c as int % 16)]
    else [c]
  }

  function ReprBody(s: string, q: char): string
    decreases |s|
  {
    if |s| == 0 then "" else ReprChar(s[0], q) + ReprBody(s[1..], q)
  }

  /** `repr(s)`, the form `%r` prints. */
  function PyRepr(s: string): string {
    [ReprQuote(s)] + ReprBody(s, ReprQuote(s)) + [ReprQuote(s)]
  }

  /** Reads one character of a literal body: the character, and how many characters it took. */
  function UnescapeHead(t: string): (r: Option<(char, nat)>)
    requires |t| >= 1
    ensures r.Some? ==> 1 <= r.value.1 <= |t|
  {
    if t[0] != '\\' then Some((t[0], 1))
    else if |t| < 2 then None
    else if t[1] == '\\' || t[1] == '\'' || t[1] == '"' then Some((t[1], 2))
    else if t[1] == 't' then Some(('\t', 2))
    else if t[1] == 'n' then Some(('\n', 2))
    else if t[1] == 'r' then Some(('\r', 2))
    else if t[1] == 'x' && |t| >= 4 && HexValue(t[2]) < 16 && HexValue(t[3]) < 16 then
      Some(((16 * HexValue(t[2]) + HexValue(t[3])) as char, 4))
    else None
  }

  /** Reads back the string a literal body stands for, or None when it is not a literal body. */
  function Unescape(t: string): Option<string>
    decreases |t|
  {
    if |t| == 0 then Some("")
    else
      match UnescapeHead(t)
      case None => None
      case Some((c, n)) =>
        match Unescape(t[n..])
        case None => None
        case Some(rest) => Some([c] + rest)
  }

  lemma HexRoundTrip(d: nat)
    requires d < 16
    ensures HexValue(HexDigit(d)) == d
  {
  }

  /** Each written character is read back as itself, taking exactly what was written. */
  lemma UnescapeChar(c: char, q: char, t: string)
    requires q == '\'' || q == '"'
    ensures UnescapeHead(ReprChar(c, q) + t) == Some((c, |ReprChar(c, q)|))
  {
    if c != '\\' && c != q && c != '\t' && c != '\n' && c != '\r' && NonPrintable(c) {
      var hi, lo := c as int / 16, c as int % 16;
      HexRoundTrip(hi);
      HexRoundTrip(lo);
      var w := ReprChar(c, q) + t;
      assert w[0] == '\\' && w[1] == 'x' && w[2] == HexDigit(hi) && w[3] == HexDigit(lo);
      assert (16 * hi + lo) as char == c;
    }
  }

  /** Reading back what repr wrote inside the quotes gives the string. */
  lemma {:induction false} UnescapeReprBody(s: string, q: char)
    requires q == '\'' || q == '"'
    ensures Unescape(ReprBody(s, q)) == Some(s)
    decreases |s|
  {
    if |s| > 0 {
      var w, t := ReprChar(s[0], q), ReprBody(s[1..], q);
      UnescapeChar(s[0], q, t);
      UnescapeReprBody(s[1..], q);
      assert (w + t)[|w|..] == t;
      assert s == [s[0]] + s[1..];
    }
  }

  /** Distinct strings have distinct reprs, so a message quoting a string names it. */
  lemma ReprInjective(a: string, b: string)
    requires PyRepr(a) == PyRepr(b)
    ensures a == b
  {
    var w := PyRepr(a);
    assert ReprBody(a, ReprQuote(a)) == w[1..|w| - 1];
    assert ReprBody(b, ReprQuote(b)) == w[1..|w| - 1];
    UnescapeReprBody(a, ReprQuote(a));
    UnescapeReprBody(b, ReprQuote(b));
  }

  /** A character repr writes as itself between single quotes. */
  predicate PlainChar(c: char) {
    c != '\'' && c != '\\' && !NonPrintable(c)
  }

  lemma {:induction false} PlainReprBody(s: string)
    requires forall i :: 0 <= i < |s| ==> PlainChar(s[i])
    ensures ReprBody(s, '\'') == s
    decreases |s|
  {
    if |s| > 0 {
      PlainReprBody(s[1..]);
      assert s == [s[0]] + s[1..];
    }
  }

  /** A string of plain characters is written between single quotes as it is. */
  lemma PlainRepr(s: string)
    requires forall i :: 0 <= i < |s| ==> PlainChar(s[i])
    ensures PyRepr(s) == "'" + s + "'"
  {
    PlainReprBody(s);
  }

  /** A single quote switches to double quotes; a backslash is doubled. */
  lemma ReprExamples()
    ensures PyRepr("d'a") == "\"d'a\""
    ensures PyRepr("a\\b") == "'a\\\\b'"
    ensures PyRepr("dia") == "'dia'"
  {
    assert "d'a"[1] == '\'';
    assert forall i :: 0 <= i < 3 ==> "d'a"[i] != '"';
    assert forall i :: 0 <= i < 3 ==> "a\\b"[i] != '\'';
    assert forall i :: 0 <= i < 3 ==> "dia"[i] != '\'';
  }
}
