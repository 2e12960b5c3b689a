/**
 * The pieces of Rust's `str` and formatting behaviour that the server, the
 * service parser and the probe rely on: `lines()`, `split_whitespace()`,
 * `find`/`rfind` of a character, ASCII lowercasing, the decimal rendering of a
 * `usize`, and `String::len`, which counts UTF-8 bytes.
 */
module Text {
  import opened Wrappers

  /** Rust's `char::is_whitespace`: the Unicode White_Space property. */
  predicate IsWhitespace(c: char) {
    c == ' ' || ('\t' <= c <= '\r') || c == '\U{85}' || c == '\U{A0}' || c == '\U{1680}'
    || ('\U{2000}' <= c <= '\U{200A}') || c == '\U{2028}' || c == '\U{2029}'
    || c == '\U{202F}' || c == '\U{205F}' || c == '\U{3000}'
  }

  /** A token of `split_whitespace`: non-empty and free of whitespace. */
  predicate IsWord(w: string) {
    |w| > 0 && forall i :: 0 <= i < |w| ==> !IsWhitespace(w[i])
  }

  predicate AllWhitespace(s: string) {
    forall i :: 0 <= i < |s| ==> IsWhitespace(s[i])
  }

  /** Index of the first occurrence of `c` in `s`. */
  function Find(s: string, c: char): (r: Option<nat>)
    ensures r.None? <==> c !in s
    ensures r.Some? ==> r.value < |s| && s[r.value] == c && c !in s[..r.value]
  {
    if s == [] then None
    else if s[0] == c then Some(0)
    else
      match Find(s[1..], c)
      case None => None
      case Some(i) => assert s[1..][..i] == s[1..i + 1]; Some(i + 1)
  }

  /** Find returns the position of the first occurrence. */
  lemma FindAt(s: string, c: char, k: nat)
    requires k < |s| && s[k] == c && c !in s[..k]
    ensures Find(s, c) == Some(k)
  {
    var i := Find(s, c).value;
    assert forall j :: 0 <= j < i ==> s[..i][j] == s[j];
    assert forall j :: 0 <= j < k ==> s[..k][j] == s[j];
  }

  /** Index of the last occurrence of `c` in `s` (Rust's `rfind`). */
  function RFind(s: string, c: char): (r: Option<nat>)
    ensures r.None? <==> c !in s
    ensures r.Some? ==> r.value < |s| && s[r.value] == c && c !in s[r.value + 1..]
  {
    if s == [] then None
    else if s[|s| - 1] == c then Some(|s| - 1)
    else
      var r := RFind(s[..|s| - 1], c);
      assert r.Some? ==> s[r.value + 1..] == s[..|s| - 1][r.value + 1..] + [s[|s| - 1]];
      assert s == s[..|s| - 1] + [s[|s| - 1]];
      r
  }

  /**
   * The first item of `s.lines()`, or "" when there is none: the text up to
   * the first line feed, without a carriage return that immediately precedes
   * that line feed. A trailing carriage return with no line feed after it is
   * kept, as Rust keeps it.
   */
  function FirstLine(s: string): (line: string)
    ensures '\n' !in line
    ensures line <= s
    ensures '\n' !in s ==> line == s
    ensures '\n' in s ==> s[|line|] == '\n' || (s[|line|] == '\r' && s[|line| + 1] == '\n')
  {
    match Find(s, '\n')
    case None => s
    case Some(i) => if i > 0 && s[i - 1] == '\r' then s[..i - 1] else s[..i]
  }

  /** FirstLine returns exactly the line in front of a CRLF or LF terminator. */
  lemma FirstLineOf(line: string, terminator: string, rest: string)
    requires '\n' !in line
    requires terminator == "\r\n" || (terminator == "\n" && (line == [] || line[|line| - 1] != '\r'))
    ensures FirstLine(line + terminator + rest) == line
  {
    var s := line + terminator + rest;
    var k := if terminator == "\n" then |line| else |line| + 1;
    assert s[k] == '\n';
    assert s[..k] == line + terminator[..k - |line|];
    assert forall j :: 0 <= j < k ==> s[..k][j] == s[j] && s[j] != '\n';
    FindAt(s, '\n', k);
  }

  /** Length of the run of non-whitespace characters at the start of `s`. */
  function WordLength(s: string): (n: nat)
    ensures n <= |s|
    ensures forall i :: 0 <= i < n ==> !IsWhitespace(s[i])
    ensures n < |s| ==> IsWhitespace(s[n])
  {
    if s == [] || IsWhitespace(s[0]) then 0 else 1 + WordLength(s[1..])
  }

  /**
   * `s.split_whitespace()` collected: the maximal runs of non-whitespace
   * characters, in order. Every token is a word, and there are none exactly
   * when the text is blank.
   */
  function Tokens(s: string): (words: seq<string>)
    ensures forall k :: 0 <= k < |words| ==> IsWord(words[k])
    ensures words == [] <==> AllWhitespace(s)
    decreases |s|
  {
    if s == [] then []
    else if IsWhitespace(s[0]) then
      var words := Tokens(s[1..]);
      assert AllWhitespace(s[1..]) ==> AllWhitespace(s) by {
        if AllWhitespace(s[1..]) {
          forall i | 0 <= i < |s| ensures IsWhitespace(s[i]) {
            if i > 0 { assert s[i] == s[1..][i - 1]; }
          }
        }
      }
      words
    else
      var n := WordLength(s);
      [s[..n]] + Tokens(s[n..])
  }

  /** A word followed by whitespace or the end of the text is one token. */
  lemma {:induction false} TokensWord(w: string, rest: string)
    requires IsWord(w)
    requires rest == [] || IsWhitespace(rest[0])
    ensures Tokens(w + rest) == [w] + Tokens(rest)
  {
    var s := w + rest;
    var n := WordLength(s);
    assert forall i :: 0 <= i < |w| ==> s[i] == w[i];
    assert rest != [] ==> s[|w|] == rest[0];
    assert s[..n] == w && s[n..] == rest;
  }

  /** Two words written together form one word. */
  lemma JoinedWord(a: string, b: string)
    requires IsWord(a) && IsWord(b)
    ensures IsWord(a + b)
  {
    assert forall i :: |a| <= i < |a + b| ==> (a + b)[i] == b[i - |a|];
  }

  /** Leading whitespace contributes no token. */
  lemma {:induction false} TokensSkip(c: char, rest: string)
    requires IsWhitespace(c)
    ensures Tokens([c] + rest) == Tokens(rest)
  {
    assert ([c] + rest)[1..] == rest;
  }

  /** The tokens of a three-part request line separated by single spaces. */
  lemma {:induction false} TokensOfThree(a: string, b: string, c: string)
    requires IsWord(a) && IsWord(b) && IsWord(c)
    ensures Tokens(a + " " + b + " " + c) == [a, b, c]
  {
    var tail := [' '] + c;
    var middle := b + tail;
    var line := a + ([' '] + middle);
    assert line == a + " " + b + " " + c;
    TokensWord(c, []);
    assert c + [] == c;
    TokensSkip(' ', c);
    TokensWord(b, tail);
    TokensSkip(' ', middle);
    TokensWord(a, [' '] + middle);
  }

  /** ASCII lowercasing of one character; every other character is kept. */
  function LowerChar(c: char): char {
    if 'A' <= c <= 'Z' then (c as int + 32) as char else c
  }

  /** `to_lowercase`, restricted to the ASCII letters. */
  function ToLowerAscii(s: string): (r: string)
    ensures |r| == |s|
    ensures forall i :: 0 <= i < |s| ==> !('A' <= r[i] <= 'Z')
    ensures forall i :: 0 <= i < |s| ==>
              r[i] == s[i] || ('A' <= s[i] <= 'Z' && r[i] as int == s[i] as int + 32)
  {
    seq(|s|, i requires 0 <= i < |s| => LowerChar(s[i]))
  }

  /** Lowercasing twice is lowercasing once. */
  lemma ToLowerIdempotent(s: string)
    ensures ToLowerAscii(ToLowerAscii(s)) == ToLowerAscii(s)
  {
  }

  /** Text with no upper-case ASCII letter is its own lowercase form. */
  lemma {:induction false} ToLowerFixed(s: string)
    requires forall i :: 0 <= i < |s| ==> !('A' <= s[i] <= 'Z')
    ensures ToLowerAscii(s) == s
  {
    assert forall i :: 0 <= i < |s| ==> ToLowerAscii(s)[i] == s[i];
  }

  predicate IsDigit(c: char) {
    '0' <= c <= '9'
  }

  predicate IsDigits(s: string) {
    forall i :: 0 <= i < |s| ==> IsDigit(s[i])
  }

  function DigitChar(d: nat): (c: char)
    requires d < 10
    ensures IsDigit(c)
  {
    (48 + d) as char
  }

  /** `format!("{}", n)` for an unsigned integer: decimal, no leading zero. */
  function Decimal(n: nat): (s: string)
    ensures |s| > 0 && IsDigits(s)
    ensures |s| > 1 ==> s[0] != '0'
  {
    if n < 10 then [DigitChar(n)] else Decimal(n / 10) + [DigitChar(n % 10)]
  }

  /** The value of a string of decimal digits. */
  function ParseDecimal(s: string): nat
    requires IsDigits(s)
  {
    if s == [] then 0 else 10 * ParseDecimal(s[..|s| - 1]) + (s[|s| - 1] as int - 48)
  }

  /** Reading a rendered number gives the number back. */
  lemma {:induction false} DecimalRoundTrip(n: nat)
    ensures ParseDecimal(Decimal(n)) == n
  {
    var s := Decimal(n);
    if n >= 10 {
      DecimalRoundTrip(n / 10);
      assert s[..|s| - 1] == Decimal(n / 10);
    }
  }

  /** Length of the run of decimal digits at the start of `s`. */
  function DigitRun(s: string): (n: nat)
    ensures n <= |s| && IsDigits(s[..n])
    ensures n < |s| ==> !IsDigit(s[n])
  {
    if s == [] || !IsDigit(s[0]) then 0
    else
      var n := 1 + DigitRun(s[1..]);
      assert s[..n] == [s[0]] + s[1..][..n - 1];
      n
  }

  /** DigitRun stops exactly where the leading digits end. */
  lemma DigitRunOf(digits: string, rest: string)
    requires IsDigits(digits)
    requires rest == [] || !IsDigit(rest[0])
    ensures DigitRun(digits + rest) == |digits|
  {
    var s := digits + rest;
    assert forall i :: 0 <= i < |digits| ==> s[i] == digits[i];
    assert rest != [] ==> s[|digits|] == rest[0];
    var n := DigitRun(s);
    assert forall i :: 0 <= i < n ==> s[..n][i] == s[i];
  }

  /** Number of bytes UTF-8 needs for one Unicode scalar value. */
  function Utf8Width(c: char): (w: nat)
    ensures 1 <= w <= 4
    ensures w == 1 <==> c < '\U{80}'
  {
    if c < '\U{80}' then 1 else if c < '\U{800}' then 2 else if c < '\U{10000}' then 3 else 4
  }

  /** `String::len`: the length of the UTF-8 encoding of `s`, in bytes. */
  function Utf8Length(s: string): (n: nat)
    ensures |s| <= n <= 4 * |s|
    ensures n == |s| <==> forall i :: 0 <= i < |s| ==> s[i] < '\U{80}'
  {
    if s == [] then 0
    else
      var n := Utf8Width(s[0]) + Utf8Length(s[1..]);
      assert (forall i :: 0 <= i < |s| ==> s[i] < '\U{80}')
        <==> s[0] < '\U{80}' && forall i :: 0 <= i < |s| - 1 ==> s[1..][i] < '\U{80}';
      n
  }
}
