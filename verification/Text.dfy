/** Words, case and decimal numbers, as the daemon, its clients and the record printer read and write them. */
module Text {
  import opened Wrappers

  /** Unicode White_Space, which splits words. */
  predicate IsSpace(c: char) {
    var i := c as int;
    9 <= i <= 13 || i == 32 || i == 0x85 || i == 0xA0 || i == 0x1680 || 0x2000 <= i <= 0x200A
    || i == 0x2028 || i == 0x2029 || i == 0x202F || i == 0x205F || i == 0x3000
  }

  function SkipSpaces(s: string): (r: string)
    ensures |r| <= |s|
    ensures r != [] ==> !IsSpace(r[0])
  {
    if s != [] && IsSpace(s[0]) then SkipSpaces(s[1..]) else s
  }

  function WordLen(s: string): (n: nat)
    ensures n <= |s|
  {
    if s == [] || IsSpace(s[0]) then 0 else 1 + WordLen(s[1..])
  }

  /** The whitespace-delimited words of a line. */
  function Words(s: string): seq<string>
    decreases |s|
  {
    var t := SkipSpaces(s);
    if t == [] then [] else
      var n := WordLen(t);
      [t[..n]] + Words(t[n..])
  }

  predicate IsWord(w: string) {
    w != [] && forall i :: 0 <= i < |w| ==> !IsSpace(w[i])
  }

  lemma {:induction false} WordLenOfWord(w: string, rest: string)
    requires forall i :: 0 <= i < |w| ==> !IsSpace(w[i])
    requires rest == [] || IsSpace(rest[0])
    ensures WordLen(w + rest) == |w|
  {
    if w == [] {
      assert w + rest == rest;
    } else {
      WordLenOfWord(w[1..], rest);
      assert (w + rest)[1..] == w[1..] + rest;
    }
  }

  /** A word followed by a space, or by nothing, is the first word. */
  lemma WordsOfWord(w: string, rest: string)
    requires IsWord(w) && (rest == [] || IsSpace(rest[0]))
    ensures Words(w + rest) == [w] + Words(rest)
  {
    var s := w + rest;
    assert s[0] == w[0];
    WordLenOfWord(w, rest);
    assert s[..|w|] == w && s[|w|..] == rest;
  }

  function UpperChar(c: char): char {
    if 'a' <= c <= 'z' then (c as int - 32) as char else c
  }

  function Upper(s: string): (r: string)
    ensures |r| == |s|
    ensures forall i :: 0 <= i < |s| ==> r[i] == if 'a' <= s[i] <= 'z' then (s[i] as int - 32) as char else s[i]
  {
    if s == [] then [] else [UpperChar(s[0])] + Upper(s[1..])
  }

  /** The upper-cased first word, or nothing. */
  function FirstWordUpper(line: string): string {
    var ws := Words(line);
    if ws == [] then "" else Upper(ws[0])
  }

  lemma {:induction false} SkipsSpaces(lead: string, rest: string)
    requires forall i :: 0 <= i < |lead| ==> IsSpace(lead[i])
    ensures SkipSpaces(lead + rest) == SkipSpaces(rest)
  {
    if lead == [] {
      assert lead + rest == rest;
    } else {
      SkipsSpaces(lead[1..], rest);
      assert (lead + rest)[1..] == lead[1..] + rest;
    }
  }

  /** A line's first word is what stands, free of whitespace, after its leading whitespace. */
  lemma FirstWordIs(lead: string, w: string, rest: string)
    requires forall i :: 0 <= i < |lead| ==> IsSpace(lead[i])
    requires IsWord(w) && (rest == [] || IsSpace(rest[0]))
    ensures Words(lead + w + rest) == [w] + Words(rest)
    ensures FirstWordUpper(lead + w + rest) == Upper(w)
  {
    WordsOfWord(w, rest);
    assert lead + w + rest == lead + (w + rest);
    WordsAfterSpaces(lead, w + rest);
    assert ([w] + Words(rest))[0] == w;
  }

  lemma WordsAfterSpaces(lead: string, s: string)
    requires forall i :: 0 <= i < |lead| ==> IsSpace(lead[i])
    ensures Words(lead + s) == Words(s)
  {
    SkipsSpaces(lead, s);
  }

  // ----- Numbers --------------------------------------------------------------------

  predicate IsDigit(c: char) {
    '0' <= c <= '9'
  }

  function Digit(d: nat): char
    requires d < 10
  {
    ('0' as int + d) as char
  }

  /** Decimal digits, without leading zeros. */
  function Dec(n: nat): (s: string)
    ensures s != [] && forall i :: 0 <= i < |s| ==> IsDigit(s[i])
    ensures s[0] == '0' ==> n == 0 && |s| == 1
  {
    if n < 10 then [Digit(n)] else Dec(n / 10) + [Digit(n % 10)]
  }

  lemma DigitIs(d: nat)
    requires d < 10
    ensures Digit(d) == "0123456789"[d]
  {
  }

  /** Decimal notation, digit by digit. */
  lemma DecIs(n: nat)
    ensures n < 10 ==> Dec(n) == ["0123456789"[n]]
    ensures n >= 10 ==> Dec(n) == Dec(n / 10) + ["0123456789"[n % 10]]
  {
    DigitIs(n % 10);
  }

  /** The value of a digit string. */
  function Value(s: string): nat
    requires forall i :: 0 <= i < |s| ==> IsDigit(s[i])
  {
    if s == [] then 0
    else
      assert IsDigit(s[|s| - 1]);
      10 * Value(s[..|s| - 1]) + (s[|s| - 1] as int - '0' as int)
  }

  lemma {:induction false} ValueOfDec(n: nat)
    ensures Value(Dec(n)) == n
  {
    if n >= 10 {
      ValueOfDec(n / 10);
      assert Dec(n)[..|Dec(n)| - 1] == Dec(n / 10);
    }
  }

  function Pow10(k: nat): nat {
    if k == 0 then 1 else 10 * Pow10(k - 1)
  }

  /** A number below 10^k has at most k digits. */
  lemma {:induction false} DecLength(n: nat, k: nat)
    requires k > 0 && n < Pow10(k)
    ensures |Dec(n)| <= k
  {
    if n >= 10 {
      assert k > 1;
      DecLength(n / 10, k - 1);
    }
  }

  predicate AllDigits(s: string) {
    forall i :: 0 <= i < |s| ==> IsDigit(s[i])
  }

  /** An unsigned integer no greater than max: an optional plus sign and one or more digits. */
  function ParseUint(s: string, max: nat): Option<nat> {
    var d := if s != [] && s[0] == '+' then s[1..] else s;
    if d == [] || !AllDigits(d) || Value(d) > max then None else Some(Value(d))
  }

  /** Printing then parsing gives the number back, up to the bound and not beyond. */
  lemma ParseOfDec(n: nat, max: nat)
    ensures ParseUint(Dec(n), max) == if n <= max then Some(n) else None
  {
    ValueOfDec(n);
  }

  /** A plus sign may stand before the digits, and there must be some. */
  lemma PlusReads(n: nat, max: nat)
    ensures ParseUint("+" + Dec(n), max) == ParseUint(Dec(n), max)
    ensures ParseUint("", max) == None && ParseUint("+", max) == None
  {
    var t := "+" + Dec(n);
    assert t[0] == '+' && t[1..] == Dec(n);
    assert IsDigit(Dec(n)[0]);
  }

  /** Anything else is refused. */
  lemma NotANumber(s: string, i: nat, max: nat)
    requires i < |s| && !('0' <= s[i] <= '9') && !(i == 0 && s[i] == '+')
    ensures ParseUint(s, max) == None
  {
    if s[0] == '+' {
      var j := i - 1;
      assert s[1..][j] == s[i] && !AllDigits(s[1..]);
    } else {
      assert !AllDigits(s);
    }
  }

  /** Leading zeros are read away: digits count by their place alone. */
  lemma ValueIs(s: string, c: char)
    requires forall i :: 0 <= i < |s| ==> '0' <= s[i] <= '9'
    requires '0' <= c <= '9'
    ensures Value("") == 0
    ensures (forall i :: 0 <= i < |s + [c]| ==> IsDigit((s + [c])[i])) && Value(s + [c]) == 10 * Value(s) + (c as int - '0' as int)
  {
    assert (s + [c])[..|s|] == s;
  }

  /** What follows a prefix. */
  function StripPrefix(s: string, p: string): Option<string> {
    if p <= s then Some(s[|p|..]) else None
  }
}
