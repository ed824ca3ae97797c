/**
 The JSON that lifecycle records are written in: text trees, their text, the values
 they denote, and a parser for this subset of RFC 8259 (sections 4, 6 and 7): objects,
 the empty array, strings without escapes, unsigned integers and booleans, without
 whitespace between tokens.
 */
module Json {
  import opened Wrappers
  import opened Text

  /** Text as written: fields in order. */
  datatype Field = Field(key: string, val: Tree)

  datatype Tree =
    | TBool(b: bool)
    | TInt(n: nat)
    | TStr(s: string)
    | TEmpty
    | TObj(fields: seq<Field>)

  /** A value as a reader sees it: fields by name. */
  datatype Value =
    | Null
    | Bool(b: bool)
    | Int(n: nat)
    | OtherNumber
    | Str(s: string)
    | Arr(items: seq<Value>)
    | Obj(fields: map<string, Value>)

  // ----- Printing ------------------------------------------------------------------

  function Quoted(s: string): string {
    "\"" + s + "\""
  }

  function TextOf(t: Tree): string
    decreases t, 0
  {
    match t
    case TBool(b) => if b then "true" else "false"
    case TInt(n) => Dec(n)
    case TStr(s) => Quoted(s)
    case TEmpty => "[]"
    case TObj(fields) => "{" + FieldsText(fields) + "}"
  }

  function FieldText(f: Field): string
    decreases f, 1
  {
    Quoted(f.key) + (":" + TextOf(f.val))
  }

  /** Fields separated by commas. */
  function FieldsText(fs: seq<Field>): string
    decreases fs, 2
  {
    if fs == [] then ""
    else if |fs| == 1 then FieldText(fs[0])
    else FieldText(fs[0]) + "," + FieldsText(fs[1..])
  }

  // ----- What text denotes -------------------------------------------------------------

  /** A repeated key keeps its last value. */
  function ValueOf(t: Tree): Value
    decreases t, 0
  {
    match t
    case TBool(b) => Bool(b)
    case TInt(n) => Int(n)
    case TStr(s) => Str(s)
    case TEmpty => Arr([])
    case TObj(fields) => Obj(FieldsMap(fields))
  }

  function FieldsMap(fs: seq<Field>): map<string, Value>
    decreases fs, 1
  {
    if fs == [] then map[]
    else
      var last := fs[|fs| - 1];
      FieldsMap(fs[..|fs| - 1])[last.key := ValueOf(last.val)]
  }

  // ----- Parsing ---------------------------------------------------------------------

  /** Printable ASCII that a JSON string needs no escape for. */
  predicate PlainChar(c: char) {
    ' ' <= c <= '~' && c != '"' && c != '\\'
  }

  predicate Plain(s: string) {
    forall i :: 0 <= i < |s| ==> PlainChar(s[i])
  }

  /** Up to the closing quote; an escape or a control character is outside the subset. */
  function ParseString(s: string): (r: Option<(string, string)>)
    ensures r.Some? ==> |r.value.1| < |s|
  {
    if s == [] then None
    else if s[0] == '"' then Some(([], s[1..]))
    else if s[0] == '\\' || s[0] < ' ' then None
    else
      match ParseString(s[1..])
      case None => None
      case Some((body, rest)) => Some(([s[0]] + body, rest))
  }

  function DigitsLen(s: string): (n: nat)
    ensures n <= |s| && forall i :: 0 <= i < n ==> IsDigit(s[i])
  {
    if s != [] && IsDigit(s[0]) then 1 + DigitsLen(s[1..]) else 0
  }

  /** Digits with no leading zero, not followed by a fraction or exponent. */
  function ParseInt(s: string): (r: Option<(nat, string)>)
    ensures r.Some? ==> |r.value.1| < |s|
  {
    var n := DigitsLen(s);
    if n == 0 || (s[0] == '0' && n > 1) then None
    else if n < |s| && s[n] in {'.', 'e', 'E'} then None
    else Some((Text.Value(s[..n]), s[n..]))
  }

  function ParseTree(s: string): (r: Option<(Tree, string)>)
    ensures r.Some? ==> |r.value.1| < |s|
    decreases |s|, 0
  {
    if s == [] then None
    else if s[0] == '{' then
      if |s| > 1 && s[1] == '}' then Some((TObj([]), s[2..])) else ParseFields(s[1..])
    else if s[0] == '"' then
      match ParseString(s[1..])
      case None => None
      case Some((body, rest)) => Some((TStr(body), rest))
    else if "true" <= s then Some((TBool(true), s[4..]))
    else if "false" <= s then Some((TBool(false), s[5..]))
    else if "[]" <= s then Some((TEmpty, s[2..]))
    else
      match ParseInt(s)
      case None => None
      case Some((n, rest)) => Some((TInt(n), rest))
  }

  /** One or more fields and the closing brace. */
  function ParseFields(s: string): (r: Option<(Tree, string)>)
    ensures r.Some? ==> |r.value.1| < |s| && r.value.0.TObj?
    decreases |s|, 1
  {
    if s == [] || s[0] != '"' then None
    else
      match ParseString(s[1..])
      case None => None
      case Some((key, s1)) =>
        if s1 == [] || s1[0] != ':' then None
        else
          match ParseTree(s1[1..])
          case None => None
          case Some((t, s2)) =>
            if s2 == [] then None
            else if s2[0] == '}' then Some((TObj([Field(key, t)]), s2[1..]))
            else if s2[0] != ',' then None
            else
              match ParseFields(s2[1..])
              case None => None
              case Some((more, rest)) => Some((TObj([Field(key, t)] + more.fields), rest))
  }

  /** A whole document. */
  function Parse(s: string): Option<Value> {
    match ParseTree(s)
    case None => None
    case Some((t, rest)) => if rest == [] then Some(ValueOf(t)) else None
  }

  // ----- Round trip ------------------------------------------------------------------

  predicate PlainTree(t: Tree)
    decreases t, 0
  {
    match t
    case TStr(s) => Plain(s)
    case TObj(fields) => PlainFields(fields)
    case _ => true
  }

  predicate PlainFields(fs: seq<Field>)
    decreases fs, 1
  {
    fs == [] || (Plain(fs[0].key) && PlainTree(fs[0].val) && PlainFields(fs[1..]))
  }

  /** What can follow a value: nothing that would lengthen a number. */
  predicate Follows(rest: string) {
    rest == [] || rest[0] in {',', '}', '\n'}
  }

  lemma {:induction false} StringRoundTrip(s: string, rest: string)
    requires Plain(s)
    ensures ParseString(s + "\"" + rest) == Some((s, rest))
  {
    var text := s + "\"" + rest;
    if s == [] {
      assert text == "\"" + rest;
      assert text[1..] == rest;
    } else {
      StringRoundTrip(s[1..], rest);
      assert text[1..] == s[1..] + "\"" + rest;
      assert PlainChar(s[0]) && text[0] == s[0];
      assert [s[0]] + s[1..] == s;
    }
  }

  lemma {:induction false} DigitsLenOf(d: string, rest: string)
    requires forall i :: 0 <= i < |d| ==> IsDigit(d[i])
    requires rest == [] || !IsDigit(rest[0])
    ensures DigitsLen(d + rest) == |d|
  {
    if d == [] {
      assert d + rest == rest;
    } else {
      DigitsLenOf(d[1..], rest);
      assert (d + rest)[1..] == d[1..] + rest;
    }
  }

  lemma IntRoundTrip(n: nat, rest: string)
    requires Follows(rest)
    ensures ParseInt(Dec(n) + rest) == Some((n, rest))
  {
    var d := Dec(n);
    DigitsLenOf(d, rest);
    ValueOfDec(n);
    assert (d + rest)[..|d|] == d && (d + rest)[|d|..] == rest;
  }

  lemma {:induction false} WordRoundTrip(t: Tree, rest: string)
    requires t.TBool? || t.TEmpty?
    ensures ParseTree(TextOf(t) + rest) == Some((t, rest))
  {
    var w := TextOf(t);
    assert (w + rest)[..|w|] == w && (w + rest)[|w|..] == rest;
    assert (w + rest)[0] == w[0];
  }

  lemma {:induction false} NumberRoundTrip(n: nat, rest: string)
    requires Follows(rest)
    ensures ParseTree(Dec(n) + rest) == Some((TInt(n), rest))
  {
    IntRoundTrip(n, rest);
    assert IsDigit((Dec(n) + rest)[0]);
  }

  lemma {:induction false} StrRoundTrip(s: string, rest: string)
    requires Plain(s)
    ensures ParseTree(Quoted(s) + rest) == Some((TStr(s), rest))
  {
    StringRoundTrip(s, rest);
    assert (Quoted(s) + rest)[1..] == s + "\"" + rest;
  }

  /** An object's text, given how its fields parse. */
  lemma {:induction false} ObjectStep(fields: string, rest: string)
    requires fields == "" || fields[0] == '"'
    ensures ParseTree("{" + fields + "}" + rest)
         == if fields == "" then Some((TObj([]), rest)) else ParseFields(fields + "}" + rest)
  {
    var text := "{" + fields + "}" + rest;
    assert text[1..] == fields + "}" + rest;
    assert fields == "" ==> text[2..] == rest;
  }

  lemma {:induction false} TreeRoundTrip(t: Tree, rest: string)
    requires PlainTree(t) && Follows(rest)
    ensures ParseTree(TextOf(t) + rest) == Some((t, rest))
    decreases t, 0
  {
    match t
    case TBool(_) => WordRoundTrip(t, rest);
    case TEmpty => WordRoundTrip(t, rest);
    case TInt(n) => NumberRoundTrip(n, rest);
    case TStr(s) => StrRoundTrip(s, rest);
    case TObj(fields) =>
      if fields != [] {
        FieldsRoundTrip(fields, rest);
        TextSplit(fields, rest);
      }
      ObjectStep(FieldsText(fields), rest);
  }

  /** One field, its closing quote and colon included, and what follows it. */
  lemma {:induction false} FieldSplit(key: string, value: string, tail: string)
    requires Plain(key)
    ensures (Quoted(key) + (":" + value) + tail)[0] == '"'
    ensures ParseString((Quoted(key) + (":" + value) + tail)[1..]) == Some((key, [':'] + (value + tail)))
  {
    var rest := [':'] + (value + tail);
    StringRoundTrip(key, rest);
    assert (Quoted(key) + (":" + value) + tail)[1..] == key + "\"" + rest;
  }

  lemma {:induction false} ParseFieldStep(text: string, f: Field, mid: string, tail: string)
    requires text != [] && text[0] == '"' && tail != []
    requires ParseString(text[1..]) == Some((f.key, [':'] + mid))
    requires ParseTree(mid) == Some((f.val, tail))
    ensures tail[0] == '}' ==> ParseFields(text) == Some((TObj([f]), tail[1..]))
    ensures tail[0] == ',' && ParseFields(tail[1..]).Some? ==>
      var (more, rest) := ParseFields(tail[1..]).value;
      ParseFields(text) == Some((TObj([f] + more.fields), rest))
  {
    assert ([':'] + mid)[1..] == mid;
  }

  /** What follows the first field of an object's text. */
  function Tail(fs: seq<Field>, rest: string): (tail: string)
    requires fs != []
    ensures tail != [] && Follows(tail)
  {
    if |fs| == 1 then ['}'] + rest else [','] + (FieldsText(fs[1..]) + "}" + rest)
  }

  lemma {:induction false} TextSplit(fs: seq<Field>, rest: string)
    requires fs != []
    ensures FieldsText(fs) + "}" + rest == FieldText(fs[0]) + Tail(fs, rest)
    ensures FieldsText(fs)[0] == '"'
  {
  }

  lemma {:induction false} FieldsRoundTrip(fs: seq<Field>, rest: string)
    requires fs != [] && PlainFields(fs) && Follows(rest)
    ensures ParseFields(FieldsText(fs) + "}" + rest) == Some((TObj(fs), rest))
    decreases fs, 1
  {
    var f, tail := fs[0], Tail(fs, rest);
    TextSplit(fs, rest);
    TreeRoundTrip(f.val, tail);
    FieldSplit(f.key, TextOf(f.val), tail);
    ParseFieldStep(FieldText(f) + tail, f, TextOf(f.val) + tail, tail);
    if |fs| > 1 {
      FieldsRoundTrip(fs[1..], rest);
      assert tail[1..] == FieldsText(fs[1..]) + "}" + rest && [f] + fs[1..] == fs;
    } else {
      assert tail[1..] == rest && [f] == fs;
    }
  }

  /** Parsing what was printed gives the value it was printed from. */
  lemma RoundTrip(t: Tree)
    requires PlainTree(t)
    ensures Parse(TextOf(t)) == Some(ValueOf(t))
  {
    TreeRoundTrip(t, []);
    assert TextOf(t) + [] == TextOf(t);
  }

  // ----- What the parser takes --------------------------------------------------------

  lemma {:induction false} StringSound(s: string)
    requires ParseString(s).Some?
    ensures var (body, rest) := ParseString(s).value; s == body + "\"" + rest
  {
    if s[0] != '"' {
      StringSound(s[1..]);
    }
  }

  /** Digits without a leading zero are the decimal form of their value. */
  lemma {:induction false} DecOfValue(d: string)
    requires d != [] && forall i :: 0 <= i < |d| ==> IsDigit(d[i])
    requires d[0] == '0' ==> |d| == 1
    ensures Dec(Text.Value(d)) == d
    ensures d[0] != '0' ==> Text.Value(d) > 0
  {
    var front, last := d[..|d| - 1], d[|d| - 1];
    assert IsDigit(last);
    assert last == Digit(last as int - '0' as int);
    if front == [] {
      assert d == [last] && Text.Value(front) == 0;
    } else {
      DecOfValue(front);
      assert d == front + [last];
    }
  }

  lemma {:induction false} IntSound(s: string)
    requires ParseInt(s).Some?
    ensures var (n, rest) := ParseInt(s).value; s == Dec(n) + rest
  {
    var n := DigitsLen(s);
    DecOfValue(s[..n]);
  }

  /** The parser takes nothing but printed text. */
  lemma {:induction false} ParseTreeSound(s: string)
    requires ParseTree(s).Some?
    ensures var (t, rest) := ParseTree(s).value; s == TextOf(t) + rest
    decreases |s|, 0
  {
    if s[0] == '{' {
      if !(|s| > 1 && s[1] == '}') {
        ParseFieldsSound(s[1..]);
        assert s == ['{'] + s[1..];
      }
    } else if s[0] == '"' {
      StringSound(s[1..]);
      assert s == ['"'] + s[1..];
    } else if !("true" <= s || "false" <= s || "[]" <= s) {
      IntSound(s);
    }
  }

  lemma {:induction false} FieldSound(s: string, key: string, value: string, s1: string, s2: string)
    requires s != [] && s[0] == '"' && s1 != [] && s1[0] == ':'
    requires s[1..] == key + "\"" + s1 && s1[1..] == value + s2
    ensures s == Quoted(key) + (":" + value) + s2
  {
    assert s == ['"'] + s[1..] && s1 == [':'] + s1[1..];
  }

  lemma {:induction false} LastSound(f: Field, s2: string)
    requires s2 != [] && s2[0] == '}'
    ensures FieldText(f) + s2 == FieldsText([f]) + "}" + s2[1..]
  {
    assert s2 == "}" + s2[1..];
  }

  lemma {:induction false} MoreSound(f: Field, fs: seq<Field>, s2: string, rest: string)
    requires fs != [] && s2 != [] && s2[0] == ',' && s2[1..] == FieldsText(fs) + "}" + rest
    ensures FieldText(f) + s2 == FieldsText([f] + fs) + "}" + rest
  {
    assert ([f] + fs)[1..] == fs;
    assert s2 == "," + s2[1..];
  }

  lemma {:induction false} ParseFieldsSound(s: string)
    requires ParseFields(s).Some?
    ensures var (t, rest) := ParseFields(s).value; t.fields != [] && s == FieldsText(t.fields) + "}" + rest
    decreases |s|, 1
  {
    StringSound(s[1..]);
    var (key, s1) := ParseString(s[1..]).value;
    ParseTreeSound(s1[1..]);
    var (t, s2) := ParseTree(s1[1..]).value;
    FieldSound(s, key, TextOf(t), s1, s2);
    if s2[0] == ',' {
      ParseFieldsSound(s2[1..]);
      var (more, rest) := ParseFields(s2[1..]).value;
      MoreSound(Field(key, t), more.fields, s2, rest);
    } else {
      LastSound(Field(key, t), s2);
    }
  }

  /** A parsed document is the text of some tree, and denotes what the tree denotes. */
  lemma ParsedTree(s: string) returns (t: Tree)
    requires Parse(s).Some?
    ensures s == TextOf(t) && Parse(s) == Some(ValueOf(t))
  {
    ParseTreeSound(s);
    t := ParseTree(s).value.0;
  }
}
