/**
 The control protocol: one request line in, one reply line out; and the two ends of
 its text, the daemon's and its client's (rei).
 */
module Control {
  import opened Counting
  import opened Wrappers
  import opened Text
  import Registry
  import Lifecycle

  const U64_MAX: nat := 0xFFFF_FFFF_FFFF_FFFF

  // ----- The daemon -----------------------------------------------------------------

  /** The first `pid=<N>` token that parses. */
  function FindPid(words: seq<string>): Option<nat> {
    if words == [] then None
    else
      var v := StripPrefix(words[0], "pid=");
      if v.Some? && ParseUint(v.value, Lifecycle.U32_MAX).Some? then ParseUint(v.value, Lifecycle.U32_MAX)
      else FindPid(words[1..])
  }

  function ParsePid(line: string): Option<nat> {
    FindPid(Words(line))
  }

  /** What control handlers share: the registered PIDs, the arm flag, and the armings recorded. */
  datatype Shared = Shared(registered: seq<nat>, armed: bool, recorded: nat)

  datatype Handled = Handled(shared: Shared, reply: string, stay: bool)

  function Bit(b: bool): char {
    if b then '1' else '0'
  }

  function StatusLine(armed: bool, grace: nat, registered: nat): string {
    "STATUS alive=1 armed=" + [Bit(armed)] + " grace=" + Dec(grace) + " registered=" + Dec(registered) + "\n"
  }

  /** One request, as a function of its verb and pid. `alive` says which pids exist. */
  function Answer(verb: string, pid: Option<nat>, s: Shared, grace: nat, alive: nat -> bool): Handled {
    match verb
    case "REGISTER" =>
      if pid.Some? && alive(pid.value) then
        var reg := Registry.Add(s.registered, pid.value);
        Handled(s.(registered := reg), if pid.value in reg then "OK\n" else "BUSY\n", true)
      else Handled(s, "ERROR invalid pid\n", true)
    case "UNREGISTER" =>
      if pid.Some? then Handled(s.(registered := Registry.Remove(s.registered, pid.value)), "OK\n", true)
      else Handled(s, "ERROR invalid pid\n", true)
    case "ARM" =>
      if s.armed then Handled(s, "ALREADY_ARMED\n", true)
      else Handled(s.(armed := true, recorded := s.recorded + 1), "OK\n", true)
    case "STATUS" => Handled(s, StatusLine(s.armed, grace, |s.registered|), true)
    case "PING" => Handled(s, "PONG\n", true)
    case "QUIT" => Handled(s, "BYE\n", false)
    case "" => Handled(s, "", true)
    case _ => Handled(s, "ERR unknown-verb\n", true)
  }

  /** The pid of a request is that of its first `pid=` word that reads as a u32. */
  lemma {:induction false} FindPidIs(words: seq<string>, i: nat)
    requires i <= |words|
    requires forall j :: 0 <= j < i ==> !("pid=" <= words[j] && ParseUint(words[j][4..], 0xFFFF_FFFF).Some?)
    ensures i == |words| ==> FindPid(words) == None
    ensures i < |words| && "pid=" <= words[i] && ParseUint(words[i][4..], 0xFFFF_FFFF).Some? ==>
      FindPid(words) == ParseUint(words[i][4..], 0xFFFF_FFFF)
  {
    if words != [] && i > 0 {
      FindPidIs(words[1..], i - 1);
    }
  }

  /** What each verb is answered and changes. */
  lemma AnswerMeans(verb: string, pid: Option<nat>, s: Shared, grace: nat, alive: nat -> bool)
    ensures var h := Answer(verb, pid, s, grace, alive);
      && (h.stay <==> verb != "QUIT")
      && (verb != "REGISTER" && verb != "UNREGISTER" && verb != "ARM" ==> h.shared == s)
      && (verb == "ARM" ==>
            && h.reply == (if s.armed then "ALREADY_ARMED\n" else "OK\n")
            && h.shared == Shared(s.registered, true, if s.armed then s.recorded else s.recorded + 1))
      && (verb == "PING" ==> h.reply == "PONG\n")
      && (verb == "QUIT" ==> h.reply == "BYE\n")
      && (verb == "" ==> h.reply == "")
      && (verb !in {"REGISTER", "UNREGISTER", "ARM", "STATUS", "PING", "QUIT", ""} ==> h.reply == "ERR unknown-verb\n")
  {
  }

  lemma StatusAnswer(pid: Option<nat>, s: Shared, grace: nat, alive: nat -> bool)
    ensures Answer("STATUS", pid, s, grace, alive).reply
         == "STATUS alive=1 armed=" + (if s.armed then "1" else "0") + " grace=" + Dec(grace)
            + " registered=" + Dec(|s.registered|) + "\n"
  {
    assert (if s.armed then "1" else "0") == [Bit(s.armed)];
  }

  /** REGISTER adds an existing pid to a set of at most 32. */
  lemma RegisterAnswer(pid: Option<nat>, s: Shared, grace: nat, alive: nat -> bool)
    requires Registry.Wellformed(s.registered)
    ensures var h := Answer("REGISTER", pid, s, grace, alive);
      && h.shared == s.(registered := h.shared.registered)
      && if pid.Some? && alive(pid.value)
         then var room := pid.value in s.registered || |s.registered| < 32;
           && h.reply == (if room then "OK\n" else "BUSY\n")
           && (set p | p in h.shared.registered) == (set p | p in s.registered) + (if room then {pid.value} else {})
         else h.reply == "ERROR invalid pid\n" && h.shared == s
  {
    if pid.Some? {
      Registry.AddRefines(s.registered, pid.value);
    }
  }

  /** UNREGISTER removes any pid from it. */
  lemma UnregisterAnswer(pid: Option<nat>, s: Shared, grace: nat, alive: nat -> bool)
    requires Registry.Wellformed(s.registered)
    ensures var h := Answer("UNREGISTER", pid, s, grace, alive);
      && h.shared == s.(registered := h.shared.registered)
      && if pid.Some?
         then h.reply == "OK\n" && (set p | p in h.shared.registered) == (set p | p in s.registered) - {pid.value}
         else h.reply == "ERROR invalid pid\n" && h.shared == s
  {
    if pid.Some? {
      Registry.RemoveRefines(s.registered, pid.value);
    }
  }

  /** The state control handlers change in place. */
  class Daemon {
    const registered: Registry.Registered
    const grace: nat
    var armed: bool
    var recorded: nat

    constructor (grace: nat, armed: bool)
      ensures Valid() && fresh(registered) && this.grace == grace
      ensures View() == Shared([], armed, 0)
    {
      this.registered := new Registry.Registered();
      this.grace, this.armed, this.recorded := grace, armed, 0;
    }

    ghost predicate Valid()
      reads this, registered
    {
      Registry.Wellformed(registered.pids)
    }

    ghost function View(): Shared
      reads this, registered
    {
      Shared(registered.pids, armed, recorded)
    }

    /**
     One request line. REGISTER and UNREGISTER alone change the set of at most 32 PIDs, ARM
     alone arms, recording it the first time, and only QUIT ends the connection.
     */
    method ProcessControl(line: string, alive: nat -> bool) returns (reply: string, stay: bool)
      requires Valid()
      modifies this, registered
      ensures Valid()
      ensures Handled(View(), reply, stay) == Answer(FirstWordUpper(line), ParsePid(line), old(View()), grace, alive)
      ensures stay <==> FirstWordUpper(line) != "QUIT"
      ensures FirstWordUpper(line) == "ARM" ==>
        armed && reply == if old(armed) then "ALREADY_ARMED\n" else "OK\n"
      ensures recorded == old(recorded) + if FirstWordUpper(line) == "ARM" && !old(armed) then 1 else 0
      ensures FirstWordUpper(line) != "ARM" ==> armed == old(armed)
      ensures FirstWordUpper(line) != "REGISTER" && FirstWordUpper(line) != "UNREGISTER" ==> registered.pids == old(registered.pids)
      ensures FirstWordUpper(line) == "REGISTER" ==>
        var pid := ParsePid(line);
        if pid.Some? && alive(pid.value)
        then
          && reply == (if pid.value in old(registered.pids) || |old(registered.pids)| < 32 then "OK\n" else "BUSY\n")
          && (set p | p in registered.pids)
             == (set p | p in old(registered.pids)) + if reply == "OK\n" then {pid.value} else {}
        else reply == "ERROR invalid pid\n" && registered.pids == old(registered.pids)
      ensures FirstWordUpper(line) == "UNREGISTER" ==>
        var pid := ParsePid(line);
        if pid.Some?
        then reply == "OK\n" && (set p | p in registered.pids) == (set p | p in old(registered.pids)) - {pid.value}
        else reply == "ERROR invalid pid\n" && registered.pids == old(registered.pids)
      ensures FirstWordUpper(line) == "STATUS" ==>
        reply == "STATUS alive=1 armed=" + (if armed then "1" else "0") + " grace=" + Dec(grace)
                 + " registered=" + Dec(|registered.pids|) + "\n"
      ensures FirstWordUpper(line) == "PING" ==> reply == "PONG\n"
      ensures FirstWordUpper(line) == "QUIT" ==> reply == "BYE\n"
      ensures FirstWordUpper(line) == "" ==> reply == ""
      ensures FirstWordUpper(line) !in {"REGISTER", "UNREGISTER", "ARM", "STATUS", "PING", "QUIT", ""} ==>
        reply == "ERR unknown-verb\n"
    {
      AnswerMeans(FirstWordUpper(line), ParsePid(line), View(), grace, alive);
      StatusAnswer(ParsePid(line), View(), grace, alive);
      RegisterAnswer(ParsePid(line), View(), grace, alive);
      UnregisterAnswer(ParsePid(line), View(), grace, alive);
      reply, stay := Respond(FirstWordUpper(line), ParsePid(line), alive);
    }

    method Respond(verb: string, pid: Option<nat>, alive: nat -> bool) returns (reply: string, stay: bool)
      requires Valid()
      modifies this, registered
      ensures Valid()
      ensures Handled(View(), reply, stay) == Answer(verb, pid, old(View()), grace, alive)
    {
      reply, stay := "", true;
      match verb
      case "REGISTER" =>
        if pid.Some? && alive(pid.value) {
          var ok := registered.Register(pid.value);
          reply := if ok then "OK\n" else "BUSY\n";
        } else {
          reply := "ERROR invalid pid\n";
        }
      case "UNREGISTER" =>
        if pid.Some? {
          registered.Unregister(pid.value);
          reply := "OK\n";
        } else {
          reply := "ERROR invalid pid\n";
        }
      case "ARM" =>
        if armed {
          reply := "ALREADY_ARMED\n";
        } else {
          armed := true;
          recorded := recorded + 1;
          reply := "OK\n";
        }
      case "STATUS" => reply := StatusLine(armed, grace, |registered.pids|);
      case "PING" => reply := "PONG\n";
      case "QUIT" => reply, stay := "BYE\n", false;
      case "" =>
      case _ => reply := "ERR unknown-verb\n";
    }
  }

  // ----- The client -------------------------------------------------------------------

  datatype StatusOut = StatusOut(alive: bool, armed: bool, grace: nat, registered: nat)

  const DEAD := StatusOut(false, false, 0, 0)

  /** The value of the last word that starts with the key. */
  function Field(words: seq<string>, key: string): Option<string> {
    if words == [] then None
    else
      var v := StripPrefix(words[|words| - 1], key);
      if v.Some? then v else Field(words[..|words| - 1], key)
  }

  function NumberOr0(v: Option<string>, max: nat): nat {
    if v.Some? && ParseUint(v.value, max).Some? then ParseUint(v.value, max).value else 0
  }

  /** Each field is its key's last word, or its default. */
  function StatusOf(words: seq<string>): StatusOut {
    StatusOut(Field(words, "alive=") == Some("1"),
              Field(words, "armed=") == Some("1"),
              NumberOr0(Field(words, "grace="), U64_MAX),
              NumberOr0(Field(words, "registered="), Lifecycle.U32_MAX))
  }

  lemma KeysExclude(w: string)
    ensures "alive=" <= w ==> !("armed=" <= w) && !("grace=" <= w) && !("registered=" <= w)
    ensures "armed=" <= w ==> !("grace=" <= w) && !("registered=" <= w)
    ensures "grace=" <= w ==> !("registered=" <= w)
  {
    if "alive=" <= w { assert w[0] == 'a' && w[1] == 'l'; }
    if "armed=" <= w { assert w[0] == 'a' && w[1] == 'r'; }
    if "grace=" <= w { assert w[0] == 'g'; }
    if "registered=" <= w { assert w[0] == 'r'; }
  }

  /** A field is that of the last word that starts with its key, if any does. */
  lemma {:induction false} FieldIsLast(words: seq<string>, key: string, i: int)
    requires -1 <= i < |words| && (i >= 0 ==> key <= words[i])
    requires forall j :: i < j < |words| ==> !(key <= words[j])
    ensures Field(words, key) == if i >= 0 then Some(words[i][|key|..]) else None
  {
    if words != [] && i < |words| - 1 {
      FieldIsLast(words[..|words| - 1], key, i);
    }
  }

  method ParseStatus(words: seq<string>) returns (out: StatusOut)
    ensures out == StatusOf(words)
    ensures out.alive <==> Field(words, "alive=") == Some("1")
    ensures out.armed <==> Field(words, "armed=") == Some("1")
    ensures var g := Field(words, "grace=");
      out.grace == if g.Some? && ParseUint(g.value, 0xFFFF_FFFF_FFFF_FFFF).Some?
                   then ParseUint(g.value, 0xFFFF_FFFF_FFFF_FFFF).value else 0
    ensures var n := Field(words, "registered=");
      out.registered == if n.Some? && ParseUint(n.value, 0xFFFF_FFFF).Some? then ParseUint(n.value, 0xFFFF_FFFF).value else 0
  {
    out := DEAD;
    for i := 0 to |words|
      invariant out == StatusOf(words[..i])
    {
      var w := words[i];
      KeysExclude(w);
      assert words[..i + 1][..i] == words[..i];
      if StripPrefix(w, "alive=").Some? {
        out := out.(alive := StripPrefix(w, "alive=").value == "1");
      } else if StripPrefix(w, "armed=").Some? {
        out := out.(armed := StripPrefix(w, "armed=").value == "1");
      } else if StripPrefix(w, "grace=").Some? {
        out := out.(grace := NumberOr0(StripPrefix(w, "grace="), U64_MAX));
      } else if StripPrefix(w, "registered=").Some? {
        out := out.(registered := NumberOr0(StripPrefix(w, "registered="), Lifecycle.U32_MAX));
      }
    }
    assert words[..|words|] == words;
  }

  /** The reply line as the client keeps it. */
  function TrimEnd(s: string): string {
    if s != [] && IsSpace(s[|s| - 1]) then TrimEnd(s[..|s| - 1]) else s
  }

  function Trim(s: string): string {
    TrimEnd(SkipSpaces(s))
  }

  function RegisterText(pid: nat): string {
    "REGISTER" + " " + ("pid=" + Dec(pid))
  }

  function UnregisterText(pid: nat): string {
    "UNREGISTER" + " " + ("pid=" + Dec(pid))
  }

  // ----- The two ends agree -------------------------------------------------------------

  lemma WordsCons(w: string, rest: string)
    requires IsWord(w)
    ensures Words(w + " " + rest) == [w] + Words(rest)
  {
    assert w + " " + rest == w + (" " + rest);
    WordsOfWord(w, " " + rest);
    assert (" " + rest)[1..] == rest;
  }

  lemma LastWord(w: string)
    requires IsWord(w)
    ensures Words(w) == [w]
  {
    assert w + [] == w;
    WordsOfWord(w, []);
  }

  lemma NumberWord(key: string, n: nat)
    requires IsWord(key)
    ensures IsWord(key + Dec(n)) && StripPrefix(key + Dec(n), key) == Some(Dec(n))
  {
    assert forall i :: 0 <= i < |Dec(n)| ==> !IsSpace(Dec(n)[i]);
  }

  /** Words with single spaces between them. */
  function Spaced(words: seq<string>): string
    requires words != []
  {
    if |words| == 1 then words[0] else words[0] + " " + Spaced(words[1..])
  }

  lemma {:induction false} WordsOfSpaced(words: seq<string>)
    requires words != [] && forall w :: w in words ==> IsWord(w)
    ensures Words(Spaced(words)) == words
  {
    if |words| == 1 {
      LastWord(words[0]);
    } else {
      WordsOfSpaced(words[1..]);
      WordsCons(words[0], Spaced(words[1..]));
    }
  }

  lemma {:induction false} SpacedEnds(words: seq<string>)
    requires words != [] && forall w :: w in words ==> IsWord(w)
    ensures var s := Spaced(words); s != [] && !IsSpace(s[0]) && !IsSpace(s[|s| - 1])
  {
    assert IsWord(words[0]);
    if |words| > 1 {
      SpacedEnds(words[1..]);
    }
  }

  function StatusWords(armed: bool, grace: nat, registered: nat): seq<string> {
    ["STATUS", "alive=1", "armed=" + [Bit(armed)], "grace=" + Dec(grace), "registered=" + Dec(registered)]
  }

  lemma StatusWordsAreWords(armed: bool, grace: nat, registered: nat)
    ensures forall w :: w in StatusWords(armed, grace, registered) ==> IsWord(w)
  {
    NumberWord("grace=", grace);
    NumberWord("registered=", registered);
  }

  lemma StatusIsSpaced(armed: bool, grace: nat, registered: nat)
    ensures StatusLine(armed, grace, registered) == Spaced(StatusWords(armed, grace, registered)) + "\n"
  {
    var ws := StatusWords(armed, grace, registered);
    var g, r, b := Dec(grace), Dec(registered), [Bit(armed)];
    assert ws[1..] == [ws[1], ws[2], ws[3], ws[4]] && ws[2..] == [ws[2], ws[3], ws[4]];
    Spaced5(ws[0], ws[1], ws[2], ws[3], ws[4]);
    assert "STATUS alive=1 armed=" == "STATUS" + " " + ("alive=1" + " " + "armed=");
    assert " grace=" == " " + "grace=" && " registered=" == " " + "registered=";
    Regroup("STATUS", "alive=1", "armed=", b, "grace=", g, "registered=", r);
  }

  lemma Spaced5(a: string, b: string, c: string, d: string, e: string)
    ensures Spaced([a, b, c, d, e]) == a + " " + (b + " " + (c + " " + (d + " " + e)))
  {
    assert [a, b, c, d, e][1..] == [b, c, d, e] && [b, c, d, e][1..] == [c, d, e] && [c, d, e][1..] == [d, e];
    assert [d, e][1..] == [e];
    assert Spaced([d, e]) == d + " " + e;
    assert Spaced([c, d, e]) == c + " " + (d + " " + e);
  }

  lemma Regroup(a: string, b: string, c: string, x: string, d: string, y: string, e: string, z: string)
    ensures (a + " " + (b + " " + c)) + x + (" " + d) + y + (" " + e) + z
         == a + " " + (b + " " + ((c + x) + " " + ((d + y) + " " + (e + z))))
  {
    var t := (d + y) + " " + (e + z);
    assert x + (" " + d) + y + (" " + e) + z == x + " " + t;
    assert (c + x) + " " + t == c + (x + " " + t);
    assert (a + " " + (b + " " + c)) + (x + " " + t) == a + " " + (b + " " + (c + (x + " " + t)));
    var h := a + " " + (b + " " + c);
    assert h + x + (" " + d) + y + (" " + e) + z == h + (x + (" " + d) + y + (" " + e) + z);
  }

  lemma TrimLine(s: string)
    requires s != [] && !IsSpace(s[0]) && !IsSpace(s[|s| - 1])
    ensures Trim(s + "\n") == s
  {
    var t := s + "\n";
    assert t[0] == s[0] && t[|s|] == '\n' && IsSpace('\n') && t[..|s|] == s;
    assert SkipSpaces(t) == t && TrimEnd(t) == TrimEnd(s) == s;
  }

  /** For every arm flag, grace and count, the daemon's status line means to the client what it meant to the daemon. */
  lemma StatusAgrees(armed: bool, grace: nat, registered: nat)
    requires grace <= U64_MAX && registered <= Lifecycle.U32_MAX
    ensures StatusOf(Words(Trim(StatusLine(armed, grace, registered)))) == StatusOut(true, armed, grace, registered)
  {
    var ws := StatusWords(armed, grace, registered);
    StatusWordsAreWords(armed, grace, registered);
    StatusIsSpaced(armed, grace, registered);
    WordsOfSpaced(ws);
    SpacedEnds(ws);
    TrimLine(Spaced(ws));
    FieldsOfStatus(armed, grace, registered);
    ParseOfDec(grace, U64_MAX);
    ParseOfDec(registered, Lifecycle.U32_MAX);
  }

  lemma FieldSnoc(ws: seq<string>, w: string, key: string)
    ensures Field(ws + [w], key) == if key <= w then Some(w[|key|..]) else Field(ws, key)
  {
    assert (ws + [w])[..|ws|] == ws;
  }

  /** The last of five words that starts with the key. */
  lemma FieldOfFive(a: string, b: string, c: string, d: string, e: string, key: string)
    ensures Field([a, b, c, d, e], key)
         == if key <= e then Some(e[|key|..]) else if key <= d then Some(d[|key|..])
            else if key <= c then Some(c[|key|..]) else if key <= b then Some(b[|key|..])
            else if key <= a then Some(a[|key|..]) else None
  {
    FieldSnoc([], a, key);
    FieldSnoc([a], b, key);
    FieldSnoc([a, b], c, key);
    FieldSnoc([a, b, c], d, key);
    FieldSnoc([a, b, c, d], e, key);
    assert [] + [a] == [a] && [a] + [b] == [a, b] && [a, b] + [c] == [a, b, c];
    assert [a, b, c] + [d] == [a, b, c, d] && [a, b, c, d] + [e] == [a, b, c, d, e];
  }

  lemma FieldsOfFive(a: string, b: string, c: string, d: string, e: string)
    requires !("alive=" <= a) && !("armed=" <= a) && !("grace=" <= a) && !("registered=" <= a)
    requires "alive=" <= b && "armed=" <= c && "grace=" <= d && "registered=" <= e
    ensures Field([a, b, c, d, e], "alive=") == Some(b[6..])
    ensures Field([a, b, c, d, e], "armed=") == Some(c[6..])
    ensures Field([a, b, c, d, e], "grace=") == Some(d[6..])
    ensures Field([a, b, c, d, e], "registered=") == Some(e[11..])
  {
    KeysExclude(b);
    KeysExclude(c);
    KeysExclude(d);
    KeysExclude(e);
    FieldOfFive(a, b, c, d, e, "alive=");
    FieldOfFive(a, b, c, d, e, "armed=");
    FieldOfFive(a, b, c, d, e, "grace=");
    FieldOfFive(a, b, c, d, e, "registered=");
  }

  lemma FieldsOfStatus(armed: bool, grace: nat, registered: nat)
    ensures var ws := StatusWords(armed, grace, registered);
      && Field(ws, "alive=") == Some("1")
      && Field(ws, "armed=") == Some([Bit(armed)])
      && Field(ws, "grace=") == Some(Dec(grace))
      && Field(ws, "registered=") == Some(Dec(registered))
  {
    var ws := StatusWords(armed, grace, registered);
    assert "STATUS"[0] == 'S' && "alive=1" == "alive=" + "1";
    FieldsOfFive(ws[0], ws[1], ws[2], ws[3], ws[4]);
  }

  lemma {:induction false} UpperOfUpper(s: string)
    requires forall i :: 0 <= i < |s| ==> 'A' <= s[i] <= 'Z'
    ensures Upper(s) == s
  {
    if s != [] {
      UpperOfUpper(s[1..]);
    }
  }

  lemma RequestReads(verb: string, pid: nat)
    requires verb != [] && forall i :: 0 <= i < |verb| ==> 'A' <= verb[i] <= 'Z'
    requires pid <= Lifecycle.U32_MAX && verb[0] != 'p'
    ensures FirstWordUpper(verb + " " + ("pid=" + Dec(pid))) == verb
    ensures ParsePid(verb + " " + ("pid=" + Dec(pid))) == Some(pid)
  {
    var w := "pid=" + Dec(pid);
    NumberWord("pid=", pid);
    LastWord(w);
    WordsCons(verb, w);
    UpperOfUpper(verb);
    ParseOfDec(pid, Lifecycle.U32_MAX);
    assert [verb] + [w] == [verb, w] && [verb, w][1..] == [w];
    assert "pid="[0] == 'p' != verb[0];
    assert FindPid([w]) == Some(pid);
  }

  /** For every u32, the client's request texts reach the daemon as the verb and pid they were made from. */
  lemma RequestsAgree(pid: nat)
    requires pid <= Lifecycle.U32_MAX
    ensures RegisterText(pid) == "REGISTER pid=" + Dec(pid)
    ensures FirstWordUpper(RegisterText(pid)) == "REGISTER" && ParsePid(RegisterText(pid)) == Some(pid)
    ensures UnregisterText(pid) == "UNREGISTER pid=" + Dec(pid)
    ensures FirstWordUpper(UnregisterText(pid)) == "UNREGISTER" && ParsePid(UnregisterText(pid)) == Some(pid)
  {
    RequestReads("REGISTER", pid);
    RequestReads("UNREGISTER", pid);
    RequestTexts(Dec(pid));
  }

  lemma RequestTexts(d: string)
    ensures "REGISTER" + " " + ("pid=" + d) == "REGISTER pid=" + d
    ensures "UNREGISTER" + " " + ("pid=" + d) == "UNREGISTER pid=" + d
  {
    Joined("REGISTER", " ", "pid=", d);
    Joined("UNREGISTER", " ", "pid=", d);
    assert "REGISTER" + " " + "pid=" == "REGISTER pid=";
    assert "UNREGISTER" + " " + "pid=" == "UNREGISTER pid=";
  }

  lemma Joined(a: string, b: string, c: string, d: string)
    ensures a + b + (c + d) == (a + b + c) + d
  {
  }

  /** The daemon reads a verb in either case. */
  lemma VerbReads(verb: string)
    requires verb != [] && forall i :: 0 <= i < |verb| ==> 'A' <= verb[i] <= 'Z'
    ensures FirstWordUpper(verb) == verb
  {
    LastWord(verb);
    UpperOfUpper(verb);
  }

  lemma TrimReplies()
    ensures Trim("OK\n") == "OK" && Trim("BUSY\n") == "BUSY"
    ensures Trim("ALREADY_ARMED\n") == "ALREADY_ARMED" && Trim("ERROR invalid pid\n") == "ERROR invalid pid"
  {
    assert "OK\n" == "OK" + "\n" && "BUSY\n" == "BUSY" + "\n" && "ALREADY_ARMED\n" == "ALREADY_ARMED" + "\n";
    assert "ERROR invalid pid\n" == "ERROR invalid pid" + "\n";
    TrimLine("OK");
    TrimLine("BUSY");
    TrimLine("ALREADY_ARMED");
    TrimLine("ERROR invalid pid");
  }

  /**
   End to end: a client's REGISTER is answered OK exactly when the pid exists and is on the
   list or the list has room, and then it is on it.
   */
  lemma RegisterEndToEnd(s: Shared, pid: nat, grace: nat, alive: nat -> bool)
    requires pid <= Lifecycle.U32_MAX && Registry.Wellformed(s.registered)
    ensures var line := "REGISTER pid=" + Dec(pid);
      var h := Answer(FirstWordUpper(line), ParsePid(line), s, grace, alive);
      var ok := alive(pid) && (pid in s.registered || |s.registered| < 32);
      && h.stay && (Trim(h.reply) == "OK" <==> ok)
      && h.shared == s.(registered := h.shared.registered)
      && (set p | p in h.shared.registered) == (set p | p in s.registered) + if ok then {pid} else {}
  {
    RequestsAgree(pid);
    RegisterAnswer(Some(pid), s, grace, alive);
    TrimReplies();
  }

  /** End to end: a client's UNREGISTER removes its pid and nothing else. */
  lemma UnregisterEndToEnd(s: Shared, pid: nat, grace: nat, alive: nat -> bool)
    requires pid <= Lifecycle.U32_MAX && Registry.Wellformed(s.registered)
    ensures var line := "UNREGISTER pid=" + Dec(pid);
      var h := Answer(FirstWordUpper(line), ParsePid(line), s, grace, alive);
      && h.stay && Trim(h.reply) == "OK"
      && h.shared == s.(registered := h.shared.registered)
      && (set p | p in h.shared.registered) == (set p | p in s.registered) - {pid}
  {
    RequestsAgree(pid);
    UnregisterAnswer(Some(pid), s, grace, alive);
    TrimReplies();
  }

  /** End to end: ARM always leaves the daemon armed, and is recorded and answered OK exactly when it was not. */
  lemma ArmEndToEnd(s: Shared, grace: nat, alive: nat -> bool)
    ensures var h := Answer(FirstWordUpper("ARM"), ParsePid("ARM"), s, grace, alive);
      && h.stay && Trim(h.reply) == (if s.armed then "ALREADY_ARMED" else "OK")
      && h.shared == Shared(s.registered, true, if s.armed then s.recorded else s.recorded + 1)
  {
    VerbReads("ARM");
    AnswerMeans("ARM", ParsePid("ARM"), s, grace, alive);
    TrimReplies();
  }

  /** End to end: STATUS changes nothing and tells the client the daemon's arm flag, grace time and number of PIDs. */
  lemma StatusEndToEnd(s: Shared, grace: nat, alive: nat -> bool)
    requires Registry.Wellformed(s.registered) && grace <= U64_MAX
    ensures var h := Answer(FirstWordUpper("STATUS"), ParsePid("STATUS"), s, grace, alive);
      && h.stay && h.shared == s
      && StatusOf(Words(Trim(h.reply))) == StatusOut(true, s.armed, grace, |s.registered|)
  {
    VerbReads("STATUS");
    AnswerMeans("STATUS", ParsePid("STATUS"), s, grace, alive);
    StatusAgrees(s.armed, grace, |s.registered|);
  }

  // ----- Admission ------------------------------------------------------------------------

  const MAX_CONTROL: nat := 16

  /** Where a control handler is: `Inside` and `TurnedAway` ones hold a guard that the count includes. */
  datatype Handler = Arriving | Inside | TurnedAway | Gone

  datatype Gate = Gate(count: int, handlers: seq<Handler>)

  datatype Move = Arrive | Enter(h: nat) | Leave(h: nat)

  predicate Guarded(h: Handler) {
    h.Inside? || h.TurnedAway?
  }

  predicate CanMove(g: Gate, m: Move) {
    match m
    case Arrive => true
    case Enter(h) => h < |g.handlers| && g.handlers[h].Arriving?
    case Leave(h) => h < |g.handlers| && Guarded(g.handlers[h])
  }

  /** `fetch_add` and the test of what it returned; dropping the guard. */
  function Moved(g: Gate, m: Move): Gate
    requires CanMove(g, m)
  {
    match m
    case Arrive => g.(handlers := g.handlers + [Arriving])
    case Enter(h) =>
      Gate(g.count + 1, g.handlers[h := if g.count >= MAX_CONTROL then TurnedAway else Inside])
    case Leave(h) => Gate(g.count - 1, g.handlers[h := Gone])
  }

  function After(moves: seq<Move>): Option<Gate> {
    if moves == [] then Some(Gate(0, []))
    else
      match After(moves[..|moves| - 1])
      case None => None
      case Some(g) => if CanMove(g, moves[|moves| - 1]) then Some(Moved(g, moves[|moves| - 1])) else None
  }

  /** A handler that arrives is let in exactly while fewer than 16 guards are held. */
  lemma AdmitsExactlyWhileRoom(moves: seq<Move>, h: nat)
    requires After(moves).Some? && h < |After(moves).value.handlers| && After(moves).value.handlers[h].Arriving?
    ensures CanMove(After(moves).value, Enter(h))
    ensures Moved(After(moves).value, Enter(h)).handlers[h]
         == if Count(After(moves).value.handlers, (x: Handler) => x.Inside? || x.TurnedAway?) < 16 then Inside else TurnedAway
  {
    AdmissionBound(moves);
    SameCount(After(moves).value.handlers, Guarded, (x: Handler) => x.Inside? || x.TurnedAway?);
  }

  /** In every interleaving the count is the guards held, and at most 16 handlers are past the gate. */
  lemma {:induction false} AdmissionBound(moves: seq<Move>)
    requires After(moves).Some?
    ensures var g := After(moves).value;
      && g.count == Count(g.handlers, Guarded)
      && Count(g.handlers, (h: Handler) => h.Inside?) <= 16
  {
    if moves != [] {
      AdmissionBound(moves[..|moves| - 1]);
      var g, m := After(moves[..|moves| - 1]).value, moves[|moves| - 1];
      CountWeaker(g.handlers, (h: Handler) => h.Inside?, Guarded);
      match m
      case Arrive =>
        assert (g.handlers + [Arriving])[..|g.handlers|] == g.handlers;
      case Enter(h) =>
        var x := if g.count >= MAX_CONTROL then TurnedAway else Inside;
        CountUpdate(g.handlers, h, x, Guarded);
        CountUpdate(g.handlers, h, x, (h: Handler) => h.Inside?);
      case Leave(h) =>
        CountUpdate(g.handlers, h, Gone, Guarded);
        CountUpdate(g.handlers, h, Gone, (h: Handler) => h.Inside?);
    }
  }
}
