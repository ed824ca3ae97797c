/**
 The record printer (kiroku): one lifecycle step becomes one line of JSON in the shape
 the ledger appends. Keys are sorted, strings come from closed vocabularies, and every
 line fits one atomic pipe write.
 */
module Kiroku {
  import opened Lifecycle
  import opened Text
  import opened Json

  const CONTRACT: string := "ningen-korg-lifecycle@1"
  const PRODUCER: string := "ningen-shikkaku@0.2.0"
  const MAX_RECORD_BYTES: nat := 512
  const MAX_SAFE: nat := 0x1F_FFFF_FFFF_FFFF

  // ----- Vocabularies ------------------------------------------------------------------

  function ComponentStr(c: Component): string {
    match c
    case Dazai => "dazai"
    case Motokano => "motokano"
  }

  function SourceAgent(c: Component): string {
    match c
    case Dazai => "mcp:dazai"
    case Motokano => "mcp:motokano"
  }

  function ViaStr(v: ArmVia): string {
    match v
    case Startup => "startup"
    case Control => "control"
  }

  function ReasonStr(r: Reason): string {
    match r
    case LostHeartbeat => "heartbeat_lost"
    case MissedPing => "ping_timeout"
    case PanicSignal => "panic_signal"
    case HardPanicSignal => "hard_panic_signal"
    case Shutdown => "shutdown"
    case ClientQuit => "client_quit"
    case CallsExhausted => "calls_exhausted"
    case ClientDisconnect => "client_disconnect"
    case DaemonLost => "daemon_lost"
  }

  function TargetStr(t: KillTarget): string {
    match t
    case Registered => "registered"
    case SelfProcess => "self"
  }

  function KindStr(k: ReadKind): string {
    match k
    case Static => "static"
    case Exec => "exec"
  }

  function ToolName(ev: Record): string {
    match ev
    case SessionStart(_) => "ningen.session_start"
    case Arm(_) => "ningen.arm"
    case Read(_, _, _) => "ningen.read"
    case Wipe(_, _) => "ningen.wipe"
    case Kill(_, _, _, _) => "ningen.kill"
    case SessionEnd(_) => "ningen.session_end"
  }

  // ----- Well-formed inputs ------------------------------------------------------------

  /** Counters are u32. */
  predicate CountersFit(ev: Record) {
    match ev
    case Read(tool, _, _) => tool <= U32_MAX
    case Wipe(_, buffers) => buffers <= U32_MAX
    case Kill(_, _, count, _) => count <= U32_MAX
    case _ => true
  }

  predicate IsHex(c: char) {
    '0' <= c <= '9' || 'a' <= c <= 'f'
  }

  predicate IsSession(s: string) {
    |s| == 32 && forall i :: 0 <= i < |s| ==> IsHex(s[i])
  }

  function HexDigit(d: nat): (c: char)
    requires d < 16
    ensures c == "0123456789abcdef"[d]
  {
    if d < 10 then ('0' as int + d) as char else ('a' as int + d - 10) as char
  }

  /** Sixteen random bytes in lowercase hex, two digits a byte. */
  method SessionId(bytes: seq<bv8>) returns (hex: string)
    requires |bytes| == 16
    ensures IsSession(hex) && |hex| == 32
    ensures forall i :: 0 <= i < 16 ==>
      && hex[2 * i] == "0123456789abcdef"[bytes[i] as nat / 16]
      && hex[2 * i + 1] == "0123456789abcdef"[bytes[i] as nat % 16]
  {
    hex := "";
    for i := 0 to 16
      invariant |hex| == 2 * i
      invariant forall j :: 0 <= j < |hex| ==> IsHex(hex[j])
      invariant forall j :: 0 <= j < i ==>
        hex[2 * j] == HexDigit(bytes[j] as nat / 16) && hex[2 * j + 1] == HexDigit(bytes[j] as nat % 16)
    {
      var b := bytes[i] as nat;
      hex := hex + [HexDigit(b / 16), HexDigit(b % 16)];
    }
  }

  /** The record's clock: 0 before 1970, and never past the ledger's integer domain. */
  function ClampMs(sinceEpochMs: int): (ms: nat)
    ensures sinceEpochMs < 0 ==> ms == 0
    ensures 0 <= sinceEpochMs <= 0x1F_FFFF_FFFF_FFFF ==> ms == sinceEpochMs
    ensures sinceEpochMs > 0x1F_FFFF_FFFF_FFFF ==> ms == 0x1F_FFFF_FFFF_FFFF
  {
    if sinceEpochMs < 0 then 0 else if sinceEpochMs > MAX_SAFE then MAX_SAFE else sinceEpochMs
  }

  // ----- Sorting keys ------------------------------------------------------------------

  /** Byte order on ASCII keys. */
  predicate Less(a: string, b: string) {
    b != [] && (a == [] || a[0] < b[0] || (a[0] == b[0] && Less(a[1..], b[1..])))
  }

  /** The order of the first characters that differ; a proper prefix comes first. */
  lemma {:induction false} LessIsByteOrder(a: string, b: string)
    ensures Less(a, b) <==>
      exists k :: 0 <= k <= |a| && k < |b| && a[..k] == b[..k] && (k == |a| || a[k] < b[k])
  {
    forall k | 0 < k <= |a| && k < |b| && a[..k] == b[..k] ensures a[0] == b[0] {
      assert a[..k][0] == b[..k][0];
    }
    if a != [] && b != [] && a[0] == b[0] {
      var s, t := a[1..], b[1..];
      LessIsByteOrder(s, t);
      forall k | 0 < k <= |a| && k < |b| && a[..k] == b[..k] ensures s[..k - 1] == t[..k - 1] {
        assert s[..k - 1] == a[..k][1..] && t[..k - 1] == b[..k][1..];
      }
      if k :| 0 <= k <= |s| && k < |t| && s[..k] == t[..k] && (k == |s| || s[k] < t[k]) {
        assert a[..k + 1] == [a[0]] + s[..k] && b[..k + 1] == [b[0]] + t[..k];
      }
    } else if b != [] && (a == [] || a[0] < b[0]) {
      assert a[..0] == b[..0];
    }
  }

  lemma {:induction false} LessIsStrictTotal(a: string, b: string)
    ensures Less(a, b) || a == b || Less(b, a)
    ensures !(Less(a, b) && Less(b, a)) && !Less(a, a)
  {
    if a != [] {
      LessIsStrictTotal(a[1..], if b == [] then [] else b[1..]);
      if b != [] && a[0] == b[0] && a[1..] == b[1..] {
        assert a == [a[0]] + a[1..] && b == [b[0]] + b[1..];
      }
    }
  }

  lemma {:induction false} LessTransitive(a: string, b: string, c: string)
    requires Less(a, b) && Less(b, c)
    ensures Less(a, c)
  {
    if a != [] && a[0] == b[0] && b[0] == c[0] {
      LessTransitive(a[1..], b[1..], c[1..]);
    }
  }

  predicate StrictlySorted(fs: seq<Field>) {
    forall i, j :: 0 <= i < j < |fs| ==> Less(fs[i].key, fs[j].key)
  }

  predicate DistinctKeys(fs: seq<Field>) {
    forall i, j :: 0 <= i < j < |fs| ==> fs[i].key != fs[j].key
  }

  function Insert(f: Field, fs: seq<Field>): seq<Field> {
    if fs == [] || Less(f.key, fs[0].key) then [f] + fs
    else [fs[0]] + Insert(f, fs[1..])
  }

  function Sorted(fs: seq<Field>): seq<Field> {
    if fs == [] then [] else Insert(fs[0], Sorted(fs[1..]))
  }

  lemma {:induction false} InsertKeeps(f: Field, fs: seq<Field>)
    ensures multiset(Insert(f, fs)) == multiset(fs) + multiset{f}
    ensures |Insert(f, fs)| == |fs| + 1
    ensures forall g :: g in Insert(f, fs) <==> g == f || g in fs
  {
    if !(fs == [] || Less(f.key, fs[0].key)) {
      InsertKeeps(f, fs[1..]);
      assert fs == [fs[0]] + fs[1..];
    }
  }

  /** Sorting permutes the fields. */
  lemma {:induction false} SortedKeeps(fs: seq<Field>)
    ensures multiset(Sorted(fs)) == multiset(fs)
    ensures |Sorted(fs)| == |fs|
    ensures forall g :: g in Sorted(fs) <==> g in fs
  {
    if fs != [] {
      SortedKeeps(fs[1..]);
      InsertKeeps(fs[0], Sorted(fs[1..]));
      assert fs == [fs[0]] + fs[1..];
    }
  }

  lemma {:induction false} InsertSorts(f: Field, fs: seq<Field>)
    requires StrictlySorted(fs) && forall i :: 0 <= i < |fs| ==> fs[i].key != f.key
    ensures StrictlySorted(Insert(f, fs))
  {
    var r := Insert(f, fs);
    InsertKeeps(f, fs);
    if fs != [] {
      LessIsStrictTotal(f.key, fs[0].key);
      if Less(f.key, fs[0].key) {
        forall j | 0 < j < |r| ensures Less(r[0].key, r[j].key) {
          if j > 1 {
            LessTransitive(f.key, fs[0].key, fs[j - 1].key);
          }
        }
      } else {
        var rest := fs[1..];
        InsertSorts(f, rest);
        InsertKeeps(f, rest);
        forall j | 0 < j < |r| ensures Less(r[0].key, r[j].key) {
          assert r[j] in Insert(f, rest);
          if r[j] != f {
            assert r[j] in rest;
          }
        }
      }
    }
  }

  /** Distinct keys come out strictly increasing. */
  lemma {:induction false} SortedSorts(fs: seq<Field>)
    requires DistinctKeys(fs)
    ensures StrictlySorted(Sorted(fs))
  {
    if fs != [] {
      SortedSorts(fs[1..]);
      SortedKeeps(fs[1..]);
      forall i | 0 <= i < |fs| - 1 ensures Sorted(fs[1..])[i].key != fs[0].key {
        assert Sorted(fs[1..])[i] in fs[1..];
      }
      InsertSorts(fs[0], Sorted(fs[1..]));
    }
  }

  // ----- The fields of a record -------------------------------------------------------

  function CommonArgs(c: Component, session: string, ms: nat): seq<Field> {
    [Field("component", TStr(ComponentStr(c))),
     Field("contract", TStr(CONTRACT)),
     Field("observed_unix_ms", TInt(ms)),
     Field("producer", TStr(PRODUCER)),
     Field("session", TStr(session))]
  }

  function ExtraArgs(ev: Record): seq<Field> {
    match ev
    case SessionStart(armed) => [Field("armed", TBool(armed))]
    case Arm(via) => [Field("via", TStr(ViaStr(via)))]
    case Read(tool, kind, _) => [Field("tool", TInt(tool)), Field("kind", TStr(KindStr(kind)))]
    case Wipe(reason, buffers) => [Field("reason", TStr(ReasonStr(reason))), Field("buffers", TInt(buffers))]
    case Kill(reason, target, count, _) =>
      [Field("reason", TStr(ReasonStr(reason))), Field("target", TStr(TargetStr(target))), Field("count", TInt(count))]
    case SessionEnd(reason) => [Field("reason", TStr(ReasonStr(reason)))]
  }

  function ResultField(ev: Record): Field {
    match ev
    case Read(_, _, served) => Field("served", TBool(served))
    case Kill(_, _, _, executed) => Field("executed", TBool(executed))
    case _ => Field("success", TBool(true))
  }

  function Success(ev: Record): bool {
    ev.Read? ==> ev.served
  }

  function Args(c: Component, session: string, ms: nat, ev: Record): seq<Field> {
    CommonArgs(c, session, ms) + ExtraArgs(ev)
  }

  /** A record's fields, around its two inner objects. */
  function Top(c: Component, args: Tree, result: Tree, success: bool, tool: string): seq<Field> {
    [Field("args", args),
     Field("duration_ms", TInt(0)),
     Field("event_type", TStr("AgentToolCall")),
     Field("payload_refs", TEmpty),
     Field("result", result),
     Field("source_agent", TStr(SourceAgent(c))),
     Field("success", TBool(success)),
     Field("tool_name", TStr(tool))]
  }

  /** The record of one lifecycle step, as a tree. */
  function RecordTree(c: Component, session: string, ms: nat, ev: Record): Tree {
    TObj(Top(c, TObj(Sorted(Args(c, session, ms, ev))), TObj([ResultField(ev)]), Success(ev), ToolName(ev)))
  }

  // ----- Printing ----------------------------------------------------------------------

  class Output {
    var text: string
    constructor ()
      ensures text == ""
    {
      text := "";
    }
  }

  /** The standard library's in-place sort. */
  method SortByKey(fields: array<Field>)
    modifies fields
    ensures fields[..] == Sorted(old(fields[..]))
  {
    var sorted := Sorted(fields[..]);
    SortedKeeps(fields[..]);
    forall i | 0 <= i < fields.Length {
      fields[i] := sorted[i];
    }
    assert fields[..] == sorted;
  }

  /** Sorts the fields by key in place and appends them as one object. */
  method PushObject(out: Output, fields: array<Field>)
    modifies out, fields
    ensures fields[..] == Sorted(old(fields[..]))
    ensures out.text == old(out.text) + TextOf(TObj(Sorted(old(fields[..]))))
  {
    SortByKey(fields);
    ghost var open := out.text + "{";
    out.text := out.text + "{";
    for i := 0 to fields.Length
      invariant fields[..] == old(Sorted(fields[..]))
      invariant out.text == open + FieldsText(fields[..i])
    {
      if i > 0 {
        out.text := out.text + ",";
      }
      out.text := out.text + FieldText(fields[i]);
      AppendField(open, fields[..i], fields[i]);
      assert fields[..i + 1] == fields[..i] + [fields[i]];
    }
    assert fields[..fields.Length] == fields[..];
    out.text := out.text + "}";
    assert out.text == old(out.text) + ("{" + FieldsText(fields[..]) + "}");
  }

  lemma {:induction false} FieldsTextSnoc(fs: seq<Field>, f: Field)
    ensures FieldsText(fs + [f]) == FieldsText(fs) + (if fs == [] then "" else ",") + FieldText(f)
  {
    if |fs| > 0 {
      FieldsTextSnoc(fs[1..], f);
      assert (fs + [f])[1..] == fs[1..] + [f];
    }
  }

  lemma AppendField(open: string, fs: seq<Field>, f: Field)
    ensures (if fs == [] then open + FieldsText(fs) else open + FieldsText(fs) + ",") + FieldText(f)
         == open + FieldsText(fs + [f])
  {
    FieldsTextSnoc(fs, f);
  }

  /** An object's text up to its first n fields. */
  function Joined(fs: seq<Field>, n: nat): string
    requires 1 <= n <= |fs|
  {
    if n == 1 then "{" + FieldText(fs[0]) else Joined(fs, n - 1) + "," + FieldText(fs[n - 1])
  }

  lemma {:induction false} JoinedText(fs: seq<Field>, n: nat)
    requires 1 <= n <= |fs|
    ensures Joined(fs, n) == "{" + FieldsText(fs[..n])
  {
    if n > 1 {
      JoinedText(fs, n - 1);
      AppendField("{", fs[..n - 1], fs[n - 1]);
      assert fs[..n] == fs[..n - 1] + [fs[n - 1]];
    }
  }

  /** Appends a comma and one written-out field: n fields become n + 1. */
  method PushField(out: Output, f: Field, ghost top: seq<Field>, ghost n: nat)
    requires 1 <= n < |top| && top[n] == f && out.text == Joined(top, n)
    modifies out
    ensures out.text == Joined(top, n + 1)
  {
    out.text := out.text + "," + FieldText(f);
  }

  /** Appends `key:` and a sorted object, after whatever is there. */
  method PushNested(out: Output, key: string, fs: seq<Field>)
    modifies out
    ensures out.text == old(out.text) + FieldText(Field(key, TObj(Sorted(fs))))
  {
    ghost var before := out.text;
    out.text := out.text + (Quoted(key) + ":");
    var fields := new Field[|fs|](i requires 0 <= i < |fs| => fs[i]);
    assert fields[..] == fs;
    PushObject(out, fields);
    assert out.text == before + (Quoted(key) + ":") + TextOf(TObj(Sorted(fs)));
  }

  /** Renders one record, newline-terminated. */
  method Render(c: Component, session: string, ms: nat, ev: Record) returns (line: string)
    ensures line == TextOf(RecordTree(c, session, ms, ev)) + "\n"
  {
    var args := CommonArgs(c, session, ms);
    var success := true;
    var result: seq<Field>;
    match ev {
      case SessionStart(armed) =>
        args := args + [Field("armed", TBool(armed))];
        result := [Field("success", TBool(true))];
      case Arm(via) =>
        args := args + [Field("via", TStr(ViaStr(via)))];
        result := [Field("success", TBool(true))];
      case Read(tool, kind, served) =>
        args := args + [Field("tool", TInt(tool))];
        args := args + [Field("kind", TStr(KindStr(kind)))];
        success := served;
        result := [Field("served", TBool(served))];
      case Wipe(reason, buffers) =>
        args := args + [Field("reason", TStr(ReasonStr(reason)))];
        args := args + [Field("buffers", TInt(buffers))];
        result := [Field("success", TBool(true))];
      case Kill(reason, target, count, executed) =>
        args := args + [Field("reason", TStr(ReasonStr(reason)))];
        args := args + [Field("target", TStr(TargetStr(target)))];
        args := args + [Field("count", TInt(count))];
        result := [Field("executed", TBool(executed))];
      case SessionEnd(reason) =>
        args := args + [Field("reason", TStr(ReasonStr(reason)))];
        result := [Field("success", TBool(true))];
    }
    assert args == Args(c, session, ms, ev) && result == [ResultField(ev)] && success == Success(ev);
    line := RenderParts(c, args, result, success, ToolName(ev));
    assert Sorted(result) == result;
  }

  /** The text up to and including the first inner object. */
  method Opening(out: Output, args: seq<Field>, ghost top: seq<Field>)
    requires |top| == 8 && top[..4] == [Field("args", TObj(Sorted(args))), Field("duration_ms", TInt(0)),
                                        Field("event_type", TStr("AgentToolCall")), Field("payload_refs", TEmpty)]
    modifies out
    ensures out.text == Joined(top, 4)
  {
    ghost var lead := top[..4];
    assert lead[0] == top[0] && lead[1] == top[1] && lead[2] == top[2] && lead[3] == top[3];
    out.text := "{";
    PushNested(out, "args", args);
    PushField(out, Field("duration_ms", TInt(0)), top, 1);
    PushField(out, Field("event_type", TStr("AgentToolCall")), top, 2);
    PushField(out, Field("payload_refs", TEmpty), top, 3);
  }

  /** The text around the two sorted objects. */
  method RenderParts(c: Component, args: seq<Field>, result: seq<Field>, success: bool, tool: string)
    returns (line: string)
    ensures line == TextOf(TObj(Top(c, TObj(Sorted(args)), TObj(Sorted(result)), success, tool))) + "\n"
  {
    ghost var top := Top(c, TObj(Sorted(args)), TObj(Sorted(result)), success, tool);
    var out := new Output();
    Opening(out, args, top);
    out.text := out.text + ",";
    PushNested(out, "result", result);
    PushField(out, Field("source_agent", TStr(SourceAgent(c))), top, 5);
    PushField(out, Field("success", TBool(success)), top, 6);
    PushField(out, Field("tool_name", TStr(tool)), top, 7);
    JoinedText(top, 8);
    assert top[..8] == top;
    line := out.text + "}" + "\n";
  }
}
