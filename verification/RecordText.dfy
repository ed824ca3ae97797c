/** What every rendered record looks like, whatever its counters, clock and session. */
module RecordText {
  import opened Wrappers
  import opened Lifecycle
  import opened Text
  import opened Json
  import opened Kiroku

  // ----- Printable text ---------------------------------------------------------------

  predicate Printable(s: string) {
    forall i :: 0 <= i < |s| ==> ' ' <= s[i] <= '~'
  }

  /** Plain trees print as printable ASCII: no control characters, so no line break. */
  lemma {:induction false} TreeIsPrintable(t: Tree)
    requires PlainTree(t)
    ensures Printable(TextOf(t))
    decreases t, 0
  {
    if t.TInt? {
      assert forall i :: 0 <= i < |Dec(t.n)| ==> IsDigit(Dec(t.n)[i]);
    } else if t.TObj? {
      FieldsArePrintable(t.fields);
    }
  }

  lemma {:induction false} FieldsArePrintable(fs: seq<Field>)
    requires PlainFields(fs)
    ensures Printable(FieldsText(fs))
    decreases fs, 1
  {
    if fs != [] {
      TreeIsPrintable(fs[0].val);
      assert Printable(FieldText(fs[0]));
      FieldsArePrintable(fs[1..]);
    }
  }

  // ----- Lengths -----------------------------------------------------------------------

  /** The text of the fields, without the commas. */
  function FieldsLen(fs: seq<Field>): nat {
    if fs == [] then 0 else |FieldText(fs[0])| + FieldsLen(fs[1..])
  }

  lemma {:induction false} FieldsTextLen(fs: seq<Field>)
    requires fs != []
    ensures |FieldsText(fs)| == FieldsLen(fs) + |fs| - 1
  {
    if |fs| > 1 {
      FieldsTextLen(fs[1..]);
    }
  }

  lemma {:induction false} InsertLen(f: Field, fs: seq<Field>)
    ensures FieldsLen(Insert(f, fs)) == |FieldText(f)| + FieldsLen(fs)
  {
    if !(fs == [] || Less(f.key, fs[0].key)) {
      InsertLen(f, fs[1..]);
      assert ([fs[0]] + Insert(f, fs[1..]))[1..] == Insert(f, fs[1..]);
    } else {
      assert ([f] + fs)[1..] == fs;
    }
  }

  lemma {:induction false} SortedLen(fs: seq<Field>)
    ensures FieldsLen(Sorted(fs)) == FieldsLen(fs)
  {
    if fs != [] {
      SortedLen(fs[1..]);
      InsertLen(fs[0], Sorted(fs[1..]));
    }
  }

  lemma {:induction false} LenConcat(a: seq<Field>, b: seq<Field>)
    ensures FieldsLen(a + b) == FieldsLen(a) + FieldsLen(b)
  {
    if a == [] {
      assert a + b == b;
    } else {
      LenConcat(a[1..], b);
      assert (a + b)[1..] == a[1..] + b;
    }
  }

  lemma {:induction false} LenOfThree(fs: seq<Field>)
    requires |fs| <= 3
    ensures FieldsLen(fs) == (if |fs| > 0 then |FieldText(fs[0])| else 0)
                           + (if |fs| > 1 then |FieldText(fs[1])| else 0)
                           + (if |fs| > 2 then |FieldText(fs[2])| else 0)
  {
    if fs != [] {
      LenOfThree(fs[1..]);
    }
  }

  lemma IntFieldLen(key: string, n: nat, digits: nat)
    requires digits > 0 && n < Pow10(digits)
    ensures |FieldText(Field(key, TInt(n)))| <= |key| + digits + 3
  {
    DecLength(n, digits);
  }

  lemma Powers()
    ensures Pow10(10) == 10_000_000_000 && Pow10(16) == 10_000_000_000_000_000
  {
    assert Pow10(5) == 100_000;
    assert Pow10(10) == 10_000_000_000;
    assert Pow10(14) == 100_000_000_000_000;
  }

  lemma WordLengths(c: Component, r: Reason, t: KillTarget, k: ReadKind, v: ArmVia)
    ensures |ComponentStr(c)| <= 8 && |SourceAgent(c)| <= 12
    ensures |ReasonStr(r)| <= 17 && |TargetStr(t)| <= 10 && |KindStr(k)| <= 6 && |ViaStr(v)| <= 7
  {
  }

  lemma CommonFieldsLen(c: Component, session: string, ms: nat)
    requires |session| == 32 && ms <= MAX_SAFE
    ensures |FieldText(Field("component", TStr(ComponentStr(c))))| <= 22
    ensures |FieldText(Field("contract", TStr(CONTRACT)))| == 36
    ensures |FieldText(Field("observed_unix_ms", TInt(ms)))| <= 35
    ensures |FieldText(Field("producer", TStr(PRODUCER)))| == 34
    ensures |FieldText(Field("session", TStr(session)))| == 44
  {
    Powers();
    WordLengths(c, Shutdown, Registered, Static, Startup);
    IntFieldLen("observed_unix_ms", ms, 16);
  }

  lemma CommonLen(c: Component, session: string, ms: nat)
    requires |session| == 32 && ms <= MAX_SAFE
    ensures FieldsLen(CommonArgs(c, session, ms)) <= 171
  {
    var fs := CommonArgs(c, session, ms);
    CommonFieldsLen(c, session, ms);
    LenConcat(fs[..2], fs[2..]);
    assert fs == fs[..2] + fs[2..];
    LenOfThree(fs[..2]);
    LenOfThree(fs[2..]);
  }

  lemma ExtraLen(ev: Record)
    requires CountersFit(ev)
    ensures FieldsLen(ExtraArgs(ev)) <= 67 && |ExtraArgs(ev)| <= 3
  {
    LenOfThree(ExtraArgs(ev));
    Powers();
    match ev
    case SessionStart(_) =>
    case Arm(via) => WordLengths(Dazai, Shutdown, Registered, Static, via);
    case Read(tool, kind, _) =>
      IntFieldLen("tool", tool, 10);
      WordLengths(Dazai, Shutdown, Registered, kind, Startup);
    case Wipe(reason, buffers) =>
      IntFieldLen("buffers", buffers, 10);
      WordLengths(Dazai, reason, Registered, Static, Startup);
    case Kill(reason, target, count, _) =>
      IntFieldLen("count", count, 10);
      WordLengths(Dazai, reason, target, Static, Startup);
    case SessionEnd(reason) => WordLengths(Dazai, reason, Registered, Static, Startup);
  }

  lemma ObjectLen(fs: seq<Field>)
    requires fs != []
    ensures |TextOf(TObj(Sorted(fs)))| == FieldsLen(fs) + |fs| + 1
  {
    SortedKeeps(fs);
    SortedLen(fs);
    FieldsTextLen(Sorted(fs));
  }

  lemma ArgsLen(c: Component, session: string, ms: nat, ev: Record)
    requires |session| == 32 && ms <= MAX_SAFE && CountersFit(ev)
    ensures |TextOf(TObj(Sorted(Args(c, session, ms, ev))))| <= 247
  {
    CommonLen(c, session, ms);
    ExtraLen(ev);
    LenConcat(CommonArgs(c, session, ms), ExtraArgs(ev));
    ObjectLen(Args(c, session, ms, ev));
  }

  lemma LenOfEight(fs: seq<Field>)
    requires |fs| == 8
    ensures |TextOf(TObj(fs))| == FieldsLen(fs) + 9
    ensures FieldsLen(fs) == |FieldText(fs[0])| + |FieldText(fs[1])| + |FieldText(fs[2])| + |FieldText(fs[3])|
                           + |FieldText(fs[4])| + |FieldText(fs[5])| + |FieldText(fs[6])| + |FieldText(fs[7])|
  {
    var a, b, c := fs[..3], fs[3..6], fs[6..];
    assert fs == a + (b + c);
    LenConcat(a, b + c);
    LenConcat(b, c);
    LenOfThree(a);
    LenOfThree(b);
    LenOfThree(c);
    FieldsTextLen(fs);
  }

  lemma FieldTextLen(f: Field)
    ensures |FieldText(f)| == |f.key| + |TextOf(f.val)| + 3
  {
  }

  lemma FixedFieldsLen()
    ensures |FieldText(Field("duration_ms", TInt(0)))| == 15
    ensures |FieldText(Field("event_type", TStr("AgentToolCall")))| == 28
    ensures |FieldText(Field("payload_refs", TEmpty))| == 17
  {
    IntFieldLen("duration_ms", 0, 1);
    FieldTextLen(Field("event_type", TStr("AgentToolCall")));
    FieldTextLen(Field("payload_refs", TEmpty));
  }

  lemma LastFieldsLen(c: Component, success: bool, tool: string)
    ensures |FieldText(Field("source_agent", TStr(SourceAgent(c))))| <= 29
    ensures |FieldText(Field("success", TBool(success)))| <= 15
    ensures |FieldText(Field("tool_name", TStr(tool)))| == |tool| + 14
  {
    WordLengths(c, Shutdown, Registered, Static, Startup);
    FieldTextLen(Field("source_agent", TStr(SourceAgent(c))));
    FieldTextLen(Field("success", TBool(success)));
    FieldTextLen(Field("tool_name", TStr(tool)));
  }

  lemma TopLen(c: Component, args: Tree, result: Tree, success: bool, tool: string)
    ensures |TextOf(TObj(Top(c, args, result, success, tool)))|
         <= |TextOf(args)| + |TextOf(result)| + |tool| + 145
  {
    LenOfEight(Top(c, args, result, success, tool));
    FieldTextLen(Field("args", args));
    FieldTextLen(Field("result", result));
    FixedFieldsLen();
    LastFieldsLen(c, success, tool);
  }

  lemma ResultLen(ev: Record)
    ensures |TextOf(TObj([ResultField(ev)]))| <= 18 && |ToolName(ev)| <= 20
  {
    var f := ResultField(ev);
    assert FieldsText([f]) == FieldText(f);
    assert f.val.TBool? && |f.key| + |TextOf(f.val)| <= 13;
  }

  /** Every record fits one atomic pipe write. */
  lemma RecordFits(c: Component, session: string, ms: nat, ev: Record)
    requires IsSession(session) && ms <= MAX_SAFE && CountersFit(ev)
    ensures |TextOf(RecordTree(c, session, ms, ev)) + "\n"| <= MAX_RECORD_BYTES
  {
    ArgsLen(c, session, ms, ev);
    ResultLen(ev);
    TopLen(c, TObj(Sorted(Args(c, session, ms, ev))), TObj([ResultField(ev)]), Success(ev), ToolName(ev));
  }

  // ----- Keys --------------------------------------------------------------------------

  lemma ArgsDistinct(c: Component, session: string, ms: nat, ev: Record)
    ensures DistinctKeys(Args(c, session, ms, ev))
  {
  }

  lemma {:induction false} AdjacentLess(fs: seq<Field>, i: int, j: int)
    requires forall k :: 0 <= k < |fs| - 1 ==> Less(fs[k].key, fs[k + 1].key)
    requires 0 <= i < j < |fs|
    ensures Less(fs[i].key, fs[j].key)
    decreases j
  {
    if i < j - 1 {
      AdjacentLess(fs, i, j - 1);
      LessTransitive(fs[i].key, fs[j - 1].key, fs[j].key);
    }
  }

  lemma AdjacentSorted(fs: seq<Field>)
    requires forall k :: 0 <= k < |fs| - 1 ==> Less(fs[k].key, fs[k + 1].key)
    ensures StrictlySorted(fs)
  {
    forall i, j | 0 <= i < j < |fs| ensures Less(fs[i].key, fs[j].key) {
      AdjacentLess(fs, i, j);
    }
  }

  lemma TopKeysIncrease()
    ensures Less("args", "duration_ms") && Less("duration_ms", "event_type") && Less("event_type", "payload_refs")
    ensures Less("payload_refs", "result") && Less("result", "source_agent") && Less("source_agent", "success")
    ensures Less("success", "tool_name")
  {
  }

  lemma TopSorted(c: Component, args: Tree, result: Tree, success: bool, tool: string)
    ensures StrictlySorted(Top(c, args, result, success, tool))
  {
    TopKeysIncrease();
    AdjacentSorted(Top(c, args, result, success, tool));
  }

  /** Every object of the tree has strictly increasing keys. */
  predicate KeysSorted(t: Tree) {
    t.TObj? ==>
      StrictlySorted(t.fields)
      && forall i :: 0 <= i < |t.fields| ==> KeysSorted(t.fields[i].val)
  }

  predicate PlainField(f: Field) {
    Plain(f.key) && PlainTree(f.val)
  }

  lemma {:induction false} AllPlain(fs: seq<Field>)
    requires forall i :: 0 <= i < |fs| ==> PlainField(fs[i])
    ensures PlainFields(fs)
  {
    if fs != [] {
      AllPlain(fs[1..]);
    }
  }

  lemma PlainPanicReasons()
    ensures Plain("heartbeat_lost") && Plain("ping_timeout") && Plain("panic_signal") && Plain("hard_panic_signal")
  {
  }

  lemma PlainEndReasons()
    ensures Plain("shutdown") && Plain("client_quit") && Plain("calls_exhausted") && Plain("client_disconnect")
    ensures Plain("daemon_lost")
  {
  }

  lemma PlainReason(r: Reason)
    ensures Plain(ReasonStr(r))
  {
    PlainPanicReasons();
    PlainEndReasons();
  }

  lemma PlainWords(c: Component, t: KillTarget, k: ReadKind, v: ArmVia)
    ensures Plain(ComponentStr(c)) && Plain(SourceAgent(c)) && Plain(TargetStr(t)) && Plain(KindStr(k))
    ensures Plain(ViaStr(v))
  {
    assert Plain(ComponentStr(c)) && Plain(SourceAgent(c));
    assert Plain(TargetStr(t)) && Plain(KindStr(k));
  }

  lemma PlainCommonKeys()
    ensures Plain("component") && Plain("contract") && Plain("observed_unix_ms") && Plain("producer")
    ensures Plain("session") && Plain(CONTRACT) && Plain(PRODUCER)
  {
  }

  lemma PlainExtraKeys()
    ensures Plain("armed") && Plain("via") && Plain("tool") && Plain("kind") && Plain("reason")
    ensures Plain("buffers") && Plain("target") && Plain("count")
  {
  }

  lemma CommonPlain(c: Component, session: string, ms: nat)
    requires IsSession(session)
    ensures forall i :: 0 <= i < 5 ==> PlainField(CommonArgs(c, session, ms)[i])
  {
    PlainWords(c, Registered, Static, Startup);
    PlainCommonKeys();
    assert Plain(session);
  }

  lemma ExtraPlain(ev: Record)
    ensures forall i :: 0 <= i < |ExtraArgs(ev)| ==> PlainField(ExtraArgs(ev)[i])
  {
    PlainExtraKeys();
    match ev
    case SessionStart(_) =>
    case Arm(via) => PlainWords(Dazai, Registered, Static, via);
    case Read(_, kind, _) => PlainWords(Dazai, Registered, kind, Startup);
    case Wipe(reason, _) => PlainReason(reason);
    case Kill(reason, target, _, _) =>
      PlainReason(reason);
      PlainWords(Dazai, target, Static, Startup);
    case SessionEnd(reason) => PlainReason(reason);
  }

  lemma ArgsPlain(c: Component, session: string, ms: nat, ev: Record)
    requires IsSession(session)
    ensures PlainTree(TObj(Sorted(Args(c, session, ms, ev))))
  {
    var fs := Args(c, session, ms, ev);
    CommonPlain(c, session, ms);
    ExtraPlain(ev);
    SortedKeeps(fs);
    forall i | 0 <= i < |Sorted(fs)| ensures PlainField(Sorted(fs)[i]) {
      assert Sorted(fs)[i] in fs;
    }
    AllPlain(Sorted(fs));
  }

  lemma PlainToolWords()
    ensures Plain("ningen.session_start") && Plain("ningen.arm") && Plain("ningen.read") && Plain("ningen.wipe")
    ensures Plain("ningen.kill") && Plain("ningen.session_end")
  {
  }

  lemma PlainResultKeys()
    ensures Plain("served") && Plain("executed") && Plain("success")
  {
  }

  lemma PlainToolName(ev: Record)
    ensures Plain(ToolName(ev)) && Plain(ResultField(ev).key)
  {
    PlainToolWords();
    PlainResultKeys();
  }

  lemma PlainTopWords()
    ensures Plain("args") && Plain("duration_ms") && Plain("event_type") && Plain("AgentToolCall")
    ensures Plain("payload_refs") && Plain("result") && Plain("source_agent") && Plain("success") && Plain("tool_name")
  {
  }

  lemma TopPlain(c: Component, args: Tree, ev: Record)
    requires PlainTree(args)
    ensures PlainTree(TObj(Top(c, args, TObj([ResultField(ev)]), Success(ev), ToolName(ev))))
  {
    PlainToolName(ev);
    PlainTopWords();
    PlainWords(c, Registered, Static, Startup);
    AllPlain([ResultField(ev)]);
    AllPlain(Top(c, args, TObj([ResultField(ev)]), Success(ev), ToolName(ev)));
  }

  lemma RecordPlain(c: Component, session: string, ms: nat, ev: Record)
    requires IsSession(session)
    ensures PlainTree(RecordTree(c, session, ms, ev))
  {
    ArgsPlain(c, session, ms, ev);
    TopPlain(c, TObj(Sorted(Args(c, session, ms, ev))), ev);
  }

  lemma ScalarArgs(c: Component, session: string, ms: nat, ev: Record)
    ensures forall i :: 0 <= i < |Args(c, session, ms, ev)| ==> !Args(c, session, ms, ev)[i].val.TObj?
  {
  }

  lemma ArgsSorted(c: Component, session: string, ms: nat, ev: Record)
    ensures KeysSorted(TObj(Sorted(Args(c, session, ms, ev))))
  {
    var fs := Args(c, session, ms, ev);
    ArgsDistinct(c, session, ms, ev);
    SortedSorts(fs);
    SortedKeeps(fs);
    ScalarArgs(c, session, ms, ev);
    forall i | 0 <= i < |Sorted(fs)| ensures KeysSorted(Sorted(fs)[i].val) {
      assert Sorted(fs)[i] in fs;
    }
  }

  lemma RecordSorted(c: Component, session: string, ms: nat, ev: Record)
    ensures KeysSorted(RecordTree(c, session, ms, ev))
  {
    var args, result := TObj(Sorted(Args(c, session, ms, ev))), TObj([ResultField(ev)]);
    ArgsSorted(c, session, ms, ev);
    assert KeysSorted(result);
    TopSorted(c, args, result, Success(ev), ToolName(ev));
  }

  /** Every record: one line of printable ASCII within the bound, keys strictly increasing in every object. */
  lemma RecordLine(c: Component, session: string, ms: nat, ev: Record)
    requires IsSession(session) && ms <= MAX_SAFE && CountersFit(ev)
    ensures var tree := RecordTree(c, session, ms, ev);
      && KeysSorted(tree)
      && (forall i :: 0 <= i < |TextOf(tree)| ==> ' ' <= TextOf(tree)[i] <= '~')
      && |TextOf(tree) + "\n"| <= 512
      && Parse(TextOf(tree)) == Some(ValueOf(tree))
  {
    RecordSorted(c, session, ms, ev);
    RecordPlain(c, session, ms, ev);
    TreeIsPrintable(RecordTree(c, session, ms, ev));
    RecordFits(c, session, ms, ev);
    RoundTrip(RecordTree(c, session, ms, ev));
  }
}
