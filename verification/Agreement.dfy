/**
 Printer and validator agree: the accepted values are in bijection with component,
 session, clamped time and lifecycle step, and every printed line is accepted.
 */
module Agreement {
  import opened Wrappers
  import opened Lifecycle
  import opened Json
  import opened Kiroku
  import opened RecordText
  import opened Contract

  // ----- Vocabularies -----------------------------------------------------------------

  lemma Named<T>(all: seq<T>, f: T -> string, x: T)
    requires x in all
    ensures f(x) in Names(all, f)
  {
    var i :| 0 <= i < |all| && all[i] == x;
    assert Names(all, f)[i] == f(x);
  }

  lemma Unname<T>(all: seq<T>, f: T -> string, s: string) returns (x: T)
    requires s in Names(all, f)
    ensures x in all && f(x) == s
  {
    var i :| 0 <= i < |Names(all, f)| && Names(all, f)[i] == s;
    x := all[i];
  }

  /** The vocabulary lists leave no variant out. */
  lemma AllListed(c: Component, v: ArmVia, r: Reason, t: KillTarget, k: ReadKind)
    ensures c in COMPONENTS && v in VIAS && r in REASONS && t in TARGETS && k in KINDS
  {
  }

  lemma ReasonListed(r: Reason)
    ensures ReasonStr(r) in Names(REASONS, ReasonStr)
  {
    AllListed(Dazai, Startup, r, Registered, Static);
    Named(REASONS, ReasonStr, r);
  }

  // ----- The step's own fields -----------------------------------------------------------

  lemma StepKeys(ev: Record)
    ensures KeysOf(ExtraArgs(ev)) == ExtraKeys(ToolName(ev))
    ensures KeysOf([ResultField(ev)]) == ResultKeys(ToolName(ev))
    ensures ToolName(ev) in TOOL_NAMES
  {
  }

  /** The fields the printer writes for a step pass the step's checks. */
  lemma StepSound(ev: Record, args: Object, result: Object)
    requires CountersFit(ev)
    requires Has(args, ExtraArgs(ev)) && Has(result, [ResultField(ev)])
    ensures StepOk(ToolName(ev), args, result, Success(ev))
    ensures ResultKeys(ToolName(ev)) == ["success"] ==> "success" in result && result["success"] == Bool(true) && Success(ev)
  {
    var fs := ExtraArgs(ev);
    assert result[[ResultField(ev)][0].key] == ValueOf(ResultField(ev).val);
    match ev
    case SessionStart(armed) => assert fs[0].key in args;
    case Arm(via) =>
      assert fs[0].key in args;
      AllListed(Dazai, via, Shutdown, Registered, Static);
      Named(VIAS, ViaStr, via);
    case Read(tool, kind, _) =>
      assert fs[0].key in args && fs[1].key in args;
      AllListed(Dazai, Startup, Shutdown, Registered, kind);
      Named(KINDS, KindStr, kind);
    case Wipe(reason, buffers) =>
      assert fs[0].key in args && fs[1].key in args;
      ReasonListed(reason);
    case Kill(reason, target, count, _) =>
      assert fs[0].key in args && fs[1].key in args && fs[2].key in args;
      ReasonListed(reason);
      AllListed(Dazai, Startup, Shutdown, target, Static);
      Named(TARGETS, TargetStr, target);
    case SessionEnd(reason) =>
      assert fs[0].key in args;
      ReasonListed(reason);
  }

  /** Fields that pass a step's checks are those of some step. */
  lemma StepComplete(tool: string, args: Object, result: Object, success: bool) returns (ev: Record)
    requires tool in TOOL_NAMES && StepOk(tool, args, result, success)
    requires ExactKeys(result, ResultKeys(tool))
    requires ResultKeys(tool) == ["success"] ==> result["success"] == Bool(true) && success
    ensures ToolName(ev) == tool && CountersFit(ev) && Success(ev) == success
    ensures Has(args, ExtraArgs(ev)) && Has(result, [ResultField(ev)])
  {
    if tool == "ningen.session_start" {
      ev := SessionStart(args["armed"].b);
    } else if tool == "ningen.arm" {
      var via := Unname(VIAS, ViaStr, args["via"].s);
      ev := Arm(via);
    } else if tool == "ningen.read" {
      var kind := Unname(KINDS, KindStr, args["kind"].s);
      ev := Read(args["tool"].n, kind, success);
    } else {
      var reason := Unname(REASONS, ReasonStr, args["reason"].s);
      if tool == "ningen.wipe" {
        ev := Wipe(reason, args["buffers"].n);
      } else if tool == "ningen.kill" {
        var target := Unname(TARGETS, TargetStr, args["target"].s);
        ev := Kill(reason, target, args["count"].n, result["executed"].b);
      } else {
        ev := SessionEnd(reason);
      }
    }
  }

  // ----- The common fields ------------------------------------------------------------

  lemma CommonSound(c: Component, session: string, ms: nat, args: Object)
    requires IsSession(session) && ms <= MAX_SAFE
    requires Has(args, CommonArgs(c, session, ms))
    ensures CommonOk(args, SourceAgent(c))
  {
    var fs := CommonArgs(c, session, ms);
    assert fs[0].key in args && fs[1].key in args && fs[2].key in args && fs[3].key in args && fs[4].key in args;
    AllListed(c, Startup, Shutdown, Registered, Static);
    Named(COMPONENTS, ComponentStr, c);
  }

  lemma CommonComplete(args: Object, agent: string) returns (c: Component, session: string, ms: nat)
    requires CommonOk(args, agent)
    ensures IsSession(session) && ms <= MAX_SAFE && SourceAgent(c) == agent
    ensures Has(args, CommonArgs(c, session, ms))
  {
    c :| c in COMPONENTS && ComponentStr(c) == args["component"].s && SourceAgent(c) == agent;
    session := args["session"].s;
    ms := args["observed_unix_ms"].n;
  }

  // ----- Whole records ---------------------------------------------------------------

  /** The values of a record's outer object, in key order, around its two inner objects. */
  function OuterValues(c: Component, ev: Record, args: Object, result: Object): (vals: seq<Value>)
    ensures |vals| == |TOP_KEYS|
  {
    [Obj(args), Int(0), Str("AgentToolCall"), Arr([]), Obj(result),
     Str(SourceAgent(c)), Bool(Success(ev)), Str(ToolName(ev))]
  }

  predicate Outer(top: Object, vals: seq<Value>)
    requires |vals| == |TOP_KEYS|
  {
    && ExactKeys(top, TOP_KEYS)
    && forall i :: 0 <= i < |TOP_KEYS| ==> TOP_KEYS[i] in top && top[TOP_KEYS[i]] == vals[i]
  }

  lemma TopNames(c: Component, args: Tree, result: Tree, success: bool, tool: string)
    ensures KeysOf(Top(c, args, result, success, tool)) == TOP_KEYS
    ensures forall i :: 0 <= i < 8 ==> Top(c, args, result, success, tool)[i].key == TOP_KEYS[i]
  {
  }

  lemma TopDistinct(c: Component, args: Tree, result: Tree, success: bool, tool: string)
    ensures DistinctKeys(Top(c, args, result, success, tool))
  {
    TopSorted(c, args, result, success, tool);
    SortedIsDistinct(Top(c, args, result, success, tool));
  }

  lemma TopValues(c: Component, args: seq<Field>, result: seq<Field>, ev: Record)
    ensures var fs := Top(c, TObj(args), TObj(result), Success(ev), ToolName(ev));
      var vals := OuterValues(c, ev, FieldsMap(args), FieldsMap(result));
      forall i :: 0 <= i < 8 ==> ValueOf(fs[i].val) == vals[i]
  {
    ScalarValues(SourceAgent(c), Success(ev), ToolName(ev));
    assert ValueOf(TObj(args)) == Obj(FieldsMap(args)) && ValueOf(TObj(result)) == Obj(FieldsMap(result));
  }

  lemma ScalarValues(agent: string, success: bool, tool: string)
    ensures ValueOf(TInt(0)) == Int(0) && ValueOf(TStr("AgentToolCall")) == Str("AgentToolCall") && ValueOf(TEmpty) == Arr([])
    ensures ValueOf(TStr(agent)) == Str(agent) && ValueOf(TBool(success)) == Bool(success) && ValueOf(TStr(tool)) == Str(tool)
  {
  }

  lemma OuterIff(top: Object, fs: seq<Field>, vals: seq<Value>)
    requires |fs| == |TOP_KEYS| == |vals| && KeysOf(fs) == TOP_KEYS
    requires forall i :: 0 <= i < |fs| ==> fs[i].key == TOP_KEYS[i] && ValueOf(fs[i].val) == vals[i]
    ensures Outer(top, vals) <==> Describes(top, fs)
  {
  }

  /** The value of a printed record is its outer object around the two inner ones. */
  lemma RecordShape(v: Value, c: Component, session: string, ms: nat, ev: Record)
    ensures v == ValueOf(RecordTree(c, session, ms, ev)) <==>
      v.Obj? && Outer(v.fields, OuterValues(c, ev, FieldsMap(Sorted(Args(c, session, ms, ev))), FieldsMap([ResultField(ev)])))
  {
    var args, result := Sorted(Args(c, session, ms, ev)), [ResultField(ev)];
    var fs := Top(c, TObj(args), TObj(result), Success(ev), ToolName(ev));
    TopNames(c, TObj(args), TObj(result), Success(ev), ToolName(ev));
    TopDistinct(c, TObj(args), TObj(result), Success(ev), ToolName(ev));
    TopValues(c, args, result, ev);
    if v.Obj? {
      OuterIff(v.fields, fs, OuterValues(c, ev, FieldsMap(args), FieldsMap(result)));
      DescribedMap(v.fields, fs);
    }
  }

  lemma ArgsShape(m: Object, c: Component, session: string, ms: nat, ev: Record)
    ensures Describes(m, Args(c, session, ms, ev)) <==> m == FieldsMap(Sorted(Args(c, session, ms, ev)))
  {
    var args := Args(c, session, ms, ev);
    ArgsDistinct(c, session, ms, ev);
    SortedSorts(args);
    SortedIsDistinct(Sorted(args));
    DescribedMap(m, Sorted(args));
    DescribesSorted(m, args);
  }

  lemma SortedIsDistinct(fs: seq<Field>)
    requires StrictlySorted(fs)
    ensures DistinctKeys(fs)
  {
    forall i, j | 0 <= i < j < |fs| ensures fs[i].key != fs[j].key {
      LessIsStrictTotal(fs[i].key, fs[j].key);
    }
  }

  predicate Sayable(session: string, ms: nat, ev: Record) {
    IsSession(session) && ms <= MAX_SAFE && CountersFit(ev)
  }

  lemma InnerIff(args: Object, result: Object, c: Component, session: string, ms: nat, ev: Record)
    ensures Describes(args, Args(c, session, ms, ev)) && Describes(result, [ResultField(ev)]) <==>
      && ExactKeys(args, COMMON_ARGS + ExtraKeys(ToolName(ev)))
      && ExactKeys(result, ResultKeys(ToolName(ev)))
      && Has(args, CommonArgs(c, session, ms)) && Has(args, ExtraArgs(ev)) && Has(result, [ResultField(ev)])
  {
    HasConcat(args, CommonArgs(c, session, ms), ExtraArgs(ev));
    StepKeys(ev);
    assert KeysOf(CommonArgs(c, session, ms)) == COMMON_ARGS;
  }

  lemma OuterSound(top: Object, c: Component, ev: Record, args: Object, result: Object)
    requires Outer(top, OuterValues(c, ev, args, result))
    ensures OuterOk(top)
    ensures top["args"] == Obj(args) && top["result"] == Obj(result)
    ensures top["source_agent"] == Str(SourceAgent(c)) && top["tool_name"] == Str(ToolName(ev))
    ensures top["success"] == Bool(Success(ev))
  {
    var keys, vals := TOP_KEYS, OuterValues(c, ev, args, result);
    assert top[keys[0]] == vals[0] && top[keys[1]] == vals[1] && top[keys[2]] == vals[2] && top[keys[3]] == vals[3];
    assert top[keys[4]] == vals[4] && top[keys[5]] == vals[5] && top[keys[6]] == vals[6] && top[keys[7]] == vals[7];
    AllListed(c, Startup, Shutdown, Registered, Static);
    Named(COMPONENTS, SourceAgent, c);
    StepKeys(ev);
  }

  lemma OuterComplete(top: Object, c: Component, ev: Record)
    requires OuterOk(top)
    requires top["source_agent"].s == SourceAgent(c) && top["tool_name"].s == ToolName(ev)
    requires top["success"].b == Success(ev)
    ensures Outer(top, OuterValues(c, ev, top["args"].fields, top["result"].fields))
  {
  }

  /** Everything the printer can say is accepted. */
  lemma Accepted(c: Component, session: string, ms: nat, ev: Record)
    requires Sayable(session, ms, ev)
    ensures Validate(ValueOf(RecordTree(c, session, ms, ev)))
  {
    var v := ValueOf(RecordTree(c, session, ms, ev));
    var args, result := FieldsMap(Sorted(Args(c, session, ms, ev))), FieldsMap([ResultField(ev)]);
    RecordShape(v, c, session, ms, ev);
    OuterSound(v.fields, c, ev, args, result);
    ArgsShape(args, c, session, ms, ev);
    DescribedMap(result, [ResultField(ev)]);
    InnerIff(args, result, c, session, ms, ev);
    CommonSound(c, session, ms, args);
    StepSound(ev, args, result);
  }

  /** Everything accepted is something the printer can say. */
  lemma OnlySayable(v: Value) returns (c: Component, session: string, ms: nat, ev: Record)
    requires Validate(v)
    ensures Sayable(session, ms, ev) && v == ValueOf(RecordTree(c, session, ms, ev))
  {
    var top := v.fields;
    var args, result := top["args"].fields, top["result"].fields;
    c, session, ms := CommonComplete(args, top["source_agent"].s);
    ev := StepComplete(top["tool_name"].s, args, result, top["success"].b);
    InnerIff(args, result, c, session, ms, ev);
    ArgsShape(args, c, session, ms, ev);
    DescribedMap(result, [ResultField(ev)]);
    OuterComplete(top, c, ev);
    RecordShape(v, c, session, ms, ev);
  }

  /** The validator accepts exactly what the printer can say. */
  lemma AcceptsExactlyTheSayable(v: Value)
    ensures Validate(v) <==>
      exists c, session, ms, ev :: Sayable(session, ms, ev) && v == ValueOf(RecordTree(c, session, ms, ev))
  {
    if Validate(v) {
      var c, session, ms, ev := OnlySayable(v);
    }
    forall c, session, ms, ev | Sayable(session, ms, ev) && v == ValueOf(RecordTree(c, session, ms, ev))
      ensures Validate(v)
    {
      Accepted(c, session, ms, ev);
    }
  }

  /** What can be said: any 32 lowercase hex digits, any time below 2^53 and any counters that are u32. */
  lemma SayableMeans(session: string, ms: nat, ev: Record)
    ensures Sayable(session, ms, ev) <==>
      && |session| == 32 && (forall i :: 0 <= i < 32 ==> '0' <= session[i] <= '9' || 'a' <= session[i] <= 'f')
      && ms <= 0x1F_FFFF_FFFF_FFFF
      && (ev.Read? ==> ev.tool <= 0xFFFF_FFFF) && (ev.Wipe? ==> ev.buffers <= 0xFFFF_FFFF) && (ev.Kill? ==> ev.count <= 0xFFFF_FFFF)
  {
  }

  lemma SameWords(c1: Component, c2: Component, v1: ArmVia, v2: ArmVia, r1: Reason, r2: Reason)
    ensures ComponentStr(c1) == ComponentStr(c2) ==> c1 == c2
    ensures ViaStr(v1) == ViaStr(v2) ==> v1 == v2
    ensures ReasonStr(r1) == ReasonStr(r2) ==> r1 == r2
  {
  }

  lemma SameSmallWords(t1: KillTarget, t2: KillTarget, k1: ReadKind, k2: ReadKind)
    ensures TargetStr(t1) == TargetStr(t2) ==> t1 == t2
    ensures KindStr(k1) == KindStr(k2) ==> k1 == k2
  {
  }

  lemma SameStep(e1: Record, e2: Record, args: Object, result: Object)
    requires ToolName(e1) == ToolName(e2)
    requires Has(args, ExtraArgs(e1)) && Has(result, [ResultField(e1)])
    requires Has(args, ExtraArgs(e2)) && Has(result, [ResultField(e2)])
    ensures e1 == e2
  {
    var f1, f2 := ExtraArgs(e1), ExtraArgs(e2);
    assert result[[ResultField(e1)][0].key] == ValueOf(ResultField(e1).val);
    assert result[[ResultField(e2)][0].key] == ValueOf(ResultField(e2).val);
    assert f1[0].key in args && f2[0].key in args;
    match e1
    case SessionStart(_) =>
    case Arm(via) => SameWords(Dazai, Dazai, via, e2.via, Shutdown, Shutdown);
    case Read(_, kind, _) =>
      assert f1[1].key in args && f2[1].key in args;
      SameSmallWords(Registered, Registered, kind, e2.kind);
    case Wipe(reason, _) =>
      assert f1[1].key in args && f2[1].key in args;
      SameWords(Dazai, Dazai, Startup, Startup, reason, e2.reason);
    case Kill(reason, target, _, _) =>
      assert f1[1].key in args && f2[1].key in args && f1[2].key in args && f2[2].key in args;
      SameWords(Dazai, Dazai, Startup, Startup, reason, e2.reason);
      SameSmallWords(target, e2.target, Static, Static);
    case SessionEnd(reason) => SameWords(Dazai, Dazai, Startup, Startup, reason, e2.reason);
  }

  lemma SameCommon(args: Object, c1: Component, s1: string, m1: nat, c2: Component, s2: string, m2: nat)
    requires Has(args, CommonArgs(c1, s1, m1)) && Has(args, CommonArgs(c2, s2, m2))
    ensures c1 == c2 && s1 == s2 && m1 == m2
  {
    var f1, f2 := CommonArgs(c1, s1, m1), CommonArgs(c2, s2, m2);
    assert forall i :: 0 <= i < 5 ==> f1[i].key == f2[i].key;
    assert ValueOf(f1[0].val) == ValueOf(f2[0].val) && ValueOf(f1[2].val) == ValueOf(f2[2].val);
    assert ValueOf(f1[4].val) == ValueOf(f2[4].val);
    SameWords(c1, c2, Startup, Startup, Shutdown, Shutdown);
  }

  lemma RecordParts(c: Component, session: string, ms: nat, ev: Record) returns (args: Object, result: Object)
    ensures Outer(ValueOf(RecordTree(c, session, ms, ev)).fields, OuterValues(c, ev, args, result))
    ensures Has(args, CommonArgs(c, session, ms)) && Has(args, ExtraArgs(ev)) && Has(result, [ResultField(ev)])
  {
    args, result := FieldsMap(Sorted(Args(c, session, ms, ev))), FieldsMap([ResultField(ev)]);
    RecordShape(ValueOf(RecordTree(c, session, ms, ev)), c, session, ms, ev);
    ArgsShape(args, c, session, ms, ev);
    DescribedMap(result, [ResultField(ev)]);
    InnerIff(args, result, c, session, ms, ev);
  }

  /** Different inputs print different values: nothing is lost. */
  lemma PrintsAreDistinct(c1: Component, s1: string, m1: nat, e1: Record, c2: Component, s2: string, m2: nat, e2: Record)
    requires ValueOf(RecordTree(c1, s1, m1, e1)) == ValueOf(RecordTree(c2, s2, m2, e2))
    ensures c1 == c2 && s1 == s2 && m1 == m2 && e1 == e2
  {
    var a1, r1 := RecordParts(c1, s1, m1, e1);
    var a2, r2 := RecordParts(c2, s2, m2, e2);
    var v := ValueOf(RecordTree(c1, s1, m1, e1));
    OuterSound(v.fields, c1, e1, a1, r1);
    OuterSound(v.fields, c2, e2, a2, r2);
    SameCommon(a1, c1, s1, m1, c2, s2, m2);
    SameStep(e1, e2, a1, r1);
  }

  lemma LineOf(body: string)
    requires Printable(body) && |body + "\n"| <= MAX_RECORD_BYTES
    ensures LineShape(body + "\n") && (body + "\n")[..|body + "\n"| - 1] == body
  {
    assert (body + "\n")[..|body|] == body;
  }

  /** Every rendered line passes the validator. */
  lemma RenderedLineIsAccepted(c: Component, session: string, ms: nat, ev: Record)
    requires Sayable(session, ms, ev)
    ensures ValidateLine(TextOf(RecordTree(c, session, ms, ev)) + "\n")
  {
    RecordLine(c, session, ms, ev);
    Accepted(c, session, ms, ev);
    LineOf(TextOf(RecordTree(c, session, ms, ev)));
  }

  lemma ParsedIsSayable(parsed: Option<Value>) returns (c: Component, session: string, ms: nat, ev: Record)
    requires ValidateParsed(parsed)
    ensures Sayable(session, ms, ev) && parsed == Some(ValueOf(RecordTree(c, session, ms, ev)))
  {
    c, session, ms, ev := OnlySayable(parsed.value);
  }

  lemma LineTree(line: string) returns (t: Tree)
    requires LineShape(line) && Parse(line[..|line| - 1]).Some?
    ensures line == TextOf(t) + "\n" && Parse(line[..|line| - 1]) == Some(ValueOf(t))
  {
    t := ParsedTree(line[..|line| - 1]);
    assert line == line[..|line| - 1] + "\n";
  }

  /** An accepted line is a record printed with its fields in some order, and nothing else. */
  lemma AcceptedLineIsARecord(line: string) returns (t: Tree, c: Component, session: string, ms: nat, ev: Record)
    requires ValidateLine(line)
    ensures line == TextOf(t) + "\n"
    ensures Sayable(session, ms, ev) && ValueOf(t) == ValueOf(RecordTree(c, session, ms, ev))
  {
    c, session, ms, ev := ParsedIsSayable(Parse(line[..|line| - 1]));
    t := LineTree(line);
  }
}
