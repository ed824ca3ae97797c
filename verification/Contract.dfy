/**
 The strict validator of lifecycle records, written apart from the printer, and the
 proof that the two agree: it accepts exactly what the printer can say.
 */
module Contract {
  import opened Wrappers
  import opened Lifecycle
  import opened Json
  import opened Kiroku
  import opened RecordText

  type Object = map<string, Value>

  const TOP_KEYS: seq<string> :=
    ["args", "duration_ms", "event_type", "payload_refs", "result", "source_agent", "success", "tool_name"]
  const COMMON_ARGS: seq<string> := ["component", "contract", "observed_unix_ms", "producer", "session"]
  const TOOL_NAMES: seq<string> :=
    ["ningen.session_start", "ningen.arm", "ningen.read", "ningen.wipe", "ningen.kill", "ningen.session_end"]

  const COMPONENTS: seq<Component> := [Dazai, Motokano]
  const VIAS: seq<ArmVia> := [Startup, Control]
  const REASONS: seq<Reason> :=
    [LostHeartbeat, MissedPing, PanicSignal, HardPanicSignal, Shutdown, ClientQuit,
     CallsExhausted, ClientDisconnect, DaemonLost]
  const TARGETS: seq<KillTarget> := [Registered, SelfProcess]
  const KINDS: seq<ReadKind> := [Static, Exec]

  // ----- Checks --------------------------------------------------------------------

  predicate ExactKeys(obj: Object, want: seq<string>) {
    obj.Keys == set k | k in want
  }

  function Names<T>(all: seq<T>, f: T -> string): seq<string> {
    seq(|all|, i requires 0 <= i < |all| => f(all[i]))
  }

  predicate StrIn(obj: Object, key: string, vocab: seq<string>) {
    key in obj && obj[key].Str? && obj[key].s in vocab
  }

  predicate IntLe(obj: Object, key: string, max: nat) {
    key in obj && obj[key].Int? && obj[key].n <= max
  }

  predicate Boolean(obj: Object, key: string) {
    key in obj && obj[key].Bool?
  }

  predicate ObjectAt(obj: Object, key: string) {
    key in obj && obj[key].Obj?
  }

  /** The arguments every step has; the component must be the one the agent names. */
  predicate CommonOk(args: Object, agent: string) {
    && StrIn(args, "component", Names(COMPONENTS, ComponentStr))
    && (exists c :: c in COMPONENTS && ComponentStr(c) == args["component"].s && SourceAgent(c) == agent)
    && StrIn(args, "contract", [CONTRACT])
    && StrIn(args, "producer", [PRODUCER])
    && IntLe(args, "observed_unix_ms", MAX_SAFE)
    && "session" in args && args["session"].Str? && IsSession(args["session"].s)
  }

  function ExtraKeys(tool: string): seq<string> {
    if tool == "ningen.session_start" then ["armed"]
    else if tool == "ningen.arm" then ["via"]
    else if tool == "ningen.read" then ["tool", "kind"]
    else if tool == "ningen.wipe" then ["reason", "buffers"]
    else if tool == "ningen.kill" then ["reason", "target", "count"]
    else ["reason"]
  }

  function ResultKeys(tool: string): seq<string> {
    if tool == "ningen.read" then ["served"]
    else if tool == "ningen.kill" then ["executed"]
    else ["success"]
  }

  /** The arguments and result of one kind of step. */
  predicate StepOk(tool: string, args: Object, result: Object, success: bool) {
    if tool == "ningen.session_start" then Boolean(args, "armed")
    else if tool == "ningen.arm" then StrIn(args, "via", Names(VIAS, ViaStr))
    else if tool == "ningen.read" then
      && IntLe(args, "tool", U32_MAX)
      && StrIn(args, "kind", Names(KINDS, KindStr))
      && Boolean(result, "served") && result["served"].b == success
    else if tool == "ningen.wipe" then
      StrIn(args, "reason", Names(REASONS, ReasonStr)) && IntLe(args, "buffers", U32_MAX)
    else if tool == "ningen.kill" then
      && StrIn(args, "reason", Names(REASONS, ReasonStr))
      && StrIn(args, "target", Names(TARGETS, TargetStr))
      && IntLe(args, "count", U32_MAX)
      && Boolean(result, "executed") && success
    else StrIn(args, "reason", Names(REASONS, ReasonStr))
  }

  predicate InnerOk(tool: string, agent: string, args: Object, result: Object, success: bool) {
    && CommonOk(args, agent)
    && StepOk(tool, args, result, success)
    && ExactKeys(args, COMMON_ARGS + ExtraKeys(tool))
    && ExactKeys(result, ResultKeys(tool))
    && (ResultKeys(tool) == ["success"] ==> result["success"] == Bool(true) && success)
  }

  /** The outer object: its keys, its constants, and the kind of every other entry. */
  predicate OuterOk(top: Object) {
    && ExactKeys(top, TOP_KEYS)
    && StrIn(top, "event_type", ["AgentToolCall"])
    && StrIn(top, "source_agent", Names(COMPONENTS, SourceAgent))
    && StrIn(top, "tool_name", TOOL_NAMES)
    && IntLe(top, "duration_ms", 0)
    && "payload_refs" in top && top["payload_refs"] == Arr([])
    && Boolean(top, "success")
    && ObjectAt(top, "args") && ObjectAt(top, "result")
  }

  /** A parsed record conforms. */
  predicate Validate(v: Value) {
    match v
    case Obj(top) =>
      && OuterOk(top)
      && InnerOk(top["tool_name"].s, top["source_agent"].s, top["args"].fields, top["result"].fields, top["success"].b)
    case _ => false
  }

  /** What a line must look like before it is parsed. */
  predicate LineShape(line: string) {
    && |line| <= MAX_RECORD_BYTES
    && (forall i :: 0 <= i < |line| ==> line[i] < 128 as char)
    && line != [] && line[|line| - 1] == '\n'
    && '\n' !in line[..|line| - 1] && '\r' !in line[..|line| - 1]
  }

  /** A parsed body, if it parsed, conforms. */
  predicate ValidateParsed(parsed: Option<Value>) {
    match parsed
    case Some(v) => Validate(v)
    case None => false
  }

  /** One newline-terminated line conforms. */
  predicate ValidateLine(line: string) {
    LineShape(line) && ValidateParsed(Parse(line[..|line| - 1]))
  }

  // ----- Maps that fields describe -------------------------------------------------------

  function KeysOf(fs: seq<Field>): seq<string> {
    Names(fs, (f: Field) => f.key)
  }

  predicate Has(m: Object, fs: seq<Field>) {
    forall i :: 0 <= i < |fs| ==> fs[i].key in m && m[fs[i].key] == ValueOf(fs[i].val)
  }

  predicate Describes(m: Object, fs: seq<Field>) {
    ExactKeys(m, KeysOf(fs)) && Has(m, fs)
  }

  lemma DescribesSnoc(m: Object, fs: seq<Field>, f: Field)
    requires Describes(m, fs) && f.key !in KeysOf(fs)
    ensures Describes(m[f.key := ValueOf(f.val)], fs + [f])
  {
    assert KeysOf(fs + [f]) == KeysOf(fs) + [f.key];
    forall i | 0 <= i < |fs| ensures fs[i].key != f.key {
      assert KeysOf(fs)[i] == fs[i].key;
    }
  }

  lemma {:induction false} FieldsDescribe(fs: seq<Field>)
    requires DistinctKeys(fs)
    ensures Describes(FieldsMap(fs), fs)
  {
    if fs != [] {
      var front, last := fs[..|fs| - 1], fs[|fs| - 1];
      FieldsDescribe(front);
      DescribesSnoc(FieldsMap(front), front, last);
      assert fs == front + [last];
    }
  }

  /** A map is the value of an object's fields exactly when it has those keys with those values. */
  lemma DescribedMap(m: Object, fs: seq<Field>)
    requires DistinctKeys(fs)
    ensures Describes(m, fs) <==> m == FieldsMap(fs)
  {
    FieldsDescribe(fs);
    if Describes(m, fs) {
      var w := FieldsMap(fs);
      forall k | k in m ensures k in w && m[k] == w[k] {
        assert k in KeysOf(fs);
        var i :| 0 <= i < |fs| && KeysOf(fs)[i] == k;
        assert fs[i].key == k;
      }
      assert m.Keys == w.Keys;
      assert m == w;
    }
  }

  lemma DescribesSorted(m: Object, fs: seq<Field>)
    ensures Describes(m, Sorted(fs)) <==> Describes(m, fs)
  {
    var ss := Sorted(fs);
    SortedKeeps(fs);
    forall k ensures k in KeysOf(ss) <==> k in KeysOf(fs) {
      SameKeys(ss, fs, k);
      SameKeys(fs, ss, k);
    }
    assert (set k | k in KeysOf(ss)) == (set k | k in KeysOf(fs));
    SameHas(m, ss, fs);
    SameHas(m, fs, ss);
  }

  lemma SameKeys(a: seq<Field>, b: seq<Field>, k: string)
    requires forall g :: g in a ==> g in b
    ensures k in KeysOf(a) ==> k in KeysOf(b)
  {
    if k in KeysOf(a) {
      var i :| 0 <= i < |a| && KeysOf(a)[i] == k;
      assert a[i] in b;
      var j :| 0 <= j < |b| && b[j] == a[i];
      assert KeysOf(b)[j] == k;
    }
  }

  lemma SameHas(m: Object, a: seq<Field>, b: seq<Field>)
    requires forall g :: g in a ==> g in b
    ensures Has(m, b) ==> Has(m, a)
  {
    if Has(m, b) {
      forall i | 0 <= i < |a| ensures a[i].key in m && m[a[i].key] == ValueOf(a[i].val) {
        assert a[i] in b;
      }
    }
  }

  lemma HasConcat(m: Object, a: seq<Field>, b: seq<Field>)
    ensures Has(m, a + b) <==> Has(m, a) && Has(m, b)
    ensures KeysOf(a + b) == KeysOf(a) + KeysOf(b)
  {
    forall i | 0 <= i < |b| ensures b[i] == (a + b)[|a| + i] {}
    forall i | 0 <= i < |a| ensures a[i] == (a + b)[i] {}
  }
}
