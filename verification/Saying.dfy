/** What a printed record says to whoever parses it, in terms of the step it was printed for. */
module Saying {
  import opened Wrappers
  import opened Lifecycle
  import opened Text
  import opened Json
  import opened Kiroku
  import opened Contract
  import Agreement
  import RecordText

  /** The text of a tree, token by token. */
  lemma JsonText(b: bool, n: nat, s: string, f: Field, fs: seq<Field>)
    ensures TextOf(TBool(b)) == if b then "true" else "false"
    ensures TextOf(TInt(n)) == Dec(n) && TextOf(TEmpty) == "[]"
    ensures TextOf(TStr(s)) == "\"" + s + "\""
    ensures TextOf(TObj(fs)) == "{" + FieldsText(fs) + "}" && FieldsText([]) == ""
    ensures FieldsText([f]) == "\"" + f.key + "\"" + (":" + TextOf(f.val))
    ensures fs != [] ==> FieldsText([f] + fs) == FieldsText([f]) + "," + FieldsText(fs)
  {
    assert ([f] + fs)[1..] == fs;
  }

  lemma MapSnoc(fs: seq<Field>, f: Field)
    ensures FieldsMap(fs + [f]) == FieldsMap(fs)[f.key := ValueOf(f.val)]
  {
    assert (fs + [f])[..|fs|] == fs;
  }

  lemma MapOfOne(f: Field)
    ensures FieldsMap([f]) == map[f.key := ValueOf(f.val)]
  {
    MapSnoc([], f);
    assert [] + [f] == [f];
  }

  lemma MapOfFive(a: Field, b: Field, c: Field, d: Field, e: Field)
    ensures FieldsMap([a, b, c, d, e])
         == map[a.key := ValueOf(a.val), b.key := ValueOf(b.val), c.key := ValueOf(c.val), d.key := ValueOf(d.val),
                e.key := ValueOf(e.val)]
  {
    MapOfOne(a);
    MapSnoc([a], b);
    MapSnoc([a, b], c);
    MapSnoc([a, b, c], d);
    MapSnoc([a, b, c, d], e);
    assert [a] + [b] == [a, b] && [a, b] + [c] == [a, b, c];
    assert [a, b, c] + [d] == [a, b, c, d] && [a, b, c, d] + [e] == [a, b, c, d, e];
  }

  lemma MapOfEight(a: Field, b: Field, c: Field, d: Field, e: Field, f: Field, g: Field, h: Field)
    ensures FieldsMap([a, b, c, d, e, f, g, h])
         == map[a.key := ValueOf(a.val), b.key := ValueOf(b.val), c.key := ValueOf(c.val), d.key := ValueOf(d.val),
                e.key := ValueOf(e.val), f.key := ValueOf(f.val), g.key := ValueOf(g.val), h.key := ValueOf(h.val)]
  {
    MapOfFive(a, b, c, d, e);
    MapSnoc([a, b, c, d, e], f);
    MapSnoc([a, b, c, d, e, f], g);
    MapSnoc([a, b, c, d, e, f, g], h);
    assert [a, b, c, d, e] + [f] == [a, b, c, d, e, f] && [a, b, c, d, e, f] + [g] == [a, b, c, d, e, f, g];
    assert [a, b, c, d, e, f, g] + [h] == [a, b, c, d, e, f, g, h];
  }

  lemma MapSnocTwo(fs: seq<Field>, f: Field, g: Field)
    ensures FieldsMap(fs + [f, g]) == FieldsMap(fs)[f.key := ValueOf(f.val)][g.key := ValueOf(g.val)]
  {
    MapSnoc(fs, f);
    MapSnoc(fs + [f], g);
    assert fs + [f] + [g] == fs + [f, g];
  }

  lemma MapSnocThree(fs: seq<Field>, f: Field, g: Field, h: Field)
    ensures FieldsMap(fs + [f, g, h])
         == FieldsMap(fs)[f.key := ValueOf(f.val)][g.key := ValueOf(g.val)][h.key := ValueOf(h.val)]
  {
    MapSnocTwo(fs, f, g);
    MapSnoc(fs + [f, g], h);
    assert fs + [f, g] + [h] == fs + [f, g, h];
  }

  /** Sorting the arguments does not change the object they make. */
  lemma SortedMap(c: Component, session: string, ms: nat, ev: Record)
    ensures FieldsMap(Sorted(Args(c, session, ms, ev))) == FieldsMap(Args(c, session, ms, ev))
  {
    var args := Args(c, session, ms, ev);
    RecordText.ArgsDistinct(c, session, ms, ev);
    DescribedMap(FieldsMap(args), args);
    Agreement.ArgsShape(FieldsMap(args), c, session, ms, ev);
  }

  lemma CommonMap(c: Component, session: string, ms: nat)
    ensures FieldsMap(CommonArgs(c, session, ms))
         == map["component" := Str(match c case Dazai => "dazai" case Motokano => "motokano"),
                "contract" := Str("ningen-korg-lifecycle@1"),
                "observed_unix_ms" := Int(ms),
                "producer" := Str("ningen-shikkaku@0.2.0"),
                "session" := Str(session)]
  {
    var fs := CommonArgs(c, session, ms);
    MapOfFive(fs[0], fs[1], fs[2], fs[3], fs[4]);
  }

  /** The words reasons are written in. */
  lemma ReasonWords(r: Reason)
    ensures ReasonStr(r) == match r
      case LostHeartbeat => "heartbeat_lost"
      case MissedPing => "ping_timeout"
      case PanicSignal => "panic_signal"
      case HardPanicSignal => "hard_panic_signal"
      case Shutdown => "shutdown"
      case ClientQuit => "client_quit"
      case CallsExhausted => "calls_exhausted"
      case ClientDisconnect => "client_disconnect"
      case DaemonLost => "daemon_lost"
  {
  }

  lemma ExtraMap(common: seq<Field>, ev: Record)
    ensures FieldsMap(common + ExtraArgs(ev)) == match ev
      case SessionStart(armed) => FieldsMap(common)["armed" := Bool(armed)]
      case Arm(via) => FieldsMap(common)["via" := Str(if via == Startup then "startup" else "control")]
      case Read(tool, kind, _) =>
        FieldsMap(common)["tool" := Int(tool)]["kind" := Str(if kind == Static then "static" else "exec")]
      case Wipe(reason, buffers) => FieldsMap(common)["reason" := Str(ReasonStr(reason))]["buffers" := Int(buffers)]
      case Kill(reason, target, count, _) =>
        FieldsMap(common)["reason" := Str(ReasonStr(reason))]
                         ["target" := Str(if target == Registered then "registered" else "self")]
                         ["count" := Int(count)]
      case SessionEnd(reason) => FieldsMap(common)["reason" := Str(ReasonStr(reason))]
  {
    match ev
    case SessionStart(armed) => MapSnoc(common, Field("armed", TBool(armed)));
    case Arm(via) => MapSnoc(common, Field("via", TStr(ViaStr(via))));
    case Read(tool, kind, _) => MapSnocTwo(common, Field("tool", TInt(tool)), Field("kind", TStr(KindStr(kind))));
    case Wipe(reason, buffers) =>
      MapSnocTwo(common, Field("reason", TStr(ReasonStr(reason))), Field("buffers", TInt(buffers)));
    case Kill(reason, target, count, _) =>
      MapSnocThree(common, Field("reason", TStr(ReasonStr(reason))), Field("target", TStr(TargetStr(target))),
                   Field("count", TInt(count)));
    case SessionEnd(reason) => MapSnoc(common, Field("reason", TStr(ReasonStr(reason))));
  }

  lemma OuterMap(c: Component, session: string, ms: nat, ev: Record)
    ensures ValueOf(RecordTree(c, session, ms, ev))
         == Obj(map["args" := Obj(FieldsMap(Args(c, session, ms, ev))),
                    "duration_ms" := Int(0),
                    "event_type" := Str("AgentToolCall"),
                    "payload_refs" := Arr([]),
                    "result" := Obj(map[ResultField(ev).key := ValueOf(ResultField(ev).val)]),
                    "source_agent" := Str(SourceAgent(c)),
                    "success" := Bool(Success(ev)),
                    "tool_name" := Str(ToolName(ev))])
  {
    var args, result := TObj(Sorted(Args(c, session, ms, ev))), TObj([ResultField(ev)]);
    var fs := Top(c, args, result, Success(ev), ToolName(ev));
    SortedMap(c, session, ms, ev);
    MapOfOne(ResultField(ev));
    MapOfEight(fs[0], fs[1], fs[2], fs[3], fs[4], fs[5], fs[6], fs[7]);
  }

  /**
   A printed record says the step it was printed for: whoever parses the line finds the
   component, session and time, the step's own counters, flags and words, and nothing else.
   */
  lemma RecordSays(c: Component, session: string, ms: nat, ev: Record)
    requires |session| == 32 && forall i :: 0 <= i < 32 ==> '0' <= session[i] <= '9' || 'a' <= session[i] <= 'f'
    ensures var word := (r: Reason) =>
        match r {
          case LostHeartbeat => "heartbeat_lost"
          case MissedPing => "ping_timeout"
          case PanicSignal => "panic_signal"
          case HardPanicSignal => "hard_panic_signal"
          case Shutdown => "shutdown"
          case ClientQuit => "client_quit"
          case CallsExhausted => "calls_exhausted"
          case ClientDisconnect => "client_disconnect"
          case DaemonLost => "daemon_lost"
        };
      var common := map[
        "component" := Str(match c case Dazai => "dazai" case Motokano => "motokano"),
        "contract" := Str("ningen-korg-lifecycle@1"),
        "observed_unix_ms" := Int(ms),
        "producer" := Str("ningen-shikkaku@0.2.0"),
        "session" := Str(session)];
      var (tool, args, result, success) :=
        match ev {
          case SessionStart(armed) =>
            ("ningen.session_start", common["armed" := Bool(armed)], map["success" := Bool(true)], true)
          case Arm(via) =>
            ("ningen.arm", common["via" := Str(if via == Startup then "startup" else "control")],
             map["success" := Bool(true)], true)
          case Read(tool, kind, served) =>
            ("ningen.read", common["tool" := Int(tool)]["kind" := Str(if kind == Static then "static" else "exec")],
             map["served" := Bool(served)], served)
          case Wipe(reason, buffers) =>
            ("ningen.wipe", common["reason" := Str(word(reason))]["buffers" := Int(buffers)], map["success" := Bool(true)], true)
          case Kill(reason, target, count, executed) =>
            ("ningen.kill",
             common["reason" := Str(word(reason))]
                   ["target" := Str(if target == Registered then "registered" else "self")]
                   ["count" := Int(count)],
             map["executed" := Bool(executed)], true)
          case SessionEnd(reason) =>
            ("ningen.session_end", common["reason" := Str(word(reason))], map["success" := Bool(true)], true)
        };
      Parse(TextOf(RecordTree(c, session, ms, ev)))
        == Some(Obj(map["args" := Obj(args),
                        "duration_ms" := Int(0),
                        "event_type" := Str("AgentToolCall"),
                        "payload_refs" := Arr([]),
                        "result" := Obj(result),
                        "source_agent" := Str(match c case Dazai => "mcp:dazai" case Motokano => "mcp:motokano"),
                        "success" := Bool(success),
                        "tool_name" := Str(tool)]))
  {
    RecordText.RecordPlain(c, session, ms, ev);
    RoundTrip(RecordTree(c, session, ms, ev));
    OuterMap(c, session, ms, ev);
    CommonMap(c, session, ms);
    ExtraMap(CommonArgs(c, session, ms), ev);
    if ev.Wipe? || ev.Kill? || ev.SessionEnd? {
      ReasonWords(ev.reason);
    }
  }
}
