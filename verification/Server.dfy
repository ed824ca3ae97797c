/**
 The one-shot server's call handler (motokano server.rs) as one thread runs it, and its
 agreement with the handler of the concurrent machine when nothing interleaves.
 */
module Server {
  import opened Wrappers
  import opened Lifecycle
  import opened Bytes
  import opened Tools
  import Counter

  datatype Answer =
    | Text(bytes: seq<byte>)
    | Output
    | Refused
    | Unknown
    | Failed

  /** What a call can see and change. */
  datatype View = View(
    mode: Counter.Mode,
    remaining: nat,
    fired: bool,
    closed: bool,
    records: seq<Record>,
    spawned: nat)

  /** A completed call: recorded as served, counted, and closing when the count says so. */
  function Completed(v: View, d: (nat, ReadKind)): View {
    var (remaining, fired, fire) := Counter.Alone(v.mode, v.remaining, v.fired);
    v.(remaining := remaining, fired := fired, closed := v.closed || fire,
       records := v.records + [Read(d.0, d.1, true)],
       spawned := v.spawned + (if fire then 1 else 0))
  }

  function Unserved(v: View, d: Option<(nat, ReadKind)>): View {
    match d
    case None => v
    case Some(d) => v.(records := v.records + [Read(d.0, d.1, false)])
  }

  /** The answer to a call and everything it changes. */
  function CallOutcome(v: View, tools: seq<Entry>, name: string, execOk: bool): (Answer, View)
    requires EntriesOk(tools)
  {
    if v.closed then (Refused, Unserved(v, DescribeIn(tools, name)))
    else
      match (DescribeIn(tools, name), LookupIn(tools, name))
      case (Some(d), Some(StaticAction(bytes))) => (Text(bytes), Completed(v, d))
      case (Some(d), Some(ExecAction(_))) =>
        if execOk then (Output, Completed(v, d)) else (Failed, Unserved(v, Some(d)))
      case _ => (Unknown, v)
  }

  /** What a completed call changes, field by field. */
  lemma CompletedMeans(v: View, d: (nat, ReadKind))
    ensures var w := Completed(v, d);
      && w.mode == v.mode && w.records == v.records + [Read(d.0, d.1, true)]
      && if v.mode.Session? || v.remaining == 0
         then w.remaining == v.remaining && w.fired == v.fired && w.closed == v.closed && w.spawned == v.spawned
         else
           && w.remaining == v.remaining - 1
           && (w.fired <==> v.fired || w.remaining == 0)
           && (w.closed <==> v.closed || (w.remaining == 0 && !v.fired))
           && w.spawned == v.spawned + (if w.remaining == 0 && !v.fired then 1 else 0)
  {
  }

  /** How a call to a known tool is answered, by its first entry. */
  lemma KnownCall(v: View, es: seq<Entry>, name: string, execOk: bool, i: nat)
    requires EntriesOk(es)
    requires i < |es| && es[i].name == name && forall j :: 0 <= j < i ==> es[j].name != name
    ensures EntryOk(es[i])
    ensures var d := (if i <= 0xFFFF_FFFF then i else 0xFFFF_FFFF, if es[i].held.HeldStatic? then Static else Exec);
      var refused := v.(records := v.records + [Read(d.0, d.1, false)]);
      CallOutcome(v, es, name, execOk)
        == if v.closed then (Refused, refused)
           else match es[i].held
             case HeldStatic(bytes, len) => (Text(bytes[..len]), Completed(v, d))
             case HeldExec(_) => if execOk then (Output, Completed(v, d)) else (Failed, refused)
  {
    FirstNamed(es, name, i);
  }

  lemma UnknownCall(v: View, es: seq<Entry>, name: string, execOk: bool)
    requires EntriesOk(es) && forall i :: 0 <= i < |es| ==> es[i].name != name
    ensures CallOutcome(v, es, name, execOk) == (if v.closed then Refused else Unknown, v)
  {
    NotNamed(es, name);
  }

  class OneshotServer {
    const counter: Counter.CallCounter
    const tools: ToolRegistry
    var closed: bool
    var records: seq<Record>
    /** Exit threads started. */
    var spawned: nat
    /** Whether some thread is already tearing the process down. */
    var exiting: bool

    constructor (counter: Counter.CallCounter, tools: ToolRegistry)
      ensures this.counter == counter && this.tools == tools
      ensures !closed && records == [] && spawned == 0 && !exiting
    {
      this.counter, this.tools := counter, tools;
      closed, records, spawned, exiting := false, [], 0, false;
    }

    ghost function Now(): View
      reads this, counter
    {
      View(counter.mode, counter.remaining, counter.fired, closed, records, spawned)
    }

    method Emit(d: (nat, ReadKind), served: bool)
      modifies this`records
      ensures records == old(records) + [Read(d.0, d.1, served)]
    {
      records := records + [Read(d.0, d.1, served)];
    }

    /** The handler's body. */
    method Respond(name: string, execOk: bool) returns (answer: Answer)
      requires tools.Valid()
      modifies this, counter
      ensures (answer, Now()) == CallOutcome(old(Now()), old(tools.Entries()), name, execOk)
    {
      ghost var es := tools.Entries();
      ghost var v := Now();
      if closed {
        var described := tools.Describe(name);
        assert tools.Entries() == es;
        if described.Some? {
          Emit(described.value, false);
        }
        return Refused;
      }
      var described := tools.Describe(name);
      assert tools.Entries() == es;
      var action := tools.Lookup(name);
      assert tools.Entries() == es;
      if described.None? || action.None? {
        return Unknown;
      }
      match action.value {
        case StaticAction(bytes) => answer := Text(bytes);
        case ExecAction(_) =>
          if !execOk {
            Emit(described.value, false);
            return Failed;
          }
          answer := Output;
      }
      Emit(described.value, true);
      var fire := counter.Decrement();
      if fire {
        closed := true;
        spawned := spawned + 1;
      }
      assert Now() == Completed(v, described.value);
    }

    /**
     Answers one `tools/call`; `execOk` is whether a command, if it comes to one, runs. `at`
     is the first tool of that name. A closed server refuses and records a known name; a
     static value or a command's output is recorded as served and counted; a command that
     fails is recorded as not served.
     */
    method CallTool(name: string, execOk: bool) returns (answer: Answer, ghost at: Option<nat>)
      requires tools.Valid()
      modifies this, counter
      ensures (answer, Now()) == CallOutcome(old(Now()), old(tools.Entries()), name, execOk)
      ensures match at
        case None =>
          && (forall j :: 0 <= j < |tools.tools| ==> tools.tools[j].name != name)
          && answer == (if old(closed) then Refused else Unknown) && Now() == old(Now())
        case Some(i) =>
          && i < |tools.tools| && tools.tools[i].name == name && (forall j :: 0 <= j < i ==> tools.tools[j].name != name)
          && var kind := tools.tools[i].kind;
             var position := if i <= 0xFFFF_FFFF then i else 0xFFFF_FFFF;
             var served := !old(closed) && (kind.StaticTool? || execOk);
             var counted := served && !counter.mode.Session? && old(counter.remaining) > 0;
             && answer == (if old(closed) then Refused
                           else if kind.StaticTool? then Text(kind.buf[..kind.len])
                           else if execOk then Output else Failed)
             && records == old(records) + [Read(position, if kind.StaticTool? then Static else Exec, served)]
             && (!counted ==>
                  && counter.remaining == old(counter.remaining) && counter.fired == old(counter.fired)
                  && closed == old(closed) && spawned == old(spawned))
             && (counted ==>
                  && counter.remaining == old(counter.remaining) - 1
                  && counter.fired == (old(counter.fired) || counter.remaining == 0)
                  && closed == (counter.remaining == 0 && !old(counter.fired))
                  && spawned == old(spawned) + (if closed then 1 else 0))
    {
      ghost var es := tools.Entries();
      ghost var v := Now();
      at := Position(es, name);
      assert forall j :: 0 <= j < |es| ==> es[j].name == tools.tools[j].name;
      if at.Some? {
        KnownCall(v, es, name, execOk, at.value);
        var kind := tools.tools[at.value].kind;
        assert kind.StaticTool? ==>
          es[at.value].held == HeldStatic(kind.buf[..], kind.len) && kind.buf[..][..kind.len] == kind.buf[..kind.len];
        CompletedMeans(v, DescribeIn(es, name).value);
      } else {
        UnknownCall(v, es, name, execOk);
      }
      answer := Respond(name, execOk);
    }

    /** The wipe-and-exit path: the first caller wipes, records and ends the process; any other is parked. */
    method WipeAndExit(armed: bool, why: Reason) returns (ends: bool)
      requires tools.Valid()
      modifies this, tools.Buffers()
      ensures ends == !old(exiting) && exiting
      ensures ends ==>
        && closed
        && tools.Entries() == Wiped(old(tools.Entries()))
        && var statics := |set i | 0 <= i < |tools.tools| && tools.tools[i].kind.StaticTool?|;
           records == old(records)
            + [Wipe(why, if statics <= 0xFFFF_FFFF then statics else 0xFFFF_FFFF)]
            + [if armed then Kill(why, SelfProcess, 1, true) else SessionEnd(why)]
      ensures ends ==>
        forall i, k :: 0 <= i < |tools.tools| && tools.tools[i].kind.StaticTool? && 0 <= k < tools.tools[i].kind.buf.Length ==>
          tools.tools[i].kind.buf[k] == 0
      ensures !ends ==> closed == old(closed) && tools.Entries() == old(tools.Entries()) && records == old(records)
    {
      ghost var es := tools.Entries();
      var was := exiting;
      exiting := true;
      if was {
        return false;
      }
      closed := true;
      assert tools.Entries() == es;
      tools.Wipe();
      var buffers := tools.StaticCount();
      Conclude(armed, why, buffers);
      assert tools.Entries() == Wiped(es);
      ends := true;
    }

    /** The records of the exit: the wipe, then what the arm flag makes of the end. */
    method Conclude(armed: bool, why: Reason, buffers: nat)
      modifies this`records
      ensures records == old(records) + [Wipe(why, buffers)] + [if armed then Kill(why, SelfProcess, 1, true) else SessionEnd(why)]
    {
      records := records + [Wipe(why, buffers)];
      if armed {
        records := records + [Kill(why, SelfProcess, 1, true)];
      } else {
        records := records + [SessionEnd(why)];
      }
    }
  }
}
