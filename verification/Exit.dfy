/**
 The one-shot server's exit: concurrent call handlers, the daemon monitor and the
 disconnect path share a call counter, a `closed` flag, a locked tool registry and one
 wipe-and-exit path. Every atomic operation, lock-protected section of a handler, byte
 of a wipe and emitted record is one step, in any interleaving.
 */
module Exit {
  import opened Wrappers
  import opened Lifecycle
  import opened Tools
  import Counter

  /** Where a call handler stands. */
  datatype At =
    | Arrived
    | Refusing
    | Refused(d: (nat, ReadKind))
    | Looking
    | Running(d: (nat, ReadKind))
    | Failed(d: (nat, ReadKind))
    | Holding(d: (nat, ReadKind))
    | Counting(call: nat)
    | Closing
    | Spawning
    | Served
    | Rejected

  /** One `tools/call`: the name asked for, progress, and what the lookup gave. */
  datatype Handler = Handler(name: string, at: At, got: Option<Action>)

  /** Where the thread that won the exit stands. */
  datatype Phase = ToClose | ToLock | Wiping(i: nat, j: nat) | ToRecord(buffers: nat) | ToFinish | ToDie

  /** One call of the wipe-and-exit path. */
  datatype Exit = Arriving(why: Reason) | Parked(why: Reason) | Winning(why: Reason, phase: Phase)

  /** The main thread: serving, past `on_disconnect`, in the exit path. */
  datatype Main = Serving | Disconnected | Leaving

  datatype State = State(
    armed: bool,
    counter: Counter.State,
    closed: bool,
    exiting: bool,
    locked: bool,
    tools: seq<Entry>,
    records: seq<Record>,
    handlers: seq<Handler>,
    exits: seq<Exit>,
    main: Main,
    ended: bool)

  datatype Step =
    | Request(name: string)
    | Handle(h: nat, execOk: bool)
    | MonitorDown
    | MainStep
    | ExitStep(e: nat)

  function Init(armed: bool, mode: Counter.Mode, tools: seq<Entry>): State {
    State(armed, Counter.Init(mode), false, false, false, tools, [], [], [], Serving, false)
  }

  // ----- Handlers ------------------------------------------------------------------------

  /** Under the lock: describe and look up at once. */
  function LookUp(tools: seq<Entry>, x: Handler): Handler
    requires EntriesOk(tools)
  {
    match (DescribeIn(tools, x.name), LookupIn(tools, x.name))
    case (Some(d), Some(action)) => Handler(x.name, if action.StaticAction? then Holding(d) else Running(d), Some(action))
    case _ => x.(at := Rejected)
  }

  /** A handler's own progress. */
  function NextHandler(s: State, x: Handler, execOk: bool): Handler
    requires EntriesOk(s.tools)
  {
    match x.at
    case Arrived => x.(at := if s.closed then Refusing else Looking)
    case Refusing =>
      if s.locked then x
      else
        (match DescribeIn(s.tools, x.name)
         case Some(d) => x.(at := At.Refused(d))
         case None => x.(at := Rejected))
    case Refused(_) => x.(at := Rejected)
    case Looking => if s.locked then x else LookUp(s.tools, x)
    case Running(d) => x.(at := if execOk then Holding(d) else Failed(d))
    case Failed(_) => x.(at := Rejected)
    case Holding(_) => x.(at := Counting(|s.counter.calls|))
    case Counting(k) =>
      if k < |s.counter.calls| && s.counter.calls[k].pc.Returned? then
        x.(at := if s.counter.calls[k].pc.outcome == Counter.Last(true) then Closing else Served)
      else x
    case Closing => x.(at := Spawning)
    case Spawning => x.(at := Served)
    case Served => x
    case Rejected => x
  }

  /** What it records: a served read before the call is counted, a refused or failed one at the end. */
  function NewRecords(at: At): seq<Record> {
    match at
    case Refused(d) => [Read(d.0, d.1, false)]
    case Failed(d) => [Read(d.0, d.1, false)]
    case Holding(d) => [Read(d.0, d.1, true)]
    case _ => []
  }

  /** What it does to the counter: a `decrement` begins, and then moves one atomic step at a time. */
  function NextCounter(c: Counter.State, at: At): Counter.State {
    match at
    case Holding(_) => Counter.Apply(c, Counter.Begin)
    case Counting(k) => Counter.Apply(c, Counter.Advance(k))
    case _ => c
  }

  function HandlerStep(s: State, h: nat, execOk: bool): State
    requires h < |s.handlers| && EntriesOk(s.tools)
  {
    var x := s.handlers[h];
    s.(handlers := s.handlers[h := NextHandler(s, x, execOk)],
       counter := NextCounter(s.counter, x.at),
       records := s.records + NewRecords(x.at),
       closed := s.closed || x.at.Closing?,
       exits := s.exits + (if x.at.Spawning? then [Arriving(CallsExhausted)] else []))
  }

  // ----- The exit path ---------------------------------------------------------------------

  /** Whether the wipe, at byte j of tool i, has a byte to zero there. */
  predicate ByteLeft(tools: seq<Entry>, i: nat, j: nat) {
    i < |tools| && tools[i].held.HeldStatic? && j < |tools[i].held.bytes|
  }

  function ZeroByte(tools: seq<Entry>, i: nat, j: nat): seq<Entry>
    requires ByteLeft(tools, i, j)
  {
    var h := tools[i].held;
    tools[i := tools[i].(held := HeldStatic(h.bytes[j := 0], h.len))]
  }

  function NextPhase(s: State, phase: Phase): Phase {
    match phase
    case ToClose => ToLock
    case ToLock => if s.locked then ToLock else Wiping(0, 0)
    case Wiping(i, j) =>
      if i >= |s.tools| then ToRecord(CountU32(StaticCountIn(s.tools)))
      else if ByteLeft(s.tools, i, j) then Wiping(i, j + 1)
      else Wiping(i + 1, 0)
    case ToRecord(_) => ToFinish
    case ToFinish => ToDie
    case ToDie => ToDie
  }

  function FinalRecord(armed: bool, why: Reason): Record {
    if armed then Kill(why, SelfProcess, 1, true) else SessionEnd(why)
  }

  function ExitRecords(armed: bool, x: Exit): seq<Record> {
    match x
    case Winning(why, ToRecord(buffers)) => [Wipe(why, buffers)]
    case Winning(why, ToFinish) => [FinalRecord(armed, why)]
    case _ => []
  }

  /** The first to swap the exiting flag wins; it closes, locks, wipes, unlocks, records and ends the process. */
  function ExitAdvance(s: State, e: nat): State
    requires e < |s.exits|
  {
    var x := s.exits[e];
    var next :=
      match x
      case Arriving(why) => if s.exiting then Parked(why) else Winning(why, ToClose)
      case Parked(_) => x
      case Winning(why, phase) => Winning(why, NextPhase(s, phase));
    var phase := if x.Winning? then Some(x.phase) else None;
    s.(exits := s.exits[e := next],
       exiting := s.exiting || x.Arriving?,
       closed := s.closed || phase == Some(ToClose),
       locked := if phase == Some(ToLock) then true
                 else if phase.Some? && phase.value.Wiping? && phase.value.i >= |s.tools| then false
                 else s.locked,
       tools := if phase.Some? && phase.value.Wiping? && ByteLeft(s.tools, phase.value.i, phase.value.j)
                then ZeroByte(s.tools, phase.value.i, phase.value.j) else s.tools,
       records := s.records + ExitRecords(s.armed, x),
       ended := s.ended || phase == Some(ToDie))
  }

  // ----- Steps ---------------------------------------------------------------------------

  /**
   A request arrives while the main thread is in its serve call, the daemon goes away, or
   the main thread moves on after the client. In-flight handlers outlive the serve call.
   */
  function Outside(s: State, step: Step): State {
    var exits :=
      if step.MonitorDown? then [Arriving(DaemonLost)]
      else if step.MainStep? && s.main.Disconnected? then [Arriving(ClientDisconnect)]
      else [];
    s.(handlers := s.handlers + (if step.Request? && s.main.Serving? then [Handler(step.name, Arrived, None)] else []),
       exits := s.exits + exits,
       counter := if step.MainStep? && s.main.Serving? then Counter.Apply(s.counter, Counter.Disconnect) else s.counter,
       main := if !step.MainStep? then s.main else if s.main.Serving? then Disconnected else Leaving)
  }

  function Advance(s: State, step: Step): (t: State)
    requires EntriesOk(s.tools)
    ensures EntriesOk(t.tools)
  {
    match step
    case Handle(h, execOk) => if h < |s.handlers| then HandlerStep(s, h, execOk) else s
    case ExitStep(e) => if e < |s.exits| then ExitAdvance(s, e) else s
    case _ => Outside(s, step)
  }

  /** Nothing runs after the end. */
  function Apply(s: State, step: Step): (t: State)
    requires EntriesOk(s.tools)
    ensures EntriesOk(t.tools)
  {
    if s.ended then s else Advance(s, step)
  }

  function Run(s: State, steps: seq<Step>): (t: State)
    requires EntriesOk(s.tools)
    ensures EntriesOk(t.tools)
  {
    if steps == [] then s else Apply(Run(s, steps[..|steps| - 1]), steps[|steps| - 1])
  }

  /** Several steps of one handler, with nothing in between. */
  function Drive(s: State, h: nat, execOk: bool, turns: nat): (t: State)
    requires EntriesOk(s.tools)
    ensures EntriesOk(t.tools)
  {
    if turns == 0 then s else Apply(Drive(s, h, execOk, turns - 1), Handle(h, execOk))
  }
}
