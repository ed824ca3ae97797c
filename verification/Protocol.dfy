/**
 The whole watchdog as a state machine: any number of heartbeat readers, any number
 of control threads, the signal thread and the main thread, one atomic operation,
 send, receive, record or closure act per step.
 */
module Protocol {
  import opened Wrappers
  import opened Lifecycle
  import opened Closures
  import opened Panic
  import opened EventLoop
  import opened Channel
  import Registry

  /** Where a heartbeat reader is, from having read HELLO to having returned. */
  datatype Reader =
    | Greeted                        // about to swap `active`
    | Refused                        // another client held it: BUSY
    | Claimed                        // holds `active`, no generation yet
    | Tagged(g: nat)                 // about to send its Connected
    | Reading(g: nat)                // in the read loop
    | Ending(g: nat, last: Event)    // `active` cleared, about to send its terminal event
    | Returned(g: nat)

  predicate Holds(r: Reader) {
    r.Claimed? || r.Tagged? || r.Reading?
  }

  predicate HasGen(r: Reader) {
    r.Tagged? || r.Reading? || r.Ending? || r.Returned?
  }

  datatype Main =
    | Boot
    | Announcing
    | RecordingArm
    | Top
    | Waiting
    | TimedOut
    | Handling(msg: Msg)
    | Acting(plan: seq<Act>, next: nat, why: Reason, leaving: bool)   // acts before `next` are done
    | Done(why: Reason)

  datatype Config = Config(armed: bool, grace: nat, buffers: seq<Buffer>)

  /**
   `sent` is the channel's whole history, of which the main thread has taken the
   first `received`. `arming[c]` holds while control thread c, having armed the
   daemon, has not yet recorded it. `trace` is the inputs the loop has handled.
   */
  datatype State = State(
    readers: seq<Reader>, active: bool, genSource: nat,
    sent: seq<Msg>, received: nat,
    armed: bool, arming: seq<bool>,
    main: Main, armedAtStart: bool, loop: Loop, trace: seq<Input>,
    world: World, now: nat)

  datatype Step =
    | Hello
    | SwapActive(r: nat)
    | DrawGeneration(r: nat)
    | SendConnected(r: nat)
    | SendCancel(r: nat)
    | ClearActive(r: nat, last: Event)
    | SendTerminal(r: nat)
    | Deliver(sig: Signal)
    | OpenControl
    | SwapArmed(c: nat)
    | RecordArm(c: nat)
    | Register(pid: nat)
    | Unregister(pid: nat)
    | Receive
    | Expire
    | Advance            // the main thread's next step, anywhere but in its receive
    | Wait(d: nat)

  function Init(cfg: Config): State {
    State([], false, 0, [], 0, cfg.armed, [], Boot, false, INITIAL, [],
          World([], cfg.buffers, false, [], [], false), 0)
  }

  predicate Enabled(s: State, t: Step) {
    && !s.world.dead
    && match t
       case SwapActive(r) => r < |s.readers| && s.readers[r].Greeted?
       case DrawGeneration(r) => r < |s.readers| && s.readers[r].Claimed?
       case SendConnected(r) => r < |s.readers| && s.readers[r].Tagged?
       case SendCancel(r) => r < |s.readers| && s.readers[r].Reading?
       case ClearActive(r, last) => r < |s.readers| && s.readers[r].Reading? && TerminalOf(last, s.readers[r].g)
       case SendTerminal(r) => r < |s.readers| && s.readers[r].Ending?
       case SwapArmed(c) => c < |s.arming| && !s.arming[c]
       case RecordArm(c) => c < |s.arming| && s.arming[c]
       case Receive => s.main.Waiting? && s.received < |s.sent|
       case Expire => s.main.Waiting? && s.received == |s.sent| && s.loop.policy.deadline.Some?
       case Advance => !s.main.Waiting? && !s.main.Done?
       case _ => true
  }

  function Apply(cfg: Config, s: State, t: Step): (v: State)
    requires Enabled(s, t)
    ensures !t.Advance? ==> v.loop == s.loop && v.trace == s.trace && v.armedAtStart == s.armedAtStart
    ensures !t.Advance? && !t.Receive? && !t.Expire? ==>
      v.main == s.main && v.received == s.received && s.sent <= v.sent && (s.armed ==> v.armed)
  {
    match t
    case Hello => s.(readers := s.readers + [Greeted])
    case SwapActive(r) =>
      if s.active then s.(readers := s.readers[r := Refused])
      else s.(readers := s.readers[r := Claimed], active := true)
    case DrawGeneration(r) =>
      s.(readers := s.readers[r := Tagged(s.genSource + 1)], genSource := s.genSource + 1)
    case SendConnected(r) =>
      var g := s.readers[r].g;
      s.(readers := s.readers[r := Reading(g)], sent := s.sent + [Msg(Connected(g), g)])
    case SendCancel(r) => s.(sent := s.sent + [Msg(Cancel, s.readers[r].g)])
    case ClearActive(r, last) => s.(readers := s.readers[r := Ending(s.readers[r].g, last)], active := false)
    case SendTerminal(r) =>
      var g := s.readers[r].g;
      s.(readers := s.readers[r := Returned(g)], sent := s.sent + [Msg(s.readers[r].last, g)])
    case Deliver(sig) => s.(sent := s.sent + [Msg(Event.Signal(sig), 0)])
    case OpenControl => s.(arming := s.arming + [false])
    case SwapArmed(c) => s.(armed := true, arming := s.arming[c := !s.armed])
    case RecordArm(c) =>
      s.(arming := s.arming[c := false],
         world := s.world.(log := s.world.log + [Entry(ControlThread, Arm(Control))]))
    case Register(pid) => s.(world := s.world.(registered := Registry.Add(s.world.registered, pid)))
    case Unregister(pid) => s.(world := s.world.(registered := Registry.Remove(s.world.registered, pid)))
    case Receive => s.(main := Handling(s.sent[s.received]), received := s.received + 1)
    case Expire => s.(main := TimedOut)
    case Advance => AdvanceMain(cfg, s)
    case Wait(d) => s.(now := s.now + d)
  }

  function Plan(effects: seq<Effect>): seq<Act> {
    if effects == [] then [] else ActsOf(effects[0]) + Plan(effects[1..])
  }

  function CleanupPlan(fired: bool): seq<Act> {
    [ZeroBuffers] + (if fired then [] else [RecordWipe]) + [RecordEnd]
  }

  /** Where the main thread goes after an input: into its closures, out of the loop, or round again. */
  function AfterInput(l: Loop, end: Option<Reason>): Main {
    if l.policy.fired then Acting(Plan(l.policy.effects), 0, l.trigger, false)
    else if end.Some? then Acting(CleanupPlan(false), 0, end.value, true)
    else Top
  }

  /** The steps of the main and control threads leave the readers and the channel alone. */
  predicate SameChannel(s: State, v: State) {
    v.readers == s.readers && v.active == s.active && v.genSource == s.genSource && v.sent == s.sent
  }

  function TakeInput(cfg: Config, s: State, i: Input): (v: State)
    ensures SameChannel(s, v) && v.received == s.received
  {
    var l := Turn(s.loop, cfg.grace, i);
    s.(loop := l, trace := s.trace + [i],
       main := AfterInput(l, if i.event.Some? then Leaves(i.event.value) else None))
  }

  function AdvanceMain(cfg: Config, s: State): (v: State)
    requires Enabled(s, Advance)
    ensures SameChannel(s, v) && v.received == s.received && v.armed == s.armed && v.arming == s.arming
    ensures !s.main.Handling? && !s.main.TimedOut? ==> v.loop == s.loop && v.trace == s.trace
  {
    match s.main
    case Boot => s.(armedAtStart := s.armed, main := Announcing)
    case Announcing =>
      s.(world := Emit(s.world, SessionStart(s.armedAtStart)), main := if s.armedAtStart then RecordingArm else Top)
    case RecordingArm => s.(world := Emit(s.world, Arm(Startup)), main := Top)
    case Top =>
      if s.world.stop
      then s.(main := Acting(CleanupPlan(s.loop.policy.fired), 0, s.loop.trigger, true))
      else s.(main := Waiting)
    case TimedOut => TakeInput(cfg, s, Input(None, s.armed, s.now))
    case Handling(msg) => TakeInput(cfg, s, Input(Some(msg.ev), s.armed, s.now))
    case Acting(plan, next, why, leaving) =>
      if next >= |plan| then s.(main := if leaving then Done(why) else Top)
      else s.(world := Perform(s.world, plan[next], why), main := Acting(plan, next + 1, why, leaving))
  }

  /** The state after a schedule, if every step of it is possible. */
  function Run(cfg: Config, steps: seq<Step>): Option<State> {
    if steps == [] then Some(Init(cfg))
    else
      match Run(cfg, steps[..|steps| - 1])
      case None => None
      case Some(s) =>
        var t := steps[|steps| - 1];
        if Enabled(s, t) then Some(Apply(cfg, s, t)) else None
  }

  ghost predicate Reachable(cfg: Config, s: State) {
    exists steps :: Run(cfg, steps) == Some(s)
  }
}
