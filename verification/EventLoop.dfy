/**
 The watchdog's single-threaded event loop: what one event does to the loop's own
 state, and the loop itself as a method over what the channel and clock deliver.
 */
module EventLoop {
  import opened Wrappers
  import opened Lifecycle
  import opened Closures
  import opened Panic

  datatype Signal = Usr1 | Usr2 | Term | Int

  datatype Event =
    | Connected(g: nat)
    | HeartbeatLost(g: nat)
    | PingTimeout(g: nat)
    | Cancel
    | Quit
    | Signal(sig: Signal)

  /** The loop's variables: current generation, presence, controller and trigger. */
  datatype Loop = Loop(gen: nat, present: bool, policy: Policy, trigger: Reason)

  const INITIAL := Loop(0, false, FRESH, Shutdown)

  /** A liveness loss is honoured only for the generation still believed live. */
  function AfterLoss(l: Loop, g: nat, why: Reason, armed: bool, grace: nat, now: nat): Loop {
    if l.present && g == l.gen
    then l.(present := false, trigger := why, policy := AfterGraceful(l.policy, armed, grace, now))
    else l
  }

  function AfterEvent(l: Loop, ev: Event, armed: bool, grace: nat, now: nat): Loop {
    match ev
    case Connected(g) => l.(gen := g, present := true, policy := AfterCancel(l.policy))
    case HeartbeatLost(g) => AfterLoss(l, g, LostHeartbeat, armed, grace, now)
    case PingTimeout(g) => AfterLoss(l, g, MissedPing, armed, grace, now)
    case Cancel => l.(policy := AfterCancel(l.policy))
    case Quit => l
    case Signal(Usr1) => l.(trigger := PanicSignal, policy := AfterGraceful(l.policy, armed, grace, now))
    case Signal(Usr2) => l.(trigger := HardPanicSignal, policy := AfterHard(l.policy, armed))
    case Signal(_) => l
  }

  /** Why an event leaves the loop at once, if it does. */
  function Leaves(ev: Event): Option<Reason> {
    match ev
    case Quit => Some(ClientQuit)
    case Signal(Term) => Some(Shutdown)
    case Signal(Int) => Some(Shutdown)
    case _ => None
  }

  function AfterTimeout(l: Loop, now: nat): Loop {
    l.(policy := AfterTick(l.policy, now))
  }

  /** One turn: an event or a receive timeout, with the arm flag and clock it meets. */
  datatype Input = Input(event: Option<Event>, armed: bool, now: nat)

  function Turn(l: Loop, grace: nat, i: Input): Loop {
    match i.event
    case Some(ev) => AfterEvent(l, ev, i.armed, grace, i.now)
    case None => AfterTimeout(l, i.now)
  }

  /** What a turn of an unfired loop does, case by case. */
  lemma TurnMeans(l: Loop, grace: nat, i: Input)
    requires !l.policy.fired && l.policy.effects == []
    ensures var v := Turn(l, grace, i);
      var graceful := if !i.armed then Policy(true, l.policy.deadline, [WipeBuffers, DryDone])
                      else if grace == 0 then Policy(true, None, [KillRegistered, WipeBuffers, KillSelf])
                      else Policy(false, Some(i.now + grace), []);
      match i.event
      case Some(Connected(g)) => v == Loop(g, true, Policy(false, None, []), l.trigger)
      case Some(HeartbeatLost(g)) => v == if l.present && g == l.gen then Loop(g, false, graceful, LostHeartbeat) else l
      case Some(PingTimeout(g)) => v == if l.present && g == l.gen then Loop(g, false, graceful, MissedPing) else l
      case Some(Cancel) => v == Loop(l.gen, l.present, Policy(false, None, []), l.trigger)
      case Some(Quit) => v == l
      case Some(Signal(Term)) => v == l
      case Some(Signal(Int)) => v == l
      case Some(Signal(Usr1)) => v == Loop(l.gen, l.present, graceful, PanicSignal)
      case Some(Signal(Usr2)) =>
        v == Loop(l.gen, l.present,
                  if i.armed then Policy(true, None, [KillRegistered, WipeBuffers, KillSelf])
                  else Policy(true, l.policy.deadline, [WipeBuffers, DryDone]),
                  HardPanicSignal)
      case None =>
        v == if l.policy.deadline.Some? && l.policy.deadline.value <= i.now
             then Loop(l.gen, l.present, Policy(true, None, [KillRegistered, WipeBuffers, KillSelf]), l.trigger) else l
  {
    assert l.policy.effects + DESTRUCT == DESTRUCT && l.policy.effects + REHEARSE == REHEARSE;
  }

  function Turns(l: Loop, grace: nat, inputs: seq<Input>): Loop {
    if inputs == [] then l
    else Turn(Turns(l, grace, inputs[..|inputs| - 1]), grace, inputs[|inputs| - 1])
  }

  lemma {:induction false} TurnsConcat(l: Loop, grace: nat, a: seq<Input>, b: seq<Input>)
    ensures Turns(l, grace, a + b) == Turns(Turns(l, grace, a), grace, b)
  {
    if b == [] {
      assert a + b == a;
    } else {
      var n := |b| - 1;
      TurnsConcat(l, grace, a, b[..n]);
      assert (a + b)[..|a + b| - 1] == a + b[..n];
    }
  }

  lemma TurnsSnoc(grace: nat, ds: seq<Delivery>, n: nat)
    requires n < |ds|
    ensures Turns(INITIAL, grace, InputsOf(ds[..n + 1]))
         == Turn(Turns(INITIAL, grace, InputsOf(ds[..n])), grace, ds[n].input)
  {
    assert InputsOf(ds[..n + 1])[..n] == InputsOf(ds[..n]);
  }

  // ----- Records --------------------------------------------------------------

  function Prologue(armed: bool): seq<Record> {
    [SessionStart(armed)] + if armed then [Arm(Startup)] else []
  }

  function ArmedEnding(why: Reason, pids: nat, buffers: nat): seq<Record> {
    [Kill(why, Registered, pids, true), Wipe(why, buffers), Kill(why, SelfProcess, 1, true)]
  }

  function DryEnding(why: Reason, pids: nat, buffers: nat): seq<Record> {
    [Wipe(why, buffers), Kill(why, Registered, pids, false), Kill(why, SelfProcess, 1, false), SessionEnd(why)]
  }

  function CleanEnding(why: Reason, buffers: nat): seq<Record> {
    [Wipe(why, buffers), SessionEnd(why)]
  }

  function ByMain(rs: seq<Record>): (es: seq<Entry>)
    ensures |es| == |rs| && forall i :: 0 <= i < |rs| ==> es[i] == Entry(MainThread, rs[i])
  {
    seq(|rs|, i requires 0 <= i < |rs| => Entry(MainThread, rs[i]))
  }

  // ----- The loop -------------------------------------------------------------

  datatype Outcome = StillWaiting | Killed | Ended(why: Reason)

  /** What the channel delivers next, with the list of registered PIDs at that time. */
  datatype Delivery = Delivery(input: Input, registered: seq<nat>)

  function InputsOf(ds: seq<Delivery>): (r: seq<Input>)
    ensures |r| == |ds|
  {
    seq(|ds|, i requires 0 <= i < |ds| => ds[i].input)
  }

  /** The arm flag is only ever raised. */
  ghost predicate ArmNeverReverts(armed: bool, ds: seq<Delivery>) {
    && (armed ==> forall i :: 0 <= i < |ds| ==> ds[i].input.armed)
    && (forall i, j :: 0 <= i < j < |ds| && ds[i].input.armed ==> ds[j].input.armed)
  }

  /** Not an input that ends the loop whatever state it is in. */
  predicate GoesOn(i: Input, grace: nat) {
    match i.event
    case Some(Quit) => false
    case Some(Signal(Usr1)) => i.armed && grace > 0
    case Some(Signal(_)) => false
    case _ => true
  }

  /** How an input that ends the loop whatever its state does so. */
  predicate EndsAs(i: Input, grace: nat, outcome: Outcome) {
    match i.event
    case Some(Quit) => outcome == Ended(ClientQuit)
    case Some(Signal(Usr1)) => if i.armed then grace == 0 && outcome == Killed else outcome == Ended(PanicSignal)
    case Some(Signal(Usr2)) => outcome == if i.armed then Killed else Ended(HardPanicSignal)
    case Some(Signal(_)) => outcome == Ended(Shutdown)
    case _ => true
  }

  class Watchdog {
    const armed: ArmFlag
    const host: Host
    const controller: PanicController
    var currentGen: nat
    var present: bool

    constructor (armed: bool, grace: nat, buffers: seq<Buffer>)
      ensures Valid() && fresh(Repr())
      ensures View() == Loop(0, false, Policy(false, None, []), Shutdown)
      ensures controller.grace == grace && this.armed.value == armed
      ensures host.View() == World([], buffers, false, [], [], false)
    {
      var flag := new ArmFlag(armed);
      var host := new Host(buffers);
      var controller := new PanicController(flag, grace, host);
      this.armed, this.host, this.controller := flag, host, controller;
      this.currentGen, this.present := 0, false;
    }

    ghost function Repr(): set<object> {
      {this, armed, host, controller}
    }

    ghost predicate Valid()
      reads Repr()
    {
      controller.armed == armed && controller.host == host
    }

    ghost function View(): Loop
      reads Repr(), controller.host
    {
      Loop(currentGen, present, controller.View(), host.trigger)
    }

    /** The controller has fired and its closures have run to completion. */
    ghost predicate Fired(start: World)
      reads Repr(), controller.host
    {
      && controller.fired
      && (host.effects == DESTRUCT || host.effects == REHEARSE)
      && host.View() == EffectsOn(start, host.effects, host.trigger)
    }

    /** A liveness loss, acted on only for the generation believed live. */
    method HandleLoss(g: nat, why: Reason, now: nat)
      requires Valid() && !host.stop && !host.dead && !controller.fired && host.effects == []
      requires controller.deadline.Some? ==> armed.value
      modifies this, host, controller
      ensures controller.deadline.Some? || host.effects == DESTRUCT ==> armed.value
      ensures Valid() && View() == AfterLoss(old(View()), g, why, armed.value, controller.grace, now)
      ensures currentGen == old(currentGen)
      ensures !old(present && g == currentGen) ==> View() == old(View())
      ensures old(present && g == currentGen) ==> !present && host.trigger == why
      ensures old(present && g == currentGen) ==>
        if !armed.value then controller.fired && host.effects == [WipeBuffers, DryDone]
        else if controller.grace == 0 then controller.fired && host.effects == [KillRegistered, WipeBuffers, KillSelf]
        else !controller.fired && controller.deadline == Some(now + controller.grace)
      ensures if controller.fired then Fired(old(host.View()))
              else host.View() == old(host.View()) && host.effects == []
    {
      if present && g == currentGen {
        present := false;
        host.trigger := why;
        controller.RequestGraceful(now);
      }
    }

    /** One received event or timeout. `end` says whether and why the loop is left. */
    method HandleInput(i: Input) returns (end: Option<Reason>)
      requires Valid() && !host.stop && !host.dead && !controller.fired && host.effects == []
      requires armed.value == i.armed && (controller.deadline.Some? ==> armed.value)
      modifies this, host, controller
      ensures controller.deadline.Some? || host.effects == DESTRUCT ==> armed.value
      ensures Valid() && View() == Turn(old(View()), controller.grace, i)
      ensures if controller.fired then Fired(old(host.View())) && end == None
              else host.View() == old(host.View()) && host.effects == []
      ensures end == match i.event
        case Some(Signal(Term)) => Some(Shutdown)
        case Some(Signal(Int)) => Some(Shutdown)
        case Some(Quit) => Some(ClientQuit)
        case _ => None
      ensures end.Some? ==> View() == old(View())
      ensures i.event == Some(Event.Signal(Usr1)) ==>
        && host.trigger == PanicSignal
        && if !i.armed then controller.fired && host.effects == [WipeBuffers, DryDone]
           else if controller.grace == 0 then controller.fired && host.effects == [KillRegistered, WipeBuffers, KillSelf]
           else !controller.fired && controller.deadline == Some(i.now + controller.grace)
      ensures i.event == Some(Event.Signal(Usr2)) ==>
        && controller.fired && host.trigger == HardPanicSignal
        && host.effects == if i.armed then [KillRegistered, WipeBuffers, KillSelf] else [WipeBuffers, DryDone]
      ensures i.event.None? ==>
        if old(controller.deadline.Some? && controller.deadline.value <= i.now)
        then controller.fired && host.effects == [KillRegistered, WipeBuffers, KillSelf]
        else View() == old(View())
    {
      end := None;
      match i.event
      case Some(Connected(g)) =>
        currentGen := g;
        present := true;
        var _ := controller.Cancel();
      case Some(HeartbeatLost(g)) => HandleLoss(g, LostHeartbeat, i.now);
      case Some(PingTimeout(g)) => HandleLoss(g, MissedPing, i.now);
      case Some(Cancel) =>
        var _ := controller.Cancel();
      case Some(Quit) =>
        end := Some(ClientQuit);
      case Some(Signal(Usr1)) =>
        host.trigger := PanicSignal;
        controller.RequestGraceful(i.now);
      case Some(Signal(Usr2)) =>
        host.trigger := HardPanicSignal;
        controller.RequestHard();
      case Some(Signal(_)) =>
        end := Some(Shutdown);
      case None =>
        controller.Tick(i.now);
    }

    /** Meet one delivery: other threads have armed and registered meanwhile. */
    method Receive(d: Delivery) returns (end: Option<Reason>, ghost met: World)
      requires Valid() && !host.stop && !host.dead && !controller.fired && host.effects == []
      requires (armed.value ==> d.input.armed) && (controller.deadline.Some? ==> armed.value)
      modifies this, host, controller, armed
      ensures Valid() && View() == Turn(old(View()), controller.grace, d.input)
      ensures armed.value == d.input.armed
      ensures controller.deadline.Some? || host.effects == DESTRUCT ==> armed.value
      ensures end == match d.input.event
        case Some(Signal(Term)) => Some(Shutdown)
        case Some(Signal(Int)) => Some(Shutdown)
        case Some(Quit) => Some(ClientQuit)
        case _ => None
      ensures met == old(host.View()).(registered := d.registered)
      ensures if controller.fired then Fired(met) && end == None else host.View() == met && host.effects == []
    {
      armed.value := d.input.armed;
      host.registered := d.registered;
      met := host.View();
      end := HandleInput(d.input);
    }

    /** Always wipe on the way out; a dry-run trigger has already recorded its wipe. */
    method Cleanup(end: Reason)
      requires Valid()
      modifies host`buffers, host`log
      ensures host.buffers == ZeroAll(old(host.buffers))
      ensures host.log == old(host.log)
        + ByMain((if controller.fired then [] else [Wipe(end, CountU32(|host.buffers|))]) + [SessionEnd(end)])
    {
      host.ZeroEach();
      if !controller.fired {
        host.Append(Wipe(end, CountU32(|host.buffers|)));
      }
      host.Append(SessionEnd(end));
    }

    /** Every buffer is zero and the records are the prologue and one whole ending. */
    ghost predicate Concluded(outcome: Outcome, start: bool, pids: nat)
      reads Repr(), controller.host
    {
      && AllZero(host.buffers)
      && var b := CountU32(|host.buffers|);
         match outcome
         case StillWaiting => false
         case Killed =>
           && armed.value && host.dead && host.effects == DESTRUCT
           && host.log == ByMain(Prologue(start) + ArmedEnding(host.trigger, CountU32(pids), b))
         case Ended(why) =>
           && !host.dead
           && if controller.fired
              then host.effects == REHEARSE && why == host.trigger
                && host.log == ByMain(Prologue(start) + DryEnding(why, CountU32(pids), b))
              else host.effects == [] && host.log == ByMain(Prologue(start) + CleanEnding(why, b))
    }

    /** What follows a firing: the process is dead, or the stop flag ends the loop. */
    method AfterFiring(ghost start: bool, ghost w: World) returns (outcome: Outcome)
      requires Valid() && Fired(w)
      requires w.log == ByMain(Prologue(start)) && !w.dead
      requires host.effects == DESTRUCT ==> armed.value
      modifies host`buffers, host`log
      ensures Concluded(outcome, start, |w.registered|)
      ensures outcome == if host.effects == [KillRegistered, WipeBuffers, KillSelf] then Killed else Ended(host.trigger)
      ensures host.signalled == w.signalled + if outcome.Killed? then w.registered else []
    {
      FiredWorld(w, host.effects, host.trigger);
      ghost var n, b := CountU32(|w.registered|), CountU32(|w.buffers|);
      assert w.signalled + [] == w.signalled;
      if host.dead {
        assert host.log == ByMain(Prologue(start) + ArmedEnding(host.trigger, n, b));
        return Killed;
      }
      Cleanup(host.trigger);
      assert host.log == ByMain(Prologue(start) + DryEnding(host.trigger, n, b));
      return Ended(host.trigger);
    }

    /** Leaving without a trigger. */
    method CleanExit(why: Reason, ghost start: bool)
      requires Valid() && !controller.fired && host.effects == [] && !host.dead
      requires host.log == ByMain(Prologue(start))
      modifies host`buffers, host`log
      ensures Concluded(Ended(why), start, 0)
    {
      Cleanup(why);
      assert host.log == ByMain(Prologue(start) + CleanEnding(why, CountU32(|host.buffers|)));
    }

    method Announce()
      requires Valid() && host.log == []
      modifies host`log
      ensures host.log == ByMain(Prologue(armed.value))
    {
      var armedAtStart := armed.value;
      host.Append(SessionStart(armedAtStart));
      if armedAtStart {
        host.Append(Arm(Startup));
      }
    }

    /** Once round the loop: take a delivery, and leave if it fires or says so. */
    method TakeTurn(d: Delivery, ghost start: bool) returns (over: Option<Outcome>)
      requires Valid() && !host.stop && !host.dead && !controller.fired && host.effects == []
      requires host.log == ByMain(Prologue(start))
      requires (armed.value ==> d.input.armed) && (controller.deadline.Some? ==> armed.value)
      modifies this, host, controller, armed
      ensures Valid() && View() == Turn(old(View()), controller.grace, d.input) && armed.value == d.input.armed
      ensures over.None? ==> !controller.fired && host.effects == [] && !host.stop && !host.dead
      ensures over.None? ==> host.log == ByMain(Prologue(start)) && (controller.deadline.Some? ==> armed.value)
      ensures over.Some? ==> Concluded(over.value, start, |d.registered|)
      ensures host.signalled == old(host.signalled) + if over == Some(Killed) then d.registered else []
      ensures over == match d.input.event
        case Some(Signal(Term)) => Some(Ended(Shutdown))
        case Some(Signal(Int)) => Some(Ended(Shutdown))
        case Some(Quit) => Some(Ended(ClientQuit))
        case Some(Connected(_)) => None
        case Some(Cancel) => None
        case Some(Signal(Usr1)) =>
          if !d.input.armed then Some(Ended(PanicSignal)) else if controller.grace == 0 then Some(Killed) else None
        case Some(Signal(Usr2)) => Some(if d.input.armed then Killed else Ended(HardPanicSignal))
        case Some(HeartbeatLost(g)) =>
          if !(old(present) && g == old(currentGen)) then None
          else if !d.input.armed then Some(Ended(LostHeartbeat)) else if controller.grace == 0 then Some(Killed) else None
        case Some(PingTimeout(g)) =>
          if !(old(present) && g == old(currentGen)) then None
          else if !d.input.armed then Some(Ended(MissedPing)) else if controller.grace == 0 then Some(Killed) else None
        case None =>
          if old(controller.deadline).Some? && old(controller.deadline).value <= d.input.now then Some(Killed) else None
    {
      var left, before := Receive(d);
      ghost var l := View();
      assert l == Turn(old(View()), controller.grace, d.input);
      TurnMeans(old(View()), controller.grace, d.input);
      if controller.fired {
        var outcome := AfterFiring(start, before);
        assert View() == l;
        return Some(outcome);
      }
      assert host.signalled + [] == host.signalled;
      if left.Some? {
        CleanExit(left.value, start);
        return Some(Ended(left.value));
      }
      over := None;
    }

    /** The loop itself: turn after turn, up to the first delivery that ends it. */
    method TakeTurns(ds: seq<Delivery>, ghost start: bool) returns (outcome: Outcome, used: nat)
      requires Valid() && View() == INITIAL && !host.stop && !host.dead && host.signalled == []
      requires host.log == ByMain(Prologue(start)) && ArmNeverReverts(armed.value, ds)
      modifies this, host, controller, armed
      ensures Valid() && used <= |ds|
      ensures View() == Turns(INITIAL, controller.grace, InputsOf(ds[..used]))
      ensures outcome.StillWaiting? ==>
        && used == |ds| && !controller.fired && host.effects == [] && host.signalled == []
        && host.log == ByMain(Prologue(start))
        && forall k :: 0 <= k < used ==> GoesOn(ds[k].input, controller.grace)
      ensures !outcome.StillWaiting? ==>
        && used > 0 && Concluded(outcome, start, |ds[used - 1].registered|)
        && host.signalled == (if outcome.Killed? then ds[used - 1].registered else [])
        && (forall k :: 0 <= k < used - 1 ==> GoesOn(ds[k].input, controller.grace))
        && EndsAs(ds[used - 1].input, controller.grace, outcome)
    {
      used := 0;
      while true
        invariant Valid() && 0 <= used <= |ds|
        invariant armed.value ==> forall i :: used <= i < |ds| ==> ds[i].input.armed
        invariant View() == Turns(INITIAL, controller.grace, InputsOf(ds[..used]))
        invariant !controller.fired && host.effects == [] && !host.stop && !host.dead && host.signalled == []
        invariant host.log == ByMain(Prologue(start))
        invariant controller.deadline.Some? ==> armed.value
        invariant forall k :: 0 <= k < used ==> GoesOn(ds[k].input, controller.grace)
        decreases |ds| - used
      {
        if used == |ds| {
          return StillWaiting, used;
        }
        var over := TakeTurn(ds[used], start);
        used := used + 1;
        TurnsSnoc(controller.grace, ds, used - 1);
        if over.Some? {
          return over.value, used;
        }
      }
    }

    /**
     The loop on what the channel delivers, up to the first delivery that ends it.
     Its variables follow `Turns`; the records it leaves are one of the endings.
     */
    method RunWithListener(ds: seq<Delivery>) returns (outcome: Outcome, used: nat)
      requires Valid() && View() == INITIAL
      requires !host.stop && !host.dead && host.log == [] && host.signalled == []
      requires ArmNeverReverts(armed.value, ds)
      modifies this, host, controller, armed
      ensures Valid() && used <= |ds|
      ensures View() == Turns(INITIAL, controller.grace, InputsOf(ds[..used]))
      // A delivery that always ends the loop is the last it takes, and ends it its own way.
      ensures forall k :: 0 <= k < used && ds[k].input.event == Some(Event.Signal(Term)) ==>
        k == used - 1 && outcome == Ended(Shutdown)
      ensures forall k :: 0 <= k < used && ds[k].input.event == Some(Event.Signal(Int)) ==>
        k == used - 1 && outcome == Ended(Shutdown)
      ensures forall k :: 0 <= k < used && ds[k].input.event == Some(Quit) ==>
        k == used - 1 && outcome == Ended(ClientQuit)
      ensures forall k :: 0 <= k < used && ds[k].input.event == Some(Event.Signal(Usr2)) ==>
        k == used - 1 && outcome == if ds[k].input.armed then Killed else Ended(HardPanicSignal)
      ensures forall k :: 0 <= k < used && ds[k].input.event == Some(Event.Signal(Usr1))
                          && (!ds[k].input.armed || controller.grace == 0) ==>
        k == used - 1 && outcome == if ds[k].input.armed then Killed else Ended(PanicSignal)
      // What is left behind.
      ensures var start := [SessionStart(old(armed.value))] + if old(armed.value) then [Arm(Startup)] else [];
        var b := CountU32(|host.buffers|);
        match outcome
        case StillWaiting =>
          used == |ds| && !controller.fired && host.effects == [] && host.signalled == [] && host.log == ByMain(start)
        case Killed =>
          && used > 0 && armed.value && host.dead && host.signalled == ds[used - 1].registered
          && host.effects == [KillRegistered, WipeBuffers, KillSelf]
          && host.log == ByMain(start + [Kill(host.trigger, Registered, CountU32(|ds[used - 1].registered|), true),
                                         Wipe(host.trigger, b),
                                         Kill(host.trigger, SelfProcess, 1, true)])
        case Ended(why) =>
          && used > 0 && !host.dead && host.signalled == []
          && (controller.fired ==>
               && host.effects == [WipeBuffers, DryDone] && why == host.trigger
               && host.log == ByMain(start + [Wipe(why, b),
                                              Kill(why, Registered, CountU32(|ds[used - 1].registered|), false),
                                              Kill(why, SelfProcess, 1, false),
                                              SessionEnd(why)]))
          && (!controller.fired ==> host.effects == [] && host.log == ByMain(start + [Wipe(why, b), SessionEnd(why)]))
      ensures !outcome.StillWaiting? ==>
        forall i, k :: 0 <= i < |host.buffers| && 0 <= k < |host.buffers[i]| ==> host.buffers[i][k] == 0
    {
      ghost var start := armed.value;
      Announce();
      outcome, used := TakeTurns(ds, start);
    }
  }

  /** The two firings, acted out on a world. */
  lemma FiredWorld(w: World, effects: seq<Effect>, why: Reason)
    requires effects == DESTRUCT || effects == REHEARSE
    ensures var v := EffectsOn(w, effects, why); var b := CountU32(|w.buffers|); var n := CountU32(|w.registered|);
      && v.buffers == ZeroAll(w.buffers) && v.registered == w.registered
      && (effects == [KillRegistered, WipeBuffers, KillSelf] ==>
        && v.dead && v.stop == w.stop && v.signalled == w.signalled + w.registered
        && v.log == w.log + ByMain([Kill(why, Registered, n, true), Wipe(why, b), Kill(why, SelfProcess, 1, true)]))
      && (effects == [WipeBuffers, DryDone] ==>
        && v.dead == w.dead && v.stop && v.signalled == w.signalled
        && v.log == w.log + ByMain([Wipe(why, b), Kill(why, Registered, n, false), Kill(why, SelfProcess, 1, false)]))
  {
    if effects == DESTRUCT {
      var w1 := PerformAll(w, ActsOf(KillRegistered), why);
      var w2 := PerformAll(w1, ActsOf(WipeBuffers), why);
      var w3 := PerformAll(w2, ActsOf(KillSelf), why);
      assert EffectsOn(w, effects, why) == EffectsOn(w1, [WipeBuffers, KillSelf], why) == EffectsOn(w2, [KillSelf], why) == w3;
      assert w3.log == w.log + ByMain(ArmedEnding(why, CountU32(|w.registered|), CountU32(|w.buffers|)));
    } else {
      var w1 := PerformAll(w, ActsOf(WipeBuffers), why);
      var w2 := PerformAll(w1, ActsOf(DryDone), why);
      assert EffectsOn(w, effects, why) == EffectsOn(w1, [DryDone], why) == w2;
      assert w2.log == w.log + ByMain([Wipe(why, CountU32(|w.buffers|)), Kill(why, Registered, CountU32(|w.registered|), false),
                                       Kill(why, SelfProcess, 1, false)]);
    }
  }
}
