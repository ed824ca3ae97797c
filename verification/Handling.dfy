/**
 What the main thread does with each thing it receives, in every state that some
 schedule reaches. The answers are written out act by act and field by field.
 */
module Handling {
  import opened Wrappers
  import opened Lifecycle
  import opened Closures
  import opened Panic
  import opened EventLoop
  import opened Channel
  import opened Protocol
  import MainInv
  import Registry
  import WatchdogTheorems

  /** The loop is live whenever an input is in hand. */
  lemma InHandIsLive(cfg: Config, s: State)
    requires Reachable(cfg, s) && (s.main.Handling? || s.main.TimedOut?)
    ensures MainInv.Tracking(s) && MainInv.Looping(s) && Enabled(s, Advance)
    ensures s.loop.policy.effects == []
  {
    WatchdogTheorems.Holds(cfg, s);
  }

  /**
   SIGTERM, SIGINT and QUIT always end the session. SIGUSR1 rehearses an unarmed daemon,
   opens a window for an armed one that has a grace time and destructs one that has
   none. SIGUSR2 never waits. Connects and cancels close any window.
   */
  lemma EventsAreHandled(cfg: Config, s: State)
    requires Reachable(cfg, s) && s.main.Handling? && !s.world.dead
    ensures var v, l := Apply(cfg, s, Advance), s.loop;
      var leave := [ZeroBuffers, RecordWipe, RecordEnd];
      var rehearse := [ZeroBuffers, RecordWipe, RecordWould(Registered), RecordWould(SelfProcess), StoreStop];
      var destruct := [SignalRegistered, ZeroBuffers, RecordWipe, RecordSelfKill, RaiseKill];
      var rehearsed := Policy(true, l.policy.deadline, [WipeBuffers, DryDone]);
      var destructed := Policy(true, None, [KillRegistered, WipeBuffers, KillSelf]);
      var handled := s.(trace := s.trace + [Input(Some(s.main.msg.ev), s.armed, s.now)]);
      match s.main.msg.ev
      case Signal(Term) => v == handled.(main := Acting(leave, 0, Shutdown, true))
      case Signal(Int) => v == handled.(main := Acting(leave, 0, Shutdown, true))
      case Quit => v == handled.(main := Acting(leave, 0, ClientQuit, true))
      case Signal(Usr1) =>
        v == if !s.armed then
               handled.(loop := l.(trigger := PanicSignal, policy := rehearsed),
                        main := Acting(rehearse, 0, PanicSignal, false))
             else if cfg.grace > 0 then
               handled.(loop := l.(trigger := PanicSignal, policy := Policy(false, Some(s.now + cfg.grace), [])), main := Top)
             else
               handled.(loop := l.(trigger := PanicSignal, policy := destructed),
                        main := Acting(destruct, 0, PanicSignal, false))
      case Signal(Usr2) =>
        v == if !s.armed then
               handled.(loop := l.(trigger := HardPanicSignal, policy := rehearsed),
                        main := Acting(rehearse, 0, HardPanicSignal, false))
             else
               handled.(loop := l.(trigger := HardPanicSignal, policy := destructed),
                        main := Acting(destruct, 0, HardPanicSignal, false))
      case Connected(g) => v == handled.(loop := l.(gen := g, present := true, policy := Policy(false, None, [])), main := Top)
      case Cancel => v == handled.(loop := l.(policy := Policy(false, None, [])), main := Top)
      case _ => v.loop.gen == l.gen && v.trace == handled.trace && v.world == s.world
  {
    InHandIsLive(cfg, s);
    MainInv.InputLeads(cfg, s);
    TurnMeans(s.loop, cfg.grace, Input(Some(s.main.msg.ev), s.armed, s.now));
  }

  /**
   A lost heartbeat or missed ping is ignored exactly when a newer client had connected
   by then. Otherwise it ends the client's presence, under its own reason: the daemon
   waits out its grace time if it is armed and has one, destructs if it has none and
   rehearses if unarmed.
   */
  lemma LossesAreHandled(cfg: Config, s: State)
    requires Reachable(cfg, s) && s.main.Handling? && !s.world.dead
    requires s.main.msg.ev.HeartbeatLost? || s.main.msg.ev.PingTimeout?
    ensures s.received <= |s.sent|
    ensures var v, l := Apply(cfg, s, Advance), s.loop;
      var why := if s.main.msg.ev.HeartbeatLost? then LostHeartbeat else MissedPing;
      var rehearse := [ZeroBuffers, RecordWipe, RecordWould(Registered), RecordWould(SelfProcess), StoreStop];
      var destruct := [SignalRegistered, ZeroBuffers, RecordWipe, RecordSelfKill, RaiseKill];
      var rehearsed := Policy(true, l.policy.deadline, [WipeBuffers, DryDone]);
      var destructed := Policy(true, None, [KillRegistered, WipeBuffers, KillSelf]);
      var handled := s.(trace := s.trace + [Input(Some(s.main.msg.ev), s.armed, s.now)]);
      if exists k :: 0 <= k < s.received && s.sent[k].ev.Connected? && s.sent[k].ev.g > s.main.msg.ev.g
      then v == handled.(main := Top)
      else if !s.armed then
        v == handled.(loop := l.(present := false, trigger := why, policy := rehearsed),
                      main := Acting(rehearse, 0, why, false))
      else if cfg.grace > 0 then
        v == handled.(loop := l.(present := false, trigger := why, policy := Policy(false, Some(s.now + cfg.grace), [])),
                      main := Top)
      else
        v == handled.(loop := l.(present := false, trigger := why, policy := destructed),
                      main := Acting(destruct, 0, why, false))
  {
    InHandIsLive(cfg, s);
    LossIsCurrent(s);
    LossInHand(cfg, s, s.loop.present && s.main.msg.ev.g == s.loop.gen);
  }

  lemma LossInHand(cfg: Config, s: State, current: bool)
    requires Enabled(s, Advance) && s.main.Handling? && !s.loop.policy.fired && s.loop.policy.effects == []
    requires s.main.msg.ev.HeartbeatLost? || s.main.msg.ev.PingTimeout?
    requires current <==> s.loop.present && s.main.msg.ev.g == s.loop.gen
    ensures var v, l := Apply(cfg, s, Advance), s.loop;
      var why := if s.main.msg.ev.HeartbeatLost? then LostHeartbeat else MissedPing;
      var rehearse := [ZeroBuffers, RecordWipe, RecordWould(Registered), RecordWould(SelfProcess), StoreStop];
      var destruct := [SignalRegistered, ZeroBuffers, RecordWipe, RecordSelfKill, RaiseKill];
      var rehearsed := Policy(true, l.policy.deadline, [WipeBuffers, DryDone]);
      var destructed := Policy(true, None, [KillRegistered, WipeBuffers, KillSelf]);
      var handled := s.(trace := s.trace + [Input(Some(s.main.msg.ev), s.armed, s.now)]);
      if !current then v == handled.(main := Top)
      else if !s.armed then
        v == handled.(loop := l.(present := false, trigger := why, policy := rehearsed),
                      main := Acting(rehearse, 0, why, false))
      else if cfg.grace > 0 then
        v == handled.(loop := l.(present := false, trigger := why, policy := Policy(false, Some(s.now + cfg.grace), [])),
                      main := Top)
      else
        v == handled.(loop := l.(present := false, trigger := why, policy := destructed),
                      main := Acting(destruct, 0, why, false))
  {
    MainInv.InputLeads(cfg, s);
    TurnMeans(s.loop, cfg.grace, Input(Some(s.main.msg.ev), s.armed, s.now));
  }

  /** A loss is about the client believed present unless a newer one had connected. */
  lemma LossIsCurrent(s: State)
    requires MainInv.Tracking(s) && s.main.Handling? && MainInv.Looping(s)
    requires s.main.msg.ev.HeartbeatLost? || s.main.msg.ev.PingTimeout?
    ensures s.received <= |s.sent|
    ensures s.loop.present && s.main.msg.ev.g == s.loop.gen
      <==> !exists k :: 0 <= k < s.received && s.sent[k].ev.Connected? && s.sent[k].ev.g > s.main.msg.ev.g
  {
    MainInv.TakeMessage(s);
    var g := s.main.msg.ev.g;
    assert s.main.msg.src == g;
    WatchdogTheorems.TerminalInHand(s);
    var taken := s.sent[..s.received];
    if WatchdogTheorems.ConnectedSince(taken, g) {
      var m :| m in taken && m.ev.Connected? && m.ev.g > g;
      var k :| 0 <= k < |taken| && taken[k] == m;
      assert s.sent[k] == m;
    } else {
      forall k | 0 <= k < s.received ensures !(s.sent[k].ev.Connected? && s.sent[k].ev.g > g) {
        assert s.sent[k] in taken;
      }
    }
  }

  /** A receive that timed out destructs under the trigger's reason if the deadline has passed, and otherwise does nothing. */
  lemma TimeoutsAreHandled(cfg: Config, s: State)
    requires Reachable(cfg, s) && s.main.TimedOut? && !s.world.dead
    ensures var v, l := Apply(cfg, s, Advance), s.loop;
      var destruct := [SignalRegistered, ZeroBuffers, RecordWipe, RecordSelfKill, RaiseKill];
      var destructed := Policy(true, None, [KillRegistered, WipeBuffers, KillSelf]);
      var handled := s.(trace := s.trace + [Input(None, s.armed, s.now)]);
      if l.policy.deadline.Some? && l.policy.deadline.value <= s.now then
        && s.armed
        && v == handled.(loop := l.(policy := destructed),
                         main := Acting(destruct, 0, l.trigger, false))
      else v == handled.(main := Top)
  {
    InHandIsLive(cfg, s);
    MainInv.InputLeads(cfg, s);
    TurnMeans(s.loop, cfg.grace, Input(None, s.armed, s.now));
  }

  /** At the top of the loop the main thread waits, unless a rehearsal has set the stop flag: then it wipes again and ends. */
  lemma TopIsLeft(cfg: Config, s: State)
    requires Reachable(cfg, s) && s.main.Top? && !s.world.dead
    ensures s.world.stop <==> s.loop.policy.effects == [WipeBuffers, DryDone]
    ensures Apply(cfg, s, Advance)
         == s.(main := if s.world.stop then Acting([ZeroBuffers, RecordEnd], 0, s.loop.trigger, true) else Waiting)
  {
    StoppedMeansRehearsed(cfg, s);
    assert CleanupPlan(true) == [ZeroBuffers, RecordEnd];
  }

  lemma StoppedMeansRehearsed(cfg: Config, s: State)
    requires Reachable(cfg, s) && s.main.Top?
    ensures s.world.stop <==> s.loop.policy.effects == [WipeBuffers, DryDone]
    ensures s.loop.policy.fired <==> s.world.stop
  {
    WatchdogTheorems.Holds(cfg, s);
    var y := MainInv.StoryOf(s);
    assert MainInv.Telling(Top, y, CountU32(|cfg.buffers|)) by {
      assert s.main == Top;
    }
    TopStory(y, CountU32(|cfg.buffers|));
  }

  lemma TopStory(y: MainInv.Story, b: nat)
    requires MainInv.Telling(Top, y, b)
    ensures y.stop <==> y.policy.effects == [WipeBuffers, DryDone]
    ensures y.policy.fired <==> y.stop
  {
  }

  lemma StepRegisters(cfg: Config, s: State, t: Step)
    requires Enabled(s, t)
    ensures Apply(cfg, s, t).armed == (s.armed || t.SwapArmed?)
    ensures Apply(cfg, s, t).world.registered == match t
      case Register(pid) => Registry.Add(s.world.registered, pid)
      case Unregister(pid) => Registry.Remove(s.world.registered, pid)
      case _ => s.world.registered
  {
  }

  lemma StepSignals(cfg: Config, s: State, t: Step)
    requires Enabled(s, t)
    ensures t.Deliver? ==> Apply(cfg, s, t).sent == s.sent + [Msg(Event.Signal(t.sig), 0)]
    ensures Apply(cfg, s, t).now == s.now + (if t.Wait? then t.d else 0)
  {
  }

  /**
   What other threads do to the list of PIDs, the arm flag and the clock, and how a signal
   is delivered: the list is a set of at most 32, and nothing lowers the flag.
   */
  lemma OthersAct(cfg: Config, s: State, t: Step)
    requires Reachable(cfg, s) && Enabled(s, t)
    ensures var v, reg := Apply(cfg, s, t), set p | p in s.world.registered;
      && |v.world.registered| <= 32
      && (set p | p in v.world.registered)
         == (match t
             case Register(pid) => if |s.world.registered| >= 32 then reg else reg + {pid}
             case Unregister(pid) => reg - {pid}
             case _ => reg)
      && v.armed == (s.armed || t.SwapArmed?)
      && (t.Deliver? ==> v.sent == s.sent + [Msg(Event.Signal(t.sig), 0)])
      && v.now == s.now + (if t.Wait? then t.d else 0)
  {
    StepRegisters(cfg, s, t);
    StepSignals(cfg, s, t);
    RegisteredIsASet(cfg, s);
    match t
    case Register(pid) => Registry.AddRefines(s.world.registered, pid);
    case Unregister(pid) => Registry.RemoveRefines(s.world.registered, pid);
    case _ =>
  }

  lemma RegisteredIsASet(cfg: Config, s: State)
    requires Reachable(cfg, s)
    ensures Registry.Wellformed(s.world.registered)
    ensures |Registry.ToSet(s.world.registered)| == |s.world.registered| <= 32
  {
    WatchdogTheorems.Holds(cfg, s);
    Registry.SizeOfSet(s.world.registered);
  }
}
