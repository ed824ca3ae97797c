/** What holds of the watchdog in every state that some schedule reaches. */
module WatchdogTheorems {
  import opened Wrappers
  import opened Lifecycle
  import opened Closures
  import opened Panic
  import opened EventLoop
  import opened Channel
  import opened Protocol
  import MainInv
  import ReaderInv
  import Registry
  import Reorder

  lemma Holds(cfg: Config, s: State)
    requires Reachable(cfg, s)
    ensures ReaderInv.Inv(s) && MainInv.Inv(cfg, s)
  {
    var steps :| Run(cfg, steps) == Some(s);
    ReaderInv.Always(cfg, steps);
    MainInv.Always(cfg, steps);
  }

  // ----- Liveness tracking ------------------------------------------------------

  /** No reader is between its change of `active` and the send that reports it. */
  ghost predicate NobodyMidway(s: State) {
    forall r :: 0 <= r < |s.readers| ==>
      !s.readers[r].Claimed? && !s.readers[r].Tagged? && !s.readers[r].Ending?
  }

  /** The loop runs on, has handled all that was sent, and nothing is about to be sent. */
  ghost predicate Settled(s: State) {
    && (s.main.Top? || s.main.Waiting?) && !s.world.stop
    && s.received == |s.sent| && NobodyMidway(s)
  }

  /** Once things settle, the loop's belief is the flag: it thinks a client present if and only if one is. */
  lemma SettledBeliefIsTruth(cfg: Config, s: State)
    requires Reachable(cfg, s) && Settled(s)
    ensures s.loop.gen == s.genSource
    ensures s.loop.present <==> s.active
  {
    Holds(cfg, s);
    var c := Summary(s.sent);
    assert s.sent[..MainInv.Handled(s)] == s.sent;
    SummaryMeans(s.sent, c.last);
    if s.active {
      var r :| 0 <= r < |s.readers| && Protocol.Holds(s.readers[r]);
      assert s.readers[r].Reading?;
    }
    if c.last in c.open {
      assert ReaderInv.Spoken(s.readers, c.last);
    }
  }

  /** No loss is ever missed: with a client gone and the loop running, a deadline is pending. */
  lemma NoLossMissed(cfg: Config, s: State)
    requires Reachable(cfg, s) && Settled(s)
    requires s.genSource > 0 && !s.active
    ensures s.loop.policy.deadline.Some? && s.armed
  {
    Holds(cfg, s);
    SettledBeliefIsTruth(cfg, s);
    assert s.sent[..MainInv.Handled(s)] == s.sent;
  }

  /**
   A window opened by a lost heartbeat or missed ping is never held against a client
   the loop has accepted: it believes nobody is present, and the reader of its
   generation has returned.
   */
  lemma LossWindowHasNoClient(cfg: Config, s: State)
    requires Reachable(cfg, s) && MainInv.Looping(s)
    requires s.loop.policy.deadline.Some? && MainInv.LossTrigger(s.loop.trigger)
    ensures !s.loop.present
    ensures exists r :: 0 <= r < |s.readers| && s.readers[r] == Returned(s.loop.gen)
    ensures forall r :: 0 <= r < |s.readers| && HasGen(s.readers[r]) && s.readers[r].g == s.loop.gen ==>
      s.readers[r].Returned?
  {
    Holds(cfg, s);
    FinishedHasReturned(s, MainInv.Handled(s), s.loop.gen);
  }

  /** A generation that has finished in a part of the channel has finished in all of it. */
  lemma FinishedStays(ms: seq<Msg>, k: nat, g: nat)
    requires Lawful(ms) && k <= |ms| && g > 0
    requires Summary(ms[..k]).last == g && g !in Summary(ms[..k]).open
    ensures g <= Summary(ms).last && g !in Summary(ms).open
  {
    LawfulPrefix(ms, k);
    SummaryMeans(ms[..k], g);
    SummaryMeans(ms, g);
    var m :| m in ms[..k] && (m == Msg(HeartbeatLost(g), g) || m == Msg(PingTimeout(g), g) || m == Msg(Quit, g));
    assert m in ms;
    var n :| n in ms[..k] && n == Msg(Connected(g), g);
    assert n in ms;
  }

  /** Its reader has returned. */
  lemma FinishedHasReturned(s: State, k: nat, g: nat)
    requires ReaderInv.Inv(s) && k <= |s.sent| && g > 0
    requires Summary(s.sent[..k]).last == g && g !in Summary(s.sent[..k]).open
    ensures exists r :: 0 <= r < |s.readers| && s.readers[r] == Returned(g)
    ensures forall r :: 0 <= r < |s.readers| && HasGen(s.readers[r]) && s.readers[r].g == g ==> s.readers[r].Returned?
  {
    FinishedStays(s.sent, k, g);
    assert ReaderInv.Owned(s.readers, g);
  }

  /** The main thread is about to handle this event. */
  predicate Handles(s: State, t: Step, ev: Event) {
    t.Advance? && s.main.Handling? && s.main.msg.ev == ev
  }

  /**
   What a step can do to a loss window while the loop runs: leave it, extend it (SIGUSR1),
   carry it out, give it up to a strictly newer client, or give it up by leaving the loop:
   on SIGTERM or SIGINT, or on the QUIT of a client that a newer one has overtaken.
   */
  predicate LossWindowStep(s: State, t: Step, v: State) {
    || (MainInv.Looping(v) && v.loop.policy.deadline == s.loop.policy.deadline && v.loop.trigger == s.loop.trigger)
    || (MainInv.Looping(v) && Handles(s, t, Event.Signal(Usr1)) && v.loop.policy.deadline.Some? && v.loop.trigger == PanicSignal)
    || (v.loop.policy.effects == [KillRegistered, WipeBuffers, KillSelf]
        && v.main == Acting([SignalRegistered, ZeroBuffers, RecordWipe, RecordSelfKill, RaiseKill], 0, v.loop.trigger, false))
    || (MainInv.Looping(v) && t.Advance? && s.main.Handling? && s.main.msg.ev.Connected? && s.main.msg.ev.g > s.loop.gen)
    || (v.main == Acting([ZeroBuffers, RecordWipe, RecordEnd], 0, Shutdown, true)
        && (Handles(s, t, Event.Signal(Term)) || Handles(s, t, Event.Signal(Int))))
    || (v.main == Acting([ZeroBuffers, RecordWipe, RecordEnd], 0, ClientQuit, true)
        && Handles(s, t, Quit) && s.main.msg.src < s.loop.gen)
  }

  lemma LossWindowMoves(cfg: Config, s: State, t: Step)
    requires Reachable(cfg, s) && MainInv.Looping(s) && Enabled(s, t)
    requires s.loop.policy.deadline.Some? && MainInv.LossTrigger(s.loop.trigger)
    ensures LossWindowStep(s, t, Apply(cfg, s, t))
  {
    Holds(cfg, s);
    if t.Advance? && s.main.Handling? {
      LossWindowInHand(cfg, s);
    } else {
      LossWindowAtRest(cfg, s, t);
    }
  }

  lemma LossWindowInHand(cfg: Config, s: State)
    requires MainInv.Tracking(s) && MainInv.Looping(s) && s.main.Handling? && Enabled(s, Advance)
    requires s.loop.policy.deadline.Some? && MainInv.LossTrigger(s.loop.trigger)
    ensures LossWindowStep(s, Advance, Apply(cfg, s, Advance))
  {
    MainInv.TakeMessage(s);
    MessageInLossWindow(s.loop, s.armed, Summary(s.sent[..s.received - 1]), s.main.msg);
    LossWindowInput(cfg, s);
  }

  /** A client's last event handled in a loss window is that of an older client; a connect is of a newer one. */
  lemma MessageInLossWindow(l: Loop, armed: bool, c: Chan, m: Msg)
    requires MainInv.Believes(l, armed, c) && Allowed(c, m)
    requires forall g: nat :: g in c.open ==> g <= c.last
    requires l.policy.deadline.Some? && MainInv.LossTrigger(l.trigger)
    ensures !l.present && !m.ev.Cancel?
    ensures m.ev.Connected? ==> m.ev.g > l.gen
    ensures Terminal(m) ==> m.src < l.gen
  {
  }

  lemma LossWindowInput(cfg: Config, s: State)
    requires MainInv.Looping(s) && s.main.Handling? && Enabled(s, Advance)
    requires s.loop.policy.deadline.Some? && s.loop.policy.effects == [] && s.armed
    requires !s.loop.present && !s.main.msg.ev.Cancel?
    requires s.main.msg.ev.Connected? ==> s.main.msg.ev.g > s.loop.gen
    requires Terminal(s.main.msg) ==> s.main.msg.src < s.loop.gen
    ensures LossWindowStep(s, Advance, Apply(cfg, s, Advance))
  {
    MainInv.InputLeads(cfg, s);
    TurnMeans(s.loop, cfg.grace, Input(Some(s.main.msg.ev), s.armed, s.now));
  }

  /** Any other step leaves the window alone or, past its end, carries it out. */
  lemma LossWindowAtRest(cfg: Config, s: State, t: Step)
    requires MainInv.Looping(s) && Enabled(s, t) && !(t.Advance? && s.main.Handling?)
    requires s.main.Top? ==> !s.world.stop
    requires s.loop.policy.effects == [] && s.loop.policy.deadline.Some?
    ensures LossWindowStep(s, t, Apply(cfg, s, t))
  {
    var v := Apply(cfg, s, t);
    if t.Advance? && s.main.TimedOut? {
      MainInv.InputLeads(cfg, s);
      TurnMeans(s.loop, cfg.grace, Input(None, s.armed, s.now));
    } else {
      assert v.loop == s.loop && !v.main.Acting? && !v.main.Done?;
    }
  }

  /** A QUIT handled in a loss window is always that of an overtaken client. */
  lemma QuitInLossWindowIsOvertaken(cfg: Config, s: State)
    requires Reachable(cfg, s) && QuitsLossWindow(s)
    ensures s.received <= |s.sent|
    ensures s.main.msg.src < s.loop.gen && ConnectedSince(s.sent[..s.received], s.main.msg.src)
    ensures cfg.grace > 0 && s.armed
  {
    Holds(cfg, s);
    MainInv.TakeMessage(s);
    MessageInLossWindow(s.loop, s.armed, Summary(s.sent[..s.received - 1]), s.main.msg);
    TerminalInHand(s);
    DeadlineNeedsGrace(INITIAL, cfg.grace, s.trace);
  }

  /** A loss window is pending and a QUIT, which will end the session without carrying it out, is in hand. */
  predicate QuitsLossWindow(s: State) {
    && MainInv.Looping(s) && s.loop.policy.deadline.Some? && MainInv.LossTrigger(s.loop.trigger)
    && s.main.Handling? && s.main.msg.ev == Quit
  }

  lemma {:induction false} DeadlineNeedsGrace(l: Loop, grace: nat, inputs: seq<Input>)
    requires l.policy.deadline.None? && Turns(l, grace, inputs).policy.deadline.Some?
    ensures grace > 0
  {
    if inputs != [] && Turns(l, grace, inputs[..|inputs| - 1]).policy.deadline.Some? {
      DeadlineNeedsGrace(l, grace, inputs[..|inputs| - 1]);
    }
  }

  /** Every CANCEL is handled while its own client is the one present; so it never aborts a loss window. */
  lemma CancelIsFromPresentClient(cfg: Config, s: State)
    requires Reachable(cfg, s) && s.main.Handling? && s.main.msg.ev.Cancel?
    ensures s.loop.present && s.main.msg.src == s.loop.gen
    ensures s.loop.policy.deadline.Some? ==> !MainInv.LossTrigger(s.loop.trigger)
  {
    Holds(cfg, s);
    MainInv.TakeMessage(s);
  }

  /**
   A loss or QUIT is about the client the loop believes present exactly when no newer
   generation connected before it. So a loss is honoured if and only if it was not
   overtaken; an overtaken QUIT, which carries no generation, still ends the session.
   */
  lemma TerminalIsCurrentUnlessOvertaken(cfg: Config, s: State)
    requires Reachable(cfg, s) && s.main.Handling? && Terminal(s.main.msg)
    ensures s.main.msg.src <= s.loop.gen && s.received <= |s.sent|
    ensures s.loop.present && s.main.msg.src == s.loop.gen <==> !ConnectedSince(s.sent[..s.received], s.main.msg.src)
  {
    Holds(cfg, s);
    TerminalInHand(s);
  }

  lemma TerminalAgainstBelief(l: Loop, armed: bool, c: Chan, m: Msg)
    requires MainInv.Believes(l, armed, c) && Allowed(c, m) && Terminal(m)
    requires m.src in c.open ==> m.src <= c.last
    ensures m.src <= l.gen
    ensures l.present && m.src == l.gen <==> !(Extend(c, m).last > m.src)
  {
  }

  lemma TerminalInHand(s: State)
    requires MainInv.Tracking(s) && s.main.Handling? && MainInv.Looping(s) && Terminal(s.main.msg)
    ensures s.main.msg.src <= s.loop.gen && s.received <= |s.sent|
    ensures s.loop.present && s.main.msg.src == s.loop.gen <==> !ConnectedSince(s.sent[..s.received], s.main.msg.src)
  {
    MainInv.TakeMessage(s);
    TerminalAgainstBelief(s.loop, s.armed, Summary(s.sent[..s.received - 1]), s.main.msg);
    LawfulPrefix(s.sent, s.received);
    NewestConnected(s.sent[..s.received], s.main.msg.src);
  }

  /** A generation newer than g has connected. */
  ghost predicate ConnectedSince(ms: seq<Msg>, g: nat) {
    exists m :: m in ms && m.ev.Connected? && m.ev.g > g
  }

  lemma NewestStep(c: Chan, ms: seq<Msg>, m: Msg, g: nat)
    requires Allowed(c, m) && (ConnectedSince(ms, g) <==> c.last > g)
    ensures ConnectedSince(ms + [m], g) <==> Extend(c, m).last > g
  {
    assert ConnectedSince(ms + [m], g) <==> ConnectedSince(ms, g) || (m.ev.Connected? && m.ev.g > g) by {
      if ConnectedSince(ms, g) {
        var x :| x in ms && x.ev.Connected? && x.ev.g > g;
        assert x in ms + [m];
      }
      assert m in ms + [m];
    }
  }

  lemma {:induction false} NewestConnected(ms: seq<Msg>, g: nat)
    requires Lawful(ms)
    ensures ConnectedSince(ms, g) <==> Summary(ms).last > g
  {
    if ms != [] {
      var n := |ms| - 1;
      LawfulPrefix(ms, n);
      NewestConnected(ms[..n], g);
      NewestStep(Summary(ms[..n]), ms[..n], ms[n], g);
      assert ms == ms[..n] + [ms[n]];
    }
  }

  /** A window can only expire with the channel drained: nobody newer has connected by then. */
  lemma ExpiryMeansNobodyConnected(cfg: Config, s: State)
    requires Reachable(cfg, s) && Enabled(s, Expire) && MainInv.LossTrigger(s.loop.trigger)
    ensures Summary(s.sent).last == s.loop.gen
    ensures ConnectedGens(s.sent) == seq(s.loop.gen, i => i + 1)
    ensures Finished(s.sent, s.loop.gen)
  {
    Holds(cfg, s);
    assert s.sent[..s.received] == s.sent;
    ConnectedInOrder(s.sent);
    SummaryMeans(s.sent, s.loop.gen);
  }

  /**
   By the tick that carries a window out, other clients may have connected since the
   receive timed out: in what has been handled the loop's generation is the newest and has
   finished, and whatever connects in the rest of the channel is newer.
   */
  lemma TickMeansNobodyHandled(cfg: Config, s: State)
    requires Reachable(cfg, s) && s.main.TimedOut? && !s.world.dead
    requires s.loop.policy.deadline.Some? && MainInv.LossTrigger(s.loop.trigger)
    ensures s.received <= |s.sent| && !s.loop.present
    ensures ConnectedGens(s.sent[..s.received]) == seq(s.loop.gen, i => i + 1) && Finished(s.sent[..s.received], s.loop.gen)
    ensures forall i :: s.received <= i < |s.sent| && s.sent[i].ev.Connected? ==> s.sent[i].ev.g > s.loop.gen
    ensures Apply(cfg, s, Advance).loop.policy.effects == [KillRegistered, WipeBuffers, KillSelf]
      <==> s.loop.policy.deadline.value <= s.now
  {
    Holds(cfg, s);
    TickHandled(s);
    TickFires(cfg, s);
  }

  lemma TickHandled(s: State)
    requires MainInv.Tracking(s) && MainInv.Looping(s) && s.main.TimedOut?
    requires s.loop.policy.deadline.Some? && MainInv.LossTrigger(s.loop.trigger)
    ensures s.received <= |s.sent| && !s.loop.present
    ensures ConnectedGens(s.sent[..s.received]) == seq(s.loop.gen, i => i + 1) && Finished(s.sent[..s.received], s.loop.gen)
    ensures forall i :: s.received <= i < |s.sent| && s.sent[i].ev.Connected? ==> s.sent[i].ev.g > s.loop.gen
  {
    LawfulPrefix(s.sent, s.received);
    ConnectedInOrder(s.sent[..s.received]);
    SummaryMeans(s.sent[..s.received], s.loop.gen);
    LaterAreNewer(s.sent, s.received);
  }

  lemma TickFires(cfg: Config, s: State)
    requires s.main.TimedOut? && Enabled(s, Advance)
    requires s.loop.policy.deadline.Some? && s.loop.policy.effects == [] && !s.loop.policy.fired
    ensures Apply(cfg, s, Advance).loop.policy.effects == [KillRegistered, WipeBuffers, KillSelf]
      <==> s.loop.policy.deadline.value <= s.now
  {
    assert s.loop.policy.effects + DESTRUCT == DESTRUCT;
  }

  lemma LaterAreNewer(ms: seq<Msg>, k: nat)
    requires Lawful(ms) && k <= |ms|
    ensures forall i :: k <= i < |ms| && ms[i].ev.Connected? ==> ms[i].ev.g > Summary(ms[..k]).last
  {
    forall i | k <= i < |ms| && ms[i].ev.Connected? ensures ms[i].ev.g > Summary(ms[..k]).last {
      LaterIsNewer(ms, k, i);
    }
  }

  lemma LaterIsNewer(ms: seq<Msg>, k: nat, i: nat)
    requires Lawful(ms) && k <= i < |ms| && ms[i].ev.Connected?
    ensures ms[i].ev.g > Summary(ms[..k]).last
  {
    var g := Summary(ms[..k]).last;
    LawfulPrefix(ms, k);
    SummaryMeans(ms[..k], g);
    if g > 0 {
      var m :| 0 <= m < k && ms[..k][m] == Msg(Connected(g), g);
      assert ms[m] == ms[..k][m];
      OrderLaw(ms, m, i);
    }
  }

  // ----- Effects and records ------------------------------------------------------

  /** At most one of the two firings ever happens; a kill only when armed, a pending deadline only when armed and unfired. */
  lemma OneShot(cfg: Config, s: State)
    requires Reachable(cfg, s)
    ensures s.loop.policy.effects in {[], [KillRegistered, WipeBuffers, KillSelf], [WipeBuffers, DryDone]}
    ensures s.loop.policy.fired <==> s.loop.policy.effects != []
    ensures s.loop.policy.effects == [KillRegistered, WipeBuffers, KillSelf] || s.world.dead || s.world.signalled != [] ==> s.armed
    ensures s.loop.policy.effects != [KillRegistered, WipeBuffers, KillSelf] ==> s.world.signalled == [] && !s.world.dead
    ensures Registry.Wellformed(s.world.signalled)
    ensures MainInv.Looping(s) && s.loop.policy.deadline.Some? ==> s.armed
  {
    Holds(cfg, s);
    MainInv.StoryFacts(s.main, MainInv.StoryOf(s), CountU32(|cfg.buffers|));
  }

  /**
   Every finished run is one of three stories, told under a single reason, with one
   wipe record; and the buffers are zero. Killed: the registered PIDs were signalled,
   the buffers wiped, then the process died. Rehearsed: nothing was signalled. Left
   cleanly: nothing fired.
   */
  lemma FinishedRunsTellOneStory(cfg: Config, s: State)
    requires Reachable(cfg, s) && (s.main.Done? || s.world.dead)
    ensures forall i, k :: 0 <= i < |s.world.buffers| && 0 <= k < |s.world.buffers[i]| ==> s.world.buffers[i][k] == 0
    ensures var recs := MainInv.MainRecords(s.world.log); var b := CountU32(|cfg.buffers|); var why := s.loop.trigger;
      var start := [SessionStart(s.armedAtStart)] + if s.armedAtStart then [Arm(Startup)] else [];
      || (s.world.dead && s.armed && s.loop.policy.effects == [KillRegistered, WipeBuffers, KillSelf]
          && recs == start + [Kill(why, Registered, |s.world.signalled|, true), Wipe(why, b), Kill(why, SelfProcess, 1, true)])
      || (!s.world.dead && s.loop.policy.effects == [WipeBuffers, DryDone] && s.world.signalled == []
          && exists n: nat :: n <= 32
               && recs == start + [Wipe(why, b), Kill(why, Registered, n, false),
                                   Kill(why, SelfProcess, 1, false), SessionEnd(why)])
      || (!s.world.dead && s.loop.policy.effects == [] && s.world.signalled == []
          && (recs == start + [Wipe(Shutdown, b), SessionEnd(Shutdown)]
              || recs == start + [Wipe(ClientQuit, b), SessionEnd(ClientQuit)]))
  {
    Holds(cfg, s);
    StoryEnds(s.main, MainInv.StoryOf(s), CountU32(|cfg.buffers|));
  }

  lemma StoryEnds(main: Main, y: MainInv.Story, b: nat)
    requires MainInv.Telling(main, y, b) && (main.Done? || y.dead)
    ensures y.zeroed
    ensures var why := y.trigger; var start := [SessionStart(y.armedAtStart)] + if y.armedAtStart then [Arm(Startup)] else [];
      || (y.dead && y.armed && y.policy.effects == [KillRegistered, WipeBuffers, KillSelf]
          && y.recs == start + [Kill(why, Registered, |y.signalled|, true), Wipe(why, b), Kill(why, SelfProcess, 1, true)])
      || (!y.dead && y.policy.effects == [WipeBuffers, DryDone] && y.signalled == []
          && exists n: nat :: n <= 32
               && y.recs == start + [Wipe(why, b), Kill(why, Registered, n, false),
                                     Kill(why, SelfProcess, 1, false), SessionEnd(why)])
      || (!y.dead && y.policy.effects == [] && y.signalled == []
          && (y.recs == start + [Wipe(Shutdown, b), SessionEnd(Shutdown)]
              || y.recs == start + [Wipe(ClientQuit, b), SessionEnd(ClientQuit)]))
  {
    MainInv.StoryFacts(main, y, b);
    if y.dead {
      assert ArmedEnding(y.trigger, |y.signalled|, b)[..3] == ArmedEnding(y.trigger, |y.signalled|, b);
    } else if MainInv.Leaving(y, main.why, b, 0) {
      assert CleanEnding(main.why, b)[..2] == CleanEnding(main.why, b);
    } else {
      var n := MainInv.Would(y.recs, y.armedAtStart);
      assert DryEnding(y.trigger, n, b)[..4] == DryEnding(y.trigger, n, b);
    }
  }

  /** The PIDs a destruct signals are those registered at that moment, each once. */
  lemma DestructSignalsRegistered(cfg: Config, s: State)
    requires Reachable(cfg, s) && Enabled(s, Advance)
    requires s.main.Acting? && s.main.next < |s.main.plan| && s.main.plan[s.main.next] == SignalRegistered
    ensures Apply(cfg, s, Advance).world.signalled == s.world.registered
    ensures Registry.NoDuplicates(s.world.registered)
  {
    Holds(cfg, s);
    assert s.world.signalled == [];
    assert s.world.signalled + s.world.registered == s.world.registered;
  }

  /** The PIDs a rehearsal says it would have killed are as many as are registered at that moment. */
  lemma RehearsalCountsRegistered(cfg: Config, s: State)
    requires Reachable(cfg, s) && Enabled(s, Advance)
    requires s.main.Acting? && s.main.next < |s.main.plan| && s.main.plan[s.main.next] == RecordWould(Registered)
    ensures MainInv.MainRecords(Apply(cfg, s, Advance).world.log)
         == MainInv.MainRecords(s.world.log) + [Kill(s.loop.trigger, Registered, |s.world.registered|, false)]
    ensures |s.world.registered| <= 32 && Registry.NoDuplicates(s.world.registered)
    ensures Apply(cfg, s, Advance).world.signalled == s.world.signalled == []
  {
    Holds(cfg, s);
    MainInv.PerformTells(s.world, RecordWould(Registered), s.main.why);
    MainInv.WouldTells(s.main, MainInv.StoryOf(s), CountU32(|cfg.buffers|));
  }

  // ----- Arming at run time -----------------------------------------------------

  function ControlRecords(log: seq<Entry>): seq<Record> {
    if log == [] then []
    else
      var e := log[|log| - 1];
      ControlRecords(log[..|log| - 1]) + if e.author == ControlThread then [e.rec] else []
  }

  ghost predicate OnePending(arming: seq<bool>, c: int) {
    0 <= c < |arming| && arming[c] && forall d :: 0 <= d < |arming| && arming[d] ==> d == c
  }

  ghost predicate NonePending(arming: seq<bool>) {
    forall d :: 0 <= d < |arming| ==> !arming[d]
  }

  ghost predicate ArmingInv(cfg: Config, s: State) {
    && (cfg.armed ==> s.armed)
    && if s.armed && !cfg.armed
       then (ControlRecords(s.world.log) == [] && exists c :: OnePending(s.arming, c))
         || (ControlRecords(s.world.log) == [Arm(Control)] && NonePending(s.arming))
       else ControlRecords(s.world.log) == [] && NonePending(s.arming)
  }

  lemma ControlSnoc(log: seq<Entry>, e: Entry)
    ensures ControlRecords(log + [e]) == ControlRecords(log) + if e.author == ControlThread then [e.rec] else []
  {
    assert (log + [e])[..|log|] == log;
  }

  lemma EmitsNothingForControl(w: World, r: Record)
    ensures ControlRecords(Emit(w, r).log) == ControlRecords(w.log)
  {
    ControlSnoc(w.log, Entry(MainThread, r));
  }

  lemma PerformsNothingForControl(w: World, a: Act, why: Reason)
    ensures ControlRecords(Perform(w, a, why).log) == ControlRecords(w.log)
  {
    var v := Perform(w, a, why);
    if |v.log| > |w.log| {
      EmitsNothingForControl(w, v.log[|w.log|].rec);
    }
  }

  lemma MainNeverRecordsForControl(cfg: Config, s: State)
    requires Enabled(s, Advance)
    ensures ControlRecords(Apply(cfg, s, Advance).world.log) == ControlRecords(s.world.log)
  {
    EmitsNothingForControl(s.world, SessionStart(s.armedAtStart));
    EmitsNothingForControl(s.world, Arm(Startup));
    if s.main.Acting? && s.main.next < |s.main.plan| {
      PerformsNothingForControl(s.world, s.main.plan[s.main.next], s.main.why);
    }
  }

  lemma ArmingKept(cfg: Config, s: State, t: Step)
    requires ArmingInv(cfg, s) && Enabled(s, t)
    ensures ArmingInv(cfg, Apply(cfg, s, t))
  {
    var v := Apply(cfg, s, t);
    match t
    case Advance => MainNeverRecordsForControl(cfg, s);
    case OpenControl =>
      if c :| OnePending(s.arming, c) { assert OnePending(v.arming, c); }
    case SwapArmed(c) =>
      if !s.armed { assert OnePending(v.arming, c); }
      else if d :| OnePending(s.arming, d) { assert OnePending(v.arming, d); }
    case RecordArm(c) => ControlSnoc(s.world.log, Entry(ControlThread, Arm(Control)));
    case _ =>
  }

  lemma {:induction false} ArmingAlways(cfg: Config, steps: seq<Step>)
    requires Run(cfg, steps).Some?
    ensures ArmingInv(cfg, Run(cfg, steps).value)
  {
    if steps != [] {
      ArmingAlways(cfg, steps[..|steps| - 1]);
      ArmingKept(cfg, Run(cfg, steps[..|steps| - 1]).value, steps[|steps| - 1]);
    }
  }

  /** Control threads record at most one arming between them, and none if the daemon started armed. */
  lemma AtMostOneControlArm(cfg: Config, s: State)
    requires Reachable(cfg, s)
    ensures ControlRecords(s.world.log) == [] || (ControlRecords(s.world.log) == [Arm(Control)] && s.armed)
    ensures cfg.armed ==> ControlRecords(s.world.log) == []
    ensures !cfg.armed && s.armed && NonePending(s.arming) ==> ControlRecords(s.world.log) == [Arm(Control)]
  {
    var steps :| Run(cfg, steps) == Some(s);
    ArmingAlways(cfg, steps);
  }

  // ----- The reason recorded --------------------------------------------------------

  /** What the loop believes about the message in hand: a Connected is the next generation. */
  lemma NextMessage(s: State)
    requires MainInv.Tracking(s) && s.main.Handling? && MainInv.Looping(s)
    ensures s.main.msg.ev.Connected? ==> s.main.msg.ev.g == s.loop.gen + 1
    ensures s.main.msg.ev.HeartbeatLost? || s.main.msg.ev.PingTimeout? ==>
      (s.loop.present && s.main.msg.ev.g == s.loop.gen <==> !(s.main.msg.ev.g < s.loop.gen))
  {
    MainInv.TakeMessage(s);
  }

  /** The input the main thread handles next. */
  lemma NextInput(cfg: Config, s: State) returns (i: Input)
    requires MainInv.Tracking(s) && Enabled(s, Advance) && MainInv.Looping(s)
    requires s.main.Handling? || s.main.TimedOut?
    ensures var v := Apply(cfg, s, Advance);
      v.trace == s.trace + [i] && v.loop == Turn(s.loop, cfg.grace, i) && i.armed == s.armed == v.armed
    ensures Reorder.IsConnected(i) ==> i.event.value.g == s.loop.gen + 1
    ensures Reorder.IsLoss(i) ==> (s.loop.present && i.event.value.g == s.loop.gen <==> !(i.event.value.g < s.loop.gen))
  {
    if s.main.Handling? {
      NextMessage(s);
    }
    i := Input(if s.main.Handling? then Some(s.main.msg.ev) else None, s.armed, s.now);
  }

  /** The reason of the last trigger among the inputs: a panic signal, or a loss that was not overtaken. */
  function LastTrigger(inputs: seq<Input>): Reason {
    if inputs == [] then Shutdown
    else
      var before := inputs[..|inputs| - 1];
      match inputs[|inputs| - 1].event
      case Some(Signal(Usr1)) => PanicSignal
      case Some(Signal(Usr2)) => HardPanicSignal
      case Some(HeartbeatLost(g)) => if Reorder.Superseded(before, g) then LastTrigger(before) else LostHeartbeat
      case Some(PingTimeout(g)) => if Reorder.Superseded(before, g) then LastTrigger(before) else MissedPing
      case _ => LastTrigger(before)
  }

  /** `gen` is the newest generation among the inputs, or 0. */
  ghost predicate NewestIs(inputs: seq<Input>, gen: nat) {
    && (forall i :: 0 <= i < |inputs| && Reorder.IsConnected(inputs[i]) ==> inputs[i].event.value.g <= gen)
    && (gen == 0 || exists i :: 0 <= i < |inputs| && Reorder.IsConnected(inputs[i]) && inputs[i].event.value.g == gen)
  }

  lemma NewestSnoc(inputs: seq<Input>, gen: nat, i: Input, gen': nat)
    requires NewestIs(inputs, gen)
    requires if Reorder.IsConnected(i) then gen < i.event.value.g == gen' else gen == gen'
    ensures NewestIs(inputs + [i], gen')
  {
    if Reorder.IsConnected(i) {
      assert (inputs + [i])[|inputs|] == i;
    } else if gen > 0 {
      var k :| 0 <= k < |inputs| && Reorder.IsConnected(inputs[k]) && inputs[k].event.value.g == gen;
      assert (inputs + [i])[k] == inputs[k];
    }
  }

  lemma TurnTriggers(l: Loop, grace: nat, trace: seq<Input>, i: Input)
    requires l.trigger == LastTrigger(trace) && NewestIs(trace, l.gen)
    requires Reorder.IsLoss(i) ==> (l.present && i.event.value.g == l.gen <==> !(i.event.value.g < l.gen))
    ensures Turn(l, grace, i).trigger == LastTrigger(trace + [i])
  {
    assert (trace + [i])[..|trace|] == trace;
    if Reorder.IsLoss(i) {
      assert Reorder.Superseded(trace, i.event.value.g) <==> i.event.value.g < l.gen;
    }
  }

  ghost predicate TriggerInv(s: State) {
    s.loop.trigger == LastTrigger(s.trace) && NewestIs(s.trace, s.loop.gen)
  }

  lemma TriggerKept(cfg: Config, s: State, t: Step)
    requires TriggerInv(s) && MainInv.Tracking(s) && Enabled(s, t)
    requires !s.loop.policy.fired || !(s.main.Handling? || s.main.TimedOut?)
    ensures TriggerInv(Apply(cfg, s, t))
  {
    if t.Advance? && (s.main.Handling? || s.main.TimedOut?) {
      var i := NextInput(cfg, s);
      var gen := if Reorder.IsConnected(i) then i.event.value.g else s.loop.gen;
      assert Turn(s.loop, cfg.grace, i).gen == gen;
      NewestSnoc(s.trace, s.loop.gen, i, gen);
      TurnTriggers(s.loop, cfg.grace, s.trace, i);
    }
  }

  lemma {:induction false} TriggerAlways(cfg: Config, steps: seq<Step>)
    requires Run(cfg, steps).Some?
    ensures TriggerInv(Run(cfg, steps).value)
  {
    if steps != [] {
      TriggerAlways(cfg, steps[..|steps| - 1]);
      MainInv.Always(cfg, steps[..|steps| - 1]);
      TriggerKept(cfg, Run(cfg, steps[..|steps| - 1]).value, steps[|steps| - 1]);
    }
  }

  /** The one reason of a fired run's records is that of the last trigger handled: a panic signal or a loss nothing overtook. */
  lemma RecordedReasonIsLastTrigger(cfg: Config, s: State)
    requires Reachable(cfg, s)
    ensures s.loop.trigger == LastTrigger(s.trace)
  {
    var steps :| Run(cfg, steps) == Some(s);
    TriggerAlways(cfg, steps);
  }
}
