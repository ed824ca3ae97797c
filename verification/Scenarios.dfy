/**
 Schedules that show where the watchdog does less than its documentation suggests, and
 exactly which daemons have them.
 */
module Scenarios {
  import opened Wrappers
  import opened Lifecycle
  import opened Closures
  import opened Panic
  import opened EventLoop
  import opened Channel
  import opened Protocol
  import opened Exactness
  import opened WatchdogTheorems
  import MainInv

  // ----- Getting the main thread going -----------------------------------------------------

  /** The main thread's state alone moves on. */
  function Main(s: State, main: Protocol.Main, log: seq<Entry>): State {
    s.(main := main, world := s.world.(log := log))
  }

  /** The main thread at the top of its loop, having recorded its start. */
  function Started(s: State): State {
    Main(s, Top, s.world.log + ByMain(Prologue(s.armed))).(armedAtStart := s.armed)
  }

  lemma Starts(cfg: Config, P: State -> bool, s: State)
    requires Closed(cfg, P) && P(s) && s.main == Boot && !s.world.dead
    ensures P(Started(s))
  {
    var s1 := Main(s, Announcing, s.world.log).(armedAtStart := s.armed);
    Go(cfg, P, s, Advance, s1);
    var log := s.world.log + [Entry(MainThread, SessionStart(s.armed))];
    if s.armed {
      var s2 := Main(s1, RecordingArm, log);
      Go(cfg, P, s1, Advance, s2);
      Go(cfg, P, s2, Advance, Main(s2, Top, log + [Entry(MainThread, Arm(Startup))]));
      assert log + [Entry(MainThread, Arm(Startup))] == Started(s).world.log;
    } else {
      Go(cfg, P, s1, Advance, Main(s1, Top, log));
      assert log == Started(s).world.log;
    }
  }

  /** Armed, over a control connection if it was not at the start. */
  function Armed(s: State): State {
    if s.armed then s else s.(armed := true, arming := [true])
  }

  lemma Arms(cfg: Config, P: State -> bool, s: State)
    requires Closed(cfg, P) && P(s) && s.arming == [] && !s.world.dead
    ensures P(Armed(s))
  {
    if !s.armed {
      Go(cfg, P, s, OpenControl, s.(arming := [false]));
      Go(cfg, P, s.(arming := [false]), SwapArmed(0), Armed(s));
    }
  }

  /** Once round the loop with an event at hand. */
  lemma Takes(cfg: Config, P: State -> bool, s: State) returns (s': State)
    requires Closed(cfg, P) && P(s)
    requires s.main == Top && !s.world.stop && !s.world.dead && s.received < |s.sent|
    ensures s' == TakeInput(cfg, s.(received := s.received + 1), Input(Some(s.sent[s.received].ev), s.armed, s.now))
    ensures P(s')
  {
    var s1 := s.(main := Waiting);
    Go(cfg, P, s, Advance, s1);
    var s2 := s1.(main := Handling(s.sent[s.received]), received := s.received + 1);
    Go(cfg, P, s1, Receive, s2);
    s' := TakeInput(cfg, s2, Input(Some(s.sent[s.received].ev), s.armed, s.now));
    Go(cfg, P, s2, Advance, s');
  }

  /** The readers have sent a lawful history; the daemon is armed if need be, and at the top of its loop. */
  lemma Begins(cfg: Config, P: State -> bool, ms: seq<Msg>, arm: bool) returns (s: State)
    requires Closed(cfg, P) && P(Init(cfg)) && Lawful(ms)
    ensures P(s) && s == Started(if arm then Armed(Staged(cfg, ms, |ms|)) else Staged(cfg, ms, |ms|))
    ensures s.sent == ms
  {
    var s0 := Staged(cfg, ms, |ms|);
    assert ms[..|ms|] == ms;
    StagePrefix(cfg, P, ms, |ms|);
    if arm {
      Arms(cfg, P, s0);
    }
    s := Started(if arm then Armed(s0) else s0);
    Starts(cfg, P, if arm then Armed(s0) else s0);
  }

  // ----- An overtaken QUIT --------------------------------------------------------------

  const OVERTAKEN: seq<Msg> := [Msg(Connected(1), 1), Msg(Connected(2), 2), Msg(Quit, 1)]

  lemma OvertakenIsLawful()
    ensures Lawful(OVERTAKEN) && Summary(OVERTAKEN) == Chan(2, {2})
  {
    var ms := OVERTAKEN;
    assert ms == [ms[0]] + [ms[1]] + [ms[2]];
    LawfulSnoc([], ms[0]);
    assert [] + [ms[0]] == [ms[0]];
    LawfulSnoc([ms[0]], ms[1]);
    LawfulSnoc([ms[0]] + [ms[1]], ms[2]);
  }

  lemma OvertakenQuit(cfg: Config, P: State -> bool) returns (s: State)
    requires Closed(cfg, P) && P(Init(cfg))
    ensures P(s)
    ensures s.active && s.loop.present && s.loop.gen == 2 && s.readers == [Returned(1), Reading(2)]
    ensures s.main == Acting(CleanupPlan(false), 0, ClientQuit, true)
  {
    OvertakenIsLawful();
    assert OVERTAKEN[..3] == OVERTAKEN;
    s := Begins(cfg, P, OVERTAKEN, false);
    assert s.readers == [Returned(1), Reading(2)];
    s := Takes(cfg, P, s);
    s := Takes(cfg, P, s);
    s := Takes(cfg, P, s);
  }

  /** A client quits and, before its QUIT is sent, another connects: the QUIT still ends the session, under the new client. */
  lemma OvertakenQuitEndsLiveSession(cfg: Config) returns (s: State)
    ensures Reachable(cfg, s)
    ensures s.active && s.loop.present && s.loop.gen == 2 && s.readers == [Returned(1), Reading(2)]
    ensures s.main == Acting(CleanupPlan(false), 0, ClientQuit, true)
  {
    ReachableIsClosed(cfg);
    s := OvertakenQuit(cfg, s => Reachable(cfg, s));
  }

  // ----- An overtaken QUIT in a loss window -----------------------------------------------

  const ABANDONED: seq<Msg> :=
    [Msg(Connected(1), 1), Msg(Connected(2), 2), Msg(HeartbeatLost(2), 2), Msg(Quit, 1)]

  lemma AbandonedIsLawful()
    ensures Lawful(ABANDONED)
  {
    var ms := ABANDONED;
    assert ms == [ms[0]] + [ms[1]] + [ms[2]] + [ms[3]];
    LawfulSnoc([], ms[0]);
    assert [] + [ms[0]] == [ms[0]];
    LawfulSnoc([ms[0]], ms[1]);
    LawfulSnoc([ms[0]] + [ms[1]], ms[2]);
    LawfulSnoc([ms[0]] + [ms[1]] + [ms[2]], ms[3]);
  }

  /** Both clients connected and the second lost: its window runs, and the first's QUIT comes next. */
  lemma SecondLost(cfg: Config, P: State -> bool) returns (s: State)
    requires Closed(cfg, P) && P(Init(cfg)) && cfg.grace > 0
    ensures P(s) && s.main == Top && !s.world.stop && !s.world.dead && s.armed
    ensures s.received == 3 && s.sent == ABANDONED
    ensures s.loop == Loop(2, false, Policy(false, Some(cfg.grace), []), LostHeartbeat)
  {
    AbandonedIsLawful();
    s := Begins(cfg, P, ABANDONED, true);
    s := Takes(cfg, P, s);
    s := Takes(cfg, P, s);
    s := Takes(cfg, P, s);
  }

  lemma AbandonedWindow(cfg: Config, P: State -> bool) returns (s: State)
    requires Closed(cfg, P) && P(Init(cfg)) && cfg.grace > 0
    ensures P(s) && QuitsLossWindow(s) && s.armed && !s.world.dead && s.loop.gen == 2 && s.main == Handling(Msg(Quit, 1))
  {
    s := SecondLost(cfg, P);
    var s1 := s.(main := Waiting);
    Go(cfg, P, s, Advance, s1);
    s := s1.(main := Handling(Msg(Quit, 1)), received := 4);
    Go(cfg, P, s1, Receive, s);
  }

  /**
   A loss window can be abandoned to a QUIT: armed, with the current client lost and the
   window running, the late QUIT of a client it had overtaken ends the session without a
   kill. Every daemon with a grace window has such a run, and no other daemon has one.
   */
  lemma QuitAbandonsWindowExactlyWhen(cfg: Config)
    ensures (exists s :: Reachable(cfg, s) && QuitsLossWindow(s) && !s.world.dead
               && Apply(cfg, s, Advance).main == Acting(CleanupPlan(false), 0, ClientQuit, true))
       <==> cfg.grace > 0
  {
    if cfg.grace > 0 {
      ReachableIsClosed(cfg);
      var s := AbandonedWindow(cfg, s => Reachable(cfg, s));
      assert Reachable(cfg, s);
      assert Apply(cfg, s, Advance).main == Acting(CleanupPlan(false), 0, ClientQuit, true);
    }
    forall s | Reachable(cfg, s) && QuitsLossWindow(s) ensures cfg.grace > 0 {
      QuitInLossWindowIsOvertaken(cfg, s);
    }
  }

  // ----- A client that connects too late --------------------------------------------------

  const LOST: seq<Msg> := [Msg(Connected(1), 1), Msg(HeartbeatLost(1), 1)]

  lemma LostIsLawful()
    ensures Lawful(LOST) && Summary(LOST) == Chan(1, {})
  {
    assert LOST == [LOST[0]] + [LOST[1]];
    LawfulSnoc([], LOST[0]);
    assert [] + [LOST[0]] == [LOST[0]];
    LawfulSnoc([LOST[0]], LOST[1]);
  }

  /** A new reader connects, whatever the main thread is doing. */
  lemma Reconnects(cfg: Config, P: State -> bool, s: State) returns (v: State)
    requires Closed(cfg, P) && P(s) && !s.active && !s.world.dead
    ensures P(v)
    ensures var g := s.genSource + 1;
      v == s.(readers := s.readers + [Reading(g)], active := true, genSource := g, sent := s.sent + [Msg(Connected(g), g)])
  {
    var r, g := |s.readers|, s.genSource + 1;
    var s1 := s.(readers := s.readers + [Greeted]);
    Go(cfg, P, s, Hello, s1);
    var s2 := s.(readers := s.readers + [Claimed], active := true);
    assert s1.readers[r := Claimed] == s2.readers;
    Go(cfg, P, s1, SwapActive(r), s2);
    var s3 := s2.(readers := s.readers + [Tagged(g)], genSource := g);
    assert s2.readers[r := Tagged(g)] == s3.readers;
    Go(cfg, P, s2, DrawGeneration(r), s3);
    v := s3.(readers := s.readers + [Reading(g)], sent := s.sent + [Msg(Connected(g), g)]);
    assert s3.readers[r := Reading(g)] == v.readers;
    Go(cfg, P, s3, SendConnected(r), v);
  }

  /** A client lost, and its window running. */
  lemma LostWindow(cfg: Config, P: State -> bool) returns (s: State)
    requires Closed(cfg, P) && P(Init(cfg)) && cfg.grace > 0
    ensures P(s) && s.main == Top && !s.world.stop && !s.world.dead && !s.active && s.received == |s.sent|
    ensures s.loop.trigger == LostHeartbeat && s.loop.policy == Policy(false, Some(cfg.grace), []) && s.now == 0
  {
    LostIsLawful();
    assert LOST[..2] == LOST;
    s := Begins(cfg, P, LOST, true);
    s := Takes(cfg, P, s);
    s := Takes(cfg, P, s);
  }

  /** The window's end comes while the main thread waits on an empty channel. */
  lemma RunsOut(cfg: Config, P: State -> bool, s: State) returns (v: State)
    requires Closed(cfg, P) && P(s) && s.main == Top && !s.world.stop && !s.world.dead && s.received == |s.sent|
    requires s.loop.policy.deadline.Some?
    ensures P(v) && v == s.(main := TimedOut, now := s.now + cfg.grace)
  {
    var s1 := s.(main := Waiting);
    Go(cfg, P, s, Advance, s1);
    var s2 := s1.(now := s.now + cfg.grace);
    Go(cfg, P, s1, Wait(cfg.grace), s2);
    v := s2.(main := TimedOut);
    Go(cfg, P, s2, Expire, v);
  }

  lemma LateConnection(cfg: Config, P: State -> bool) returns (s: State)
    requires Closed(cfg, P) && P(Init(cfg)) && cfg.grace > 0
    ensures P(s) && s.main == TimedOut && !s.world.dead && s.active
    ensures MainInv.LossTrigger(s.loop.trigger) && s.loop.policy == Policy(false, Some(cfg.grace), []) && s.now == cfg.grace
    ensures s.received < |s.sent| && s.sent[s.received].ev.Connected?
  {
    s := LostWindow(cfg, P);
    s := RunsOut(cfg, P, s);
    s := Reconnects(cfg, P, s);
  }

  /** A tick is about to carry out a loss window although a newer client has connected. */
  predicate TicksOnPresentClient(s: State) {
    && s.main.TimedOut? && !s.world.dead && s.active
    && s.loop.policy.deadline.Some? && s.loop.policy.deadline.value <= s.now && MainInv.LossTrigger(s.loop.trigger)
    && s.received < |s.sent| && s.sent[s.received].ev.Connected?
  }

  /**
   The kill does not look back at the channel: a client that connects between the receive
   timeout and the tick comes too late. Every daemon with a grace window has such a run,
   and no other daemon has one.
   */
  lemma TickKillsPresentClientExactlyWhen(cfg: Config)
    ensures (exists s :: Reachable(cfg, s) && TicksOnPresentClient(s)
               && Apply(cfg, s, Advance).loop.policy.effects == DESTRUCT)
       <==> cfg.grace > 0
  {
    if cfg.grace > 0 {
      ReachableIsClosed(cfg);
      var s := LateConnection(cfg, s => Reachable(cfg, s));
      assert Reachable(cfg, s) && TicksOnPresentClient(s);
      TickMeansNobodyHandled(cfg, s);
    }
    forall s | Reachable(cfg, s) && TicksOnPresentClient(s) ensures cfg.grace > 0 {
      WatchdogTheorems.Holds(cfg, s);
      DeadlineNeedsGrace(INITIAL, cfg.grace, s.trace);
    }
  }

  // ----- An arm recorded before the start ----------------------------------------------------

  lemma EarlyArm(cfg: Config, P: State -> bool) returns (s: State)
    requires Closed(cfg, P) && P(Init(cfg)) && !cfg.armed
    ensures P(s) && s.main == Top
    ensures s.world.log == [
      Entry(ControlThread, Arm(Control)), Entry(MainThread, SessionStart(true)), Entry(MainThread, Arm(Startup))]
  {
    var s0 := Init(cfg);
    var s1 := s0.(arming := [false]);
    Go(cfg, P, s0, OpenControl, s1);
    var s2 := s1.(armed := true, arming := [true]);
    Go(cfg, P, s1, SwapArmed(0), s2);
    var log := [Entry(ControlThread, Arm(Control))];
    var s3 := Main(s2.(arming := [false]), Boot, log);
    Go(cfg, P, s2, RecordArm(0), s3);
    var s4 := s3.(armedAtStart := true, main := Announcing);
    Go(cfg, P, s3, Advance, s4);
    log := log + [Entry(MainThread, SessionStart(true))];
    var s5 := Main(s4, RecordingArm, log);
    Go(cfg, P, s4, Advance, s5);
    s := Main(s5, Top, log + [Entry(MainThread, Arm(Startup))]);
    Go(cfg, P, s5, Advance, s);
  }

  /** A runtime ARM can be recorded before the session starts, and then startup is recorded as an arming too. */
  lemma ArmBeforeSessionStart(cfg: Config) returns (s: State)
    requires !cfg.armed
    ensures Reachable(cfg, s) && s.main == Top
    ensures s.world.log == [
      Entry(ControlThread, Arm(Control)), Entry(MainThread, SessionStart(true)), Entry(MainThread, Arm(Startup))]
  {
    ReachableIsClosed(cfg);
    s := EarlyArm(cfg, s => Reachable(cfg, s));
  }

  lemma {:induction false} AllByMain(log: seq<Entry>)
    requires ControlRecords(log) == []
    ensures forall i :: 0 <= i < |log| ==> log[i].author == MainThread
  {
    if log != [] {
      AllByMain(log[..|log| - 1]);
    }
  }

  lemma {:induction false} FirstOfMain(log: seq<Entry>)
    requires log != [] && forall i :: 0 <= i < |log| ==> log[i].author == MainThread
    ensures MainInv.MainRecords(log) != [] && MainInv.MainRecords(log)[0] == log[0].rec
  {
    if |log| > 1 {
      FirstOfMain(log[..|log| - 1]);
    } else {
      assert log[..0] == [];
    }
  }

  /** The main thread's first record is always its session start. */
  lemma StoryStarts(main: Protocol.Main, y: MainInv.Story, b: nat)
    requires MainInv.Telling(main, y, b) && y.recs != []
    ensures y.recs[0].SessionStart?
  {
  }

  /** In every run, the first thing on record is a session start. */
  ghost predicate StartsFirst(cfg: Config) {
    forall s :: Reachable(cfg, s) && s.world.log != [] ==> s.world.log[0].rec.SessionStart?
  }

  /** Every run's records begin with the session start if and only if the daemon is started armed. */
  lemma StartsFirstExactlyWhenArmed(cfg: Config)
    ensures StartsFirst(cfg) <==> cfg.armed
  {
    if cfg.armed {
      forall s | Reachable(cfg, s) && s.world.log != [] ensures s.world.log[0].rec.SessionStart? {
        AtMostOneControlArm(cfg, s);
        AllByMain(s.world.log);
        FirstOfMain(s.world.log);
        WatchdogTheorems.Holds(cfg, s);
        StoryStarts(s.main, MainInv.StoryOf(s), CountU32(|cfg.buffers|));
      }
    } else {
      var s := ArmBeforeSessionStart(cfg);
      assert s.world.log[0].rec == Arm(Control);
    }
  }
}
