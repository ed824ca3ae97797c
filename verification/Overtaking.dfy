/**
 Overtaken losses over whole runs: a daemon started armed with a grace window is never
 the worse for them, and any other daemon has a run that is.
 */
module Overtaking {
  import opened Wrappers
  import opened Lifecycle
  import opened EventLoop
  import opened Channel
  import opened Protocol
  import opened Exactness
  import opened WatchdogTheorems
  import opened Reorder
  import opened Scenarios
  import MainInv

  // ----- What a run delivers ----------------------------------------------------------------

  /** Inputs that leave the channel's readers at generation `gen`, those in `open` still to send their last event. */
  ghost predicate Traced(trace: seq<Input>, gen: nat, open: set<nat>) {
    && Deliverable(trace)
    && (forall i :: 0 <= i < |trace| && IsConnected(trace[i]) ==> trace[i].event.value.g <= gen)
    && (forall g :: 1 <= g <= gen ==> ConnectedIn(trace, g))
    && (forall i :: 0 <= i < |trace| && IsLoss(trace[i]) ==>
          trace[i].event.value.g <= gen && trace[i].event.value.g !in open)
  }

  lemma ConnectedStays(trace: seq<Input>, i: Input, g: nat)
    requires ConnectedIn(trace, g) || (IsConnected(i) && i.event.value.g == g)
    ensures ConnectedIn(trace + [i], g)
  {
    var t := trace + [i];
    if ConnectedIn(trace, g) {
      var k :| 0 <= k < |trace| && IsConnected(trace[k]) && trace[k].event.value.g == g;
      assert t[k] == trace[k];
    } else {
      assert t[|trace|] == i;
    }
  }

  lemma InputDeliverable(trace: seq<Input>, gen: nat, open: set<nat>, i: Input)
    requires Traced(trace, gen, open)
    requires IsConnected(i) ==> i.event.value.g == gen + 1
    requires IsLoss(i) ==> 1 <= i.event.value.g <= gen && i.event.value.g in open
    ensures Deliverable(trace + [i])
  {
    var t := trace + [i];
    forall k | 0 <= k < |trace| ensures t[k] == trace[k] && t[..k] == trace[..k] {}
    assert t[..|trace|] == trace && t[|trace|] == i;
    if IsLoss(i) {
      assert ConnectedIn(trace, i.event.value.g);
    }
  }

  lemma InputTraced(trace: seq<Input>, gen: nat, open: set<nat>, i: Input, gen': nat, open': set<nat>)
    requires Traced(trace, gen, open)
    requires if IsConnected(i) then i.event.value.g == gen' == gen + 1 && open' == open + {gen'} else gen' == gen && open' <= open
    requires IsLoss(i) ==> 1 <= i.event.value.g <= gen && i.event.value.g in open && i.event.value.g !in open'
    ensures Traced(trace + [i], gen', open')
  {
    InputDeliverable(trace, gen, open, i);
    forall g | 1 <= g <= gen' ensures ConnectedIn(trace + [i], g) {
      ConnectedStays(trace, i, g);
    }
  }

  ghost predicate Unfired(grace: nat, trace: seq<Input>) {
    forall k :: 0 <= k < |trace| ==> !Turns(INITIAL, grace, trace[..k]).policy.fired
  }

  lemma UnfiredSnoc(grace: nat, trace: seq<Input>, i: Input)
    requires Unfired(grace, trace) && !Turns(INITIAL, grace, trace).policy.fired
    ensures Unfired(grace, trace + [i])
  {
    forall k | 0 <= k <= |trace| ensures (trace + [i])[..k] == trace[..k] {}
    assert trace[..|trace|] == trace;
  }

  /** The inputs handled are those of the part of the history the loop reflects. */
  ghost predicate TracedNow(s: State) {
    MainInv.Looping(s) ==>
      0 <= MainInv.Handled(s) <= |s.sent| && Traced(s.trace, s.loop.gen, Summary(s.sent[..MainInv.Handled(s)]).open)
  }

  ghost predicate TraceInv(cfg: Config, s: State) {
    && Deliverable(s.trace) && Unfired(cfg.grace, s.trace)
    && TracedNow(s)
    && (cfg.armed ==> s.armed && forall i :: 0 <= i < |s.trace| ==> s.trace[i].armed)
  }

  /** How a message moves the channel's summary, and what its losses need of it. */
  predicate Moves(ev: Event, gen: nat, c: Chan, d: Chan) {
    match ev
    case Connected(g) => g == d.last == gen + 1 && d.open == c.open + {g}
    case HeartbeatLost(g) => d.last == gen && d.open <= c.open && 1 <= g <= gen && g in c.open && g !in d.open
    case PingTimeout(g) => d.last == gen && d.open <= c.open && 1 <= g <= gen && g in c.open && g !in d.open
    case _ => d.last == gen && d.open <= c.open
  }

  lemma AllowedMoves(c: Chan, m: Msg)
    requires Allowed(c, m) && 0 !in c.open && forall g: nat :: g in c.open ==> g <= c.last
    ensures Moves(m.ev, c.last, c, Extend(c, m))
  {
  }

  lemma MessageMoves(s: State)
    requires MainInv.Tracking(s) && s.main.Handling? && MainInv.Looping(s)
    ensures Moves(s.main.msg.ev, s.loop.gen, Summary(s.sent[..s.received - 1]), Summary(s.sent[..s.received]))
  {
    MainInv.TakeMessage(s);
    AllowedMoves(Summary(s.sent[..s.received - 1]), s.main.msg);
  }

  lemma EventTraced(trace: seq<Input>, gen: nat, c: Chan, d: Chan, i: Input)
    requires i.event.Some? && Moves(i.event.value, gen, c, d) && Traced(trace, gen, c.open)
    ensures Deliverable(trace + [i]) && Traced(trace + [i], d.last, d.open)
  {
    InputDeliverable(trace, gen, c.open, i);
    InputTraced(trace, gen, c.open, i, d.last, d.open);
  }

  /** Handling an event: one more input, at the generation the channel now gives. */
  lemma HandlingMoves(cfg: Config, s: State)
    requires s.main.Handling? && Enabled(s, Advance) && 0 < s.received <= |s.sent|
    requires Moves(s.main.msg.ev, s.loop.gen, Summary(s.sent[..s.received - 1]), Summary(s.sent[..s.received]))
    ensures var v := Apply(cfg, s, Advance);
      && v.trace == s.trace + [Input(Some(s.main.msg.ev), s.armed, s.now)] && !v.main.Handling?
      && v.sent == s.sent && v.received == s.received && v.loop.gen == Summary(s.sent[..s.received]).last
  {
  }

  lemma HandlingTraced(cfg: Config, s: State)
    requires MainInv.Tracking(s) && s.main.Handling? && MainInv.Looping(s) && Enabled(s, Advance)
    requires Traced(s.trace, s.loop.gen, Summary(s.sent[..s.received - 1]).open)
    ensures Deliverable(Apply(cfg, s, Advance).trace) && TracedNow(Apply(cfg, s, Advance))
  {
    var c, d := Summary(s.sent[..s.received - 1]), Summary(s.sent[..s.received]);
    MessageMoves(s);
    EventTraced(s.trace, s.loop.gen, c, d, Input(Some(s.main.msg.ev), s.armed, s.now));
    HandlingMoves(cfg, s);
  }

  lemma TimeoutTraced(cfg: Config, s: State)
    requires TraceInv(cfg, s) && MainInv.Tracking(s) && s.main.TimedOut? && MainInv.Looping(s) && Enabled(s, Advance)
    ensures var v := Apply(cfg, s, Advance);
      Deliverable(v.trace) && TracedNow(v)
  {
    var i := Input(None, s.armed, s.now);
    var open := Summary(s.sent[..s.received]).open;
    InputDeliverable(s.trace, s.loop.gen, open, i);
    InputTraced(s.trace, s.loop.gen, open, i, s.loop.gen, open);
  }

  lemma InputKept(cfg: Config, s: State)
    requires TraceInv(cfg, s) && MainInv.Tracking(s) && s.loop == Turns(INITIAL, cfg.grace, s.trace)
    requires !s.loop.policy.fired && Enabled(s, Advance) && (s.main.Handling? || s.main.TimedOut?)
    ensures TraceInv(cfg, Apply(cfg, s, Advance))
  {
    var i := NextInput(cfg, s);
    UnfiredSnoc(cfg.grace, s.trace, i);
    if s.main.Handling? {
      HandlingTraced(cfg, s);
    } else {
      TimeoutTraced(cfg, s);
    }
  }

  /** Any other step leaves what has been handled as it was. */
  lemma RestKept(cfg: Config, s: State, t: Step)
    requires TraceInv(cfg, s) && s.received <= |s.sent| && Enabled(s, t)
    requires !(t.Advance? && (s.main.Handling? || s.main.TimedOut?))
    requires s.main.Handling? ==> s.received > 0
    requires s.main.Acting? && !s.main.leaving ==> s.loop.policy.fired
    ensures TraceInv(cfg, Apply(cfg, s, t))
  {
    var v := Apply(cfg, s, t);
    assert v.loop == s.loop && v.trace == s.trace;
    if MainInv.Looping(v) {
      assert MainInv.Looping(s);
      assert v.sent[..MainInv.Handled(v)] == s.sent[..MainInv.Handled(s)];
    }
  }

  lemma {:induction false} TraceAlways(cfg: Config, steps: seq<Step>)
    requires Run(cfg, steps).Some?
    ensures TraceInv(cfg, Run(cfg, steps).value)
  {
    if steps != [] {
      var s, t := Run(cfg, steps[..|steps| - 1]).value, steps[|steps| - 1];
      TraceAlways(cfg, steps[..|steps| - 1]);
      MainInv.Always(cfg, steps[..|steps| - 1]);
      if t.Advance? && (s.main.Handling? || s.main.TimedOut?) {
        InputKept(cfg, s);
      } else {
        RestKept(cfg, s, t);
      }
    }
  }

  /** The state is where it would be had no loss been overtaken: same generation, presence, deadline and effects. */
  ghost predicate Harmless(cfg: Config, s: State) {
    exists tidy :: Rearranged(s.trace, tidy) && Same(Turns(INITIAL, cfg.grace, tidy), s.loop)
  }

  /**
   In every run of a daemon started armed with a grace window, the loop is where it would
   be with each overtaken loss put back just before the `Connected` that overtook it.
   */
  lemma RunsIgnoreOvertaking(cfg: Config, s: State) returns (tidy: seq<Input>)
    requires Reachable(cfg, s) && cfg.armed && cfg.grace > 0
    ensures Rearranged(s.trace, tidy) && JustBefore(tidy, Overtaken(s.trace))
    ensures Same(Turns(INITIAL, cfg.grace, tidy), s.loop)
  {
    var steps :| Run(cfg, steps) == Some(s);
    TraceAlways(cfg, steps);
    MainInv.Always(cfg, steps);
    tidy := OvertakingIsHarmless(INITIAL, cfg.grace, s.trace);
  }

  // ----- Why both are needed -------------------------------------------------------------

  const LATE_LOSS: seq<Msg> := [Msg(Connected(1), 1), Msg(Connected(2), 2), Msg(HeartbeatLost(1), 1)]

  lemma LateLossIsLawful()
    ensures Lawful(LATE_LOSS)
  {
    var ms := LATE_LOSS;
    assert ms == [ms[0]] + [ms[1]] + [ms[2]];
    LawfulSnoc([], ms[0]);
    assert [] + [ms[0]] == [ms[0]];
    LawfulSnoc([ms[0]], ms[1]);
    LawfulSnoc([ms[0]] + [ms[1]], ms[2]);
  }

  function Late(armed: bool): seq<Input> {
    [Input(Some(Connected(1)), armed, 0), Input(Some(Connected(2)), armed, 0), Input(Some(HeartbeatLost(1)), armed, 0)]
  }

  /** The one loss handled after the next client has connected, and so ignored. */
  lemma LateLoss(cfg: Config, P: State -> bool) returns (s: State)
    requires Closed(cfg, P) && P(Init(cfg))
    ensures P(s) && s.trace == Late(cfg.armed) && !s.loop.policy.fired
  {
    LateLossIsLawful();
    s := Begins(cfg, P, LATE_LOSS, false);
    s := Takes(cfg, P, s);
    s := Takes(cfg, P, s);
    s := Takes(cfg, P, s);
    assert s.trace == Late(cfg.armed);
  }

  lemma OneIsOvertaken(armed: bool)
    ensures Overtaken(Late(armed)) == {1}
    ensures Without(Late(armed), {1}) == Late(armed)[..2]
  {
    var t := Late(armed);
    assert t[..2][..1] == [t[0]] && t[..2] == [t[0], t[1]] && [t[0]][..0] == [];
    assert Superseded(t[..2], 1) by {
      assert IsConnected(t[..2][1]);
    }
    assert Overtaken([t[0]]) == {} && Overtaken(t[..2]) == {};
    assert Without([t[0]], {1}) == [t[0]] && Without(t[..2], {1}) == t[..2];
  }

  lemma {:induction false} WithoutKeeps(inputs: seq<Input>, gs: set<nat>)
    requires forall i :: 0 <= i < |inputs| ==> !IsLossOf(inputs[i], gs)
    ensures Without(inputs, gs) == inputs
  {
    if inputs != [] {
      WithoutKeeps(inputs[..|inputs| - 1], gs);
    }
  }

  lemma NoLossLeft(x: Input, y: Input, s: seq<Input>, gs: set<nat>)
    requires !IsLossOf(x, gs) && !IsLossOf(y, gs) && multiset(s) == multiset{x, y}
    ensures Without(s, gs) == s
  {
    forall k | 0 <= k < |s| ensures !IsLossOf(s[k], gs) {
      assert s[k] in multiset(s);
    }
    WithoutKeeps(s, gs);
  }

  lemma RestInOrder(x: Input, y: Input, z: Input, a: seq<Input>, b: seq<Input>, gs: set<nat>)
    requires !IsLossOf(x, gs) && !IsLossOf(y, gs) && IsLossOf(z, gs)
    requires multiset(a + [z] + b) == multiset{x, y, z} && Without(a + [z] + b, gs) == [x, y]
    ensures a + b == [x, y]
  {
    assert multiset(a + [z] + b) == multiset(a + b) + multiset{z};
    WithoutMiddle(a, z, b, gs);
    NoLossLeft(x, y, a + b, gs);
  }

  /** Between its own `Connected` and the next, there is one place for the loss. */
  lemma OnePlace(x: Input, y: Input, z: Input, a: seq<Input>, b: seq<Input>)
    requires IsConnected(x) && IsConnected(y) && IsLoss(z)
    requires x.event.value.g == z.event.value.g && y.event.value.g != z.event.value.g
    requires a + b == [x, y]
    ensures (a + [z] + b)[|a|] == z && (InPlace(a + [z] + b, |a|) ==> a + [z] + b == [x, z, y])
  {
    var t, i := a + [z] + b, |a|;
    InsertMoves(a, z, b);
    forall m | 0 <= m < i ensures t[m] == [x, y][m] {
      assert t[m] == (a + b)[m];
    }
    if i == 1 {
      assert a[0] == t[0];
      assert a == [x] && b == (a + b)[1..];
    } else if i == 2 {
      assert t[1] == y;
    }
  }

  lemma OneTidyAt(x: Input, y: Input, z: Input, gs: set<nat>, a: seq<Input>, b: seq<Input>)
    requires IsConnected(x) && IsConnected(y) && IsLossOf(z, gs)
    requires x.event.value.g == z.event.value.g && y.event.value.g != z.event.value.g
    requires multiset(a + [z] + b) == multiset{x, y, z} && Without(a + [z] + b, gs) == [x, y]
    requires Tidy(a + [z] + b)
    ensures a + [z] + b == [x, z, y]
  {
    RestInOrder(x, y, z, a, b, gs);
    OnePlace(x, y, z, a, b);
  }

  lemma OneTidyOrder(x: Input, y: Input, z: Input, gs: set<nat>, tidy: seq<Input>)
    requires IsConnected(x) && IsConnected(y) && IsLossOf(z, gs)
    requires x.event.value.g == z.event.value.g && y.event.value.g != z.event.value.g
    requires multiset(tidy) == multiset{x, y, z} && Tidy(tidy) && Without(tidy, gs) == [x, y]
    ensures tidy == [x, z, y]
  {
    assert z in multiset(tidy);
    var i :| 0 <= i < |tidy| && tidy[i] == z;
    assert tidy == tidy[..i] + [z] + tidy[i + 1..];
    OneTidyAt(x, y, z, gs, tidy[..i], tidy[i + 1..]);
  }

  /** Only one order puts the loss in place and moves nothing else. */
  lemma OneOrder(armed: bool, tidy: seq<Input>)
    requires Rearranged(Late(armed), tidy)
    ensures tidy == [Late(armed)[0], Late(armed)[2], Late(armed)[1]]
  {
    var t := Late(armed);
    OneIsOvertaken(armed);
    assert t == [t[0], t[1], t[2]] && t[..2] == [t[0], t[1]];
    OneTidyOrder(t[0], t[1], t[2], {1}, tidy);
  }

  /** In place, the loss fires a daemon that is unarmed or has no grace window. */
  lemma InPlaceFires(armed: bool, grace: nat)
    requires !(armed && grace > 0)
    ensures Turns(INITIAL, grace, [Late(armed)[0], Late(armed)[2], Late(armed)[1]]).policy.fired
  {
    var t := Late(armed);
    var tidy := [t[0], t[2], t[1]];
    assert tidy[..2][..1] == [t[0]] && tidy[..2] == [t[0], t[2]] && [t[0]][..0] == [];
    var l1 := Turns(INITIAL, grace, [t[0]]);
    Single(INITIAL, grace, t[0]);
    assert Turns(INITIAL, grace, tidy[..2]) == Turn(l1, grace, t[2]);
  }

  /**
   Overtaken losses are harmless in every run of a daemon if and only if it is started
   armed with a grace window.
   */
  lemma HarmlessExactlyWhenArmedWithGrace(cfg: Config)
    ensures (forall s :: Reachable(cfg, s) ==> Harmless(cfg, s)) <==> cfg.armed && cfg.grace > 0
  {
    if cfg.armed && cfg.grace > 0 {
      forall s | Reachable(cfg, s) ensures Harmless(cfg, s) {
        var tidy := RunsIgnoreOvertaking(cfg, s);
      }
    } else {
      ReachableIsClosed(cfg);
      var s := LateLoss(cfg, s => Reachable(cfg, s));
      if Harmless(cfg, s) {
        var tidy :| Rearranged(s.trace, tidy) && Same(Turns(INITIAL, cfg.grace, tidy), s.loop);
        OneOrder(cfg.armed, tidy);
        InPlaceFires(cfg.armed, cfg.grace);
        assert false;
      }
    }
  }
}
