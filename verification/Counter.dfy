/**
 The one-shot server's exit counter: any number of threads counting calls down with
 load and compare-exchange, and a disconnect path that shares the fired flag. Every
 atomic operation is one step, in any interleaving.
 */
module Counter {
  import opened Counting

  datatype Mode = Calls(n: nat) | Session | Either(n: nat)

  function Budget(mode: Mode): nat {
    match mode
    case Calls(n) => n
    case Either(n) => n
    case Session => 0
  }

  predicate CountsCalls(mode: Mode) {
    !mode.Session?
  }

  // ----- One thread -----------------------------------------------------------------

  /** A whole call with nothing in between: what is left, whether it has fired, and the answer. */
  function Alone(mode: Mode, remaining: nat, fired: bool): (nat, bool, bool) {
    if !CountsCalls(mode) || remaining == 0 then (remaining, fired, false)
    else (remaining - 1, fired || remaining == 1, remaining == 1 && !fired)
  }

  /** The counter as one thread alone sees it. */
  class CallCounter {
    const mode: Mode
    var remaining: nat
    var fired: bool

    constructor (m: Mode)
      ensures mode == m && !fired
      ensures remaining == match m
        case Calls(n) => n
        case Either(n) => n
        case Session => 0
    {
      mode := m;
      remaining := Budget(m);
      fired := false;
    }

    method CompareExchange(current: nat, next: nat) returns (ok: bool)
      modifies this`remaining
      ensures ok == (old(remaining) == current)
      ensures remaining == if ok then next else old(remaining)
    {
      ok := remaining == current;
      if ok {
        remaining := next;
      }
    }

    method SwapFired() returns (was: bool)
      modifies this`fired
      ensures was == old(fired) && fired
    {
      was, fired := fired, true;
    }

    /** One completed call, with no other thread between the load and the exchange. */
    method Decrement() returns (fire: bool)
      modifies this
      ensures mode.Session? || old(remaining) == 0 ==> !fire && remaining == old(remaining) && fired == old(fired)
      ensures !mode.Session? && old(remaining) > 0 ==>
        && remaining == old(remaining) - 1
        && (fired <==> old(fired) || remaining == 0)
        && (fire <==> remaining == 0 && !old(fired))
    {
      if !CountsCalls(mode) {
        return false;
      }
      var done := false;
      fire := false;
      while !done
        invariant !done ==> remaining == old(remaining) && fired == old(fired) && !fire
        invariant done ==> old(remaining) > 0 && remaining == old(remaining) - 1
        invariant done ==> fire == (remaining == 0 && !old(fired)) && fired == (old(fired) || remaining == 0)
        decreases !done
      {
        var current := remaining;
        if current == 0 {
          return false;
        }
        var ok := CompareExchange(current, current - 1);
        if ok {
          if current - 1 == 0 {
            var was := SwapFired();
            fire := !was;
          }
          done := true;
        }
      }
    }

    method OnDisconnect() returns (fire: bool)
      modifies this`fired
      ensures fire <==> !mode.Calls? && !old(fired)
      ensures fired <==> old(fired) || !mode.Calls?
    {
      if mode.Calls? {
        return false;
      }
      var was := SwapFired();
      fire := !was;
    }
  }

  // ----- Any number of threads --------------------------------------------------------

  /** How a call ended: refused at zero, counted, or the one that reached zero. */
  datatype Outcome = Refused | Counted | Last(fire: bool)

  datatype Pc =
    | Start
    | Loaded(v: nat)
    | ToSwap
    | Returned(outcome: Outcome)

  /** One `decrement` call, with its failed exchanges and the steps it has taken. */
  datatype Call = Call(pc: Pc, fails: nat, steps: nat)

  datatype State = State(mode: Mode, remaining: nat, fired: bool, calls: seq<Call>, disconnects: seq<bool>)

  datatype Step = Begin | Advance(i: nat) | Disconnect

  function Init(mode: Mode): State {
    State(mode, Budget(mode), false, [], [])
  }

  /** Loop top: read `remaining`; zero ends the call. */
  function Load(s: State, i: nat): State
    requires i < |s.calls|
  {
    var pc := if !CountsCalls(s.mode) || s.remaining == 0 then Returned(Refused) else Loaded(s.remaining);
    s.(calls := s.calls[i := s.calls[i].(pc := pc, steps := s.calls[i].steps + 1)])
  }

  /** The exchange: it succeeds exactly when `remaining` is still what was read. */
  function Exchange(s: State, i: nat, v: nat): State
    requires i < |s.calls|
  {
    var c := s.calls[i];
    if s.remaining == v && v > 0 then
      var pc := if v - 1 == 0 then ToSwap else Returned(Counted);
      s.(remaining := v - 1, calls := s.calls[i := c.(pc := pc, steps := c.steps + 1)])
    else
      s.(calls := s.calls[i := c.(pc := Start, fails := c.fails + 1, steps := c.steps + 1)])
  }

  function Swap(s: State, i: nat): State
    requires i < |s.calls|
  {
    var c := s.calls[i];
    s.(fired := true, calls := s.calls[i := c.(pc := Returned(Last(!s.fired)), steps := c.steps + 1)])
  }

  function Apply(s: State, step: Step): State {
    match step
    case Begin => s.(calls := s.calls + [Call(Start, 0, 0)])
    case Disconnect =>
      if s.mode.Calls? then s.(disconnects := s.disconnects + [false])
      else s.(fired := true, disconnects := s.disconnects + [!s.fired])
    case Advance(i) =>
      if i >= |s.calls| then s
      else
        match s.calls[i].pc
        case Start => Load(s, i)
        case Loaded(v) => Exchange(s, i, v)
        case ToSwap => Swap(s, i)
        case Returned(_) => s
  }

  function Run(s: State, steps: seq<Step>): State {
    if steps == [] then s else Apply(Run(s, steps[..|steps| - 1]), steps[|steps| - 1])
  }

  /** A call that nobody interrupts counts down as one thread alone does. */
  lemma UninterruptedCall(s: State)
    ensures var i := |s.calls|;
      var t := Apply(Apply(Apply(Apply(s, Begin), Advance(i)), Advance(i)), Advance(i));
      && i < |t.calls| && t.calls[i].pc.Returned?
      && if s.mode.Session? || s.remaining == 0
         then t.calls[i].pc == Returned(Refused) && t.remaining == s.remaining && t.fired == s.fired
         else
           && t.remaining == s.remaining - 1
           && (t.fired <==> s.fired || t.remaining == 0)
           && (t.calls[i].pc == Returned(Last(true)) <==> t.remaining == 0 && !s.fired)
  {
    var i := |s.calls|;
    var s0 := Apply(s, Begin);
    assert s0.calls[i] == Call(Start, 0, 0);
    var s1 := Apply(s0, Advance(i));
    if s1.calls[i].pc.Loaded? {
      assert s1.calls[i].pc.v == s1.remaining;
    }
    var s2 := Apply(s1, Advance(i));
    assert s2.calls[i].pc.ToSwap? || s2.calls[i].pc.Returned?;
  }

  // ----- Counting calls ---------------------------------------------------------------

  /** Calls whose exchange succeeded. */
  const TOOK: Call -> bool := (c: Call) => c.pc.ToSwap? || (c.pc.Returned? && !c.pc.outcome.Refused?)
  /** Calls that reached zero. */
  const CLOSER: Call -> bool := (c: Call) => c.pc.ToSwap? || (c.pc.Returned? && c.pc.outcome.Last?)
  /** Calls that returned true. */
  const WON: Call -> bool := (c: Call) => c.pc == Returned(Last(true))

  function Trues(bs: seq<bool>): nat {
    Count(bs, b => b)
  }

  /** How many calls to decrement or disconnect have returned true. */
  function Wins(s: State): nat {
    Count(s.calls, WON) + Trues(s.disconnects)
  }

  // ----- The invariant ---------------------------------------------------------------

  /** What one call's program counter says about the shared counter. */
  predicate CallOk(s: State, c: Call) {
    var n := Budget(s.mode);
    match c.pc
    case Start => s.remaining + c.fails <= n && c.steps == 2 * c.fails
    case Loaded(v) => CountsCalls(s.mode) && s.remaining <= v && 0 < v && v + c.fails <= n && c.steps == 2 * c.fails + 1
    case ToSwap => s.remaining == 0 && c.steps <= 2 * n
    case Returned(o) =>
      && c.steps <= 2 * n + 1
      && (o.Refused? ==> !CountsCalls(s.mode) || s.remaining == 0)
      && (o.Last? ==> s.fired)
  }

  predicate Inv(s: State) {
    && s.remaining + Count(s.calls, TOOK) == Budget(s.mode)
    && Wins(s) == (if s.fired then 1 else 0)
    && Count(s.calls, CLOSER) == (if s.remaining == 0 && Budget(s.mode) > 0 then 1 else 0)
    && forall i :: 0 <= i < |s.calls| ==> CallOk(s, s.calls[i])
  }

  lemma LoadKeeps(s: State, i: nat)
    requires Inv(s) && i < |s.calls| && s.calls[i].pc.Start?
    ensures Inv(Load(s, i))
  {
    var c := Load(s, i).calls[i];
    CountUpdate(s.calls, i, c, TOOK);
    CountUpdate(s.calls, i, c, CLOSER);
    CountUpdate(s.calls, i, c, WON);
  }

  lemma ExchangeCounts(s: State, i: nat, v: nat)
    requires i < |s.calls| && s.calls[i].pc == Loaded(v)
    ensures var t := Exchange(s, i, v); var c := t.calls[i];
      && Count(t.calls, TOOK) == Count(s.calls, TOOK) + (if TOOK(c) then 1 else 0)
      && Count(t.calls, CLOSER) == Count(s.calls, CLOSER) + (if CLOSER(c) then 1 else 0)
      && Count(t.calls, WON) == Count(s.calls, WON)
  {
    var c := Exchange(s, i, v).calls[i];
    CountUpdate(s.calls, i, c, TOOK);
    CountUpdate(s.calls, i, c, CLOSER);
    CountUpdate(s.calls, i, c, WON);
  }

  lemma ExchangeKeeps(s: State, i: nat, v: nat)
    requires Inv(s) && i < |s.calls| && s.calls[i].pc == Loaded(v)
    ensures Inv(Exchange(s, i, v))
  {
    assert CallOk(s, s.calls[i]);
    ExchangeCounts(s, i, v);
    var t := Exchange(s, i, v);
    forall k | 0 <= k < |t.calls| ensures CallOk(t, t.calls[k]) {
      assert CallOk(s, s.calls[k]);
    }
  }

  lemma SwapKeeps(s: State, i: nat)
    requires Inv(s) && i < |s.calls| && s.calls[i].pc.ToSwap?
    ensures Inv(Swap(s, i))
  {
    var c := Swap(s, i).calls[i];
    CountUpdate(s.calls, i, c, TOOK);
    CountUpdate(s.calls, i, c, CLOSER);
    CountUpdate(s.calls, i, c, WON);
  }

  lemma BeginKeeps(s: State)
    requires Inv(s)
    ensures Inv(Apply(s, Begin))
  {
    CountAppend(s.calls, Call(Start, 0, 0), TOOK);
    CountAppend(s.calls, Call(Start, 0, 0), CLOSER);
    CountAppend(s.calls, Call(Start, 0, 0), WON);
  }

  lemma DisconnectKeeps(s: State)
    requires Inv(s)
    ensures Inv(Apply(s, Disconnect))
  {
    var t := Apply(s, Disconnect);
    CountAppend(s.disconnects, if s.mode.Calls? then false else !s.fired, b => b);
    forall i | 0 <= i < |t.calls| ensures CallOk(t, t.calls[i]) {
      assert CallOk(s, s.calls[i]);
    }
  }

  lemma StepKeeps(s: State, step: Step)
    requires Inv(s)
    ensures Inv(Apply(s, step))
  {
    match step
    case Begin => BeginKeeps(s);
    case Disconnect => DisconnectKeeps(s);
    case Advance(i) =>
      if i < |s.calls| {
        match s.calls[i].pc
        case Start => LoadKeeps(s, i);
        case Loaded(v) => ExchangeKeeps(s, i, v);
        case ToSwap => SwapKeeps(s, i);
        case Returned(_) =>
      }
  }

  lemma {:induction false} RunKeeps(s: State, steps: seq<Step>)
    requires Inv(s)
    ensures Inv(Run(s, steps)) && Run(s, steps).mode == s.mode
  {
    if steps != [] {
      RunKeeps(s, steps[..|steps| - 1]);
      StepKeeps(Run(s, steps[..|steps| - 1]), steps[|steps| - 1]);
    }
  }

  // ----- Theorems ----------------------------------------------------------------------

  /** A disconnect fires whatever has not fired yet, in the modes that end with the session. */
  lemma {:induction false} DisconnectFires(mode: Mode, steps: seq<Step>)
    ensures !mode.Calls? && Run(Init(mode), steps).disconnects != [] ==> Run(Init(mode), steps).fired
    ensures mode.Calls? ==> true !in Run(Init(mode), steps).disconnects
    ensures Run(Init(mode), steps).mode == mode
  {
    if steps != [] {
      DisconnectFires(mode, steps[..|steps| - 1]);
    }
  }

  /**
   Nothing is lost or counted twice from a limit of n; at most one call or disconnect ever
   returns true, and one has exactly once the counter has fired, as it has after any
   disconnect in the modes that end with the session.
   */
  lemma CountdownIsExact(mode: Mode, steps: seq<Step>)
    ensures var s := Run(Init(mode), steps);
      && (match mode
          case Calls(n) => s.remaining + Count(s.calls, TOOK) == n
          case Either(n) => s.remaining + Count(s.calls, TOOK) == n
          case Session => s.remaining == 0 && Count(s.calls, TOOK) == 0)
      && Wins(s) <= 1
      && (Wins(s) == 1 <==> s.fired)
      && (!mode.Calls? && s.disconnects != [] ==> s.fired)
  {
    RunKeeps(Init(mode), steps);
    DisconnectFires(mode, steps);
  }

  /** Once n calls have returned and none is in flight, a limit of n is spent and exactly one call returned true. */
  lemma SpentMeansFired(mode: Mode, n: nat, steps: seq<Step>)
    requires (mode == Calls(n) || mode == Either(n)) && n > 0
    requires var s := Run(Init(mode), steps);
      |s.calls| >= n && forall i :: 0 <= i < |s.calls| ==> s.calls[i].pc.Returned?
    ensures Wins(Run(Init(mode), steps)) == 1
    ensures Run(Init(mode), steps).remaining == 0
  {
    RunKeeps(Init(mode), steps);
    var s := Run(Init(mode), steps);
    CountBound(s.calls, TOOK);
    if s.remaining > 0 {
      AllTook(s);
    }
    CountBound(s.calls, CLOSER);
    var i :| 0 <= i < |s.calls| && CLOSER(s.calls[i]);
    assert CallOk(s, s.calls[i]);
  }

  /** Before the limit is reached nothing fires on a call's account: fewer than n calls leave the count unspent. */
  lemma NotBeforeTheLimit(mode: Mode, n: nat, steps: seq<Step>)
    requires mode == Calls(n) || mode == Either(n)
    requires |Run(Init(mode), steps).calls| < n
    ensures Run(Init(mode), steps).remaining > 0
    ensures forall i :: 0 <= i < |Run(Init(mode), steps).calls| ==>
      Run(Init(mode), steps).calls[i].pc != Returned(Last(true)) && Run(Init(mode), steps).calls[i].pc != Returned(Refused)
  {
    RunKeeps(Init(mode), steps);
    var s := Run(Init(mode), steps);
    CountBound(s.calls, TOOK);
    forall i | 0 <= i < |s.calls| ensures s.calls[i].pc != Returned(Last(true)) && s.calls[i].pc != Returned(Refused) {
      assert CallOk(s, s.calls[i]);
      if s.calls[i].pc == Returned(Last(true)) {
        CountedIn(s.calls, i, CLOSER);
      }
    }
  }

  lemma {:induction false} CountedIn(cs: seq<Call>, i: nat, p: Call -> bool)
    requires i < |cs| && p(cs[i])
    ensures Count(cs, p) > 0
  {
    if i < |cs| - 1 {
      CountedIn(cs[..|cs| - 1], i, p);
    }
  }

  /** While the budget lasts, no call is refused. */
  lemma AllTook(s: State)
    requires Inv(s) && s.remaining > 0 && CountsCalls(s.mode)
    requires forall i :: 0 <= i < |s.calls| ==> s.calls[i].pc.Returned?
    ensures Count(s.calls, TOOK) == |s.calls|
  {
    forall i | 0 <= i < |s.calls| ensures TOOK(s.calls[i]) {
      assert CallOk(s, s.calls[i]);
    }
    CountBound(s.calls, TOOK);
  }

  /** With a limit of zero, or none, no call ever returns true; and a call limit of zero never fires at all. */
  lemma ZeroBudgetNeverFires(mode: Mode, steps: seq<Step>)
    requires mode == Calls(0) || mode == Either(0) || mode == Session
    ensures forall i :: 0 <= i < |Run(Init(mode), steps).calls| ==> Run(Init(mode), steps).calls[i].pc != Returned(Last(true))
    ensures mode.Calls? ==> !Run(Init(mode), steps).fired
  {
    RunKeeps(Init(mode), steps);
    var s := Run(Init(mode), steps);
    CountWeaker(s.calls, WON, CLOSER);
    forall i | 0 <= i < |s.calls| ensures s.calls[i].pc != Returned(Last(true)) {
      if s.calls[i].pc == Returned(Last(true)) {
        CountedIn(s.calls, i, CLOSER);
      }
    }
    if mode.Calls? {
      CallsModeIgnoresDisconnect(mode, steps);
    }
  }

  /** With a call limit only, disconnects never fire. */
  lemma {:induction false} CallsModeIgnoresDisconnect(mode: Mode, steps: seq<Step>)
    requires mode.Calls?
    ensures Trues(Run(Init(mode), steps).disconnects) == 0 && Run(Init(mode), steps).mode == mode
  {
    if steps != [] {
      var front := Run(Init(mode), steps[..|steps| - 1]);
      CallsModeIgnoresDisconnect(mode, steps[..|steps| - 1]);
      CountAppend(front.disconnects, false, b => b);
    }
  }

  // ----- Wait-freedom -----------------------------------------------------------------

  /** How many turns a schedule gives to call i. */
  function Turns(steps: seq<Step>, i: nat): nat {
    if steps == [] then 0
    else Turns(steps[..|steps| - 1], i) + (if steps[|steps| - 1] == Advance(i) then 1 else 0)
  }

  /** A failed exchange means another call counted since the load. */
  lemma FailedExchangeMeansProgress(mode: Mode, steps: seq<Step>, i: nat)
    requires var s := Run(Init(mode), steps);
      i < |s.calls| && s.calls[i].pc.Loaded? && s.remaining != s.calls[i].pc.v
    ensures var s := Run(Init(mode), steps); s.remaining < s.calls[i].pc.v
  {
    RunKeeps(Init(mode), steps);
    var s := Run(Init(mode), steps);
    assert CallOk(s, s.calls[i]);
  }

  lemma {:induction false} EveryTurnCounts(s: State, steps: seq<Step>, i: nat)
    requires i < |s.calls|
    ensures var t := Run(s, steps);
      && i < |t.calls|
      && (t.calls[i].pc.Returned? || t.calls[i].steps == s.calls[i].steps + Turns(steps, i))
  {
    if steps != [] {
      EveryTurnCounts(s, steps[..|steps| - 1], i);
    }
  }

  /** Whatever the other threads do, a call against a limit of n that gets 2n + 1 turns has returned. */
  lemma DecrementIsWaitFree(mode: Mode, n: nat, before: seq<Step>, steps: seq<Step>, i: nat)
    requires mode == Calls(n) || mode == Either(n) || (mode == Session && n == 0)
    requires i < |Run(Init(mode), before).calls|
    requires Turns(steps, i) >= 2 * n + 1
    ensures var t := Run(Run(Init(mode), before), steps); i < |t.calls| && t.calls[i].pc.Returned?
  {
    RunKeeps(Init(mode), before);
    var s := Run(Init(mode), before);
    RunKeeps(s, steps);
    EveryTurnCounts(s, steps, i);
    var t := Run(s, steps);
    assert CallOk(t, t.calls[i]);
  }
}
