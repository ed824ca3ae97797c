/**
 The one-shot server when its transport dispatches one call at a time and a call limit
 applies: never more than that many calls are served, and when the limit closes serving.
 */
module OneAtATime {
  import opened Wrappers
  import opened Lifecycle
  import opened Tools
  import opened Exit
  import opened ExitInv
  import opened ExitTheorems
  import opened Counting
  import Counter

  predicate Done(x: Handler) {
    x.at.Served? || x.at.Rejected?
  }

  predicate Idle(s: State) {
    forall h :: 0 <= h < |s.handlers| ==> Done(s.handlers[h])
  }

  /** Every request arrives when the ones before it are answered. */
  predicate Sequential(s0: State, steps: seq<Step>)
    requires EntriesOk(s0.tools)
  {
    steps == []
    || (Sequential(s0, steps[..|steps| - 1])
        && (steps[|steps| - 1].Request? ==> Idle(Run(s0, steps[..|steps| - 1]))))
  }

  /** Where the only call that can be in progress stands. */
  function Current(hs: seq<Handler>): At {
    if hs == [] then Rejected else hs[|hs| - 1].at
  }

  predicate OnlyLastActive(hs: seq<Handler>) {
    forall h :: 0 <= h < |hs| - 1 ==> Done(hs[h])
  }

  /** Past the closed check and not yet counted. */
  predicate Admitted(at: At) {
    at.Looking? || at.Running? || at.Failed? || at.Holding?
  }

  /** The call being counted, against what is left of a budget of n. `gone` says the client has left. */
  predicate CountingOk(c: Counter.State, n: nat, k: nat, gone: bool) {
    && k + 1 == |c.calls|
    && match c.calls[k].pc
       case Start => c.remaining + k == n && c.remaining > 0 && (c.fired ==> gone)
       case Loaded(v) => c.remaining + k == n && c.remaining == v && v > 0 && (c.fired ==> gone)
       case ToSwap => c.remaining == 0 && k + 1 == n && (c.fired ==> gone)
       case Returned(Refused) => false
       case Returned(Counted) => c.remaining + k + 1 == n && c.remaining > 0 && (c.fired ==> gone)
       case Returned(Last(fire)) => c.remaining == 0 && k + 1 == n && c.fired && (fire || gone)
  }

  predicate TallyOk(c: Counter.State, n: nat, at: At, gone: bool) {
    && Counter.CountsCalls(c.mode) && Counter.Budget(c.mode) == n
    && match at
       case Counting(k) => CountingOk(c, n, k, gone)
       case _ =>
         && c.remaining + |c.calls| == n
         && (c.remaining == 0 ==> c.fired)
         && (c.fired ==> c.remaining == 0 || gone)
         && (Admitted(at) ==> c.remaining > 0)
  }

  /**
   Once the count is spent, serving is closed, or the last call is about to close it, or it
   is over with the client gone. Serving is closed only when the count is spent, or with
   another exit under way.
   */
  predicate GateOk(closed: bool, exits: seq<Exit>, c: Counter.State, at: At, gone: bool) {
    && (c.remaining == 0 && !closed ==> at.Closing? || at.Counting? || (gone && (at.Served? || at.Rejected?)))
    && (closed ==> c.remaining == 0 || exists e :: 0 <= e < |exits| && exits[e].why != CallsExhausted)
  }

  /** The count has begun an exit. */
  ghost predicate ByCount(exits: seq<Exit>) {
    exists e :: 0 <= e < |exits| && exits[e].why == CallsExhausted
  }

  /** A call that answered true has begun its exit, or is about to; no exit for spent calls has another origin. */
  ghost predicate FireOk(c: Counter.State, closed: bool, exits: seq<Exit>, at: At) {
    && (Count(c.calls, Counter.WON) > 0 ==> at.Counting? || at.Closing? || at.Spawning? || ByCount(exits))
    && (ByCount(exits) || at.Closing? || at.Spawning? ==> Count(c.calls, Counter.WON) > 0)
    && (ByCount(exits) || at.Spawning? ==> closed)
  }

  predicate Gone(s: State) {
    !s.main.Serving?
  }

  ghost predicate SeqInv(s: State, n: nat) {
    && OnlyLastActive(s.handlers)
    && TallyOk(s.counter, n, Current(s.handlers), Gone(s))
    && GateOk(s.closed, s.exits, s.counter, Current(s.handlers), Gone(s))
    && FireOk(s.counter, s.closed, s.exits, Current(s.handlers))
  }

  /** A finished handler does nothing more. */
  lemma DoneIsDone(s: State, h: nat, execOk: bool)
    requires EntriesOk(s.tools) && h < |s.handlers| && Done(s.handlers[h])
    ensures HandlerStep(s, h, execOk) == s
  {
    assert s.records + [] == s.records && s.exits + [] == s.exits;
    assert s.handlers[h := s.handlers[h]] == s.handlers;
  }

  lemma TallyStep(s: State, n: nat, x: Handler, execOk: bool)
    requires EntriesOk(s.tools) && n > 0
    requires TallyOk(s.counter, n, x.at, Gone(s))
    requires x.at.Arrived? && !s.closed ==> s.counter.remaining > 0
    ensures TallyOk(NextCounter(s.counter, x.at), n, NextHandler(s, x, execOk).at, Gone(s))
  {
    if x.at.Counting? {
      var k := x.at.call;
      var c := s.counter.calls[k];
      assert c.pc.Loaded? ==> c.pc.v == s.counter.remaining;
    }
  }

  lemma GateStep(s: State, n: nat, x: Handler, execOk: bool)
    requires EntriesOk(s.tools)
    requires TallyOk(s.counter, n, x.at, Gone(s)) && GateOk(s.closed, s.exits, s.counter, x.at, Gone(s))
    requires x.at.Closing? ==> Spent(s.counter)
    ensures GateOk(s.closed || x.at.Closing?, s.exits, NextCounter(s.counter, x.at), NextHandler(s, x, execOk).at, Gone(s))
  {
    if x.at.Counting? {
      var k := x.at.call;
      var c := s.counter.calls[k];
      assert c.pc.Loaded? ==> c.pc.v == s.counter.remaining;
    }
  }

  /** The call that reached zero without answering true leaves no room for one that did. */
  lemma OneClosesAtMost(c: Counter.State, k: nat)
    requires Counter.Inv(c) && k < |c.calls| && Counter.CLOSER(c.calls[k]) && !Counter.WON(c.calls[k])
    ensures Count(c.calls, Counter.WON) == 0
  {
    var other := c.calls[k].(pc := Counter.Start);
    CountUpdate(c.calls, k, other, Counter.CLOSER);
    CountUpdate(c.calls, k, other, Counter.WON);
    CountWeaker(c.calls[k := other], Counter.WON, Counter.CLOSER);
  }

  /** When a call has returned, either it answered true or no call has. */
  lemma ReturnDecides(c: Counter.State, n: nat, k: nat, gone: bool)
    requires Counter.Inv(c) && k < |c.calls| && CountingOk(c, n, k, gone) && c.calls[k].pc.Returned?
    ensures Count(c.calls, Counter.WON) > 0 <==> c.calls[k].pc.outcome == Counter.Last(true)
  {
    if c.calls[k].pc.outcome.Counted? {
      CountWeaker(c.calls, Counter.WON, Counter.CLOSER);
    } else if c.calls[k].pc.outcome == Counter.Last(true) {
      CountUpdate(c.calls, k, c.calls[k].(pc := Counter.Start), Counter.WON);
    } else {
      OneClosesAtMost(c, k);
    }
  }

  lemma BeginAddsNoWin(c: Counter.State)
    ensures Count(Counter.Apply(c, Counter.Begin).calls, Counter.WON) == Count(c.calls, Counter.WON)
  {
    CountAppend(c.calls, Counter.Call(Counter.Start, 0, 0), Counter.WON);
  }

  lemma SpawnIsByCount(exits: seq<Exit>)
    ensures ByCount(exits + [Arriving(CallsExhausted)])
  {
    assert (exits + [Arriving(CallsExhausted)])[|exits|].why == CallsExhausted;
  }

  lemma FireCounting(s: State, n: nat, x: Handler, execOk: bool)
    requires EntriesOk(s.tools) && Counter.Inv(s.counter) && x.at.Counting?
    requires TallyOk(s.counter, n, x.at, Gone(s)) && FireOk(s.counter, s.closed, s.exits, x.at)
    ensures FireOk(NextCounter(s.counter, x.at), s.closed, s.exits, NextHandler(s, x, execOk).at)
  {
    var k := x.at.call;
    if s.counter.calls[k].pc.Returned? {
      ReturnDecides(s.counter, n, k, Gone(s));
    } else {
      WinsOnlyGrow(s.counter, k);
    }
  }

  lemma FireElsewhere(s: State, x: Handler, execOk: bool)
    requires EntriesOk(s.tools) && !x.at.Counting? && !x.at.Spawning? && FireOk(s.counter, s.closed, s.exits, x.at)
    ensures FireOk(NextCounter(s.counter, x.at), s.closed || x.at.Closing?, s.exits, NextHandler(s, x, execOk).at)
  {
    if x.at.Holding? {
      BeginAddsNoWin(s.counter);
    }
  }

  lemma FireStep(s: State, n: nat, h: nat, execOk: bool)
    requires EntriesOk(s.tools) && h < |s.handlers| && Counter.Inv(s.counter)
    requires TallyOk(s.counter, n, s.handlers[h].at, Gone(s))
    requires FireOk(s.counter, s.closed, s.exits, s.handlers[h].at)
    ensures var t := HandlerStep(s, h, execOk); FireOk(t.counter, t.closed, t.exits, t.handlers[h].at)
  {
    var x := s.handlers[h];
    if x.at.Spawning? {
      SpawnIsByCount(s.exits);
    } else {
      assert s.exits + [] == s.exits;
      if x.at.Counting? {
        FireCounting(s, n, x, execOk);
      } else {
        FireElsewhere(s, x, execOk);
      }
    }
  }

  lemma WinsOnlyGrow(c: Counter.State, k: nat)
    requires k < |c.calls| && !c.calls[k].pc.Returned?
    ensures Count(Counter.Apply(c, Counter.Advance(k)).calls, Counter.WON) >= Count(c.calls, Counter.WON)
  {
    var d := Counter.Apply(c, Counter.Advance(k));
    assert d.calls == c.calls[k := d.calls[k]];
    CountUpdate(c.calls, k, d.calls[k], Counter.WON);
  }

  lemma MoreExits(closed: bool, exits: seq<Exit>, more: seq<Exit>, c: Counter.State, at: At, gone: bool)
    requires GateOk(closed, exits, c, at, gone)
    requires |exits| <= |more| && forall e :: 0 <= e < |exits| ==> more[e].why == exits[e].why
    ensures GateOk(closed, more, c, at, gone)
  {
    if closed && c.remaining != 0 {
      var e :| 0 <= e < |exits| && exits[e].why != CallsExhausted;
      assert more[e].why != CallsExhausted;
    }
  }

  /** Exits for other reasons, and exits moving on, leave the count's own exit as it was. */
  lemma SameByCount(exits: seq<Exit>, more: seq<Exit>)
    requires |exits| <= |more| && forall e :: 0 <= e < |exits| ==> more[e].why == exits[e].why
    requires forall e :: |exits| <= e < |more| ==> more[e].why != CallsExhausted
    ensures ByCount(more) <==> ByCount(exits)
  {
    if ByCount(exits) {
      var e :| 0 <= e < |exits| && exits[e].why == CallsExhausted;
      assert more[e].why == CallsExhausted;
    }
  }

  lemma HandlerKeepsSeq(s: State, n: nat, h: nat, execOk: bool)
    requires EntriesOk(s.tools) && n > 0 && h < |s.handlers| && SeqInv(s, n) && CountInv(s)
    ensures SeqInv(HandlerStep(s, h, execOk), n)
  {
    if h < |s.handlers| - 1 {
      DoneIsDone(s, h, execOk);
    } else {
      var x, t := s.handlers[h], HandlerStep(s, h, execOk);
      assert HandlerCounts(s.counter, x);
      TallyStep(s, n, x, execOk);
      GateStep(s, n, x, execOk);
      FireStep(s, n, h, execOk);
      MoreExits(t.closed, s.exits, t.exits, t.counter, Current(t.handlers), Gone(s));
    }
  }

  lemma DisconnectLeavesCalls(c: Counter.State, n: nat, at: At, gone: bool)
    requires TallyOk(c, n, at, gone)
    ensures var d := Counter.Apply(c, Counter.Disconnect);
      d.calls == c.calls && d.remaining == c.remaining && TallyOk(d, n, at, true)
  {
  }

  lemma OutsideKeepsSeq(s: State, n: nat, step: Step)
    requires SeqInv(s, n) && (step.Request? ==> Idle(s))
    ensures SeqInv(Outside(s, step), n)
  {
    var t := Outside(s, step);
    if step.Request? {
      assert Current(s.handlers).Served? || Current(s.handlers).Rejected?;
    } else {
      assert t.handlers == s.handlers;
    }
    DisconnectLeavesCalls(s.counter, n, Current(s.handlers), Gone(s));
    MoreExits(s.closed, s.exits, t.exits, t.counter, Current(s.handlers), Gone(s));
    SameByCount(s.exits, t.exits);
  }

  lemma ExitKeepsSeq(s: State, n: nat, e: nat)
    requires SeqInv(s, n) && CountInv(s) && e < |s.exits|
    ensures SeqInv(ExitAdvance(s, e), n)
  {
    var t := ExitAdvance(s, e);
    assert ExitCounts(s.counter, s.exits[e]);
    assert t.exits[e].why == s.exits[e].why;
    MoreExits(s.closed, s.exits, t.exits, s.counter, Current(s.handlers), Gone(s));
    SameByCount(s.exits, t.exits);
    if t.closed && !s.closed && s.counter.remaining != 0 {
      assert t.exits[e].why != CallsExhausted;
    }
  }

  lemma StepKeepsSeq(s: State, n: nat, step: Step)
    requires EntriesOk(s.tools) && n > 0 && SeqInv(s, n) && CountInv(s)
    requires step.Request? ==> Idle(s)
    ensures SeqInv(Apply(s, step), n)
  {
    if s.ended || (step.Handle? && step.h >= |s.handlers|) || (step.ExitStep? && step.e >= |s.exits|) {
      assert Apply(s, step) == s;
    } else if step.Handle? {
      HandlerKeepsSeq(s, n, step.h, step.execOk);
    } else if step.ExitStep? {
      ExitKeepsSeq(s, n, step.e);
    } else {
      OutsideKeepsSeq(s, n, step);
    }
  }

  lemma {:induction false} RunKeepsSeq(s0: State, n: nat, steps: seq<Step>)
    requires EntriesOk(s0.tools) && n > 0 && SeqInv(s0, n) && CountInv(s0) && Sequential(s0, steps)
    ensures SeqInv(Run(s0, steps), n)
  {
    if steps != [] {
      var front := steps[..|steps| - 1];
      RunKeepsSeq(s0, n, front);
      RunCounts(s0, front);
      StepKeepsSeq(Run(s0, front), n, steps[|steps| - 1]);
    }
  }

  /** No disconnect has taken the fired flag: if the count is spent, its last call's swap came first. */
  predicate CountFirst(c: Counter.State) {
    Counter.Trues(c.disconnects) == 0
  }

  /** Serving at an instant, against a budget of n. */
  ghost predicate WithinBudget(s: State, n: nat) {
    && ServedReads(s.records) <= n
    // Between calls, a spent count has closed serving and begun its exit exactly when its last swap came before the disconnect's.
    && (Idle(s) && ServedReads(s.records) == n ==> (ByCount(s.exits) <==> CountFirst(s.counter)))
    && (ByCount(s.exits) ==> s.closed && ServedReads(s.records) == n)
    // Between calls, a closed server has served its budget, or is leaving for another reason.
    && (Idle(s) && s.closed ==> ServedReads(s.records) == n || exists e :: 0 <= e < |s.exits| && s.exits[e].why != CallsExhausted)
    // While the client is there, a spent count is closed before the next call.
    && (Idle(s) && s.main.Serving? && ServedReads(s.records) == n ==> s.closed)
  }

  lemma TallyBounds(s: State, n: nat)
    requires SeqInv(s, n) && CountInv(s) && n > 0
    ensures WithinBudget(s, n)
  {
    if Idle(s) && s.handlers != [] {
      assert Done(s.handlers[|s.handlers| - 1]);
    }
    if ByCount(s.exits) {
      var e :| 0 <= e < |s.exits| && s.exits[e].why == CallsExhausted;
      assert ExitCounts(s.counter, s.exits[e]);
    }
  }

  lemma {:induction false} NoTrues(bs: seq<bool>)
    ensures Counter.Trues(bs) == 0 <==> true !in bs
  {
    if bs != [] {
      NoTrues(bs[..|bs| - 1]);
      assert bs == bs[..|bs| - 1] + [bs[|bs| - 1]];
    }
  }

  /**
   With a limit of n > 0 calls, with or without a session, and one call at a time, no run
   serves more than n. An exit for spent calls closes serving and comes with the nth.
   Between calls: once n are served that exit has begun unless the client's disconnect
   took the fired flag first; a closed server has served n or is leaving for another
   reason; and while the client is there, a server that has served n is closed.
   */
  lemma ServesExactlyTheBudget(armed: bool, mode: Counter.Mode, n: nat, tools: seq<Entry>, steps: seq<Step>)
    requires EntriesOk(tools) && Sequential(Init(armed, mode, tools), steps)
    requires (mode == Counter.Calls(n) || mode == Counter.Either(n)) && n > 0
    ensures var s := Run(Init(armed, mode, tools), steps);
      var served := Count(s.records, (r: Record) => r.Read? && r.served);
      var byCount := exists e :: 0 <= e < |s.exits| && s.exits[e].why == CallsExhausted;
      && served <= n
      && (byCount ==> s.closed && served == n)
      && ((forall h :: 0 <= h < |s.handlers| ==> s.handlers[h].at.Served? || s.handlers[h].at.Rejected?) ==>
            && (served == n ==> (byCount <==> true !in s.counter.disconnects))
            && (s.closed ==> served == n || exists e :: 0 <= e < |s.exits| && s.exits[e].why != CallsExhausted)
            && (s.main.Serving? && served == n ==> s.closed))
  {
    var s0 := Init(armed, mode, tools);
    InitOk(armed, mode, tools);
    RunKeepsSeq(s0, n, steps);
    RunCounts(s0, steps);
    var s := Run(s0, steps);
    TallyBounds(s, n);
    SameCount(s.records, IsServed, (r: Record) => r.Read? && r.served);
    NoTrues(s.counter.disconnects);
  }

  // ----- After the close -----------------------------------------------------------------

  /** A call that finds serving closed, or has not looked yet. */
  predicate TurnedAway(x: Handler) {
    x.got.None? && (x.at.Arrived? || x.at.Refusing? || x.at.Refused? || x.at.Rejected?)
  }

  lemma {:induction false} ClosedServesNothing(s0: State, steps: seq<Step>, h: nat)
    requires EntriesOk(s0.tools) && s0.closed && h < |s0.handlers| && TurnedAway(s0.handlers[h])
    ensures var s := Run(s0, steps); s.closed && h < |s.handlers| && TurnedAway(s.handlers[h])
  {
    if steps != [] {
      var front, step := steps[..|steps| - 1], steps[|steps| - 1];
      ClosedServesNothing(s0, front, h);
      var s := Run(s0, front);
      if step.Handle? && step.h < |s.handlers| {
        assert Apply(s, step).handlers[h] == if !s.ended && h == step.h then NextHandler(s, s.handlers[h], step.execOk) else s.handlers[h];
      }
    }
  }
}
