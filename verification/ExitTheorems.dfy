/** What holds in every run of the one-shot server, and in every run that dispatches one call at a time. */
module ExitTheorems {
  import opened Wrappers
  import opened Lifecycle
  import opened Bytes
  import opened Tools
  import opened Exit
  import opened Counting
  import opened ExitInv
  import Counter

  // ----- Every run ------------------------------------------------------------------------

  lemma {:induction false} RunWinner(s0: State, tools: seq<Entry>, steps: seq<Step>)
    requires EntriesOk(tools) && EntriesOk(s0.tools) && WinnerInv(s0, tools, None)
    ensures exists w: Option<nat> :: WinnerInv(Run(s0, steps), tools, w)
  {
    if steps != [] {
      var s := Run(s0, steps[..|steps| - 1]);
      RunWinner(s0, tools, steps[..|steps| - 1]);
      var w: Option<nat> :| WinnerInv(s, tools, w);
      StepKeepsWinner(s, tools, w, steps[|steps| - 1]);
      var w1: Option<nat> :| WinnerInv(Apply(s, steps[|steps| - 1]), tools, w1);
      assert WinnerInv(Run(s0, steps), tools, w1);
    } else {
      assert WinnerInv(Run(s0, steps), tools, None);
    }
  }

  lemma StepKeepsGot(s: State, tools: seq<Entry>, step: Step)
    requires EntriesOk(s.tools) && EntriesOk(tools) && EntriesOk(Wiped(tools))
    requires GotInv(s, tools) && exists w: Option<nat> :: WinnerInv(s, tools, w)
    ensures GotInv(Apply(s, step), tools)
  {
    var w: Option<nat> :| WinnerInv(s, tools, w);
    if step.Handle? && step.h < |s.handlers| {
      assert GotOk(tools, s.handlers[step.h]);
      if !s.locked {
        UnlockedToolsAreWhole(s, tools, w);
      }
      NextHandlerGot(s, tools, s.handlers[step.h], step.execOk);
    }
  }

  lemma {:induction false} RunGot(s0: State, tools: seq<Entry>, steps: seq<Step>)
    requires EntriesOk(tools) && EntriesOk(Wiped(tools)) && EntriesOk(s0.tools) && WinnerInv(s0, tools, None)
    requires s0.handlers == []
    ensures GotInv(Run(s0, steps), tools)
  {
    if steps != [] {
      RunGot(s0, tools, steps[..|steps| - 1]);
      RunWinner(s0, tools, steps[..|steps| - 1]);
      StepKeepsGot(Run(s0, steps[..|steps| - 1]), tools, steps[|steps| - 1]);
    }
  }

  lemma ModeKept(s: State, step: Step)
    requires EntriesOk(s.tools)
    ensures Apply(s, step).counter.mode == s.counter.mode
  {
    if step.Handle? && step.h < |s.handlers| && s.handlers[step.h].at.Counting? {
      CounterMoves(s.counter, Counter.Advance(s.handlers[step.h].at.call));
    }
  }

  lemma StepKeepsCounts(s: State, step: Step)
    requires EntriesOk(s.tools) && CountInv(s)
    ensures CountInv(Apply(s, step))
  {
    if s.ended || (step.Handle? && step.h >= |s.handlers|) || (step.ExitStep? && step.e >= |s.exits|) {
      assert Apply(s, step) == s;
    } else if step.Handle? {
      HandlerKeepsCounts(s, step.h, step.execOk);
    } else if step.ExitStep? {
      ExitKeepsCounts(s, step.e);
    } else {
      OutsideKeepsCounts(s, step);
    }
  }

  lemma {:induction false} RunCounts(s0: State, steps: seq<Step>)
    requires EntriesOk(s0.tools) && CountInv(s0)
    ensures CountInv(Run(s0, steps)) && Run(s0, steps).counter.mode == s0.counter.mode
  {
    if steps != [] {
      RunCounts(s0, steps[..|steps| - 1]);
      StepKeepsCounts(Run(s0, steps[..|steps| - 1]), steps[|steps| - 1]);
      ModeKept(Run(s0, steps[..|steps| - 1]), steps[|steps| - 1]);
    }
  }

  lemma InitOk(armed: bool, mode: Counter.Mode, tools: seq<Entry>)
    ensures WinnerInv(Init(armed, mode, tools), tools, None)
    ensures CountInv(Init(armed, mode, tools))
  {
  }

  predicate Story(s: State, tools: seq<Entry>, why: Reason) {
    var story := [Wipe(why, CountU32(StaticCountIn(tools))), FinalRecord(s.armed, why)];
    && NonReads(s.records) <= story
    && (s.ended ==> NonReads(s.records) == story && s.tools == Wiped(tools))
    && (s.tools != tools || NonReads(s.records) != [] ==> s.closed)
    && (forall e1, e2 ::
          0 <= e1 < |s.exits| && 0 <= e2 < |s.exits| && s.exits[e1].Winning? && s.exits[e2].Winning? ==> e1 == e2)
    && (forall e :: 0 <= e < |s.exits| && s.exits[e].Winning? ==> s.exits[e].why == why)
  }

  lemma WinnerTellsStory(s: State, tools: seq<Entry>, w: Option<nat>)
    requires WinnerInv(s, tools, w)
    ensures Story(s, tools, if w.Some? then s.exits[w.value].why else Shutdown)
  {
  }

  lemma RunTellsStory(armed: bool, mode: Counter.Mode, tools: seq<Entry>, steps: seq<Step>) returns (why: Reason)
    requires EntriesOk(tools)
    ensures Story(Run(Init(armed, mode, tools), steps), tools, why)
    ensures Run(Init(armed, mode, tools), steps).armed == armed
  {
    InitOk(armed, mode, tools);
    RunWinner(Init(armed, mode, tools), tools, steps);
    var s := Run(Init(armed, mode, tools), steps);
    var w: Option<nat> :| WinnerInv(s, tools, w);
    WinnerTellsStory(s, tools, w);
    ArmedStays(Init(armed, mode, tools), steps);
    why := if w.Some? then s.exits[w.value].why else Shutdown;
  }

  lemma {:induction false} ArmedStays(s0: State, steps: seq<Step>)
    requires EntriesOk(s0.tools)
    ensures Run(s0, steps).armed == s0.armed
  {
    if steps != [] {
      ArmedStays(s0, steps[..|steps| - 1]);
    }
  }

  /**
   One exit call wins; it closes serving before it touches a tool; its reason is on the one
   wipe record and on the one record that follows it, a kill when armed and a session end
   when not; and the process ends with every static value zeroed.
   */
  lemma ExitTellsOneStory(armed: bool, mode: Counter.Mode, tools: seq<Entry>, steps: seq<Step>) returns (why: Reason)
    requires EntriesOk(tools)
    ensures var s := Run(Init(armed, mode, tools), steps);
      var statics := |set i | 0 <= i < |tools| && tools[i].held.HeldStatic?|;
      var wipe := Wipe(why, if statics <= 0xFFFF_FFFF then statics else 0xFFFF_FFFF);
      var final := if armed then Kill(why, SelfProcess, 1, true) else SessionEnd(why);
      && NonReads(s.records) <= [wipe, final]
      && (s.tools != tools || NonReads(s.records) != [] ==> s.closed)
      && (forall e1, e2 ::
            0 <= e1 < |s.exits| && 0 <= e2 < |s.exits| && s.exits[e1].Winning? && s.exits[e2].Winning? ==> e1 == e2)
      && (forall e :: 0 <= e < |s.exits| && s.exits[e].Winning? ==> s.exits[e].why == why)
      && (s.ended ==>
            && NonReads(s.records) == [wipe, final] && |s.tools| == |tools|
            && forall i, k :: 0 <= i < |tools| && s.tools[i].held.HeldStatic? && 0 <= k < |s.tools[i].held.bytes| ==>
                 s.tools[i].held.bytes[k] == 0)
  {
    why := RunTellsStory(armed, mode, tools, steps);
    CountsStatics(tools);
  }

  /** Each lookup yields the configured value of the first tool of that name, whole, or zeros of its length: never a mix. */
  lemma LookupsAreWhole(armed: bool, mode: Counter.Mode, tools: seq<Entry>, steps: seq<Step>, h: nat) returns (i: nat)
    requires EntriesOk(tools)
    requires h < |Run(Init(armed, mode, tools), steps).handlers|
    requires Run(Init(armed, mode, tools), steps).handlers[h].got.Some?
    ensures var x := Run(Init(armed, mode, tools), steps).handlers[h];
      && i < |tools| && tools[i].name == x.name && (forall j :: 0 <= j < i ==> tools[j].name != x.name)
      && match tools[i].held
         case HeldStatic(bytes, len) =>
           && x.got.value.StaticAction? && len <= |bytes|
           && (x.got.value.bytes == bytes[..len]
               || (|x.got.value.bytes| == len && forall k :: 0 <= k < len ==> x.got.value.bytes[k] == 0))
         case HeldExec(cmd) => x.got.value == ExecAction(cmd)
  {
    var x := Run(Init(armed, mode, tools), steps).handlers[h];
    InitOk(armed, mode, tools);
    WipedLookup(tools, x.name);
    RunGot(Init(armed, mode, tools), tools, steps);
    assert GotOk(tools, x);
    NotNamed(tools, x.name);
    NotNamed(Wiped(tools), x.name);
    i := Position(tools, x.name).value;
    FirstNamed(tools, x.name, i);
  }

  // ----- Why an exit begins ---------------------------------------------------------------

  ghost predicate Due(exits: seq<Exit>, why: Reason) {
    exists e :: 0 <= e < |exits| && exits[e].why == why
  }

  /** A step keeps the reasons there are and adds at most one. */
  lemma ExitsGrow(s: State, step: Step) returns (added: seq<Reason>)
    requires EntriesOk(s.tools) && !s.ended
    ensures var t := Apply(s, step);
      && |t.exits| == |s.exits| + |added|
      && (forall e :: 0 <= e < |s.exits| ==> t.exits[e].why == s.exits[e].why)
      && (forall e :: 0 <= e < |added| ==> t.exits[|s.exits| + e].why == added[e])
    ensures added == [] || added == [CallsExhausted] || added == [ClientDisconnect] || added == [DaemonLost]
    ensures added == [DaemonLost] <==> step == MonitorDown
    ensures Apply(s, step).main.Leaving? <==> s.main.Leaving? || added == [ClientDisconnect]
  {
    added := match step
      case Handle(h, _) => if h < |s.handlers| && s.handlers[h].at.Spawning? then [CallsExhausted] else []
      case MonitorDown => [DaemonLost]
      case MainStep => if s.main.Disconnected? then [ClientDisconnect] else []
      case _ => [];
  }

  lemma DueGrows(a: seq<Exit>, b: seq<Exit>, added: seq<Reason>, why: Reason)
    requires |b| == |a| + |added| && |added| <= 1
    requires forall e :: 0 <= e < |a| ==> b[e].why == a[e].why
    requires forall e :: 0 <= e < |added| ==> b[|a| + e].why == added[e]
    ensures Due(b, why) <==> Due(a, why) || added == [why]
  {
    if Due(a, why) {
      var e :| 0 <= e < |a| && a[e].why == why;
      assert b[e].why == why;
    } else if added == [why] {
      assert added[0] == why;
      assert b[|a|].why == why;
    }
  }

  lemma ReasonsGrow(a: seq<Exit>, b: seq<Exit>, added: seq<Reason>)
    requires |b| == |a| + |added|
    requires forall e :: 0 <= e < |a| ==> b[e].why == a[e].why
    requires forall e :: 0 <= e < |added| ==> b[|a| + e].why == added[e]
    ensures forall e :: |a| <= e < |b| ==> b[e].why in added
    ensures forall e :: 0 <= e < |a| ==> b[e].why == a[e].why
  {
    forall e | |a| <= e < |b| ensures b[e].why in added {
      assert b[|a| + (e - |a|)].why == added[e - |a|];
    }
  }

  ghost predicate Explained(exits: seq<Exit>, leaving: bool, ended: bool, down: bool) {
    && (forall e :: 0 <= e < |exits| ==> exits[e].why in {CallsExhausted, ClientDisconnect, DaemonLost})
    && (Due(exits, ClientDisconnect) <==> leaving)
    && (Due(exits, DaemonLost) ==> down)
    && (down && !ended ==> Due(exits, DaemonLost))
  }

  lemma GrowthExplained(a: seq<Exit>, b: seq<Exit>, added: seq<Reason>, leaving: bool, ended: bool, down: bool)
    requires Explained(a, leaving, false, down) && |b| == |a| + |added|
    requires forall e :: 0 <= e < |a| ==> b[e].why == a[e].why
    requires forall e :: 0 <= e < |added| ==> b[|a| + e].why == added[e]
    requires added == [] || added == [CallsExhausted] || added == [ClientDisconnect] || added == [DaemonLost]
    ensures Explained(b, leaving || added == [ClientDisconnect], ended, down || added == [DaemonLost])
  {
    DueGrows(a, b, added, ClientDisconnect);
    DueGrows(a, b, added, DaemonLost);
    ReasonsGrow(a, b, added);
  }

  lemma StepExplains(s: State, step: Step, down: bool)
    requires EntriesOk(s.tools) && Explained(s.exits, s.main.Leaving?, s.ended, down)
    ensures var t := Apply(s, step); Explained(t.exits, t.main.Leaving?, t.ended, down || step == MonitorDown)
  {
    if !s.ended {
      var added := ExitsGrow(s, step);
      var t := Apply(s, step);
      GrowthExplained(s.exits, t.exits, added, s.main.Leaving?, t.ended, down);
    }
  }

  /** Only the main thread, moving on from its serve call, counts a disconnect. */
  lemma StepDisconnects(s: State, step: Step)
    requires EntriesOk(s.tools)
    ensures |Apply(s, step).counter.disconnects|
         == |s.counter.disconnects| + (if !s.ended && step.MainStep? && s.main.Serving? then 1 else 0)
    ensures Apply(s, step).main.Serving? <==> s.main.Serving? && (s.ended || !step.MainStep?)
  {
    if step.Handle? && step.h < |s.handlers| && s.handlers[step.h].at.Counting? {
      CounterMoves(s.counter, Counter.Advance(s.handlers[step.h].at.call));
      HandlersLeaveDisconnects(s.counter, Counter.Advance(s.handlers[step.h].at.call));
    }
  }

  lemma HandlersLeaveDisconnects(c: Counter.State, step: Counter.Step)
    requires !step.Disconnect?
    ensures Counter.Apply(c, step).disconnects == c.disconnects
  {
  }

  /**
   Why the process can come to an end: a disconnected client, exactly once the main thread is
   leaving; a lost daemon, exactly if the monitor saw it go before the end; or spent calls.
   */
  lemma {:induction false} ExitsHaveReasons(armed: bool, mode: Counter.Mode, tools: seq<Entry>, steps: seq<Step>)
    requires EntriesOk(tools)
    ensures var s := Run(Init(armed, mode, tools), steps);
      && (forall e :: 0 <= e < |s.exits| ==> s.exits[e].why in {CallsExhausted, ClientDisconnect, DaemonLost})
      && ((exists e :: 0 <= e < |s.exits| && s.exits[e].why == ClientDisconnect) <==> s.main.Leaving?)
      && ((exists e :: 0 <= e < |s.exits| && s.exits[e].why == DaemonLost) ==> MonitorDown in steps)
      && (MonitorDown in steps && !s.ended ==> exists e :: 0 <= e < |s.exits| && s.exits[e].why == DaemonLost)
      && |s.counter.disconnects| == (if s.main.Serving? then 0 else 1)
  {
    if steps != [] {
      var front, step := steps[..|steps| - 1], steps[|steps| - 1];
      ExitsHaveReasons(armed, mode, tools, front);
      var s := Run(Init(armed, mode, tools), front);
      assert Explained(s.exits, s.main.Leaving?, s.ended, MonitorDown in front);
      StepExplains(s, step, MonitorDown in front);
      StepDisconnects(s, step);
      assert steps == front + [step];
      var t := Run(Init(armed, mode, tools), steps);
      assert Explained(t.exits, t.main.Leaving?, t.ended, MonitorDown in steps);
    }
  }

  lemma SpentWipe(s: State, tools: seq<Entry>, w: Option<nat>, k: nat)
    requires WinnerInv(s, tools, w)
    requires forall e :: 0 <= e < |s.exits| ==> ExitCounts(s.counter, s.exits[e])
    requires k < |s.records| && s.records[k].Wipe? && s.records[k].reason == CallsExhausted
    ensures Spent(s.counter)
  {
    WipeIsNonRead(s.records, k);
    assert w.Some?;
    assert ExitCounts(s.counter, s.exits[w.value]);
  }

  /** A wipe for spent calls means a limit of n > 0 calls, with at least n served reads on record before it. */
  lemma SpentCallsWereServed(armed: bool, mode: Counter.Mode, tools: seq<Entry>, steps: seq<Step>, k: nat) returns (n: nat)
    requires EntriesOk(tools)
    requires k < |Run(Init(armed, mode, tools), steps).records|
    requires Run(Init(armed, mode, tools), steps).records[k].Wipe?
    requires Run(Init(armed, mode, tools), steps).records[k].reason == CallsExhausted
    ensures n > 0 && (mode == Counter.Calls(n) || mode == Counter.Either(n))
    ensures Count(Run(Init(armed, mode, tools), steps).records[..k], (r: Record) => r.Read? && r.served) >= n
  {
    InitOk(armed, mode, tools);
    RunCounts(Init(armed, mode, tools), steps);
    RunWinner(Init(armed, mode, tools), tools, steps);
    var s := Run(Init(armed, mode, tools), steps);
    var w: Option<nat> :| WinnerInv(s, tools, w);
    SpentWipe(s, tools, w, k);
    n := mode.n;
    SameCount(s.records[..k], IsServed, (r: Record) => r.Read? && r.served);
  }

  lemma {:induction false} WipeIsNonRead(rs: seq<Record>, k: nat)
    requires k < |rs| && !rs[k].Read?
    ensures rs[k] in NonReads(rs)
  {
    if k < |rs| - 1 {
      WipeIsNonRead(rs[..|rs| - 1], k);
    }
  }
}
