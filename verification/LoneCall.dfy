/** A handler of the concurrent server that nothing interrupts does what the one-threaded call does. */
module LoneCall {
  import opened Wrappers
  import opened Lifecycle
  import opened Tools
  import opened Exit
  import opened OneAtATime
  import Server
  import Counter

  /** The concurrent state, as a call sees it; exit calls stand for exit threads. */
  function ViewOf(s: State): Server.View {
    Server.View(s.counter.mode, s.counter.remaining, s.counter.fired, s.closed, s.records, |s.exits|)
  }

  /** Handler h, moving alone from s0, gets to s. */
  ghost predicate Reaches(s0: State, h: nat, execOk: bool, s: State)
    requires EntriesOk(s0.tools)
  {
    exists turns: nat :: Drive(s0, h, execOk, turns) == s
  }

  lemma Reach(s0: State, h: nat, execOk: bool, s: State, t: State)
    requires EntriesOk(s0.tools) && EntriesOk(s.tools)
    requires Reaches(s0, h, execOk, s) && t == Apply(s, Handle(h, execOk))
    ensures Reaches(s0, h, execOk, t)
  {
    var turns: nat :| Drive(s0, h, execOk, turns) == s;
    assert Drive(s0, h, execOk, turns + 1) == t;
  }

  /** Only handler h differs, and it stands at x. */
  function With(s: State, h: nat, x: Handler): State
    requires h < |s.handlers|
  {
    s.(handlers := s.handlers[h := x])
  }

  /** A step that touches nothing but the handler itself. */
  lemma QuietStep(s0: State, s: State, h: nat, x: Handler, execOk: bool)
    requires EntriesOk(s0.tools) && EntriesOk(s.tools) && h < |s.handlers| && !s.ended
    requires !x.at.Closing? && !x.at.Spawning? && !x.at.Holding? && !x.at.Counting? && NewRecords(x.at) == []
    requires Reaches(s0, h, execOk, With(s, h, x))
    ensures Reaches(s0, h, execOk, With(s, h, NextHandler(s, x, execOk)))
  {
    assert s.records + [] == s.records && s.exits + [] == s.exits;
    Reach(s0, h, execOk, With(s, h, x), With(s, h, NextHandler(s, x, execOk)));
  }

  /** A handler at its end with a refusal or a failure to record. */
  lemma UnservedStep(s0: State, s: State, h: nat, x: Handler, execOk: bool)
    requires EntriesOk(s0.tools) && EntriesOk(s.tools) && h < |s.handlers| && !s.ended
    requires x.at.Refused? || x.at.Failed?
    requires Reaches(s0, h, execOk, With(s, h, x))
    ensures Reaches(s0, h, execOk, With(s, h, x.(at := Rejected)).(records := s.records + [Read(x.at.d.0, x.at.d.1, false)]))
  {
    assert s.exits + [] == s.exits;
    Reach(s0, h, execOk, With(s, h, x), With(s, h, x.(at := Rejected)).(records := s.records + [Read(x.at.d.0, x.at.d.1, false)]));
  }

  /** A closed server refuses, recording a known name. */
  lemma ClosedCall(s0: State, s: State, h: nat, name: string, execOk: bool)
    requires EntriesOk(s0.tools) && EntriesOk(s.tools) && h < |s.handlers| && !s.ended && !s.locked && s.closed
    requires Reaches(s0, h, execOk, With(s, h, Handler(name, Arrived, None)))
    ensures Reaches(s0, h, execOk, With(s, h, Handler(name, Rejected, None)).(
                      records := Server.Unserved(ViewOf(s), DescribeIn(s.tools, name)).records))
  {
    QuietStep(s0, s, h, Handler(name, Arrived, None), execOk);
    QuietStep(s0, s, h, Handler(name, Refusing, None), execOk);
    var d := DescribeIn(s.tools, name);
    if d.Some? {
      UnservedStep(s0, s, h, Handler(name, At.Refused(d.value), None), execOk);
    } else {
      assert With(s, h, Handler(name, Rejected, None)).(records := s.records) == With(s, h, Handler(name, Rejected, None));
    }
  }

  // ----- Serving -------------------------------------------------------------------------

  /** The handler, its read recorded, counting with the counter at c. */
  function Tallying(s: State, h: nat, x: Handler, d: (nat, ReadKind), c: Counter.State): State
    requires h < |s.handlers|
  {
    With(s, h, x.(at := Counting(|s.counter.calls|))).(records := s.records + [Read(d.0, d.1, true)], counter := c)
  }

  lemma Begins(s0: State, s: State, h: nat, x: Handler, execOk: bool)
    requires EntriesOk(s0.tools) && EntriesOk(s.tools) && h < |s.handlers| && !s.ended && x.at.Holding?
    requires Reaches(s0, h, execOk, With(s, h, x))
    ensures Reaches(s0, h, execOk, Tallying(s, h, x, x.at.d, Counter.Apply(s.counter, Counter.Begin)))
  {
    assert s.exits + [] == s.exits;
    Reach(s0, h, execOk, With(s, h, x), Tallying(s, h, x, x.at.d, Counter.Apply(s.counter, Counter.Begin)));
  }

  lemma Tallies(s0: State, s: State, h: nat, x: Handler, d: (nat, ReadKind), c: Counter.State, execOk: bool)
    requires EntriesOk(s0.tools) && EntriesOk(s.tools) && h < |s.handlers| && !s.ended
    requires |s.counter.calls| < |c.calls| && !c.calls[|s.counter.calls|].pc.Returned?
    requires Reaches(s0, h, execOk, Tallying(s, h, x, d, c))
    ensures Reaches(s0, h, execOk, Tallying(s, h, x, d, Counter.Apply(c, Counter.Advance(|s.counter.calls|))))
  {
    var t := Tallying(s, h, x, d, c);
    assert t.exits + [] == t.exits && t.records + [] == t.records;
    assert t.handlers[h := t.handlers[h]] == t.handlers;
    Reach(s0, h, execOk, t, Tallying(s, h, x, d, Counter.Apply(c, Counter.Advance(|s.counter.calls|))));
  }

  /** The call counted: served, and closed with an exit begun when the count said so. */
  function Finished(s: State, h: nat, x: Handler, d: (nat, ReadKind), c: Counter.State, fire: bool): State
    requires h < |s.handlers|
  {
    With(s, h, x.(at := Served)).(
      records := s.records + [Read(d.0, d.1, true)], counter := c,
      closed := s.closed || fire, exits := s.exits + (if fire then [Arriving(CallsExhausted)] else []))
  }

  lemma Decides(s0: State, t: State, h: nat, k: nat, execOk: bool)
    requires EntriesOk(s0.tools) && EntriesOk(t.tools) && h < |t.handlers| && !t.ended
    requires t.handlers[h].at == Counting(k) && k < |t.counter.calls| && t.counter.calls[k].pc.Returned?
    requires Reaches(s0, h, execOk, t)
    ensures Reaches(s0, h, execOk,
              With(t, h, t.handlers[h].(at := if t.counter.calls[k].pc.outcome == Counter.Last(true) then Closing else Served)))
  {
    var fire := t.counter.calls[k].pc.outcome == Counter.Last(true);
    assert t.exits + [] == t.exits && t.records + [] == t.records;
    Reach(s0, h, execOk, t, With(t, h, t.handlers[h].(at := if fire then Closing else Served)));
  }

  lemma Closes(s0: State, t: State, h: nat, execOk: bool)
    requires EntriesOk(s0.tools) && EntriesOk(t.tools) && h < |t.handlers| && !t.ended && t.handlers[h].at.Closing?
    requires Reaches(s0, h, execOk, t)
    ensures Reaches(s0, h, execOk,
              With(t, h, t.handlers[h].(at := Served)).(closed := true, exits := t.exits + [Arriving(CallsExhausted)]))
  {
    var t1 := With(t, h, t.handlers[h].(at := Spawning)).(closed := true);
    var t2 := With(t, h, t.handlers[h].(at := Served)).(closed := true, exits := t.exits + [Arriving(CallsExhausted)]);
    assert t.exits + [] == t.exits && t.records + [] == t.records;
    Reach(s0, h, execOk, t, t1);
    assert t1.handlers[h := t2.handlers[h]] == t2.handlers;
    Reach(s0, h, execOk, t1, t2);
  }

  lemma Finishes(s0: State, s: State, h: nat, x: Handler, d: (nat, ReadKind), c: Counter.State, execOk: bool)
    requires EntriesOk(s0.tools) && EntriesOk(s.tools) && h < |s.handlers| && !s.ended
    requires |s.counter.calls| < |c.calls| && c.calls[|s.counter.calls|].pc.Returned?
    requires Reaches(s0, h, execOk, Tallying(s, h, x, d, c))
    ensures Reaches(s0, h, execOk, Finished(s, h, x, d, c, c.calls[|s.counter.calls|].pc.outcome == Counter.Last(true)))
  {
    var k := |s.counter.calls|;
    var t := Tallying(s, h, x, d, c);
    Decides(s0, t, h, k, execOk);
    if c.calls[k].pc.outcome == Counter.Last(true) {
      var t1 := With(t, h, t.handlers[h].(at := Closing));
      Closes(s0, t1, h, execOk);
      assert t1.handlers[h := x.(at := Served)] == s.handlers[h := x.(at := Served)];
    } else {
      assert With(t, h, t.handlers[h].(at := Served)).handlers == s.handlers[h := x.(at := Served)];
      assert s.exits + [] == s.exits;
    }
  }

  /** The counter after a whole uninterrupted call. */
  function Counted(c: Counter.State): Counter.State {
    var k := |c.calls|;
    Counter.Apply(Counter.Apply(Counter.Apply(Counter.Apply(c, Counter.Begin),
      Counter.Advance(k)), Counter.Advance(k)), Counter.Advance(k))
  }

  lemma CountsDown(s0: State, s: State, h: nat, x: Handler, execOk: bool)
    requires EntriesOk(s0.tools) && EntriesOk(s.tools) && h < |s.handlers| && !s.ended && x.at.Holding?
    requires Reaches(s0, h, execOk, With(s, h, x))
    ensures Reaches(s0, h, execOk, Tallying(s, h, x, x.at.d, Counted(s.counter)))
  {
    var k, d := |s.counter.calls|, x.at.d;
    var c0 := Counter.Apply(s.counter, Counter.Begin);
    var c1 := Counter.Apply(c0, Counter.Advance(k));
    var c2 := Counter.Apply(c1, Counter.Advance(k));
    Begins(s0, s, h, x, execOk);
    Tallies(s0, s, h, x, d, c0, execOk);
    if !c1.calls[k].pc.Returned? {
      Tallies(s0, s, h, x, d, c1, execOk);
      if !c2.calls[k].pc.Returned? {
        Tallies(s0, s, h, x, d, c2, execOk);
      }
    }
  }

  /** From holding a value, a lone handler ends served, and the view is that of a completed call. */
  lemma Completes(s0: State, s: State, h: nat, x: Handler, execOk: bool) returns (f: State)
    requires EntriesOk(s0.tools) && EntriesOk(s.tools) && h < |s.handlers| && !s.ended && x.at.Holding?
    requires Reaches(s0, h, execOk, With(s, h, x))
    ensures Reaches(s0, h, execOk, f) && |f.handlers| == |s.handlers| && f.handlers[h] == x.(at := Served)
    ensures ViewOf(f) == Server.Completed(ViewOf(s), x.at.d)
  {
    var k, c := |s.counter.calls|, Counted(s.counter);
    Counter.UninterruptedCall(s.counter);
    CountsDown(s0, s, h, x, execOk);
    CounterKeepsMode(s.counter);
    Finishes(s0, s, h, x, x.at.d, c, execOk);
    f := Finished(s, h, x, x.at.d, c, c.calls[k].pc.outcome == Counter.Last(true));
  }

  lemma CounterKeepsMode(c: Counter.State)
    ensures Counted(c).mode == c.mode
  {
  }

  // ----- The whole call ---------------------------------------------------------------------

  /** What a handler ends with, as an answer. */
  function AnswerOf(x: Handler, wasClosed: bool): Server.Answer {
    if x.at.Served? then
      if x.got.Some? && x.got.value.StaticAction? then Server.Text(x.got.value.bytes) else Server.Output
    else if wasClosed then Server.Refused
    else if x.got.None? then Server.Unknown
    else Server.Failed
  }

  lemma OpenCall(s0: State, h: nat, name: string, execOk: bool) returns (f: State)
    requires EntriesOk(s0.tools) && h < |s0.handlers| && !s0.ended && !s0.locked && !s0.closed
    requires Reaches(s0, h, execOk, With(s0, h, Handler(name, Arrived, None)))
    ensures Reaches(s0, h, execOk, f) && h < |f.handlers| && Done(f.handlers[h])
    ensures (AnswerOf(f.handlers[h], false), ViewOf(f)) == Server.CallOutcome(ViewOf(s0), s0.tools, name, execOk)
  {
    QuietStep(s0, s0, h, Handler(name, Arrived, None), execOk);
    QuietStep(s0, s0, h, Handler(name, Looking, None), execOk);
    var x := LookUp(s0.tools, Handler(name, Looking, None));
    if x.at.Running? {
      QuietStep(s0, s0, h, x, execOk);
      x := NextHandler(s0, x, execOk);
    }
    if x.at.Holding? {
      f := Completes(s0, s0, h, x, execOk);
    } else if x.at.Failed? {
      UnservedStep(s0, s0, h, x, execOk);
      f := With(s0, h, x.(at := Rejected)).(records := s0.records + [Read(x.at.d.0, x.at.d.1, false)]);
    } else {
      f := With(s0, h, x);
    }
  }

  /** Alone, a request ends with the answer and the state of the one-threaded call. */
  lemma LoneCallAgrees(s: State, name: string, execOk: bool) returns (turns: nat)
    requires EntriesOk(s.tools) && !s.ended && !s.locked && s.main.Serving?
    ensures var h, t := |s.handlers|, Drive(Apply(s, Request(name)), |s.handlers|, execOk, turns);
      && h < |t.handlers| && Done(t.handlers[h])
      && (AnswerOf(t.handlers[h], s.closed), ViewOf(t)) == Server.CallOutcome(ViewOf(s), s.tools, name, execOk)
  {
    var h, s0 := |s.handlers|, Apply(s, Request(name));
    var x := Handler(name, Arrived, None);
    assert s0 == s.(handlers := s.handlers + [x]) by {
      assert s.exits + [] == s.exits;
    }
    assert Drive(s0, h, execOk, 0) == s0 == With(s0, h, x);
    var f: State;
    if s.closed {
      ClosedCall(s0, s0, h, name, execOk);
      f := With(s0, h, Handler(name, Rejected, None)).(
        records := Server.Unserved(ViewOf(s0), DescribeIn(s0.tools, name)).records);
    } else {
      f := OpenCall(s0, h, name, execOk);
    }
    turns :| Drive(s0, h, execOk, turns) == f;
  }
}
