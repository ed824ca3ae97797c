/** What every step of the one-shot server keeps. */
module ExitInv {
  import opened Wrappers
  import opened Lifecycle
  import opened Bytes
  import opened Tools
  import opened Exit
  import opened Counting
  import Counter

  // ----- The winner of the exit, the lock and the tools -------------------------------------

  /** Records other than reads, in order. */
  function NonReads(rs: seq<Record>): seq<Record> {
    if rs == [] then []
    else
      var last := rs[|rs| - 1];
      NonReads(rs[..|rs| - 1]) + (if last.Read? then [] else [last])
  }

  lemma NonReadsAppend(rs: seq<Record>, r: Record)
    ensures NonReads(rs + [r]) == NonReads(rs) + (if r.Read? then [] else [r])
  {
    assert (rs + [r])[..|rs|] == rs;
  }

  /** Static values zeroed up to byte j of tool i. */
  predicate Partly(orig: seq<Entry>, tools: seq<Entry>, i: nat, j: nat) {
    && |tools| == |orig| && i <= |tools|
    && (forall k :: 0 <= k < i ==> tools[k] == WipedEntry(orig[k]))
    && (forall k :: i < k < |tools| ==> tools[k] == orig[k])
    && (i < |tools| ==>
          match orig[i].held
          case HeldExec(_) => tools[i] == orig[i]
          case HeldStatic(bytes, len) =>
            j <= |bytes| && tools[i] == Entry(orig[i].name, HeldStatic(Zeros(j) + bytes[j..], len)))
  }

  /** What the winner's phase says about the lock, the tools and the records. */
  predicate PhaseOk(orig: seq<Entry>, armed: bool, why: Reason, phase: Phase,
                    closed: bool, locked: bool, tools: seq<Entry>, nonReads: seq<Record>)
  {
    var wipe := Wipe(why, CountU32(StaticCountIn(orig)));
    && (!phase.ToClose? ==> closed)
    && (locked <==> phase.Wiping?)
    && match phase
       case ToClose => tools == orig && nonReads == []
       case ToLock => tools == orig && nonReads == []
       case Wiping(i, j) => Partly(orig, tools, i, j) && nonReads == []
       case ToRecord(buffers) => tools == Wiped(orig) && buffers == CountU32(StaticCountIn(orig)) && nonReads == []
       case ToFinish => tools == Wiped(orig) && nonReads == [wipe]
       case ToDie => tools == Wiped(orig) && nonReads == [wipe, FinalRecord(armed, why)]
  }

  /** At most one exit call has won, and its phase explains the shared state. */
  predicate WinnerInv(s: State, orig: seq<Entry>, w: Option<nat>) {
    && (forall e :: 0 <= e < |s.exits| && s.exits[e].Winning? ==> w == Some(e))
    && (s.exiting <==> w.Some?)
    && (w.None? ==> !s.locked && !s.ended && s.tools == orig && NonReads(s.records) == [])
    && (w.Some? ==>
          && w.value < |s.exits| && s.exits[w.value].Winning?
          && PhaseOk(orig, s.armed, s.exits[w.value].why, s.exits[w.value].phase,
                     s.closed, s.locked, s.tools, NonReads(s.records))
          && (s.ended ==> s.exits[w.value].phase.ToDie?))
  }

  /** Steps that leave the winner alone: they may set `closed`, add exit calls and record reads. */
  lemma BystanderKeeps(s: State, t: State, orig: seq<Entry>, w: Option<nat>)
    requires WinnerInv(s, orig, w)
    requires t.armed == s.armed && t.exiting == s.exiting && t.locked == s.locked && t.tools == s.tools
    requires t.ended == s.ended && (s.closed ==> t.closed)
    requires NonReads(t.records) == NonReads(s.records)
    requires |s.exits| <= |t.exits| && forall e :: 0 <= e < |s.exits| ==> t.exits[e] == s.exits[e]
    requires forall e :: |s.exits| <= e < |t.exits| ==> t.exits[e].Arriving?
    ensures WinnerInv(t, orig, w)
  {
  }

  lemma HandlerKeepsWinner(s: State, orig: seq<Entry>, w: Option<nat>, h: nat, execOk: bool)
    requires h < |s.handlers| && EntriesOk(s.tools) && WinnerInv(s, orig, w)
    ensures WinnerInv(HandlerStep(s, h, execOk), orig, w)
  {
    var t := HandlerStep(s, h, execOk);
    var added := NewRecords(s.handlers[h].at);
    if added != [] {
      NonReadsAppend(s.records, added[0]);
    } else {
      assert t.records == s.records;
    }
    BystanderKeeps(s, t, orig, w);
  }

  lemma WipeStepKeeps(s: State, orig: seq<Entry>, e: nat, i: nat, j: nat)
    requires EntriesOk(orig)
    requires WinnerInv(s, orig, Some(e)) && s.exits[e].phase == Wiping(i, j) && !s.ended
    ensures WinnerInv(ExitAdvance(s, e), orig, Some(e))
  {
    assert s.records + [] == s.records;
    if i >= |s.tools| {
      assert s.tools == Wiped(orig);
      SameKinds(s.tools, orig);
    } else if s.tools[i].held.HeldStatic? && j < |s.tools[i].held.bytes| {
      var bytes := orig[i].held.bytes;
      assert (Zeros(j) + bytes[j..])[j := 0] == Zeros(j + 1) + bytes[j + 1..];
    } else {
      if s.tools[i].held.HeldStatic? {
        assert Zeros(j) + orig[i].held.bytes[j..] == Zeros(|orig[i].held.bytes|);
      }
      if i + 1 < |orig| && orig[i + 1].held.HeldStatic? {
        assert Zeros(0) + orig[i + 1].held.bytes[0..] == orig[i + 1].held.bytes;
      }
    }
  }

  lemma ArrivalKeepsWinner(s: State, orig: seq<Entry>, w: Option<nat>, e: nat)
    requires e < |s.exits| && !s.exits[e].Winning? && WinnerInv(s, orig, w)
    ensures WinnerInv(ExitAdvance(s, e), orig, if s.exits[e].Arriving? && !s.exiting then Some(e) else w)
  {
    assert s.records + [] == s.records;
  }

  lemma LockKeepsWinner(s: State, orig: seq<Entry>, e: nat)
    requires e < |s.exits| && s.exits[e].Winning? && !s.ended
    requires s.exits[e].phase.ToClose? || s.exits[e].phase.ToLock?
    requires WinnerInv(s, orig, Some(e))
    ensures WinnerInv(ExitAdvance(s, e), orig, Some(e))
  {
    assert s.records + [] == s.records;
    if orig != [] && orig[0].held.HeldStatic? {
      assert Zeros(0) + orig[0].held.bytes[0..] == orig[0].held.bytes;
    }
  }

  lemma RecordKeepsWinner(s: State, orig: seq<Entry>, e: nat, buffers: nat)
    requires e < |s.exits| && s.exits[e] == Winning(s.exits[e].why, ToRecord(buffers)) && !s.ended
    requires WinnerInv(s, orig, Some(e))
    ensures WinnerInv(ExitAdvance(s, e), orig, Some(e))
  {
    var why := s.exits[e].why;
    NonReadsAppend(s.records, Wipe(why, buffers));
    assert ExitAdvance(s, e) == s.(exits := s.exits[e := Winning(why, ToFinish)], records := s.records + [Wipe(why, buffers)]);
  }

  lemma FinishKeepsWinner(s: State, orig: seq<Entry>, e: nat)
    requires e < |s.exits| && s.exits[e] == Winning(s.exits[e].why, ToFinish) && !s.ended
    requires WinnerInv(s, orig, Some(e))
    ensures WinnerInv(ExitAdvance(s, e), orig, Some(e))
  {
    var why := s.exits[e].why;
    NonReadsAppend(s.records, FinalRecord(s.armed, why));
    assert ExitAdvance(s, e) == s.(exits := s.exits[e := Winning(why, ToDie)], records := s.records + [FinalRecord(s.armed, why)]);
  }

  lemma DieKeepsWinner(s: State, orig: seq<Entry>, e: nat)
    requires e < |s.exits| && s.exits[e] == Winning(s.exits[e].why, ToDie) && !s.ended
    requires WinnerInv(s, orig, Some(e))
    ensures WinnerInv(ExitAdvance(s, e), orig, Some(e))
  {
    assert s.records + [] == s.records && s.exits[e := s.exits[e]] == s.exits;
    assert ExitAdvance(s, e) == s.(ended := true);
  }

  lemma ExitKeepsWinner(s: State, orig: seq<Entry>, w: Option<nat>, e: nat)
    requires EntriesOk(orig) && e < |s.exits| && !s.ended && WinnerInv(s, orig, w)
    ensures WinnerInv(ExitAdvance(s, e), orig, if s.exits[e].Arriving? && !s.exiting then Some(e) else w)
  {
    if !s.exits[e].Winning? {
      ArrivalKeepsWinner(s, orig, w, e);
    } else if s.exits[e].phase.Wiping? {
      WipeStepKeeps(s, orig, e, s.exits[e].phase.i, s.exits[e].phase.j);
    } else if s.exits[e].phase.ToClose? || s.exits[e].phase.ToLock? {
      LockKeepsWinner(s, orig, e);
    } else if s.exits[e].phase.ToRecord? {
      RecordKeepsWinner(s, orig, e, s.exits[e].phase.buffers);
    } else if s.exits[e].phase.ToFinish? {
      FinishKeepsWinner(s, orig, e);
    } else {
      DieKeepsWinner(s, orig, e);
    }
  }

  function NextWinner(s: State, step: Step, w: Option<nat>): Option<nat> {
    if step.ExitStep? && !s.ended && step.e < |s.exits| && s.exits[step.e].Arriving? && !s.exiting then Some(step.e) else w
  }

  lemma OutsideKeepsWinner(s: State, orig: seq<Entry>, w: Option<nat>, step: Step)
    requires WinnerInv(s, orig, w)
    ensures WinnerInv(Outside(s, step), orig, w)
  {
    BystanderKeeps(s, Outside(s, step), orig, w);
  }

  lemma StepKeepsWinner(s: State, orig: seq<Entry>, w: Option<nat>, step: Step)
    requires EntriesOk(s.tools) && EntriesOk(orig) && WinnerInv(s, orig, w)
    ensures exists w1: Option<nat> :: WinnerInv(Apply(s, step), orig, w1)
  {
    if s.ended {
      assert WinnerInv(Apply(s, step), orig, w);
    } else if step.Handle? && step.h < |s.handlers| {
      HandlerKeepsWinner(s, orig, w, step.h, step.execOk);
      assert WinnerInv(Apply(s, step), orig, w);
    } else if step.ExitStep? && step.e < |s.exits| {
      ExitKeepsWinner(s, orig, w, step.e);
      assert WinnerInv(Apply(s, step), orig, NextWinner(s, step, w));
    } else if step.Request? || step.MonitorDown? || step.MainStep? {
      OutsideKeepsWinner(s, orig, w, step);
      assert WinnerInv(Apply(s, step), orig, w);
    } else {
      assert WinnerInv(Apply(s, step), orig, w);
    }
  }

  // ----- What lookups gave ----------------------------------------------------------------

  predicate GotOk(orig: seq<Entry>, h: Handler)
    requires EntriesOk(orig) && EntriesOk(Wiped(orig))
  {
    h.got.Some? ==> h.got == LookupIn(orig, h.name) || h.got == LookupIn(Wiped(orig), h.name)
  }

  predicate GotInv(s: State, orig: seq<Entry>)
    requires EntriesOk(orig) && EntriesOk(Wiped(orig))
  {
    forall h :: 0 <= h < |s.handlers| ==> GotOk(orig, s.handlers[h])
  }

  /** Whoever takes the lock finds the tools untouched or wiped, never in between. */
  lemma UnlockedToolsAreWhole(s: State, orig: seq<Entry>, w: Option<nat>)
    requires WinnerInv(s, orig, w) && !s.locked
    ensures s.tools == orig || s.tools == Wiped(orig)
  {
  }

  lemma NextHandlerGot(s: State, orig: seq<Entry>, x: Handler, execOk: bool)
    requires EntriesOk(s.tools) && EntriesOk(orig) && EntriesOk(Wiped(orig))
    requires s.locked || s.tools == orig || s.tools == Wiped(orig)
    requires GotOk(orig, x)
    ensures GotOk(orig, NextHandler(s, x, execOk))
  {
    if x.at.Looking? && !s.locked {
      var y := LookUp(s.tools, x);
      assert y.name == x.name && (y.got == x.got || y.got == LookupIn(s.tools, x.name));
    } else {
      assert NextHandler(s, x, execOk).got == x.got && NextHandler(s, x, execOk).name == x.name;
    }
  }

  // ----- Reads, calls and the budget ---------------------------------------------------------

  predicate IsServed(r: Record) {
    r.Read? && r.served
  }

  /** How many served reads a record list holds. */
  function ServedReads(rs: seq<Record>): nat {
    Count(rs, IsServed)
  }

  predicate Spent(c: Counter.State) {
    c.remaining == 0 && Counter.Budget(c.mode) > 0
  }

  predicate HandlerCounts(c: Counter.State, x: Handler) {
    && (x.at.Counting? ==> x.at.call < |c.calls|)
    && (x.at.Closing? || x.at.Spawning? ==> Spent(c))
  }

  predicate ExitCounts(c: Counter.State, e: Exit) {
    e.why == CallsExhausted ==> Spent(c)
  }

  /** A wipe for spent calls comes after the whole budget's worth of served reads. */
  predicate WipeFollowsBudget(budget: nat, rs: seq<Record>) {
    forall k :: 0 <= k < |rs| && rs[k].Wipe? && rs[k].reason == CallsExhausted ==> ServedReads(rs[..k]) >= budget
  }

  predicate CountInv(s: State) {
    && Counter.Inv(s.counter)
    && ServedReads(s.records) == |s.counter.calls|
    && (forall h :: 0 <= h < |s.handlers| ==> HandlerCounts(s.counter, s.handlers[h]))
    && (forall e :: 0 <= e < |s.exits| ==> ExitCounts(s.counter, s.exits[e]))
    && WipeFollowsBudget(Counter.Budget(s.counter.mode), s.records)
  }

  lemma CounterMoves(c: Counter.State, step: Counter.Step)
    ensures var d := Counter.Apply(c, step);
      && d.mode == c.mode && d.remaining <= c.remaining
      && |d.calls| == |c.calls| + (if step.Begin? then 1 else 0)
  {
  }

  /** A call that answers true has brought the counter to zero. */
  lemma TrueMeansSpent(c: Counter.State, k: nat)
    requires Counter.Inv(c) && k < |c.calls| && c.calls[k].pc == Counter.Returned(Counter.Last(true))
    ensures Spent(c)
  {
    if !Spent(c) {
      Counter.CountedIn(c.calls, k, Counter.CLOSER);
    }
  }

  lemma WipeFollowsAppend(budget: nat, rs: seq<Record>, r: Record)
    requires WipeFollowsBudget(budget, rs)
    requires r.Wipe? && r.reason == CallsExhausted ==> ServedReads(rs) >= budget
    ensures WipeFollowsBudget(budget, rs + [r])
  {
    var t := rs + [r];
    assert t[..|rs|] == rs;
    forall k | 0 <= k < |rs| ensures t[..k] == rs[..k] {}
  }

  lemma HandlerCountsKept(s: State, c: Counter.State, x: Handler, execOk: bool)
    requires EntriesOk(s.tools) && Counter.Inv(s.counter) && HandlerCounts(s.counter, x)
    requires c == NextCounter(s.counter, x.at)
    ensures HandlerCounts(c, NextHandler(s, x, execOk))
  {
    match x.at
    case Counting(k) =>
      CounterMoves(s.counter, Counter.Advance(k));
      if s.counter.calls[k].pc == Counter.Returned(Counter.Last(true)) {
        TrueMeansSpent(s.counter, k);
      }
    case Holding(_) => CounterMoves(s.counter, Counter.Begin);
    case _ =>
  }

  lemma CounterKeeps(c: Counter.State, at: At)
    requires Counter.Inv(c)
    ensures var d := NextCounter(c, at);
      Counter.Inv(d) && d.mode == c.mode && d.remaining <= c.remaining
      && |d.calls| == |c.calls| + (if at.Holding? then 1 else 0)
  {
    match at
    case Holding(_) =>
      Counter.StepKeeps(c, Counter.Begin);
      CounterMoves(c, Counter.Begin);
    case Counting(k) =>
      Counter.StepKeeps(c, Counter.Advance(k));
      CounterMoves(c, Counter.Advance(k));
    case _ =>
  }

  lemma HandlerKeepsRecords(s: State, at: At)
    requires WipeFollowsBudget(Counter.Budget(s.counter.mode), s.records)
    ensures WipeFollowsBudget(Counter.Budget(s.counter.mode), s.records + NewRecords(at))
    ensures ServedReads(s.records + NewRecords(at)) == ServedReads(s.records) + (if at.Holding? then 1 else 0)
  {
    var added := NewRecords(at);
    if added != [] {
      CountAppend(s.records, added[0], IsServed);
      WipeFollowsAppend(Counter.Budget(s.counter.mode), s.records, added[0]);
    } else {
      assert s.records + added == s.records;
    }
  }

  lemma HandlerKeepsCounts(s: State, h: nat, execOk: bool)
    requires EntriesOk(s.tools) && h < |s.handlers| && CountInv(s)
    ensures CountInv(HandlerStep(s, h, execOk))
  {
    var x := s.handlers[h];
    var t := HandlerStep(s, h, execOk);
    assert HandlerCounts(s.counter, x);
    HandlerCountsKept(s, t.counter, x, execOk);
    CounterKeeps(s.counter, x.at);
    HandlerKeepsRecords(s, x.at);
  }

  lemma OutsideKeepsCounts(s: State, step: Step)
    requires CountInv(s)
    ensures CountInv(Outside(s, step))
  {
    var t := Outside(s, step);
    if t.counter != s.counter {
      Counter.StepKeeps(s.counter, Counter.Disconnect);
      CounterMoves(s.counter, Counter.Disconnect);
    }
    assert t.records == s.records && |t.counter.calls| == |s.counter.calls|;
    assert forall e :: 0 <= e < |s.exits| ==> t.exits[e] == s.exits[e];
  }

  /** A spent budget means that many served reads are on record. */
  lemma SpentMeansServed(s: State)
    requires CountInv(s) && Spent(s.counter)
    ensures ServedReads(s.records) >= Counter.Budget(s.counter.mode)
  {
    CountBound(s.counter.calls, Counter.TOOK);
  }

  lemma ExitKeepsRecords(s: State, x: Exit)
    requires WipeFollowsBudget(Counter.Budget(s.counter.mode), s.records)
    requires x.why == CallsExhausted ==> ServedReads(s.records) >= Counter.Budget(s.counter.mode)
    ensures WipeFollowsBudget(Counter.Budget(s.counter.mode), s.records + ExitRecords(s.armed, x))
    ensures ServedReads(s.records + ExitRecords(s.armed, x)) == ServedReads(s.records)
  {
    var added := ExitRecords(s.armed, x);
    if added != [] {
      CountAppend(s.records, added[0], IsServed);
      WipeFollowsAppend(Counter.Budget(s.counter.mode), s.records, added[0]);
    } else {
      assert s.records + added == s.records;
    }
  }

  lemma ExitKeepsCounts(s: State, e: nat)
    requires CountInv(s) && e < |s.exits|
    ensures CountInv(ExitAdvance(s, e))
  {
    assert ExitCounts(s.counter, s.exits[e]);
    if s.exits[e].why == CallsExhausted {
      SpentMeansServed(s);
    }
    ExitKeepsRecords(s, s.exits[e]);
    var t := ExitAdvance(s, e);
    assert t.counter == s.counter && t.handlers == s.handlers;
  }
}
