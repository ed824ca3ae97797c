/** Invariant of the main thread: what it believes, what it has done and what it has recorded. */
module MainInv {
  import opened Wrappers
  import opened Lifecycle
  import opened Closures
  import opened Panic
  import opened EventLoop
  import opened Channel
  import opened Protocol
  import ReaderInv
  import Registry

  // ----- What the loop believes --------------------------------------------------

  /** Still in the loop, or before it, with nothing fired. */
  predicate Looping(s: State) {
    !s.main.Acting? && !s.main.Done? && !s.loop.policy.fired
  }

  /** How much of the history the loop's variables reflect. */
  function Handled(s: State): int {
    if s.main.Handling? then s.received - 1 else s.received
  }

  predicate LossTrigger(why: Reason) {
    why == LostHeartbeat || why == MissedPing
  }

  /**
   The loop follows the channel: its generation is the last to connect, and it
   believes that client present until it has handled its loss. Once a client has
   come and gone, a deadline is pending.
   */
  ghost predicate Believes(l: Loop, armed: bool, c: Chan) {
    && l.gen == c.last
    && (l.present <==> c.last in c.open)
    && (l.gen > 0 && !l.present ==> l.policy.deadline.Some?)
    && (l.policy.deadline.Some? ==> armed)
    && (l.policy.deadline.Some? && LossTrigger(l.trigger) ==> !l.present)
    && (LossTrigger(l.trigger) ==> l.gen > 0)
    && l.policy.effects == []
  }

  ghost predicate Tracking(s: State) {
    && Lawful(s.sent) && s.received <= |s.sent|
    && (s.main.Handling? ==> s.received > 0 && s.main.msg == s.sent[s.received - 1])
    && (Looping(s) ==> Believes(s.loop, s.armed, Summary(s.sent[..Handled(s)])))
  }

  lemma EventKeepsBelief(l: Loop, armed: bool, c: Chan, m: Msg, grace: nat, now: nat)
    requires Believes(l, armed, c) && Allowed(c, m) && !l.policy.fired && 0 !in c.open
    requires forall g: nat :: g in c.open ==> g <= c.last
    ensures var l' := AfterEvent(l, m.ev, armed, grace, now);
      Leaves(m.ev).None? && !l'.policy.fired ==> Believes(l', armed, Extend(c, m))
  {
  }

  lemma TakeMessage(s: State)
    requires Tracking(s) && s.main.Handling?
    ensures var before := s.sent[..s.received - 1];
      && Lawful(before) && Allowed(Summary(before), s.main.msg)
      && Summary(s.sent[..s.received]) == Extend(Summary(before), s.main.msg)
      && 0 !in Summary(before).open && forall g: nat :: g in Summary(before).open ==> g <= Summary(before).last
  {
    var before := s.sent[..s.received - 1];
    LawfulPrefix(s.sent, s.received - 1);
    assert s.sent[..s.received][..s.received - 1] == before;
    forall g: nat ensures g in Summary(before).open ==> 1 <= g <= Summary(before).last {
      SummaryMeans(before, g);
    }
  }

  // ----- What it has done and recorded ----------------------------------------------

  function MainRecords(log: seq<Entry>): seq<Record> {
    if log == [] then []
    else
      var e := log[|log| - 1];
      MainRecords(log[..|log| - 1]) + if e.author == MainThread then [e.rec] else []
  }

  lemma RecordsSnoc(log: seq<Entry>, e: Entry)
    ensures MainRecords(log + [e]) == MainRecords(log) + if e.author == MainThread then [e.rec] else []
  {
    assert (log + [e])[..|log|] == log;
  }

  /** What the main thread's records and effects depend on. */
  datatype Story = Story(
    armed: bool, armedAtStart: bool, policy: Policy, trigger: Reason,
    stop: bool, dead: bool, signalled: seq<nat>, zeroed: bool, recs: seq<Record>)

  ghost function StoryOf(s: State): Story {
    Story(s.armed, s.armedAtStart, s.loop.policy, s.loop.trigger,
          s.world.stop, s.world.dead, s.world.signalled, AllZero(s.world.buffers), MainRecords(s.world.log))
  }

  /** Nothing has been done to the world yet. */
  predicate Untouched(y: Story) {
    y.policy.effects == [] && !y.policy.fired && !y.stop && !y.dead && y.signalled == []
  }

  /** The first k records of a whole ending, after the prologue. */
  predicate Part(recs: seq<Record>, armedAtStart: bool, ending: seq<Record>, k: nat) {
    k <= |ending| && recs == Prologue(armedAtStart) + ending[..k]
  }

  /** How many PIDs a rehearsal has recorded it would have killed. */
  function Would(recs: seq<Record>, armedAtStart: bool): nat {
    var k := |Prologue(armedAtStart)| + 1;
    if k < |recs| && recs[k].Kill? then recs[k].count else 0
  }

  // How many records of its ending a plan has written with `left` acts to go.

  function DestructWritten(left: nat): nat {
    if left <= 1 then 3 else if left == 2 then 2 else if left <= 4 then 1 else 0
  }

  function RehearseWritten(left: nat): nat {
    if left == 0 then 4 else if left <= 3 then 3 else if left == 4 then 2 else if left == 5 then 1 else 0
  }

  function LeaveWritten(left: nat): nat {
    if left == 0 then 2 else if left == 1 then 1 else 0
  }

  /** Being destructed: `left` acts of the plan remain. */
  ghost predicate Destructing(y: Story, why: Reason, b: nat, left: nat) {
    && y.armed && y.policy.fired && y.policy.effects == DESTRUCT && why == y.trigger && left <= 5
    && !y.stop && (y.dead <==> left == 0)
    && (left == 5 ==> y.signalled == [])
    && Registry.Wellformed(y.signalled)
    && (left <= 3 ==> y.zeroed)
    && Part(y.recs, y.armedAtStart, ArmedEnding(why, |y.signalled|, b), DestructWritten(left))
  }

  /** Being rehearsed, then cleaned up after: `left` acts of both plans remain. */
  predicate Rehearsing(y: Story, why: Reason, b: nat, left: nat) {
    && y.policy.fired && y.policy.effects == REHEARSE && why == y.trigger && left <= 7
    && (y.stop <==> left <= 2) && !y.dead && y.signalled == []
    && (left <= 6 ==> y.zeroed)
    && Would(y.recs, y.armedAtStart) <= Registry.MAX_REGISTERED
    && Part(y.recs, y.armedAtStart, DryEnding(why, Would(y.recs, y.armedAtStart), b), RehearseWritten(left))
  }

  /** Being cleaned up with nothing fired: `left` acts remain. */
  predicate Leaving(y: Story, why: Reason, b: nat, left: nat) {
    && Untouched(y) && left <= 3 && (why == Shutdown || why == ClientQuit)
    && (left <= 2 ==> y.zeroed)
    && Part(y.recs, y.armedAtStart, CleanEnding(why, b), LeaveWritten(left))
  }

  ghost predicate Telling(main: Main, y: Story, b: nat) {
    match main
    case Boot => y.recs == [] && Untouched(y)
    case Announcing => y.recs == [] && Untouched(y)
    case RecordingArm => y.armedAtStart && y.recs == [SessionStart(true)] && Untouched(y)
    case Top =>
      if y.stop then Rehearsing(y, y.trigger, b, 2)
      else Untouched(y) && y.recs == Prologue(y.armedAtStart)
    case Acting(plan, next, why, leaving) =>
      || (!leaving && plan == DESTRUCT_PLAN && next <= 5 && Destructing(y, why, b, 5 - next))
      || (!leaving && plan == REHEARSE_PLAN && next <= 5 && Rehearsing(y, why, b, 7 - next))
      || (leaving && plan == CleanupPlan(true) && next <= 2 && Rehearsing(y, why, b, 2 - next))
      || (leaving && plan == CleanupPlan(false) && next <= 3 && Leaving(y, why, b, 3 - next))
    case Done(why) => Rehearsing(y, why, b, 0) || Leaving(y, why, b, 0)
    case _ => Untouched(y) && y.recs == Prologue(y.armedAtStart)
  }

  const DESTRUCT_PLAN: seq<Act> := [SignalRegistered, ZeroBuffers, RecordWipe, RecordSelfKill, RaiseKill]
  const REHEARSE_PLAN: seq<Act> :=
    [ZeroBuffers, RecordWipe, RecordWould(Registered), RecordWould(SelfProcess), StoreStop]

  ghost predicate Inv(cfg: Config, s: State) {
    && Tracking(s)
    && Telling(s.main, StoryOf(s), CountU32(|cfg.buffers|))
    && |s.world.buffers| == |cfg.buffers|
    && Registry.Wellformed(s.world.registered)
    && s.loop == Turns(INITIAL, cfg.grace, s.trace)
  }

  /** What every point of the story has in common. */
  lemma StoryFacts(main: Main, y: Story, b: nat)
    requires Telling(main, y, b)
    ensures y.policy.effects == [] || y.policy.effects == DESTRUCT || y.policy.effects == REHEARSE
    ensures y.policy.fired <==> y.policy.effects != []
    ensures y.policy.effects == DESTRUCT ==> y.armed && Registry.Wellformed(y.signalled)
    ensures y.policy.effects != DESTRUCT ==> y.signalled == [] && !y.dead
    ensures y.dead ==> Destructing(y, y.trigger, b, 0)
  {
  }

  // ----- Every step ---------------------------------------------------------------

  lemma OthersTrack(cfg: Config, s: State, t: Step)
    requires Tracking(s) && Enabled(s, t) && !t.Advance? && !t.Receive? && !t.Expire?
    requires Lawful(Apply(cfg, s, t).sent)
    ensures Tracking(Apply(cfg, s, t))
  {
    var v := Apply(cfg, s, t);
    assert v.sent[..Handled(v)] == s.sent[..Handled(s)];
  }

  lemma OthersTell(cfg: Config, s: State, t: Step)
    requires Enabled(s, t) && !t.Advance? && !t.Receive? && !t.Expire?
    ensures var w := Apply(cfg, s, t).world;
      && w.stop == s.world.stop && w.dead == s.world.dead && w.signalled == s.world.signalled
      && w.buffers == s.world.buffers && MainRecords(w.log) == MainRecords(s.world.log)
  {
    if t.RecordArm? {
      RecordsSnoc(s.world.log, Entry(ControlThread, Arm(Control)));
    }
  }

  lemma ArmingTells(main: Main, y: Story, b: nat, armed: bool)
    requires Telling(main, y, b) && (y.armed ==> armed)
    ensures Telling(main, y.(armed := armed), b)
  {
  }

  /** Another thread's step: it can only extend the channel, arm, register and record its arming. */
  lemma OthersKeep(cfg: Config, s: State, t: Step)
    requires Inv(cfg, s) && Enabled(s, t) && !t.Advance? && !t.Receive? && !t.Expire?
    requires Lawful(Apply(cfg, s, t).sent)
    ensures Inv(cfg, Apply(cfg, s, t))
  {
    OthersTrack(cfg, s, t);
    OthersTell(cfg, s, t);
    ArmingTells(s.main, StoryOf(s), CountU32(|cfg.buffers|), Apply(cfg, s, t).armed);
    if t.Register? {
      Registry.AddRefines(s.world.registered, t.pid);
    } else if t.Unregister? {
      Registry.RemoveRefines(s.world.registered, t.pid);
    }
  }

  lemma ReceiveKeeps(cfg: Config, s: State, t: Step)
    requires Inv(cfg, s) && Enabled(s, t) && (t.Receive? || t.Expire?)
    ensures Inv(cfg, Apply(cfg, s, t))
  {
    assert StoryOf(Apply(cfg, s, t)) == StoryOf(s);
  }

  lemma Plans()
    ensures Plan(DESTRUCT) == DESTRUCT_PLAN && Plan(REHEARSE) == REHEARSE_PLAN
  {
    assert DESTRUCT[1..] == [WipeBuffers, KillSelf] && DESTRUCT[1..][1..] == [KillSelf];
    assert REHEARSE[1..] == [DryDone];
  }

  /** Where an input leads, in terms of the loop after it. */
  lemma InputLeads(cfg: Config, s: State)
    requires Enabled(s, Advance) && (s.main.Handling? || s.main.TimedOut?)
    ensures var i := Input(if s.main.Handling? then Some(s.main.msg.ev) else None, s.armed, s.now);
      var v, l := Apply(cfg, s, Advance), Turn(s.loop, cfg.grace, i);
      && v == s.(loop := l, trace := s.trace + [i], main := v.main)
      && (l.policy == Policy(true, l.policy.deadline, [WipeBuffers, DryDone]) ==>
            v.main == Acting([ZeroBuffers, RecordWipe, RecordWould(Registered), RecordWould(SelfProcess), StoreStop],
                             0, l.trigger, false))
      && (l.policy == Policy(true, l.policy.deadline, [KillRegistered, WipeBuffers, KillSelf]) ==>
            v.main == Acting([SignalRegistered, ZeroBuffers, RecordWipe, RecordSelfKill, RaiseKill], 0, l.trigger, false))
      && (!l.policy.fired ==>
            v.main == match i.event
              case Some(Signal(Term)) => Acting([ZeroBuffers, RecordWipe, RecordEnd], 0, Shutdown, true)
              case Some(Signal(Int)) => Acting([ZeroBuffers, RecordWipe, RecordEnd], 0, Shutdown, true)
              case Some(Quit) => Acting([ZeroBuffers, RecordWipe, RecordEnd], 0, ClientQuit, true)
              case _ => Top)
  {
    Plans();
  }

  lemma InputTracks(cfg: Config, s: State)
    requires Inv(cfg, s) && Enabled(s, Advance) && (s.main.Handling? || s.main.TimedOut?)
    ensures Tracking(Apply(cfg, s, Advance))
  {
    if s.main.Handling? {
      TakeMessage(s);
      EventKeepsBelief(s.loop, s.armed, Summary(s.sent[..s.received - 1]), s.main.msg, cfg.grace, s.now);
    }
  }

  /** A turn of an unfired controller fires one of the two ways, or not at all. */
  lemma TurnFires(l: Loop, grace: nat, i: Input)
    requires !l.policy.fired && l.policy.effects == [] && (l.policy.deadline.Some? ==> i.armed)
    ensures var p := Turn(l, grace, i).policy;
      && (p.effects == [] || p.effects == DESTRUCT || p.effects == REHEARSE)
      && (p.fired <==> p.effects != []) && (p.effects == DESTRUCT ==> i.armed)
  {
  }

  lemma PlanTells(y: Story, b: nat)
    requires !y.stop && !y.dead && y.signalled == [] && y.recs == Prologue(y.armedAtStart)
    requires y.policy.fired && (y.policy.effects == REHEARSE || (y.policy.effects == DESTRUCT && y.armed))
    ensures Telling(Acting(Plan(y.policy.effects), 0, y.trigger, false), y, b)
  {
    Plans();
    assert ArmedEnding(y.trigger, 0, b)[..0] == [] && DryEnding(y.trigger, 0, b)[..0] == [];
  }

  /** After an input the loop goes round, or has nothing but a whole plan ahead of it. */
  lemma InputTells(y: Story, l: Loop, grace: nat, i: Input, b: nat)
    requires Untouched(y) && y.recs == Prologue(y.armedAtStart)
    requires l.policy == y.policy && l.trigger == y.trigger && i.armed == y.armed
    requires l.policy.deadline.Some? ==> y.armed
    ensures var l' := Turn(l, grace, i);
      Telling(AfterInput(l', if i.event.Some? then Leaves(i.event.value) else None),
              y.(policy := l'.policy, trigger := l'.trigger), b)
  {
    var l' := Turn(l, grace, i);
    TurnFires(l, grace, i);
    if l'.policy.fired {
      PlanTells(y.(policy := l'.policy, trigger := l'.trigger), b);
    }
  }

  lemma InputKeeps(cfg: Config, s: State)
    requires Inv(cfg, s) && Enabled(s, Advance) && (s.main.Handling? || s.main.TimedOut?)
    ensures Inv(cfg, Apply(cfg, s, Advance))
  {
    var v := Apply(cfg, s, Advance);
    assert v.trace[..|s.trace|] == s.trace;
    var i := v.trace[|s.trace|];
    InputTracks(cfg, s);
    InputTells(StoryOf(s), s.loop, cfg.grace, i, CountU32(|cfg.buffers|));
    assert StoryOf(v) == StoryOf(s).(policy := v.loop.policy, trigger := v.loop.trigger);
  }

  /** What one act does to the story. */
  function ActOn(y: Story, a: Act, why: Reason, reg: seq<nat>, b: nat): Story {
    match a
    case SignalRegistered =>
      y.(signalled := y.signalled + reg, recs := y.recs + [Kill(why, Registered, |reg|, true)])
    case ZeroBuffers => y.(zeroed := true)
    case RecordWipe => y.(recs := y.recs + [Wipe(why, b)])
    case RecordSelfKill => y.(recs := y.recs + [Kill(why, SelfProcess, 1, true)])
    case RaiseKill => y.(dead := true)
    case RecordWould(target) =>
      y.(recs := y.recs + [Kill(why, target, if target == Registered then |reg| else 1, false)])
    case StoreStop => y.(stop := true)
    case RecordEnd => y.(recs := y.recs + [SessionEnd(why)])
  }

  lemma EmitRecords(w: World, r: Record)
    ensures MainRecords(Emit(w, r).log) == MainRecords(w.log) + [r]
  {
    RecordsSnoc(w.log, Entry(MainThread, r));
  }

  lemma PerformTells(w: World, a: Act, why: Reason)
    requires Registry.Wellformed(w.registered)
    ensures var v := Perform(w, a, why);
      && |v.buffers| == |w.buffers| && v.registered == w.registered
      && AllZero(v.buffers) == (a == ZeroBuffers || AllZero(w.buffers))
      && v.dead == (w.dead || a == RaiseKill) && v.stop == (w.stop || a == StoreStop)
      && v.signalled == (if a == SignalRegistered then w.signalled + w.registered else w.signalled)
      && MainRecords(v.log) == MainRecords(w.log) + match a
           case SignalRegistered => [Kill(why, Registered, |w.registered|, true)]
           case RecordWipe => [Wipe(why, CountU32(|w.buffers|))]
           case RecordSelfKill => [Kill(why, SelfProcess, 1, true)]
           case RecordWould(target) => [Kill(why, target, if target == Registered then |w.registered| else 1, false)]
           case RecordEnd => [SessionEnd(why)]
           case _ => []
  {
    var v := Perform(w, a, why);
    if |v.log| > |w.log| {
      EmitRecords(w, v.log[|w.log|].rec);
    }
  }

  lemma ActOnStory(cfg: Config, s: State)
    requires |s.world.buffers| == |cfg.buffers| && Registry.Wellformed(s.world.registered)
    requires Enabled(s, Advance) && s.main.Acting? && s.main.next < |s.main.plan|
    ensures StoryOf(Apply(cfg, s, Advance))
         == ActOn(StoryOf(s), s.main.plan[s.main.next], s.main.why, s.world.registered, CountU32(|cfg.buffers|))
    ensures var w := Apply(cfg, s, Advance).world;
      |w.buffers| == |cfg.buffers| && w.registered == s.world.registered
  {
    PerformTells(s.world, s.main.plan[s.main.next], s.main.why);
  }

  lemma DestructKeeps(y: Story, why: Reason, b: nat, next: nat, reg: seq<nat>)
    requires next < 5 && Destructing(y, why, b, 5 - next) && Registry.Wellformed(reg)
    ensures Destructing(ActOn(y, DESTRUCT_PLAN[next], why, reg, b), why, b, 5 - next - 1)
  {
    if next == 0 {
      assert y.signalled + reg == reg;
    }
  }

  lemma RehearseKeeps(y: Story, why: Reason, b: nat, next: nat, reg: seq<nat>)
    requires next < 7 && Rehearsing(y, why, b, 7 - next) && Registry.Wellformed(reg)
    ensures Rehearsing(ActOn(y, (REHEARSE_PLAN + CleanupPlan(true))[next], why, reg, b), why, b, 7 - next - 1)
  {
    assert REHEARSE_PLAN + CleanupPlan(true)
        == [ZeroBuffers, RecordWipe, RecordWould(Registered), RecordWould(SelfProcess), StoreStop, ZeroBuffers, RecordEnd];
    var z := ActOn(y, (REHEARSE_PLAN + CleanupPlan(true))[next], why, reg, b);
    var p, e := Prologue(y.armedAtStart), DryEnding(why, Would(y.recs, y.armedAtStart), b);
    var f := DryEnding(why, Would(z.recs, y.armedAtStart), b);
    if next == 1 {
      assert y.recs == p + e[..0] && z.recs == p + f[..1];
    } else if next == 2 {
      assert y.recs == p + e[..1] && z.recs == p + f[..2];
    } else if next == 3 {
      assert y.recs == p + e[..2] && z.recs == p + f[..3];
    } else if next == 6 {
      assert y.recs == p + e[..3] && z.recs == p + f[..4];
    }
  }

  /** Only a rehearsal records whom it would have killed, under the trigger's reason. */
  lemma WouldTells(main: Main, y: Story, b: nat)
    requires Telling(main, y, b) && main.Acting? && main.next < |main.plan|
    requires main.plan[main.next] == RecordWould(Registered)
    ensures main.why == y.trigger && y.signalled == []
  {
  }

  lemma LeaveKeeps(y: Story, why: Reason, b: nat, next: nat, reg: seq<nat>)
    requires next < 3 && Leaving(y, why, b, 3 - next)
    ensures Leaving(ActOn(y, CleanupPlan(false)[next], why, reg, b), why, b, 3 - next - 1)
  {
  }

  lemma ActTells(main: Main, y: Story, b: nat, reg: seq<nat>)
    requires Telling(main, y, b) && Registry.Wellformed(reg) && main.Acting? && main.next < |main.plan|
    ensures Telling(main.(next := main.next + 1), ActOn(y, main.plan[main.next], main.why, reg, b), b)
  {
    var plan, why, next := main.plan, main.why, main.next;
    if !main.leaving {
      if plan == DESTRUCT_PLAN && Destructing(y, why, b, 5 - next) {
        DestructKeeps(y, why, b, next, reg);
      } else {
        RehearseKeeps(y, why, b, next, reg);
      }
    } else if plan == CleanupPlan(true) && Rehearsing(y, why, b, 2 - next) {
      RehearseKeeps(y, why, b, 5 + next, reg);
    } else {
      LeaveKeeps(y, why, b, next, reg);
    }
  }

  /** A whole plan done: back to the loop with its stop flag set, or the end. */
  lemma PlanEnds(main: Main, y: Story, b: nat)
    requires Telling(main, y, b) && main.Acting? && main.next >= |main.plan| && !y.dead
    ensures Telling(if main.leaving then Done(main.why) else Top, y, b)
  {
  }

  lemma EndKeeps(cfg: Config, s: State)
    requires Inv(cfg, s) && Enabled(s, Advance) && s.main.Acting? && s.main.next >= |s.main.plan|
    ensures Inv(cfg, Apply(cfg, s, Advance))
  {
    assert StoryOf(Apply(cfg, s, Advance)) == StoryOf(s);
    PlanEnds(s.main, StoryOf(s), CountU32(|cfg.buffers|));
  }

  lemma ActKeeps(cfg: Config, s: State)
    requires Inv(cfg, s) && Enabled(s, Advance) && s.main.Acting? && s.main.next < |s.main.plan|
    ensures Inv(cfg, Apply(cfg, s, Advance))
  {
    var v := Apply(cfg, s, Advance);
    ActOnStory(cfg, s);
    ActTells(s.main, StoryOf(s), CountU32(|cfg.buffers|), s.world.registered);
    assert v.loop == s.loop && v.trace == s.trace && v.sent == s.sent && v.received == s.received;
  }

  lemma AnnounceKeeps(cfg: Config, s: State)
    requires Inv(cfg, s) && Enabled(s, Advance) && (s.main.Announcing? || s.main.RecordingArm?)
    ensures Inv(cfg, Apply(cfg, s, Advance))
  {
    var r := if s.main.Announcing? then SessionStart(s.armedAtStart) else Arm(Startup);
    RecordsSnoc(s.world.log, Entry(MainThread, r));
    assert StoryOf(Apply(cfg, s, Advance)) == StoryOf(s).(recs := MainRecords(s.world.log) + [r]);
  }

  lemma RestKeeps(cfg: Config, s: State)
    requires Inv(cfg, s) && Enabled(s, Advance) && (s.main.Boot? || s.main.Top?)
    ensures Inv(cfg, Apply(cfg, s, Advance))
  {
    var v := Apply(cfg, s, Advance);
    assert StoryOf(v) == StoryOf(s).(armedAtStart := v.armedAtStart);
  }

  lemma StepKeeps(cfg: Config, s: State, t: Step)
    requires Inv(cfg, s) && Enabled(s, t) && Lawful(Apply(cfg, s, t).sent)
    ensures Inv(cfg, Apply(cfg, s, t))
  {
    if t.Receive? || t.Expire? {
      ReceiveKeeps(cfg, s, t);
    } else if !t.Advance? {
      OthersKeep(cfg, s, t);
    } else if s.main.Handling? || s.main.TimedOut? {
      InputKeeps(cfg, s);
    } else if s.main.Acting? {
      if s.main.next < |s.main.plan| {
        ActKeeps(cfg, s);
      } else {
        EndKeeps(cfg, s);
      }
    } else if s.main.Announcing? || s.main.RecordingArm? {
      AnnounceKeeps(cfg, s);
    } else {
      RestKeeps(cfg, s);
    }
  }

  lemma {:induction false} Always(cfg: Config, steps: seq<Step>)
    requires Run(cfg, steps).Some?
    ensures Inv(cfg, Run(cfg, steps).value)
  {
    ReaderInv.Always(cfg, steps);
    if steps != [] {
      Always(cfg, steps[..|steps| - 1]);
      StepKeeps(cfg, Run(cfg, steps[..|steps| - 1]).value, steps[|steps| - 1]);
    }
  }
}
