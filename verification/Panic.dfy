/**
 The panic decision policy.

 `Policy` is the controller's own state plus the closures called so far. The
 class is the imperative form and is proved against the functions; the theorem
 `OutcomeIsFirstFiring` then says, for every sequence of public calls, exactly
 when and how a controller fires.
 */
module Panic {
  import opened Wrappers
  import opened Closures
  import Lifecycle

  datatype Policy = Policy(fired: bool, deadline: Option<nat>, effects: seq<Effect>)

  const FRESH := Policy(false, None, [])
  const DESTRUCT: seq<Effect> := [KillRegistered, WipeBuffers, KillSelf]
  const REHEARSE: seq<Effect> := [WipeBuffers, DryDone]

  function AfterExecute(p: Policy): Policy {
    if p.fired then p else Policy(true, None, p.effects + DESTRUCT)
  }

  function AfterDryWipe(p: Policy): Policy {
    Policy(true, p.deadline, p.effects + REHEARSE)
  }

  function AfterGraceful(p: Policy, armed: bool, grace: nat, now: nat): Policy {
    if p.fired then p
    else if !armed then AfterDryWipe(p)
    else if grace > 0 then p.(deadline := Some(now + grace))
    else AfterExecute(p)
  }

  function AfterHard(p: Policy, armed: bool): Policy {
    if p.fired then p else if !armed then AfterDryWipe(p) else AfterExecute(p)
  }

  function AfterCancel(p: Policy): Policy {
    p.(deadline := None)
  }

  function AfterTick(p: Policy, now: nat): Policy {
    if p.deadline.Some? && now >= p.deadline.value then AfterExecute(p) else p
  }

  /** An arm flag shared with other threads. */
  class ArmFlag {
    var value: bool
    constructor (v: bool)
      ensures value == v
    {
      value := v;
    }
  }

  class PanicController {
    const armed: ArmFlag
    const grace: nat
    const host: Host
    var fired: bool
    var deadline: Option<nat>

    constructor (armed: ArmFlag, grace: nat, host: Host)
      requires host.effects == []
      ensures this.armed == armed && this.grace == grace && this.host == host
      ensures View() == FRESH
    {
      this.armed, this.grace, this.host := armed, grace, host;
      fired, deadline := false, None;
    }

    ghost function View(): Policy
      reads this, host
    {
      Policy(fired, deadline, host.effects)
    }

    /** What the call did to the world: exactly the acts of the closures it called. */
    twostate predicate Performed(newEffects: seq<Effect>)
      reads this, host
    {
      && host.effects == old(host.effects) + newEffects
      && host.trigger == old(host.trigger)
      && host.View() == EffectsOn(old(host.View()), newEffects, host.trigger)
    }

    method DryWipe()
      modifies this, host
      ensures View() == AfterDryWipe(old(View()))
      ensures Performed(REHEARSE)
    {
      host.CallWipe();
      fired := true;
      host.CallDryDone();
    }

    method Execute()
      modifies this, host
      ensures View() == AfterExecute(old(View()))
      ensures Performed(if old(fired) then [] else DESTRUCT)
    {
      if fired {
        return;
      }
      fired := true;
      deadline := None;
      host.CallKillRegistered();
      host.CallWipe();
      host.CallKillSelf();
    }

    method RequestGraceful(clock: nat)
      modifies this, host
      ensures View() == AfterGraceful(old(View()), armed.value, grace, clock)
      ensures Performed(if old(fired) then [] else if !armed.value then REHEARSE
                        else if grace > 0 then [] else DESTRUCT)
    {
      if fired {
        return;
      }
      if !armed.value {
        DryWipe();
        return;
      }
      if grace > 0 {
        deadline := Some(clock + grace);
      } else {
        Execute();
      }
    }

    method RequestHard()
      modifies this, host
      ensures View() == AfterHard(old(View()), armed.value)
      ensures Performed(if old(fired) then [] else if !armed.value then REHEARSE else DESTRUCT)
    {
      if fired {
        return;
      }
      if !armed.value {
        DryWipe();
        return;
      }
      Execute();
    }

    method Cancel() returns (pending: bool)
      modifies this`deadline
      ensures View() == AfterCancel(old(View()))
      ensures pending == old(deadline).Some?
    {
      pending := deadline.Some?;
      if pending {
        deadline := None;
      }
    }

    method Tick(now: nat)
      modifies this, host
      ensures View() == AfterTick(old(View()), now)
      ensures Performed(if old(deadline.Some? && now >= deadline.value && !fired) then DESTRUCT else [])
    {
      if deadline.Some? {
        if now >= deadline.value {
          Execute();
        }
      }
    }
  }

  /** The acts of a list of closures, performed in order. */
  function EffectsOn(w: World, effects: seq<Effect>, reason: Lifecycle.Reason): World
    decreases |effects|
  {
    if effects == [] then w
    else EffectsOn(PerformAll(w, ActsOf(effects[0]), reason), effects[1..], reason)
  }

  // ----- Whole call sequences -------------------------------------------------

  /** The public surface, with the runtime ARM that other threads can perform. */
  datatype Call =
    | Graceful(now: nat)
    | Hard
    | Abort
    | Tick(now: nat)
    | ArmNow

  datatype Driven = Driven(armed: bool, policy: Policy)

  function After(d: Driven, grace: nat, c: Call): Driven {
    match c
    case Graceful(now) => d.(policy := AfterGraceful(d.policy, d.armed, grace, now))
    case Hard => d.(policy := AfterHard(d.policy, d.armed))
    case Abort => d.(policy := AfterCancel(d.policy))
    case Tick(now) => d.(policy := AfterTick(d.policy, now))
    case ArmNow => d.(armed := true)
  }

  function Drive(armed: bool, grace: nat, calls: seq<Call>): Driven {
    if calls == [] then Driven(armed, FRESH)
    else After(Drive(armed, grace, calls[..|calls| - 1]), grace, calls[|calls| - 1])
  }

  predicate ArmedBy(armed: bool, calls: seq<Call>, i: nat)
    requires i <= |calls|
  {
    armed || exists k :: 0 <= k < i && calls[k] == ArmNow
  }

  /** Call j opens a window that nothing closes or replaces before call i. */
  predicate OpenSince(calls: seq<Call>, j: int, i: nat)
    requires i <= |calls|
  {
    0 <= j < i && calls[j].Graceful? && forall k :: j < k < i ==> !calls[k].Graceful? && !calls[k].Abort?
  }

  /** Call i is one at which a controller that has not fired yet must fire. */
  ghost predicate Fires(armed: bool, grace: nat, calls: seq<Call>, i: nat)
    requires i < |calls|
  {
    match calls[i]
    case Hard => true
    case Graceful(_) => !ArmedBy(armed, calls, i) || grace == 0
    case Tick(now) => exists j :: OpenSince(calls, j, i) && calls[j].now + grace <= now
    case _ => false
  }

  ghost predicate Quiet(armed: bool, grace: nat, calls: seq<Call>) {
    forall i: nat :: i < |calls| ==> !Fires(armed, grace, calls, i)
  }

  ghost predicate FirstFiring(armed: bool, grace: nat, calls: seq<Call>, i: nat) {
    i < |calls| && Fires(armed, grace, calls, i) && forall k: nat :: k < i ==> !Fires(armed, grace, calls, k)
  }

  /** Until the first firing call nothing is called, and the deadline is that of
      the last graceful trigger not aborted since: later triggers replace it. */
  lemma {:induction false} QuietPrefix(armed: bool, grace: nat, calls: seq<Call>)
    requires Quiet(armed, grace, calls)
    ensures var d := Drive(armed, grace, calls);
      && d.armed == ArmedBy(armed, calls, |calls|)
      && !d.policy.fired && d.policy.effects == []
      && (d.policy.deadline.None? ==> forall j :: !OpenSince(calls, j, |calls|))
      && (forall j :: OpenSince(calls, j, |calls|) ==> d.policy.deadline == Some(calls[j].now + grace))
      && (d.policy.deadline.Some? ==> d.armed && exists j :: OpenSince(calls, j, |calls|))
  {
    if calls != [] {
      var n := |calls| - 1;
      var before := calls[..n];
      forall i: nat | i < n ensures !Fires(armed, grace, before, i) {
        FiresPrefix(armed, grace, calls, n, i);
      }
      QuietPrefix(armed, grace, before);
      var d := Drive(armed, grace, before);
      assert !Fires(armed, grace, calls, n);
      forall j ensures OpenSince(calls, j, n) == OpenSince(before, j, n) {}
      if calls[n].Graceful? {
        assert OpenSince(calls, n, n + 1);
      } else if !calls[n].Abort? {
        forall j ensures OpenSince(calls, j, n + 1) == OpenSince(calls, j, n) {}
      }
    }
  }

  lemma FiresPrefix(armed: bool, grace: nat, calls: seq<Call>, n: nat, i: nat)
    requires i < n <= |calls|
    ensures Fires(armed, grace, calls[..n], i) == Fires(armed, grace, calls, i)
  {
    var p := calls[..n];
    assert ArmedBy(armed, p, i) == ArmedBy(armed, calls, i);
    forall j ensures OpenSince(p, j, i) == OpenSince(calls, j, i) {}
  }

  /** Once fired, no call changes what was done. */
  lemma {:induction false} FiredIsFinal(armed: bool, grace: nat, calls: seq<Call>, n: nat)
    requires n <= |calls|
    requires Drive(armed, grace, calls[..n]).policy.fired
    ensures var p := Drive(armed, grace, calls).policy;
      p.fired && p.effects == Drive(armed, grace, calls[..n]).policy.effects
    decreases |calls| - n
  {
    if n < |calls| {
      assert calls[..n + 1][..n] == calls[..n];
      FiredIsFinal(armed, grace, calls, n + 1);
    } else {
      assert calls[..n] == calls;
    }
  }

  /**
   One-shot policy, exactly: a controller fires at its first firing call and never
   again. It destructs if it was armed by then and only rehearses otherwise; if no
   call fires, no closure is ever called.
   */
  lemma OutcomeIsFirstFiring(armed: bool, grace: nat, calls: seq<Call>)
    ensures Quiet(armed, grace, calls) ==>
      Drive(armed, grace, calls).policy.effects == [] && !Drive(armed, grace, calls).policy.fired
    ensures forall i: nat :: FirstFiring(armed, grace, calls, i) ==>
      && Drive(armed, grace, calls).policy.fired
      && Drive(armed, grace, calls).policy.effects
         == (if ArmedBy(armed, calls, i) then [KillRegistered, WipeBuffers, KillSelf] else [WipeBuffers, DryDone])
  {
    if Quiet(armed, grace, calls) {
      QuietPrefix(armed, grace, calls);
    }
    forall i: nat | FirstFiring(armed, grace, calls, i)
      ensures Drive(armed, grace, calls).policy.fired
      ensures Drive(armed, grace, calls).policy.effects
              == (if ArmedBy(armed, calls, i) then DESTRUCT else REHEARSE)
    {
      var before := calls[..i];
      forall k: nat | k < i ensures !Fires(armed, grace, before, k) {
        FiresPrefix(armed, grace, calls, i, k);
      }
      QuietPrefix(armed, grace, before);
      assert calls[..i + 1][..i] == before;
      forall j ensures OpenSince(calls, j, i) == OpenSince(before, j, i) {}
      FiredIsFinal(armed, grace, calls, i + 1);
    }
  }

  /** A second graceful trigger moves the deadline later: a tick past the first deadline kills nothing. */
  lemma SecondTriggerExtends(grace: nat, t0: nat, t1: nat, now: nat)
    requires grace > 0 && t0 + grace <= now < t1 + grace
    ensures Drive(true, grace, [Graceful(t0), Tick(now)]).policy.effects == DESTRUCT
    ensures Drive(true, grace, [Graceful(t0), Graceful(t1), Tick(now)]).policy == Policy(false, Some(t1 + grace), [])
  {
    var one := [Graceful(t0)];
    assert one[..0] == [];
    assert Drive(true, grace, one).policy == Policy(false, Some(t0 + grace), []);
    assert [Graceful(t0), Tick(now)][..1] == one;
    assert [Graceful(t0), Graceful(t1)][..1] == one;
    assert [Graceful(t0), Graceful(t1), Tick(now)][..2] == [Graceful(t0), Graceful(t1)];
  }
}
