/**
 Why overtaken liveness losses are harmless when armed with a grace window.

 A reader clears the shared `active` flag before it sends its terminal event, so a
 newer generation's `Connected` can overtake it in the channel. `OvertakingIsHarmless`
 shows that every delivery order is equivalent to the one with each overtaken loss put
 back just before that `Connected`; `HoistIsSafeExactlyWhen` shows that this is due to the
 grace window and the armed flag, and module Overtaking that whole runs need both.
 */
module Reorder {
  import opened Wrappers
  import opened Lifecycle
  import opened Panic
  import opened EventLoop

  /** Same generation, presence and controller; and the same trigger wherever it can still be recorded. */
  ghost predicate Same(a: Loop, b: Loop) {
    && a.gen == b.gen && a.present == b.present && a.policy == b.policy
    && (a.policy.deadline.Some? || a.policy.fired ==> a.trigger == b.trigger)
  }

  lemma TurnKeepsSame(a: Loop, b: Loop, grace: nat, i: Input)
    requires Same(a, b)
    ensures Same(Turn(a, grace, i), Turn(b, grace, i))
  {
  }

  lemma {:induction false} TurnsKeepSame(a: Loop, b: Loop, grace: nat, inputs: seq<Input>)
    requires Same(a, b)
    ensures Same(Turns(a, grace, inputs), Turns(b, grace, inputs))
  {
    if inputs != [] {
      TurnsKeepSame(a, b, grace, inputs[..|inputs| - 1]);
    }
  }

  predicate IsConnected(i: Input) {
    i.event.Some? && i.event.value.Connected?
  }

  predicate IsLoss(i: Input) {
    i.event.Some? && (i.event.value.HeartbeatLost? || i.event.value.PingTimeout?)
  }

  /** Generations connect in increasing order. */
  ghost predicate Increasing(inputs: seq<Input>) {
    forall i, j :: 0 <= i < j < |inputs| && IsConnected(inputs[i]) && IsConnected(inputs[j])
      ==> inputs[i].event.value.g < inputs[j].event.value.g
  }

  /** Some newer generation has already connected. */
  predicate Superseded(inputs: seq<Input>, g: nat) {
    exists k :: 0 <= k < |inputs| && IsConnected(inputs[k]) && g < inputs[k].event.value.g
  }

  predicate ConnectedIn(inputs: seq<Input>, g: nat) {
    exists k :: 0 <= k < |inputs| && IsConnected(inputs[k]) && inputs[k].event.value.g == g
  }

  /** What the channel can deliver: generations in order, and one loss each at most, after its own `Connected`. */
  ghost predicate Deliverable(inputs: seq<Input>) {
    && Increasing(inputs)
    && (forall i :: 0 <= i < |inputs| && IsLoss(inputs[i]) ==> ConnectedIn(inputs[..i], inputs[i].event.value.g))
    && (forall i, j :: 0 <= i < j < |inputs| && IsLoss(inputs[i]) && IsLoss(inputs[j])
          ==> inputs[i].event.value.g != inputs[j].event.value.g)
  }

  /** The generations whose loss was overtaken by a newer `Connected`. */
  function Overtaken(inputs: seq<Input>): set<nat> {
    if inputs == [] then {}
    else
      var before, last := inputs[..|inputs| - 1], inputs[|inputs| - 1];
      Overtaken(before) + if IsLoss(last) && Superseded(before, last.event.value.g) then {last.event.value.g} else {}
  }

  predicate IsLossOf(i: Input, gs: set<nat>) {
    IsLoss(i) && i.event.value.g in gs
  }

  /** The inputs in order, but for the losses of some generations. */
  function Without(inputs: seq<Input>, gs: set<nat>): seq<Input> {
    if inputs == [] then []
    else Without(inputs[..|inputs| - 1], gs) + if IsLossOf(inputs[|inputs| - 1], gs) then [] else [inputs[|inputs| - 1]]
  }

  /** The loss at i comes after its own generation's `Connected` and before the next one. */
  ghost predicate InPlace(inputs: seq<Input>, i: int)
    requires 0 <= i < |inputs| && IsLoss(inputs[i])
  {
    exists j :: 0 <= j < i && IsConnected(inputs[j]) && inputs[j].event.value.g == inputs[i].event.value.g
                && forall m :: j < m < i ==> !IsConnected(inputs[m])
  }

  /** No loss was overtaken. */
  ghost predicate Tidy(inputs: seq<Input>) {
    forall i :: 0 <= i < |inputs| && IsLoss(inputs[i]) ==> InPlace(inputs, i)
  }

  /** The inputs with the overtaken losses, and only those, moved back into place. */
  ghost predicate Rearranged(inputs: seq<Input>, tidy: seq<Input>) {
    && multiset(tidy) == multiset(inputs)
    && Tidy(tidy)
    && Without(tidy, Overtaken(inputs)) == Without(inputs, Overtaken(inputs))
  }

  /** The next `Connected` follows the input at i with at most other losses in between. */
  ghost predicate ConnectedFollows(inputs: seq<Input>, i: int)
    requires 0 <= i < |inputs|
  {
    exists m :: i < m < |inputs| && IsConnected(inputs[m]) && forall l :: i < l < m ==> IsLoss(inputs[l])
  }

  /** The losses of these generations stand just before a `Connected`. */
  ghost predicate JustBefore(inputs: seq<Input>, gs: set<nat>) {
    forall i :: 0 <= i < |inputs| && IsLossOf(inputs[i], gs) ==> ConnectedFollows(inputs, i)
  }

  /**
   Moving a live generation's loss before the `Connected` that replaces it changes
   nothing that matters if and only if the loop is armed with a grace window.
   */
  lemma HoistIsSafeExactlyWhen(l: Loop, grace: nat, loss: Input, next: Input)
    requires IsLoss(loss) && IsConnected(next)
    requires l.present && l.gen == loss.event.value.g && !l.policy.fired
    ensures Same(Turn(Turn(l, grace, loss), grace, next), Turn(l, grace, next)) <==> loss.armed && grace > 0
  {
    var hoisted := Turn(l, grace, loss);
    if loss.armed && grace > 0 {
      assert hoisted.policy == l.policy.(deadline := Some(loss.now + grace));
    } else {
      assert hoisted.policy.fired;
    }
  }

  lemma {:induction false} GenIsNewest(l: Loop, grace: nat, inputs: seq<Input>, k: nat)
    requires Increasing(inputs) && k < |inputs| && IsConnected(inputs[k])
    ensures Turns(l, grace, inputs).gen >= inputs[k].event.value.g
  {
    var n := |inputs| - 1;
    if k < n {
      GenIsNewest(l, grace, inputs[..n], k);
    }
  }

  lemma {:induction false} FiredStays(l: Loop, grace: nat, inputs: seq<Input>)
    requires l.policy.fired
    ensures Turns(l, grace, inputs).policy.fired
  {
    if inputs != [] {
      FiredStays(l, grace, inputs[..|inputs| - 1]);
    }
  }

  /** The first `Connected` newer than g. */
  lemma FirstNewer(inputs: seq<Input>, g: nat) returns (k: nat)
    requires Superseded(inputs, g)
    ensures k < |inputs| && IsConnected(inputs[k]) && g < inputs[k].event.value.g
    ensures !Superseded(inputs[..k], g)
  {
    k := 0;
    assert inputs[..|inputs|] == inputs;
    while !(IsConnected(inputs[k]) && g < inputs[k].event.value.g)
      invariant 0 <= k < |inputs| && !Superseded(inputs[..k], g)
      decreases |inputs| - k
    {
      k := k + 1;
    }
  }

  // ----- Putting a loss back ----------------------------------------------------------------

  lemma {:induction false} WithoutConcat(a: seq<Input>, b: seq<Input>, gs: set<nat>)
    ensures Without(a + b, gs) == Without(a, gs) + Without(b, gs)
  {
    if b == [] {
      assert a + b == a;
    } else {
      WithoutConcat(a, b[..|b| - 1], gs);
      assert (a + b)[..|a + b| - 1] == a + b[..|b| - 1];
    }
  }

  lemma WithoutOne(x: Input, gs: set<nat>)
    ensures Without([x], gs) == if IsLossOf(x, gs) then [] else [x]
  {
    assert [x][..0] == [];
  }

  lemma {:induction false} WithoutMore(inputs: seq<Input>, gs: set<nat>, g: nat)
    ensures Without(inputs, gs + {g}) == Without(Without(inputs, gs), {g})
  {
    if inputs != [] {
      var front, last := inputs[..|inputs| - 1], inputs[|inputs| - 1];
      WithoutMore(front, gs, g);
      WithoutOne(last, gs);
      WithoutConcat(Without(front, gs), if IsLossOf(last, gs) then [] else [last], {g});
      WithoutOne(last, {g});
    }
  }

  lemma WithoutMiddle(a: seq<Input>, z: Input, b: seq<Input>, gs: set<nat>)
    requires IsLossOf(z, gs)
    ensures Without(a + [z] + b, gs) == Without(a + b, gs)
  {
    WithoutConcat(a, [z], gs);
    WithoutConcat(a + [z], b, gs);
    WithoutConcat(a, b, gs);
    WithoutOne(z, gs);
  }

  /** A loss of generation g can be put in, or added at the end, without disturbing the rest. */
  lemma InsertKeepsRest(a: seq<Input>, loss: Input, b: seq<Input>, before: seq<Input>, gs: set<nat>)
    requires IsLoss(loss) && Without(a + b, gs) == Without(before, gs)
    ensures var hs := gs + {loss.event.value.g}; Without(a + [loss] + b, hs) == Without(before + [loss], hs)
  {
    var hs := gs + {loss.event.value.g};
    WithoutMiddle(a, loss, b, hs);
    WithoutMiddle(before, loss, [], hs);
    assert before + [loss] + [] == before + [loss] && before + [] == before;
    WithoutMore(a + b, gs, loss.event.value.g);
    WithoutMore(before, gs, loss.event.value.g);
  }

  /** Where each element of a sequence goes when one is put in at k. */
  lemma InsertMoves(a: seq<Input>, x: Input, b: seq<Input>)
    ensures var s, t := a + b, a + [x] + b;
      && |t| == |s| + 1 && t[|a|] == x
      && (forall i :: 0 <= i < |a| ==> t[i] == s[i])
      && (forall i :: |a| <= i < |s| ==> t[i + 1] == s[i])
      && (forall i :: |a| < i < |t| ==> t[i] == s[i - 1])
  {
  }

  lemma InsertKeepsIncreasing(a: seq<Input>, loss: Input, b: seq<Input>)
    requires IsLoss(loss) && Increasing(a + b)
    ensures Increasing(a + [loss] + b)
  {
    var s, t, k := a + b, a + [loss] + b, |a|;
    InsertMoves(a, loss, b);
    forall i, j | 0 <= i < j < |t| && IsConnected(t[i]) && IsConnected(t[j])
      ensures t[i].event.value.g < t[j].event.value.g
    {
      var i', j' := if i < k then i else i - 1, if j < k then j else j - 1;
      assert t[i] == s[i'] && t[j] == s[j'] && i' < j';
    }
  }

  /** The loss goes in between its own `Connected` and the first newer one. */
  lemma LossInPlace(a: seq<Input>, loss: Input, c: Input, b: seq<Input>)
    requires IsLoss(loss) && IsConnected(c) && loss.event.value.g < c.event.value.g
    requires Increasing(a + ([c] + b)) && ConnectedIn(a + ([c] + b), loss.event.value.g)
    requires !Superseded(a, loss.event.value.g)
    ensures InPlace(a + [loss] + ([c] + b), |a|)
  {
    var g, s, t, k := loss.event.value.g, a + ([c] + b), a + [loss] + ([c] + b), |a|;
    InsertMoves(a, loss, [c] + b);
    var j :| 0 <= j < |s| && IsConnected(s[j]) && s[j].event.value.g == g;
    assert s[k] == c;
    assert j < k;
    forall m | j < m < k ensures !IsConnected(t[m]) {
      assert t[m] == s[m] == a[m];
    }
    assert t[j] == s[j];
  }

  lemma OthersInPlace(a: seq<Input>, loss: Input, c: Input, b: seq<Input>, i: int)
    requires IsLoss(loss) && IsConnected(c)
    requires 0 <= i < |a + [loss] + ([c] + b)| && i != |a| && IsLoss((a + [loss] + ([c] + b))[i])
    requires Tidy(a + ([c] + b))
    ensures InPlace(a + [loss] + ([c] + b), i)
  {
    var s, t, k := a + ([c] + b), a + [loss] + ([c] + b), |a|;
    InsertMoves(a, loss, [c] + b);
    assert s[k] == c && t[k + 1] == c;
    var i' := if i < k then i else i - 1;
    assert t[i] == s[i'];
    assert InPlace(s, i');
    var j :| 0 <= j < i' && IsConnected(s[j]) && s[j].event.value.g == s[i'].event.value.g
             && forall m :: j < m < i' ==> !IsConnected(s[m]);
    var j' := if j < k then j else j + 1;
    assert t[j'] == s[j];
    forall m | j' < m < i ensures !IsConnected(t[m]) {
      assert t[m] == s[if m < k then m else m - 1] || m == k;
    }
  }

  lemma InsertStaysJustBefore(a: seq<Input>, loss: Input, c: Input, b: seq<Input>, gs: set<nat>)
    requires IsLoss(loss) && IsConnected(c) && JustBefore(a + ([c] + b), gs)
    requires forall i :: 0 <= i < |a + ([c] + b)| ==> !IsLossOf((a + ([c] + b))[i], {loss.event.value.g})
    ensures JustBefore(a + [loss] + ([c] + b), gs + {loss.event.value.g})
  {
    var s, t, k := a + ([c] + b), a + [loss] + ([c] + b), |a|;
    InsertMoves(a, loss, [c] + b);
    assert s[k] == c && t[k + 1] == c;
    forall i | 0 <= i < |t| && IsLossOf(t[i], gs + {loss.event.value.g}) ensures ConnectedFollows(t, i) {
      if i == k {
        assert IsConnected(t[k + 1]);
      } else {
        var i' := if i < k then i else i - 1;
        assert t[i] == s[i'];
        assert !IsLossOf(s[i'], {loss.event.value.g});
        assert ConnectedFollows(s, i');
        var m :| i' < m < |s| && IsConnected(s[m]) && forall l :: i' < l < m ==> IsLoss(s[l]);
        var m' := if m < k then m else m + 1;
        assert t[m'] == s[m];
        forall l | i < l < m' ensures IsLoss(t[l]) {
          assert l == k || t[l] == s[if l < k then l else l - 1];
        }
      }
    }
  }

  lemma InsertIsSame(l: Loop, grace: nat, a: seq<Input>, loss: Input, c: Input, b: seq<Input>)
    requires grace > 0 && IsLoss(loss) && loss.armed && IsConnected(c)
    requires !Turns(l, grace, a + ([c] + b)).policy.fired
    ensures Same(Turns(l, grace, a + [loss] + ([c] + b)), Turns(l, grace, a + ([c] + b)))
  {
    var p := Turns(l, grace, a);
    TurnsConcat(l, grace, a, [c] + b);
    if p.policy.fired {
      FiredStays(p, grace, [c] + b);
    }
    if p.present && p.gen == loss.event.value.g {
      HoistIsSafeExactlyWhen(p, grace, loss, c);
    }
    var q := Turn(p, grace, loss);
    TurnsConcat(l, grace, a, [loss]);
    TurnsConcat(l, grace, a + [loss], [c] + b);
    TurnsConcat(p, grace, [c], b);
    TurnsConcat(q, grace, [c], b);
    Single(p, grace, loss);
    Single(p, grace, c);
    Single(q, grace, c);
    TurnsKeepSame(Turn(q, grace, c), Turn(p, grace, c), grace, b);
  }

  lemma Single(l: Loop, grace: nat, x: Input)
    ensures Turns(l, grace, [x]) == Turn(l, grace, x)
  {
    assert [x][..0] == [];
  }

  lemma InsertTidies(a: seq<Input>, loss: Input, c: Input, b: seq<Input>)
    requires IsLoss(loss) && IsConnected(c) && loss.event.value.g < c.event.value.g
    requires Increasing(a + ([c] + b)) && Tidy(a + ([c] + b)) && ConnectedIn(a + ([c] + b), loss.event.value.g)
    requires !Superseded(a, loss.event.value.g)
    ensures Tidy(a + [loss] + ([c] + b))
  {
    var t := a + [loss] + ([c] + b);
    LossInPlace(a, loss, c, b);
    forall i | 0 <= i < |t| && IsLoss(t[i]) ensures InPlace(t, i) {
      if i != |a| {
        OthersInPlace(a, loss, c, b, i);
      }
    }
  }

  lemma InsertArranges(a: seq<Input>, loss: Input, c: Input, b: seq<Input>, before: seq<Input>, gs: set<nat>)
    requires IsLoss(loss) && IsConnected(c) && loss.event.value.g < c.event.value.g
    requires Increasing(a + ([c] + b)) && Tidy(a + ([c] + b)) && ConnectedIn(a + ([c] + b), loss.event.value.g)
    requires JustBefore(a + ([c] + b), gs) && Without(a + ([c] + b), gs) == Without(before, gs)
    requires forall i :: 0 <= i < |a + ([c] + b)| ==> !IsLossOf((a + ([c] + b))[i], {loss.event.value.g})
    requires !Superseded(a, loss.event.value.g)
    ensures var t, hs := a + [loss] + ([c] + b), gs + {loss.event.value.g};
      Increasing(t) && Tidy(t) && JustBefore(t, hs) && Without(t, hs) == Without(before + [loss], hs)
  {
    InsertKeepsIncreasing(a, loss, [c] + b);
    InsertKeepsRest(a, loss, [c] + b, before, gs);
    InsertStaysJustBefore(a, loss, c, b, gs);
    InsertTidies(a, loss, c, b);
  }

  /** Put a superseded loss back just before the first `Connected` newer than it. */
  lemma InsertLoss(l: Loop, grace: nat, before: seq<Input>, inputs: seq<Input>, loss: Input, gs: set<nat>) returns (out: seq<Input>)
    requires grace > 0 && IsLoss(loss) && loss.armed
    requires Superseded(inputs, loss.event.value.g) && ConnectedIn(inputs, loss.event.value.g)
    requires Increasing(inputs) && Tidy(inputs) && JustBefore(inputs, gs) && Without(inputs, gs) == Without(before, gs)
    requires forall i :: 0 <= i < |inputs| ==> !IsLossOf(inputs[i], {loss.event.value.g})
    requires !Turns(l, grace, inputs).policy.fired
    ensures multiset(out) == multiset(inputs) + multiset{loss}
    ensures var hs := gs + {loss.event.value.g};
      Increasing(out) && Tidy(out) && JustBefore(out, hs) && Without(out, hs) == Without(before + [loss], hs)
    ensures Same(Turns(l, grace, out), Turns(l, grace, inputs))
  {
    var k := FirstNewer(inputs, loss.event.value.g);
    var a, c, b := inputs[..k], inputs[k], inputs[k + 1..];
    assert inputs == a + ([c] + b);
    out := a + [loss] + ([c] + b);
    InsertArranges(a, loss, c, b, before, gs);
    InsertIsSame(l, grace, a, loss, c, b);
  }

  // ----- Adding an input at the end ---------------------------------------------------------

  lemma SameConnected(a: seq<Input>, b: seq<Input>, g: nat)
    requires multiset(a) == multiset(b)
    ensures Superseded(a, g) ==> Superseded(b, g)
    ensures ConnectedIn(a, g) ==> ConnectedIn(b, g)
  {
    if Superseded(a, g) {
      var k :| 0 <= k < |a| && IsConnected(a[k]) && g < a[k].event.value.g;
      assert a[k] in multiset(b);
      var k' :| 0 <= k' < |b| && b[k'] == a[k];
    }
    if ConnectedIn(a, g) {
      var k :| 0 <= k < |a| && IsConnected(a[k]) && a[k].event.value.g == g;
      assert a[k] in multiset(b);
      var k' :| 0 <= k' < |b| && b[k'] == a[k];
    }
  }

  lemma AppendStaysTidy(tidy: seq<Input>, last: Input)
    requires Tidy(tidy) && Increasing(tidy)
    requires IsLoss(last) ==> ConnectedIn(tidy, last.event.value.g) && !Superseded(tidy, last.event.value.g)
    ensures Tidy(tidy + [last])
  {
    var t := tidy + [last];
    forall i | 0 <= i < |t| && IsLoss(t[i]) ensures InPlace(t, i) {
      if i < |tidy| {
        assert InPlace(tidy, i);
        var j :| 0 <= j < i && IsConnected(tidy[j]) && tidy[j].event.value.g == tidy[i].event.value.g
                 && forall m :: j < m < i ==> !IsConnected(tidy[m]);
        assert t[j] == tidy[j];
      } else {
        var j :| 0 <= j < |tidy| && IsConnected(tidy[j]) && tidy[j].event.value.g == last.event.value.g;
        assert t[j] == tidy[j];
      }
    }
  }

  lemma AppendStaysIncreasing(tidy: seq<Input>, before: seq<Input>, last: Input)
    requires Increasing(tidy) && Increasing(before + [last]) && multiset(tidy) == multiset(before)
    ensures Increasing(tidy + [last])
  {
    if IsConnected(last) {
      forall i | 0 <= i < |tidy| && IsConnected(tidy[i]) ensures tidy[i].event.value.g < last.event.value.g {
        assert tidy[i] in multiset(before);
        var k :| 0 <= k < |before| && before[k] == tidy[i];
        assert (before + [last])[k] == before[k] && (before + [last])[|before|] == last;
      }
    }
  }

  lemma AppendStaysJustBefore(tidy: seq<Input>, last: Input, gs: set<nat>)
    requires JustBefore(tidy, gs) && !IsLossOf(last, gs)
    ensures JustBefore(tidy + [last], gs)
  {
    var t := tidy + [last];
    forall i | 0 <= i < |t| && IsLossOf(t[i], gs) ensures ConnectedFollows(t, i) {
      assert ConnectedFollows(tidy, i);
      var m :| i < m < |tidy| && IsConnected(tidy[m]) && forall l :: i < l < m ==> IsLoss(tidy[l]);
      assert t[m] == tidy[m];
    }
  }

  /** A loss overtaken by a newer generation's `Connected` changes nothing. */
  lemma OvertakenIsIgnored(l: Loop, grace: nat, before: seq<Input>, loss: Input)
    requires Increasing(before) && IsLoss(loss) && Superseded(before, loss.event.value.g)
    ensures Turn(Turns(l, grace, before), grace, loss) == Turns(l, grace, before)
  {
    var k :| 0 <= k < |before| && IsConnected(before[k]) && loss.event.value.g < before[k].event.value.g;
    GenIsNewest(l, grace, before, k);
  }

  lemma {:induction false} OvertakenHaveLosses(inputs: seq<Input>, g: nat)
    requires g in Overtaken(inputs)
    ensures exists i :: 0 <= i < |inputs| && IsLossOf(inputs[i], {g})
  {
    var n := |inputs| - 1;
    if g in Overtaken(inputs[..n]) {
      OvertakenHaveLosses(inputs[..n], g);
      var i :| 0 <= i < n && IsLossOf(inputs[..n][i], {g});
      assert inputs[i] == inputs[..n][i];
    } else {
      assert IsLossOf(inputs[n], {g});
    }
  }

  /** The last loss of a deliverable history is its generation's only one. */
  lemma LastIsOnly(before: seq<Input>, last: Input, tidy: seq<Input>)
    requires Deliverable(before + [last]) && IsLoss(last) && multiset(tidy) == multiset(before)
    ensures forall i :: 0 <= i < |tidy| ==> !IsLossOf(tidy[i], {last.event.value.g})
    ensures last.event.value.g !in Overtaken(before)
    ensures ConnectedIn(tidy, last.event.value.g)
  {
    var s, g := before + [last], last.event.value.g;
    assert s[..|before|] == before && s[|before|] == last;
    forall k | 0 <= k < |before| ensures !IsLossOf(before[k], {g}) {
      assert s[k] == before[k];
    }
    forall i | 0 <= i < |tidy| ensures !IsLossOf(tidy[i], {g}) {
      assert tidy[i] in multiset(before);
      var k :| 0 <= k < |before| && before[k] == tidy[i];
    }
    if g in Overtaken(before) {
      OvertakenHaveLosses(before, g);
    }
    SameConnected(before, tidy, g);
  }

  lemma DeliverablePrefix(before: seq<Input>, last: Input)
    requires Deliverable(before + [last])
    ensures Deliverable(before)
  {
    var s := before + [last];
    forall i | 0 <= i < |before| ensures s[i] == before[i] && s[..i] == before[..i] {}
  }

  /**
   For any deliveries armed throughout with a grace window, up to the one that fires:
   putting each overtaken loss back just before the `Connected` that overtook it, and
   moving nothing else, leaves the same generation, presence, pending deadline and
   closure calls, and the same trigger wherever it is recorded.
   */
  lemma {:induction false} OvertakingIsHarmless(l: Loop, grace: nat, inputs: seq<Input>) returns (tidy: seq<Input>)
    requires grace > 0 && Deliverable(inputs)
    requires forall i :: 0 <= i < |inputs| ==> inputs[i].armed
    requires forall k :: 0 <= k < |inputs| ==> !Turns(l, grace, inputs[..k]).policy.fired
    ensures Rearranged(inputs, tidy) && JustBefore(tidy, Overtaken(inputs)) && Increasing(tidy)
    ensures Same(Turns(l, grace, tidy), Turns(l, grace, inputs))
  {
    if inputs == [] {
      return [];
    }
    var n := |inputs| - 1;
    var before, last := inputs[..n], inputs[n];
    forall k | 0 <= k < n ensures !Turns(l, grace, before[..k]).policy.fired {
      assert before[..k] == inputs[..k];
    }
    assert inputs == before + [last];
    DeliverablePrefix(before, last);
    tidy := OvertakingIsHarmless(l, grace, before);
    tidy := HoistLast(l, grace, before, last, tidy);
  }

  lemma AppendRearranges(before: seq<Input>, last: Input, tidy: seq<Input>)
    requires Increasing(before + [last]) && Rearranged(before, tidy) && JustBefore(tidy, Overtaken(before)) && Increasing(tidy)
    requires IsLoss(last) ==> ConnectedIn(tidy, last.event.value.g) && !Superseded(tidy, last.event.value.g)
    requires IsLoss(last) ==> !Superseded(before, last.event.value.g) && last.event.value.g !in Overtaken(before)
    ensures var inputs, out := before + [last], tidy + [last];
      Rearranged(inputs, out) && JustBefore(out, Overtaken(inputs)) && Increasing(out)
  {
    var gs := Overtaken(before);
    assert (before + [last])[..|before|] == before;
    assert Overtaken(before + [last]) == gs;
    AppendStaysTidy(tidy, last);
    AppendStaysIncreasing(tidy, before, last);
    AppendStaysJustBefore(tidy, last, gs);
    WithoutConcat(tidy, [last], gs);
    WithoutConcat(before, [last], gs);
  }

  lemma HoistLast(l: Loop, grace: nat, before: seq<Input>, last: Input, tidy: seq<Input>) returns (out: seq<Input>)
    requires grace > 0 && Deliverable(before + [last]) && last.armed && !Turns(l, grace, before).policy.fired
    requires Rearranged(before, tidy) && JustBefore(tidy, Overtaken(before)) && Increasing(tidy)
    requires Same(Turns(l, grace, tidy), Turns(l, grace, before))
    ensures Rearranged(before + [last], out) && JustBefore(out, Overtaken(before + [last])) && Increasing(out)
    ensures Same(Turns(l, grace, out), Turns(l, grace, before + [last]))
  {
    assert (before + [last])[..|before|] == before;
    DeliverablePrefix(before, last);
    if IsLoss(last) {
      LastIsOnly(before, last, tidy);
      SameConnected(before, tidy, last.event.value.g);
      SameConnected(tidy, before, last.event.value.g);
    }
    if IsLoss(last) && Superseded(before, last.event.value.g) {
      OvertakenIsIgnored(l, grace, before, last);
      assert Overtaken(before + [last]) == Overtaken(before) + {last.event.value.g};
      out := InsertLoss(l, grace, before, tidy, last, Overtaken(before));
    } else {
      out := tidy + [last];
      AppendRearranges(before, last, tidy);
      TurnKeepsSame(Turns(l, grace, tidy), Turns(l, grace, before), grace, last);
      assert out[..|tidy|] == tidy;
    }
  }
}
