/** Invariant of the readers, the `active` flag and the channel, kept by every step. */
module ReaderInv {
  import opened Wrappers
  import opened EventLoop
  import opened Channel
  import opened Protocol

  /** `active` is held by exactly one reader, or by none and clear. */
  ghost predicate OneHolder(rs: seq<Reader>, active: bool) {
    && (forall r :: 0 <= r < |rs| && Holds(rs[r]) ==> active)
    && (forall q, r :: 0 <= q < |rs| && 0 <= r < |rs| && Holds(rs[q]) && Holds(rs[r]) ==> q == r)
    && (active ==> exists r :: 0 <= r < |rs| && Holds(rs[r]))
  }

  ghost predicate Owned(rs: seq<Reader>, g: nat) {
    exists r :: 0 <= r < |rs| && HasGen(rs[r]) && rs[r].g == g
  }

  predicate Newest(r: Reader) {
    r.Tagged? || r.Reading?
  }

  /** Generations 1 to n belong to one reader each; a holder has the newest. */
  ghost predicate Generations(rs: seq<Reader>, n: nat) {
    && (forall r :: 0 <= r < |rs| && HasGen(rs[r]) ==> 1 <= rs[r].g <= n)
    && (forall q, r :: 0 <= q < r < |rs| && HasGen(rs[q]) && HasGen(rs[r]) ==> rs[q].g != rs[r].g)
    && (forall g: nat {:trigger Owned(rs, g)} :: 1 <= g <= n ==> Owned(rs, g))
    && (forall r :: 0 <= r < |rs| && Newest(rs[r]) ==> rs[r].g == n)
  }

  predicate MaySpeak(r: Reader) {
    r.Reading? || r.Ending?
  }

  ghost predicate Spoken(rs: seq<Reader>, g: nat) {
    exists r :: 0 <= r < |rs| && MaySpeak(rs[r]) && rs[r].g == g
  }

  /** The channel's open generations are those of the readers that may still speak;
      every generation drawn has connected, but for that of a reader about to. */
  ghost predicate Agrees(rs: seq<Reader>, n: nat, c: Chan) {
    && (forall r :: 0 <= r < |rs| && rs[r].Tagged? ==> c.last + 1 == n)
    && (c.last != n ==> exists r :: 0 <= r < |rs| && rs[r].Tagged?)
    && (forall r :: 0 <= r < |rs| && MaySpeak(rs[r]) ==> rs[r].g in c.open)
    && (forall g: nat {:trigger Spoken(rs, g)} :: g in c.open ==> Spoken(rs, g))
    && (forall r :: 0 <= r < |rs| && rs[r].Ending? ==> TerminalOf(rs[r].last, rs[r].g))
  }

  ghost predicate Inv(s: State) {
    && OneHolder(s.readers, s.active)
    && Generations(s.readers, s.genSource)
    && Agrees(s.readers, s.genSource, Summary(s.sent))
    && Lawful(s.sent)
    && s.received <= |s.sent|
  }

  // ----- One reader moves -------------------------------------------------------

  lemma HolderMoves(rs: seq<Reader>, active: bool, r: nat, x: Reader, active': bool)
    requires OneHolder(rs, active) && r < |rs|
    requires Holds(x) ==> active' && (Holds(rs[r]) || !active)
    requires !Holds(x) ==> active' == (active && !Holds(rs[r]))
    ensures OneHolder(rs[r := x], active')
  {
    if active' {
      if Holds(x) {
        assert Holds(rs[r := x][r]);
      } else {
        var h :| 0 <= h < |rs| && Holds(rs[h]);
        assert Holds(rs[r := x][h]);
      }
    }
  }

  /** A reader keeps its generation, or draws the next one while nobody else holds the newest. */
  lemma GenerationMoves(rs: seq<Reader>, n: nat, r: nat, x: Reader, n': nat)
    requires Generations(rs, n) && r < |rs|
    requires
      || (n' == n && HasGen(x) == HasGen(rs[r]) && (HasGen(x) ==> x.g == rs[r].g) && (Newest(x) ==> Newest(rs[r])))
      || (n' == n + 1 && x == Tagged(n') && !HasGen(rs[r]) && forall q :: 0 <= q < |rs| && q != r ==> !Newest(rs[q]))
    ensures Generations(rs[r := x], n')
  {
    var v := rs[r := x];
    forall g: nat | 1 <= g <= n' ensures Owned(v, g) {
      if g <= n {
        assert Owned(rs, g);
        var q :| 0 <= q < |rs| && HasGen(rs[q]) && rs[q].g == g;
        assert HasGen(v[q]) && v[q].g == g;
      } else {
        assert HasGen(v[r]);
      }
    }
  }

  lemma AgreementMoves(rs: seq<Reader>, n: nat, c: Chan, r: nat, x: Reader, n': nat, c': Chan)
    requires Generations(rs, n) && Agrees(rs, n, c) && r < |rs|
    requires x.Ending? ==> TerminalOf(x.last, x.g)
    requires x.Tagged? ==> c'.last + 1 == n'
    requires !x.Tagged? ==> c'.last == n' || (n' == n && c'.last == c.last && !rs[r].Tagged?)
    requires forall q :: 0 <= q < |rs| && q != r && rs[q].Tagged? ==> c'.last + 1 == n'
    requires c'.open == c.open - (if MaySpeak(rs[r]) then {rs[r].g} else {}) + (if MaySpeak(x) then {x.g} else {})
    ensures Agrees(rs[r := x], n', c')
  {
    var v := rs[r := x];
    if c'.last != n' {
      if x.Tagged? {
        assert v[r].Tagged?;
      } else {
        var q :| 0 <= q < |rs| && rs[q].Tagged?;
        assert v[q].Tagged?;
      }
    }
    forall g: nat | g in c'.open ensures Spoken(v, g) {
      if MaySpeak(x) && g == x.g {
        assert MaySpeak(v[r]);
      } else {
        assert Spoken(rs, g);
        var q :| 0 <= q < |rs| && MaySpeak(rs[q]) && rs[q].g == g;
        assert MaySpeak(v[q]) && v[q].g == g;
      }
    }
  }

  /** A new connection is one more reader, which has nothing yet. */
  lemma HelloKeepsHolder(rs: seq<Reader>, active: bool)
    requires OneHolder(rs, active)
    ensures OneHolder(rs + [Greeted], active)
  {
    if active {
      var h :| 0 <= h < |rs| && Holds(rs[h]);
      assert Holds((rs + [Greeted])[h]);
    }
  }

  lemma HelloKeepsGenerations(rs: seq<Reader>, n: nat)
    requires Generations(rs, n)
    ensures Generations(rs + [Greeted], n)
  {
    var v := rs + [Greeted];
    forall g: nat | 1 <= g <= n ensures Owned(v, g) {
      assert Owned(rs, g);
      var q :| 0 <= q < |rs| && HasGen(rs[q]) && rs[q].g == g;
      assert HasGen(v[q]);
    }
  }

  lemma HelloKeepsAgreement(rs: seq<Reader>, n: nat, c: Chan)
    requires Agrees(rs, n, c)
    ensures Agrees(rs + [Greeted], n, c)
  {
    var v := rs + [Greeted];
    if c.last != n {
      var q :| 0 <= q < |rs| && rs[q].Tagged?;
      assert v[q].Tagged?;
    }
    forall g: nat | g in c.open ensures Spoken(v, g) {
      assert Spoken(rs, g);
      var q :| 0 <= q < |rs| && MaySpeak(rs[q]) && rs[q].g == g;
      assert MaySpeak(v[q]);
    }
  }

  // ----- Every step -----------------------------------------------------------

  lemma ClaimKeeps(cfg: Config, s: State, t: Step)
    requires Inv(s) && Enabled(s, t) && (t.SwapActive? || t.DrawGeneration? || t.ClearActive?)
    ensures Inv(Apply(cfg, s, t))
  {
    var rs, n, c := s.readers, s.genSource, Summary(s.sent);
    var v := Apply(cfg, s, t);
    var x := v.readers[t.r];
    HolderMoves(rs, s.active, t.r, x, v.active);
    GenerationMoves(rs, n, t.r, x, v.genSource);
    AgreementMoves(rs, n, c, t.r, x, v.genSource, c);
  }

  lemma ConnectedAgrees(rs: seq<Reader>, n: nat, c: Chan, r: nat)
    requires Generations(rs, n) && Agrees(rs, n, c) && r < |rs| && rs[r].Tagged?
    requires forall q :: 0 <= q < |rs| && q != r ==> !rs[q].Tagged?
    ensures var m := Msg(Connected(rs[r].g), rs[r].g);
      Allowed(c, m) && Agrees(rs[r := Reading(rs[r].g)], n, Extend(c, m))
  {
    AgreementMoves(rs, n, c, r, Reading(rs[r].g), n, Extend(c, Msg(Connected(rs[r].g), rs[r].g)));
  }

  lemma TerminalAgrees(rs: seq<Reader>, n: nat, c: Chan, r: nat)
    requires Generations(rs, n) && Agrees(rs, n, c) && r < |rs| && rs[r].Ending?
    ensures var m := Msg(rs[r].last, rs[r].g);
      Allowed(c, m) && Agrees(rs[r := Returned(rs[r].g)], n, Extend(c, m))
  {
    AgreementMoves(rs, n, c, r, Returned(rs[r].g), n, Extend(c, Msg(rs[r].last, rs[r].g)));
  }

  /** A reader sends, keeping what it holds. */
  lemma SentKeeps(s: State, r: nat, x: Reader, m: Msg)
    requires OneHolder(s.readers, s.active) && Generations(s.readers, s.genSource) && r < |s.readers|
    requires HasGen(x) && HasGen(s.readers[r]) && x.g == s.readers[r].g
    requires Protocol.Holds(x) == Protocol.Holds(s.readers[r]) && (Newest(x) ==> Newest(s.readers[r]))
    requires Lawful(s.sent) && Allowed(Summary(s.sent), m) && s.received <= |s.sent|
    requires Agrees(s.readers[r := x], s.genSource, Extend(Summary(s.sent), m))
    ensures Inv(s.(readers := s.readers[r := x], sent := s.sent + [m]))
  {
    LawfulSnoc(s.sent, m);
    HolderMoves(s.readers, s.active, r, x, s.active);
    GenerationMoves(s.readers, s.genSource, r, x, s.genSource);
  }

  lemma ConnectedKeeps(cfg: Config, s: State, r: nat)
    requires Inv(s) && Enabled(s, SendConnected(r))
    ensures Inv(Apply(cfg, s, SendConnected(r)))
  {
    var g := s.readers[r].g;
    ConnectedAgrees(s.readers, s.genSource, Summary(s.sent), r);
    SentKeeps(s, r, Reading(g), Msg(Connected(g), g));
  }

  lemma TerminalKeeps(cfg: Config, s: State, r: nat)
    requires Inv(s) && Enabled(s, SendTerminal(r))
    ensures Inv(Apply(cfg, s, SendTerminal(r)))
  {
    var g := s.readers[r].g;
    TerminalAgrees(s.readers, s.genSource, Summary(s.sent), r);
    SentKeeps(s, r, Returned(g), Msg(s.readers[r].last, g));
  }

  lemma NoticeKeeps(cfg: Config, s: State, t: Step)
    requires Inv(s) && Enabled(s, t) && (t.SendCancel? || t.Deliver?)
    ensures Inv(Apply(cfg, s, t))
  {
    var m := Apply(cfg, s, t).sent[|s.sent|];
    assert Allowed(Summary(s.sent), m);
    LawfulSnoc(s.sent, m);
  }

  lemma StepKeeps(cfg: Config, s: State, t: Step)
    requires Inv(s) && Enabled(s, t)
    ensures Inv(Apply(cfg, s, t))
  {
    if t.Hello? {
      HelloKeepsHolder(s.readers, s.active);
      HelloKeepsGenerations(s.readers, s.genSource);
      HelloKeepsAgreement(s.readers, s.genSource, Summary(s.sent));
    } else if t.SwapActive? || t.DrawGeneration? || t.ClearActive? {
      ClaimKeeps(cfg, s, t);
    } else if t.SendConnected? {
      ConnectedKeeps(cfg, s, t.r);
    } else if t.SendTerminal? {
      TerminalKeeps(cfg, s, t.r);
    } else if t.SendCancel? || t.Deliver? {
      NoticeKeeps(cfg, s, t);
    } else {
      assert SameChannel(s, Apply(cfg, s, t));
    }
  }

  lemma {:induction false} Always(cfg: Config, steps: seq<Step>)
    requires Run(cfg, steps).Some?
    ensures Inv(Run(cfg, steps).value)
  {
    if steps != [] {
      Always(cfg, steps[..|steps| - 1]);
      StepKeeps(cfg, Run(cfg, steps[..|steps| - 1]).value, steps[|steps| - 1]);
    }
  }
}
