/** The channel's law is exact: the lawful histories are those that some schedule sends. */
module Exactness {
  import opened Wrappers
  import opened EventLoop
  import opened Channel
  import opened Protocol
  import ReaderInv

  /** P holds of whatever follows a state it holds of. The lemmas below build runs for any such P. */
  ghost predicate Closed(cfg: Config, P: State -> bool) {
    forall s, t :: P(s) && Enabled(s, t) ==> P(Apply(cfg, s, t))
  }

  lemma Go(cfg: Config, P: State -> bool, s: State, t: Step, v: State)
    requires Closed(cfg, P) && P(s) && Enabled(s, t) && v == Apply(cfg, s, t)
    ensures P(v)
  {
  }

  lemma ReachableIsClosed(cfg: Config)
    ensures Closed(cfg, s => Reachable(cfg, s)) && Reachable(cfg, Init(cfg))
  {
    assert Run(cfg, []) == Some(Init(cfg));
    forall s, t | Reachable(cfg, s) && Enabled(s, t) ensures Reachable(cfg, Apply(cfg, s, t)) {
      var steps :| Run(cfg, steps) == Some(s);
      assert (steps + [t])[..|steps|] == steps;
      assert Run(cfg, steps + [t]) == Some(Apply(cfg, s, t));
    }
  }

  /** The terminal event generation g has in a history, if it has one. */
  function TerminalIn(ms: seq<Msg>, g: nat): Event {
    if Msg(PingTimeout(g), g) in ms then PingTimeout(g)
    else if Msg(Quit, g) in ms then Quit
    else HeartbeatLost(g)
  }

  lemma TerminalIsUnique(ms: seq<Msg>, k: nat)
    requires Lawful(ms) && k < |ms| && Terminal(ms[k])
    ensures TerminalIn(ms, ms[k].src) == ms[k].ev
  {
    assert Allowed(Summary(ms[..k]), ms[k]);
    forall i | 0 <= i < |ms| && Terminal(ms[i]) && ms[i].src == ms[k].src ensures i == k {
      OrderLaw(ms, i, k);
    }
    assert ms[k] in ms;
  }

  /** Where the reader of generation g stands once the history is summed up by c. */
  function Stand(ms: seq<Msg>, c: Chan, g: nat): Reader {
    if g !in c.open then Returned(g)
    else if g == c.last then Reading(g)
    else Ending(g, TerminalIn(ms, g))
  }

  /** A state in which only readers and signals have moved. */
  function Stage(cfg: Config, rs: seq<Reader>, active: bool, n: nat, sent: seq<Msg>): State {
    Init(cfg).(readers := rs, active := active, genSource := n, sent := sent)
  }

  function Readers(ms: seq<Msg>, c: Chan): seq<Reader> {
    seq(c.last, i requires 0 <= i < c.last => Stand(ms, c, i + 1))
  }

  /** One reader per generation, each where the first k messages put it. */
  function Staged(cfg: Config, ms: seq<Msg>, k: nat): State
    requires k <= |ms|
  {
    var c := Summary(ms[..k]);
    Stage(cfg, Readers(ms, c), c.last in c.open, c.last, ms[..k])
  }

  lemma Clear(cfg: Config, P: State -> bool, rs: seq<Reader>, n: nat, sent: seq<Msg>, r: nat, last: Event)
    requires Closed(cfg, P) && P(Stage(cfg, rs, true, n, sent))
    requires r < |rs| && rs[r].Reading? && TerminalOf(last, rs[r].g)
    ensures P(Stage(cfg, rs[r := Ending(rs[r].g, last)], false, n, sent))
  {
    Go(cfg, P, Stage(cfg, rs, true, n, sent), ClearActive(r, last),
       Stage(cfg, rs[r := Ending(rs[r].g, last)], false, n, sent));
  }

  lemma Finish(cfg: Config, P: State -> bool, rs: seq<Reader>, active: bool, n: nat, sent: seq<Msg>, r: nat)
    requires Closed(cfg, P) && P(Stage(cfg, rs, active, n, sent))
    requires r < |rs| && rs[r].Ending?
    ensures P(Stage(cfg, rs[r := Returned(rs[r].g)], active, n, sent + [Msg(rs[r].last, rs[r].g)]))
  {
    Go(cfg, P, Stage(cfg, rs, active, n, sent), SendTerminal(r),
       Stage(cfg, rs[r := Returned(rs[r].g)], active, n, sent + [Msg(rs[r].last, rs[r].g)]));
  }

  lemma Connect(cfg: Config, P: State -> bool, rs: seq<Reader>, n: nat, sent: seq<Msg>)
    requires Closed(cfg, P) && P(Stage(cfg, rs, false, n, sent))
    ensures P(Stage(cfg, rs + [Reading(n + 1)], true, n + 1, sent + [Msg(Connected(n + 1), n + 1)]))
  {
    var r := |rs|;
    var s1 := Stage(cfg, rs + [Greeted], false, n, sent);
    Go(cfg, P, Stage(cfg, rs, false, n, sent), Hello, s1);
    assert s1.readers[r := Claimed] == rs + [Claimed];
    var s2 := Stage(cfg, rs + [Claimed], true, n, sent);
    Go(cfg, P, s1, SwapActive(r), s2);
    assert s2.readers[r := Tagged(n + 1)] == rs + [Tagged(n + 1)];
    var s3 := Stage(cfg, rs + [Tagged(n + 1)], true, n + 1, sent);
    Go(cfg, P, s2, DrawGeneration(r), s3);
    assert s3.readers[r := Reading(n + 1)] == rs + [Reading(n + 1)];
    Go(cfg, P, s3, SendConnected(r), Stage(cfg, rs + [Reading(n + 1)], true, n + 1, sent + [Msg(Connected(n + 1), n + 1)]));
  }

  lemma Notice(cfg: Config, P: State -> bool, rs: seq<Reader>, active: bool, n: nat, sent: seq<Msg>, t: Step)
    requires Closed(cfg, P) && P(Stage(cfg, rs, active, n, sent))
    requires (t.SendCancel? && t.r < |rs| && rs[t.r].Reading?) || t.Deliver?
    ensures var m := if t.SendCancel? then Msg(Cancel, rs[t.r].g) else Msg(Event.Signal(t.sig), 0);
      P(Stage(cfg, rs, active, n, sent + [m]))
  {
    Go(cfg, P, Stage(cfg, rs, active, n, sent), t, Apply(cfg, Stage(cfg, rs, active, n, sent), t));
  }

  /** What the k-th message is to the summary before it. */
  lemma Message(ms: seq<Msg>, k: nat)
    requires Lawful(ms) && k < |ms|
    ensures var c := Summary(ms[..k]);
      && Allowed(c, ms[k]) && Summary(ms[..k + 1]) == Extend(c, ms[k]) && ms[..k + 1] == ms[..k] + [ms[k]]
      && 0 !in c.open && c.last + 1 !in c.open && (ms[k].src in c.open ==> 1 <= ms[k].src <= c.last)
  {
    assert ms[..k + 1][..k] == ms[..k];
    LawfulPrefix(ms, k);
    SummaryMeans(ms[..k], 0);
    SummaryMeans(ms[..k], Summary(ms[..k]).last + 1);
    SummaryMeans(ms[..k], ms[k].src);
  }

  lemma ConnectedReaders(ms: seq<Msg>, c: Chan)
    requires c.last + 1 !in c.open && 0 !in c.open
    ensures var rs := Readers(ms, c);
      Readers(ms, Chan(c.last + 1, c.open + {c.last + 1}))
      == (if c.last in c.open then rs[c.last - 1 := Ending(c.last, TerminalIn(ms, c.last))] else rs) + [Reading(c.last + 1)]
  {
  }

  lemma StageConnected(cfg: Config, P: State -> bool, ms: seq<Msg>, k: nat)
    requires Lawful(ms) && k < |ms| && ms[k].ev.Connected?
    requires Closed(cfg, P) && P(Staged(cfg, ms, k))
    ensures P(Staged(cfg, ms, k + 1))
  {
    var c := Summary(ms[..k]);
    var n, rs := c.last, Readers(ms, c);
    Message(ms, k);
    ConnectedReaders(ms, c);
    if n in c.open {
      Clear(cfg, P, rs, n, ms[..k], n - 1, TerminalIn(ms, n));
      Connect(cfg, P, rs[n - 1 := Ending(n, TerminalIn(ms, n))], n, ms[..k]);
    } else {
      Connect(cfg, P, rs, n, ms[..k]);
    }
  }

  /** The readers once generation g's terminal event is in the history. */
  lemma FinishedReaders(ms: seq<Msg>, c: Chan, g: nat)
    requires 1 <= g <= c.last && g in c.open && 0 !in c.open
    ensures Readers(ms, Chan(c.last, c.open - {g})) == Readers(ms, c)[g - 1 := Returned(g)]
  {
  }

  lemma StageTerminal(cfg: Config, P: State -> bool, ms: seq<Msg>, k: nat)
    requires Lawful(ms) && k < |ms| && Terminal(ms[k])
    requires Closed(cfg, P) && P(Staged(cfg, ms, k))
    ensures P(Staged(cfg, ms, k + 1))
  {
    var c, g := Summary(ms[..k]), ms[k].src;
    var n, rs := c.last, Readers(ms, c);
    Message(ms, k);
    TerminalIsUnique(ms, k);
    FinishedReaders(ms, c, g);
    if g == n {
      Clear(cfg, P, rs, n, ms[..k], n - 1, ms[k].ev);
      var cleared := rs[n - 1 := Ending(n, ms[k].ev)];
      Finish(cfg, P, cleared, false, n, ms[..k], n - 1);
      assert cleared[n - 1 := Returned(n)] == rs[n - 1 := Returned(n)];
    } else {
      assert rs[g - 1] == Ending(g, ms[k].ev);
      Finish(cfg, P, rs, n in c.open, n, ms[..k], g - 1);
    }
  }

  lemma StageNotice(cfg: Config, P: State -> bool, ms: seq<Msg>, k: nat)
    requires Lawful(ms) && k < |ms| && !ms[k].ev.Connected? && !Terminal(ms[k])
    requires Closed(cfg, P) && P(Staged(cfg, ms, k))
    ensures P(Staged(cfg, ms, k + 1))
  {
    var c := Summary(ms[..k]);
    Message(ms, k);
    var t := if ms[k].ev.Cancel? then SendCancel(c.last - 1) else Deliver(ms[k].ev.sig);
    Notice(cfg, P, Readers(ms, c), c.last in c.open, c.last, ms[..k], t);
  }

  lemma {:induction false} StagePrefix(cfg: Config, P: State -> bool, ms: seq<Msg>, k: nat)
    requires Closed(cfg, P) && P(Init(cfg)) && Lawful(ms) && k <= |ms|
    ensures P(Staged(cfg, ms, k))
  {
    if k == 0 {
      assert Readers(ms, Summary(ms[..0])) == [];
      assert Staged(cfg, ms, 0) == Init(cfg);
    } else {
      StagePrefix(cfg, P, ms, k - 1);
      if ms[k - 1].ev.Connected? {
        StageConnected(cfg, P, ms, k - 1);
      } else if Terminal(ms[k - 1]) {
        StageTerminal(cfg, P, ms, k - 1);
      } else {
        StageNotice(cfg, P, ms, k - 1);
      }
    }
  }

  /** Exactly the lawful histories can be in the channel. */
  lemma LawIsExact(cfg: Config, ms: seq<Msg>)
    ensures Lawful(ms) <==> exists s :: Reachable(cfg, s) && s.sent == ms
  {
    if Lawful(ms) {
      ReachableIsClosed(cfg);
      StagePrefix(cfg, s => Reachable(cfg, s), ms, |ms|);
      assert ms[..|ms|] == ms;
    }
    if s :| Reachable(cfg, s) && s.sent == ms {
      var steps :| Run(cfg, steps) == Some(s);
      ReaderInv.Always(cfg, steps);
    }
  }
}
