/**
 The order in which events can enter the watchdog's channel.

 `Chan` is what the channel's history says so far: the newest generation connected
 and the generations whose terminal event has not been sent. `Lawful` histories are
 those the readers' protocol allows (module Protocol proves it for every run). The
 lemmas here spell the law out over positions.
 */
module Channel {
  import opened EventLoop

  /** A sent event and the generation of the reader that sent it; 0 is the signal thread. */
  datatype Msg = Msg(ev: Event, src: nat)

  datatype Chan = Chan(last: nat, open: set<nat>)

  /** One of the two losses of generation g, or a QUIT. */
  predicate TerminalOf(ev: Event, g: nat) {
    ev == HeartbeatLost(g) || ev == PingTimeout(g) || ev == Quit
  }

  predicate Terminal(m: Msg) {
    m.ev.HeartbeatLost? || m.ev.PingTimeout? || m.ev.Quit?
  }

  predicate Allowed(c: Chan, m: Msg) {
    match m.ev
    case Connected(g) => g == c.last + 1 && m.src == g
    case Cancel => m.src == c.last && m.src in c.open
    case Signal(_) => m.src == 0
    case _ => TerminalOf(m.ev, m.src) && m.src in c.open
  }

  function Extend(c: Chan, m: Msg): Chan {
    match m.ev
    case Connected(g) => Chan(g, c.open + {g})
    case Cancel => c
    case Signal(_) => c
    case _ => Chan(c.last, c.open - {m.src})
  }

  function Summary(ms: seq<Msg>): Chan {
    if ms == [] then Chan(0, {}) else Extend(Summary(ms[..|ms| - 1]), ms[|ms| - 1])
  }

  ghost predicate Lawful(ms: seq<Msg>) {
    forall i :: 0 <= i < |ms| ==> Allowed(Summary(ms[..i]), ms[i])
  }

  lemma LawfulPrefix(ms: seq<Msg>, k: nat)
    requires k <= |ms| && Lawful(ms)
    ensures Lawful(ms[..k])
  {
    forall i | 0 <= i < k ensures Allowed(Summary(ms[..k][..i]), ms[..k][i]) {
      assert ms[..k][..i] == ms[..i];
    }
  }

  lemma LawfulSnoc(ms: seq<Msg>, m: Msg)
    requires Lawful(ms) && Allowed(Summary(ms), m)
    ensures Lawful(ms + [m]) && Summary(ms + [m]) == Extend(Summary(ms), m)
  {
    var longer := ms + [m];
    assert longer[..|ms|] == ms;
    forall i | 0 <= i < |longer| ensures Allowed(Summary(longer[..i]), longer[i]) {
      if i < |ms| {
        assert longer[..i] == ms[..i] && longer[i] == ms[i];
      }
    }
  }

  /** The generations that connected, in channel order. */
  function ConnectedGens(ms: seq<Msg>): seq<nat> {
    if ms == [] then []
    else
      var m := ms[|ms| - 1];
      ConnectedGens(ms[..|ms| - 1]) + if m.ev.Connected? then [m.ev.g] else []
  }

  lemma ConnectedSnoc(gens: seq<nat>, c: Chan, m: Msg)
    requires gens == seq(c.last, i => i + 1) && Allowed(c, m)
    ensures gens + (if m.ev.Connected? then [m.ev.g] else []) == seq(Extend(c, m).last, i => i + 1)
  {
  }

  /** Generations enter the channel exactly as 1, 2, 3, ... */
  lemma {:induction false} ConnectedInOrder(ms: seq<Msg>)
    requires Lawful(ms)
    ensures ConnectedGens(ms) == seq(Summary(ms).last, i => i + 1)
  {
    if ms != [] {
      var n := |ms| - 1;
      LawfulPrefix(ms, n);
      ConnectedInOrder(ms[..n]);
      ConnectedSnoc(ConnectedGens(ms[..n]), Summary(ms[..n]), ms[n]);
    }
  }

  /** Generation g has connected; generation g has sent its terminal event. */
  predicate Joined(ms: seq<Msg>, g: nat) {
    Msg(Connected(g), g) in ms
  }

  predicate Finished(ms: seq<Msg>, g: nat) {
    Msg(HeartbeatLost(g), g) in ms || Msg(PingTimeout(g), g) in ms || Msg(Quit, g) in ms
  }

  lemma LastStep(c: Chan, ms: seq<Msg>, m: Msg, g: nat)
    requires Allowed(c, m) && (Joined(ms, g) <==> 1 <= g <= c.last)
    ensures Joined(ms + [m], g) <==> 1 <= g <= Extend(c, m).last
  {
    assert Joined(ms + [m], g) == (Joined(ms, g) || m == Msg(Connected(g), g));
  }

  lemma {:induction false} LastMeans(ms: seq<Msg>, g: nat)
    requires Lawful(ms)
    ensures Joined(ms, g) <==> 1 <= g <= Summary(ms).last
  {
    if ms != [] {
      var n := |ms| - 1;
      LawfulPrefix(ms, n);
      LastMeans(ms[..n], g);
      LastStep(Summary(ms[..n]), ms[..n], ms[n], g);
      assert ms == ms[..n] + [ms[n]];
    }
  }

  lemma OpenStep(c: Chan, ms: seq<Msg>, m: Msg, g: nat)
    requires Allowed(c, m)
    requires Joined(ms, g) <==> 1 <= g <= c.last
    requires g in c.open <==> Joined(ms, g) && !Finished(ms, g)
    requires Finished(ms, g) ==> Joined(ms, g)
    ensures g in Extend(c, m).open <==> Joined(ms + [m], g) && !Finished(ms + [m], g)
    ensures Finished(ms + [m], g) ==> Joined(ms + [m], g)
  {
    assert Joined(ms + [m], g) == (Joined(ms, g) || m == Msg(Connected(g), g));
    assert Finished(ms + [m], g) == (Finished(ms, g) || (TerminalOf(m.ev, g) && m.src == g));
  }

  lemma {:induction false} OpenMeans(ms: seq<Msg>, g: nat)
    requires Lawful(ms)
    ensures g in Summary(ms).open <==> Joined(ms, g) && !Finished(ms, g)
    ensures Finished(ms, g) ==> Joined(ms, g)
  {
    if ms != [] {
      var n := |ms| - 1;
      LawfulPrefix(ms, n);
      LastMeans(ms[..n], g);
      OpenMeans(ms[..n], g);
      OpenStep(Summary(ms[..n]), ms[..n], ms[n], g);
      assert ms == ms[..n] + [ms[n]];
    }
  }

  /** The summary's two fields, read back from the history. */
  lemma SummaryMeans(ms: seq<Msg>, g: nat)
    requires Lawful(ms)
    ensures Joined(ms, g) <==> 1 <= g <= Summary(ms).last
    ensures g in Summary(ms).open <==> Joined(ms, g) && !Finished(ms, g)
    ensures Finished(ms, g) ==> Joined(ms, g)
  {
    LastMeans(ms, g);
    OpenMeans(ms, g);
  }

  /**
   The order law over positions. A reader's terminal event comes after its own
   `Connected` and is its only one; each of its cancels comes after its `Connected`,
   before its terminal event, and before any newer `Connected`. So only terminal
   events can be overtaken.
   */
  lemma OrderLaw(ms: seq<Msg>, i: nat, j: nat)
    requires Lawful(ms) && i < |ms| && j < |ms|
    ensures ms[i].ev.Connected? && ms[j].ev.Connected? && i < j ==> ms[i].ev.g < ms[j].ev.g
    ensures Terminal(ms[i]) ==> exists k :: 0 <= k < i && ms[k] == Msg(Connected(ms[i].src), ms[i].src)
    ensures Terminal(ms[i]) && Terminal(ms[j]) && ms[i].src == ms[j].src ==> i == j
    ensures ms[i].ev.Cancel? ==> exists k :: 0 <= k < i && ms[k] == Msg(Connected(ms[i].src), ms[i].src)
    ensures ms[i].ev.Cancel? && Terminal(ms[j]) && ms[i].src == ms[j].src ==> i < j
    ensures ms[i].ev.Cancel? && ms[j].ev.Connected? && ms[i].src < ms[j].ev.g ==> i < j
  {
    if Terminal(ms[i]) || ms[i].ev.Cancel? {
      BackTo(ms, i);
    }
    if Terminal(ms[j]) {
      BackTo(ms, j);
    }
    if i < j {
      LawfulPrefix(ms, j);
      assert ms[..j][i] == ms[i];
      if ms[i].ev.Connected? && ms[j].ev.Connected? {
        SummaryMeans(ms[..j], ms[i].ev.g);
      }
    }
    if j < i {
      LawfulPrefix(ms, i);
      assert ms[..i][j] == ms[j];
      if ms[j].ev.Connected? {
        SummaryMeans(ms[..i], ms[j].ev.g);
      }
    }
  }

  lemma BackTo(ms: seq<Msg>, i: nat)
    requires Lawful(ms) && i < |ms|
    requires ms[i].src in Summary(ms[..i]).open
    ensures exists k :: 0 <= k < i && ms[k] == Msg(Connected(ms[i].src), ms[i].src)
    ensures forall k :: 0 <= k < i && Terminal(ms[k]) ==> ms[k].src != ms[i].src
  {
    LawfulPrefix(ms, i);
    SummaryMeans(ms[..i], ms[i].src);
    var k :| 0 <= k < i && ms[..i][k] == Msg(Connected(ms[i].src), ms[i].src);
    assert ms[k] == ms[..i][k];
    UnfinishedBefore(ms, i, ms[i].src);
  }

  lemma UnfinishedBefore(ms: seq<Msg>, i: nat, g: nat)
    requires Lawful(ms) && i < |ms| && !Finished(ms[..i], g)
    ensures forall k :: 0 <= k < i && Terminal(ms[k]) ==> ms[k].src != g
  {
    forall k | 0 <= k < i && Terminal(ms[k]) ensures ms[k].src != g {
      assert Allowed(Summary(ms[..k]), ms[k]);
      assert ms[..i][k] == ms[k] && ms[k] in ms[..i];
    }
  }
}
