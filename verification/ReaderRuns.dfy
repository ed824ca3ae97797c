/**
 The reader thread's shared operations are steps of the watchdog's machine, however the
 other threads' steps fall between them.
 */
module ReaderRuns {
  import opened Wrappers
  import opened EventLoop
  import opened Channel
  import opened Protocol
  import Framing
  import opened Heartbeat

  /** The machine's step for a shared operation of reader r. */
  function StepOf(r: nat, op: Op): Step
    requires !op.Reply?
  {
    match op
    case SwapActive(_) => Step.SwapActive(r)
    case DrawGeneration(_) => Step.DrawGeneration(r)
    case Send(Connected(_)) => SendConnected(r)
    case Send(Cancel) => SendCancel(r)
    case Send(_) => SendTerminal(r)
    case ClearActive(last) => Step.ClearActive(r, last)
  }

  /** The operation saw what the machine's state shows. */
  predicate Observes(s: State, op: Op) {
    match op
    case SwapActive(held) => held == s.active
    case DrawGeneration(g) => g == s.genSource + 1
    case _ => true
  }

  /** The operation comes next for a reader that stands at x. */
  predicate ComesNext(x: Reader, op: Op) {
    match x
    case Greeted => op.SwapActive?
    case Claimed => op.DrawGeneration?
    case Tagged(g) => op == Send(Connected(g))
    case Reading(g) => op == Send(Cancel) || (op.ClearActive? && TerminalOf(op.last, g))
    case Ending(g, last) => op == Send(last) && TerminalOf(last, g)
    case _ => false
  }

  function Stands(x: Reader, op: Op): Reader
    requires ComesNext(x, op)
  {
    match x
    case Greeted => if op.held then Refused else Claimed
    case Claimed => Tagged(op.g)
    case Tagged(g) => Reading(g)
    case Reading(g) => if op.Send? then x else Ending(g, op.last)
    case Ending(g, _) => Returned(g)
  }

  /** Where a reader stands after its shared operations, from its HELLO on. */
  function Where(ops: seq<Op>): Option<Reader> {
    if ops == [] then Some(Greeted)
    else
      match Where(ops[..|ops| - 1])
      case None => None
      case Some(x) => if ComesNext(x, ops[|ops| - 1]) then Some(Stands(x, ops[|ops| - 1])) else None
  }

  // ----- One operation ------------------------------------------------------------------

  /**
   An operation that comes next is a step the machine can take. It moves this reader alone,
   sets `active`, draws the generation, and sends exactly its event under the reader's own
   generation.
   */
  lemma OpIsStep(cfg: Config, s: State, r: nat, op: Op)
    requires !s.world.dead && r < |s.readers| && ComesNext(s.readers[r], op)
    ensures Enabled(s, StepOf(r, op))
    ensures Observes(s, op) ==> Apply(cfg, s, StepOf(r, op)) == s.(
      readers := s.readers[r := Stands(s.readers[r], op)],
      active := if op.SwapActive? then true else if op.ClearActive? then false else s.active,
      genSource := if op.DrawGeneration? then op.g else s.genSource,
      sent := s.sent + if op.Send? then [Msg(op.ev, s.readers[r].g)] else [])
  {
    assert s.sent + [] == s.sent;
    assert s.readers[r := s.readers[r]] == s.readers;
  }

  /** A step of reader r's own. */
  predicate IsOf(t: Step, r: nat) {
    (t.SwapActive? || t.DrawGeneration? || t.SendConnected? || t.SendCancel? || t.ClearActive? || t.SendTerminal?) && t.r == r
  }

  /** Every other step leaves reader r where it stands. */
  lemma OthersLeaveReader(cfg: Config, s: State, t: Step, r: nat)
    requires Enabled(s, t) && !IsOf(t, r) && r < |s.readers|
    ensures r < |Apply(cfg, s, t).readers| && Apply(cfg, s, t).readers[r] == s.readers[r]
  {
  }

  // ----- All of them, interleaved -----------------------------------------------------------

  /** A turn of the reader, or of any other thread. */
  datatype Turn = Own(op: Op) | Other(t: Step)

  function Woven(cfg: Config, s: State, r: nat, turns: seq<Turn>): Option<State> {
    if turns == [] then Some(s)
    else
      match Woven(cfg, s, r, turns[..|turns| - 1])
      case None => None
      case Some(u) =>
        match turns[|turns| - 1]
        case Own(op) =>
          if !op.Reply? && Observes(u, op) && Enabled(u, StepOf(r, op)) then Some(Apply(cfg, u, StepOf(r, op))) else None
        case Other(t) =>
          if !IsOf(t, r) && Enabled(u, t) then Some(Apply(cfg, u, t)) else None
  }

  function OwnOps(turns: seq<Turn>): seq<Op> {
    if turns == [] then []
    else OwnOps(turns[..|turns| - 1]) + if turns[|turns| - 1].Own? then [turns[|turns| - 1].op] else []
  }

  lemma WhereSnoc(ops: seq<Op>, op: Op)
    ensures Where(ops + [op])
         == match Where(ops)
            case None => None
            case Some(x) => if ComesNext(x, op) then Some(Stands(x, op)) else None
  {
    assert (ops + [op])[..|ops|] == ops;
  }

  /** Whatever the other threads do in between, the machine's reader stands where its operations put it. */
  lemma {:induction false} ReaderFollows(cfg: Config, s: State, r: nat, turns: seq<Turn>)
    requires r < |s.readers| && s.readers[r] == Greeted
    requires Woven(cfg, s, r, turns).Some? && Where(OwnOps(turns)).Some?
    ensures var v := Woven(cfg, s, r, turns).value; r < |v.readers| && v.readers[r] == Where(OwnOps(turns)).value
  {
    if turns != [] {
      var front, last := turns[..|turns| - 1], turns[|turns| - 1];
      var u := Woven(cfg, s, r, front).value;
      match last
      case Own(op) =>
        WhereSnoc(OwnOps(front), op);
        ReaderFollows(cfg, s, r, front);
        OpIsStep(cfg, u, r, op);
      case Other(t) =>
        assert OwnOps(turns) == OwnOps(front);
        ReaderFollows(cfg, s, r, front);
        OthersLeaveReader(cfg, u, t, r);
    }
  }

  lemma {:induction false} PrefixStands(ops: seq<Op>, k: nat)
    requires Where(ops).Some? && k < |ops|
    ensures Where(ops[..k]).Some? && ComesNext(Where(ops[..k]).value, ops[k])
  {
    if k < |ops| - 1 {
      PrefixStands(ops[..|ops| - 1], k);
      assert ops[..|ops| - 1][..k] == ops[..k];
    }
  }

  // ----- What the reader thread does -----------------------------------------------------

  lemma OpeningStands(g: nat)
    ensures Where(Opening(g)) == Some(Reading(g))
  {
    WhereSnoc([], Op.SwapActive(false));
    WhereSnoc([Op.SwapActive(false)], Op.DrawGeneration(g));
    WhereSnoc([Op.SwapActive(false)] + [Op.DrawGeneration(g)], Send(Connected(g)));
    assert [] + [Op.SwapActive(false)] == [Op.SwapActive(false)];
    assert Opening(g) == [Op.SwapActive(false)] + [Op.DrawGeneration(g)] + [Send(Connected(g))];
  }

  lemma {:induction false} CancelsStand(v: VerbOf, g: nat, lines: seq<Framing.Bytes>)
    ensures Where(Opening(g) + Cancels(v, lines)) == Some(Reading(g))
  {
    if lines == [] {
      OpeningStands(g);
      assert Opening(g) + Cancels(v, lines) == Opening(g);
    } else {
      var cs := Cancels(v, lines[..|lines| - 1]);
      CancelsStand(v, g, lines[..|lines| - 1]);
      if IsCancel(v, lines[|lines| - 1]) {
        WhereSnoc(Opening(g) + cs, Send(Cancel));
        assert Opening(g) + (cs + [Send(Cancel)]) == Opening(g) + cs + [Send(Cancel)];
      } else {
        assert Opening(g) + (cs + []) == Opening(g) + cs;
      }
    }
  }

  lemma ClosingStands(v: VerbOf, g: nat, lines: seq<Framing.Bytes>, last: Event)
    requires TerminalOf(last, g)
    ensures Where(Opening(g) + Cancels(v, lines) + Closing(last)) == Some(Returned(g))
  {
    var ops := Opening(g) + Cancels(v, lines);
    CancelsStand(v, g, lines);
    WhereSnoc(ops, Op.ClearActive(last));
    WhereSnoc(ops + [Op.ClearActive(last)], Send(last));
    assert ops + Closing(last) == ops + [Op.ClearActive(last)] + [Send(last)];
  }

  /** A refused connection's reader stands refused. */
  lemma RefusedFollowsProtocol(cfg: Config, s: State, r: nat, turns: seq<Turn>)
    requires r < |s.readers| && s.readers[r] == Greeted && Woven(cfg, s, r, turns).Some?
    requires OwnOps(turns) == [Op.SwapActive(true)]
    ensures var v := Woven(cfg, s, r, turns).value; r < |v.readers| && v.readers[r] == Refused
  {
    WhereSnoc([], Op.SwapActive(true));
    assert [] + [Op.SwapActive(true)] == [Op.SwapActive(true)];
    ReaderFollows(cfg, s, r, turns);
  }

  /** A reader still reading stands reading, under the generation it drew. */
  lemma ReadingFollowsProtocol(cfg: Config, s: State, r: nat, turns: seq<Turn>,
                               v: VerbOf, g: nat, bytes: Framing.Bytes, ops: seq<Op>, lines: seq<Framing.Bytes>, line: Framing.Bytes)
    requires r < |s.readers| && s.readers[r] == Greeted && Woven(cfg, s, r, turns).Some?
    requires Going(v, g, bytes, ops, lines, line) && OwnOps(turns) == Shared(ops)
    ensures var u := Woven(cfg, s, r, turns).value; r < |u.readers| && u.readers[r] == Reading(g)
  {
    CancelsStand(v, g, lines);
    ReaderFollows(cfg, s, r, turns);
  }

  /** A reader that stopped has returned. */
  lemma ReturnedFollowsProtocol(cfg: Config, s: State, r: nat, turns: seq<Turn>,
                                v: VerbOf, g: nat, bytes: Framing.Bytes, ops: seq<Op>, lines: seq<Framing.Bytes>, last: Event)
    requires r < |s.readers| && s.readers[r] == Greeted && Woven(cfg, s, r, turns).Some?
    requires Gone(v, g, bytes, ops, lines, last) && TerminalOf(last, g) && OwnOps(turns) == Shared(ops)
    ensures var u := Woven(cfg, s, r, turns).value; r < |u.readers| && u.readers[r] == Returned(g)
  {
    ClosingStands(v, g, lines, last);
    ReaderFollows(cfg, s, r, turns);
  }

  /** The machine never holds a reader back: part way through, its next operation is enabled. */
  lemma NextOpIsEnabled(cfg: Config, s: State, r: nat, turns: seq<Turn>,
                        v: VerbOf, g: nat, bytes: Framing.Bytes, ops: seq<Op>, lines: seq<Framing.Bytes>, last: Event, k: nat)
    requires r < |s.readers| && s.readers[r] == Greeted && Woven(cfg, s, r, turns).Some?
    requires Gone(v, g, bytes, ops, lines, last) && TerminalOf(last, g)
    requires k < |Shared(ops)| && OwnOps(turns) == Shared(ops)[..k]
    ensures !Shared(ops)[k].Reply?
    ensures var u := Woven(cfg, s, r, turns).value; !u.world.dead ==> Enabled(u, StepOf(r, Shared(ops)[k]))
  {
    ClosingStands(v, g, lines, last);
    PrefixStands(Shared(ops), k);
    ReaderFollows(cfg, s, r, turns);
    if !Woven(cfg, s, r, turns).value.world.dead {
      OpIsStep(cfg, Woven(cfg, s, r, turns).value, r, Shared(ops)[k]);
    }
  }
}
