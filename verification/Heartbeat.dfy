/**
 The reader thread of one heartbeat connection: how it cuts its bytes into lines,
 what it sends, and when it declares a ping missed. Module ReaderRuns shows that its
 shared operations are steps of the watchdog's machine.
 */
module Heartbeat {
  import opened Wrappers
  import opened EventLoop
  import opened Framing

  /** How a line's verb is read: its upper-cased first word, once decoded as text. */
  type VerbOf = Bytes -> string

  datatype Read = Got(c: char) | Eof | Pause | Failed

  /** One turn of the read loop: the clock at the deadline check, the read, the clock after it. */
  datatype Poll = Poll(check: nat, read: Read, after: nat)

  /** What a reader does, with what it saw: the flag its swap found, the generation it drew. */
  datatype Op =
    | SwapActive(held: bool)
    | DrawGeneration(g: nat)
    | Send(ev: Event)
    | ClearActive(last: Event)     // and the terminal event its branch goes on to send
    | Reply(text: string)

  datatype End = Busy | StillReading | Over(last: Event)

  function BytesOf(ps: seq<Poll>): Bytes {
    if ps == [] then []
    else
      var p := ps[|ps| - 1];
      BytesOf(ps[..|ps| - 1]) + if p.read.Got? then [p.read.c] else []
  }

  /** When the last line was completed, or the connection accepted. */
  function LastLine(start: nat, ps: seq<Poll>): nat {
    if ps == [] then start
    else if ps[|ps| - 1].read == Got('\n') then ps[|ps| - 1].after
    else LastLine(start, ps[..|ps| - 1])
  }

  /** The deadline counts from the last newline read, or from the start. */
  lemma {:induction false} LastLineIs(start: nat, ps: seq<Poll>, j: int)
    requires -1 <= j < |ps| && (j >= 0 ==> ps[j].read == Got('\n'))
    requires forall k :: j < k < |ps| ==> ps[k].read != Got('\n')
    ensures LastLine(start, ps) == if j >= 0 then ps[j].after else start
  {
    if ps != [] && j < |ps| - 1 {
      LastLineIs(start, ps[..|ps| - 1], j);
    }
  }

  predicate Missed(ping: Option<nat>, start: nat, ps: seq<Poll>, k: nat)
    requires k < |ps|
  {
    ping.Some? && ps[k].check >= LastLine(start, ps[..k]) + ping.value
  }

  /** The operations other threads can see, without the replies. */
  function Shared(ops: seq<Op>): seq<Op> {
    if ops == [] then []
    else Shared(ops[..|ops| - 1]) + if ops[|ops| - 1].Reply? then [] else [ops[|ops| - 1]]
  }

  predicate IsCancel(v: VerbOf, line: Bytes) {
    v(line) == "CANCEL"
  }

  /** One CANCEL event for each line whose first word is CANCEL. */
  function Cancels(v: VerbOf, lines: seq<Bytes>): seq<Op> {
    if lines == [] then []
    else
      Cancels(v, lines[..|lines| - 1])
      + if IsCancel(v, lines[|lines| - 1]) then [Send(Cancel)] else []
  }

  lemma SharedSnoc(ops: seq<Op>, op: Op)
    ensures Shared(ops + [op]) == Shared(ops) + if op.Reply? then [] else [op]
  {
    assert (ops + [op])[..|ops|] == ops;
  }

  function ReplyTo(verb: string): string {
    match verb
    case "HELLO" => "WELCOME\n"
    case "PING" => "PONG\n"
    case "CANCEL" => "CANCELLED\n"
    case "QUIT" => "BYE\n"
    case _ => "ERR unknown-verb\n"
  }

  /** What a line of each verb but QUIT makes the reader do. */
  function LineOps(verb: string): seq<Op> {
    match verb
    case "" => []
    case "CANCEL" => [Send(Cancel), Reply(ReplyTo("CANCEL"))]
    case _ => [Reply(ReplyTo(verb))]
  }

  lemma LineIsAnswered(verb: string)
    ensures verb == "HELLO" ==> LineOps(verb) == [Reply("WELCOME\n")]
    ensures verb == "PING" ==> LineOps(verb) == [Reply("PONG\n")]
    ensures verb == "CANCEL" ==> LineOps(verb) == [Send(Cancel), Reply("CANCELLED\n")]
    ensures verb == "" ==> LineOps(verb) == []
    ensures verb !in {"HELLO", "PING", "CANCEL", "QUIT", ""} ==> LineOps(verb) == [Reply("ERR unknown-verb\n")]
  {
  }

  /** What a list of lines, none of them QUIT, makes the reader do. */
  function Transcript(v: VerbOf, lines: seq<Bytes>): seq<Op> {
    if lines == [] then [] else Transcript(v, lines[..|lines| - 1]) + LineOps(v(lines[|lines| - 1]))
  }

  /** Line by line: each is answered by its own verb, and only a CANCEL is passed on. */
  lemma TranscriptGrows(v: VerbOf, lines: seq<Bytes>, line: Bytes)
    ensures Transcript(v, []) == []
    ensures v(line) != "QUIT" ==>
      Transcript(v, lines + [line]) == Transcript(v, lines)
        + (if v(line) == "HELLO" then [Reply("WELCOME\n")]
           else if v(line) == "PING" then [Reply("PONG\n")]
           else if v(line) == "CANCEL" then [Send(Cancel), Reply("CANCELLED\n")]
           else if v(line) == "" then []
           else [Reply("ERR unknown-verb\n")])
  {
    LineIsAnswered(v(line));
    assert (lines + [line])[..|lines|] == lines;
  }

  /** Handle one complete line other than QUIT. */
  method HandleLine(v: VerbOf, line: Bytes, ops: seq<Op>) returns (more: seq<Op>)
    ensures Shared(more) == Shared(ops) + Cancels(v, [line])
    ensures more == ops + LineOps(v(line))
  {
    var verb := v(line);
    more := ops;
    assert [line][..0] == [];
    if verb == "CANCEL" {
      SharedSnoc(more, Send(Cancel));
      more := more + [Send(Cancel)];
    }
    if verb != "" {
      SharedSnoc(more, Reply(ReplyTo(verb)));
      more := more + [Reply(ReplyTo(verb))];
    }
  }

  function Opening(g: nat): seq<Op> {
    [SwapActive(false), DrawGeneration(g), Send(Connected(g))]
  }

  function Closing(ev: Event): seq<Op> {
    [ClearActive(ev), Send(ev)]
  }

  /** An accepted connection's first operations. */
  function Accepted(g: nat): seq<Op> {
    [SwapActive(false), DrawGeneration(g), Send(Connected(g)), Reply("WELCOME\n")]
  }

  predicate IsQuit(v: VerbOf, line: Bytes) {
    v(line) == "QUIT"
  }

  ghost predicate NoQuit(v: VerbOf, lines: seq<Bytes>) {
    forall i :: 0 <= i < |lines| ==> !IsQuit(v, lines[i])
  }

  ghost predicate Short(lines: seq<Bytes>) {
    forall i :: 0 <= i < |lines| ==> |lines[i]| < MAX_LINE
  }

  /** A reader so far: the bytes read are cut into lines, and the operations are its opening and cancels. */
  ghost predicate Going(v: VerbOf, g: nat, s: Bytes, ops: seq<Op>, lines: seq<Bytes>, line: Bytes) {
    && lines == Lines(s) && line == Partial(s) && |line| < MAX_LINE && Short(lines) && NoQuit(v, lines)
    && Shared(ops) == Opening(g) + Cancels(v, lines)
    && ops == Accepted(g) + Transcript(v, lines)
  }

  /** A reader that has sent its terminal event: a QUIT line or an over-long one comes last. */
  ghost predicate Gone(v: VerbOf, g: nat, s: Bytes, ops: seq<Op>, lines: seq<Bytes>, last: Event) {
    match last
    case Quit =>
      && lines == Lines(s) && Short(lines)
      && lines != [] && IsQuit(v, lines[|lines| - 1]) && NoQuit(v, lines[..|lines| - 1])
      && Shared(ops) == Opening(g) + Cancels(v, lines) + Closing(last)
      && ops == Accepted(g) + Transcript(v, lines[..|lines| - 1]) + [Reply("BYE\n")] + Closing(last)
    case _ =>
      && lines == Lines(s) && Short(lines) && NoQuit(v, lines)
      && Shared(ops) == Opening(g) + Cancels(v, lines) + Closing(last)
      && ops == Accepted(g) + Transcript(v, lines) + Closing(last)
  }

  method Accept(ghost v: VerbOf, g: nat) returns (ops: seq<Op>)
    ensures Going(v, g, [], ops, [], [])
  {
    ops := [SwapActive(false)];
    assert ops[..0] == [];
    SharedSnoc(ops, DrawGeneration(g));
    SharedSnoc(ops + [DrawGeneration(g)], Send(Connected(g)));
    SharedSnoc(ops + [DrawGeneration(g)] + [Send(Connected(g))], Reply("WELCOME\n"));
    ops := ops + [DrawGeneration(g)] + [Send(Connected(g))] + [Reply("WELCOME\n")];
  }

  lemma LineEnds(s: Bytes, lines: seq<Bytes>, line: Bytes)
    requires lines == Lines(s) && line == Partial(s) && |line| < MAX_LINE && Short(lines)
    ensures Lines(s + ['\n']) == lines + [line] && Partial(s + ['\n']) == [] && Short(lines + [line])
  {
    assert (s + ['\n'])[..|s|] == s;
  }

  lemma CancelsSnoc(v: VerbOf, lines: seq<Bytes>, line: Bytes)
    ensures Cancels(v, lines + [line]) == Cancels(v, lines) + Cancels(v, [line])
    ensures !IsCancel(v, line) ==> Cancels(v, lines + [line]) == Cancels(v, lines)
    ensures NoQuit(v, lines) && !IsQuit(v, line) ==> NoQuit(v, lines + [line])
  {
    assert (lines + [line])[..|lines|] == lines && [line][..0] == [];
  }

  lemma Regrouped(a: seq<Op>, b: seq<Op>, c: seq<Op>)
    ensures a + b + c == a + (b + c)
  {
  }

  lemma LineGoes(v: VerbOf, g: nat, s: Bytes, ops: seq<Op>, lines: seq<Bytes>, line: Bytes, more: seq<Op>)
    requires Going(v, g, s, ops, lines, line) && !IsQuit(v, line)
    requires Shared(more) == Shared(ops) + Cancels(v, [line]) && more == ops + LineOps(v(line))
    ensures Going(v, g, s + ['\n'], more, lines + [line], [])
  {
    LineEnds(s, lines, line);
    CancelsSnoc(v, lines, line);
    assert (lines + [line])[..|lines|] == lines;
    Regrouped(Opening(g), Cancels(v, lines), Cancels(v, [line]));
    Regrouped(Accepted(g), Transcript(v, lines), LineOps(v(line)));
  }

  lemma LineQuits(v: VerbOf, g: nat, s: Bytes, ops: seq<Op>, lines: seq<Bytes>, line: Bytes, more: seq<Op>)
    requires Going(v, g, s, ops, lines, line) && IsQuit(v, line)
    requires Shared(more) == Shared(ops) + Closing(Quit) && more == ops + [Reply("BYE\n")] + Closing(Quit)
    ensures Gone(v, g, s + ['\n'], more, lines + [line], Quit)
  {
    LineEnds(s, lines, line);
    CancelsSnoc(v, lines, line);
    assert (lines + [line])[..|lines|] == lines;
  }

  /** The newline that completes a line. `quit` says that the line ends the reader. */
  method EndLine(v: VerbOf, g: nat, ghost s: Bytes, ops: seq<Op>, lines: seq<Bytes>, line: Bytes)
    returns (quit: bool, ops': seq<Op>)
    requires Going(v, g, s, ops, lines, line)
    ensures if quit then Gone(v, g, s + ['\n'], ops', lines + [line], Quit)
            else Going(v, g, s + ['\n'], ops', lines + [line], [])
  {
    quit := IsQuit(v, line);
    if quit {
      SharedSnoc(ops, Reply("BYE\n"));
      ops' := Close(ops + [Reply("BYE\n")], Quit);
      LineQuits(v, g, s, ops, lines, line, ops');
    } else {
      ops' := HandleLine(v, line, ops);
      LineGoes(v, g, s, ops, lines, line, ops');
    }
  }

  /** Any other byte. `long` says that the line has reached the bound, which ends the reader. */
  method AddByte(ghost v: VerbOf, g: nat, c: char, ghost s: Bytes, ops: seq<Op>, ghost lines: seq<Bytes>, line: Bytes)
    returns (long: bool, ops': seq<Op>)
    requires Going(v, g, s, ops, lines, line) && c != '\n'
    ensures if long then Gone(v, g, s + [c], ops', lines, HeartbeatLost(g)) && |Partial(s + [c])| == MAX_LINE
            else Going(v, g, s + [c], ops', lines, line + [c])
  {
    assert (s + [c])[..|s|] == s;
    long := |line| + 1 >= MAX_LINE;
    ops' := ops;
    if long {
      ops' := Close(ops, HeartbeatLost(g));
    }
  }

  /** One byte. `end` is the terminal event when it ends the reader. */
  method TakeByte(v: VerbOf, g: nat, c: char, ghost s: Bytes, ops: seq<Op>, lines: seq<Bytes>, line: Bytes)
    returns (end: Option<Event>, ops': seq<Op>, lines': seq<Bytes>, line': Bytes)
    requires Going(v, g, s, ops, lines, line)
    ensures match end
            case None => Going(v, g, s + [c], ops', lines', line')
            case Some(ev) =>
              && Gone(v, g, s + [c], ops', lines', ev)
              && (ev == Quit || (ev == HeartbeatLost(g) && |Partial(s + [c])| == MAX_LINE))
  {
    end := None;
    if c == '\n' {
      var quit;
      quit, ops' := EndLine(v, g, s, ops, lines, line);
      lines', line' := lines + [line], [];
      if quit {
        end := Some(Quit);
      }
    } else {
      var long;
      long, ops' := AddByte(v, g, c, s, ops, lines, line);
      lines', line' := lines, line + [c];
      if long {
        end := Some(HeartbeatLost(g));
      }
    }
  }

  /** A loss: clear `active`, then say so. */
  method Lose(ghost v: VerbOf, g: nat, ghost s: Bytes, ops: seq<Op>, ghost lines: seq<Bytes>, ghost line: Bytes, ev: Event)
    returns (more: seq<Op>)
    requires Going(v, g, s, ops, lines, line) && ev != Quit
    ensures Gone(v, g, s, more, lines, ev)
  {
    more := Close(ops, ev);
  }

  /** Polls read without a missed ping, and not ended before the last of them. */
  ghost predicate Followed(ping: Option<nat>, start: nat, polls: seq<Poll>, used: nat) {
    && used <= |polls|
    && (forall k :: 0 <= k < used ==> !Missed(ping, start, polls, k))
    && (forall k :: 0 <= k < used - 1 ==> !polls[k].read.Eof? && !polls[k].read.Failed?)
  }

  lemma FollowedNext(ping: Option<nat>, start: nat, polls: seq<Poll>, used: nat)
    requires Followed(ping, start, polls, used) && used < |polls| && !Missed(ping, start, polls, used)
    requires used > 0 ==> !polls[used - 1].read.Eof? && !polls[used - 1].read.Failed?
    ensures Followed(ping, start, polls, used + 1)
  {
  }

  /** Why a reader may declare its heartbeat lost: end of stream, an error, or an over-long line. */
  predicate LostAt(polls: seq<Poll>, used: nat)
    requires used <= |polls|
  {
    used > 0 && (polls[used - 1].read.Eof? || polls[used - 1].read.Failed?
                 || |Partial(BytesOf(polls[..used]))| == MAX_LINE)
  }

  /** One read: a pause, a byte, or the end of the stream. `end` is the terminal event when it ends the reader. */
  method TakePoll(v: VerbOf, g: nat, polls: seq<Poll>, k: nat, ops: seq<Op>, lines: seq<Bytes>, line: Bytes)
    returns (end: Option<Event>, ops': seq<Op>, lines': seq<Bytes>, line': Bytes)
    requires k < |polls| && Going(v, g, BytesOf(polls[..k]), ops, lines, line)
    ensures match end
            case None =>
              Going(v, g, BytesOf(polls[..k + 1]), ops', lines', line') && !polls[k].read.Eof? && !polls[k].read.Failed?
            case Some(ev) =>
              && Gone(v, g, BytesOf(polls[..k + 1]), ops', lines', ev)
              && (ev == Quit || (ev == HeartbeatLost(g) && LostAt(polls, k + 1)))
  {
    GrowBytes(polls, k);
    end, ops', lines', line' := None, ops, lines, line;
    match polls[k].read
    case Pause =>
    case Got(c) =>
      end, ops', lines', line' := TakeByte(v, g, c, BytesOf(polls[..k]), ops, lines, line);
    case _ =>
      ops' := Lose(v, g, BytesOf(polls[..k]), ops, lines, line, HeartbeatLost(g));
      end := Some(HeartbeatLost(g));
  }

  /**
   Why a reader stopped after `used` polls: a QUIT, a missed ping it met, or a loss it
   read. Or it has read them all and goes on.
   */
  ghost predicate Stopped(end: End, v: VerbOf, g: nat, ping: Option<nat>, start: nat, polls: seq<Poll>, used: nat,
                          ops: seq<Op>, lines: seq<Bytes>, line: Bytes)
    requires used <= |polls|
  {
    match end
    case Busy => false
    case StillReading => used == |polls| && Going(v, g, BytesOf(polls), ops, lines, line)
    case Over(last) =>
      && Gone(v, g, BytesOf(polls[..used]), ops, lines, last)
      && (|| last == Quit
          || (last == PingTimeout(g) && used < |polls| && Missed(ping, start, polls, used))
          || (last == HeartbeatLost(g) && LostAt(polls, used)))
  }

  /** Before the next poll: nothing has stopped the reader, and its deadline counts from the last complete line. */
  ghost predicate InLoop(v: VerbOf, g: nat, ping: Option<nat>, start: nat, polls: seq<Poll>, used: nat,
                         deadline: Option<nat>, ops: seq<Op>, lines: seq<Bytes>, line: Bytes)
    requires used <= |polls|
  {
    && Going(v, g, BytesOf(polls[..used]), ops, lines, line)
    && Followed(ping, start, polls, used)
    && (used > 0 ==> !polls[used - 1].read.Eof? && !polls[used - 1].read.Failed?)
    && DeadlineOk(ping, LastLine(start, polls[..used]), deadline)
  }

  predicate DeadlineOk(ping: Option<nat>, line: nat, deadline: Option<nat>) {
    match ping
    case None => deadline == None
    case Some(t) => deadline == Some(line + t)
  }

  /** One poll past the deadline check. */
  method PassDeadline(v: VerbOf, g: nat, ping: Option<nat>, ghost start: nat, polls: seq<Poll>, k: nat,
                      deadline: Option<nat>, ops: seq<Op>, lines: seq<Bytes>, line: Bytes)
    returns (end: Option<Event>, deadline': Option<nat>, ops': seq<Op>, lines': seq<Bytes>, line': Bytes)
    requires k < |polls| && InLoop(v, g, ping, start, polls, k, deadline, ops, lines, line)
    requires deadline.Some? ==> polls[k].check < deadline.value
    ensures Followed(ping, start, polls, k + 1)
    ensures match end
            case None => InLoop(v, g, ping, start, polls, k + 1, deadline', ops', lines', line')
            case Some(ev) =>
              && Gone(v, g, BytesOf(polls[..k + 1]), ops', lines', ev)
              && (ev == Quit || (ev == HeartbeatLost(g) && LostAt(polls, k + 1)))
  {
    GrowLine(start, polls, k);
    FollowedNext(ping, start, polls, k);
    end, ops', lines', line' := TakePoll(v, g, polls, k, ops, lines, line);
    deadline' := if polls[k].read == Got('\n') && ping.Some? then Some(polls[k].after + ping.value) else deadline;
  }

  /** The reading loop of an accepted connection. */
  method ReadLoop(v: VerbOf, g: nat, ping: Option<nat>, start: nat, polls: seq<Poll>, opening: seq<Op>)
    returns (end: End, ops: seq<Op>, lines: seq<Bytes>, line: Bytes, used: nat)
    requires Going(v, g, [], opening, [], [])
    ensures Followed(ping, start, polls, used) && Stopped(end, v, g, ping, start, polls, used, ops, lines, line)
  {
    ops, lines, line, used := opening, [], [], 0;
    var deadline: Option<nat> := if ping.Some? then Some(start + ping.value) else None;
    while used < |polls|
      invariant used <= |polls| && InLoop(v, g, ping, start, polls, used, deadline, ops, lines, line)
    {
      if deadline.Some? && polls[used].check >= deadline.value {
        ops := Lose(v, g, BytesOf(polls[..used]), ops, lines, line, PingTimeout(g));
        return Over(PingTimeout(g)), ops, lines, line, used;
      }
      var ended;
      ended, deadline, ops, lines, line := PassDeadline(v, g, ping, start, polls, used, deadline, ops, lines, line);
      used := used + 1;
      if ended.Some? {
        return Over(ended.value), ops, lines, line, used;
      }
    }
    assert polls[..|polls|] == polls;
    end := StillReading;
  }

  /** All that an accepted reader says and sends, in order, and the lines it does so for. */
  lemma StoppedSays(end: End, v: VerbOf, g: nat, ping: Option<nat>, start: nat, polls: seq<Poll>, used: nat,
                    ops: seq<Op>, lines: seq<Bytes>, line: Bytes)
    requires used <= |polls| && Stopped(end, v, g, ping, start, polls, used, ops, lines, line)
    ensures lines == Lines(BytesOf(polls[..used]))
    ensures forall i :: 0 <= i < |lines| ==> |lines[i]| < 8192 && (v(lines[i]) == "QUIT" ==> i == |lines| - 1 && end == Over(Quit))
    ensures var opening := [SwapActive(false), DrawGeneration(g), Send(Connected(g)), Reply("WELCOME\n")];
      match end
      case Busy => false
      case StillReading => ops == opening + Transcript(v, lines)
      case Over(Quit) =>
        && lines != [] && v(lines[|lines| - 1]) == "QUIT"
        && ops == opening + Transcript(v, lines[..|lines| - 1]) + [Reply("BYE\n"), ClearActive(Quit), Send(Quit)]
      case Over(last) =>
        && (last == HeartbeatLost(g) || last == PingTimeout(g))
        && ops == opening + Transcript(v, lines) + [ClearActive(last), Send(last)]
  {
    assert polls[..|polls|] == polls;
    assert [Reply("BYE\n")] + Closing(Quit) == [Reply("BYE\n"), ClearActive(Quit), Send(Quit)];
    if end == Over(Quit) {
      var t := Accepted(g) + Transcript(v, lines[..|lines| - 1]);
      assert t + [Reply("BYE\n")] + Closing(Quit) == t + ([Reply("BYE\n")] + Closing(Quit));
      forall i | 0 <= i < |lines| && v(lines[i]) == "QUIT" ensures i == |lines| - 1 {
        if i < |lines| - 1 {
          assert IsQuit(v, lines[..|lines| - 1][i]);
        }
      }
    } else {
      forall i | 0 <= i < |lines| ensures v(lines[i]) != "QUIT" {
        assert !IsQuit(v, lines[i]);
      }
    }
  }

  /**
   The reader on what its socket and clock deliver. `held` is what the swap of
   `active` found; `g` is the generation drawn. Only a complete line moves the deadline,
   and the first check past it ends the reader; the lines handled are those of the bytes
   read, however the reads pause.
   */
  method HandleHeartbeat(v: VerbOf, held: bool, g: nat, ping: Option<nat>, start: nat, polls: seq<Poll>)
    returns (end: End, ops: seq<Op>, lines: seq<Bytes>, line: Bytes, used: nat)
    ensures held ==> end.Busy? && ops == [SwapActive(true), Reply("BUSY\n")] && used == 0
    ensures held ==> Shared(ops) == [SwapActive(true)]
    ensures !held ==> Followed(ping, start, polls, used) && Stopped(end, v, g, ping, start, polls, used, ops, lines, line)
    // Why it stops: the first check at or past the deadline, or the end of what it reads.
    ensures !held && ping.Some? ==> forall k :: 0 <= k < used ==> polls[k].check < LastLine(start, polls[..k]) + ping.value
    ensures !held && end == Over(PingTimeout(g)) ==>
      ping.Some? && used < |polls| && polls[used].check >= LastLine(start, polls[..used]) + ping.value
    ensures !held && end == Over(HeartbeatLost(g)) ==>
      && 0 < used <= |polls|
      && (polls[used - 1].read.Eof? || polls[used - 1].read.Failed? || |Partial(BytesOf(polls[..used]))| == 8192)
    // Which lines it handles, and everything it says and sends, in order.
    ensures !held ==> used <= |polls| && lines == Lines(BytesOf(polls[..used]))
    ensures forall i :: 0 <= i < |lines| ==> |lines[i]| < 8192 && (v(lines[i]) == "QUIT" ==> i == |lines| - 1 && end == Over(Quit))
    ensures !held ==> var opening := [SwapActive(false), DrawGeneration(g), Send(Connected(g)), Reply("WELCOME\n")];
      match end
      case Busy => false
      case StillReading => ops == opening + Transcript(v, lines)
      case Over(Quit) =>
        && lines != [] && v(lines[|lines| - 1]) == "QUIT"
        && ops == opening + Transcript(v, lines[..|lines| - 1]) + [Reply("BYE\n"), ClearActive(Quit), Send(Quit)]
      case Over(last) =>
        && (last == HeartbeatLost(g) || last == PingTimeout(g))
        && ops == opening + Transcript(v, lines) + [ClearActive(last), Send(last)]
  {
    if held {
      ops := [SwapActive(true)];
      assert ops[..0] == [];
      SharedSnoc(ops, Reply("BUSY\n"));
      return Busy, ops + [Reply("BUSY\n")], [], [], 0;
    }
    ops := Accept(v, g);
    end, ops, lines, line, used := ReadLoop(v, g, ping, start, polls, ops);
    StoppedSays(end, v, g, ping, start, polls, used, ops, lines, line);
    if ping.Some? {
      forall k | 0 <= k < used ensures polls[k].check < LastLine(start, polls[..k]) + ping.value {
        assert !Missed(ping, start, polls, k);
      }
    }
  }

  method Close(ops: seq<Op>, ev: Event) returns (more: seq<Op>)
    ensures Shared(more) == Shared(ops) + Closing(ev) && more == ops + Closing(ev)
  {
    SharedSnoc(ops, ClearActive(ev));
    SharedSnoc(ops + [ClearActive(ev)], Send(ev));
    more := ops + [ClearActive(ev)] + [Send(ev)];
  }

  /** The bytes read are those the reads got, in order. */
  lemma GrowBytes(polls: seq<Poll>, k: nat)
    requires k < |polls|
    ensures BytesOf(polls[..0]) == []
    ensures BytesOf(polls[..k + 1])
         == if polls[k].read.Got? then BytesOf(polls[..k]) + [polls[k].read.c] else BytesOf(polls[..k])
  {
    assert polls[..k + 1][..k] == polls[..k];
  }

  lemma GrowLine(start: nat, polls: seq<Poll>, k: nat)
    requires k < |polls|
    ensures LastLine(start, polls[..k + 1])
         == if polls[k].read == Got('\n') then polls[k].after else LastLine(start, polls[..k])
  {
    assert polls[..k + 1][..k] == polls[..k];
  }

  // ----- How late a missed ping can be noticed ------------------------------------------

  const POLL_MS: nat := 200

  function PollInterval(timeout: nat): nat {
    if timeout < POLL_MS then timeout else POLL_MS
  }

  /** Reads return within the poll interval, and the clock does not go back. */
  ghost predicate Prompt(start: nat, polls: seq<Poll>, interval: nat) {
    && (|polls| > 0 ==> start <= polls[0].check <= start + interval)
    && (forall k :: 0 <= k < |polls| ==> polls[k].check <= polls[k].after)
    && (forall k :: 0 <= k < |polls| - 1 ==> polls[k].after <= polls[k + 1].check <= polls[k].check + interval)
  }

  lemma {:induction false} LastLineIsPast(start: nat, polls: seq<Poll>, interval: nat, k: nat)
    requires Prompt(start, polls, interval) && k < |polls|
    ensures LastLine(start, polls[..k]) <= polls[k].check
  {
    if k > 0 {
      LastLineIsPast(start, polls, interval, k - 1);
      GrowLine(start, polls, k - 1);
    }
  }

  /**
   With prompt reads no reader that has missed no ping so far checks its deadline as
   late as T + poll after the last complete line, bytes of an unfinished line
   notwithstanding. So a missed ping is noticed at least T and less than T + poll after it.
   */
  lemma PingBound(start: nat, polls: seq<Poll>, timeout: nat, used: nat)
    requires timeout > 0 && used < |polls| && Prompt(start, polls, if timeout < 200 then timeout else 200)
    requires Followed(Some(timeout), start, polls, used)
    ensures var line := LastLine(start, polls[..used]);
      && line <= polls[used].check < line + timeout + (if timeout < 200 then timeout else 200)
      && (Missed(Some(timeout), start, polls, used) <==> line + timeout <= polls[used].check)
  {
    LastLineIsPast(start, polls, PollInterval(timeout), used);
    if used > 0 {
      GrowLine(start, polls, used - 1);
      LastLineIsPast(start, polls, PollInterval(timeout), used - 1);
      assert !Missed(Some(timeout), start, polls, used - 1);
    }
  }
}
