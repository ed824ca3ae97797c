/**
 The append-only record sink (kiroku `Sink`): one line per step, each written whole by a
 single atomic append or counted as dropped.
 */
module Sink {
  import opened Lifecycle
  import opened Json
  import opened Kiroku
  import opened Contract
  import Agreement

  predicate AllValid(lines: seq<string>) {
    forall i :: 0 <= i < |lines| ==> ValidateLine(lines[i])
  }

  lemma {:induction false} RenderedExtends(lines: seq<string>, c: Component, session: string, ms: nat, ev: Record)
    requires AllValid(lines) && IsSession(session) && ms <= MAX_SAFE && CountersFit(ev)
    ensures AllValid(lines + [TextOf(RecordTree(c, session, ms, ev)) + "\n"])
  {
    Agreement.RenderedLineIsAccepted(c, session, ms, ev);
  }

  class RecordSink {
    const component: Component
    const session: string
    /** Lines on the descriptor, oldest first. */
    var written: seq<string>
    var dropped: nat

    /** Whatever reached the descriptor passes the strict validator. */
    ghost predicate Valid()
      reads this
    {
      IsSession(session) && AllValid(written)
    }

    /** The session id comes from sixteen random bytes. */
    constructor (component: Component, random: seq<bv8>)
      requires |random| == 16
      ensures Valid() && this.component == component && written == [] && dropped == 0
    {
      var id := SessionId(random);
      this.component, session := component, id;
      written, dropped := [], 0;
    }

    /** Emits one step at the given clock; `accepted` is whether the descriptor took the write. */
    method Emit(ev: Record, sinceEpochMs: int, accepted: bool)
      requires Valid() && CountersFit(ev)
      modifies this
      ensures Valid()
      ensures dropped == old(dropped) + (if accepted then 0 else 1)
      ensures written == old(written) + (if accepted then
                [TextOf(RecordTree(component, session, ClampMs(sinceEpochMs), ev)) + "\n"] else [])
    {
      var line := Render(component, session, ClampMs(sinceEpochMs), ev);
      RenderedExtends(written, component, session, ClampMs(sinceEpochMs), ev);
      if accepted {
        written := written + [line];
      } else {
        dropped := dropped + 1;
      }
    }
  }
}
