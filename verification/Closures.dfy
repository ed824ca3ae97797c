/**
 The side effects the watchdog injects into its panic controller.

 `Act` names each atomic thing a closure does, in program order; `Perform` says
 what it does to the world the closures share with the other threads. The class
 `Host` is the imperative form: one method per closure.
 */
module Closures {
  import opened Bytes
  import opened Lifecycle

  /** The four closures a controller can call. */
  datatype Effect = KillRegistered | WipeBuffers | KillSelf | DryDone

  /** Who appended a record to the shared sink. */
  datatype Author = MainThread | ControlThread

  datatype Entry = Entry(author: Author, rec: Record)

  type Buffer = seq<byte>

  /** What the closures capture. `log` is the sink, in append order. */
  datatype World = World(
    registered: seq<nat>,
    buffers: seq<Buffer>,
    stop: bool,
    log: seq<Entry>,
    signalled: seq<nat>,
    dead: bool)

  datatype Act =
    | SignalRegistered        // the list stays locked until the record is written
    | ZeroBuffers
    | RecordWipe
    | RecordSelfKill
    | RaiseKill
    | RecordWould(target: KillTarget)
    | StoreStop
    | RecordEnd

  function ActsOf(e: Effect): seq<Act> {
    match e
    case KillRegistered => [SignalRegistered]
    case WipeBuffers => [ZeroBuffers, RecordWipe]
    case KillSelf => [RecordSelfKill, RaiseKill]
    case DryDone => [RecordWould(Registered), RecordWould(SelfProcess), StoreStop]
  }

  function ZeroAll(bs: seq<Buffer>): (zs: seq<Buffer>)
    ensures |zs| == |bs|
  {
    seq(|bs|, i requires 0 <= i < |bs| => Zeros(|bs[i]|))
  }

  /** No buffer holds a nonzero byte. */
  ghost predicate AllZero(bs: seq<Buffer>) {
    forall i :: 0 <= i < |bs| ==> IsZero(bs[i])
  }

  function Emit(w: World, r: Record): World {
    w.(log := w.log + [Entry(MainThread, r)])
  }

  /** One act of the main thread, recorded under `reason`. */
  function Perform(w: World, a: Act, reason: Reason): World {
    match a
    case SignalRegistered =>
      Emit(w.(signalled := w.signalled + w.registered),
           Kill(reason, Registered, CountU32(|w.registered|), true))
    case ZeroBuffers => w.(buffers := ZeroAll(w.buffers))
    case RecordWipe => Emit(w, Wipe(reason, CountU32(|w.buffers|)))
    case RecordSelfKill => Emit(w, Kill(reason, SelfProcess, 1, true))
    case RaiseKill => w.(dead := true)
    case RecordWould(target) =>
      Emit(w, Kill(reason, target, if target == Registered then CountU32(|w.registered|) else 1, false))
    case StoreStop => w.(stop := true)
    case RecordEnd => Emit(w, SessionEnd(reason))
  }

  function PerformAll(w: World, acts: seq<Act>, reason: Reason): World
    decreases |acts|
  {
    if acts == [] then w else PerformAll(Perform(w, acts[0], reason), acts[1..], reason)
  }

  /** The captured cells, updated in place by the closures. */
  class Host {
    var registered: seq<nat>
    var buffers: seq<Buffer>
    var trigger: Reason
    var stop: bool
    var log: seq<Entry>
    var signalled: seq<nat>
    var dead: bool
    var effects: seq<Effect>

    constructor (buffers: seq<Buffer>)
      ensures View() == World([], buffers, false, [], [], false)
      ensures trigger == Shutdown && effects == []
    {
      this.registered, this.buffers, this.trigger := [], buffers, Shutdown;
      this.stop, this.log, this.signalled, this.dead, this.effects := false, [], [], false, [];
    }

    ghost function View(): World
      reads this
    {
      World(registered, buffers, stop, log, signalled, dead)
    }

    method Append(r: Record)
      modifies this`log
      ensures log == old(log) + [Entry(MainThread, r)]
    {
      log := log + [Entry(MainThread, r)];
    }

    method CallKillRegistered()
      modifies this`signalled, this`log, this`effects
      ensures View() == PerformAll(old(View()), ActsOf(KillRegistered), trigger)
      ensures effects == old(effects) + [KillRegistered]
    {
      for i := 0 to |registered|
        invariant signalled == old(signalled) + registered[..i]
        invariant log == old(log) && effects == old(effects)
      {
        signalled := signalled + [registered[i]];
      }
      Append(Kill(trigger, Registered, CountU32(|registered|), true));
      effects := effects + [KillRegistered];
    }

    method ZeroEach()
      modifies this`buffers
      ensures buffers == ZeroAll(old(buffers))
    {
      for i := 0 to |buffers|
        invariant |buffers| == |old(buffers)|
        invariant forall k :: 0 <= k < i ==> buffers[k] == Zeros(|old(buffers)[k]|)
        invariant forall k :: i <= k < |buffers| ==> buffers[k] == old(buffers)[k]
      {
        buffers := buffers[i := Zeros(|buffers[i]|)];
      }
    }

    method CallWipe()
      modifies this`buffers, this`log, this`effects
      ensures View() == PerformAll(old(View()), ActsOf(WipeBuffers), trigger)
      ensures effects == old(effects) + [WipeBuffers]
    {
      ZeroEach();
      Append(Wipe(trigger, CountU32(|buffers|)));
      effects := effects + [WipeBuffers];
    }

    method CallKillSelf()
      modifies this`log, this`dead, this`effects
      ensures View() == PerformAll(old(View()), ActsOf(KillSelf), trigger)
      ensures effects == old(effects) + [KillSelf]
    {
      Append(Kill(trigger, SelfProcess, 1, true));
      dead := true;
      effects := effects + [KillSelf];
    }

    method CallDryDone()
      modifies this`log, this`stop, this`effects
      ensures View() == PerformAll(old(View()), ActsOf(DryDone), trigger)
      ensures effects == old(effects) + [DryDone]
    {
      Append(Kill(trigger, Registered, CountU32(|registered|), false));
      Append(Kill(trigger, SelfProcess, 1, false));
      stop := true;
      effects := effects + [DryDone];
    }
  }
}
