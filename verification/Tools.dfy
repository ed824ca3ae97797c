/**
 The one-shot server's tools: static values in wipeable buffers and commands to run,
 looked up by name. A lookup copies the value out; a wipe zeroes every byte.
 */
module Tools {
  import opened Wrappers
  import opened Lifecycle
  import opened Bytes

  /** A tool as its registry holds it. */
  datatype ToolKind = StaticTool(buf: array<byte>, len: nat) | ExecTool(cmd: string)
  datatype ToolDef = ToolDef(name: string, kind: ToolKind)

  datatype Action = StaticAction(bytes: seq<byte>) | ExecAction(cmd: string)

  /** A tool with the bytes its buffer holds at some moment. */
  datatype Held = HeldStatic(bytes: seq<byte>, len: nat) | HeldExec(cmd: string)
  datatype Entry = Entry(name: string, held: Held)

  predicate EntryOk(e: Entry) {
    e.held.HeldStatic? ==> e.held.len <= |e.held.bytes|
  }

  predicate EntriesOk(es: seq<Entry>) {
    forall i :: 0 <= i < |es| ==> EntryOk(es[i])
  }

  // ----- On values --------------------------------------------------------------------

  /** The first tool of that name. */
  function Position(es: seq<Entry>, name: string): (r: Option<nat>)
    ensures r.Some? ==> r.value < |es| && es[r.value].name == name && forall j :: 0 <= j < r.value ==> es[j].name != name
    ensures r.None? ==> forall j :: 0 <= j < |es| ==> es[j].name != name
  {
    if es == [] then None
    else if es[0].name == name then Some(0)
    else
      match Position(es[1..], name)
      case None => None
      case Some(i) => Some(i + 1)
  }

  lemma PositionIs(es: seq<Entry>, name: string, i: nat)
    requires i < |es| && es[i].name == name && forall j :: 0 <= j < i ==> es[j].name != name
    ensures Position(es, name) == Some(i)
  {
  }

  function ActionOf(h: Held): Action
    requires h.HeldStatic? ==> h.len <= |h.bytes|
  {
    match h
    case HeldStatic(bytes, len) => StaticAction(bytes[..len])
    case HeldExec(cmd) => ExecAction(cmd)
  }

  function LookupIn(es: seq<Entry>, name: string): Option<Action>
    requires EntriesOk(es)
  {
    match Position(es, name)
    case None => None
    case Some(i) => assert EntryOk(es[i]); Some(ActionOf(es[i].held))
  }

  function DescribeIn(es: seq<Entry>, name: string): Option<(nat, ReadKind)> {
    match Position(es, name)
    case None => None
    case Some(i) => Some((CountU32(i), if es[i].held.HeldStatic? then Static else Exec))
  }

  /** A name is looked up and described as its first tool is. */
  lemma FirstNamed(es: seq<Entry>, name: string, i: nat)
    requires EntriesOk(es)
    requires i < |es| && es[i].name == name && forall j :: 0 <= j < i ==> es[j].name != name
    ensures DescribeIn(es, name)
         == Some((if i <= 0xFFFF_FFFF then i else 0xFFFF_FFFF, if es[i].held.HeldStatic? then Static else Exec))
    ensures EntryOk(es[i])
    ensures LookupIn(es, name) == match es[i].held
      case HeldStatic(bytes, len) => Some(StaticAction(bytes[..len]))
      case HeldExec(cmd) => Some(ExecAction(cmd))
  {
    PositionIs(es, name, i);
  }

  lemma NotNamed(es: seq<Entry>, name: string)
    requires EntriesOk(es)
    ensures LookupIn(es, name).None? <==> forall i :: 0 <= i < |es| ==> es[i].name != name
    ensures DescribeIn(es, name).None? <==> LookupIn(es, name).None?
  {
  }

  function StaticCountIn(es: seq<Entry>): nat {
    if es == [] then 0 else StaticCountIn(es[..|es| - 1]) + (if es[|es| - 1].held.HeldStatic? then 1 else 0)
  }

  ghost function Statics(es: seq<Entry>): set<int> {
    set i | 0 <= i < |es| && es[i].held.HeldStatic?
  }

  lemma StaticsSnoc(es: seq<Entry>, e: Entry)
    ensures Statics(es + [e]) == Statics(es) + if e.held.HeldStatic? then {|es|} else {}
    ensures |Statics(es + [e])| == |Statics(es)| + if e.held.HeldStatic? then 1 else 0
  {
  }

  lemma {:induction false} SizeOfStatics(es: seq<Entry>)
    ensures StaticCountIn(es) == |Statics(es)|
  {
    if es != [] {
      var n := |es| - 1;
      SizeOfStatics(es[..n]);
      StaticsSnoc(es[..n], es[n]);
      assert es[..n] + [es[n]] == es;
    } else {
      assert Statics(es) == {};
    }
  }

  lemma CountsStatics(es: seq<Entry>)
    ensures StaticCountIn(es) == |set i | 0 <= i < |es| && es[i].held.HeldStatic?|
  {
    SizeOfStatics(es);
    assert Statics(es) == set i | 0 <= i < |es| && es[i].held.HeldStatic?;
  }

  function WipedEntry(e: Entry): Entry {
    if e.held.HeldStatic? then e.(held := HeldStatic(Zeros(|e.held.bytes|), e.held.len)) else e
  }

  function Wiped(es: seq<Entry>): seq<Entry> {
    seq(|es|, i requires 0 <= i < |es| => WipedEntry(es[i]))
  }

  lemma {:induction false} SameNames(a: seq<Entry>, b: seq<Entry>, name: string)
    requires |a| == |b| && forall i :: 0 <= i < |a| ==> a[i].name == b[i].name
    ensures Position(a, name) == Position(b, name)
  {
    if a != [] {
      SameNames(a[1..], b[1..], name);
    }
  }

  /** A wiped registry still knows its tools, and every static value reads as zeros of its own length. */
  lemma WipedLookup(es: seq<Entry>, name: string)
    requires EntriesOk(es)
    ensures EntriesOk(Wiped(es))
    ensures DescribeIn(Wiped(es), name) == DescribeIn(es, name)
    ensures LookupIn(Wiped(es), name) == match LookupIn(es, name)
              case None => None
              case Some(StaticAction(bytes)) => Some(StaticAction(Zeros(|bytes|)))
              case Some(ExecAction(cmd)) => Some(ExecAction(cmd))
  {
    SameNames(es, Wiped(es), name);
    var p := Position(es, name);
    if p.Some? && es[p.value].held.HeldStatic? {
      var h := es[p.value].held;
      assert EntryOk(es[p.value]);
      assert Zeros(|h.bytes|)[..h.len] == Zeros(h.len);
    }
  }

  lemma {:induction false} SameKinds(a: seq<Entry>, b: seq<Entry>)
    requires |a| == |b| && forall i :: 0 <= i < |a| ==> a[i].held.HeldStatic? == b[i].held.HeldStatic?
    ensures StaticCountIn(a) == StaticCountIn(b)
  {
    if a != [] {
      SameKinds(a[..|a| - 1], b[..|b| - 1]);
    }
  }

  // ----- In place -----------------------------------------------------------------------

  class ToolRegistry {
    const tools: seq<ToolDef>

    /** Every static tool has a buffer of its own, long enough for its value. */
    ghost predicate Valid() {
      && (forall i :: 0 <= i < |tools| && tools[i].kind.StaticTool? ==> tools[i].kind.len <= tools[i].kind.buf.Length)
      && (forall i, j :: 0 <= i < j < |tools| && tools[i].kind.StaticTool? && tools[j].kind.StaticTool? ==>
            tools[i].kind.buf != tools[j].kind.buf)
    }

    ghost function Buffers(): set<object> {
      set i | 0 <= i < |tools| && tools[i].kind.StaticTool? :: tools[i].kind.buf
    }

    ghost function EntryAt(i: nat): Entry
      requires i < |tools|
      reads Buffers()
    {
      match tools[i].kind
      case StaticTool(buf, len) =>
        assert buf in Buffers();
        Entry(tools[i].name, HeldStatic(buf[..], len))
      case ExecTool(cmd) => Entry(tools[i].name, HeldExec(cmd))
    }

    ghost function Entries(): (es: seq<Entry>)
      requires Valid()
      reads Buffers()
      ensures |es| == |tools| && EntriesOk(es)
      ensures forall i :: 0 <= i < |tools| ==> es[i] == EntryAt(i)
    {
      seq(|tools|, i requires 0 <= i < |tools| reads Buffers() => EntryAt(i))
    }

    constructor (tools: seq<ToolDef>)
      ensures this.tools == tools
    {
      this.tools := tools;
    }

    method Find(name: string) returns (at: Option<nat>)
      requires Valid()
      ensures at == Position(Entries(), name)
      ensures at.Some? ==>
        at.value < |tools| && tools[at.value].name == name && forall j :: 0 <= j < at.value ==> tools[j].name != name
      ensures at.None? ==> forall j :: 0 <= j < |tools| ==> tools[j].name != name
    {
      ghost var es := Entries();
      assert forall j :: 0 <= j < |tools| ==> es[j].name == tools[j].name;
      for i := 0 to |tools|
        invariant forall j :: 0 <= j < i ==> es[j].name != name
      {
        if tools[i].name == name {
          PositionIs(es, name, i);
          return Some(i);
        }
      }
      at := None;
    }

    /** Copies a static value out from under the lock. */
    method Lookup(name: string) returns (action: Option<Action>)
      requires Valid()
      ensures action == LookupIn(Entries(), name)
      ensures action.None? <==> forall i :: 0 <= i < |tools| ==> tools[i].name != name
      ensures forall i :: 0 <= i < |tools| && tools[i].name == name && (forall j :: 0 <= j < i ==> tools[j].name != name) ==>
        match tools[i].kind
        case StaticTool(buf, len) => action == Some(StaticAction(buf[..len]))
        case ExecTool(cmd) => action == Some(ExecAction(cmd))
    {
      var at := Find(name);
      if at.None? {
        return None;
      }
      match tools[at.value].kind
      case StaticTool(buf, len) => action := Some(StaticAction(buf[..][..len]));
      case ExecTool(cmd) => action := Some(ExecAction(cmd));
    }

    method Describe(name: string) returns (d: Option<(nat, ReadKind)>)
      requires Valid()
      ensures d == DescribeIn(Entries(), name)
      ensures d.None? <==> forall i :: 0 <= i < |tools| ==> tools[i].name != name
      ensures forall i :: 0 <= i < |tools| && tools[i].name == name && (forall j :: 0 <= j < i ==> tools[j].name != name) ==>
        d == Some((if i <= 0xFFFF_FFFF then i else 0xFFFF_FFFF, if tools[i].kind.StaticTool? then Static else Exec))
    {
      var at := Find(name);
      if at.None? {
        return None;
      }
      d := Some((CountU32(at.value), if tools[at.value].kind.StaticTool? then Static else Exec));
    }

    method StaticCount() returns (n: nat)
      requires Valid()
      ensures n == CountU32(StaticCountIn(Entries()))
      ensures var statics := |set i | 0 <= i < |tools| && tools[i].kind.StaticTool?|;
        n == if statics <= 0xFFFF_FFFF then statics else 0xFFFF_FFFF
    {
      var count := 0;
      for i := 0 to |tools|
        invariant count == StaticCountIn(Entries()[..i])
      {
        assert Entries()[..i + 1][..i] == Entries()[..i];
        if tools[i].kind.StaticTool? {
          count := count + 1;
        }
      }
      assert Entries()[..|tools|] == Entries();
      CountsStatics(Entries());
      assert (set i | 0 <= i < |Entries()| && Entries()[i].held.HeldStatic?)
          == (set i | 0 <= i < |tools| && tools[i].kind.StaticTool?);
      n := CountU32(count);
    }

    /** Zeroes every byte of every static value. */
    method Wipe()
      requires Valid()
      modifies Buffers()
      ensures Entries() == Wiped(old(Entries()))
      ensures forall i, k :: 0 <= i < |tools| && tools[i].kind.StaticTool? && 0 <= k < tools[i].kind.buf.Length ==>
        tools[i].kind.buf[k] == 0
    {
      for i := 0 to |tools|
        invariant forall j :: 0 <= j < i ==> EntryAt(j) == WipedEntry(old(EntryAt(j)))
        invariant forall j :: i <= j < |tools| ==> EntryAt(j) == old(EntryAt(j))
      {
        if tools[i].kind.StaticTool? {
          WipeBuffer(tools[i].kind.buf);
        }
      }
      assert Entries() == Wiped(old(Entries()));
      forall i, k | 0 <= i < |tools| && tools[i].kind.StaticTool? && 0 <= k < tools[i].kind.buf.Length
        ensures tools[i].kind.buf[k] == 0
      {
        assert EntryAt(i).held.bytes[k] == WipedEntry(old(EntryAt(i))).held.bytes[k];
      }
    }
  }

  method WipeBuffer(buf: array<byte>)
    modifies buf
    ensures buf[..] == Zeros(buf.Length)
  {
    for k := 0 to buf.Length
      invariant buf[..k] == Zeros(k)
    {
      buf[k] := 0;
      assert buf[..k + 1] == buf[..k] + [0];
    }
    assert buf[..] == buf[..buf.Length];
  }
}
