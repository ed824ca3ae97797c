/** The list of PIDs to kill on an armed trigger: a bounded set kept as a vector. */
module Registry {
  const MAX_REGISTERED: nat := 32

  /** REGISTER of an existing pid, under the lock. */
  function Add(reg: seq<nat>, pid: nat): seq<nat> {
    if pid in reg || |reg| >= MAX_REGISTERED then reg else reg + [pid]
  }

  /** UNREGISTER, under the lock: keep what is not `pid`. */
  function Remove(reg: seq<nat>, pid: nat): seq<nat> {
    if reg == [] then []
    else (if reg[0] == pid then [] else [reg[0]]) + Remove(reg[1..], pid)
  }

  ghost predicate NoDuplicates(reg: seq<nat>) {
    forall i, j :: 0 <= i < j < |reg| ==> reg[i] != reg[j]
  }

  ghost predicate Wellformed(reg: seq<nat>) {
    NoDuplicates(reg) && |reg| <= MAX_REGISTERED
  }

  ghost function ToSet(reg: seq<nat>): set<nat> {
    set p | p in reg
  }

  // The specification: a set with at most MAX_REGISTERED members.

  ghost function SetAdd(s: set<nat>, pid: nat): set<nat> {
    if |s| >= MAX_REGISTERED then s else s + {pid}
  }

  lemma {:induction false} SizeOfSet(reg: seq<nat>)
    requires NoDuplicates(reg)
    ensures |ToSet(reg)| == |reg|
  {
    if reg != [] {
      SizeOfSet(reg[1..]);
      assert ToSet(reg) == ToSet(reg[1..]) + {reg[0]};
    }
  }

  lemma AddRefines(reg: seq<nat>, pid: nat)
    requires Wellformed(reg)
    ensures Wellformed(Add(reg, pid)) && ToSet(Add(reg, pid)) == SetAdd(ToSet(reg), pid)
    ensures pid in Add(reg, pid) <==> pid in reg || |reg| < 32
    ensures (set p | p in Add(reg, pid)) == (set p | p in reg) + if pid in reg || |reg| < 32 then {pid} else {}
  {
    SizeOfSet(reg);
    assert ToSet(reg) == set p | p in reg;
    if pid in reg {
      assert ToSet(reg) + {pid} == ToSet(reg);
    } else if |reg| < 32 {
      assert ToSet(reg + [pid]) == ToSet(reg) + {pid} == set p | p in reg + [pid];
    }
  }

  lemma {:induction false} RemoveMembers(reg: seq<nat>, pid: nat)
    ensures forall p :: p in Remove(reg, pid) <==> p in reg && p != pid
  {
    if reg != [] {
      RemoveMembers(reg[1..], pid);
      assert reg == [reg[0]] + reg[1..];
    }
  }

  lemma {:induction false} RemoveKeepsShape(reg: seq<nat>, pid: nat)
    requires NoDuplicates(reg)
    ensures NoDuplicates(Remove(reg, pid)) && |Remove(reg, pid)| <= |reg|
  {
    if reg != [] {
      RemoveKeepsShape(reg[1..], pid);
      RemoveMembers(reg[1..], pid);
      assert reg[0] !in Remove(reg[1..], pid);
    }
  }

  lemma {:induction false} RemoveAbsent(reg: seq<nat>, pid: nat)
    requires pid !in reg
    ensures Remove(reg, pid) == reg
  {
    if reg != [] {
      RemoveAbsent(reg[1..], pid);
    }
  }

  lemma RemoveRefines(reg: seq<nat>, pid: nat)
    requires Wellformed(reg)
    ensures Wellformed(Remove(reg, pid))
    ensures ToSet(Remove(reg, pid)) == ToSet(reg) - {pid}
    ensures (set p | p in Remove(reg, pid)) == (set p | p in reg) - {pid}
  {
    RemoveKeepsShape(reg, pid);
    RemoveMembers(reg, pid);
  }

  /** What a run of REGISTER (true) and UNREGISTER (false) requests leaves. */
  function Requests(reg: seq<nat>, reqs: seq<(bool, nat)>): seq<nat> {
    if reqs == [] then reg
    else
      var before := Requests(reg, reqs[..|reqs| - 1]);
      var (add, pid) := reqs[|reqs| - 1];
      if add then Add(before, pid) else Remove(before, pid)
  }

  ghost function SetRequests(s: set<nat>, reqs: seq<(bool, nat)>): set<nat> {
    if reqs == [] then s
    else
      var before := SetRequests(s, reqs[..|reqs| - 1]);
      var (add, pid) := reqs[|reqs| - 1];
      if add then SetAdd(before, pid) else before - {pid}
  }

  /** In whatever order the lock admits the requests, the vector is the bounded set. */
  lemma {:induction false} VectorIsBoundedSet(reqs: seq<(bool, nat)>)
    ensures Wellformed(Requests([], reqs))
    ensures ToSet(Requests([], reqs)) == SetRequests({}, reqs)
    ensures |Requests([], reqs)| == |SetRequests({}, reqs)| <= 32
  {
    if reqs != [] {
      VectorIsBoundedSet(reqs[..|reqs| - 1]);
      var before := Requests([], reqs[..|reqs| - 1]);
      var (add, pid) := reqs[|reqs| - 1];
      AddRefines(before, pid);
      RemoveRefines(before, pid);
    }
    SizeOfSet(Requests([], reqs));
  }

  /** The vector behind its lock, changed in place by the control handlers. */
  class Registered {
    var pids: seq<nat>

    constructor ()
      ensures pids == []
    {
      pids := [];
    }

    /** `ok` is false only when the list is full and the pid is not on it. */
    method Register(pid: nat) returns (ok: bool)
      requires Wellformed(pids)
      modifies this
      ensures Wellformed(pids) && pids == Add(old(pids), pid)
      ensures ToSet(pids) == SetAdd(ToSet(old(pids)), pid)
      ensures ok <==> pid in old(pids) || |old(pids)| < 32
      ensures (set p | p in pids) == (set p | p in old(pids)) + if ok then {pid} else {}
    {
      AddRefines(pids, pid);
      if pid in pids {
        ok := true;
      } else if |pids| >= MAX_REGISTERED {
        ok := false;
      } else {
        pids := pids + [pid];
        ok := true;
      }
    }

    method Unregister(pid: nat)
      requires Wellformed(pids)
      modifies this
      ensures Wellformed(pids) && pids == Remove(old(pids), pid)
      ensures (set p | p in pids) == (set p | p in old(pids)) - {pid}
    {
      ghost var all := pids;
      RemoveRefines(all, pid);
      var kept := [];
      for i := 0 to |pids|
        invariant pids == all && Remove(all, pid) == kept + Remove(all[i..], pid)
      {
        assert all[i..][1..] == all[i + 1..];
        if pids[i] != pid {
          kept := kept + [pids[i]];
        }
      }
      assert all[|all|..] == [] && kept + [] == kept;
      pids := kept;
      assert pids == Remove(all, pid);
    }
  }
}
