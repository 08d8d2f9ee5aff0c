/** updateMachineDeletionSelection: marks machines for deletion by comparing the nodes to delete in the spec with
    those in the status. */
module DeletionMarks {
  import opened Model
  import opened NodesToDelete

  const DELETE_MACHINE := "machine.openshift.io/cluster-api-delete-machine"

  datatype Labelled = Labelled(nodeRef: Option<Name>, annotations: map<string, string>)

  /** The machines of the role, by name. */
  type Machines = map<Name, Labelled>

  predicate Marked(m: Labelled, mark: string) { DELETE_MACHINE in m.annotations && m.annotations[DELETE_MACHINE] == mark }

  datatype Change = Add | Remove

  predicate Listed(list: seq<NodeToDelete>, n: Name) { exists e <- list :: e.name == n }

  /** How often the list names node n. */
  function Times(list: seq<NodeToDelete>, n: Name): nat { multiset(NamesOf(list))[n] }

  /** What the diff comes out as for node n: an entry of the status cancels the "Add" of the spec, but a second
      entry for the same node then reads as a node that has left the spec. */
  function ChangeFor(spec: seq<NodeToDelete>, status: seq<NodeToDelete>, n: Name): Option<Change> {
    var k := Times(status, n);
    if k == 0 then if Listed(spec, n) then Some(Add) else None
    else if (k % 2 == 1) == Listed(spec, n) then None else Some(Remove)
  }

  /** What the diff is meant to be. */
  function Intended(spec: seq<NodeToDelete>, status: seq<NodeToDelete>, n: Name): Option<Change> {
    if Listed(spec, n) && !Listed(status, n) then Some(Add)
    else if !Listed(spec, n) && Listed(status, n) then Some(Remove)
    else None
  }

  lemma ListedTimes(list: seq<NodeToDelete>, n: Name)
    ensures Listed(list, n) <==> Times(list, n) > 0
  {
    if Listed(list, n) {
      var k :| 0 <= k < |list| && list[k].name == n;
      assert NamesOf(list)[k] == n;
    }
    if Times(list, n) > 0 {
      var k :| 0 <= k < |list| && NamesOf(list)[k] == n;
      assert list[k] in list;
    }
  }

  /** WHEN THE DIFF IS RIGHT, exactly: for the machines of node n if and only if the status names n an odd number of
      times or not at all; whatever the spec says. */
  lemma DiffRightExactlyWhen(spec: seq<NodeToDelete>, status: seq<NodeToDelete>, n: Name)
    ensures ChangeFor(spec, status, n) == Intended(spec, status, n) <==>
      Times(status, n) == 0 || Times(status, n) % 2 == 1
  {
    ListedTimes(spec, n);
    ListedTimes(status, n);
  }

  /** The failing family, with names: node n listed twice in spec and status, nothing changed, and its machine loses
      its mark. */
  lemma DuplicateUnmarks(n: Name, drain: bool)
    ensures var list := [NodeToDelete(n, drain), NodeToDelete(n, drain)];
      Intended(list, list, n) == None && ChangeFor(list, list, n) == Some(Remove)
  {
    var list := [NodeToDelete(n, drain), NodeToDelete(n, drain)];
    assert NamesOf(list) == [n, n];
    assert list[0] in list;
  }

  /** The machine after the call: a changed mark replaces all annotations the machine had. */
  function Remarked(m: Labelled, spec: seq<NodeToDelete>, status: seq<NodeToDelete>): Labelled {
    if m.nodeRef.None? then m
    else
      match ChangeFor(spec, status, m.nodeRef.value)
      case None => m
      case Some(Add) => m.(annotations := map[DELETE_MACHINE := "1"])
      case Some(Remove) => m.(annotations := map[DELETE_MACHINE := "0"])
  }

  /** What may become of a machine: it is as it was, or has a node and, instead of all its annotations, one mark: set if
      the node is in the spec and not in the status, and taken off only if the status names it. */
  ghost predicate MarkedAnew(m: Labelled, m': Labelled, spec: seq<NodeToDelete>, status: seq<NodeToDelete>) {
    m' == m
    || (m.nodeRef.Some? && m'.nodeRef == m.nodeRef && m'.annotations.Keys == {DELETE_MACHINE}
        && if Listed(status, m.nodeRef.value) then m'.annotations[DELETE_MACHINE] == "0"
           else Listed(spec, m.nodeRef.value) && m'.annotations[DELETE_MACHINE] == "1")
  }

  ghost predicate RemarkedAll(ms: Machines, ms': Machines, spec: seq<NodeToDelete>, status: seq<NodeToDelete>) {
    ms'.Keys == ms.Keys && forall m :: m in ms ==> ms'[m] == Remarked(ms[m], spec, status)
  }

  /** A call that was cut off: each machine is as it was, or as it is to be. */
  ghost predicate RemarkedSome(ms: Machines, ms': Machines, spec: seq<NodeToDelete>, status: seq<NodeToDelete>) {
    ms'.Keys == ms.Keys && forall m :: m in ms ==> ms'[m] == ms[m] || ms'[m] == Remarked(ms[m], spec, status)
  }

  /** So each machine, after a call that may have been cut off. */
  lemma RemarkedAnew(ms: Machines, ms': Machines, spec: seq<NodeToDelete>, status: seq<NodeToDelete>)
    requires RemarkedSome(ms, ms', spec, status)
    ensures forall m :: m in ms ==> m in ms' && MarkedAnew(ms[m], ms'[m], spec, status)
  {
    forall m | m in ms ensures m in ms' && MarkedAnew(ms[m], ms'[m], spec, status) {
      assert m in ms.Keys;
      if ms[m].nodeRef.Some? { ListedTimes(status, ms[m].nodeRef.value); }
    }
  }

  /** The map of changes, built by walking over both lists. */
  method NodesToDeleteInfo(spec: seq<NodeToDelete>, status: seq<NodeToDelete>) returns (info: map<Name, Change>)
    ensures forall n :: ChangeFor(spec, status, n) == if n in info then Some(info[n]) else None
  {
    info := AddAll(spec);
    for i := 0 to |status|
      invariant IsDiff(info, spec, status[..i])
    {
      var n := status[i].name;
      DiffGoesOn(info, spec, status, i);
      if n in info { info := info - {n}; } else { info := info[n := Remove]; }
    }
    assert status[..|status|] == status;
  }

  ghost predicate IsDiff(info: map<Name, Change>, spec: seq<NodeToDelete>, status: seq<NodeToDelete>) {
    forall n :: ChangeFor(spec, status, n) == if n in info then Some(info[n]) else None
  }

  method AddAll(spec: seq<NodeToDelete>) returns (info: map<Name, Change>)
    ensures IsDiff(info, spec, [])
  {
    info := map[];
    for i := 0 to |spec|
      invariant forall n :: n in info <==> Listed(spec[..i], n)
      invariant forall n :: n in info ==> info[n] == Add
    {
      assert spec[..i + 1] == spec[..i] + [spec[i]];
      info := info[spec[i].name := Add];
    }
    assert spec[..|spec|] == spec;
  }

  lemma DiffGoesOn(info: map<Name, Change>, spec: seq<NodeToDelete>, status: seq<NodeToDelete>, i: nat)
    requires i < |status| && IsDiff(info, spec, status[..i])
    ensures var n := status[i].name;
      IsDiff(if n in info then info - {n} else info[n := Remove], spec, status[..i + 1])
  {
    var n := status[i].name;
    var info' := if n in info then info - {n} else info[n := Remove];
    forall x ensures ChangeFor(spec, status[..i + 1], x) == if x in info' then Some(info'[x]) else None {
      OneMoreEntry(status, i, x);
      assert ChangeFor(spec, status[..i], x) == if x in info then Some(info[x]) else None;
    }
  }

  lemma OneMoreEntry(list: seq<NodeToDelete>, i: nat, n: Name)
    requires i < |list|
    ensures Times(list[..i + 1], n) == Times(list[..i], n) + if list[i].name == n then 1 else 0
  {
    assert NamesOf(list[..i + 1]) == NamesOf(list[..i]) + [list[i].name];
  }

  /** The Machine API. Unless it is reliable, any call may fail; an update that reports an error may have taken
      effect. */
  class MachineClient {
    var machines: Machines
    const reliable: bool

    constructor (ms: Machines, reliable: bool)
      ensures machines == ms && this.reliable == reliable
    {
      machines := ms;
      this.reliable := reliable;
    }

    method Answers() returns (ok: bool)
      ensures reliable ==> ok
    {
      ok := true;
      if !reliable { ok := *; }
    }

    /** The list, in any order. */
    method List() returns (names: seq<Name>, ok: bool)
      ensures ok ==> forall m :: m in machines <==> m in names
      ensures ok ==> forall i, j :: 0 <= i < j < |names| ==> names[i] != names[j]
      ensures reliable ==> ok
    {
      names := [];
      ok := Answers();
      var rest := machines.Keys;
      while exists m :: m in rest
        invariant forall m :: m in machines <==> m in names || m in rest
        invariant forall m :: m in names ==> m !in rest
        invariant forall i, j :: 0 <= i < j < |names| ==> names[i] != names[j]
        decreases |rest|
      {
        var m :| m in rest;
        rest, names := rest - {m}, names + [m];
      }
    }

    method Update(name: Name, m: Labelled) returns (ok: bool)
      modifies this
      ensures ok ==> machines == old(machines)[name := m]
      ensures machines == old(machines) || machines == old(machines)[name := m]
      ensures reliable ==> ok
    {
      ok := Answers();
      var lands: bool := *;
      if ok || lands { machines := machines[name := m]; }
    }
  }

  method UpdateMachineDeletionSelection(client: MachineClient, spec: seq<NodeToDelete>, status: seq<NodeToDelete>)
    returns (ok: bool)
    modifies client
    ensures ok ==> RemarkedAll(old(client.machines), client.machines, spec, status)
    ensures RemarkedSome(old(client.machines), client.machines, spec, status)
    ensures client.reliable ==> ok
  {
    var info := NodesToDeleteInfo(spec, status);
    var names, listed := client.List();
    if !listed { return false; }
    ghost var ms := client.machines;
    for i := 0 to |names|
      invariant RemarkedUpTo(ms, client.machines, names[..i], spec, status)
    {
      NextRemarked(ms, client.machines, names, i, spec, status);
      ok := RemarkMachine(client, names[i], info, spec, status);
      if !ok { return; }
    }
    assert names[..|names|] == names;
    ok := true;
  }

  /** One of the listed machines: its annotations are replaced if its node is in the diff. */
  method RemarkMachine(client: MachineClient, name: Name, info: map<Name, Change>, spec: seq<NodeToDelete>,
                       status: seq<NodeToDelete>)
    returns (ok: bool)
    requires name in client.machines && IsDiff(info, spec, status)
    modifies client
    ensures ok ==> client.machines == RemarkedOne(old(client.machines), name, spec, status)
    ensures client.machines == old(client.machines)
            || client.machines == RemarkedOne(old(client.machines), name, spec, status)
    ensures client.reliable ==> ok
  {
    var m := client.machines[name];
    if m.nodeRef.Some? { assert ChangeFor(spec, status, m.nodeRef.value).None? <==> m.nodeRef.value !in info; }
    assert client.machines[name := m] == client.machines;
    if m.nodeRef.None? || m.nodeRef.value !in info { return true; }
    var mark := match info[m.nodeRef.value] case Add => "1" case Remove => "0";
    ok := client.Update(name, m.(annotations := map[DELETE_MACHINE := mark]));
  }

  /** The machines in `done` are remarked, the others are as they were. */
  ghost predicate RemarkedUpTo(ms: Machines, ms': Machines, done: seq<Name>, spec: seq<NodeToDelete>,
                               status: seq<NodeToDelete>) {
    && (forall m :: m in ms' <==> m in ms)
    && forall m :: m in ms ==> ms'[m] == if m in done then Remarked(ms[m], spec, status) else ms[m]
  }

  lemma NextRemarked(ms: Machines, ms': Machines, names: seq<Name>, i: nat, spec: seq<NodeToDelete>,
                     status: seq<NodeToDelete>)
    requires i < |names| && names[i] in ms && names[i] !in names[..i]
    requires RemarkedUpTo(ms, ms', names[..i], spec, status)
    ensures names[i] in ms'
    ensures RemarkedUpTo(ms, RemarkedOne(ms', names[i], spec, status), names[..i + 1], spec, status)
  {
    assert names[..i + 1] == names[..i] + [names[i]];
  }

  function RemarkedOne(ms: Machines, name: Name, spec: seq<NodeToDelete>, status: seq<NodeToDelete>): Machines
    requires name in ms
  {
    ms[name := Remarked(ms[name], spec, status)]
  }
}
