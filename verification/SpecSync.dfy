/** The two-way synchronisation of the number of workers with the MachineSet, the gate by the hash of the spec, and
    what both mean for the marks on the machines. */
module SpecSync {
  import opened Model
  import opened NodesToDelete
  import opened DeletionMarks

  /** The parts of the spec the synchronisation looks at; `rest` is everything else that goes into the hash. */
  datatype SyncSpec = SyncSpec(workers: int, nodesToDelete: seq<NodeToDelete>, rest: string)

  /** The hash of a spec is taken to determine the spec: `specMDS` is the spec that was hashed. */
  datatype SyncStatus = SyncStatus(workers: int, nodesToDelete: seq<NodeToDelete>, specMDS: Option<SyncSpec>)

  /** `replicas` is None when there is no MachineSet. */
  datatype State = State(spec: SyncSpec, status: SyncStatus, replicas: Option<int>, machines: Machines)

  // ----- One reconcile --------------------------------------------------------------------------------

  predicate Unchanged(s: State) { s.status.specMDS == Some(s.spec) }

  predicate Reselects(s: State) {
    !Unchanged(s) && (s.spec.nodesToDelete != s.status.nodesToDelete || s.spec.workers < s.status.workers)
  }

  function SyncedWorkers(s: State): int {
    if Unchanged(s) && s.replicas.Some? then s.replicas.value else s.spec.workers
  }

  /** The spec after a reconcile that completes the drains of the nodes `done`. */
  function SyncedSpec(s: State, done: seq<Name>): SyncSpec {
    if Unchanged(s)
    then s.spec.(workers := SyncedWorkers(s), nodesToDelete := WithoutAll(s.spec.nodesToDelete, done))
    else s.spec
  }

  /** A complete reconcile leads from s to s'. */
  ghost predicate Round(s: State, s': State, done: seq<Name>) {
    && s'.spec == SyncedSpec(s, done)
    && s'.replicas == Some(s'.spec.workers)
    && s'.status == SyncStatus(s'.spec.workers, s'.spec.nodesToDelete, Some(s.spec))
    && (if Reselects(s) then RemarkedAll(s.machines, s'.machines, s.spec.nodesToDelete, s.status.nodesToDelete)
        else s'.machines == s.machines)
  }

  /** A reconcile that was cut off leads from s to s': the status is not written. */
  ghost predicate CutOff(s: State, s': State, done: seq<Name>) {
    && s'.status == s.status
    && (s'.spec == s.spec || s'.spec == s.spec.(workers := SyncedWorkers(s)) || s'.spec == SyncedSpec(s, done))
    && (s'.replicas == s.replicas || (s'.spec == SyncedSpec(s, done) && s'.replicas == Some(s'.spec.workers)))
    && (if Reselects(s) then RemarkedSome(s.machines, s'.machines, s.spec.nodesToDelete, s.status.nodesToDelete)
        else s'.machines == s.machines)
  }

  /** The operator's clients. Nobody else writes while a reconcile runs. Unless they are reliable, any call may
      fail, also after taking effect. */
  class Cluster {
    var spec: SyncSpec
    var status: SyncStatus
    var replicas: Option<int>
    const machines: MachineClient

    constructor (s: State, reliable: bool)
      ensures fresh(machines) && Now() == s && machines.reliable == reliable
    {
      spec, status, replicas := s.spec, s.status, s.replicas;
      machines := new MachineClient(s.machines, reliable);
    }

    function Now(): State
      reads this, machines
    {
      State(spec, status, replicas, machines.machines)
    }

    method StoreSpec(to: SyncSpec) returns (ok: bool)
      modifies this`spec
      ensures if ok then spec == to else spec == old(spec) || spec == to
      ensures machines.reliable ==> ok
    {
      ok := machines.Answers();
      var lands: bool := *;
      if ok || lands { spec := to; }
    }

    method StoreReplicas(to: int) returns (ok: bool)
      modifies this`replicas
      ensures if ok then replicas == Some(to) else replicas == old(replicas) || replicas == Some(to)
      ensures machines.reliable ==> ok
    {
      ok := machines.Answers();
      var lands: bool := *;
      if ok || lands { replicas := Some(to); }
    }
  }

  /** The MachineSet's replicas overwrite the workers of the spec. */
  method EnsureMachineSetSync(c: Cluster, inst: SyncSpec) returns (ok: bool, synced: SyncSpec)
    requires c.spec == inst
    modifies c`spec
    ensures synced == if c.replicas.Some? then inst.(workers := c.replicas.value) else inst
    ensures if ok then c.spec == synced else c.spec == inst || c.spec == synced
    ensures c.machines.reliable ==> ok
  {
    synced := inst;
    ok := true;
    if c.replicas.None? {
      ok := c.StoreSpec(inst);
    } else if c.replicas.value != inst.workers {
      synced := inst.(workers := c.replicas.value);
      ok := c.StoreSpec(synced);
    }
  }

  /** The branch for an unchanged spec: synchronisation, and the walk over the nodes, which may complete drains. */
  method SyncUnchanged(c: Cluster) returns (ok: bool, inst: SyncSpec, done: seq<Name>)
    requires Unchanged(c.Now())
    modifies c`spec
    ensures if ok then c.spec == inst && inst == SyncedSpec(old(c.Now()), done)
            else c.spec == old(c.spec) || c.spec == old(c.spec).(workers := SyncedWorkers(old(c.Now())))
                 || c.spec == SyncedSpec(old(c.Now()), done)
    ensures c.machines.reliable ==> ok
  {
    inst, done := c.spec, [];
    ok, inst := EnsureMachineSetSync(c, inst);
    if !ok { return; }
    done := *;
    inst := inst.(nodesToDelete := WithoutAll(inst.nodesToDelete, done));
    ok := c.StoreSpec(inst);
  }

  /** Reconcile of a living resource, as far as it concerns workers, marks and the hash. */
  method Reconcile(c: Cluster) returns (ok: bool, done: seq<Name>)
    modifies c, c.machines
    ensures if ok then Round(old(c.Now()), c.Now(), done) else CutOff(old(c.Now()), c.Now(), done)
    ensures c.machines.reliable ==> ok
  {
    done := [];
    var inst := c.spec;
    var specMDS := inst;
    if c.status.specMDS == Some(specMDS) {
      ok, inst, done := SyncUnchanged(c);
      if !ok { return; }
    } else if inst.nodesToDelete != c.status.nodesToDelete || inst.workers < c.status.workers {
      ok := UpdateMachineDeletionSelection(c.machines, inst.nodesToDelete, c.status.nodesToDelete);
      if !ok { return; }
    }
    ok := c.StoreReplicas(inst.workers);
    if !ok { return; }
    ok := c.machines.Answers();
    if !ok { return; }
    c.status := SyncStatus(inst.workers, inst.nodesToDelete, Some(specMDS));
  }

  // ----- Workers --------------------------------------------------------------------------------------

  /** A series of reconciles by one operator with nobody else acting: all cut off but the last. */
  ghost predicate Attempts(states: seq<State>, dones: seq<seq<Name>>) {
    && |states| == |dones| + 1 && |dones| > 0
    && (forall i :: 0 <= i < |dones| - 1 ==> CutOff(states[i], states[i + 1], dones[i]))
    && Round(states[|dones| - 1], states[|dones|], dones[|dones| - 1])
  }

  /** AGREEMENT, and who wins. However often a reconcile is cut off, after the complete one the replicas of the
      MachineSet, the workers of the spec and those of the status are one number: the replicas as they were at
      the start, if the spec was unchanged since the last complete reconcile and there was a MachineSet, and
      otherwise what the spec said at the start. */
  lemma {:induction false} WorkersAgree(states: seq<State>, dones: seq<seq<Name>>)
    requires Attempts(states, dones)
    ensures var s, s' := states[0], states[|dones|];
      && s'.replicas == Some(s'.spec.workers) && s'.status.workers == s'.spec.workers
      && s'.spec.workers ==
           if s.status.specMDS == Some(s.spec) && s.replicas.Some? then s.replicas.value else s.spec.workers
    decreases |dones|
  {
    if |dones| > 1 {
      assert SyncedWorkers(states[1]) == SyncedWorkers(states[0]) by {
        assert CutOff(states[0], states[1], dones[0]);
      }
      WorkersAgree(states[1..], dones[1..]);
    }
  }

  ghost predicate Settled(s: State) {
    && s.status.specMDS == Some(s.spec) && s.replicas == Some(s.spec.workers) && s.status.workers == s.spec.workers
    && s.status.nodesToDelete == s.spec.nodesToDelete
  }

  /** CONVERGENCE. While nobody else acts and no drain is pending, two complete reconciles from any state lead
      to one where the stored hash is that of the spec, and the next reconcile, complete or cut off, changes
      nothing at all; nor do cut-off ones between the two. */
  lemma TwoRoundsSettle(s0: State, s1: State, s2: State)
    requires Round(s0, s1, []) && Round(s1, s2, [])
    ensures forall s :: CutOff(s1, s, []) ==> s == s1
    ensures Settled(s2) && s2.spec == s1.spec
    ensures forall s3 :: Round(s2, s3, []) || CutOff(s2, s3, []) ==> s3 == s2
  {
  }

  /** One reconcile is not enough: when the replicas were changed from outside, the stored hash is that of the
      spec before it took them over. */
  lemma OneRoundIsNotEnough(s0: State, s1: State)
    requires Round(s0, s1, []) && s0.status.specMDS == Some(s0.spec)
    ensures s1.status.specMDS == Some(s1.spec) <==> s0.replicas.None? || s0.replicas.value == s0.spec.workers
  {
  }

  // ----- Marks ----------------------------------------------------------------------------------------

  predicate Distinct(list: seq<NodeToDelete>) { forall i, j :: 0 <= i < j < |list| ==> list[i].name != list[j].name }

  /** Of the machines that have a node and do not await their removal, exactly those of listed nodes are marked. */
  ghost predicate MarksAgree(ms: Machines, list: seq<NodeToDelete>, awaiting: set<Name>) {
    forall m :: m in ms && ms[m].nodeRef.Some? && m !in awaiting ==>
      (Marked(ms[m], "1") <==> Listed(list, ms[m].nodeRef.value))
  }

  /** Between two lists: machines whose nodes both of them, or neither of them name are right. */
  ghost predicate MarksBetween(ms: Machines, a: seq<NodeToDelete>, b: seq<NodeToDelete>, awaiting: set<Name>) {
    forall m :: m in ms && ms[m].nodeRef.Some? && m !in awaiting ==>
      && (Listed(a, ms[m].nodeRef.value) && Listed(b, ms[m].nodeRef.value) ==> Marked(ms[m], "1"))
      && (!Listed(a, ms[m].nodeRef.value) && !Listed(b, ms[m].nodeRef.value) ==> !Marked(ms[m], "1"))
  }

  /** For the nodes of these machines the two lists agree. */
  ghost predicate SameNames(ms: Machines, a: seq<NodeToDelete>, b: seq<NodeToDelete>, awaiting: set<Name>) {
    forall m :: m in ms && ms[m].nodeRef.Some? && m !in awaiting ==>
      (Listed(a, ms[m].nodeRef.value) <==> Listed(b, ms[m].nodeRef.value))
  }

  /** The list in the spec that was hashed last. */
  function Hashed(s: State): seq<NodeToDelete> {
    if s.status.specMDS.Some? then s.status.specMDS.value.nodesToDelete else s.status.nodesToDelete
  }

  /** The invariant: `awaiting` are machines whose node was drained while it was listed, and which still have it. */
  ghost predicate MarkInv(s: State, awaiting: set<Name>) {
    && Distinct(s.spec.nodesToDelete) && Distinct(s.status.nodesToDelete)
    && MarksBetween(s.machines, s.spec.nodesToDelete, s.status.nodesToDelete, awaiting)
    && SameNames(s.machines, Hashed(s), s.status.nodesToDelete, awaiting)
  }

  function AwaitingAfter(s: State, done: seq<Name>, awaiting: set<Name>): set<Name> {
    if Unchanged(s)
    then awaiting + set m | m in s.machines && s.machines[m].nodeRef.Some? && s.machines[m].nodeRef.value in done
                            && Listed(s.spec.nodesToDelete, s.machines[m].nodeRef.value)
    else awaiting
  }

  lemma DistinctTimes(list: seq<NodeToDelete>, n: Name)
    requires Distinct(list)
    ensures Times(list, n) == if Listed(list, n) then 1 else 0
  {
    ListedTimes(list, n);
    if Listed(list, n) {
      var i :| 0 <= i < |list| && list[i].name == n;
      NamedOnce(NamesOf(list), i);
    }
  }

  lemma DoneNamesGo(list: seq<NodeToDelete>, done: seq<Name>)
    requires Distinct(list)
    ensures Distinct(WithoutAll(list, done))
    ensures forall n :: Listed(WithoutAll(list, done), n) <==> Listed(list, n) && n !in done
  {
    FewerStaysDistinct(list, WithoutAll(list, done), done);
    forall n ensures Listed(WithoutAll(list, done), n) <==> Listed(list, n) && n !in done {
      DoneNameGoes(list, done, n);
    }
  }

  lemma FewerStaysDistinct(list: seq<NodeToDelete>, rest: seq<NodeToDelete>, done: seq<Name>)
    requires Distinct(list) && rest == WithoutAll(list, done)
    ensures Distinct(rest)
  {
    OnlyCompletedEntriesGone(list, done);
    forall i, j | 0 <= i < j < |rest| ensures rest[i].name != rest[j].name {
      DistinctTimes(list, rest[i].name);
      if rest[i].name == rest[j].name { TwiceNamed(NamesOf(rest), i, j); }
    }
  }

  lemma TwiceNamed(names: seq<Name>, i: nat, j: nat)
    requires i < j < |names| && names[i] == names[j]
    ensures multiset(names)[names[i]] >= 2
  {
    assert names == names[..j] + [names[j]] + names[j + 1..];
    assert names[..j][i] == names[i];
  }

  lemma DoneNameGoes(list: seq<NodeToDelete>, done: seq<Name>, n: Name)
    requires Distinct(list)
    ensures Listed(WithoutAll(list, done), n) <==> Listed(list, n) && n !in done
  {
    var rest := WithoutAll(list, done);
    if Listed(rest, n) {
      var e :| e in rest && e.name == n;
      DistinctListLosesExactly(list, done, e);
    }
    if Listed(list, n) && n !in done {
      var e :| e in list && e.name == n;
      DistinctListLosesExactly(list, done, e);
    }
  }

  /** A machine's new mark: what the spec says, unless the status agrees with the spec. */
  lemma RemarkedMark(m: Labelled, spec: seq<NodeToDelete>, status: seq<NodeToDelete>)
    requires Distinct(status) && m.nodeRef.Some?
    ensures var n := m.nodeRef.value; var m' := Remarked(m, spec, status);
      m'.nodeRef == m.nodeRef
      && if Listed(spec, n) == Listed(status, n) then m' == m else Marked(m', "1") <==> Listed(spec, n)
  {
    DistinctTimes(status, m.nodeRef.value);
  }

  /** After a complete reconcile the machine is marked as its node is listed: its mark is changed, and to what the spec
      says, or left alone, and right already. */
  ghost predicate RightAfter(s: State, done: seq<Name>, m: Labelled)
    requires m.nodeRef.Some?
  {
    var n := m.nodeRef.value;
    var change := ChangeFor(s.spec.nodesToDelete, s.status.nodesToDelete, n);
    if s.status.specMDS != Some(s.spec) && change.Some?
       && (s.spec.nodesToDelete != s.status.nodesToDelete || s.spec.workers < s.status.workers)
    then change == Some(Add) || !Listed(s.spec.nodesToDelete, n)
    else if s.status.specMDS == Some(s.spec) then Marked(m, "1") <==> Listed(WithoutAll(s.spec.nodesToDelete, done), n)
    else Marked(m, "1") <==> Listed(s.spec.nodesToDelete, n)
  }

  /** WHEN A RECONCILE SETS THE MARKS RIGHT, exactly, from any state: if and only if each machine with a node either has its
      mark changed to what the spec says, or is not touched and right already. */
  lemma RoundRightExactlyWhen(s: State, s': State, done: seq<Name>)
    requires Round(s, s', done)
    ensures MarksAgree(s'.machines, s'.spec.nodesToDelete, {}) <==>
      forall m :: m in s.machines && s.machines[m].nodeRef.Some? ==> RightAfter(s, done, s.machines[m])
  {
    forall m | m in s.machines && s.machines[m].nodeRef.Some?
      ensures m in s'.machines && s'.machines[m].nodeRef == s.machines[m].nodeRef
      ensures (Marked(s'.machines[m], "1") <==> Listed(s'.spec.nodesToDelete, s.machines[m].nodeRef.value))
        <==> RightAfter(s, done, s.machines[m])
    {
    }
    forall m | m in s'.machines && s'.machines[m].nodeRef.Some?
      ensures m in s.machines && s.machines[m].nodeRef == s'.machines[m].nodeRef
    {
    }
  }

  /** A complete reconcile brings the marks in line with the list. */
  lemma RoundMarks(s: State, s': State, done: seq<Name>, awaiting: set<Name>)
    requires MarkInv(s, awaiting) && Round(s, s', done)
    ensures MarkInv(s', AwaitingAfter(s, done, awaiting))
    ensures MarksAgree(s'.machines, s'.spec.nodesToDelete, AwaitingAfter(s, done, awaiting))
  {
    DoneNamesGo(s.spec.nodesToDelete, done);
    if Reselects(s) {
      forall m | m in s'.machines && s'.machines[m].nodeRef.Some? && m !in awaiting
        ensures Marked(s'.machines[m], "1") <==> Listed(s.spec.nodesToDelete, s'.machines[m].nodeRef.value)
      {
        if s.machines[m].nodeRef.Some? {
          RemarkedMark(s.machines[m], s.spec.nodesToDelete, s.status.nodesToDelete);
        }
      }
    }
  }

  /** Spec and status agree on whether n is listed. */
  predicate Undisputed(s: State, n: Name) { Listed(s.spec.nodesToDelete, n) == Listed(s.status.nodesToDelete, n) }

  /** One that is cut off leaves them between the two lists. */
  lemma CutOffMarks(s: State, s': State, done: seq<Name>, awaiting: set<Name>)
    requires MarkInv(s, awaiting) && CutOff(s, s', done)
    ensures MarkInv(s', AwaitingAfter(s, done, awaiting))
  {
    DoneNamesGo(s.spec.nodesToDelete, done);
    if Reselects(s) {
      forall m | m in s'.machines && s'.machines[m].nodeRef.Some?
        ensures s.machines[m].nodeRef == s'.machines[m].nodeRef
        ensures Undisputed(s, s'.machines[m].nodeRef.value) ==> s'.machines[m] == s.machines[m]
      {
        if s.machines[m].nodeRef.Some? {
          RemarkedMark(s.machines[m], s.spec.nodesToDelete, s.status.nodesToDelete);
        }
      }
    }
  }

  // ----- Runs -----------------------------------------------------------------------------------------

  /** What others do between two reconciles: machines go, lose their node, and come, also under known names, with
      unmarked nodes that are on no list; replicas change. */
  ghost predicate OthersAct(s: State, s': State) {
    && s'.spec == s.spec && s'.status == s.status
    && forall m :: m in s'.machines && s'.machines[m].nodeRef.Some? ==>
         if SameMachine(s, s', m) then Marked(s'.machines[m], "1") <==> Marked(s.machines[m], "1")
         else !Marked(s'.machines[m], "1") && Unlisted(s, s'.machines[m].nodeRef.value)
  }

  predicate SameMachine(s: State, s': State, m: Name) {
    m in s.machines && m in s'.machines && s'.machines[m].nodeRef == s.machines[m].nodeRef
  }

  predicate Unlisted(s: State, n: Name) {
    !Listed(s.spec.nodesToDelete, n) && !Listed(s.status.nodesToDelete, n) && !Listed(Hashed(s), n)
  }

  datatype Kind = Edited | Others | Completed | Interrupted

  /** A step of a run; edits of the spec come after complete reconciles. */
  datatype Step = Step(kind: Kind, done: seq<Name>, after: State)

  ghost predicate StepOk(s: State, settled: bool, t: Step) {
    match t.kind
    case Edited => settled && t.after == s.(spec := t.after.spec) && Distinct(t.after.spec.nodesToDelete)
    case Others => OthersAct(s, t.after)
    case Completed => Round(s, t.after, t.done)
    case Interrupted => CutOff(s, t.after, t.done)
  }

  /** Where a run stands.  A machine no longer awaits its removal once it is gone or has another node. */
  datatype Stand = Stand(s: State, settled: bool, awaiting: set<Name>)

  function Advance(at: Stand, t: Step): Stand {
    match t.kind
    case Edited => Stand(t.after, false, at.awaiting)
    case Others => Stand(t.after, at.settled, set m | m in at.awaiting && SameMachine(at.s, t.after, m))
    case Completed => Stand(t.after, true, AwaitingAfter(at.s, t.done, at.awaiting))
    case Interrupted => Stand(t.after, false, AwaitingAfter(at.s, t.done, at.awaiting))
  }

  ghost predicate RunOk(at: Stand, run: seq<Step>)
    decreases |run|
  {
    run == [] || (StepOk(at.s, at.settled, run[0]) && RunOk(Advance(at, run[0]), run[1..]))
  }

  function AfterRun(at: Stand, run: seq<Step>): Stand
    decreases |run|
  {
    if run == [] then at else AfterRun(Advance(at, run[0]), run[1..])
  }

  ghost predicate StandInv(at: Stand) {
    MarkInv(at.s, at.awaiting) && (at.settled ==> MarksAgree(at.s.machines, at.s.status.nodesToDelete, at.awaiting))
  }

  lemma StepKeepsMarks(at: Stand, t: Step)
    requires StandInv(at) && StepOk(at.s, at.settled, t)
    ensures StandInv(Advance(at, t))
  {
    match t.kind
    case Edited =>
    case Others =>
    case Completed => RoundMarks(at.s, t.after, t.done, at.awaiting);
    case Interrupted => CutOffMarks(at.s, t.after, t.done, at.awaiting);
  }

  /** A new resource, before anything is marked. */
  lemma NewResource(s: State)
    requires Distinct(s.spec.nodesToDelete) && s.status.nodesToDelete == [] && s.status.specMDS.None?
    requires forall m :: m in s.machines ==> !Marked(s.machines[m], "1")
    ensures StandInv(Stand(s, false, {}))
  {
  }

  /** MARKS OVER RUNS. Over any run of edits to duplicate-free lists, each followed by reconciles of which some
      may be cut off anywhere until one completes, after that one: a machine that has a node is marked for
      deletion if and only if the node is listed, apart from machines of drained nodes for as long as they are there. */
  lemma {:induction false} MarksFollowTheList(at: Stand, run: seq<Step>)
    requires StandInv(at) && RunOk(at, run)
    ensures var end := AfterRun(at, run);
      StandInv(end) && (end.settled ==> MarksAgree(end.s.machines, end.s.status.nodesToDelete, end.awaiting))
    decreases |run|
  {
    if run != [] {
      StepKeepsMarks(at, run[0]);
      MarksFollowTheList(Advance(at, run[0]), run[1..]);
    }
  }

  /** So over the whole life of a resource, from its creation on: whenever the last reconcile was a complete one, the
      machines that are marked are those of the listed nodes. */
  lemma {:induction false} MarksFromCreation(s: State, run: seq<Step>)
    requires Distinct(s.spec.nodesToDelete) && s.status.nodesToDelete == [] && s.status.specMDS.None?
    requires forall m :: m in s.machines ==> !Marked(s.machines[m], "1")
    requires RunOk(Stand(s, false, {}), run) && AfterRun(Stand(s, false, {}), run).settled
    ensures var end := AfterRun(Stand(s, false, {}), run);
      MarksAgree(end.s.machines, end.s.status.nodesToDelete, end.awaiting)
  {
    NewResource(s);
    MarksFollowTheList(Stand(s, false, {}), run);
  }

  /** Why edits have to wait: node n is added, the reconcile is cut off after marking n's machine, the edit is
      taken back. The hash is the stored one again, and the mark stays however often the operator reconciles. */
  lemma EditTakenBackLeavesMark(n: Name, drain: bool, rest: string)
    ensures var spec := SyncSpec(1, [], rest);
      var s0 := State(spec, SyncStatus(1, [], Some(spec)), Some(1), map["m" := Labelled(Some(n), map[])]);
      var s1 := s0.(spec := spec.(nodesToDelete := [NodeToDelete(n, drain)]));
      var s2 := s1.(machines := map["m" := Labelled(Some(n), map[DELETE_MACHINE := "1"])]);
      var s3 := s2.(spec := spec);
      && Settled(s0) && MarksAgree(s0.machines, [], {}) && CutOff(s1, s2, []) && Round(s3, s3, [])
      && !MarksAgree(s3.machines, [], {})
  {
    var list := [NodeToDelete(n, drain)];
    assert list[0] in list && NamesOf([]) == [];
    assert ChangeFor(list, [], n) == Some(Add);
    var spec := SyncSpec(1, [], rest);
    var s0 := State(spec, SyncStatus(1, [], Some(spec)), Some(1), map["m" := Labelled(Some(n), map[])]);
    var s1 := s0.(spec := spec.(nodesToDelete := [NodeToDelete(n, drain)]));
    var s2 := s1.(machines := map["m" := Labelled(Some(n), map[DELETE_MACHINE := "1"])]);
    var s3 := s2.(spec := spec);
    assert MarksAgree(s0.machines, [], {});
    assert CutOff(s1, s2, []);
    assert Round(s3, s3, []);
    assert !MarksAgree(s3.machines, [], {}) by { assert Marked(s3.machines["m"], "1") && !Listed([], n); }
  }

  /** What awaiting removal can mean: the drain of n is completed and taken off the list, but the reconcile is
      cut off before the status is written. The next one sees n in the status only, and takes the mark off its
      machine. */
  lemma CutOffAfterDrainUnmarks(n: Name, drain: bool, rest: string)
    ensures var list := [NodeToDelete(n, drain)];
      var spec := SyncSpec(1, list, rest);
      var marked := map["m" := Labelled(Some(n), map[DELETE_MACHINE := "1"])];
      var s0 := State(spec, SyncStatus(1, list, Some(spec)), Some(1), marked);
      var s1 := s0.(spec := spec.(nodesToDelete := []));
      var s2 := State(s1.spec, SyncStatus(1, [], Some(s1.spec)), Some(1),
                      map["m" := Labelled(Some(n), map[DELETE_MACHINE := "0"])]);
      Settled(s0) && MarksAgree(s0.machines, list, {}) && CutOff(s0, s1, [n]) && Round(s1, s2, [])
  {
    var list := [NodeToDelete(n, drain)];
    assert list[0] in list && NamesOf(list) == [n];
    assert WithoutAll(list, [n]) == [] by {
      assert [n][..0] == [];
      assert WithoutAll(list, [n]) == Without(list, n);
    }
    assert ChangeFor([], list, n) == Some(Remove);
  }
}
