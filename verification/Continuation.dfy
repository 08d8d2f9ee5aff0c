/** What can still happen: from the creation of a pre job every drain can be brought to its end, and if it was not safe,
    to an end with an instance on the node. */
module Continuation {
  import opened Model
  import opened Protocol
  import opened History
  import opened Evacuation

  // ----- Reachable by a continuation ------------------------------------------------------------------

  /** The run so far, and the path the operator's further calls are on. */
  datatype Drive = Drive(start: World, past: seq<Action>, path: Path)

  ghost predicate OnPath(log: seq<Action>, i: nat, path: Path) {
    forall k :: i <= k < |log| && log[k].Op? ==> log[k].path == path
  }

  ghost predicate LeadsTo(d: Drive, log: seq<Action>, w: World) {
    d.past <= log && Lawful(d.start, log) && Exec(d.start, log) == w && OnPath(log, |d.past|, d.path)
  }

  ghost predicate Reaches(d: Drive, w: World) { exists log :: LeadsTo(d, log, w) }

  lemma ReachStep(d: Drive, w: World, a: Action)
    requires Reaches(d, w) && LegalAction(w, a) && (a.Op? ==> a.path == d.path)
    ensures Reaches(d, Next(w, a))
  {
    var log :| LeadsTo(d, log, w);
    RunGrows(d.start, log, a);
    assert LeadsTo(d, log + [a], Next(w, a));
  }

  lemma EnvStep(d: Drive, w: World, e: EnvAction)
    requires Reaches(d, w)
    ensures Reaches(d, NextEnv(w, e))
  {
    ReachStep(d, w, Env(e));
  }

  lemma OpStep(d: Drive, w: World, c: Call)
    requires Reaches(d, w) && Legal(w, c, d.path)
    ensures Reaches(d, Apply(w, c))
  {
    ReachStep(d, w, Op(c, d.path));
  }

  // ----- The pre job ----------------------------------------------------------------------------------

  /** Since w0 nothing happened but commands of n's pre job, and what they and others did to Nova. */
  ghost predicate InPre(d: Drive, w0: World, w: World, n: Name) {
    && Reaches(d, w) && n in w.jobs.pre
    && w == w0.(jobs := w0.jobs.(pre := w0.jobs.pre[n := w.jobs.pre[n]], shut := w.jobs.shut), nova := w.nova)
  }

  /** Instances, providers and the kind of placement are as they were, and so is whether n has a service. */
  ghost predicate OnlyServices(v: Nova, v': Nova) {
    && v'.instances == v.instances && v'.providers == v.providers && v'.strict == v.strict
    && v'.services.Keys == v.services.Keys
  }

  lemma PreRunsStep(d: Drive, w0: World, w: World, n: Name)
    requires InPre(d, w0, w, n)
    ensures var w' := NextEnv(w, OfPre(PreRuns(n)));
      && InPre(d, w0, w', n) && w'.jobs.pre[n] == PreAfter(w.nova, n, w.jobs.pre[n])
      && w'.nova == PreOnNova(w.jobs, w.nova, PreRuns(n))
  {
    EnvStep(d, w, OfPre(PreRuns(n)));
  }

  ghost predicate At(w: World, n: Name, pc: PrePc, migrate: bool) {
    n in w.jobs.pre && w.jobs.pre[n].pc == pc && w.jobs.pre[n].migrate == migrate && !w.jobs.pre[n].succeeded
  }

  /** The loop over the disable list: hosts that are not on it keep their services as they are. */
  lemma {:induction false} HostsPass(d: Drive, w0: World, w: World, n: Name, todo: seq<Name>, migrate: bool)
    requires InPre(d, w0, w, n) && At(w, n, Check(todo), migrate)
    ensures exists w' ::
      && InPre(d, w0, w', n) && At(w', n, Check([]), migrate) && OnlyServices(w.nova, w'.nova)
      && (n !in todo ==> (Enabled(w'.nova, n) <==> Enabled(w.nova, n)))
    decreases |todo|
  {
    if todo != [] {
      HostPasses(d, w0, w, n, todo, migrate);
      var w1 :| InPre(d, w0, w1, n) && At(w1, n, Check(todo[1..]), migrate) && OnlyServices(w.nova, w1.nova)
                && (n != todo[0] ==> (Enabled(w1.nova, n) <==> Enabled(w.nova, n)));
      HostsPass(d, w0, w1, n, todo[1..], migrate);
      var w' :| InPre(d, w0, w', n) && At(w', n, Check([]), migrate) && OnlyServices(w1.nova, w'.nova)
                && (n !in todo[1..] ==> (Enabled(w'.nova, n) <==> Enabled(w1.nova, n)));
      assert OnlyServices(w.nova, w'.nova);
      assert n !in todo ==> n != todo[0] && n !in todo[1..];
    }
  }

  /** One host: looked at, disabled if need be, and looked at again. */
  lemma HostPasses(d: Drive, w0: World, w: World, n: Name, todo: seq<Name>, migrate: bool)
    requires InPre(d, w0, w, n) && At(w, n, Check(todo), migrate) && todo != []
    ensures exists w' ::
      && InPre(d, w0, w', n) && At(w', n, Check(todo[1..]), migrate) && OnlyServices(w.nova, w'.nova)
      && (n != todo[0] ==> (Enabled(w'.nova, n) <==> Enabled(w.nova, n)))
  {
    PreRunsStep(d, w0, w, n);
    var w1 := NextEnv(w, OfPre(PreRuns(n)));
    if Enabled(w.nova, todo[0]) {
      HostDisabled(d, w0, w1, n, todo, migrate);
    }
  }

  lemma HostDisabled(d: Drive, w0: World, w: World, n: Name, todo: seq<Name>, migrate: bool)
    requires InPre(d, w0, w, n) && At(w, n, Disable(todo), migrate) && todo != [] && Enabled(w.nova, todo[0])
    ensures exists w' ::
      && InPre(d, w0, w', n) && At(w', n, Check(todo[1..]), migrate) && OnlyServices(w.nova, w'.nova)
      && (n != todo[0] ==> (Enabled(w'.nova, n) <==> Enabled(w.nova, n)))
  {
    PreRunsStep(d, w0, w, n);
    var w1 := NextEnv(w, OfPre(PreRuns(n)));
    PreRunsStep(d, w0, w1, n);
    var w2 := NextEnv(w1, OfPre(PreRuns(n)));
    assert w1.nova.services.Keys == w.nova.services.Keys;
    assert InPre(d, w0, w2, n) && At(w2, n, Check(todo[1..]), migrate);
  }

  /** Up to the wait for an empty node. */
  lemma MigrationPasses(d: Drive, w0: World, w: World, n: Name, migrate: bool)
    requires InPre(d, w0, w, n) && At(w, n, Check([]), migrate)
    ensures exists w' ::
      && InPre(d, w0, w', n) && At(w', n, Wait, migrate)
      && w'.nova == w.nova.(requested := w'.nova.requested)
  {
    PreRunsStep(d, w0, w, n);
    var w1 := NextEnv(w, OfPre(PreRuns(n)));
    if migrate { RequestsPass(d, w0, w1, n, ActiveOn(w.nova, n), migrate); }
  }

  lemma {:induction false} RequestsPass(d: Drive, w0: World, w: World, n: Name, ids: set<int>, migrate: bool)
    requires InPre(d, w0, w, n) && At(w, n, Migrate(ids), migrate)
    ensures exists w' ::
      && InPre(d, w0, w', n) && At(w', n, Wait, migrate)
      && w'.nova == w.nova.(requested := w'.nova.requested)
    decreases |ids|
  {
    if exists i :: i in ids {
      var i :| i in ids;
      EnvStep(d, w, OfPre(PreMigrates(n, i)));
      var w1 := NextEnv(w, OfPre(PreMigrates(n, i)));
      assert InPre(d, w0, w1, n);
      RequestsPass(d, w0, w1, n, ids - {i}, migrate);
    } else {
      assert ids == {};
      PreRunsStep(d, w0, w, n);
    }
  }

  function On(v: Nova, n: Name): set<int> { set i | i in v.instances && v.instances[i].host == n }

  /** Instances may have left node n, and nothing else happened to instances. */
  ghost predicate Evicted(v: Nova, v': Nova, n: Name) {
    && (forall i :: i in v'.instances ==> i in v.instances && v'.instances[i] == v.instances[i])
    && (forall i :: i in v.instances && v.instances[i].host != n ==> i in v'.instances)
  }

  /** All instances of n go away. */
  ghost predicate Cleared(d: Drive, w: World, w': World, n: Name) {
    && Reaches(d, w') && w' == w.(nova := w.nova.(instances := w'.nova.instances))
    && Empty(w'.nova, n) && Evicted(w.nova, w'.nova, n)
  }

  lemma {:induction false} InstancesLeave(d: Drive, w: World, n: Name)
    requires Reaches(d, w)
    ensures exists w' :: Cleared(d, w, w', n)
    decreases |On(w.nova, n)|
  {
    if exists i :: i in On(w.nova, n) {
      var i :| i in On(w.nova, n);
      EnvStep(d, w, OfNova(InstanceGone(i)));
      var w1 := NextEnv(w, OfNova(InstanceGone(i)));
      assert On(w1.nova, n) == On(w.nova, n) - {i};
      InstancesLeave(d, w1, n);
      var w' :| Cleared(d, w1, w', n);
      assert Cleared(d, w, w', n);
    } else {
      forall i | i in w.nova.instances ensures w.nova.instances[i].host != n { assert i !in On(w.nova, n); }
      assert Cleared(d, w, w, n);
    }
  }

  /** The pre job succeeded; n is empty, and unless it is on the list its service is as enabled as it was. */
  ghost predicate Emptied(d: Drive, w0: World, w: World, n: Name, hosts: seq<Name>) {
    && InPre(d, w0, w, n) && PreDone(w, n) && Empty(w.nova, n) && Evicted(w0.nova, w.nova, n)
    && w.nova.strict == w0.nova.strict && w.nova.services.Keys == w0.nova.services.Keys
    && (n !in hosts ==> (Enabled(w.nova, n) <==> Enabled(w0.nova, n)))
  }

  lemma PreCompletes(d: Drive, w0: World, w: World, n: Name, hosts: seq<Name>, migrate: bool)
    requires InPre(d, w0, w, n) && At(w, n, Check(hosts), migrate) && w.nova == w0.nova
    ensures exists w' :: Emptied(d, w0, w', n, hosts)
  {
    HostsPass(d, w0, w, n, hosts, migrate);
    var w1 :| InPre(d, w0, w1, n) && At(w1, n, Check([]), migrate) && OnlyServices(w.nova, w1.nova)
              && (n !in hosts ==> (Enabled(w1.nova, n) <==> Enabled(w.nova, n)));
    MigrationPasses(d, w0, w1, n, migrate);
    var w2 :| InPre(d, w0, w2, n) && At(w2, n, Wait, migrate) && w2.nova == w1.nova.(requested := w2.nova.requested);
    WaitCompletes(d, w0, w2, n, hosts, migrate);
  }

  /** From the wait on. */
  lemma WaitCompletes(d: Drive, w0: World, w: World, n: Name, hosts: seq<Name>, migrate: bool)
    requires InPre(d, w0, w, n) && At(w, n, Wait, migrate) && OnlyServices(w0.nova, w.nova)
    requires n !in hosts ==> (Enabled(w.nova, n) <==> Enabled(w0.nova, n))
    ensures exists w' :: Emptied(d, w0, w', n, hosts)
  {
    InstancesLeave(d, w, n);
    var w1 :| Cleared(d, w, w1, n);
    assert InPre(d, w0, w1, n);
    PreEnds(d, w0, w1, n, migrate);
    var w2 :| InPre(d, w0, w2, n) && PreDone(w2, n) && w2.nova == w1.nova;
    assert Emptied(d, w0, w2, n, hosts);
  }

  lemma PreEnds(d: Drive, w0: World, w: World, n: Name, migrate: bool)
    requires InPre(d, w0, w, n) && At(w, n, Wait, migrate) && Empty(w.nova, n)
    ensures exists w' :: InPre(d, w0, w', n) && PreDone(w', n) && w'.nova == w.nova
  {
    PreRunsStep(d, w0, w, n);
    var w1 := NextEnv(w, OfPre(PreRuns(n)));
    EnvStep(d, w1, OfPre(PreSucceeds(n)));
    var w2 := NextEnv(w1, OfPre(PreSucceeds(n)));
    assert InPre(d, w0, w2, n) && PreDone(w2, n) && w2.nova == w.nova;
  }

  // ----- An instance arrives --------------------------------------------------------------------------

  ghost predicate Above(b: int, ids: set<int>) { forall i :: i in ids ==> i < b }

  lemma {:induction false} Bound(ids: set<int>)
    ensures exists b :: Above(b, ids)
  {
    if exists x :: x in ids {
      var x :| x in ids;
      Bound(ids - {x});
      var b :| Above(b, ids - {x});
      var top := if x < b then b else x + 1;
      forall i | i in ids ensures i < top { assert i == x || i in ids - {x}; }
      assert Above(top, ids);
    } else {
      assert Above(0, ids);
    }
  }

  lemma FreshId(ids: set<int>)
    ensures exists i: int :: i !in ids
  {
    Bound(ids);
    var b :| Above(b, ids);
    assert b !in ids;
  }

  /** n can be given an instance: its service is enabled, or may still register. */
  predicate Open(w: World, n: Name) { Enabled(w.nova, n) || (n !in w.nova.services && !Tainted(w, n)) }

  lemma InstanceArrives(d: Drive, w0: World, w: World, n: Name)
    requires InPre(d, w0, w, n) && PreDone(w, n) && Open(w, n) && !w.nova.strict
    ensures exists w' :: InPre(d, w0, w', n) && PreDone(w', n) && !Empty(w'.nova, n) && !w'.nova.strict
  {
    var w1 := if Enabled(w.nova, n) then w else NextEnv(w, OfNova(ServiceRegisters(n)));
    EnvStep(d, w, OfNova(ServiceRegisters(n)));
    assert InPre(d, w0, w1, n) && Enabled(w1.nova, n);
    FreshId(w1.nova.instances.Keys);
    var i :| i !in w1.nova.instances.Keys;
    EnvStep(d, w1, OfNova(InstancePlaced(i, n)));
    var w2 := NextEnv(w1, OfNova(InstancePlaced(i, n)));
    assert i in w2.nova.instances && w2.nova.instances[i].host == n;
    assert InPre(d, w0, w2, n) && PreDone(w2, n) && !Empty(w2.nova, n);
  }

  // ----- Reconciles -----------------------------------------------------------------------------------

  /** The operator's next reconcile begins, on the path it has to take, and lists the nodes if that is the deletion
      path. */
  function Restarted(w: World): World {
    if w.cr.deleted then Apply(Apply(w, StartReconcile), ListForDeletion) else Apply(w, StartReconcile)
  }

  /** The further calls are on the path the next reconciles have to take. */
  ghost predicate Driven(d: Drive, w: World) { Inv(d.start) && Reaches(d, w) && d.path == PathFor(w.cr) }

  /** A reconcile has just begun. */
  ghost predicate Begun(d: Drive, w: World) {
    Driven(d, w) && Under(w, d.path) && (d.path.Deletion? ==> w.books.listing == Some(w.kube.nodes.Keys))
  }

  lemma Restarts(d: Drive, w: World)
    requires Driven(d, w)
    ensures var w' := Restarted(w); Begun(d, w') && w' == w.(books := w'.books, contested := false)
  {
    OpStep(d, w, StartReconcile);
    if w.cr.deleted { OpStep(d, Apply(w, StartReconcile), ListForDeletion); }
  }

  lemma DrivenInv(d: Drive, w: World)
    requires Driven(d, w)
    ensures Inv(w)
  {
    var log :| LeadsTo(d, log, w);
    LawfulRunsKeepInv(d.start, log);
  }

  /** The barriers of the deletion path, as the next reconcile will see them. */
  ghost predicate PreBarrier(d: Drive, w: World) {
    d.path.Deletion? ==> forall m :: m in w.kube.nodes && HasFinalizer(w, m) ==> PreDone(w, m)
  }

  ghost predicate PostBarrier(d: Drive, w: World) {
    d.path.Deletion? ==> forall m :: m in w.kube.nodes && HasFinalizer(w, m) ==> Drained(w, m)
  }

  // ----- The post job ---------------------------------------------------------------------------------

  /** Since w0 nothing happened but commands of n's post job and what they did to Nova. */
  ghost predicate InPost(d: Drive, w0: World, w: World, n: Name) {
    && Reaches(d, w) && n in w.jobs.post
    && w == w0.(jobs := w0.jobs.(post := w0.jobs.post[n := w.jobs.post[n]]), nova := w.nova)
    && w.nova.instances == w0.nova.instances && w.nova.strict == w0.nova.strict
  }

  ghost predicate PostAt(w: World, n: Name, pc: PostPc, pod: int) {
    n in w.jobs.post && w.jobs.post[n].pc == pc && w.jobs.post[n].pod == pod
  }

  lemma PostRunsStep(d: Drive, w0: World, w: World, n: Name)
    requires InPost(d, w0, w, n)
    ensures var w' := NextEnv(w, OfPost(PostRuns(n, true)));
      && InPost(d, w0, w', n) && w'.jobs.post[n] == w.jobs.post[n].(pc := PostAfter(w.nova, n, w.jobs.post[n].pc))
      && w'.nova == PostOnNova(w.jobs, w.nova, PostRuns(n, true))
  {
    EnvStep(d, w, OfPost(PostRuns(n, true)));
  }

  lemma ServicePasses(d: Drive, w0: World, w: World, n: Name, pod: int)
    requires InPost(d, w0, w, n) && PostAt(w, n, ListService, pod)
    ensures exists w' :: InPost(d, w0, w', n) && PostAt(w', n, ListProvider, pod)
  {
    PostRunsStep(d, w0, w, n);
    if n in w.nova.services {
      var w1 := NextEnv(w, OfPost(PostRuns(n, true)));
      PostRunsStep(d, w0, w1, n);
      var w2 := NextEnv(w1, OfPost(PostRuns(n, true)));
      PostRunsStep(d, w0, w2, n);
      assert PostAt(NextEnv(w2, OfPost(PostRuns(n, true))), n, ListProvider, pod);
    }
  }

  lemma ProviderPasses(d: Drive, w0: World, w: World, n: Name, pod: int)
    requires InPost(d, w0, w, n) && PostAt(w, n, ListProvider, pod)
    requires w.nova.strict ==> Empty(w.nova, n)
    ensures exists w' :: InPost(d, w0, w', n) && PostAt(w', n, PostExit, pod)
  {
    PostRunsStep(d, w0, w, n);
    if n in w.nova.providers {
      var w1 := NextEnv(w, OfPost(PostRuns(n, true)));
      PostRunsStep(d, w0, w1, n);
      var w2 := NextEnv(w1, OfPost(PostRuns(n, true)));
      PostRunsStep(d, w0, w2, n);
      assert PostAt(NextEnv(w2, OfPost(PostRuns(n, true))), n, PostExit, pod);
    }
  }

  /** n is tainted, and its post job has succeeded; of its instances some may have left, if placement is strict. */
  ghost predicate PostWon(d: Drive, w0: World, w: World, n: Name) {
    && Reaches(d, w) && PostDone(w, n) && HasFinalizer(w, n) && Drained(w, n)
    && w.kube == WithTaint(w0.kube, n) && w.cr == w0.cr
    && w.jobs.pre == w0.jobs.pre && w.jobs.post - {n} == w0.jobs.post - {n} && w0.jobs.drained <= w.jobs.drained
    && w.nova.strict == w0.nova.strict && Evicted(w0.nova, w.nova, n)
    && (w0.nova.strict || w.nova.instances == w0.nova.instances)
  }

  /** w differs from w0 by n's taint, its post job, the books and instances that left n, at most. */
  ghost predicate Toward(d: Drive, w0: World, w: World, n: Name) {
    && Reaches(d, w) && HasFinalizer(w0, n) && w.kube == WithTaint(w0.kube, n) && w.cr == w0.cr
    && w.jobs.pre == w0.jobs.pre && w.jobs.post - {n} == w0.jobs.post - {n} && w.jobs.drained == w0.jobs.drained
    && w.nova.strict == w0.nova.strict && Evicted(w0.nova, w.nova, n)
    && (w0.nova.strict || w.nova.instances == w0.nova.instances)
  }

  lemma PostWins(d: Drive, w0: World, w: World, n: Name)
    requires Toward(d, w0, w, n) && PostAt(w, n, PostExit, w0.kube.pods[n].uid)
    ensures exists w' :: PostWon(d, w0, w', n)
  {
    EnvStep(d, w, OfPost(PostSucceeds(n)));
    var w1 := NextEnv(w, OfPost(PostSucceeds(n)));
    assert w1.jobs.post - {n} == w.jobs.post - {n};
    assert PostWon(d, w0, w1, n);
  }

  /** The run of the post job, from its start. */
  lemma PostRunsThrough(d: Drive, w0: World, w: World, n: Name)
    requires Toward(d, w0, w, n) && PostAt(w, n, ListService, w0.kube.pods[n].uid)
    requires w.nova.strict ==> Empty(w.nova, n)
    ensures exists w' :: PostWon(d, w0, w', n)
  {
    var pod := w0.kube.pods[n].uid;
    assert InPost(d, w, w, n);
    ServicePasses(d, w, w, n, pod);
    var w1 :| InPost(d, w, w1, n) && PostAt(w1, n, ListProvider, pod);
    ProviderPasses(d, w, w1, n, pod);
    var w2 :| InPost(d, w, w2, n) && PostAt(w2, n, PostExit, pod);
    assert w2.jobs.post - {n} == w.jobs.post - {n};
    PostWins(d, w0, w2, n);
  }

  lemma PostStarted(d: Drive, w0: World, w: World, n: Name)
    requires Toward(d, w0, w, n) && PostAt(w, n, ListService, w0.kube.pods[n].uid)
    ensures exists w' :: PostWon(d, w0, w', n)
  {
    if w.nova.strict {
      InstancesLeave(d, w, n);
      var w1 :| Cleared(d, w, w1, n);
      assert Toward(d, w0, w1, n);
      PostRunsThrough(d, w0, w1, n);
    } else {
      PostRunsThrough(d, w0, w, n);
    }
  }

  /** FINISHING A POST JOB, wherever it stands: it is created if it is not there, started again if it is under way. */
  lemma PostCompletes(d: Drive, w: World, n: Name)
    requires Driven(d, w) && HasFinalizer(w, n) && n in w.kube.nodes && PreDone(w, n) && PreBarrier(d, w)
    ensures exists w' :: PostWon(d, w, w', n)
  {
    DrivenInv(d, w);
    assert PostInv(w.kube, w.jobs, n) && PreInv(w.kube, w.jobs, n);
    if n !in w.jobs.post {
      PostCreated(d, w, n);
    } else {
      assert WithTaint(w.kube, n) == w.kube;
      if w.jobs.post[n].succeeded {
        assert PostWon(d, w, w, n);
      } else if w.jobs.post[n].pc.PostExit? {
        assert Toward(d, w, w, n);
        PostWins(d, w, w, n);
      } else {
        EnvStep(d, w, OfPost(PostRestarts(n)));
        var w1 := NextEnv(w, OfPost(PostRestarts(n)));
        assert w1.jobs.post - {n} == w.jobs.post - {n};
        assert Toward(d, w, w1, n);
        PostStarted(d, w, w1, n);
      }
    }
  }

  lemma PostCreated(d: Drive, w: World, n: Name)
    requires Driven(d, w) && Inv(w) && HasFinalizer(w, n) && n in w.kube.nodes && PreDone(w, n) && PreBarrier(d, w)
    requires n !in w.jobs.post
    ensures exists w' :: PostWon(d, w, w', n)
  {
    Restarts(d, w);
    var w1 := Restarted(w);
    OpStep(d, w1, AddTaint(n));
    var w2 := Apply(w1, AddTaint(n));
    OpStep(d, w2, CreatePost(n));
    CreatedToward(d, w, w1, n);
    PostStarted(d, w, Apply(w2, CreatePost(n)), n);
  }

  lemma CreatedToward(d: Drive, w: World, w1: World, n: Name)
    requires w1 == w.(books := w1.books, contested := w1.contested) && n !in w.jobs.post && HasFinalizer(w, n)
    requires PodsInv(w.kube, w.jobs) && Reaches(d, Apply(Apply(w1, AddTaint(n)), CreatePost(n)))
    ensures var w' := Apply(Apply(w1, AddTaint(n)), CreatePost(n));
      Toward(d, w, w', n) && PostAt(w', n, ListService, w.kube.pods[n].uid)
  {
    var w' := Apply(Apply(w1, AddTaint(n)), CreatePost(n));
    assert w'.jobs.post - {n} == w.jobs.post - {n};
  }

  // ----- The other nodes ------------------------------------------------------------------------------

  ghost predicate SamePreJob(j: Jobs, j': Jobs, x: Name) {
    (x in j'.pre <==> x in j.pre) && (x in j.pre ==> j'.pre[x] == j.pre[x])
  }

  ghost predicate SamePostJob(j: Jobs, j': Jobs, x: Name) {
    (x in j'.post <==> x in j.post) && (x in j.post ==> j'.post[x] == j.post[x])
  }

  /** Nodes and their taints: taints may have come. */
  ghost predicate MoreTaints(k: Kube, k': Kube) {
    && k'.pods == k.pods && k'.machines == k.machines && k'.last == k.last && k'.nextUid == k.nextUid
    && (forall x :: x in k'.nodes <==> x in k.nodes)
    && (forall x :: x in k.nodes ==> k'.nodes[x] == k.nodes[x] || k'.nodes[x] == k.nodes[x].(tainted := true))
  }

  /** Between w and w' only nodes in S were worked on. */
  ghost predicate Elsewhere(w: World, w': World, S: set<Name>) {
    && MoreTaints(w.kube, w'.kube) && w'.cr == w.cr && w.jobs.drained <= w'.jobs.drained
    && (forall x :: x !in S ==> SamePreJob(w.jobs, w'.jobs, x) && SamePostJob(w.jobs, w'.jobs, x))
    && (forall x :: PreDone(w, x) ==> PreDone(w', x))
    && w'.nova.strict == w.nova.strict
    && (forall i :: i in w.nova.instances && w.nova.instances[i].host !in S ==>
          i in w'.nova.instances && w'.nova.instances[i] == w.nova.instances[i])
  }

  lemma ElsewhereTransitive(a: World, b: World, c: World, S: set<Name>, T: set<Name>)
    requires Elsewhere(a, b, S) && Elsewhere(b, c, T) && S <= T
    ensures Elsewhere(a, c, T)
  {
  }

  /** The list has these names on it. */
  ghost predicate Names(list: seq<Name>, names: set<Name>) { forall h :: h in list <==> h in names }

  lemma {:induction false} Enumerated(names: set<Name>)
    ensures exists list :: Names(list, names)
  {
    if exists h :: h in names {
      var h :| h in names;
      Enumerated(names - {h});
      var list :| Names(list, names - {h});
      assert Names(list + [h], names);
    } else {
      assert Names([], names);
    }
  }

  /** A disable list for the nodes found tagged. */
  ghost predicate Suits(hosts: seq<Name>, tagged: set<Name>, n: Name) {
    hosts != [] && (set h | h in hosts) == DisableSet(tagged, n)
  }

  lemma SuitingList(tagged: set<Name>, n: Name)
    ensures exists hosts :: Suits(hosts, tagged, n)
  {
    Enumerated(DisableSet(tagged, n));
    var hosts :| Names(hosts, DisableSet(tagged, n));
    assert exists h :: h in DisableSet(tagged, n);
    assert Suits(hosts, tagged, n);
  }

  /** m's pre job stands at its start, and elsewhere nothing happened. */
  ghost predicate PreBegins(d: Drive, w: World, w': World, m: Name) {
    && Driven(d, w') && Elsewhere(w, w', {m}) && m in w'.jobs.pre && !w'.jobs.pre[m].succeeded
    && w'.jobs.pre[m].pc == Check(w'.jobs.pre[m].hosts)
  }

  /** m's pre job has succeeded, and elsewhere nothing happened. */
  ghost predicate PreWon(d: Drive, w: World, w': World, m: Name) {
    Driven(d, w') && PreDone(w', m) && Elsewhere(w, w', {m})
  }

  lemma EmptiedElsewhere(d: Drive, w: World, w': World, m: Name, hosts: seq<Name>)
    requires Emptied(d, w, w', m, hosts)
    ensures Elsewhere(w, w', {m})
  {
  }

  lemma PreRunsThrough(d: Drive, w0: World, w: World, m: Name)
    requires PreBegins(d, w0, w, m)
    ensures exists w' :: PreWon(d, w0, w', m)
  {
    var job := w.jobs.pre[m];
    assert w.jobs.pre[m := job] == w.jobs.pre;
    assert InPre(d, w, w, m) && At(w, m, Check(job.hosts), job.migrate);
    PreCompletes(d, w, w, m, job.hosts, job.migrate);
    var w' :| Emptied(d, w, w', m, job.hosts);
    EmptiedElsewhere(d, w, w', m, job.hosts);
    ElsewhereTransitive(w0, w, w', {m}, {m});
    assert PreWon(d, w0, w', m);
  }

  /** A step of m's pre job alone. */
  lemma PreStepElsewhere(w: World, m: Name, a: PreAction)
    requires a.n == m && (a.PreRestarts? || a.PreSucceeds?) && !PreDone(w, m)
    ensures Elsewhere(w, NextEnv(w, OfPre(a)), {m})
  {
  }

  /** FINISHING A PRE JOB of another node, wherever it stands. */
  lemma OtherPreCompletes(d: Drive, w: World, m: Name)
    requires Driven(d, w) && d.path.Deletion? && HasFinalizer(w, m) && m in w.kube.nodes && !PreDone(w, m)
    ensures exists w' :: PreWon(d, w, w', m)
  {
    if m !in w.jobs.pre {
      OtherPreCreated(d, w, m);
      var w1 :| PreBegins(d, w, w1, m);
      PreRunsThrough(d, w, w1, m);
    } else if w.jobs.pre[m].pc.PreExit? {
      EnvStep(d, w, OfPre(PreSucceeds(m)));
      PreStepElsewhere(w, m, PreSucceeds(m));
      assert PreWon(d, w, NextEnv(w, OfPre(PreSucceeds(m))), m);
    } else {
      EnvStep(d, w, OfPre(PreRestarts(m)));
      PreStepElsewhere(w, m, PreRestarts(m));
      PreRunsThrough(d, w, NextEnv(w, OfPre(PreRestarts(m))), m);
    }
  }

  lemma OtherPreCreated(d: Drive, w: World, m: Name)
    requires Driven(d, w) && d.path.Deletion? && HasFinalizer(w, m) && m in w.kube.nodes && m !in w.jobs.pre
    ensures exists w' :: PreBegins(d, w, w', m)
  {
    Restarts(d, w);
    var w1 := Restarted(w);
    OpStep(d, w1, ListMachines);
    var w2 := Apply(w1, ListMachines);
    SuitingList(w2.books.tagged, m);
    var hosts :| Suits(hosts, w2.books.tagged, m);
    OpStep(d, w2, CreatePre(m, hosts, false));
    PreCreatedElsewhere(w, w2, m, hosts);
    assert PreBegins(d, w, Apply(w2, CreatePre(m, hosts, false)), m);
  }

  lemma PreCreatedElsewhere(w: World, w1: World, m: Name, hosts: seq<Name>)
    requires w1 == w.(books := w1.books, contested := w1.contested) && m !in w.jobs.pre
    ensures Elsewhere(w, Apply(w1, CreatePre(m, hosts, false)), {m})
  {
  }

  /** The pre jobs of the nodes in `todo` have succeeded, and elsewhere nothing happened. */
  ghost predicate AllPreWon(d: Drive, w: World, w': World, todo: set<Name>) {
    Driven(d, w') && Elsewhere(w, w', todo) && forall m :: m in todo ==> PreDone(w', m)
  }

  lemma AllPreWonOneMore(d: Drive, w: World, w1: World, w': World, todo: set<Name>, m: Name)
    requires m in todo && Elsewhere(w, w1, {m}) && PreDone(w1, m) && AllPreWon(d, w1, w', todo - {m})
    ensures AllPreWon(d, w, w', todo)
  {
    ElsewhereGrows(w1, w', todo - {m}, todo);
    ElsewhereTransitive(w, w1, w', {m}, todo);
  }

  /** Protected nodes. */
  ghost predicate Guarded(w: World, todo: set<Name>) {
    forall m :: m in todo ==> HasFinalizer(w, m) && m in w.kube.nodes
  }

  lemma {:induction false} OthersPreComplete(d: Drive, w: World, todo: set<Name>)
    requires Driven(d, w) && d.path.Deletion? && Guarded(w, todo)
    ensures exists w' :: AllPreWon(d, w, w', todo)
    decreases |todo|
  {
    if exists m :: m in todo {
      var m :| m in todo;
      var w1 := w;
      if !PreDone(w, m) {
        OtherPreCompletes(d, w, m);
        w1 :| PreWon(d, w, w1, m);
      }
      assert Elsewhere(w, w1, {m});
      OthersPreComplete(d, w1, todo - {m});
      var w' :| AllPreWon(d, w1, w', todo - {m});
      AllPreWonOneMore(d, w, w1, w', todo, m);
    } else {
      assert AllPreWon(d, w, w, todo);
    }
  }

  lemma ElsewhereGrows(w: World, w': World, S: set<Name>, T: set<Name>)
    requires Elsewhere(w, w', S) && S <= T
    ensures Elsewhere(w, w', T)
  {
  }

  lemma WonElsewhere(d: Drive, w: World, w': World, m: Name)
    requires Driven(d, w) && PostWon(d, w, w', m)
    ensures Driven(d, w') && Elsewhere(w, w', {m})
  {
    forall x | x != m ensures SamePostJob(w.jobs, w'.jobs, x) {
      assert x in w'.jobs.post <==> x in (w'.jobs.post - {m});
      assert x in w.jobs.post <==> x in (w.jobs.post - {m});
    }
  }

  /** The nodes in `todo` are drained, and elsewhere nothing happened. */
  ghost predicate AllWon(d: Drive, w: World, w': World, todo: set<Name>) {
    Driven(d, w') && Elsewhere(w, w', todo) && forall m :: m in todo ==> Drained(w', m)
  }

  lemma AllWonOneMore(d: Drive, w: World, w1: World, w': World, todo: set<Name>, m: Name)
    requires m in todo && Elsewhere(w, w1, {m}) && Drained(w1, m) && AllWon(d, w1, w', todo - {m})
    ensures AllWon(d, w, w', todo)
  {
    ElsewhereGrows(w1, w', todo - {m}, todo);
    ElsewhereTransitive(w, w1, w', {m}, todo);
  }

  lemma BarrierStays(d: Drive, w: World, w': World, S: set<Name>)
    requires Elsewhere(w, w', S) && PreBarrier(d, w)
    ensures PreBarrier(d, w')
  {
  }

  lemma {:induction false} OthersDrain(d: Drive, w: World, todo: set<Name>)
    requires Driven(d, w) && PreBarrier(d, w) && d.path.Deletion? && Guarded(w, todo)
    ensures exists w' :: AllWon(d, w, w', todo)
    decreases |todo|
  {
    if exists m :: m in todo {
      var m :| m in todo;
      PostCompletes(d, w, m);
      var w1 :| PostWon(d, w, w1, m);
      WonElsewhere(d, w, w1, m);
      BarrierStays(d, w, w1, {m});
      OthersDrain(d, w1, todo - {m});
      var w' :| AllWon(d, w1, w', todo - {m});
      AllWonOneMore(d, w, w1, w', todo, m);
    } else {
      assert AllWon(d, w, w, todo);
    }
  }

  // ----- The release ----------------------------------------------------------------------------------

  /** From world w on, n is about to be released, and if so wanted there is an instance on n.  On the regular path, n's
      taint and what happened to Nova apart, everything is as it was in w0. */
  ghost predicate AboutToRelease(d: Drive, w0: World, w: World, n: Name, occupied: bool) {
    && Reaches(d, w) && Legal(w, RemoveFinalizer(n), d.path) && w.kube.pods == w0.kube.pods
    && (occupied ==> !Empty(w.nova, n))
    && (d.path.Regular? ==>
          w.kube == WithTaint(w0.kube, n) && w.cr == w0.cr
          && w.jobs.pre == w0.jobs.pre - {n} && w.jobs.post == w0.jobs.post - {n})
  }

  /** n's drain jobs are gone, and its finalizer may go. */
  ghost predicate JobsGone(d: Drive, w: World, w': World, n: Name) {
    && Reaches(d, w') && Legal(w', RemoveFinalizer(n), d.path)
    && w'.kube == w.kube && w'.cr == w.cr && w'.nova == w.nova
    && w'.jobs.pre == w.jobs.pre - {n} && w'.jobs.post == w.jobs.post - {n}
  }

  /** The cleanup of n's jobs. */
  lemma JobsGo(d: Drive, w: World, n: Name)
    requires Driven(d, w) && HasFinalizer(w, n) && Drained(w, n) && PreDone(w, n) && PostDone(w, n) && PostBarrier(d, w)
    ensures exists w' :: JobsGone(d, w, w', n)
  {
    Restarts(d, w);
    var w1 := Restarted(w);
    OpStep(d, w1, DeletePost(n));
    var w2 := Apply(w1, DeletePost(n));
    OpStep(d, w2, DeletePre(n));
    var w3 := Apply(w2, DeletePre(n));
    assert JobsGone(d, w, w3, n);
  }

  ghost predicate Occupied(w: World, n: Name) { !Empty(w.nova, n) && !w.nova.strict }

  /** From the success of its pre job to the release of n, on the regular path. */
  lemma RegularDrainEnds(d: Drive, w: World, n: Name, occupied: bool)
    requires Driven(d, w) && d.path.Regular? && HasFinalizer(w, n) && n in w.kube.nodes && PreDone(w, n)
    requires occupied ==> Occupied(w, n)
    ensures exists w' :: AboutToRelease(d, w, w', n, occupied)
  {
    PostCompletes(d, w, n);
    var w1 :| PostWon(d, w, w1, n);
    JobsGo(d, w1, n);
    var w2 :| JobsGone(d, w1, w2, n);
    assert AboutToRelease(d, w, w2, n, occupied);
  }

  lemma StaysOccupied(w: World, w': World, n: Name, S: set<Name>)
    requires Elsewhere(w, w', S) && n !in S && Occupied(w, n)
    ensures Occupied(w', n)
  {
    var i :| i in w.nova.instances && w.nova.instances[i].host == n;
    assert i in w'.nova.instances && w'.nova.instances[i].host == n;
  }

  /** The protected nodes other than n. */
  function Others(w: World, n: Name): set<Name> { set m | m in w.kube.nodes && HasFinalizer(w, m) && m != n }

  lemma OthersGuarded(w: World, n: Name)
    ensures Guarded(w, Others(w, n))
  {
  }

  /** The same on the deletion path, where the others have to come along. */
  lemma DeletionDrainEnds(d: Drive, w: World, n: Name, occupied: bool)
    requires Driven(d, w) && d.path.Deletion? && HasFinalizer(w, n) && n in w.kube.nodes && PreDone(w, n)
    requires occupied ==> Occupied(w, n)
    ensures exists w' :: AboutToRelease(d, w, w', n, occupied)
  {
    OthersGuarded(w, n);
    OthersPreComplete(d, w, Others(w, n));
    var w1 :| AllPreWon(d, w, w1, Others(w, n));
    if occupied { StaysOccupied(w, w1, n, Others(w, n)); }
    BehindPreBarrier(d, w1, n, occupied);
    var w' :| AboutToRelease(d, w1, w', n, occupied);
    assert AboutToRelease(d, w, w', n, occupied);
  }

  /** From the first barrier on. */
  lemma BehindPreBarrier(d: Drive, w: World, n: Name, occupied: bool)
    requires Driven(d, w) && PreBarrier(d, w) && d.path.Deletion?
    requires HasFinalizer(w, n) && n in w.kube.nodes && PreDone(w, n) && (occupied ==> Occupied(w, n))
    ensures exists w' :: AboutToRelease(d, w, w', n, occupied)
  {
    PostCompletes(d, w, n);
    var w1 :| PostWon(d, w, w1, n);
    WonElsewhere(d, w, w1, n);
    BarrierStays(d, w, w1, {n});
    OthersFollow(d, w1, n, occupied);
    var w' :| AboutToRelease(d, w1, w', n, occupied);
    assert AboutToRelease(d, w, w', n, occupied);
  }

  /** n is drained, and the others follow. */
  lemma OthersFollow(d: Drive, w: World, n: Name, occupied: bool)
    requires Driven(d, w) && PreBarrier(d, w) && d.path.Deletion?
    requires HasFinalizer(w, n) && Drained(w, n) && n in w.kube.nodes && PreDone(w, n) && PostDone(w, n)
    requires occupied ==> Occupied(w, n)
    ensures exists w' :: AboutToRelease(d, w, w', n, occupied)
  {
    OthersGuarded(w, n);
    OthersDrain(d, w, Others(w, n));
    var w1 :| AllWon(d, w, w1, Others(w, n));
    if occupied { StaysOccupied(w, w1, n, Others(w, n)); }
    AllAreDrained(d, w, w1, n);
    JobsGo(d, w1, n);
    var w2 :| JobsGone(d, w1, w2, n);
    assert AboutToRelease(d, w, w2, n, occupied);
  }

  lemma AllAreDrained(d: Drive, w: World, w': World, n: Name)
    requires AllWon(d, w, w', Others(w, n))
    requires HasFinalizer(w, n) && Drained(w, n) && n in w.kube.nodes && PreDone(w, n) && PostDone(w, n)
    ensures HasFinalizer(w', n) && Drained(w', n) && PreDone(w', n) && PostDone(w', n) && PostBarrier(d, w')
  {
    forall m | m in w'.kube.nodes && HasFinalizer(w', m) ensures Drained(w', m) {
      assert m == n || m in Others(w, n);
    }
    assert SamePostJob(w.jobs, w'.jobs, n);
  }

  /** EVERY DRAIN CAN END: once its pre job is created (in w0), the run can go on until n is released, with all further
      calls on the path the resource asks for; and if the drain was not safe, with an instance on n. */
  lemma DrainCanEnd(d: Drive, w0: World, n: Name, hosts: seq<Name>, migrate: bool, occupied: bool)
    requires Inv(d.start) && d.path == PathFor(w0.cr) && Reaches(d, Apply(w0, CreatePre(n, hosts, migrate)))
    requires HasFinalizer(w0, n) && n in w0.kube.nodes && n !in w0.jobs.pre
    requires occupied ==> !Safe(w0, n, hosts)
    ensures exists w :: AboutToRelease(d, w0, w, n, occupied)
  {
    var w := Apply(w0, CreatePre(n, hosts, migrate));
    assert InPre(d, w0, w, n) && At(w, n, Check(hosts), migrate);
    PreCompletes(d, w0, w, n, hosts, migrate);
    var w1 :| Emptied(d, w0, w1, n, hosts);
    if occupied {
      InstanceArrives(d, w0, w1, n);
      var w2 :| InPre(d, w0, w2, n) && PreDone(w2, n) && !Empty(w2.nova, n) && !w2.nova.strict;
      DrainEnds(d, w0, w2, n, occupied);
    } else {
      DrainEnds(d, w0, w1, n, occupied);
    }
  }

  lemma DrainEnds(d: Drive, w0: World, w: World, n: Name, occupied: bool)
    requires Inv(d.start) && d.path == PathFor(w0.cr) && HasFinalizer(w0, n) && n in w0.kube.nodes && n !in w0.jobs.pre
    requires InPre(d, w0, w, n) && PreDone(w, n) && (occupied ==> Occupied(w, n))
    ensures exists w' :: AboutToRelease(d, w0, w', n, occupied)
  {
    if d.path.Regular? { RegularDrainEnds(d, w, n, occupied); } else { DeletionDrainEnds(d, w, n, occupied); }
    var w' :| AboutToRelease(d, w, w', n, occupied);
    assert w.jobs.pre - {n} == w0.jobs.pre - {n};
    assert AboutToRelease(d, w0, w', n, occupied);
  }

  /** The last step of log, a continuation of past, takes the finalizer off pod u of n. */
  ghost predicate EndsInRelease(start: World, past: seq<Action>, log: seq<Action>, n: Name, u: int) {
    && past <= log && |past| < |log| && Lawful(start, log)
    && GuardedBy(WorldAt(start, log, |log| - 1), n, u) && !HasFinalizer(Exec(start, log), n)
  }

  /** Whatever happens from here on, at the moment pod u of n loses its finalizer there is no instance on n. */
  ghost predicate AlwaysLeavesEmpty(start: World, past: seq<Action>, n: Name, u: int) {
    forall log :: EndsInRelease(start, past, log, n, u) ==> Empty(Exec(start, log).nova, n)
  }

  /** EVACUATION, exactly.  At the moment the operator creates the pre job of n, every continuation of the run releases n
      without instances if and only if the drain is safe: placement keeps providers in use, or n's service is there
      and on the disable list, or nothing can be scheduled on n any more, because its service is disabled, or gone
      with n tainted. */
  lemma {:induction false} EvacuationExactlyWhen(start: World, log: seq<Action>, w: World, n: Name, hosts: seq<Name>,
                                                 migrate: bool, path: Path)
    requires Pristine(start) && Lawful(start, log) && w == Exec(start, log)
    requires n !in w.jobs.pre && Legal(w, CreatePre(n, hosts, migrate), path)
    ensures Safe(w, n, hosts) <==>
      AlwaysLeavesEmpty(start, log + [Op(CreatePre(n, hosts, migrate), path)], n, w.kube.pods[n].uid)
  {
    var past, u := log + [Op(CreatePre(n, hosts, migrate), path)], w.kube.pods[n].uid;
    if Safe(w, n, hosts) {
      forall more | EndsInRelease(start, past, more, n, u) ensures Empty(Exec(start, more).nova, n) {
        SafeContinuation(start, log, more, n, hosts, migrate, path);
      }
    } else {
      UnsafeContinuation(start, log, w, n, hosts, migrate, path);
    }
  }

  /** An unsafe drain has a continuation that releases n with an instance on it. */
  lemma UnsafeContinuation(start: World, log: seq<Action>, w: World, n: Name, hosts: seq<Name>, migrate: bool, path: Path)
    requires Inv(start) && Lawful(start, log) && w == Exec(start, log)
    requires n !in w.jobs.pre && Legal(w, CreatePre(n, hosts, migrate), path) && !Safe(w, n, hosts)
    ensures !AlwaysLeavesEmpty(start, log + [Op(CreatePre(n, hosts, migrate), path)], n, w.kube.pods[n].uid)
  {
    var create, u := Op(CreatePre(n, hosts, migrate), path), w.kube.pods[n].uid;
    var past := log + [create];
    RunGrows(start, log, create);
    CanEndOccupied(Drive(start, past, PathFor(w.cr)), w, n, hosts, migrate);
    var more :| EndsOccupied(Drive(start, past, PathFor(w.cr)), more, n, u);
  }

  /** A continuation on the given path that ends with the release of n with an instance on it. */
  ghost predicate EndsOccupied(d: Drive, log: seq<Action>, n: Name, u: int) {
    EndsInRelease(d.start, d.past, log, n, u) && OnPath(log, |d.past|, d.path) && !Empty(Exec(d.start, log).nova, n)
  }

  /** The run so far ends with the creation of n's pre job in w0. */
  lemma CanEndOccupied(d: Drive, w0: World, n: Name, hosts: seq<Name>, migrate: bool)
    requires Inv(d.start) && Lawful(d.start, d.past) && Exec(d.start, d.past) == Apply(w0, CreatePre(n, hosts, migrate))
    requires d.path == PathFor(w0.cr) && HasFinalizer(w0, n) && n in w0.kube.nodes && n !in w0.jobs.pre
    requires !Safe(w0, n, hosts)
    ensures exists log :: EndsOccupied(d, log, n, w0.kube.pods[n].uid)
  {
    assert LeadsTo(d, d.past, Exec(d.start, d.past));
    DrainCanEnd(d, w0, n, hosts, migrate, true);
    var w :| AboutToRelease(d, w0, w, n, true);
    ReleaseEnds(d, w, n, w0.kube.pods[n].uid);
  }

  lemma ReleaseEnds(d: Drive, w: World, n: Name, u: int)
    requires Reaches(d, w) && Legal(w, RemoveFinalizer(n), d.path) && GuardedBy(w, n, u) && !Empty(w.nova, n)
    ensures exists log :: EndsOccupied(d, log, n, u)
  {
    var log :| LeadsTo(d, log, w);
    RunGrows(d.start, log, Op(RemoveFinalizer(n), d.path));
    var more := log + [Op(RemoveFinalizer(n), d.path)];
    assert more[..|more| - 1] == log;
    assert EndsOccupied(d, more, n, u);
  }

  lemma SafeContinuation(start: World, log: seq<Action>, more: seq<Action>, n: Name, hosts: seq<Name>, migrate: bool,
                         path: Path)
    requires Pristine(start) && Lawful(start, log) && n !in Exec(start, log).jobs.pre
    requires Legal(Exec(start, log), CreatePre(n, hosts, migrate), path) && Safe(Exec(start, log), n, hosts)
    requires EndsInRelease(start, log + [Op(CreatePre(n, hosts, migrate), path)], more, n,
                           Exec(start, log).kube.pods[n].uid)
    ensures Empty(Exec(start, more).nova, n)
  {
    var c, i, u := |log|, |more| - 1, Exec(start, log).kube.pods[n].uid;
    assert more[..c] == log && more[c] == Op(CreatePre(n, hosts, migrate), path);
    assert more[..i + 1] == more;
    GuardsBetween(start, more, c, i, n, u);
    SafeDrainEvacuates(start, more, c, i, n, u);
  }

  /** A run that just created n's pre job can end with n released and, if the drain was not safe, occupied, all further
      calls of the operator being on the given path. */
  lemma UnsafeDrainCanEndOccupied(start: World, past: seq<Action>, w0: World, n: Name, hosts: seq<Name>, path: Path)
    requires Inv(start) && Lawful(start, past) && Exec(start, past) == Apply(w0, CreatePre(n, hosts, false))
    requires HasFinalizer(w0, n) && n in w0.kube.nodes && n !in w0.jobs.pre && !Safe(w0, n, hosts)
    requires OnPath(past, 0, path) && path == PathFor(w0.cr)
    ensures exists log: seq<Action> :: EndsInRelease(start, past, log, n, w0.kube.pods[n].uid) && OnPath(log, 0, path)
                          && !Empty(Exec(start, log).nova, n)
  {
    CanEndOccupied(Drive(start, past, path), w0, n, hosts, false);
    var log: seq<Action> :| EndsOccupied(Drive(start, past, path), log, n, w0.kube.pods[n].uid);
    assert log[..|past|] == past;
    forall k | 0 <= k < |log| && log[k].Op? ensures log[k].path == path { if k < |past| { assert log[k] == past[k]; } }
  }
}
