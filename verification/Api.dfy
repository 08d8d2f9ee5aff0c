/** The API server as the operator meets it: between any two calls the environment may act, and any call may
    fail, also after it took effect. */
module Api {
  import opened Model
  import opened Protocol
  import opened History

  datatype Error = NotFound | AlreadyExists | Conflict | Failed | Panic
  datatype Result<+T> = Ok(value: T) | Err(error: Error)

  datatype NodeItem = NodeItem(name: Name, node: Node)

  /** The operator's in-memory copy of the custom resource; `edits` is bookkeeping. */
  class ComputeNodeOpenStack {
    var spec: Spec
    var status: Status
    var version: int
    var deleted: bool
    var finalizer: bool
    const edits: int

    constructor (cr: Cr)
      ensures spec == cr.spec && status == cr.status && version == cr.version
      ensures deleted == cr.deleted && finalizer == cr.finalizer && edits == cr.edits
    {
      spec, status, version, deleted, finalizer := cr.spec, cr.status, cr.version, cr.deleted, cr.finalizer;
      edits := cr.edits;
    }

    /** As long as nobody else wrote the resource, the copy is the resource; and as long as no user changed the
        spec, the spec is. */
    ghost predicate InStep(cr: Cr)
      reads this
    {
      && (version == cr.version ==>
            spec == cr.spec && status == cr.status && deleted == cr.deleted && finalizer == cr.finalizer
            && edits == cr.edits)
      && (edits == cr.edits ==> spec == cr.spec)
    }
  }

  /** `log` records every environment step and every operator call that took effect; `quiet` describes a
      platform on which calls succeed and nobody else acts while a reconcile runs, but for one thing: somebody
      deletes the labelled object `thief`, if there is one, just before the cleanup does.  Lookups of machines fail
      for the machines in `flaky` only. */
  class ApiServer {
    var world: World
    const quiet: bool
    const thief: Option<ObjKey>
    const flaky: set<Name>
    ghost const start: World
    ghost var log: seq<Action>

    /** The log is a lawful run from `start` to the present world. */
    ghost predicate Valid()
      reads this
    {
      Inv(world) && world == Exec(start, log) && Lawful(start, log)
    }

    constructor (w: World, quiet: bool, thief: Option<ObjKey>, flaky: set<Name>)
      requires Inv(w)
      ensures Valid() && world == w && start == w && log == []
      ensures this.quiet == quiet && this.thief == thief && this.flaky == flaky
    {
      world, start, log := w, w, [];
      this.quiet, this.thief, this.flaky := quiet, thief, flaky;
    }

    /** Other actors do as they please. */
    method Interfere()
      requires Valid()
      modifies this
      ensures Valid() && Calm(old(world), world) && old(log) <= log
      ensures quiet ==> world == old(world) && log == old(log)
    {
      CalmRun(world, []);
      if !quiet {
        var acts: seq<EnvAction> := *;
        for i := 0 to |acts|
          invariant Valid() && Calm(old(world), world) && old(log) <= log
        {
          CalmStep(world, acts[i]);
          CalmTransitive(old(world), world, NextEnv(world, acts[i]));
          Record(Env(acts[i]));
        }
      }
    }

    /** Time for the drain jobs and for Nova, while everything else stands still. */
    method LetJobsRun()
      requires Valid()
      modifies this
      ensures Valid() && old(log) <= log
      ensures OnlyJobs(old(world), world)
      ensures CalmJobs(old(world).jobs, world.jobs)
    {
      var acts: seq<EnvAction> := *;
      for i := 0 to |acts|
        invariant Valid() && old(log) <= log
        invariant OnlyJobs(old(world), world) && CalmJobs(old(world).jobs, world.jobs)
      {
        if IsJobAction(acts[i]) {
          JobsStep(old(world), world, acts[i]);
          Record(Env(acts[i]));
        }
      }
    }

    /** One atomic step. */
    method Record(a: Action)
      requires Valid() && LegalAction(world, a)
      modifies this
      ensures Valid() && world == Next(old(world), a) && log == old(log) + [a]
    {
      StepInv(world, a);
      RunGrows(start, log, a);
      world := Next(world, a);
      log := log + [a];
    }

    /** Whether the next call reports a failure. */
    method Fails() returns (fails: bool)
      ensures quiet ==> !fails
    {
      fails := false;
      if !quiet { fails := *; }
    }

    /** A write.  It lands on a world `mid` that may differ from the one the caller saw; `Legal` in that world
        is what the caller has to have made sure of. */
    method Submit(c: Call, path: Path) returns (ok: bool, ghost mid: World)
      requires Valid() && Legal(world, c, path) && !c.RemoveCrFinalizer? && !c.UpdateSpec? && !c.StartReconcile?
      modifies this
      ensures Valid() && Calm(old(world), mid) && old(log) <= log
      ensures ok ==> world == Apply(mid, c)
      ensures !ok ==> world == mid || world == Apply(mid, c)
      ensures quiet ==> ok && mid == old(world)
    {
      Interfere();
      LegalStaysLegal(old(world), world, c, path);
      mid := world;
      ok := true;
      var fails := Fails();
      if fails {
        ok := false;
        var landed: bool := *;
        if landed { Record(Op(c, path)); }
      } else {
        Record(Op(c, path));
      }
    }

    /** A creation: it is refused when an object of that name exists. */
    method Create(c: Call, path: Path) returns (err: Option<Error>, ghost mid: World)
      requires Valid() && Legal(world, c, path) && (c.CreateBlocker? || c.CreatePre? || c.CreatePost?)
      modifies this
      ensures Valid() && Calm(old(world), mid) && old(log) <= log
      ensures err.None? ==> !Exists(mid, c) && world == Apply(mid, c)
      ensures err == Some(AlreadyExists) ==> Exists(mid, c) && world == mid
      ensures err.Some? ==> world == mid || world == Apply(mid, c)
      ensures err.Some? ==> err.value.Failed? || err.value.AlreadyExists?
      ensures quiet ==> mid == old(world) && err == if Exists(mid, c) then Some(AlreadyExists) else None
    {
      Interfere();
      LegalStaysLegal(old(world), world, c, path);
      mid := world;
      var fails := Fails();
      var landed: bool := *;
      if fails && !landed { return Some(Failed), mid; }
      if Exists(world, c) { return Some(if fails then Failed else AlreadyExists), mid; }
      Record(Op(c, path));
      err := if fails then Some(Failed) else None;
    }

    /** A write of the custom resource: it is refused when somebody else wrote it first. */
    method SubmitCr(c: Call, path: Path, version: int) returns (err: Option<Error>, ghost mid: World)
      requires Valid() && (world.cr.version == version ==> Legal(world, c, path))
      requires c.UpdateSpec? || c.UpdateStatus? || c.AddCrFinalizer? || c.RemoveCrFinalizer?
      requires version <= world.cr.version
      modifies this
      ensures Valid() && old(log) <= log && Calm(old(world), mid)
      ensures world == mid || Landed(mid, world, c, version)
      ensures err.None? ==> Landed(mid, world, c, version) && mid.cr == old(world).cr
      ensures quiet && version == old(world).cr.version ==> err.None? && world == Apply(old(world), c)
    {
      Interfere();
      mid := world;
      if world.cr.version != version { return Some(Conflict), mid; }
      LegalStaysLegal(old(world), world, c, path);
      var fails := Fails();
      var landed: bool := *;
      if fails && !landed { return Some(Failed), mid; }
      Record(Op(c, path));
      err := if fails then Some(Failed) else None;
    }

    /** The read of the resource a reconcile begins with. */
    method GetCr() returns (r: Option<Cr>, ghost mid: World)
      requires Valid()
      modifies this
      ensures Valid() && old(log) <= log
      ensures Calm(old(world), mid) && world == (if r.Some? then Apply(mid, StartReconcile) else mid)
      ensures r.Some? ==> r.value == world.cr
      ensures quiet ==> r.Some? && world == Apply(old(world), StartReconcile)
    {
      Interfere();
      mid := world;
      var fails := Fails();
      if fails { return None, mid; }
      Record(Op(StartReconcile, if world.cr.deleted then Deletion else Regular));
      r := Some(world.cr);
    }

    method GetPod(n: Name) returns (r: Result<Pod>)
      requires Valid()
      modifies this
      ensures Valid() && Calm(old(world), world) && old(log) <= log
      ensures r.Ok? ==> n in world.kube.pods && r.value == world.kube.pods[n]
      ensures r.Err? ==> r.error.Failed? || (r.error.NotFound? && n !in world.kube.pods)
      ensures quiet ==> world == old(world) && (r.Ok? || r.error.NotFound?)
    {
      Interfere();
      var fails := Fails();
      r := if fails then Err(Failed) else if n in world.kube.pods then Ok(world.kube.pods[n]) else Err(NotFound);
    }

    method GetMachine(m: Name) returns (r: Result<Machine>)
      requires Valid()
      modifies this
      ensures Valid() && Calm(old(world), world) && old(log) <= log
      ensures r.Ok? ==> m in world.kube.machines && r.value == world.kube.machines[m]
      ensures r.Err? ==> (r.error.Failed? && m in flaky) || (r.error.NotFound? && m !in world.kube.machines)
      ensures quiet ==> world == old(world) && (r.Ok? || r.error.NotFound?)
    {
      Interfere();
      var fails := Fails();
      r := if fails && m in flaky then Err(Failed)
           else if m in world.kube.machines then Ok(world.kube.machines[m]) else Err(NotFound);
    }

    method GetNode(n: Name) returns (r: Result<Node>)
      requires Valid()
      modifies this
      ensures Valid() && Calm(old(world), world) && old(log) <= log
      ensures r.Ok? ==> n in world.kube.nodes && r.value == world.kube.nodes[n]
      ensures r.Err? ==> r.error.Failed? || (r.error.NotFound? && n !in world.kube.nodes)
      ensures quiet ==> world == old(world) && (r.Ok? || r.error.NotFound?)
    {
      Interfere();
      var fails := Fails();
      r := if fails then Err(Failed) else if n in world.kube.nodes then Ok(world.kube.nodes[n]) else Err(NotFound);
    }

    method GetPre(n: Name) returns (r: Result<PreJob>)
      requires Valid()
      modifies this
      ensures Valid() && Calm(old(world), world) && old(log) <= log
      ensures r.Ok? ==> n in world.jobs.pre && r.value == world.jobs.pre[n]
      ensures r.Err? ==> r.error.Failed? || (r.error.NotFound? && n !in world.jobs.pre)
      ensures quiet ==> world == old(world) && (r.Ok? || r.error.NotFound?)
    {
      Interfere();
      var fails := Fails();
      r := if fails then Err(Failed) else if n in world.jobs.pre then Ok(world.jobs.pre[n]) else Err(NotFound);
    }

    method GetPost(n: Name) returns (r: Result<PostJob>)
      requires Valid()
      modifies this
      ensures Valid() && Calm(old(world), world) && old(log) <= log
      ensures r.Ok? ==> n in world.jobs.post && r.value == world.jobs.post[n]
      ensures r.Err? ==> r.error.Failed? || (r.error.NotFound? && n !in world.jobs.post)
      ensures quiet ==> world == old(world) && (r.Ok? || r.error.NotFound?)
    {
      Interfere();
      var fails := Fails();
      r := if fails then Err(Failed) else if n in world.jobs.post then Ok(world.jobs.post[n]) else Err(NotFound);
    }

    /** All nodes with the role label, in the server's order. */
    method ListNodes() returns (r: Result<seq<NodeItem>>)
      requires Valid()
      modifies this
      ensures Valid() && Calm(old(world), world) && old(log) <= log
      ensures r.Ok? ==> ListsNodes(r.value, world.kube.nodes)
      ensures quiet ==> world == old(world) && r.Ok?
    {
      Interfere();
      var fails := Fails();
      if fails { return Err(Failed); }
      var items := Itemize(world.kube.nodes);
      r := Ok(items);
    }

    /** The listing the deletion path starts from. */
    method ListForDeletion() returns (r: Result<seq<NodeItem>>, ghost mid: World)
      requires Valid() && world.cr.deleted && Under(world, Deletion)
      modifies this
      ensures Valid() && old(log) <= log
      ensures Calm(old(world), mid) && world == (if r.Ok? then Apply(mid, Model.ListForDeletion) else mid)
      ensures r.Err? ==> r.error.Failed?
      ensures r.Ok? ==> ListsNodes(r.value, world.kube.nodes) && ListedSince(start, log, |old(log)|, world.books.listing)
      ensures quiet ==> r.Ok? && world == Apply(old(world), Model.ListForDeletion)
    {
      Interfere();
      mid := world;
      var fails := Fails();
      if fails { return Err(Failed), mid; }
      JustListed(start, log, |old(log)|, Deletion);
      Record(Op(Model.ListForDeletion, Deletion));
      var items := Itemize(world.kube.nodes);
      r := Ok(items);
    }

    /** Deletes all labelled objects of a kind in a namespace; a failure may leave any part of them. */
    method DeleteCollection(kind: ObjKind, namespace: Name) returns (err: Option<Error>)
      requires Valid() && MaySweep(world)
      modifies this
      ensures Valid() && old(log) <= log && Sweeps(old(world), world)
      ensures err.None? || err.value.NotFound? ==> Collection(world, kind, namespace) == {}
      ensures quiet ==> world.cr == old(world).cr && (err.None? || err.value.NotFound?)
      ensures quiet ==> world.owned == old(world).owned - Collection(old(world), kind, namespace)
    {
      Interfere();
      SweepKeeps(old(world), world);
      var keys := Collection(world, kind, namespace);
      var missing: bool := *;
      if keys == {} && missing { return Some(NotFound); }
      var fails := Fails();
      if fails {
        var part: set<ObjKey> := *;
        keys := keys * part;
      }
      CollectionDeleted(world, kind, namespace, keys);
      Record(Op(DeleteOwned(keys), Deletion));
      err := if fails then Some(Failed) else None;
    }

    /** The labelled objects of a kind, in the machine API's namespace only if the kind is namespaced. */
    method ListOwned(kind: ObjKind, namespaced: bool) returns (r: Result<seq<ObjKey>>)
      requires Valid() && MaySweep(world) && DeletedSingly(kind)
      modifies this
      ensures Valid() && old(log) <= log && Sweeps(old(world), world)
      ensures r.Ok? ==> ListsOwned(r.value, world, kind, namespaced)
      ensures r.Err? ==> r.error == Failed
      ensures quiet ==> r.Ok? && world == Apply(old(world), Model.ListOwned(kind, namespaced))
    {
      Interfere();
      SweepKeeps(old(world), world);
      var fails := Fails();
      if fails { return Err(Failed); }
      ghost var mid := world;
      ListingSweeps(mid, kind, namespaced);
      Record(Op(Model.ListOwned(kind, namespaced), Deletion));
      SweepsTransitive(old(world), mid, world);
      var keys := Enumerate(world.books.pending);
      r := Ok(keys);
    }

    /** Others act while the cleanup is about to delete the object under this key. */
    method InterfereAt(key: ObjKey)
      requires Valid() && MaySweep(world)
      modifies this
      ensures Valid() && old(log) <= log && Calm(old(world), world) && Sweeps(old(world), world)
      ensures quiet ==> world == if thief == Some(key) then NextEnv(old(world), ObjectGone(key)) else old(world)
    {
      Interfere();
      if quiet && thief == Some(key) {
        CalmStep(world, ObjectGone(key));
        Record(Env(ObjectGone(key)));
      }
      SweepKeeps(old(world), world);
    }

    /** Deletes one of the listed objects. */
    method DeleteObject(key: ObjKey) returns (err: Option<Error>)
      requires Valid() && MaySweep(world) && key in world.books.pending
      modifies this
      ensures Valid() && old(log) <= log && Sweeps(old(world), world) && Picks(old(world), world, key)
      ensures err.None? ==> key !in world.owned
      ensures err == Some(NotFound) && key in old(world).owned ==> world.contested
      ensures quiet && key in old(world).owned ==>
        (thief == Some(key) ==> err == Some(NotFound) && world == NextEnv(old(world), ObjectGone(key)))
        && (thief != Some(key) ==> err.None? && world == Apply(old(world), DeleteOwned({key})))
    {
      InterfereAt(key);
      if key !in world.owned { return Some(NotFound); }
      var fails := Fails();
      var landed: bool := *;
      if fails && !landed { return Some(Failed); }
      Record(Op(DeleteOwned({key}), Deletion));
      err := if fails then Some(Failed) else None;
    }

    /** All machines of the role. */
    method ListMachines(path: Path) returns (r: Result<seq<Machine>>, ghost mid: World)
      requires Valid() && Under(world, path)
      modifies this
      ensures Valid() && Calm(old(world), mid) && old(log) <= log
      ensures world == if r.Ok? then Apply(mid, Model.ListMachines) else mid
      ensures r.Ok? ==> (forall m :: m in r.value <==> m in world.kube.machines.Values)
      ensures r.Err? ==> r.error.Failed?
      ensures quiet ==> mid == old(world) && r.Ok?
    {
      Interfere();
      mid := world;
      var fails := Fails();
      if fails { return Err(Failed), mid; }
      Record(Op(Model.ListMachines, path));
      var items: seq<Machine> := [];
      var rest := world.kube.machines.Values;
      while rest != {}
        invariant rest <= world.kube.machines.Values
        invariant forall m :: m in items <==> m in world.kube.machines.Values && m !in rest
        decreases rest
      {
        var m :| m in rest;
        items, rest := items + [m], rest - {m};
      }
      r := Ok(items);
    }
  }

  /** A write of the resource took effect, on the version it was meant for. */
  predicate Landed(mid: World, w': World, c: Call, version: int) { mid.cr.version == version && w' == Apply(mid, c) }

  /** Nothing but drain jobs and Nova moved. */
  ghost predicate OnlyJobs(w: World, w': World) {
    w'.kube == w.kube && w'.cr == w.cr && w'.owned == w.owned && w'.books == w.books
  }

  lemma JobsStep(w: World, w1: World, a: EnvAction)
    requires OnlyJobs(w, w1) && CalmJobs(w.jobs, w1.jobs) && IsJobAction(a)
    ensures OnlyJobs(w, NextEnv(w1, a)) && CalmJobs(w.jobs, NextEnv(w1, a).jobs)
  {
    CalmStep(w1, a);
    forall n ensures KeptJobs(w.jobs, NextEnv(w1, a).jobs, n) {
      assert KeptJobs(w.jobs, w1.jobs, n) && KeptJobs(w1.jobs, NextEnv(w1, a).jobs, n);
    }
  }

  /** The keys in some order. */
  method Enumerate(found: set<ObjKey>) returns (keys: seq<ObjKey>)
    ensures forall k :: k in keys <==> k in found
    ensures forall i, j :: 0 <= i < j < |keys| ==> keys[i] != keys[j]
  {
    keys := [];
    var rest := found;
    while rest != {}
      invariant forall k :: k in keys || k in rest <==> k in found
      invariant forall k :: k in keys ==> k !in rest
      invariant forall i, j :: 0 <= i < j < |keys| ==> keys[i] != keys[j]
      decreases rest
    {
      var k :| k in rest;
      keys, rest := keys + [k], rest - {k};
    }
  }

  method Itemize(nodes: map<Name, Node>) returns (items: seq<NodeItem>)
    ensures ListsNodes(items, nodes)
  {
    items := [];
    var rest := nodes.Keys;
    while rest != {}
      invariant rest <= nodes.Keys
      invariant forall i :: 0 <= i < |items| ==>
        items[i].name in nodes && items[i].name !in rest && items[i].node == nodes[items[i].name]
      invariant forall i, j :: 0 <= i < j < |items| ==> items[i].name != items[j].name
      invariant forall n :: n in nodes && n !in rest ==> Lists(items, n)
      decreases rest
    {
      var n :| n in rest;
      var longer := items + [NodeItem(n, nodes[n])];
      assert longer[|items|].name == n;
      forall m | Lists(items, m) ensures Lists(longer, m) {
        var i :| 0 <= i < |items| && items[i].name == m;
        assert longer[i].name == m;
      }
      items, rest := longer, rest - {n};
    }
  }

  function Collection(w: World, kind: ObjKind, namespace: Name): set<ObjKey> {
    set k | k in w.owned && k.kind == kind && k.namespace == namespace
  }

  lemma CollectionDeleted(w: World, kind: ObjKind, namespace: Name, keys: set<ObjKey>)
    requires MaySweep(w) && keys <= Collection(w, kind, namespace)
    ensures Sweeps(w, Apply(w, DeleteOwned(keys)))
    ensures keys == Collection(w, kind, namespace) ==>
      Collection(Apply(w, DeleteOwned(keys)), kind, namespace) == {}
  {
  }

  /** The deletion path has released all nodes it listed. */
  ghost predicate MaySweep(w: World) {
    Under(w, Deletion) && w.cr.deleted && NoneProtected(w)
  }

  /** Labelled objects go; the rest is left to the environment. */
  ghost predicate Sweeps(w: World, w': World) {
    && MaySweep(w') && w'.owned <= w.owned && (w.contested ==> w'.contested)
    && w'.books == w.books.(pending := w'.books.pending)
    && CalmCr(w.cr, w'.cr)
  }

  /** Only the object under this key is dealt with: the other pending ones stay pending, and are there if they were,
      unless somebody else deleted one of them. */
  ghost predicate Picks(w: World, w': World, key: ObjKey) {
    && w.books.pending - {key} <= w'.books.pending
    && (!w'.contested ==> w.owned * w.books.pending - {key} <= w'.owned)
  }

  lemma SweepsTransitive(a: World, b: World, c: World)
    requires Sweeps(a, b) && Sweeps(b, c)
    ensures Sweeps(a, c)
  {
  }

  lemma ListingSweeps(w: World, kind: ObjKind, namespaced: bool)
    requires MaySweep(w)
    ensures var w' := Apply(w, ListOwned(kind, namespaced));
      Sweeps(w, w') && w'.owned == w.owned && w'.books.pending == Selection(w.owned, kind, namespaced)
  {
  }

  lemma SweepKeeps(w: World, w': World)
    requires Inv(w) && MaySweep(w) && Calm(w, w')
    ensures Sweeps(w, w')
  {
    BarriersStay(w, w');
  }

  /** A duplicate-free listing of the labelled objects of a kind, all of them pending. */
  ghost predicate ListsOwned(keys: seq<ObjKey>, w: World, kind: ObjKind, namespaced: bool) {
    && (forall k :: k in keys <==> k in w.owned && OfKind(k, kind, namespaced))
    && (forall k :: k in keys ==> k in w.books.pending)
    && (forall i, j :: 0 <= i < j < |keys| ==> keys[i] != keys[j])
  }

  /** The object a creation asks for is already there. */
  predicate Exists(w: World, c: Call)
    requires c.CreateBlocker? || c.CreatePre? || c.CreatePost?
  {
    match c
    case CreateBlocker(n) => n in w.kube.pods
    case CreatePre(n, _, _) => n in w.jobs.pre
    case CreatePost(n) => n in w.jobs.post
  }

  ghost predicate Lists(items: seq<NodeItem>, n: Name) { exists i :: 0 <= i < |items| && items[i].name == n }

  ghost predicate DistinctItems(items: seq<NodeItem>) {
    forall i, j :: 0 <= i < j < |items| ==> items[i].name != items[j].name
  }

  /** A duplicate-free listing of exactly the given nodes. */
  ghost predicate ListsNodes(items: seq<NodeItem>, nodes: map<Name, Node>) {
    && (forall i :: 0 <= i < |items| ==> items[i].name in nodes && items[i].node == nodes[items[i].name])
    && DistinctItems(items)
    && (forall n :: n in nodes ==> Lists(items, n))
  }
}
