/** Deletion of the custom resource: the drain of all listed nodes behind phase barriers, the cleanup of labelled
    objects, and the removal of the resource's own finalizer. */
module CrDeletion {
  import opened Model
  import opened Protocol
  import opened History
  import opened Api
  import opened Drain

  /** The listing covers the given names, and its copies show no taint that is not there. */
  ghost predicate Covers(w: World, items: seq<NodeItem>) {
    && DistinctItems(items) && Under(w, Deletion)
    && w.books.listing.Some? && (forall m :: m in w.books.listing.value <==> Lists(items, m))
    && (forall i :: 0 <= i < |items| ==> CopyHolds(w, items[i]))
  }

  predicate OnListing(w: World, m: Name) { w.books.listing.Some? && m in w.books.listing.value }

  ghost predicate PreUpTo(w: World, items: seq<NodeItem>, k: int) {
    forall i :: 0 <= i < k && i < |items| && HasFinalizer(w, items[i].name) ==> PreDone(w, items[i].name)
  }

  ghost predicate PostUpTo(w: World, items: seq<NodeItem>, k: int) {
    forall i :: 0 <= i < k && i < |items| && HasFinalizer(w, items[i].name) ==> PostDone(w, items[i].name)
  }

  /** The listed nodes before k have a pre job, or taint and post job, if they are still protected. */
  ghost predicate PreThere(w: World, items: seq<NodeItem>, k: int) {
    forall i :: 0 <= i < k && i < |items| && HasFinalizer(w, items[i].name) ==> items[i].name in w.jobs.pre
  }

  ghost predicate PostThere(w: World, items: seq<NodeItem>, k: int) {
    forall i :: 0 <= i < k && i < |items| && HasFinalizer(w, items[i].name) ==>
      items[i].name in w.jobs.post && Tainted(w, items[i].name)
  }

  lemma OnwardKeepsJobs(w: World, w': World, items: seq<NodeItem>, k: int)
    requires Onward(w, w') && Covers(w, items)
    ensures PreThere(w, items, k) ==> PreThere(w', items, k)
    ensures PostThere(w, items, k) ==> PostThere(w', items, k)
  {
    forall i | 0 <= i < |items| && HasFinalizer(w', items[i].name)
      ensures HasFinalizer(w, items[i].name)
      ensures items[i].name in w.jobs.pre ==> items[i].name in w'.jobs.pre
      ensures items[i].name in w.jobs.post ==> items[i].name in w'.jobs.post
      ensures Tainted(w, items[i].name) ==> Tainted(w', items[i].name)
    {
      assert CopyHolds(w, items[i]);
      assert KeptNode(w.kube, w'.kube, items[i].name) && KeptJobs(w.jobs, w'.jobs, items[i].name);
    }
  }

  lemma OnwardKeepsPhases(w: World, w': World, items: seq<NodeItem>, k: int)
    requires Onward(w, w') && Covers(w, items)
    ensures Covers(w', items)
    ensures PreUpTo(w, items, k) ==> PreUpTo(w', items, k)
    ensures PostUpTo(w, items, k) ==> PostUpTo(w', items, k)
    ensures AllPreDone(w) ==> AllPreDone(w')
  {
    OnwardBarrier(w, w');
    forall i | 0 <= i < |items| ensures CopyHolds(w', items[i]) {
      assert CopyHolds(w, items[i]) && KeptNode(w.kube, w'.kube, items[i].name);
    }
    forall i | 0 <= i < |items| && HasFinalizer(w', items[i].name)
      ensures HasFinalizer(w, items[i].name)
      ensures PreDone(w, items[i].name) ==> PreDone(w', items[i].name)
      ensures PostDone(w, items[i].name) ==> PostDone(w', items[i].name)
    {
      assert KeptNode(w.kube, w'.kube, items[i].name) && KeptJobs(w.jobs, w'.jobs, items[i].name);
    }
  }

  // ----- On a quiet platform --------------------------------------------------------------------------

  /** An error other than the one that stands for unfinished jobs. */
  predicate Stuck(r: Result<bool>) { r.Err? && r.error != AlreadyExists }

  /** One protected node came a stage further. */
  ghost predicate Advanced(w: World, w': World) { exists n :: HasFinalizer(w, n) && JobsMoved(w, w', n) }

  /** At most taints were added. */
  ghost predicate TaintsOnly(w: World, w': World) {
    && w'.jobs == w.jobs && w'.cr == w.cr && w'.owned == w.owned && w'.kube.pods == w.kube.pods && w'.kube.machines == w.kube.machines
    && w'.kube.nodes.Keys == w.kube.nodes.Keys
    && (forall m :: m in w.kube.nodes ==> SameNode(w.kube.nodes[m], w'.kube.nodes[m]))
  }

  lemma AdvancedAfterTaints(w: World, w1: World, w': World, n: Name)
    ensures TaintsOnly(w, w1) && HasFinalizer(w1, n) && JobsMoved(w1, w', n) ==> Advanced(w, w')
    ensures TaintsOnly(w, w1) && TaintsOnly(w1, w') ==> TaintsOnly(w, w')
  {
    if TaintsOnly(w, w1) && HasFinalizer(w1, n) && JobsMoved(w1, w', n) {
      forall m | m != n ensures SameDrain(w, w', m) { assert SameDrain(w1, w', m); }
      assert JobsMoved(w, w', n);
    }
  }

  /** A protected node among the first k whose drain job runs. */
  ghost predicate SomeRuns(w: World, items: seq<NodeItem>, k: int) {
    exists i :: 0 <= i < k && i < |items| && HasFinalizer(w, items[i].name) && Running(w, items[i].name)
  }

  /** A protected node whose drain job failed. */
  ghost predicate SomeBroke(w: World) { exists n :: HasFinalizer(w, n) && Broken(w, n) }

  /** What a phase makes of one node on a quiet platform: one that is released, or done with the phase, is passed over; a
      missing job is created; one that runs is waited for; one that failed is an error. */
  ghost predicate NodeTurn(w: World, w': World, n: Name, done: bool, missing: bool, r: Result<bool>) {
    if !HasFinalizer(w, n) || done then r == Ok(true) && TaintsOnly(w, w')
    else if missing then Stuck(r) && JobsMoved(w, w', n)
    else TaintsOnly(w, w') && if Running(w, n) then r == Ok(false) else Stuck(r) && Broken(w, n)
  }

  /** The same seen from the world w0 in which the phase began, with nothing but taints in between. */
  ghost predicate NextTurn(w0: World, w': World, n: Name, r: Result<bool>) {
    match r
    case Ok(done) => TaintsOnly(w0, w') && (!done ==> HasFinalizer(w0, n) && Running(w0, n))
    case Err(_) => Stuck(r) && (Advanced(w0, w') || SomeBroke(w0))
  }

  /** What a phase does on a quiet platform, wherever the jobs stand: it is through, or waits for a job that runs, or has
      created a job, or met one that failed. */
  ghost predicate PhaseTurn(w: World, w': World, items: seq<NodeItem>, r: Result<bool>) {
    match r
    case Ok(all) => TaintsOnly(w, w') && (!all ==> SomeRuns(w, items, |items|))
    case Err(_) => Stuck(r) && (Advanced(w, w') || SomeBroke(w))
  }

  lemma TurnAfterTaints(w0: World, w: World, w': World, n: Name, done: bool, missing: bool, r: Result<bool>)
    requires TaintsOnly(w0, w) && NodeTurn(w, w', n, done, missing, r)
    ensures NextTurn(w0, w', n, r)
  {
    AdvancedAfterTaints(w0, w, w', n);
    if r.Err? && Broken(w, n) && HasFinalizer(w, n) { assert Broken(w0, n) && HasFinalizer(w0, n); }
  }

  // ----- The drain phases -----------------------------------------------------------------------------

  /** Phase 1: every listed node that is still protected gets its pre job, also when others are not done with theirs. */
  method PreDrainAll(api: ApiServer, spec: Spec, items: seq<NodeItem>) returns (r: Result<bool>)
    requires api.Valid() && Covers(api.world, items)
    modifies api
    ensures api.Valid() && old(api.log) <= api.log && Onward(old(api.world), api.world)
    ensures Covers(api.world, items)
    ensures if r.Ok? then PreThere(api.world, items, |items|) else r.error.Failed?
    ensures r == Ok(true) ==> AllPreDone(api.world)
    ensures api.quiet ==> PhaseTurn(old(api.world), api.world, items, r)
  {
    ghost var w0 := api.world;
    CalmRun(w0, []);
    CalmIsOnward(w0, w0);
    var all := true;
    for k := 0 to |items|
      invariant api.Valid() && old(api.log) <= api.log && Onward(w0, api.world) && Covers(api.world, items)
      invariant PreThere(api.world, items, k) && (all ==> PreUpTo(api.world, items, k))
      invariant api.quiet ==> TaintsOnly(w0, api.world) && (all || SomeRuns(w0, items, k))
    {
      var done := PreDrainNext(api, spec, items, k, w0);
      if done.Err? && done.error != AlreadyExists { return Err(done.error); }
      if done != Ok(true) { all := false; }
    }
    r := Ok(all);
  }

  /** One node of phase 1, seen from the world w0 in which the phase began. */
  method PreDrainNext(api: ApiServer, spec: Spec, items: seq<NodeItem>, k: nat, ghost w0: World)
    returns (r: Result<bool>)
    requires api.Valid() && Onward(w0, api.world) && Covers(api.world, items) && k < |items|
    requires api.quiet ==> TaintsOnly(w0, api.world)
    modifies api
    ensures api.Valid() && old(api.log) <= api.log && Onward(w0, api.world) && Covers(api.world, items)
    ensures r == Ok(true) && PreUpTo(old(api.world), items, k) ==> PreUpTo(api.world, items, k + 1)
    ensures r.Ok? && PreThere(old(api.world), items, k) ==> PreThere(api.world, items, k + 1)
    ensures r.Err? ==> r.error.Failed?
    ensures api.quiet ==> NextTurn(w0, api.world, items[k].name, r)
  {
    ghost var w1, n := api.world, items[k].name;
    r := PreDrainOne(api, spec, items, k);
    if api.quiet { TurnAfterTaints(w0, w1, api.world, n, PreDone(w1, n), n !in w1.jobs.pre, r); }
    OnwardTransitive(w0, w1, api.world);
    OnwardKeepsPhases(w1, api.world, items, k);
    OnwardKeepsJobs(w1, api.world, items, k);
  }

  method PreDrainOne(api: ApiServer, spec: Spec, items: seq<NodeItem>, k: nat) returns (r: Result<bool>)
    requires api.Valid() && Covers(api.world, items) && k < |items|
    modifies api
    ensures api.Valid() && old(api.log) <= api.log && Onward(old(api.world), api.world)
    ensures r == Ok(true) && HasFinalizer(api.world, items[k].name) ==> PreDone(api.world, items[k].name)
    ensures r.Ok? && HasFinalizer(api.world, items[k].name) ==> items[k].name in api.world.jobs.pre
    ensures r.Err? ==> r.error.Failed?
    ensures api.quiet ==>
      NodeTurn(old(api.world), api.world, items[k].name, PreDone(old(api.world), items[k].name),
               items[k].name !in old(api.world).jobs.pre, r)
  {
    ghost var w0 := api.world;
    var n := items[k].name;
    var gone := IsBlockerPodFinalizerDeleted(api, n);
    ghost var w1 := api.world;
    CalmIsOnward(w0, w1);
    OnwardKeepsPhases(w0, w1, items, k);
    if gone.Err? { return Err(gone.error); }
    if gone.value { return Ok(true); }
    assert CopyHolds(w1, items[k]);
    r := EnsureNodePreDrain(api, spec, n, Deletion);
    OnwardTransitive(w0, w1, api.world);
    if api.quiet { PreMoves(w0, api.world, n, r); }
  }

  lemma PreMoves(w: World, w': World, n: Name, r: Result<bool>)
    requires Inv(w) && HasFinalizer(w, n) && PreTriggered(w, w', n) && AnswersPre(w, n, r)
    requires r.Err? ==> r.error.Failed?
    ensures NodeTurn(w, w', n, PreDone(w, n), n !in w.jobs.pre, r)
  {
    assert PostInv(w.kube, w.jobs, n);
    StageMoves(w, w', n);
  }

  /** Phase 2: taint and post job for every listed node that is still protected, also when others are not done. */
  method PostDrainAll(api: ApiServer, items: seq<NodeItem>) returns (r: Result<bool>)
    requires api.Valid() && Covers(api.world, items) && AllPreDone(api.world)
    modifies api
    ensures api.Valid() && old(api.log) <= api.log && Onward(old(api.world), api.world)
    ensures Covers(api.world, items)
    ensures if r.Ok? then PostThere(api.world, items, |items|) else r.error.Failed?
    ensures r == Ok(true) ==> PostUpTo(api.world, items, |items|)
    ensures api.quiet && InNodes(old(api.world), items) ==> PhaseTurn(old(api.world), api.world, items, r)
  {
    ghost var w0 := api.world;
    ghost var quiet := api.quiet && InNodes(w0, items);
    PostBegins(w0, items, quiet);
    r := PostDrainEach(api, items, w0, quiet);
  }

  /** The loop over the listed nodes. */
  method PostDrainEach(api: ApiServer, items: seq<NodeItem>, ghost w0: World, ghost quiet: bool)
    returns (r: Result<bool>)
    requires api.Valid() && InPost(w0, api.world, items, 0, true, quiet) && (quiet ==> api.quiet)
    modifies api
    ensures api.Valid() && old(api.log) <= api.log && Onward(w0, api.world) && Covers(api.world, items)
    ensures if r.Ok? then InPost(w0, api.world, items, |items|, r.value, quiet) else r.error.Failed?
    ensures quiet && r.Err? ==> Advanced(w0, api.world) || SomeBroke(w0)
  {
    var all := true;
    for k := 0 to |items|
      invariant api.Valid() && old(api.log) <= api.log && InPost(w0, api.world, items, k, all, quiet)
    {
      var done := PostDrainNext(api, items, k, w0, all, quiet);
      if done.Err? && done.error != AlreadyExists { return Err(done.error); }
      if done != Ok(true) { all := false; }
    }
    r := Ok(all);
  }

  /** Phase 2 after k nodes, seen from the world w0 in which the phase began. */
  ghost predicate InPost(w0: World, w: World, items: seq<NodeItem>, k: int, all: bool, quiet: bool) {
    && Onward(w0, w) && Covers(w, items) && AllPreDone(w)
    && PostThere(w, items, k) && (all ==> PostUpTo(w, items, k))
    && (quiet ==> InNodes(w0, items) && TaintsOnly(w0, w) && (all || SomeRuns(w0, items, k)))
  }

  /** One node of phase 2. */
  method PostDrainNext(api: ApiServer, items: seq<NodeItem>, k: nat, ghost w0: World, ghost all: bool, ghost quiet: bool)
    returns (r: Result<bool>)
    requires api.Valid() && k < |items| && InPost(w0, api.world, items, k, all, quiet) && (quiet ==> api.quiet)
    modifies api
    ensures api.Valid() && old(api.log) <= api.log && Onward(w0, api.world) && Covers(api.world, items)
    ensures if r.Ok? then InPost(w0, api.world, items, k + 1, all && r.value, quiet) else r.error.Failed?
    ensures quiet && r.Err? ==> NextTurn(w0, api.world, items[k].name, r)
  {
    ghost var w1, n := api.world, items[k].name;
    r := PostDrainOne(api, items, k);
    if quiet { TurnAfterTaints(w0, w1, api.world, n, PostDone(w1, n), n !in w1.jobs.post, r); }
    PostGoesOn(w0, w1, api.world, items, k, all, quiet, r);
  }

  lemma PostGoesOn(w0: World, w: World, w': World, items: seq<NodeItem>, k: nat, all: bool, quiet: bool, r: Result<bool>)
    requires k < |items| && InPost(w0, w, items, k, all, quiet) && Onward(w, w')
    requires r == Ok(true) && HasFinalizer(w', items[k].name) ==> PostDone(w', items[k].name)
    requires r.Ok? && HasFinalizer(w', items[k].name) ==> items[k].name in w'.jobs.post && Tainted(w', items[k].name)
    requires quiet ==> NextTurn(w0, w', items[k].name, r)
    ensures Onward(w0, w') && Covers(w', items)
    ensures r.Ok? ==> InPost(w0, w', items, k + 1, all && r.value, quiet)
  {
    OnwardTransitive(w0, w, w');
    OnwardKeepsPhases(w, w', items, k);
    OnwardKeepsJobs(w, w', items, k);
    if quiet && r == Ok(false) { assert SomeRuns(w0, items, k + 1); }
  }

  lemma PostBegins(w: World, items: seq<NodeItem>, quiet: bool)
    requires Covers(w, items) && AllPreDone(w) && (quiet ==> InNodes(w, items))
    ensures InPost(w, w, items, 0, true, quiet)
  {
    CalmRun(w, []);
    CalmIsOnward(w, w);
  }

  lemma PostMoves(w: World, mid: World, w': World, n: Name, r: Result<bool>)
    requires Inv(w) && HasFinalizer(w, n) && PreDone(w, n)
    requires OnlyTaint(w, mid, n) && PostTriggered(mid, w', n) && AnswersPost(w, n, r) && (r.Err? ==> r.error.Failed?)
    ensures NodeTurn(w, w', n, PostDone(w, n), n !in w.jobs.post, r)
  {
    StageMoves(w, w', n);
  }

  ghost predicate InNodes(w: World, items: seq<NodeItem>) {
    forall i :: 0 <= i < |items| ==> items[i].name in w.kube.nodes
  }

  method PostDrainOne(api: ApiServer, items: seq<NodeItem>, k: nat) returns (r: Result<bool>)
    requires api.Valid() && Covers(api.world, items) && k < |items| && AllPreDone(api.world)
    modifies api
    ensures api.Valid() && old(api.log) <= api.log && Onward(old(api.world), api.world)
    ensures r == Ok(true) && HasFinalizer(api.world, items[k].name) ==> PostDone(api.world, items[k].name)
    ensures r.Ok? && HasFinalizer(api.world, items[k].name) ==>
      items[k].name in api.world.jobs.post && Tainted(api.world, items[k].name)
    ensures r.Err? ==> r.error.Failed?
    ensures api.quiet && items[k].name in old(api.world).kube.nodes ==>
      NodeTurn(old(api.world), api.world, items[k].name, PostDone(old(api.world), items[k].name),
               items[k].name !in old(api.world).jobs.post, r)
  {
    ghost var w0 := api.world;
    var n := items[k].name;
    assert Lists(items, n);
    var gone := IsBlockerPodFinalizerDeleted(api, n);
    ghost var w1 := api.world;
    CalmIsOnward(w0, w1);
    OnwardKeepsPhases(w0, w1, items, k);
    if gone.Err? { return Err(gone.error); }
    if gone.value { return Ok(true); }
    assert CopyHolds(w1, items[k]);
    ghost var mid;
    r, mid := PostPhase(api, n, items[k].node, Deletion);
    OnwardTransitive(w0, w1, api.world);
    if api.quiet && n in w0.kube.nodes { PostMoves(w0, mid, api.world, n, r); }
  }

  /** In phase 3, nodes before k are released and those from k on are ready to be cleaned up. */
  ghost predicate Releasing(w: World, items: seq<NodeItem>, k: int) {
    && AllDrained(w) && Under(w, Deletion)
    && (forall i :: 0 <= i < k && i < |items| ==> !HasFinalizer(w, items[i].name))
    && (forall i :: 0 <= i < |items| && k <= i && HasFinalizer(w, items[i].name) ==> PostDone(w, items[i].name))
  }

  lemma ReleasingStarts(w: World, items: seq<NodeItem>)
    requires Inv(w) && Covers(w, items) && PostUpTo(w, items, |items|)
    ensures Releasing(w, items, 0)
  {
    forall m | OnListing(w, m) && HasFinalizer(w, m) ensures Drained(w, m) {
      assert Lists(items, m);
      assert PostInv(w.kube, w.jobs, m) && PreInv(w.kube, w.jobs, m);
    }
  }

  lemma ReleasingStays(w: World, w': World, items: seq<NodeItem>, k: int)
    requires Calm(w, w') && Releasing(w, items, k) && 0 <= k
    ensures Releasing(w', items, k)
  {
    BarriersStay(w, w');
    forall i | 0 <= i < |items| ensures HasFinalizer(w', items[i].name) ==> HasFinalizer(w, items[i].name) {
      assert KeptNode(w.kube, w'.kube, items[i].name);
    }
    forall i | k <= i < |items| && PostDone(w, items[i].name) ensures PostDone(w', items[i].name) {
      assert KeptJobs(w.jobs, w'.jobs, items[i].name);
    }
  }

  lemma ReleasingOneMore(w: World, w': World, items: seq<NodeItem>, k: int)
    requires 0 <= k < |items| && DistinctItems(items) && Releasing(w, items, k)
    requires OnwardExcept(w, w', items[k].name) && !HasFinalizer(w', items[k].name) && AllDrained(w')
    ensures Releasing(w', items, k + 1)
  {
    forall i | k + 1 <= i < |items| && HasFinalizer(w', items[i].name) ensures PostDone(w', items[i].name) {
      assert Kept(w, w', items[i].name);
    }
  }

  /** Phase 3: cleanup, node by node. */
  method ReleaseAll(api: ApiServer, items: seq<NodeItem>) returns (err: Option<Error>)
    requires api.Valid() && Covers(api.world, items) && Releasing(api.world, items, 0)
    modifies api
    ensures err != Some(AlreadyExists)
    ensures api.Valid() && old(api.log) <= api.log && CalmCr(old(api.world).cr, api.world.cr)
    ensures err.None? ==> NoneProtected(api.world) && Under(api.world, Deletion)
    ensures api.world.books.listing == old(api.world).books.listing
    ensures api.quiet ==> err.None? && api.world.cr == old(api.world).cr && api.world.owned == old(api.world).owned
  {
    ghost var w0 := api.world;
    for k := 0 to |items|
      invariant api.Valid() && old(api.log) <= api.log && CalmCr(w0.cr, api.world.cr)
      invariant Releasing(api.world, items, k) && api.world.books.listing == w0.books.listing
      invariant api.quiet ==> api.world.cr == w0.cr && api.world.owned == w0.owned
    {
      assert Lists(items, items[k].name);
      err := ReleaseOne(api, items, k);
      if err.Some? { return; }
    }
    forall m | OnListing(api.world, m) ensures !HasFinalizer(api.world, m) { assert Lists(items, m); }
    err := None;
  }

  method ReleaseOne(api: ApiServer, items: seq<NodeItem>, k: nat) returns (err: Option<Error>)
    requires api.Valid() && DistinctItems(items) && k < |items| && OnListing(api.world, items[k].name)
    requires Releasing(api.world, items, k)
    modifies api
    ensures err != Some(AlreadyExists)
    ensures api.Valid() && old(api.log) <= api.log && CalmCr(old(api.world).cr, api.world.cr)
    ensures api.world.books.listing == old(api.world).books.listing
    ensures err.None? ==> Releasing(api.world, items, k + 1)
    ensures api.quiet ==> err.None? && api.world.cr == old(api.world).cr && api.world.owned == old(api.world).owned
  {
    ghost var w1 := api.world;
    var n := items[k].name;
    var gone := IsBlockerPodFinalizerDeleted(api, n);
    ghost var w2 := api.world;
    ReleasingStays(w1, w2, items, k);
    if gone.Err? { return Some(gone.error); }
    if gone.value { return None; }
    err := CleanUpOne(api, items, k);
  }

  method CleanUpOne(api: ApiServer, items: seq<NodeItem>, k: nat) returns (err: Option<Error>)
    requires api.Valid() && DistinctItems(items) && k < |items| && OnListing(api.world, items[k].name)
    requires Releasing(api.world, items, k) && HasFinalizer(api.world, items[k].name)
    modifies api
    ensures err != Some(AlreadyExists)
    ensures api.Valid() && old(api.log) <= api.log && CalmCr(old(api.world).cr, api.world.cr)
    ensures api.world.books.listing == old(api.world).books.listing
    ensures err.None? ==> Releasing(api.world, items, k + 1)
    ensures api.quiet ==> err.None? && api.world.cr == old(api.world).cr && api.world.owned == old(api.world).owned
  {
    ghost var w := api.world;
    ReadyToCleanUp(w, items[k].name, Deletion);
    err := CleanUp(api, items[k].name, Deletion);
    if err.None? { ReleasingOneMore(w, api.world, items, k); }
  }

  /** Access data for the OpenStack API, which the drain jobs need. */
  method GetOpenStackClientInformation(api: ApiServer) returns (err: Option<Error>)
    requires api.Valid()
    modifies api
    ensures api.Valid() && old(api.log) <= api.log && Calm(old(api.world), api.world)
    ensures err.None? || err == Some(Failed)
    ensures api.quiet ==> err.None? && api.world == old(api.world)
  {
    api.Interfere();
    var fails := api.Fails();
    err := if fails then Some(Failed) else None;
  }

  method ListAll(api: ApiServer) returns (r: Result<seq<NodeItem>>)
    requires api.Valid() && api.world.cr.deleted && Under(api.world, Deletion)
    modifies api
    ensures r.Err? ==> r.error.Failed?
    ensures api.Valid() && old(api.log) <= api.log && CalmCr(old(api.world).cr, api.world.cr)
    ensures r.Ok? ==> Covers(api.world, r.value)
    ensures r.Ok? ==> ListedSince(api.start, api.log, |old(api.log)|, api.world.books.listing)
    ensures api.quiet ==> r.Ok? && OnlyListed(old(api.world), api.world, r.value)
  {
    ghost var mid;
    r, mid := api.ListForDeletion();
    if r.Ok? { ListedOn(old(api.world), mid, api.world, r.value); }
  }

  lemma ListedOn(w: World, mid: World, w': World, items: seq<NodeItem>)
    requires Calm(w, mid) && w.cr.deleted && Under(w, Deletion) && w' == Apply(mid, ListForDeletion)
    requires ListsNodes(items, w'.kube.nodes)
    ensures Covers(w', items) && CalmCr(w.cr, w'.cr)
    ensures w' == Apply(w, ListForDeletion) ==> OnlyListed(w, w', items)
  {
    ListingCovers(w', items);
    if w' == Apply(w, ListForDeletion) { ListingIsQuiet(w, items); }
  }

  /** The listing, and the access data unless there is nothing to drain. */
  method StartDeletion(api: ApiServer) returns (r: Result<seq<NodeItem>>)
    requires api.Valid() && api.world.cr.deleted && Under(api.world, Deletion)
    modifies api
    ensures r.Err? ==> r.error.Failed?
    ensures api.Valid() && old(api.log) <= api.log && CalmCr(old(api.world).cr, api.world.cr)
    ensures r.Ok? ==> Covers(api.world, r.value)
    ensures r.Ok? ==> ListedSince(api.start, api.log, |old(api.log)|, api.world.books.listing)
    ensures api.quiet ==> r.Ok? && OnlyListed(old(api.world), api.world, r.value)
  {
    r := ListAll(api);
    if r.Err? { return; }
    ghost var w1, log1 := api.world, api.log;
    if |r.value| == 0 { return; }
    var err := GetOpenStackClientInformation(api);
    CalmIsOnward(w1, api.world);
    OnwardKeepsPhases(w1, api.world, r.value, 0);
    ListedStays(api.start, log1, api.log, |old(api.log)|, w1.books.listing);
    if err.Some? { r := Err(err.value); }
  }

  /** The drain of all nodes.  AlreadyExists means that some drain job has not finished yet.  Once it reports no
      error, no node is protected any more that this call found when it listed the nodes. */
  method DeleteAllBlockerPodFinalizer(api: ApiServer, spec: Spec) returns (err: Option<Error>)
    requires api.Valid() && api.world.cr.deleted && Under(api.world, Deletion)
    modifies api
    ensures api.Valid() && old(api.log) <= api.log && CalmCr(old(api.world).cr, api.world.cr)
    ensures err.None? ==> MaySweep(api.world)
    ensures err.None? ==> ListedSince(api.start, api.log, |old(api.log)|, api.world.books.listing)
    ensures err == Some(AlreadyExists) ==> AllStarted(api.world)
    ensures api.quiet ==> DrainTurn(old(api.world), api.world, err)
  {
    ghost var w0 := api.world;
    var listing := StartDeletion(api);
    if listing.Err? { return Some(listing.error); }
    ghost var w1, log1 := api.world, api.log;
    err := DrainListed(api, spec, listing.value);
    ListedStays(api.start, log1, api.log, |old(api.log)|, w1.books.listing);
    if api.quiet { TurnLater(w0, w1, api.world, err); }
  }

  /** Every listed node that is still protected has its pre job. */
  ghost predicate AllStarted(w: World) {
    w.books.listing.Some? && forall m :: m in w.books.listing.value && HasFinalizer(w, m) ==> m in w.jobs.pre
  }

  lemma ListedStarted(w: World, items: seq<NodeItem>)
    requires Covers(w, items) && PreThere(w, items, |items|)
    ensures AllStarted(w)
  {
    forall m | m in w.books.listing.value && HasFinalizer(w, m) ensures m in w.jobs.pre { assert Lists(items, m); }
  }

  /** A drain job of a protected node runs, and is waited for: at most taints were added. */
  ghost predicate AwaitsJob(w: World, w': World) {
    TaintsOnly(w, w') && exists n :: HasFinalizer(w, n) && Running(w, n)
  }

  /** A quiet drain of all nodes is through, or waits for a drain job, or has brought a node a stage on, or met a job that
      failed. */
  ghost predicate DrainTurn(w: World, w': World, err: Option<Error>) {
    match err
    case None => w'.cr == w.cr && w'.owned == w.owned
    case Some(e) => if e == AlreadyExists then AwaitsJob(w, w') else Advanced(w, w') || SomeBroke(w)
  }

  lemma PhaseIsTurn(w: World, w': World, items: seq<NodeItem>, r: Result<bool>)
    requires PhaseTurn(w, w', items, r)
    ensures r.Err? ==> DrainTurn(w, w', Some(r.error))
    ensures r == Ok(false) ==> DrainTurn(w, w', Some(AlreadyExists))
  {
    if r == Ok(false) {
      var i :| 0 <= i < |items| && HasFinalizer(w, items[i].name) && Running(w, items[i].name);
    }
  }

  lemma TurnLater(w: World, w1: World, w': World, err: Option<Error>)
    requires TaintsOnly(w, w1) && DrainTurn(w1, w', err)
    ensures DrainTurn(w, w', err)
  {
    AdvancedLater(w, w1, w');
    if err == Some(AlreadyExists) {
      var n :| HasFinalizer(w1, n) && Running(w1, n);
      AdvancedAfterTaints(w, w1, w', n);
      assert HasFinalizer(w, n) && Running(w, n);
    }
    if SomeBroke(w1) {
      var n :| HasFinalizer(w1, n) && Broken(w1, n);
      assert HasFinalizer(w, n) && Broken(w, n);
    }
  }


  /** The listing is all that happened. */
  ghost predicate OnlyListed(w: World, w': World, items: seq<NodeItem>) {
    TaintsOnly(w, w') && InNodes(w', items)
  }

  lemma ListingIsQuiet(w: World, items: seq<NodeItem>)
    requires ListsNodes(items, w.kube.nodes)
    ensures OnlyListed(w, Apply(w, ListForDeletion), items)
  {
  }

  /** The three phases. */
  method DrainListed(api: ApiServer, spec: Spec, items: seq<NodeItem>) returns (err: Option<Error>)
    requires api.Valid() && api.world.cr.deleted && Covers(api.world, items)
    modifies api
    ensures api.Valid() && old(api.log) <= api.log && CalmCr(old(api.world).cr, api.world.cr)
    ensures api.world.books.listing == old(api.world).books.listing
    ensures err.None? ==> MaySweep(api.world)
    ensures err == Some(AlreadyExists) ==> AllStarted(api.world)
    ensures api.quiet && InNodes(old(api.world), items) ==> DrainTurn(old(api.world), api.world, err)
  {
    ghost var w0 := api.world;
    if |items| == 0 {
      assert forall m :: OnListing(api.world, m) ==> Lists(items, m);
      return None;
    }
    var pre := PreDrainAll(api, spec, items);
    if api.quiet { PhaseIsTurn(w0, api.world, items, pre); }
    if pre.Err? { return Some(pre.error); }
    ghost var w1 := api.world;
    if !pre.value {
      ListedStarted(w1, items);
      return Some(AlreadyExists);
    }
    err := PostAndRelease(api, items);
    if api.quiet && InNodes(w0, items) { TurnLater(w0, w1, api.world, err); }
  }

  /** Phases 2 and 3. */
  method PostAndRelease(api: ApiServer, items: seq<NodeItem>) returns (err: Option<Error>)
    requires api.Valid() && api.world.cr.deleted && Covers(api.world, items) && AllPreDone(api.world)
    modifies api
    ensures api.Valid() && old(api.log) <= api.log && CalmCr(old(api.world).cr, api.world.cr)
    ensures api.world.books.listing == old(api.world).books.listing
    ensures err.None? ==> MaySweep(api.world)
    ensures err == Some(AlreadyExists) ==> AllStarted(api.world)
    ensures api.quiet && InNodes(old(api.world), items) ==> DrainTurn(old(api.world), api.world, err)
  {
    ghost var w0 := api.world;
    var post := PostDrainAll(api, items);
    if api.quiet && InNodes(w0, items) { PhaseIsTurn(w0, api.world, items, post); }
    if post.Err? { return Some(post.error); }
    if !post.value {
      PostMeansPre(api.world, items);
      return Some(AlreadyExists);
    }
    ReleasingStarts(api.world, items);
    err := ReleaseAll(api, items);
  }

  lemma PostMeansPre(w: World, items: seq<NodeItem>)
    requires Inv(w) && Covers(w, items) && PostThere(w, items, |items|)
    ensures AllStarted(w)
  {
    forall i | 0 <= i < |items| && HasFinalizer(w, items[i].name) ensures items[i].name in w.jobs.pre {
      assert PostInv(w.kube, w.jobs, items[i].name);
    }
    ListedStarted(w, items);
  }

  lemma AdvancedLater(w: World, w1: World, w': World)
    ensures TaintsOnly(w, w1) && Advanced(w1, w') ==> Advanced(w, w')
  {
    if TaintsOnly(w, w1) && Advanced(w1, w') {
      var n :| HasFinalizer(w1, n) && JobsMoved(w1, w', n);
      AdvancedAfterTaints(w, w1, w', n);
    }
  }

  lemma ListingCovers(w: World, items: seq<NodeItem>)
    requires ListsNodes(items, w.kube.nodes) && w.books.listing == Some(w.kube.nodes.Keys) && Under(w, Deletion)
    ensures Covers(w, items)
  {
    forall m ensures m in w.books.listing.value <==> Lists(items, m) {
      if Lists(items, m) { var i :| 0 <= i < |items| && items[i].name == m; }
    }
  }

  // ----- Labelled objects -----------------------------------------------------------------------------

  ghost predicate DaemonSetsGone(w: World, infra: seq<InfraDaemonSet>, k: int) {
    forall i, key :: 0 <= i < k && i < |infra| && key in w.owned && key.kind == DaemonSet ==>
      key.namespace != infra[i].namespace
  }

  ghost predicate Gone(w: World, kind: ObjKind, namespaced: bool) {
    forall key :: key in w.owned ==> !OfKind(key, kind, namespaced)
  }

  lemma CollectionGone(w: World, w': World, infra: seq<InfraDaemonSet>, i: int)
    requires 0 <= i < |infra| && DaemonSetsGone(w, infra, i) && w'.owned <= w.owned
    ensures Collection(w', DaemonSet, infra[i].namespace) == {} ==> DaemonSetsGone(w', infra, i + 1)
  {
    forall key | key in w'.owned && key.kind == DaemonSet && key.namespace == infra[i].namespace
      ensures key in Collection(w', DaemonSet, infra[i].namespace)
    {
    }
  }

  /** The daemonsets in the namespaces of the first i entries. */
  predicate NamedUpTo(infra: seq<InfraDaemonSet>, i: int, k: ObjKey) {
    k.kind == DaemonSet && exists j :: 0 <= j < i && j < |infra| && infra[j].namespace == k.namespace
  }

  ghost predicate DaemonSetsQuietly(w0: World, w: World, infra: seq<InfraDaemonSet>, i: int) {
    w.cr == w0.cr && forall k :: k in w.owned <==> k in w0.owned && !NamedUpTo(infra, i, k)
  }

  lemma OneNamespaceMore(w0: World, w: World, w': World, infra: seq<InfraDaemonSet>, i: int)
    requires 0 <= i < |infra| && DaemonSetsQuietly(w0, w, infra, i)
    requires w'.cr == w.cr && w'.owned == w.owned - Collection(w, DaemonSet, infra[i].namespace)
    ensures DaemonSetsQuietly(w0, w', infra, i + 1)
  {
    forall k ensures NamedUpTo(infra, i + 1, k) <==>
      NamedUpTo(infra, i, k) || (k.kind == DaemonSet && k.namespace == infra[i].namespace) {}
  }

  method DeleteDaemonSets(api: ApiServer, infra: seq<InfraDaemonSet>) returns (err: Option<Error>)
    requires api.Valid() && MaySweep(api.world)
    modifies api
    ensures api.Valid() && old(api.log) <= api.log && Sweeps(old(api.world), api.world)
    ensures err.None? ==> DaemonSetsGone(api.world, infra, |infra|)
    ensures err.Some? ==> !err.value.NotFound?
    ensures api.quiet ==> err.None? && CleanedUpTo(old(api.world), api.world, infra, api.thief, 0)
  {
    ghost var w0 := api.world;
    for i := 0 to |infra|
      invariant api.Valid() && old(api.log) <= api.log && Sweeps(w0, api.world)
      invariant DaemonSetsGone(api.world, infra, i)
      invariant api.quiet ==> DaemonSetsQuietly(w0, api.world, infra, i)
    {
      ghost var w1 := api.world;
      err := api.DeleteCollection(DaemonSet, infra[i].namespace);
      SweepsTransitive(w0, w1, api.world);
      CollectionGone(w1, api.world, infra, i);
      if api.quiet { OneNamespaceMore(w0, w1, api.world, infra, i); }
      if err.Some? && !err.value.NotFound? { return; }
    }
    err := None;
    if api.quiet { DaemonSetsTurn(w0, api.world, infra, api.thief); }
  }

  /** The thief of a quiet server strikes while objects of this kind are deleted. */
  predicate Strikes(owned: set<ObjKey>, thief: Option<ObjKey>, kind: ObjKind, namespaced: bool) {
    thief.Some? && thief.value in owned && OfKind(thief.value, kind, namespaced)
  }

  /** On a quiet server, all objects of the kind are gone; but if the thief strikes it ends with NotFound, and those
      that come after the stolen one in the listing (`rest`) are left. */
  ghost predicate DeletedQuietly(w: World, w': World, thief: Option<ObjKey>, kind: ObjKind, namespaced: bool,
                                 err: Option<Error>, rest: set<ObjKey>) {
    && w'.cr == w.cr
    && (err == if Strikes(w.owned, thief, kind, namespaced) then Some(NotFound) else None)
    && (err.None? ==> rest == {}) && (err.Some? ==> thief.value !in rest)
    && (forall k :: k in w'.owned <==> k in w.owned && (OfKind(k, kind, namespaced) ==> k in rest))
  }

  /** Lists the labelled objects of a kind and deletes them one by one; the first failure ends it, also a
      NotFound, which can only mean that somebody else deleted the object in between. */
  method DeleteListed(api: ApiServer, kind: ObjKind, namespaced: bool)
    returns (err: Option<Error>, ghost rest: set<ObjKey>)
    requires api.Valid() && MaySweep(api.world) && DeletedSingly(kind)
    modifies api
    ensures api.Valid() && old(api.log) <= api.log && Sweeps(old(api.world), api.world)
    ensures err.None? ==> Gone(api.world, kind, namespaced)
    ensures err == Some(NotFound) ==> api.world.contested
    ensures api.quiet ==> DeletedQuietly(old(api.world), api.world, api.thief, kind, namespaced, err, rest)
  {
    ghost var w0 := api.world;
    var list := api.ListOwned(kind, namespaced);
    if list.Err? { return Some(list.error), {}; }
    DeletingStarts(w0, api.world, list.value, kind, namespaced, api.quiet, api.thief);
    err, rest := DeleteEach(api, list.value, kind, namespaced, w0);
  }

  lemma DeletingStarts(w0: World, w: World, keys: seq<ObjKey>, kind: ObjKind, namespaced: bool, quiet: bool,
                       thief: Option<ObjKey>)
    requires ListsOwned(keys, w, kind, namespaced)
    requires quiet ==> w == Apply(w0, ListOwned(kind, namespaced))
    ensures Remaining(w, keys, 0, kind, namespaced)
    ensures quiet ==> QuietlyUpTo(w0, w, thief, keys, 0, kind, namespaced)
  {
  }

  /** After i of the listed objects; w0 is the world before the listing. */
  ghost predicate Deleting(api: ApiServer, w0: World, keys: seq<ObjKey>, i: int, kind: ObjKind, namespaced: bool)
    reads api
  {
    && api.Valid() && Sweeps(w0, api.world) && Remaining(api.world, keys, i, kind, namespaced)
    && (api.quiet ==> QuietlyUpTo(w0, api.world, api.thief, keys, i, kind, namespaced))
  }

  /** The loop over the listed objects. */
  method DeleteEach(api: ApiServer, keys: seq<ObjKey>, kind: ObjKind, namespaced: bool, ghost w0: World)
    returns (err: Option<Error>, ghost rest: set<ObjKey>)
    requires Deleting(api, w0, keys, 0, kind, namespaced)
    modifies api
    ensures api.Valid() && old(api.log) <= api.log && Sweeps(w0, api.world)
    ensures err.None? ==> Gone(api.world, kind, namespaced)
    ensures err == Some(NotFound) ==> api.world.contested
    ensures api.quiet ==> DeletedQuietly(w0, api.world, api.thief, kind, namespaced, err, rest)
  {
    for i := 0 to |keys|
      invariant old(api.log) <= api.log && Deleting(api, w0, keys, i, kind, namespaced)
    {
      err := DeleteOne(api, keys, i, kind, namespaced, w0);
      if err.Some? { return err, KeySet(keys[i + 1..]); }
    }
    assert keys[..|keys|] == keys;
    err, rest := None, {};
  }

  function KeySet(keys: seq<ObjKey>): set<ObjKey> { set k | k in keys }

  /** On a quiet server: of the listed objects exactly those before i are gone, and the thief has not struck. */
  ghost predicate QuietlyUpTo(w0: World, w: World, thief: Option<ObjKey>, keys: seq<ObjKey>, i: int, kind: ObjKind,
                              namespaced: bool) {
    && 0 <= i <= |keys| && w.cr == w0.cr
    && (forall k :: k in keys <==> k in w0.owned && OfKind(k, kind, namespaced))
    && (forall k :: k in w.owned <==> k in w0.owned && k !in keys[..i])
    && (thief.Some? ==> thief.value !in keys[..i])
  }

  lemma StoppedQuietly(w0: World, w: World, w': World, thief: Option<ObjKey>, keys: seq<ObjKey>, i: int,
                       kind: ObjKind, namespaced: bool)
    requires 0 <= i < |keys| && QuietlyUpTo(w0, w, thief, keys, i, kind, namespaced) && thief == Some(keys[i])
    requires w'.cr == w.cr && w'.owned == w.owned - {keys[i]}
    requires forall j, k :: 0 <= j < k < |keys| ==> keys[j] != keys[k]
    ensures DeletedQuietly(w0, w', thief, kind, namespaced, Some(NotFound), KeySet(keys[i + 1..]))
  {
    forall k ensures k in keys <==> k in keys[..i] || k == keys[i] || k in keys[i + 1..] {
      assert keys == keys[..i] + [keys[i]] + keys[i + 1..];
    }
  }

  lemma OneMoreQuietly(w0: World, w: World, w': World, thief: Option<ObjKey>, keys: seq<ObjKey>, i: int,
                       kind: ObjKind, namespaced: bool)
    requires 0 <= i < |keys| && QuietlyUpTo(w0, w, thief, keys, i, kind, namespaced) && thief != Some(keys[i])
    requires w'.cr == w.cr && w'.owned == w.owned - {keys[i]}
    ensures QuietlyUpTo(w0, w', thief, keys, i + 1, kind, namespaced)
  {
    assert keys[..i + 1] == keys[..i] + [keys[i]];
  }

  /** One of the listed objects; w0 is the world before the listing. */
  method DeleteOne(api: ApiServer, keys: seq<ObjKey>, i: nat, kind: ObjKind, namespaced: bool, ghost w0: World)
    returns (err: Option<Error>)
    requires i < |keys| && Deleting(api, w0, keys, i, kind, namespaced)
    modifies api
    ensures api.Valid() && old(api.log) <= api.log && Sweeps(w0, api.world)
    ensures err.None? ==> Deleting(api, w0, keys, i + 1, kind, namespaced)
    ensures err == Some(NotFound) ==> api.world.contested
    ensures api.quiet && err.Some? ==>
      DeletedQuietly(w0, api.world, api.thief, kind, namespaced, err, KeySet(keys[i + 1..]))
  {
    ghost var w1 := api.world;
    err := api.DeleteObject(keys[i]);
    SweepsTransitive(w0, w1, api.world);
    OneObjectGone(w1, api.world, keys, i, kind, namespaced);
    if api.quiet {
      assert keys[i] in w1.owned by { NotYetDeleted(w0, w1, api.thief, keys, i, kind, namespaced); }
      if err.None? { OneMoreQuietly(w0, w1, api.world, api.thief, keys, i, kind, namespaced); }
      else { StoppedQuietly(w0, w1, api.world, api.thief, keys, i, kind, namespaced); }
    }
  }

  lemma NotYetDeleted(w0: World, w: World, thief: Option<ObjKey>, keys: seq<ObjKey>, i: int, kind: ObjKind,
                      namespaced: bool)
    requires 0 <= i < |keys| && QuietlyUpTo(w0, w, thief, keys, i, kind, namespaced)
    requires Remaining(w, keys, i, kind, namespaced)
    ensures keys[i] in w.owned
  {
    assert keys[i] in keys;
  }

  /** Of the listed objects those before i are gone; the others are pending, and there unless somebody else deleted one
      of them. */
  ghost predicate Remaining(w: World, keys: seq<ObjKey>, i: int, kind: ObjKind, namespaced: bool) {
    && (forall k :: k in w.owned && OfKind(k, kind, namespaced) ==> k in keys)
    && (forall j :: 0 <= j < i && j < |keys| ==> keys[j] !in w.owned)
    && (forall j :: 0 <= j < |keys| && i <= j ==> keys[j] in w.books.pending)
    && (!w.contested ==> forall j :: 0 <= j < |keys| && i <= j ==> keys[j] in w.owned)
    && (forall j, k :: 0 <= j < k < |keys| ==> keys[j] != keys[k])
  }

  lemma OneObjectGone(w: World, w': World, keys: seq<ObjKey>, i: int, kind: ObjKind, namespaced: bool)
    requires 0 <= i < |keys| && Remaining(w, keys, i, kind, namespaced) && Sweeps(w, w') && Picks(w, w', keys[i])
    ensures keys[i] !in w'.owned ==> Remaining(w', keys, i + 1, kind, namespaced)
  {
  }

  /** The order in which the cleanup deals with the kinds. */
  function Turn(kind: ObjKind): int {
    match kind
    case DaemonSet => 0
    case MachineSet => 1
    case Secret => 2
    case MachineConfigPool => 3
    case MachineConfig => 4
    case OtherKind => 5
  }

  /** The thief of a quiet server is there for the cleanup to stumble over. */
  predicate Stolen(owned: set<ObjKey>, thief: Option<ObjKey>) {
    thief.Some? && thief.value in owned && DeletedSingly(thief.value.kind) && Selected(thief.value, [])
  }

  /** Object k comes after the stolen one: its kind has a later turn, or it is one of `rest`, the objects of the same
      kind that are listed after it. */
  predicate ComesAfter(stolen: ObjKey, rest: set<ObjKey>, k: ObjKey) {
    Turn(stolen.kind) < Turn(k.kind) || (k.kind == stolen.kind && k in rest)
  }

  /** Of the selected objects none is left, unless the thief strikes; then exactly those are left that come after the
      stolen one. */
  ghost predicate Leaves(owned: set<ObjKey>, owned': set<ObjKey>, infra: seq<InfraDaemonSet>, thief: Option<ObjKey>,
                         rest: set<ObjKey>) {
    && (Stolen(owned, thief) ==> thief.value !in rest)
    && (forall k :: k in owned' <==>
          k in owned && (Selected(k, infra) ==> Stolen(owned, thief) && ComesAfter(thief.value, rest, k)))
  }

  /** What is gone and what is left, by kind.  Nothing goes that is not of one of the five kinds, or lies in a namespace the
      cleanup has no business with. */
  lemma LeftByKind(owned: set<ObjKey>, owned': set<ObjKey>, infra: seq<InfraDaemonSet>, thief: Option<ObjKey>,
                   rest: set<ObjKey>, k: ObjKey)
    requires Leaves(owned, owned', infra, thief, rest) && k in owned
    ensures k.kind.OtherKind? ==> k in owned'
    ensures (k.kind.MachineSet? || k.kind.Secret?) && k.namespace != MACHINE_API ==> k in owned'
    ensures k.kind.DaemonSet? ==> (k in owned' <==> forall d :: d in infra ==> d.namespace != k.namespace)
    ensures ((k.kind.MachineSet? || k.kind.Secret?) && k.namespace == MACHINE_API)
            || k.kind.MachineConfigPool? || k.kind.MachineConfig? ==>
      (k in owned' <==> Stolen(owned, thief) && Behind(thief.value, rest, k))
  {
  }

  /** The order: MachineSets, Secrets, MachineConfigPools, MachineConfigs. */
  predicate Behind(stolen: ObjKey, rest: set<ObjKey>, k: ObjKey) {
    match stolen.kind
    case MachineSet => k.kind.Secret? || k.kind.MachineConfigPool? || k.kind.MachineConfig? || (k.kind.MachineSet? && k in rest)
    case MachineConfigPool => k.kind.MachineConfig? || (k.kind.MachineConfigPool? && k in rest)
    case MachineConfig => k.kind.MachineConfig? && k in rest
    case _ => false
  }

  /** What the cleanup does on a quiet server. */
  ghost predicate CleanedQuietly(w: World, w': World, infra: seq<InfraDaemonSet>, thief: Option<ObjKey>,
                                 err: Option<Error>, rest: set<ObjKey>) {
    && w'.cr == w.cr && Leaves(w.owned, w'.owned, infra, thief, rest)
    && err == if Stolen(w.owned, thief) then Some(NotFound) else None
  }

  /** On the way there: of the selected objects exactly those are gone whose turn is over. */
  ghost predicate CleanedUpTo(w: World, w': World, infra: seq<InfraDaemonSet>, thief: Option<ObjKey>, turn: int) {
    && w'.cr == w.cr
    && (forall k :: k in w'.owned <==> k in w.owned && !(Selected(k, infra) && Turn(k.kind) <= turn))
    && (Stolen(w.owned, thief) ==> turn < Turn(thief.value.kind))
  }

  lemma DaemonSetsTurn(w: World, w': World, infra: seq<InfraDaemonSet>, thief: Option<ObjKey>)
    requires DaemonSetsQuietly(w, w', infra, |infra|)
    ensures CleanedUpTo(w, w', infra, thief, 0)
  {
    forall k: ObjKey | k.kind == DaemonSet ensures NamedUpTo(infra, |infra|, k) <==> Selected(k, infra) {
      if Selected(k, infra) {
        var d :| d in infra && d.namespace == k.namespace;
        var j :| 0 <= j < |infra| && infra[j] == d;
      }
    }
  }

  lemma ListedTurn(w: World, w1: World, w': World, infra: seq<InfraDaemonSet>, thief: Option<ObjKey>, kind: ObjKind,
                   namespaced: bool, err: Option<Error>, rest: set<ObjKey>)
    requires CleanedUpTo(w, w1, infra, thief, Turn(kind) - 1)
    requires DeletedSingly(kind) && namespaced == kind.MachineSet?
    requires DeletedQuietly(w1, w', thief, kind, namespaced, err, rest)
    ensures if err.None? then CleanedUpTo(w, w', infra, thief, Turn(kind))
            else CleanedQuietly(w, w', infra, thief, err, rest)
  {
  }

  lemma SecretsTurn(w: World, w1: World, w': World, infra: seq<InfraDaemonSet>, thief: Option<ObjKey>)
    requires CleanedUpTo(w, w1, infra, thief, 1)
    requires w'.cr == w1.cr && w'.owned == w1.owned - Collection(w1, Secret, MACHINE_API)
    ensures CleanedUpTo(w, w', infra, thief, 2)
  {
  }

  lemma AllTurns(w: World, w': World, infra: seq<InfraDaemonSet>, thief: Option<ObjKey>)
    requires CleanedUpTo(w, w', infra, thief, 4)
    ensures CleanedQuietly(w, w', infra, thief, None, {})
  {
  }

  /** The objects in named namespaces. */
  method DeleteNamespaced(api: ApiServer, infra: seq<InfraDaemonSet>)
    returns (err: Option<Error>, ghost rest: set<ObjKey>)
    requires api.Valid() && MaySweep(api.world)
    modifies api
    ensures api.Valid() && old(api.log) <= api.log && Sweeps(old(api.world), api.world)
    ensures err.None? ==> NamespacedGone(api.world, infra)
    ensures err == Some(NotFound) ==> api.world.contested
    ensures api.quiet ==>
      if err.None? then CleanedUpTo(old(api.world), api.world, infra, api.thief, 2)
      else CleanedQuietly(old(api.world), api.world, infra, api.thief, err, rest)
  {
    ghost var w0 := api.world;
    rest := {};
    err := DeleteDaemonSets(api, infra);
    if err.Some? { return; }
    ghost var w1 := api.world;
    err, rest := DeleteListed(api, MachineSet, true);
    ghost var w2 := api.world;
    SweepsTransitive(w0, w1, w2);
    if api.quiet { ListedTurn(w0, w1, w2, infra, api.thief, MachineSet, true, err, rest); }
    if err.Some? { return; }
    err := DeleteSecrets(api, infra, w0);
  }

  /** The user-data secrets. */
  method DeleteSecrets(api: ApiServer, infra: seq<InfraDaemonSet>, ghost w0: World) returns (err: Option<Error>)
    requires api.Valid() && Sweeps(w0, api.world)
    requires DaemonSetsGone(api.world, infra, |infra|) && Gone(api.world, MachineSet, true)
    requires api.quiet ==> CleanedUpTo(w0, api.world, infra, api.thief, 1)
    modifies api
    ensures api.Valid() && old(api.log) <= api.log && Sweeps(w0, api.world)
    ensures err.None? ==> NamespacedGone(api.world, infra)
    ensures err != Some(NotFound)
    ensures api.quiet ==> err.None? && CleanedUpTo(w0, api.world, infra, api.thief, 2)
  {
    ghost var w1 := api.world;
    err := api.DeleteCollection(Secret, MACHINE_API);
    SweepsTransitive(w0, w1, api.world);
    if err.Some? && !err.value.NotFound? { return; }
    if api.quiet { SecretsTurn(w0, w1, api.world, infra, api.thief); }
    err := None;
  }

  ghost predicate NamespacedGone(w: World, infra: seq<InfraDaemonSet>) {
    DaemonSetsGone(w, infra, |infra|) && Gone(w, MachineSet, true) && Collection(w, Secret, MACHINE_API) == {}
  }

  method DeleteOwnerRefLabeledObjects(api: ApiServer, infra: seq<InfraDaemonSet>)
    returns (err: Option<Error>, ghost rest: set<ObjKey>)
    requires api.Valid() && MaySweep(api.world)
    modifies api
    ensures api.Valid() && old(api.log) <= api.log && Sweeps(old(api.world), api.world)
    ensures err.None? ==> Swept(api.world, infra)
    ensures err == Some(NotFound) ==> api.world.contested
    ensures api.quiet ==> CleanedQuietly(old(api.world), api.world, infra, api.thief, err, rest)
  {
    ghost var w0 := api.world;
    err, rest := DeleteNamespaced(api, infra);
    if err.Some? { return; }
    err, rest := DeleteClusterScoped(api, infra, w0);
  }

  /** The objects without namespace; w0 is the world before the cleanup. */
  method DeleteClusterScoped(api: ApiServer, infra: seq<InfraDaemonSet>, ghost w0: World)
    returns (err: Option<Error>, ghost rest: set<ObjKey>)
    requires api.Valid() && Sweeps(w0, api.world) && NamespacedGone(api.world, infra)
    requires api.quiet ==> CleanedUpTo(w0, api.world, infra, api.thief, 2)
    modifies api
    ensures api.Valid() && old(api.log) <= api.log && Sweeps(w0, api.world)
    ensures err.None? ==> Swept(api.world, infra)
    ensures err == Some(NotFound) ==> api.world.contested
    ensures api.quiet ==> CleanedQuietly(w0, api.world, infra, api.thief, err, rest)
  {
    ghost var w1 := api.world;
    err, rest := DeleteListed(api, MachineConfigPool, false);
    ghost var w2 := api.world;
    SweepsTransitive(w0, w1, w2);
    if api.quiet { ListedTurn(w0, w1, w2, infra, api.thief, MachineConfigPool, false, err, rest); }
    if err.Some? { return; }
    err, rest := DeleteListed(api, MachineConfig, false);
    SweepsTransitive(w0, w2, api.world);
    if api.quiet { ListedTurn(w0, w2, api.world, infra, api.thief, MachineConfig, false, err, rest); }
    if err.Some? { return; }
    AllKindsGone(w1, w2, api.world, infra);
    if api.quiet { AllTurns(w0, api.world, infra, api.thief); }
  }

  lemma AllKindsGone(w1: World, w2: World, w: World, infra: seq<InfraDaemonSet>)
    requires NamespacedGone(w1, infra) && Gone(w2, MachineConfigPool, false) && Gone(w, MachineConfig, false)
    requires w.owned <= w2.owned <= w1.owned
    ensures Swept(w, infra)
  {
    forall k | k in w.owned ensures !Selected(k, infra) {
      assert k in w1.owned && k in w2.owned;
      assert k.kind == Secret && k.namespace == MACHINE_API ==> k in Collection(w1, Secret, MACHINE_API);
      if k.kind == DaemonSet {
        forall d | d in infra ensures d.namespace != k.namespace { var i :| 0 <= i < |infra| && infra[i] == d; }
      }
    }
  }

  // ----- Reconcile ------------------------------------------------------------------------------------

  /** The branch of Reconcile for a resource with a deletion timestamp.  A NotFound of the cleanup counts as
      success.  No error means that there was no finalizer, or that it is gone now, or that every listed protected node
      has its pre job and the jobs are waited for.  On a quiet platform, wherever the drain jobs stand: the finalizer goes, with the objects left that the
      cleanup leaves; or a job that runs is waited for, without error; or a node comes a stage on; or a job failed. */
  method ReconcileDeletion(api: ApiServer, inst: ComputeNodeOpenStack)
    returns (err: Option<Error>, ghost rest: set<ObjKey>)
    requires api.Valid() && Under(api.world, Deletion) && Fresh(inst, api.world.cr) && inst.deleted && api.world.cr.deleted
    modifies api, inst
    ensures api.Valid() && old(api.log) <= api.log
    ensures err.None? ==> !old(inst.finalizer) || !api.world.cr.finalizer || AllStarted(api.world)
    ensures api.quiet && old(inst.version == api.world.cr.version) ==>
      DeletionTurn(old(api.world), api.world, api.thief, rest, err)
  {
    ghost var w0 := api.world;
    rest := {};
    if !inst.finalizer { return None, {}; }
    err := DeleteAllBlockerPodFinalizer(api, inst.spec);
    if err == Some(AlreadyExists) { return None, {}; }
    if err.Some? { return; }
    ghost var w1 := api.world;
    err, rest := DeleteOwnerRefLabeledObjects(api, inst.status.infra + inst.spec.infra);
    if err.Some? && !err.value.NotFound? { return; }
    inst.finalizer := false;
    ghost var mid;
    err, mid := api.SubmitCr(RemoveCrFinalizer, Deletion, inst.version);
  }

  /** A turn of a reconcile on the deletion path. */
  ghost predicate DeletionTurn(w: World, w': World, thief: Option<ObjKey>, rest: set<ObjKey>, err: Option<Error>) {
    if !w.cr.finalizer then Idle(w, w') && err.None?
    else if err.Some? then Advanced(w, w') || SomeBroke(w)
    else AwaitsJob(w, w') || Finished(w, w', thief, rest)
  }

  predicate Idle(w: World, w': World) {
    w'.kube == w.kube && w'.jobs == w.jobs && w'.cr == w.cr && w'.owned == w.owned
  }

  /** Reading the resource makes no difference. */
  lemma DeletionTurnLater(w: World, w1: World, w': World, thief: Option<ObjKey>, rest: set<ObjKey>, err: Option<Error>)
    requires Idle(w, w1) && DeletionTurn(w1, w', thief, rest, err)
    ensures DeletionTurn(w, w', thief, rest, err)
  {
    assert TaintsOnly(w, w1);
    AdvancedLater(w, w1, w');
    if SomeBroke(w1) {
      var n :| HasFinalizer(w1, n) && Broken(w1, n);
      assert HasFinalizer(w, n) && Broken(w, n);
    }
    if AwaitsJob(w1, w') {
      var n :| HasFinalizer(w1, n) && Running(w1, n);
      AdvancedAfterTaints(w, w1, w', n);
      assert HasFinalizer(w, n) && Running(w, n);
    }
  }

  ghost predicate Finished(w: World, w': World, thief: Option<ObjKey>, rest: set<ObjKey>) {
    !w'.cr.finalizer && Leaves(w.owned, w'.owned, w.cr.status.infra + w.cr.spec.infra, thief, rest)
  }

  /** Where the present drain jobs have succeeded there is nothing to wait for, and no failed job. */
  lemma SettledTurn(w: World, w': World, thief: Option<ObjKey>, rest: set<ObjKey>, err: Option<Error>)
    requires DeletionTurn(w, w', thief, rest, err) && JobsSucceeded(w)
    ensures (!w.cr.finalizer && Idle(w, w')) || Advanced(w, w') || Finished(w, w', thief, rest)
  {
  }
}
