/** Reconcile, as far as nodes and the deletion of the resource are concerned, and the controller that runs it. */
module Operator {
  import opened Model
  import opened Protocol
  import opened History
  import opened Api
  import opened Drain
  import opened NodeSync
  import opened NodeWalk
  import opened CrDeletion
  import Coverage
  import DaemonSets

  /** Only the resource was written, and not its node list. */
  ghost predicate Still(w: World, w': World) {
    && w'.kube == w.kube && w'.jobs == w.jobs && w'.cr.status.nodes == w.cr.status.nodes
    && w'.cr.deleted == w.cr.deleted
  }

  /** The final write of the status. */
  method StoreStatus(api: ApiServer, inst: ComputeNodeOpenStack, specMDS: Spec) returns (err: Option<Error>)
    requires api.Valid() && Under(api.world, Regular) && Fresh(inst, api.world.cr)
    modifies api, inst
    ensures err.None? ==> api.world.cr.finalizer == old(api.world).cr.finalizer
    ensures err.None? ==> api.world.cr.status.infra == old(inst.spec).infra && api.world.cr.status.specMDS == Some(specMDS)
    ensures api.Valid() && old(api.log) <= api.log
    ensures api.quiet && old(inst.version == api.world.cr.version) ==>
      err.None? && Still(old(api.world), api.world) && StatusSynced(api.world.cr, specMDS)
      && api.world.cr.spec == old(api.world).cr.spec && api.world.owned == old(api.world).owned
  {
    inst.status := inst.status.(infra := inst.spec.infra, specMDS := Some(specMDS));
    ghost var mid;
    err, mid := api.SubmitCr(UpdateStatus(inst.status), Regular, inst.version);
  }

  /** Puts the finalizer on a new resource. */
  method EnsureCrFinalizer(api: ApiServer, inst: ComputeNodeOpenStack) returns (err: Option<Error>)
    requires api.Valid() && Under(api.world, Regular) && Fresh(inst, api.world.cr) && AllShielded(api.world, inst.status.nodes)
    modifies api, inst
    ensures api.Valid() && old(api.log) <= api.log && inst.status == old(inst.status) && inst.spec == old(inst.spec)
    ensures err.None? ==> Under(api.world, Regular) && Fresh(inst, api.world.cr) && AllShielded(api.world, inst.status.nodes)
    ensures err.None? ==> inst.finalizer && (inst.version == api.world.cr.version ==> api.world.cr.finalizer)
    ensures api.quiet && old(inst.version == api.world.cr.version) ==>
      err.None? && inst.version == api.world.cr.version && Still(old(api.world), api.world)
      && api.world.cr.status == old(api.world).cr.status
  {
    err := None;
    if !inst.finalizer {
      inst.finalizer := true;
      ghost var w0 := api.world;
      ghost var mid;
      err, mid := api.SubmitCr(AddCrFinalizer, Regular, inst.version);
      if err.Some? { return; }
      inst.version := inst.version + 1;
      ShieldsStayCalm(w0, mid);
    }
  }

  /** The synchronisation with the MachineSet may store the spec with another number of workers. */
  method SyncWorkers(api: ApiServer, inst: ComputeNodeOpenStack) returns (err: Option<Error>)
    requires api.Valid() && Under(api.world, Regular) && Fresh(inst, api.world.cr) && AllShielded(api.world, inst.status.nodes)
    modifies api, inst
    ensures err.None? ==> inst.spec == old(inst.spec).(rest := inst.spec.rest)
    ensures err.None? ==> api.world.cr.finalizer == old(api.world).cr.finalizer
    ensures api.Valid() && old(api.log) <= api.log && inst.status == old(inst.status)
    ensures err.None? ==> Under(api.world, Regular) && Fresh(inst, api.world.cr) && AllShielded(api.world, inst.status.nodes)
    ensures api.quiet && old(inst.version == api.world.cr.version) ==>
      err.None? && inst.version == api.world.cr.version && Still(old(api.world), api.world)
      && api.world.cr.status == old(api.world).cr.status
  {
    ghost var w0 := api.world;
    err := None;
    var resized: bool := *;
    if resized {
      var rest: string := *;
      ghost var written;
      err, written := StoreSpec(api, inst, inst.spec.(rest := rest), None);
      SpecAside(w0, api.world, "");
    }
  }

  /** What a reconcile is to do for the nodes on a quiet platform. */
  ghost predicate NodesSynced(w: World, w': World, unchangedSpec: bool, ok: bool) {
    if unchangedSpec then WalkedQuietly(w, w', w.cr.status.nodes, ok) else ok && Still(w, w')
  }

  lemma SyncedBetween(w: World, w1: World, w2: World, w': World, unchangedSpec: bool, ok: bool)
    requires Still(w, w1) && w1.cr.status == w.cr.status && NodesSynced(w1, w2, unchangedSpec, ok)
    requires Still(w2, w') && (!ok ==> w'.cr.status == w2.cr.status)
    ensures NodesSynced(w, w', unchangedSpec, ok)
  {
    if unchangedSpec { WalkedBetween(w, w1, w2, w', w.cr.status.nodes, ok); }
  }

  /** A quiet platform on which no lookup panics. */
  ghost predicate SettledStart(api: ApiServer, w: World, version: int) {
    QuietStart(api, w, version) && AllNodesKnown(w.kube, w.cr.status.nodes)
  }

  /** The walk over the nodes, when the hash of the spec is the stored one. */
  method SyncNodes(api: ApiServer, inst: ComputeNodeOpenStack, unchangedSpec: bool) returns (err: Option<Error>)
    requires api.Valid() && Under(api.world, Regular) && Fresh(inst, api.world.cr) && AllShielded(api.world, inst.status.nodes)
    modifies api, inst
    ensures err.None? ==>
      inst.spec.infra == old(inst.spec).infra && inst.status.infra == old(inst.status).infra
    ensures err.None? ==> api.world.cr.finalizer == old(api.world).cr.finalizer
    ensures api.Valid() && old(api.log) <= api.log
    ensures err.None? ==> Under(api.world, Regular) && Fresh(inst, api.world.cr)
    ensures SettledStart(api, old(api.world), old(inst.version)) ==>
      NodesSynced(old(api.world), api.world, unchangedSpec, err.None?)
      && (err.None? ==> inst.version == api.world.cr.version)
  {
    ghost var w0 := api.world;
    err := GetOpenStackClientInformation(api);
    ShieldsStayCalm(w0, api.world);
    if err.Some? { return; }
    if unchangedSpec {
      ghost var settled := SettledStart(api, w0, inst.version);
      err := SyncWorkers(api, inst);
      if err.Some? { return; }
      ghost var w1 := api.world;
      var done;
      ghost var written;
      err, done, written := UpdateNodesStatus(api, inst);
      if settled { SyncedBetween(w0, w1, api.world, api.world, true, err.None?); }
    }
  }

  /** The hash of the spec is the one the last complete reconcile stored. */
  predicate SpecUnchanged(spec: Spec, status: Status) { status.specMDS == Some(spec) }

  // ----- Labelled objects -----------------------------------------------------------------------------

  /** Labelled objects were written, and otherwise the environment acted; alone on the platform, nothing else moved. */
  ghost predicate Applies(w: World, w': World, quiet: bool) {
    && CalmCr(w.cr, w'.cr) && w'.books.path == w.books.path
    && (quiet ==> w'.kube == w.kube && w'.jobs == w.jobs && w'.cr == w.cr)
  }

  lemma WriteApplies(w: World, mid: World, w': World, c: Call, quiet: bool)
    requires Calm(w, mid) && (w' == mid || w' == Apply(mid, c)) && (c.ApplyOwned? || c.DeleteOwned?)
    requires quiet ==> mid == w
    ensures Applies(w, w', quiet)
  {
  }

  method WriteObject(api: ApiServer, c: Call) returns (err: Option<Error>)
    requires api.Valid() && Legal(api.world, c, Regular) && (c.ApplyOwned? || c.DeleteOwned?)
    modifies api
    ensures api.Valid() && old(api.log) <= api.log && Applies(old(api.world), api.world, api.quiet)
    ensures err.None? && c.ApplyOwned? ==> c.keys <= api.world.owned
    ensures err.None? && c.DeleteOwned? ==> c.keys !! api.world.owned
    ensures api.quiet ==> err.None? && api.world.owned == Apply(old(api.world), c).owned
  {
    var ok;
    ghost var mid;
    ok, mid := api.Submit(c, Regular);
    WriteApplies(old(api.world), mid, api.world, c, api.quiet);
    err := if ok then None else Some(Failed);
  }

  /** At some moment since the given one the labelled object was there, or not. */
  ghost predicate Seen(start: World, log: seq<Action>, since: nat, k: ObjKey, there: bool) {
    exists i: nat :: SeenAt(start, log, i, k, there) && since <= i
  }

  ghost predicate SeenAt(start: World, log: seq<Action>, i: nat, k: ObjKey, there: bool) {
    i <= |log| && (k in WorldAt(start, log, i).owned <==> there)
  }

  lemma SeenNow(start: World, log: seq<Action>, since: nat, k: ObjKey, there: bool)
    requires since <= |log| && (k in Exec(start, log).owned <==> there)
    ensures Seen(start, log, since, k, there)
  {
    assert log[..|log|] == log;
    assert SeenAt(start, log, |log|, k, there);
  }

  lemma SeenStays(start: World, log: seq<Action>, log': seq<Action>, since: nat, k: ObjKey, there: bool)
    requires log <= log' && Seen(start, log, since, k, there)
    ensures Seen(start, log', since, k, there)
  {
    var i: nat :| SeenAt(start, log, i, k, there) && since <= i;
    assert log'[..i] == log[..i];
    assert SeenAt(start, log', i, k, there);
  }

  /** Each of these keys was seen, there or not. */
  ghost predicate AllSeen(start: World, log: seq<Action>, since: nat, keys: set<ObjKey>, there: bool) {
    forall k :: k in keys ==> Seen(start, log, since, k, there)
  }

  lemma AllSeenStay(start: World, log: seq<Action>, log': seq<Action>, since: nat, since': nat, keys: set<ObjKey>,
                    there: bool)
    requires log <= log' && since' <= since && AllSeen(start, log, since, keys, there)
    ensures AllSeen(start, log', since', keys, there)
  {
    forall k | k in keys ensures Seen(start, log', since', k, there) {
      SeenStays(start, log, log', since, k, there);
      var i: nat :| SeenAt(start, log', i, k, there) && since <= i;
    }
  }

  lemma OneMoreSeen(start: World, log: seq<Action>, log': seq<Action>, since: nat, keys: set<ObjKey>, k: ObjKey,
                    there: bool)
    requires log <= log' && since <= |log| && AllSeen(start, log, since, keys, there)
    requires k in Exec(start, log').owned <==> there
    ensures AllSeen(start, log', since, keys + {k}, there)
  {
    AllSeenStay(start, log, log', since, since, keys, there);
    SeenNow(start, log', since, k, there);
  }

  /** The rendered objects are applied one by one, with the owner labels on them; the first failure ends it. */
  method ApplyRendered(api: ApiServer, data: Coverage.RenderData) returns (err: Option<Error>)
    requires api.Valid() && Under(api.world, Regular)
    modifies api
    ensures api.Valid() && old(api.log) <= api.log && Applies(old(api.world), api.world, api.quiet)
    ensures err.None? ==> AllSeen(api.start, api.log, |old(api.log)|, KeySet(Coverage.RenderedKeys(data)), true)
    ensures api.quiet ==>
      err.None? && api.world.owned == old(api.world).owned + KeySet(Coverage.RenderedKeys(data))
  {
    var keys := Coverage.RenderedKeys(data);
    for i := 0 to |keys|
      invariant api.Valid() && old(api.log) <= api.log && Applies(old(api.world), api.world, api.quiet)
      invariant AllSeen(api.start, api.log, |old(api.log)|, KeySet(keys[..i]), true)
      invariant api.quiet ==> api.world.owned == old(api.world).owned + KeySet(keys[..i])
    {
      OneKeyMore(keys, i);
      err := ApplyKey(api, keys[i], |old(api.log)|, KeySet(keys[..i]));
      if err.Some? { return; }
    }
    assert keys[..|keys|] == keys;
    err := None;
  }

  /** One object; `seen` are those applied before, since the given moment. */
  method ApplyKey(api: ApiServer, k: ObjKey, ghost since: nat, ghost seen: set<ObjKey>) returns (err: Option<Error>)
    requires api.Valid() && Under(api.world, Regular) && since <= |api.log|
    requires AllSeen(api.start, api.log, since, seen, true)
    modifies api
    ensures api.Valid() && old(api.log) <= api.log && Applies(old(api.world), api.world, api.quiet)
    ensures err.None? ==> AllSeen(api.start, api.log, since, seen + {k}, true)
    ensures api.quiet ==> err.None? && api.world.owned == old(api.world).owned + {k}
  {
    ghost var log := api.log;
    err := WriteObject(api, ApplyOwned({k}));
    if err.None? { OneMoreSeen(api.start, log, api.log, since, seen, k, true); }
  }

  lemma OneKeyMore(keys: seq<ObjKey>, i: nat)
    requires i < |keys|
    ensures KeySet(keys[..i + 1]) == KeySet(keys[..i]) + {keys[i]}
  {
    assert keys[..i + 1] == keys[..i] + [keys[i]];
  }

  function CopyKey(d: InfraDaemonSet, role: Name): ObjKey {
    var copy := DaemonSets.Derived(DaemonSets.Context(role, map[]), d);
    ObjKey(DaemonSet, copy.namespace, copy.name)
  }

  lemma CopyKeysDiffer(d: InfraDaemonSet, e: InfraDaemonSet, role: Name)
    ensures CopyKey(d, role) == CopyKey(e, role) ==> d == e
  {
    DaemonSets.DerivedIsInjective(DaemonSets.Context(role, map[]), d, e);
  }

  function CopyKeys(list: seq<InfraDaemonSet>, role: Name): set<ObjKey> { set d | d in list :: CopyKey(d, role) }

  function ExtraKeys(spec: seq<InfraDaemonSet>, status: seq<InfraDaemonSet>, role: Name): set<ObjKey> {
    set d | d in status && d !in spec :: CopyKey(d, role)
  }

  /** Of these entries, all have their copies. */
  ghost predicate CopiesThere(owned: set<ObjKey>, role: Name, list: seq<InfraDaemonSet>) {
    forall d :: d in list ==> CopyKey(d, role) in owned
  }

  /** Of these entries, none that is not in the spec has its copy. */
  ghost predicate ExtrasGone(owned: set<ObjKey>, role: Name, spec: seq<InfraDaemonSet>, status: seq<InfraDaemonSet>) {
    forall d :: d in status && d !in spec ==> CopyKey(d, role) !in owned
  }

  /** Only daemonsets differ. */
  predicate OnlyDaemonSets(owned: set<ObjKey>, owned': set<ObjKey>) {
    forall k <- owned + owned' :: k.kind.DaemonSet? || (k in owned && k in owned')
  }

  /** The copies of the entries in the spec are written unless they are up to date. */
  method WriteCopies(api: ApiServer, role: Name, spec: seq<InfraDaemonSet>) returns (err: Option<Error>)
    requires api.Valid() && Under(api.world, Regular)
    modifies api
    ensures api.Valid() && old(api.log) <= api.log && Applies(old(api.world), api.world, api.quiet)
    ensures err.None? ==> AllSeen(api.start, api.log, |old(api.log)|, CopyKeys(spec, role), true)
    ensures api.quiet ==> err.None? && CopiesThere(api.world.owned, role, spec)
                          && OnlyDaemonSets(old(api.world).owned, api.world.owned)
  {
    for i := 0 to |spec|
      invariant api.Valid() && old(api.log) <= api.log && Applies(old(api.world), api.world, api.quiet)
      invariant AllSeen(api.start, api.log, |old(api.log)|, CopyKeys(spec[..i], role), true)
      invariant api.quiet ==> CopiesThere(api.world.owned, role, spec[..i])
                              && OnlyDaemonSets(old(api.world).owned, api.world.owned)
    {
      assert spec[..i + 1] == spec[..i] + [spec[i]];
      ghost var log := api.log;
      var upToDate: bool := *;
      if !upToDate || CopyKey(spec[i], role) !in api.world.owned {
        err := WriteObject(api, ApplyOwned({CopyKey(spec[i], role)}));
        if err.Some? { return; }
      }
      MoreCopyKeys(spec, role, i);
      OneMoreSeen(api.start, log, api.log, |old(api.log)|, CopyKeys(spec[..i], role), CopyKey(spec[i], role), true);
    }
    assert spec[..|spec|] == spec;
    err := None;
  }

  /** Extra copies are gone, and those of the spec are left alone. */
  ghost predicate ExtrasDeleted(owned: set<ObjKey>, owned': set<ObjKey>, role: Name, spec: seq<InfraDaemonSet>,
                                status: seq<InfraDaemonSet>) {
    && ExtrasGone(owned', role, spec, status) && OnlyDaemonSets(owned, owned')
    && (CopiesThere(owned, role, spec) ==> CopiesThere(owned', role, spec))
  }

  lemma OneExtraMore(owned0: set<ObjKey>, owned: set<ObjKey>, role: Name, spec: seq<InfraDaemonSet>,
                     status: seq<InfraDaemonSet>, i: nat)
    requires i < |status| && ExtrasDeleted(owned0, owned, role, spec, status[..i])
    ensures var rest := if status[i] in spec then owned else owned - {CopyKey(status[i], role)};
      ExtrasDeleted(owned0, rest, role, spec, status[..i + 1])
  {
    assert status[..i + 1] == status[..i] + [status[i]];
    if status[i] !in spec {
      forall d | d in spec ensures CopyKey(d, role) != CopyKey(status[i], role) { CopyKeysDiffer(d, status[i], role); }
    }
  }

  /** The copies of entries that left the spec are deleted. */
  method DeleteExtras(api: ApiServer, role: Name, spec: seq<InfraDaemonSet>, status: seq<InfraDaemonSet>)
    returns (err: Option<Error>)
    requires api.Valid() && Under(api.world, Regular)
    modifies api
    ensures api.Valid() && old(api.log) <= api.log && Applies(old(api.world), api.world, api.quiet)
    ensures err.None? ==> AllSeen(api.start, api.log, |old(api.log)|, ExtraKeys(spec, status, role), false)
    ensures api.quiet ==> err.None? && ExtrasDeleted(old(api.world).owned, api.world.owned, role, spec, status)
  {
    for i := 0 to |status|
      invariant api.Valid() && old(api.log) <= api.log && Applies(old(api.world), api.world, api.quiet)
      invariant AllSeen(api.start, api.log, |old(api.log)|, ExtraKeys(spec, status[..i], role), false)
      invariant api.quiet ==> ExtrasDeleted(old(api.world).owned, api.world.owned, role, spec, status[..i])
    {
      if api.quiet { OneExtraMore(old(api.world).owned, api.world.owned, role, spec, status, i); }
      MoreExtraKeys(spec, status, role, i);
      if status[i] !in spec {
        ghost var log := api.log;
        err := WriteObject(api, DeleteOwned({CopyKey(status[i], role)}));
        if err.Some? { return; }
        OneMoreSeen(api.start, log, api.log, |old(api.log)|, ExtraKeys(spec, status[..i], role),
                    CopyKey(status[i], role), false);
      }
    }
    assert status[..|status|] == status;
    err := None;
  }

  lemma MoreCopyKeys(spec: seq<InfraDaemonSet>, role: Name, i: nat)
    requires i < |spec|
    ensures CopyKeys(spec[..i + 1], role) == CopyKeys(spec[..i], role) + {CopyKey(spec[i], role)}
  {
    assert spec[..i + 1] == spec[..i] + [spec[i]];
  }

  lemma MoreExtraKeys(spec: seq<InfraDaemonSet>, status: seq<InfraDaemonSet>, role: Name, i: nat)
    requires i < |status|
    ensures ExtraKeys(spec, status[..i + 1], role) ==
      ExtraKeys(spec, status[..i], role) + if status[i] in spec then {} else {CopyKey(status[i], role)}
  {
    assert status[..i + 1] == status[..i] + [status[i]];
  }

  /** The synchronisation of the copies, as far as which of them there are is concerned; what is in them, and that the
      origins are there, is part of DaemonSets. */
  method SyncDaemonSets(api: ApiServer, role: Name, spec: seq<InfraDaemonSet>, status: seq<InfraDaemonSet>)
    returns (err: Option<Error>)
    requires api.Valid() && Under(api.world, Regular)
    modifies api
    ensures api.Valid() && old(api.log) <= api.log && Applies(old(api.world), api.world, api.quiet)
    ensures err.None? ==>
      && AllSeen(api.start, api.log, |old(api.log)|, CopyKeys(spec, role), true)
      && AllSeen(api.start, api.log, |old(api.log)|, ExtraKeys(spec, status, role), false)
    ensures api.quiet ==>
      err.None? && CopiesThere(api.world.owned, role, spec) && ExtrasGone(api.world.owned, role, spec, status)
      && OnlyDaemonSets(old(api.world).owned, api.world.owned)
  {
    err := WriteCopies(api, role, spec);
    if err.Some? { return; }
    ghost var log := api.log;
    err := DeleteExtras(api, role, spec, status);
    AllSeenStay(api.start, log, api.log, |old(api.log)|, |old(api.log)|, CopyKeys(spec, role), true);
    if err.None? {
      AllSeenStay(api.start, api.log, api.log, |log|, |old(api.log)|, ExtraKeys(spec, status, role), false);
    }
  }

  // ----- Reconcile ------------------------------------------------------------------------------------

  /** The branch of Reconcile for a living resource, with whatever is rendered from it at present. */
  method ReconcileRegular(api: ApiServer, inst: ComputeNodeOpenStack) returns (err: Option<Error>)
    requires api.Valid() && Under(api.world, Regular) && Fresh(inst, api.world.cr) && AllShielded(api.world, inst.status.nodes)
    modifies api, inst
    ensures api.Valid() && old(api.log) <= api.log
    ensures err.None? ==> 
      RegularDone(api.start, api.log, |old(api.log)|, api.world.cr.status, old(inst.spec), old(inst.spec).infra,
                  old(inst.status).infra)
    ensures SettledStart(api, old(api.world), old(inst.version)) ==>
      RegularTurn(old(api.world), api.world, old(inst.spec), old(inst.status), err.None?)
  {
    var unchangedSpec, specMDS := SpecUnchanged(inst.spec, inst.status), inst.spec;
    ghost var w0, former := api.world, inst.status.infra;
    err := SyncBefore(api, inst, unchangedSpec);
    if err.Some? { return; }
    ghost var w1, log := api.world, api.log;
    err := ApplyAndStore(api, inst, specMDS);
    if err.None? { DoneEarlier(api.start, api.log, |log|, |old(api.log)|, api.world.cr.status, specMDS, former); }
    if SettledStart(api, w0, old(inst.version)) { TurnOfParts(w0, w1, api.world); }
  }

  lemma TurnOfParts(w: World, w1: World, w': World)
    requires NodesSynced(w, w1, w.cr.status.specMDS == Some(w.cr.spec), true) && Still(w1, w')
    requires StatusSynced(w'.cr, w.cr.spec) && w'.cr.finalizer && ObjectsThere(w', w.cr.status.infra)
    ensures RegularTurn(w, w', w.cr.spec, w.cr.status, true)
  {
    SyncedBetween(w, w, w1, w', w.cr.status.specMDS == Some(w.cr.spec), true);
  }

  lemma DoneEarlier(start: World, log: seq<Action>, since: nat, since': nat, st: Status, spec: Spec,
                    former: seq<InfraDaemonSet>)
    requires since' <= since && RegularDone(start, log, since, st, spec, spec.infra, former)
    ensures RegularDone(start, log, since', st, spec, spec.infra, former)
  {
    SyncedEarlier(start, log, since, since', spec.infra, former);
  }

  /** What comes before the rendering: the finalizer of the resource, and the nodes. */
  method SyncBefore(api: ApiServer, inst: ComputeNodeOpenStack, unchangedSpec: bool) returns (err: Option<Error>)
    requires api.Valid() && Under(api.world, Regular) && Fresh(inst, api.world.cr) && AllShielded(api.world, inst.status.nodes)
    modifies api, inst
    ensures api.Valid() && old(api.log) <= api.log
    ensures err.None? ==> Under(api.world, Regular) && Fresh(inst, api.world.cr)
    ensures err.None? ==>
      inst.spec.infra == old(inst.spec).infra && inst.status.infra == old(inst.status).infra
    ensures SettledStart(api, old(api.world), old(inst.version)) ==>
      NodesSynced(old(api.world), api.world, unchangedSpec, err.None?)
      && (err.None? ==> inst.version == api.world.cr.version && api.world.cr.finalizer)
  {
    ghost var w0 := api.world;
    ghost var settled := SettledStart(api, w0, inst.version);
    err := EnsureCrFinalizer(api, inst);
    if err.Some? { return; }
    ghost var w1 := api.world;
    err := SyncNodes(api, inst, unchangedSpec);
    if settled { SyncedBetween(w0, w1, api.world, api.world, unchangedSpec, err.None?); }
  }

  /** On every platform: without error the status records the spec as it was at the start, and all objects were in place at
      some moment of the reconcile. */
  ghost predicate RegularDone(start: World, log: seq<Action>, since: nat, st: Status, specMDS: Spec,
                              infra: seq<InfraDaemonSet>, former: seq<InfraDaemonSet>)
  {
    st.infra == infra && st.specMDS == Some(specMDS) && SomeSynced(start, log, since, infra, former)
  }

  /** The rest of a regular reconcile, from the rendering to the final write of the status. */
  method ApplyAndStore(api: ApiServer, inst: ComputeNodeOpenStack, specMDS: Spec) returns (err: Option<Error>)
    requires api.Valid() && Under(api.world, Regular) && Fresh(inst, api.world.cr)
    modifies api, inst
    ensures err.None? ==> api.world.cr.finalizer == old(api.world).cr.finalizer
    ensures err.None? ==>
      RegularDone(api.start, api.log, |old(api.log)|, api.world.cr.status, specMDS, old(inst.spec).infra,
                  old(inst.status).infra)
    ensures api.Valid() && old(api.log) <= api.log
    ensures api.quiet && old(inst.version == api.world.cr.version) ==>
      err.None? && Still(old(api.world), api.world) && StatusSynced(api.world.cr, specMDS)
      && ObjectsThere(api.world, old(inst.status).infra)
  {
    ghost var data;
    ghost var spec, status := inst.spec.infra, inst.status.infra;
    err, data := ApplyObjects(api, inst.spec.infra, inst.status.infra);
    if err.Some? { return; }
    ghost var log := api.log;
    err := StoreStatus(api, inst, specMDS);
    SyncedStays(api.start, log, api.log, |old(api.log)|, data, spec, status);
    assert api.quiet && old(inst.version == api.world.cr.version) ==>
      AllThere(api.world.owned, data, api.world.cr.status.infra, status);
  }

  /** The rendered objects, and the copies of daemonsets. */
  method ApplyObjects(api: ApiServer, spec: seq<InfraDaemonSet>, status: seq<InfraDaemonSet>)
    returns (err: Option<Error>, ghost data: Coverage.RenderData)
    requires api.Valid() && Under(api.world, Regular)
    modifies api
    ensures api.Valid() && old(api.log) <= api.log && Applies(old(api.world), api.world, api.quiet)
    ensures err.None? ==> Synced(api.start, api.log, |old(api.log)|, data, spec, status)
    ensures api.quiet ==> err.None? && AllThere(api.world.owned, data, spec, status)
  {
    var rendered: Coverage.RenderData := *;
    data := rendered;
    err := ApplyRendered(api, rendered);
    if err.Some? { return; }
    ghost var w1, log := api.world, api.log;
    err := SyncDaemonSets(api, rendered.role, spec, status);
    if api.quiet { RenderedStay(w1.owned, api.world.owned, data); }
    if err.None? { SyncedAfter(api.start, log, api.log, |old(api.log)|, data, spec, status); }
  }

  /** On every platform: since the given moment each rendered object was there, so was the copy for each entry of the spec,
      and the copy for each entry that left it was gone. */
  ghost predicate Synced(start: World, log: seq<Action>, since: nat, data: Coverage.RenderData,
                         spec: seq<InfraDaemonSet>, status: seq<InfraDaemonSet>) {
    && AllSeen(start, log, since, KeySet(Coverage.RenderedKeys(data)), true)
    && AllSeen(start, log, since, CopyKeys(spec, data.role), true)
    && AllSeen(start, log, since, ExtraKeys(spec, status, data.role), false)
  }

  ghost predicate SomeSynced(start: World, log: seq<Action>, since: nat, spec: seq<InfraDaemonSet>,
                             status: seq<InfraDaemonSet>) {
    exists data :: Synced(start, log, since, data, spec, status)
  }

  lemma SyncedAfter(start: World, log: seq<Action>, log': seq<Action>, since: nat, data: Coverage.RenderData,
                    spec: seq<InfraDaemonSet>, status: seq<InfraDaemonSet>)
    requires log <= log' && since <= |log|
    requires AllSeen(start, log, since, KeySet(Coverage.RenderedKeys(data)), true)
    requires AllSeen(start, log', |log|, CopyKeys(spec, data.role), true)
    requires AllSeen(start, log', |log|, ExtraKeys(spec, status, data.role), false)
    ensures Synced(start, log', since, data, spec, status)
  {
    AllSeenStay(start, log, log', since, since, KeySet(Coverage.RenderedKeys(data)), true);
    AllSeenStay(start, log', log', |log|, since, CopyKeys(spec, data.role), true);
    AllSeenStay(start, log', log', |log|, since, ExtraKeys(spec, status, data.role), false);
  }

  lemma SyncedStays(start: World, log: seq<Action>, log': seq<Action>, since: nat, data: Coverage.RenderData,
                    spec: seq<InfraDaemonSet>, status: seq<InfraDaemonSet>)
    requires log <= log' && Synced(start, log, since, data, spec, status)
    ensures Synced(start, log', since, data, spec, status)
  {
    AllSeenStay(start, log, log', since, since, KeySet(Coverage.RenderedKeys(data)), true);
    AllSeenStay(start, log, log', since, since, CopyKeys(spec, data.role), true);
    AllSeenStay(start, log, log', since, since, ExtraKeys(spec, status, data.role), false);
  }

  lemma SyncedEarlier(start: World, log: seq<Action>, since: nat, since': nat, spec: seq<InfraDaemonSet>,
                      status: seq<InfraDaemonSet>)
    requires since' <= since && SomeSynced(start, log, since, spec, status)
    ensures SomeSynced(start, log, since', spec, status)
  {
    var data :| Synced(start, log, since, data, spec, status);
    AllSeenStay(start, log, log, since, since', KeySet(Coverage.RenderedKeys(data)), true);
    AllSeenStay(start, log, log, since, since', CopyKeys(spec, data.role), true);
    AllSeenStay(start, log, log, since, since', ExtraKeys(spec, status, data.role), false);
    assert Synced(start, log, since', data, spec, status);
  }

  /** Everything rendered from this data is there, so are the copies for these daemonsets, and those of the others are
      gone. */
  ghost predicate AllThere(owned: set<ObjKey>, data: Coverage.RenderData, infra: seq<InfraDaemonSet>,
                           former: seq<InfraDaemonSet>) {
    && KeySet(Coverage.RenderedKeys(data)) <= owned
    && CopiesThere(owned, data.role, infra) && ExtrasGone(owned, data.role, infra, former)
  }

  ghost predicate ObjectsThere(w: World, former: seq<InfraDaemonSet>) {
    exists data :: AllThere(w.owned, data, w.cr.status.infra, former)
  }

  lemma RenderedStay(owned: set<ObjKey>, owned': set<ObjKey>, data: Coverage.RenderData)
    requires KeySet(Coverage.RenderedKeys(data)) <= owned && OnlyDaemonSets(owned, owned')
    ensures KeySet(Coverage.RenderedKeys(data)) <= owned'
  {
    Coverage.NoDaemonSetRendered(data);
  }

  /** What the status records of a spec. */
  ghost predicate StatusSynced(cr: Cr, spec: Spec) {
    cr.status.infra == cr.spec.infra && cr.status.specMDS == Some(spec)
  }

  /** One reconcile: whatever happens, every call it makes is in order.  On a quiet platform on which no lookup panics it
      does what it is for, wherever the drain jobs stand: see RegularTurn and DeletionTurn. */
  method Reconcile(api: ApiServer) returns (err: Option<Error>)
    requires api.Valid()
    modifies api
    ensures api.Valid() && old(api.log) <= api.log
    ensures SettledStart(api, old(api.world), old(api.world).cr.version) ==>
      ReconcileTurn(api.thief, old(api.world), api.world, err)
  {
    ghost var w0 := api.world;
    var cr;
    ghost var mid;
    cr, mid := api.GetCr();
    if cr.None? { return Some(Failed); }
    ghost var w1 := api.world;
    err := ReconcileCr(api, cr.value);
    if SettledStart(api, w0, w0.cr.version) { TurnAfterStart(api.thief, w0, w1, api.world, err); }
  }

  /** The two branches. */
  method ReconcileCr(api: ApiServer, cr: Cr) returns (err: Option<Error>)
    requires api.Valid() && cr == api.world.cr && Under(api.world, PathFor(cr))
    modifies api
    ensures api.Valid() && old(api.log) <= api.log
    ensures SettledStart(api, old(api.world), cr.version) ==> ReconcileTurn(api.thief, old(api.world), api.world, err)
  {
    var inst := new ComputeNodeOpenStack(cr);
    ghost var w0 := api.world;
    if inst.deleted {
      ghost var rest;
      err, rest := ReconcileDeletion(api, inst);
      assert SettledStart(api, w0, cr.version) ==> DeletionTurn(w0, api.world, api.thief, rest, err);
    } else {
      err := ReconcileRegular(api, inst);
    }
  }

  ghost predicate ReconcileTurn(thief: Option<ObjKey>, w: World, w': World, err: Option<Error>) {
    if w.cr.deleted then exists rest :: DeletionTurn(w, w', thief, rest, err)
    else RegularTurn(w, w', w.cr.spec, w.cr.status, err.None?)
  }

  /** On the regular path: the nodes are walked if and only if the hash of the spec is the stored one.  Without error the
      status then records the spec as it was at the start, the resource has its finalizer, and all objects are
      there. */
  ghost predicate RegularTurn(w: World, w': World, spec: Spec, status: Status, ok: bool) {
    && (status.specMDS == Some(spec) ==> WalkedQuietly(w, w', w.cr.status.nodes, ok))
    && (status.specMDS != Some(spec) ==> ok && Still(w, w'))
    && (ok ==> StatusSynced(w'.cr, spec) && w'.cr.finalizer && ObjectsThere(w', status.infra))
  }

  lemma TurnAfterStart(thief: Option<ObjKey>, w: World, w1: World, w': World, err: Option<Error>)
    requires w1 == Apply(w, StartReconcile) && ReconcileTurn(thief, w1, w', err)
    ensures ReconcileTurn(thief, w, w', err)
  {
    if w.cr.deleted {
      var rest :| DeletionTurn(w1, w', thief, rest, err);
      DeletionTurnLater(w, w1, w', thief, rest, err);
    } else {
      SyncedBetween(w, w1, w', w', w.cr.status.specMDS == Some(w.cr.spec), err.None?);
    }
  }

  /** Any number of reconciles, each cut off or failing anywhere, with anything in between: the log of all that
      happened is a lawful run. */
  method Operate(api: ApiServer, rounds: nat)
    requires api.Valid()
    modifies api
    ensures api.Valid() && old(api.log) <= api.log && Lawful(api.start, api.log)
  {
    for i := 0 to rounds
      invariant api.Valid() && old(api.log) <= api.log
    {
      var _ := Reconcile(api);
    }
  }
}
