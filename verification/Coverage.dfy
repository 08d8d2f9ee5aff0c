/** Which of the objects Reconcile renders are gone once the resource is: the garbage collector takes those with an
    owner reference, the label cleanup those of the kinds and namespaces it selects. */
module Coverage {
  import opened Model
  import opened Protocol
  import opened Apply
  import DaemonSets

  const OPENSTACK := "openstack"

  /** The part of the render data that decides which objects there are, and how they are named. */
  datatype RenderData = RenderData(role: Name, cluster: Name, isolcpus: bool, selinuxDisabled: bool)

  function Plain(kind: string, namespace: Name, name: Name, labels: Labels, body: Key -> string): Object {
    Object(Key(kind, namespace, name), labels, map[], None, Stamp(0, 0, 0), body(Key(kind, namespace, name)))
  }

  function RoleLabel(d: RenderData): Labels { map["machineconfiguration.openshift.io/role" := d.role] }

  function RenderWorker(d: RenderData, body: Key -> string): seq<Object> {
    [Plain("Secret", MACHINE_API, d.role + "-user-data", map[], body)]
    + (if d.isolcpus then [Plain("MachineConfig", "", "05-" + d.role + "-pinning", RoleLabel(d), body)] else [])
    + (if d.selinuxDisabled then [Plain("MachineConfig", "", "06-" + d.role + "-selinuxoff", RoleLabel(d), body)] else [])
    + [Plain("MachineConfigPool", "", d.role, RoleLabel(d), body),
       Plain("MachineSet", MACHINE_API, d.cluster + "-" + d.role,
             map["machine.openshift.io/cluster-api-cluster" := d.cluster,
                 "machine.openshift.io/cluster-api-machine-role" := d.role,
                 "machine.openshift.io/cluster-api-machine-type" := d.role], body)]
  }

  function RenderNova(d: RenderData, body: Key -> string): seq<Object> {
    [Plain("Virtlogd", OPENSTACK, "virtlogd-" + d.role, map[], body),
     Plain("Libvirtd", OPENSTACK, "libvirtd-" + d.role, map[], body),
     Plain("Iscsid", OPENSTACK, "iscsid-" + d.role, map[], body),
     Plain("NovaMigrationTarget", OPENSTACK, "nova-migration-target-" + d.role, map[], body),
     Plain("NovaCompute", OPENSTACK, "nova-compute-" + d.role, map[], body)]
  }

  function RenderNeutron(d: RenderData, body: Key -> string): seq<Object> {
    [Plain("OVSNodeOsp", OPENSTACK, "ovs-node-osp-" + d.role, map[], body),
     Plain("OVNController", OPENSTACK, "ovncontroller-" + d.role, map[], body)]
  }

  function Rendered(d: RenderData, body: Key -> string): seq<Object> {
    RenderWorker(d, body) + RenderNova(d, body) + RenderNeutron(d, body)
  }

  /** No two rendered objects share a key, so none of them overwrites another. */
  lemma RenderedApart(d: RenderData, body: Key -> string)
    ensures |Rendered(d, body)| == 10 + (if d.isolcpus then 1 else 0) + (if d.selinuxDisabled then 1 else 0)
    ensures Apart(Rendered(d, body))
  {
    WorkerApart(d, body);
    ServicesApart(d, body);
    forall o: Object, p: Object | o in RenderWorker(d, body) && p in RenderNova(d, body) + RenderNeutron(d, body)
      ensures o.key != p.key
    {
      WorkerElsewhere(d, body, o);
      ServiceInOpenstack(d, body, p);
    }
    TogetherApart(RenderWorker(d, body), RenderNova(d, body) + RenderNeutron(d, body));
    assert RenderWorker(d, body) + (RenderNova(d, body) + RenderNeutron(d, body)) == Rendered(d, body);
  }

  lemma WorkerElsewhere(d: RenderData, body: Key -> string, o: Object)
    requires o in RenderWorker(d, body)
    ensures o.key.namespace != OPENSTACK
  {
  }

  lemma ServiceInOpenstack(d: RenderData, body: Key -> string, o: Object)
    requires o in RenderNova(d, body) + RenderNeutron(d, body)
    ensures o.key.namespace == OPENSTACK
  {
  }

  lemma ServicesApart(d: RenderData, body: Key -> string)
    ensures Apart(RenderNova(d, body) + RenderNeutron(d, body))
  {
    assert forall o :: o in RenderNova(d, body) ==> o.key.kind[0] != 'O';
    assert forall o :: o in RenderNeutron(d, body) ==> o.key.kind[0] == 'O';
    TogetherApart(RenderNova(d, body), RenderNeutron(d, body));
  }

  ghost predicate Apart(objects: seq<Object>) {
    forall i, j :: 0 <= i < j < |objects| ==> objects[i].key != objects[j].key
  }

  lemma TogetherApart(a: seq<Object>, b: seq<Object>)
    requires Apart(a) && Apart(b) && forall o: Object, p: Object :: o in a && p in b ==> o.key != p.key
    ensures Apart(a + b)
  {
    forall i, j | 0 <= i < j < |a + b| ensures (a + b)[i].key != (a + b)[j].key {
      if i < |a| <= j { assert (a + b)[i] in a && (a + b)[j] in b; }
    }
  }

  lemma WorkerApart(d: RenderData, body: Key -> string)
    ensures Apart(RenderWorker(d, body))
  {
    assert ("05-" + d.role + "-pinning")[1] == '5' && ("06-" + d.role + "-selinuxoff")[1] == '6';
  }

  function KindOf(kind: string): ObjKind {
    match kind
    case "DaemonSet" => DaemonSet
    case "MachineSet" => MachineSet
    case "Secret" => Secret
    case "MachineConfigPool" => MachineConfigPool
    case "MachineConfig" => MachineConfig
    case _ => OtherKind
  }

  function ObjKeyOf(k: Key): ObjKey { ObjKey(KindOf(k.kind), k.namespace, k.name) }

  /** What is rendered, in order, as far as the label cleanup is concerned. */
  function RenderedKeys(d: RenderData): seq<ObjKey> { KeysOf(Rendered(d, (k: Key) => "")) }

  function KeysOf(objects: seq<Object>): seq<ObjKey> {
    if objects == [] then [] else [ObjKeyOf(objects[0].key)] + KeysOf(objects[1..])
  }

  /** These are the keys of exactly the rendered objects. */
  lemma RenderedKeysAre(d: RenderData, body: Key -> string, k: ObjKey)
    ensures k in RenderedKeys(d) <==>
      exists o :: o in Rendered(d, body) && k == ObjKey(KindOf(o.key.kind), o.key.namespace, o.key.name)
  {
    KeysListed(Rendered(d, (k: Key) => ""), k);
    KeysListed(Rendered(d, body), k);
    SameKeys(d, body);
  }

  lemma {:induction false} KeysListed(objects: seq<Object>, k: ObjKey)
    ensures k in KeysOf(objects) <==> exists o :: o in objects && ObjKeyOf(o.key) == k
  {
    if objects != [] {
      KeysListed(objects[1..], k);
      forall o | o in objects ensures o == objects[0] || o in objects[1..] {}
    }
  }

  lemma SameKeys(d: RenderData, body: Key -> string)
    ensures KeysOf(Rendered(d, body)) == RenderedKeys(d)
  {
    var plain := Rendered(d, (k: Key) => "");
    var other := Rendered(d, body);
    assert |plain| == |other|;
    KeysPointwise(plain, other);
  }

  lemma {:induction false} KeysPointwise(a: seq<Object>, b: seq<Object>)
    requires |a| == |b| && forall i :: 0 <= i < |a| ==> a[i].key == b[i].key
    ensures KeysOf(a) == KeysOf(b)
  {
    if a != [] { KeysPointwise(a[1..], b[1..]); }
  }

  /** No daemonset is rendered. */
  lemma NoDaemonSetRendered(d: RenderData)
    ensures forall k :: k in RenderedKeys(d) ==> !k.kind.DaemonSet?
  {
    var body := (k: Key) => "";
    forall k | k in RenderedKeys(d) ensures exists o :: o in Rendered(d, body) && ObjKeyOf(o.key) == k {
      KeysListed(Rendered(d, body), k);
    }
    forall o | o in Rendered(d, body) ensures !KindOf(o.key.kind).DaemonSet? { RenderedKind(d, body, o); }
  }

  lemma RenderedKind(d: RenderData, body: Key -> string, o: Object)
    requires o in Rendered(d, body)
    ensures !KindOf(o.key.kind).DaemonSet?
  {
    if o in RenderWorker(d, body) { assert o.key.kind in {"Secret", "MachineConfig", "MachineConfigPool", "MachineSet"}; }
    else { RenderedService(d, body, o); }
  }

  lemma RenderedService(d: RenderData, body: Key -> string, o: Object)
    requires o in RenderNova(d, body) || o in RenderNeutron(d, body)
    ensures !KindOf(o.key.kind).DaemonSet?
  {
    assert KindOf("NovaCompute") == OtherKind && "NovaCompute" != "DaemonSet";
  }

  /** The deletion of the resource reaches the object. */
  predicate Reached(o: Object, owner: Owner, infra: seq<InfraDaemonSet>) {
    || o.controller == Some(owner.uid)
    || (Labelled(o, owner) && Selected(ObjKeyOf(o.key), infra))
  }

  predicate WellPlaced(k: Key) {
    || k.namespace == OPENSTACK
    || (k.kind in {"Secret", "MachineSet"} && k.namespace == MACHINE_API)
    || (k.kind in {"MachineConfigPool", "MachineConfig"} && k.namespace == "")
  }

  lemma RenderedIsWellPlaced(d: RenderData, body: Key -> string, o: Object)
    requires o in Rendered(d, body)
    ensures WellPlaced(o.key) && o.controller == None
  {
  }

  lemma MarkedIsReached(o: Object, owner: Owner, infra: seq<InfraDaemonSet>)
    requires WellPlaced(o.key) && Marked(o, owner) && owner.namespace == OPENSTACK
    ensures Reached(o, owner, infra)
  {
  }

  /** COVERAGE, exactly: the deletion reaches every object a reconcile applies if and only if the resource lives
      in the namespace openstack. */
  lemma CoverageExact(d: RenderData, body: Key -> string, owner: Owner, infra: seq<InfraDaemonSet>)
    ensures (forall o :: o in Rendered(d, body) ==> Reached(WithMarks(o, owner), owner, infra))
      <==> owner.namespace == OPENSTACK
  {
    if owner.namespace == OPENSTACK {
      forall o | o in Rendered(d, body) ensures Reached(WithMarks(o, owner), owner, infra) {
        RenderedIsWellPlaced(d, body, o);
        MarkedIsReached(WithMarks(o, owner), owner, infra);
      }
    } else {
      VirtlogdIsMissed(d, body, owner, infra);
    }
  }

  lemma VirtlogdIsMissed(d: RenderData, body: Key -> string, owner: Owner, infra: seq<InfraDaemonSet>)
    requires owner.namespace != OPENSTACK
    ensures exists o :: o in Rendered(d, body) && !Reached(WithMarks(o, owner), owner, infra)
  {
    var o := RenderNova(d, body)[0];
    assert o in Rendered(d, body) by { assert Rendered(d, body)[|RenderWorker(d, body)|] == o; }
    assert KindOf("Virtlogd") == OtherKind;
    assert !Reached(WithMarks(o, owner), owner, infra);
  }

  /** Over any run: whatever render data the reconciles of the past had, and whatever others did to the objects
      short of taking the marks off, the deletion of a resource in namespace openstack reaches every object that
      was ever applied for it. */
  lemma EverythingAppliedIsReached(w: Store, owner: Owner, mine: set<Key>, infra: seq<InfraDaemonSet>,
                                   past: seq<RenderData>, body: Key -> string)
    requires AllMarked(w, owner, mine) && Dated(w) && owner.namespace == OPENSTACK
    requires forall k :: k in mine ==> RenderedByOne(past, body, k)
    ensures forall k :: k in mine && k in w.objects ==> Reached(w.objects[k], owner, infra)
  {
    forall k | k in mine && k in w.objects ensures Reached(w.objects[k], owner, infra) {
      var i: nat :| RenderedBy(past, body, k, i);
      var o :| o in Rendered(past[i], body) && o.key == k;
      RenderedIsWellPlaced(past[i], body, o);
      MarkedIsReached(w.objects[k], owner, infra);
    }
  }

  ghost predicate RenderedBy(past: seq<RenderData>, body: Key -> string, k: Key, i: nat) {
    i < |past| && exists o :: o in Rendered(past[i], body) && o.key == k
  }

  ghost predicate RenderedByOne(past: seq<RenderData>, body: Key -> string, k: Key) {
    exists i: nat :: RenderedBy(past, body, k, i)
  }

  /** Any number of reconciles with changing render data, each of them cut off anywhere by an error: what
      EverythingAppliedIsReached asks for holds throughout. */
  method ApplyForever(client: Client, past: seq<RenderData>, body: Key -> string, infra: seq<InfraDaemonSet>)
    requires Dated(client.store) && client.mine == {} && client.owner.namespace == OPENSTACK
    modifies client
    ensures forall k :: k in client.mine && k in client.store.objects ==>
      Reached(client.store.objects[k], client.owner, infra)
  {
    for i := 0 to |past|
      invariant Dated(client.store) && AllMarked(client.store, client.owner, client.mine)
      invariant forall k :: k in client.mine ==> RenderedByOne(past, body, k)
    {
      ghost var mine := client.mine;
      var objs := Rendered(past[i], body);
      var _ := ApplyRendered(client, objs);
      forall k | k in client.mine ensures RenderedByOne(past, body, k) {
        if k !in mine {
          var j :| 0 <= j < |objs| && objs[j].key == k;
          assert objs[j] in objs;
          assert RenderedBy(past, body, k, i);
        }
      }
    }
    EverythingAppliedIsReached(client.store, client.owner, client.mine, infra, past, body);
  }

  // ----- Copies of daemonsets -------------------------------------------------------------------------

  /** The deletion reaches the operator's copy under key k. */
  predicate CopyReached(k: InfraDaemonSet, infra: seq<InfraDaemonSet>) {
    Selected(ObjKey(DaemonSet, k.namespace, k.name), infra)
  }

  /** From copies that match the status, a synchronisation that was cut off anywhere leaves only copies the deletion
      reaches: their namespaces are named by the status or the spec. */
  lemma CopiesAreReached(c: DaemonSets.Context, s: DaemonSets.Sets, s': DaemonSets.Sets, spec: seq<InfraDaemonSet>,
                         status: seq<InfraDaemonSet>)
    requires DaemonSets.Partial(c, s, s', spec, status) && DaemonSets.Matches(c, s, status)
    ensures forall k :: k in s' && s'[k].labels == c.labels ==> CopyReached(k, status + spec)
  {
    DaemonSets.CrashStaysWithin(c, s, s', spec, status);
    forall k | DaemonSets.Copies(c, status + spec, k) ensures CopyReached(k, status + spec) {
      var d :| d in status + spec && k == DaemonSets.Derived(c, d);
    }
  }

  /** The copies a later deletion will miss, exactly: after a complete synchronisation, which makes the spec the status,
      the deletion reaches all of the operator's copies if and only if every stray there was before, a copy of no
      entry of the old status or the new spec, lies in a namespace that some entry of the spec names. */
  lemma CleanupReachesExactlyWhen(c: DaemonSets.Context, s: DaemonSets.Sets, s': DaemonSets.Sets,
                                  spec: seq<InfraDaemonSet>, status: seq<InfraDaemonSet>)
    requires DaemonSets.Complete(c, s, s', spec, status) && DaemonSets.Disjoint(c, spec + status)
    ensures (forall k :: k in s' && s'[k].labels == c.labels ==> CopyReached(k, spec + spec)) <==>
            (forall k :: Stray(c, s, spec, status, k) ==> exists e :: e in spec && e.namespace == k.namespace)
  {
    forall k | DaemonSets.Copies(c, spec, k) ensures CopyReached(k, spec + spec) {
      var d :| d in spec && k == DaemonSets.Derived(c, d);
      assert d in spec + spec;
    }
    forall k | !DaemonSets.Copies(c, spec, k)
      ensures (k in s' && s'[k].labels == c.labels) <==> Stray(c, s, spec, status, k)
    {
      StraysStay(c, s, s', spec, status, k);
    }
    forall k ensures CopyReached(k, spec + spec) <==> exists e :: e in spec && e.namespace == k.namespace {
      if e :| e in spec && e.namespace == k.namespace { assert e in spec + spec; }
    }
  }

  ghost predicate Stray(c: DaemonSets.Context, s: DaemonSets.Sets, spec: seq<InfraDaemonSet>,
                        status: seq<InfraDaemonSet>, k: InfraDaemonSet) {
    && k in s && s[k].labels == c.labels
    && !DaemonSets.Copies(c, status, k) && !DaemonSets.Copies(c, spec, k)
  }

  lemma StraysStay(c: DaemonSets.Context, s: DaemonSets.Sets, s': DaemonSets.Sets, spec: seq<InfraDaemonSet>,
                   status: seq<InfraDaemonSet>, k: InfraDaemonSet)
    requires DaemonSets.Complete(c, s, s', spec, status) && !DaemonSets.Copies(c, spec, k)
    ensures (k in s' && s'[k].labels == c.labels) <==> Stray(c, s, spec, status, k)
  {
    assert DaemonSets.KeyDone(c, s, s', spec, status, k);
    if DaemonSets.Copies(c, status, k) {
      var d :| d in status && k == DaemonSets.Derived(c, d);
      assert d !in spec;
      assert DaemonSets.Extra(c, spec, status, k);
    } else {
      assert !DaemonSets.Extra(c, spec, status, k);
    }
  }
}
