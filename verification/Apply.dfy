/** Merging a desired object with the stored one, and creating or updating it. */
module Apply {
  import opened Model

  type Labels = map<string, string>

  datatype Key = Key(kind: string, namespace: Name, name: Name)

  /** The metadata only the server writes.  The version is different after every write. */
  datatype Stamp = Stamp(uid: int, created: int, version: int)

  /** An object as a value; `controller` is the uid in its controller reference. */
  datatype Object = Object(key: Key, labels: Labels, annotations: Labels, controller: Option<Name>, stamp: Stamp,
                           body: string)

  /** The objects of the cluster; `clock` is the last version the server gave out. */
  datatype Store = Store(objects: map<Key, Object>, clock: int)

  ghost predicate Dated(w: Store) {
    forall k :: k in w.objects ==> w.objects[k].key == k && w.objects[k].stamp.version <= w.clock
  }

  // ----- What an apply means --------------------------------------------------------------------------

  /** The desired object with the metadata of the current one, labels and annotations overriding. */
  function Merged(current: Object, desired: Object): Object {
    desired.(labels := current.labels + desired.labels, annotations := current.annotations + desired.annotations,
             stamp := current.stamp)
  }

  function Created(w: Store, d: Object): Store {
    w.(objects := w.objects[d.key := d.(stamp := Stamp(w.clock + 1, w.clock + 1, w.clock + 1))], clock := w.clock + 1)
  }

  function Updated(w: Store, d: Object): Store {
    w.(objects := w.objects[d.key := d.(stamp := d.stamp.(version := w.clock + 1))], clock := w.clock + 1)
  }

  /** The store after a successful apply of d. */
  function Applied(w: Store, d: Object): Store {
    if d.key !in w.objects then Created(w, d)
    else if Merged(w.objects[d.key], d) == w.objects[d.key] then w
    else Updated(w, Merged(w.objects[d.key], d))
  }

  /** The object already has all that is desired. */
  predicate Has(o: Object, d: Object) {
    && o.body == d.body && o.controller == d.controller
    && (forall l <- d.labels :: Lookup(o.labels, l) == Some(d.labels[l]))
    && (forall l <- d.annotations :: Lookup(o.annotations, l) == Some(d.annotations[l]))
  }

  /** What an apply of d that led from w to w' did: the object under its key has the desired body and controller, the
      desired labels and annotations and otherwise those it had, and stays the object it was; all others are as they
      were; and nothing was written if and only if the object already had all of it. */
  ghost predicate DoesApply(w: Store, w': Store, d: Object) {
    && d.key in w'.objects && Has(w'.objects[d.key], d)
    && (forall l :: l !in d.labels ==> Lookup(w'.objects[d.key].labels, l) == Lookup(Stored(w, d.key, InLabels), l))
    && (forall l :: l !in d.annotations ==>
          Lookup(w'.objects[d.key].annotations, l) == Lookup(Stored(w, d.key, InAnnotations), l))
    && (d.key in w.objects ==>
          && w'.objects[d.key].stamp.uid == w.objects[d.key].stamp.uid
          && w'.objects[d.key].stamp.created == w.objects[d.key].stamp.created)
    && (forall k :: k != d.key ==> (k in w'.objects <==> k in w.objects) && (k in w.objects ==> w'.objects[k] == w.objects[k]))
    && (w' == w <==> d.key in w.objects && Has(w.objects[d.key], d))
    && (w' != w ==> w'.clock == w.clock + 1 && w'.objects[d.key].stamp.version == w'.clock)
  }

  lemma AppliedDoes(w: Store, d: Object)
    requires Dated(w)
    ensures DoesApply(w, Applied(w, d), d)
  {
    if d.key in w.objects {
      var cur := w.objects[d.key];
      assert Has(cur, d) ==> cur.labels + d.labels == cur.labels && cur.annotations + d.annotations == cur.annotations;
    }
  }

  /** The store after applying the desired objects one after the other. */
  function AppliedAll(w: Store, ds: seq<Object>): Store {
    if ds == [] then w else Applied(AppliedAll(w, ds[..|ds| - 1]), ds[|ds| - 1])
  }

  /** Applying the same object again writes nothing. */
  lemma ApplyTwice(w: Store, d: Object)
    ensures Applied(Applied(w, d), d) == Applied(w, d)
  {
    if d.key !in w.objects {
      assert d.labels + d.labels == d.labels && d.annotations + d.annotations == d.annotations;
    } else {
      var cur := w.objects[d.key];
      assert (cur.labels + d.labels) + d.labels == cur.labels + d.labels;
      assert (cur.annotations + d.annotations) + d.annotations == cur.annotations + d.annotations;
    }
  }

  /** Labels and annotations follow the same rule. */
  datatype Part = InLabels | InAnnotations

  function PartOf(o: Object, p: Part): Labels { if p.InLabels? then o.labels else o.annotations }

  function Stored(w: Store, k: Key, p: Part): Labels { if k in w.objects then PartOf(w.objects[k], p) else map[] }

  function Lookup(m: Labels, l: string): Option<string> { if l in m then Some(m[l]) else None }

  ghost predicate Sets(d: Object, k: Key, p: Part, l: string) { d.key == k && l in PartOf(d, p) }

  /** The i-th desired object is the last one to set entry l for key k. */
  ghost predicate SetsLast(ds: seq<Object>, k: Key, p: Part, l: string, i: nat) {
    && i < |ds| && Sets(ds[i], k, p, l)
    && forall j :: i < j < |ds| ==> !Sets(ds[j], k, p, l)
  }

  /** APPLY ALGEBRA.  After any sequence of applies, to any objects, a label or annotation has the value the last
      desired object of that key gave it, and its initial value (or none) when none of them mentions it. */
  lemma {:induction false} LastSetterWins(w: Store, ds: seq<Object>, k: Key, p: Part, l: string, i: nat)
    requires SetsLast(ds, k, p, l, i)
    ensures Lookup(Stored(AppliedAll(w, ds), k, p), l) == Some(PartOf(ds[i], p)[l])
  {
    var front := ds[..|ds| - 1];
    OneApply(AppliedAll(w, front), ds[|ds| - 1], k, p);
    if i < |front| { LastSetterWins(w, front, k, p, l, i); }
  }

  lemma {:induction false} UnmentionedStays(w: Store, ds: seq<Object>, k: Key, p: Part, l: string)
    requires forall i :: 0 <= i < |ds| ==> !Sets(ds[i], k, p, l)
    ensures Lookup(Stored(AppliedAll(w, ds), k, p), l) == Lookup(Stored(w, k, p), l)
  {
    if ds != [] {
      var front := ds[..|ds| - 1];
      OneApply(AppliedAll(w, front), ds[|ds| - 1], k, p);
      UnmentionedStays(w, front, k, p, l);
    }
  }

  lemma OneApply(w: Store, d: Object, k: Key, p: Part)
    ensures Stored(Applied(w, d), k, p) == if k == d.key then Stored(w, k, p) + PartOf(d, p) else Stored(w, k, p)
  {
  }

  /** The left-to-right override of a map by a sequence of maps. */
  function LeftToRight(init: Labels, ms: seq<Labels>): Labels
    decreases |ms|
  {
    if ms == [] then init else LeftToRight(init + ms[0], ms[1..])
  }

  /** What is desired for key k, in the order of the applies. */
  function Desired(ds: seq<Object>, k: Key, p: Part): seq<Labels> {
    if ds == [] then [] else (if ds[0].key == k then [PartOf(ds[0], p)] else []) + Desired(ds[1..], k, p)
  }

  lemma {:induction false} AppliesOverride(w: Store, ds: seq<Object>, k: Key, p: Part)
    ensures Stored(AppliedAll(w, ds), k, p) == LeftToRight(Stored(w, k, p), Desired(ds, k, p))
    decreases |ds|
  {
    if ds != [] {
      FirstFirst(w, ds);
      AppliesOverride(Applied(w, ds[0]), ds[1..], k, p);
      OneApply(w, ds[0], k, p);
      var rest := Desired(ds[1..], k, p);
      if ds[0].key == k {
        assert Desired(ds, k, p) == [PartOf(ds[0], p)] + rest && ([PartOf(ds[0], p)] + rest)[1..] == rest;
      } else {
        assert Desired(ds, k, p) == rest;
      }
    }
  }

  lemma {:induction false} FirstFirst(w: Store, ds: seq<Object>)
    requires ds != []
    ensures AppliedAll(w, ds) == AppliedAll(Applied(w, ds[0]), ds[1..])
    decreases |ds|
  {
    if |ds| == 1 {
      assert AppliedAll(w, ds[..0]) == w;
    } else {
      FirstFirst(w, ds[..|ds| - 1]);
      assert ds[..|ds| - 1][1..] == ds[1..][..|ds| - 2];
    }
  }

  // ----- merge.go -------------------------------------------------------------------------------------

  /** The object in the operator's hands. */
  class Unstructured {
    const key: Key
    var labels: Labels
    var annotations: Labels
    var controller: Option<Name>
    var stamp: Stamp
    const body: string

    constructor (o: Object)
      ensures Value() == o
    {
      key, labels, annotations, controller, stamp, body := o.key, o.labels, o.annotations, o.controller, o.stamp, o.body;
    }

    function Value(): Object
      reads this
    {
      Object(key, labels, annotations, controller, stamp, body)
    }

    /** Copies over the entries of the current object that the update does not have. */
    method MergeAnnotations(current: Object)
      modifies this`annotations
      ensures Value() == old(Value()).(annotations := current.annotations + old(annotations))
    {
      annotations := Override(current.annotations, annotations);
    }

    method MergeLabels(current: Object)
      modifies this`labels
      ensures Value() == old(Value()).(labels := current.labels + old(labels))
    {
      labels := Override(current.labels, labels);
    }

    method MergeMetadataForUpdate(current: Object)
      modifies this
      ensures Value() == Merged(current, old(Value()))
    {
      stamp := current.stamp;
      MergeAnnotations(current);
      MergeLabels(current);
    }
  }

  /** Writes the updated entries over the current ones, key by key, in any order. */
  method Override(current: Labels, updated: Labels) returns (merged: Labels)
    ensures merged == current + updated
  {
    merged := current;
    var rest := updated.Keys;
    while exists k :: k in rest
      invariant rest <= updated.Keys
      invariant merged.Keys == current.Keys + (updated.Keys - rest)
      invariant forall k :: k in merged ==> merged[k] == if k in updated && k !in rest then updated[k] else current[k]
      decreases |rest|
    {
      var k :| k in rest;
      merged := merged[k := updated[k]];
      rest := rest - {k};
    }
  }

  // ----- The owner's marks ----------------------------------------------------------------------------

  const UID_LABEL := "computenodeopenstacks.compute-node.openstack.org/uid"
  const NAMESPACE_LABEL := "computenodeopenstacks.compute-node.openstack.org/namespace"
  const NAME_LABEL := "computenodeopenstacks.compute-node.openstack.org/name"

  /** The identity of the custom resource. */
  datatype Owner = Owner(uid: Name, namespace: Name, name: Name)

  predicate Labelled(o: Object, owner: Owner) {
    && Lookup(o.labels, UID_LABEL) == Some(owner.uid)
    && Lookup(o.labels, NAMESPACE_LABEL) == Some(owner.namespace)
    && Lookup(o.labels, NAME_LABEL) == Some(owner.name)
  }

  /** The object carries the owner labels, and in the namespace of its owner the owner reference, too. */
  predicate Marked(o: Object, owner: Owner) {
    Labelled(o, owner) && (o.key.namespace == owner.namespace ==> o.controller == Some(owner.uid))
  }

  /** No apply by the owner, of whatever object, takes the marks off: they are part of what it desires. */
  lemma MarksSurvive(w: Store, d: Object, owner: Owner, k: Key)
    requires Marked(d, owner) && Dated(w)
    requires k in w.objects && k != d.key ==> Marked(w.objects[k], owner)
    ensures Dated(Applied(w, d))
    ensures k in Applied(w, d).objects ==> Marked(Applied(w, d).objects[k], owner)
    ensures d.key in Applied(w, d).objects
  {
  }

  // ----- apply.go -------------------------------------------------------------------------------------

  datatype ApplyError = NoName | Refused

  /** What others do to an object; a write changes its version. */
  datatype ForeignAction = Write(o: Object) | Remove(k: Key)

  function NextStore(w: Store, a: ForeignAction): Store {
    match a
    case Write(o) => Updated(w, o)
    case Remove(k) => w.(objects := w.objects - {k})
  }

  /** What a client may rely on after others acted: an object whose version is the same is the same; and on the
      objects the owner has applied they leave its marks. */
  ghost predicate Foreign(w: Store, w': Store, owner: Owner, mine: set<Key>) {
    && w.clock <= w'.clock && Dated(w')
    && (forall k :: k in w'.objects ==>
          (k in w.objects && w'.objects[k] == w.objects[k]) || w.clock < w'.objects[k].stamp.version)
    && (AllMarked(w, owner, mine) ==> AllMarked(w', owner, mine))
  }

  ghost predicate AllMarked(w: Store, owner: Owner, mine: set<Key>) {
    forall k :: k in mine && k in w.objects ==> Marked(w.objects[k], owner)
  }

  /** The API server as ApplyObject meets it; `mine` are the keys of the objects `owner` has applied. On a quiet
      server calls succeed and nobody else acts. */
  class Client {
    var store: Store
    var mine: set<Key>
    const owner: Owner
    const quiet: bool

    constructor (w: Store, owner: Owner, quiet: bool)
      ensures store == w && this.owner == owner && mine == {} && this.quiet == quiet
    {
      store, mine := w, {};
      this.owner := owner;
      this.quiet := quiet;
    }

    method Reaches() returns (ok: bool)
      ensures quiet ==> ok
    {
      ok := true;
      if !quiet { ok := *; }
    }

    method Interfere()
      requires Dated(store)
      modifies this`store
      ensures Foreign(old(store), store, owner, mine)
      ensures quiet ==> store == old(store)
    {
      if quiet { return; }
      var acts: seq<ForeignAction> := *;
      for i := 0 to |acts|
        invariant Foreign(old(store), store, owner, mine)
      {
        if acts[i].Write? && acts[i].o.key in mine && !Marked(acts[i].o, owner) { continue; }
        store := NextStore(store, acts[i]);
      }
    }

    method Get(k: Key) returns (found: Option<Object>, err: bool)
      requires Dated(store)
      modifies this`store
      ensures Foreign(old(store), store, owner, mine)
      ensures !err ==> found == if k in store.objects then Some(store.objects[k]) else None
      ensures quiet ==> !err && store == old(store)
    {
      Interfere();
      var reaches := Reaches();
      err := !reaches;
      found := if k in store.objects then Some(store.objects[k]) else None;
    }

    /** Refused when an object of that key exists; may report a failure after taking effect. */
    method Create(d: Object) returns (err: bool, ghost mid: Store)
      requires Dated(store)
      modifies this`store
      ensures Foreign(old(store), mid, owner, mine)
      ensures !err ==> d.key !in mid.objects && store == Created(mid, d)
      ensures err ==> store == mid || (d.key !in mid.objects && store == Created(mid, d))
      ensures quiet ==> mid == old(store) && err == (d.key in mid.objects)
    {
      Interfere();
      mid := store;
      var reaches := Reaches();
      if !reaches || d.key in store.objects { return true, mid; }
      store := Created(store, d);
      reaches := Reaches();
      err := !reaches;
    }

    /** Refused when the stored object does not have the version the update was made from. */
    method Update(d: Object) returns (err: bool, ghost mid: Store)
      requires Dated(store)
      modifies this`store
      ensures Foreign(old(store), mid, owner, mine)
      ensures !err ==> SameVersion(mid, d) && store == Updated(mid, d)
      ensures err ==> store == mid || (SameVersion(mid, d) && store == Updated(mid, d))
      ensures quiet ==> mid == old(store) && err == !SameVersion(mid, d)
    {
      Interfere();
      mid := store;
      var reaches := Reaches();
      if !reaches || !SameVersion(store, d) { return true, mid; }
      store := Updated(store, d);
      reaches := Reaches();
      err := !reaches;
    }
  }

  predicate SameVersion(w: Store, d: Object) {
    d.key in w.objects && w.objects[d.key].stamp.version == d.stamp.version
  }

  lemma ForeignTransitive(a: Store, b: Store, c: Store, owner: Owner, mine: set<Key>)
    requires Foreign(a, b, owner, mine) && Foreign(b, c, owner, mine)
    ensures Foreign(a, c, owner, mine)
  {
  }

  /** At some moment `mid`, with nothing but the doings of others before it, the apply took effect as a whole. */
  ghost predicate TookEffect(w: Store, w': Store, owner: Owner, mine: set<Key>, d: Object) {
    exists mid :: Foreign(w, mid, owner, mine) && w' == Applied(mid, d) && DoesApply(mid, w', d)
  }

  ghost predicate HadNoEffect(w: Store, w': Store, owner: Owner, mine: set<Key>) { Foreign(w, w', owner, mine) }

  /** Whatever others do between the calls, a successful apply is one atomic Applied step, and a failed one that or
      nothing: the version check keeps the merge from working on an outdated object. */
  method ApplyObject(client: Client, obj: Unstructured) returns (err: Option<ApplyError>)
    requires Dated(client.store)
    modifies client`store, obj
    ensures obj.key.name == "" <==> err == Some(NoName)
    ensures err == Some(NoName) ==> client.store == old(client.store)
    ensures err.None? ==> TookEffect(old(client.store), client.store, client.owner, client.mine, old(obj.Value()))
    ensures TookEffect(old(client.store), client.store, client.owner, client.mine, old(obj.Value()))
         || HadNoEffect(old(client.store), client.store, client.owner, client.mine)
    ensures client.quiet && obj.key.name != "" ==>
      && err.None? && client.store == Applied(old(client.store), old(obj.Value()))
      && DoesApply(old(client.store), client.store, old(obj.Value()))
  {
    if obj.key.name == "" { return Some(NoName); }
    ghost var w0, d := client.store, obj.Value();
    var existing, failed := client.Get(obj.key);
    if failed { return Some(Refused); }
    ghost var w1, mid := client.store, client.store;
    if existing.None? {
      failed, mid := client.Create(obj.Value());
      ForeignTransitive(w0, w1, mid, client.owner, client.mine);
      AppliedDoes(mid, d);
      return if failed then Some(Refused) else None;
    }
    obj.MergeMetadataForUpdate(existing.value);
    if obj.Value() != existing.value {
      failed, mid := client.Update(obj.Value());
      ForeignTransitive(w0, w1, mid, client.owner, client.mine);
      if SameVersion(mid, obj.Value()) { SameVersionSameObject(w1, mid, client.owner, client.mine, d); }
      AppliedDoes(mid, d);
      return if failed then Some(Refused) else None;
    }
    assert client.store == Applied(w1, d);
    AppliedDoes(w1, d);
    err := None;
  }

  /** An object read earlier is still what it was if its version is. */
  lemma SameVersionSameObject(w: Store, w': Store, owner: Owner, mine: set<Key>, d: Object)
    requires Dated(w) && Foreign(w, w', owner, mine) && d.key in w.objects
    requires SameVersion(w', Merged(w.objects[d.key], d))
    ensures w'.objects[d.key] == w.objects[d.key]
  {
  }

  // ----- The loop in Reconcile ------------------------------------------------------------------------

  /** What Reconcile turns a rendered object into. */
  function WithMarks(o: Object, owner: Owner): (d: Object)
    ensures Marked(d, owner) && d == o.(labels := d.labels, controller := d.controller)
    ensures Lookup(d.labels, UID_LABEL) == Some(owner.uid) && Lookup(d.labels, NAME_LABEL) == Some(owner.name)
    ensures Lookup(d.labels, NAMESPACE_LABEL) == Some(owner.namespace)
    ensures forall l :: l !in {UID_LABEL, NAMESPACE_LABEL, NAME_LABEL} ==> Lookup(d.labels, l) == Lookup(o.labels, l)
    ensures if o.key.namespace == owner.namespace then d.controller == Some(owner.uid) else d.controller == o.controller
  {
    o.(controller := if o.key.namespace == owner.namespace then Some(owner.uid) else o.controller,
       labels := o.labels + map[UID_LABEL := owner.uid, NAMESPACE_LABEL := owner.namespace, NAME_LABEL := owner.name])
  }

  function AllWithMarks(objs: seq<Object>, owner: Owner): (ds: seq<Object>)
    ensures |ds| == |objs| && forall i :: 0 <= i < |objs| ==> ds[i] == WithMarks(objs[i], owner)
  {
    seq(|objs|, i requires 0 <= i < |objs| => WithMarks(objs[i], owner))
  }

  /** Applies the rendered objects up to the first error. Every object applied so far, in this call or before,
      carries the marks of its owner for as long as it exists; and on a quiet server all of them are applied, one after
      the other. */
  method ApplyRendered(client: Client, objs: seq<Object>) returns (err: Option<ApplyError>)
    requires Dated(client.store) && AllMarked(client.store, client.owner, client.mine)
    modifies client
    ensures Dated(client.store) && AllMarked(client.store, client.owner, client.mine)
    ensures old(client.mine) <= client.mine <= old(client.mine) + KeysIn(objs)
    ensures err.None? ==> client.mine == old(client.mine) + KeysIn(objs)
    ensures client.quiet && AllNamed(objs) ==>
      err.None? && client.store == AppliedAll(old(client.store), AllWithMarks(objs, client.owner))
  {
    ghost var w0, mine0, ds := client.store, client.mine, AllWithMarks(objs, client.owner);
    ghost var quiet := client.quiet && AllNamed(objs);
    for i := 0 to |objs|
      invariant Dated(client.store) && AllMarked(client.store, client.owner, client.mine)
      invariant AddedUpTo(mine0, client.mine, objs, i)
      invariant quiet ==> client.store == AppliedAll(w0, ds[..i])
    {
      assert objs[i] in objs;
      OneApplyMore(w0, ds, i);
      ghost var mine := client.mine;
      err := ApplyMarked(client, objs[i]);
      OneKeyMore(mine0, mine, client.mine, objs, i, err.None?);
      if err.Some? { return; }
    }
    assert ds[..|objs|] == ds && objs[..|objs|] == objs;
    err := None;
  }

  lemma OneApplyMore(w: Store, ds: seq<Object>, i: nat)
    requires i < |ds|
    ensures AppliedAll(w, ds[..i + 1]) == Applied(AppliedAll(w, ds[..i]), ds[i])
  {
    assert ds[..i + 1][..i] == ds[..i];
  }

  ghost predicate AllNamed(objs: seq<Object>) { forall o :: o in objs ==> o.key.name != "" }

  ghost function KeysIn(objs: seq<Object>): set<Key> { set o | o in objs :: o.key }

  /** The keys of the first i objects were added. */
  ghost predicate AddedUpTo(mine0: set<Key>, mine: set<Key>, objs: seq<Object>, i: int) {
    0 <= i <= |objs| && mine == mine0 + KeysIn(objs[..i])
  }

  lemma OneKeyMore(mine0: set<Key>, mine: set<Key>, mine': set<Key>, objs: seq<Object>, i: nat, ok: bool)
    requires i < |objs| && AddedUpTo(mine0, mine, objs, i)
    requires mine <= mine' <= mine + {objs[i].key} && (ok ==> objs[i].key in mine')
    ensures mine0 <= mine' <= mine0 + KeysIn(objs)
    ensures ok ==> AddedUpTo(mine0, mine', objs, i + 1)
  {
    assert objs[..i + 1] == objs[..i] + [objs[i]];
    assert objs[i] in objs;
  }

  /** One rendered object. */
  method ApplyMarked(client: Client, o: Object) returns (err: Option<ApplyError>)
    requires Dated(client.store) && AllMarked(client.store, client.owner, client.mine)
    modifies client
    ensures Dated(client.store) && AllMarked(client.store, client.owner, client.mine)
    ensures old(client.mine) <= client.mine <= old(client.mine) + {o.key} && (err.None? ==> o.key in client.mine)
    ensures client.quiet && o.key.name != "" ==>
      err.None? && client.store == Applied(old(client.store), WithMarks(o, client.owner))
  {
    var obj := new Unstructured(WithMarks(o, client.owner));
    ghost var w, d := client.store, obj.Value();
    err := ApplyObject(client, obj);
    KeepsMarks(w, client.store, client.owner, client.mine, d);
    if err.None? || (o.key in client.store.objects && Marked(client.store.objects[o.key], client.owner)) {
      client.mine := client.mine + {o.key};
    }
  }

  lemma KeepsMarks(w: Store, w': Store, owner: Owner, mine: set<Key>, d: Object)
    requires AllMarked(w, owner, mine) && Marked(d, owner) && Dated(w)
    requires TookEffect(w, w', owner, mine, d) || HadNoEffect(w, w', owner, mine)
    ensures AllMarked(w', owner, mine) && Dated(w')
    ensures TookEffect(w, w', owner, mine, d) ==> AllMarked(w', owner, mine + {d.key})
  {
    if TookEffect(w, w', owner, mine, d) {
      var mid :| Foreign(w, mid, owner, mine) && w' == Applied(mid, d);
      MarksSurvive(mid, d, owner, d.key);
      forall k | k in mine + {d.key} && k in w'.objects ensures Marked(w'.objects[k], owner) {
        MarksSurvive(mid, d, owner, k);
      }
    }
  }
}
