/** ensureInfraDaemonsets: copies of infrastructure daemonsets for the operator's role, kept in step with the
    spec by looking at what the last complete reconcile left behind. */
module DaemonSets {
  import opened Model

  datatype Toleration = Toleration(operator: string, effect: string, key: string, value: string)

  /** The parts of a daemonset's spec that the operator changes; `rest` is everything else. */
  datatype DsSpec = DsSpec(templateName: Name, tolerations: seq<Toleration>, nodeSelector: map<string, string>,
                           rest: string)

  datatype Ds = Ds(labels: map<string, string>, spec: DsSpec)

  /** The daemonsets of the cluster by namespace and name. */
  type Sets = map<InfraDaemonSet, Ds>

  /** The role, and the owner labels. */
  datatype Context = Context(role: Name, labels: map<string, string>)

  function Derived(c: Context, d: InfraDaemonSet): InfraDaemonSet {
    InfraDaemonSet(d.namespace, d.name + "-" + c.role)
  }

  function NewDaemonSet(c: Context, origin: Ds, name: Name): Ds {
    Ds(c.labels,
       origin.spec.(templateName := name,
                    tolerations := origin.spec.tolerations + [Toleration("Equal", "NoSchedule", "dedicated", c.role)],
                    nodeSelector := map["node-role.kubernetes.io/" + c.role := ""]))
  }

  /** Different entries have different copies. */
  lemma DerivedIsInjective(c: Context, d: InfraDaemonSet, e: InfraDaemonSet)
    ensures Derived(c, d) == Derived(c, e) ==> d == e
  {
    if Derived(c, d) == Derived(c, e) {
      var suffix := "-" + c.role;
      assert d.name + suffix == d.name + "-" + c.role && e.name + suffix == e.name + "-" + c.role;
      assert |d.name| == |e.name|;
      assert (d.name + suffix)[..|d.name|] == d.name && (e.name + suffix)[..|e.name|] == e.name;
    }
  }

  // ----- What a synchronisation means -----------------------------------------------------------------

  ghost predicate Copies(c: Context, list: seq<InfraDaemonSet>, k: InfraDaemonSet) {
    exists d :: d in list && k == Derived(c, d)
  }

  /** No copy is itself the origin of another. */
  ghost predicate Disjoint(c: Context, list: seq<InfraDaemonSet>) {
    forall d, e :: d in list && e in list ==> Derived(c, d) != e
  }

  /** What the copy for entry d is to be: an existing one is only replaced when its spec differs. */
  function Wanted(c: Context, s: Sets, d: InfraDaemonSet): Ds
    requires d in s
  {
    var k := Derived(c, d);
    var made := NewDaemonSet(c, s[d], k.name);
    if k in s && s[k].spec == made.spec then s[k] else made
  }

  ghost predicate Extra(c: Context, spec: seq<InfraDaemonSet>, status: seq<InfraDaemonSet>, k: InfraDaemonSet) {
    exists d :: d in status && d !in spec && k == Derived(c, d)
  }

  /** From s to s', key k was dealt with, or left alone. */
  ghost predicate KeyDone(c: Context, s: Sets, s': Sets, spec: seq<InfraDaemonSet>, status: seq<InfraDaemonSet>,
                          k: InfraDaemonSet) {
    if Copies(c, spec, k) then
      exists d :: d in spec && d in s && k == Derived(c, d) && k in s' && s'[k] == Wanted(c, s, d)
    else if Extra(c, spec, status, k) then k !in s'
    else Same(s, s', k)
  }

  predicate Same(s: Sets, s': Sets, k: InfraDaemonSet) { if k in s then k in s' && s'[k] == s[k] else k !in s' }

  /** A complete synchronisation leads from s to s'. */
  ghost predicate Complete(c: Context, s: Sets, s': Sets, spec: seq<InfraDaemonSet>, status: seq<InfraDaemonSet>) {
    forall k :: KeyDone(c, s, s', spec, status, k)
  }

  /** A synchronisation that was cut off leads from s to s'. */
  ghost predicate Partial(c: Context, s: Sets, s': Sets, spec: seq<InfraDaemonSet>, status: seq<InfraDaemonSet>) {
    forall k :: Same(s, s', k) || KeyDone(c, s, s', spec, status, k)
  }

  /** The name a copy gets, and what is in it: the spec of its origin under the new name, with one more toleration, and
      scheduled to the nodes of the role only. */
  ghost predicate IsCopy(c: Context, origin: Ds, copy: Ds, name: Name) {
    && copy.spec.templateName == name && copy.spec.rest == origin.spec.rest
    && |copy.spec.tolerations| == |origin.spec.tolerations| + 1
    && (forall i :: 0 <= i < |origin.spec.tolerations| ==> copy.spec.tolerations[i] == origin.spec.tolerations[i])
    && copy.spec.tolerations[|origin.spec.tolerations|] == Toleration("Equal", "NoSchedule", "dedicated", c.role)
    && copy.spec.nodeSelector.Keys == {"node-role.kubernetes.io/" + c.role}
    && copy.spec.nodeSelector["node-role.kubernetes.io/" + c.role] == ""
  }

  /** After a complete synchronisation the origin of every entry was there, and its copy is, with the owner labels unless it
      was there before with the same spec. */
  lemma CopiesAreMade(c: Context, s: Sets, s': Sets, spec: seq<InfraDaemonSet>, status: seq<InfraDaemonSet>,
                      d: InfraDaemonSet)
    requires Complete(c, s, s', spec, status) && d in spec
    ensures var k := InfraDaemonSet(d.namespace, d.name + "-" + c.role);
      && d in s && k in s' && IsCopy(c, s[d], s'[k], k.name)
      && (s'[k].labels == c.labels || (k in s && s'[k] == s[k]))
  {
    var k := Derived(c, d);
    assert Copies(c, spec, k) && KeyDone(c, s, s', spec, status, k);
    var e :| e in spec && e in s && k == Derived(c, e) && k in s' && s'[k] == Wanted(c, s, e);
    DerivedIsInjective(c, d, e);
  }

  // ----- The operation --------------------------------------------------------------------------------

  datatype DsError = OriginNotFound | Refused

  /** The daemonset API. Unless it is reliable, any call may fail, and a write that reports an error may have
      taken effect all the same. */
  class DaemonSetClient {
    var sets: Sets
    var writes: nat
    const reliable: bool

    constructor (s: Sets, reliable: bool)
      ensures sets == s && writes == 0 && this.reliable == reliable
    {
      sets, writes := s, 0;
      this.reliable := reliable;
    }

    method Answers() returns (ok: bool)
      ensures reliable ==> ok
    {
      ok := true;
      if !reliable { ok := *; }
    }

    method Put(k: InfraDaemonSet, ds: Ds) returns (ok: bool)
      modifies this
      ensures ok ==> sets == old(sets)[k := ds]
      ensures sets == old(sets) || sets == old(sets)[k := ds]
      ensures reliable ==> ok
    {
      ok := Answers();
      var lands: bool := *;
      if ok || lands { sets, writes := sets[k := ds], writes + 1; }
    }

    /** Deleting what is not there is no error. */
    method Delete(k: InfraDaemonSet) returns (ok: bool)
      modifies this
      ensures ok ==> sets == old(sets) - {k}
      ensures sets == old(sets) || sets == old(sets) - {k}
      ensures k !in old(sets) ==> writes == old(writes)
      ensures reliable ==> ok
    {
      ok := Answers();
      var lands: bool := *;
      if (ok || lands) && k in sets { sets, writes := sets - {k}, writes + 1; }
    }
  }

  predicate OriginsThere(s: Sets, spec: seq<InfraDaemonSet>) { forall d <- spec :: d in s }

  /** Creates or updates the copy for entry i. */
  method EnsureCopy(client: DaemonSetClient, c: Context, spec: seq<InfraDaemonSet>, i: nat, ghost s0: Sets)
    returns (err: Option<DsError>)
    requires Disjoint(c, spec) && i < |spec| && Complete(c, s0, client.sets, spec[..i], [])
    modifies client
    ensures err.None? ==> Complete(c, s0, client.sets, spec[..i + 1], [])
    ensures client.sets == old(client.sets) || Complete(c, s0, client.sets, spec[..i + 1], [])
    ensures err.Some? && err.value.OriginNotFound? ==> spec[i] !in s0
    ensures client.reliable && err.Some? ==> err.value.OriginNotFound?
    ensures old(client.sets) == s0 && InPlace(c, s0, spec[i]) ==> client.sets == s0 && client.writes == old(client.writes)
  {
    var d := spec[i];
    var answered := client.Answers();
    if !answered { return Some(Refused); }
    ghost var s := client.sets;
    OriginUntouched(c, s0, s, spec, i);
    if d !in client.sets { return Some(OriginNotFound); }
    var k := Derived(c, d);
    var ds := NewDaemonSet(c, client.sets[d], k.name);
    OneMoreCopy(c, s0, s, spec, i);
    answered := client.Answers();
    if !answered { return Some(Refused); }
    if k !in client.sets || client.sets[k].spec != ds.spec {
      var ok := client.Put(k, ds);
      if !ok { return Some(Refused); }
    }
    err := None;
  }

  ghost predicate InPlace(c: Context, s: Sets, d: InfraDaemonSet) {
    d in s && Derived(c, d) in s && s[Derived(c, d)].spec == NewDaemonSet(c, s[d], Derived(c, d).name).spec
  }

  lemma OriginUntouched(c: Context, s0: Sets, s: Sets, spec: seq<InfraDaemonSet>, i: nat)
    requires Disjoint(c, spec) && i < |spec| && Complete(c, s0, s, spec[..i], [])
    ensures Same(s0, s, spec[i])
  {
    assert KeyDone(c, s0, s, spec[..i], [], spec[i]);
    forall e | e in spec[..i] ensures Derived(c, e) != spec[i] { assert e in spec && spec[i] in spec; }
  }

  lemma OneMoreCopy(c: Context, s0: Sets, s: Sets, spec: seq<InfraDaemonSet>, i: nat)
    requires Disjoint(c, spec) && i < |spec| && Complete(c, s0, s, spec[..i], []) && spec[i] in s
    ensures var k := Derived(c, spec[i]);
      var made := NewDaemonSet(c, s[spec[i]], k.name);
      if k in s && s[k].spec == made.spec then Complete(c, s0, s, spec[..i + 1], [])
      else Complete(c, s0, s[k := made], spec[..i + 1], [])
  {
    OriginUntouched(c, s0, s, spec, i);
    var d, k := spec[i], Derived(c, spec[i]);
    var made := NewDaemonSet(c, s[d], k.name);
    var s' := if k in s && s[k].spec == made.spec then s else s[k := made];
    var done := spec[..i + 1];
    assert done == spec[..i] + [d];
    assert KeyDone(c, s0, s, spec[..i], [], k);
    forall x ensures KeyDone(c, s0, s', done, [], x) {
      assert KeyDone(c, s0, s, spec[..i], [], x);
      if x != k {
        assert Copies(c, done, x) <==> Copies(c, spec[..i], x);
      } else if Copies(c, spec[..i], k) {
        var e :| e in spec[..i] && e in s0 && k == Derived(c, e) && k in s && s[k] == Wanted(c, s0, e);
        DerivedIsInjective(c, d, e);
        assert s[k].spec == made.spec;
        assert s'[k] == Wanted(c, s0, d);
      } else {
        assert Same(s0, s, k) && s'[k] == Wanted(c, s0, d);
      }
    }
  }

  method EnsureCopies(client: DaemonSetClient, c: Context, spec: seq<InfraDaemonSet>)
    returns (err: Option<DsError>, ghost upto: nat)
    requires Disjoint(c, spec)
    modifies client
    ensures upto <= |spec| && Complete(c, old(client.sets), client.sets, spec[..upto], [])
    ensures err.None? ==> upto == |spec|
    ensures err.Some? && err.value.OriginNotFound? ==> !OriginsThere(old(client.sets), spec)
    ensures client.reliable && err.Some? ==> err.value.OriginNotFound?
    ensures (forall d :: d in spec ==> InPlace(c, old(client.sets), d)) ==>
      client.sets == old(client.sets) && client.writes == old(client.writes)
  {
    ghost var s0 := client.sets;
    for i := 0 to |spec|
      invariant Complete(c, s0, client.sets, spec[..i], [])
      invariant (forall d :: d in spec ==> InPlace(c, s0, d)) ==> client.sets == s0 && client.writes == old(client.writes)
    {
      ghost var s := client.sets;
      err := EnsureCopy(client, c, spec, i, s0);
      if err.Some? {
        return err, if client.sets == s then i else i + 1;
      }
    }
    return None, |spec|;
  }

  /** Deletes the copy of status entry j if the entry is not in the spec any more. */
  method RemoveExtra(client: DaemonSetClient, c: Context, spec: seq<InfraDaemonSet>, status: seq<InfraDaemonSet>,
                     j: nat, ghost s0: Sets) returns (ok: bool)
    requires j < |status| && Complete(c, s0, client.sets, spec, status[..j])
    modifies client
    ensures ok ==> Complete(c, s0, client.sets, spec, status[..j + 1])
    ensures client.sets == old(client.sets) || Complete(c, s0, client.sets, spec, status[..j + 1])
    ensures client.reliable ==> ok
    ensures status[j] in spec || Derived(c, status[j]) !in old(client.sets) ==>
      client.sets == old(client.sets) && client.writes == old(client.writes)
  {
    ghost var s := client.sets;
    OneExtraLess(c, s0, s, spec, status, j);
    var existing := false;
    for i := 0 to |spec|
      invariant existing <==> status[j] in spec[..i]
    {
      if spec[i] == status[j] { existing := true; break; }
    }
    assert existing <==> status[j] in spec by { assert spec[..|spec|] == spec; }
    if existing { return true; }
    ok := client.Delete(Derived(c, status[j]));
    assert Derived(c, status[j]) !in s ==> s - {Derived(c, status[j])} == s;
  }

  lemma OneExtraLess(c: Context, s0: Sets, s: Sets, spec: seq<InfraDaemonSet>, status: seq<InfraDaemonSet>, j: nat)
    requires j < |status| && Complete(c, s0, s, spec, status[..j])
    ensures if status[j] in spec then Complete(c, s0, s, spec, status[..j + 1])
            else Complete(c, s0, s - {Derived(c, status[j])}, spec, status[..j + 1])
  {
    var d, k := status[j], Derived(c, status[j]);
    var gone := status[..j + 1];
    assert gone == status[..j] + [d];
    forall x ensures Extra(c, spec, gone, x) <==> Extra(c, spec, status[..j], x) || (d !in spec && x == k) {}
    if d !in spec && Copies(c, spec, k) {
      var e :| e in spec && k == Derived(c, e);
      DerivedIsInjective(c, d, e);
    }
    var s' := if d in spec then s else s - {k};
    forall x ensures KeyDone(c, s0, s', spec, gone, x) { assert KeyDone(c, s0, s, spec, status[..j], x); }
  }

  method RemoveExtras(client: DaemonSetClient, c: Context, spec: seq<InfraDaemonSet>, status: seq<InfraDaemonSet>,
                      ghost s0: Sets) returns (ok: bool, ghost upto: nat)
    requires Complete(c, s0, client.sets, spec, [])
    modifies client
    ensures upto <= |status| && Complete(c, s0, client.sets, spec, status[..upto])
    ensures ok ==> upto == |status|
    ensures client.reliable ==> ok
    ensures NothingExtra(c, old(client.sets), spec, status) ==>
      client.sets == old(client.sets) && client.writes == old(client.writes)
  {
    assert status[..0] == [];
    for j := 0 to |status|
      invariant Complete(c, s0, client.sets, spec, status[..j])
      invariant NothingExtra(c, old(client.sets), spec, status) ==>
        client.sets == old(client.sets) && client.writes == old(client.writes)
    {
      ghost var s := client.sets;
      ok := RemoveExtra(client, c, spec, status, j, s0);
      if !ok {
        return false, if client.sets == s then j else j + 1;
      }
    }
    return true, |status|;
  }

  ghost predicate NothingExtra(c: Context, s: Sets, spec: seq<InfraDaemonSet>, status: seq<InfraDaemonSet>) {
    forall d :: d in status ==> d in spec || Derived(c, d) !in s
  }

  /** A run without error is a complete synchronisation, a run cut off anywhere a partial one, and a run that finds
      everything in place writes nothing. */
  method EnsureInfraDaemonsets(client: DaemonSetClient, c: Context, spec: seq<InfraDaemonSet>,
                               status: seq<InfraDaemonSet>) returns (err: Option<DsError>)
    requires Disjoint(c, spec)
    modifies client
    ensures err.None? ==> Complete(c, old(client.sets), client.sets, spec, status)
    ensures Partial(c, old(client.sets), client.sets, spec, status)
    ensures err.Some? && err.value.OriginNotFound? ==> !OriginsThere(old(client.sets), spec)
    ensures client.reliable && OriginsThere(old(client.sets), spec) ==> err.None?
    ensures InSync(c, old(client.sets), spec, status) ==>
      client.sets == old(client.sets) && client.writes == old(client.writes)
  {
    ghost var s0, upto := client.sets, 0;
    forall k ensures KeyDone(c, s0, s0, [], [], k) {}
    err, upto := EnsureCopies(client, c, spec);
    PartialFrom(c, s0, client.sets, spec, status, upto, 0);
    if err.Some? { return; }
    assert spec[..|spec|] == spec;
    var ok;
    ok, upto := RemoveExtras(client, c, spec, status, s0);
    PartialFrom(c, s0, client.sets, spec, status, |spec|, upto);
    assert status[..|status|] == status;
    err := if ok then None else Some(Refused);
  }

  ghost predicate InSync(c: Context, s: Sets, spec: seq<InfraDaemonSet>, status: seq<InfraDaemonSet>) {
    (forall d :: d in spec ==> InPlace(c, s, d)) && NothingExtra(c, s, spec, status)
  }

  lemma PartialFrom(c: Context, s0: Sets, s: Sets, spec: seq<InfraDaemonSet>, status: seq<InfraDaemonSet>, i: nat,
                    j: nat)
    requires i <= |spec| && j <= |status| && (j > 0 ==> i == |spec|)
    requires Complete(c, s0, s, spec[..i], status[..j])
    ensures Partial(c, s0, s, spec, status)
  {
    assert spec[..|spec|] == spec;
    forall k ensures Same(s0, s, k) || KeyDone(c, s0, s, spec, status, k) {
      assert KeyDone(c, s0, s, spec[..i], status[..j], k);
      if Copies(c, spec[..i], k) {
        assert Copies(c, spec, k);
      } else if Extra(c, spec[..i], status[..j], k) {
        assert Extra(c, spec, status, k);
      }
    }
  }

  // ----- What it amounts to ---------------------------------------------------------------------------

  /** The operator's copies are exactly those of the entries of the list. */
  ghost predicate Matches(c: Context, s: Sets, list: seq<InfraDaemonSet>) {
    forall k :: (k in s && s[k].labels == c.labels) <==> Copies(c, list, k)
  }

  /** REFINEMENT OF THE FROM-SCRATCH RESULT. If the operator's copies are those of the status, then a complete
      synchronisation leaves exactly one copy for each entry of the spec, equal to what would be made of its
      origin now, and no other. */
  lemma CompleteIsFromScratch(c: Context, s: Sets, s': Sets, spec: seq<InfraDaemonSet>, status: seq<InfraDaemonSet>)
    requires Complete(c, s, s', spec, status) && Matches(c, s, status)
    requires Disjoint(c, spec + status) && NoSquatters(c, s, spec)
    ensures Matches(c, s', spec)
    ensures forall d :: d in spec ==>
      d in s && d in s' && s'[d] == s[d] && Derived(c, d) in s'
      && s'[Derived(c, d)] == NewDaemonSet(c, s'[d], Derived(c, d).name)
  {
    forall d | d in spec
      ensures d in s' && Same(s, s', d) && Derived(c, d) in s'
      ensures s'[Derived(c, d)] == NewDaemonSet(c, s[d], Derived(c, d).name)
    {
      CopyIsWanted(c, s, s', spec, status, d);
    }
    forall k ensures (k in s' && s'[k].labels == c.labels) <==> Copies(c, spec, k) {
      assert KeyDone(c, s, s', spec, status, k);
      if !Copies(c, spec, k) && !Extra(c, spec, status, k) { assert !Copies(c, status, k); }
    }
  }

  /** A daemonset that sits under the name of a copy without the owner labels will not be taken for an up-to-date
      copy. */
  ghost predicate NoSquatters(c: Context, s: Sets, list: seq<InfraDaemonSet>) {
    forall d :: d in list && InPlace(c, s, d) ==> s[Derived(c, d)].labels == c.labels
  }

  /** Every copy there is belongs to an entry of one of the lists. */
  ghost predicate NoStrays(c: Context, s: Sets, spec: seq<InfraDaemonSet>, status: seq<InfraDaemonSet>) {
    forall k :: k in s && s[k].labels == c.labels ==> Copies(c, status, k) || Copies(c, spec, k)
  }

  lemma CopyIsWanted(c: Context, s: Sets, s': Sets, spec: seq<InfraDaemonSet>, status: seq<InfraDaemonSet>,
                     d: InfraDaemonSet)
    requires Complete(c, s, s', spec, status) && d in spec && Disjoint(c, spec + status)
    ensures d in s && Same(s, s', d) && Derived(c, d) in s' && s'[Derived(c, d)] == Wanted(c, s, d)
  {
    var k := Derived(c, d);
    assert KeyDone(c, s, s', spec, status, k) && KeyDone(c, s, s', spec, status, d);
    assert Copies(c, spec, k);
    var e :| e in spec && e in s && k == Derived(c, e) && k in s' && s'[k] == Wanted(c, s, e);
    DerivedIsInjective(c, d, e);
    OriginIsNoCopy(c, spec, status, d);
  }

  lemma OriginIsNoCopy(c: Context, spec: seq<InfraDaemonSet>, status: seq<InfraDaemonSet>, d: InfraDaemonSet)
    requires Disjoint(c, spec + status) && d in spec
    ensures !Copies(c, spec, d) && !Extra(c, spec, status, d)
  {
    forall e | e in spec || e in status ensures Derived(c, e) != d { assert e in spec + status && d in spec + status; }
  }

  /** A repeat run after a complete one finds everything in place. */
  lemma RepeatFindsAllInPlace(c: Context, s: Sets, s': Sets, spec: seq<InfraDaemonSet>, status: seq<InfraDaemonSet>)
    requires Complete(c, s, s', spec, status) && Disjoint(c, spec + status)
    ensures InSync(c, s', spec, spec) && InSync(c, s', spec, status)
  {
    forall d | d in spec ensures InPlace(c, s', d) {
      var k := Derived(c, d);
      assert KeyDone(c, s, s', spec, status, k) && KeyDone(c, s, s', spec, status, d);
      assert Copies(c, spec, k);
      var e :| e in spec && e in s && k == Derived(c, e) && k in s' && s'[k] == Wanted(c, s, e);
      DerivedIsInjective(c, d, e);
      OriginIsNoCopy(c, spec, status, d);
    }
    forall d | d in status && d !in spec ensures Derived(c, d) !in s' {
      var k := Derived(c, d);
      assert KeyDone(c, s, s', spec, status, k) && Extra(c, spec, status, k);
      if Copies(c, spec, k) {
        var e :| e in spec && k == Derived(c, e);
        DerivedIsInjective(c, d, e);
      }
    }
  }

  /** A retry after a run that was cut off ends where the run would have ended. */
  lemma RetryCompletes(c: Context, s0: Sets, s1: Sets, s2: Sets, spec: seq<InfraDaemonSet>,
                       status: seq<InfraDaemonSet>)
    requires Partial(c, s0, s1, spec, status) && Complete(c, s1, s2, spec, status) && Disjoint(c, spec + status)
    ensures Complete(c, s0, s2, spec, status)
  {
    forall k ensures KeyDone(c, s0, s2, spec, status, k) {
      assert KeyDone(c, s1, s2, spec, status, k) && (Same(s0, s1, k) || KeyDone(c, s0, s1, spec, status, k));
      if Copies(c, spec, k) {
        var d :| d in spec && d in s1 && k == Derived(c, d) && k in s2 && s2[k] == Wanted(c, s1, d);
        OriginIsNoCopy(c, spec, status, d);
        assert Same(s0, s1, d) || KeyDone(c, s0, s1, spec, status, d);
        if !Same(s0, s1, k) {
          var e :| e in spec && e in s0 && k == Derived(c, e) && k in s1 && s1[k] == Wanted(c, s0, e);
          DerivedIsInjective(c, d, e);
        }
        assert s2[k] == Wanted(c, s0, d);
      }
    }
  }

  /** And a complete synchronisation can only end in one way. */
  lemma CompleteIsUnique(c: Context, s: Sets, s1: Sets, s2: Sets, spec: seq<InfraDaemonSet>,
                         status: seq<InfraDaemonSet>)
    requires Complete(c, s, s1, spec, status) && Complete(c, s, s2, spec, status)
    ensures s1 == s2
  {
    forall k ensures Same(s1, s2, k) {
      assert KeyDone(c, s, s1, spec, status, k) && KeyDone(c, s, s2, spec, status, k);
      if Copies(c, spec, k) {
        var d :| d in spec && d in s && k == Derived(c, d) && k in s1 && s1[k] == Wanted(c, s, d);
        var e :| e in spec && e in s && k == Derived(c, e) && k in s2 && s2[k] == Wanted(c, s, e);
        DerivedIsInjective(c, d, e);
      }
    }
    assert s1.Keys == s2.Keys by {
      forall k ensures k in s1 <==> k in s2 { assert Same(s1, s2, k); }
    }
    forall k | k in s1 ensures s1[k] == s2[k] { assert Same(s1, s2, k); }
  }

  /** A run that was cut off leaves only copies of entries in the status or the spec. */
  lemma CrashStaysWithin(c: Context, s: Sets, s': Sets, spec: seq<InfraDaemonSet>, status: seq<InfraDaemonSet>)
    requires Partial(c, s, s', spec, status) && Matches(c, s, status)
    ensures forall k :: k in s' && s'[k].labels == c.labels ==> Copies(c, status + spec, k)
  {
    forall k | k in s' && s'[k].labels == c.labels ensures Copies(c, status + spec, k) {
      assert Same(s, s', k) || KeyDone(c, s, s', spec, status, k);
      if Copies(c, spec, k) {
        var d :| d in spec && k == Derived(c, d);
        assert d in status + spec;
      } else {
        assert Copies(c, status, k);
        var d :| d in status && k == Derived(c, d);
        assert d in status + spec;
      }
    }
  }

  /** WHEN A COMPLETE RUN IS RIGHT, exactly: if and only if every copy that was there when it began belongs to
      an entry of the status or of the spec, and nobody else's daemonset passes for a copy. The first part fails
      after a crash when an edit drops an entry the cut-off run had made a copy for: that copy stays behind. */
  lemma RightExactlyWhen(c: Context, s: Sets, s': Sets, spec: seq<InfraDaemonSet>, status: seq<InfraDaemonSet>)
    requires Complete(c, s, s', spec, status) && Disjoint(c, spec + status)
    ensures Matches(c, s', spec) <==> NoStrays(c, s, spec, status) && NoSquatters(c, s, spec)
  {
    forall d | d in spec
      ensures Derived(c, d) in s' && (s'[Derived(c, d)].labels == c.labels <==>
                                        (InPlace(c, s, d) ==> s[Derived(c, d)].labels == c.labels))
    {
      CopyIsWanted(c, s, s', spec, status, d);
    }
    forall k | !Copies(c, spec, k)
      ensures (k in s' && s'[k].labels == c.labels) <==> (k in s && s[k].labels == c.labels && !Copies(c, status, k))
    {
      assert KeyDone(c, s, s', spec, status, k);
      assert Extra(c, spec, status, k) <==> Copies(c, status, k) by {
        if Copies(c, status, k) {
          var d :| d in status && k == Derived(c, d);
          assert d !in spec;
        }
      }
    }
    if NoSquatters(c, s, spec) {
      forall k | Copies(c, spec, k) ensures k in s' && s'[k].labels == c.labels {
        var d :| d in spec && k == Derived(c, d);
      }
    } else {
      var d :| d in spec && InPlace(c, s, d) && s[Derived(c, d)].labels != c.labels;
      assert Copies(c, spec, Derived(c, d));
    }
  }

  /** The leak, with names: a run with spec [b] makes b's copy and is cut off; the spec is then edited to [].
      The next complete run, and any after it, leave b's copy in place. */
  lemma CrashAndEditLeaks(c: Context, origin: Ds)
    requires origin.labels != c.labels
    ensures var b := InfraDaemonSet("openshift-multus", "multus");
      var s0: Sets := map[b := origin];
      var s1 := s0[Derived(c, b) := NewDaemonSet(c, origin, b.name + "-" + c.role)];
      && Matches(c, s0, []) && Partial(c, s0, s1, [b], []) && Complete(c, s1, s1, [], [])
      && !Matches(c, s1, [])
  {
    var b := InfraDaemonSet("openshift-multus", "multus");
    var s0: Sets := map[b := origin];
    var k := Derived(c, b);
    assert |k.name| > |b.name|;
    var s1 := s0[k := NewDaemonSet(c, origin, k.name)];
    forall x ensures Same(s0, s1, x) || KeyDone(c, s0, s1, [b], [], x) {
      if x == k { assert b in [b] && Copies(c, [b], k); }
    }
    assert k in s1 && s1[k].labels == c.labels && !Copies(c, [], k);
  }
}
