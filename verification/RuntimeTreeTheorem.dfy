/** Restoring a whole envelope: success means a tree, trees restore, and flattening is undone. */
module RuntimeTreeTheorem {
  import opened Wrappers
  import opened Sequences
  import opened RuntimeTree
  import opened RuntimeTreeProofs

  // ------------------------------------------------------------------------------------------
  // Rooted records
  // ------------------------------------------------------------------------------------------

  /** The owner links of `id` lead to `root` in at most `n` steps. */
  ghost predicate LeadsTo(records: seq<Record>, root: Id, id: Id, n: nat)
    decreases n
  {
    id == root || (n > 0 && exists r :: r in records && r.id == id && r.relation.Owned? && LeadsTo(records, root, r.relation.owner, n - 1))
  }

  /** Owner links of all records lead to the root. */
  ghost predicate Rooted(records: seq<Record>, root: Id) {
    forall r :: r in records ==> Led(records, root, r.id)
  }

  ghost predicate Led(records: seq<Record>, root: Id, id: Id) {
    exists n: nat :: LeadsTo(records, root, id, n)
  }

  /** Whatever leads to the root is in the tree. */
  lemma {:induction false} LedIsTaken(all: seq<Record>, wire: Record, records: seq<Record>, t: Tree, rest: seq<Record>, id: Id, n: nat)
    requires Takes(wire, records, t, rest) && LeadsTo(all, wire.id, id, n)
    requires forall r :: r in all ==> r in records || r.id == wire.id
    ensures id in Whole(t)
    decreases n
  {
    if id != wire.id {
      var r :| r in all && r.id == id && r.relation.Owned? && LeadsTo(all, wire.id, r.relation.owner, n - 1);
      LedIsTaken(all, wire, records, t, rest, r.relation.owner, n - 1);
      MinusMember(records, Below(t), r);
    }
  }

  /** Down a linked tree, owner links lead back up. */
  lemma {:induction false} TreeLeads(all: seq<Record>, root: Id, t: Tree, n: nat, id: Id)
    requires Linked(t) && LeadsTo(all, root, t.record.id, n) && id in Whole(t)
    requires forall r :: r in Flatten(t) ==> r in all
    ensures Led(all, root, id)
    decreases t
  {
    if id != t.record.id {
      if id in BelowAll(t.components) {
        BelowMember(t.components, id);
        var i :| 0 <= i < |t.components| && id in Whole(t.components[i]);
        FlattenHas(t.components, i);
        ChildLeads(all, root, t, t.components[i], n);
        TreeLeads(all, root, t.components[i], n + 1, id);
      } else {
        BelowMember(t.spawned, id);
        var i :| 0 <= i < |t.spawned| && id in Whole(t.spawned[i]);
        FlattenHas(t.spawned, i);
        ChildLeads(all, root, t, t.spawned[i], n);
        TreeLeads(all, root, t.spawned[i], n + 1, id);
      }
    }
  }

  lemma ChildLeads(all: seq<Record>, root: Id, t: Tree, child: Tree, n: nat)
    requires OwnedBy(child.record, t.record.id) && LeadsTo(all, root, t.record.id, n) && child.record in all
    ensures LeadsTo(all, root, child.record.id, n + 1)
  {
  }

  lemma {:induction false} FlattenHas(ts: seq<Tree>, i: nat)
    requires i < |ts|
    ensures forall r :: r in Flatten(ts[i]) ==> r in FlattenAll(ts)
    ensures ts[i].record in Flatten(ts[i])
  {
    if i > 0 {
      FlattenHas(ts[1..], i - 1);
    }
  }

  // ------------------------------------------------------------------------------------------
  // Success means a tree
  // ------------------------------------------------------------------------------------------

  lemma WithoutRoot(records: seq<Record>, i: nat)
    requires DistinctIds(records) && i < |records|
    ensures var fewer := records[..i] + records[i + 1..];
            && DistinctIds(fewer) && records[i].id !in Ids(fewer)
            && multiset(fewer) + multiset{records[i]} == multiset(records)
            && (forall r :: r in records <==> r in fewer || r == records[i])
  {
    TakeOut(records, i);
    var fewer := records[..i] + records[i + 1..];
    assert records == records[..i] + [records[i]] + records[i + 1..];
  }

  /**
   If an envelope restores, its owner links all lead to the root, and the tree holds every
   record exactly once, each child under the owner that it names.
   */
  lemma SuccessIsTree(c: Checks, root: Id, records: seq<Record>)
    requires DistinctIds(records) && RestoreAll(c, root, records).Ok?
    ensures var t := RestoreAll(c, root, records).value;
            && t.record.id == root && t.record.relation.Root? && Linked(t)
            && multiset(Flatten(t)) == multiset(records)
            && Rooted(records, root)
  {
    hide Restore, DistinctIds, Linked;
    var i := Locate(records, root);
    var wire, fewer := records[i], records[..i] + records[i + 1..];
    WithoutRoot(records, i);
    RestoreTakes(c, wire, fewer);
    var t := Restore(c, wire, fewer).value.tree;
    assert Takes(wire, fewer, t, []);
    assert multiset(Flatten(t)) == multiset(records);
    AllRooted(records, root, wire, fewer, t);
  }

  lemma AllRooted(records: seq<Record>, root: Id, wire: Record, fewer: seq<Record>, t: Tree)
    requires Takes(wire, fewer, t, []) && wire.id == root && multiset(Flatten(t)) == multiset(records)
    requires forall r :: r in records <==> r in fewer || r == wire
    ensures Rooted(records, root)
  {
    hide Linked, LeadsTo, Flatten;
    forall r | r in Flatten(t) ensures r in records {
      assert r in multiset(Flatten(t));
      assert r in multiset(records);
    }
    RootLeads(records, root);
    forall r | r in records ensures Led(records, root, r.id) {
      if r in fewer {
        MinusMember(fewer, Below(t), r);
      }
      assert r.id in Whole(t);
      TreeLeads(records, root, t, 0, r.id);
    }
  }

  lemma RootLeads(records: seq<Record>, root: Id)
    ensures LeadsTo(records, root, root, 0)
  {
  }

  // ------------------------------------------------------------------------------------------
  // Trees restore
  // ------------------------------------------------------------------------------------------

  /** All records pass their own check, and every child fits its owner. */
  ghost predicate AllPass(c: Checks, records: seq<Record>) {
    && (forall r :: r in records ==> c.restorable(r))
    && (forall o, r :: o in records && r in records && OwnedBy(r, o.id) ==> c.fits(o, r))
  }

  lemma {:induction false} ChildrenSucceed(c: Checks, all: seq<Record>, owner: Record, ids: seq<Id>, records: seq<Record>)
    requires AllPass(c, all) && owner in all && forall r :: r in records ==> r in all
    requires DistinctIds(records) && owner.id !in Ids(records) && Lists(records, owner.id, ids)
    ensures RestoreChildren(c, owner, ids, records).Ok?
    decreases |records|, 0, |ids|
  {
    hide Restore, Takes, Lists, DistinctIds;
    if ids != [] {
      FirstChild(records, owner, ids);
      var record := records[Locate(records, ids[0])];
      var fewer := Minus(records, {record.id});
      assert |fewer| < |records|;
      forall r | r in fewer ensures r in all {
        MinusMember(records, {record.id}, r);
      }
      RestoreSucceeds(c, all, record, fewer);
      RestoreTakes(c, record, fewer);
      var child := Restore(c, record, fewer).value;
      TakesRecord(record, fewer, child.tree, child.rest);
      OthersRemain(records, owner, ids, child.tree, child.rest);
      forall r | r in child.rest ensures r in all {
        MinusMember(records, Whole(child.tree), r);
      }
      ChildrenSucceed(c, all, owner, ids[1..], child.rest);
    }
  }

  lemma {:induction false} RestoreSucceeds(c: Checks, all: seq<Record>, wire: Record, records: seq<Record>)
    requires AllPass(c, all) && wire in all && forall r :: r in records ==> r in all
    requires DistinctIds(records) && wire.id !in Ids(records)
    ensures Restore(c, wire, records).Ok?
    decreases |records|, 1, 0
  {
    ChildIdsList(records, wire.id);
    ChildrenSucceed(c, all, wire, ChildIds(records, wire.id), records);
  }

  /** An envelope whose checks pass restores if and only if its owner links all lead to its root record. */
  lemma RestoresIffRooted(c: Checks, root: Id, records: seq<Record>)
    requires DistinctIds(records) && AllPass(c, records)
    ensures RestoreAll(c, root, records).Ok? <==>
              (exists r :: r in records && r.id == root && r.relation.Root?) && Rooted(records, root)
  {
    hide Restore, DistinctIds, AllPass;
    var i := Locate(records, root);
    if RestoreAll(c, root, records).Ok? {
      SuccessIsTree(c, root, records);
      assert records[i] in records;
    }
    if (exists r :: r in records && r.id == root && r.relation.Root?) && Rooted(records, root) {
      var r :| r in records && r.id == root && r.relation.Root?;
      LocateIs(records, r);
      var fewer := records[..i] + records[i + 1..];
      WithoutRoot(records, i);
      RestoreSucceeds(c, records, r, fewer);
      RestoreTakes(c, r, fewer);
      var restored := Restore(c, r, fewer).value;
      NothingLeft(records, r, fewer, restored.tree, restored.rest);
    }
  }

  lemma NothingLeft(records: seq<Record>, wire: Record, fewer: seq<Record>, t: Tree, rest: seq<Record>)
    requires Takes(wire, fewer, t, rest) && Rooted(records, wire.id) && wire.id !in Ids(fewer)
    requires forall r :: r in records <==> r in fewer || r == wire
    ensures rest == []
  {
    hide Linked, Flatten, LeadsTo;
    if rest != [] {
      var r := rest[0];
      assert r in rest;
      MinusMember(fewer, Below(t), r);
      assert Led(records, wire.id, r.id);
      var n: nat :| LeadsTo(records, wire.id, r.id, n);
      LedIsTaken(records, wire, fewer, t, rest, r.id, n);
    }
  }

  /** The error for a record that vanished between listing and removal is never raised. */
  lemma NeverDisappears(c: Checks, root: Id, records: seq<Record>)
    requires DistinctIds(records)
    ensures RestoreAll(c, root, records) != Err(Disappeared)
  {
    hide Restore, DistinctIds;
    var i := Locate(records, root);
    if i < |records| {
      WithoutRoot(records, i);
      RestoreTakes(c, records[i], records[..i] + records[i + 1..]);
    }
  }

  // ------------------------------------------------------------------------------------------
  // Sorting is unique
  // ------------------------------------------------------------------------------------------

  lemma {:induction false} InsertBack(us: seq<Tree>, k: nat)
    requires Sorted(us) && k < |us|
    ensures Insert(us[..k] + us[k + 1..], us[k]) == us
  {
    var less := us[..k] + us[k + 1..];
    if k == 0 {
      assert less == us[1..];
      assert us == [us[0]] + us[1..];
    } else {
      assert Earlier(PlaceOf(us[0]), PlaceOf(us[k]));
      assert less[0] == us[0];
      assert less[1..] == us[1..][..k - 1] + us[1..][k..];
      assert Sorted(us[1..]);
      InsertBack(us[1..], k - 1);
      assert us == [us[0]] + us[1..];
    }
  }

  lemma TakeOutTree(us: seq<Tree>, k: nat)
    requires k < |us|
    ensures multiset(us) == multiset(us[..k] + us[k + 1..]) + multiset{us[k]}
    ensures Sorted(us) ==> Sorted(us[..k] + us[k + 1..])
  {
    assert us == us[..k] + [us[k]] + us[k + 1..];
    var less := us[..k] + us[k + 1..];
    assert forall i :: 0 <= i < |less| ==> less[i] == us[if i < k then i else i + 1];
  }

  lemma Cancel(a: multiset<Tree>, b: multiset<Tree>, x: Tree)
    requires a + multiset{x} == b + multiset{x}
    ensures a == b
  {
    forall y ensures a[y] == b[y] {
      assert (a + multiset{x})[y] == (b + multiset{x})[y];
    }
  }

  /** Sorting any arrangement of a strictly ordered list gives that list. */
  lemma {:induction false} SortIs(ts: seq<Tree>, us: seq<Tree>)
    requires Sorted(us) && multiset(ts) == multiset(us)
    ensures Sort(ts) == us
    decreases |ts|
  {
    hide Sorted, Insert;
    if ts == [] {
      assert |us| == |multiset(us)| == 0;
    } else {
      var init, x := ts[..|ts| - 1], ts[|ts| - 1];
      assert ts == init + [x];
      assert x in multiset(us);
      var k :| 0 <= k < |us| && us[k] == x;
      TakeOutTree(us, k);
      Cancel(multiset(init), multiset(us[..k] + us[k + 1..]), x);
      SortIs(init, us[..k] + us[k + 1..]);
      InsertBack(us, k);
    }
  }

  // ------------------------------------------------------------------------------------------
  // Flattening is undone
  // ------------------------------------------------------------------------------------------

  /** Children in canonical order, under the owner they name, in the list for their kind. */
  ghost predicate Canonical(t: Tree) {
    && Sorted(t.components) && Sorted(t.spawned)
    && (forall i :: 0 <= i < |t.components| ==>
          Canonical(t.components[i]) && OwnedBy(t.components[i].record, t.record.id) && t.components[i].record.relation.place.Component?)
    && (forall i :: 0 <= i < |t.spawned| ==>
          Canonical(t.spawned[i]) && OwnedBy(t.spawned[i].record, t.record.id) && !t.spawned[i].record.relation.place.Component?)
  }

  ghost predicate IsKid(t: Tree, k: Tree) {
    k in t.components || k in t.spawned
  }

  /** A record of a tree is that of its root, or lies in one of its kids. */
  lemma FlattenKids(t: Tree, r: Record)
    ensures r in Flatten(t) <==> r == t.record || exists k :: IsKid(t, k) && r in Flatten(k)
  {
    FlattenMember(t.components, r);
    FlattenMember(t.spawned, r);
  }

  lemma {:induction false} FlattenMember(ts: seq<Tree>, r: Record)
    ensures r in FlattenAll(ts) <==> exists k :: k in ts && r in Flatten(k)
  {
    hide Flatten;
    if ts != [] {
      FlattenMember(ts[1..], r);
      if k :| k in ts && r in Flatten(k) {
        assert k == ts[0] || k in ts[1..];
      }
    }
  }

  /** The ids of a tree are those of its records. */
  lemma {:induction false} WholeIs(t: Tree, id: Id)
    ensures id in Whole(t) <==> exists r :: r in Flatten(t) && r.id == id
    decreases t, 1
  {
    WholeAll(t.components, id);
    WholeAll(t.spawned, id);
    if id in Whole(t) && id != t.record.id {
      if id in BelowAll(t.components) {
        var r :| r in FlattenAll(t.components) && r.id == id;
        assert r in Flatten(t);
      } else {
        assert id in Below(t);
        assert id in BelowAll(t.spawned);
        var r :| r in FlattenAll(t.spawned) && r.id == id;
        assert r in Flatten(t);
      }
    }
    assert t.record in Flatten(t);
  }

  lemma {:induction false} WholeAll(ts: seq<Tree>, id: Id)
    ensures id in BelowAll(ts) <==> exists r :: r in FlattenAll(ts) && r.id == id
    decreases ts
  {
    hide Flatten, Whole;
    if ts != [] {
      WholeIs(ts[0], id);
      WholeAll(ts[1..], id);
      if r :| r in FlattenAll(ts) && r.id == id {
        assert r in Flatten(ts[0]) || r in FlattenAll(ts[1..]);
      }
      if r :| r in Flatten(ts[0]) && r.id == id {
        assert r in FlattenAll(ts);
      }
      if r :| r in FlattenAll(ts[1..]) && r.id == id {
        assert r in FlattenAll(ts);
      }
    }
  }

  /** Below the root, owners lie in the same tree. */
  lemma {:induction false} OwnerInside(t: Tree, r: Record)
    requires Canonical(t) && r in Flatten(t) && r != t.record
    ensures r.relation.Owned? && r.relation.owner in Whole(t)
    decreases t
  {
    FlattenKids(t, r);
    var k :| IsKid(t, k) && r in Flatten(k);
    KidFacts(t, k);
    if r != k.record {
      OwnerInside(k, r);
    }
  }

  lemma KidFacts(t: Tree, k: Tree)
    requires IsKid(t, k)
    ensures Whole(k) <= Below(t)
    ensures Canonical(t) ==> Canonical(k) && OwnedBy(k.record, t.record.id) && (k.record.relation.place.Component? <==> k in t.components)
    ensures forall r :: r in Flatten(k) ==> r in Flatten(t)
  {
    if k in t.components {
      var i :| 0 <= i < |t.components| && t.components[i] == k;
      FlattenHas(t.components, i);
      forall id | id in Whole(k) ensures id in BelowAll(t.components) {
        BelowMember(t.components, id);
      }
    }
    if k in t.spawned {
      var i :| 0 <= i < |t.spawned| && t.spawned[i] == k;
      FlattenHas(t.spawned, i);
      forall id | id in Whole(k) ensures id in BelowAll(t.spawned) {
        BelowMember(t.spawned, id);
      }
    }
  }

  // ------------------------------------------------------------------------------------------
  // Distinct ids
  // ------------------------------------------------------------------------------------------

  ghost predicate Disjoint(a: seq<Record>, b: seq<Record>) {
    forall r, s :: r in a && s in b ==> r.id != s.id
  }

  lemma DistinctConcat(a: seq<Record>, b: seq<Record>)
    requires DistinctIds(a + b)
    ensures DistinctIds(a) && DistinctIds(b) && Disjoint(a, b)
  {
    var all := a + b;
    assert forall i :: 0 <= i < |a| ==> all[i] == a[i];
    assert forall i :: 0 <= i < |b| ==> all[|a| + i] == b[i];
    forall r, s | r in a && s in b ensures r.id != s.id {
      var i :| 0 <= i < |a| && a[i] == r;
      var j :| 0 <= j < |b| && b[j] == s;
      assert all[i].id != all[|a| + j].id;
    }
  }

  lemma {:induction false} DistinctAll(ts: seq<Tree>, k: Tree)
    requires DistinctIds(FlattenAll(ts)) && k in ts
    ensures DistinctIds(Flatten(k))
    ensures forall l :: l in ts && l != k ==> Disjoint(Flatten(k), Flatten(l))
  {
    hide Flatten, DistinctIds;
    DistinctConcat(Flatten(ts[0]), FlattenAll(ts[1..]));
    forall l | l in ts && l != k ensures Disjoint(Flatten(k), Flatten(l)) {
      if k == ts[0] {
        assert l in ts[1..];
        Inside(ts[1..], l);
      } else if l == ts[0] {
        Inside(ts[1..], k);
      } else {
        DistinctAll(ts[1..], k);
      }
    }
    if k != ts[0] {
      DistinctAll(ts[1..], k);
    }
  }

  lemma Inside(ts: seq<Tree>, k: Tree)
    requires k in ts
    ensures forall r :: r in Flatten(k) ==> r in FlattenAll(ts)
  {
    var i :| 0 <= i < |ts| && ts[i] == k;
    FlattenHas(ts, i);
  }

  /** With distinct ids, kids share no id with each other or with their owner. */
  lemma Apart(t: Tree, k: Tree)
    requires DistinctIds(Flatten(t)) && IsKid(t, k) && Canonical(t)
    ensures DistinctIds(Flatten(k)) && t.record.id !in Whole(k)
    ensures forall l :: IsKid(t, l) && l != k ==> Disjoint(Flatten(k), Flatten(l)) && Whole(k) !! Whole(l)
  {
    hide Flatten, DistinctIds, Canonical, FlattenAll;
    var a, b := FlattenAll(t.components), FlattenAll(t.spawned);
    FlattenIs(t);
    DistinctConcat(a + b, [t.record]);
    DistinctConcat(a, b);
    KidsInside(t, k);
    if k in t.components {
      DistinctAll(t.components, k);
    } else {
      DistinctAll(t.spawned, k);
    }
    forall l | IsKid(t, l) && l != k ensures Disjoint(Flatten(k), Flatten(l)) && Whole(k) !! Whole(l) {
      KidsInside(t, l);
      if l in t.components && k !in t.components {
        DisjointKids(a, b, l, k);
      } else if k in t.components && l !in t.components {
        DisjointKids(a, b, k, l);
      } else if k !in t.components && l !in t.components {
        assert l in t.spawned && k in t.spawned;
      }
      DisjointWhole(k, l);
    }
    WholeIs(k, t.record.id);
  }

  lemma FlattenIs(t: Tree)
    ensures Flatten(t) == (FlattenAll(t.components) + FlattenAll(t.spawned)) + [t.record]
  {
  }

  lemma KidsInside(t: Tree, k: Tree)
    requires IsKid(t, k)
    ensures k in t.components ==> forall r :: r in Flatten(k) ==> r in FlattenAll(t.components)
    ensures k in t.spawned ==> forall r :: r in Flatten(k) ==> r in FlattenAll(t.spawned)
  {
    if k in t.components {
      Inside(t.components, k);
    }
    if k in t.spawned {
      Inside(t.spawned, k);
    }
  }

  lemma DisjointKids(a: seq<Record>, b: seq<Record>, k: Tree, l: Tree)
    requires Disjoint(a, b) && (forall r :: r in Flatten(k) ==> r in a) && (forall r :: r in Flatten(l) ==> r in b)
    ensures Disjoint(Flatten(k), Flatten(l)) && Disjoint(Flatten(l), Flatten(k))
  {
  }

  lemma DisjointWhole(k: Tree, l: Tree)
    requires Disjoint(Flatten(k), Flatten(l))
    ensures Whole(k) !! Whole(l)
  {
    hide Flatten, Whole;
    forall id ensures !(id in Whole(k) && id in Whole(l)) {
      WholeIs(k, id);
      WholeIs(l, id);
    }
  }

  // ------------------------------------------------------------------------------------------
  // Restoring the kids of a tree
  // ------------------------------------------------------------------------------------------

  /** The records hold what lies below `t`, and nothing else that names an owner in `t`. */
  ghost predicate Holds(records: seq<Record>, t: Tree) {
    && (forall r :: r in Flatten(t) && r != t.record ==> r in records)
    && (forall r :: r in records && r.relation.Owned? && r.relation.owner in Whole(t) ==> r in Flatten(t) && r != t.record)
  }

  /** The kid of `t` with the given id, wrapped in a list if it is of the given kind. */
  ghost function Pick(t: Tree, ids: seq<Id>, component: bool): seq<Tree>
    requires forall i :: 0 <= i < |ids| ==> HasKid(t, ids[i])
  {
    if ids == [] then []
    else
      var rest := Pick(t, ids[1..], component);
      var k := KidOf(t, ids[0]);
      if k.record.relation.Owned? && k.record.relation.place.Component? == component then [k] + rest else rest
  }

  ghost predicate HasKid(t: Tree, id: Id) {
    exists k :: IsKid(t, k) && k.record.id == id
  }

  ghost function KidOf(t: Tree, id: Id): (k: Tree)
    requires HasKid(t, id)
    ensures IsKid(t, k) && k.record.id == id
  {
    var k :| IsKid(t, k) && k.record.id == id;
    k
  }

  /** The ids in the kids with the given ids. */
  ghost function WholeOf(t: Tree, ids: seq<Id>): set<Id>
    requires forall i :: 0 <= i < |ids| ==> HasKid(t, ids[i])
  {
    if ids == [] then {} else Whole(KidOf(t, ids[0])) + WholeOf(t, ids[1..])
  }

  /** A kid's records are all there, once the records of other kids are gone. */
  lemma KidHeld(t: Tree, records: seq<Record>, gone: set<Id>, k: Tree)
    requires Canonical(t) && DistinctIds(Flatten(t)) && Holds(records, t) && IsKid(t, k) && Whole(k) !! gone
    ensures k.record in Minus(records, gone)
    ensures Holds(Minus(Minus(records, gone), {k.record.id}), k)
  {
    hide Flatten, DistinctIds, Canonical, Minus, Whole;
    var left := Minus(records, gone);
    var less := Minus(left, {k.record.id});
    KidFacts(t, k);
    WholeSplit(t);
    Apart(t, k);
    KidRecord(t, k);
    MinusMember(records, gone, k.record);
    forall r | r in Flatten(k) && r != k.record ensures r in less {
      InKid(t, k, r);
      MinusMember(records, gone, r);
      MinusMember(left, {k.record.id}, r);
    }
    forall r | r in less && r.relation.Owned? && r.relation.owner in Whole(k) ensures r in Flatten(k) && r != k.record {
      MinusMember(left, {k.record.id}, r);
      MinusMember(records, gone, r);
      OwnerOfKid(t, k, r);
    }
  }

  lemma KidRecord(t: Tree, k: Tree)
    requires Canonical(t) && DistinctIds(Flatten(t)) && IsKid(t, k)
    ensures k.record in Flatten(k) && k.record in Flatten(t) && k.record != t.record && k.record.id in Whole(k)
    ensures forall r :: r in Flatten(k) && r.id == k.record.id ==> r == k.record
  {
    KidFacts(t, k);
    Apart(t, k);
    assert k.record in Flatten(k);
    forall r | r in Flatten(k) && r.id == k.record.id ensures r == k.record {
      SameId(Flatten(k), r, k.record);
    }
  }

  lemma InKid(t: Tree, k: Tree, r: Record)
    requires Canonical(t) && DistinctIds(Flatten(t)) && IsKid(t, k) && r in Flatten(k)
    ensures r in Flatten(t) && r != t.record && r.id in Whole(k) && (r != k.record ==> r.id != k.record.id)
  {
    hide Flatten, DistinctIds, Canonical;
    KidFacts(t, k);
    Apart(t, k);
    KidRecord(t, k);
    WholeIs(k, r.id);
  }

  /** A record of the tree whose owner lies in a kid lies in that kid. */
  lemma OwnerOfKid(t: Tree, k: Tree, r: Record)
    requires Canonical(t) && DistinctIds(Flatten(t)) && IsKid(t, k) && r in Flatten(t) && r != t.record
    requires r.relation.Owned? && r.relation.owner in Whole(k)
    ensures r in Flatten(k) && r != k.record
  {
    hide Flatten, DistinctIds, Canonical;
    FlattenKids(t, r);
    var l :| IsKid(t, l) && r in Flatten(l);
    KidFacts(t, l);
    KidFacts(t, k);
    Apart(t, k);
    if r != l.record {
      OwnerInside(l, r);
    }
  }

  // ------------------------------------------------------------------------------------------
  // The round trip
  // ------------------------------------------------------------------------------------------

  /** One kid restores, and leaves the records outside of it. */
  lemma {:induction false} KidRestores(c: Checks, t: Tree, k: Tree, records: seq<Record>, gone: set<Id>)
    requires Canonical(t) && DistinctIds(Flatten(t)) && AllPass(c, Flatten(t)) && Holds(records, t) && DistinctIds(records)
    requires IsKid(t, k) && Whole(k) !! gone
    ensures var left := Minus(records, gone); var i := Locate(left, k.record.id);
            && i < |left| && left[i] == k.record && k.record.relation.Owned? && c.fits(t.record, k.record)
            && Restore(c, k.record, left[..i] + left[i + 1..]) == Ok(Restored(k, Minus(records, gone + Whole(k))))
    decreases t, 0, 0
  {
    hide Flatten, DistinctIds, Canonical, Minus, Whole, Holds, Restore, AllPass;
    KidFacts(t, k);
    Apart(t, k);
    KidHeld(t, records, gone, k);
    PassBelow(c, t, k);
    var left := Minus(records, gone);
    MinusDistinct(records, gone);
    LocateIs(left, k.record);
    RemoveAt(left, Locate(left, k.record.id));
    MinusDistinct(left, {k.record.id});
    Removed(left, k.record.id);
    RestoreFlattened(c, k, Minus(left, {k.record.id}));
    MinusTwice(left, {k.record.id}, Below(k));
    WholeSplit(k);
    MinusTwice(records, gone, Whole(k));
    Fits(c, t, k);
  }

  lemma {:induction false} KidsRestore(c: Checks, t: Tree, ids: seq<Id>, records: seq<Record>, gone: set<Id>)
    requires Canonical(t) && DistinctIds(Flatten(t)) && AllPass(c, Flatten(t)) && Holds(records, t) && DistinctIds(records)
    requires forall i :: 0 <= i < |ids| ==> HasKid(t, ids[i]) && Whole(KidOf(t, ids[i])) !! gone
    requires NoRepeats(ids)
    ensures RestoreChildren(c, t.record, ids, Minus(records, gone))
            == Ok(Children(Pick(t, ids, true), Pick(t, ids, false), Minus(records, gone + WholeOf(t, ids))))
    decreases t, 0, |ids|
  {
    hide Flatten, DistinctIds, Canonical, Minus, Whole, Holds, Restore, AllPass, IsKid, HasKid;
    if ids == [] {
      assert gone + {} == gone;
    } else {
      var k := KidOf(t, ids[0]);
      KidRestores(c, t, k, records, gone);
      forall i | 0 <= i < |ids[1..]| ensures HasKid(t, ids[1..][i]) && Whole(KidOf(t, ids[1..][i])) !! gone + Whole(k) {
        assert ids[1..][i] == ids[i + 1];
        KidsApart(t, k, KidOf(t, ids[i + 1]));
      }
      KidsRestore(c, t, ids[1..], records, gone + Whole(k));
      assert (gone + Whole(k)) + WholeOf(t, ids[1..]) == gone + WholeOf(t, ids);
    }
  }

  lemma KidsApart(t: Tree, k: Tree, l: Tree)
    requires Canonical(t) && DistinctIds(Flatten(t)) && IsKid(t, k) && IsKid(t, l) && k.record.id != l.record.id
    ensures Whole(k) !! Whole(l)
  {
    hide Flatten, DistinctIds, Canonical, Whole;
    Apart(t, k);
  }

  lemma WholeSplit(k: Tree)
    ensures {k.record.id} + Below(k) == Whole(k)
  {
  }

  lemma Removed(records: seq<Record>, id: Id)
    ensures id !in Ids(Minus(records, {id}))
  {
    forall r | r in Minus(records, {id}) ensures r.id != id {
      MinusMember(records, {id}, r);
    }
  }

  lemma PassBelow(c: Checks, t: Tree, k: Tree)
    requires AllPass(c, Flatten(t)) && IsKid(t, k)
    ensures AllPass(c, Flatten(k))
  {
    hide Flatten;
    KidFacts(t, k);
  }

  lemma Fits(c: Checks, t: Tree, k: Tree)
    requires AllPass(c, Flatten(t)) && IsKid(t, k) && Canonical(t) && DistinctIds(Flatten(t))
    ensures k.record.relation.Owned? && c.fits(t.record, k.record)
  {
    hide DistinctIds;
    KidFacts(t, k);
    KidRecord(t, k);
    assert t.record in Flatten(t);
  }

  /** The listed children of the root record are its kids. */
  lemma ListsKids(t: Tree, records: seq<Record>, id: Id)
    requires Canonical(t) && DistinctIds(Flatten(t)) && Holds(records, t) && t.record.id !in Ids(records)
    ensures id in ChildIds(records, t.record.id) <==> HasKid(t, id)
  {
    hide Flatten, DistinctIds, Canonical;
    ChildIdsMember(records, t.record.id, id);
    if id in ChildIds(records, t.record.id) {
      var r :| r in records && OwnedBy(r, t.record.id) && r.id == id;
      assert t.record.id in Whole(t);
      FlattenKids(t, r);
      var k :| IsKid(t, k) && r in Flatten(k);
      KidFacts(t, k);
      Apart(t, k);
      if r != k.record {
        OwnerInside(k, r);
      }
    }
    if k :| IsKid(t, k) && k.record.id == id {
      KidFacts(t, k);
      KidRecord(t, k);
    }
  }

  lemma {:induction false} CountOnce(a: seq<Tree>, x: Tree)
    requires NoRepeats(a)
    ensures multiset(a)[x] == if x in a then 1 else 0
  {
    if a != [] {
      var init, last := a[..|a| - 1], a[|a| - 1];
      assert a == init + [last];
      CountOnce(init, x);
    }
  }

  /** Two lists without repetition and with the same members are arrangements of each other. */
  lemma SameMultiset(a: seq<Tree>, b: seq<Tree>)
    requires NoRepeats(a)
    requires NoRepeats(b)
    requires forall x :: x in a <==> x in b
    ensures multiset(a) == multiset(b)
  {
    forall x ensures multiset(a)[x] == multiset(b)[x] {
      CountOnce(a, x);
      CountOnce(b, x);
    }
  }

  lemma {:induction false} PickMember(t: Tree, ids: seq<Id>, component: bool, x: Tree)
    requires forall i :: 0 <= i < |ids| ==> HasKid(t, ids[i])
    ensures x in Pick(t, ids, component) <==>
              exists i :: 0 <= i < |ids| && KidOf(t, ids[i]) == x && x.record.relation.Owned? && x.record.relation.place.Component? == component
  {
    if ids != [] {
      PickMember(t, ids[1..], component, x);
      if i :| 0 <= i < |ids| && KidOf(t, ids[i]) == x && x.record.relation.Owned? && x.record.relation.place.Component? == component {
        assert i > 0 ==> ids[i] == ids[1..][i - 1];
      }
      if i :| 0 <= i < |ids[1..]| && KidOf(t, ids[1..][i]) == x && x.record.relation.Owned? && x.record.relation.place.Component? == component {
        assert ids[i + 1] == ids[1..][i];
      }
    }
  }

  lemma {:induction false} PickDistinct(t: Tree, ids: seq<Id>, component: bool)
    requires forall i :: 0 <= i < |ids| ==> HasKid(t, ids[i])
    requires NoRepeats(ids)
    ensures NoRepeats(Pick(t, ids, component))
  {
    if ids != [] {
      PickDistinct(t, ids[1..], component);
      PickMember(t, ids[1..], component, KidOf(t, ids[0]));
    }
  }

  lemma OneKid(t: Tree, k: Tree, l: Tree)
    requires Canonical(t) && DistinctIds(Flatten(t)) && IsKid(t, k) && IsKid(t, l) && k.record.id == l.record.id
    ensures k == l
  {
    hide Flatten, DistinctIds, Canonical;
    Apart(t, k);
    KidRecord(t, k);
    KidRecord(t, l);
  }

  /** Picking every kid by its id gives the children of each kind. */
  lemma PickKind(t: Tree, ids: seq<Id>, component: bool)
    requires Canonical(t) && DistinctIds(Flatten(t)) && (forall id :: id in ids <==> HasKid(t, id))
    requires forall i :: 0 <= i < |ids| ==> HasKid(t, ids[i])
    requires NoRepeats(ids)
    ensures multiset(Pick(t, ids, component)) == multiset(if component then t.components else t.spawned)
  {
    hide Flatten, DistinctIds, Canonical, Pick, HasKid;
    var kids := if component then t.components else t.spawned;
    PickDistinct(t, ids, component);
    CanonicalSorted(t);
    SortedDistinct(kids);
    forall x ensures x in Pick(t, ids, component) <==> x in kids {
      PickMember(t, ids, component, x);
      PickOne(t, ids, component, x);
    }
    SameMultiset(Pick(t, ids, component), kids);
  }

  lemma PickOne(t: Tree, ids: seq<Id>, component: bool, x: Tree)
    requires Canonical(t) && DistinctIds(Flatten(t)) && (forall id :: id in ids <==> HasKid(t, id))
    requires forall i :: 0 <= i < |ids| ==> HasKid(t, ids[i])
    ensures (exists i :: 0 <= i < |ids| && KidOf(t, ids[i]) == x && x.record.relation.Owned? && x.record.relation.place.Component? == component)
            <==> x in (if component then t.components else t.spawned)
  {
    hide Flatten, DistinctIds, Canonical;
    if IsKid(t, x) {
      KidFacts(t, x);
      assert HasKid(t, x.record.id);
      var i :| 0 <= i < |ids| && ids[i] == x.record.id;
      OneKid(t, KidOf(t, ids[i]), x);
      BothKinds(t, x);
    }
  }

  lemma BothKinds(t: Tree, x: Tree)
    requires Canonical(t) && IsKid(t, x)
    ensures x in t.components <==> x !in t.spawned
    ensures x in t.components <==> x.record.relation.place.Component?
  {
    if x in t.components {
      var i :| 0 <= i < |t.components| && t.components[i] == x;
    }
    if x in t.spawned {
      var i :| 0 <= i < |t.spawned| && t.spawned[i] == x;
    }
  }

  lemma SortedDistinct(ts: seq<Tree>)
    requires Sorted(ts)
    ensures NoRepeats(ts)
  {
  }

  /** The ids below `t` are those in its kids. */
  lemma {:induction false} WholeOfIs(t: Tree, ids: seq<Id>, id: Id)
    requires forall i :: 0 <= i < |ids| ==> HasKid(t, ids[i])
    ensures id in WholeOf(t, ids) <==> exists i :: 0 <= i < |ids| && id in Whole(KidOf(t, ids[i]))
  {
    hide Whole;
    if ids != [] {
      WholeOfIs(t, ids[1..], id);
      if i :| 0 <= i < |ids| && id in Whole(KidOf(t, ids[i])) {
        assert i > 0 ==> ids[i] == ids[1..][i - 1];
      }
      if i :| 0 <= i < |ids[1..]| && id in Whole(KidOf(t, ids[1..][i])) {
        assert ids[i + 1] == ids[1..][i];
      }
    }
  }

  lemma BelowIs(t: Tree, ids: seq<Id>)
    requires Canonical(t) && DistinctIds(Flatten(t)) && (forall id :: id in ids <==> HasKid(t, id))
    requires forall i :: 0 <= i < |ids| ==> HasKid(t, ids[i])
    ensures WholeOf(t, ids) == Below(t)
  {
    hide Flatten, DistinctIds, Canonical, Whole;
    forall id ensures id in WholeOf(t, ids) <==> id in Below(t) {
      WholeOfIs(t, ids, id);
      BelowKid(t, id);
      if i :| 0 <= i < |ids| && id in Whole(KidOf(t, ids[i])) {
        KidFacts(t, KidOf(t, ids[i]));
      }
      if k :| IsKid(t, k) && id in Whole(k) {
        assert HasKid(t, k.record.id);
        var i :| 0 <= i < |ids| && ids[i] == k.record.id;
        OneKid(t, KidOf(t, ids[i]), k);
      }
    }
  }

  lemma BelowKid(t: Tree, id: Id)
    ensures id in Below(t) ==> exists k :: IsKid(t, k) && id in Whole(k)
  {
    hide Whole;
    if id in BelowAll(t.components) {
      BelowMember(t.components, id);
      var i :| 0 <= i < |t.components| && id in Whole(t.components[i]);
      assert IsKid(t, t.components[i]);
    } else if id in BelowAll(t.spawned) {
      BelowMember(t.spawned, id);
      var i :| 0 <= i < |t.spawned| && id in Whole(t.spawned[i]);
      assert IsKid(t, t.spawned[i]);
    }
  }

  /** Restoring from records that hold a canonical tree gives that tree and leaves the rest. */
  lemma {:induction false} RestoreFlattened(c: Checks, t: Tree, records: seq<Record>)
    requires Canonical(t) && DistinctIds(Flatten(t)) && AllPass(c, Flatten(t)) && Holds(records, t)
    requires DistinctIds(records) && t.record.id !in Ids(records)
    ensures Restore(c, t.record, records) == Ok(Restored(t, Minus(records, Below(t))))
    decreases t, 1, 0
  {
    hide Flatten, DistinctIds, Canonical, Minus, Whole, Holds, Below, Sort;
    var ids := ChildIds(records, t.record.id);
    ChildIdsDistinct(records, t.record.id);
    forall id ensures id in ids <==> HasKid(t, id) {
      ListsKids(t, records, id);
    }
    forall i | 0 <= i < |ids| ensures HasKid(t, ids[i]) {
      assert ids[i] in ids;
    }
    MinusNothing(records, {});
    KidsRestore(c, t, ids, records, {});
    BelowIs(t, ids);
    PickKind(t, ids, true);
    PickKind(t, ids, false);
    CanonicalSorted(t);
    SortIs(Pick(t, ids, true), t.components);
    SortIs(Pick(t, ids, false), t.spawned);
    assert {} + Below(t) == Below(t);
    RootPasses(c, t);
  }

  lemma CanonicalSorted(t: Tree)
    requires Canonical(t)
    ensures Sorted(t.components) && Sorted(t.spawned)
  {
  }

  lemma RootPasses(c: Checks, t: Tree)
    requires AllPass(c, Flatten(t))
    ensures c.restorable(t.record)
  {
    assert t.record in Flatten(t);
  }

  /** Restoring the records of a canonical tree, in any order, returns that tree. */
  lemma FlattenRoundTrip(c: Checks, t: Tree, records: seq<Record>)
    requires Canonical(t) && t.record.relation.Root? && DistinctIds(Flatten(t)) && AllPass(c, Flatten(t))
    requires DistinctIds(records) && multiset(records) == multiset(Flatten(t))
    ensures RestoreAll(c, t.record.id, records) == Ok(t)
  {
    hide Flatten, DistinctIds, Canonical, Minus, Restore, AllPass;
    forall r ensures r in records <==> r in Flatten(t) {
      assert r in records <==> r in multiset(records);
      assert r in Flatten(t) <==> r in multiset(Flatten(t));
    }
    RootRecord(t);
    LocateIs(records, t.record);
    var i := Locate(records, t.record.id);
    var fewer := records[..i] + records[i + 1..];
    WithoutRoot(records, i);
    forall r | r in fewer && r.relation.Owned? && r.relation.owner in Whole(t) ensures r in Flatten(t) && r != t.record {
    }
    RestoreFlattened(c, t, fewer);
    forall k | 0 <= k < |fewer| ensures fewer[k].id in Below(t) {
      assert fewer[k] in fewer;
      WholeIs(t, fewer[k].id);
      assert fewer[k].id in Ids(fewer);
    }
    MinusAll(fewer, Below(t));
  }

  lemma RootRecord(t: Tree)
    ensures t.record in Flatten(t)
  {
  }
}
