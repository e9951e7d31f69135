/**
 Restoring succeeds without leftovers exactly on trees: every record is visited once, a listed
 child never disappears, and flattening is undone.
 */
module RuntimeTreeProofs {
  import opened Wrappers
  import opened Sequences
  import opened RuntimeTree

  predicate DistinctIds(records: seq<Record>) {
    forall i, j :: 0 <= i < j < |records| ==> records[i].id != records[j].id
  }

  function Ids(records: seq<Record>): set<Id> {
    set r | r in records :: r.id
  }

  /** The records whose ids are not in `gone`, in the same order. */
  function Minus(records: seq<Record>, gone: set<Id>): seq<Record> {
    if records == [] then []
    else if records[0].id in gone then Minus(records[1..], gone)
    else [records[0]] + Minus(records[1..], gone)
  }

  // ------------------------------------------------------------------------------------------
  // Removing records
  // ------------------------------------------------------------------------------------------

  lemma {:induction false} MinusMember(records: seq<Record>, gone: set<Id>, r: Record)
    ensures r in Minus(records, gone) <==> r in records && r.id !in gone
  {
    if records != [] {
      MinusMember(records[1..], gone, r);
    }
  }

  lemma {:induction false} MinusDistinct(records: seq<Record>, gone: set<Id>)
    requires DistinctIds(records)
    ensures DistinctIds(Minus(records, gone))
  {
    if records != [] {
      var rest := records[1..];
      assert forall i :: 0 <= i < |rest| ==> rest[i] == records[i + 1];
      MinusDistinct(rest, gone);
      if records[0].id !in gone {
        var kept := Minus(rest, gone);
        forall j | 0 <= j < |kept| ensures kept[j].id != records[0].id {
          MinusMember(rest, gone, kept[j]);
          var k :| 0 <= k < |rest| && rest[k] == kept[j];
          assert records[k + 1] == kept[j];
        }
      }
    }
  }

  lemma {:induction false} MinusTwice(records: seq<Record>, a: set<Id>, b: set<Id>)
    ensures Minus(Minus(records, a), b) == Minus(records, a + b)
  {
    if records != [] {
      MinusTwice(records[1..], a, b);
      if records[0].id !in a {
        var kept := Minus(records[1..], a);
        assert ([records[0]] + kept)[1..] == kept;
      }
    }
  }

  lemma {:induction false} MinusNothing(records: seq<Record>, gone: set<Id>)
    requires forall i :: 0 <= i < |records| ==> records[i].id !in gone
    ensures Minus(records, gone) == records
  {
    if records != [] {
      assert forall i :: 0 <= i < |records[1..]| ==> records[1..][i] == records[i + 1];
      MinusNothing(records[1..], gone);
    }
  }

  lemma {:induction false} MinusAll(records: seq<Record>, gone: set<Id>)
    requires forall i :: 0 <= i < |records| ==> records[i].id in gone
    ensures Minus(records, gone) == []
  {
    if records != [] {
      assert forall i :: 0 <= i < |records[1..]| ==> records[1..][i] == records[i + 1];
      MinusAll(records[1..], gone);
    }
  }

  /** Taking out the record at position `i` removes its id. */
  lemma {:induction false} RemoveAt(records: seq<Record>, i: nat)
    requires DistinctIds(records) && i < |records|
    ensures records[..i] + records[i + 1..] == Minus(records, {records[i].id})
  {
    var rest := records[1..];
    assert forall k :: 0 <= k < |rest| ==> rest[k] == records[k + 1];
    if i == 0 {
      MinusNothing(rest, {records[0].id});
    } else {
      RemoveAt(rest, i - 1);
      assert records[..i] == [records[0]] + rest[..i - 1];
      assert records[i + 1..] == rest[i..];
    }
  }

  lemma LocateIs(records: seq<Record>, r: Record)
    requires DistinctIds(records) && r in records
    ensures var i := Locate(records, r.id); i < |records| && records[i] == r
  {
    var j :| 0 <= j < |records| && records[j] == r;
  }

  lemma {:induction false} ChildIdsMember(records: seq<Record>, id: Id, child: Id)
    ensures child in ChildIds(records, id) <==> exists r :: r in records && OwnedBy(r, id) && r.id == child
  {
    if records != [] {
      ChildIdsMember(records[1..], id, child);
      if r :| r in records && OwnedBy(r, id) && r.id == child {
        assert r == records[0] || r in records[1..];
      }
    }
  }

  lemma {:induction false} ChildIdsDistinct(records: seq<Record>, id: Id)
    requires DistinctIds(records)
    ensures NoRepeats(ChildIds(records, id))
  {
    if records != [] {
      var rest := records[1..];
      assert forall i :: 0 <= i < |rest| ==> rest[i] == records[i + 1];
      ChildIdsDistinct(rest, id);
      assert forall i :: 0 < i < |ChildIds(records, id)| && OwnedBy(records[0], id) ==> ChildIds(records, id)[i] == ChildIds(rest, id)[i - 1];
      ChildIdsMember(rest, id, records[0].id);
    }
  }

  // ------------------------------------------------------------------------------------------
  // What restoring does
  // ------------------------------------------------------------------------------------------

  /** The ids below `t`. */
  function Below(t: Tree): set<Id>
    decreases t, 0
  {
    BelowAll(t.components) + BelowAll(t.spawned)
  }

  function BelowAll(ts: seq<Tree>): set<Id> {
    if ts == [] then {} else Whole(ts[0]) + BelowAll(ts[1..])
  }

  function Whole(t: Tree): set<Id>
    decreases t, 1
  {
    {t.record.id} + Below(t)
  }

  /** Every child names its owner. */
  ghost predicate Linked(t: Tree) {
    && (forall i :: 0 <= i < |t.components| ==> Linked(t.components[i]) && OwnedBy(t.components[i].record, t.record.id))
    && (forall i :: 0 <= i < |t.spawned| ==> Linked(t.spawned[i]) && OwnedBy(t.spawned[i].record, t.record.id))
  }

  lemma {:induction false} BelowMember(ts: seq<Tree>, id: Id)
    ensures id in BelowAll(ts) <==> exists i :: 0 <= i < |ts| && id in Whole(ts[i])
  {
    if ts != [] {
      BelowMember(ts[1..], id);
      if i :| 0 <= i < |ts| && id in Whole(ts[i]) {
        assert i > 0 ==> ts[i] == ts[1..][i - 1];
      }
      if id in BelowAll(ts[1..]) {
        var i :| 0 <= i < |ts[1..]| && id in Whole(ts[1..][i]);
        assert ts[i + 1] == ts[1..][i];
      }
    }
  }

  lemma {:induction false} InsertMember(ts: seq<Tree>, t: Tree, x: Tree)
    ensures x in Insert(ts, t) <==> x in ts || x == t
  {
    if ts != [] {
      InsertMember(ts[1..], t, x);
    }
  }

  lemma {:induction false} SortMember(ts: seq<Tree>, x: Tree)
    ensures x in Sort(ts) <==> x in ts
  {
    if ts != [] {
      var init, last := ts[..|ts| - 1], ts[|ts| - 1];
      SortMember(init, x);
      InsertMember(Sort(init), last, x);
      assert ts == init + [last];
    }
  }

  lemma SortBelow(ts: seq<Tree>)
    ensures BelowAll(Sort(ts)) == BelowAll(ts)
  {
    forall id ensures id in BelowAll(Sort(ts)) <==> id in BelowAll(ts) {
      BelowMember(ts, id);
      BelowMember(Sort(ts), id);
      if i :| 0 <= i < |ts| && id in Whole(ts[i]) {
        SortMember(ts, ts[i]);
        var j :| 0 <= j < |Sort(ts)| && Sort(ts)[j] == ts[i];
      }
      if j :| 0 <= j < |Sort(ts)| && id in Whole(Sort(ts)[j]) {
        SortMember(ts, Sort(ts)[j]);
        var i :| 0 <= i < |ts| && ts[i] == Sort(ts)[j];
      }
    }
  }

  /** The records that are not in a tree do not belong below it. */
  ghost predicate Leaves(rest: seq<Record>, whole: set<Id>) {
    forall r :: r in rest && r.relation.Owned? ==> r.relation.owner !in whole
  }

  /** Every record with an id in `ids` names an owner in `owners`. */
  ghost predicate OwnersIn(records: seq<Record>, ids: set<Id>, owners: set<Id>) {
    forall r :: r in records && r.id in ids ==> r.relation.Owned? && r.relation.owner in owners
  }

  /** What a restored tree took, and what it left. */
  ghost predicate Takes(wire: Record, records: seq<Record>, t: Tree, rest: seq<Record>) {
    && t.record == wire
    && Linked(t)
    && Below(t) <= Ids(records)
    && rest == Minus(records, Below(t))
    && Leaves(rest, Whole(t))
    && OwnersIn(records, Below(t), Whole(t))
    && multiset(Flatten(t)) + multiset(rest) == multiset(records) + multiset{wire}
  }

  function BelowBoth(children: Children): set<Id> {
    BelowAll(children.components) + BelowAll(children.spawned)
  }

  ghost predicate LinkedAll(ts: seq<Tree>, owner: Id) {
    forall i :: 0 <= i < |ts| ==> Linked(ts[i]) && OwnedBy(ts[i].record, owner)
  }

  ghost predicate TakesChildren(owner: Record, ids: seq<Id>, records: seq<Record>, children: Children) {
    var below := BelowBoth(children);
    && LinkedAll(children.components, owner.id) && LinkedAll(children.spawned, owner.id)
    && below <= Ids(records)
    && (forall i :: 0 <= i < |ids| ==> ids[i] in below)
    && children.rest == Minus(records, below)
    && Leaves(children.rest, below)
    && OwnersIn(records, below, below + {owner.id})
    && multiset(FlattenAll(children.components)) + multiset(FlattenAll(children.spawned)) + multiset(children.rest) == multiset(records)
  }

  /** The listed ids are those of different records that `owner` owns. */
  ghost predicate Lists(records: seq<Record>, owner: Id, ids: seq<Id>) {
    && (forall i, j :: 0 <= i < j < |ids| ==> ids[i] != ids[j])
    && (forall i :: 0 <= i < |ids| ==> ids[i] in Ids(records) && forall r :: r in records && r.id == ids[i] ==> OwnedBy(r, owner))
  }

  lemma ChildIdsList(records: seq<Record>, owner: Id)
    requires DistinctIds(records)
    ensures Lists(records, owner, ChildIds(records, owner))
    ensures forall r :: r in records && OwnedBy(r, owner) ==> r.id in ChildIds(records, owner)
  {
    var ids := ChildIds(records, owner);
    ChildIdsDistinct(records, owner);
    forall i | 0 <= i < |ids| ensures ids[i] in Ids(records) && forall r :: r in records && r.id == ids[i] ==> OwnedBy(r, owner) {
      ChildIdsMember(records, owner, ids[i]);
      var r :| r in records && OwnedBy(r, owner) && r.id == ids[i];
      forall s | s in records && s.id == ids[i] ensures s == r {
        SameId(records, r, s);
      }
    }
    forall r | r in records && OwnedBy(r, owner) ensures r.id in ids {
      ChildIdsMember(records, owner, r.id);
    }
  }

  lemma SameId(records: seq<Record>, r: Record, s: Record)
    requires DistinctIds(records) && r in records && s in records && r.id == s.id
    ensures r == s
  {
    var i :| 0 <= i < |records| && records[i] == r;
    var j :| 0 <= j < |records| && records[j] == s;
  }

  /** A record that names an owner outside of a tree stays when the tree is taken. */
  lemma OtherRemains(records: seq<Record>, owner: Id, t: Tree, rest: seq<Record>, r: Record)
    requires owner !in Ids(records) && t.record in records && r in records && OwnedBy(r, owner) && r.id != t.record.id
    requires Takes(t.record, Minus(records, {t.record.id}), t, rest) && Whole(t) <= Ids(records)
    ensures r.id !in Whole(t)
  {
    hide Linked, Leaves, Ids, Flatten, Minus;
    MinusMember(records, {t.record.id}, r);
  }

  lemma WholeInside(records: seq<Record>, t: Tree, rest: seq<Record>)
    requires t.record in records && Takes(t.record, Minus(records, {t.record.id}), t, rest)
    ensures Whole(t) <= Ids(records)
  {
    hide Linked, Leaves, Flatten, Minus, OwnersIn;
    forall id | id in Below(t) ensures id in Ids(records) {
      var r :| r in Minus(records, {t.record.id}) && r.id == id;
      MinusMember(records, {t.record.id}, r);
    }
  }

  /** What remains after one child: the others are still there. */
  lemma OthersRemain(records: seq<Record>, owner: Record, ids: seq<Id>, t: Tree, rest: seq<Record>)
    requires DistinctIds(records) && owner.id !in Ids(records) && ids != [] && Lists(records, owner.id, ids)
    requires t.record in records && t.record.id == ids[0]
    requires Takes(t.record, Minus(records, {t.record.id}), t, rest)
    ensures rest == Minus(records, Whole(t)) && DistinctIds(rest) && owner.id !in Ids(rest) && Whole(t) <= Ids(records)
    ensures Lists(rest, owner.id, ids[1..])
  {
    hide Linked, Leaves, Minus, Flatten, OwnersIn, DistinctIds, Below;
    MinusTwice(records, {t.record.id}, Below(t));
    MinusDistinct(records, Whole(t));
    WholeInside(records, t, rest);
    forall r ensures r in rest <==> r in records && r.id !in Whole(t) {
      MinusMember(records, Whole(t), r);
    }
    var others := ids[1..];
    forall i | 0 <= i < |others| ensures others[i] in Ids(rest) && forall r :: r in rest && r.id == others[i] ==> OwnedBy(r, owner.id) {
      assert others[i] == ids[i + 1];
      var r :| r in records && r.id == others[i];
      OtherRemains(records, owner.id, t, rest, r);
    }
  }

  lemma SplitAt(records: seq<Record>, i: nat)
    requires i < |records|
    ensures multiset(records[..i] + records[i + 1..]) + multiset{records[i]} == multiset(records)
  {
    assert records == records[..i] + [records[i]] + records[i + 1..];
  }

  lemma TakeOut(records: seq<Record>, i: nat)
    requires DistinctIds(records) && i < |records|
    ensures var fewer := Minus(records, {records[i].id});
            && records[..i] + records[i + 1..] == fewer && DistinctIds(fewer) && records[i].id !in Ids(fewer)
            && multiset(fewer) + multiset{records[i]} == multiset(records)
  {
    hide Minus, DistinctIds;
    RemoveAt(records, i);
    SplitAt(records, i);
    MinusDistinct(records, {records[i].id});
    forall x | x in Minus(records, {records[i].id}) ensures x.id != records[i].id {
      MinusMember(records, {records[i].id}, x);
    }
  }

  lemma FirstChild(records: seq<Record>, owner: Record, ids: seq<Id>)
    requires DistinctIds(records) && ids != [] && Lists(records, owner.id, ids)
    ensures var i := Locate(records, ids[0]);
            && i < |records| && records[i] in records && OwnedBy(records[i], owner.id) && records[i].id == ids[0]
            && records[..i] + records[i + 1..] == Minus(records, {records[i].id})
            && DistinctIds(Minus(records, {records[i].id})) && records[i].id !in Ids(Minus(records, {records[i].id}))
            && multiset(Minus(records, {records[i].id})) + multiset{records[i]} == multiset(records)
  {
    hide Minus, Locate, DistinctIds;
    var i := Locate(records, ids[0]);
    assert ids[0] in Ids(records);
    var r :| r in records && r.id == ids[0];
    var j :| 0 <= j < |records| && records[j] == r;
    TakeOut(records, i);
  }

  lemma JoinChildren(records: seq<Record>, owner: Record, ids: seq<Id>, t: Tree, rest: seq<Record>, others: Children, joined: Children)
    requires DistinctIds(records) && owner.id !in Ids(records) && ids != [] && Lists(records, owner.id, ids)
    requires t.record in records && t.record.id == ids[0] && OwnedBy(t.record, owner.id)
    requires Takes(t.record, Minus(records, {t.record.id}), t, rest)
    requires TakesChildren(owner, ids[1..], rest, others)
    requires BelowBoth(joined) == Whole(t) + BelowBoth(others) && joined.rest == others.rest
    ensures BelowBoth(joined) <= Ids(records) && (forall i :: 0 <= i < |ids| ==> ids[i] in BelowBoth(joined))
    ensures joined.rest == Minus(records, BelowBoth(joined)) && Leaves(joined.rest, BelowBoth(joined))
    ensures OwnersIn(records, BelowBoth(joined), BelowBoth(joined) + {owner.id})
  {
    hide Linked, LinkedAll;
    OthersRemain(records, owner, ids, t, rest);
    MinusTwice(records, Whole(t), BelowBoth(others));
    forall r ensures r in rest <==> r in records && r.id !in Whole(t) {
      MinusMember(records, Whole(t), r);
    }
    forall r ensures r in joined.rest <==> r in rest && r.id !in BelowBoth(others) {
      MinusMember(rest, BelowBoth(others), r);
    }
    forall r ensures r in Minus(records, {t.record.id}) <==> r in records && r.id != t.record.id {
      MinusMember(records, {t.record.id}, r);
    }
    forall i | 0 <= i < |ids| ensures ids[i] in BelowBoth(joined) {
      if i > 0 {
        assert ids[i] == ids[1..][i - 1];
      }
    }
    forall r | r in records && r.id in BelowBoth(joined) ensures r.relation.Owned? && r.relation.owner in BelowBoth(joined) + {owner.id} {
      if r.id == t.record.id {
        SameId(records, r, t.record);
      } else if r.id !in Below(t) {
        assert r.id in BelowBoth(others);
        assert r.id !in Whole(t);
        assert r in rest;
      }
    }
  }

  lemma JoinLinked(t: Tree, ts: seq<Tree>, owner: Id)
    requires Linked(t) && OwnedBy(t.record, owner) && LinkedAll(ts, owner)
    ensures LinkedAll([t] + ts, owner)
  {
    hide Linked;
  }

  lemma JoinFlat(t: Tree, ts: seq<Tree>)
    ensures multiset(FlattenAll([t] + ts)) == multiset(Flatten(t)) + multiset(FlattenAll(ts))
    ensures BelowAll([t] + ts) == Whole(t) + BelowAll(ts)
  {
    assert ([t] + ts)[1..] == ts;
  }

  /** Counting: nothing is lost or visited twice. */
  lemma JoinCount(flat: multiset<Record>, rest: multiset<Record>, less: multiset<Record>, t: multiset<Record>, a: multiset<Record>, b: multiset<Record>,
                  others: multiset<Record>, all: multiset<Record>)
    requires flat + rest == less + t && less + t == all
    requires a + b + others == rest
    ensures (flat + a) + b + others == all && a + (flat + b) + others == all
  {
  }

  /** Restoring children takes exactly what is below them; no listed child has disappeared. */
  lemma {:induction false} ChildrenTake(c: Checks, owner: Record, ids: seq<Id>, records: seq<Record>)
    requires DistinctIds(records) && owner.id !in Ids(records) && Lists(records, owner.id, ids)
    ensures RestoreChildren(c, owner, ids, records) != Err(Disappeared)
    ensures RestoreChildren(c, owner, ids, records).Ok? ==> TakesChildren(owner, ids, records, RestoreChildren(c, owner, ids, records).value)
    decreases |records|, 0, |ids|
  {
    hide Takes, TakesChildren, Restore, Lists, Linked;
    if ids == [] {
      NoChildren(owner, records);
    } else {
      FirstChild(records, owner, ids);
      var record := records[Locate(records, ids[0])];
      var fewer := Minus(records, {record.id});
      assert |fewer| < |records|;
      RestoreTakes(c, record, fewer);
      var child := Restore(c, record, fewer);
      if child.Ok? && record.relation.Owned? && c.fits(owner, record) {
        var t, rest := child.value.tree, child.value.rest;
        TakesRecord(record, fewer, t, rest);
        OthersRemain(records, owner, ids, t, rest);
        ChildrenTake(c, owner, ids[1..], rest);
        var others := RestoreChildren(c, owner, ids[1..], rest);
        if others.Ok? {
          JoinTakes(records, owner, ids, t, rest, others.value, record.relation.place.Component?);
        }
      }
    }
  }

  lemma TakesRecord(wire: Record, records: seq<Record>, t: Tree, rest: seq<Record>)
    requires Takes(wire, records, t, rest)
    ensures t.record == wire
  {
  }

  lemma NoChildren(owner: Record, records: seq<Record>)
    requires true
    ensures TakesChildren(owner, [], records, Children([], [], records))
  {
    MinusNothing(records, {});
    assert BelowBoth(Children([], [], records)) == {};
    assert multiset(FlattenAll([])) == multiset{};
  }

  lemma JoinTakes(records: seq<Record>, owner: Record, ids: seq<Id>, t: Tree, rest: seq<Record>, others: Children, component: bool)
    requires DistinctIds(records) && owner.id !in Ids(records) && ids != [] && Lists(records, owner.id, ids)
    requires t.record in records && t.record.id == ids[0] && OwnedBy(t.record, owner.id)
    requires Takes(t.record, Minus(records, {t.record.id}), t, rest)
    requires multiset(Minus(records, {t.record.id})) + multiset{t.record} == multiset(records)
    requires TakesChildren(owner, ids[1..], rest, others)
    ensures var joined := if component then others.(components := [t] + others.components) else others.(spawned := [t] + others.spawned);
            TakesChildren(owner, ids, records, joined)
  {
    hide Lists, Linked, FlattenAll, Flatten, Minus, Leaves, OwnersIn, LinkedAll, BelowAll, Below, Ids;
    var joined := if component then others.(components := [t] + others.components) else others.(spawned := [t] + others.spawned);
    JoinFlat(t, others.components);
    JoinFlat(t, others.spawned);
    assert BelowBoth(joined) == Whole(t) + BelowBoth(others);
    JoinChildren(records, owner, ids, t, rest, others, joined);
    JoinLinked(t, others.components, owner.id);
    JoinLinked(t, others.spawned, owner.id);
    JoinCount(multiset(Flatten(t)), multiset(rest), multiset(Minus(records, {t.record.id})), multiset{t.record},
              multiset(FlattenAll(others.components)), multiset(FlattenAll(others.spawned)), multiset(others.rest), multiset(records));
  }

  // ------------------------------------------------------------------------------------------
  // Sorting children
  // ------------------------------------------------------------------------------------------

  lemma {:induction false} InsertFlat(ts: seq<Tree>, t: Tree)
    ensures multiset(FlattenAll(Insert(ts, t))) == multiset(FlattenAll(ts)) + multiset(Flatten(t))
  {
    hide Flatten;
    if ts == [] {
      JoinFlat(t, []);
      assert [t] + [] == [t];
    } else if Earlier(PlaceOf(t), PlaceOf(ts[0])) {
      JoinFlat(t, ts);
    } else {
      InsertFlat(ts[1..], t);
      JoinFlat(ts[0], Insert(ts[1..], t));
      JoinFlat(ts[0], ts[1..]);
      assert [ts[0]] + ts[1..] == ts;
    }
  }

  lemma {:induction false} SnocFlat(ts: seq<Tree>, t: Tree)
    ensures multiset(FlattenAll(ts + [t])) == multiset(FlattenAll(ts)) + multiset(Flatten(t))
  {
    hide Flatten;
    if ts == [] {
      JoinFlat(t, []);
      assert [] + [t] == [t] + [];
    } else {
      SnocFlat(ts[1..], t);
      JoinFlat(ts[0], ts[1..] + [t]);
      JoinFlat(ts[0], ts[1..]);
      assert [ts[0]] + (ts[1..] + [t]) == ts + [t] && [ts[0]] + ts[1..] == ts;
    }
  }

  lemma {:induction false} SortFlat(ts: seq<Tree>)
    ensures multiset(FlattenAll(Sort(ts))) == multiset(FlattenAll(ts))
  {
    hide Flatten, FlattenAll;
    if ts != [] {
      var init, last := ts[..|ts| - 1], ts[|ts| - 1];
      SortFlat(init);
      InsertFlat(Sort(init), last);
      SnocFlat(init, last);
      assert ts == init + [last];
    }
  }

  lemma SortLinked(ts: seq<Tree>, owner: Id)
    requires LinkedAll(ts, owner)
    ensures LinkedAll(Sort(ts), owner)
  {
    hide Linked, Sort;
    var sorted := Sort(ts);
    forall i | 0 <= i < |sorted| ensures Linked(sorted[i]) && OwnedBy(sorted[i].record, owner) {
      SortMember(ts, sorted[i]);
      var j :| 0 <= j < |ts| && ts[j] == sorted[i];
    }
  }

  /** Restoring takes exactly what is below the record, each record once; no listed child has disappeared. */
  lemma {:induction false} RestoreTakes(c: Checks, wire: Record, records: seq<Record>)
    requires DistinctIds(records) && wire.id !in Ids(records)
    ensures Restore(c, wire, records) != Err(Disappeared)
    ensures Restore(c, wire, records).Ok? ==> Takes(wire, records, Restore(c, wire, records).value.tree, Restore(c, wire, records).value.rest)
    decreases |records|, 1, 0
  {
    hide Takes, TakesChildren, RestoreChildren, Lists, Sort;
    if c.restorable(wire) {
      ChildIdsList(records, wire.id);
      ChildrenTake(c, wire, ChildIds(records, wire.id), records);
      var children := RestoreChildren(c, wire, ChildIds(records, wire.id), records);
      if children.Ok? {
        TakesWhole(wire, records, children.value);
      }
    }
  }

  lemma TakesWhole(wire: Record, records: seq<Record>, children: Children)
    requires DistinctIds(records) && wire.id !in Ids(records) && TakesChildren(wire, ChildIds(records, wire.id), records, children)
    ensures Takes(wire, records, Tree(wire, Sort(children.components), Sort(children.spawned)), children.rest)
  {
    hide Sort, FlattenAll, Flatten, Linked, BelowAll, Minus, OwnersIn, Leaves, Ids, DistinctIds;
    var t := Tree(wire, Sort(children.components), Sort(children.spawned));
    SortBelow(children.components);
    SortBelow(children.spawned);
    SortFlat(children.components);
    SortFlat(children.spawned);
    SortLinked(children.components, wire.id);
    SortLinked(children.spawned, wire.id);
    LinkedTree(t);
    assert Below(t) == BelowBoth(children);
    LeavesOwner(records, wire.id, children.rest, Below(t));
    assert Whole(t) == Below(t) + {wire.id};
    TakesCount(multiset(FlattenAll(t.components)), multiset(FlattenAll(t.spawned)), multiset{wire}, multiset(children.rest), multiset(records));
    FlattenCount(t);
  }

  lemma LeavesOwner(records: seq<Record>, owner: Id, rest: seq<Record>, below: set<Id>)
    requires DistinctIds(records) && rest == Minus(records, below) && Leaves(rest, below)
    requires forall i :: 0 <= i < |ChildIds(records, owner)| ==> ChildIds(records, owner)[i] in below
    ensures Leaves(rest, below + {owner})
  {
    hide Minus, DistinctIds;
    ChildIdsList(records, owner);
    forall r | r in rest && r.relation.Owned? ensures r.relation.owner !in below + {owner} {
      MinusMember(records, below, r);
      assert OwnedBy(r, owner) ==> r.id in ChildIds(records, owner);
    }
  }

  lemma LinkedTree(t: Tree)
    requires LinkedAll(t.components, t.record.id) && LinkedAll(t.spawned, t.record.id)
    ensures Linked(t)
  {
  }

  lemma FlattenCount(t: Tree)
    ensures multiset(Flatten(t)) == multiset(FlattenAll(t.components)) + multiset(FlattenAll(t.spawned)) + multiset{t.record}
  {
  }

  lemma TakesCount(a: multiset<Record>, b: multiset<Record>, w: multiset<Record>, rest: multiset<Record>, all: multiset<Record>)
    requires a + b + rest == all
    ensures (a + b + w) + rest == all + w
  {
  }
}
