/** Restoring the ownership tree of runtimes from flat records, and flattening it again. */
module RuntimeTree {
  import opened Wrappers

  type Id = string

  /** Where a child stands among its owner's children. */
  datatype Place = Component(index: nat, activation: nat) | Spawned(sequence: nat)

  datatype Relation = Root | Owned(owner: Id, place: Place)

  datatype Record = Record(id: Id, relation: Relation, body: string)

  datatype Tree = Tree(record: Record, components: seq<Tree>, spawned: seq<Tree>)

  datatype Failure = Unrestorable | Misfit | Disappeared | RootAbsent | NotRoot | Disconnected

  /** The definition-dependent checks of one record, and of a child against its owner. */
  datatype Checks = Checks(restorable: Record -> bool, fits: (Record, Record) -> bool)

  datatype Restored = Restored(tree: Tree, rest: seq<Record>)

  datatype Children = Children(components: seq<Tree>, spawned: seq<Tree>, rest: seq<Record>)

  predicate OwnedBy(r: Record, id: Id) {
    r.relation.Owned? && r.relation.owner == id
  }

  /** The ids of the records that `id` owns, in record order. */
  function ChildIds(records: seq<Record>, id: Id): seq<Id> {
    if records == [] then []
    else if OwnedBy(records[0], id) then [records[0].id] + ChildIds(records[1..], id)
    else ChildIds(records[1..], id)
  }

  /** The position of a record, or the number of records. */
  function Locate(records: seq<Record>, id: Id): (i: nat)
    ensures i <= |records|
    ensures i < |records| ==> records[i].id == id
    ensures i == |records| ==> forall j :: 0 <= j < |records| ==> records[j].id != id
  {
    if records == [] then 0 else if records[0].id == id then 0 else 1 + Locate(records[1..], id)
  }

  // ------------------------------------------------------------------------------------------
  // Order among children
  // ------------------------------------------------------------------------------------------

  function PlaceOf(t: Tree): Place {
    if t.record.relation.Owned? then t.record.relation.place else Spawned(0)
  }

  /** Components by declaration, then activation; spawned instances by spawn sequence. */
  predicate Earlier(p: Place, q: Place) {
    match (p, q)
    case (Component(i, a), Component(j, b)) => i < j || (i == j && a < b)
    case (Spawned(i), Spawned(j)) => i < j
    case (Component(_, _), Spawned(_)) => true
    case (Spawned(_), Component(_, _)) => false
  }

  /** Inserts after everything that is not later. */
  function Insert(ts: seq<Tree>, t: Tree): seq<Tree> {
    if ts == [] then [t]
    else if Earlier(PlaceOf(t), PlaceOf(ts[0])) then [t] + ts
    else [ts[0]] + Insert(ts[1..], t)
  }

  /** A stable sort by place. */
  function Sort(ts: seq<Tree>): seq<Tree> {
    if ts == [] then [] else Insert(Sort(ts[..|ts| - 1]), ts[|ts| - 1])
  }

  predicate Sorted(ts: seq<Tree>) {
    forall i, j :: 0 <= i < j < |ts| ==> Earlier(PlaceOf(ts[i]), PlaceOf(ts[j]))
  }

  // ------------------------------------------------------------------------------------------
  // Restoring
  // ------------------------------------------------------------------------------------------

  /** The tree below `wire`, built from the records it owns, and the records that remain. */
  function Restore(c: Checks, wire: Record, records: seq<Record>): (r: Result<Restored, Failure>)
    ensures r.Ok? ==> |r.value.rest| <= |records|
    decreases |records|, 1, 0
  {
    if !c.restorable(wire) then Err(Unrestorable)
    else
      match RestoreChildren(c, wire, ChildIds(records, wire.id), records)
      case Err(failure) => Err(failure)
      case Ok(children) => Ok(Restored(Tree(wire, Sort(children.components), Sort(children.spawned)), children.rest))
  }

  /** Restores the listed children one after the other. */
  function RestoreChildren(c: Checks, owner: Record, ids: seq<Id>, records: seq<Record>): (r: Result<Children, Failure>)
    ensures r.Ok? ==> |r.value.rest| <= |records|
    decreases |records|, 0, |ids|
  {
    if ids == [] then Ok(Children([], [], records))
    else
      var i := Locate(records, ids[0]);
      if i == |records| then Err(Disappeared)
      else
        var record := records[i];
        match Restore(c, record, records[..i] + records[i + 1..])
        case Err(failure) => Err(failure)
        case Ok(child) =>
          if !record.relation.Owned? || !c.fits(owner, record) then Err(Misfit)
          else
            match RestoreChildren(c, owner, ids[1..], child.rest)
            case Err(failure) => Err(failure)
            case Ok(others) =>
              if record.relation.place.Component? then Ok(others.(components := [child.tree] + others.components))
              else Ok(others.(spawned := [child.tree] + others.spawned))
  }

  /** The tree of a whole envelope: nothing may be left over. */
  function RestoreAll(c: Checks, root: Id, records: seq<Record>): Result<Tree, Failure> {
    var i := Locate(records, root);
    if i == |records| then Err(RootAbsent)
    else if !records[i].relation.Root? then Err(NotRoot)
    else
      match Restore(c, records[i], records[..i] + records[i + 1..])
      case Err(failure) => Err(failure)
      case Ok(restored) => if restored.rest != [] then Err(Disconnected) else Ok(restored.tree)
  }

  // ------------------------------------------------------------------------------------------
  // Flattening
  // ------------------------------------------------------------------------------------------

  /** Children before their owner. */
  function Flatten(t: Tree): seq<Record> {
    FlattenAll(t.components) + FlattenAll(t.spawned) + [t.record]
  }

  function FlattenAll(ts: seq<Tree>): seq<Record> {
    if ts == [] then [] else Flatten(ts[0]) + FlattenAll(ts[1..])
  }

  class Buffer {
    var records: seq<Record>

    constructor ()
      ensures records == []
    {
      records := [];
    }
  }

  /** Appends the records of a tree to a buffer. */
  method FlattenInto(t: Tree, output: Buffer)
    modifies output
    ensures output.records == old(output.records) + Flatten(t)
    decreases t
  {
    FlattenEach(t.components, output);
    FlattenEach(t.spawned, output);
    output.records := output.records + [t.record];
  }

  method FlattenEach(ts: seq<Tree>, output: Buffer)
    modifies output
    ensures output.records == old(output.records) + FlattenAll(ts)
    decreases ts
  {
    var i := 0;
    assert ts[0..] == ts;
    while i < |ts|
      invariant 0 <= i <= |ts|
      invariant output.records + FlattenAll(ts[i..]) == old(output.records) + FlattenAll(ts)
    {
      assert ts[i..][1..] == ts[i + 1..];
      FlattenInto(ts[i], output);
      i := i + 1;
    }
    assert ts[|ts|..] == [];
  }

  /** Restores with a store of records from which every visited record is removed. */
  class Restorer {
    var records: seq<Record>

    constructor (records: seq<Record>)
      ensures this.records == records
    {
      this.records := records;
    }

    method RestoreTree(c: Checks, wire: Record) returns (r: Result<Tree, Failure>)
      modifies this
      ensures var spec := Restore(c, wire, old(records));
              && (spec.Err? ==> r == Err(spec.error))
              && (spec.Ok? ==> r == Ok(spec.value.tree) && records == spec.value.rest)
      decreases |records|, 1
    {
      if !c.restorable(wire) {
        return Err(Unrestorable);
      }
      var ids := ChildIds(records, wire.id);
      var components, spawned: seq<Tree> := [], [];
      ghost var start := records;
      var k := 0;
      assert ids[0..] == ids;
      ghost var whole := RestoreChildren(c, wire, ids, start);
      ExtendNothing(whole);
      while k < |ids|
        invariant 0 <= k <= |ids| && |records| <= |start|
        invariant whole == Extend(components, spawned, RestoreChildren(c, wire, ids[k..], records))
      {
        assert ids[k..][1..] == ids[k + 1..];
        var i := Locate(records, ids[k]);
        if i == |records| {
          return Err(Disappeared);
        }
        var record := records[i];
        records := records[..i] + records[i + 1..];
        var child := RestoreTree(c, record);
        if child.Err? {
          return Err(child.error);
        }
        if !record.relation.Owned? || !c.fits(wire, record) {
          return Err(Misfit);
        }
        ghost var rest := RestoreChildren(c, wire, ids[k + 1..], records);
        ExtendMore(components, spawned, child.value, record.relation.place.Component?, rest);
        if record.relation.place.Component? {
          components := components + [child.value];
        } else {
          spawned := spawned + [child.value];
        }
        k := k + 1;
      }
      assert ids[|ids|..] == [] && components + [] == components && spawned + [] == spawned;
      return Ok(Tree(wire, Sort(components), Sort(spawned)));
    }
  }

  /** The children found so far, followed by those still to come. */
  ghost function Extend(components: seq<Tree>, spawned: seq<Tree>, rest: Result<Children, Failure>): Result<Children, Failure> {
    match rest
    case Err(failure) => Err(failure)
    case Ok(others) => Ok(Children(components + others.components, spawned + others.spawned, others.rest))
  }

  lemma ExtendNothing(rest: Result<Children, Failure>)
    ensures Extend([], [], rest) == rest
  {
    if rest.Ok? {
      assert [] + rest.value.components == rest.value.components && [] + rest.value.spawned == rest.value.spawned;
    }
  }

  lemma ExtendMore(components: seq<Tree>, spawned: seq<Tree>, t: Tree, component: bool, rest: Result<Children, Failure>)
    ensures rest.Ok? && component ==>
              Extend(components, spawned, Ok(rest.value.(components := [t] + rest.value.components))) == Extend(components + [t], spawned, rest)
    ensures rest.Ok? && !component ==>
              Extend(components, spawned, Ok(rest.value.(spawned := [t] + rest.value.spawned))) == Extend(components, spawned + [t], rest)
  {
    if rest.Ok? {
      assert components + ([t] + rest.value.components) == (components + [t]) + rest.value.components;
      assert spawned + ([t] + rest.value.spawned) == (spawned + [t]) + rest.value.spawned;
    }
  }
}
