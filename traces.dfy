/** Sequences of handler calls on the document, and what holds after any of
    them: admins never change, registrations are only appended to and keep
    sequential ids, and without deletions add_space never replaces a space. */
module Traces {
  import opened Decimal
  import opened Document

  /** One state-changing request, with its form fields already parsed. */
  datatype Op =
    | AddSpaceOp(name: string, location: string, capacity: int)
    | EditSpaceOp(id: string, name: string, location: string, capacity: int)
    | DeleteSpaceOp(id: string)
    | UpdateOccupancyOp(id: string, occupancy: int)
    | AddEquipmentOp(id: string, equipmentName: string, quantity: int)
    | SubmitRegistrationOp(form: RegistrationForm, submittedAt: string)

  function Apply(d: Doc, op: Op): Doc {
    match op
    case AddSpaceOp(name, location, capacity) => AddSpace(d, name, location, capacity).next
    case EditSpaceOp(id, name, location, capacity) => EditSpace(d, id, name, location, capacity).next
    case DeleteSpaceOp(id) => DeleteSpace(d, id).next
    case UpdateOccupancyOp(id, occupancy) => UpdateOccupancy(d, id, occupancy).next
    case AddEquipmentOp(id, name, quantity) => AddEquipment(d, id, name, quantity).next
    case SubmitRegistrationOp(form, submittedAt) => SubmitRegistration(d, form, submittedAt).next
  }

  /** The document after the requests in order, each on its predecessor's commit. */
  function Run(d: Doc, ops: seq<Op>): Doc
    decreases |ops|
  {
    if ops == [] then d else Run(Apply(d, ops[0]), ops[1..])
  }

  predicate NoDeletes(ops: seq<Op>) {
    forall i :: 0 <= i < |ops| ==> !ops[i].DeleteSpaceOp?
  }

  /** No handler touches `admins`. */
  lemma {:induction false} RunKeepsAdmins(d: Doc, ops: seq<Op>)
    ensures Run(d, ops).admins == d.admins
    decreases |ops|
  {
    if ops != [] {
      RunKeepsAdmins(Apply(d, ops[0]), ops[1..]);
    }
  }

  /** The initial document has one admin, `admin` with password `password`,
      and that stays the only accepted login whatever the handlers did since. */
  lemma LoginAfterRun(ops: seq<Op>, username: string, password: string)
    ensures Login(Run(Init(), ops), username, password) <==>
      username == "admin" && password == "password"
  {
    RunKeepsAdmins(Init(), ops);
  }

  /** Registrations are append-only: the earlier list is a prefix of the later. */
  lemma {:induction false} RunExtendsRegistrations(d: Doc, ops: seq<Op>)
    ensures d.registrations <= Run(d, ops).registrations
    decreases |ops|
  {
    if ops != [] {
      var d' := Apply(d, ops[0]);
      assert d.registrations <= d'.registrations;
      RunExtendsRegistrations(d', ops[1..]);
    }
  }

  /** Every handler keeps registration ids sequential. */
  lemma {:induction false} RunKeepsSequentialIds(d: Doc, ops: seq<Op>)
    requires SequentialIds(d.registrations)
    ensures SequentialIds(Run(d, ops).registrations)
    decreases |ops|
  {
    if ops != [] {
      RunKeepsSequentialIds(Apply(d, ops[0]), ops[1..]);
    }
  }

  /** From the initial document, registrations[i].id == i + 1 for every i. */
  lemma SequentialIdsFromInit(ops: seq<Op>, i: nat)
    requires i < |Run(Init(), ops).registrations|
    ensures Run(Init(), ops).registrations[i].id == i + 1
  {
    RunKeepsSequentialIds(Init(), ops);
  }

  /** A request other than delete_space keeps the space keys dense. */
  lemma ApplyKeepsDenseIds(d: Doc, op: Op)
    requires DenseIds(d.spaces) && !op.DeleteSpaceOp?
    ensures DenseIds(Apply(d, op).spaces)
  {
  }

  /** Without deletions the space keys stay the numerals 1 .. |spaces|. */
  lemma {:induction false} RunWithoutDeletesKeepsDenseIds(d: Doc, ops: seq<Op>)
    requires DenseIds(d.spaces) && NoDeletes(ops)
    ensures DenseIds(Run(d, ops).spaces)
    decreases |ops|
  {
    if ops != [] {
      assert !ops[0].DeleteSpaceOp?;
      ApplyKeepsDenseIds(d, ops[0]);
      var rest := ops[1..];
      assert forall i :: 0 <= i < |rest| ==> rest[i] == ops[i + 1];
      RunWithoutDeletesKeepsDenseIds(Apply(d, ops[0]), rest);
    }
  }

  /** From the initial document and without deletions, add_space always gets
      a free key: it never replaces an existing space. */
  lemma AddSpaceFreshWithoutDeletes(ops: seq<Op>)
    requires NoDeletes(ops)
    ensures NewSpaceId(Run(Init(), ops)) !in Run(Init(), ops).spaces
  {
    RunWithoutDeletesKeepsDenseIds(Init(), ops);
    var d := Run(Init(), ops);
    NumeralsUpToNext(|d.spaces|);
  }

  /** After a deletion the next key can be one already in use, and add_space
      then silently replaces that space: with spaces "1" and "2", delete "1"
      and add a space, and the one under "2" is gone. */
  lemma DeleteThenAddReplaces(d: Doc, a: Space, b: Space, name: string, location: string, capacity: int)
    requires d.spaces == map["1" := a, "2" := b]
    ensures
      var d1 := DeleteSpace(d, "1").next;
      var d2 := AddSpace(d1, name, location, capacity).next;
      && d1.spaces == map["2" := b]
      && NewSpaceId(d1) == "2"
      && d2.spaces == map["2" := Space(name, location, capacity, 0, [])]
      && |d2.spaces| == |d1.spaces| == 1
  {
  }

  /** The same from the initial document: add two spaces, delete "1", add a
      third; the second space is replaced by the third. */
  lemma DeleteThenAddReplacesFromInit(a: Space, b: Space, c: Space)
    requires a.currentOccupancy == 0 && a.equipment == []
    requires b.currentOccupancy == 0 && b.equipment == []
    requires c.currentOccupancy == 0 && c.equipment == []
    ensures
      var ops := [AddSpaceOp(a.name, a.location, a.capacity),
                  AddSpaceOp(b.name, b.location, b.capacity),
                  DeleteSpaceOp("1"),
                  AddSpaceOp(c.name, c.location, c.capacity)];
      Run(Init(), ops).spaces == map["2" := c]
  {
    var ops := [AddSpaceOp(a.name, a.location, a.capacity),
                AddSpaceOp(b.name, b.location, b.capacity),
                DeleteSpaceOp("1"),
                AddSpaceOp(c.name, c.location, c.capacity)];
    assert NatToString(1) == "1";
    var d1 := Apply(Init(), ops[0]);
    assert d1.spaces == map["1" := a];
    assert |d1.spaces| == 1;
    var d2 := Apply(d1, ops[1]);
    assert d2.spaces == map["1" := a, "2" := b];
    DeleteThenAddReplaces(d2, a, b, c.name, c.location, c.capacity);
    RunFour(Init(), ops);
  }

  /** Run over four requests unfolds into four applications. */
  lemma RunFour(d: Doc, ops: seq<Op>)
    requires |ops| == 4
    ensures Run(d, ops) == Apply(Apply(Apply(Apply(d, ops[0]), ops[1]), ops[2]), ops[3])
  {
    var r1, r2, r3 := ops[1..], ops[2..], ops[3..];
    assert r1[0] == ops[1] && r1[1..] == r2;
    assert r2[0] == ops[2] && r2[1..] == r3;
    assert r3[0] == ops[3] && r3[1..] == [];
    var d1 := Apply(d, ops[0]);
    var d2 := Apply(d1, ops[1]);
    var d3 := Apply(d2, ops[2]);
    var d4 := Apply(d3, ops[3]);
    assert Run(d3, r3) == Run(d4, []) == d4;
    assert Run(d2, r2) == Run(d3, r3);
    assert Run(d1, r1) == Run(d2, r2);
  }

  /** The stored space name is a snapshot: renaming the space afterwards does
      not change the registration. */
  lemma RegistrationKeepsSpaceName(d: Doc, form: RegistrationForm, submittedAt: string,
                                   name: string, location: string, capacity: int)
    requires form.space in d.spaces
    ensures
      var d1 := SubmitRegistration(d, form, submittedAt).next;
      var d2 := EditSpace(d1, form.space, name, location, capacity).next;
      && d2.registrations[|d.registrations|].spaceName == d.spaces[form.space].name
      && d2.spaces[form.space].name == name
  {
  }

  /** Deleting a space keeps its registrations, whose space id then dangles. */
  lemma DeleteLeavesDanglingRegistration(d: Doc, form: RegistrationForm, submittedAt: string)
    requires form.space in d.spaces
    ensures
      var d1 := SubmitRegistration(d, form, submittedAt).next;
      var d2 := DeleteSpace(d1, form.space).next;
      && d2.registrations == d1.registrations
      && d2.registrations[|d.registrations|].spaceId !in d2.spaces
  {
  }

  /** edit_space does not re-check occupancy, so the capacity can drop below it. */
  lemma EditCanUndercutOccupancy(d: Doc, id: string, name: string, location: string, capacity: int)
    requires id in d.spaces && capacity < d.spaces[id].currentOccupancy
    ensures
      var s := EditSpace(d, id, name, location, capacity).next.spaces[id];
      s.currentOccupancy > s.capacity
  {
  }

  /** update_occupancy has no lower bound: a negative value within capacity is stored. */
  lemma NegativeOccupancyAccepted(d: Doc, id: string, occupancy: int)
    requires id in d.spaces && occupancy < 0 <= d.spaces[id].capacity
    ensures UpdateOccupancy(d, id, occupancy).message == OccupancyUpdated
    ensures UpdateOccupancy(d, id, occupancy).next.spaces[id].currentOccupancy == occupancy
  {
  }
}
