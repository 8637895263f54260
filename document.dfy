/** The in-memory application document that every request handler loads,
    and each handler's effect on it as a pure step from one document value
    to the next. */
module Document {
  import opened Decimal

  datatype Option<T> = None | Some(value: T)

  /** One item of a space's equipment list. */
  datatype Equipment = Equipment(name: string, quantity: int)

  /** A coworking space record. Nothing ties capacity and occupancy together
      except the guard of UpdateOccupancy. */
  datatype Space = Space(
    name: string,
    location: string,
    capacity: int,
    currentOccupancy: int,
    equipment: seq<Equipment>)

  /** The fields of the registration form, as submitted. */
  datatype RegistrationForm = RegistrationForm(
    firstName: string,
    lastName: string,
    email: string,
    phone: string,
    company: string,
    space: string,
    membershipType: string,
    startDate: string,
    additionalInfo: string)

  /** A stored registration: the form, its sequential id, a snapshot of the
      space's name and the submission timestamp. */
  datatype Registration = Registration(
    id: nat,
    firstName: string,
    lastName: string,
    email: string,
    phone: string,
    company: string,
    spaceId: string,
    spaceName: string,
    membershipType: string,
    startDate: string,
    additionalInfo: string,
    submittedAt: string)

  /** The whole document: `coworking_spaces`, `admins` and `registrations`. */
  datatype Doc = Doc(
    spaces: map<string, Space>,
    admins: map<string, string>,
    registrations: seq<Registration>)

  /** The message a handler flashes (NoMessage where it flashes nothing). */
  datatype Message =
    | SpaceAdded
    | SpaceUpdated
    | SpaceDeleted
    | OccupancyUpdated
    | EquipmentAdded
    | RegistrationSubmitted
    | SpaceNotFound
    | OccupancyExceedsCapacity
    | InvalidSpaceSelected
    | NoMessage

  /** The document a handler commits and the message it flashes. */
  datatype Step = Step(next: Doc, message: Message)

  /** The document written when no data file exists yet. */
  function Init(): Doc {
    Doc(map[], map["admin" := "password"], [])
  }

  /** The login check: the user is an admin and the password is the stored one. */
  predicate Login(d: Doc, username: string, password: string) {
    username in d.admins && d.admins[username] == password
  }

  /** The record shown by the space detail page, if the id is present. */
  function FindSpace(d: Doc, id: string): (r: Option<Space>)
    ensures r.Some? <==> id in d.spaces
    ensures r.Some? ==> r.value == d.spaces[id]
  {
    if id in d.spaces then Some(d.spaces[id]) else None
  }

  /** The key add_space stores its record under: the numeral of one more
      than the number of spaces. */
  function NewSpaceId(d: Doc): (id: string)
    ensures IsDigits(id) && ParseNat(id) == |d.spaces| + 1
  {
    ParseNatToString(|d.spaces| + 1);
    NatToString(|d.spaces| + 1)
  }

  /** add_space: store a fresh record under NewSpaceId, replacing whatever
      record that key already had. */
  function AddSpace(d: Doc, name: string, location: string, capacity: int): (r: Step)
    ensures r.message == SpaceAdded
    ensures r.next.spaces.Keys == d.spaces.Keys + {NewSpaceId(d)}
    ensures r.next.spaces[NewSpaceId(d)] == Space(name, location, capacity, 0, [])
    ensures forall k :: k in d.spaces && k != NewSpaceId(d) ==> r.next.spaces[k] == d.spaces[k]
    ensures NewSpaceId(d) in d.spaces ==> |r.next.spaces| == |d.spaces|
    ensures NewSpaceId(d) !in d.spaces ==> |r.next.spaces| == |d.spaces| + 1
    ensures r.next.admins == d.admins && r.next.registrations == d.registrations
  {
    var id := NewSpaceId(d);
    Step(d.(spaces := d.spaces[id := Space(name, location, capacity, 0, [])]), SpaceAdded)
  }

  /** edit_space: overwrite name, location and capacity of a present space. */
  function EditSpace(d: Doc, id: string, name: string, location: string, capacity: int): (r: Step)
    ensures id !in d.spaces ==> r == Step(d, SpaceNotFound)
    ensures id in d.spaces ==>
      && r.message == SpaceUpdated
      && r.next.spaces.Keys == d.spaces.Keys
      && r.next.spaces[id].name == name
      && r.next.spaces[id].location == location
      && r.next.spaces[id].capacity == capacity
      && r.next.spaces[id].currentOccupancy == d.spaces[id].currentOccupancy
      && r.next.spaces[id].equipment == d.spaces[id].equipment
      && (forall k :: k in d.spaces && k != id ==> r.next.spaces[k] == d.spaces[k])
      && r.next.admins == d.admins
      && r.next.registrations == d.registrations
  {
    if id !in d.spaces then Step(d, SpaceNotFound)
    else
      var s := d.spaces[id];
      Step(d.(spaces := d.spaces[id := s.(name := name, location := location, capacity := capacity)]),
           SpaceUpdated)
  }

  /** delete_space: remove a present key; registrations are left as they are. */
  function DeleteSpace(d: Doc, id: string): (r: Step)
    ensures id !in d.spaces ==> r == Step(d, SpaceNotFound)
    ensures id in d.spaces ==>
      && r.message == SpaceDeleted
      && r.next.spaces.Keys == d.spaces.Keys - {id}
      && |r.next.spaces| == |d.spaces| - 1
      && (forall k :: k in r.next.spaces ==> r.next.spaces[k] == d.spaces[k])
      && r.next.admins == d.admins
      && r.next.registrations == d.registrations
  {
    if id !in d.spaces then Step(d, SpaceNotFound)
    else Step(d.(spaces := d.spaces - {id}), SpaceDeleted)
  }

  /** update_occupancy: set the occupancy of a present space when it does not
      exceed the capacity; no lower bound is checked. */
  function UpdateOccupancy(d: Doc, id: string, occupancy: int): (r: Step)
    ensures r.message == SpaceNotFound <==> id !in d.spaces
    ensures r.message == OccupancyExceedsCapacity <==>
      id in d.spaces && occupancy > d.spaces[id].capacity
    ensures r.message != OccupancyUpdated ==> r.next == d
    ensures r.message == OccupancyUpdated ==>
      && id in d.spaces
      && r.next.spaces.Keys == d.spaces.Keys
      && r.next.spaces[id] == d.spaces[id].(currentOccupancy := occupancy)
      && r.next.spaces[id].currentOccupancy <= r.next.spaces[id].capacity
      && (forall k :: k in d.spaces && k != id ==> r.next.spaces[k] == d.spaces[k])
      && r.next.admins == d.admins
      && r.next.registrations == d.registrations
    ensures r.message in {SpaceNotFound, OccupancyExceedsCapacity, OccupancyUpdated}
  {
    if id !in d.spaces then Step(d, SpaceNotFound)
    else if occupancy <= d.spaces[id].capacity then
      var s := d.spaces[id];
      Step(d.(spaces := d.spaces[id := s.(currentOccupancy := occupancy)]), OccupancyUpdated)
    else Step(d, OccupancyExceedsCapacity)
  }

  /** add_equipment: append one item to a present space's equipment list;
      an absent space changes nothing and flashes nothing. */
  function AddEquipment(d: Doc, id: string, name: string, quantity: int): (r: Step)
    ensures id !in d.spaces ==> r == Step(d, NoMessage)
    ensures id in d.spaces ==>
      && r.message == EquipmentAdded
      && r.next.spaces.Keys == d.spaces.Keys
      && |r.next.spaces[id].equipment| == |d.spaces[id].equipment| + 1
      && r.next.spaces[id].equipment[..|d.spaces[id].equipment|] == d.spaces[id].equipment
      && r.next.spaces[id].equipment[|d.spaces[id].equipment|] == Equipment(name, quantity)
      && r.next.spaces[id] == d.spaces[id].(equipment := r.next.spaces[id].equipment)
      && (forall k :: k in d.spaces && k != id ==> r.next.spaces[k] == d.spaces[k])
      && r.next.admins == d.admins
      && r.next.registrations == d.registrations
  {
    if id !in d.spaces then Step(d, NoMessage)
    else
      var s := d.spaces[id];
      Step(d.(spaces := d.spaces[id := s.(equipment := s.equipment + [Equipment(name, quantity)])]),
           EquipmentAdded)
  }

  /** Registration ids are 1, 2, 3, ... in list order. */
  predicate SequentialIds(regs: seq<Registration>) {
    forall i :: 0 <= i < |regs| ==> regs[i].id == i + 1
  }

  /** submit_registration: for a present space, append one record whose id is
      one more than the number of registrations and whose space name is the
      space's current name; spaces (occupancy included) are not changed. */
  function SubmitRegistration(d: Doc, form: RegistrationForm, submittedAt: string): (r: Step)
    ensures form.space !in d.spaces ==> r == Step(d, InvalidSpaceSelected)
    ensures form.space in d.spaces ==>
      && r.message == RegistrationSubmitted
      && |r.next.registrations| == |d.registrations| + 1
      && r.next.registrations[..|d.registrations|] == d.registrations
      && r.next.registrations[|d.registrations|] == Registration(
           |d.registrations| + 1, form.firstName, form.lastName, form.email, form.phone,
           form.company, form.space, d.spaces[form.space].name, form.membershipType,
           form.startDate, form.additionalInfo, submittedAt)
      && r.next.spaces == d.spaces
      && r.next.admins == d.admins
    ensures SequentialIds(d.registrations) ==> SequentialIds(r.next.registrations)
  {
    if form.space !in d.spaces then Step(d, InvalidSpaceSelected)
    else
      var reg := Registration(
        |d.registrations| + 1, form.firstName, form.lastName, form.email, form.phone,
        form.company, form.space, d.spaces[form.space].name, form.membershipType,
        form.startDate, form.additionalInfo, submittedAt);
      Step(d.(registrations := d.registrations + [reg]), RegistrationSubmitted)
  }

  /** The space keys are exactly the numerals 1 .. |spaces|, as they are while
      no space has been deleted. */
  predicate DenseIds(spaces: map<string, Space>) {
    spaces.Keys == NumeralsUpTo(|spaces|)
  }

  /** With dense keys, add_space gets a key that is still free, so it adds a
      space instead of replacing one, and the keys stay dense. */
  lemma AddSpaceKeepsDenseIds(d: Doc, name: string, location: string, capacity: int)
    requires DenseIds(d.spaces)
    ensures NewSpaceId(d) !in d.spaces
    ensures DenseIds(AddSpace(d, name, location, capacity).next.spaces)
  {
    NumeralsUpToNext(|d.spaces|);
  }
}
