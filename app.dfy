/** The loaded `data` dictionary as a mutable object, and the request
    handlers that update it in place. Each handler's effect on the document
    is the corresponding step of module Document; the flashed message is its
    result. A handler that fails leaves every field as it was, which is what
    not calling `save_data` amounts to. */
module App {
  import opened Decimal
  import opened Document

  class Data {
    var spaces: map<string, Space>
    var admins: map<string, string>
    var registrations: seq<Registration>

    /** The document value this object currently holds. */
    function Snapshot(): Doc
      reads this
    {
      Doc(spaces, admins, registrations)
    }

    /** init_data: the document written when there is no data file. */
    constructor Init()
      ensures Snapshot() == Document.Init()
    {
      spaces := map[];
      admins := map["admin" := "password"];
      registrations := [];
    }

    /** load_data: an already loaded document. */
    constructor Load(d: Doc)
      ensures Snapshot() == d
    {
      spaces := d.spaces;
      admins := d.admins;
      registrations := d.registrations;
    }

    method AddSpace(name: string, location: string, capacity: int) returns (message: Message)
      modifies this
      ensures Snapshot() == Document.AddSpace(old(Snapshot()), name, location, capacity).next
      ensures message == SpaceAdded
    {
      var newId := NatToString(|spaces| + 1);
      spaces := spaces[newId := Space(name, location, capacity, 0, [])];
      message := SpaceAdded;
    }

    method EditSpace(id: string, name: string, location: string, capacity: int)
      returns (message: Message)
      modifies this
      ensures Snapshot() == Document.EditSpace(old(Snapshot()), id, name, location, capacity).next
      ensures message == Document.EditSpace(old(Snapshot()), id, name, location, capacity).message
    {
      if id !in spaces {
        message := SpaceNotFound;
        return;
      }
      var s := spaces[id];
      s := s.(name := name);
      s := s.(location := location);
      s := s.(capacity := capacity);
      spaces := spaces[id := s];
      message := SpaceUpdated;
    }

    method DeleteSpace(id: string) returns (message: Message)
      modifies this
      ensures Snapshot() == Document.DeleteSpace(old(Snapshot()), id).next
      ensures message == Document.DeleteSpace(old(Snapshot()), id).message
    {
      if id in spaces {
        spaces := spaces - {id};
        message := SpaceDeleted;
      } else {
        message := SpaceNotFound;
      }
    }

    method UpdateOccupancy(id: string, occupancy: int) returns (message: Message)
      modifies this
      ensures Snapshot() == Document.UpdateOccupancy(old(Snapshot()), id, occupancy).next
      ensures message == Document.UpdateOccupancy(old(Snapshot()), id, occupancy).message
    {
      if id in spaces {
        if occupancy <= spaces[id].capacity {
          spaces := spaces[id := spaces[id].(currentOccupancy := occupancy)];
          message := OccupancyUpdated;
        } else {
          message := OccupancyExceedsCapacity;
        }
      } else {
        message := SpaceNotFound;
      }
    }

    method AddEquipment(id: string, name: string, quantity: int) returns (message: Message)
      modifies this
      ensures Snapshot() == Document.AddEquipment(old(Snapshot()), id, name, quantity).next
      ensures message == Document.AddEquipment(old(Snapshot()), id, name, quantity).message
    {
      message := NoMessage;
      if id in spaces {
        var s := spaces[id];
        spaces := spaces[id := s.(equipment := s.equipment + [Equipment(name, quantity)])];
        message := EquipmentAdded;
      }
    }

    method SubmitRegistration(form: RegistrationForm, submittedAt: string)
      returns (message: Message)
      modifies this
      ensures Snapshot() == Document.SubmitRegistration(old(Snapshot()), form, submittedAt).next
      ensures message == Document.SubmitRegistration(old(Snapshot()), form, submittedAt).message
    {
      if form.space !in spaces {
        message := InvalidSpaceSelected;
        return;
      }
      var registration := Registration(
        |registrations| + 1, form.firstName, form.lastName, form.email, form.phone,
        form.company, form.space, spaces[form.space].name, form.membershipType,
        form.startDate, form.additionalInfo, submittedAt);
      registrations := registrations + [registration];
      message := RegistrationSubmitted;
    }

    /** login: check a username and password against `admins`; changes nothing. */
    method CheckCredentials(username: string, password: string) returns (ok: bool)
      ensures ok <==> Login(Snapshot(), username, password)
    {
      ok := username in admins && admins[username] == password;
    }
  }
}
