# Coworking admin panel: the data document and its handlers

The admin panel keeps one JSON document: the `coworking_spaces` map keyed by
string id, the `admins` credential map, and the append-only `registrations`
list. Every request handler loads that document, changes it in place in one
small deterministic step, and writes it back. This project models that
document and those steps:

- `decimal.dfy` (module `Decimal`): Python's `str(n)` for the numeric space
  ids, plus a parser that reads a numeral back, with the round trip proved.
- `document.dfy` (module `Document`): the document as a value (`Doc`, `Space`,
  `Equipment`, `Registration`). Each handler is a function from the old
  document to a `Step`, which holds the committed document and the flashed
  message. Its `ensures` state the guard, the exact change and the frame
  ("nothing else changes").
- `app.dfy` (module `App`): the loaded `data` object as class `Data`. It has
  map and seq fields, and its handler methods update those fields in place.
  Each method is proved equal to the matching `Document` step.
- `traces.dfy` (module `Traces`): any sequence of requests (`Run`), and what
  holds after one:
  - `admins` never changes, so `admin`/`password` is always the only login;
  - registrations are only appended to, and their ids stay `1, 2, 3, …`;
  - without deletions, `add_space` never overwrites a space;
  - after a deletion, it can (the quirk below).

The add-after-delete quirk is modelled as the code has it. `add_space` takes
the key `str(len(coworking_spaces) + 1)` (app.py:105) and assigns to it
(app.py:107). After a deletion that key can already be in use, so the new
space silently replaces the existing one. `Traces.DeleteThenAddReplaces`
shows this on a document, and `Traces.DeleteThenAddReplacesFromInit` shows it
from the initial document.

Where the description of the system and the code disagree, the model follows
the code:
- creating a space does not reject a capacity `<= 0`;
- `update_occupancy` checks no lower bound;
- a registration does not increment occupancy;
- there are no meeting rooms, seat layouts or seat claims.

## Model

| member | source | states |
|---|---|---|
| Decimal.NatToString | app.py:105 | `str(n)` is a non-empty string of ASCII digits with no leading zero unless n is 0 |
| Decimal.ParseNatToString | app.py:105 | reading a numeral back gives the number it was written from (round trip) |
| Decimal.NatToStringInjective | app.py:105 | two numbers get the same id string exactly when they are equal |
| Decimal.NumeralsUpToNext | app.py:105 | the ids "1".."n" are n distinct strings, and str(n+1) is not among them |
| Document.FindSpace | app.py:89-93 | the space detail lookup finds a record exactly when the id is a key, and then returns that key's record |
| Document.NewSpaceId | app.py:105 | the new id is a numeral whose value is the number of spaces plus one |
| Document.AddSpace | app.py:104-113 | the new key holds a record with the given name, location and capacity, occupancy 0 and no equipment; every other key keeps its record; if the new key was already in use its record is replaced and the count does not grow; admins and registrations are unchanged |
| Document.EditSpace | app.py:124-132 | an absent id leaves the document unchanged with "Space not found"; a present id gets exactly its name, location and capacity overwritten, keeping occupancy and equipment (capacity may drop below occupancy); other spaces, admins and registrations are unchanged |
| Document.DeleteSpace | app.py:143-149 | a present key is removed and nothing else changes (registrations included, so no cascade); an absent key leaves the document unchanged with "Space not found" |
| Document.UpdateOccupancy | app.py:155-166 | occupancy is set only when the space exists and the value is at most its capacity, so afterwards occupancy <= capacity; otherwise the document is unchanged and the message says which guard failed |
| Document.AddEquipment | app.py:173-183 | on a present space exactly one {name, quantity} is appended at the end and earlier items keep their order; an absent space changes nothing and flashes nothing |
| Document.SubmitRegistration | app.py:208-235 | an unknown space id leaves the document unchanged with "Invalid space selected"; otherwise exactly one record is appended, with id = old length + 1, the given space id and that space's current name; spaces and admins are unchanged; sequential ids are preserved |
| Document.AddSpaceKeepsDenseIds | app.py:105-107 | while the keys are exactly "1".."n", the new key is free and the keys stay "1".."n+1" |
| App.Data.Init | app.py:16-22 | the initial document has no spaces, one admin `admin`/`password` and no registrations |
| App.Data.Load | app.py:27-35 | a loaded document is held as it was read |
| App.Data.AddSpace | app.py:99-117 | stores the new record in place; the new document is Document.AddSpace of the old one |
| App.Data.EditSpace | app.py:123-135 | overwrites the three fields in place; new document and message as in Document.EditSpace |
| App.Data.DeleteSpace | app.py:142-150 | deletes the key in place; new document and message as in Document.DeleteSpace |
| App.Data.UpdateOccupancy | app.py:154-168 | assigns occupancy in place under the capacity guard; new document and message as in Document.UpdateOccupancy |
| App.Data.AddEquipment | app.py:172-185 | appends to the equipment list in place; new document and message as in Document.AddEquipment |
| App.Data.SubmitRegistration | app.py:195-238 | appends the registration in place; new document and message as in Document.SubmitRegistration |
| App.Data.CheckCredentials | app.py:63-69 | login succeeds exactly when the username is a key of admins and its stored password equals the given one |
| Traces.RunKeepsAdmins | app.py:96-238 | no sequence of handler calls changes `admins` |
| Traces.LoginAfterRun | app.py:18-20 | after any sequence of handler calls from the initial document, login succeeds exactly for `admin`/`password` |
| Traces.RunExtendsRegistrations | app.py:232 | after any sequence of calls, the earlier registration list is a prefix of the later one (append-only) |
| Traces.RunKeepsSequentialIds | app.py:217-232 | every sequence of calls keeps registrations[i].id == i + 1 |
| Traces.SequentialIdsFromInit | app.py:21 | starting from the initial empty list, registrations[i].id == i + 1 for every index after any calls |
| Traces.ApplyKeepsDenseIds | app.py:96-238 | every handler other than delete_space keeps the space keys exactly "1".."n" |
| Traces.RunWithoutDeletesKeepsDenseIds | app.py:105-107 | without deletions the space keys stay exactly "1".."n" |
| Traces.AddSpaceFreshWithoutDeletes | app.py:105-107 | from the initial document and without deletions, add_space's key is always free, so no record is overwritten |
| Traces.DeleteThenAddReplaces | app.py:105-107 | with spaces "1" and "2", deleting "1" and adding a space stores the new record under "2", replacing the old one, and the count stays 1 |
| Traces.DeleteThenAddReplacesFromInit | app.py:143-145 | from the initial document, add, add, delete "1", add leaves only the third space, under "2" |
| Traces.RegistrationKeepsSpaceName | app.py:224 | a registration's space name is a snapshot: renaming the space later leaves it unchanged |
| Traces.DeleteLeavesDanglingRegistration | app.py:143-146 | deleting a space keeps its registrations, whose space id then names no space |
| Traces.EditCanUndercutOccupancy | app.py:130-132 | edit_space can set a capacity below the current occupancy |
| Traces.NegativeOccupancyAccepted | app.py:158-160 | update_occupancy accepts a negative occupancy within capacity |

## Left out

- Flask routing, the `admin_required` session decorator, session, flash rendering, redirects and templates (app.py:1-8, app.py:43-94, app.py:187-191, app.py:240-244). Each flashed message is modelled as a `Message` value. The GET branches of `add_space` and `edit_space` only render a page.
- `logout` (app.py:73-77): it only clears the session.
- JSON file persistence: `load_data`, `save_data` and the file-existence check in `init_data` (app.py:14-40). The document is taken as already loaded. A handler's committed document stands for `save_data`; an error path commits the old document, which equals not saving.
- `int(...)` parsing of form fields and its `ValueError` (app.py:102, app.py:132, app.py:155, app.py:174). Handlers take integers.
- `datetime.now().isoformat()` (app.py:228): the timestamp is an opaque `submittedAt` parameter.
- Concurrency: two requests that load the same file can lose each other's update. `Run` applies requests one after another.
- Seat layouts, seat claims, meeting rooms and `/api/seats`: app.py does not implement them.
- Extra fields a loaded JSON record might carry beyond name, location, capacity, occupancy and equipment.
