/** The pure parts of the handlers in server.js: how request fields are
    coerced, which animals a session may list, which health record is
    current, how many applications still wait, and the rollback rule of
    reject. */
module Queries {

  import opened Wrappers
  import opened Tables
  import opened Access

  // ---------------------------------------------------------------------
  // Request fields

  /** JavaScript truthiness of an optional string field of the body:
      absent, null and "" are falsy. */
  predicate Present(v: Option<string>) {
    v.Some? && v.value != ""
  }

  /** `v || fallback` on a string field. */
  function OrElse(v: Option<string>, fallback: string): (r: string)
    ensures Present(v) ==> r == v.value
    ensures !Present(v) ==> r == fallback
    ensures r == "" ==> fallback == ""
  {
    if Present(v) then v.value else fallback
  }

  /** JavaScript truthiness of a numeric id field: absent, null and 0 are
      falsy. */
  predicate IdPresent(v: Option<int>) {
    v.Some? && v.value != 0
  }

  /** A JSON value as it may arrive in a flag field of the body. */
  datatype Json = Missing | Null | Bool(b: bool) | Number(n: int) | Text(s: string)

  predicate Truthy(v: Json) {
    match v
    case Missing => false
    case Null => false
    case Bool(b) => b
    case Number(n) => n != 0
    case Text(s) => s != ""
  }

  /** `v ? 1 : 0`, the coercion of the health flags. */
  function Flag(v: Json): (b: Bit)
    ensures b == 1 <==> Truthy(v)
    ensures b == 0 <==> !Truthy(v)
  {
    if Truthy(v) then 1 else 0
  }

  // ---------------------------------------------------------------------
  // Writes of the animals table

  /** `UPDATE animals SET status=? WHERE id=?`: the row with that id, if
      any, gets the new status; nothing else changes. */
  function UpdateStatus(animals: map<int, Animal>, id: int, s: AnimalStatus): (r: map<int, Animal>)
    ensures r.Keys == animals.Keys
    ensures id in r ==> r[id] == animals[id].(status := s)
    ensures forall k | k in r && k != id :: r[k] == animals[k]
  {
    if id in animals then animals[id := animals[id].(status := s)] else animals
  }

  // ---------------------------------------------------------------------
  // GET /api/animals

  /** Sessions whose listing is not restricted to published animals. */
  predicate SeesAll(viewer: Option<SessionUser>)
    ensures SeesAll(viewer) <==> RequireRole(viewer, [Admin, Registrar]) == Proceed
  {
    viewer.Some? && (viewer.value.role == Admin || viewer.value.role == Registrar)
  }

  predicate Visible(viewer: Option<SessionUser>, a: Animal) {
    SeesAll(viewer) || a.status == Published
  }

  /** Every row is stored under its own id. */
  ghost predicate KeyedById(animals: map<int, Animal>) {
    forall id | id in animals :: animals[id].id == id
  }

  /** The rows with id below `bound` that the viewer may see, ordered by id
      descending (`ORDER BY id DESC`). */
  function Listing(animals: map<int, Animal>, viewer: Option<SessionUser>, bound: nat): (rows: seq<Animal>)
    requires KeyedById(animals)
    ensures forall i | 0 <= i < |rows| ::
      && rows[i].id in animals && animals[rows[i].id] == rows[i]
      && 0 <= rows[i].id < bound && Visible(viewer, rows[i])
    ensures forall id | id in animals && 0 <= id < bound && Visible(viewer, animals[id]) ::
      animals[id] in rows
    ensures forall i, j | 0 <= i < j < |rows| :: rows[i].id > rows[j].id
    decreases bound
  {
    if bound == 0 then []
    else
      var id := bound - 1;
      var rest := Listing(animals, viewer, id);
      if id in animals && Visible(viewer, animals[id]) then [animals[id]] + rest else rest
  }

  /** `rows` keeping only those with status published, in order. */
  function PublishedOnly(rows: seq<Animal>): (r: seq<Animal>)
    ensures forall a | a in r :: a in rows && a.status == Published
  {
    if rows == [] then []
    else (if rows[0].status == Published then [rows[0]] else []) + PublishedOnly(rows[1..])
  }

  /** The filter keeps every published row. */
  lemma {:induction false} PublishedOnlyKeepsPublished(rows: seq<Animal>)
    ensures forall a | a in rows && a.status == Published :: a in PublishedOnly(rows)
  {
    if rows != [] {
      PublishedOnlyKeepsPublished(rows[1..]);
      assert forall a | a in rows :: a == rows[0] || a in rows[1..];
    }
  }

  /** The filter keeps order: filtering a concatenation concatenates the
      filtered parts. */
  lemma {:induction false} PublishedOnlyAppend(front: seq<Animal>, back: seq<Animal>)
    ensures PublishedOnly(front + back) == PublishedOnly(front) + PublishedOnly(back)
  {
    if front != [] {
      assert (front + back)[0] == front[0];
      assert (front + back)[1..] == front[1..] + back;
      PublishedOnlyAppend(front[1..], back);
    } else {
      assert front + back == back;
    }
  }

  /** The listing of an anonymous or `user` session is exactly the staff
      listing with everything but the published rows removed. */
  lemma {:induction false} PublicListingFiltersStaffListing(
    animals: map<int, Animal>, staff: Option<SessionUser>, viewer: Option<SessionUser>, bound: nat)
    requires KeyedById(animals)
    requires SeesAll(staff) && !SeesAll(viewer)
    ensures Listing(animals, viewer, bound) == PublishedOnly(Listing(animals, staff, bound))
  {
    if bound > 0 {
      var id := bound - 1;
      PublicListingFiltersStaffListing(animals, staff, viewer, id);
      var staffRest := Listing(animals, staff, id);
      if id in animals {
        var row := [animals[id]] + staffRest;
        assert row[0] == animals[id] && row[1..] == staffRest;
      }
    }
  }

  /** Staff sessions see every row below the bound. */
  lemma StaffListingIsComplete(animals: map<int, Animal>, staff: Option<SessionUser>, bound: nat)
    requires KeyedById(animals)
    requires SeesAll(staff)
    requires forall id | id in animals :: 0 <= id < bound
    ensures forall a | a in animals.Values :: a in Listing(animals, staff, bound)
    ensures forall a | a in Listing(animals, staff, bound) :: a in animals.Values
  {
  }

  // ---------------------------------------------------------------------
  // GET /api/animals/:id

  /** The health part of the detail response. */
  datatype HealthView = HealthView(
    vaccinated: Bit,
    neutered: Bit,
    dewormed: Bit,
    notes: string,
    updatedAt: Option<Timestamp>)

  /** What the detail view shows when the animal has no health record. */
  const NoHealthRecord := HealthView(0, 0, 0, "暂无健康记录", None)

  function ViewOf(r: HealthRecord): HealthView {
    HealthView(r.vaccinated, r.neutered, r.dewormed, r.notes, Some(r.updatedAt))
  }

  /** The columns of an animal that the detail view selects. */
  datatype AnimalCard = AnimalCard(
    id: int,
    name: string,
    species: string,
    sex: string,
    age: string,
    location: string,
    description: string,
    status: AnimalStatus)

  function Card(a: Animal): AnimalCard {
    AnimalCard(a.id, a.name, a.species, a.sex, a.age, a.location, a.description, a.status)
  }

  /** `ORDER BY updated_at DESC LIMIT 1` over an animal's records: a record
      of that animal with no later record beside it, or none when the
      animal has none. Among equal times the later inserted is taken. */
  function Latest(records: seq<HealthRecord>, animalId: int): (r: Option<HealthRecord>)
    ensures r.None? <==> forall i | 0 <= i < |records| :: records[i].animalId != animalId
    ensures r.Some? ==> r.value in records && r.value.animalId == animalId
    ensures r.Some? ==> forall i | 0 <= i < |records| && records[i].animalId == animalId ::
      records[i].updatedAt <= r.value.updatedAt
    decreases |records|
  {
    if records == [] then None
    else
      var last := records[|records| - 1];
      var earlier := Latest(records[..|records| - 1], animalId);
      if last.animalId == animalId && (earlier.None? || earlier.value.updatedAt <= last.updatedAt)
      then Some(last)
      else earlier
  }

  /** The health part of the detail view: the latest record, or the zeroed
      default. */
  function CurrentHealth(records: seq<HealthRecord>, animalId: int): (h: HealthView)
    ensures (forall i | 0 <= i < |records| :: records[i].animalId != animalId) ==> h == NoHealthRecord
    ensures (exists i | 0 <= i < |records| :: records[i].animalId == animalId) ==>
      exists r | r in records ::
        && r.animalId == animalId && h == ViewOf(r)
        && forall i | 0 <= i < |records| && records[i].animalId == animalId ::
             records[i].updatedAt <= r.updatedAt
  {
    match Latest(records, animalId)
    case None => NoHealthRecord
    case Some(r) => ViewOf(r)
  }

  /** A record strictly more recent than every other record of its animal
      becomes that animal's current health state, whatever order SQLite
      gives to equal times. */
  lemma NewestRecordIsCurrent(records: seq<HealthRecord>, r: HealthRecord)
    requires forall i | 0 <= i < |records| && records[i].animalId == r.animalId ::
      records[i].updatedAt < r.updatedAt
    ensures Latest(records + [r], r.animalId) == Some(r)
    ensures CurrentHealth(records + [r], r.animalId) == ViewOf(r)
  {
  }

  /** A record of one animal leaves the health state of every other animal
      as it was. */
  lemma OtherRecordKeepsCurrent(records: seq<HealthRecord>, r: HealthRecord, animalId: int)
    requires r.animalId != animalId
    ensures Latest(records + [r], animalId) == Latest(records, animalId)
    ensures CurrentHealth(records + [r], animalId) == CurrentHealth(records, animalId)
  {
  }

  // ---------------------------------------------------------------------
  // POST /api/admin/adoptions/:id/reject

  /** `SELECT COUNT(*) ... WHERE animal_id=? AND status='submitted'` */
  function SubmittedCount(apps: map<int, Application>, animalId: int): (n: nat)
    ensures n == 0 <==> forall id | id in apps && apps[id].animalId == animalId :: apps[id].status != Submitted
  {
    var waiting := set id | id in apps && apps[id].animalId == animalId && apps[id].status == Submitted;
    assert (forall id | id in apps && apps[id].animalId == animalId :: apps[id].status != Submitted)
      ==> waiting == {};
    assert forall id | id in apps && apps[id].animalId == animalId && apps[id].status == Submitted ::
      id in waiting;
    |waiting|
  }

  /** The count is positive exactly when some application of the animal is
      still submitted. */
  lemma SubmittedCountPositive(apps: map<int, Application>, animalId: int)
    ensures SubmittedCount(apps, animalId) > 0 <==>
      exists id | id in apps :: apps[id].animalId == animalId && apps[id].status == Submitted
  {
  }

  /** How reject ends once the application itself is rejected; each case
      answers 200 with its own message. */
  datatype RejectOutcome =
    | OthersPending   // another submitted application remains: animal untouched
    | AnimalMissing   // no animal row: nothing to roll back
    | KeptDraft       // the animal was unpublished: no automatic publish
    | RolledBack      // the animal is published again

  /** The rollback rule: nothing while other applications wait, nothing for
      a missing or draft animal, otherwise back to published. */
  function RejectRollback(pending: nat, animal: Option<AnimalStatus>): (o: RejectOutcome)
    ensures o == RolledBack <==> pending == 0 && animal.Some? && animal.value != Draft
    ensures pending > 0 ==> o == OthersPending
    ensures o == OthersPending <==> pending > 0
    ensures pending == 0 && animal.None? ==> o == AnimalMissing
    ensures pending == 0 && animal == Some(Draft) ==> o == KeptDraft
    ensures animal == Some(Draft) ==> o != RolledBack
  {
    if pending > 0 then OthersPending
    else match animal
      case None => AnimalMissing
      case Some(Draft) => KeptDraft
      case Some(_) => RolledBack
  }
}
