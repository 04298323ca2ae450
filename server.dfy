/** The handlers of server.js over the animals, adoption_applications and
    health_records tables, kept in memory. The clock and the session are
    parameters of every handler. */
module Server {

  import opened Wrappers
  import opened Http
  import opened Tables
  import opened Access
  import opened Queries

  /** requireRole("registrar", "admin") */
  const Staff: seq<Role> := [Registrar, Admin]
  /** requireRole("admin") */
  const AdminOnly: seq<Role> := [Admin]
  /** requireRole("user") */
  const UserOnly: seq<Role> := [User]

  /** The inline guard of the health insert: 403 when there is no session
      user as well as for a role other than registrar or admin. */
  function HealthGuard(user: Option<SessionUser>): (d: Decision)
    ensures d == Proceed <==> user.Some? && user.value.role in Staff
    ensures d.Deny? ==> d.reply == Forbidden
  {
    if user.None? || user.value.role !in Staff then Deny(Forbidden) else Proceed
  }

  /** The health guard agrees with requireRole("registrar", "admin") for a
      logged-in user and differs from it, 403 against 401, without one. */
  lemma HealthGuardVersusRequireRole(user: Option<SessionUser>)
    ensures user.Some? ==> HealthGuard(user) == RequireRole(user, Staff)
    ensures user.None? ==> HealthGuard(user) == Deny(Forbidden) && RequireRole(user, Staff) == Deny(Unauthorized)
  {
  }

  /** The body of a successful detail response. */
  datatype Detail = Detail(animal: AnimalCard, health: HealthView)

  class Store {
    var animals: map<int, Animal>
    var applications: map<int, Application>
    var healthRecords: seq<HealthRecord>
    /** The AUTOINCREMENT counters: the id the next insert receives. */
    var nextAnimalId: nat
    var nextApplicationId: nat

    /** Every row sits under its own id, below the counter of its table;
        health record ids are 1, 2, ... in insertion order. */
    ghost predicate Valid()
      reads this
    {
      && 1 <= nextAnimalId && 1 <= nextApplicationId
      && (forall id | id in animals :: 1 <= id < nextAnimalId && animals[id].id == id)
      && (forall id | id in applications :: 1 <= id < nextApplicationId && applications[id].id == id)
      && (forall i | 0 <= i < |healthRecords| :: healthRecords[i].id == i + 1)
    }

    constructor ()
      ensures Valid()
      ensures animals == map[] && applications == map[] && healthRecords == []
    {
      animals, applications, healthRecords := map[], map[], [];
      nextAnimalId, nextApplicationId := 1, 1;
    }

    /** POST /api/animals */
    method CreateAnimal(
      session: Option<SessionUser>, name: Option<string>, species: Option<string>,
      fosterType: Option<string>, sex: Option<string>, age: Option<string>,
      location: Option<string>, description: Option<string>, now: Timestamp)
      returns (status: Status, animalId: Option<int>)
      requires Valid()
      modifies this
      ensures Valid()
      ensures RequireRole(session, Staff).Deny? ==>
        status == RequireRole(session, Staff).reply && animalId == None && unchanged(this)
      ensures RequireRole(session, Staff) == Proceed && !(Present(name) && Present(species)) ==>
        status == BadRequest && animalId == None && unchanged(this)
      ensures RequireRole(session, Staff) == Proceed && Present(name) && Present(species) ==>
        && status == Ok
        && animalId == Some(old(nextAnimalId))
        && old(nextAnimalId) !in old(animals)
        && animals == old(animals)[old(nextAnimalId) := Animal(
             old(nextAnimalId), name.value, species.value, OrElse(sex, ""), OrElse(age, ""),
             Draft, OrElse(fosterType, "family"), OrElse(description, ""), OrElse(location, ""),
             session.value.id, now)]
        && nextAnimalId == old(nextAnimalId) + 1
        && applications == old(applications) && healthRecords == old(healthRecords)
        && nextApplicationId == old(nextApplicationId)
    {
      var gate := RequireRole(session, Staff);
      if gate.Deny? {
        return gate.reply, None;
      }
      if !Present(name) || !Present(species) {
        return BadRequest, None;
      }
      var id := nextAnimalId;
      var row := Animal(
        id, name.value, species.value, OrElse(sex, ""), OrElse(age, ""),
        Draft, OrElse(fosterType, "family"), OrElse(description, ""), OrElse(location, ""),
        session.value.id, now);
      animals := animals[id := row];
      nextAnimalId := nextAnimalId + 1;
      status, animalId := Ok, Some(id);
    }

    /** POST /api/animals/:id/publish: unconditional, and 200 even when no
        row has that id. */
    method Publish(session: Option<SessionUser>, id: int) returns (status: Status)
      requires Valid()
      modifies this
      ensures Valid()
      ensures RequireRole(session, Staff).Deny? ==>
        status == RequireRole(session, Staff).reply && unchanged(this)
      ensures RequireRole(session, Staff) == Proceed ==>
        && status == Ok
        && animals == UpdateStatus(old(animals), id, Published)
        && applications == old(applications) && healthRecords == old(healthRecords)
        && nextAnimalId == old(nextAnimalId) && nextApplicationId == old(nextApplicationId)
    {
      var gate := RequireRole(session, Staff);
      if gate.Deny? {
        return gate.reply;
      }
      animals := UpdateStatus(animals, id, Published);
      status := Ok;
    }

    /** POST /api/admin/animals/:id/unpublish: unconditional, and 200 even
        when no row has that id. */
    method Unpublish(session: Option<SessionUser>, id: int) returns (status: Status)
      requires Valid()
      modifies this
      ensures Valid()
      ensures RequireRole(session, AdminOnly).Deny? ==>
        status == RequireRole(session, AdminOnly).reply && unchanged(this)
      ensures RequireRole(session, AdminOnly) == Proceed ==>
        && status == Ok
        && animals == UpdateStatus(old(animals), id, Draft)
        && applications == old(applications) && healthRecords == old(healthRecords)
        && nextAnimalId == old(nextAnimalId) && nextApplicationId == old(nextApplicationId)
    {
      var gate := RequireRole(session, AdminOnly);
      if gate.Deny? {
        return gate.reply;
      }
      animals := UpdateStatus(animals, id, Draft);
      status := Ok;
    }

    /** POST /api/admin/animals/:id/publish: like publish, but 404 when the
        update changed no row. */
    method AdminPublish(session: Option<SessionUser>, id: int) returns (status: Status)
      requires Valid()
      modifies this
      ensures Valid()
      ensures RequireRole(session, AdminOnly).Deny? ==>
        status == RequireRole(session, AdminOnly).reply && unchanged(this)
      ensures RequireRole(session, AdminOnly) == Proceed && id !in old(animals) ==>
        status == NotFound && unchanged(this)
      ensures RequireRole(session, AdminOnly) == Proceed && id in old(animals) ==>
        && status == Ok
        && animals == old(animals)[id := old(animals)[id].(status := Published)]
        && applications == old(applications) && healthRecords == old(healthRecords)
        && nextAnimalId == old(nextAnimalId) && nextApplicationId == old(nextApplicationId)
    {
      var gate := RequireRole(session, AdminOnly);
      if gate.Deny? {
        return gate.reply;
      }
      var before := animals;
      animals := UpdateStatus(animals, id, Published);
      // `this.changes === 0`: the WHERE clause matched no row
      if id !in before {
        return NotFound;
      }
      status := Ok;
    }

    /** POST /api/animals/:id/republish: refused for an adopted animal. */
    method Republish(session: Option<SessionUser>, id: int) returns (status: Status)
      requires Valid()
      modifies this
      ensures Valid()
      ensures RequireRole(session, Staff).Deny? ==>
        status == RequireRole(session, Staff).reply && unchanged(this)
      ensures RequireRole(session, Staff) == Proceed && id !in old(animals) ==>
        status == NotFound && unchanged(this)
      ensures RequireRole(session, Staff) == Proceed && id in old(animals) && old(animals)[id].status == Adopted ==>
        status == BadRequest && unchanged(this)
      ensures RequireRole(session, Staff) == Proceed && id in old(animals) && old(animals)[id].status != Adopted ==>
        && status == Ok
        && animals == old(animals)[id := old(animals)[id].(status := Published)]
        && applications == old(applications) && healthRecords == old(healthRecords)
        && nextAnimalId == old(nextAnimalId) && nextApplicationId == old(nextApplicationId)
    {
      var gate := RequireRole(session, Staff);
      if gate.Deny? {
        return gate.reply;
      }
      if id !in animals {
        return NotFound;
      }
      if animals[id].status == Adopted {
        return BadRequest;
      }
      animals := UpdateStatus(animals, id, Published);
      status := Ok;
    }

    /** GET /api/animals: no guard; the session only decides the filter. */
    method ListAnimals(session: Option<SessionUser>) returns (rows: seq<Animal>)
      requires Valid()
      ensures rows == Listing(animals, session, nextAnimalId)
      ensures forall a | a in rows :: a in animals.Values && Visible(session, a)
      ensures forall a | a in animals.Values && Visible(session, a) :: a in rows
      ensures SeesAll(session) ==> forall a | a in animals.Values :: a in rows
      ensures !SeesAll(session) ==> forall a | a in rows :: a.status == Published
      ensures forall i, j | 0 <= i < j < |rows| :: rows[i].id > rows[j].id
    {
      rows := Listing(animals, session, nextAnimalId);
    }

    /** GET /api/animals/:id: no guard; 404 for a missing animal, otherwise
        the selected columns and the current health state. */
    method AnimalDetail(id: int) returns (status: Status, detail: Option<Detail>)
      requires Valid()
      ensures id !in animals ==> status == NotFound && detail == None
      ensures id in animals ==>
        && status == Ok
        && detail == Some(Detail(Card(animals[id]), CurrentHealth(healthRecords, id)))
    {
      if id !in animals {
        return NotFound, None;
      }
      status, detail := Ok, Some(Detail(Card(animals[id]), CurrentHealth(healthRecords, id)));
    }

    /** POST /api/animals/:id/health: appends a record; the animal id is not
        checked against the animals table. */
    method AddHealthRecord(
      session: Option<SessionUser>, animalId: int, vaccinated: Json, neutered: Json,
      dewormed: Json, notes: Option<string>, now: Timestamp)
      returns (status: Status, recordId: Option<int>)
      requires Valid()
      modifies this
      ensures Valid()
      ensures HealthGuard(session).Deny? ==> status == Forbidden && recordId == None && unchanged(this)
      ensures HealthGuard(session) == Proceed ==>
        && status == Ok
        && recordId == Some(|old(healthRecords)| + 1)
        && healthRecords == old(healthRecords) + [HealthRecord(
             |old(healthRecords)| + 1, animalId, Flag(vaccinated), Flag(neutered), Flag(dewormed),
             OrElse(notes, ""), session.value.id, now)]
        && animals == old(animals) && applications == old(applications)
        && nextAnimalId == old(nextAnimalId) && nextApplicationId == old(nextApplicationId)
    {
      if HealthGuard(session).Deny? {
        return Forbidden, None;
      }
      var id := |healthRecords| + 1;
      var row := HealthRecord(
        id, animalId, Flag(vaccinated), Flag(neutered), Flag(dewormed),
        OrElse(notes, ""), session.value.id, now);
      healthRecords := healthRecords + [row];
      status, recordId := Ok, Some(id);
    }

    /** POST /api/adoptions/apply: the animal is neither looked up nor
        changed. */
    method Apply(
      session: Option<SessionUser>, animalId: Option<int>, contact: Option<string>,
      reason: Option<string>, now: Timestamp)
      returns (status: Status, applicationId: Option<int>)
      requires Valid()
      modifies this
      ensures Valid()
      ensures RequireRole(session, UserOnly).Deny? ==>
        status == RequireRole(session, UserOnly).reply && applicationId == None && unchanged(this)
      ensures RequireRole(session, UserOnly) == Proceed && !(IdPresent(animalId) && Present(contact)) ==>
        status == BadRequest && applicationId == None && unchanged(this)
      ensures RequireRole(session, UserOnly) == Proceed && IdPresent(animalId) && Present(contact) ==>
        && status == Ok
        && applicationId == Some(old(nextApplicationId))
        && old(nextApplicationId) !in old(applications)
        && applications == old(applications)[old(nextApplicationId) := Application(
             old(nextApplicationId), animalId.value, session.value.id, contact.value,
             OrElse(reason, ""), Submitted, None, now, None)]
        && nextApplicationId == old(nextApplicationId) + 1
        && animals == old(animals) && healthRecords == old(healthRecords)
        && nextAnimalId == old(nextAnimalId)
    {
      var gate := RequireRole(session, UserOnly);
      if gate.Deny? {
        return gate.reply, None;
      }
      if !IdPresent(animalId) || !Present(contact) {
        return BadRequest, None;
      }
      var id := nextApplicationId;
      var row := Application(
        id, animalId.value, session.value.id, contact.value,
        OrElse(reason, ""), Submitted, None, now, None);
      applications := applications[id := row];
      nextApplicationId := nextApplicationId + 1;
      status, applicationId := Ok, Some(id);
    }

    /** POST /api/admin/adoptions/:id/approve: whatever the application's
        status was, it becomes approved and its animal adopted. */
    method Approve(session: Option<SessionUser>, id: int, now: Timestamp) returns (status: Status)
      requires Valid()
      modifies this
      ensures Valid()
      ensures RequireRole(session, AdminOnly).Deny? ==>
        status == RequireRole(session, AdminOnly).reply && unchanged(this)
      ensures RequireRole(session, AdminOnly) == Proceed && id !in old(applications) ==>
        status == NotFound && unchanged(this)
      ensures RequireRole(session, AdminOnly) == Proceed && id in old(applications) ==>
        && status == Ok
        && applications == old(applications)[id := old(applications)[id].(
             status := Approved, reviewedBy := Some(session.value.id), reviewedAt := Some(now))]
        && animals == UpdateStatus(old(animals), old(applications)[id].animalId, Adopted)
        && healthRecords == old(healthRecords)
        && nextAnimalId == old(nextAnimalId) && nextApplicationId == old(nextApplicationId)
      ensures status == Ok ==>
        var animalId := old(applications)[id].animalId;
        animalId in animals ==> animals[animalId].status == Adopted
    {
      var gate := RequireRole(session, AdminOnly);
      if gate.Deny? {
        return gate.reply;
      }
      if id !in applications {
        return NotFound;
      }
      var app := applications[id];
      applications := applications[id := app.(
        status := Approved, reviewedBy := Some(session.value.id), reviewedAt := Some(now))];
      animals := UpdateStatus(animals, app.animalId, Adopted);
      status := Ok;
    }

    /** POST /api/admin/adoptions/:id/reject: the application becomes
        rejected; then the submitted applications of its animal are counted,
        the animal is read, and it is published again only when none is
        left and it is present and not a draft. All of these end in 200. */
    method Reject(session: Option<SessionUser>, id: int, now: Timestamp)
      returns (status: Status, outcome: Option<RejectOutcome>)
      requires Valid()
      modifies this
      ensures Valid()
      ensures RequireRole(session, AdminOnly).Deny? ==>
        status == RequireRole(session, AdminOnly).reply && outcome == None && unchanged(this)
      ensures RequireRole(session, AdminOnly) == Proceed && id !in old(applications) ==>
        status == NotFound && outcome == None && unchanged(this)
      ensures RequireRole(session, AdminOnly) == Proceed && id in old(applications) ==>
        var animalId := old(applications)[id].animalId;
        && status == Ok
        && applications == old(applications)[id := old(applications)[id].(
             status := Rejected, reviewedBy := Some(session.value.id), reviewedAt := Some(now))]
        && outcome == Some(RejectRollback(
             SubmittedCount(applications, animalId),
             if animalId in old(animals) then Some(old(animals)[animalId].status) else None))
        && animals == (if outcome == Some(RolledBack)
                       then old(animals)[animalId := old(animals)[animalId].(status := Published)]
                       else old(animals))
        && healthRecords == old(healthRecords)
        && nextAnimalId == old(nextAnimalId) && nextApplicationId == old(nextApplicationId)
      // the rollback rule, case by case
      ensures status == Ok ==>
        var animalId := old(applications)[id].animalId;
        && ((exists k | k in applications :: applications[k].animalId == animalId && applications[k].status == Submitted)
            ==> animals == old(animals))
        && (animalId in old(animals) && old(animals)[animalId].status == Draft ==> animals == old(animals))
        && ((forall k | k in applications && applications[k].animalId == animalId :: applications[k].status != Submitted)
            && animalId in old(animals) && old(animals)[animalId].status != Draft
            ==> animals == old(animals)[animalId := old(animals)[animalId].(status := Published)])
    {
      var gate := RequireRole(session, AdminOnly);
      if gate.Deny? {
        return gate.reply, None;
      }
      if id !in applications {
        return NotFound, None;
      }
      var app := applications[id];
      applications := applications[id := app.(
        status := Rejected, reviewedBy := Some(session.value.id), reviewedAt := Some(now))];
      var animalId := app.animalId;
      var pending := SubmittedCount(applications, animalId);
      SubmittedCountPositive(applications, animalId);
      if pending > 0 {
        return Ok, Some(OthersPending);
      }
      if animalId !in animals {
        return Ok, Some(AnimalMissing);
      }
      if animals[animalId].status == Draft {
        return Ok, Some(KeptDraft);
      }
      animals := UpdateStatus(animals, animalId, Published);
      status, outcome := Ok, Some(RolledBack);
    }
  }
}
