/** Walks through the adoption workflow using only the contracts of the
    handlers. */
module Scenarios {

  import opened Wrappers
  import opened Http
  import opened Tables
  import opened Access
  import opened Queries
  import opened Server

  const AdminSession := Some(SessionUser(1, "admin", Admin))
  const RegistrarSession := Some(SessionUser(2, "registrar", Registrar))
  const UserSession := Some(SessionUser(3, "user", User))

  /** Registers an animal named Mimi on a fresh store and returns its id. */
  method Registered() returns (store: Store, animalId: int)
    ensures fresh(store) && store.Valid()
    ensures animalId in store.animals && store.animals[animalId].status == Draft
    ensures store.applications == map[] && store.healthRecords == []
  {
    store := new Store();
    var status, id := store.CreateAnimal(
      RegistrarSession, Some("Mimi"), Some("cat"), None, None, None, None, None, 10);
    animalId := id.value;
  }

  /** Created, published, applied for, approved: the application is
      approved and the animal adopted. */
  method AdoptionScenario() returns (animal: AnimalStatus, application: ApplicationStatus)
    ensures animal == Adopted && application == Approved
  {
    var store, aid := Registered();
    var status := store.Publish(RegistrarSession, aid);
    assert store.animals[aid].status == Published;
    var applied, appId := store.Apply(UserSession, Some(aid), Some("13800000000"), None, 11);
    assert store.applications[appId.value].status == Submitted;
    status := store.Approve(AdminSession, appId.value, 12);
    animal, application := store.animals[aid].status, store.applications[appId.value].status;
  }

  /** An adopted animal whose other application is rejected, with no
      submitted application left, is published again. */
  method RejectAfterAdoption() returns (animal: AnimalStatus, outcome: Option<RejectOutcome>)
    ensures animal == Published && outcome == Some(RolledBack)
  {
    var store, aid := Registered();
    var status := store.Publish(RegistrarSession, aid);
    var s1, first := store.Apply(UserSession, Some(aid), Some("a"), None, 11);
    var s2, second := store.Apply(UserSession, Some(aid), Some("b"), Some("garden"), 12);
    status := store.Approve(AdminSession, first.value, 13);
    assert store.animals[aid].status == Adopted;
    status, outcome := store.Reject(AdminSession, second.value, 14);
    SubmittedCountPositive(store.applications, aid);
    animal := store.animals[aid].status;
  }

  /** With two submitted applications, rejecting one leaves the animal as
      it was. */
  method RejectWithAnotherPending() returns (animal: AnimalStatus, outcome: Option<RejectOutcome>)
    ensures animal == Published && outcome == Some(OthersPending)
  {
    var store, aid := Registered();
    var status := store.Publish(RegistrarSession, aid);
    var s1, first := store.Apply(UserSession, Some(aid), Some("a"), None, 11);
    var s2, second := store.Apply(UserSession, Some(aid), Some("b"), None, 12);
    status, outcome := store.Reject(AdminSession, first.value, 13);
    assert store.applications[second.value].status == Submitted;
    SubmittedCountPositive(store.applications, aid);
    animal := store.animals[aid].status;
  }

  /** An animal the admin unpublished stays a draft when its last
      submitted application is rejected. */
  method RejectKeepsDraft() returns (animal: AnimalStatus, outcome: Option<RejectOutcome>)
    ensures animal == Draft && outcome == Some(KeptDraft)
  {
    var store, aid := Registered();
    var status := store.Publish(RegistrarSession, aid);
    var s1, first := store.Apply(UserSession, Some(aid), Some("a"), None, 11);
    status := store.Unpublish(AdminSession, aid);
    status, outcome := store.Reject(AdminSession, first.value, 12);
    SubmittedCountPositive(store.applications, aid);
    animal := store.animals[aid].status;
  }

  /** Republishing an adopted animal answers 400 and keeps it adopted. */
  method RepublishAdopted() returns (status: Status, animal: AnimalStatus)
    ensures status == BadRequest && animal == Adopted
  {
    var store, aid := Registered();
    var s1, first := store.Apply(UserSession, Some(aid), Some("a"), None, 11);
    var approved := store.Approve(AdminSession, first.value, 12);
    status := store.Republish(RegistrarSession, aid);
    animal := store.animals[aid].status;
  }

  /** Two approvals of two applications for one animal both stand: an
      adopted animal can have more than one approved application. */
  method DoubleApproval() returns (first: ApplicationStatus, second: ApplicationStatus, animal: AnimalStatus)
    ensures first == Approved && second == Approved && animal == Adopted
  {
    var store, aid := Registered();
    var s1, a := store.Apply(UserSession, Some(aid), Some("a"), None, 11);
    var s2, b := store.Apply(UserSession, Some(aid), Some("b"), None, 12);
    var status := store.Approve(AdminSession, a.value, 13);
    status := store.Approve(AdminSession, b.value, 14);
    first, second := store.applications[a.value].status, store.applications[b.value].status;
    animal := store.animals[aid].status;
  }

  /** The detail view shows the default until a record exists, then the
      newest record. */
  method HealthDetail() returns (before: HealthView, after: HealthView)
    ensures before == NoHealthRecord
    ensures after == HealthView(1, 0, 1, "", Some(20))
  {
    var store, aid := Registered();
    var status, detail := store.AnimalDetail(aid);
    before := detail.value.health;
    var added, recordId := store.AddHealthRecord(
      RegistrarSession, aid, Bool(true), Missing, Text("yes"), Some(""), 20);
    var record := HealthRecord(1, aid, 1, 0, 1, "", 2, 20);
    assert store.healthRecords == [] + [record];
    NewestRecordIsCurrent([], record);
    status, detail := store.AnimalDetail(aid);
    after := detail.value.health;
  }
}
