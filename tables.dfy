/** The rows of the users, animals, health_records and adoption_applications
    tables, with the status enumerations of their CHECK constraints. */
module Tables {

  import opened Wrappers

  /** users.role */
  datatype Role = Admin | Registrar | User

  /** animals.status; no handler ever writes Pending. */
  datatype AnimalStatus = Draft | Pending | Published | Adopted

  /** adoption_applications.status */
  datatype ApplicationStatus = Submitted | Approved | Rejected

  /** An instant as written by toISOString(); the fixed-width ISO form makes
      the stored strings compare in chronological order. */
  type Timestamp = nat

  /** The 0/1 integers of the vaccinated, neutered and dewormed columns. */
  type Bit = b: int | 0 <= b <= 1

  datatype Animal = Animal(
    id: int,
    name: string,
    species: string,
    sex: string,
    age: string,
    status: AnimalStatus,
    fosterType: string,
    description: string,
    location: string,
    createdBy: int,
    createdAt: Timestamp)

  datatype HealthRecord = HealthRecord(
    id: int,
    animalId: int,
    vaccinated: Bit,
    neutered: Bit,
    dewormed: Bit,
    notes: string,
    updatedBy: int,
    updatedAt: Timestamp)

  datatype Application = Application(
    id: int,
    animalId: int,
    userId: int,
    contact: string,
    reason: string,
    status: ApplicationStatus,
    reviewedBy: Option<int>,
    createdAt: Timestamp,
    reviewedAt: Option<Timestamp>)
}
