/** The relational store the routes talk to, as three in-memory tables: `crops` and
    `diseases` are reference data the routes only read; `diagnoses` only grows, one INSERT
    at a time. The store gives each new row the next id and a creation time later than
    every earlier row's. */
module Store {
  import opened Types

  /** The columns an INSERT into `diagnoses` supplies; the store fills in the others. */
  datatype NewDiagnosis = NewDiagnosis(
    crop_id: Option<int>,
    disease_id: Option<int>,
    image_url: Option<string>,
    confidence_score: Option<real>,
    notes: Option<string>,
    is_offline: bool)

  /** The row the store keeps for `row`: the given id and creation time, no user
      (the column is not supplied), every supplied column as given. */
  function Materialize(row: NewDiagnosis, id: int, createdAt: int): Diagnosis
  {
    Diagnosis(id, None, row.crop_id, row.disease_id, row.image_url,
              row.confidence_score, row.notes, createdAt, row.is_offline)
  }

  /** Rows in insertion order: ids and creation times strictly increase. */
  predicate Chronological(rows: seq<Diagnosis>)
  {
    forall i, j :: 0 <= i < j < |rows| ==>
      rows[i].id < rows[j].id && rows[i].created_at < rows[j].created_at
  }

  /** Primary keys of the reference tables. */
  predicate UniqueCropIds(crops: seq<Crop>)
  {
    forall i, j :: 0 <= i < j < |crops| ==> crops[i].id != crops[j].id
  }

  predicate UniqueDiseaseIds(diseases: seq<Disease>)
  {
    forall i, j :: 0 <= i < j < |diseases| ==> diseases[i].id != diseases[j].id
  }

  class Database {
    const crops: seq<Crop>
    const diseases: seq<Disease>
    var diagnoses: seq<Diagnosis>
    /** The id the next inserted row receives. */
    var nextId: int
    /** The creation time the next inserted row receives. */
    var clock: int

    ghost predicate Valid()
      reads this
    {
      && UniqueCropIds(crops)
      && UniqueDiseaseIds(diseases)
      && Chronological(diagnoses)
      && (forall i :: 0 <= i < |diagnoses| ==>
            diagnoses[i].id < nextId && diagnoses[i].created_at < clock)
    }

    constructor (crops: seq<Crop>, diseases: seq<Disease>, startId: int, startTime: int)
      requires UniqueCropIds(crops) && UniqueDiseaseIds(diseases)
      ensures Valid()
      ensures this.crops == crops && this.diseases == diseases && diagnoses == []
      ensures nextId == startId && clock == startTime
    {
      this.crops := crops;
      this.diseases := diseases;
      diagnoses := [];
      nextId := startId;
      clock := startTime;
    }

    /** `INSERT INTO diagnoses (...) VALUES (...) RETURNING *`: appends one row, with a fresh
        id and a creation time after every earlier row's, and returns it. */
    method Insert(row: NewDiagnosis) returns (stored: Diagnosis)
      requires Valid()
      modifies this
      ensures Valid()
      ensures stored == Materialize(row, old(nextId), old(clock))
      ensures diagnoses == old(diagnoses) + [stored]
      ensures forall d :: d in old(diagnoses) ==> d.id < stored.id && d.created_at < stored.created_at
    {
      stored := Materialize(row, nextId, clock);
      diagnoses := diagnoses + [stored];
      nextId := nextId + 1;
      clock := clock + 1;
    }
  }
}
