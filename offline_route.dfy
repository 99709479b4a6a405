/** POST /api/diagnose/offline: the offline diagnose route. It runs the shared pipeline with
    confidence `0.5 + Math.random() * 0.3` and stores its row with `is_offline = true`. */
module OfflineRoute {
  import opened Types
  import opened Analysis
  import opened Store
  import opened DiagnosePipeline

  /** A body that is not valid JSON (or is `null`) is answered 500, a missing field 400, a
      failed query 500 and a crop without diseases 404, all before anything is stored. A result
      is the candidate at index `floor(pick * n)` among the crop's `n` candidates, with
      confidence `0.5 + 0.3 * draw` in [0.5, 0.8) and the disease's parsed treatments, and it is returned
      only after exactly one row recording it has been appended; a failed INSERT is a 500
      with nothing stored. */
  method Post(db: Database, body: Option<DiagnoseBody>, pick: real, draw: real,
              selectFails: bool, insertFails: bool)
    returns (resp: Response<DiagnosisResult>)
    requires db.Valid()
    requires 0.0 <= pick < 1.0 && 0.0 <= draw < 1.0
    modifies db
    ensures db.Valid()
    ensures resp.Err? ==> db.diagnoses == old(db.diagnoses) && resp.status in {400, 404, 500}
    ensures resp.Err? && resp.status == 500 ==> resp.error == DiagnoseFailed
    ensures body.Some? && !HasRequiredFields(body.value) ==> resp == Err(400, MissingFields)
    ensures body.Some? && HasRequiredFields(body.value) && !selectFails
            && (forall d :: d in db.diseases ==> d.crop_id != body.value.cropId.value)
            ==> resp == Err(404, NoDiseasesFound)
    ensures body.None? ==> resp == Err(500, DiagnoseFailed)
    ensures body.Some? && HasRequiredFields(body.value) && selectFails ==> resp == Err(500, DiagnoseFailed)
    ensures body.Some? && HasRequiredFields(body.value) && !selectFails && insertFails
            && Candidates(db.diseases, body.value.cropId.value) != []
            ==> resp == Err(500, DiagnoseFailed)
    ensures body.Some? && HasRequiredFields(body.value) && !selectFails && !insertFails
            && Candidates(db.diseases, body.value.cropId.value) != []
            ==> resp.Ok?
    ensures resp.Ok? ==> body.Some?
    ensures resp.Ok? && body.Some? ==>
              var c := Candidates(db.diseases, body.value.cropId.value);
              && c != []
              && resp.body.disease == c[PickIndex(pick, |c|)]
              && resp.body.confidence == OfflineConfidence(draw)
    ensures resp.Ok? && body.Some? ==>
              var b, r := body.value, resp.body;
              && HasRequiredFields(b) && !selectFails && !insertFails
              && r.disease in Candidates(db.diseases, b.cropId.value)
              && r.disease in db.diseases && r.disease.crop_id == b.cropId.value
              && 0.5 <= r.confidence < 0.8
              && r.treatments == TreatmentsOf(r.disease)
              && |db.diagnoses| == |old(db.diagnoses)| + 1
              && db.diagnoses[..|old(db.diagnoses)|] == old(db.diagnoses)
              && var row := db.diagnoses[|old(db.diagnoses)|];
                 && row.crop_id == Some(b.cropId.value)
                 && row.disease_id == Some(r.disease.id)
                 && row.confidence_score == Some(r.confidence)
                 && row.image_url == Some(Truncate255(b.image.value))
                 && row.notes == None && row.user_id == None
                 && row.is_offline == true
  {
    resp := Diagnose(db, Offline, body, pick, draw, selectFails, insertFails);
  }
}
