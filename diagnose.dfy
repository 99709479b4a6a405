/** The request pipeline that the offline and the online diagnose routes share
    (app/api/diagnose/offline/route.ts and app/api/diagnose/online/route.ts). Neither route
    analyses the image: a random draw picks one of the crop's candidate diseases, a second
    draw gives the confidence, and the result is stored before it is returned. The routes
    differ only in the confidence range and in the `is_offline` flag of the stored row. */
module DiagnosePipeline {
  import opened Types
  import opened Analysis
  import opened Store

  /** The JSON body `{ image, cropId }`; an absent field is `None`. */
  datatype DiagnoseBody = DiagnoseBody(image: Option<string>, cropId: Option<int>)

  const NoDiseasesFound: string := "No diseases found for this crop"
  const DiagnoseFailed: string := "Failed to diagnose plant"

  /** `!image || !cropId` is false: an image that is not empty and a crop id that is not 0.
      The JavaScript falsy values of the two fields are exactly what it rejects. */
  predicate HasRequiredFields(b: DiagnoseBody): (ok: bool)
    ensures ok <==> b.image !in {None, Some("")} && b.cropId !in {None, Some(0)}
  {
    b.image.Some? && b.image.value != "" && b.cropId.Some? && b.cropId.value != 0
  }

  /** The confidence formula of each route. */
  function ConfidenceFor(mode: AppMode, r: real): (c: real)
    requires 0.0 <= r < 1.0
  {
    match mode
    case Offline => OfflineConfidence(r)
    case Online => OnlineConfidence(r)
  }

  /** The organic and chemical lists parsed from a disease's treatment columns. */
  function TreatmentsOf(d: Disease): Treatments
  {
    Treatments(ParseTreatments(d.organic_treatment, DefaultOrganic),
               ParseTreatments(d.chemical_treatment, DefaultChemical))
  }

  /** The INSERT both routes issue: crop, chosen disease, truncated image, confidence,
      and `is_offline` set by the route. */
  function DiagnosisRow(mode: AppMode, cropId: int, d: Disease, image: string, confidence: real)
    : (row: NewDiagnosis)
    ensures row.crop_id == Some(cropId) && row.disease_id == Some(d.id)
    ensures row.image_url.Some?
    ensures |row.image_url.value| == if |image| <= ImagePrefixLength then |image| else ImagePrefixLength
    ensures row.image_url.value == image[..|row.image_url.value|]
    ensures row.confidence_score == Some(confidence) && row.notes == None
    ensures row.is_offline <==> mode == Offline
  {
    NewDiagnosis(Some(cropId), Some(d.id), Some(Truncate255(image)), Some(confidence), None, mode == Offline)
  }

  /** One POST to a diagnose route. `body` is `None` when the request body is not valid
      JSON or is `null`, the two cases in which destructuring it throws; any other body that
      is not an object has no fields, `Some(DiagnoseBody(None, None))`, and is answered 400.
      `pick` and `draw` are the two `Math.random()` results; `selectFails` and
      `insertFails` say whether the store rejects the candidate query or the INSERT. Every
      error is answered before anything is stored, and a result is returned only once its
      row has been appended. */
  method Diagnose(db: Database, mode: AppMode, body: Option<DiagnoseBody>, pick: real, draw: real,
                  selectFails: bool, insertFails: bool)
    returns (resp: Response<DiagnosisResult>)
    requires db.Valid()
    requires 0.0 <= pick < 1.0 && 0.0 <= draw < 1.0
    modifies db
    ensures db.Valid()
    ensures resp.Err? ==>
              db.diagnoses == old(db.diagnoses) && db.nextId == old(db.nextId) && db.clock == old(db.clock)
    ensures body.None? ==> resp == Err(500, DiagnoseFailed)
    ensures body.Some? && !HasRequiredFields(body.value) ==> resp == Err(400, MissingFields)
    ensures body.Some? && HasRequiredFields(body.value) ==>
              var image, cropId := body.value.image.value, body.value.cropId.value;
              var candidates := Candidates(db.diseases, cropId);
              if selectFails then resp == Err(500, DiagnoseFailed)
              else if candidates == [] then resp == Err(404, NoDiseasesFound)
              else
                var disease := candidates[PickIndex(pick, |candidates|)];
                var confidence := ConfidenceFor(mode, draw);
                if insertFails then resp == Err(500, DiagnoseFailed)
                else
                  && resp == Ok(DiagnosisResult(disease, confidence, TreatmentsOf(disease)))
                  && db.diagnoses == old(db.diagnoses) +
                       [Materialize(DiagnosisRow(mode, cropId, disease, image, confidence),
                                    old(db.nextId), old(db.clock))]
  {
    if body.None? {
      return Err(500, DiagnoseFailed);
    }
    var b := body.value;
    if !HasRequiredFields(b) {
      return Err(400, MissingFields);
    }
    var image, cropId := b.image.value, b.cropId.value;
    if selectFails {
      return Err(500, DiagnoseFailed);
    }
    var diseases := Candidates(db.diseases, cropId);
    if |diseases| == 0 {
      return Err(404, NoDiseasesFound);
    }
    var disease := diseases[PickIndex(pick, |diseases|)];
    var confidence := ConfidenceFor(mode, draw);
    var result := DiagnosisResult(disease, confidence, TreatmentsOf(disease));
    if insertFails {
      return Err(500, DiagnoseFailed);
    }
    var _ := db.Insert(DiagnosisRow(mode, cropId, disease, image, confidence));
    resp := Ok(result);
  }
}
