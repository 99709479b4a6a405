/** The record shapes shared by the API routes and the pages (lib/types.ts).
    Nullable columns become `Option`; JSON numbers that are identifiers become `int`,
    scores become `real`; the `created_at` timestamp is an ordered clock value. */
module Types {

  datatype Option<+T> = None | Some(value: T)

  /** A row of the `crops` table: reference data, never changed by the routes. */
  datatype Crop = Crop(
    id: int,
    name: string,
    scientific_name: Option<string>,
    description: Option<string>,
    common_in_regions: seq<string>)

  /** A row of the `diseases` table. It belongs to exactly one crop: `crop_id` is not nullable.
      The two treatment columns hold `;`-separated lists, or nothing. */
  datatype Disease = Disease(
    id: int,
    name: string,
    crop_id: int,
    symptoms: Option<string>,
    causes: Option<string>,
    prevention: Option<string>,
    organic_treatment: Option<string>,
    chemical_treatment: Option<string>,
    image_url: Option<string>)

  /** A stored row of the `diagnoses` table. Only `id`, `created_at` and `is_offline` are never null. */
  datatype Diagnosis = Diagnosis(
    id: int,
    user_id: Option<int>,
    crop_id: Option<int>,
    disease_id: Option<int>,
    image_url: Option<string>,
    confidence_score: Option<real>,
    notes: Option<string>,
    created_at: int,
    is_offline: bool)

  datatype Treatments = Treatments(organic: seq<string>, chemical: seq<string>)

  /** What a diagnose route answers: always a disease, a confidence and both treatment lists. */
  datatype DiagnosisResult = DiagnosisResult(disease: Disease, confidence: real, treatments: Treatments)

  /** The two analysis modes the interface offers. */
  datatype AppMode = Online | Offline

  function ModeText(m: AppMode): string
  {
    match m
    case Online => "online"
    case Offline => "offline"
  }

  /** The string literal type `"online" | "offline"`: exactly two strings name a mode,
      and each names the mode that prints as it. */
  function ParseMode(s: string): (r: Option<AppMode>)
    ensures r.Some? <==> (s == "online" || s == "offline")
    ensures r.Some? ==> ModeText(r.value) == s
    ensures forall m: AppMode :: ModeText(m) == s ==> r == Some(m)
  {
    if s == "online" then Some(Online)
    else if s == "offline" then Some(Offline)
    else None
  }

  /** The 400 message every route gives for a body without its required fields. */
  const MissingFields: string := "Missing required fields"

  /** An HTTP answer: a JSON body with status 200, or `{ error }` with an error status. */
  datatype Response<+T> = Ok(body: T) | Err(status: int, error: string)
}
