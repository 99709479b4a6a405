/** The diagnosis repository (app/api/diagnoses/route.ts). GET lists the twenty newest
    diagnoses that join with an existing disease and crop, each reshaped into a record with
    the disease and crop nested in it; POST stores a result the caller already holds and
    returns the stored row. */
module DiagnosesRoute {
  import opened Types
  import opened Analysis
  import opened Store

  /** `LIMIT 20` on the listing query. */
  const PageSize: nat := 20

  const FetchFailed: string := "Failed to fetch diagnoses"
  const SaveFailed: string := "Failed to save diagnosis"

  /** One row of the listing query: `d.*` plus the joined disease name and symptoms and crop name. */
  datatype JoinedRow = JoinedRow(row: Diagnosis, disease_name: string, disease_symptoms: Option<string>,
                                 crop_name: string)

  datatype DiseaseSummary = DiseaseSummary(id: Option<int>, name: string, symptoms: Option<string>)

  datatype CropSummary = CropSummary(id: Option<int>, name: string)

  /** The record GET answers with: the row's own columns, then the nested disease and crop. */
  datatype DiagnosisRecord = DiagnosisRecord(
    id: int,
    user_id: Option<int>,
    crop_id: Option<int>,
    disease_id: Option<int>,
    image_url: Option<string>,
    confidence_score: Option<real>,
    notes: Option<string>,
    created_at: int,
    is_offline: bool,
    disease: DiseaseSummary,
    crop: CropSummary)

  /** The disease a `disease_id` refers to, if any (SQL `NULL` matches nothing). */
  function FindDisease(diseases: seq<Disease>, id: Option<int>): (r: Option<Disease>)
    ensures r.Some? ==> r.value in diseases && id == Some(r.value.id)
    ensures r.None? ==> forall d :: d in diseases ==> id != Some(d.id)
  {
    if diseases == [] then None
    else if id == Some(diseases[0].id) then Some(diseases[0])
    else FindDisease(diseases[1..], id)
  }

  /** The crop a `crop_id` refers to, if any. */
  function FindCrop(crops: seq<Crop>, id: Option<int>): (r: Option<Crop>)
    ensures r.Some? ==> r.value in crops && id == Some(r.value.id)
    ensures r.None? ==> forall c :: c in crops ==> id != Some(c.id)
  {
    if crops == [] then None
    else if id == Some(crops[0].id) then Some(crops[0])
    else FindCrop(crops[1..], id)
  }

  /** `JOIN diseases dis ON d.disease_id = dis.id JOIN crops c ON d.crop_id = c.id` for one row:
      nothing unless both the disease and the crop exist. */
  function JoinRow(row: Diagnosis, diseases: seq<Disease>, crops: seq<Crop>): (j: Option<JoinedRow>)
    ensures j.None? <==> (forall d :: d in diseases ==> row.disease_id != Some(d.id))
                         || (forall c :: c in crops ==> row.crop_id != Some(c.id))
    ensures j.Some? ==> j.value.row == row
    ensures j.Some? ==> exists d :: d in diseases && row.disease_id == Some(d.id)
                                    && j.value.disease_name == d.name
                                    && j.value.disease_symptoms == d.symptoms
    ensures j.Some? ==> exists c :: c in crops && row.crop_id == Some(c.id) && j.value.crop_name == c.name
  {
    match (FindDisease(diseases, row.disease_id), FindCrop(crops, row.crop_id))
    case (Some(d), Some(c)) => Some(JoinedRow(row, d.name, d.symptoms, c.name))
    case _ => None
  }

  /** The inner join over the whole table, in table order: exactly the rows whose disease and
      crop both exist, each with its joined columns. */
  function Joined(rows: seq<Diagnosis>, diseases: seq<Disease>, crops: seq<Crop>): (js: seq<JoinedRow>)
    ensures |js| <= |rows|
    ensures forall j :: j in js ==> j.row in rows && JoinRow(j.row, diseases, crops) == Some(j)
    ensures forall r :: r in rows && JoinRow(r, diseases, crops).Some? ==>
              JoinRow(r, diseases, crops).value in js
    decreases |rows|
  {
    if rows == [] then []
    else
      var init, last := rows[..|rows| - 1], rows[|rows| - 1];
      assert forall r :: r in rows <==> r in init || r == last by {
        assert rows == init + [last];
      }
      var earlier := Joined(init, diseases, crops);
      match JoinRow(last, diseases, crops)
      case None => earlier
      case Some(j) => earlier + [j]
  }

  /** Joined rows in increasing order of creation. */
  predicate Ascending(js: seq<JoinedRow>)
  {
    forall i, k :: 0 <= i < k < |js| ==> js[i].row.created_at < js[k].row.created_at
  }

  /** The join keeps the table's chronological order. */
  lemma {:induction false} JoinedAscending(rows: seq<Diagnosis>, diseases: seq<Disease>, crops: seq<Crop>)
    requires Chronological(rows)
    ensures Ascending(Joined(rows, diseases, crops))
    decreases |rows|
  {
    if rows != [] {
      var init, last := rows[..|rows| - 1], rows[|rows| - 1];
      var earlier := Joined(init, diseases, crops);
      JoinedAscending(init, diseases, crops);
      forall e | e in earlier ensures e.row.created_at < last.created_at {
        var i :| 0 <= i < |init| && init[i] == e.row;
        assert rows[i] == e.row;
      }
    }
  }

  /** `ORDER BY d.created_at DESC LIMIT limit` over rows already in creation order:
      the last `limit` rows, newest first. */
  function NewestFirst(js: seq<JoinedRow>, limit: nat): (r: seq<JoinedRow>)
    ensures |r| == if |js| <= limit then |js| else limit
    ensures forall i :: 0 <= i < |r| ==> r[i] == js[|js| - 1 - i]
  {
    var n := if |js| <= limit then |js| else limit;
    seq(n, i requires 0 <= i < n => js[|js| - 1 - i])
  }

  /** The shape GET gives each joined row: the nine columns copied, the disease id and crop id
      repeated inside the nested records, which carry the joined names. Nothing is lost: the
      joined row can be read back from the record. */
  function ToRecord(j: JoinedRow): (rec: DiagnosisRecord)
    ensures rec.disease.id == rec.disease_id && rec.crop.id == rec.crop_id
    ensures FromRecord(rec) == j
  {
    var d := j.row;
    DiagnosisRecord(d.id, d.user_id, d.crop_id, d.disease_id, d.image_url, d.confidence_score,
                    d.notes, d.created_at, d.is_offline,
                    DiseaseSummary(d.disease_id, j.disease_name, j.disease_symptoms),
                    CropSummary(d.crop_id, j.crop_name))
  }

  /** The joined row a record was made from. */
  function FromRecord(rec: DiagnosisRecord): JoinedRow
  {
    JoinedRow(Diagnosis(rec.id, rec.user_id, rec.crop_id, rec.disease_id, rec.image_url,
                        rec.confidence_score, rec.notes, rec.created_at, rec.is_offline),
              rec.disease.name, rec.disease.symptoms, rec.crop.name)
  }

  /** `diagnoses.map(...)`: one record per row, same length, same order. */
  function Format(js: seq<JoinedRow>): (recs: seq<DiagnosisRecord>)
    ensures |recs| == |js|
    ensures forall i :: 0 <= i < |js| ==> recs[i] == ToRecord(js[i])
  {
    seq(|js|, i requires 0 <= i < |js| => ToRecord(js[i]))
  }

  /** What a successful GET answers for the given tables. */
  function Listing(rows: seq<Diagnosis>, diseases: seq<Disease>, crops: seq<Crop>): seq<DiagnosisRecord>
  {
    Format(NewestFirst(Joined(rows, diseases, crops), PageSize))
  }

  /** The listing has at most twenty records, newest first. */
  lemma ListingNewestFirst(rows: seq<Diagnosis>, diseases: seq<Disease>, crops: seq<Crop>)
    requires Chronological(rows)
    ensures var l := Listing(rows, diseases, crops);
            && |l| <= PageSize
            && forall i, k :: 0 <= i < k < |l| ==> l[i].created_at > l[k].created_at
  {
    var js := Joined(rows, diseases, crops);
    JoinedAscending(rows, diseases, crops);
    var l := Listing(rows, diseases, crops);
    forall i, k | 0 <= i < k < |l| ensures l[i].created_at > l[k].created_at {
      assert js[|js| - 1 - k].row.created_at < js[|js| - 1 - i].row.created_at;
    }
  }

  /** Every listed record describes a stored row whose disease and crop exist, with the
      disease's name and symptoms and the crop's name. */
  lemma ListingFromTables(rows: seq<Diagnosis>, diseases: seq<Disease>, crops: seq<Crop>, i: nat)
    requires i < |Listing(rows, diseases, crops)|
    ensures var rec := Listing(rows, diseases, crops)[i];
            && FromRecord(rec).row in rows
            && (exists d :: d in diseases && rec.disease_id == Some(d.id)
                  && rec.disease.name == d.name && rec.disease.symptoms == d.symptoms)
            && (exists c :: c in crops && rec.crop_id == Some(c.id) && rec.crop.name == c.name)
  {
    var js := Joined(rows, diseases, crops);
    var j := js[|js| - 1 - i];
    assert j in js;
    var d, c := FindDisease(diseases, j.row.disease_id), FindCrop(crops, j.row.crop_id);
    assert d.Some? && c.Some?;
    assert d.value in diseases && c.value in crops;
  }

  /** Taking the newest `limit` rows of an ascending sequence drops only rows older than
      every row kept. */
  lemma NewestFirstKeepsNewest(js: seq<JoinedRow>, limit: nat, p: nat)
    requires Ascending(js) && p < |js|
    ensures var newest := NewestFirst(js, limit);
            || (p >= |js| - |newest| && newest[|js| - 1 - p] == js[p])
            || (|newest| == limit && forall k :: 0 <= k < |newest| ==>
                  js[p].row.created_at < newest[k].row.created_at)
  {
    var newest := NewestFirst(js, limit);
    if p < |js| - |newest| {
      forall k | 0 <= k < |newest| ensures js[p].row.created_at < newest[k].row.created_at {
        assert newest[k] == js[|js| - 1 - k];
      }
    }
  }

  /** Nothing newer is left out: a stored row that joins is listed, unless the page is full
      and the row is older than every listed record. */
  lemma ListingKeepsNewest(rows: seq<Diagnosis>, diseases: seq<Disease>, crops: seq<Crop>, r: Diagnosis)
    requires Chronological(rows)
    requires r in rows && JoinRow(r, diseases, crops).Some?
    ensures var l := Listing(rows, diseases, crops);
            || ToRecord(JoinRow(r, diseases, crops).value) in l
            || (|l| == PageSize && forall k :: 0 <= k < |l| ==> r.created_at < l[k].created_at)
  {
    var js := Joined(rows, diseases, crops);
    var j := JoinRow(r, diseases, crops).value;
    assert j.row == r;
    JoinedAscending(rows, diseases, crops);
    var p :| 0 <= p < |js| && js[p] == j;
    NewestFirstKeepsNewest(js, PageSize, p);
    var newest := NewestFirst(js, PageSize);
    var l := Format(newest);
    if p >= |js| - |newest| {
      assert l[|js| - 1 - p] == ToRecord(j);
    } else {
      forall k | 0 <= k < |l| ensures r.created_at < l[k].created_at {
        assert l[k] == ToRecord(newest[k]);
      }
    }
  }

  /** A row appended last, whose disease and crop exist, heads the next listing with its own
      columns. */
  lemma SavedRecordListedFirst(rows: seq<Diagnosis>, diseases: seq<Disease>, crops: seq<Crop>, saved: Diagnosis)
    requires JoinRow(saved, diseases, crops).Some?
    ensures var l := Listing(rows + [saved], diseases, crops);
            && |l| > 0
            && l[0] == ToRecord(JoinRow(saved, diseases, crops).value)
            && l[0].id == saved.id && l[0].crop_id == saved.crop_id && l[0].disease_id == saved.disease_id
            && l[0].confidence_score == saved.confidence_score && l[0].is_offline == saved.is_offline
  {
    var all := rows + [saved];
    assert all[..|all| - 1] == rows && all[|all| - 1] == saved;
    var js := Joined(all, diseases, crops);
    assert js == Joined(rows, diseases, crops) + [JoinRow(saved, diseases, crops).value];
  }

  /** GET /api/diagnoses. `selectFails` says whether the store rejects the query. */
  method Get(db: Database, selectFails: bool) returns (resp: Response<seq<DiagnosisRecord>>)
    requires db.Valid()
    ensures selectFails ==> resp == Err(500, FetchFailed)
    ensures !selectFails ==> resp == Ok(Listing(db.diagnoses, db.diseases, db.crops))
    ensures resp.Ok? ==>
              && |resp.body| <= PageSize
              && forall i, k :: 0 <= i < k < |resp.body| ==> resp.body[i].created_at > resp.body[k].created_at
  {
    if selectFails {
      return Err(500, FetchFailed);
    }
    var joined := Joined(db.diagnoses, db.diseases, db.crops);
    var newest := NewestFirst(joined, PageSize);
    resp := Ok(Format(newest));
    ListingNewestFirst(db.diagnoses, db.diseases, db.crops);
  }

  /** The `result` object of a save request: the fields the route reads from it. */
  datatype SavedResult = SavedResult(disease: Option<Disease>, confidence: real, notes: Option<string>,
                                     isOffline: Option<bool>)

  /** The JSON body `{ result, imageUrl }`; an absent field is `None`. */
  datatype SaveBody = SaveBody(result: Option<SavedResult>, imageUrl: Option<string>)

  /** `!result || !result.disease` is false: a body is rejected exactly when it has no
      `result`, or a `result` without a `disease`. */
  predicate HasDisease(b: SaveBody): (ok: bool)
    ensures !ok <==> b.result.None? || b.result.value.disease.None?
  {
    b.result.Some? && b.result.value.disease.Some?
  }

  /** The INSERT a save issues. The row records the result's disease, its crop and its
      confidence; the image is the first 255 characters of `imageUrl`, or null when that is
      absent or empty; empty or absent notes become null; the row is offline only when the
      result says so. */
  function SaveRow(result: SavedResult, imageUrl: Option<string>): (row: NewDiagnosis)
    requires result.disease.Some?
    ensures row.crop_id == Some(result.disease.value.crop_id)
    ensures row.disease_id == Some(result.disease.value.id)
    ensures row.confidence_score == Some(result.confidence)
    ensures row.image_url.Some? <==> imageUrl.Some? && imageUrl.value != ""
    ensures row.image_url.Some? ==>
              |row.image_url.value| <= ImagePrefixLength && row.image_url.value == Truncate255(imageUrl.value)
    ensures row.notes.Some? ==> row.notes == result.notes && row.notes.value != ""
    ensures result.notes.Some? && result.notes.value != "" ==> row.notes == result.notes
    ensures row.is_offline <==> result.isOffline == Some(true)
  {
    var image := match imageUrl
      case Some(u) => if u != "" then Some(Truncate255(u)) else None
      case None => None;
    var notes := match result.notes
      case Some(n) => if n != "" then Some(n) else None
      case None => None;
    var offline := match result.isOffline
      case Some(b) => b
      case None => false;
    NewDiagnosis(Some(result.disease.value.crop_id), Some(result.disease.value.id), image,
                 Some(result.confidence), notes, offline)
  }

  /** POST /api/diagnoses. `body` is `None` when the request body is not valid JSON or is
      `null` (destructuring it throws, which gives 500); any other body that is not an object
      has no fields, `Some(SaveBody(None, None))`, and is answered 400;
      `insertFails` says whether the store rejects the INSERT. A result without a disease is
      answered 400 and nothing is stored; otherwise the row is appended and returned as stored. */
  method Post(db: Database, body: Option<SaveBody>, insertFails: bool) returns (resp: Response<Diagnosis>)
    requires db.Valid()
    modifies db
    ensures db.Valid()
    ensures resp.Err? ==>
              db.diagnoses == old(db.diagnoses) && db.nextId == old(db.nextId) && db.clock == old(db.clock)
    ensures body.None? ==> resp == Err(500, SaveFailed)
    ensures body.Some? && !HasDisease(body.value) ==> resp == Err(400, MissingFields)
    ensures body.Some? && HasDisease(body.value) && insertFails ==> resp == Err(500, SaveFailed)
    ensures body.Some? && HasDisease(body.value) && !insertFails ==>
              && resp == Ok(Materialize(SaveRow(body.value.result.value, body.value.imageUrl),
                                        old(db.nextId), old(db.clock)))
              && db.diagnoses == old(db.diagnoses) + [resp.body]
  {
    if body.None? {
      return Err(500, SaveFailed);
    }
    var b := body.value;
    if !HasDisease(b) {
      return Err(400, MissingFields);
    }
    if insertFails {
      return Err(500, SaveFailed);
    }
    var stored := db.Insert(SaveRow(b.result.value, b.imageUrl));
    resp := Ok(stored);
  }

  /** A save followed by a listing: when the saved disease and crop exist, the listing starts
      with the saved record, with the same disease, crop, confidence and offline flag. */
  method SaveThenList(db: Database, body: SaveBody)
    returns (saved: Response<Diagnosis>, listed: Response<seq<DiagnosisRecord>>)
    requires db.Valid()
    modifies db
    ensures db.Valid()
    ensures HasDisease(body) ==> saved.Ok? && listed.Ok?
    ensures HasDisease(body) && saved.Ok? && JoinRow(saved.body, db.diseases, db.crops).Some? ==>
              && listed.Ok? && |listed.body| > 0
              && listed.body[0].id == saved.body.id
              && listed.body[0].disease_id == Some(body.result.value.disease.value.id)
              && listed.body[0].crop_id == Some(body.result.value.disease.value.crop_id)
              && listed.body[0].confidence_score == Some(body.result.value.confidence)
              && listed.body[0].is_offline == (body.result.value.isOffline == Some(true))
  {
    ghost var before := db.diagnoses;
    saved := Post(db, Some(body), false);
    listed := Get(db, false);
    if saved.Ok? && JoinRow(saved.body, db.diseases, db.crops).Some? {
      SavedRecordListedFirst(before, db.diseases, db.crops, saved.body);
    }
  }
}
