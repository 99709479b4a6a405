/** The pure steps shared by the offline and the online diagnose routes: which diseases are
    candidates, which one a random draw selects, the confidence a draw yields, how a
    treatment column becomes a list, and how the image is cut to fit its column. */
module Analysis {
  import opened Types
  import opened Strings

  /** `LIMIT 5` on the candidate query. */
  const MaxCandidates: nat := 5

  /** The `255` of `image.substring(0, 255)`: how many characters of an image are stored. */
  const ImagePrefixLength: nat := 255

  const DefaultOrganic: seq<string> :=
    ["Apply neem oil spray", "Use compost tea as a natural fungicide"]

  const DefaultChemical: seq<string> :=
    ["Apply copper-based fungicide", "Use systemic fungicide as per label instructions"]

  /** `WHERE crop_id = cropId`: the diseases of one crop, in table order. */
  function DiseasesOf(diseases: seq<Disease>, cropId: int): (r: seq<Disease>)
    ensures |r| <= |diseases|
    ensures forall d :: d in r <==> d in diseases && d.crop_id == cropId
  {
    if diseases == [] then []
    else
      var rest := DiseasesOf(diseases[1..], cropId);
      assert forall d :: d in diseases <==> d == diseases[0] || d in diseases[1..];
      if diseases[0].crop_id == cropId then [diseases[0]] + rest else rest
  }

  /** `SELECT * FROM diseases WHERE crop_id = cropId LIMIT 5`. The query has no ORDER BY;
      this model takes the first five matching rows in table order. The candidates are at most
      five diseases of that crop, all of them when it has five or fewer, and there are none
      exactly when the crop has no disease at all. */
  function Candidates(diseases: seq<Disease>, cropId: int): (r: seq<Disease>)
    ensures |r| <= MaxCandidates
    ensures |r| == if |DiseasesOf(diseases, cropId)| <= MaxCandidates
                   then |DiseasesOf(diseases, cropId)| else MaxCandidates
    ensures r == DiseasesOf(diseases, cropId)[..|r|]
    ensures forall d :: d in r ==> d in diseases && d.crop_id == cropId
    ensures r == [] <==> forall d :: d in diseases ==> d.crop_id != cropId
  {
    var all := DiseasesOf(diseases, cropId);
    assert all == [] <==> forall d :: d in diseases ==> d.crop_id != cropId by {
      if all != [] { assert all[0] in all; }
    }
    if |all| <= MaxCandidates then all else all[..MaxCandidates]
  }

  /** `Math.floor(r * n)` for a draw `0 <= r < 1`: always a valid index into `n` items. */
  function PickIndex(r: real, n: nat): (k: nat)
    requires 0.0 <= r < 1.0 && n > 0
    ensures k < n
    ensures k as real <= r * n as real < k as real + 1.0
  {
    var x := r * n as real;
    assert 0.0 <= x < n as real;
    x.Floor
  }

  /** No candidate is unreachable: the draw `k / n` selects index `k`. */
  lemma PickIndexReaches(k: nat, n: nat)
    requires k < n
    ensures 0.0 <= k as real / n as real < 1.0
    ensures PickIndex(k as real / n as real, n) == k
  {
    var r := k as real / n as real;
    assert r * n as real == k as real;
    assert k as real < n as real;
  }

  /** Offline confidence `0.5 + Math.random() * 0.3`: in [0.5, 0.8), and the draw can be
      read back from it. */
  function OfflineConfidence(r: real): (c: real)
    requires 0.0 <= r < 1.0
    ensures 0.5 <= c < 0.8
    ensures (c - 0.5) / 0.3 == r
  {
    0.5 + r * 0.3
  }

  /** Online confidence `0.6 + Math.random() * 0.35`: in [0.6, 0.95), and the draw can be
      read back from it. */
  function OnlineConfidence(r: real): (c: real)
    requires 0.0 <= r < 1.0
    ensures 0.6 <= c < 0.95
    ensures (c - 0.6) / 0.35 == r
  {
    0.6 + r * 0.35
  }

  /** `field ? field.split(";").map((t) => t.trim()) : fallback`. A null or empty column gives
      the fallback list; otherwise one entry per `;`-separated piece, in order, trimmed, empty
      pieces kept, and no entry contains `;`. */
  function ParseTreatments(field: Option<string>, fallback: seq<string>): (r: seq<string>)
    ensures (field == None || field == Some("")) ==> r == fallback
    ensures field.Some? && field.value != "" ==>
              && |r| == Count(field.value, ';') + 1
              && forall i :: 0 <= i < |r| ==>
                   && r[i] == Trim(Split(field.value, ';')[i])
                   && ';' !in r[i]
                   && (r[i] != [] ==> !IsSpace(r[i][0]) && !IsSpace(r[i][|r[i]| - 1]))
  {
    match field
    case None => fallback
    case Some(s) =>
      if s == "" then fallback
      else
        var parts := Split(s, ';');
        seq(|parts|, i requires 0 <= i < |parts| => Trim(parts[i]))
  }

  /** A column with one `;` yields its two pieces, trimmed. */
  lemma ParseTwoPieces(p: string, q: string, fallback: seq<string>)
    requires ';' !in p && ';' !in q
    ensures ParseTreatments(Some(p + [';'] + q), fallback) == [Trim(p), Trim(q)]
  {
    SplitAfterPiece(p, ';', q);
    SplitWithoutSep(q, ';');
    var parts := Split(p + [';'] + q, ';');
    assert parts == [p, q];
  }

  /** A stored treatment column "Apply neem oil; Use compost tea" yields the two trimmed entries. */
  lemma TreatmentsExample()
    ensures ParseTreatments(Some("Apply neem oil" + ";" + " Use compost tea"), DefaultOrganic)
            == ["Apply neem oil", "Use compost tea"]
  {
    var p, q := "Apply neem oil", " Use compost tea";
    ParseTwoPieces(p, q, DefaultOrganic);
    TrimmedExample(p, q);
  }

  lemma TrimmedExample(p: string, q: string)
    requires p == "Apply neem oil" && q == " Use compost tea"
    ensures Trim(p) == p && Trim(q) == "Use compost tea"
  {
    assert LeadingSpaces(p) == 0;
    assert TrailingSpaces(p) == 0;
    assert p[0..] == p && p[..|p|] == p;
    assert LeadingSpaces(q[1..]) == 0;
    assert LeadingSpaces(q) == 1;
    assert TrailingSpaces(q[1..]) == 0;
    assert q[1..][..|q[1..]|] == "Use compost tea";
  }

  /** `image.substring(0, 255)`: the stored image is the first 255 characters of `image`,
      or all of it when it is shorter. */
  function Truncate255(image: string): (r: string)
    ensures |r| == if |image| <= ImagePrefixLength then |image| else ImagePrefixLength
    ensures r == image[..|r|]
    ensures |image| <= ImagePrefixLength ==> r == image
  {
    Prefix(image, ImagePrefixLength)
  }
}
