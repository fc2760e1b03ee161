/**
 * The parsing half of `extract_details_from_image` in tools/ocr_tool.py: given
 * the text the OCR engine produced, find the leftmost PAN number, the leftmost
 * word-bounded Aadhaar number and a labelled date of birth, and build the
 * result dictionary. The three regular expressions are written out as
 * explicit matchers over ASCII character classes; each search is specified as
 * "the leftmost index where the pattern matches".
 */
module OcrTool {
  import opened Text
  import opened PyValues

  // ---------------------------------------------------------------------
  // Character classes

  predicate IsUpper(c: char) { 'A' <= c <= 'Z' }

  /** `\d` over ASCII. */
  predicate IsDigit(c: char) { '0' <= c <= '9' }

  /** `\s` over ASCII: space, \t, \n, \v, \f, \r and the separators \x1c-\x1f. */
  predicate IsSpace(c: char) {
    c == ' ' || '\t' <= c <= '\r' || '\U{1c}' <= c <= '\U{1f}'
  }

  /** `\w` over ASCII: letters, digits and the underscore. */
  predicate IsWordChar(c: char) {
    'a' <= c <= 'z' || IsUpper(c) || IsDigit(c) || c == '_'
  }

  // ---------------------------------------------------------------------
  // Leftmost search

  /**
   * The least index in [from, limit) at which `matches` holds, if any: what
   * `re.search` returns for a pattern whose matches at an index are decided by
   * that index alone.
   */
  function Leftmost(matches: int -> bool, from: nat, limit: nat): (r: Option<nat>)
    requires from <= limit
    ensures r.Some? ==> from <= r.value < limit && matches(r.value)
    ensures r.Some? ==> forall j :: from <= j < r.value ==> !matches(j)
    ensures r.None? ==> forall j :: from <= j < limit ==> !matches(j)
    decreases limit - from
  {
    if from == limit then None
    else if matches(from) then Some(from)
    else Leftmost(matches, from + 1, limit)
  }

  // ---------------------------------------------------------------------
  // PAN: [A-Z]{5}[0-9]{4}[A-Z]{1}

  predicate PanShaped(t: string) {
    |t| == 10
    && (forall k :: 0 <= k < 5 ==> IsUpper(t[k]))
    && (forall k :: 5 <= k < 9 ==> IsDigit(t[k]))
    && IsUpper(t[9])
  }

  predicate PanAt(s: string, i: int) {
    0 <= i && i + 10 <= |s| && PanShaped(s[i..i + 10])
  }

  /** `re.search(pan_regex, text)`: the start of the leftmost PAN-shaped token. */
  function FindPan(s: string): (r: Option<nat>)
    ensures r.Some? ==> PanAt(s, r.value) && forall j :: 0 <= j < r.value ==> !PanAt(s, j)
    ensures r.None? ==> forall j :: !PanAt(s, j)
  {
    var matches := i => PanAt(s, i);
    assert forall j :: matches(j) == PanAt(s, j);
    Leftmost(matches, 0, |s| + 1)
  }

  // ---------------------------------------------------------------------
  // Aadhaar: \b\d{4}\s\d{4}\s\d{4}\b

  predicate AadhaarShaped(t: string) {
    |t| == 14
    && (forall k :: 0 <= k < 14 && k != 4 && k != 9 ==> IsDigit(t[k]))
    && IsSpace(t[4]) && IsSpace(t[9])
  }

  /**
   * An Aadhaar-shaped token at `i` with a word boundary on each side: the token
   * starts and ends with a digit, so the boundary means the neighbouring
   * character, if any, is not a word character.
   */
  predicate AadhaarAt(s: string, i: int) {
    0 <= i && i + 14 <= |s| && AadhaarShaped(s[i..i + 14])
    && (i == 0 || !IsWordChar(s[i - 1]))
    && (i + 14 == |s| || !IsWordChar(s[i + 14]))
  }

  /** `re.search(aadhar_regex, text)`: the start of the leftmost word-bounded Aadhaar number. */
  function FindAadhaar(s: string): (r: Option<nat>)
    ensures r.Some? ==> AadhaarAt(s, r.value) && forall j :: 0 <= j < r.value ==> !AadhaarAt(s, j)
    ensures r.None? ==> forall j :: !AadhaarAt(s, j)
  {
    var matches := i => AadhaarAt(s, i);
    assert forall j :: matches(j) == AadhaarAt(s, j);
    Leftmost(matches, 0, |s| + 1)
  }

  // ---------------------------------------------------------------------
  // Date of birth: (?:DOB|Birth|DoB|Binh)\s*[:\s]*\s*(\d{2}/\d{2}/\d{4}), ignoring case

  /** The labels, lowered; "DoB" is "DOB" once case is ignored. */
  const DobLabels: seq<string> := ["dob", "birth", "binh"]

  /** Where a label that starts at `i` ends, if one does. */
  function LabelEnd(s: string, i: nat): (e: Option<nat>)
    ensures e.Some? ==> i < e.value <= |s| && Lower(s[i..e.value]) in DobLabels
    ensures e.None? ==> forall tag :: tag in DobLabels && i + |tag| <= |s| ==>
                          Lower(s[i..i + |tag|]) != tag
  {
    if i + 3 <= |s| && Lower(s[i..i + 3]) == "dob" then Some(i + 3)
    else if i + 5 <= |s| && Lower(s[i..i + 5]) == "birth" then Some(i + 5)
    else if i + 4 <= |s| && Lower(s[i..i + 4]) == "binh" then Some(i + 4)
    else None
  }

  /** `[:\s]`. */
  predicate IsSeparator(c: char) { c == ':' || IsSpace(c) }

  /** The end of the run of colons and white space that starts at `k`. */
  function SepEnd(s: string, k: nat): (e: nat)
    requires k <= |s|
    ensures k <= e <= |s|
    ensures forall j :: k <= j < e ==> IsSeparator(s[j])
    ensures e == |s| || !IsSeparator(s[e])
    decreases |s| - k
  {
    if k < |s| && IsSeparator(s[k]) then SepEnd(s, k + 1) else k
  }

  /** Every character from `a` up to `b` is a separator. */
  predicate SeparatorsBetween(s: string, a: nat, b: nat) {
    a <= b <= |s| && forall j :: a <= j < b ==> IsSeparator(s[j])
  }

  /**
   * `\s*[:\s]*\s*` before a digit can only end where the separator run ends:
   * any run of separators followed by a digit is the whole run. So the
   * pattern's backtracking never picks a different date than `SepEnd` does.
   */
  lemma SeparatorRunIsMaximal(s: string, e: nat, k: nat)
    requires e <= k < |s| && IsDigit(s[k])
    requires forall j :: e <= j < k ==> IsSeparator(s[j])
    ensures k == SepEnd(s, e)
  {
  }

  predicate DateShaped(t: string) {
    |t| == 10
    && (forall k :: 0 <= k < 10 && k != 2 && k != 5 ==> IsDigit(t[k]))
    && t[2] == '/' && t[5] == '/'
  }

  /** Where the date after a label at `i` starts, if a label is there. */
  function DateStart(s: string, i: nat): (k: nat)
    requires LabelEnd(s, i).Some?
    ensures SeparatorsBetween(s, LabelEnd(s, i).value, k)
    ensures k == |s| || !IsSeparator(s[k])
  {
    SepEnd(s, LabelEnd(s, i).value)
  }

  /** A label at `i`, the separators after it, and a date. */
  predicate DobAt(s: string, i: int) {
    0 <= i && LabelEnd(s, i).Some?
    && DateStart(s, i) + 10 <= |s| && DateShaped(s[DateStart(s, i)..DateStart(s, i) + 10])
  }

  /** `re.search(dob_regex, text, re.IGNORECASE)`: the start of the leftmost labelled date. */
  function FindDob(s: string): (r: Option<nat>)
    ensures r.Some? ==> DobAt(s, r.value) && forall j :: 0 <= j < r.value ==> !DobAt(s, j)
    ensures r.None? ==> forall j :: !DobAt(s, j)
  {
    var matches := i => DobAt(s, i);
    assert forall j :: matches(j) == DobAt(s, j);
    assert forall j :: j > |s| ==> !DobAt(s, j);
    Leftmost(matches, 0, |s| + 1)
  }

  /** `dob_match.group(1)`: the date itself. */
  function DobText(s: string, i: int): (date: string)
    requires DobAt(s, i)
    ensures DateShaped(date)
    ensures exists k: nat :: SeparatorsBetween(s, LabelEnd(s, i).value, k) && k + 10 <= |s| && date == s[k..k + 10]
  {
    var k := DateStart(s, i);
    assert SeparatorsBetween(s, LabelEnd(s, i).value, k);
    s[k..k + 10]
  }

  /** Lowering the text does not move the end of a separator run. */
  lemma {:induction false} SepEndIgnoresCase(s: string, k: nat)
    requires k <= |s|
    ensures SepEnd(Lower(s), k) == SepEnd(s, k)
    decreases |s| - k
  {
    if k < |s| {
      assert Lower(s)[k] == LowerChar(s[k]);
      if IsSeparator(s[k]) {
        SepEndIgnoresCase(s, k + 1);
      }
    }
  }

  /** A slice of the lowered text, lowered again, is the slice of the text lowered. */
  lemma LoweredSlice(s: string, i: nat, j: nat)
    requires i <= j <= |s|
    ensures Lower(Lower(s)[i..j]) == Lower(s[i..j])
  {
    assert Lower(s)[i..j] == Lower(s[i..j]);
    LowerIdempotent(s[i..j]);
  }

  /** A label is recognized at the same place, ending at the same index, in the lowered text. */
  lemma LabelIgnoresCase(s: string, i: nat)
    ensures LabelEnd(Lower(s), i) == LabelEnd(s, i)
  {
    if i + 3 <= |s| { LoweredSlice(s, i, i + 3); }
    if i + 4 <= |s| { LoweredSlice(s, i, i + 4); }
    if i + 5 <= |s| { LoweredSlice(s, i, i + 5); }
  }

  /** Lowering leaves digits and slashes alone, so a date reads the same in the lowered text. */
  lemma DateIgnoresCase(s: string, k: nat)
    requires k + 10 <= |s|
    ensures DateShaped(Lower(s)[k..k + 10]) <==> DateShaped(s[k..k + 10])
    ensures DateShaped(s[k..k + 10]) ==> Lower(s)[k..k + 10] == s[k..k + 10]
  {
    var lowDate, date := Lower(s)[k..k + 10], s[k..k + 10];
    assert forall q :: 0 <= q < 10 ==> lowDate[q] == LowerChar(date[q]);
    assert forall c :: IsDigit(LowerChar(c)) <==> IsDigit(c);
    assert forall c :: LowerChar(c) == '/' <==> c == '/';
  }

  /**
   * The date search ignores case, as `re.IGNORECASE` makes it: a labelled date
   * is found at the same place, with the same text, in the lowered text.
   */
  lemma DobIgnoresCase(s: string, i: int)
    ensures DobAt(Lower(s), i) <==> DobAt(s, i)
    ensures DobAt(s, i) ==> DobText(Lower(s), i) == DobText(s, i)
  {
    if 0 <= i {
      LabelIgnoresCase(s, i);
      if LabelEnd(s, i).Some? {
        SepEndIgnoresCase(s, LabelEnd(s, i).value);
        var k := DateStart(s, i);
        if k + 10 <= |s| {
          DateIgnoresCase(s, k);
        }
      }
    }
  }

  // ---------------------------------------------------------------------
  // The result dictionary

  const PanCard: string := "PAN Card"
  const AadharCard: string := "Aadhar Card"
  const Undetermined: string := "Could not confidently determine document type."

  /** Every key a parsed result can hold. */
  const ParsedKeys: set<string> :=
    {"raw_text", "doc_type", "pan_number", "aadhar_number", "date_of_birth", "warning"}

  /** The PAN step: a PAN-shaped token makes the text a PAN card and records the number. */
  function WithPan(data: map<string, string>, fullText: string): map<string, string> {
    var pan := FindPan(fullText);
    if pan.Some? then
      data["doc_type" := PanCard]["pan_number" := fullText[pan.value..pan.value + 10]]
    else data
  }

  /**
   * The Aadhaar step: an Aadhaar number makes the text an Aadhaar card, whatever
   * the PAN step said, and only then is a date of birth looked for.
   */
  function WithAadhaar(data: map<string, string>, fullText: string): map<string, string> {
    var aadhar := FindAadhaar(fullText);
    if aadhar.Some? then
      var withNumber := data["doc_type" := AadharCard]["aadhar_number" := fullText[aadhar.value..aadhar.value + 14]];
      var dob := FindDob(fullText);
      if dob.Some? then withNumber["date_of_birth" := DobText(fullText, dob.value)] else withNumber
    else data
  }

  /**
   * The dictionary built from the OCR text: the raw text always; the PAN
   * number when there is one; the Aadhaar number, and then possibly the date
   * of birth, when there is one, the Aadhaar type winning over PAN; and a
   * warning exactly when no type was found.
   */
  function ParseOcrText(fullText: string): (r: map<string, string>)
    ensures r.Keys <= ParsedKeys && "raw_text" in r && r["raw_text"] == fullText
    ensures "warning" in r <==> "doc_type" !in r
    ensures "warning" in r ==> r["warning"] == Undetermined
    ensures "doc_type" in r <==> FindPan(fullText).Some? || FindAadhaar(fullText).Some?
    ensures "doc_type" in r ==> r["doc_type"] == if FindAadhaar(fullText).Some? then AadharCard else PanCard
    ensures "pan_number" in r <==> FindPan(fullText).Some?
    ensures "pan_number" in r ==> PanShaped(r["pan_number"])
    ensures "aadhar_number" in r <==> FindAadhaar(fullText).Some?
    ensures "aadhar_number" in r ==> AadhaarShaped(r["aadhar_number"])
    ensures "date_of_birth" in r <==> FindAadhaar(fullText).Some? && FindDob(fullText).Some?
    ensures "date_of_birth" in r ==> DateShaped(r["date_of_birth"])
  {
    var extracted := WithAadhaar(WithPan(map["raw_text" := fullText], fullText), fullText);
    if "doc_type" !in extracted then extracted["warning" := Undetermined] else extracted
  }

  /** What the OCR engine did with the opened image: produced text, or raised with a message. */
  datatype OcrOutcome = Extracted(fullText: string) | Raised(message: string)

  /**
   * `extract_details_from_image`, the file system and the OCR engine being
   * inputs: a missing file and a failure of the engine give a dictionary
   * holding only "error"; otherwise the parsed text, which never holds "error".
   */
  function ExtractDetailsFromImage(imagePath: string, fileExists: bool, ocr: OcrOutcome): (r: map<string, string>)
    ensures "error" in r <==> !fileExists || ocr.Raised?
    ensures "error" in r ==> r.Keys == {"error"}
    ensures !fileExists ==> r["error"] == "File not found at " + imagePath
    ensures fileExists && ocr.Raised? ==> r["error"] == "An error occurred during OCR processing: " + ocr.message
    ensures fileExists && ocr.Extracted? ==> r == ParseOcrText(ocr.fullText)
  {
    if !fileExists then map["error" := "File not found at " + imagePath]
    else match ocr
      case Raised(message) => map["error" := "An error occurred during OCR processing: " + message]
      case Extracted(fullText) => ParseOcrText(fullText)
  }

  /** A bare PAN number is read as a PAN card with that number and no warning. */
  lemma PanCardExample()
    ensures var r := ParseOcrText("ABCDE1234F");
            "doc_type" in r && r["doc_type"] == PanCard
            && "pan_number" in r && r["pan_number"] == "ABCDE1234F"
            && "aadhar_number" !in r && "warning" !in r
  {
    assert PanAt("ABCDE1234F", 0);
  }

  /** Each recorded number is the text of the leftmost match of its pattern. */
  lemma ParsedNumbers(fullText: string)
    ensures var r := ParseOcrText(fullText);
            ("pan_number" in r ==> r["pan_number"] == fullText[FindPan(fullText).value..FindPan(fullText).value + 10])
            && ("aadhar_number" in r ==>
                  r["aadhar_number"] == fullText[FindAadhaar(fullText).value..FindAadhaar(fullText).value + 14])
            && ("date_of_birth" in r ==> r["date_of_birth"] == DobText(fullText, FindDob(fullText).value))
  {
  }

  /** A PAN-shaped token is made of word characters and does not start with a digit. */
  lemma PanTokenChars(pan: string)
    requires PanShaped(pan)
    ensures forall k :: 0 <= k < 10 ==> IsWordChar(pan[k])
    ensures !IsDigit(pan[0])
  {
    assert forall k :: 0 <= k < 5 ==> IsUpper(pan[k]);
  }

  /**
   * A PAN number, a space and an Aadhaar number: the Aadhaar type wins, and
   * both numbers are recorded as written.
   */
  lemma AadhaarWinsOverPan(pan: string, aadhar: string)
    requires PanShaped(pan) && AadhaarShaped(aadhar)
    ensures var r := ParseOcrText(pan + " " + aadhar);
            "doc_type" in r && r["doc_type"] == AadharCard
            && "pan_number" in r && r["pan_number"] == pan
            && "aadhar_number" in r && r["aadhar_number"] == aadhar
  {
    var t := pan + " " + aadhar;
    assert t[..10] == pan && t[11..25] == aadhar && t[10] == ' ';
    assert PanAt(t, 0);
    assert FindPan(t) == Some(0);
    assert AadhaarAt(t, 11);
    PanTokenChars(pan);
    assert forall k :: 0 <= k < 10 ==> t[k] == pan[k];
    assert t[..14][0] == pan[0];
    assert !AadhaarAt(t, 0);
    assert forall j :: 0 <= j < 11 ==> !AadhaarAt(t, j);
    assert FindAadhaar(t) == Some(11);
    ParsedNumbers(t);
  }

  /** Twelve digits that run on into a thirteenth are not an Aadhaar number: the word boundary fails. */
  lemma AadhaarNeedsWordBoundary()
    ensures FindAadhaar("1234 5678 90123").None?
  {
    var t := "1234 5678 90123";
    assert !AadhaarAt(t, 0);
    assert !AadhaarAt(t, 1);
  }

  /** Text with neither number carries the warning and no type. */
  lemma UndeterminedExample()
    ensures ParseOcrText("Name") == map["raw_text" := "Name", "warning" := Undetermined]
  {
  }
}
