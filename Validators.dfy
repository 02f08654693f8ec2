/** The upload checks of `validators.py`: the file kind chosen from the
    MIME guesses, the creation and modification dates read from a PDF's XMP
    metadata or an image's EXIF tags, and the check that those dates exist,
    are not in the future and are in order. Reading the file (pikepdf, PIL,
    puremagic) is not modelled: each reader is the result it produced. */
module Validators {
  import opened Wrappers
  import opened Text
  import opened Calendar

  /** How a validation ends: normally, with a `ValidationError` carrying its
      message, or with another exception that escapes to the caller. */
  datatype Verdict = Accepted | Rejected(message: string) | Raised(exception: string)

  // ---------------------------------------------------------------------
  // date_check

  /** What is wrong with the dates of a file. */
  datatype DateProblem = NoDates | CreatedInFuture | ModifiedInFuture | ModifiedFirst

  /** `a` is not later than `b`. */
  predicate NotLater(a: DateTime, b: DateTime) { !Before(b, a) }

  /** Dates a file may carry: at least one of them, none later than `now`,
      and the modification not earlier than the creation. */
  predicate Consistent(created: Option<DateTime>, modified: Option<DateTime>, now: DateTime)
  {
    && (created.Some? || modified.Some?)
    && (created.Some? ==> NotLater(created.value, now))
    && (modified.Some? ==> NotLater(modified.value, now))
    && (created.Some? && modified.Some? ==> NotLater(created.value, modified.value))
  }

  /** The first failing test of `date_check`: missing dates (its `is None`
      and falsy forms agree, a date being always truthy), then a future
      creation, a future modification, and the order. */
  function DateProblemOf(created: Option<DateTime>, modified: Option<DateTime>, now: DateTime): (r: Option<DateProblem>)
    ensures r.None? <==> Consistent(created, modified, now)
    ensures r == Some(NoDates) <==> created.None? && modified.None?
    ensures created.Some? && Before(now, created.value) ==> r == Some(CreatedInFuture)
    ensures r == Some(ModifiedInFuture) ==> modified.Some? && Before(now, modified.value)
    ensures r == Some(ModifiedFirst) ==>
              created.Some? && modified.Some? && NotLater(created.value, now) && NotLater(modified.value, now)
              && Before(modified.value, created.value)
  {
    if created.None? && modified.None? then Some(NoDates)
    else if created.Some? && Before(now, created.value) then Some(CreatedInFuture)
    else if modified.Some? && Before(now, modified.value) then Some(ModifiedInFuture)
    else if created.Some? && modified.Some? && Before(modified.value, created.value) then Some(ModifiedFirst)
    else None
  }

  /** The message of `validators.py`, after the file kind. */
  function Message(p: DateProblem): string
  {
    match p
    case NoDates => " - i Metadati sono vuoti."
    case CreatedInFuture => " - la Data di Creazione \U{E8} nel futuro."
    case ModifiedInFuture => " - la Data di Modifica \U{E8} nel futuro."
    case ModifiedFirst => " - la Data di Modifica precede la Data di Creazione"
  }

  /** `date_check`: a `ValidationError` naming the file kind and the first
      problem found, or a normal return. */
  function DateCheck(created: Option<DateTime>, modified: Option<DateTime>, fileKind: string, now: DateTime): (r: Verdict)
    ensures r.Accepted? <==> Consistent(created, modified, now)
    ensures !r.Raised?
    ensures r.Rejected? ==> r.message == fileKind + Message(DateProblemOf(created, modified, now).value)
  {
    var p := DateProblemOf(created, modified, now);
    if p.None? then Accepted else Rejected(fileKind + Message(p.value))
  }

  /** Accepted dates are in time order: creation, modification, now. */
  lemma AcceptedDatesInOrder(created: DateTime, modified: DateTime, fileKind: string, now: DateTime)
    requires DateCheck(Some(created), Some(modified), fileKind, now) == Accepted
    ensures !Before(modified, created) && !Before(now, modified) && !Before(now, created)
  {
  }

  // ---------------------------------------------------------------------
  // parse_pdf_date: "D:" and fourteen digits, section 7.9.4 of ISO 32000-1

  /** `re.match(r"D:(\d{14})", s)`: "D:" then fourteen digits; whatever
      follows (seconds fraction, zone) is ignored. */
  predicate PdfPrefix(s: string)
  {
    |s| >= 16 && s[..2] == "D:" && forall k :: 2 <= k < 16 ==> IsDigit(s[k])
  }

  /** The fourteen digits read by `%Y%m%d%H%M%S`: with fourteen digits
      every field takes its full width. */
  function PdfFields(s: string): (dt: DateTime)
    requires PdfPrefix(s)
  {
    DateTime(DigitsValue(s[2..6]), DigitsValue(s[6..8]), DigitsValue(s[8..10]),
             DigitsValue(s[10..12]), DigitsValue(s[12..14]), DigitsValue(s[14..16]))
  }

  /** `parse_pdf_date`: `None` for a missing or empty string, for one
      without the "D:" prefix and fourteen digits, and for digits that are
      no valid calendar value (the `ValueError` is caught); otherwise that
      UTC time. */
  function ParsePdfDate(s: Option<string>): (r: Option<DateTime>)
    ensures (s.None? || s.value == "") ==> r.None?
    ensures r.Some? ==> s.Some? && PdfPrefix(s.value) && Valid(r.value)
  {
    if s.None? || s.value == "" then None
    else if !PdfPrefix(s.value) then None
    else
      var dt := PdfFields(s.value);
      if Valid(dt) then Some(dt) else None
  }

  /** The fourteen digits `%Y%m%d%H%M%S` writes for `dt`. */
  function PdfDigits(dt: DateTime): (r: string)
    requires Valid(dt)
    ensures |r| == 14
  {
    Fixed(dt.year, 4) + Fixed(dt.month, 2) + Fixed(dt.day, 2) + Fixed(dt.hour, 2) + Fixed(dt.minute, 2) + Fixed(dt.second, 2)
  }

  /** A PDF date written from a valid time, with any trailing zone, reads
      back as that time. */
  lemma PdfDateRoundTrip(dt: DateTime, tail: string)
    requires Valid(dt)
    ensures ParsePdfDate(Some("D:" + PdfDigits(dt) + tail)) == Some(dt)
  {
    var s := "D:" + PdfDigits(dt) + tail;
    assert s[2..6] == Fixed(dt.year, 4);
    assert s[6..8] == Fixed(dt.month, 2);
    assert s[8..10] == Fixed(dt.day, 2);
    assert s[10..12] == Fixed(dt.hour, 2);
    assert s[12..14] == Fixed(dt.minute, 2);
    assert s[14..16] == Fixed(dt.second, 2);
    FixedValue(dt.year, 4);
    FixedValue(dt.month, 2);
    FixedValue(dt.day, 2);
    FixedValue(dt.hour, 2);
    FixedValue(dt.minute, 2);
    FixedValue(dt.second, 2);
    assert PdfFields(s) == dt;
  }

  /** A date string cut short of the fourteen digits gives no date. */
  lemma ShortPdfDateIsNone(s: string)
    requires |s| < 16
    ensures ParsePdfDate(Some(s)).None?
  {
  }

  // ---------------------------------------------------------------------
  // parse_exif_data: "YYYY:MM:DD HH:MM:SS"

  /** The digits `strptime` reads for a number field at `i`: as many as
      there are, up to two. */
  function DigitRun(s: string, i: nat): (w: nat)
    requires i <= |s|
    ensures w <= 2 && i + w <= |s|
    ensures forall k :: i <= k < i + w ==> IsDigit(s[k])
  {
    if i < |s| && IsDigit(s[i]) then (if i + 1 < |s| && IsDigit(s[i + 1]) then 2 else 1) else 0
  }

  /** A one- or two-digit number field of `%m`, `%H`, `%M` or `%S` at `i`,
      whose pattern admits the values `lo` to `hi`: the value and the
      index after it. */
  function NumField(s: string, i: nat, lo: nat, hi: nat): (r: Option<(nat, nat)>)
    requires i <= |s|
    ensures r.Some? ==> i < r.value.1 <= i + 2 && r.value.1 <= |s| && lo <= r.value.0 <= hi
    ensures r.Some? ==> r.value.1 == |s| || !IsDigit(s[r.value.1])
  {
    var w := DigitRun(s, i);
    if w == 0 then None
    else
      var v := DigitsValue(s[i..i + w]);
      if lo <= v <= hi && (i + w == |s| || !IsDigit(s[i + w])) then Some((v, i + w)) else None
  }

  /** The `%d` field at `i`: one or two digits, or a space and a digit. */
  function DayField(s: string, i: nat): (r: Option<(nat, nat)>)
    requires i <= |s|
    ensures r.Some? ==> i < r.value.1 <= i + 2 && r.value.1 <= |s| && 1 <= r.value.0 <= 31
  {
    if i + 1 < |s| && s[i] == ' ' && IsDigit(s[i + 1]) && s[i + 1] != '0' then
      (if i + 2 == |s| || !IsDigit(s[i + 2]) then Some((DigitOf(s[i + 1]), i + 2)) else None)
    else NumField(s, i, 1, 31)
  }

  /** The index after the run of white space that starts at `i`. */
  function SpaceEnd(s: string, i: nat): (j: nat)
    requires i <= |s|
    ensures i <= j <= |s| && (j == |s| || !IsSpace(s[j]))
    ensures forall k :: i <= k < j ==> IsSpace(s[k])
    decreases |s| - i
  {
    if i < |s| && IsSpace(s[i]) then SpaceEnd(s, i + 1) else i
  }

  /** `strptime(s, "%Y:%m:%d %H:%M:%S")` up to building the date: four
      digits of year; one or two digits of month, hour, minute and second;
      a day of one or two digits or a space and a digit; ':' between them
      and a run of white space for the format's space; nothing after the
      seconds. The patterns bound month to 1..12, day to 1..31, hour to
      0..23, minute to 0..59 and second to 0..61. */
  function StrptimeExif(s: string): (r: Option<DateTime>)
    ensures r.Some? ==> 1 <= r.value.month <= 12 && 1 <= r.value.day <= 31 && r.value.hour < 24
                        && r.value.minute < 60 && r.value.second <= 61
  {
    if |s| < 5 || !IsDigits(s[..4]) || s[4] != ':' then None
    else
      var mo := NumField(s, 5, 1, 12);
      if mo.None? || mo.value.1 == |s| || s[mo.value.1] != ':' then None
      else
        var d := DayField(s, mo.value.1 + 1);
        if d.None? then None
        else
          var j := SpaceEnd(s, d.value.1);
          if j == d.value.1 then None
          else TimeFrom(s, j, DigitsValue(s[..4]), mo.value.0, d.value.0)
  }

  /** The `%H:%M:%S` part from `i` to the end, on the date read before it. */
  function TimeFrom(s: string, i: nat, year: nat, month: nat, day: nat): (r: Option<DateTime>)
    requires i <= |s|
    ensures r.Some? ==> r.value.year == year && r.value.month == month && r.value.day == day
                        && r.value.hour < 24 && r.value.minute < 60 && r.value.second <= 61
  {
    var h := NumField(s, i, 0, 23);
    if h.None? || h.value.1 == |s| || s[h.value.1] != ':' then None
    else
      var mi := NumField(s, h.value.1 + 1, 0, 59);
      if mi.None? || mi.value.1 == |s| || s[mi.value.1] != ':' then None
      else
        var se := NumField(s, mi.value.1 + 1, 0, 61);
        if se.None? || se.value.1 != |s| then None
        else Some(DateTime(year, month, day, h.value.0, mi.value.0, se.value.0))
  }

  /** `parse_exif_data`: `None` for a missing or empty string, for a length
      other than 19, for a string without ':', for one `strptime` rejects
      and for a date `datetime` refuses (a day past the month's end, year
      0, second 60 or 61); otherwise that time. */
  function ParseExifData(s: Option<string>): (r: Option<DateTime>)
    ensures (s.None? || s.value == "") ==> r.None?
    ensures s.Some? && (|s.value| != 19 || ':' !in s.value) ==> r.None?
    ensures r.Some? ==> Valid(r.value) && r == StrptimeExif(s.value)
  {
    if s.None? || s.value == "" then None
    else if |s.value| != 19 || ':' !in s.value then None
    else
      var dt := StrptimeExif(s.value);
      if dt.Some? && Valid(dt.value) then dt else None
  }

  /** What a camera writes for `dt`. */
  function ExifText(dt: DateTime): (r: string)
    requires Valid(dt)
    ensures |r| == 19
  {
    Fixed(dt.year, 4) + ":" + Fixed(dt.month, 2) + ":" + Fixed(dt.day, 2) + " "
    + Fixed(dt.hour, 2) + ":" + Fixed(dt.minute, 2) + ":" + Fixed(dt.second, 2)
  }

  /** A two-digit field written by `Fixed` reads back as its value. */
  lemma NumFieldOfFixed(s: string, i: nat, v: nat, lo: nat, hi: nat)
    requires i + 2 <= |s| && s[i..i + 2] == Fixed(v, 2) && lo <= v <= hi && v < 100
    requires i + 2 == |s| || !IsDigit(s[i + 2])
    ensures NumField(s, i, lo, hi) == Some((v, i + 2))
  {
    FixedValue(v, 2);
    assert s[i] == Fixed(v, 2)[0] && s[i + 1] == Fixed(v, 2)[1];
  }

  lemma ExifRoundTrip(dt: DateTime)
    requires Valid(dt)
    ensures ParseExifData(Some(ExifText(dt))) == Some(dt)
  {
    var s := ExifText(dt);
    ExifDateRead(dt);
    ExifTimeRead(dt);
    assert StrptimeExif(s) == Some(dt);
  }

  /** The `%Y:%m:%d ` part of a camera's text reads back as its date. */
  lemma ExifDateRead(dt: DateTime)
    requires Valid(dt)
    ensures var s := ExifText(dt);
            IsDigits(s[..4]) && DigitsValue(s[..4]) == dt.year && s[4] == ':'
            && NumField(s, 5, 1, 12) == Some((dt.month as nat, 7)) && s[7] == ':'
            && DayField(s, 8) == Some((dt.day as nat, 10)) && SpaceEnd(s, 10) == 11
  {
    var s := ExifText(dt);
    assert s[0..4] == Fixed(dt.year, 4);
    assert s[..4] == s[0..4];
    FixedValue(dt.year, 4);
    assert s[4] == ':' && s[7] == ':' && s[10] == ' ';
    NumFieldOfFixed(s, 5, dt.month, 1, 12);
    assert s[8] != ' ' by { assert s[8..10] == Fixed(dt.day, 2); assert IsDigit(Fixed(dt.day, 2)[0]); }
    NumFieldOfFixed(s, 8, dt.day, 1, 31);
    assert SpaceEnd(s, 11) == 11;
    assert SpaceEnd(s, 10) == 11;
  }

  /** The `%H:%M:%S` part of a camera's text reads back as its time. */
  lemma ExifTimeRead(dt: DateTime)
    requires Valid(dt)
    ensures TimeFrom(ExifText(dt), 11, dt.year, dt.month, dt.day) == Some(dt)
  {
    var s := ExifText(dt);
    assert s[13] == ':' && s[16] == ':';
    NumFieldOfFixed(s, 11, dt.hour, 0, 23);
    NumFieldOfFixed(s, 14, dt.minute, 0, 59);
    NumFieldOfFixed(s, 17, dt.second, 0, 61);
  }

  /** `strptime` takes one-digit fields and a run of white space: a
      nineteen-character text in that form is read, not refused. */
  lemma ShortFieldsRead()
    ensures ParseExifData(Some(ShortExif)) == Some(DateTime(2024, 1, 5, 9, 7, 3))
  {
    ShortExifDate();
    ShortExifTime();
    var s := ShortExif;
    assert StrptimeExif(s) == Some(DateTime(2024, 1, 5, 9, 7, 3));
    assert Valid(DateTime(2024, 1, 5, 9, 7, 3));
    assert |s| == 19 && s[4] in s;
  }

  const ShortExif := "2024:1:5    9:07:03"

  lemma ShortExifDate()
    ensures IsDigits(ShortExif[..4]) && ShortExif[4] == ':' && DigitsValue(ShortExif[..4]) == 2024
    ensures NumField(ShortExif, 5, 1, 12) == Some((1, 6)) && ShortExif[6] == ':'
    ensures DayField(ShortExif, 7) == Some((5, 8)) && SpaceEnd(ShortExif, 8) == 12
  {
    var s := ShortExif;
    assert s[4] == ':' && s[6] == ':';
    assert IsDigits(s[..4]) && DigitsValue(s[..4]) == 2024 by {
      assert s[..4] == "2024";
      assert "2024"[..3] == "202" && "202"[..2] == "20" && "20"[..1] == "2";
    }
    assert NumField(s, 5, 1, 12) == Some((1, 6)) by {
      assert DigitRun(s, 5) == 1;
      assert s[5..6] == "1" && DigitsValue("1") == 1;
    }
    assert DayField(s, 7) == Some((5, 8)) by {
      assert s[7] != ' ' && DigitRun(s, 7) == 1;
      assert s[7..8] == "5" && DigitsValue("5") == 5;
    }
    assert SpaceEnd(s, 8) == 12 by {
      assert SpaceEnd(s, 12) == 12;
      assert SpaceEnd(s, 10) == 12;
    }
  }

  lemma ShortExifTime()
    ensures TimeFrom(ShortExif, 12, 2024, 1, 5) == Some(DateTime(2024, 1, 5, 9, 7, 3))
  {
    var s := ShortExif;
    assert s[13] == ':' && s[16] == ':';
    assert NumField(s, 12, 0, 23) == Some((9, 13)) by {
      assert DigitRun(s, 12) == 1;
      assert s[12..13] == "9" && DigitsValue("9") == 9;
    }
    assert NumField(s, 14, 0, 59) == Some((7, 16)) by {
      assert DigitRun(s, 14) == 2;
      assert "07"[..1] == "0" && s[14..16] == "07" && DigitsValue("07") == 7;
    }
    assert NumField(s, 17, 0, 61) == Some((3, 19)) by {
      assert DigitRun(s, 17) == 2;
      assert "03"[..1] == "0" && s[17..19] == "03" && DigitsValue("03") == 3;
    }
  }

  // ---------------------------------------------------------------------
  // find_mime and get_file_type

  /** One guess of puremagic: a MIME type and its confidence. */
  datatype MimeGuess = MimeGuess(mime: string, confidence: real)

  predicate Confident(g: MimeGuess) { g.mime != "" && 0.85 < g.confidence < 1.00 }

  /** The MIME type of the first confident guess. */
  function FirstConfident(gs: seq<MimeGuess>): (r: Option<string>)
    ensures r.None? <==> forall i :: 0 <= i < |gs| ==> !Confident(gs[i])
  {
    if gs == [] then None
    else if Confident(gs[0]) then Some(gs[0].mime)
    else FirstConfident(gs[1..])
  }

  /** The type chosen is that of a confident guess with none before it. */
  lemma {:induction false} FirstConfidentIsFirst(gs: seq<MimeGuess>)
    requires FirstConfident(gs).Some?
    ensures exists i :: 0 <= i < |gs| && Confident(gs[i]) && gs[i].mime == FirstConfident(gs).value
                        && forall j :: 0 <= j < i ==> !Confident(gs[j])
  {
    if !Confident(gs[0]) {
      FirstConfidentIsFirst(gs[1..]);
      var i :| 0 <= i < |gs[1..]| && Confident(gs[1..][i]) && gs[1..][i].mime == FirstConfident(gs).value
                && forall j :: 0 <= j < i ==> !Confident(gs[1..][j]);
      assert Confident(gs[i + 1]) && forall j :: 0 <= j < i + 1 ==> !Confident(gs[j]);
    }
  }

  /** `find_mime`'s search: the first guess whose type is set and whose
      confidence lies strictly between 0.85 and 1.00; `None` when there is
      none, as the function then falls off its end. */
  method FindMime(gs: seq<MimeGuess>) returns (r: Option<string>)
    ensures r == FirstConfident(gs)
  {
    var i := 0;
    while i < |gs|
      invariant 0 <= i <= |gs|
      invariant FirstConfident(gs) == FirstConfident(gs[i..])
    {
      if Confident(gs[i]) {
        return Some(gs[i].mime);
      }
      assert gs[i..][1..] == gs[i + 1..];
      i := i + 1;
    }
    return None;
  }

  /** `ALLOWED_MIME_TYPES`. */
  function AllowedKind(mime: string): (r: Option<string>)
    ensures r.Some? <==> mime in {"application/pdf", "image/jpeg", "image/png", "image/webp"}
    ensures r.Some? ==> (r.value == "PDF" <==> mime == "application/pdf")
    ensures r.Some? ==> r.value in {"PDF", "Image"}
  {
    if mime == "application/pdf" then Some("PDF")
    else if mime in {"image/jpeg", "image/png", "image/webp"} then Some("Image")
    else None
  }

  /** Python's `str()` of an optional string. */
  function Show(m: Option<string>): string
  {
    if m.Some? then m.value else "None"
  }

  /** `get_file_type` given what `find_mime` returned: the kind of an
      allowed type, else a rejection naming the type (`None` included). */
  function FileType(mime: Option<string>): (r: Result<string>)
    ensures r.Ok? <==> mime.Some? && AllowedKind(mime.value).Some?
    ensures r.Ok? ==> r.value in {"PDF", "Image"}
    ensures r.Err? ==> r.error == "Formato file non ammesso : " + Show(mime)
  {
    if mime.Some? && AllowedKind(mime.value).Some? then Ok(AllowedKind(mime.value).value)
    else Err("Formato file non ammesso : " + Show(mime))
  }

  // ---------------------------------------------------------------------
  // pdf_validation, image_validation, validation_process

  /** `pdf_validation` given the XMP creation and modification strings, or
      the reader's error. */
  function PdfValidation(meta: Result<(Option<string>, Option<string>)>, now: DateTime): (r: Verdict)
    ensures meta.Err? ==> r == Rejected("Errore durante la lettura del PDF: " + meta.error)
    ensures r.Accepted? <==> meta.Ok? && Consistent(ParsePdfDate(meta.value.0), ParsePdfDate(meta.value.1), now)
    ensures !r.Raised?
  {
    if meta.Err? then Rejected("Errore durante la lettura del PDF: " + meta.error)
    else DateCheck(ParsePdfDate(meta.value.0), ParsePdfDate(meta.value.1), "PDF", now)
  }

  /** An EXIF entry: the tag's name and its value. */
  type ExifItem = (string, string)

  /** The date parsed from the last entry whose tag is in `tags`: each such
      entry overwrites the previous one, even when it does not parse. */
  function LastDate(items: seq<ExifItem>, tags: set<string>): (r: Option<DateTime>)
    ensures (forall i :: 0 <= i < |items| ==> items[i].0 !in tags) ==> r.None?
  {
    if items == [] then None
    else if items[|items| - 1].0 in tags then ParseExifData(Some(items[|items| - 1].1))
    else LastDate(items[..|items| - 1], tags)
  }

  /** Entry `i` carries one of the tags and no later entry does. */
  predicate LastTagged(items: seq<ExifItem>, tags: set<string>, i: int)
  {
    0 <= i < |items| && items[i].0 in tags && forall j :: i < j < |items| ==> items[j].0 !in tags
  }

  /** A date found comes from an entry with one of the tags, and no later
      entry carries such a tag. */
  lemma LastDateFrom(items: seq<ExifItem>, tags: set<string>)
    requires LastDate(items, tags).Some?
    ensures exists i :: LastTagged(items, tags, i) && LastDate(items, tags) == ParseExifData(Some(items[i].1))
  {
    var k :| 0 <= k < |items| && items[k].0 in tags;
    LastTaggedExists(items, tags, k);
    var i :| LastTagged(items, tags, i);
    LastDateAt(items, tags, i);
  }

  /** Some entry carries a tag, so a last one does. */
  lemma {:induction false} LastTaggedExists(items: seq<ExifItem>, tags: set<string>, k: nat)
    requires k < |items| && items[k].0 in tags
    ensures exists i :: LastTagged(items, tags, i)
    decreases |items| - k
  {
    if !LastTagged(items, tags, k) {
      var j :| k < j < |items| && items[j].0 in tags;
      LastTaggedExists(items, tags, j);
    }
  }

  /** The date is the one parsed from the last tagged entry. */
  lemma {:induction false} LastDateAt(items: seq<ExifItem>, tags: set<string>, i: int)
    requires LastTagged(items, tags, i)
    ensures LastDate(items, tags) == ParseExifData(Some(items[i].1))
  {
    var n := |items| - 1;
    if i < n {
      var p := items[..n];
      assert items[n].0 !in tags;
      assert LastDate(items, tags) == LastDate(p, tags);
      assert p[i] == items[i];
      assert LastTagged(p, tags, i) by {
        forall j | i < j < |p| ensures p[j].0 !in tags {
          assert p[j] == items[j];
        }
      }
      LastDateAt(p, tags, i);
    }
  }

  const CreatedTags: set<string> := {"DateTimeOriginal"}
  const ModifiedTags: set<string> := {"DateTime", "DateTimeDigitized"}

  /** The loop over the EXIF entries: the creation date from
      "DateTimeOriginal", the modification date from "DateTime" or
      "DateTimeDigitized". */
  method ScanExif(items: seq<ExifItem>) returns (created: Option<DateTime>, modified: Option<DateTime>)
    ensures created == LastDate(items, CreatedTags)
    ensures modified == LastDate(items, ModifiedTags)
  {
    created, modified := None, None;
    for i := 0 to |items|
      invariant created == LastDate(items[..i], CreatedTags)
      invariant modified == LastDate(items[..i], ModifiedTags)
    {
      var (tag, value) := items[i];
      assert items[..i + 1][..i] == items[..i];
      if tag == "DateTimeOriginal" {
        created := ParseExifData(Some(value));
      } else if tag in ModifiedTags {
        modified := ParseExifData(Some(value));
      }
    }
    assert items[..|items|] == items;
  }

  /** `image_validation` given the EXIF entries, or the reader's error. */
  function ImageVerdict(exif: Result<seq<ExifItem>>, now: DateTime): (r: Verdict)
    ensures exif.Err? ==> r == Rejected("Errore di lettura dell'Immagine:" + exif.error)
    ensures exif == Ok([]) ==> r == Rejected("Immagine priva di metadati EXIF.")
    ensures r.Accepted? <==> exif.Ok? && exif.value != []
                              && Consistent(LastDate(exif.value, CreatedTags), LastDate(exif.value, ModifiedTags), now)
    ensures !r.Raised?
  {
    if exif.Err? then Rejected("Errore di lettura dell'Immagine:" + exif.error)
    else if exif.value == [] then Rejected("Immagine priva di metadati EXIF.")
    else DateCheck(LastDate(exif.value, CreatedTags), LastDate(exif.value, ModifiedTags), "Image", now)
  }

  method ImageValidation(exif: Result<seq<ExifItem>>, now: DateTime) returns (r: Verdict)
    ensures r == ImageVerdict(exif, now)
  {
    if exif.Err? {
      return Rejected("Errore di lettura dell'Immagine:" + exif.error);
    }
    if exif.value == [] {
      return Rejected("Immagine priva di metadati EXIF.");
    }
    var created, modified := ScanExif(exif.value);
    r := DateCheck(created, modified, "Image", now);
  }

  /** What `validation_process` decides for a file. */
  function Outcome(guesses: Result<seq<MimeGuess>>, meta: Result<(Option<string>, Option<string>)>,
                   exif: Result<seq<ExifItem>>, now: DateTime): (r: Verdict)
    ensures guesses.Err? ==> r == Rejected("File non accettato")
    ensures r.Accepted? ==> guesses.Ok? && FirstConfident(guesses.value).Some?
    ensures !r.Raised?
  {
    if guesses.Err? then Rejected("File non accettato")
    else
      var kind := FileType(FirstConfident(guesses.value));
      if kind.Err? then Rejected(kind.error)
      else if kind.value == "PDF" then PdfValidation(meta, now)
      else if kind.value == "Image" then ImageVerdict(exif, now)
      else Rejected("File non ammesso : " + kind.value)
  }

  /** `validation_process`: the kind of the file, then the checks of that
      kind. A failure inside puremagic is "File non accettato". */
  method ValidationProcess(guesses: Result<seq<MimeGuess>>, meta: Result<(Option<string>, Option<string>)>,
                           exif: Result<seq<ExifItem>>, now: DateTime) returns (r: Verdict)
    ensures r == Outcome(guesses, meta, exif, now)
  {
    if guesses.Err? {
      return Rejected("File non accettato");
    }
    var mime := FindMime(guesses.value);
    var kind := FileType(mime);
    if kind.Err? {
      return Rejected(kind.error);
    }
    if kind.value == "PDF" {
      r := PdfValidation(meta, now);
    } else if kind.value == "Image" {
      r := ImageValidation(exif, now);
    } else {
      r := Rejected("File non ammesso : " + kind.value);
    }
  }

  /** A file is accepted only when its first confident guess is an allowed
      type and the dates of that kind are consistent; the final "File non
      ammesso" branch is never taken (the kinds are "PDF" and "Image"), and
      no exception escapes. */
  lemma OutcomeAccepts(guesses: Result<seq<MimeGuess>>, meta: Result<(Option<string>, Option<string>)>,
                       exif: Result<seq<ExifItem>>, now: DateTime)
    ensures var r := Outcome(guesses, meta, exif, now);
            && !r.Raised?
            && (r.Accepted? <==>
                  guesses.Ok? && var m := FirstConfident(guesses.value);
                  m.Some? && AllowedKind(m.value).Some?
                  && (if m.value == "application/pdf"
                      then meta.Ok? && Consistent(ParsePdfDate(meta.value.0), ParsePdfDate(meta.value.1), now)
                      else exif.Ok? && exif.value != []
                           && Consistent(LastDate(exif.value, CreatedTags), LastDate(exif.value, ModifiedTags), now)))
  {
    if guesses.Ok? {
      var kind := FileType(FirstConfident(guesses.value));
      if kind.Ok? {
        assert kind.value in {"PDF", "Image"};
      }
    }
  }
}
