/** The upload checks of `file_validators.py`: the kind of a file from the
    single MIME type libmagic reports, dispatch on that type, and the date
    checks of PDFs and images. Its date parsers are those of
    `validators.py`, which this module reuses. Its date check `controllo_data`
    opens with `creato in None`, which raises `TypeError` whatever the
    dates: the model keeps that behaviour and, beside it, the check the
    authors evidently meant. */
module FileValidators {
  import opened Wrappers
  import opened Text
  import opened Calendar
  import V = Validators

  /** `get_file_type` given the MIME type: the kind of an allowed type,
      else a rejection. */
  function FileType(mime: string): (r: Result<string>)
    ensures r.Ok? <==> V.AllowedKind(mime).Some?
    ensures r.Ok? ==> r.value == V.FileType(Some(mime)).value
    ensures r.Err? ==> r.error == "Formato file non ammesso"
  {
    var k := V.AllowedKind(mime);
    if k.Some? then Ok(k.value) else Err("Formato file non ammesso")
  }

  /** What `creato in None` raises: a `TypeError` with this text. */
  const NotIterable := "TypeError"
  const NotIterableText := "argument of type 'NoneType' is not iterable"

  /** `controllo_data` as written: the membership test against `None` is
      evaluated before anything else and raises. */
  function ControlloData(creato: Option<DateTime>, modificato: Option<DateTime>, fileKind: string, now: DateTime): (r: V.Verdict)
    ensures r.Raised? && !r.Accepted?
  {
    V.Raised(NotIterable)
  }

  /** `controllo_data` with `creato is None`: the tests and messages of
      `validators.py`. */
  function ControlloDataIntended(creato: Option<DateTime>, modificato: Option<DateTime>, fileKind: string, now: DateTime): (r: V.Verdict)
    ensures r.Accepted? <==> V.Consistent(creato, modificato, now)
    ensures !r.Raised?
  {
    V.DateCheck(creato, modificato, fileKind, now)
  }

  /** `validazione_pdf`: the reader's error is a rejection; the date check
      then raises, and as only reader errors are caught the `TypeError`
      escapes. */
  function ValidazionePdf(meta: Result<(Option<string>, Option<string>)>, now: DateTime): (r: V.Verdict)
    ensures meta.Err? ==> r == V.Rejected("Errore durante la lettura del PDF: " + meta.error)
    ensures meta.Ok? ==> r == V.Raised(NotIterable)
  {
    if meta.Err? then V.Rejected("Errore durante la lettura del PDF: " + meta.error)
    else ControlloData(V.ParsePdfDate(meta.value.0), V.ParsePdfDate(meta.value.1), "PDF", now)
  }

  /** `validazione_image`: reader errors and a missing EXIF block are
      rejections; otherwise the dates are collected and the date check
      raises, which the catch-all clause turns into a rejection. */
  method ValidazioneImage(exif: Result<seq<V.ExifItem>>, now: DateTime) returns (r: V.Verdict)
    ensures exif.Err? ==> r == V.Rejected("Errore di lettura dell'Immagine:" + exif.error)
    ensures exif == Ok([]) ==> r == V.Rejected("Immagine priva di metadati EXIF.")
    ensures exif.Ok? && exif.value != [] ==> r == V.Rejected("Errore nei metadati EXIF: " + NotIterableText)
  {
    if exif.Err? {
      return V.Rejected("Errore di lettura dell'Immagine:" + exif.error);
    }
    if exif.value == [] {
      return V.Rejected("Immagine priva di metadati EXIF.");
    }
    var creato, modifica := V.ScanExif(exif.value);
    var c := ControlloData(creato, modifica, "Image", now);
    if c.Raised? {
      // the catch-all clause: `str(e)` of the TypeError
      r := V.Rejected("Errore nei metadati EXIF: " + NotIterableText);
    } else {
      r := c;
    }
  }

  /** `validation_process`: "application/pdf" goes to the PDF checks, any
      "image/" type to the image checks, anything else is rejected. */
  method ValidationProcess(mime: string, meta: Result<(Option<string>, Option<string>)>,
                           exif: Result<seq<V.ExifItem>>, now: DateTime) returns (r: V.Verdict)
    ensures mime == "application/pdf" ==> r == ValidazionePdf(meta, now)
    ensures mime != "application/pdf" && !IsPrefix("image/", mime) ==> r == V.Rejected("File non ammesso")
    ensures r != V.Accepted
  {
    if mime == "application/pdf" {
      r := ValidazionePdf(meta, now);
    } else if IsPrefix("image/", mime) {
      r := ValidazioneImage(exif, now);
    } else {
      r := V.Rejected("File non ammesso");
    }
  }

  /** The intended check accepts a readable PDF exactly when its dates are
      consistent, where the check as written accepts no file at all. */
  lemma IntendedPdfCheck(meta: (Option<string>, Option<string>), now: DateTime)
    ensures ValidazionePdf(Ok(meta), now).Raised?
    ensures ControlloDataIntended(V.ParsePdfDate(meta.0), V.ParsePdfDate(meta.1), "PDF", now)
            == V.PdfValidation(Ok(meta), now)
  {
  }

  /** Any readable PDF whose dates are in order, say created on
      "D:20240301120000" and modified on "D:20240302120000" and checked a
      month later, passes the intended check and makes the check as
      written raise. */
  lemma ConsistentPdfStillRaises(created: DateTime, modified: DateTime, now: DateTime)
    requires Valid(created) && Valid(modified)
    requires V.NotLater(created, modified) && V.NotLater(modified, now) && V.NotLater(created, now)
    ensures var meta := (Some("D:" + V.PdfDigits(created)), Some("D:" + V.PdfDigits(modified)));
            ValidazionePdf(Ok(meta), now) == V.Raised(NotIterable)
            && ControlloDataIntended(V.ParsePdfDate(meta.0), V.ParsePdfDate(meta.1), "PDF", now) == V.Accepted
  {
    V.PdfDateRoundTrip(created, "");
    V.PdfDateRoundTrip(modified, "");
    assert "D:" + V.PdfDigits(created) + "" == "D:" + V.PdfDigits(created);
    assert "D:" + V.PdfDigits(modified) + "" == "D:" + V.PdfDigits(modified);
  }
}
