/** The PDF date checks of `validation.py`: the same date tests as
    `validators.py` with their own messages, dates read from the document
    information dictionary, and a date parser that lets an invalid calendar
    value raise instead of returning `None`. */
module Validation {
  import opened Wrappers
  import opened Text
  import opened Calendar
  import V = Validators

  /** The messages of `validation.py`. */
  function Message(p: V.DateProblem): string
  {
    match p
    case NoDates => "Il file non possiede metadati."
    case CreatedInFuture => "La data_creazione del file \U{E8} nel futuro."
    case ModifiedInFuture => "La data_modifica del file \U{E8} nel futuro."
    case ModifiedFirst => "La data_modifica del file \U{E8} prima della data_creazione."
  }

  /** `date_check`: the tests of `validators.py` in the same order. */
  function DateCheck(created: Option<DateTime>, modified: Option<DateTime>, now: DateTime): (r: V.Verdict)
    ensures r.Accepted? <==> V.Consistent(created, modified, now)
    ensures !r.Raised?
    ensures r.Rejected? ==> r.message == Message(V.DateProblemOf(created, modified, now).value)
  {
    var p := V.DateProblemOf(created, modified, now);
    if p.None? then V.Accepted else V.Rejected(Message(p.value))
  }

  /** Both modules' checks agree on which dates pass and, message aside, on
      why the others fail. */
  lemma DateChecksAgree(created: Option<DateTime>, modified: Option<DateTime>, fileKind: string, now: DateTime)
    ensures DateCheck(created, modified, now).Accepted? == V.DateCheck(created, modified, fileKind, now).Accepted?
    ensures V.DateCheck(created, modified, fileKind, now).Rejected? ==>
              V.DateCheck(created, modified, fileKind, now).message
              == fileKind + V.Message(V.DateProblemOf(created, modified, now).value)
              && DateCheck(created, modified, now).message == Message(V.DateProblemOf(created, modified, now).value)
  {
  }

  /** `parse_pdf_date` on the `str()` of the value: `None` for a missing or
      empty value and for one without the "D:" prefix and fourteen digits;
      digits that are no valid calendar value raise `ValueError`. */
  function ParsePdfDate(s: Option<string>): (r: Result<Option<DateTime>>)
    ensures (s.None? || s.value == "") ==> r == Ok(None)
    ensures r.Err? ==> r.error == "ValueError"
    ensures r.Ok? && r.value.Some? ==> Valid(r.value.value)
  {
    if s.None? || s.value == "" then Ok(None)
    else if !V.PdfPrefix(s.value) then Ok(None)
    else
      var dt := V.PdfFields(s.value);
      if Valid(dt) then Ok(Some(dt)) else Err("ValueError")
  }

  /** The two parsers agree wherever this one returns, and this one raises
      exactly where the other swallows an invalid calendar value. */
  lemma ParsersAgree(s: Option<string>)
    ensures ParsePdfDate(s).Ok? ==> ParsePdfDate(s).value == V.ParsePdfDate(s)
    ensures ParsePdfDate(s).Err? <==> s.Some? && V.PdfPrefix(s.value) && V.ParsePdfDate(s).None?
  {
  }

  /** `pdf_validation` given the `/CreationDate` and `/ModDate` entries, or
      the reader's error. A `ValueError` from the parser is not caught. */
  function PdfValidation(info: Result<(Option<string>, Option<string>)>, now: DateTime): (r: V.Verdict)
    ensures info.Err? ==> r == V.Rejected("Errore nella validazione della data del file: " + info.error)
    ensures r.Raised? <==> info.Ok? && (ParsePdfDate(info.value.0).Err? || ParsePdfDate(info.value.1).Err?)
    ensures r.Raised? ==> r.exception == "ValueError"
  {
    if info.Err? then V.Rejected("Errore nella validazione della data del file: " + info.error)
    else
      var c := ParsePdfDate(info.value.0);
      if c.Err? then V.Raised(c.error)
      else
        var m := ParsePdfDate(info.value.1);
        if m.Err? then V.Raised(m.error)
        else DateCheck(c.value, m.value, now)
  }

  /** A document whose dates both parse is judged as `validators.py` judges
      it; one with a date such as February 30th escapes with `ValueError`
      where `validators.py` would read no date. */
  lemma PdfValidationVersusValidators(info: (Option<string>, Option<string>), now: DateTime)
    ensures var r := PdfValidation(Ok(info), now);
            !r.Raised? ==> (r.Accepted? <==> V.PdfValidation(Ok(info), now).Accepted?)
  {
    ParsersAgree(info.0);
    ParsersAgree(info.1);
  }
}
