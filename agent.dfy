/** The verification agent: one lookup on the ministry's bachillerato
    verification page, from launching the browser to the result record. Every
    browser call is replaced by its outcome (a `BrowserRun`), the clock by the
    parameters `now` (milliseconds since the epoch) and `isoNow` (the same
    instant as an ISO-8601 string). */
module Agent {
  import opened Wrappers
  import opened Text
  import opened Json
  import opened Classification
  import opened Dom

  /** The document-number field of the remote form. */
  const DocumentField: string := "#form_buscar_documento_estudiante"
  /** The birth-date field of the remote form. */
  const DateField: string := "#form_buscar_fecha_nacimiento"

  /** The error thrown when no result panel appears. */
  const NoResultError: string :=
    "Nenhum resultado apareceu após preencher os campos. Verifique os dados informados."
  /** Every error leaving the agent carries this prefix before the cause. */
  const FailurePrefix: string := "Falha na automação: "

  /** The outcome of a foreign browser call: it completes, or it throws an
      error with the given message. */
  datatype Step = Done | Threw(message: string)

  /** The outcomes of the browser calls of one lookup, in the order the agent
      makes them:
        launch        starting the browser;
        open          opening the page, setting it up, loading the form and
                      waiting for the document field;
        fillDocument  selecting the document field's text and typing the number;
        submit        with a date: waiting for, filling and confirming the
                      date field; without one: clicking the document field and
                      pressing Enter;
        the three watches of the result race, each true when its selector
        (success panel, danger panel, any panel) became visible within the
        15 s every watch is given, false when it timed out;
        read          reading the result: the settle delay, the panel queries
                      and the reading of the chosen panel's or the body's text;
        render        printing the sanitised page to PDF. */
  datatype BrowserRun = BrowserRun(
    launch: Step,
    open: Step,
    fillDocument: Step,
    submit: Step,
    successWatch: bool,
    dangerWatch: bool,
    panelWatch: bool,
    read: Step,
    render: Step)

  /** The `browser` variable of one lookup. */
  datatype BrowserState = NotLaunched | Open | Closed

  /** The record a successful lookup returns. */
  datatype Resultado = Resultado(
    status: Status,
    mensagem: string,
    bachillerato: string,
    pdfUrl: Option<string>,
    timestamp: string)

  /** The record as the back end serialises it. */
  function ToJson(r: Resultado): JObject
  {
    map[
      "status" := JStr(StatusText(r.status)),
      "mensagem" := JStr(r.mensagem),
      "bachillerato" := JStr(r.bachillerato),
      "pdfUrl" := (match r.pdfUrl case Some(u) => JStr(u) case None => JNull),
      "timestamp" := JStr(r.timestamp)]
  }

  /** Reads a status back from its text. */
  function StatusFromText(t: string): Option<Status>
  {
    if t == "VALIDADO" then Some(Validado)
    else if t == "NAO_VALIDADO" then Some(NaoValidado)
    else None
  }

  /** Reads a result record back from a JSON object: None unless every field
      is there with the right kind of value. */
  function FromJson(o: JObject): Option<Resultado>
  {
    var status := StringField(o, "status");
    var mensagem := StringField(o, "mensagem");
    var bachillerato := StringField(o, "bachillerato");
    var timestamp := StringField(o, "timestamp");
    if status.None? || mensagem.None? || bachillerato.None? || timestamp.None? || "pdfUrl" !in o then None
    else if StatusFromText(status.value).None? then None
    else Some(Resultado(StatusFromText(status.value).value, mensagem.value, bachillerato.value,
                        StringField(o, "pdfUrl"), timestamp.value))
  }

  /** Serialising a record loses nothing: it reads back as the same record. */
  lemma FromJsonToJson(r: Resultado)
    ensures FromJson(ToJson(r)) == Some(r)
  {
    assert StatusFromText(StatusText(r.status)) == Some(r.status);
  }

  // ---------------------------------------------------------------------------
  // Specification of one lookup
  // ---------------------------------------------------------------------------

  /** A birth date is used only when it is present and not blank. */
  predicate DateGiven(fechaNacimiento: Option<string>)
  {
    fechaNacimiento.Some? && Trim(fechaNacimiento.value) != ""
  }

  /** How the form is submitted: the date, typed as given, confirmed with
      Enter in the date field; or Enter in the document field. */
  function SubmitActions(fechaNacimiento: Option<string>): seq<Interaction>
  {
    if DateGiven(fechaNacimiento) then
      [Click(DateField, 3), Type(DateField, fechaNacimiento.value), Press("Enter")]
    else
      [Click(DocumentField, 1), Press("Enter")]
  }

  /** The actions a lookup performs on the page before the result race. */
  function FormActions(bachillerato: string, fechaNacimiento: Option<string>, run: BrowserRun): seq<Interaction>
  {
    if run.launch.Threw? || run.open.Threw? || run.fillDocument.Threw? then []
    else
      [Click(DocumentField, 3), Type(DocumentField, bachillerato)]
      + (if run.submit.Threw? then [] else SubmitActions(fechaNacimiento))
  }

  /** Every browser call before the race completed. */
  predicate FormSubmitted(run: BrowserRun)
  {
    run.launch.Done? && run.open.Done? && run.fillDocument.Done? && run.submit.Done?
  }

  /** `Promise.race` over the three watches settles successfully. All three
      have the same timeout, so the first to settle is a success exactly when
      some watch saw its selector. */
  predicate RaceSettles(run: BrowserRun)
  {
    run.successWatch || run.dangerWatch || run.panelWatch
  }

  /** The lookup gets as far as sanitising the page for printing. */
  predicate Prints(remote: RemotePage, run: BrowserRun)
  {
    FormSubmitted(run) && RaceSettles(run) && run.read.Done? && Classify(ExtractedText(remote)) == Validado
  }

  /** The name of the PDF file of a validated lookup. */
  function PdfFilename(bachillerato: string, now: nat): string
  {
    "bachillerato_" + bachillerato + "_" + Decimal(now) + ".pdf"
  }

  /** The public path of that file. */
  function PdfUrl(bachillerato: string, now: nat): string
  {
    "/prints/" + PdfFilename(bachillerato, now)
  }

  /** The message of the first call that threw between opening the page and
      submitting the form. */
  function SubmitError(run: BrowserRun): Option<string>
  {
    if run.open.Threw? then Some(run.open.message)
    else if run.fillDocument.Threw? then Some(run.fillDocument.message)
    else if run.submit.Threw? then Some(run.submit.message)
    else None
  }

  /** What the lookup yields once a result panel appeared: the classified
      record, printed to PDF when validated, or the printing error. */
  function Outcome(remote: RemotePage, bachillerato: string, run: BrowserRun, now: nat, isoNow: string): Result<Resultado>
  {
    var text := ExtractedText(remote);
    var status := Classify(text);
    if status == Validado && run.render.Threw? then Failure(run.render.message)
    else
      var pdfUrl := if status == Validado then Some(PdfUrl(bachillerato, now)) else None;
      Success(Resultado(status, Trim(text), bachillerato, pdfUrl, isoNow))
  }

  /** What the body of the agent's `try` block yields once the browser is
      running: the result record, or the message of the error it throws. */
  function Attempt(remote: RemotePage, bachillerato: string, run: BrowserRun, now: nat, isoNow: string): Result<Resultado>
  {
    if SubmitError(run).Some? then Failure(SubmitError(run).value)
    else if !RaceSettles(run) then Failure(NoResultError)
    else if run.read.Threw? then Failure(run.read.message)
    else Outcome(remote, bachillerato, run, now, isoNow)
  }

  /** One lookup: a failure to launch, and every error of the attempt, comes
      out as a single error whose message is the prefix and the cause. */
  function Consult(remote: RemotePage, bachillerato: string, run: BrowserRun, now: nat, isoNow: string): Result<Resultado>
  {
    if run.launch.Threw? then Failure(FailurePrefix + run.launch.message)
    else
      match Attempt(remote, bachillerato, run, now, isoNow)
      case Success(r) => Success(r)
      case Failure(m) => Failure(FailurePrefix + m)
  }

  // ---------------------------------------------------------------------------
  // The agent
  // ---------------------------------------------------------------------------

  /** Fills in the document number and submits the form, with the birth date
      when one was given. Returns the message of the call that threw. */
  method FillAndSubmit(page: Page, bachillerato: string, fechaNacimiento: Option<string>, run: BrowserRun)
    returns (error: Option<string>)
    requires run.launch.Done?
    modifies page`interactions
    ensures error == SubmitError(run)
    ensures page.interactions == old(page.interactions) + FormActions(bachillerato, fechaNacimiento, run)
  {
    if run.open.Threw? {
      return Some(run.open.message);
    }
    if run.fillDocument.Threw? {
      return Some(run.fillDocument.message);
    }
    page.Perform(Click(DocumentField, 3));
    page.Perform(Type(DocumentField, bachillerato));
    if run.submit.Threw? {
      return Some(run.submit.message);
    }
    Submit(page, fechaNacimiento);
    error := None;
  }

  /** Submits the form: with the birth date typed into its field when one
      was given, otherwise from the document field. */
  method Submit(page: Page, fechaNacimiento: Option<string>)
    modifies page`interactions
    ensures page.interactions == old(page.interactions) + SubmitActions(fechaNacimiento)
  {
    if DateGiven(fechaNacimiento) {
      page.Perform(Click(DateField, 3));
      page.Perform(Type(DateField, fechaNacimiento.value));
      page.Perform(Press("Enter"));
    } else {
      page.Perform(Click(DocumentField, 1));
      page.Perform(Press("Enter"));
    }
  }

  /** Reads the result once a panel appeared: extracts and classifies the
      text and, for a validated one, sanitises and prints the page. When
      reading the page throws, the page is left as it was. */
  method ReadResult(page: Page, bachillerato: string, run: BrowserRun, now: nat, isoNow: string)
    returns (outcome: Result<Resultado>)
    modifies page`elements, page`printLayout, page`artifacts
    ensures outcome == if run.read.Threw? then Failure(run.read.message)
                       else Outcome(page.remote, bachillerato, run, now, isoNow)
    ensures var validated := run.read.Done? && Classify(ExtractedText(page.remote)) == Validado;
            && page.elements == (if validated then Sanitized(old(page.elements)) else old(page.elements))
            && page.printLayout == (old(page.printLayout) || validated)
            && page.artifacts == old(page.artifacts)
                 + (if validated && run.render.Done? then [PdfFilename(bachillerato, now)] else [])
  {
    if run.read.Threw? {
      return Failure(run.read.message);
    }
    var resultadoTexto := page.ExtractResultText();
    var isValidado := SomeKeyword(Upper(resultadoTexto), Keywords);
    var status := if isValidado then Validado else NaoValidado;
    var pdfUrl: Option<string> := None;
    if isValidado {
      var filename := PdfFilename(bachillerato, now);
      page.Sanitize();
      if run.render.Threw? {
        return Failure(run.render.message);
      }
      page.RenderPdf(filename);
      pdfUrl := Some("/prints/" + filename);
    }
    outcome := Success(Resultado(status, Trim(resultadoTexto), bachillerato, pdfUrl, isoNow));
  }

  /** The body of the `try` block after the browser is launched: fills and
      submits the form, waits for a result panel and reads the result. */
  method RunAttempt(page: Page, bachillerato: string, fechaNacimiento: Option<string>,
                    run: BrowserRun, now: nat, isoNow: string)
    returns (outcome: Result<Resultado>)
    requires run.launch.Done?
    modifies page
    ensures outcome == Attempt(page.remote, bachillerato, run, now, isoNow)
    ensures page.interactions == old(page.interactions) + FormActions(bachillerato, fechaNacimiento, run)
    ensures page.elements == if Prints(page.remote, run) then Sanitized(old(page.elements)) else old(page.elements)
    ensures page.printLayout == (old(page.printLayout) || Prints(page.remote, run))
    ensures page.artifacts == old(page.artifacts)
              + (if Prints(page.remote, run) && run.render.Done? then [PdfFilename(bachillerato, now)] else [])
  {
    var error := FillAndSubmit(page, bachillerato, fechaNacimiento, run);
    if error.Some? {
      return Failure(error.value);
    }
    var raceSettled := run.successWatch || run.dangerWatch || run.panelWatch;
    if !raceSettled {
      return Failure(NoResultError);
    }
    outcome := ReadResult(page, bachillerato, run, now, isoNow);
  }

  /** `consultarBachilleratoMEC`: launches the browser, runs the attempt,
      closes the browser on every path on which it was launched, and wraps any
      error with the failure prefix. */
  method ConsultarBachilleratoMEC(page: Page, bachillerato: string, fechaNacimiento: Option<string>,
                                  run: BrowserRun, now: nat, isoNow: string)
    returns (result: Result<Resultado>, browser: BrowserState)
    modifies page
    ensures result == Consult(page.remote, bachillerato, run, now, isoNow)
    ensures browser == if run.launch.Done? then Closed else NotLaunched
    ensures page.interactions == old(page.interactions) + FormActions(bachillerato, fechaNacimiento, run)
    ensures page.elements == if Prints(page.remote, run) then Sanitized(old(page.elements)) else old(page.elements)
    ensures page.printLayout == (old(page.printLayout) || Prints(page.remote, run))
    ensures page.artifacts == old(page.artifacts)
              + (if result.Success? && result.value.pdfUrl.Some? then [PdfFilename(bachillerato, now)] else [])
  {
    browser := NotLaunched;
    if run.launch.Threw? {
      result := Failure(FailurePrefix + run.launch.message);
      return;
    }
    browser := Open;
    var outcome := RunAttempt(page, bachillerato, fechaNacimiento, run, now, isoNow);
    browser := Closed;
    match outcome {
      case Success(r) =>
        result := Success(r);
      case Failure(m) =>
        result := Failure(FailurePrefix + m);
    }
  }

  // ---------------------------------------------------------------------------
  // Properties of a lookup
  // ---------------------------------------------------------------------------

  /** The result record: the input number unchanged, the trimmed extracted
      text, a status that is the classification of that message, and a PDF
      URL present exactly when the status is VALIDADO, naming the file built
      from the number and the clock. */
  lemma ResultRecord(remote: RemotePage, bachillerato: string, run: BrowserRun, now: nat, isoNow: string)
    requires Consult(remote, bachillerato, run, now, isoNow).Success?
    ensures var r := Consult(remote, bachillerato, run, now, isoNow).value;
            && r.bachillerato == bachillerato
            && r.mensagem == Trim(ExtractedText(remote))
            && r.status == Classify(r.mensagem)
            && r.timestamp == isoNow
            && (r.pdfUrl.Some? <==> r.status == Validado)
            && (r.pdfUrl.Some? ==> r.pdfUrl.value == PdfUrl(bachillerato, now))
  {
    var text := ExtractedText(remote);
    assert Consult(remote, bachillerato, run, now, isoNow) == Outcome(remote, bachillerato, run, now, isoNow);
    ClassifyIgnoresTrim(text);
  }

  /** A lookup succeeds exactly when every browser call before the race
      completed, the race settled, the result was read, and, for a validated
      text, the PDF was printed: a validated result without its PDF is never
      returned. */
  lemma SucceedsIff(remote: RemotePage, bachillerato: string,
                    run: BrowserRun, now: nat, isoNow: string)
    ensures Consult(remote, bachillerato, run, now, isoNow).Success?
            <==> FormSubmitted(run) && RaceSettles(run) && run.read.Done?
                 && (Classify(ExtractedText(remote)) == Validado ==> run.render.Done?)
  {
  }


  /** The message of the first step of `steps` that threw, if any. */
  function FirstThrown(steps: seq<Step>): (r: Option<string>)
    ensures r.None? <==> forall i :: 0 <= i < |steps| ==> steps[i].Done?
    ensures r.Some? ==> exists i :: 0 <= i < |steps| && steps[i] == Threw(r.value)
                                    && forall j :: 0 <= j < i ==> steps[j].Done?
  {
    if steps == [] then None
    else if steps[0].Threw? then Some(steps[0].message)
    else
      var rest := FirstThrown(steps[1..]);
      assert forall i :: 1 <= i < |steps| ==> steps[i] == steps[1..][i - 1];
      if rest.Some? then
        var i :| 0 <= i < |steps[1..]| && steps[1..][i] == Threw(rest.value)
                 && forall j :: 0 <= j < i ==> steps[1..][j].Done?;
        assert steps[i + 1] == Threw(rest.value);
        rest
      else rest
  }

  /** When the steps before `k` completed and step `k` threw, its message is
      the first one thrown. */
  lemma FirstThrownAt(steps: seq<Step>, k: nat)
    requires k < |steps| && steps[k].Threw?
    requires forall j :: 0 <= j < k ==> steps[j].Done?
    ensures FirstThrown(steps) == Some(steps[k].message)
  {
    var r := FirstThrown(steps);
    var i :| 0 <= i < |steps| && steps[i] == Threw(r.value) && forall j :: 0 <= j < i ==> steps[j].Done?;
    assert i == k;
  }

  /** The cause a lookup fails with, read off the run in the order the agent
      meets its steps: the browser calls up to the submission, the race,
      reading the result, and the printing of a validated page. */
  function FailureCause(remote: RemotePage, run: BrowserRun): Option<string>
  {
    var early := FirstThrown([run.launch, run.open, run.fillDocument, run.submit]);
    if early.Some? then early
    else if !RaceSettles(run) then Some(NoResultError)
    else if run.read.Threw? then Some(run.read.message)
    else if Classify(ExtractedText(remote)) == Validado then FirstThrown([run.render])
    else None
  }

  /** A lookup fails exactly when the run has a cause, and then the error is
      that cause behind the failure prefix. */
  lemma FailureIsWrappedCause(remote: RemotePage, bachillerato: string,
                              run: BrowserRun, now: nat, isoNow: string)
    ensures var c := Consult(remote, bachillerato, run, now, isoNow);
            && (c.Failure? <==> FailureCause(remote, run).Some?)
            && (c.Failure? ==> c.error == FailurePrefix + FailureCause(remote, run).value)
  {
    EarlyCause(run);
    if run.render.Threw? {
      assert FirstThrown([run.render]) == Some(run.render.message);
    } else {
      assert FirstThrown([run.render]).None?;
    }
  }

  /** The first of the browser calls up to the submission that threw: the
      launch, or else the call `SubmitError` names. */
  lemma EarlyCause(run: BrowserRun)
    ensures FirstThrown([run.launch, run.open, run.fillDocument, run.submit])
            == if run.launch.Threw? then Some(run.launch.message) else SubmitError(run)
  {
    var early := [run.launch, run.open, run.fillDocument, run.submit];
    if run.launch.Threw? {
      assert FirstThrown(early) == Some(run.launch.message);
    } else if run.open.Threw? {
      assert FirstThrown(early) == Some(run.open.message);
    } else if run.fillDocument.Threw? {
      FirstThrownAt(early, 2);
    } else if run.submit.Threw? {
      FirstThrownAt(early, 3);
    } else {
      assert forall i :: 0 <= i < |early| ==> early[i].Done?;
    }
  }

  /** Every error message of a lookup starts with the failure prefix. */
  lemma FailureHasPrefix(remote: RemotePage, bachillerato: string,
                         run: BrowserRun, now: nat, isoNow: string)
    requires Consult(remote, bachillerato, run, now, isoNow).Failure?
    ensures var e := Consult(remote, bachillerato, run, now, isoNow).error;
            |FailurePrefix| <= |e| && e[..|FailurePrefix|] == FailurePrefix
  {
    FailureIsWrappedCause(remote, bachillerato, run, now, isoNow);
  }

  /** When the form was submitted but no watch saw a panel, the lookup fails
      with the no-result error, whatever the page would have shown. */
  lemma RaceFailure(remote: RemotePage, bachillerato: string,
                    run: BrowserRun, now: nat, isoNow: string)
    requires FormSubmitted(run) && !run.successWatch && !run.dangerWatch && !run.panelWatch
    ensures Consult(remote, bachillerato, run, now, isoNow)
            == Failure(FailurePrefix + NoResultError)
  {
  }

  /** When a panel appeared but reading the page threw (a destroyed execution
      context, say), the lookup fails with that error behind the prefix, and
      nothing is printed. */
  lemma ReadFailure(remote: RemotePage, bachillerato: string,
                    run: BrowserRun, now: nat, isoNow: string)
    requires FormSubmitted(run) && RaceSettles(run) && run.read.Threw?
    ensures Consult(remote, bachillerato, run, now, isoNow) == Failure(FailurePrefix + run.read.message)
    ensures !Prints(remote, run)
  {
  }

  /** The date field is typed into, with the date as given, exactly when a
      non-blank date was given; otherwise the document field gets the single
      submitting click. Either way the form is submitted with Enter. */
  lemma DateBranch(bachillerato: string, fechaNacimiento: Option<string>, run: BrowserRun, x: string)
    requires FormSubmitted(run)
    ensures var acts := FormActions(bachillerato, fechaNacimiento, run);
            && (Type(DateField, x) in acts <==> DateGiven(fechaNacimiento) && x == fechaNacimiento.value)
            && (Click(DocumentField, 1) in acts <==> !DateGiven(fechaNacimiento))
            && acts[|acts| - 1] == Press("Enter")
            && acts[..2] == [Click(DocumentField, 3), Type(DocumentField, bachillerato)]
  {
    var acts := FormActions(bachillerato, fechaNacimiento, run);
    if DateGiven(fechaNacimiento) {
      assert acts == [Click(DocumentField, 3), Type(DocumentField, bachillerato),
                      Click(DateField, 3), Type(DateField, fechaNacimiento.value), Press("Enter")];
    } else {
      assert acts == [Click(DocumentField, 3), Type(DocumentField, bachillerato),
                      Click(DocumentField, 1), Press("Enter")];
    }
  }

  /** In `b + "_" + d` the underscore at `|b|` is the last one when `d` is
      a numeral. */
  lemma CharOfJoin(b: string, d: string, k: int)
    requires AllDigits(d) && 0 <= k < |b| + 1 + |d|
    ensures k == |b| ==> (b + "_" + d)[k] == '_'
    ensures k > |b| ==> (b + "_" + d)[k] != '_'
  {
    if k > |b| {
      assert (b + "_" + d)[k] == d[k - |b| - 1];
    }
  }

  /** Splitting `b + "_" + d` at its last underscore when `d` is a numeral. */
  lemma SplitAtLastUnderscore(b1: string, d1: string, b2: string, d2: string)
    requires AllDigits(d1) && AllDigits(d2)
    requires b1 + "_" + d1 == b2 + "_" + d2
    ensures b1 == b2 && d1 == d2
  {
    var s := b1 + "_" + d1;
    if |d1| < |d2| {
      CharOfJoin(b1, d1, |b1|);
      CharOfJoin(b2, d2, |b1|);
      assert false;
    } else if |d2| < |d1| {
      CharOfJoin(b2, d2, |b2|);
      CharOfJoin(b1, d1, |b2|);
      assert false;
    }
    assert b1 == s[..|b1|] == b2;
    assert d1 == s[|b1| + 1..] == d2;
  }

  /** Distinct lookups name distinct files: the file name determines both the
      document number and the clock reading it was built from. */
  lemma PdfFilenameInjective(b1: string, n1: nat, b2: string, n2: nat)
    requires PdfFilename(b1, n1) == PdfFilename(b2, n2)
    ensures b1 == b2 && n1 == n2
  {
    var prefix := "bachillerato_";
    var f := PdfFilename(b1, n1);
    assert f == prefix + (b1 + "_" + Decimal(n1)) + ".pdf";
    assert f == prefix + (b2 + "_" + Decimal(n2)) + ".pdf";
    var core1 := b1 + "_" + Decimal(n1);
    var core2 := b2 + "_" + Decimal(n2);
    assert |core1| == |core2|;
    assert core1 == f[|prefix|..|prefix| + |core1|] == core2;
    SplitAtLastUnderscore(b1, Decimal(n1), b2, Decimal(n2));
    DecimalInjective(n1, n2);
  }

  /** Looking the same document up twice against the same page gives the same
      status and message; when validated, the two PDF URLs differ as soon as
      the clock moved. */
  lemma RepeatedLookup(remote: RemotePage, bachillerato: string,
                       run: BrowserRun, now1: nat, now2: nat, iso1: string, iso2: string)
    requires now1 != now2
    requires Consult(remote, bachillerato, run, now1, iso1).Success?
    ensures var r1 := Consult(remote, bachillerato, run, now1, iso1).value;
            var r2 := Consult(remote, bachillerato, run, now2, iso2);
            && r2.Success?
            && r2.value.status == r1.status && r2.value.mensagem == r1.mensagem
            && (r1.status == Validado ==> r1.pdfUrl.Some? && r2.value.pdfUrl.Some? && r1.pdfUrl != r2.value.pdfUrl)
  {
    var r1 := Consult(remote, bachillerato, run, now1, iso1).value;
    if r1.status == Validado {
      if PdfUrl(bachillerato, now1) == PdfUrl(bachillerato, now2) {
        assert PdfFilename(bachillerato, now1) == PdfUrl(bachillerato, now1)[|"/prints/"|..];
        assert PdfFilename(bachillerato, now2) == PdfUrl(bachillerato, now2)[|"/prints/"|..];
        PdfFilenameInjective(bachillerato, now1, bachillerato, now2);
      }
    }
  }

  /** The run in which every browser call completes and the given watches
      see their panels. */
  function CleanRun(successWatch: bool, dangerWatch: bool, panelWatch: bool): BrowserRun
  {
    BrowserRun(Done, Done, Done, Done, successWatch, dangerWatch, panelWatch, Done, Done)
  }

  /** The success panel of the validated scenario: the second keyword
      between two spaces. */
  lemma GraduatePanelParts()
    ensures " Datos del Egresado " == " " + Keywords[1] + " "
  {
  }

  /** The success panel of the validated scenario shows the second keyword,
      so it is validated, and trims to the keyword. */
  lemma GraduatePanelText()
    ensures Classify(" Datos del Egresado ") == Validado
    ensures Trim(" Datos del Egresado ") == "Datos del Egresado"
  {
    var k := Keywords[1];
    GraduatePanelParts();
    ContainsMiddle(" ", k, " ");
    KeywordValidates(" " + k + " ", k);
    TrimPadded(k);
  }

  /** A success panel naming the graduate's data yields VALIDADO, the
      trimmed panel text and the URL of the printed page. */
  lemma ValidatedScenario(now: nat, isoNow: string)
    ensures var remote := RemotePage(Some(" Datos del Egresado "), None, Some("panel"), "body");
            Consult(remote, "1234567", CleanRun(true, false, true), now, isoNow)
            == Success(Resultado(Validado, "Datos del Egresado", "1234567",
                                 Some(PdfUrl("1234567", now)), isoNow))
  {
    var remote := RemotePage(Some(" Datos del Egresado "), None, Some("panel"), "body");
    SuccessPanelWins(remote);
    GraduatePanelText();
  }

  /** The danger panel of the not-found scenario: it has no `g` in either
      case, so it is not validated, and it is already trimmed. */
  lemma NotFoundPanelText()
    ensures Classify("No se encontraron resultados") == NaoValidado
    ensures Trim("No se encontraron resultados") == "No se encontraron resultados"
  {
    NotFoundPanelHasNoG();
    WithoutGNotValidado("No se encontraron resultados");
    TrimOfTrimmed("No se encontraron resultados");
  }

  /** The danger panel of the not-found scenario has no `g` in either case. */
  lemma NotFoundPanelHasNoG()
    ensures 'g' !in "No se encontraron resultados" && 'G' !in "No se encontraron resultados"
  {
  }

  /** A danger panel saying nothing was found yields NAO_VALIDADO and no PDF. */
  lemma NotFoundScenario(now: nat, isoNow: string)
    ensures var remote := RemotePage(None, Some("No se encontraron resultados"), None, "body");
            Consult(remote, "0000000", CleanRun(false, true, false), now, isoNow)
            == Success(Resultado(NaoValidado, "No se encontraron resultados", "0000000", None, isoNow))
  {
    var remote := RemotePage(None, Some("No se encontraron resultados"), None, "body");
    DangerPanelBeforeGeneric(remote);
    NotFoundPanelText();
  }

  /** A page that never shows a panel ends in the wrapped no-result error. */
  lemma NoPanelScenario(now: nat, isoNow: string)
    ensures var remote := RemotePage(None, None, None, "Verificar bachilleratos");
            Consult(remote, "1234567", CleanRun(false, false, false), now, isoNow)
            == Failure(FailurePrefix + NoResultError)
  {
  }
}
