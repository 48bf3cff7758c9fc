/**
 * The fill pass on the expense table itself: what it does to each of the template's
 * fields, read off the plan theorem one field at a time.
 */
module ExpenseFields {
  import opened Values
  import opened DateFormat
  import opened Pdf
  import opened Grist
  import opened ExpenseTable
  import opened ExpenseFill

  /** What one entry's plan leaves in field `f`: its write applied when it plans one, else the field as it was. */
  function PlannedField(form: Form, e: Entry, v: RawValue, f: string): Field
    requires f in form
  {
    var p := Plan(e, v);
    if f in p then Written(form[f], p[f]) else form[f]
  }

  /** On the expense table, each form field ends up as its own entry alone would leave it. */
  lemma TableFieldResult(doc: Document, record: Record, mappings: ColumnMap, fetch: ImageFetch, i: int, f: string)
    requires 0 <= i < |Table()| && Table()[i].key != PdfOutput
    requires f in Targets(Table()[i].formField) && f in doc.form
    ensures var after := FillEntries(doc, Table(), record, mappings, fetch).doc.form;
            f in after && after[f] == PlannedField(doc.form, Table()[i], ValueFor(record, mappings, Table()[i].name), f)
  {
    TableWellFormed();
    FieldResult(doc, Table(), record, mappings, fetch, i, f);
  }

  // What single expense-table entries plan for their own fields.

  lemma DepartureFields(form: Form, v: RawValue)
    requires "date départ étape 3" in form && "heure départ étape 4" in form
    requires form["date départ étape 3"].TextField? && form["heure départ étape 4"].TextField?
    requires v.DateV?
    ensures Table()[0].name == "date_heure_depart"
    ensures PlannedField(form, Table()[0], v, "date départ étape 3") == TextField(FormatDate(v.parts))
    ensures PlannedField(form, Table()[0], v, "heure départ étape 4") == TextField(FormatTime(v.parts))
  {
  }

  lemma NightsField(form: Form, v: RawValue)
    requires "nuité gratuite" in form
    ensures Table()[2].name == "nuitees"
    ensures !Truthy(v) ==> PlannedField(form, Table()[2], v, "nuité gratuite") == form["nuité gratuite"]
  {
  }

  lemma TicketField(form: Form, v: RawValue)
    requires "Billet pris par le missionné" in form && form["Billet pris par le missionné"].CheckBox?
    ensures Table()[4].name == "billet_missione"
    ensures PlannedField(form, Table()[4], v, "Billet pris par le missionné")
              == if v == Bool(true) then CheckBox(true) else form["Billet pris par le missionné"]
  {
  }

  lemma OtherBoxField(form: Form, v: RawValue)
    requires "Autres précisez" in form && form["Autres précisez"].CheckBox?
    ensures Table()[7].name == "autres_depenses"
    ensures PlannedField(form, Table()[7], v, "Autres précisez")
              == if v != Str("") then CheckBox(true) else form["Autres précisez"]
  {
  }

  lemma OtherDetailField(form: Form, v: RawValue)
    requires "précisez à 2" in form && form["précisez à 2"].TextField?
    ensures Table()[7].name == "autres_depenses"
    ensures PlannedField(form, Table()[7], v, "précisez à 2")
              == if v != Str("") then TextField(ToText(v)) else form["précisez à 2"]
  {
  }

  lemma SignatureDateField(form: Form, v: RawValue)
    requires "le 2" in form && form["le 2"].TextField?
    ensures Table()[9].name == "signature_date"
    ensures PlannedField(form, Table()[9], v, "le 2")
              == if v.DateV? then TextField(FormatDate(v.parts))
                 else if Truthy(v) then TextField(ToText(v))
                 else form["le 2"]
  {
  }

  lemma SignaturePlaceField(form: Form, v: RawValue)
    requires "Fait à 2" in form && form["Fait à 2"].TextField?
    ensures Table()[10].name == "signature_lieu"
    ensures PlannedField(form, Table()[10], v, "Fait à 2")
              == if Truthy(v) then TextField(ToText(v)) else form["Fait à 2"]
  {
  }

  /** A night count of 0 is falsy, so the plain-text branch never writes it. */
  lemma ZeroNightsNotWritten(doc: Document, record: Record, mappings: ColumnMap, fetch: ImageFetch)
    requires "nuité gratuite" in doc.form
    requires ValueFor(record, mappings, "nuitees") == Num(0)
    ensures var after := FillEntries(doc, Table(), record, mappings, fetch).doc.form;
            "nuité gratuite" in after && after["nuité gratuite"] == doc.form["nuité gratuite"]
  {
    NightsField(doc.form, ValueFor(record, mappings, "nuitees"));
    TableFieldResult(doc, record, mappings, fetch, 2, "nuité gratuite");
  }

  /** "Other expenses" ticks `Autre` for any value other than "", and only then. */
  lemma OtherExpensesBox(doc: Document, record: Record, mappings: ColumnMap, fetch: ImageFetch)
    requires "Autres précisez" in doc.form && doc.form["Autres précisez"].CheckBox?
    ensures var v := ValueFor(record, mappings, "autres_depenses");
            var after := FillEntries(doc, Table(), record, mappings, fetch).doc.form;
            && "Autres précisez" in after
            && after["Autres précisez"] == (if v != Str("") then CheckBox(true) else doc.form["Autres précisez"])
  {
    OtherBoxField(doc.form, ValueFor(record, mappings, "autres_depenses"));
    TableFieldResult(doc, record, mappings, fetch, 7, "Autres précisez");
  }

  /** "Other expenses" writes `String(value)` into `Precision` for any value other than "", and only then. */
  lemma OtherExpensesDetail(doc: Document, record: Record, mappings: ColumnMap, fetch: ImageFetch)
    requires "précisez à 2" in doc.form && doc.form["précisez à 2"].TextField?
    ensures var v := ValueFor(record, mappings, "autres_depenses");
            var after := FillEntries(doc, Table(), record, mappings, fetch).doc.form;
            && "précisez à 2" in after
            && after["précisez à 2"] == (if v != Str("") then TextField(ToText(v)) else doc.form["précisez à 2"])
  {
    OtherDetailField(doc.form, ValueFor(record, mappings, "autres_depenses"));
    TableFieldResult(doc, record, mappings, fetch, 7, "précisez à 2");
  }

  /** A null "other expenses" value, not being "", ticks `Autre` and writes "null" into `Precision`. */
  lemma NullOtherExpensesWritten(doc: Document, record: Record, mappings: ColumnMap, fetch: ImageFetch)
    requires "Autres précisez" in doc.form && "précisez à 2" in doc.form
    requires doc.form["Autres précisez"].CheckBox? && doc.form["précisez à 2"].TextField?
    requires ValueFor(record, mappings, "autres_depenses") == Null
    ensures var after := FillEntries(doc, Table(), record, mappings, fetch).doc.form;
            && "Autres précisez" in after && after["Autres précisez"] == CheckBox(true)
            && "précisez à 2" in after && after["précisez à 2"] == TextField("null")
  {
    OtherExpensesBox(doc, record, mappings, fetch);
    OtherExpensesDetail(doc, record, mappings, fetch);
  }

  /** A ticket check box is ticked exactly when the value is `true`, and is never cleared. */
  lemma TicketBoxOnlyForTrue(doc: Document, record: Record, mappings: ColumnMap, fetch: ImageFetch)
    requires "Billet pris par le missionné" in doc.form && doc.form["Billet pris par le missionné"].CheckBox?
    ensures var after := FillEntries(doc, Table(), record, mappings, fetch).doc.form;
            && "Billet pris par le missionné" in after
            && after["Billet pris par le missionné"].CheckBox?
            && (after["Billet pris par le missionné"].checked <==>
                  doc.form["Billet pris par le missionné"].checked
                  || ValueFor(record, mappings, "billet_missione") == Bool(true))
  {
    TicketField(doc.form, ValueFor(record, mappings, "billet_missione"));
    TableFieldResult(doc, record, mappings, fetch, 4, "Billet pris par le missionné");
  }

  /** A departure Date writes DD/MM/YYYY into the date field and HH:mm into the time field. */
  lemma DepartureDateAndTime(doc: Document, record: Record, mappings: ColumnMap, fetch: ImageFetch)
    requires "date départ étape 3" in doc.form && "heure départ étape 4" in doc.form
    requires doc.form["date départ étape 3"].TextField? && doc.form["heure départ étape 4"].TextField?
    requires ValueFor(record, mappings, "date_heure_depart").DateV?
    ensures var d := ValueFor(record, mappings, "date_heure_depart").parts;
            var after := FillEntries(doc, Table(), record, mappings, fetch).doc.form;
            && "date départ étape 3" in after && after["date départ étape 3"] == TextField(FormatDate(d))
            && "heure départ étape 4" in after && after["heure départ étape 4"] == TextField(FormatTime(d))
  {
    DepartureFields(doc.form, ValueFor(record, mappings, "date_heure_depart"));
    TableFieldResult(doc, record, mappings, fetch, 0, "date départ étape 3");
    TableFieldResult(doc, record, mappings, fetch, 0, "heure départ étape 4");
  }

  /**
   * The signature date: a Date writes DD/MM/YYYY; any other truthy value falls through
   * to the plain-text branch and writes its string form; a falsy value writes nothing.
   */
  lemma SignatureDateWritten(doc: Document, record: Record, mappings: ColumnMap, fetch: ImageFetch)
    requires "le 2" in doc.form && doc.form["le 2"].TextField?
    ensures var v := ValueFor(record, mappings, "signature_date");
            var after := FillEntries(doc, Table(), record, mappings, fetch).doc.form;
            && "le 2" in after
            && after["le 2"] == (if v.DateV? then TextField(FormatDate(v.parts))
                                 else if Truthy(v) then TextField(ToText(v))
                                 else doc.form["le 2"])
  {
    SignatureDateField(doc.form, ValueFor(record, mappings, "signature_date"));
    TableFieldResult(doc, record, mappings, fetch, 9, "le 2");
  }

  /** The place of signature is written as text exactly when its value is truthy. */
  lemma SignaturePlaceWritten(doc: Document, record: Record, mappings: ColumnMap, fetch: ImageFetch)
    requires "Fait à 2" in doc.form && doc.form["Fait à 2"].TextField?
    ensures var v := ValueFor(record, mappings, "signature_lieu");
            var after := FillEntries(doc, Table(), record, mappings, fetch).doc.form;
            && "Fait à 2" in after
            && after["Fait à 2"] == (if Truthy(v) then TextField(ToText(v)) else doc.form["Fait à 2"])
  {
    SignaturePlaceField(doc.form, ValueFor(record, mappings, "signature_lieu"));
    TableFieldResult(doc, record, mappings, fetch, 10, "Fait à 2");
  }

  /** Whether the expense table's signature gets drawn: a non-empty list whose first image loads, and a page 0. */
  predicate SignatureDraws(pages: seq<Page>, v: RawValue, fetch: ImageFetch)
  {
    v.List? && |v.ids| > 0 && fetch(v.ids[0]).Some? && |pages| > 0
  }

  /** The pages as the signature entry is meant to leave them: the first image at (200, 50), 30 high, on page 0. */
  function SignedPages(pages: seq<Page>, v: RawValue, fetch: ImageFetch): (r: seq<Page>)
    ensures |r| == |pages|
    ensures PagesGrow(pages, r)
  {
    if SignatureDraws(pages, v, fetch) then
      var at := Placement(200.0, 50.0, 30.0);
      [Page(pages[0].content, pages[0].draws + [PlacedDraw(v.ids[0], at, fetch(v.ids[0]).value)])] + pages[1..]
    else pages
  }

  /** The signature branch at the expense table's placement draws exactly as `SignedPages` says, and throws otherwise. */
  lemma SignatureStep(doc: Document, v: RawValue, fetch: ImageFetch)
    requires v.List?
    ensures var s := FillSignature(doc, ImagePlacement(Placement(200.0, 50.0, 30.0)), v.ids, fetch);
            && s.doc.pages == SignedPages(doc.pages, v, fetch)
            && (s.raised <==> !SignatureDraws(doc.pages, v, fetch))
  {
    var s := FillSignature(doc, ImagePlacement(Placement(200.0, 50.0, 30.0)), v.ids, fetch);
    if SignatureDraws(doc.pages, v, fetch) {
      assert s.doc.pages == SignedPages(doc.pages, v, fetch);
    }
  }

  /**
   * The fill pass's page effect on the expense table: the signature is drawn as planned,
   * or the pages stay as they were; a list whose draw fails is the one report, under
   * "signature", and any other value is silently skipped.
   */
  lemma SignatureDrawn(doc: Document, record: Record, mappings: ColumnMap, fetch: ImageFetch)
    ensures var v := ValueFor(record, mappings, "signature");
            var p := FillEntries(doc, Table(), record, mappings, fetch);
            && p.doc.pages == SignedPages(doc.pages, v, fetch)
            && p.warned == (if v.List? && !SignatureDraws(doc.pages, v, fetch) then ["signature"] else [])
  {
    SingleSignatureEntry();
    SignatureGeometry();
    OneSignature(doc, Table(), record, mappings, fetch, 8);
    var v := ValueFor(record, mappings, "signature");
    if v.List? {
      SignatureStep(doc, v, fetch);
    }
  }

  /** The expense table's fill: the planned form writes, and the signature drawn as planned. */
  lemma TableFill(doc: Document, record: Record, mappings: ColumnMap, fetch: ImageFetch)
    ensures var filled := FillEntries(doc, Table(), record, mappings, fetch).doc;
            && filled.form == ApplyPlan(doc.form, PlanOf(Table(), record, mappings))
            && filled.pages == SignedPages(doc.pages, ValueFor(record, mappings, "signature"), fetch)
  {
    TableFillFollowsPlan(doc, record, mappings, fetch);
    SignatureDrawn(doc, record, mappings, fetch);
  }

  /**
   * End to end on the expense table: a kept document is the loaded template with the
   * planned form writes and the signature drawn as planned, and only a template
   * without pages leaves the preview unbuilt.
   */
  lemma LoadPdfResult(record: Record, mappings: ColumnMap, load: DocumentFetch, fetch: ImageFetch)
    ensures var r := LoadPdf(record, mappings, load, fetch);
            r.Done? || r.PreviewFailed? ==>
              var template := load(InputId(record, mappings).value).value;
              && r.complete.form == ApplyPlan(template.form, PlanOf(Table(), record, mappings))
              && r.complete.pages == SignedPages(template.pages, ValueFor(record, mappings, "signature"), fetch)
              && (r.PreviewFailed? <==> |template.pages| == 0)
  {
    var r := LoadPdf(record, mappings, load, fetch);
    if r.Done? || r.PreviewFailed? {
      var template := load(InputId(record, mappings).value).value;
      TableFill(template, record, mappings, fetch);
    }
  }
}
