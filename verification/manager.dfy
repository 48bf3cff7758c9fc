/**
 * The manager-signature widget: one flag, "an expense report already exists for this
 * record", picks the document to sign, where the signature goes, and the column the
 * signed document is saved into. The widget's own mapping table is not part of this
 * model; `ManagerTable` stands for the parts of it the flow reads.
 */
module ManagerSign {
  import opened Wrappers
  import opened Values
  import opened Pdf
  import opened Grist

  /** The SIGNATURE descriptor: a default placement and an alternate one. */
  datatype SignatureField = SignatureField(default: Placement, alternate: Placement)

  /**
   * Column names of `PDF_INPUT`, `PDF_EF_INPUT`, `PDF_OUTPUT`, `PDF_EF_OUTPUT` and
   * `SIGNATURE`, the SIGNATURE descriptor, and every entry's name (for readiness).
   */
  datatype ManagerTable = ManagerTable(pdfInput: string, pdfEfInput: string, pdfOutput: string,
                                       pdfEfOutput: string, signatureName: string,
                                       signature: Option<SignatureField>, names: seq<string>)

  /** `Boolean(record[mappings[PDF_EF_INPUT.name]])`. */
  function HasEtatFrais(t: ManagerTable, record: Record, mappings: ColumnMap): (r: bool)
    ensures t.pdfEfInput in mappings && mappings[t.pdfEfInput].Some? && mappings[t.pdfEfInput].value in record
            ==> (r <==> Truthy(record[mappings[t.pdfEfInput].value]))
    ensures ColumnKey(mappings, t.pdfEfInput) !in record ==> !r
  {
    Truthy(ValueFor(record, mappings, t.pdfEfInput))
  }

  function InputColumn(t: ManagerTable, hasEF: bool): string
  {
    if hasEF then t.pdfEfInput else t.pdfInput
  }

  function OutputColumn(t: ManagerTable, hasEF: bool): string
  {
    if hasEF then t.pdfEfOutput else t.pdfOutput
  }

  function ChosenPlacement(s: SignatureField, hasEF: bool): Placement
  {
    if hasEF then s.alternate else s.default
  }

  /** The one flag keys all three choices: input, placement and output go together. */
  lemma FlagSelectsTogether(t: ManagerTable, s: SignatureField, hasEF: bool)
    ensures hasEF ==> InputColumn(t, hasEF) == t.pdfEfInput && ChosenPlacement(s, hasEF) == s.alternate
                      && OutputColumn(t, hasEF) == t.pdfEfOutput
    ensures !hasEF ==> InputColumn(t, hasEF) == t.pdfInput && ChosenPlacement(s, hasEF) == s.default
                       && OutputColumn(t, hasEF) == t.pdfOutput
  {
  }

  /**
   * The signing step: with a SIGNATURE descriptor, `Number(record[signature column])` is
   * downloaded and drawn on page 0 at the chosen placement; any failure (NaN id, failed
   * download or decode, no page 0) throws, which here ends the whole preview.
   */
  function Sign(doc: Document, t: ManagerTable, record: Record, mappings: ColumnMap, hasEF: bool,
                fetch: int -> Option<Png>): (r: Option<Document>)
    ensures t.signature.None? ==> r == Some(doc)
    ensures r.Some? ==> r.value.form == doc.form && PagesGrow(doc.pages, r.value.pages)
    ensures t.signature.Some? ==>
              var id := ToNumber(ValueFor(record, mappings, t.signatureName));
              (r.Some? <==> id.Some? && fetch(id.value).Some? && |doc.pages| > 0)
              && (r.Some? ==>
                    r.value.pages[0].draws
                      == doc.pages[0].draws + [PlacedDraw(id.value, ChosenPlacement(t.signature.value, hasEF), fetch(id.value).value)])
  {
    if t.signature.None? then Some(doc)
    else
      var at := ChosenPlacement(t.signature.value, hasEF);
      match ToNumber(ValueFor(record, mappings, t.signatureName))
      case None => None
      case Some(id) =>
        match fetch(id)
        case None => None
        case Some(png) => DrawOnFirstPage(doc, PlacedDraw(id, at, png))
  }

  /**
   * `previewFirstPage`: nothing happens unless the chosen input column is mapped; a
   * failed load or signing ends in the outer handler; otherwise the signed document is
   * kept and a one-page preview derived from it.
   */
  function PreviewFirstPage(t: ManagerTable, record: Record, mappings: ColumnMap, hasEF: bool,
                            load: int -> Option<Document>, fetch: int -> Option<Png>): (r: Outcome)
    ensures r.NotStarted? <==> !Mapped(mappings, InputColumn(t, hasEF))
    ensures var id := ToNumber(ValueFor(record, mappings, InputColumn(t, hasEF)));
            r.Failed? <==> && Mapped(mappings, InputColumn(t, hasEF))
                           && (|| id.None? || load(id.value).None?
                               || Sign(load(id.value).value, t, record, mappings, hasEF, fetch).None?)
    ensures r.Done? || r.PreviewFailed? ==>
              var id := ToNumber(ValueFor(record, mappings, InputColumn(t, hasEF)));
              && id.Some? && load(id.value).Some?
              && Sign(load(id.value).value, t, record, mappings, hasEF, fetch) == Some(r.complete)
              && r.complete.form == load(id.value).value.form
              && PagesGrow(load(id.value).value.pages, r.complete.pages)
    ensures (r.Done? || r.PreviewFailed?) && t.signature.Some? ==>
              var template := load(ToNumber(ValueFor(record, mappings, InputColumn(t, hasEF))).value).value;
              var sid := ToNumber(ValueFor(record, mappings, t.signatureName));
              && sid.Some? && fetch(sid.value).Some? && |template.pages| > 0
              && r.complete.pages[0].draws
                   == template.pages[0].draws + [PlacedDraw(sid.value, ChosenPlacement(t.signature.value, hasEF), fetch(sid.value).value)]
    ensures r.PreviewFailed? ==> t.signature.None? && |r.complete.pages| == 0
    ensures r.Done? ==> |r.preview.pages| == 1 && |r.complete.pages| > 0 && r.preview.pages[0] == r.complete.pages[0]
  {
    var input := InputColumn(t, hasEF);
    if !Mapped(mappings, input) then NotStarted
    else match ToNumber(ValueFor(record, mappings, input))
      case None => Failed
      case Some(id) =>
        match load(id)
        case None => Failed
        case Some(doc) =>
          match Sign(doc, t, record, mappings, hasEF, fetch)
          case None => Failed
          case Some(signed) =>
            match FirstPagePreview(signed)
            case None => PreviewFailed(signed)
            case Some(preview) => Done(signed, preview)
  }

  /**
   * With a SIGNATURE descriptor, a preview that gets past the guard and the handler is
   * built, and what it shows on its one page ends with the signature at the chosen place.
   */
  lemma PreviewShowsSignature(t: ManagerTable, record: Record, mappings: ColumnMap, hasEF: bool,
                              load: int -> Option<Document>, fetch: int -> Option<Png>)
    requires t.signature.Some?
    ensures var r := PreviewFirstPage(t, record, mappings, hasEF, load, fetch);
            var sid := ToNumber(ValueFor(record, mappings, t.signatureName));
            && (r.Done? <==> !r.NotStarted? && !r.Failed?)
            && (r.Done? ==>
                  && sid.Some? && fetch(sid.value).Some?
                  && var shown := r.preview.pages[0].draws;
                     && |shown| > 0
                     && shown[|shown| - 1] == PlacedDraw(sid.value, ChosenPlacement(t.signature.value, hasEF), fetch(sid.value).value))
  {
  }

  /** `mappingsIsReady` of the manager widget: none of its column names is mapped to `null`. */
  method MappingsIsReady(t: ManagerTable, mappings: ColumnMap) returns (ready: bool)
    ensures ready <==> forall i :: 0 <= i < |t.names| ==> !(t.names[i] in mappings && mappings[t.names[i]].None?)
  {
    ready := Grist.MappingsIsReady(t.names, mappings);
  }

  /** `savePdf`: needs signed bytes and data; the flag picks the output column, the prefix is "signed". */
  function SavePdf(t: ManagerTable, complete: Option<Document>, hasData: bool, hasEF: bool): (r: Option<SaveRequest>)
    ensures r.Some? <==> complete.Some? && hasData
    ensures r.Some? ==> r.value.document == complete.value && r.value.prefix == "signed"
    ensures r.Some? ==> r.value.column == (if hasEF then t.pdfEfOutput else t.pdfOutput)
  {
    if complete.None? || !hasData then None
    else Some(SaveRequest(complete.value, OutputColumn(t, hasEF), "signed"))
  }

  /**
   * Preview and save read the same flag: a document signed from the expense-report
   * input is saved to the expense-report output, and one signed from the plain input
   * to the plain output.
   */
  lemma SavedWhereItCameFrom(t: ManagerTable, record: Record, mappings: ColumnMap, hasEF: bool,
                             load: int -> Option<Document>, fetch: int -> Option<Png>)
    requires t.pdfEfOutput != t.pdfOutput
    ensures var r := PreviewFirstPage(t, record, mappings, hasEF, load, fetch);
            r.Done? ==>
              var s := SavePdf(t, Some(r.complete), true, hasEF);
              && s.Some? && s.value.document == r.complete
              && (s.value.column == t.pdfEfOutput <==> Mapped(mappings, t.pdfEfInput) && InputColumn(t, hasEF) == t.pdfEfInput && hasEF)
  {
  }
}
