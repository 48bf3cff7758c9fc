/**
 * The expense-report fill pass: for each table entry in order, read the record's value
 * through the column mapping and write it into the loaded form (or, for the signature,
 * onto page 0), absorbing any per-field exception; then keep the filled document and
 * derive a one-page preview from it.
 */
module ExpenseFill {
  import opened Wrappers
  import opened Values
  import opened DateFormat
  import opened Pdf
  import opened Grist
  import opened ExpenseTable

  /** The document after one entry, and whether that entry threw (and was caught). */
  datatype Step = Step(doc: Document, raised: bool)

  /** The document after the whole table, and the columns whose entry threw, in order. */
  datatype Pass = Pass(doc: Document, warned: seq<string>)

  /** An attachment fetch followed by PNG decoding; None when either fails. */
  type ImageFetch = int -> Option<Png>

  /** An attachment fetch followed by `PDFDocument.load`; None when either fails. */
  type DocumentFetch = int -> Option<Document>

  /** The `{date, time}` branch: each present, truthy half is written as text, date first. */
  function FillDateTime(form: Form, ff: FormField, d: DateParts): (r: Form)
    ensures FormEvolves(form, r)
    ensures forall f :: f in form && f !in Targets(ff) ==> r[f] == form[f]
  {
    if !ff.DateAndTime? then form
    else
      var withDate := if Half(ff.date) != {} then WriteField(form, ff.date.value, Put(FormatDate(d))) else form;
      var withTime := if Half(ff.time) != {} then WriteField(withDate, ff.time.value, Put(FormatTime(d))) else withDate;
      FormEvolvesTrans(form, withDate, withTime);
      withTime
  }

  /**
   * The signature branch, reached with a truthy array value. A string descriptor is
   * skipped; destructuring `null` or a non-placement object throws; so does a failed
   * download of `value[0]` (NaN when the list is empty) and a missing page 0.
   */
  function FillSignature(doc: Document, ff: FormField, ids: seq<int>, fetch: ImageFetch): (r: Step)
    ensures r.raised ==> r.doc == doc
    ensures PagesGrow(doc.pages, r.doc.pages)
    ensures r.doc.form == doc.form
    ensures ff.ImagePlacement? ==>
              (!r.raised <==> |ids| > 0 && fetch(ids[0]).Some? && |doc.pages| > 0)
    ensures ff.ImagePlacement? && !r.raised ==>
              && |r.doc.pages| == |doc.pages|
              && r.doc.pages[0].content == doc.pages[0].content
              && r.doc.pages[0].draws == doc.pages[0].draws + [PlacedDraw(ids[0], ff.at, fetch(ids[0]).value)]
              && forall i :: 1 <= i < |doc.pages| ==> r.doc.pages[i] == doc.pages[i]
    ensures !ff.ImagePlacement? ==> r.doc == doc
  {
    if ff.Target? then Step(doc, false)
    else if !ff.ImagePlacement? then Step(doc, true)
    else if |ids| == 0 then Step(doc, true)
    else match fetch(ids[0])
      case None => Step(doc, true)
      case Some(png) =>
        match DrawOnFirstPage(doc, PlacedDraw(ids[0], ff.at, png))
        case None => Step(doc, true)
        case Some(drawn) => Step(drawn, false)
  }

  /** `Autre` is ticked if it is a check box, then `String(value)` goes into `Precision` if it is a text field. */
  function FillOther(form: Form, ff: FormField, v: RawValue): (r: Form)
    requires ff.OtherAndDetail?
    ensures FormEvolves(form, r)
    ensures forall f :: f in form && f !in Targets(ff) ==> r[f] == form[f]
  {
    var ticked := WriteField(form, ff.other, Tick);
    var r := WriteField(ticked, ff.precision, Put(ToText(v)));
    FormEvolvesTrans(form, ticked, r);
    r
  }

  /**
   * The tail of the loop body: the "other expenses" branch (any value but "" ticks
   * `Autre` and writes `String(value)` into `Precision`), then the plain-text branch
   * (a string descriptor and a truthy value write `String(value)`).
   */
  function FillOtherAndText(form: Form, e: Entry, v: RawValue): (r: Form)
    ensures FormEvolves(form, r)
    ensures forall f :: f in form && f !in Targets(e.formField) ==> r[f] == form[f]
  {
    var ff := e.formField;
    var afterOther := if e.key == AutresDepenses && ff.OtherAndDetail? && v != Str("") then FillOther(form, ff, v) else form;
    var afterText := if ff.Target? && Truthy(v) then WriteField(afterOther, ff.name, Put(ToText(v))) else afterOther;
    FormEvolvesTrans(form, afterOther, afterText);
    afterText
  }

  /**
   * One iteration of the loop body, dispatching on the key as the code does, with the
   * same fall-through: the date/time branch falls through for a non-Date value, and the
   * "other expenses" branch falls through to the plain-text branch.
   */
  function FillEntry(doc: Document, e: Entry, v: RawValue, fetch: ImageFetch): (r: Step)
    ensures FormEvolves(doc.form, r.doc.form)
    ensures forall f :: f in doc.form && f !in Targets(e.formField) ==> r.doc.form[f] == doc.form[f]
    ensures PagesGrow(doc.pages, r.doc.pages)
    ensures e.key != Signature ==> r.doc.pages == doc.pages && !r.raised
    ensures r.raised ==> r.doc == doc
    ensures e.key == Signature && v.List? ==> r == FillSignature(doc, e.formField, v.ids, fetch)
    ensures e.key == Signature && !v.List? ==> r.doc.pages == doc.pages && !r.raised
  {
    var ff := e.formField;
    if (e.key == DateHeureDepart || e.key == DateHeureArrivee) && IsObject(ff) && v.DateV? then
      Step(Document(FillDateTime(doc.form, ff, v.parts), doc.pages), false)
    else if e.key == SignatureDate && Truthy(v) && v.DateV? && ff.Target? then
      Step(Document(WriteField(doc.form, ff.name, Put(FormatDate(v.parts))), doc.pages), false)
    else if IsCheckboxKey(e.key) then
      if ff.Target? && v == Bool(true) then Step(Document(WriteField(doc.form, ff.name, Tick), doc.pages), false)
      else Step(doc, false)
    else if e.key == Signature && Truthy(v) && v.List? then
      FillSignature(doc, ff, v.ids, fetch)
    else
      Step(Document(FillOtherAndText(doc.form, e, v), doc.pages), false)
  }

  function AllTargets(es: seq<Entry>): set<string>
  {
    if |es| == 0 then {} else Targets(es[0].formField) + AllTargets(es[1..])
  }

  function SignatureNames(es: seq<Entry>): set<string>
  {
    if |es| == 0 then {} else (if es[0].key == Signature then {es[0].name} else {}) + SignatureNames(es[1..])
  }

  /**
   * A left fold of a per-entry step over the entries: each step runs on the document the
   * previous one left, and the names the steps report are collected in order.
   */
  function Fold(doc: Document, es: seq<Entry>, step: (Document, Entry) -> Pass): Pass
    decreases |es|
  {
    if |es| == 0 then Pass(doc, [])
    else
      var v := step(doc, es[0]);
      var rest := Fold(v.doc, es[1..], step);
      Pass(rest.doc, v.warned + rest.warned)
  }

  /** Folding over `a + b` is folding over `a`, then over `b` from where `a` left off. */
  lemma {:induction false} FoldAppend(doc: Document, a: seq<Entry>, b: seq<Entry>, step: (Document, Entry) -> Pass)
    ensures var first := Fold(doc, a, step);
            var second := Fold(first.doc, b, step);
            Fold(doc, a + b, step) == Pass(second.doc, first.warned + second.warned)
    decreases |a|
  {
    if |a| == 0 {
      assert a + b == b;
    } else {
      var ab := a + b;
      assert ab[0] == a[0] && ab[1..] == a[1..] + b;
      var v := step(doc, a[0]);
      FoldAppend(v.doc, a[1..], b, step);
      var first := Fold(v.doc, a[1..], step);
      var second := Fold(first.doc, b, step);
      assert v.warned + (first.warned + second.warned) == (v.warned + first.warned) + second.warned;
    }
  }

  /**
   * The loop body with its handler: `PDF_OUTPUT` is skipped; any other entry is filled
   * from its record value, and reported by name when it throws.
   */
  function Visit(doc: Document, e: Entry, record: Record, mappings: ColumnMap, fetch: ImageFetch): Pass
  {
    if e.key == PdfOutput then Pass(doc, [])
    else
      var s := FillEntry(doc, e, ValueFor(record, mappings, e.name), fetch);
      Pass(s.doc, if s.raised then [e.name] else [])
  }

  /** The loop over the entries, in table order. */
  function FillEntries(doc: Document, es: seq<Entry>, record: Record, mappings: ColumnMap, fetch: ImageFetch): Pass
  {
    Fold(doc, es, (d: Document, e: Entry) => Visit(d, e, record, mappings, fetch))
  }

  /** One turn of the loop: visit the first entry, then run the rest on its document. */
  lemma FillEntriesCons(doc: Document, es: seq<Entry>, record: Record, mappings: ColumnMap, fetch: ImageFetch)
    requires |es| > 0
    ensures var v := Visit(doc, es[0], record, mappings, fetch);
            var rest := FillEntries(v.doc, es[1..], record, mappings, fetch);
            FillEntries(doc, es, record, mappings, fetch) == Pass(rest.doc, v.warned + rest.warned)
  {
  }

  /**
   * What the loop can do to a document: field names and kinds are kept, checked boxes
   * stay checked, fields no entry targets are untouched, images are only added to
   * page 0, and only signature entries are ever reported as having thrown.
   */
  lemma {:induction false} FillEntriesEvolves(doc: Document, es: seq<Entry>, record: Record,
                                              mappings: ColumnMap, fetch: ImageFetch)
    ensures var r := FillEntries(doc, es, record, mappings, fetch);
            && FormEvolves(doc.form, r.doc.form)
            && (forall f :: f in doc.form && f !in AllTargets(es) ==> r.doc.form[f] == doc.form[f])
            && PagesGrow(doc.pages, r.doc.pages)
            && (forall i :: 0 <= i < |r.warned| ==> r.warned[i] in SignatureNames(es))
    decreases |es|
  {
    if |es| > 0 {
      FillEntriesCons(doc, es, record, mappings, fetch);
      var v := Visit(doc, es[0], record, mappings, fetch);
      FillEntriesEvolves(v.doc, es[1..], record, mappings, fetch);
      var rest := FillEntries(v.doc, es[1..], record, mappings, fetch);
      FormEvolvesTrans(doc.form, v.doc.form, rest.doc.form);
      PagesGrowTrans(doc.pages, v.doc.pages, rest.doc.pages);
    }
  }

  /** The table is folded left to right: filling `a + b` is filling `a`, then `b` on its result. */
  lemma FillEntriesAppend(doc: Document, a: seq<Entry>, b: seq<Entry>, record: Record,
                          mappings: ColumnMap, fetch: ImageFetch)
    ensures var first := FillEntries(doc, a, record, mappings, fetch);
            var second := FillEntries(first.doc, b, record, mappings, fetch);
            FillEntries(doc, a + b, record, mappings, fetch) == Pass(second.doc, first.warned + second.warned)
  {
    FoldAppend(doc, a, b, (d: Document, e: Entry) => Visit(d, e, record, mappings, fetch));
  }

  /** Entries other than the signature leave the pages as they were and report nothing. */
  lemma {:induction false} PagesWithoutSignature(doc: Document, es: seq<Entry>, record: Record,
                                                 mappings: ColumnMap, fetch: ImageFetch)
    requires forall i :: 0 <= i < |es| ==> es[i].key != Signature
    ensures var p := FillEntries(doc, es, record, mappings, fetch);
            p.doc.pages == doc.pages && p.warned == []
    decreases |es|
  {
    if |es| > 0 {
      FillEntriesCons(doc, es, record, mappings, fetch);
      var v := Visit(doc, es[0], record, mappings, fetch);
      PagesWithoutSignature(v.doc, es[1..], record, mappings, fetch);
    }
  }

  /** The signature step reads only the pages of the document it draws on. */
  lemma FillSignatureOnPages(a: Document, b: Document, ff: FormField, ids: seq<int>, fetch: ImageFetch)
    requires a.pages == b.pages
    ensures FillSignature(a, ff, ids, fetch).doc.pages == FillSignature(b, ff, ids, fetch).doc.pages
    ensures FillSignature(a, ff, ids, fetch).raised == FillSignature(b, ff, ids, fetch).raised
  {
  }

  /**
   * With a single signature entry, the pages after the loop are what that entry's draw
   * makes of the template's pages, and that entry is the only one ever reported.
   */
  lemma OneSignature(doc: Document, es: seq<Entry>, record: Record, mappings: ColumnMap, fetch: ImageFetch, k: int)
    requires 0 <= k < |es| && es[k].key == Signature
    requires forall i :: 0 <= i < |es| && i != k ==> es[i].key != Signature
    ensures var v := ValueFor(record, mappings, es[k].name);
            var p := FillEntries(doc, es, record, mappings, fetch);
            if v.List? then
              var s := FillSignature(doc, es[k].formField, v.ids, fetch);
              p.doc.pages == s.doc.pages && p.warned == (if s.raised then [es[k].name] else [])
            else p.doc.pages == doc.pages && p.warned == []
  {
    var a, b, c := es[..k], [es[k]], es[k + 1..];
    assert es == a + (b + c);
    FillEntriesAppend(doc, a, b + c, record, mappings, fetch);
    var pa := FillEntries(doc, a, record, mappings, fetch);
    PagesWithoutSignature(doc, a, record, mappings, fetch);
    FillEntriesAppend(pa.doc, b, c, record, mappings, fetch);
    FillEntriesCons(pa.doc, b, record, mappings, fetch);
    assert b[1..] == [];
    var pb := FillEntries(pa.doc, b, record, mappings, fetch);
    var v := ValueFor(record, mappings, es[k].name);
    if v.List? {
      FillSignatureOnPages(pa.doc, doc, es[k].formField, v.ids, fetch);
    }
    PagesWithoutSignature(pb.doc, c, record, mappings, fetch);
  }

  /** The `PDF_OUTPUT` entry is skipped wherever it stands: it neither writes nor is reported. */
  lemma PdfOutputSkipped(doc: Document, e: Entry, es: seq<Entry>, record: Record, mappings: ColumnMap, fetch: ImageFetch)
    requires e.key == PdfOutput
    ensures FillEntries(doc, [e] + es, record, mappings, fetch) == FillEntries(doc, es, record, mappings, fetch)
  {
    FillEntriesCons(doc, [e] + es, record, mappings, fetch);
    assert ([e] + es)[1..] == es;
  }

  /** An entry that throws changes nothing, is recorded, and the entries after it still run. */
  lemma RaisedEntryAbsorbed(doc: Document, e: Entry, es: seq<Entry>, record: Record, mappings: ColumnMap, fetch: ImageFetch)
    requires e.key != PdfOutput
    requires FillEntry(doc, e, ValueFor(record, mappings, e.name), fetch).raised
    ensures var rest := FillEntries(doc, es, record, mappings, fetch);
            FillEntries(doc, [e] + es, record, mappings, fetch) == Pass(rest.doc, [e.name] + rest.warned)
  {
    FillEntriesCons(doc, [e] + es, record, mappings, fetch);
    assert ([e] + es)[1..] == es;
  }

  // ---------------------------------------------------------------------------
  // Reference semantics: the writes each entry is meant to make, by descriptor shape.
  // ---------------------------------------------------------------------------

  function HalfWrite(t: Option<string>, w: Write): (p: map<string, Write>)
    ensures p.Keys == Half(t)
  {
    if Half(t) != {} then map[t.value := w] else map[]
  }

  /**
   * The writes entry `e` is meant to make for value `v`:
   * - `{date, time}`: a Date writes DD/MM/YYYY and HH:mm into the present halves;
   *   anything else writes nothing;
   * - a check-box key ticks its box exactly when the value is `true`;
   * - the signature date writes DD/MM/YYYY for a Date, otherwise like plain text;
   * - plain text writes `String(value)` when the value is truthy;
   * - `{Autre, Precision}` ticks `Autre` and writes `String(value)` into `Precision`
   *   for every value other than "";
   * - an image placement or `null` writes no form field.
   */
  function Plan(e: Entry, v: RawValue): (p: map<string, Write>)
    ensures p.Keys <= Targets(e.formField)
  {
    match e.formField
    case DateAndTime(d, t) =>
      if v.DateV? then HalfWrite(d, Put(FormatDate(v.parts))) + HalfWrite(t, Put(FormatTime(v.parts))) else map[]
    case Target(n) =>
      if IsCheckboxKey(e.key) then (if v == Bool(true) then map[n := Tick] else map[])
      else if e.key == SignatureDate && v.DateV? then map[n := Put(FormatDate(v.parts))]
      else if Truthy(v) then map[n := Put(ToText(v))]
      else map[]
    case OtherAndDetail(o, q) => if v != Str("") then map[o := Tick, q := Put(ToText(v))] else map[]
    case ImagePlacement(_) => map[]
    case NoField => map[]
  }

  /** The writes of every entry but `PDF_OUTPUT`. */
  function PlanOf(es: seq<Entry>, record: Record, mappings: ColumnMap): (p: map<string, Write>)
    ensures p.Keys <= AllTargets(es)
  {
    if |es| == 0 then map[]
    else if es[0].key == PdfOutput then PlanOf(es[1..], record, mappings)
    else Plan(es[0], ValueFor(record, mappings, es[0].name)) + PlanOf(es[1..], record, mappings)
  }

  lemma DateTimeFollowsPlan(doc: Document, e: Entry, v: RawValue, fetch: ImageFetch)
    requires WellShaped(e) && e.formField.DateAndTime?
    ensures FillEntry(doc, e, v, fetch).doc.form == ApplyPlan(doc.form, Plan(e, v))
  {
    var ff := e.formField;
    if v.DateV? {
      var pd, pt := HalfWrite(ff.date, Put(FormatDate(v.parts))), HalfWrite(ff.time, Put(FormatTime(v.parts)));
      var withDate := if Half(ff.date) != {} then WriteField(doc.form, ff.date.value, Put(FormatDate(v.parts))) else doc.form;
      if Half(ff.date) != {} {
        ApplyOne(doc.form, ff.date.value, Put(FormatDate(v.parts)));
      } else {
        ApplyNothing(doc.form);
      }
      assert withDate == ApplyPlan(doc.form, pd);
      if Half(ff.time) != {} {
        ApplyOne(withDate, ff.time.value, Put(FormatTime(v.parts)));
      } else {
        ApplyNothing(withDate);
      }
      ApplyPlanCompose(doc.form, pd, pt);
    } else {
      ApplyNothing(doc.form);
    }
  }

  lemma TargetFollowsPlan(doc: Document, e: Entry, v: RawValue, fetch: ImageFetch)
    requires WellShaped(e) && e.formField.Target?
    ensures FillEntry(doc, e, v, fetch).doc.form == ApplyPlan(doc.form, Plan(e, v))
  {
    var n := e.formField.name;
    ApplyNothing(doc.form);
    if IsCheckboxKey(e.key) {
      ApplyOne(doc.form, n, Tick);
    } else if e.key == SignatureDate && v.DateV? {
      ApplyOne(doc.form, n, Put(FormatDate(v.parts)));
    } else {
      ApplyOne(doc.form, n, Put(ToText(v)));
    }
  }

  lemma OtherFollowsPlan(doc: Document, e: Entry, v: RawValue, fetch: ImageFetch)
    requires WellShaped(e) && e.formField.OtherAndDetail?
    ensures FillEntry(doc, e, v, fetch).doc.form == ApplyPlan(doc.form, Plan(e, v))
  {
    var ff := e.formField;
    assert e.key == AutresDepenses;
    if v != Str("") {
      ApplyTwo(doc.form, ff.other, Tick, ff.precision, Put(ToText(v)));
    } else {
      ApplyNothing(doc.form);
    }
  }

  /** For a well-shaped entry, the key-dispatching loop body makes exactly the planned writes. */
  lemma EntryFollowsPlan(doc: Document, e: Entry, v: RawValue, fetch: ImageFetch)
    requires WellShaped(e)
    ensures FillEntry(doc, e, v, fetch).doc.form == ApplyPlan(doc.form, Plan(e, v))
  {
    match e.formField
    case DateAndTime(_, _) => DateTimeFollowsPlan(doc, e, v, fetch);
    case Target(_) => TargetFollowsPlan(doc, e, v, fetch);
    case OtherAndDetail(_, _) => OtherFollowsPlan(doc, e, v, fetch);
    case ImagePlacement(_) => ApplyNothing(doc.form);
    case NoField => ApplyNothing(doc.form);
  }

  lemma DisjointFromAll(t: set<string>, es: seq<Entry>)
    requires forall j :: 0 <= j < |es| ==> t !! Targets(es[j].formField)
    ensures t !! AllTargets(es)
    decreases |es|
  {
    if |es| > 0 {
      DisjointFromAll(t, es[1..]);
    }
  }

  lemma WellFormedTail(es: seq<Entry>)
    requires |es| > 0 && WellFormed(es)
    ensures WellFormed(es[1..])
    ensures Targets(es[0].formField) !! AllTargets(es[1..])
  {
    var tail := es[1..];
    forall i, j | 0 <= i < j < |tail|
      ensures Targets(tail[i].formField) !! Targets(tail[j].formField)
    {
      assert tail[i] == es[i + 1] && tail[j] == es[j + 1];
    }
    forall j | 0 <= j < |tail|
      ensures Targets(es[0].formField) !! Targets(tail[j].formField)
    {
      assert tail[j] == es[j + 1];
    }
    DisjointFromAll(Targets(es[0].formField), tail);
  }

  /**
   * The fill pass over a well-formed table makes exactly the planned writes: every form
   * field ends up as the plan of the one entry targeting it says, and no other field
   * changes. Entries' absorbed exceptions and their order do not affect the form.
   */
  lemma {:induction false} FillFollowsPlan(doc: Document, es: seq<Entry>, record: Record,
                                           mappings: ColumnMap, fetch: ImageFetch)
    requires WellFormed(es)
    ensures FillEntries(doc, es, record, mappings, fetch).doc.form == ApplyPlan(doc.form, PlanOf(es, record, mappings))
    decreases |es|
  {
    if |es| == 0 {
      assert ApplyPlan(doc.form, map[]) == doc.form;
    } else {
      WellFormedTail(es);
      FillEntriesCons(doc, es, record, mappings, fetch);
      if es[0].key == PdfOutput {
        FillFollowsPlan(doc, es[1..], record, mappings, fetch);
      } else {
        var v := ValueFor(record, mappings, es[0].name);
        var s := FillEntry(doc, es[0], v, fetch);
        EntryFollowsPlan(doc, es[0], v, fetch);
        FillFollowsPlan(s.doc, es[1..], record, mappings, fetch);
        ApplyPlanCompose(doc.form, Plan(es[0], v), PlanOf(es[1..], record, mappings));
      }
    }
  }

  /** On the expense table, the form after the pass is the template's form with the planned writes. */
  lemma TableFillFollowsPlan(doc: Document, record: Record, mappings: ColumnMap, fetch: ImageFetch)
    ensures FillEntries(doc, Table(), record, mappings, fetch).doc.form == ApplyPlan(doc.form, PlanOf(Table(), record, mappings))
  {
    TableWellFormed();
    FillFollowsPlan(doc, Table(), record, mappings, fetch);
  }

  /** In a well-formed table, the combined plan at a field is the plan of the one entry targeting it. */
  lemma {:induction false} PlanOfAt(es: seq<Entry>, record: Record, mappings: ColumnMap, i: int, f: string)
    requires WellFormed(es) && 0 <= i < |es| && es[i].key != PdfOutput && f in Targets(es[i].formField)
    ensures var p := Plan(es[i], ValueFor(record, mappings, es[i].name));
            var all := PlanOf(es, record, mappings);
            (f in all <==> f in p) && (f in p ==> all[f] == p[f])
    decreases |es|
  {
    WellFormedTail(es);
    var rest := PlanOf(es[1..], record, mappings);
    if i == 0 {
      assert f !in rest;
    } else {
      assert es[1..][i - 1] == es[i];
      PlanOfAt(es[1..], record, mappings, i - 1, f);
      if es[0].key != PdfOutput {
        assert Targets(es[0].formField) !! Targets(es[i].formField);
        assert f !in Plan(es[0], ValueFor(record, mappings, es[0].name));
      }
    }
  }

  /**
   * In a well-formed table, each form field ends up as the one entry that targets it
   * would leave it on its own, whatever the other entries do.
   */
  lemma FieldResult(doc: Document, es: seq<Entry>, record: Record, mappings: ColumnMap, fetch: ImageFetch, i: int, f: string)
    requires WellFormed(es) && 0 <= i < |es| && es[i].key != PdfOutput
    requires f in Targets(es[i].formField) && f in doc.form
    ensures var p := Plan(es[i], ValueFor(record, mappings, es[i].name));
            var after := FillEntries(doc, es, record, mappings, fetch).doc.form;
            f in after && after[f] == (if f in p then Written(doc.form[f], p[f]) else doc.form[f])
  {
    FillFollowsPlan(doc, es, record, mappings, fetch);
    PlanOfAt(es, record, mappings, i, f);
  }

  /**
   * `mappingsIsReady` of the expense widget over its table: no entry's column name is
   * mapped to `null`.
   */
  method MappingsIsReady(table: seq<Entry>, mappings: ColumnMap) returns (ready: bool)
    ensures ready <==> forall i :: 0 <= i < |table| ==> !(table[i].name in mappings && mappings[table[i].name].None?)
  {
    ready := Grist.MappingsIsReady(Names(table), mappings);
  }

  /** `Number(record[mappings["pdf_input"]])`, the id of the document to fill. */
  function InputId(record: Record, mappings: ColumnMap): Option<int>
  {
    ToNumber(ValueFor(record, mappings, PdfInputName))
  }

  /**
   * `loadPdf` over a mapping table: nothing happens unless `pdf_input` is mapped and its
   * value truthy; a failed download or load ends in the outer handler; otherwise the
   * table is filled, the filled document kept, and a one-page preview derived from it.
   */
  function LoadPdfWith(table: seq<Entry>, record: Record, mappings: ColumnMap, load: DocumentFetch, fetch: ImageFetch): (r: Outcome)
    ensures r.NotStarted? <==> !Mapped(mappings, PdfInputName) || !Truthy(ValueFor(record, mappings, PdfInputName))
    ensures r.Failed? <==> !r.NotStarted? && (InputId(record, mappings).None? || load(InputId(record, mappings).value).None?)
    ensures r.PreviewFailed? || r.Done? ==>
              && InputId(record, mappings).Some?
              && load(InputId(record, mappings).value).Some?
              && r.complete == FillEntries(load(InputId(record, mappings).value).value, table, record, mappings, fetch).doc
    ensures r.PreviewFailed? ==> |r.complete.pages| == 0
    ensures r.Done? ==> |r.preview.pages| == 1 && |r.complete.pages| > 0 && r.preview.pages[0] == r.complete.pages[0]
                        && r.preview.form == map[]
  {
    if !Mapped(mappings, PdfInputName) || !Truthy(ValueFor(record, mappings, PdfInputName)) then NotStarted
    else match InputId(record, mappings)
      case None => Failed
      case Some(id) =>
        match load(id)
        case None => Failed
        case Some(template) =>
          var filled := FillEntries(template, table, record, mappings, fetch).doc;
          match FirstPagePreview(filled)
          case None => PreviewFailed(filled)
          case Some(preview) => Done(filled, preview)
  }

  /** `loadPdf` of the expense-report widget. */
  function LoadPdf(record: Record, mappings: ColumnMap, load: DocumentFetch, fetch: ImageFetch): Outcome
  {
    LoadPdfWith(Table(), record, mappings, load, fetch)
  }

  /** `savePdf`: needs filled bytes and data; uploads into `pdf_output` with prefix "expense_filled". */
  function SavePdf(complete: Option<Document>, hasData: bool): (r: Option<SaveRequest>)
    ensures r.Some? <==> complete.Some? && hasData
    ensures r.Some? ==> r.value == SaveRequest(complete.value, PdfOutputName, "expense_filled")
  {
    if complete.None? || !hasData then None else Some(SaveRequest(complete.value, PdfOutputName, "expense_filled"))
  }
}
