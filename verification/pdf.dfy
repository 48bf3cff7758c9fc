/**
 * An abstract PDF document: a form (field name to field) and a sequence of pages, each
 * with the images drawn on it. Loading, saving and image decoding are not modelled;
 * this module gives the few operations the widgets perform on a loaded document.
 */
module Pdf {
  import opened Wrappers

  /** A form field as `getFieldMaybe` finds it: a text field, a check box, or any other kind. */
  datatype Field = TextField(text: string) | CheckBox(checked: bool) | OtherField

  /** A missing name is a field `getFieldMaybe` does not find. */
  type Form = map<string, Field>

  /** One `drawImage` call: which attachment, where, and how large. */
  datatype Draw = Draw(image: int, x: real, y: real, width: real, height: real)

  /** A page: its original content (opaque) and the images drawn over it, oldest first. */
  datatype Page = Page(content: nat, draws: seq<Draw>)

  datatype Document = Document(form: Form, pages: seq<Page>)

  type Pos = n: int | n > 0 witness 1

  /** A decoded PNG: its natural size in pixels, never zero. */
  datatype Png = Png(width: Pos, height: Pos)

  /** An image placement descriptor `{x, y, maxHeight}`. */
  datatype Placement = Placement(x: real, y: real, maxHeight: real)

  /** The two form mutations the fill pass performs: `setText` and `check`. */
  datatype Write = Put(text: string) | Tick

  predicate SameKind(a: Field, b: Field)
  {
    (a.TextField? && b.TextField?) || (a.CheckBox? && b.CheckBox?) || (a.OtherField? && b.OtherField?)
  }

  /**
   * A write applied to a field after the `instanceof` test: text only reaches a text
   * field, a tick only a check box, and a tick never clears a box.
   */
  function Written(field: Field, w: Write): (r: Field)
    ensures SameKind(field, r)
    ensures field == CheckBox(true) ==> r == field
    ensures w.Put? && field.TextField? ==> r.text == w.text
    ensures w.Tick? && field.CheckBox? ==> r.checked
    ensures (w.Put? && !field.TextField?) || (w.Tick? && !field.CheckBox?) ==> r == field
  {
    match w
    case Put(t) => if field.TextField? then TextField(t) else field
    case Tick => if field.CheckBox? then CheckBox(true) else field
  }

  /** Looks a field up by name and applies one write to it; a missing name changes nothing. */
  function WriteField(form: Form, name: string, w: Write): (r: Form)
    ensures r.Keys == form.Keys
    ensures FormEvolves(form, r)
    ensures name in form ==> r[name] == Written(form[name], w)
    ensures forall f :: f in form && f != name ==> r[f] == form[f]
  {
    if name in form then form[name := Written(form[name], w)] else form
  }

  /** Applies a set of writes (field name to write) to a form; every other field is kept. */
  function ApplyPlan(form: Form, plan: map<string, Write>): (r: Form)
    ensures r.Keys == form.Keys
    ensures forall f :: f in form ==> r[f] == (if f in plan then Written(form[f], plan[f]) else form[f])
  {
    map f | f in form :: if f in plan then Written(form[f], plan[f]) else form[f]
  }

  /** Two plans over different fields applied one after the other are their union applied once. */
  lemma ApplyPlanCompose(form: Form, p: map<string, Write>, q: map<string, Write>)
    requires p.Keys !! q.Keys
    ensures ApplyPlan(ApplyPlan(form, p), q) == ApplyPlan(form, p + q)
  {
    var left, right := ApplyPlan(ApplyPlan(form, p), q), ApplyPlan(form, p + q);
    forall f | f in form
      ensures left[f] == right[f]
    {
      if f in q {
        assert f !in p;
      }
    }
  }

  lemma ApplyNothing(form: Form)
    ensures ApplyPlan(form, map[]) == form
  {
  }

  /** A one-field plan is a single lookup-and-write. */
  lemma ApplyOne(form: Form, name: string, w: Write)
    ensures ApplyPlan(form, map[name := w]) == WriteField(form, name, w)
  {
  }

  /** A two-field plan is two lookup-and-writes, in either order. */
  lemma ApplyTwo(form: Form, a: string, wa: Write, b: string, wb: Write)
    requires a != b
    ensures ApplyPlan(form, map[a := wa, b := wb]) == WriteField(WriteField(form, a, wa), b, wb)
  {
    ApplyOne(form, a, wa);
    ApplyOne(WriteField(form, a, wa), b, wb);
    ApplyPlanCompose(form, map[a := wa], map[b := wb]);
    assert map[a := wa] + map[b := wb] == map[a := wa, b := wb];
  }

  /**
   * The form after a pass relates to the form before it: same field names, each field
   * keeps its kind, and a checked box stays checked.
   */
  predicate FormEvolves(before: Form, after: Form)
  {
    && after.Keys == before.Keys
    && forall f :: f in before ==> SameKind(before[f], after[f]) && (before[f] == CheckBox(true) ==> after[f] == before[f])
  }

  lemma FormEvolvesTrans(a: Form, b: Form, c: Form)
    requires FormEvolves(a, b) && FormEvolves(b, c)
    ensures FormEvolves(a, c)
  {
  }

  /**
   * The width that keeps the image's aspect ratio at height maxHeight:
   * `maxHeight * (width / height)`.
   */
  function ScaledWidth(maxHeight: real, png: Png): (w: real)
    ensures w * (png.height as real) == maxHeight * (png.width as real)
    ensures maxHeight > 0.0 ==> w > 0.0
  {
    maxHeight * ((png.width as real) / (png.height as real))
  }

  /** A 200 by 100 image at maxHeight 30 is drawn 60 wide. */
  lemma ScaledWidthExample()
    ensures ScaledWidth(30.0, Png(200, 100)) == 60.0
  {
  }

  /** The draw of an image placed at `(x, y)` with height maxHeight and proportional width. */
  function PlacedDraw(image: int, at: Placement, png: Png): (d: Draw)
    ensures d.x == at.x && d.y == at.y && d.height == at.maxHeight
    ensures d.width * (png.height as real) == at.maxHeight * (png.width as real)
    ensures d.image == image
  {
    Draw(image, at.x, at.y, ScaledWidth(at.maxHeight, png), at.maxHeight)
  }

  /** `getPages()[0].drawImage(...)`; None when there is no page 0 (the call throws). */
  function DrawOnFirstPage(doc: Document, d: Draw): (r: Option<Document>)
    ensures r.None? <==> |doc.pages| == 0
    ensures r.Some? ==> r.value.form == doc.form && |r.value.pages| == |doc.pages|
    ensures r.Some? ==> r.value.pages[0] == Page(doc.pages[0].content, doc.pages[0].draws + [d])
    ensures r.Some? ==> forall i :: 1 <= i < |doc.pages| ==> r.value.pages[i] == doc.pages[i]
  {
    if |doc.pages| == 0 then None
    else
      var p := doc.pages[0];
      Some(Document(doc.form, [Page(p.content, p.draws + [d])] + doc.pages[1..]))
  }

  /**
   * Drawing only ever adds images to page 0: same page count, same page contents,
   * page 0's draws extended, later pages untouched.
   */
  predicate PagesGrow(before: seq<Page>, after: seq<Page>)
  {
    && |after| == |before|
    && (forall i :: 0 <= i < |before| ==> after[i].content == before[i].content)
    && (|before| > 0 ==> before[0].draws <= after[0].draws)
    && (forall i :: 1 <= i < |before| ==> after[i] == before[i])
  }

  lemma PagesGrowTrans(a: seq<Page>, b: seq<Page>, c: seq<Page>)
    requires PagesGrow(a, b) && PagesGrow(b, c)
    ensures PagesGrow(a, c)
  {
  }

  /**
   * The preview: a fresh document holding only a copy of page 0 (`copyPages(doc, [0])`).
   * The fresh document has no interactive form of its own; what page 0 shows travels
   * with the copied page. None when there is no page 0.
   */
  function FirstPagePreview(doc: Document): (r: Option<Document>)
    ensures r.None? <==> |doc.pages| == 0
    ensures r.Some? ==> |r.value.pages| == 1 && r.value.pages[0] == doc.pages[0]
    ensures r.Some? ==> r.value.form == map[]
  {
    if |doc.pages| == 0 then None else Some(Document(map[], [doc.pages[0]]))
  }

  /** Outcome of a fill or signing pass, as the widget's state ends up after it. */
  datatype Outcome =
    | NotStarted                                      // guard failed: nothing loaded, nothing written
    | Failed                                          // an exception reached the outer handler before saving
    | PreviewFailed(complete: Document)               // complete bytes kept, preview could not be built
    | Done(complete: Document, preview: Document)
}
