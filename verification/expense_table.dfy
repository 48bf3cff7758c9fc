/**
 * The expense-report mapping table: for each logical field, the column name it is read
 * from, its declared type, whether it is optional, and where it goes in the form.
 */
module ExpenseTable {
  import opened Wrappers
  import Pdf

  /** The table's keys, in declaration order. */
  datatype Key =
    | DateHeureDepart | DateHeureArrivee | Nuitees | Repas
    | BilletMissione | TransportCommun | HotelMissione | AutresDepenses
    | Signature | SignatureDate | SignatureLieu | PdfInput | PdfOutput

  /** The `type` strings; the fill pass never reads them. */
  datatype ColumnType = DateTimeCol | IntCol | BoolCol | TextCol | DateCol | AttachmentsCol

  /**
   * The `form_field` shapes: one field name; `{date, time}` (a missing key is None);
   * `{Autre, Precision}`; `{x, y, maxHeight}`; or `null`.
   */
  datatype FormField =
    | Target(name: string)
    | DateAndTime(date: Option<string>, time: Option<string>)
    | OtherAndDetail(other: string, precision: string)
    | ImagePlacement(at: Pdf.Placement)
    | NoField

  datatype Entry = Entry(key: Key, name: string, title: string, colType: ColumnType,
                         optional: bool, formField: FormField)

  /** `typeof fieldMapping === "object" && fieldMapping !== null`. */
  predicate IsObject(ff: FormField)
  {
    ff.DateAndTime? || ff.OtherAndDetail? || ff.ImagePlacement?
  }

  predicate IsCheckboxKey(k: Key)
  {
    k == BilletMissione || k == TransportCommun || k == HotelMissione
  }

  /** A composite sub-target that is present and truthy. */
  function Half(t: Option<string>): set<string>
  {
    if t.Some? && t.value != "" then {t.value} else {}
  }

  /** The form field names an entry can write to. */
  function Targets(ff: FormField): set<string>
  {
    match ff
    case Target(n) => {n}
    case DateAndTime(d, t) => Half(d) + Half(t)
    case OtherAndDetail(o, p) => {o, p}
    case ImagePlacement(_) => {}
    case NoField => {}
  }

  /** The descriptor shape each key's branch of the fill pass expects. */
  predicate WellShaped(e: Entry)
  {
    match e.key
    case DateHeureDepart => e.formField.DateAndTime? && Half(e.formField.date) !! Half(e.formField.time)
    case DateHeureArrivee => e.formField.DateAndTime? && Half(e.formField.date) !! Half(e.formField.time)
    case AutresDepenses => e.formField.OtherAndDetail? && e.formField.other != e.formField.precision
    case Signature => e.formField.ImagePlacement?
    case PdfInput => e.formField.NoField?
    case PdfOutput => e.formField.NoField?
    case _ => e.formField.Target?
  }

  /** Every entry is well shaped and no two entries write to the same form field. */
  predicate WellFormed(t: seq<Entry>)
  {
    && (forall i :: 0 <= i < |t| ==> WellShaped(t[i]))
    && (forall i, j :: 0 <= i < j < |t| ==> Targets(t[i].formField) !! Targets(t[j].formField))
  }

  function Names(t: seq<Entry>): (r: seq<string>)
    ensures |r| == |t| && forall i :: 0 <= i < |t| ==> r[i] == t[i].name
  {
    if |t| == 0 then [] else [t[0].name] + Names(t[1..])
  }

  /** The column names of the input and output documents. */
  const PdfInputName := "pdf_input"
  const PdfOutputName := "pdf_output"

  /** `COLUMN_MAPPING_NAMES` of the expense-report widget. */
  function Table(): (t: seq<Entry>)
    ensures |t| == 13
  {
    [ Entry(DateHeureDepart, "date_heure_depart", "Date et heure de départ", DateTimeCol, true,
            DateAndTime(Some("date départ étape 3"), Some("heure départ étape 4"))),
      Entry(DateHeureArrivee, "date_heure_arrivee", "Date et heure d'arrivée", DateTimeCol, true,
            DateAndTime(Some("date arrivée étape 3"), Some("heure arrivée étape 4"))),
      Entry(Nuitees, "nuitees", "Nombre de nuitées", IntCol, true, Target("nuité gratuite")),
      Entry(Repas, "repas", "Nombre de repas", IntCol, true, Target("repas gratuit")),
      Entry(BilletMissione, "billet_missione", "Billet pris par le missionné", BoolCol, true,
            Target("Billet pris par le missionné")),
      Entry(TransportCommun, "transport_commun", "Ticket de transport en commun", BoolCol, true,
            Target("Ticket de transport en commun")),
      Entry(HotelMissione, "hotel_missione", "Hôtel à la charge du missionné", BoolCol, true,
            Target("Hôtel à la charge du missionné")),
      Entry(AutresDepenses, "autres_depenses", "Autres dépenses", TextCol, true,
            OtherAndDetail("Autres précisez", "précisez à 2")),
      Entry(Signature, "signature", "Signature", AttachmentsCol, true,
            ImagePlacement(Pdf.Placement(200.0, 50.0, 30.0))),
      Entry(SignatureDate, "signature_date", "Date de signature", DateCol, true, Target("le 2")),
      Entry(SignatureLieu, "signature_lieu", "Lieu de signature", TextCol, true, Target("Fait à 2")),
      Entry(PdfInput, PdfInputName, "Ordre de mission signé manager (fichier)", AttachmentsCol, false, NoField),
      Entry(PdfOutput, PdfOutputName, "État de frais final (fichier)", AttachmentsCol, false, NoField)
    ]
  }

  /** The `name`s are pairwise distinct, so each logical column is looked up once. */
  lemma NamesDistinct()
    ensures forall i, j :: 0 <= i < j < |Table()| ==> Table()[i].name != Table()[j].name
  {
  }

  /** Every key's descriptor has the shape that key's branch expects. */
  lemma TableWellShaped()
    ensures forall i :: 0 <= i < |Table()| ==> WellShaped(Table()[i])
  {
  }

  /** No two entries write to the same form field. */
  lemma TargetsDisjoint()
    ensures forall i, j :: 0 <= i < j < |Table()| ==> Targets(Table()[i].formField) !! Targets(Table()[j].formField)
  {
  }

  lemma TableWellFormed()
    ensures WellFormed(Table())
  {
    TableWellShaped();
    TargetsDisjoint();
  }

  /** Only the input and output documents are required, and neither has a form target. */
  lemma OnlyDocumentsRequired()
    ensures forall i :: 0 <= i < |Table()| ==> (!Table()[i].optional <==> Table()[i].key in {PdfInput, PdfOutput})
    ensures forall i :: 0 <= i < |Table()| && !Table()[i].optional ==> Table()[i].formField.NoField?
  {
  }

  /** Both DateTime entries name a date target and a time target. */
  lemma DateTimeEntriesComposite()
    ensures forall i :: 0 <= i < |Table()| && Table()[i].colType == DateTimeCol ==>
              && Table()[i].formField.DateAndTime?
              && Half(Table()[i].formField.date) != {}
              && Half(Table()[i].formField.time) != {}
  {
  }

  /** The Bool, Int, Date and plain Text entries have a single-string descriptor. */
  lemma SingleStringDescriptors()
    ensures forall i :: 0 <= i < |Table()| && Table()[i].colType in {IntCol, BoolCol, DateCol} ==>
              Table()[i].formField.Target?
    ensures forall i :: 0 <= i < |Table()| && Table()[i].colType == TextCol && Table()[i].key != AutresDepenses ==>
              Table()[i].formField.Target?
  {
  }

  /** The "other expenses" entry has both its `Autre` and `Precision` targets. */
  lemma OtherExpensesComposite()
    ensures Table()[7].key == AutresDepenses
    ensures Table()[7].formField == OtherAndDetail("Autres précisez", "précisez à 2")
  {
  }

  /** Entry 8, read from column "signature", is the only one under the SIGNATURE key. */
  lemma SingleSignatureEntry()
    ensures Table()[8].key == Signature && Table()[8].name == "signature"
    ensures forall i :: 0 <= i < |Table()| && i != 8 ==> Table()[i].key != Signature
  {
  }

  /** A table with no column mapped to `null` has neither the input nor the output document mapped to `null`. */
  lemma ReadyMapsDocuments(mappings: map<string, Option<string>>)
    requires forall i :: 0 <= i < |Table()| ==> !(Table()[i].name in mappings && mappings[Table()[i].name].None?)
    ensures !(PdfInputName in mappings && mappings[PdfInputName].None?)
    ensures !(PdfOutputName in mappings && mappings[PdfOutputName].None?)
  {
    assert Table()[11].name == PdfInputName && Table()[12].name == PdfOutputName;
  }

  /** The signature is placed at (200, 50), 30 high. */
  lemma SignatureGeometry()
    ensures Table()[8].key == Signature
    ensures Table()[8].formField == ImagePlacement(Pdf.Placement(200.0, 50.0, 30.0))
  {
  }
}
