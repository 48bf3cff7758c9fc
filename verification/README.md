# omFiller form-fill model

A Dafny model of the form-fill core of two omFiller spreadsheet widgets: the
agent expense-report generator and the manager signature widget.

Each widget takes one spreadsheet record and the widget's column mapping, and loads a
PDF stored as an attachment of the record. The expense widget fills the PDF's form from
a static mapping table and draws the agent's signature on page 0. The manager widget
only draws the manager's signature on page 0. Each keeps the resulting ("complete")
document for a later save, and derives a one-page preview from it. Saving uploads the
complete document into an output column.

- **values.dfy** models the loosely typed cell values (`Values.RawValue`) and the three
  JavaScript coercions the fill pass applies to them:
  - truthiness;
  - `String(value)`;
  - `Number(value)`, restricted to integers, with `None` standing for NaN.

  It also has the decimal rendering and its parser partner.
- **date_format.dfy** models the two fr-FR renderings the pass uses, `DD/MM/YYYY` and
  `HH:mm`. Each comes with a parser, and lemmas show that the rendered text reads back
  as the same date and time.
- **pdf.dfy** models a document abstractly:
  - a form is a map from field name to text field, check box or other field, and a
    missing name is a field `getFieldMaybe` does not find;
  - a document is that form plus pages, each page carrying the images drawn on it;
  - the module defines the two form writes (`setText`, `check`) after their
    `instanceof` tests, the aspect-preserving image placement, the page-0 overlay and
    the first-page preview;
  - `Pdf.ApplyPlan` applies a set of per-field writes at once and is the reference
    the fill pass is compared against.
- **grist.dfy** models the record and the column mapping. `record[mappings[name]]` is
  modelled literally: an unmapped name reads as `undefined` and a `null` mapping as
  `null`, and JavaScript turns both into the property keys `"undefined"` and `"null"`.
  The module also holds the readiness predicate shared by both widgets, and the save
  request.
- **expense_table.dfy** holds the expense widget's `COLUMN_MAPPING_NAMES` as a literal,
  with the 13 entries in declaration order, and lemmas about its shape.
- **expense_fill.dfy** models `loadPdf`:
  - `ExpenseFill.FillEntry` is the loop body. It dispatches on the table key with the
    code's own guards and fall-through.
  - `ExpenseFill.FillEntries` folds it over the table (`ExpenseFill.Fold`, a
    left-to-right pass threading the document), skips `PDF_OUTPUT`, and records each
    entry whose exception was caught.
  - An independent reference, `ExpenseFill.Plan`, states per descriptor shape which
    writes an entry is meant to make. `ExpenseFill.FillFollowsPlan` proves that, for
    every table whose entries are well shaped and write disjoint fields, the fold makes
    exactly the planned writes and nothing else. The expense table is shown to be such
    a table.
- **expense_fields.dfy** reads the plan theorem off the expense table one field at a
  time: what the fill leaves in the departure, nights, ticket, "other expenses" and
  signature fields. It also states the pass's page effect: the signature drawn at
  (200, 50), 30 high, on page 0, or the pages left as they were.
- **manager.dfy** models the manager flow:
  - the `hasEtatFrais` flag ("an expense report already exists");
  - the selection that this one flag drives: input column, signature geometry and
    output column;
  - signing on page 0, the preview, the save, and the readiness check over the
    widget's own column names.

Downloads are parameters: `load: int -> Option<Document>` and
`fetch: int -> Option<Png>`, where `None` means a failed download or decode. The
widget's end state is an `Outcome`, one of four:

- `NotStarted`: the guard failed.
- `Failed`: an exception reached the outer handler before the complete document was kept.
- `PreviewFailed`: the complete document was kept, and then building the preview threw,
  which also reaches the outer handler.
- `Done`: both the complete document and the preview exist.

In these places the model follows the code's literal behaviour:

- **Readiness** tests `mappings[name] !== null`. An absent mapping key therefore
  passes, and only an explicit `null` fails.
- **A template with no pages** still has its complete bytes stored before the preview
  throws at `copyPages(doc, [0])`. The model gives `PreviewFailed`, which keeps the
  complete document, rather than producing no document at all.
- **"Other expenses"** fires for every value except `""`, including `null` and
  `undefined`. It then writes `"null"` or `"undefined"`.
- **Manager signing** has no per-field handler. A failed signature download, or a
  missing page 0, aborts the whole preview (`Failed`).

## Model

| member | source | states |
|---|---|---|
| Values.Truthy | app/omFiller/agent-expense/page.tsx:226 | a value is falsy exactly when it is "", 0, false, `null` or `undefined`; Dates and arrays (even empty) are truthy |
| Values.ToText | app/omFiller/agent-expense/page.tsx:229 | `String(value)`: a string is itself, a number's text parses back to that number, booleans print "true"/"false", and `null`/`undefined` print their names |
| Values.ToNumber | app/omFiller/agent-expense/page.tsx:72-78 | `Number(value)`: a number is itself, a boolean is 1 or 0, `null`, "" and `[]` are 0, a one-element array is its element, and `undefined`, a Date or a longer array are NaN |
| Values.NatToDecimal | app/omFiller/agent-expense/page.tsx:229 | `String(n)` of a natural number is a non-empty digit string, has no leading zero, and reads back as n |
| Values.IntToStringRoundTrip | app/omFiller/agent-expense/page.tsx:229 | the text written for any integer parses back to that integer, negatives included |
| Values.NumberOfTextRoundTrip | app/omFiller/agent-expense/page.tsx:72-78 | `Number(String(n))` is n: an attachment id stored as text converts back to the same id |
| DateFormat.Pad2 | app/omFiller/agent-expense/page.tsx:108-112 | the 2-digit option prints exactly two digits whose value is the number |
| DateFormat.FormatDate | app/omFiller/agent-expense/page.tsx:107-112 | the date text is the 2-digit day, "/", the 2-digit month, "/", and the year's digits, at fixed positions |
| DateFormat.FormatTime | app/omFiller/agent-expense/page.tsx:114-119 | the time text is the 2-digit hour, ":", and the 2-digit minute, five characters in all |
| DateFormat.FormatDateRoundTrip | app/omFiller/agent-expense/page.tsx:107-112 | the date text has slashes at positions 2 and 5 and parses back to the same day, month and year |
| DateFormat.FormatTimeRoundTrip | app/omFiller/agent-expense/page.tsx:114-119 | the time text is five characters `HH:mm` on a 24-hour clock and parses back to the same hour and minute |
| DateFormat.FormatExample | app/omFiller/agent-expense/page.tsx:107-119 | 5 March 2024 at 14:30 is written "05/03/2024" and "14:30" |
| Pdf.Written | app/omFiller/agent-expense/page.tsx:124-126 | `setText` only reaches a text field and `check` only a check box; a field keeps its kind; a checked box is never cleared |
| Pdf.WriteField | app/omFiller/agent-expense/page.tsx:227-230 | a missing field name changes nothing; only the named field changes, and it changes as `Written` says |
| Pdf.ApplyPlan | app/omFiller/agent-expense/page.tsx:89-231 | applying planned writes keeps the field names, changes each planned field as its write says, and keeps every other field |
| Pdf.ApplyPlanCompose | app/omFiller/agent-expense/page.tsx:89-235 | writes to disjoint fields applied one after the other equal their union applied once, so entry order does not affect the form |
| Pdf.ScaledWidth | app/omFiller/agent-expense/page.tsx:189-190 | the width keeps the image's aspect ratio at height maxHeight (width × imgHeight = maxHeight × imgWidth) and is positive for a positive maxHeight |
| Pdf.ScaledWidthExample | app/omFiller/agent-expense/page.tsx:189-190 | a 200 by 100 image at maxHeight 30 is 60 wide |
| Pdf.PlacedDraw | app/omFiller/agent-expense/page.tsx:194-199 | the image is drawn at (x, y) with height maxHeight and aspect-preserving width |
| Pdf.DrawOnFirstPage | app/omFiller/agent-expense/page.tsx:192-199 | drawing fails exactly when there is no page 0; otherwise it appends one draw to page 0 and keeps the form, the page count and every other page |
| Pdf.FirstPagePreview | app/omFiller/agent-expense/page.tsx:50-55 | the preview exists exactly when there is a page 0; it has exactly one page, equal to page 0, and no form of its own |
| Grist.ColumnKey | app/omFiller/agent-expense/page.tsx:94-95 | the property key is the chosen column id, or "undefined" for an unmapped name and "null" for a `null` mapping |
| Grist.ValueFor | app/omFiller/agent-expense/page.tsx:94-95 | a mapped column present in the record gives that cell; a key missing from the record (unmapped, `null` or unknown column) gives `undefined` |
| Grist.MappingsIsReady | app/omFiller/agent-expense/page.tsx:300-304 | over any list of column names: ready exactly when none is mapped to `null` (an absent key passes) |
| ExpenseTable.Table | app/omFiller/agent-expense/constants.ts:1-106 | the table has the 13 entries of `COLUMN_MAPPING_NAMES`, in declaration order |
| ExpenseTable.NamesDistinct | app/omFiller/agent-expense/constants.ts:1-106 | the entry names are pairwise distinct |
| ExpenseTable.TableWellShaped | app/omFiller/agent-expense/constants.ts:1-106 | each key has the descriptor shape its branch of the fill pass expects |
| ExpenseTable.TargetsDisjoint | app/omFiller/agent-expense/constants.ts:1-106 | no two entries write to the same form field |
| ExpenseTable.TableWellFormed | app/omFiller/agent-expense/constants.ts:1-106 | the table meets the hypothesis of the plan theorem |
| ExpenseTable.OnlyDocumentsRequired | app/omFiller/agent-expense/constants.ts:92-105 | an entry is non-optional exactly when it is `PDF_INPUT` or `PDF_OUTPUT`, and those have a `null` descriptor |
| ExpenseTable.DateTimeEntriesComposite | app/omFiller/agent-expense/constants.ts:2-21 | both DateTime entries have a composite descriptor with a date target and a time target |
| ExpenseTable.SingleStringDescriptors | app/omFiller/agent-expense/constants.ts:22-91 | the Int, Bool and Date entries, and the Text entries other than "other expenses", have a single-string descriptor |
| ExpenseTable.OtherExpensesComposite | app/omFiller/agent-expense/constants.ts:57-66 | "other expenses" has both its `Autre` and `Precision` targets |
| ExpenseTable.SingleSignatureEntry | app/omFiller/agent-expense/constants.ts:67-77 | entry 8, read from column "signature", is the only entry under the SIGNATURE key |
| ExpenseTable.ReadyMapsDocuments | app/omFiller/agent-expense/constants.ts:92-105 | when no table column is mapped to `null`, neither `pdf_input` nor `pdf_output` is |
| ExpenseTable.SignatureGeometry | app/omFiller/agent-expense/constants.ts:67-77 | the signature goes at (200, 50), 30 high |
| ExpenseFill.FillDateTime | app/omFiller/agent-expense/page.tsx:121-135 | the date/time writes only touch the descriptor's present halves, keep field kinds and never clear a box |
| ExpenseFill.FillSignature | app/omFiller/agent-expense/page.tsx:177-202 | with a placement, the entry throws exactly when the list is empty, the download fails or there is no page 0; otherwise page 0 gets the first id's image at the placement; a thrown entry changes nothing; the form is never touched |
| ExpenseFill.FillOther | app/omFiller/agent-expense/page.tsx:212-222 | ticking `Autre` and writing `Precision` touches only those two fields |
| ExpenseFill.FillOtherAndText | app/omFiller/agent-expense/page.tsx:204-231 | the "other expenses" and plain-text branches touch only the entry's own targets |
| ExpenseFill.FillEntry | app/omFiller/agent-expense/page.tsx:97-231 | one entry only touches its own targets, keeps field kinds and checked boxes, only the signature key touches pages or throws, and a throwing entry leaves the document as it was; under the signature key an array value runs the signature branch and any other value leaves the pages alone without throwing |
| ExpenseFill.Visit | app/omFiller/agent-expense/page.tsx:90-234 | one loop iteration: `PDF_OUTPUT` is skipped; any other entry runs its branch, and a caught exception reports the entry's column name |
| ExpenseFill.FillEntries | app/omFiller/agent-expense/page.tsx:89-235 | the loop over the table in order, threading the document and collecting the reported column names |
| ExpenseFill.FillEntriesEvolves | app/omFiller/agent-expense/page.tsx:89-235 | the whole loop keeps field names and kinds, never clears a box, leaves untargeted fields alone, only adds images to page 0, and reports only signature entries as failed |
| ExpenseFill.FoldAppend | app/omFiller/agent-expense/page.tsx:89-95 | a left-to-right pass over `a + b` is the pass over `a` followed by the pass over `b` from where it ended, with the warnings concatenated |
| ExpenseFill.FillEntriesAppend | app/omFiller/agent-expense/page.tsx:89-95 | entries are processed left to right in table order: filling `a + b` is filling `a`, then `b` on its result, with the warnings concatenated |
| ExpenseFill.PagesWithoutSignature | app/omFiller/agent-expense/page.tsx:97-234 | entries under keys other than SIGNATURE leave the pages as they were and report nothing |
| ExpenseFill.FillSignatureOnPages | app/omFiller/agent-expense/page.tsx:177-200 | the signature branch reads only the pages of the document it draws on |
| ExpenseFill.OneSignature | app/omFiller/agent-expense/page.tsx:89-235 | with a single signature entry, the pages after the loop are what that entry's branch makes of the template's pages, and it is the only entry ever reported |
| ExpenseFill.PdfOutputSkipped | app/omFiller/agent-expense/page.tsx:89-90 | the `PDF_OUTPUT` entry neither writes nor is reported, wherever it stands |
| ExpenseFill.RaisedEntryAbsorbed | app/omFiller/agent-expense/page.tsx:97-234 | an entry whose exception is caught changes nothing, is reported, and the later entries still run |
| ExpenseFill.Plan | app/omFiller/agent-expense/page.tsx:97-231 | an entry's planned writes stay within its own descriptor's targets |
| ExpenseFill.PlanOf | app/omFiller/agent-expense/page.tsx:89-90 | the table's planned writes stay within the table's targets |
| ExpenseFill.DateTimeFollowsPlan | app/omFiller/agent-expense/page.tsx:99-138 | a Date writes DD/MM/YYYY and HH:mm into the present halves and a non-Date writes nothing, exactly as planned |
| ExpenseFill.TargetFollowsPlan | app/omFiller/agent-expense/page.tsx:140-231 | the check-box, signature-date and plain-text branches make exactly the planned single-field write |
| ExpenseFill.OtherFollowsPlan | app/omFiller/agent-expense/page.tsx:204-231 | "other expenses" makes exactly its planned tick and text write |
| ExpenseFill.EntryFollowsPlan | app/omFiller/agent-expense/page.tsx:97-231 | for a well-shaped entry, the key-dispatching loop body makes exactly the planned writes |
| ExpenseFill.FillFollowsPlan | app/omFiller/agent-expense/page.tsx:89-235 | for a well-formed table, the form after the loop is the template's form with exactly the table's planned writes |
| ExpenseFill.TableFillFollowsPlan | app/omFiller/agent-expense/page.tsx:85-235 | the expense table's fill makes exactly its planned writes |
| ExpenseFill.PlanOfAt | app/omFiller/agent-expense/page.tsx:89-235 | in a well-formed table, the combined plan at a field is the plan of the one entry targeting it |
| ExpenseFill.FieldResult | app/omFiller/agent-expense/page.tsx:89-235 | each field ends up as its own entry alone would leave it, whatever the other entries do |
| ExpenseFields.TableFieldResult | app/omFiller/agent-expense/page.tsx:89-235 | on the expense table, each target field ends up as its own entry's plan alone would leave it |
| ExpenseFields.DepartureFields | app/omFiller/agent-expense/constants.ts:2-11 | the departure entry reads `date_heure_depart`, and for a Date plans DD/MM/YYYY for its date field and HH:mm for its time field |
| ExpenseFields.NightsField | app/omFiller/agent-expense/constants.ts:22-28 | the nights entry reads `nuitees` and plans nothing for a falsy value |
| ExpenseFields.TicketField | app/omFiller/agent-expense/constants.ts:36-42 | the ticket entry reads `billet_missione` and plans a tick exactly for `true` |
| ExpenseFields.OtherBoxField | app/omFiller/agent-expense/constants.ts:57-66 | the "other expenses" entry reads `autres_depenses` and plans a tick of `Autre` for every value but "" |
| ExpenseFields.OtherDetailField | app/omFiller/agent-expense/constants.ts:57-66 | the "other expenses" entry plans `String(value)` for `Precision` for every value but "" |
| ExpenseFields.SignatureDateField | app/omFiller/agent-expense/constants.ts:78-84 | the signature-date entry reads `signature_date` and plans DD/MM/YYYY for a Date, the string form of any other truthy value, and nothing otherwise |
| ExpenseFields.SignaturePlaceField | app/omFiller/agent-expense/constants.ts:85-91 | the signature-place entry reads `signature_lieu` and plans its string form exactly for a truthy value |
| ExpenseFields.ZeroNightsNotWritten | app/omFiller/agent-expense/page.tsx:226-231 | a night count of 0 is falsy and leaves its field as in the template |
| ExpenseFields.OtherExpensesBox | app/omFiller/agent-expense/page.tsx:204-216 | after the fill, `Autre` is ticked when the value is anything but "", and is as in the template otherwise |
| ExpenseFields.OtherExpensesDetail | app/omFiller/agent-expense/page.tsx:204-222 | after the fill, `Precision` holds `String(value)` when the value is anything but "", and is as in the template otherwise |
| ExpenseFields.NullOtherExpensesWritten | app/omFiller/agent-expense/page.tsx:204-223 | a `null` "other expenses" value ticks `Autre` and writes "null" into `Precision` |
| ExpenseFields.TicketBoxOnlyForTrue | app/omFiller/agent-expense/page.tsx:160-174 | the ticket box is checked afterwards exactly when it was checked before or the value is `true` |
| ExpenseFields.DepartureDateAndTime | app/omFiller/agent-expense/page.tsx:99-138 | a departure Date writes its DD/MM/YYYY text into the date field and its HH:mm text into the time field |
| ExpenseFields.SignatureDateWritten | app/omFiller/agent-expense/page.tsx:140-157 | the signature date gets DD/MM/YYYY for a Date, the string form of any other truthy value, and is untouched otherwise |
| ExpenseFields.SignaturePlaceWritten | app/omFiller/agent-expense/page.tsx:226-231 | the place of signature gets `String(value)` exactly when the value is truthy |
| ExpenseFields.SignedPages | app/omFiller/agent-expense/page.tsx:177-200 | the pages as the signature entry is meant to leave them: same count, same contents, only page 0's draws extended |
| ExpenseFields.SignatureStep | app/omFiller/agent-expense/page.tsx:177-200 | at the table's placement, the signature branch draws the first image on page 0 with height 30 and proportional width when the list is non-empty, its image loads and page 0 exists, and throws otherwise |
| ExpenseFields.SignatureDrawn | app/omFiller/agent-expense/page.tsx:89-235 | on the expense table, the pass leaves the pages exactly as the signature entry is meant to, and reports "signature" exactly when its value is an array whose draw fails |
| ExpenseFields.TableFill | app/omFiller/agent-expense/page.tsx:89-235 | the expense table's fill makes exactly the planned form writes and draws the signature as planned |
| ExpenseFields.LoadPdfResult | app/omFiller/agent-expense/page.tsx:82-246 | a kept document is the template with the planned form writes and the signature drawn as planned, and the preview is missing exactly when the template has no pages |
| ExpenseFill.MappingsIsReady | app/omFiller/agent-expense/page.tsx:300-304 | the expense widget is ready exactly when no entry's column name is mapped to `null` |
| ExpenseFill.LoadPdfWith | app/omFiller/agent-expense/page.tsx:57-246 | nothing starts exactly when `pdf_input` is unmapped or its value falsy; the pass fails exactly when the id is NaN or the load fails; otherwise the complete document is the filled template, and the preview has one page equal to its page 0 |
| ExpenseFill.SavePdf | app/omFiller/agent-expense/page.tsx:259-269 | a save happens exactly when there are complete bytes and data, and uploads them to `pdf_output` with prefix "expense_filled" |
| ManagerSign.HasEtatFrais | app/omFiller/manager/page.tsx:44-51 | the flag is the truthiness of the record's cell in the mapped `PDF_EF_INPUT` column, and false when there is no such cell |
| ManagerSign.InputColumn | app/omFiller/manager/page.tsx:63-65 | the input column: `PDF_EF_INPUT` when the flag is set, `PDF_INPUT` otherwise |
| ManagerSign.ChosenPlacement | app/omFiller/manager/page.tsx:88-90 | the signature placement: the alternate one when the flag is set, the default one otherwise |
| ManagerSign.OutputColumn | app/omFiller/manager/page.tsx:147-149 | the output column: `PDF_EF_OUTPUT` when the flag is set, `PDF_OUTPUT` otherwise |
| ManagerSign.FlagSelectsTogether | app/omFiller/manager/page.tsx:63-90 | the flag picks the input, the signature geometry and the output together: EF input, alternate and EF output, or plain input, default and plain output |
| ManagerSign.Sign | app/omFiller/manager/page.tsx:85-114 | without a signature descriptor the document is unchanged; with one, signing succeeds exactly when the id converts, the image loads and page 0 exists, and then page 0 gets the image at the flag's geometry; the form is kept |
| ManagerSign.PreviewFirstPage | app/omFiller/manager/page.tsx:57-140 | nothing starts exactly when the chosen input is unmapped; the flow fails exactly when the id is NaN, the load fails or signing fails; a kept document is the signed input, with page 0's draws extended by exactly the signature image at the chosen placement and proportional width; a preview has one page equal to page 0 |
| ManagerSign.PreviewShowsSignature | app/omFiller/manager/page.tsx:83-128 | with a SIGNATURE descriptor, every run past the guard and the handler ends with a preview, whose one page ends with the signature drawn at the chosen placement |
| ManagerSign.MappingsIsReady | app/omFiller/manager/page.tsx:184-188 | the manager widget is ready exactly when none of its column names is mapped to `null` |
| ManagerSign.SavePdf | app/omFiller/manager/page.tsx:142-156 | a save happens exactly when there are complete bytes and data; it goes to the EF output when the flag is set and to the plain output otherwise, with prefix "signed" |
| ManagerSign.SavedWhereItCameFrom | app/omFiller/manager/page.tsx:147-156 | a document signed from the chosen input is saved to the output keyed by the same flag |

## Left out

- React state, rendering, feedback timers and object-URL handling are UI and are not modelled. Neither are `grist.ready` and the `onRecord` subscription, which are host event plumbing; the record and mapping are parameters.
- `downloadAttachment` (app/omFiller/attachments.ts) is network I/O. It becomes the `load` and `fetch` parameters, which return a document or image or fail.
- `savePdfToGrist` (app/omFiller/pdfStorage.ts) is upload-then-link I/O with a clock-derived file name. It is reduced to the `Grist.SaveRequest` it is given. Its own check that the output column is mapped, and the save's error handling, are not modelled.
- pdf-lib internals are not modelled: `PDFDocument.load`/`save`, `embedPng` decoding and byte serialisation. A saved-then-reloaded document is taken to be the document itself.
- The locale and time zone of `toLocaleDateString`/`toLocaleTimeString` are taken as given: a Date arrives as its local components. `String(date)`, which depends on the time zone, is carried as given text.
- Values.ToNumber: models `Number()` on integers only. A string converts only when it is plain optionally-negative decimal digits; `Number()` also accepts surrounding white space, a leading "+", hexadecimal, octal and binary prefixes and exponents (" 7", "+7", "0x7", "7e0" all give 7), which the model treats as NaN. A Date is treated as NaN, where JavaScript gives its timestamp. Non-integer numbers are not modelled. The widgets only convert attachment ids.
- Values.NatToDecimal: prints every integer in plain digits; JavaScript prints integers of 10^21 and above in exponent form ("1e+21").
- Values.RawValue: a numeric cell holds an integer; fractional numbers and floating-point precision of cell values are not modelled.
- ExpenseFill.LoadPdfWith: a NaN id is taken to fail the download. The code does not test for NaN and calls `downloadAttachment(NaN)`; that this fails is an assumption about the server.
- ManagerSign.Sign: a NaN signature id is taken to fail the download, as for the document id; the code passes it to `downloadAttachment` unchecked.
- ManagerSign.PreviewFirstPage: a NaN input id is taken to fail the download, as above.
- Pdf.FirstPagePreview: the preview has no form of its own. The widget annotations `copyPages` carries over show page 0's filled values as part of the page, and the page's content is opaque here, so what the preview displays of the form is not modelled.
- Image geometry (positions, heights, widths) is modelled as Dafny `real` rather than floating point, and an image's size as positive integers.
- `setText` length limits and appearance regeneration are not modelled.
- ExpenseFill.FillSignature: a descriptor under `SIGNATURE` that is an object but not a placement is modelled as throwing. In the code, destructuring `null` throws, but another object would draw with undefined geometry. The expense table has a placement there, so this never arises for it. An empty list gives `Number(undefined)`, NaN, which is taken to fail the download.
- The manager widget's mapping table (app/omFiller/manager/constants.ts) is not part of this model. `ManagerSign.ManagerTable` stands for its column names and its SIGNATURE descriptor, which is a pair of placements.
- The `if (!gristData)` guards and the "no record" screen are not modelled. The flows are modelled as invoked with a record and a mapping.
- app/geocode/SpecificProcessing.tsx and app/codeInsee/Configuration.tsx are UI composition and are not modelled.
