# Dentist prospecting pipeline — verified model

OrigemProspec is a small sales pipeline (CRM) for dental practices. Leads
("dentists") move through five stages:

- Prospecção (`Prospecting`)
- Contatado (`Contacted`)
- Negociação (`Negotiation`)
- Fechado (`Closed`)
- Perdido (`Lost`)

The dashboard holds the lead list. It adds, edits, deletes and moves leads.

The Kanban board shows the list in five stage columns. The columns sit under a search over name, city, state and specialty. Dragging a card to another column changes its stage. The board also counts the closed leads.

A form creates and edits one lead. A card shows one lead, with a WhatsApp link and an Instagram button.

A spreadsheet dialog imports leads from comma-separated text. Line 0 is the header. Header synonyms in Portuguese and English route each column to a lead attribute. Every imported lead starts in `Prospecting`, assigned to "Usuário Demo".

The model is in seven modules (one file each):

- `JsText` (`jstext.dfy`): the JavaScript string built-ins the code relies on.
  - `split` on one character, with its inverse `Join`.
  - `trim`, over the ECMAScript white-space and line-terminator characters.
  - ASCII `toLowerCase`/`toUpperCase` and `includes`.
  - The fallback `x || d`.
- `Seqs` (`seqs.dfy`): `Array.prototype.filter`, specified by order preservation (subsequence) and by exactly which elements are kept.
- `DentistCard` (`dentist_card.dfy`): the card's helpers, plus the shared vocabulary.
  - Vocabulary: the lead record as a `map<string, string>` (a missing key is `undefined`, and spread `{...a, ...b}` is `a + b`), the `Status` stages and the specialty codes.
  - Helpers: the status badge, the specialty label, the WhatsApp link and the Instagram guard.
- `SpreadsheetImport` (`spreadsheet_import.dfy`): the import pipeline.
  - The specification `Parse`, and the methods `ParseRows` and `BuildRow` with their loops.
  - `mapSpecialty`, the preview and the dialog's state (`ImportDialog`).
- `CRMDashboard` (`crm_dashboard.dfy`): the four list operations as functions, the sample state, and the `Dashboard` class that applies them to its `dentists` field.
- `KanbanBoard` (`kanban_board.dfy`): search, stage columns, the drop guard, the closed total, and the `Board` class with `showForm`/`editingDentist`.
- `DentistForm` (`dentist_form.dfy`): the option tables, the initial values, submission, and the `Form` class with `formData`.

External inputs become parameters:

- the current date (`today`, an ISO 8601 calendar date);
- `Date.now().toString()` (`freshId`);
- `encodeURIComponent` (`encode`).

### Where the code and its description differ

The parser fails only when `text.split('\n')` yields fewer than two pieces, that is when the text contains no line feed. Blank lines are not dropped before that test. So `"x\n"` and `"nome,telefone\n"` parse successfully to zero rows; they are not rejected as input without a data line. The model follows the code, as `SpreadsheetImport.ParseFailsIff` and `SpreadsheetImport.HeaderOnlyParsesToNoRows` state.

## Model

| member | source | states |
|---|---|---|
| JsText.Split | src/components/SpreadsheetImport.tsx:36 | `split` on one character never returns an empty array, no piece holds the separator, and joining the pieces with it gives back the text |
| JsText.SplitHasTwoPiecesIff | src/components/SpreadsheetImport.tsx:36-40 | the text splits into at least two pieces exactly when it contains the separator |
| JsText.Trim | src/components/SpreadsheetImport.tsx:46-47 | `trim` never lengthens the text, and its result neither starts nor ends with white space |
| JsText.TrimIsSlice | src/components/SpreadsheetImport.tsx:46-47 | `trim` returns a slice of the text with only white space cut from either end |
| JsText.TrimIdempotent | src/components/SpreadsheetImport.tsx:47 | trimming twice is trimming once |
| JsText.TrimEmptyIff | src/components/SpreadsheetImport.tsx:46 | a line trims to empty exactly when it is all white space |
| JsText.Lower | src/components/SpreadsheetImport.tsx:42 | `toLowerCase` keeps the length (its per-character mapping is `JsText.LowerAt`) |
| JsText.LowerAt | src/components/SpreadsheetImport.tsx:42 | lower-casing maps every character, position by position, through ASCII lower-case |
| JsText.LowerOfNoUpper | src/components/SpreadsheetImport.tsx:133 | a text without upper-case ASCII letters is its own lower case |
| JsText.Upper | src/components/SpreadsheetImport.tsx:79 | `toUpperCase` keeps the length (its per-character mapping is `JsText.UpperAt`) |
| JsText.UpperAt | src/components/SpreadsheetImport.tsx:79 | upper-casing maps every character, position by position, through ASCII upper-case |
| JsText.UpperIdempotent | src/components/SpreadsheetImport.tsx:79 | an upper-cased value has no lower-case ASCII letter, and upper-casing it again changes nothing |
| JsText.LowerTrimIdempotent | src/components/SpreadsheetImport.tsx:133 | lower-casing and trimming an already normalised value changes nothing |
| JsText.LowerIdempotent | src/components/KanbanBoard.tsx:35-38 | lower-casing twice is lower-casing once |
| JsText.Contains | src/components/KanbanBoard.tsx:35-38 | `includes` holds only for a needle no longer than the text, and always for a prefix of it |
| JsText.ContainsEmpty | src/components/KanbanBoard.tsx:35 | every string includes the empty string |
| Seqs.Filter | src/components/KanbanBoard.tsx:34-43 | `filter` keeps exactly the elements satisfying the predicate, in their order, and its length is the number of such elements |
| Seqs.FilterFilter | src/components/KanbanBoard.tsx:34-43 | filtering the filtered list by a second predicate is filtering the list once by both |
| Seqs.FilterConcat | src/pages/CRMDashboard.tsx:108 | filtering a concatenation is concatenating the filtered parts |
| DentistCard.StatusOfKey | src/components/DentistCard.tsx:15 | a status string names a stage exactly when it is that stage's key |
| DentistCard.StatusKeysRoundTrip | src/components/DentistCard.tsx:15 | every stage's key reads back as that stage |
| DentistCard.StatusLabel | src/components/DentistCard.tsx:28-34 | every one of the five stages has a non-empty badge label |
| DentistCard.StatusLabelsDistinct | src/components/DentistCard.tsx:28-34 | different stages have different labels |
| DentistCard.CardStatusLabel | src/components/DentistCard.tsx:47 | the badge has a label exactly when the lead's status is one of the five keys, and that label is the stage's label |
| DentistCard.SpecialtyDisplay | src/components/DentistCard.tsx:48 | the seven codes display their Portuguese label; any other specialty displays as itself |
| DentistCard.SpecialtyLabelsCoverCodes | src/components/DentistCard.tsx:36-44 | the translation table covers exactly the seven codes |
| DentistCard.SpecialtyLabelsDistinct | src/components/DentistCard.tsx:36-48 | no two codes display the same label |
| DentistCard.SpecialtyLabelsTranslate | src/components/DentistCard.tsx:36-48 | every code displays a label different from the code itself |
| DentistCard.Digits | src/components/DentistCard.tsx:52 | the extracted number contains only `0`-`9` and is no longer than the phone |
| DentistCard.DigitsKeepsEveryDigit | src/components/DentistCard.tsx:52 | the extraction is exactly the phone's digits, in order: the filter of the phone by "is a digit" |
| DentistCard.DigitsOfDigits | src/components/DentistCard.tsx:52 | a string that is all digits is left unchanged |
| DentistCard.DigitsIdempotent | src/components/DentistCard.tsx:52 | extracting the digits twice is extracting them once |
| DentistCard.GreetingMessage | src/components/DentistCard.tsx:51 | the greeting opens with "Olá Dr(a). " and closes with "! Tudo bem?", and between them is exactly the lead's name, or `undefined` when it has none |
| DentistCard.WhatsAppUrl | src/components/DentistCard.tsx:50-53 | there is a link exactly when the lead has a phone (otherwise `replace` throws); the link is the `wa.me/55` prefix, the digits, `?text=` and the encoded greeting |
| DentistCard.DialledNumberOfLink | src/components/DentistCard.tsx:52 | a link built from any string of digits and any message reads back that string as the dialled number |
| DentistCard.WhatsAppNumberRoundTrip | src/components/DentistCard.tsx:52 | the number read back from the link, between the prefix and `?`, is exactly the phone's digits, whatever the message encodes to |
| DentistCard.InstagramTarget | src/components/DentistCard.tsx:56-60 | the Instagram action opens something exactly when `instagram` is a non-empty string, and what it opens is that string |
| SpreadsheetImport.MapSpecialtyAsWritten | src/components/SpreadsheetImport.tsx:133-134 | the lookup as written yields a string for every text that does not normalise to an `Object.prototype` member name |
| SpreadsheetImport.MapSpecialtyAsWrittenOnPrototype | src/components/SpreadsheetImport.tsx:133-134 | a text that normalises to an `Object.prototype` member name reads that inherited member |
| SpreadsheetImport.MapSpecialtyAsWrittenLeaksPrototype | src/components/SpreadsheetImport.tsx:133-134 | the cell `constructor` yields the inherited `constructor`, not a specialty code |
| SpreadsheetImport.MapSpecialty | src/components/SpreadsheetImport.tsx:122-135 | the result is always one of the seven codes: the mapped code when the lower-cased, trimmed text is one of the seven Portuguese keys, and `Orthodontics` for anything else, `""` included |
| SpreadsheetImport.MapSpecialtyAgreesOffPrototype | src/components/SpreadsheetImport.tsx:133-134 | the corrected lookup agrees with the code as written on every text that does not normalise to a prototype member name |
| SpreadsheetImport.MapSpecialtyInsensitive | src/components/SpreadsheetImport.tsx:133 | the lookup ignores case and surrounding white space: normalising first changes nothing |
| SpreadsheetImport.NormalizeIdempotent | src/components/SpreadsheetImport.tsx:133 | normalising twice is normalising once |
| SpreadsheetImport.AttributeOf | src/components/SpreadsheetImport.tsx:54-92 | a synonym header routes to one of the eight lead attributes; any other header is stored under its own name |
| SpreadsheetImport.SynonymRouting | src/components/SpreadsheetImport.tsx:54-92 | each attribute receives a column exactly when the header is one of its synonyms (nome/name, telefone/phone/whatsapp, instagram, clinica/clinic/consultorio, cidade/city, estado/state/uf, especialidade/specialty, observacoes/notes/obs); any other header is stored under its own name |
| SpreadsheetImport.RoutedToIff | src/components/SpreadsheetImport.tsx:50-93 | a key is routed to by one of the first n headers exactly when some header among them has that attribute |
| SpreadsheetImport.ColumnKeysRouted | src/components/SpreadsheetImport.tsx:50-93 | after n headers the row has a key exactly when one of them routes to it, unless the key is `__proto__` |
| SpreadsheetImport.ColumnKeys | src/components/SpreadsheetImport.tsx:50-93 | a row has a key exactly when some header routes to it, unless the key is `__proto__` |
| SpreadsheetImport.LastColumnWins | src/components/SpreadsheetImport.tsx:50-93 | when several columns route to one attribute, the row holds the converted cell of the last of them |
| SpreadsheetImport.RowValue | src/components/SpreadsheetImport.tsx:50-99 | the pushed row holds column j's converted cell (or `""` past the end of the line), so cells beyond the header count are ignored |
| SpreadsheetImport.RowDefaults | src/components/SpreadsheetImport.tsx:96-97 | every row has status `Prospecting` and account manager "Usuário Demo", even when the file has columns with those names |
| SpreadsheetImport.RowAbsentKey | src/components/SpreadsheetImport.tsx:50-93 | an attribute no header routes to stays absent from the row; a missing specialty column is not defaulted |
| SpreadsheetImport.StateIsUpperCase | src/components/SpreadsheetImport.tsx:76-80 | the stored state is the upper-cased cell, and upper-casing it again changes nothing |
| SpreadsheetImport.SpecialtyIsCode | src/components/SpreadsheetImport.tsx:81-84 | a row's specialty, when present, is one of the seven codes |
| SpreadsheetImport.RowOf | src/components/SpreadsheetImport.tsx:48-99 | the row pushed for a line always has status `Prospecting` and account manager "Usuário Demo" |
| SpreadsheetImport.HeadersOf | src/components/SpreadsheetImport.tsx:42 | one header per comma-separated piece of line 0, each trimmed and lower-cased |
| SpreadsheetImport.CellsOf | src/components/SpreadsheetImport.tsx:47 | one cell per comma-separated piece of the line, each trimmed |
| SpreadsheetImport.RowsOfLines | src/components/SpreadsheetImport.tsx:45-99 | one row per line, in order, each built from that line's cells |
| SpreadsheetImport.Parse | src/components/SpreadsheetImport.tsx:36-101 | parsing fails exactly when the text holds no line feed; otherwise it yields as many rows as there are non-blank lines after line 0 |
| SpreadsheetImport.ParseFailsIff | src/components/SpreadsheetImport.tsx:36-40 | parsing fails exactly when the text contains no line feed |
| SpreadsheetImport.ParseRowCount | src/components/SpreadsheetImport.tsx:45-99 | the row count is the number of non-blank lines after line 0, and every row holds the two defaults |
| SpreadsheetImport.DataRowsSnoc | src/components/SpreadsheetImport.tsx:45-100 | one more line adds its row at the end when it is not blank, and nothing otherwise |
| SpreadsheetImport.HeaderOnlyParsesToNoRows | src/components/SpreadsheetImport.tsx:36-46 | a header line followed by one line feed succeeds with zero rows |
| SpreadsheetImport.OneDataLine | src/components/SpreadsheetImport.tsx:36-99 | a header line and one non-blank line parse to exactly that line's row |
| SpreadsheetImport.SetColumn | src/components/SpreadsheetImport.tsx:53-92 | one pass of the `switch` stores the converted cell under the header's attribute, and drops it for `__proto__` |
| SpreadsheetImport.BuildRow | src/components/SpreadsheetImport.tsx:48-97 | the `forEach` over the headers, then the defaults, builds the specified row |
| SpreadsheetImport.PushLine | src/components/SpreadsheetImport.tsx:46-100 | one pass of the line loop appends the line's row when the line is not blank, and nothing otherwise |
| SpreadsheetImport.DataRowsLoop | src/components/SpreadsheetImport.tsx:45-101 | the loop over lines 1 onwards yields one row per non-blank line, in order |
| SpreadsheetImport.ParseRows | src/components/SpreadsheetImport.tsx:36-101 | the line loop computes `Parse`: the error, or one row per non-blank line after the header, in order |
| SpreadsheetImport.PreviewLines | src/components/SpreadsheetImport.tsx:254-261 | one preview line per row, each showing name, phone, city and specialty or `-` |
| SpreadsheetImport.PreviewOf | src/components/SpreadsheetImport.tsx:238-266 | no preview for no rows; otherwise the first min(5, n) rows, and a "more" count exactly when n > 5, equal to n − 5 |
| SpreadsheetImport.ImportDialog.ParseFile | src/components/SpreadsheetImport.tsx:31-119 | on success the rows replace `parsedData` and the toast gives their count; on failure `parsedData` keeps its previous value; processing has ended either way, so the import button is then enabled exactly when there are rows |
| SpreadsheetImport.ImportDialog.HandleImport | src/components/SpreadsheetImport.tsx:137-153 | `onImport` is called exactly when `parsedData` is non-empty, with `parsedData` unchanged |
| SpreadsheetImport.ImportDialog.ImportEnabled | src/components/SpreadsheetImport.tsx:275 | an enabled import button implies there are parsed rows, so a click always gets past `handleImport`'s empty-data guard |
| SpreadsheetImport.ImportDialog.constructor | src/components/SpreadsheetImport.tsx:19-20 | the dialog starts with no parsed rows and not processing |
| CRMDashboard.Ids | src/pages/CRMDashboard.tsx:92 | the ids of the list, position by position |
| CRMDashboard.Added | src/pages/CRMDashboard.tsx:74-80 | add appends exactly one record at the end, under the fresh id and with the data's other fields; the earlier records are unchanged |
| CRMDashboard.AddKeepsIdsUnique | src/pages/CRMDashboard.tsx:74-80 | adding under an id no record has keeps the ids unique |
| CRMDashboard.Edited | src/pages/CRMDashboard.tsx:89-96 | edit keeps length and order; records whose id equals the data's id (both possibly `undefined`) become the record overlaid with the data; the others are unchanged |
| CRMDashboard.MergeFields | src/pages/CRMDashboard.tsx:93 | in a merged record the supplied fields win and the others are kept |
| CRMDashboard.EditNoMatchUnchanged | src/pages/CRMDashboard.tsx:89-96 | an edit whose id matches no record leaves the list unchanged |
| CRMDashboard.EditKeepsIds | src/pages/CRMDashboard.tsx:89-96 | an edit never changes any record's id |
| CRMDashboard.EditKeepsIdsUnique | src/pages/CRMDashboard.tsx:89-96 | an edit keeps the ids unique |
| CRMDashboard.EditIdempotent | src/pages/CRMDashboard.tsx:89-96 | applying the same edit twice is applying it once |
| CRMDashboard.Deleted | src/pages/CRMDashboard.tsx:105-108 | delete removes every record with that id, keeps every other record, and keeps their order |
| CRMDashboard.DeleteAbsentUnchanged | src/pages/CRMDashboard.tsx:105-108 | deleting an absent id leaves the list unchanged |
| CRMDashboard.DeleteRemovesOne | src/pages/CRMDashboard.tsx:105-108 | with unique ids, deleting the id of record j removes exactly record j |
| CRMDashboard.DeleteKeepsIdsUnique | src/pages/CRMDashboard.tsx:105-108 | delete keeps the ids unique |
| CRMDashboard.StatusChanged | src/pages/CRMDashboard.tsx:117-132 | status change keeps length and order and changes only the records with that id |
| CRMDashboard.WithStatus | src/pages/CRMDashboard.tsx:123-129 | the changed record has the new status; its date is today for any stage but `Prospecting` and kept for `Prospecting`; every other field is unchanged |
| CRMDashboard.WithStatusFields | src/pages/CRMDashboard.tsx:123-129 | a changed record has the new status; its date is today for any stage but `Prospecting`, overwriting an earlier date; for `Prospecting` its date is kept; every other field is unchanged |
| CRMDashboard.StatusChangeKeepsIds | src/pages/CRMDashboard.tsx:117-132 | a status change never changes an id |
| CRMDashboard.StatusChangeKeepsIdsUnique | src/pages/CRMDashboard.tsx:117-132 | a status change keeps the ids unique |
| CRMDashboard.SampleDentists | src/pages/CRMDashboard.tsx:8-63 | the four samples carry ids "1" to "4" and are in the first four stages, in order |
| CRMDashboard.SampleIdsUnique | src/pages/CRMDashboard.tsx:8-63 | every sample has an id and no two share one |
| CRMDashboard.SampleOneClosed | src/pages/CRMDashboard.tsx:8-63 | exactly one sample is `Closed` |
| CRMDashboard.Dashboard.constructor | src/pages/CRMDashboard.tsx:66 | the list starts empty |
| CRMDashboard.Dashboard.Mount | src/pages/CRMDashboard.tsx:69-72 | on mount the list becomes the samples, whose ids are unique |
| CRMDashboard.Dashboard.HandleAddDentist | src/pages/CRMDashboard.tsx:74-80 | the list becomes the add of the old list, and unique ids stay unique when the new id is fresh |
| CRMDashboard.Dashboard.HandleEditDentist | src/pages/CRMDashboard.tsx:89-96 | the list becomes the edit of the old list, and unique ids stay unique |
| CRMDashboard.Dashboard.HandleDeleteDentist | src/pages/CRMDashboard.tsx:105-108 | the list becomes the delete of the old list, and unique ids stay unique |
| CRMDashboard.Dashboard.HandleStatusChange | src/pages/CRMDashboard.tsx:117-132 | the list becomes the status change of the old list, and unique ids stay unique |
| KanbanBoard.StatusColumnsAreTheStages | src/components/KanbanBoard.tsx:20-26 | there is one column per stage, in stage order, headed with the stage's badge label |
| KanbanBoard.Filtered | src/components/KanbanBoard.tsx:34-39 | the search result is an order-preserving subsequence of the leads that keeps exactly the leads whose lower-cased name, city, state or specialty (`""` when missing) contains the lower-cased query, each as often as in the list |
| KanbanBoard.EmptyQueryKeepsAll | src/components/KanbanBoard.tsx:34-39 | an empty query keeps every lead |
| KanbanBoard.QueryCaseInsensitive | src/components/KanbanBoard.tsx:35-38 | a query matches exactly when its lower-cased form does |
| KanbanBoard.ByStatus | src/components/KanbanBoard.tsx:41-43 | a column holds exactly the leads with that status, in order, each as often as in the list |
| KanbanBoard.ByStatusCons | src/components/KanbanBoard.tsx:41-43 | a lead in front of the list lands at the head of its own column and in no other |
| KanbanBoard.UnionCons | src/components/KanbanBoard.tsx:141-142 | a lead in one of the stages shows in exactly one column |
| KanbanBoard.UnionConsAt | src/components/KanbanBoard.tsx:41-43 | a lead of stage s in front of the list adds one card, in the column of s, to the five columns |
| KanbanBoard.ColumnsPartition | src/components/KanbanBoard.tsx:20-43 | when every status is one of the five keys, the five columns together hold each lead exactly as often as the list does |
| KanbanBoard.FilteredColumnsPartition | src/components/KanbanBoard.tsx:34-43 | the same for the search result the board shows |
| KanbanBoard.HandleDrop | src/components/KanbanBoard.tsx:82-88 | a drop calls `onStatusChange(id, target)` exactly when the dragged lead's status differs from the target, and otherwise does nothing |
| KanbanBoard.DropOnOwnColumn | src/components/KanbanBoard.tsx:85 | dropping a card on its own column does nothing; dropping it on any other column asks for a move |
| KanbanBoard.DropMovesCard | src/components/KanbanBoard.tsx:82-88 | a move asked for by a drop, once the dashboard applies it, puts the card in the target column |
| KanbanBoard.TotalClosed | src/components/KanbanBoard.tsx:91 | the closed total counts the `Closed` leads and is at most the number of leads |
| KanbanBoard.TotalClosedIsClosedColumn | src/components/KanbanBoard.tsx:91 | with an empty search, the `Closed` column holds exactly the closed-total number of cards |
| KanbanBoard.Board.constructor | src/components/KanbanBoard.tsx:29-32 | the form is closed, nothing is being edited, and the query is empty |
| KanbanBoard.Board.OpenNewForm | src/components/KanbanBoard.tsx:129-131 | "Novo Dentista" opens the form and leaves the edited lead as it was |
| KanbanBoard.Board.HandleEdit | src/components/KanbanBoard.tsx:55-58 | editing a lead records it and opens the form |
| KanbanBoard.Board.HandleClose | src/components/KanbanBoard.tsx:60-63 | closing clears the edited lead and closes the form |
| KanbanBoard.Board.HandleSave | src/components/KanbanBoard.tsx:45-53 | save dispatches the data to edit exactly when a lead was being edited, otherwise to add; then the form is closed and nothing is being edited |
| KanbanBoard.Board.SetSearchQuery | src/components/KanbanBoard.tsx:114-119 | typing a query changes only the query |
| KanbanBoard.Board.Column | src/components/KanbanBoard.tsx:34-43 | a column on screen is the list filtered once by "in this stage and matching the current query": exactly those leads, in order, each as often as in the list |
| DentistForm.BrazilianStatesAreCodes | src/components/DentistForm.tsx:17-21 | the state options are 27 two-letter upper-case codes |
| DentistForm.BrazilianStatesDistinct | src/components/DentistForm.tsx:17-21 | no state is offered twice |
| DentistForm.StatusOptionsAreTheStages | src/components/DentistForm.tsx:33-39 | the status options are exactly the five stages, in board order |
| DentistForm.SpecialtyTablesAgreeWithCard | src/components/DentistForm.tsx:23-49 | the specialty options are exactly the seven codes, labelled as the card labels them |
| DentistForm.StatusLabelsAgreeWithCard | src/components/DentistForm.tsx:51-57 | the status label table has exactly the five keys and labels each stage as the card's badge does |
| DentistForm.InitialForm | src/components/DentistForm.tsx:60-72 | the initial form has exactly the eleven fields; each field is the lead's value when non-empty and `""` otherwise, except that status defaults to `Prospecting` and account manager to "Usuário Demo" |
| DentistForm.DataToSave | src/components/DentistForm.tsx:77-82 | the date becomes today exactly when the status is not `Prospecting` and no date was entered, and is kept otherwise; every other field passes through |
| DentistForm.Submit | src/components/DentistForm.tsx:74-89 | the date becomes today when the status is not `Prospecting` and no date was entered, and stays as entered otherwise; an edit keeps the lead's id and a new lead gets the fresh id; every other field passes through unchanged |
| DentistForm.SubmitUntouchedRoundTrip | src/components/DentistForm.tsx:60-89 | opening a complete lead and saving it untouched gives the lead back |
| DentistForm.EnteredDateKept | src/components/DentistForm.tsx:79-81 | a date the user entered is never replaced |
| DentistForm.EditFromFormChangesOnlyThatLead | src/components/DentistForm.tsx:84-85 | with unique ids, submitting an edit and applying it on the dashboard changes only the edited lead and keeps the ids unique |
| DentistForm.Form.constructor | src/components/DentistForm.tsx:60-72 | the form starts with the initial values for its lead |
| DentistForm.Form.HandleInputChange | src/components/DentistForm.tsx:91-93 | an input change sets that one field and leaves every other field as it was |
| DentistForm.Form.HandleSubmit | src/components/DentistForm.tsx:74-89 | the record handed to `onSave` is the submission of the current form data |

## Findings

| source | as written | input that shows it | evidently intended | confidence | as-written member | corrected member |
|---|---|---|---|---|---|---|
| src/components/SpreadsheetImport.tsx:133-134 | `specialtyMap[normalized]` also finds members inherited from `Object.prototype`; the lower-case ones, `constructor` and `__proto__`, are truthy and are returned in place of a code | a specialty cell `constructor` (or `Constructor`, which normalises to it) yields the `Object` function instead of a code | only the seven own keys map; any other text falls back to `Orthodontics` | not executed | SpreadsheetImport.MapSpecialtyAsWrittenLeaksPrototype | SpreadsheetImport.MapSpecialty |

The rest of the model uses the corrected `MapSpecialty`.

## Left out

- Rendering is not modelled: JSX, CSS classes, icons, toasts and modal visibility (`showImport`). The welcome modal is not part of this model.
- `await file.text()` is not modelled: parsing starts from a given string. `isProcessing` is a field of `ImportDialog`, but the asynchronous interval while it is `true` is left out, because `ParseFile` sets and clears it in one step.
- `setFile` and the file input are not modelled.
- The template download is not modelled: Blob, `URL.createObjectURL` and the DOM anchor are browser I/O.
- `window.open` is not modelled. The WhatsApp and Instagram actions are modelled as the link they would open.
- The drag `dataTransfer` JSON round trip is not modelled. `HandleDrop` receives the dragged record directly.
- `Date.now()` and `new Date().toISOString().split('T')[0]` become the `freshId` and `today` parameters.
- `encodeURIComponent` becomes the `encode` parameter. The WhatsApp link is proved for any encoding.
- The card's `toLocaleDateString` date display is not modelled; it is locale formatting.
- `conversionRate` is not modelled; it is floating point with `toFixed`.
- No "import merge" is modelled. The dashboard never passes `onImportDentists` to the board, so the board's `handleImport` calls an undefined prop and throws.
- JsText.Lower, JsText.Upper: map only the ASCII letters. JavaScript's full Unicode case mapping is out of scope.
- A character outside the basic multilingual plane is one Dafny `char` but two JavaScript UTF-16 code units. On well-formed text no modelled operation (`trim`, the ASCII case mappings, `split` on an ASCII separator, `includes`) gives a different answer for the two views; only a lone surrogate half, which a Dafny `char` cannot hold, would tell them apart.
- An own property holding `undefined` is folded into "absent". This happens with `last_contact_date` after a move to `Prospecting` on a lead without a date, and with `id` when editing a lead without one. No code in the program tells the two apart.
- CSV quoting (section 2 of RFC 4180) is not modelled, because the code splits on every comma.
- SpreadsheetImport.Convert: stores the corrected `MapSpecialty` for a specialty column, so `Parse`, `ParseRows`, `BuildRow`, `RowOf` and `SpecialtyIsCode` describe the corrected program. For a cell that normalises to `constructor` or `__proto__` the code as written stores an inherited `Object.prototype` member instead; only `MapSpecialtyAsWritten` models that.
- DentistCard.SpecialtyDisplay: looks up own keys only. It does not model a stored specialty naming an `Object.prototype` member, which the card's lookup would also read through. Imported specialties are always codes under the corrected lookup.
- DentistCard.CardStatusLabel: treats a status naming an `Object.prototype` member like any unknown status (no label). It does not model that such a lookup yields an inherited function instead of throwing.
- Header `__proto__`: an assignment of a string to `row.__proto__` is ignored, so the column is dropped.
