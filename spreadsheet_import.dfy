/**
 * The spreadsheet import dialog: comma-separated text becomes a sequence of
 * partial lead records. Line 0 is the header; every later line that is not
 * blank becomes one record, its columns routed through a table of header
 * synonyms; `status` and `account_manager` are then forced to their
 * defaults. The dialog keeps the parsed records, previews the first five
 * and hands them on only when there is at least one.
 */
module SpreadsheetImport {
  import opened JsText
  import opened Seqs
  import opened DentistCard

  /** A parsed row: the JavaScript object built column by column. */
  type Row = Record

  datatype ParseError = MalformedInput

  datatype Result<T> = Ok(value: T) | Err(error: ParseError)

  const DefaultStatus := "Prospecting"
  const DefaultAccountManager := "Usuário Demo"

  // ---------------------------------------------------------------------
  // Specialty normalisation
  // ---------------------------------------------------------------------

  /** The own entries of `specialtyMap`. */
  const SpecialtyMap: map<string, string> := map[
    "ortodontia" := "Orthodontics",
    "endodontia" := "Endodontics",
    "implantes" := "Implants",
    "protese" := "Prosthodontics",
    "periodontia" := "Periodontics",
    "odontopediatria" := "Pediatric Dentistry",
    "dentistica" := "Aesthetic Dentistry"
  ]

  /** `value.toLowerCase().trim()` */
  function NormalizeSpecialty(value: string): string {
    Trim(Lower(value))
  }

  /** Members every object literal inherits from `Object.prototype`. */
  const ObjectPrototypeMembers: set<string> := {
    "constructor", "__proto__", "hasOwnProperty", "isPrototypeOf",
    "propertyIsEnumerable", "toString", "toLocaleString", "valueOf",
    "__defineGetter__", "__defineSetter__", "__lookupGetter__", "__lookupSetter__"
  }

  /** What `obj[key]` yields on an object literal: an own string, `undefined`,
      or an inherited member (a function or `Object.prototype` itself). */
  datatype JsValue = JsString(s: string) | JsUndefined | JsInherited(member: string)

  predicate Truthy(v: JsValue) {
    match v
    case JsString(s) => s != ""
    case JsUndefined => false
    case JsInherited(_) => true
  }

  /** `specialtyMap[key]` as JavaScript evaluates it. */
  function ReadSpecialtyMap(key: string): JsValue {
    if key in SpecialtyMap then JsString(SpecialtyMap[key])
    else if key in ObjectPrototypeMembers then JsInherited(key)
    else JsUndefined
  }

  /** `mapSpecialty` as written: `specialtyMap[normalized] || 'Orthodontics'`. */
  function MapSpecialtyAsWritten(value: string): (r: JsValue)
    ensures NormalizeSpecialty(value) !in ObjectPrototypeMembers ==> r.JsString?
  {
    var v := ReadSpecialtyMap(NormalizeSpecialty(value));
    if Truthy(v) then v else JsString("Orthodontics")
  }

  /** No inherited member's name is one of the table's own keys. */
  lemma PrototypeMembersAreNotKeys(key: string)
    requires key in ObjectPrototypeMembers
    ensures key !in SpecialtyMap
  {
  }

  /** Every text that normalises to an inherited member's name yields that
      member, not a specialty code. */
  lemma MapSpecialtyAsWrittenOnPrototype(value: string)
    requires NormalizeSpecialty(value) in ObjectPrototypeMembers
    ensures MapSpecialtyAsWritten(value) == JsInherited(NormalizeSpecialty(value))
  {
    PrototypeMembersAreNotKeys(NormalizeSpecialty(value));
  }

  lemma ConstructorIsNormalised(value: string)
    requires value == "constructor"
    ensures NormalizeSpecialty(value) == value
  {
    assert NoUpperAscii(value);
    LowerOfNoUpper(value);
    TrimOfTrimmed(value);
  }

  lemma ConstructorIsInherited(value: string)
    requires value == "constructor"
    ensures value in ObjectPrototypeMembers
  {
  }

  /** A specialty cell reading "constructor" does not yield a specialty code
      but the inherited `Object` constructor function. */
  lemma MapSpecialtyAsWrittenLeaksPrototype(value: string)
    requires value == "constructor"
    ensures MapSpecialtyAsWritten(value) == JsInherited("constructor")
  {
    ConstructorIsNormalised(value);
    ConstructorIsInherited(value);
    MapSpecialtyAsWrittenOnPrototype(value);
  }

  /** `mapSpecialty` with an own-key lookup: always one of the seven codes,
      the code of the matching key when the normalised text is one of the
      seven Portuguese keys, and `Orthodontics` for anything else. */
  function MapSpecialty(value: string): (r: string)
    ensures r in SpecialtyCodes
    ensures NormalizeSpecialty(value) in SpecialtyMap ==> r == SpecialtyMap[NormalizeSpecialty(value)]
    ensures NormalizeSpecialty(value) !in SpecialtyMap ==> r == "Orthodontics"
  {
    var key := NormalizeSpecialty(value);
    if key in SpecialtyMap then SpecialtyMap[key] else "Orthodontics"
  }

  /** The corrected lookup agrees with the written one on every text that does
      not normalise to an `Object.prototype` member name. */
  lemma MapSpecialtyAgreesOffPrototype(value: string)
    requires NormalizeSpecialty(value) !in ObjectPrototypeMembers
    ensures MapSpecialtyAsWritten(value) == JsString(MapSpecialty(value))
  {
  }

  /** Normalising first changes nothing: the lookup ignores case and
      surrounding white space. */
  lemma MapSpecialtyInsensitive(value: string)
    ensures MapSpecialty(NormalizeSpecialty(value)) == MapSpecialty(value)
  {
    NormalizeIdempotent(value);
  }

  lemma NormalizeIdempotent(value: string)
    ensures NormalizeSpecialty(NormalizeSpecialty(value)) == NormalizeSpecialty(value)
  {
    LowerTrimIdempotent(value);
  }

  // ---------------------------------------------------------------------
  // The header switch
  // ---------------------------------------------------------------------

  /** The record attribute the `switch (header)` writes for a lowercased
      header: the synonyms route to their attribute, anything else is stored
      under the header itself. */
  function AttributeOf(header: string): (r: string)
    ensures IsSynonym(header) ==> r in {"name", "phone", "instagram", "clinic", "city", "state", "specialty", "notes"}
    ensures !IsSynonym(header) ==> r == header
  {
    match header
    case "nome" => "name"
    case "name" => "name"
    case "telefone" => "phone"
    case "phone" => "phone"
    case "whatsapp" => "phone"
    case "instagram" => "instagram"
    case "clinica" => "clinic"
    case "clinic" => "clinic"
    case "consultorio" => "clinic"
    case "cidade" => "city"
    case "city" => "city"
    case "estado" => "state"
    case "state" => "state"
    case "uf" => "state"
    case "especialidade" => "specialty"
    case "specialty" => "specialty"
    case "observacoes" => "notes"
    case "notes" => "notes"
    case "obs" => "notes"
    case _ => header
  }

  predicate IsSynonym(header: string) {
    header in {"nome", "name", "telefone", "phone", "whatsapp", "instagram", "clinica", "clinic",
               "consultorio", "cidade", "city", "estado", "state", "uf", "especialidade", "specialty",
               "observacoes", "notes", "obs"}
  }

  /** The synonym table, both ways: a header routes to an attribute exactly
      when it is one of that attribute's spellings, and a header outside the
      table is stored under its own name. */
  lemma SynonymRouting(header: string)
    ensures AttributeOf(header) == "name" <==> header in {"nome", "name"}
    ensures AttributeOf(header) == "phone" <==> header in {"telefone", "phone", "whatsapp"}
    ensures AttributeOf(header) == "instagram" <==> header == "instagram"
    ensures AttributeOf(header) == "clinic" <==> header in {"clinica", "clinic", "consultorio"}
    ensures AttributeOf(header) == "city" <==> header in {"cidade", "city"}
    ensures AttributeOf(header) == "state" <==> header in {"estado", "state", "uf"}
    ensures AttributeOf(header) == "specialty" <==> header in {"especialidade", "specialty"}
    ensures AttributeOf(header) == "notes" <==> header in {"observacoes", "notes", "obs"}
    ensures !IsSynonym(header) ==> AttributeOf(header) == header
  {
  }

  /** The value the switch stores: `state` upper-cased, `specialty` mapped,
      every other column as it is. */
  function Convert(header: string, value: string): string {
    var a := AttributeOf(header);
    if a == "state" then Upper(value)
    else if a == "specialty" then MapSpecialty(value)
    else value
  }

  /** One case of the switch. Assigning a string to `row.__proto__` is
      ignored by JavaScript, so a column headed `__proto__` is dropped. */
  function Assign(row: Row, header: string, value: string): Row {
    var a := AttributeOf(header);
    if a == "__proto__" then row else row[a := Convert(header, value)]
  }

  /** `values[index] || ''` */
  function Cell(values: seq<string>, index: nat): string {
    if index < |values| then values[index] else ""
  }

  /** The row after the `forEach` has visited the first `n` headers. */
  function Columns(headers: seq<string>, values: seq<string>, n: nat): Row
    requires n <= |headers|
  {
    if n == 0 then map[] else Assign(Columns(headers, values, n - 1), headers[n - 1], Cell(values, n - 1))
  }

  /** The row pushed for one data line: its columns, then the two defaults. */
  function RowOf(headers: seq<string>, values: seq<string>): (r: Row)
    ensures "status" in r && r["status"] == "Prospecting"
    ensures "account_manager" in r && r["account_manager"] == "Usuário Demo"
  {
    Columns(headers, values, |headers|)["status" := DefaultStatus]["account_manager" := DefaultAccountManager]
  }

  /** Some of the first `n` headers routes to `k`. */
  predicate RoutedTo(headers: seq<string>, n: nat, k: string)
    requires n <= |headers|
  {
    n > 0 && (AttributeOf(headers[n - 1]) == k || RoutedTo(headers, n - 1, k))
  }

  lemma {:induction false} RoutedToIff(headers: seq<string>, n: nat, k: string)
    requires n <= |headers|
    ensures RoutedTo(headers, n, k) <==> exists i :: 0 <= i < n && AttributeOf(headers[i]) == k
  {
    if n > 0 {
      RoutedToIff(headers, n - 1, k);
      if AttributeOf(headers[n - 1]) == k {
        assert 0 <= n - 1 < n && AttributeOf(headers[n - 1]) == k;
      }
    }
  }

  lemma {:induction false} ColumnKeysRouted(headers: seq<string>, values: seq<string>, n: nat, k: string)
    requires n <= |headers|
    ensures k in Columns(headers, values, n) <==> k != "__proto__" && RoutedTo(headers, n, k)
  {
    if n > 0 {
      ColumnKeysRouted(headers, values, n - 1, k);
    }
  }

  /** A key is present exactly when some header routes to it (and it is not `__proto__`). */
  lemma ColumnKeys(headers: seq<string>, values: seq<string>, n: nat, k: string)
    requires n <= |headers|
    ensures k in Columns(headers, values, n) <==>
      k != "__proto__" && exists i :: 0 <= i < n && AttributeOf(headers[i]) == k
  {
    ColumnKeysRouted(headers, values, n, k);
    RoutedToIff(headers, n, k);
  }

  /** When several columns route to one attribute, the last of them wins. */
  lemma {:induction false} LastColumnWins(headers: seq<string>, values: seq<string>, n: nat, j: nat)
    requires j < n <= |headers|
    requires AttributeOf(headers[j]) != "__proto__"
    requires forall i :: j < i < n ==> AttributeOf(headers[i]) != AttributeOf(headers[j])
    ensures AttributeOf(headers[j]) in Columns(headers, values, n)
    ensures Columns(headers, values, n)[AttributeOf(headers[j])] == Convert(headers[j], Cell(values, j))
  {
    if n > j + 1 {
      LastColumnWins(headers, values, n - 1, j);
    }
  }

  /** The value of column `j` as the pushed row holds it, when no later column
      routes to the same attribute and it is not one of the two defaults. */
  lemma RowValue(headers: seq<string>, values: seq<string>, j: nat)
    requires j < |headers|
    requires AttributeOf(headers[j]) !in {"__proto__", "status", "account_manager"}
    requires forall i :: j < i < |headers| ==> AttributeOf(headers[i]) != AttributeOf(headers[j])
    ensures AttributeOf(headers[j]) in RowOf(headers, values)
    ensures RowOf(headers, values)[AttributeOf(headers[j])] == Convert(headers[j], Cell(values, j))
  {
    LastColumnWins(headers, values, |headers|, j);
  }

  /** Every pushed row has the two defaults, whatever columns the file has. */
  lemma RowDefaults(headers: seq<string>, values: seq<string>)
    ensures RowOf(headers, values)["status"] == "Prospecting"
    ensures RowOf(headers, values)["account_manager"] == "Usuário Demo"
  {
  }

  /** An attribute no header routes to stays absent: no `specialty` column
      means no `specialty` key (it is not defaulted). */
  lemma RowAbsentKey(headers: seq<string>, values: seq<string>, k: string)
    requires k !in {"status", "account_manager"}
    requires forall i :: 0 <= i < |headers| ==> AttributeOf(headers[i]) != k
    ensures k !in RowOf(headers, values)
  {
    ColumnKeys(headers, values, |headers|, k);
  }

  /** A `state` column is stored upper-cased, and upper-casing it again
      changes nothing. */
  lemma StateIsUpperCase(headers: seq<string>, values: seq<string>, j: nat)
    requires j < |headers| && AttributeOf(headers[j]) == "state"
    requires forall i :: j < i < |headers| ==> AttributeOf(headers[i]) != "state"
    ensures "state" in RowOf(headers, values)
    ensures RowOf(headers, values)["state"] == Upper(Cell(values, j))
    ensures NoLowerAscii(RowOf(headers, values)["state"])
    ensures Upper(RowOf(headers, values)["state"]) == RowOf(headers, values)["state"]
  {
    RowValue(headers, values, j);
    UpperIdempotent(Cell(values, j));
  }

  /** A `specialty` column always holds one of the seven codes. */
  lemma {:induction false} SpecialtyIsCode(headers: seq<string>, values: seq<string>, n: nat)
    requires n <= |headers|
    ensures "specialty" in Columns(headers, values, n) ==> Columns(headers, values, n)["specialty"] in SpecialtyCodes
  {
    if n > 0 {
      SpecialtyIsCode(headers, values, n - 1);
    }
  }

  // ---------------------------------------------------------------------
  // Lines and the whole file
  // ---------------------------------------------------------------------

  /** `lines[0].split(',').map(h => h.trim().toLowerCase())` */
  function HeadersOf(line: string): (r: seq<string>)
    ensures |r| == |Split(line, ',')|
    ensures forall k :: 0 <= k < |r| ==> r[k] == Lower(Trim(Split(line, ',')[k]))
  {
    LowerTrimAll(Split(line, ','))
  }

  function LowerTrimAll(ss: seq<string>): (r: seq<string>)
    ensures |r| == |ss|
    ensures forall k :: 0 <= k < |r| ==> r[k] == Lower(Trim(ss[k]))
  {
    if ss == [] then [] else [Lower(Trim(ss[0]))] + LowerTrimAll(ss[1..])
  }

  /** `lines[i].split(',').map(v => v.trim())` */
  function CellsOf(line: string): (r: seq<string>)
    ensures |r| == |Split(line, ',')|
    ensures forall k :: 0 <= k < |r| ==> r[k] == Trim(Split(line, ',')[k])
  {
    TrimAll(Split(line, ','))
  }

  function TrimAll(ss: seq<string>): (r: seq<string>)
    ensures |r| == |ss|
    ensures forall k :: 0 <= k < |r| ==> r[k] == Trim(ss[k])
  {
    if ss == [] then [] else [Trim(ss[0])] + TrimAll(ss[1..])
  }

  /** `if (lines[i].trim())` */
  predicate IsDataLine(line: string) {
    Trim(line) != ""
  }

  /** One row per line, in order. */
  function RowsOfLines(headers: seq<string>, lines: seq<string>): (r: seq<Row>)
    ensures |r| == |lines|
    ensures forall k :: 0 <= k < |lines| ==> r[k] == RowOf(headers, CellsOf(lines[k]))
  {
    if lines == [] then [] else [RowOf(headers, CellsOf(lines[0]))] + RowsOfLines(headers, lines[1..])
  }

  /** The rows of the data lines: one for each line that is not blank, in order. */
  function DataRows(headers: seq<string>, dataLines: seq<string>): seq<Row> {
    RowsOfLines(headers, Filter(IsDataLine, dataLines))
  }

  /** What `parseFile` computes from the text: an error when `split('\n')`
      gives fewer than two lines, otherwise the rows of lines 1 onwards under
      the headers of line 0. */
  function Parse(text: string): (r: Result<seq<Row>>)
    ensures r.Err? <==> '\n' !in text
    ensures r.Ok? ==> |r.value| == CountWhere(IsDataLine, Split(text, '\n')[1..])
  {
    SplitHasTwoPiecesIff(text, '\n');
    var lines := Split(text, '\n');
    if |lines| < 2 then Err(MalformedInput)
    else Ok(DataRows(HeadersOf(lines[0]), lines[1..]))
  }

  /** Parsing fails exactly when the text holds no line feed; in particular a
      header followed by an empty line succeeds. */
  lemma ParseFailsIff(text: string)
    ensures Parse(text).Err? <==> '\n' !in text
  {
    SplitHasTwoPiecesIff(text, '\n');
  }

  /** The row count is the number of non-blank lines after line 0, and each
      row is built from its line. */
  lemma ParseRowCount(text: string)
    requires Parse(text).Ok?
    ensures |Parse(text).value| == CountWhere(IsDataLine, Split(text, '\n')[1..])
    ensures forall r :: r in Parse(text).value ==>
      r["status"] == "Prospecting" && r["account_manager"] == "Usuário Demo"
  {
  }

  /** Appending a line to the data lines appends at most its row. */
  lemma DataRowsSnoc(headers: seq<string>, dataLines: seq<string>, line: string)
    ensures DataRows(headers, dataLines + [line]) ==
      DataRows(headers, dataLines) + (if IsDataLine(line) then [RowOf(headers, CellsOf(line))] else [])
  {
    FilterSnoc(IsDataLine, dataLines, line);
    var a := Filter(IsDataLine, dataLines);
    var b := if IsDataLine(line) then [line] else [];
    RowsOfLinesConcat(headers, a, b);
  }

  lemma {:induction false} RowsOfLinesConcat(headers: seq<string>, a: seq<string>, b: seq<string>)
    ensures RowsOfLines(headers, a + b) == RowsOfLines(headers, a) + RowsOfLines(headers, b)
  {
    if a == [] {
      assert a + b == b;
    } else {
      assert (a + b)[0] == a[0];
      assert (a + b)[1..] == a[1..] + b;
      RowsOfLinesConcat(headers, a[1..], b);
    }
  }

  lemma {:induction false} SplitNoSeparator(a: string, sep: char)
    requires sep !in a
    ensures Split(a, sep) == [a]
  {
    if a != [] {
      SplitNoSeparator(a[1..], sep);
    }
  }

  lemma {:induction false} SplitAtFirst(a: string, b: string, sep: char)
    requires sep !in a
    ensures Split(a + [sep] + b, sep) == [a] + Split(b, sep)
  {
    if a == [] {
      assert a + [sep] + b == [sep] + b;
      assert ([sep] + b)[1..] == b;
    } else {
      assert (a + [sep] + b)[0] == a[0];
      assert (a + [sep] + b)[1..] == a[1..] + [sep] + b;
      SplitAtFirst(a[1..], b, sep);
      assert [a[0]] + a[1..] == a;
    }
  }

  /** A header line followed by a single line feed parses to zero rows
      (`"x\n"`, `"nome,telefone\n"`). */
  lemma HeaderOnlyParsesToNoRows(header: string)
    requires '\n' !in header
    ensures Parse(header + "\n") == Ok([])
  {
    SplitAtFirst(header, "", '\n');
    assert header + "\n" == header + ['\n'] + "";
    assert Split("", '\n') == [""];
    TrimOfTrimmed("");
  }

  /** A header line and one non-blank data line parse to exactly that line's row. */
  lemma OneDataLine(header: string, line: string)
    requires '\n' !in header && '\n' !in line && IsDataLine(line)
    ensures Parse(header + "\n" + line) == Ok([RowOf(HeadersOf(header), CellsOf(line))])
  {
    var text := header + "\n" + line;
    assert text == header + ['\n'] + line;
    SplitAtFirst(header, line, '\n');
    SplitNoSeparator(line, '\n');
    var lines := Split(text, '\n');
    assert lines == [header, line];
    assert lines[1..] == [line];
    FilterAll(IsDataLine, [line]);
    assert RowsOfLines(HeadersOf(header), [line]) == [RowOf(HeadersOf(header), CellsOf(line))];
  }

  // ---------------------------------------------------------------------
  // The parse loop
  // ---------------------------------------------------------------------

  /** The `switch` on one header: store the converted value under the
      header's attribute. */
  method SetColumn(row: Row, header: string, value: string) returns (next: Row)
    ensures next == Assign(row, header, value)
  {
    var attribute := AttributeOf(header);
    next := row;
    if attribute != "__proto__" {
      next := next[attribute := Convert(header, value)];
    }
  }

  /** The `headers.forEach` that fills one row, then the two defaults. */
  method BuildRow(headers: seq<string>, values: seq<string>) returns (row: Row)
    ensures row == RowOf(headers, values)
  {
    row := map[];
    for index := 0 to |headers|
      invariant row == Columns(headers, values, index)
    {
      var value := Cell(values, index);
      row := SetColumn(row, headers[index], value);
    }
    row := row["status" := DefaultStatus];
    row := row["account_manager" := DefaultAccountManager];
  }

  /** One pass of the line loop: a non-blank line adds its row. */
  method PushLine(headers: seq<string>, data: seq<Row>, line: string) returns (next: seq<Row>)
    ensures next == data + (if IsDataLine(line) then [RowOf(headers, CellsOf(line))] else [])
  {
    next := data;
    if Trim(line) != "" {
      var values := CellsOf(line);
      var row := BuildRow(headers, values);
      next := next + [row];
    }
  }

  /** The `for` loop over lines 1 onwards. */
  method DataRowsLoop(headers: seq<string>, lines: seq<string>) returns (data: seq<Row>)
    requires |lines| >= 1
    ensures data == DataRows(headers, lines[1..])
  {
    data := [];
    for i := 1 to |lines|
      invariant data == DataRows(headers, lines[1..i])
    {
      DataRowsSnoc(headers, lines[1..i], lines[i]);
      SliceSnoc(lines, 1, i);
      data := PushLine(headers, data, lines[i]);
    }
    assert lines[1..|lines|] == lines[1..];
  }

  /** The body of the `try` in `parseFile`: split the text into lines, take
      the headers from the first, and push one row per non-blank line. */
  method ParseRows(text: string) returns (r: Result<seq<Row>>)
    ensures r == Parse(text)
  {
    var lines := Split(text, '\n');
    if |lines| < 2 {
      return Err(MalformedInput);
    }
    var headers := HeadersOf(lines[0]);
    var data := DataRowsLoop(headers, lines);
    return Ok(data);
  }

  // ---------------------------------------------------------------------
  // Preview
  // ---------------------------------------------------------------------

  /** One preview line: name, phone, city and specialty, each `|| '-'`. */
  datatype PreviewLine = PreviewLine(name: string, phone: string, city: string, specialty: string)

  /** The preview shown: its lines and the "and n more" count, if any. */
  datatype Preview = Preview(lines: seq<PreviewLine>, more: Option<nat>)

  function PreviewLineOf(row: Row): PreviewLine {
    PreviewLine(OrElse(Field(row, "name"), "-"), OrElse(Field(row, "phone"), "-"),
                OrElse(Field(row, "city"), "-"), OrElse(Field(row, "specialty"), "-"))
  }

  function PreviewLines(rows: seq<Row>): (r: seq<PreviewLine>)
    ensures |r| == |rows|
    ensures forall k :: 0 <= k < |rows| ==> r[k] == PreviewLineOf(rows[k])
  {
    if rows == [] then [] else [PreviewLineOf(rows[0])] + PreviewLines(rows[1..])
  }

  /** The preview block: absent for no rows; otherwise the first min(5, n)
      rows and, above five, a note of how many more there are. */
  function PreviewOf(rows: seq<Row>): (p: Option<Preview>)
    ensures p.None? <==> rows == []
    ensures p.Some? ==> |p.value.lines| == (if |rows| < 5 then |rows| else 5)
    ensures p.Some? ==> forall k :: 0 <= k < |p.value.lines| ==> p.value.lines[k] == PreviewLineOf(rows[k])
    ensures p.Some? ==> (p.value.more.Some? <==> |rows| > 5)
    ensures p.Some? && p.value.more.Some? ==> p.value.more.value + 5 == |rows|
  {
    if rows == [] then None
    else
      var shown := if |rows| < 5 then rows else rows[..5];
      Some(Preview(PreviewLines(shown), if |rows| > 5 then Some(|rows| - 5) else None))
  }

  // ---------------------------------------------------------------------
  // The dialog's state
  // ---------------------------------------------------------------------

  /** The toast `parseFile` shows. */
  datatype ParseToast = Processed(count: nat) | ProcessingFailed

  class ImportDialog {
    var parsedData: seq<Row>
    var isProcessing: bool

    constructor ()
      ensures parsedData == [] && !isProcessing
    {
      parsedData := [];
      isProcessing := false;
    }

    /** `parseFile` on the text of the chosen file: on success the rows
        replace `parsedData`; on failure `parsedData` keeps its old value.
        Either way processing has ended. */
    method ParseFile(text: string) returns (toast: ParseToast)
      modifies this
      ensures !isProcessing
      ensures ImportEnabled() <==> parsedData != []
      ensures Parse(text).Ok? ==> parsedData == Parse(text).value && toast == Processed(|parsedData|)
      ensures Parse(text).Err? ==> parsedData == old(parsedData) && toast == ProcessingFailed
    {
      isProcessing := true;
      var r := ParseRows(text);
      if r.Ok? {
        parsedData := r.value;
        toast := Processed(|r.value|);
      } else {
        toast := ProcessingFailed;
      }
      isProcessing := false;
    }

    /** `handleImport`: what is passed to `onImport`, which is called only
        when there is something to import, and then with `parsedData` itself. */
    method HandleImport() returns (imported: Option<seq<Row>>)
      ensures imported.Some? <==> parsedData != []
      ensures imported.Some? ==> imported.value == parsedData
    {
      if |parsedData| == 0 {
        return None;
      }
      return Some(parsedData);
    }

    /** The import button is enabled only with rows and no parse running, so
        a click on it always gets past `handleImport`'s empty-data guard. */
    predicate ImportEnabled()
      reads this
      ensures ImportEnabled() ==> parsedData != []
    {
      parsedData != [] && !isProcessing
    }
  }
}
