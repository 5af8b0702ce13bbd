/**
 * The catalog import (scripts/import-productos-vender.mjs): spreadsheet rows are
 * normalised into product records, rows without a `codigo` are dropped, and the
 * whole catalog store is replaced by the result (delete all, then insert all).
 *
 * The workbook is given as its first sheet's rows; the store as a sequence of
 * records; the outcome of the two store calls as a parameter.
 */
module CatalogImport {
  import opened Wrappers
  import opened JsText

  /**
   * A cell as `sheet_to_json(sheet, { defval: null })` yields it: null, a number,
   * or a string. A number carries `shown`, the text `String(value)` renders it as.
   */
  datatype Cell = Empty | Number(value: real, shown: string) | Text(text: string)

  /** A row maps header labels to cells; a missing key reads as `undefined`, i.e. Empty. */
  type Row = map<string, Cell>

  const EXCEL_BASENAME := "bD_canastasVerdes.xlsx"

  const COL_ITEM := "Ítems"
  const COL_CODE := "Código"
  const COL_CITY := "Municipio"
  const COL_CATEGORY := "Categoría"
  const COL_PRODUCT := "Producto"
  const COL_PRESENTATION := "Presentación"
  const COL_COST := "Costo Pcc"
  const COL_LOGISTICS := "% Logística"
  const COL_TRANSPORT := "%Transporte"
  /** The spaced header the transport column falls back to. */
  const COL_TRANSPORT_SPACED := "% Transporte"
  const COL_SUGGESTED := "Precio Sugerido"
  const COL_SALE := "Precio de Venta"

  datatype StoreCall = DeleteMany | CreateMany

  datatype ImportError =
    | FileNotFound(basename: string)
    | MalformedNumber(raw: string)
    | StoreFailed(call: StoreCall)

  /** A normalised product row, as handed to `createMany`. */
  datatype ProductRecord = ProductRecord(
    itemNumber: JsNumber,
    codigo: string,
    municipio: string,
    categoria: string,
    producto: string,
    presentacion: string,
    costoPcc: real,
    porcentajeLogistica: real,
    porcentajeTransporte: real,
    precioSugerido: real,
    precioVenta: real)

  function Get(row: Row, column: string): Cell {
    if column in row then row[column] else Empty
  }

  predicate IsNumericChar(c: char) {
    IsDigit(c) || c == '.' || c == '-'
  }

  /** `replace(/[^0-9.-]/g, '')`: the characters of `s` that are digits, '.' or '-', in order. */
  function Cleaned(s: string): (r: string)
    ensures |r| <= |s|
    ensures forall k :: 0 <= k < |r| ==> IsNumericChar(r[k])
    ensures (forall k :: 0 <= k < |s| ==> IsNumericChar(s[k])) ==> r == s
    ensures (forall k :: 0 <= k < |s| ==> !IsNumericChar(s[k])) ==> r == []
  {
    if s == [] then []
    else if IsNumericChar(s[0]) then [s[0]] + Cleaned(s[1..])
    else Cleaned(s[1..])
  }

  /**
   * `sanitizeNumber`: null and '' are 0, numbers pass through, other strings are
   * cleaned and parsed. Only a non-empty string can fail, and the error carries
   * the string as it was.
   */
  function SanitizeNumber(cell: Cell): (r: Result<real, ImportError>)
    ensures r.Err? ==> cell.Text? && cell.text != [] && r.error == MalformedNumber(cell.text)
    ensures !cell.Text? ==> r.Ok?
  {
    match cell
    case Empty => Ok(0.0)
    case Number(v, _) => Ok(v)
    case Text(s) =>
      if s == [] then Ok(0.0)
      else
        match StringToNumber(Cleaned(s))
        case Finite(v) => Ok(v)
        case NaN => Err(MalformedNumber(s))
  }

  /** `sanitizeText`: null becomes '', anything else its trimmed text. */
  function SanitizeText(cell: Cell): string {
    match cell
    case Empty => ""
    case Number(_, shown) => Trim(shown)
    case Text(s) => Trim(s)
  }

  /** JavaScript truthiness of a cell. */
  predicate Truthy(cell: Cell) {
    match cell
    case Empty => false
    case Number(v, _) => v != 0.0
    case Text(s) => s != []
  }

  /** `Number(cell)` for a cell that is not null. */
  function CellToNumber(cell: Cell): JsNumber
    requires !cell.Empty?
  {
    match cell
    case Number(v, _) => Finite(v)
    case Text(s) => StringToNumber(s)
  }

  /**
   * `row['Ítems'] ? Number(row['Ítems']) : index + 1`: without an `Ítems` value the
   * number is the row's 1-based position, and only a text cell can give NaN.
   */
  function ItemNumber(row: Row, index: nat): (r: JsNumber)
    ensures !Truthy(Get(row, COL_ITEM)) ==> r.Finite? && r.value >= 1.0
    ensures r.NaN? ==> Get(row, COL_ITEM).Text?
  {
    var cell := Get(row, COL_ITEM);
    if Truthy(cell) then CellToNumber(cell) else Finite((index + 1) as real)
  }

  /**
   * `row['%Transporte'] ?? row['% Transporte']`: the cell under one of the two
   * headers, null only when both are.
   */
  function TransportCell(row: Row): (r: Cell)
    ensures r == Get(row, COL_TRANSPORT) || r == Get(row, COL_TRANSPORT_SPACED)
    ensures r.Empty? <==> Get(row, COL_TRANSPORT).Empty? && Get(row, COL_TRANSPORT_SPACED).Empty?
  {
    var cell := Get(row, COL_TRANSPORT);
    if cell.Empty? then Get(row, COL_TRANSPORT_SPACED) else cell
  }

  /**
   * The mapper applied to one row at 0-based position `index`; the first malformed
   * number aborts, naming a non-empty text.
   */
  function MapRow(row: Row, index: nat): (r: Result<ProductRecord, ImportError>)
    ensures r.Err? ==> r.error.MalformedNumber? && r.error.raw != []
  {
    var costoPcc :- SanitizeNumber(Get(row, COL_COST));
    var porcentajeLogistica :- SanitizeNumber(Get(row, COL_LOGISTICS));
    var porcentajeTransporte :- SanitizeNumber(TransportCell(row));
    var precioSugerido :- SanitizeNumber(Get(row, COL_SUGGESTED));
    var precioVenta :- SanitizeNumber(Get(row, COL_SALE));
    Ok(ProductRecord(
      ItemNumber(row, index),
      SanitizeText(Get(row, COL_CODE)),
      SanitizeText(Get(row, COL_CITY)),
      SanitizeText(Get(row, COL_CATEGORY)),
      SanitizeText(Get(row, COL_PRODUCT)),
      SanitizeText(Get(row, COL_PRESENTATION)),
      costoPcc, porcentajeLogistica, porcentajeTransporte, precioSugerido, precioVenta))
  }

  /**
   * `rows.map(mapper)` over `rows[from..]` for a mapper that may throw, positions
   * counted from the sheet's first row: the first error aborts the whole map.
   */
  function MapRows<T>(rows: seq<Row>, from: nat, mapper: (Row, nat) -> Result<T, ImportError>)
    : Result<seq<T>, ImportError>
    requires from <= |rows|
    decreases |rows| - from
  {
    if from == |rows| then Ok([])
    else
      var head :- mapper(rows[from], from);
      var tail :- MapRows(rows, from + 1, mapper);
      Ok([head] + tail)
  }

  /** `.filter((row) => row.codigo.length > 0)`. */
  function WithCodigo(records: seq<ProductRecord>): seq<ProductRecord> {
    if records == [] then []
    else if records[0].codigo != [] then [records[0]] + WithCodigo(records[1..])
    else WithCodigo(records[1..])
  }

  /**
   * The rows the import would insert, or the error that aborts it: at most one
   * record per row, each with a `codigo`.
   */
  function Normalize(rows: seq<Row>): (r: Result<seq<ProductRecord>, ImportError>)
    ensures r.Ok? ==> |r.value| <= |rows| && forall p :: p in r.value ==> p.codigo != []
  {
    var mapped :- MapRows(rows, 0, MapRow);
    MapRowsValues(rows, 0, MapRow);
    WithCodigoSpec(mapped);
    Ok(WithCodigo(mapped))
  }

  // ---------------------------------------------------------------------------
  // Numbers

  /** `sanitizeNumber` fails exactly on a non-empty string whose cleaned text is not a number. */
  lemma SanitizeNumberFails(cell: Cell)
    ensures SanitizeNumber(cell).Err? <==>
              cell.Text? && cell.text != [] && StringToNumber(Cleaned(cell.text)) == NaN
    ensures SanitizeNumber(cell).Err? ==> SanitizeNumber(cell).error == MalformedNumber(cell.text)
    ensures cell.Empty? || cell == Text([]) ==> SanitizeNumber(cell) == Ok(0.0)
    ensures cell.Number? ==> SanitizeNumber(cell) == Ok(cell.value)
  {
  }

  /** A string without any digit, '.' or '-' cleans to '' and so reads as 0, without error. */
  lemma NoNumericCharsIsZero(s: string)
    requires forall k :: 0 <= k < |s| ==> !IsNumericChar(s[k])
    ensures SanitizeNumber(Text(s)) == Ok(0.0)
  {
  }

  /** A string whose digits, '.' and '-' are just digits reads as their decimal value. */
  lemma DigitsAfterCleaning(s: string)
    requires Cleaned(s) != [] && AllDigits(Cleaned(s))
    ensures SanitizeNumber(Text(s)) == Ok(DigitsValue(Cleaned(s)) as real)
  {
    DigitsToNumber(Cleaned(s));
  }

  /** A non-empty string is read through the signed-decimal grammar once cleaned. */
  lemma CleanedReading(s: string)
    requires s != [] && Cleaned(s) != []
    ensures SanitizeNumber(Text(s)) ==
              match SignedDecimal(Cleaned(s))
              case Finite(v) => Ok(v)
              case NaN => Err(MalformedNumber(s))
  {
    var t := Cleaned(s);
    forall k | 0 <= k < |t| ensures !IsJsSpace(t[k]) {
      assert IsNumericChar(t[k]);
    }
    NoSpaceNumber(t);
  }

  /** The '.' is kept: "5.000" reads as 5, not 5000. */
  lemma DotIsDecimalPoint()
    ensures SanitizeNumber(Text("5.000")) == Ok(5.0)
  {
    var s := "5.000";
    assert forall k :: 0 <= k < |s| ==> IsNumericChar(s[k]);
    CleanedReading(s);
    FiveDotZeros();
  }

  /** A cleaned text with a second '.' is malformed. */
  lemma TwoDotsMalformed(s: string, i: int, j: int)
    requires s != [] && 0 <= i < j < |Cleaned(s)| && Cleaned(s)[i] == '.' && Cleaned(s)[j] == '.'
    ensures SanitizeNumber(Text(s)).Err?
  {
    CleanedReading(s);
    SignedTwoDots(Cleaned(s), i, j);
  }

  /** A cleaned text with a '-' anywhere but first is malformed. */
  lemma InnerMinusMalformed(s: string, i: int)
    requires s != [] && 0 < i < |Cleaned(s)| && Cleaned(s)[i] == '-'
    ensures SanitizeNumber(Text(s)).Err?
  {
    var t := Cleaned(s);
    forall k | 0 <= k < |t| ensures t[k] != 'e' && t[k] != 'E' {
      assert IsNumericChar(t[k]);
    }
    SignedInnerMinus(t, i);
    CleanedReading(s);
  }

  /** A lone sign or a lone '.' is malformed. */
  lemma LoneSignOrDotMalformed(s: string)
    requires Cleaned(s) == "-" || Cleaned(s) == "."
    ensures SanitizeNumber(Text(s)).Err?
  {
    assert s != [];
    CleanedReading(s);
    LoneSignOrDot(Cleaned(s));
  }

  // ---------------------------------------------------------------------------
  // Text and row mapping

  /** What `sanitizeText` returns never starts or ends with white space. */
  lemma SanitizeTextEnds(cell: Cell)
    ensures var r := SanitizeText(cell); r != [] ==> !IsJsSpace(r[0]) && !IsJsSpace(r[|r| - 1])
  {
    var r := Trim(CellText(cell));
    assert SanitizeText(cell) == r;
  }

  /** The text `sanitizeText` trims: '' for null, `String(value)` otherwise. */
  function CellText(cell: Cell): string {
    match cell
    case Empty => ""
    case Number(_, shown) => shown
    case Text(s) => s
  }

  /**
   * `sanitizeText` maps null to '' and a text cell to its trimmed text, so a text
   * made only of white space gives ''.
   */
  lemma SanitizeTextCases(cell: Cell)
    ensures cell.Empty? ==> SanitizeText(cell) == ""
    ensures cell.Text? ==> SanitizeText(cell) == Trim(cell.text)
    ensures cell.Text? && (forall k :: 0 <= k < |cell.text| ==> IsJsSpace(cell.text[k])) ==>
              SanitizeText(cell) == ""
  {
    match cell
    case Empty =>
    case Number(_, _) =>
    case Text(s) =>
      if forall k :: 0 <= k < |s| ==> IsJsSpace(s[k]) {
        TrimAllSpace(s);
      }
  }

  /** Rows without an `Ítems` value get distinct item numbers: their positions. */
  lemma ItemPositionsDistinct(rows: seq<Row>, i: nat, j: nat)
    requires i < |rows| && j < |rows| && i != j
    requires !Truthy(Get(rows[i], COL_ITEM)) && !Truthy(Get(rows[j], COL_ITEM))
    ensures ItemNumber(rows[i], i) != ItemNumber(rows[j], j)
  {
    assert ItemNumber(rows[i], i) == Finite((i + 1) as real);
  }

  /** A sheet that has only one of the two transport headers maps the same whichever it is. */
  lemma TransportHeadersInterchangeable(row: Row, c: Cell, index: nat)
    requires COL_TRANSPORT !in row && COL_TRANSPORT_SPACED !in row
    ensures MapRow(row[COL_TRANSPORT := c], index) == MapRow(row[COL_TRANSPORT_SPACED := c], index)
  {
    var a, b := row[COL_TRANSPORT := c], row[COL_TRANSPORT_SPACED := c];
    assert TransportCell(a) == c == TransportCell(b);
    SameCellsSameRecord(a, b, index);
  }

  /** The columns the mapper reads besides the transport one. */
  const OTHER_COLUMNS := {COL_ITEM, COL_CODE, COL_CITY, COL_CATEGORY, COL_PRODUCT,
    COL_PRESENTATION, COL_COST, COL_LOGISTICS, COL_SUGGESTED, COL_SALE}

  /** `MapRow` reads these columns and the transport cell, and nothing else. */
  lemma SameCellsSameRecord(a: Row, b: Row, index: nat)
    requires TransportCell(a) == TransportCell(b)
    requires forall column :: column in OTHER_COLUMNS ==> Get(a, column) == Get(b, column)
    ensures MapRow(a, index) == MapRow(b, index)
  {
    assert Get(a, COL_ITEM) == Get(b, COL_ITEM);
    assert Get(a, COL_CODE) == Get(b, COL_CODE);
    assert Get(a, COL_CITY) == Get(b, COL_CITY);
    assert Get(a, COL_CATEGORY) == Get(b, COL_CATEGORY);
    assert Get(a, COL_PRODUCT) == Get(b, COL_PRODUCT);
    assert Get(a, COL_PRESENTATION) == Get(b, COL_PRESENTATION);
    assert Get(a, COL_COST) == Get(b, COL_COST);
    assert Get(a, COL_LOGISTICS) == Get(b, COL_LOGISTICS);
    assert Get(a, COL_SUGGESTED) == Get(b, COL_SUGGESTED);
    assert Get(a, COL_SALE) == Get(b, COL_SALE);
  }

  /** A row maps without error exactly when each of its five numeric cells sanitises. */
  predicate NumbersOk(row: Row) {
    && SanitizeNumber(Get(row, COL_COST)).Ok?
    && SanitizeNumber(Get(row, COL_LOGISTICS)).Ok?
    && SanitizeNumber(TransportCell(row)).Ok?
    && SanitizeNumber(Get(row, COL_SUGGESTED)).Ok?
    && SanitizeNumber(Get(row, COL_SALE)).Ok?
  }

  lemma MapRowOk(row: Row, index: nat)
    ensures MapRow(row, index).Ok? <==> NumbersOk(row)
    ensures MapRow(row, index).Ok? ==> MapRow(row, index).value.codigo == SanitizeText(Get(row, COL_CODE))
    ensures MapRow(row, index).Ok? ==> MapRow(row, index).value.precioVenta == SanitizeNumber(Get(row, COL_SALE)).value
  {
  }

  /** Mapping fails exactly when the mapper fails on some row. */
  lemma {:induction false} MapRowsFails<T>(rows: seq<Row>, from: nat, mapper: (Row, nat) -> Result<T, ImportError>)
    requires from <= |rows|
    ensures MapRows(rows, from, mapper).Ok? <==> forall i :: from <= i < |rows| ==> mapper(rows[i], i).Ok?
    decreases |rows| - from
  {
    if from < |rows| {
      MapRowsFails(rows, from + 1, mapper);
    }
  }

  /** Otherwise result `k` is the mapper applied to row `from + k` at its own position. */
  lemma {:induction false} MapRowsValues<T>(rows: seq<Row>, from: nat, mapper: (Row, nat) -> Result<T, ImportError>)
    requires from <= |rows| && MapRows(rows, from, mapper).Ok?
    ensures |MapRows(rows, from, mapper).value| == |rows| - from
    ensures forall k :: 0 <= k < |rows| - from ==>
              mapper(rows[from + k], from + k) == Ok(MapRows(rows, from, mapper).value[k])
    decreases |rows| - from
  {
    if from < |rows| {
      var all := MapRows(rows, from, mapper).value;
      var rest := MapRows(rows, from + 1, mapper);
      assert rest.Ok?;
      MapRowsValues(rows, from + 1, mapper);
      assert all == [mapper(rows[from], from).value] + rest.value;
      forall k | 0 <= k < |rows| - from
        ensures mapper(rows[from + k], from + k) == Ok(all[k])
      {
        if k > 0 {
          assert all[k] == rest.value[k - 1];
          assert from + k == (from + 1) + (k - 1);
        }
      }
    }
  }

  /** The kept records are exactly those with a `codigo`, in their original order. */
  lemma {:induction false} WithCodigoSpec(records: seq<ProductRecord>)
    ensures forall r :: r in WithCodigo(records) <==> r in records && r.codigo != []
    ensures |WithCodigo(records)| <= |records|
    ensures (forall k :: 0 <= k < |records| ==> records[k].codigo != []) ==> WithCodigo(records) == records
    ensures (forall k :: 0 <= k < |records| ==> records[k].codigo == []) ==> WithCodigo(records) == []
  {
    if records != [] {
      WithCodigoSpec(records[1..]);
      assert records == [records[0]] + records[1..];
    }
  }

  /** Filtering distributes over concatenation: kept records never change places. */
  lemma {:induction false} WithCodigoAppend(a: seq<ProductRecord>, b: seq<ProductRecord>)
    ensures WithCodigo(a + b) == WithCodigo(a) + WithCodigo(b)
    decreases |a|
  {
    if a == [] {
      assert a + b == b;
    } else {
      assert (a + b)[1..] == a[1..] + b;
      WithCodigoAppend(a[1..], b);
    }
  }

  /** Normalising fails exactly when some row has a malformed numeric cell. */
  lemma NormalizeFails(rows: seq<Row>)
    ensures Normalize(rows).Err? <==> exists i :: 0 <= i < |rows| && !NumbersOk(rows[i])
  {
    MapRowsFails(rows, 0, MapRow);
    forall i | 0 <= i < |rows| ensures MapRow(rows[i], i).Ok? <==> NumbersOk(rows[i]) {
      MapRowOk(rows[i], i);
    }
  }

  /**
   * When it succeeds, every normalised record has a non-empty `codigo` and comes
   * from a row of the sheet mapped at that row's position.
   */
  lemma NormalizeRecords(rows: seq<Row>)
    requires Normalize(rows).Ok?
    ensures forall r :: r in Normalize(rows).value ==>
              r.codigo != [] && exists i :: 0 <= i < |rows| && MapRow(rows[i], i) == Ok(r)
  {
    var mapped := MapRows(rows, 0, MapRow).value;
    WithCodigoSpec(mapped);
    forall r | r in Normalize(rows).value
      ensures r.codigo != [] && exists i :: 0 <= i < |rows| && MapRow(rows[i], i) == Ok(r)
    {
      var i :| 0 <= i < |mapped| && mapped[i] == r;
      MappedFromRow(rows, i);
    }
  }

  /** Record `k` of a successful map is row `k` mapped at its own position. */
  lemma MappedFromRow(rows: seq<Row>, k: nat)
    requires MapRows(rows, 0, MapRow).Ok? && k < |MapRows(rows, 0, MapRow).value|
    ensures k < |rows| && MapRow(rows[k], k) == Ok(MapRows(rows, 0, MapRow).value[k])
  {
    MapRowsValues(rows, 0, MapRow);
    assert rows[0 + k] == rows[k];
  }

  /** Rows whose `Código` is blank or missing never reach the store; if all are, nothing does. */
  lemma BlankCodigosDropped(rows: seq<Row>)
    requires forall i :: 0 <= i < |rows| ==> SanitizeText(Get(rows[i], COL_CODE)) == []
    requires Normalize(rows).Ok?
    ensures Normalize(rows).value == []
  {
    var mapped := MapRows(rows, 0, MapRow).value;
    forall k | 0 <= k < |mapped| ensures mapped[k].codigo == [] {
      MappedFromRow(rows, k);
      MappedCodigoBlank(rows[k], k, mapped[k]);
    }
    WithCodigoSpec(mapped);
  }

  /** A mapped row whose `Código` cell sanitizes to nothing has an empty `codigo`. */
  lemma MappedCodigoBlank(row: Row, index: nat, record: ProductRecord)
    requires MapRow(row, index) == Ok(record)
    requires SanitizeText(Get(row, COL_CODE)) == []
    ensures record.codigo == []
  {
    MapRowOk(row, index);
  }

  // ---------------------------------------------------------------------------
  // The import run

  /** The outcome of the two store calls in a run that reaches the store. */
  datatype StoreBehaviour = StoreWorks | DeleteManyThrows | CreateManyThrows

  /**
   * `importProductosVender` as a function of its inputs and the store before the run:
   * the value it returns (or the error it throws) and the store after it.
   */
  function Import(fileExists: bool, rows: seq<Row>, behaviour: StoreBehaviour, before: seq<ProductRecord>)
    : (r: (Result<nat, ImportError>, seq<ProductRecord>))
    ensures r.0.Ok? && r.0.value > 0 ==> |r.1| == r.0.value
    ensures r.0 == Ok(0) ==> r.1 == before
    ensures r.0.Err? ==> r.1 == before || r.1 == []
    ensures forall p :: p in r.1 ==> p in before || p.codigo != []
  {
    if !fileExists then (Err(FileNotFound(EXCEL_BASENAME)), before)
    else match Normalize(rows)
      case Err(e) => (Err(e), before)
      case Ok(records) =>
        if records == [] then (Ok(0), before)
        else match behaviour
          case DeleteManyThrows => (Err(StoreFailed(DeleteMany)), before)
          case CreateManyThrows => (Err(StoreFailed(CreateMany)), [])
          case StoreWorks => (Ok(|records|), records)
  }

  /**
   * A missing file, a malformed number or an empty result leave the store as it was;
   * a successful run leaves exactly the normalised records and returns their count.
   */
  lemma ImportOutcomes(fileExists: bool, rows: seq<Row>, behaviour: StoreBehaviour, before: seq<ProductRecord>)
    ensures var (result, after) := Import(fileExists, rows, behaviour, before);
      && (!fileExists ==> result == Err(FileNotFound(EXCEL_BASENAME)) && after == before)
      && (fileExists && Normalize(rows).Err? ==> result == Err(Normalize(rows).error) && after == before)
      && (fileExists && Normalize(rows) == Ok([]) ==> result == Ok(0) && after == before)
      && (result.Ok? && result.value > 0 ==>
            Normalize(rows).Ok? && after == Normalize(rows).value && result.value == |after|)
      && (result.Ok? ==> behaviour == StoreWorks || after == before)
  {
  }

  /** A failed insert after the delete leaves the store empty (no rollback). */
  lemma ImportPartialFailure(rows: seq<Row>, before: seq<ProductRecord>)
    requires Normalize(rows).Ok? && Normalize(rows).value != []
    ensures Import(true, rows, CreateManyThrows, before) == (Err(StoreFailed(CreateMany)), [])
  {
  }

  /** Running the import twice on the same sheet leaves the same store as running it once. */
  lemma ImportIdempotent(rows: seq<Row>, before: seq<ProductRecord>)
    ensures var once := Import(true, rows, StoreWorks, before).1;
      Import(true, rows, StoreWorks, once).1 == once
  {
  }

  /** The catalog table and the Prisma client connections opened on it. */
  class CatalogStore {
    var records: seq<ProductRecord>
    var clientsCreated: nat
    var clientsDisconnected: nat

    constructor (initial: seq<ProductRecord>)
      ensures records == initial && clientsCreated == 0 && clientsDisconnected == 0
    {
      records := initial;
      clientsCreated := 0;
      clientsDisconnected := 0;
    }

    /**
     * `importProductosVender`: the store is touched only once the rows have been
     * normalised into a non-empty set; every client it opens is disconnected.
     */
    method ImportProductosVender(fileExists: bool, rows: seq<Row>, behaviour: StoreBehaviour)
      returns (result: Result<nat, ImportError>)
      modifies this
      ensures (result, records) == Import(fileExists, rows, behaviour, old(records))
      ensures clientsDisconnected - clientsCreated == old(clientsDisconnected - clientsCreated)
      ensures clientsCreated == old(clientsCreated) + (if fileExists && Normalize(rows).Ok? && Normalize(rows).value != [] then 1 else 0)
    {
      if !fileExists {
        return Err(FileNotFound(EXCEL_BASENAME));
      }
      var mapped := Normalize(rows);
      if mapped.Err? {
        return Err(mapped.error);
      }
      var data := mapped.value;
      if |data| == 0 {
        return Ok(0);
      }
      clientsCreated := clientsCreated + 1;
      // try { deleteMany; createMany } finally { $disconnect }
      if behaviour == DeleteManyThrows {
        result := Err(StoreFailed(DeleteMany));
      } else {
        records := [];
        if behaviour == CreateManyThrows {
          result := Err(StoreFailed(CreateMany));
        } else {
          records := data;
          result := Ok(|data|);
        }
      }
      clientsDisconnected := clientsDisconnected + 1;
    }
  }
}
