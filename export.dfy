/**
 * The table handed to the spreadsheet writer when every stump is saved:
 * built column by column, each column twelve cells long, the header values
 * repeated in every row.
 */
module Export {
  import opened Records

  datatype Cell = Num(n: int) | Text(s: string)

  datatype Column = Column(name: string, values: seq<Cell>)

  /** Column titles, in order (note "motosierista": the header key is spelled "motosierrista"). */
  const ColumnNames: seq<string> := [
    "tocon", "finca", "lote", "especie", "plantacion", "evaluacion",
    "supervisor", "evaluador", "motosierista", "firma_evaluad", "firma_motosierista",
    "diametro", "altura", "tocon_num", "CT", "CD", "Ancho Bisagra (AB)",
    "Altura entre CT y CD", "CT/d*100", "CD/d*100", "AB/d*100"]

  /** Written in both signature columns instead of the drawn signature. */
  const SignaturePlaceholder: string := "Firma guardada"

  /** The cell `c` repeated once per stump. */
  function Repeat(c: Cell): seq<Cell> {
    seq(StumpCount, _ => c)
  }

  /** One cell per stump 1..StumpCount, taken from each saved record. */
  function FromSlots(slots: map<int, Slot>, f: StumpRecord -> string): seq<Cell>
    requires Complete(slots)
  {
    seq(StumpCount, k requires 0 <= k < StumpCount => Text(f(slots[k + 1].record)))
  }

  /** The stump numbers 1..StumpCount. */
  function Numbers(): seq<Cell> {
    seq(StumpCount, k => Num(k + 1))
  }

  /** The first eleven columns: the stump number, the header values and the two signatures. */
  function HeaderColumns(h: Header): seq<Column> {
    [ Column("tocon", Numbers()),
      Column("finca", Repeat(Text(h.finca))),
      Column("lote", Repeat(Text(h.lote))),
      Column("especie", Repeat(Text(h.especie))),
      Column("plantacion", Repeat(Text(h.plantacion))),
      Column("evaluacion", Repeat(Text(h.evaluacion))),
      Column("supervisor", Repeat(Text(h.supervisor))),
      Column("evaluador", Repeat(Text(h.evaluador))),
      Column("motosierista", Repeat(Text(h.motosierrista))),
      Column("firma_evaluad", Repeat(Text(SignaturePlaceholder))),
      Column("firma_motosierista", Repeat(Text(SignaturePlaceholder))) ]
  }

  /** The last ten columns: per-stump measurements, the number again, and the ratio labels. */
  function StumpColumns(slots: map<int, Slot>): seq<Column>
    requires Complete(slots)
  {
    [ Column("diametro", FromSlots(slots, (r: StumpRecord) => r.d)),
      Column("altura", FromSlots(slots, (r: StumpRecord) => r.altura)),
      Column("tocon_num", Numbers()),
      Column("CT", FromSlots(slots, (r: StumpRecord) => r.ct)),
      Column("CD", FromSlots(slots, (r: StumpRecord) => r.cd)),
      Column("Ancho Bisagra (AB)", FromSlots(slots, (r: StumpRecord) => r.ab)),
      Column("Altura entre CT y CD", FromSlots(slots, (r: StumpRecord) => r.altura1)),
      Column("CT/d*100", FromSlots(slots, (r: StumpRecord) => r.ctRatio)),
      Column("CD/d*100", FromSlots(slots, (r: StumpRecord) => r.cdRatio)),
      Column("AB/d*100", FromSlots(slots, (r: StumpRecord) => r.abRatio)) ]
  }

  /** The table as the export builds it, column by column, in the order of the source's dict. */
  function ExportColumns(h: Header, slots: map<int, Slot>): (cols: seq<Column>)
    requires Complete(slots)
    ensures |cols| == |ColumnNames|
    ensures forall c :: 0 <= c < |cols| ==> cols[c].name == ColumnNames[c]
    ensures forall c :: 0 <= c < |cols| ==> |cols[c].values| == StumpCount
  {
    HeaderColumns(h) + StumpColumns(slots)
  }

  /** Row `k` (0-based) of a table given by columns. */
  function RowOf(cols: seq<Column>, k: nat): seq<Cell>
    requires forall c :: 0 <= c < |cols| ==> k < |cols[c].values|
  {
    seq(|cols|, c requires 0 <= c < |cols| => cols[c].values[k])
  }

  /** The header values and the two signature placeholders, as one row shows them. */
  function HeaderCells(h: Header): seq<Cell> {
    [ Text(h.finca), Text(h.lote), Text(h.especie), Text(h.plantacion),
      Text(h.evaluacion), Text(h.supervisor), Text(h.evaluador), Text(h.motosierrista),
      Text(SignaturePlaceholder), Text(SignaturePlaceholder) ]
  }

  /**
   * The row of stump `i` as the exported sheet should read: its number, the
   * header cells, then the stump's measurements and ratio labels with the
   * number repeated before CT.
   */
  function ExpectedRow(h: Header, i: int, r: StumpRecord): seq<Cell> {
    [Num(i)] + HeaderCells(h) +
    [ Text(r.d), Text(r.altura), Num(i), Text(r.ct), Text(r.cd), Text(r.ab),
      Text(r.altura1), Text(r.ctRatio), Text(r.cdRatio), Text(r.abRatio) ]
  }

  /** Reading a row of two column groups side by side reads each group's row. */
  lemma RowOfAppend(a: seq<Column>, b: seq<Column>, k: nat)
    requires forall c :: 0 <= c < |a| ==> k < |a[c].values|
    requires forall c :: 0 <= c < |b| ==> k < |b[c].values|
    ensures RowOf(a + b, k) == RowOf(a, k) + RowOf(b, k)
  {
  }

  /** Read row by row, the column-built table holds, in row k, stump k + 1 under the session header. */
  lemma ExportedRow(h: Header, slots: map<int, Slot>, k: nat)
    requires Complete(slots) && k < StumpCount
    ensures RowOf(ExportColumns(h, slots), k) == ExpectedRow(h, k + 1, slots[k + 1].record)
  {
    var r := slots[k + 1].record;
    RowOfAppend(HeaderColumns(h), StumpColumns(slots), k);
    assert RowOf(HeaderColumns(h), k) == [Num(k + 1)] + HeaderCells(h);
    assert RowOf(StumpColumns(slots), k) ==
      [ Text(r.d), Text(r.altura), Num(k + 1), Text(r.ct), Text(r.cd), Text(r.ab),
        Text(r.altura1), Text(r.ctRatio), Text(r.cdRatio), Text(r.abRatio) ];
  }

  /** Every row carries the same header and signature cells, those of the session header. */
  lemma HeaderRepeated(h: Header, slots: map<int, Slot>, k: nat)
    requires Complete(slots) && k < StumpCount
    ensures RowOf(ExportColumns(h, slots), k)[1..11] == HeaderCells(h)
  {
    ExportedRow(h, slots, k);
    var want := ExpectedRow(h, k + 1, slots[k + 1].record);
    assert want[1..11] == HeaderCells(h);
  }

  /** The two stump-number columns agree and count 1..StumpCount. */
  lemma NumberColumns(h: Header, slots: map<int, Slot>)
    requires Complete(slots)
    ensures ExportColumns(h, slots)[0].values == ExportColumns(h, slots)[13].values
    ensures forall k :: 0 <= k < StumpCount ==> ExportColumns(h, slots)[0].values[k] == Num(k + 1)
  {
  }
}
