/**
 * The screens of the stump evaluation and the screen manager that shows one
 * of them at a time: the header form, the index of twelve stump buttons with
 * the export button, and one form per stump, built the first time it is
 * opened. The stump table is one object shared by the index and every form.
 */
module Screens {
  import opened Records
  import opened Ratios
  import opened Export

  /** Screen names: "menu", "encabezado", "ingreso_tocones", "formulario_tocon_<n>". */
  datatype ScreenName = Menu | Encabezado | IngresoTocones | FormularioTocon(number: int)

  /** What pressing "Guardar Todos los Datos" leads to. */
  datatype ExportOutcome =
    | MissingStump(index: int)         // "Faltan datos del Tocón <index>"; nothing else happens
    | ExportFailed                     // no header stored: the lookup fails (never happens once the index is reachable)
    | Exported(columns: seq<Column>)   // the table handed to the spreadsheet writer

  /** The stump dict: keys 1..12, each the empty dict or a saved record. */
  class SlotTable {
    var slots: map<int, Slot>

    ghost predicate Valid()
      reads this
    {
      SlotKeys(slots)
    }

    constructor ()
      ensures Valid() && slots == InitialSlots()
    {
      slots := InitialSlots();
    }
  }

  /** The form of one stump: six inputs, three ratio labels, and the shared table. */
  class StumpForm {
    const number: StumpNumber
    const table: SlotTable
    var texts: StumpRecord

    /** The form fills its widgets from the stored slot only here, when it is built. */
    constructor (number: StumpNumber, table: SlotTable)
      ensures this.number == number && this.table == table
      ensures texts == Prefill(table.slots, number)
    {
      this.number := number;
      this.table := table;
      texts := Prefill(table.slots, number);
    }

    /** The user types into one of the six inputs, on this form's screen. */
    method Edit(sm: ScreenManager, field: StumpInput, text: string)
      requires sm.current == FormularioTocon(number) && number in sm.forms && sm.forms[number] == this
      modifies this`texts
      ensures texts == old(texts).With(field, text)
    {
      texts := texts.With(field, text);
    }

    /** "Calcular": fill the three ratio labels, or leave the form as it is if an input is not a number. */
    method CalculateRatios(sm: ScreenManager, parse: string -> Option<real>, fmt: real -> string)
      requires sm.current == FormularioTocon(number) && number in sm.forms && sm.forms[number] == this
      requires RatiosDefined(texts, parse)
      modifies this`texts
      ensures texts == Recalculated(old(texts), parse, fmt)
    {
      texts := Recalculated(texts, parse, fmt);
    }

    /**
     * "Guardar": while the CT label is empty, only calculate; otherwise
     * overwrite this stump's slot with the nine current texts, as they are.
     */
    method Save(sm: ScreenManager, parse: string -> Option<real>, fmt: real -> string)
      requires sm.Valid() && sm.current == FormularioTocon(number) && sm.forms[number] == this
      requires texts.ctRatio == "" ==> RatiosDefined(texts, parse)
      modifies this`texts, table
      ensures sm.Valid()
      ensures old(texts).ctRatio == "" ==>
        texts == Recalculated(old(texts), parse, fmt) && table.slots == old(table.slots)
      ensures old(texts).ctRatio != "" ==>
        texts == old(texts) && table.slots == old(table.slots)[number := Saved(old(texts))]
    {
      if texts.ctRatio == "" {
        CalculateRatios(sm, parse, fmt);
        return;
      }
      table.slots := table.slots[number := Saved(texts)];
    }

    /** "Volver": back to the stump index, keeping whatever the widgets hold. */
    method Back(sm: ScreenManager)
      requires sm.Valid() && sm.current == FormularioTocon(number) && sm.forms[number] == this
      modifies sm`current
      ensures sm.Valid() && sm.current == IngresoTocones
    {
      sm.current := IngresoTocones;
    }
  }

  /** The header form: eight inputs, the read-only age field, and the stored header. */
  class HeaderScreen {
    var texts: Header
    var data: Option<Header>   // None is the empty dict the screen starts with

    constructor ()
      ensures texts == BlankHeader && data == None
    {
      texts := BlankHeader;
      data := None;
    }

    /** The user types into a text input or picks a name in a spinner, on the header screen. */
    method Edit(sm: ScreenManager, field: HeaderInput, text: string)
      requires sm.header == this && sm.current == Encabezado
      modifies this`texts
      ensures texts == old(texts).With(field, text)
    {
      texts := texts.With(field, text);
    }

    /**
     * "Calcular Edad": `ageOf` gives the age text for the two date texts, or
     * None when either is not a dd/mm/yyyy date (an error is shown instead).
     */
    method CalculateAge(sm: ScreenManager, ageOf: (string, string) -> Option<string>)
      requires sm.header == this && sm.current == Encabezado
      modifies this`texts
      ensures texts == old(texts).WithAge(ageOf(old(texts).plantacion, old(texts).evaluacion))
    {
      texts := texts.WithAge(ageOf(texts.plantacion, texts.evaluacion));
    }

    /**
     * "Guardar y Continuar": while the age field is empty, only calculate the
     * age and stay; otherwise store the nine texts and go to the stump index.
     */
    method SaveAndContinue(sm: ScreenManager, ageOf: (string, string) -> Option<string>)
      requires sm.Valid() && sm.header == this && sm.current == Encabezado
      modifies this, sm`current
      ensures sm.Valid()
      ensures old(texts).edad == "" ==>
        && texts == old(texts).WithAge(ageOf(old(texts).plantacion, old(texts).evaluacion))
        && data == old(data) && sm.current == old(sm.current)
      ensures old(texts).edad != "" ==>
        texts == old(texts) && data == Some(old(texts)) && sm.current == IngresoTocones
    {
      if texts.edad == "" {
        CalculateAge(sm, ageOf);
        return;
      }
      data := Some(texts);
      sm.current := IngresoTocones;
    }
  }

  /** The stump index: owns the stump table, opens forms, and exports. */
  class IndexScreen {
    const table: SlotTable

    constructor ()
      ensures fresh(table) && table.Valid() && table.slots == InitialSlots()
    {
      table := new SlotTable();
    }

    /**
     * "Tocón n": build the form of stump n unless it exists, then show it.
     * A form is built before anything can save slot n, so it always starts
     * blank: the prefill from the table never finds a saved record.
     */
    method OpenForm(n: StumpNumber, sm: ScreenManager)
      requires sm.Valid() && sm.index == this && sm.current == IngresoTocones
      modifies sm`forms, sm`current
      ensures sm.Valid() && sm.current == FormularioTocon(n)
      ensures n in old(sm.forms) ==> sm.forms == old(sm.forms)
      ensures n !in old(sm.forms) ==>
        && n in sm.forms && fresh(sm.forms[n])
        && sm.forms == old(sm.forms)[n := sm.forms[n]]
        && sm.forms[n].texts == BlankStump
    {
      if n !in sm.forms {
        var form := new StumpForm(n, table);
        sm.forms := sm.forms[n := form];
      }
      sm.current := FormularioTocon(n);
    }

    /** "Volver": back to the header form. */
    method Back(sm: ScreenManager)
      requires sm.Valid() && sm.index == this && sm.current == IngresoTocones
      modifies sm`current
      ensures sm.Valid() && sm.current == Encabezado
    {
      sm.current := Encabezado;
    }

    /**
     * "Guardar Todos los Datos": scan stumps 1..12 in order and stop at the
     * first empty slot; when none is empty, build the table from the stored
     * header and the twelve records. The index is only reachable once a
     * header is stored, so the header lookup never fails.
     */
    method ExportAll(sm: ScreenManager) returns (r: ExportOutcome)
      requires sm.Valid() && sm.index == this && sm.current == IngresoTocones
      ensures r != ExportFailed
      ensures r.MissingStump? <==> !Complete(table.slots)
      ensures r.MissingStump? ==> IsFirstMissing(table.slots, r.index)
      // The caught lookup failure on a header never stored; under Valid() at the index it cannot occur.
      ensures Complete(table.slots) && sm.header.data.None? ==> r == ExportFailed
      ensures Complete(table.slots) && sm.header.data.Some? ==>
        r == Exported(ExportColumns(sm.header.data.value, table.slots))
    {
      for i := 1 to StumpCount + 1
        invariant forall j :: 1 <= j < i ==> j in table.slots && table.slots[j].Saved?
      {
        if table.slots[i].Empty? {
          return MissingStump(i);
        }
      }
      match sm.header.data
      case None =>
        r := ExportFailed;
      case Some(h) =>
        r := Exported(ExportColumns(h, table.slots));
    }

    /**
     * "Cerrar" on the success dialog: show the main menu. The button does
     * not dismiss the dialog, which stays open over the whole window, so it
     * can be pressed again with the menu already current. Either way the
     * dialog only exists after an export of a complete table, and the table
     * stays complete.
     */
    method CloseExportDialog(sm: ScreenManager)
      requires sm.Valid() && sm.index == this && Complete(table.slots)
      requires sm.current == IngresoTocones || sm.current == Menu
      modifies sm`current
      ensures sm.Valid() && sm.current == Menu
    {
      sm.current := Menu;
    }
  }

  /** The screen manager of the app: the fixed screens, the forms built so far, the current screen. */
  class ScreenManager {
    const header: HeaderScreen
    const index: IndexScreen
    var forms: map<int, StumpForm>
    var current: ScreenName

    /**
     * Every form built is keyed by its own number and shares the index's
     * table, and the current screen is one that exists. The index and the
     * forms are only reachable after a header was stored, and only form n
     * writes slot n, so a slot whose form was never built is empty.
     */
    ghost predicate Valid()
      reads this, header`data, index.table
    {
      && index.table.Valid()
      && (forall n :: n in forms ==> forms[n].number == n && forms[n].table == index.table)
      && (current.FormularioTocon? ==> current.number in forms)
      && (current == IngresoTocones || current.FormularioTocon? ==> header.data.Some?)
      && (forall n :: 1 <= n <= StumpCount && n !in forms ==> index.table.slots[n] == Empty)
    }

    /** The app starts on the menu, with the header and index screens and no stump form. */
    constructor ()
      ensures Valid() && current == Menu && forms == map[]
      ensures fresh(header) && fresh(index) && fresh(index.table)
      ensures header.texts == BlankHeader && header.data == None
      ensures index.table.slots == InitialSlots()
    {
      header := new HeaderScreen();
      index := new IndexScreen();
      forms := map[];
      current := Menu;
    }

    /** "TOCONES" on the main menu. */
    method ChooseTocones()
      requires Valid() && current == Menu
      modifies this`current
      ensures Valid() && current == Encabezado
    {
      current := Encabezado;
    }
  }

  /**
   * A client step: open the not yet built form of stump n, type the six
   * inputs of `t`, press "Guardar" twice and go back. The first press only
   * calculates; the second stores the inputs with the calculated labels.
   */
  method EnterStump(sm: ScreenManager, n: StumpNumber, t: StumpRecord,
                    parse: string -> Option<real>, fmt: real -> string)
    returns (stored: StumpRecord)
    requires t.ctRatio == "" && t.cdRatio == "" && t.abRatio == ""
    requires ReadingsOf(t, parse).Some? && ReadingsOf(t, parse).value.d != 0.0
    requires sm.Valid() && sm.current == IngresoTocones && n !in sm.forms
    modifies sm`forms, sm`current, sm.index.table
    ensures stored == Recalculated(t, parse, fmt)
    ensures sm.Valid() && sm.current == IngresoTocones
    ensures sm.index.table.slots == old(sm.index.table.slots)[n := Saved(stored)]
    ensures sm.forms.Keys == old(sm.forms.Keys) + {n}
    ensures sm.forms[n].texts == stored
  {
    sm.index.OpenForm(n, sm);
    var form := sm.forms[n];
    TypeInputs(sm, form, t);
    form.Save(sm, parse, fmt);
    form.Save(sm, parse, fmt);
    form.Back(sm);
    stored := form.texts;
  }

  /** A client step: on a blank form, type the six inputs of `t`. */
  method TypeInputs(sm: ScreenManager, form: StumpForm, t: StumpRecord)
    requires t.ctRatio == "" && t.cdRatio == "" && t.abRatio == ""
    requires sm.current == FormularioTocon(form.number) && form.number in sm.forms && sm.forms[form.number] == form
    requires form.texts == BlankStump
    modifies form`texts
    ensures form.texts == t
  {
    form.Edit(sm, Diameter, t.d);
    form.Edit(sm, Height, t.altura);
    form.Edit(sm, FellingCut, t.ct);
    form.Edit(sm, DirectionCut, t.cd);
    form.Edit(sm, Hinge, t.ab);
    form.Edit(sm, HeightBetweenCuts, t.altura1);
  }

  /** A client step: enter the same inputs in all twelve forms, in order. */
  method EnterAllStumps(sm: ScreenManager, t: StumpRecord, parse: string -> Option<real>, fmt: real -> string)
    requires t.ctRatio == "" && t.cdRatio == "" && t.abRatio == ""
    requires ReadingsOf(t, parse).Some? && ReadingsOf(t, parse).value.d != 0.0
    requires sm.Valid() && sm.current == IngresoTocones && sm.forms == map[]
    modifies sm`forms, sm`current, sm.index.table
    ensures sm.Valid() && sm.current == IngresoTocones
    ensures forall j :: 1 <= j <= StumpCount ==> sm.index.table.slots[j] == Saved(Recalculated(t, parse, fmt))
  {
    var table, record := sm.index.table, Recalculated(t, parse, fmt);
    for n := 1 to StumpCount + 1
      invariant sm.Valid() && sm.current == IngresoTocones
      invariant forall j :: 1 <= j < n ==> table.slots[j] == Saved(record)
      invariant forall j :: n <= j <= StumpCount ==> table.slots[j] == Empty
      invariant forall j :: j in sm.forms ==> j < n
    {
      assert n !in sm.forms && table.slots[n] == Empty;
      ghost var before := table.slots;
      var stored := EnterStump(sm, n, t, parse, fmt);
      assert table.slots == before[n := Saved(record)];
      forall j | 1 <= j <= n
        ensures table.slots[j] == Saved(record)
      {
        if j < n {
          assert before[j] == Saved(record);
        }
      }
    }
  }

  /**
   * A client step: fill the header form of the reference session and press
   * "Guardar y Continuar" twice; the first press only computes the age.
   */
  method EnterReferenceHeader(sm: ScreenManager, ageOf: (string, string) -> Option<string>)
    requires ageOf("01/01/2020", "01/01/2022") == Some("2.0")
    requires sm.Valid() && sm.current == Encabezado && sm.header.texts == BlankHeader && sm.header.data == None
    modifies sm.header, sm`current
    ensures sm.Valid() && sm.current == IngresoTocones
    ensures sm.header.data == Some(BlankHeader.(finca := "Lote A", plantacion := "01/01/2020",
                                                evaluacion := "01/01/2022", edad := "2.0"))
  {
    var hs := sm.header;
    hs.Edit(sm, Farm, "Lote A");
    hs.Edit(sm, PlantingDate, "01/01/2020");
    hs.Edit(sm, EvaluationDate, "01/01/2022");
    hs.SaveAndContinue(sm, ageOf);
    assert hs.data == None && sm.current == Encabezado;
    hs.SaveAndContinue(sm, ageOf);
  }

  /**
   * A client of the screens: the reference session (farm "Lote A", twelve
   * stumps d = 20, CT = 13, CD = 4.6, AB = 1.8). Export is refused while a
   * stump is missing; once all twelve are stored it yields the table, whose
   * last row shows three passing verdicts.
   */
  method ReferenceSession(
    parse: string -> Option<real>, fmt: real -> string, ageOf: (string, string) -> Option<string>)
    requires parse("20") == Some(20.0) && parse("13") == Some(13.0)
    requires parse("4.6") == Some(4.6) && parse("1.8") == Some(1.8)
    requires ageOf("01/01/2020", "01/01/2022") == Some("2.0")
  {
    var sm := new ScreenManager();
    sm.ChooseTocones();
    EnterReferenceHeader(sm, ageOf);
    var h := sm.header.data.value;

    var outcome := sm.index.ExportAll(sm);
    InitialMissesFirst();
    assert outcome == MissingStump(1);

    var t := StumpRecord("20", "", "13", "4.6", "1.8", "", "", "", "");
    assert ReadingsOf(t, parse) == Some(Readings(20.0, 13.0, 4.6, 1.8));
    EnterAllStumps(sm, t, parse, fmt);
    var record := Recalculated(t, parse, fmt);
    ReferenceStumpPasses();
    assert VerdictOf(record.ctRatio) == Some(true);
    assert VerdictOf(record.cdRatio) == Some(true);
    assert VerdictOf(record.abRatio) == Some(true);

    outcome := sm.index.ExportAll(sm);
    ExportedRow(h, sm.index.table.slots, 11);
    assert RowOf(outcome.columns, 11) == ExpectedRow(h, 12, record);
  }
}
