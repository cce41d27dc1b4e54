# Stump evaluation (Tocones) — a Dafny model

The application lets a forestry supervisor evaluate the felling of twelve tree
stumps ("tocones"). A header form records the site, dates and personnel. The
app derives the plantation age from the two dates. An index screen offers one
button per stump. Each button opens that stump's form, where the diameter and
the cuts are entered and three ratios are judged against fixed thresholds. An
export button refuses to run until every stump has been saved. When all are
saved, it flattens the header and the twelve stumps into a twelve-row table.

This project models that core, from `supervisores.py`:

- `records.dfy` (module `Records`): the stored values. A stump record holds
  the nine widget texts under the keys `d`, `altura`, `ct`, `cd`, `ab`,
  `altura1`, `ct_d_ratio`, `cd_d_ratio`, `ab_d_ratio`. The header holds nine
  texts. The stump table maps 1..12 to either the empty dict (`Empty`) or a
  saved record. Completeness and "first missing stump" are defined here.
- `ratios.dfy` (module `Ratios`): the ratio calculation. Percentages are
  part/d × 100 over `real`. The three verdicts are: CT passes iff
  |r − 65| < 0.1; CD passes iff 20 ≤ r ≤ 25; AB passes iff r ≤ 10. A ratio
  label is the formatted number, `% ` and a pass or fail mark.
- `export.dfy` (module `Export`): the exported table, built column by column
  as the source builds it. A lemma proves it equal, row by row, to an
  independently written expected row.
- `screens.dfy` (module `Screens`): the screens as classes.
  - `SlotTable` is the stump dict. It is one object, shared by the index
    screen and every stump form.
  - `StumpForm`, `HeaderScreen` and `IndexScreen` are the three kinds of
    screen, with their button handlers as methods.
  - `ScreenManager` holds the screens built so far and the current screen.
    Its invariant says every built form is keyed by its own number and shares
    the index's table, and that the current screen exists. It also says that
    the index and the forms are only shown once a header is stored, and that
    a slot whose form was never built is empty.
  - Every button handler requires its own screen to be current, because a
    button can only be pressed on the screen that shows it. The one exception
    is "Cerrar" on the export success dialog. It shows the menu but does not
    dismiss the dialog, so it can be pressed again with the menu current.
  - The client methods `EnterStump`, `EnterAllStumps`,
    `EnterReferenceHeader` and `ReferenceSession` walk through a whole
    session using only the contracts above.

Library behaviour the core relies on is a parameter of the methods that use
it:
- `parse: string -> Option<real>` stands for Python's `float()`;
- `fmt: real -> string` stands for the `:.1f` formatting;
- `ageOf: (string, string) -> Option<string>` stands for date parsing, the
  day difference divided by 365.25, rounding and `str`.

Behaviour of the code that the model keeps:
- Leaving a stump form does not discard unsaved edits. The form screen is
  built once and reused, so re-opening it shows whatever its widgets last
  held. It is prefilled from the table only when it is built.
- Returning to the main menu after an export does not clear the session. The
  screens and their data live on.
- The stored header contains the age, but the export never writes it. A
  computed age is also not cleared when the dates are edited afterwards.
- The export reads the header only after the completeness scan. A header that
  was never saved would make the lookup fail, and that error would be caught
  and reported (`ExportFailed`). This branch is unreachable in the app: the
  index is entered only after the header is stored, and a stored header is
  never cleared. `ExportAll` proves that it never returns `ExportFailed`.
- The prefill of a new stump form from a saved slot never fires. Form n is
  built once, the first time it is opened, and only form n writes slot n. So
  every form starts blank, as `OpenForm` states.

## Model

| member | source | states |
|---|---|---|
| Records.InitialSlots | supervisores.py:355 | the table starts with exactly the keys 1..12, each the empty dict |
| Records.IncompleteHasFirstMissing | supervisores.py:425-431 | a well-keyed table has a first empty slot, where the scan stops, exactly when it is not complete |
| Records.FirstMissingUnique | supervisores.py:425-431 | the first empty slot in the scan order 1..12 is unique |
| Records.InitialMissesFirst | supervisores.py:425-431 | on a fresh table the scan stops at stump 1 and the table is not complete |
| Records.BlankSavesComplete | supervisores.py:426 | emptiness is about the dict, not its texts: twelve records saved with six blank inputs (and calculated labels) make the table complete |
| Ratios.CtPassesWindow | supervisores.py:638 | over exact reals the CT rule is the open window 64.9 < r < 65.1; 64.9 and 65.1 fail, 65 passes |
| Ratios.CdPassesWindow | supervisores.py:639 | the CD rule includes both 20 and 25 and fails below 20 or above 25 |
| Ratios.VerdictsOnMeasurements | supervisores.py:634-640 | for d > 0 the verdicts read on the raw cuts: 0.649d < CT < 0.651d, d/5 ≤ CD ≤ d/4, AB ≤ d/10 |
| Ratios.PercentBelow | supervisores.py:634-636 | for d > 0, comparing part/d×100 with a bound is comparing part with bound/100×d, in both directions and both strictnesses |
| Ratios.RatioLabel | supervisores.py:638-640 | the label starts with the formatted number and its final mark gives back the verdict |
| Ratios.Recalculated | supervisores.py:627-646 | the six inputs never change; if any of d, ct, cd, ab does not parse nothing changes; otherwise each label is non-empty, starts with the formatted percentage and shows that ratio's verdict |
| Ratios.ReferenceStumpPasses | supervisores.py:634-640 | d = 20, CT = 13, CD = 4.6, AB = 1.8 give 65, 23 and 9 and pass all three rules |
| Export.ExportColumns | supervisores.py:436-458 | the table has the 21 column names in source order and every column has 12 cells |
| Export.ExportedRow | supervisores.py:436-458 | row k holds: stump number k+1, the header values, both signature placeholders, then stump k+1's measurements with k+1 repeated as tocon_num and its three labels; column `motosierista` holds header key `motosierrista` |
| Export.HeaderRepeated | supervisores.py:438-447 | every row carries the same header and `Firma guardada` cells |
| Export.NumberColumns | supervisores.py:437-450 | the `tocon` and `tocon_num` columns are equal and count 1..12 |
| Screens.SlotTable.constructor | supervisores.py:355 | a new stump dict is the initial twelve empty slots |
| Screens.StumpForm.constructor | supervisores.py:617-625 | a new form for stump n shows the stored record of slot n if it is non-empty, blank texts otherwise |
| Screens.StumpForm.Edit | supervisores.py:559-564 | typing, on this form's screen, changes exactly that one input |
| Screens.StumpForm.CalculateRatios | supervisores.py:627-646 | on this form's screen, the form texts become the recalculated texts |
| Screens.StumpForm.Save | supervisores.py:648-663 | on this form's screen: with an empty CT label only the calculation runs and no slot changes; otherwise slot n becomes the nine current texts verbatim, the other slots and the form are unchanged |
| Screens.StumpForm.Back | supervisores.py:611 | from this form's screen, the stump index becomes current |
| Screens.HeaderScreen.constructor | supervisores.py:202-276 | empty texts, spinners at `Seleccione`, empty age, and no stored header |
| Screens.HeaderScreen.Edit | supervisores.py:231-262 | typing or picking, on the header screen, changes exactly that one input |
| Screens.HeaderScreen.CalculateAge | supervisores.py:318-329 | on the header screen, the age field shows the computed age, or stays as it was when a date does not parse |
| Screens.HeaderScreen.SaveAndContinue | supervisores.py:331-348 | on the header screen: with an empty age only the age is computed, nothing is stored and the screen stays; otherwise the nine texts are stored and `ingreso_tocones` becomes current |
| Screens.IndexScreen.constructor | supervisores.py:353-355 | the index owns a fresh table of twelve empty slots |
| Screens.IndexScreen.OpenForm | supervisores.py:414-421 | from the index, form n is built only if it does not exist, and then shows blank texts because slot n is still empty; an existing one is reused untouched; form n always ends current |
| Screens.IndexScreen.Back | supervisores.py:408 | from the index, the header form becomes current |
| Screens.IndexScreen.ExportAll | supervisores.py:423-458 | from the index: refusal iff some slot is empty, naming the first empty index in order 1..12; otherwise the table of the stored header and the twelve records; the header lookup never fails |
| Screens.IndexScreen.CloseExportDialog | supervisores.py:498-508 | from the success dialog, which exists only after a complete table was exported and stays open once the menu is shown (so the index or the menu is current), the main menu becomes current |
| Screens.ScreenManager.constructor | supervisores.py:670-677 | the app starts on the menu, with no stump form, a blank header screen and an initial table |
| Screens.ScreenManager.ChooseTocones | supervisores.py:190-191 | from the main menu, the header form becomes current |
| Screens.EnterReferenceHeader | supervisores.py:331-348 | client: the first save press only fills the age; the second stores the header and opens the index |
| Screens.EnterStump | supervisores.py:648-663 | client: on a new form over an empty slot, typing the six inputs and pressing save twice stores exactly those inputs with their calculated labels in slot n and in no other slot, and the reused form n keeps showing that record |
| Screens.EnterAllStumps | supervisores.py:378-421 | client: entering the same inputs in forms 1..12 of a fresh session fills every slot with the same calculated record |

## Left out

- The Kivy user interface is not modelled: layouts, labels, colours, the logo, the popups and their messages, and the signature pads with their strokes. No captured signature reaches the export; it writes only the placeholder text.
- The other main-menu buttons only open a "not available" popup and are not modelled.
- The platform plumbing is not modelled. Resolving the downloads folder, creating it, and sharing or opening the file are operating-system calls.
- Writing the spreadsheet (`DataFrame.to_excel`) and building and saving the QR image are not modelled. The QR summary text is left out with them. `Exported` is the table handed to the writer. An error raised by the writer or by the QR library is not modelled.
- The file name's timestamp is not modelled, because it depends on the clock.
- Age computation is the parameter `ageOf`. Date parsing and float rounding are library behaviour.
- Number parsing is the parameter `parse`. It yields a `real`, so `nan` and `inf` inputs are not modelled. The verdicts are decided on exact reals, so float rounding near a threshold is not modelled. Its sharpest consequence is at the CT window's ends. In the app, a CT percentage equal to the double nearest 64.9 or 65.1 passes, because `abs(x - 65)` evaluates to about 0.0999999999999943, below 0.1. The model fails both values.
- Percentage formatting (`:.1f`) is the parameter `fmt`.
- A zero diameter makes the calculation divide by zero, and that error is not caught. `CalculateRatios`, and `Save` when it would calculate, require that the diameter is not zero whenever all four inputs parse.
- The personnel rosters are not modelled. The spinners only let the user pick from them, but `HeaderScreen.Edit` accepts any text.
- Ratios.RatioLabel: its contract states the leading number and the final verdict mark, not the `% ` text between them.
