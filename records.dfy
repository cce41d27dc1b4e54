/**
 * The values the stump-evaluation screens store: one record per stump, one
 * header per session, and the twelve-slot table that holds the stumps.
 * Every field is the text of a widget, kept verbatim.
 */
module Records {

  datatype Option<T> = None | Some(value: T)

  /** Number of stumps evaluated per session; slots are keyed 1..StumpCount. */
  const StumpCount: int := 12

  /**
   * One stump as the form stores it: the six measurement inputs
   * (keys d, altura, ct, cd, ab, altura1) and the three ratio labels
   * (keys ct_d_ratio, cd_d_ratio, ab_d_ratio).
   */
  datatype StumpRecord = StumpRecord(
    d: string, altura: string, ct: string, cd: string, ab: string, altura1: string,
    ctRatio: string, cdRatio: string, abRatio: string)
  {
    /** The record after the user types `text` into one measurement input. */
    function With(field: StumpInput, text: string): StumpRecord {
      match field
      case Diameter => this.(d := text)
      case Height => this.(altura := text)
      case FellingCut => this.(ct := text)
      case DirectionCut => this.(cd := text)
      case Hinge => this.(ab := text)
      case HeightBetweenCuts => this.(altura1 := text)
    }
  }

  /** The six editable inputs of a stump form; the ratio labels are not editable. */
  datatype StumpInput = Diameter | Height | FellingCut | DirectionCut | Hinge | HeightBetweenCuts

  /** A fresh form: every input and label holds the empty text. */
  const BlankStump: StumpRecord := StumpRecord("", "", "", "", "", "", "", "", "")

  /**
   * The session header (keys finca, lote, especie, plantacion, evaluacion,
   * supervisor, evaluador, motosierrista, edad).
   */
  datatype Header = Header(
    finca: string, lote: string, especie: string, plantacion: string, evaluacion: string,
    supervisor: string, evaluador: string, motosierrista: string, edad: string)
  {
    function With(field: HeaderInput, text: string): Header {
      match field
      case Farm => this.(finca := text)
      case Plot => this.(lote := text)
      case Species => this.(especie := text)
      case PlantingDate => this.(plantacion := text)
      case EvaluationDate => this.(evaluacion := text)
      case Supervisor => this.(supervisor := text)
      case Evaluator => this.(evaluador := text)
      case ChainsawOperator => this.(motosierrista := text)
    }

    /** The header after an age calculation: the age shown, or unchanged when the dates do not parse. */
    function WithAge(age: Option<string>): Header {
      match age
      case None => this
      case Some(a) => this.(edad := a)
    }
  }

  /** The eight inputs of the header form; the age field is read-only. */
  datatype HeaderInput =
    Farm | Plot | Species | PlantingDate | EvaluationDate | Supervisor | Evaluator | ChainsawOperator

  /** Initial spinner caption of the three personnel pickers. */
  const Unselected: string := "Seleccione"

  const BlankHeader: Header :=
    Header("", "", "", "", "", Unselected, Unselected, Unselected, "")

  /** The numbers of the stump buttons, and so of the forms and their slots. */
  type StumpNumber = n: int | 1 <= n <= StumpCount witness 1

  /** A slot of the stump table: the empty dict `{}` or a saved record. */
  datatype Slot = Empty | Saved(record: StumpRecord)

  /** The table has exactly the keys 1..StumpCount. */
  ghost predicate SlotKeys(slots: map<int, Slot>) {
    forall i :: i in slots <==> 1 <= i <= StumpCount
  }

  /** The table a session starts with: every slot is the empty dict. */
  function InitialSlots(): (slots: map<int, Slot>)
    ensures SlotKeys(slots)
    ensures forall i :: i in slots ==> slots[i] == Empty
  {
    map[1 := Empty, 2 := Empty, 3 := Empty, 4 := Empty, 5 := Empty, 6 := Empty,
        7 := Empty, 8 := Empty, 9 := Empty, 10 := Empty, 11 := Empty, 12 := Empty]
  }

  /** Every slot 1..StumpCount holds a saved record (whatever its texts). */
  predicate Complete(slots: map<int, Slot>) {
    forall i :: 1 <= i <= StumpCount ==> i in slots && slots[i].Saved?
  }

  /** `k` is the first empty slot met when scanning 1, 2, ..., StumpCount. */
  predicate IsFirstMissing(slots: map<int, Slot>, k: int) {
    && 1 <= k <= StumpCount
    && k in slots && slots[k].Empty?
    && forall j :: 1 <= j < k ==> j in slots && slots[j].Saved?
  }

  /** What a newly built form for stump `n` shows: the stored record, if any. */
  function Prefill(slots: map<int, Slot>, n: int): StumpRecord {
    if n in slots && slots[n].Saved? then slots[n].record else BlankStump
  }

  /** The first missing slot, when there is one, is unique. */
  lemma FirstMissingUnique(slots: map<int, Slot>, a: int, b: int)
    requires IsFirstMissing(slots, a) && IsFirstMissing(slots, b)
    ensures a == b
  {
  }

  /** A table has a first missing slot exactly when it is not complete. */
  lemma IncompleteHasFirstMissing(slots: map<int, Slot>)
    requires SlotKeys(slots)
    ensures !Complete(slots) <==> exists k :: IsFirstMissing(slots, k)
  {
    if Complete(slots) {
      return;
    }
    var k := 1;
    while k <= StumpCount && slots[k].Saved?
      invariant 1 <= k <= StumpCount + 1
      invariant forall j :: 1 <= j < k ==> j in slots && slots[j].Saved?
    {
      k := k + 1;
    }
    assert IsFirstMissing(slots, k);
  }

  /** A fresh session misses stump 1 first. */
  lemma InitialMissesFirst()
    ensures IsFirstMissing(InitialSlots(), 1)
    ensures !Complete(InitialSlots())
  {
  }

  /**
   * Completeness is about the slot being saved, not about its texts: a table
   * in which every stump was saved with its six inputs blank (after the
   * labels were calculated and the inputs then cleared) is complete.
   */
  lemma BlankSavesComplete(slots: map<int, Slot>, shown: string)
    requires SlotKeys(slots) && shown != ""
    requires forall i :: i in slots ==>
      slots[i] == Saved(BlankStump.(ctRatio := shown, cdRatio := shown, abRatio := shown))
    ensures Complete(slots)
  {
  }
}
