/**
 * The health dashboard: today's medication checklist, where a tap flips one
 * entry's `taken`, and the symptom log, which the "Add Symptom" form prepends to.
 */
module PatientDashboard {

  datatype MedicationEntry = MedicationEntry(id: int, name: string, time: string, taken: bool)

  datatype SymptomEntry = SymptomEntry(id: int, symptomType: string, severity: string, time: string)

  /** The `newSymptom` form state. */
  datatype SymptomForm = SymptomForm(symptomType: string, severity: string, notes: string)

  const BlankForm := SymptomForm("", "Mild", "")

  /** toggleMedication's `map`: the entries with the given id have `taken`
      negated, all else stays. */
  function ToggleTaken(meds: seq<MedicationEntry>, id: int): (r: seq<MedicationEntry>)
    ensures |r| == |meds|
    ensures forall k :: 0 <= k < |meds| ==> r[k].(taken := false) == meds[k].(taken := false)
    ensures forall k :: 0 <= k < |meds| ==> (r[k].taken <==> (meds[k].taken != (meds[k].id == id)))
  {
    seq(|meds|, k requires 0 <= k < |meds| =>
      if meds[k].id == id then meds[k].(taken := !meds[k].taken) else meds[k])
  }

  /** Toggling the same id twice restores the list. */
  lemma ToggleTakenTwice(meds: seq<MedicationEntry>, id: int)
    ensures ToggleTaken(ToggleTaken(meds, id), id) == meds
  {
    var twice := ToggleTaken(ToggleTaken(meds, id), id);
    forall k | 0 <= k < |meds|
      ensures twice[k] == meds[k]
    {
      assert twice[k].(taken := false) == meds[k].(taken := false);
    }
  }

  /** The symptom list after addSymptom: unchanged for an empty type, otherwise
      the new entry (stamped `entryId`, "Just now") in front of the old ones. */
  function LogSymptom(symptoms: seq<SymptomEntry>, form: SymptomForm, entryId: int): (r: seq<SymptomEntry>)
    ensures form.symptomType == "" ==> r == symptoms
    ensures form.symptomType != "" ==>
      && |r| == |symptoms| + 1
      && r[0] == SymptomEntry(entryId, form.symptomType, form.severity, "Just now")
      && r[1..] == symptoms
  {
    if form.symptomType == "" then symptoms
    else [SymptomEntry(entryId, form.symptomType, form.severity, "Just now")] + symptoms
  }

  class Dashboard {
    var medications: seq<MedicationEntry>
    var symptoms: seq<SymptomEntry>
    var newSymptom: SymptomForm
    var showSymptomModal: bool

    constructor ()
      ensures medications == [MedicationEntry(1, "Lisinopril 10mg", "8:00 AM", true),
                              MedicationEntry(2, "Metoprolol 50mg", "12:00 PM", false),
                              MedicationEntry(3, "Aspirin 81mg", "8:00 PM", false)]
      ensures symptoms == [SymptomEntry(1, "Chest Pain", "Mild", "2h ago"),
                           SymptomEntry(2, "Fatigue", "Moderate", "5h ago")]
      ensures newSymptom == BlankForm && !showSymptomModal
    {
      medications := [MedicationEntry(1, "Lisinopril 10mg", "8:00 AM", true),
                      MedicationEntry(2, "Metoprolol 50mg", "12:00 PM", false),
                      MedicationEntry(3, "Aspirin 81mg", "8:00 PM", false)];
      symptoms := [SymptomEntry(1, "Chest Pain", "Mild", "2h ago"),
                   SymptomEntry(2, "Fatigue", "Moderate", "5h ago")];
      newSymptom := BlankForm;
      showSymptomModal := false;
    }

    /** toggleMedication */
    method ToggleMedication(id: int)
      modifies this
      ensures medications == ToggleTaken(old(medications), id)
      ensures symptoms == old(symptoms) && newSymptom == old(newSymptom) && showSymptomModal == old(showSymptomModal)
    {
      medications := ToggleTaken(medications, id);
    }

    /** The symptom-type select: `{...newSymptom, type: value}`. */
    method SetSymptomType(value: string)
      modifies this
      ensures newSymptom == old(newSymptom).(symptomType := value)
      ensures medications == old(medications) && symptoms == old(symptoms) && showSymptomModal == old(showSymptomModal)
    {
      newSymptom := newSymptom.(symptomType := value);
    }

    /** A severity button: `{...newSymptom, severity: sev}`. */
    method SetSeverity(sev: string)
      modifies this
      ensures newSymptom == old(newSymptom).(severity := sev)
      ensures medications == old(medications) && symptoms == old(symptoms) && showSymptomModal == old(showSymptomModal)
    {
      newSymptom := newSymptom.(severity := sev);
    }

    /** The notes text area: `{...newSymptom, notes: value}`. */
    method SetNotes(value: string)
      modifies this
      ensures newSymptom == old(newSymptom).(notes := value)
      ensures medications == old(medications) && symptoms == old(symptoms) && showSymptomModal == old(showSymptomModal)
    {
      newSymptom := newSymptom.(notes := value);
    }

    /** The "Add" link opens the modal, its "Cancel" button closes it; the form
        keeps what was entered. */
    method SetShowSymptomModal(show: bool)
      modifies this
      ensures showSymptomModal == show
      ensures medications == old(medications) && symptoms == old(symptoms) && newSymptom == old(newSymptom)
    {
      showSymptomModal := show;
    }

    /** addSymptom: with a type chosen, prepend the entry, reset the form and
        close the modal; otherwise change nothing. `now` stands for `Date.now()`. */
    method AddSymptom(now: int) returns (added: bool)
      modifies this
      ensures added <==> old(newSymptom).symptomType != ""
      ensures symptoms == LogSymptom(old(symptoms), old(newSymptom), now)
      ensures added ==> newSymptom == BlankForm && !showSymptomModal
      ensures !added ==> newSymptom == old(newSymptom) && showSymptomModal == old(showSymptomModal)
      ensures medications == old(medications)
    {
      added := newSymptom.symptomType != "";
      if added {
        symptoms := LogSymptom(symptoms, newSymptom, now);
        newSymptom := BlankForm;
        showSymptomModal := false;
      }
    }
  }

  /** Opening the modal, choosing a type and a severity, then "Add": the entry
      goes on top of the log and the form is blank again. */
  method LogAfterChoosingType()
  {
    var board := new Dashboard();
    board.SetShowSymptomModal(true);
    board.SetSymptomType("Dizziness");
    board.SetSeverity("Severe");
    var added := board.AddSymptom(1700000000000);
    assert added;
    assert board.symptoms[0] == SymptomEntry(1700000000000, "Dizziness", "Severe", "Just now");
    assert |board.symptoms| == 3 && board.newSymptom == BlankForm && !board.showSymptomModal;
  }
}
