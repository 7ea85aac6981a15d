/** The doctor's workspace panel: two text buffers whose Add buttons (or the
    Enter key) hand the trimmed text to the parent, and a lab-report picker.
    The parent's callbacks `onAddSymptom`, `onAddMedicine` and `onUploadLab`
    are modelled by the values the handlers return. */
module Workspace {
  import opened Wrappers
  import opened Strings
  import opened Report

  /** One press of Add on a buffer holding `input`: what is handed to the
      parent, and what the buffer holds afterwards. Blank input hands nothing
      and keeps the buffer; otherwise the trimmed text is handed over and the
      buffer is cleared. */
  function AddEntry(input: string): (r: (Option<string>, string))
    ensures r.0.None? <==> AllSpace(input)
    ensures r.0.None? ==> r.1 == input
    ensures r.0.Some? ==> r.0.value == Trim(input) && r.0.value != "" && r.1 == ""
  {
    TrimEmptyIff(input);
    if Trim(input) != "" then (Some(Trim(input)), "") else (None, input)
  }

  /** What reaches the parent has no white space at either end, and trimming
      it again changes nothing. */
  lemma AddedValueIsTrimmed(input: string)
    requires AddEntry(input).0.Some?
    ensures var v := AddEntry(input).0.value;
      Trim(v) == v && !IsJsSpace(v[0]) && !IsJsSpace(v[|v| - 1])
  {
  }

  class DoctorWorkspace {
    var symptomInput: string
    var medicineInput: string
    /** The files the hidden lab-report `<input type="file">` holds. */
    var labSelection: seq<UploadFile>

    constructor ()
      ensures symptomInput == "" && medicineInput == "" && labSelection == []
    {
      symptomInput := "";
      medicineInput := "";
      labSelection := [];
    }

    method SetSymptomInput(text: string)
      modifies this`symptomInput
      ensures symptomInput == text
    {
      symptomInput := text;
    }

    method SetMedicineInput(text: string)
      modifies this`medicineInput
      ensures medicineInput == text
    {
      medicineInput := text;
    }

    /** `handleAddSymptom`; the medicine buffer is not touched. */
    method HandleAddSymptom() returns (added: Option<string>)
      modifies this`symptomInput
      ensures (added, symptomInput) == AddEntry(old(symptomInput))
    {
      var trimmed := Trim(symptomInput);
      if trimmed != "" {
        added := Some(trimmed);
        symptomInput := "";
      } else {
        added := None;
      }
    }

    /** `handleAddMedicine`; the symptom buffer is not touched. */
    method HandleAddMedicine() returns (added: Option<string>)
      modifies this`medicineInput
      ensures (added, medicineInput) == AddEntry(old(medicineInput))
    {
      var trimmed := Trim(medicineInput);
      if trimmed != "" {
        added := Some(trimmed);
        medicineInput := "";
      } else {
        added := None;
      }
    }

    /** A key press in the symptom field: Enter is the Add button. */
    method SymptomKeyPress(key: string) returns (added: Option<string>)
      modifies this`symptomInput
      ensures key == "Enter" ==> (added, symptomInput) == AddEntry(old(symptomInput))
      ensures key != "Enter" ==> added.None? && symptomInput == old(symptomInput)
    {
      added := None;
      if key == "Enter" {
        added := HandleAddSymptom();
      }
    }

    /** A key press in the medicine field: Enter is the Add button. */
    method MedicineKeyPress(key: string) returns (added: Option<string>)
      modifies this`medicineInput
      ensures key == "Enter" ==> (added, medicineInput) == AddEntry(old(medicineInput))
      ensures key != "Enter" ==> added.None? && medicineInput == old(medicineInput)
    {
      added := None;
      if key == "Enter" {
        added := HandleAddMedicine();
      }
    }

    /** The picker's `onChange` after the browser stored `files` in it: the
        first file goes to `onUploadLab` and the picker is reset. */
    method LabFilesChosen(files: seq<UploadFile>) returns (uploaded: Option<UploadFile>)
      modifies this`labSelection
      ensures uploaded == if |files| > 0 then Some(files[0]) else None
      ensures labSelection == if |files| > 0 then [] else files
    {
      labSelection := files;
      uploaded := None;
      if |labSelection| > 0 {
        uploaded := Some(labSelection[0]);
        labSelection := [];
      }
    }
  }
}
