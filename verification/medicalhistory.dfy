/**
 * The medical-history form (src/components/medical/MedicalHistory.tsx). The
 * patient's stored row is read into the form with every null (or empty)
 * text shown as `""` and every null flag as `false`; saving upserts the form
 * as it stands under the patient's id. Backend answers are parameters.
 */
module MedicalHistory {

  import opened Wrappers
  import opened Entities

  /** A `medical_history` row as stored: every column may be null. */
  datatype StoredRow = StoredRow(
    patientId: UserId,
    allergies: Option<string>,
    currentMedications: Option<string>,
    pastDentalProcedures: Option<string>,
    medicalConditions: Option<string>,
    bloodType: Option<string>,
    emergencyContactName: Option<string>,
    emergencyContactPhone: Option<string>,
    insuranceProvider: Option<string>,
    insurancePolicyNumber: Option<string>,
    hasHeartDisease: Option<bool>,
    hasDiabetes: Option<bool>,
    hasHighBloodPressure: Option<bool>,
    isPregnant: Option<bool>,
    isSmoker: Option<bool>)

  /** The form's state. */
  datatype Form = Form(
    allergies: string,
    currentMedications: string,
    pastDentalProcedures: string,
    medicalConditions: string,
    bloodType: string,
    emergencyContactName: string,
    emergencyContactPhone: string,
    insuranceProvider: string,
    insurancePolicyNumber: string,
    hasHeartDisease: bool,
    hasDiabetes: bool,
    hasHighBloodPressure: bool,
    isPregnant: bool,
    isSmoker: bool)

  const EmptyForm := Form("", "", "", "", "", "", "", "", "", false, false, false, false, false)

  /** `value || ""`: a null or empty text is shown empty, any other text as stored. */
  function TextOrEmpty(value: Option<string>): (s: string)
    ensures value.None? ==> s == ""
    ensures value.Some? ==> s == value.value
  {
    if value.Some? && value.value != "" then value.value else ""
  }

  /** `value || false`. */
  function FlagOrFalse(value: Option<bool>): (b: bool)
    ensures b <==> value == Some(true)
  {
    value.Some? && value.value
  }

  /** The form filled from a stored row. */
  function Normalize(row: StoredRow): (f: Form)
    ensures f.allergies == TextOrEmpty(row.allergies) && f.bloodType == TextOrEmpty(row.bloodType)
    ensures f.hasHeartDisease == FlagOrFalse(row.hasHeartDisease) && f.isSmoker == FlagOrFalse(row.isSmoker)
  {
    Form(
      TextOrEmpty(row.allergies),
      TextOrEmpty(row.currentMedications),
      TextOrEmpty(row.pastDentalProcedures),
      TextOrEmpty(row.medicalConditions),
      TextOrEmpty(row.bloodType),
      TextOrEmpty(row.emergencyContactName),
      TextOrEmpty(row.emergencyContactPhone),
      TextOrEmpty(row.insuranceProvider),
      TextOrEmpty(row.insurancePolicyNumber),
      FlagOrFalse(row.hasHeartDisease),
      FlagOrFalse(row.hasDiabetes),
      FlagOrFalse(row.hasHighBloodPressure),
      FlagOrFalse(row.isPregnant),
      FlagOrFalse(row.isSmoker))
  }

  /** The upsert payload: `patient_id` and every form field unchanged. */
  function Payload(userId: UserId, f: Form): (row: StoredRow)
    ensures row.patientId == userId
    ensures row.allergies == Some(f.allergies) && row.isSmoker == Some(f.isSmoker)
  {
    StoredRow(userId,
      Some(f.allergies),
      Some(f.currentMedications),
      Some(f.pastDentalProcedures),
      Some(f.medicalConditions),
      Some(f.bloodType),
      Some(f.emergencyContactName),
      Some(f.emergencyContactPhone),
      Some(f.insuranceProvider),
      Some(f.insurancePolicyNumber),
      Some(f.hasHeartDisease),
      Some(f.hasDiabetes),
      Some(f.hasHighBloodPressure),
      Some(f.isPregnant),
      Some(f.isSmoker))
  }

  /** Saving a form and loading the saved row gives back the same form. */
  lemma SaveThenLoad(userId: UserId, f: Form)
    ensures Normalize(Payload(userId, f)) == f
  {
  }

  /** A row with every column null loads as the empty form. */
  lemma NullRowLoadsEmpty(userId: UserId)
    ensures Normalize(StoredRow(userId, None, None, None, None, None, None, None, None, None,
                                None, None, None, None, None)) == EmptyForm
  {
  }

  /** Loading is idempotent through a save: normalising a saved normalised row changes nothing. */
  lemma LoadSaveLoad(row: StoredRow)
    ensures Normalize(Payload(row.patientId, Normalize(row))) == Normalize(row)
  {
    SaveThenLoad(row.patientId, Normalize(row));
  }

  /**
   * The `.single()` lookup: the row, no row (`PGRST116`, which is not an
   * error), another error, or no signed-in user (no query at all).
   */
  datatype Lookup = Found(row: StoredRow) | NoRow | Failed | NoUser

  class Page {
    var form: Form
    var loading: bool
    var saving: bool
    /** The rows upserted successfully, in order. */
    var saved: seq<StoredRow>

    constructor ()
      ensures form == EmptyForm && loading && !saving && saved == []
    {
      form := EmptyForm;
      loading := true;
      saving := false;
      saved := [];
    }

    /** `fetchMedicalHistory`: only a found row changes the form; loading always ends. */
    method FetchMedicalHistory(lookup: Lookup)
      modifies this`form, this`loading
      ensures lookup.Found? ==> form == Normalize(lookup.row)
      ensures !lookup.Found? ==> form == old(form)
      ensures !loading
    {
      if lookup.Found? {
        form := Normalize(lookup.row);
      }
      loading := false;
    }

    method SetForm(f: Form)
      modifies this`form
      ensures form == f
    {
      form := f;
    }

    /** `handleSubmit`: nothing is written without a user; `ok` is the upsert's outcome. */
    method HandleSubmit(user: Option<UserId>, ok: bool)
      modifies this`saving, this`saved
      ensures !saving
      ensures user.Some? && ok ==> saved == old(saved) + [Payload(user.value, form)]
      ensures user.None? || !ok ==> saved == old(saved)
    {
      saving := true;
      if user.Some? && ok {
        saved := saved + [Payload(user.value, form)];
      }
      saving := false;
    }
  }
}
