/**
 * Rows of the clinic's tables that several components read. Identifiers are
 * opaque strings; timestamps and dates are integers (minutes), so that the
 * model can compare and order them without calendar arithmetic.
 */
module Entities {

  import opened Wrappers

  type UserId = string

  /** The database enum `app_role`. */
  datatype Role = Admin | Dentist | Patient | Receptionist | Nurse | Manager

  /** The text a role row holds for each role. */
  function RoleName(r: Role): string {
    match r
    case Admin => "admin"
    case Dentist => "dentist"
    case Patient => "patient"
    case Receptionist => "receptionist"
    case Nurse => "nurse"
    case Manager => "manager"
  }

  /** The database enum `appointment_status`. */
  datatype AppointmentStatus = Pending | Confirmed | Cancelled | Completed

  /**
   * An `appointments` row. `date` is the appointment day as a timestamp,
   * `time` the stored `"HH:MM"` text, `reason` is `""` when the column is null.
   */
  datatype Appointment = Appointment(
    id: string,
    patientId: UserId,
    dentistId: Option<UserId>,
    date: int,
    time: string,
    status: AppointmentStatus,
    reason: string)

  /** The status values of the `treatments` table. */
  datatype TreatmentStatus = Recommended | Approved | Modified | Rejected

  /** A `treatments` row: an AI recommendation awaiting or after a dentist's review. */
  datatype Treatment = Treatment(
    id: string,
    patientId: UserId,
    symptoms: string,
    aiRecommendation: string,
    status: TreatmentStatus,
    dentistNotes: Option<string>,
    finalTreatment: Option<string>,
    createdAt: int)

  /** A `reviews` row. */
  datatype Review = Review(
    appointmentId: string,
    patientId: UserId,
    dentistId: Option<UserId>,
    rating: int,
    reviewText: Option<string>)

  /** The variants of the status badges the lists show. */
  datatype BadgeVariant = Default | Secondary | Destructive | Outline
}
