/**
 * The review form (src/components/reviews/ReviewForm.tsx): a rating of one
 * to five stars and an optional text, saved into the `reviews` table. The
 * form updates the patient's row for the appointment when it was opened on
 * an existing review, and inserts a new row otherwise. The table is held in
 * memory; the backend's answer is the parameter `ok`.
 */
module ReviewForm {

  import opened Wrappers
  import opened Queries
  import opened Strings
  import opened Entities

  /** The `existingReview` prop. */
  datatype ExistingReview = ExistingReview(rating: int, reviewText: string)

  /** `existingReview?.rating || 0`. */
  function InitialRating(existing: Option<ExistingReview>): (r: int)
    ensures existing.None? ==> r == 0
    ensures existing.Some? ==> r == existing.value.rating
  {
    if existing.Some? && existing.value.rating != 0 then existing.value.rating else 0
  }

  /** `existingReview?.review_text || ""`. */
  function InitialText(existing: Option<ExistingReview>): (t: string)
    ensures existing.None? ==> t == ""
    ensures existing.Some? ==> t == existing.value.reviewText
  {
    if existing.Some? && existing.value.reviewText != "" then existing.value.reviewText else ""
  }

  /** The row written: an absent or empty dentist id and an empty text become null. */
  function ReviewRow(appointmentId: string, userId: UserId, dentistId: Option<UserId>, rating: int, text: string): (r: Review)
    ensures r.appointmentId == appointmentId && r.patientId == userId && r.rating == rating
    ensures r.dentistId.None? <==> dentistId.GetOr("") == ""
    ensures r.dentistId.Some? ==> r.dentistId == dentistId
    ensures r.reviewText.GetOr("") == text
    ensures r.reviewText.None? <==> text == ""
  {
    Review(appointmentId, userId, NullIfEmpty(dentistId.GetOr("")), rating, NullIfEmpty(text))
  }

  /** `.update(row).eq('appointment_id', a).eq('patient_id', p)`: every matching row becomes `row`. */
  function UpdateReview(table: seq<Review>, appointmentId: string, patientId: UserId, row: Review): (r: seq<Review>)
    ensures |r| == |table|
    ensures forall i :: 0 <= i < |r| ==>
              r[i] == if table[i].appointmentId == appointmentId && table[i].patientId == patientId then row else table[i]
  {
    seq(|table|, i requires 0 <= i < |table| =>
      if table[i].appointmentId == appointmentId && table[i].patientId == patientId then row else table[i])
  }

  /** The save: an update when the form was opened on an existing review, an insert otherwise. */
  function SaveReview(table: seq<Review>, existing: bool, row: Review): (r: seq<Review>) {
    if existing then UpdateReview(table, row.appointmentId, row.patientId, row) else table + [row]
  }

  /** A first review adds exactly its row at the end of the table. */
  lemma InsertAddsRow(table: seq<Review>, row: Review)
    ensures SaveReview(table, false, row) == table + [row]
    ensures multiset(SaveReview(table, false, row)) == multiset(table) + multiset{row}
  {
  }

  /**
   * Updating replaces the patient's rows for that appointment by the new
   * row and keeps every other row; when there is no such row the update
   * changes nothing (the form does not fall back to an insert).
   */
  lemma UpdateReplacesOwnRow(table: seq<Review>, row: Review)
    ensures var r := SaveReview(table, true, row);
            |r| == |table|
            && (forall i :: 0 <= i < |r| && (table[i].appointmentId != row.appointmentId || table[i].patientId != row.patientId)
                  ==> r[i] == table[i])
            && (forall i :: 0 <= i < |r| && table[i].appointmentId == row.appointmentId && table[i].patientId == row.patientId
                  ==> r[i] == row)
            && ((forall i :: 0 <= i < |table| ==> table[i].appointmentId != row.appointmentId || table[i].patientId != row.patientId)
                  ==> r == table)
  {
  }

  /** Star `k` is filled when it is at most the hovered star, or the rating when none is hovered. */
  function StarFilled(k: int, hovered: int, rating: int): (b: bool)
    ensures hovered == 0 ==> (b <==> k <= rating)
    ensures hovered != 0 ==> (b <==> k <= hovered)
  {
    k <= (if hovered != 0 then hovered else rating)
  }

  /** The submit button is disabled while saving and while no star is chosen. */
  function SubmitDisabled(submitting: bool, rating: int): (b: bool)
    ensures !b <==> !submitting && rating != 0
  {
    submitting || rating == 0
  }

  class Form {
    const appointmentId: string
    const dentistId: Option<UserId>
    const existing: Option<ExistingReview>
    var rating: int
    var hovered: int
    var text: string
    var submitting: bool
    /** The `reviews` table. */
    var reviews: seq<Review>
    /** How many times `onReviewSubmitted` was called. */
    var submitted: nat

    constructor (appointmentId: string, dentistId: Option<UserId>, existing: Option<ExistingReview>, reviews: seq<Review>)
      ensures this.appointmentId == appointmentId && this.dentistId == dentistId && this.existing == existing
      ensures rating == InitialRating(existing) && text == InitialText(existing) && hovered == 0
      ensures !submitting && this.reviews == reviews && submitted == 0
    {
      this.appointmentId := appointmentId;
      this.dentistId := dentistId;
      this.existing := existing;
      rating := InitialRating(existing);
      hovered := 0;
      text := InitialText(existing);
      submitting := false;
      this.reviews := reviews;
      submitted := 0;
    }

    /** A star's click. */
    method Rate(star: int)
      requires 1 <= star <= 5
      modifies this`rating
      ensures rating == star
    {
      rating := star;
    }

    /** A star's mouse-enter (`star`) or mouse-leave (0). */
    method Hover(star: int)
      requires 0 <= star <= 5
      modifies this`hovered
      ensures hovered == star
    {
      hovered := star;
    }

    method SetText(t: string)
      modifies this`text
      ensures text == t
    {
      text := t;
    }

    /**
     * `handleSubmit`. A zero rating is refused before any call; without a
     * user nothing is saved; otherwise the row is saved when `ok`, and the
     * table is unchanged when the backend reports an error.
     */
    method HandleSubmit(user: Option<UserId>, ok: bool)
      modifies this`submitting, this`reviews, this`submitted
      ensures rating == 0 ==> submitting == old(submitting) && reviews == old(reviews) && submitted == old(submitted)
      ensures rating != 0 ==> !submitting
      ensures rating != 0 && user.Some? && ok ==>
                reviews == SaveReview(old(reviews), existing.Some?, ReviewRow(appointmentId, user.value, dentistId, rating, text))
                && submitted == old(submitted) + 1
      ensures user.None? || !ok ==> reviews == old(reviews) && submitted == old(submitted)
    {
      if rating == 0 {
        return;
      }
      submitting := true;
      if user.Some? {
        var row := ReviewRow(appointmentId, user.value, dentistId, rating, text);
        if ok {
          reviews := SaveReview(reviews, existing.Some?, row);
          submitted := submitted + 1;
        }
      }
      submitting := false;
    }
  }
}
