/**
 * The public booking page (src/pages/Booking.tsx). Nothing is written to
 * the backend: an accepted request only shows a confirmation and empties the
 * form. The date picker disables days before now; the time is chosen from a
 * fixed list of eight slots.
 */
module Booking {

  import opened Wrappers

  const TimeSlots: seq<string> := [
    "09:00 AM", "10:00 AM", "11:00 AM", "12:00 PM",
    "02:00 PM", "03:00 PM", "04:00 PM", "05:00 PM"]

  datatype Form = Form(name: string, email: string, phone: string, reason: string, time: string)

  const EmptyForm := Form("", "", "", "", "")

  /** The submit guard: every field but the reason is filled (a blank-looking text counts as filled). */
  predicate Complete(f: Form, date: Option<int>) {
    f.name != "" && f.email != "" && f.phone != "" && date.Some? && f.time != ""
  }

  /** The reason never decides acceptance. */
  lemma ReasonOptional(f: Form, date: Option<int>, reason: string)
    ensures Complete(f.(reason := reason), date) == Complete(f, date)
  {
  }

  /** The picker's `disabled` rule: days before now cannot be picked. */
  function Disabled(day: int, now: int): (b: bool)
    ensures b <==> day < now
  {
    day < now
  }

  class Page {
    var form: Form
    var date: Option<int>
    /** The requests confirmed to the user, in order. */
    var confirmed: seq<(Form, int)>

    /** The time is empty or one of the slots. */
    ghost predicate Valid()
      reads this
    {
      form.time == "" || form.time in TimeSlots
    }

    /** The form starts empty with today's date selected. */
    constructor (now: int)
      ensures Valid()
      ensures form == EmptyForm && date == Some(now) && confirmed == []
    {
      form := EmptyForm;
      date := Some(now);
      confirmed := [];
    }

    /** Typing in a text field: name, email, phone or reason. */
    method SetText(name: string, email: string, phone: string, reason: string)
      requires Valid()
      modifies this`form
      ensures Valid()
      ensures form == Form(name, email, phone, reason, old(form).time)
    {
      form := Form(name, email, phone, reason, form.time);
    }

    /** The time select: option 0 is "Select a time", option `k` the `k`-th slot. */
    method SelectTime(option: nat)
      requires Valid()
      requires option <= |TimeSlots|
      modifies this`form
      ensures Valid()
      ensures form == old(form).(time := if option == 0 then "" else TimeSlots[option - 1])
    {
      form := form.(time := if option == 0 then "" else TimeSlots[option - 1]);
    }

    /** The picker: a disabled day cannot be picked; clicking the selected day clears it. */
    method SelectDate(day: Option<int>, now: int)
      modifies this`date
      ensures day.Some? && Disabled(day.value, now) ==> date == old(date)
      ensures day.None? || !Disabled(day.value, now) ==> date == day
    {
      if day.None? || !Disabled(day.value, now) {
        date := day;
      }
    }

    /** `handleSubmit`: an incomplete form is kept; a complete one is confirmed and emptied. */
    method HandleSubmit()
      requires Valid()
      modifies this
      ensures Valid()
      ensures !Complete(old(form), old(date)) ==> form == old(form) && date == old(date) && confirmed == old(confirmed)
      ensures Complete(old(form), old(date)) ==>
                form == EmptyForm && date == None && confirmed == old(confirmed) + [(old(form), old(date).value)]
      ensures !Complete(form, date)
    {
      if Complete(form, date) {
        confirmed := confirmed + [(form, date.value)];
        form := EmptyForm;
        date := None;
      }
    }
  }
}
