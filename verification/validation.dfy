/**
 * The form schemas (src/lib/validation.ts). Each schema trims its text fields
 * and then bounds their length; a parse yields the trimmed record or fails.
 * Passwords are bounded as typed, without trimming. The email format rule
 * belongs to the schema library and is a parameter here.
 */
module Validation {

  import opened Wrappers
  import opened Strings

  /** A required trimmed field of length in `[lo, hi]`: its trimmed text, or `None`. */
  function TrimmedWithin(s: string, lo: nat, hi: nat): (r: Option<string>)
    ensures r.Some? <==> lo <= |Trim(s)| <= hi
    ensures r.Some? ==> r.value == Trim(s)
  {
    var t := Trim(s);
    if lo <= |t| <= hi then Some(t) else None
  }

  /**
   * An optional trimmed field of length at most `hi`: an absent field passes
   * as absent, a present one as its trimmed text; `None` means rejected.
   */
  function OptionalWithin(s: Option<string>, hi: nat): (r: Option<Option<string>>)
    ensures r.Some? <==> s.None? || |Trim(s.value)| <= hi
    ensures r.Some? ==> r.value == if s.None? then None else Some(Trim(s.value))
  {
    match s
    case None => Some(None)
    case Some(v) =>
      var t := TrimmedWithin(v, 0, hi);
      if t.Some? then Some(Some(t.value)) else None
  }

  /** An accepted field, parsed again, is accepted unchanged. */
  lemma TrimmedWithinIdempotent(s: string, lo: nat, hi: nat)
    requires TrimmedWithin(s, lo, hi).Some?
    ensures TrimmedWithin(TrimmedWithin(s, lo, hi).value, lo, hi) == TrimmedWithin(s, lo, hi)
  {
    TrimIdempotent(s);
  }

  /** An accepted optional field, parsed again, is accepted unchanged. */
  lemma OptionalWithinIdempotent(s: Option<string>, hi: nat)
    requires OptionalWithin(s, hi).Some?
    ensures OptionalWithin(OptionalWithin(s, hi).value, hi) == OptionalWithin(s, hi)
  {
    if s.Some? {
      TrimmedWithinIdempotent(s.value, 0, hi);
    }
  }

  datatype SignUpForm = SignUpForm(fullName: string, email: string, phone: Option<string>, password: string)

  /** `signUpSchema`. */
  function ParseSignUp(f: SignUpForm, isEmail: string -> bool): (r: Option<SignUpForm>)
    ensures r.Some? <==>
              2 <= |Trim(f.fullName)| <= 100
              && isEmail(Trim(f.email)) && |Trim(f.email)| <= 255
              && (f.phone.None? || |Trim(f.phone.value)| <= 20)
              && 6 <= |f.password| <= 128
    ensures r.Some? ==> r.value.fullName == Trim(f.fullName) && r.value.email == Trim(f.email)
                        && r.value.password == f.password
                        && r.value.phone == if f.phone.None? then None else Some(Trim(f.phone.value))
  {
    var name := TrimmedWithin(f.fullName, 2, 100);
    var email := TrimmedWithin(f.email, 0, 255);
    var phone := OptionalWithin(f.phone, 20);
    if name.Some? && email.Some? && isEmail(email.value) && phone.Some? && 6 <= |f.password| <= 128
    then Some(SignUpForm(name.value, email.value, phone.value, f.password))
    else None
  }

  datatype SignInForm = SignInForm(email: string, password: string)

  /** `signInSchema`. */
  function ParseSignIn(f: SignInForm, isEmail: string -> bool): (r: Option<SignInForm>)
    ensures r.Some? <==> isEmail(Trim(f.email)) && |Trim(f.email)| <= 255 && 1 <= |f.password| <= 128
    ensures r.Some? ==> r.value == SignInForm(Trim(f.email), f.password)
  {
    var email := TrimmedWithin(f.email, 0, 255);
    if email.Some? && isEmail(email.value) && 1 <= |f.password| <= 128
    then Some(SignInForm(email.value, f.password))
    else None
  }

  /** `date` is `None` when no date was picked. */
  datatype BookingForm = BookingForm(reason: Option<string>, time: string, date: Option<int>)

  /** `bookingSchema`. */
  function ParseBooking(f: BookingForm): (r: Option<BookingForm>)
    ensures r.Some? <==> (f.reason.None? || |Trim(f.reason.value)| <= 500) && Trim(f.time) != [] && f.date.Some?
    ensures r.Some? ==> r.value.time == Trim(f.time) && r.value.date == f.date
    ensures r.Some? ==> r.value.reason == if f.reason.None? then None else Some(Trim(f.reason.value))
  {
    var reason := OptionalWithin(f.reason, 500);
    var time := TrimmedWithin(f.time, 1, |f.time|);
    if reason.Some? && time.Some? && f.date.Some?
    then Some(BookingForm(reason.value, time.value, f.date))
    else None
  }

  /** `symptomSchema`. */
  function ParseSymptoms(symptoms: string): (r: Option<string>)
    ensures r.Some? <==> 10 <= |Trim(symptoms)| <= 2000
    ensures r.Some? ==> r.value == Trim(symptoms)
  {
    TrimmedWithin(symptoms, 10, 2000)
  }

  /** `treatmentUpdateSchema`: notes that are absent, or at most 2000 characters once trimmed. */
  function ParseTreatmentUpdate(dentistNotes: Option<string>): (r: Option<Option<string>>)
    ensures r.Some? <==> dentistNotes.None? || |Trim(dentistNotes.value)| <= 2000
    ensures r.Some? ==> r.value == if dentistNotes.None? then None else Some(Trim(dentistNotes.value))
  {
    OptionalWithin(dentistNotes, 2000)
  }

  /** `appointmentNotesSchema`: notes that are absent, or at most 1000 characters once trimmed. */
  function ParseAppointmentNotes(notes: Option<string>): (r: Option<Option<string>>)
    ensures r.Some? <==> notes.None? || |Trim(notes.value)| <= 1000
    ensures r.Some? ==> r.value == if notes.None? then None else Some(Trim(notes.value))
  {
    OptionalWithin(notes, 1000)
  }

  /** Surrounding whitespace never decides acceptance: a field padded with any whitespace parses like the bare one. */
  lemma PaddingIgnored(pre: string, s: string, post: string, lo: nat, hi: nat)
    requires AllSpace(pre) && AllSpace(post)
    ensures TrimmedWithin(pre + s + post, lo, hi) == TrimmedWithin(s, lo, hi)
  {
    TrimIgnoresPadding(pre, s, post);
  }

  /** Parsing an accepted sign-in form again accepts it unchanged. */
  lemma SignInIdempotent(f: SignInForm, isEmail: string -> bool)
    requires ParseSignIn(f, isEmail).Some?
    ensures ParseSignIn(ParseSignIn(f, isEmail).value, isEmail) == ParseSignIn(f, isEmail)
  {
    TrimIdempotent(f.email);
  }

  /** Parsing an accepted booking again accepts it unchanged. */
  lemma BookingIdempotent(f: BookingForm)
    requires ParseBooking(f).Some?
    ensures ParseBooking(ParseBooking(f).value) == ParseBooking(f)
  {
    var r := ParseBooking(f).value;
    TrimmedWithinIdempotent(f.time, 1, |f.time|);
    OptionalWithinIdempotent(f.reason, 500);
    assert TrimmedWithin(r.time, 1, |r.time|) == TrimmedWithin(f.time, 1, |f.time|);
  }

  /** Parsing accepted symptoms again accepts them unchanged. */
  lemma SymptomsIdempotent(symptoms: string)
    requires ParseSymptoms(symptoms).Some?
    ensures ParseSymptoms(ParseSymptoms(symptoms).value) == ParseSymptoms(symptoms)
  {
    TrimIdempotent(symptoms);
  }

  /**
   * Passwords are measured as typed: in an otherwise acceptable sign-up form
   * any password of 6..128 characters is accepted, six spaces included.
   */
  lemma PasswordNotTrimmed(f: SignUpForm, p: string, isEmail: string -> bool)
    requires ParseSignUp(f, isEmail).Some?
    ensures ParseSignUp(f.(password := p), isEmail).Some? <==> 6 <= |p| <= 128
    ensures ParseSignUp(f.(password := "      "), isEmail).Some?
  {
    SignUpOtherFields(f, p, isEmail);
    SignUpOtherFields(f, "      ", isEmail);
    assert |"      "| == 6;
  }

  /** The fields other than the password are as acceptable as they were. */
  lemma SignUpOtherFields(f: SignUpForm, p: string, isEmail: string -> bool)
    requires ParseSignUp(f, isEmail).Some?
    ensures 2 <= |Trim(f.(password := p).fullName)| <= 100
    ensures isEmail(Trim(f.(password := p).email)) && |Trim(f.(password := p).email)| <= 255
    ensures f.(password := p).phone.None? || |Trim(f.(password := p).phone.value)| <= 20
    ensures f.(password := p).password == p
  {
  }

  /** Names are measured once trimmed: a name of one letter between spaces is rejected. */
  lemma PaddedLetterRejected(f: SignUpForm, isEmail: string -> bool)
    ensures ParseSignUp(f.(fullName := " A "), isEmail).None?
  {
    assert |Trim(" A ")| == 1 by {
      assert " A " == " " + "A" + " ";
      TrimPadded(" ", "A", " ");
    }
  }
}
