/**
 * The sign-up form (src/components/sign-up.tsx): four text inputs, an error
 * message, and a submit handler that validates presence first and password
 * length second, reports the data on success and then clears the inputs.
 */
module SignUp {
  import opened Wrappers

  const AllFieldsRequired: string := "All fields are required"
  const PasswordTooShort: string := "Password must be at least 8 characters long"

  /** The minimum password length, counted as the runtime counts string length. */
  const MinPasswordLength: nat := 8

  /** The values of the four inputs, and the record the form reports. */
  datatype SignUpData = SignUpData(firstName: string, lastName: string, email: string, password: string)

  /** The inputs after a successful submit. */
  const Cleared: SignUpData := SignUpData("", "", "", "")

  /** The number of UTF-16 code units that encode one character. */
  function CodeUnits(c: char): (n: nat)
    ensures n == 1 || n == 2
    ensures n == 2 <==> c as int >= 0x1_0000
  {
    if c as int < 0x1_0000 then 1 else 2
  }

  /**
   * The `length` of a string as the runtime reports it: UTF-16 code units,
   * so a character outside the Basic Multilingual Plane counts twice.
   */
  function Utf16Length(s: string): (n: nat)
    ensures |s| <= n <= 2 * |s|
    ensures n == 0 <==> s == ""
    ensures (forall i :: 0 <= i < |s| ==> s[i] as int < 0x1_0000) ==> n == |s|
  {
    if s == [] then 0 else CodeUnits(s[0]) + Utf16Length(s[1..])
  }

  /** The string test `!x`: only the empty string is falsy. */
  predicate HasEmptyField(d: SignUpData)
  {
    d.firstName == "" || d.lastName == "" || d.email == "" || d.password == ""
  }

  /** The error a submit of d raises, or None when d passes validation. */
  function Check(d: SignUpData): (r: Option<string>)
    ensures r == Some(AllFieldsRequired) <==> HasEmptyField(d)
    ensures r == Some(PasswordTooShort) <==> !HasEmptyField(d) && Utf16Length(d.password) < MinPasswordLength
    ensures r == None <==> !HasEmptyField(d) && Utf16Length(d.password) >= MinPasswordLength
  {
    if HasEmptyField(d) then Some(AllFieldsRequired)
    else if Utf16Length(d.password) < MinPasswordLength then Some(PasswordTooShort)
    else None
  }

  /** The inputs, the error message and the reported record after one submit. */
  datatype SubmitOutcome = SubmitOutcome(inputs: SignUpData, error: string, reported: Option<SignUpData>)

  /** The effect of handleSubmit on inputs d (the previous error plays no part). */
  function Submit(d: SignUpData): (o: SubmitOutcome)
    ensures o.error == "" <==> o.reported.Some?
    ensures o.reported.Some? ==> o.reported.value == d && o.inputs == Cleared
    ensures o.reported.None? ==> o.inputs == d && Check(d) == Some(o.error)
    ensures o.reported.Some? <==> Check(d) == None
  {
    match Check(d)
    case Some(msg) => SubmitOutcome(d, msg, None)
    case None => SubmitOutcome(Cleared, "", Some(d))
  }

  /** An empty password is reported as a missing field, not as a short one. */
  lemma EmptyBeatsShort(d: SignUpData)
    requires d.password == ""
    ensures Submit(d).error == AllFieldsRequired
    ensures Submit(d).reported == None
  {
  }

  /** Only the presence of an email is checked: any non-empty email behaves alike. */
  lemma EmailOnlyCheckedForPresence(d: SignUpData, other: string)
    requires d.email != "" && other != ""
    ensures Check(d.(email := other)) == Check(d)
  {
  }

  /** A password of at least eight characters, whatever they are, is long enough. */
  lemma LongPasswordAccepted(d: SignUpData)
    requires !HasEmptyField(d)
    requires |d.password| >= MinPasswordLength
    ensures Submit(d).reported == Some(d)
  {
  }

  /** A password of fewer than four characters is always too short, whatever they are. */
  lemma VeryShortPasswordRejected(d: SignUpData)
    requires !HasEmptyField(d)
    requires |d.password| < MinPasswordLength / 2
    ensures Submit(d).error == PasswordTooShort
  {
  }

  /** Submitting again right after a successful submit fails: the inputs are empty. */
  lemma SecondSubmitFails(d: SignUpData)
    requires Submit(d).reported.Some?
    ensures Submit(Submit(d).inputs).error == AllFieldsRequired
    ensures Submit(Submit(d).inputs).reported == None
  {
  }

  /** A failed submit leaves the inputs as they were, so repeating it fails the same way. */
  lemma FailedSubmitRepeats(d: SignUpData)
    requires Submit(d).reported.None?
    ensures Submit(Submit(d).inputs) == Submit(d)
  {
  }

  /** The sign-up component: its five state cells and its handlers. */
  class SignUpForm {
    var firstName: string
    var lastName: string
    var email: string
    var password: string
    var error: string

    /** The current values of the four inputs. */
    function Inputs(): SignUpData
      reads this
    {
      SignUpData(firstName, lastName, email, password)
    }

    /** Mounting the component: every input and the error are empty. */
    constructor ()
      ensures Inputs() == Cleared && error == ""
    {
      firstName, lastName, email, password := "", "", "", "";
      error := "";
    }

    /** onChange of the first-name input. */
    method SetFirstName(value: string)
      modifies this`firstName
      ensures Inputs() == old(Inputs()).(firstName := value)
    {
      firstName := value;
    }

    /** onChange of the last-name input. */
    method SetLastName(value: string)
      modifies this`lastName
      ensures Inputs() == old(Inputs()).(lastName := value)
    {
      lastName := value;
    }

    /** onChange of the email input. */
    method SetEmail(value: string)
      modifies this`email
      ensures Inputs() == old(Inputs()).(email := value)
    {
      email := value;
    }

    /** onChange of the password input. */
    method SetPassword(value: string)
      modifies this`password
      ensures Inputs() == old(Inputs()).(password := value)
    {
      password := value;
    }

    /**
     * handleSubmit: clear the error, then reject missing fields, then reject a
     * short password; otherwise report the inputs and clear them.
     */
    method HandleSubmit() returns (reported: Option<SignUpData>)
      modifies this
      ensures Inputs() == Submit(old(Inputs())).inputs
      ensures error == Submit(old(Inputs())).error
      ensures reported == Submit(old(Inputs())).reported
    {
      error := "";
      if firstName == "" || lastName == "" || email == "" || password == "" {
        error := AllFieldsRequired;
        return None;
      }
      if Utf16Length(password) < MinPasswordLength {
        error := PasswordTooShort;
        return None;
      }
      reported := Some(SignUpData(firstName, lastName, email, password));
      firstName := "";
      lastName := "";
      email := "";
      password := "";
    }
  }
}
