/** The sign-up form (src/app/signup/page.tsx): single-field updates and the
    password confirmation check. */
module SignupForm {

  datatype Form = Form(
    email: string, password: string, confirmPassword: string, name: string, bio: string,
    interests: seq<string>)

  /** The `name` attributes of the form's inputs. */
  datatype Field = Email | Password | ConfirmPassword | Name | Bio

  const EmptyForm: Form := Form("", "", "", "", "", [])
  const MismatchError: string := "비밀번호가 일치하지 않습니다."

  function Get(form: Form, field: Field): string
  {
    match field
    case Email => form.email
    case Password => form.password
    case ConfirmPassword => form.confirmPassword
    case Name => form.name
    case Bio => form.bio
  }

  /** `handleChange`: `{ ...prev, [name]: value }`. The named field takes the value and
      every other field, `interests` included, is unchanged. */
  function SetField(form: Form, field: Field, value: string): (r: Form)
    ensures Get(r, field) == value
    ensures forall other :: other != field ==> Get(r, other) == Get(form, other)
    ensures r.interests == form.interests
  {
    match field
    case Email => form.(email := value)
    case Password => form.(password := value)
    case ConfirmPassword => form.(confirmPassword := value)
    case Name => form.(name := value)
    case Bio => form.(bio := value)
  }

  /** Setting a field to the value it already has changes nothing; the last of two writes
      to one field wins. */
  lemma SetFieldLaws(form: Form, field: Field, v: string, w: string)
    ensures SetField(form, field, Get(form, field)) == form
    ensures SetField(SetField(form, field, v), field, w) == SetField(form, field, w)
  {
  }

  /** The error `handleSubmit` leaves: the mismatch message when the password and its
      confirmation differ, none otherwise. */
  function SubmitError(form: Form): (error: string)
    ensures error == "" <==> form.password == form.confirmPassword
    ensures error != "" ==> error == MismatchError
  {
    if form.password != form.confirmPassword then MismatchError else ""
  }

  /** The page's React state. */
  class SignupPage {
    var form: Form
    var error: string

    constructor ()
      ensures form == EmptyForm && error == ""
    {
      form, error := EmptyForm, "";
    }

    method HandleChange(field: Field, value: string)
      modifies this
      ensures form == SetField(old(form), field, value) && error == old(error)
    {
      form := SetField(form, field, value);
    }

    /** `handleSubmit`: clears the error, then sets the mismatch message and stops when the
        two passwords differ. The submission itself is still a placeholder that only logs. */
    method HandleSubmit()
      modifies this
      ensures form == old(form)
      ensures error == SubmitError(old(form))
    {
      error := "";
      if form.password != form.confirmPassword {
        error := MismatchError;
        return;
      }
    }
  }
}
