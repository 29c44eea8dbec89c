/**
 * The user model schema (src/server/models/User.js): setters applied on assignment
 * (`trim`, `lowercase`), validation (required, minimum length, role enum and default) and
 * the `pre("save")` hook that hashes a modified password.
 */
module UserSchema {
  import opened Wrappers
  import opened JsString

  /** The schema's role enum; note `user` where the client types say `student`. */
  datatype SchemaRole = UserRole | InstructorRole | AdminRole

  function SchemaRoleNamed(s: string): (r: Option<SchemaRole>)
    ensures r.Some? <==> s in {"user", "instructor", "admin"}
  {
    if s == "user" then Some(UserRole)
    else if s == "instructor" then Some(InstructorRole)
    else if s == "admin" then Some(AdminRole)
    else None
  }

  const MinPasswordLength: nat := 6

  /** The values assigned to a new document, as strings or absent. */
  datatype UserInput = UserInput(
    email: Option<string>, password: Option<string>, name: Option<string>, bio: Option<string>,
    role: Option<string>)

  /** A document that passed validation. */
  datatype UserDoc = UserDoc(email: string, password: string, name: string, bio: Option<string>, role: SchemaRole)

  /** One error per failing path, in the schema's path order. */
  datatype SchemaError = EmailRequired | PasswordRequired | PasswordTooShort | NameRequired | RoleNotAllowed

  datatype Validation = Accepted(doc: UserDoc) | Rejected(errors: seq<SchemaError>)

  /** The email setters: `trim`, then `lowercase`. */
  function NormalizeEmail(s: string): (r: string)
    ensures |r| <= |s|
    ensures forall i :: 0 <= i < |r| ==> !('A' <= r[i] <= 'Z')
    ensures r != [] ==> !IsWhitespace(r[0]) && !IsWhitespace(r[|r| - 1])
  {
    LowerKeepsEnds(Trim(s));
    ToLower(Trim(s))
  }

  function TrimOption(s: Option<string>): Option<string>
  {
    if s.Some? then Some(Trim(s.value)) else None
  }

  /** A `required` string path fails on an absent or empty value. */
  predicate Present(s: Option<string>)
  {
    s.Some? && s.value != ""
  }

  function EmailErrors(email: Option<string>): seq<SchemaError>
  {
    if !Present(if email.Some? then Some(NormalizeEmail(email.value)) else None) then [EmailRequired] else []
  }

  /** `required` runs first; `minlength` counts UTF-16 code units. */
  function PasswordErrors(password: Option<string>): seq<SchemaError>
  {
    if !Present(password) then [PasswordRequired]
    else if Utf16Length(password.value) < MinPasswordLength then [PasswordTooShort]
    else []
  }

  function NameErrors(name: Option<string>): seq<SchemaError>
  {
    if !Present(TrimOption(name)) then [NameRequired] else []
  }

  /** An absent role takes the default; a given one must be in the enum. */
  function RoleErrors(role: Option<string>): seq<SchemaError>
  {
    if role.Some? && SchemaRoleNamed(role.value).None? then [RoleNotAllowed] else []
  }

  /** Casting (setters and default) followed by validation. */
  function Validate(input: UserInput): (v: Validation)
    ensures v.Rejected? ==> v.errors != []
    ensures v.Accepted? ==> Present(input.email) && Present(input.password) && Present(input.name)
    ensures v.Accepted? <==>
              && input.email.Some? && NormalizeEmail(input.email.value) != ""
              && Present(input.password) && Utf16Length(input.password.value) >= MinPasswordLength
              && input.name.Some? && Trim(input.name.value) != ""
              && (input.role.None? || input.role.value in {"user", "instructor", "admin"})
  {
    var errors := EmailErrors(input.email) + PasswordErrors(input.password)
                + NameErrors(input.name) + RoleErrors(input.role);
    if errors != [] then Rejected(errors)
    else
      Accepted(UserDoc(
        NormalizeEmail(input.email.value),
        input.password.value,
        Trim(input.name.value),
        TrimOption(input.bio),
        if input.role.None? then UserRole else SchemaRoleNamed(input.role.value).value))
  }

  /** A stored document keeps the normalised email, the trimmed name and bio, the password
      as given (at least 6 code units long) and its role, `user` when none was given. */
  lemma AcceptedDocumentIsNormalised(input: UserInput)
    requires Validate(input).Accepted?
    ensures var d := Validate(input).doc;
            && d.email == NormalizeEmail(input.email.value) && d.email != ""
            && d.name == Trim(input.name.value) && d.name != ""
            && d.bio == TrimOption(input.bio)
            && d.password == input.password.value && Utf16Length(d.password) >= MinPasswordLength
            && (input.role.None? ==> d.role == UserRole)
            && (input.role.Some? ==> SchemaRoleNamed(input.role.value) == Some(d.role))
  {
    assert EmailErrors(input.email) == [] && PasswordErrors(input.password) == [];
    assert NameErrors(input.name) == [] && RoleErrors(input.role) == [];
  }

  /** A password shorter than 6 code units is rejected, with the length error. */
  lemma ShortPasswordRejected(input: UserInput)
    requires Present(input.password) && Utf16Length(input.password.value) < MinPasswordLength
    ensures Validate(input).Rejected? && PasswordTooShort in Validate(input).errors
  {
    assert PasswordErrors(input.password) == [PasswordTooShort];
  }

  /** A missing email, password or name is rejected with the matching error. */
  lemma MissingFieldsRejected(input: UserInput)
    ensures input.email.None? ==> Validate(input).Rejected? && EmailRequired in Validate(input).errors
    ensures !Present(input.password) ==> Validate(input).Rejected? && PasswordRequired in Validate(input).errors
    ensures input.name.None? ==> Validate(input).Rejected? && NameRequired in Validate(input).errors
  {
  }

  /** A role outside the enum is rejected; no role at all is not an error. */
  lemma RoleMustBeInEnum(input: UserInput)
    ensures input.role.Some? && input.role.value !in {"user", "instructor", "admin"}
            ==> Validate(input).Rejected? && RoleNotAllowed in Validate(input).errors
    ensures input.role.None? ==> RoleNotAllowed !in (if Validate(input).Rejected? then Validate(input).errors else [])
  {
  }

  /** The unique index compares normalised emails, so it ignores letter case and whitespace
      around the address: `" Kim@X.com "` and `"kim@x.com"` collide. */
  lemma EmailUniquenessIgnoresCaseAndSpace(front: string, s: string, back: string)
    requires AllWhitespace(front) && AllWhitespace(back)
    ensures NormalizeEmail(front + s + back) == NormalizeEmail(s)
    ensures NormalizeEmail(ToLower(s)) == NormalizeEmail(s)
    ensures NormalizeEmail(NormalizeEmail(s)) == NormalizeEmail(s)
  {
    TrimIgnoresPadding(front, s, back);
    TrimLowerCommute(s);
    ToLowerProperties(Trim(s));
    TrimLowerCommute(Trim(s));
    TrimIdempotent(s);
  }

  /** A document of the model, with the one piece of change tracking the hook consults. */
  class UserDocument {
    var email: string
    var password: string
    var name: string
    var bio: Option<string>
    var role: SchemaRole
    var passwordModified: bool

    /** A new document: every assigned path counts as modified. */
    constructor (doc: UserDoc)
      ensures email == doc.email && password == doc.password && name == doc.name
      ensures bio == doc.bio && role == doc.role && passwordModified
    {
      email, password, name, bio, role := doc.email, doc.password, doc.name, doc.bio, doc.role;
      passwordModified := true;
    }

    /** Assigning a path marks it modified unless it already holds that value; a new
        document's paths are modified from the start (see the constructor). */
    method SetPassword(p: string)
      modifies this
      ensures password == p && passwordModified == (old(passwordModified) || p != old(password))
      ensures email == old(email) && name == old(name) && bio == old(bio) && role == old(role)
    {
      if p != password {
        passwordModified := true;
      }
      password := p;
    }

    /** The `pre("save")` hook: an unmodified password is left alone, a modified one is
        replaced by its hash. `hash` stands for bcrypt with the salt drawn for this save. */
    method PreSave(hash: string -> string)
      modifies this
      ensures password == if old(passwordModified) then hash(old(password)) else old(password)
      ensures email == old(email) && name == old(name) && bio == old(bio) && role == old(role)
      ensures passwordModified == old(passwordModified)
    {
      if !passwordModified {
        return;
      }
      password := hash(password);
    }

    /** A save: the hook, then the change tracking is reset, so saving again does not
        hash the hash. */
    method Save(hash: string -> string)
      modifies this
      ensures password == if old(passwordModified) then hash(old(password)) else old(password)
      ensures email == old(email) && name == old(name) && bio == old(bio) && role == old(role)
      ensures !passwordModified
    {
      PreSave(hash);
      passwordModified := false;
    }
  }
}
