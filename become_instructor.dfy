/** The instructor application form (src/app/become-instructor/page.tsx). */
module BecomeInstructor {
  import opened Wrappers
  import opened JsString
  import opened Lists

  const ConsentError: string := "개인정보 수집 및 이용에 동의해야 합니다."
  const IntroError: string := "자기소개는 20자 이상 입력해 주세요."
  const ApplyFailed: string := "강사 신청 실패"
  const ServerError: string := "서버 오류가 발생했습니다."
  const MinIntroLength: nat := 20

  /** The test `f !== field`, named so that every use denotes the same function. */
  function Other(field: string): string -> bool
  {
    f => f != field
  }

  /** `handleFieldChange`: a selected field is deselected (every occurrence removed),
      an unselected one is appended at the end. */
  function ToggleField(fields: seq<string>, field: string): (r: seq<string>)
    ensures field in r <==> field !in fields
    ensures forall f :: f != field ==> (f in r <==> f in fields)
  {
    if field in fields then Filter(fields, Other(field)) else fields + [field]
  }

  /** Deselecting keeps the other fields in their order; selecting appends at the end. */
  lemma ToggleKeepsOrder(fields: seq<string>, field: string)
    ensures field in fields ==>
              && ToggleField(fields, field) == Filter(fields, Other(field))
              && forall f :: f != field ==> multiset(ToggleField(fields, field))[f] == multiset(fields)[f]
    ensures field !in fields ==> ToggleField(fields, field) == fields + [field]
  {
    if field in fields {
      forall f | f != field ensures multiset(ToggleField(fields, field))[f] == multiset(fields)[f] {
        FilterCounts(fields, Other(field), f);
      }
    }
  }

  /** Toggling an unselected field twice restores the list. */
  lemma {:induction false} ToggleTwiceRestores(fields: seq<string>, field: string)
    requires field !in fields
    ensures ToggleField(ToggleField(fields, field), field) == fields
  {
    FilterAppend(fields, [field], Other(field));
    FilterKeepsAll(fields, Other(field));
    assert Filter([field], Other(field)) == [];
  }

  /** Toggling never introduces a duplicate. */
  lemma {:induction false} ToggleKeepsNoDuplicates(fields: seq<string>, field: string)
    requires NoDuplicates(fields)
    ensures NoDuplicates(ToggleField(fields, field))
  {
    if field in fields {
      FilterKeepsNoDuplicates(fields, Other(field));
    } else {
      var r := fields + [field];
      forall i, j | 0 <= i < j < |r| ensures r[i] != r[j] {
        if j == |fields| { assert r[i] == fields[i]; }
      }
    }
  }

  /** The checks at the top of `handleSubmit`: consent first, then an introduction of at
      least 20 UTF-16 code units. */
  function SubmitGuard(agree: bool, intro: string): (error: Option<string>)
    ensures !agree ==> error == Some(ConsentError)
    ensures agree ==> (error.Some? <==> Utf16Length(intro) < MinIntroLength)
    ensures agree && Utf16Length(intro) < MinIntroLength ==> error == Some(IntroError)
    ensures error.Some? ==> error.value in {ConsentError, IntroError}
  {
    if !agree then Some(ConsentError)
    else if Utf16Length(intro) < MinIntroLength then Some(IntroError)
    else None
  }

  /** An introduction of 20 Hangul or Latin characters or more passes the length check. */
  lemma LongIntroPasses(intro: string)
    requires |intro| >= MinIntroLength
    ensures SubmitGuard(true, intro) == None
  {
  }

  /** What is posted to the application endpoint. */
  datatype Application = Application(
    intro: string, career: string, certificate: string, fields: seq<string>,
    motivation: string, contact: string)

  /** The reply body as far as the page reads it: `message`, and the serialised `user`. */
  datatype ReplyBody = ReplyBody(message: Option<string>, user: string)

  /** How the request ends: `fetch` throws, or a reply whose body is JSON (`Some`) or not
      (`None`, so `res.json()` throws). */
  datatype Outcome = NetworkError | Reply(ok: bool, body: Option<ReplyBody>)

  /** The error a non-ok reply shows: its message when truthy, the fallback otherwise. */
  function FailureMessage(body: ReplyBody): (m: string)
    ensures m != ""
    ensures body.message.Some? && body.message.value != "" ==> m == body.message.value
    ensures !(body.message.Some? && body.message.value != "") ==> m == ApplyFailed
  {
    if body.message.Some? && body.message.value != "" then body.message.value else ApplyFailed
  }

  /** The form's React state, the cached `user` in `localStorage`, the requests sent and
      the navigation scheduled. */
  class ApplicationForm {
    var intro: string
    var career: string
    var certificate: string
    var fields: seq<string>
    var motivation: string
    var contact: string
    var agree: bool
    var loading: bool
    var success: bool
    var error: string
    var cachedUser: Option<string>
    var sent: seq<Application>
    var pushed: seq<string>

    constructor (cached: Option<string>)
      ensures intro == "" && career == "" && certificate == "" && fields == []
      ensures motivation == "" && contact == "" && !agree && !loading && !success && error == ""
      ensures cachedUser == cached && sent == [] && pushed == []
    {
      intro, career, certificate, fields := "", "", "", [];
      motivation, contact, agree := "", "", false;
      loading, success, error := false, false, "";
      cachedUser, sent, pushed := cached, [], [];
    }

    method HandleFieldChange(field: string)
      modifies this
      ensures fields == ToggleField(old(fields), field)
      ensures intro == old(intro) && agree == old(agree) && sent == old(sent) && error == old(error)
      ensures loading == old(loading) && success == old(success) && cachedUser == old(cachedUser)
      ensures career == old(career) && certificate == old(certificate)
      ensures motivation == old(motivation) && contact == old(contact) && pushed == old(pushed)
    {
      fields := ToggleField(fields, field);
    }

    /** `handleSubmit`. A failed guard sets its message and neither sets `loading` nor sends
        anything. Otherwise the application is sent; a failure shows an error and resets
        `loading` without touching the cache; a success caches the returned user, sets
        `success` and schedules the move to the home page. */
    method HandleSubmit(outcome: Outcome)
      modifies this
      ensures intro == old(intro) && fields == old(fields) && agree == old(agree)
      ensures career == old(career) && certificate == old(certificate)
      ensures motivation == old(motivation) && contact == old(contact)
      ensures var guard := SubmitGuard(old(agree), old(intro));
              if guard.Some? then
                && error == guard.value && loading == old(loading) && success == old(success)
                && sent == old(sent) && cachedUser == old(cachedUser) && pushed == old(pushed)
              else
                && sent == old(sent) + [Application(old(intro), old(career), old(certificate), old(fields), old(motivation), old(contact))]
                && !loading
                && if outcome.Reply? && outcome.body.Some? && outcome.ok then
                     cachedUser == Some(outcome.body.value.user) && success && error == ""
                     && pushed == old(pushed) + ["/"]
                   else if outcome.Reply? && outcome.body.Some? then
                     error == FailureMessage(outcome.body.value) && cachedUser == old(cachedUser)
                     && success == old(success) && pushed == old(pushed)
                   else
                     error == ServerError && cachedUser == old(cachedUser)
                     && success == old(success) && pushed == old(pushed)
    {
      error := "";
      var guard := SubmitGuard(agree, intro);
      if guard.Some? {
        error := guard.value;
        return;
      }
      loading := true;
      sent := sent + [Application(intro, career, certificate, fields, motivation, contact)];
      if outcome.Reply? && outcome.body.Some? {
        if outcome.ok {
          cachedUser := Some(outcome.body.value.user);
          success := true;
          loading := false;
          pushed := pushed + ["/"];
        } else {
          error := FailureMessage(outcome.body.value);
          loading := false;
        }
      } else {
        // `fetch` or `res.json()` threw
        error := ServerError;
        loading := false;
      }
    }
  }
}
