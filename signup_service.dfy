/**
 * The sign-up endpoint of the API server (server.js, `POST /api/signup`) over the user
 * collection. This server declares its own user schema (email, password, name, bio;
 * email unique), separate from the model schema of src/server/models/User.js.
 */
module SignupService {
  import opened Wrappers
  import opened Browser

  /** The request body fields the handler reads, as strings or absent. */
  datatype SignupBody = SignupBody(email: Option<string>, password: Option<string>, name: Option<string>, bio: Option<string>)

  /** A stored user document. */
  datatype Account = Account(email: string, password: string, name: string, bio: Option<string>)

  /** The user part of a success reply: `{ email, name, bio }`. */
  datatype PublicUser = PublicUser(email: string, name: string, bio: Option<string>)

  datatype Reply = Reply(status: nat, message: string, user: Option<PublicUser>)

  /** A reply together with the collection after the request. */
  datatype Outcome = Outcome(reply: Reply, accounts: seq<Account>)

  const MissingFields: string := "필수 입력값이 누락되었습니다."
  const EmailInUse: string := "이미 등록된 이메일입니다."
  const SignupDone: string := "회원가입 완료"

  predicate HasRequiredFields(body: SignupBody)
  {
    Truthy(body.email) && Truthy(body.password) && Truthy(body.name)
  }

  /** `User.findOne({ email })` finds a document: an exact, case-sensitive match. */
  predicate EmailTaken(accounts: seq<Account>, email: string)
  {
    exists i :: 0 <= i < |accounts| && accounts[i].email == email
  }

  predicate UniqueEmails(accounts: seq<Account>)
  {
    forall i, j :: 0 <= i < j < |accounts| ==> accounts[i].email != accounts[j].email
  }

  /** The reply projection of a stored document: everything but the password. */
  function Public(a: Account): PublicUser
  {
    PublicUser(a.email, a.name, a.bio)
  }

  /** The handler: 400 when email, password or name is missing or empty, 409 when the email
      is already registered, otherwise one new document and 201. Only a 201 changes the
      collection, and its reply carries the new document without its password. */
  function Signup(accounts: seq<Account>, body: SignupBody): (o: Outcome)
    ensures o.reply.status in {400, 409, 201}
    ensures o.reply.status == 400 <==> !HasRequiredFields(body)
    ensures o.reply.status == 409 <==> HasRequiredFields(body) && EmailTaken(accounts, body.email.value)
    ensures o.reply.status != 201 ==> o.accounts == accounts && o.reply.user == None
    ensures o.reply.status == 201 ==>
              && o.accounts == accounts + [Account(body.email.value, body.password.value, body.name.value, body.bio)]
              && o.reply.user == Some(Public(o.accounts[|accounts|]))
  {
    if !HasRequiredFields(body) then
      Outcome(Reply(400, MissingFields, None), accounts)
    else if EmailTaken(accounts, body.email.value) then
      Outcome(Reply(409, EmailInUse, None), accounts)
    else
      var a := Account(body.email.value, body.password.value, body.name.value, body.bio);
      Outcome(Reply(201, SignupDone, Some(Public(a))), accounts + [a])
  }

  /** One sign-up keeps the emails of the collection unique. */
  lemma SignupKeepsEmailsUnique(accounts: seq<Account>, body: SignupBody)
    requires UniqueEmails(accounts)
    ensures UniqueEmails(Signup(accounts, body).accounts)
  {
    var o := Signup(accounts, body);
    if o.reply.status == 201 {
      forall i, j | 0 <= i < j < |o.accounts| ensures o.accounts[i].email != o.accounts[j].email {
        if j == |accounts| {
          assert o.accounts[i] == accounts[i];
        }
      }
    }
  }

  /** The collection after a sequence of sign-up requests, handled one at a time. */
  function SignupAll(accounts: seq<Account>, bodies: seq<SignupBody>): (r: seq<Account>)
    ensures accounts <= r && |r| <= |accounts| + |bodies|
    decreases |bodies|
  {
    if bodies == [] then accounts
    else SignupAll(Signup(accounts, bodies[0]).accounts, bodies[1..])
  }

  /** Any sequence of sign-ups from a collection with unique emails keeps them unique. */
  lemma {:induction false} SignupAllKeepsEmailsUnique(accounts: seq<Account>, bodies: seq<SignupBody>)
    requires UniqueEmails(accounts)
    ensures UniqueEmails(SignupAll(accounts, bodies))
    decreases |bodies|
  {
    if bodies != [] {
      SignupKeepsEmailsUnique(accounts, bodies[0]);
      SignupAllKeepsEmailsUnique(Signup(accounts, bodies[0]).accounts, bodies[1..]);
    }
  }

  /** Repeating a successful sign-up conflicts and changes nothing. */
  lemma RepeatedSignupConflicts(accounts: seq<Account>, body: SignupBody)
    requires Signup(accounts, body).reply.status == 201
    ensures var after := Signup(accounts, body).accounts;
            Signup(after, body).reply.status == 409 && Signup(after, body).accounts == after
  {
    var after := Signup(accounts, body).accounts;
    assert after[|accounts|].email == body.email.value;
  }

  /** `bio` is optional: a request without it succeeds for a new email, and the stored
      document and the reply have no bio. */
  lemma BioIsOptional(accounts: seq<Account>, email: string, password: string, name: string)
    requires email != "" && password != "" && name != "" && !EmailTaken(accounts, email)
    ensures var o := Signup(accounts, SignupBody(Some(email), Some(password), Some(name), None));
            o.reply.status == 201 && o.reply.user == Some(PublicUser(email, name, None))
  {
  }

  /** The user collection of the running server. */
  class UserCollection {
    var accounts: seq<Account>

    ghost predicate Valid()
      reads this
    {
      UniqueEmails(accounts)
    }

    constructor ()
      ensures Valid() && accounts == []
    {
      accounts := [];
    }

    /** `POST /api/signup`, handled sequentially. */
    method HandleSignup(body: SignupBody) returns (reply: Reply)
      requires Valid()
      modifies this
      ensures Valid()
      ensures reply == Signup(old(accounts), body).reply
      ensures accounts == Signup(old(accounts), body).accounts
    {
      if !Truthy(body.email) || !Truthy(body.password) || !Truthy(body.name) {
        return Reply(400, MissingFields, None);
      }
      var email := body.email.value;
      if exists i :: 0 <= i < |accounts| && accounts[i].email == email {
        return Reply(409, EmailInUse, None);
      }
      SignupKeepsEmailsUnique(accounts, body);
      var account := Account(email, body.password.value, body.name.value, body.bio);
      accounts := accounts + [account];
      reply := Reply(201, SignupDone, Some(Public(account)));
    }
  }
}
