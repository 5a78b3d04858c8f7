/**
 * Account registration: the API handler and `registerUser`
 * (pages/api/register.ts), which validate the request body and consume an
 * invite token before creating the user, and the registration page
 * (pages/register.tsx), which validates the invite token from the query
 * string, decides whether the page is served and builds the request body.
 *
 * Password hashing is a parameter (`passwordHash`), the clock is a parameter
 * (`now`), and the tables are sequences of rows.
 */
module Registration {
  import opened Seqs
  import opened JsonValues

  /** The output of `RegistrationDataValidator.parse`. */
  datatype RegistrationData = RegistrationData(email: string, password: string, name: string, inviteToken: Option<string>)

  /**
   * A simplified `z.string().email()`: one '@' with a non-empty local part
   * before it, and a domain after it with an inner '.'.
   */
  predicate EmailShaped(s: string) {
    exists k | 0 < k < |s| ::
      && s[k] == '@'
      && (forall j | 0 <= j < |s| && j != k :: s[j] != '@')
      && (exists d | k + 1 < d < |s| - 1 :: s[d] == '.')
  }

  /**
   * `String.prototype.length`, which `z.string().min` compares: UTF-16 code
   * units, so a character above U+FFFF counts twice.
   */
  function Utf16Length(s: string): (n: nat)
    ensures |s| <= n <= 2 * |s|
  {
    if s == [] then 0 else (if s[0] as int > 0xFFFF then 2 else 1) + Utf16Length(s[1..])
  }

  /** Without characters above U+FFFF the UTF-16 length is the number of characters. */
  lemma {:induction false} Utf16LengthOfBmp(s: string)
    requires forall i | 0 <= i < |s| :: s[i] as int <= 0xFFFF
    ensures Utf16Length(s) == |s|
  {
    if s != [] {
      Utf16LengthOfBmp(s[1..]);
    }
  }

  /** Three emoji are six code units, enough for `min(6)`. */
  lemma ThreeEmojiAreSixUnits()
    ensures Utf16Length("\U{1F600}\U{1F600}\U{1F600}") == 6
  {
    var s := "\U{1F600}\U{1F600}\U{1F600}";
    assert s[1..][1..][1..] == [];
  }

  /** `JSON.parse` (`None` when it throws) followed by `RegistrationDataValidator.parse`. */
  function Parse(body: Option<Json>): (r: Option<RegistrationData>)
    ensures r.Some? <==>
      && body.Some? && body.value.JObject?
      && HasString(body.value.fields, "email") && EmailShaped(body.value.fields["email"].s)
      && HasString(body.value.fields, "password") && Utf16Length(body.value.fields["password"].s) >= 6
      && HasString(body.value.fields, "name")
      && ("inviteToken" !in body.value.fields || HasString(body.value.fields, "inviteToken"))
    ensures r.Some? ==>
      && r.value.email == body.value.fields["email"].s
      && r.value.password == body.value.fields["password"].s
      && r.value.name == body.value.fields["name"].s
      && (r.value.inviteToken.Some? <==> "inviteToken" in body.value.fields)
      && (r.value.inviteToken.Some? ==> r.value.inviteToken.value == body.value.fields["inviteToken"].s)
  {
    if body.None? || !body.value.JObject? then None
    else
      var o := body.value.fields;
      if "email" !in o || !o["email"].JString? || !EmailShaped(o["email"].s) then None
      else if "password" !in o || !o["password"].JString? || Utf16Length(o["password"].s) < 6 then None
      else if "name" !in o || !o["name"].JString? then None
      else if "inviteToken" !in o then Some(RegistrationData(o["email"].s, o["password"].s, o["name"].s, None))
      else if !o["inviteToken"].JString? then None
      else Some(RegistrationData(o["email"].s, o["password"].s, o["name"].s, Some(o["inviteToken"].s)))
  }

  /** A `User` row: only the hash of the password is kept. */
  datatype User = User(email: string, name: string, passwordHash: string)

  /** An `InviteToken` row. */
  datatype InviteToken = InviteToken(token: string, used: bool, usedAt: Option<int>)

  datatype Outcome = Registered | InvalidToken | TokenAlreadyUsed | EmailTaken

  /** The new state of both tables and the outcome of one `registerUser` call. */
  datatype Step = Step(users: seq<User>, tokens: seq<InviteToken>, outcome: Outcome)

  /**
   * The rows that `where: { token: inviteToken }` selects as written: an
   * absent `inviteToken` is `undefined`, which Prisma drops from the filter,
   * so it selects every row.
   */
  function SelectsAsWritten(inviteToken: Option<string>): InviteToken -> bool {
    (t: InviteToken) => inviteToken.None? || t.token == inviteToken.value
  }

  /** The rows the filter is evidently meant to select: those holding the given token, and none without one. */
  function Selects(inviteToken: Option<string>): InviteToken -> bool {
    (t: InviteToken) => inviteToken.Some? && t.token == inviteToken.value
  }

  /** The rows `updateMany` touches: selected and not yet used. */
  function Usable(sel: InviteToken -> bool): InviteToken -> bool {
    (t: InviteToken) => sel(t) && !t.used
  }

  /** `updateMany({ where: { ..., used: false }, data: { used: true, usedAt: now } })` */
  function Consume(tokens: seq<InviteToken>, sel: InviteToken -> bool, now: int): (r: seq<InviteToken>)
    ensures |r| == |tokens|
    ensures forall i :: 0 <= i < |r| ==>
      r[i] == if Usable(sel)(tokens[i]) then InviteToken(tokens[i].token, true, Some(now)) else tokens[i]
  {
    seq(|tokens|, i requires 0 <= i < |tokens| =>
      if Usable(sel)(tokens[i]) then InviteToken(tokens[i].token, true, Some(now)) else tokens[i])
  }

  predicate EmailInUse(users: seq<User>, email: string) {
    exists i :: 0 <= i < |users| && users[i].email == email
  }

  /**
   * `registerUser(data, checkInviteToken)` run on its own, with the given row
   * filter: the token must select a row (else 'Invalid token!'), then at
   * least one selected unused row must be consumed (else 'Token already
   * used!'); only then is the user inserted, which the unique e-mail index
   * refuses for a taken address after the tokens are already consumed.
   */
  function RegisterStep(users: seq<User>, tokens: seq<InviteToken>, data: RegistrationData, checkInviteToken: bool,
                        sel: InviteToken -> bool, now: int, passwordHash: string): Step
  {
    if checkInviteToken && FindBy(tokens, sel, true).None? then Step(users, tokens, InvalidToken)
    else if checkInviteToken && Filter(tokens, Usable(sel)) == [] then Step(users, tokens, TokenAlreadyUsed)
    else
      var tokens' := if checkInviteToken then Consume(tokens, sel, now) else tokens;
      if EmailInUse(users, data.email) then Step(users, tokens', EmailTaken)
      else Step(users + [User(data.email, data.name, passwordHash)], tokens', Registered)
  }

  /** `registerUser` with the filter evidently intended. */
  function Register(users: seq<User>, tokens: seq<InviteToken>, data: RegistrationData, checkInviteToken: bool,
                    now: int, passwordHash: string): Step
  {
    RegisterStep(users, tokens, data, checkInviteToken, Selects(data.inviteToken), now, passwordHash)
  }

  /** `registerUser` with the filter as written. */
  function RegisterAsWritten(users: seq<User>, tokens: seq<InviteToken>, data: RegistrationData, checkInviteToken: bool,
                             now: int, passwordHash: string): Step
  {
    RegisterStep(users, tokens, data, checkInviteToken, SelectsAsWritten(data.inviteToken), now, passwordHash)
  }

  /**
   * The outcomes of `registerUser`: a failed token check changes nothing; a
   * user is added only on success, holding the e-mail, the name and the
   * password hash; with token checking disabled the token table is untouched.
   */
  lemma RegisterRules(users: seq<User>, tokens: seq<InviteToken>, data: RegistrationData, checkInviteToken: bool,
                      now: int, passwordHash: string)
    ensures var s := Register(users, tokens, data, checkInviteToken, now, passwordHash);
      && (s.outcome == InvalidToken <==>
            checkInviteToken && forall i :: 0 <= i < |tokens| ==> !(data.inviteToken == Some(tokens[i].token)))
      && (s.outcome == TokenAlreadyUsed <==>
            && checkInviteToken && s.outcome != InvalidToken
            && forall i :: 0 <= i < |tokens| && data.inviteToken == Some(tokens[i].token) ==> tokens[i].used)
      && (s.outcome in {InvalidToken, TokenAlreadyUsed} ==> s.users == users && s.tokens == tokens)
      && (checkInviteToken && s.outcome in {Registered, EmailTaken} ==>
            s.tokens == Consume(tokens, Selects(data.inviteToken), now))
      && (s.outcome == Registered <==> s.outcome !in {InvalidToken, TokenAlreadyUsed} && !EmailInUse(users, data.email))
      && (s.outcome == Registered ==> s.users == users + [User(data.email, data.name, passwordHash)])
      && (s.outcome != Registered ==> s.users == users)
      && (!checkInviteToken ==> s.tokens == tokens && s.outcome in {Registered, EmailTaken})
  {
    var sel := Selects(data.inviteToken);
    if forall i :: 0 <= i < |tokens| ==> !Usable(sel)(tokens[i]) {
      FilterDropsAll(tokens, Usable(sel));
    }
  }

  /**
   * A token admits one registration: after a checked registration with a
   * token succeeds, every row holding it is used, and any later checked
   * registration with the same token fails with 'Token already used!'.
   */
  lemma TokenUsableOnce(users: seq<User>, tokens: seq<InviteToken>, data: RegistrationData, data': RegistrationData,
                        now: int, now': int, hash: string, hash': string)
    requires Register(users, tokens, data, true, now, hash).outcome == Registered
    requires data'.inviteToken == data.inviteToken
    ensures var s := Register(users, tokens, data, true, now, hash);
      && (forall i :: 0 <= i < |s.tokens| && Selects(data.inviteToken)(s.tokens[i]) ==> s.tokens[i].used)
      && Register(s.users, s.tokens, data', true, now', hash').outcome == TokenAlreadyUsed
  {
    var sel := Selects(data.inviteToken);
    var s := Register(users, tokens, data, true, now, hash);
    var row := FindBy(tokens, sel, true);
    var k :| 0 <= k < |tokens| && tokens[k] == row.value;
    assert s.tokens == Consume(tokens, sel, now);
    ConsumeSpendsSelected(tokens, data.inviteToken, now);
    assert sel(s.tokens[k]);
  }

  /** After consuming a token, every row holding it is used and none is left to consume. */
  lemma ConsumeSpendsSelected(tokens: seq<InviteToken>, inviteToken: Option<string>, now: int)
    ensures var r := Consume(tokens, Selects(inviteToken), now);
      && (forall i :: 0 <= i < |r| ==> r[i].token == tokens[i].token)
      && (forall i :: 0 <= i < |r| && Selects(inviteToken)(r[i]) ==> r[i].used)
      && Filter(r, Usable(Selects(inviteToken))) == []
  {
    var r := Consume(tokens, Selects(inviteToken), now);
    FilterDropsAll(r, Usable(Selects(inviteToken)));
  }

  /**
   * As written, a checked registration without a token selects every row: one
   * unused invite token anywhere lets it through and all unused tokens are
   * consumed at once.
   */
  lemma AbsentTokenAsWritten(users: seq<User>, tokens: seq<InviteToken>, data: RegistrationData, now: int, hash: string)
    requires data.inviteToken.None? && !EmailInUse(users, data.email)
    requires exists i :: 0 <= i < |tokens| && !tokens[i].used
    ensures var s := RegisterAsWritten(users, tokens, data, true, now, hash);
      && s.outcome == Registered
      && |s.tokens| == |tokens|
      && forall i :: 0 <= i < |tokens| ==>
           s.tokens[i] == if tokens[i].used then tokens[i] else InviteToken(tokens[i].token, true, Some(now))
  {
    var k :| 0 <= k < |tokens| && !tokens[k].used;
    assert tokens[k] in Filter(tokens, Usable(SelectsAsWritten(data.inviteToken)));
  }

  /** With the intended filter, a checked registration without a token is refused and consumes nothing. */
  lemma AbsentTokenIsInvalid(users: seq<User>, tokens: seq<InviteToken>, data: RegistrationData, now: int, hash: string)
    requires data.inviteToken.None?
    ensures Register(users, tokens, data, true, now, hash) == Step(users, tokens, InvalidToken)
  {
  }

  /** A `registerUser` call the handler starts (without awaiting it). */
  datatype Launch = Launch(data: RegistrationData, checkInviteToken: bool)

  datatype HandlerResult = HandlerResult(status: int, launched: seq<Launch>)

  /**
   * `registerHandler` over the user table as the request finds it: an invalid
   * body or a taken e-mail give 400; with no users yet an unchecked
   * registration is started first; in every case where the e-mail is free a
   * checked registration is then started and the response is 200.
   */
  function RegisterHandler(users: seq<User>, body: Option<Json>): HandlerResult {
    match Parse(body)
    case None => HandlerResult(400, [])
    case Some(data) =>
      var first := if |users| == 0 then [Launch(data, false)] else [];
      if EmailInUse(users, data.email) then HandlerResult(400, first)
      else HandlerResult(200, first + [Launch(data, true)])
  }

  lemma HandlerRules(users: seq<User>, body: Option<Json>)
    ensures var r := RegisterHandler(users, body);
      && (r.status == 200 || r.status == 400)
      && (Parse(body).None? ==> r == HandlerResult(400, []))
      && (Parse(body).Some? && |users| == 0 ==>
            r == HandlerResult(200, [Launch(Parse(body).value, false), Launch(Parse(body).value, true)]))
      && (Parse(body).Some? && EmailInUse(users, Parse(body).value.email) ==> r == HandlerResult(400, []))
      && (r.status == 200 <==> Parse(body).Some? && !EmailInUse(users, Parse(body).value.email))
      && (r.status == 200 ==> r.launched[|r.launched| - 1] == Launch(Parse(body).value, true))
  {
  }

  /** The `User` and `InviteToken` tables. */
  class Database {
    var users: seq<User>
    var tokens: seq<InviteToken>

    constructor (users: seq<User>, tokens: seq<InviteToken>)
      ensures this.users == users && this.tokens == tokens
    {
      this.users := users;
      this.tokens := tokens;
    }

    /** `registerUser`, step by step, with the token filter evidently intended. */
    method RegisterUser(data: RegistrationData, checkInviteToken: bool, now: int, passwordHash: string)
      returns (outcome: Outcome)
      modifies this
      ensures Step(users, tokens, outcome) == Register(old(users), old(tokens), data, checkInviteToken, now, passwordHash)
    {
      var sel := Selects(data.inviteToken);
      if checkInviteToken {
        var row := FindBy(tokens, sel, true);
        if row.None? {
          return InvalidToken;
        }
        var count := |Filter(tokens, Usable(sel))|;
        if count == 0 {
          return TokenAlreadyUsed;
        }
        tokens := Consume(tokens, sel, now);
      }
      if EmailInUse(users, data.email) {
        return EmailTaken;
      }
      users := users + [User(data.email, data.name, passwordHash)];
      outcome := Registered;
    }
  }
}

/** The registration page (pages/register.tsx). */
module RegisterPage {
  import opened Seqs
  import opened JsonValues
  import opened Registration

  /** A value of the parsed query string: one string or several. */
  datatype QueryValue = QString(s: string) | QArray(items: seq<string>)

  type Query = map<string, QueryValue>

  /** The result of `getValidatedToken`: `false`, `undefined` or the token. */
  datatype TokenCheck = NoToken | Rejected | Valid(token: string)

  /** `getValidatedToken`: the query's token, if it names an unused row (the first row holding it). */
  function GetValidatedToken(query: Query, tokens: seq<InviteToken>): TokenCheck {
    if "token" !in query || !query["token"].QString? || query["token"].s == "" then NoToken
    else
      var token := query["token"].s;
      match FindBy(tokens, (t: InviteToken) => t.token, token)
      case None => Rejected
      case Some(row) => if row.used then Rejected else Valid(token)
  }

  lemma GetValidatedTokenRules(query: Query, tokens: seq<InviteToken>)
    ensures var r := GetValidatedToken(query, tokens);
      && (r == NoToken <==> "token" !in query || !query["token"].QString? || query["token"].s == "")
      && (r.Valid? ==>
            && r.token == query["token"].s && r.token != ""
            && exists i :: 0 <= i < |tokens| && tokens[i].token == r.token && !tokens[i].used)
      && (r != NoToken && (forall i :: 0 <= i < |tokens| ==> tokens[i].token != query["token"].s) ==> r == Rejected)
      && (r != NoToken && (forall i :: 0 <= i < |tokens| && tokens[i].token == query["token"].s ==> tokens[i].used) ==>
            r == Rejected)
      && ((&& r != NoToken
           && (forall i :: 0 <= i < |tokens| && tokens[i].token == query["token"].s ==> !tokens[i].used)
           && (exists i :: 0 <= i < |tokens| && tokens[i].token == query["token"].s)) ==>
            r == Valid(query["token"].s))
  {
  }

  datatype PageResult = Props(inviteToken: Option<string>) | Redirect(destination: string, permanent: bool)

  /** `getServerSideProps`: open registration for the first user, else a valid invite token or a redirect home. */
  function GetServerSideProps(userCount: nat, query: Query, tokens: seq<InviteToken>): PageResult {
    if userCount == 0 then Props(None)
    else match GetValidatedToken(query, tokens)
      case Valid(token) => Props(Some(token))
      case _ => Redirect("/", false)
  }

  lemma ServerSidePropsRules(userCount: nat, query: Query, query': Query, tokens: seq<InviteToken>)
    ensures userCount == 0 ==>
      GetServerSideProps(userCount, query, tokens) == Props(None) == GetServerSideProps(userCount, query', tokens)
    ensures userCount > 0 && !GetValidatedToken(query, tokens).Valid? ==>
      GetServerSideProps(userCount, query, tokens) == Redirect("/", false)
    ensures userCount > 0 && GetValidatedToken(query, tokens).Valid? ==>
      GetServerSideProps(userCount, query, tokens) == Props(Some(query["token"].s))
  {
  }

  /** The request body of `submitHandler`: the form fields, and the invite token only when it is non-empty. */
  function SubmitBody(firstName: string, lastName: string, email: string, password: string,
                      inviteToken: Option<string>): Json
  {
    var formValue := map["firstName" := JString(firstName), "lastName" := JString(lastName),
                         "email" := JString(email), "password" := JString(password)];
    JObject(if inviteToken.Some? && inviteToken.value != "" then formValue["inviteToken" := JString(inviteToken.value)]
            else formValue)
  }

  /**
   * The body carries `inviteToken` exactly when the page holds a non-empty
   * one. It has no `name` field, which the handler's validator requires, so
   * the handler answers it with 400.
   */
  lemma SubmitBodyRules(firstName: string, lastName: string, email: string, password: string,
                        inviteToken: Option<string>, users: seq<User>)
    ensures var body := SubmitBody(firstName, lastName, email, password, inviteToken);
      && body.JObject?
      && ("inviteToken" in body.fields <==> inviteToken.Some? && inviteToken.value != "")
      && ("inviteToken" in body.fields ==> body.fields["inviteToken"] == JString(inviteToken.value))
      && body.fields["email"] == JString(email) && body.fields["password"] == JString(password)
      && Parse(Some(body)).None?
      && RegisterHandler(users, Some(body)) == HandlerResult(400, [])
  {
  }

  /** The `error` and `success` flags of the page. */
  class RegisterForm {
    var error: bool
    var success: bool

    constructor ()
      ensures !error && !success
    {
      error := false;
      success := false;
    }

    /** The response handling of `submitHandler`; returns whether the delayed sign-in is scheduled. */
    method HandleResponse(ok: bool) returns (signInScheduled: bool)
      modifies this
      ensures error == !ok && signInScheduled == ok
      ensures success == (ok || old(success))
    {
      if !ok {
        error := true;
        signInScheduled := false;
      } else {
        error := false;
        success := true;
        signInScheduled := true;
      }
    }
  }
}
