/**
 * POST /api/users: registration. The body is checked in stages (missing
 * field, wrong type, surrounding white space, length); the first failing
 * stage decides the reply and nothing is written. Then the username is
 * looked up, the password hashed and the user created.
 */
module Users {
  import opened Wrappers
  import opened Json
  import opened Text
  import opened ObjectIds
  import opened Records
  import opened Store
  import opened Http

  /** `Array.prototype.find`: the first element that satisfies `p`. */
  function Find<T>(xs: seq<T>, p: T -> bool): (r: Option<T>)
    ensures r.None? <==> forall i :: 0 <= i < |xs| ==> !p(xs[i])
    ensures r.Some? ==> exists i :: 0 <= i < |xs| && xs[i] == r.value && p(xs[i]) && forall j :: 0 <= j < i ==> !p(xs[j])
  {
    if xs == [] then None
    else if p(xs[0]) then Some(xs[0])
    else
      var r := Find(xs[1..], p);
      assert r.Some? ==> exists i :: 1 <= i < |xs| && xs[i] == r.value && p(xs[i]) && forall j :: 0 <= j < i ==> !p(xs[j]) by {
        if r.Some? {
          var i :| 0 <= i < |xs[1..]| && xs[1..][i] == r.value && p(xs[1..][i]) && forall j :: 0 <= j < i ==> !p(xs[1..][j]);
          assert forall j :: 1 <= j < i + 1 ==> xs[j] == xs[1..][j - 1];
        }
      }
      r
  }

  const RequiredFields: seq<string> := ["username", "password"]
  const StringFields: seq<string> := ["username", "password", "fullname"]
  const TrimmedFields: seq<string> := ["username", "password"]

  /** An entry of `sizedFields`: a field and its optional bounds. */
  datatype SizeRule = SizeRule(field: string, min: Option<nat>, max: Option<nat>)

  const SizedFields: seq<SizeRule> := [SizeRule("username", Some(1), None), SizeRule("password", Some(8), Some(72))]

  const IncorrectType := "Incorrect field type: expected string"
  const Whitespace := "Cannot start or end with whitespace"

  function MissingMessage(field: string): string
  {
    "Missing '" + field + "' in request body"
  }

  function AtLeast(n: nat): string
  {
    "Must be at least " + NatToString(n) + " characters long"
  }

  function AtMost(n: nat): string
  {
    "Must be at most " + NatToString(n) + " characters long"
  }

  /** The string in a field, once the type stage has passed. */
  function TextOf(body: Body, field: string): string
  {
    if field in body && body[field].Str? then body[field].s else ""
  }

  predicate HasSpaceAtEdge(s: string)
  {
    s != [] && (IsJsSpace(s[0]) || IsJsSpace(s[|s| - 1]))
  }

  // The body after each stage, stated directly rather than through `find`.

  predicate HasRequired(body: Body)
  {
    "username" in body && "password" in body
  }

  predicate HasStrings(body: Body)
  {
    HasRequired(body) && body["username"].Str? && body["password"].Str?
    && ("fullname" in body ==> body["fullname"].Str?)
  }

  predicate IsTrimmed(body: Body)
  {
    HasStrings(body) && !HasSpaceAtEdge(body["username"].s) && !HasSpaceAtEdge(body["password"].s)
  }

  /** A body every stage accepts: a non-empty username and a password of 8 to 72 characters. */
  predicate Acceptable(body: Body)
  {
    IsTrimmed(body) && 1 <= |body["username"].s| && 8 <= |body["password"].s| <= 72
  }

  /** `find` over a two-element list. */
  lemma FindOfTwo<T>(a: T, b: T, p: T -> bool)
    ensures Find([a, b], p) == if p(a) then Some(a) else if p(b) then Some(b) else None
  {
    assert [a, b][1..] == [b];
    assert [b][1..] == [];
  }

  /** `find` over a three-element list. */
  lemma FindOfThree<T>(a: T, b: T, c: T, p: T -> bool)
    ensures Find([a, b, c], p) == if p(a) then Some(a) else if p(b) then Some(b) else if p(c) then Some(c) else None
  {
    assert [a, b, c][1..] == [b, c];
    FindOfTwo(b, c, p);
  }

  /** Stage 1: the first of `username`, `password` that is not a key of the body. */
  function MissingField(body: Body): (r: Option<string>)
    ensures r == if "username" !in body then Some("username") else if "password" !in body then Some("password") else None
  {
    FindOfTwo("username", "password", (f: string) => f !in body);
    Find(RequiredFields, (f: string) => f !in body)
  }

  /** Stage 2: the first of `username`, `password`, `fullname` present with a non-string value. */
  function NonStringField(body: Body): (r: Option<string>)
    ensures r == if "username" in body && !body["username"].Str? then Some("username")
                 else if "password" in body && !body["password"].Str? then Some("password")
                 else if "fullname" in body && !body["fullname"].Str? then Some("fullname")
                 else None
  {
    FindOfThree("username", "password", "fullname", (f: string) => f in body && !body[f].Str?);
    Find(StringFields, (f: string) => f in body && !body[f].Str?)
  }

  /** `s.trim() !== s` holds exactly when `s` starts or ends with white space. */
  lemma UntrimmedIff(s: string)
    ensures (Trim(s) != s) == HasSpaceAtEdge(s)
    ensures !HasSpaceAtEdge(s) ==> |Trim(s)| == |s|
  {
    TrimUnchangedIff(s);
  }

  /** Stage 3: the first of `username`, `password` that differs from its trimmed form. */
  function NonTrimmedField(body: Body): (r: Option<string>)
    ensures HasStrings(body) ==>
      r == if HasSpaceAtEdge(body["username"].s) then Some("username")
           else if HasSpaceAtEdge(body["password"].s) then Some("password")
           else None
  {
    var p := (f: string) => Trim(TextOf(body, f)) != TextOf(body, f);
    FindOfTwo("username", "password", p);
    UntrimmedIff(TextOf(body, "username"));
    UntrimmedIff(TextOf(body, "password"));
    Find(TrimmedFields, p)
  }

  /** Trimming leaves the fields of a body that passed the white-space stage as they are. */
  lemma TrimmedFieldsUnchanged(body: Body)
    requires IsTrimmed(body)
    ensures Trim(TextOf(body, "username")) == body["username"].s
    ensures Trim(TextOf(body, "password")) == body["password"].s
  {
    UntrimmedIff(body["username"].s);
    UntrimmedIff(body["password"].s);
  }

  /** Stage 4a: the first sized field whose trimmed length is below its minimum. */
  function TooSmallField(body: Body): (r: Option<SizeRule>)
    ensures IsTrimmed(body) ==>
      r == if |body["username"].s| < 1 then Some(SizedFields[0])
           else if |body["password"].s| < 8 then Some(SizedFields[1])
           else None
  {
    var p := (s: SizeRule) => s.min.Some? && |Trim(TextOf(body, s.field))| < s.min.value;
    FindOfTwo(SizedFields[0], SizedFields[1], p);
    if IsTrimmed(body) then
      TrimmedFieldsUnchanged(body);
      Find(SizedFields, p)
    else
      Find(SizedFields, p)
  }

  /** Stage 4b: the first sized field whose trimmed length is above its maximum. */
  function TooLargeField(body: Body): (r: Option<SizeRule>)
    ensures IsTrimmed(body) ==>
      r == if |body["password"].s| > 72 then Some(SizedFields[1]) else None
  {
    var p := (s: SizeRule) => s.max.Some? && |Trim(TextOf(body, s.field))| > s.max.value;
    FindOfTwo(SizedFields[0], SizedFields[1], p);
    if IsTrimmed(body) then
      TrimmedFieldsUnchanged(body);
      Find(SizedFields, p)
    else
      Find(SizedFields, p)
  }

  /**
   * The validation stages in the order the handler runs them; `None` when all
   * pass, which happens exactly for an acceptable body. When a field is both
   * too short and too long the too-short message wins.
   */
  function ValidateRegistration(body: Body): (r: Option<Reply>)
  {
    var missing := MissingField(body);
    if missing.Some? then
      Some(Next(Error(Some(422), None, MissingMessage(missing.value), None)))
    else
      var nonString := NonStringField(body);
      if nonString.Some? then
        Some(Invalid(IncorrectType, nonString.value))
      else
        var nonTrimmed := NonTrimmedField(body);
        if nonTrimmed.Some? then
          Some(Invalid(Whitespace, nonTrimmed.value))
        else
          var tooSmall := TooSmallField(body);
          var tooLarge := TooLargeField(body);
          if tooSmall.Some? || tooLarge.Some? then
            Some(Invalid(
              if tooSmall.Some? then AtLeast(tooSmall.value.min.value) else AtMost(tooLarge.value.max.value),
              if tooSmall.Some? then tooSmall.value.field else tooLarge.value.field))
          else
            None
  }

  /**
   * Every rejection is a 422: a missing field is passed on to `next`, and
   * once both fields are present a rejection is answered directly.
   */
  lemma {:induction false} RejectionsAre422(body: Body)
    ensures ValidateRegistration(body).Some? && !HasRequired(body)
      ==> ValidateRegistration(body).value.Next? && ValidateRegistration(body).value.err.status == Some(422)
    ensures ValidateRegistration(body).Some? && HasRequired(body)
      ==> (var reply := ValidateRegistration(body).value;
           reply.Json? && reply.status == 422 && reply.location.None? && reply.payload.ValidationJson?)
  {
    if !HasRequired(body) {
      MissingFieldStage(body);
    } else if !HasStrings(body) {
      TypeStage(body);
    } else if !IsTrimmed(body) {
      WhitespaceStage(body);
    }
  }

  /** Every stage passes exactly for an acceptable body; boundary lengths 8 and 72 are accepted. */
  lemma {:induction false} AcceptsExactlyAcceptable(body: Body)
    ensures ValidateRegistration(body).None? <==> Acceptable(body)
  {
    if HasStrings(body) {
      assert MissingField(body).None? && NonStringField(body).None?;
      if IsTrimmed(body) {
        assert NonTrimmedField(body).None?;
        var u, p := |body["username"].s|, |body["password"].s|;
        assert TooSmallField(body).None? <==> u >= 1 && p >= 8;
        assert TooLargeField(body).None? <==> p <= 72;
      } else {
        assert NonTrimmedField(body).Some?;
      }
    } else if HasRequired(body) {
      assert NonStringField(body).Some?;
    } else {
      assert MissingField(body).Some?;
    }
  }

  /** A missing field is reported first, `username` before `password`. */
  lemma MissingFieldStage(body: Body)
    requires !HasRequired(body)
    ensures ValidateRegistration(body)
      == Some(Next(Error(Some(422), None, MissingMessage(if "username" !in body then "username" else "password"), None)))
  {
  }

  /** Then a non-string field, in the order username, password, fullname. */
  lemma TypeStage(body: Body)
    requires HasRequired(body) && !HasStrings(body)
    ensures ValidateRegistration(body) == Some(Invalid(IncorrectType,
      if !body["username"].Str? then "username" else if !body["password"].Str? then "password" else "fullname"))
  {
  }

  /** Then leading or trailing white space, username before password. */
  lemma WhitespaceStage(body: Body)
    requires HasStrings(body) && !IsTrimmed(body)
    ensures ValidateRegistration(body) == Some(Invalid(Whitespace,
      if HasSpaceAtEdge(body["username"].s) then "username" else "password"))
  {
  }

  /** Then the length bounds: an empty username, a password under 8, a password over 72. */
  lemma SizeStage(body: Body)
    requires IsTrimmed(body) && !Acceptable(body)
    ensures |body["username"].s| < 1 ==> ValidateRegistration(body) == Some(Invalid(AtLeast(1), "username"))
    ensures |body["username"].s| >= 1 && |body["password"].s| < 8 ==> ValidateRegistration(body) == Some(Invalid(AtLeast(8), "password"))
    ensures |body["username"].s| >= 1 && |body["password"].s| > 72 ==> ValidateRegistration(body) == Some(Invalid(AtMost(72), "password"))
  {
    assert MissingField(body).None? && NonStringField(body).None? && NonTrimmedField(body).None?;
    var small, large := TooSmallField(body), TooLargeField(body);
    if |body["username"].s| < 1 {
      assert small == Some(SizedFields[0]);
    } else if |body["password"].s| < 8 {
      assert small == Some(SizedFields[1]);
    } else {
      assert small.None? && large == Some(SizedFields[1]);
    }
  }

  /** `fullname` as stored: absent when the body has none. */
  function FullnameOf(body: Body): Option<string>
  {
    if "fullname" in body && body["fullname"].Str? then Some(body["fullname"].s) else None
  }

  /** The rejection passed on when the username is in use: a plain object with code 422 and no status. */
  const UsernameTakenError := Error(None, Some(422), "Username already taken", Some("username"))

  /**
   * POST /api/users. `hash` stands for `User.hashPassword` and `newId` for the
   * id the store assigns. The stored password is the digest, and the reply
   * shows the id, username and full name only.
   */
  method Register(store: Store, body: Body, originalUrl: string, hash: string -> string, newId: Oid)
    returns (reply: Reply)
    requires store.Valid()
    modifies store
    ensures store.Valid()
    ensures store.notes == old(store.notes) && store.folders == old(store.folders) && store.tags == old(store.tags)
    ensures ValidateRegistration(body).Some?
      ==> reply == ValidateRegistration(body).value && store.users == old(store.users)
    ensures ValidateRegistration(body).None? && UsernameTaken(old(store.users), TextOf(body, "username"))
      ==> reply == Next(UsernameTakenError) && store.users == old(store.users)
    ensures ValidateRegistration(body).None? && !UsernameTaken(old(store.users), TextOf(body, "username"))
      && newId in old(store.users)
      ==> reply == Next(BadRequest("Username already exists")) && store.users == old(store.users)
    ensures ValidateRegistration(body).None? && !UsernameTaken(old(store.users), TextOf(body, "username"))
      && newId !in old(store.users)
      ==> (store.users == old(store.users)[newId := User(TextOf(body, "username"), hash(TextOf(body, "password")), FullnameOf(body))]
        && reply == Json(201, Some(originalUrl + "/" + newId), UserJson(newId, TextOf(body, "username"), FullnameOf(body))))
  {
    AcceptsExactlyAcceptable(body);
    var invalid := ValidateRegistration(body);
    if invalid.Some? {
      return invalid.value;
    }
    reply := CreateAccount(store, TextOf(body, "username"), TextOf(body, "password"), FullnameOf(body), originalUrl, hash, newId);
  }

  /** The part of POST /api/users after validation: the username check, the insert and the reply. */
  method CreateAccount(store: Store, username: string, password: string, fullname: Option<string>,
                       originalUrl: string, hash: string -> string, newId: Oid)
    returns (reply: Reply)
    requires store.Valid()
    modifies store
    ensures store.Valid()
    ensures store.notes == old(store.notes) && store.folders == old(store.folders) && store.tags == old(store.tags)
    ensures UsernameTaken(old(store.users), username)
      ==> reply == Next(UsernameTakenError) && store.users == old(store.users)
    ensures !UsernameTaken(old(store.users), username) && newId in old(store.users)
      ==> reply == Next(BadRequest("Username already exists")) && store.users == old(store.users)
    ensures !UsernameTaken(old(store.users), username) && newId !in old(store.users)
      ==> (store.users == old(store.users)[newId := User(username, hash(password), fullname)]
        && reply == Json(201, Some(originalUrl + "/" + newId), UserJson(newId, username, fullname)))
  {
    var count := store.CountUsername(username);
    if count > 0 {
      return Next(UsernameTakenError);
    }
    var digest := hash(password);
    var err := store.CreateUser(newId, User(username, digest, fullname));
    if err.Some? {
      return Next(TranslateDuplicate(err.value, "Username already exists"));
    }
    reply := Json(201, Some(originalUrl + "/" + newId), UserJson(newId, username, fullname));
  }
}
