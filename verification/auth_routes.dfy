/**
 * The account lifecycle routes: `/register`, `/standard_login`,
 * `/token_login`, `/logout`, `/role` and `/admin_reg`.  Password hashing is
 * foreign: `/register` and `/admin_reg` receive the hash bcrypt produced,
 * `/standard_login` receives bcrypt's comparison as the function `matches`.
 */
module AuthRoutes {
  import opened Http
  import opened Store
  import opened Auth
  import opened TokenIssuer

  // The form-validation messages, in the order the validators are declared.
  const EmailInvalid := "Nem valós email cím"
  const NameMissing := "Töltsd ki a nevet!"
  const PasswordShort := "A jelszónak legalább 6 karakternek kell lennie!"
  const RoleInvalid := "Nem megfelelő felhasználói szerep"
  const PasswordMissing := "A jelszó megadása kötelező!"

  const UserNotFound := "A felhasználó nem található"
  const BadCredentials := "Hibás belépési adatok"
  const LoginFailed := "Hiba a bejelentkezés során"
  const LogoutFailed := "Hiba a kijelentkezés során"

  const MinPasswordLength: nat := 6
  const AdminRoleId: nat := 1

  /** An e-mail address shape: one `@` with a non-empty local part before it
      and, after it, a domain holding a dot neither first nor last. */
  predicate IsEmail(s: string)
  {
    exists i :: 0 < i < |s| && s[i] == '@' && '@' !in s[..i] && IsDomain(s[i + 1..])
  }

  predicate IsDomain(d: string)
  {
    '@' !in d && exists j :: 0 < j < |d| - 1 && d[j] == '.'
  }

  datatype RegisterForm = RegisterForm(email: string, name: string, password: string, role: string)

  /** `validationResult` of `/register`: one message per failed rule. */
  function RegisterErrors(f: RegisterForm): (errs: seq<string>)
    ensures errs == [] <==>
      IsEmail(f.email) && f.name != "" && |f.password| >= MinPasswordLength && f.role in {"person", "institution"}
    ensures EmailInvalid in errs <==> !IsEmail(f.email)
    ensures NameMissing in errs <==> f.name == ""
    ensures PasswordShort in errs <==> |f.password| < MinPasswordLength
    ensures RoleInvalid in errs <==> f.role !in {"person", "institution"}
  {
    (if IsEmail(f.email) then [] else [EmailInvalid])
    + (if f.name != "" then [] else [NameMissing])
    + (if |f.password| >= MinPasswordLength then [] else [PasswordShort])
    + (if f.role in {"person", "institution"} then [] else [RoleInvalid])
  }

  /** `validationResult` of `/admin_reg`, which has no role selector. */
  function AdminFormErrors(email: string, name: string, password: string): (errs: seq<string>)
    ensures errs == [] <==> IsEmail(email) && name != "" && |password| >= MinPasswordLength
    ensures errs == [] <==> RegisterErrors(RegisterForm(email, name, password, "person")) == []
  {
    (if IsEmail(email) then [] else [EmailInvalid])
    + (if name != "" then [] else [NameMissing])
    + (if |password| >= MinPasswordLength then [] else [PasswordShort])
  }

  /** `validationResult` of `/standard_login`. */
  function LoginErrors(email: string, password: string): (errs: seq<string>)
    ensures errs == [] <==> IsEmail(email) && password != ""
  {
    (if IsEmail(email) then [] else [EmailInvalid])
    + (if password != "" then [] else [PasswordMissing])
  }

  /** The `role_id` a registration stores. */
  function RoleIdFor(role: string): (id: nat)
    ensures role == "person" ==> RoleOfId(id) == Some(Person)
    ensures role != "person" ==> RoleOfId(id) == Some(Institution)
  {
    if role == "person" then RoleId(Person) else RoleId(Institution)
  }

  function NewPersonRow(id: PersonId): PersonRow
  {
    PersonRow(id, DefaultAvatar, true, true)
  }

  function NewInstitutionRow(id: InstitutionId): InstitutionRow
  {
    InstitutionRow(id, DefaultAvatar, DefaultBanner, "", true, false)
  }

  /** A freshly registered person passes both profile gates at once; a
      freshly registered institution is enabled but refused by the accepted
      gate until an admin accepts it. */
  lemma FreshProfileGates(acc: Accounts, u: UserId, id: nat, ctx: Ctx)
    requires u in acc.users && ctx.userId == Some(u)
    ensures IsEnabled(acc.(persons := acc.persons[u := NewPersonRow(id)]), Person, ctx) == Continue(ctx)
    ensures IsAccepted(acc.(persons := acc.persons[u := NewPersonRow(id)]), Person, ctx) == Continue(ctx)
    ensures IsEnabled(acc.(institutions := acc.institutions[u := NewInstitutionRow(id)]), Institution, ctx) == Continue(ctx)
    ensures IsAccepted(acc.(institutions := acc.institutions[u := NewInstitutionRow(id)]), Institution, ctx) ==
            Halt(405, NotAccepted)
  {
  }

  /** The inserts of the registration transaction: the user row under the
      next id and, for a person or institution, its profile row under the
      next profile id, with the defaults a new profile starts from. */
  method InsertAccount(db: Db, user: User)
    requires db.Valid() && !EmailInUse(db.users, user.email)
    modifies db`users, db`nextUserId, db`persons, db`nextPersonId, db`institutions, db`nextInstitutionId
    ensures db.Valid()
    ensures old(db.nextUserId) !in old(db.users)
    ensures db.users == old(db.users)[old(db.nextUserId) := user]
    ensures user.roleId == RoleId(Person) ==>
      db.persons == old(db.persons)[old(db.nextUserId) := NewPersonRow(old(db.nextPersonId))]
    ensures user.roleId != RoleId(Person) ==> db.persons == old(db.persons)
    ensures user.roleId == RoleId(Institution) ==>
      db.institutions == old(db.institutions)[old(db.nextUserId) := NewInstitutionRow(old(db.nextInstitutionId))]
    ensures user.roleId != RoleId(Institution) ==> db.institutions == old(db.institutions)
  {
    var u := db.nextUserId;
    AddUserKeepsTokensOwned(db.tokens, db.users, u, user);
    if user.roleId == RoleId(Person) {
      var row := NewPersonRow(db.nextPersonId);
      AddPersonKeepsConsistent(db.users, u, db.persons, db.nextPersonId, db.institutions, db.nextInstitutionId,
                               user, row);
      db.users, db.nextUserId := db.users[u := user], u + 1;
      db.persons, db.nextPersonId := db.persons[u := row], db.nextPersonId + 1;
    } else if user.roleId == RoleId(Institution) {
      var row := NewInstitutionRow(db.nextInstitutionId);
      AddInstitutionKeepsConsistent(db.users, u, db.persons, db.nextPersonId, db.institutions, db.nextInstitutionId,
                                    user, row);
      db.users, db.nextUserId := db.users[u := user], u + 1;
      db.institutions, db.nextInstitutionId := db.institutions[u := row], db.nextInstitutionId + 1;
    } else {
      AddUserKeepsConsistent(db.users, u, db.persons, db.nextPersonId, db.institutions, db.nextInstitutionId, user);
      db.users, db.nextUserId := db.users[u := user], u + 1;
    }
  }

  /** `/register`: validation, then the e-mail must be unused, then the user
      row and its profile row are written in one transaction.  `fault` is a
      database error after the user row was written, which rolls both back. */
  method Register(db: Db, form: RegisterForm, hashed: string, fault: bool) returns (r: Reply<()>)
    requires db.Valid()
    modifies db`users, db`nextUserId, db`persons, db`nextPersonId, db`institutions, db`nextInstitutionId
    ensures db.Valid()
    ensures RegisterErrors(form) != [] ==> r == Fail(500, BadForm, RegisterErrors(form))
    ensures RegisterErrors(form) == [] && EmailInUse(old(db.users), form.email) ==> r == Error(500, EmailTaken)
    ensures r.Ok? <==> RegisterErrors(form) == [] && !EmailInUse(old(db.users), form.email) && !fault
    ensures r.Fail? ==> r.status == 500 && unchanged(db)
    ensures r.Ok? ==> r.status == 201 && old(db.nextUserId) !in old(db.users)
    ensures r.Ok? ==> db.users == old(db.users)[old(db.nextUserId) := User(form.email, hashed, form.name, RoleIdFor(form.role))]
    ensures r.Ok? && form.role == "person" ==>
      db.persons == old(db.persons)[old(db.nextUserId) := NewPersonRow(old(db.nextPersonId))]
      && db.institutions == old(db.institutions)
    ensures r.Ok? && form.role == "institution" ==>
      db.institutions == old(db.institutions)[old(db.nextUserId) := NewInstitutionRow(old(db.nextInstitutionId))]
      && db.persons == old(db.persons)
  {
    var errs := RegisterErrors(form);
    if errs != [] {
      return Fail(500, BadForm, errs);
    }
    if exists u :: u in db.users && db.users[u].email == form.email {
      return Error(500, EmailTaken);
    }
    if fault {
      return Error(500, DatabaseError);
    }
    InsertAccount(db, User(form.email, hashed, form.name, RoleIdFor(form.role)));
    r := Ok(201, ());
  }

  /** `/standard_login`: validation, then 404 for an unknown e-mail, 401 when
      the password does not match, otherwise a new token for that user; the
      user's earlier tokens stay as they were.  A validation failure is thrown
      and reaches the `catch`, which answers with its own fixed message and
      the validation messages, not with the thrown text. */
  method StandardLogin(db: Db, email: string, password: string,
                       matches: (string, string) -> bool, draw: nat -> Token) returns (r: Reply<Token>)
    requires db.Valid()
    modifies db`tokens
    ensures db.Valid()
    ensures LoginErrors(email, password) != [] ==> r == Fail(500, LoginFailed, LoginErrors(email, password))
    ensures LoginErrors(email, password) == [] && !EmailInUse(db.users, email) ==> r == Error(404, UserNotFound)
    ensures LoginErrors(email, password) == [] ==>
      forall u :: u in db.users && db.users[u].email == email && !matches(password, db.users[u].passwordHash) ==>
        r == Error(401, BadCredentials)
    ensures r.Ok? <==>
      && LoginErrors(email, password) == []
      && (exists u :: u in db.users && db.users[u].email == email && matches(password, db.users[u].passwordHash))
      && FirstFresh(old(db.tokens), draw, 0).Some?
    ensures r.Ok? ==>
      && r.status == 201 && r.value !in old(db.tokens)
      && exists u :: u in db.users && db.users[u].email == email && db.tokens == old(db.tokens)[r.value := TokenRow(u, true)]
    ensures r.Fail? ==> db.tokens == old(db.tokens)
  {
    var errs := LoginErrors(email, password);
    if errs != [] {
      return Fail(500, LoginFailed, errs);
    }
    if !exists u :: u in db.users && db.users[u].email == email {
      return Error(404, UserNotFound);
    }
    var u :| u in db.users && db.users[u].email == email;
    if !matches(password, db.users[u].passwordHash) {
      return Error(401, BadCredentials);
    }
    var t := GenerateTokenForUser(db, u, draw);
    if t.None? {
      return Error(500, LoginFailed);
    }
    r := Ok(201, t.value);
  }

  /** `UPDATE tokens SET is_valid = '0' WHERE token = ?`: that row is marked
      invalid and keeps its owner; every other row is untouched. */
  function Invalidate(tokens: map<Token, TokenRow>, t: Token): (r: map<Token, TokenRow>)
    ensures r.Keys == tokens.Keys
    ensures t in tokens ==> r[t] == TokenRow(tokens[t].userId, false)
    ensures forall o :: o in tokens && o != t ==> r[o] == tokens[o]
  {
    if t in tokens then tokens[t := tokens[t].(isValid := false)] else tokens
  }

  /** After a logout the presented token is refused with 401; every other
      token that was valid still passes. */
  lemma {:induction false} LogoutRevokesOnlyThatToken(acc: Accounts, t: Token, other: Token)
    requires IsValidToken(acc.tokens, t) && t != ""
    requires other != t && other != "" && IsValidToken(acc.tokens, other)
    ensures ValidToken(acc.(tokens := Invalidate(acc.tokens, t)), Incoming(Some(t))) == Halt(401, InvalidToken)
    ensures ValidToken(acc.(tokens := Invalidate(acc.tokens, t)), Incoming(Some(other))) ==
            ValidToken(acc, Incoming(Some(other)))
  {
    var after := acc.(tokens := Invalidate(acc.tokens, t));
    assert !IsValidToken(after.tokens, t);
    assert after.tokens[other] == acc.tokens[other];
  }

  /** After a rotation the old token is refused and the new one passes as
      the same user. */
  lemma {:induction false} RotationSwapsTokens(acc: Accounts, t: Token, issued: Token)
    requires IsValidToken(acc.tokens, t) && t != ""
    requires issued !in acc.tokens && issued != ""
    ensures var after := acc.(tokens := Invalidate(acc.tokens, t)[issued := TokenRow(acc.tokens[t].userId, true)]);
      && ValidToken(after, Incoming(Some(t))) == Halt(401, InvalidToken)
      && ValidToken(after, Incoming(Some(issued))).Continue?
      && ValidToken(after, Incoming(Some(issued))).ctx.userId == Some(acc.tokens[t].userId)
  {
    var after := acc.(tokens := Invalidate(acc.tokens, t)[issued := TokenRow(acc.tokens[t].userId, true)]);
    assert issued != t;
    assert after.tokens[t] == TokenRow(acc.tokens[t].userId, false);
  }

  /** Invalidating a token keeps every row's owner. */
  lemma {:induction false} InvalidateKeepsOwners(tokens: map<Token, TokenRow>, users: map<UserId, User>, t: Token)
    requires TokensOwned(tokens, users)
    ensures TokensOwned(Invalidate(tokens, t), users)
  {
    forall o | o in Invalidate(tokens, t)
      ensures Invalidate(tokens, t)[o].userId in users
    {
      assert Invalidate(tokens, t)[o].userId == tokens[o].userId;
    }
  }

  /** The two statements of a rotation: `t` is invalidated, then a new
      token is issued to its owner. */
  method Rotate(db: Db, t: Token, draw: nat -> Token) returns (issued: Option<Token>)
    requires TokensOwned(db.tokens, db.users) && t in db.tokens
    modifies db`tokens
    ensures TokensOwned(db.tokens, db.users)
    ensures issued == FirstFresh(Invalidate(old(db.tokens), t), draw, 0)
    ensures issued.Some? ==>
      && issued.value != t && issued.value !in old(db.tokens)
      && db.tokens == Invalidate(old(db.tokens), t)[issued.value := TokenRow(old(db.tokens)[t].userId, true)]
    ensures issued.None? ==> db.tokens == Invalidate(old(db.tokens), t)
  {
    var u := db.tokens[t].userId;
    var revoked := Invalidate(db.tokens, t);
    InvalidateKeepsOwners(db.tokens, db.users, t);
    db.tokens := revoked;
    issued := GenerateTokenForUser(db, u, draw);
    if issued.Some? {
      assert issued.value !in revoked && revoked.Keys == old(db.tokens).Keys;
    }
  }

  /** `/token_login` behind `validToken`: the presented token is invalidated,
      then a new token is issued to the same user.  The two statements are
      not one transaction: when issuing fails the old token stays invalid. */
  method TokenLogin(db: Db, header: Option<string>, draw: nat -> Token) returns (r: Reply<Token>)
    requires db.Valid()
    modifies db`tokens
    ensures db.Valid()
    ensures ValidToken(old(db.Snapshot()), Incoming(header)).Halt? ==>
      r == Error(401, ValidToken(old(db.Snapshot()), Incoming(header)).message) && db.tokens == old(db.tokens)
    ensures ValidToken(old(db.Snapshot()), Incoming(header)).Continue? ==>
      var t := header.value;
      var revoked := Invalidate(old(db.tokens), t);
      && (r.Ok? <==> FirstFresh(revoked, draw, 0).Some?)
      && (r.Ok? ==> && r.status == 200 && r.value != t && r.value !in old(db.tokens)
                    && db.tokens == revoked[r.value := TokenRow(old(db.tokens)[t].userId, true)])
      && (r.Fail? ==> r == Error(500, LoginFailed) && db.tokens == revoked)
  {
    var gate := ValidToken(db.Snapshot(), Incoming(header));
    if gate.Halt? {
      return Error(gate.status, gate.message);
    }
    var issued := Rotate(db, header.value, draw);
    if issued.None? {
      return Error(500, LoginFailed);
    }
    r := Ok(200, issued.value);
  }

  /** `/logout` behind `validToken`: only the presented token is invalidated. */
  method Logout(db: Db, header: Option<string>) returns (r: Reply<()>)
    requires db.Valid()
    modifies db`tokens
    ensures db.Valid()
    ensures ValidToken(old(db.Snapshot()), Incoming(header)).Halt? ==>
      r == Error(401, ValidToken(old(db.Snapshot()), Incoming(header)).message) && db.tokens == old(db.tokens)
    ensures ValidToken(old(db.Snapshot()), Incoming(header)).Continue? ==>
      r == Ok(200, ()) && db.tokens == Invalidate(old(db.tokens), header.value)
  {
    var gate := ValidToken(db.Snapshot(), Incoming(header));
    if gate.Halt? {
      return Error(gate.status, gate.message);
    }
    db.tokens := Invalidate(db.tokens, gate.ctx.token.value);
    r := Ok(200, ());
  }

  /** `/role` behind `validToken` and `getRoleFromToken`: the resolved role.
      When no role row was found, `req.userRole.role` throws inside a
      synchronous handler; Express's default error handler then answers 500
      with an HTML page rather than the JSON envelope, which the model
      records as a 500 failure. */
  function RoleRoute(acc: Accounts, header: Option<string>, fault: bool): (r: Reply<Role>)
    ensures r.Ok? ==>
      && r.status == 200 && header.Some? && IsValidToken(acc.tokens, header.value) && !fault
      && ResolveRole(acc, header) == Some(RoleRow(r.value, RoleId(r.value)))
    ensures !HasHeader(Incoming(header)) ==> r == Error(401, NoToken)
    ensures HasHeader(Incoming(header)) && !IsValidToken(acc.tokens, header.value) ==>
      r == Error(401, InvalidToken)
    ensures HasHeader(Incoming(header)) && IsValidToken(acc.tokens, header.value) && fault ==>
      r == Error(501, RoleLookupFailed)
    ensures HasHeader(Incoming(header)) && IsValidToken(acc.tokens, header.value) && !fault ==>
      if ResolveRole(acc, header).Some? then r == Ok(200, ResolveRole(acc, header).value.role)
      else r == Error(500, UndefinedProperty)
  {
    match Run(acc, fault, [ValidTokenGate, GetRoleGate], Incoming(header))
    case Halt(s, m) => Error(s, m)
    case Continue(c) =>
      if c.userRole.None? then Error(500, UndefinedProperty) else Ok(200, c.userRole.value.role)
  }

  datatype AdminRegOutcome = Registered(token: Token) | NoResponse

  /** `/admin_reg`: validation and e-mail check, then an admin user row
      (`role_id` 1, no profile row) and a token, without a transaction.
      Every failure reaches a `catch` that calls `rollback` on an undeclared
      `connection`; that throws in turn and no response is ever sent.  A
      failed token issue leaves the new user row in place. */
  method AdminReg(db: Db, email: string, name: string, password: string, hashed: string,
                  draw: nat -> Token) returns (r: AdminRegOutcome)
    requires db.Valid()
    modifies db`users, db`nextUserId, db`persons, db`nextPersonId, db`institutions, db`nextInstitutionId, db`tokens
    ensures db.Valid()
    ensures AdminFormErrors(email, name, password) != [] || EmailInUse(old(db.users), email) ==>
      r == NoResponse && unchanged(db)
    ensures AdminFormErrors(email, name, password) == [] && !EmailInUse(old(db.users), email) ==>
      var u := old(db.nextUserId);
      && u !in old(db.users)
      && db.users == old(db.users)[u := User(email, hashed, name, AdminRoleId)]
      && db.persons == old(db.persons) && db.institutions == old(db.institutions)
      && (r.Registered? <==> FirstFresh(old(db.tokens), draw, 0).Some?)
      && (r.Registered? ==> r.token !in old(db.tokens) && db.tokens == old(db.tokens)[r.token := TokenRow(u, true)])
      && (r.NoResponse? ==> db.tokens == old(db.tokens))
  {
    if AdminFormErrors(email, name, password) != [] {
      return NoResponse;
    }
    if exists u :: u in db.users && db.users[u].email == email {
      return NoResponse;
    }
    var u := db.nextUserId;
    InsertAccount(db, User(email, hashed, name, AdminRoleId));
    assert db.tokens == old(db.tokens);
    var t := GenerateTokenForUser(db, u, draw);
    if t.None? {
      return NoResponse;
    }
    r := Registered(t.value);
  }
}
