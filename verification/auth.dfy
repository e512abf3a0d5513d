/**
 * The authentication and authorization middleware: `validToken`,
 * `getRoleFromToken`, `verifyRole(role)`, `isEnabled(role)` and
 * `isAccepted(role)`.  Each gate is a function from the store's account
 * tables and the request context to either the next context or the status
 * and message the request is answered with.  A route's middleware list is a
 * sequence of gates run left to right.  The `Request` class mirrors the two
 * middlewares that write request fields step by step.
 */
module Auth {
  import opened Http
  import opened Store

  /** A row of `SELECT role, role_id FROM tokens JOIN users JOIN roles`. */
  datatype RoleRow = RoleRow(role: Role, roleId: nat)

  /** The request fields the gates read and write: the `x-auth-token` header,
      and `req.token`, `req.user_id`, `req.userRole`. */
  datatype Ctx = Ctx(header: Option<string>, token: Option<Token>, userId: Option<UserId>, userRole: Option<RoleRow>)

  /** A request as it arrives, before any middleware ran. */
  function Incoming(header: Option<string>): Ctx
  {
    Ctx(header, None, None, None)
  }

  datatype Step = Continue(ctx: Ctx) | Halt(status: nat, message: string)

  const NoToken := "Nincs token megadva"
  const InvalidToken := "Érvénytelen token"
  const WrongRole := "Hozzáférés megtagadva. Nem megfelelő szerepkör."
  const RoleLookupFailed := "Hiba a token ellenőrzése során"
  const AccountMissing := "A fiók nem található."
  const AccountDisabled := "A fiók le van tiltva."
  const NotAccepted := "A fiókregisztráció nincs jóváhagyva."
  /** The database's message when the gates query the non-existent `admin` table. */
  const NoSuchTable := "Table 'admin' doesn't exist"

  predicate IsValidToken(tokens: map<Token, TokenRow>, t: Token)
  {
    t in tokens && tokens[t].isValid
  }

  /** A header JavaScript treats as present: given and not the empty string. */
  predicate HasHeader(ctx: Ctx)
  {
    ctx.header.Some? && ctx.header.value != ""
  }

  /** `validToken`: header present, then a stored row with that token and
      `is_valid = '1'`; the row's token and owner go into the context. */
  function ValidToken(acc: Accounts, ctx: Ctx): (r: Step)
    ensures !HasHeader(ctx) ==> r == Halt(401, NoToken)
    ensures HasHeader(ctx) && !IsValidToken(acc.tokens, ctx.header.value) ==> r == Halt(401, InvalidToken)
    ensures r.Continue? <==> HasHeader(ctx) && IsValidToken(acc.tokens, ctx.header.value)
    ensures r.Continue? ==>
      r.ctx == ctx.(token := ctx.header, userId := Some(acc.tokens[ctx.header.value].userId))
  {
    if !HasHeader(ctx) then Halt(401, NoToken)
    else if !IsValidToken(acc.tokens, ctx.header.value) then Halt(401, InvalidToken)
    else
      var t := ctx.header.value;
      Continue(ctx.(token := Some(t), userId := Some(acc.tokens[t].userId)))
  }

  /** The role row joined from the token, its user and the `roles` table.
      The query does not look at `is_valid`; an absent token joins nothing. */
  function ResolveRole(acc: Accounts, token: Option<Token>): (r: Option<RoleRow>)
    ensures r.Some? <==>
      && token.Some? && token.value in acc.tokens
      && acc.tokens[token.value].userId in acc.users
      && RoleOfId(acc.users[acc.tokens[token.value].userId].roleId).Some?
    ensures r.Some? ==>
      && RoleId(r.value.role) == r.value.roleId
      && r.value.roleId == acc.users[acc.tokens[token.value].userId].roleId
  {
    if token.None? || token.value !in acc.tokens then None
    else
      var u := acc.tokens[token.value].userId;
      if u !in acc.users then None
      else
        match RoleOfId(acc.users[u].roleId)
        case None => None
        case Some(role) => Some(RoleRow(role, acc.users[u].roleId))
  }

  /** `getRoleFromToken`: a query that throws (`fault`) answers 501; an empty
      result leaves `userRole` undefined and lets the request through. */
  function GetRoleFromToken(acc: Accounts, fault: bool, ctx: Ctx): (r: Step)
    ensures r.Halt? <==> fault
    ensures r.Halt? ==> r == Halt(501, RoleLookupFailed)
    ensures r.Continue? ==> r.ctx == ctx.(userRole := ResolveRole(acc, ctx.token))
  {
    if fault then Halt(501, RoleLookupFailed)
    else Continue(ctx.(userRole := ResolveRole(acc, ctx.token)))
  }

  /** `verifyRole(role)`: resolves the role again, then 403 unless it exists
      and equals `role`. */
  function VerifyRole(acc: Accounts, fault: bool, role: Role, ctx: Ctx): (r: Step)
    ensures r.Continue? <==>
      !fault && ResolveRole(acc, ctx.token).Some? && ResolveRole(acc, ctx.token).value.role == role
    ensures fault ==> r == Halt(501, RoleLookupFailed)
    ensures !fault && r.Halt? ==> r == Halt(403, WrongRole)
    ensures r.Continue? ==> r.ctx == ctx.(userRole := ResolveRole(acc, ctx.token))
  {
    match GetRoleFromToken(acc, fault, ctx)
    case Halt(s, m) => Halt(s, m)
    case Continue(c) =>
      if c.userRole.None? || c.userRole.value.role != role then Halt(403, WrongRole)
      else Continue(c)
  }

  datatype Flags = Flags(isEnabled: bool, isAccepted: bool)

  /** `SELECT is_enabled, is_accepted FROM <table> JOIN users WHERE user_id = ?`,
      the table being `institutions` for the institution role and the role's
      own name otherwise.  `None` is an empty result; for the admin role the
      table does not exist and the query throws, which `TableExists` tells apart. */
  function ProfileFlags(acc: Accounts, role: Role, userId: Option<UserId>): (r: Option<Flags>)
    ensures r.Some? ==> userId.Some? && userId.value in acc.users
    ensures role == Admin || userId.None? ==> r.None?
    ensures role == Person && userId.Some? && userId.value in acc.persons && userId.value in acc.users ==>
      r == Some(Flags(acc.persons[userId.value].isEnabled, acc.persons[userId.value].isAccepted))
    ensures role == Institution && userId.Some? && userId.value in acc.institutions && userId.value in acc.users ==>
      r == Some(Flags(acc.institutions[userId.value].isEnabled, acc.institutions[userId.value].isAccepted))
    ensures role == Person && userId.Some? && userId.value !in acc.persons ==> r.None?
    ensures role == Institution && userId.Some? && userId.value !in acc.institutions ==> r.None?
  {
    if userId.None? || userId.value !in acc.users then None
    else
      var u := userId.value;
      match role
      case Admin => None
      case Person =>
        if u in acc.persons then Some(Flags(acc.persons[u].isEnabled, acc.persons[u].isAccepted)) else None
      case Institution =>
        if u in acc.institutions then Some(Flags(acc.institutions[u].isEnabled, acc.institutions[u].isAccepted)) else None
  }

  predicate TableExists(role: Role)
  {
    role != Admin
  }

  /** `isEnabled(role)`: 406 when the profile row is missing or disabled. */
  function IsEnabled(acc: Accounts, role: Role, ctx: Ctx): (r: Step)
    ensures r.Continue? <==> ProfileFlags(acc, role, ctx.userId).Some? && ProfileFlags(acc, role, ctx.userId).value.isEnabled
    ensures r.Halt? ==> r.status == 406
    ensures r.Continue? ==> r.ctx == ctx
  {
    if !TableExists(role) then Halt(406, NoSuchTable)
    else match ProfileFlags(acc, role, ctx.userId)
      case None => Halt(406, AccountMissing)
      case Some(f) => if !f.isEnabled then Halt(406, AccountDisabled) else Continue(ctx)
  }

  /** `isAccepted(role)`: 405 when the profile row is missing or not accepted. */
  function IsAccepted(acc: Accounts, role: Role, ctx: Ctx): (r: Step)
    ensures r.Continue? <==> ProfileFlags(acc, role, ctx.userId).Some? && ProfileFlags(acc, role, ctx.userId).value.isAccepted
    ensures r.Halt? ==> r.status == 405
    ensures r.Continue? ==> r.ctx == ctx
  {
    if !TableExists(role) then Halt(405, NoSuchTable)
    else match ProfileFlags(acc, role, ctx.userId)
      case None => Halt(405, AccountMissing)
      case Some(f) => if !f.isAccepted then Halt(405, NotAccepted) else Continue(ctx)
  }

  /** One entry of a route's middleware list. */
  datatype Gate =
    | ValidTokenGate
    | GetRoleGate
    | VerifyRoleGate(role: Role)
    | IsEnabledGate(role: Role)
    | IsAcceptedGate(role: Role)

  function Apply(acc: Accounts, fault: bool, g: Gate, ctx: Ctx): Step
  {
    match g
    case ValidTokenGate => ValidToken(acc, ctx)
    case GetRoleGate => GetRoleFromToken(acc, fault, ctx)
    case VerifyRoleGate(r) => VerifyRole(acc, fault, r, ctx)
    case IsEnabledGate(r) => IsEnabled(acc, r, ctx)
    case IsAcceptedGate(r) => IsAccepted(acc, r, ctx)
  }

  /** Runs the middleware list left to right; the first gate that answers ends it. */
  function Run(acc: Accounts, fault: bool, gates: seq<Gate>, ctx: Ctx): Step
    decreases |gates|
  {
    if gates == [] then Continue(ctx)
    else match Apply(acc, fault, gates[0], ctx)
      case Halt(s, m) => Halt(s, m)
      case Continue(c) => Run(acc, fault, gates[1..], c)
  }

  /** The order used by nearly every person and institution route. */
  function StandardChain(role: Role): seq<Gate>
  {
    [ValidTokenGate, IsAcceptedGate(role), IsEnabledGate(role), GetRoleGate, VerifyRoleGate(role)]
  }

  /** The order of the admin routes: no enabled or accepted gate. */
  function AdminChain(): seq<Gate>
  {
    [ValidTokenGate, GetRoleGate, VerifyRoleGate(Admin)]
  }

  /** The order of `PUT /event/:id` and of `DELETE`/`PUT /public/email/:id`:
      the profile gates come before `validToken`. */
  function ReversedChain(role: Role): seq<Gate>
  {
    [IsAcceptedGate(role), IsEnabledGate(role), ValidTokenGate, GetRoleGate, VerifyRoleGate(role)]
  }

  /** Whether gate `g` lets through a request that `validToken` has already
      resolved to token `t`: what each gate decides depends on nothing else. */
  predicate Admits(acc: Accounts, fault: bool, g: Gate, t: Token)
    requires t in acc.tokens
  {
    var u := Some(acc.tokens[t].userId);
    match g
    case ValidTokenGate => true
    case GetRoleGate => !fault
    case VerifyRoleGate(r) =>
      !fault && ResolveRole(acc, Some(t)).Some? && ResolveRole(acc, Some(t)).value.role == r
    case IsEnabledGate(r) => ProfileFlags(acc, r, u).Some? && ProfileFlags(acc, r, u).value.isEnabled
    case IsAcceptedGate(r) => ProfileFlags(acc, r, u).Some? && ProfileFlags(acc, r, u).value.isAccepted
  }

  /** The context `validToken` leaves behind for the valid token `t`. */
  predicate Resolved(acc: Accounts, ctx: Ctx, t: Token)
  {
    && ctx.header == Some(t) && t != "" && IsValidToken(acc.tokens, t)
    && ctx.token == Some(t) && ctx.userId == Some(acc.tokens[t].userId)
  }

  /** Once the token is resolved, a middleware list lets the request through
      exactly when every one of its gates admits it. */
  lemma {:induction false} RunAfterValidation(acc: Accounts, fault: bool, gates: seq<Gate>, ctx: Ctx, t: Token)
    requires Resolved(acc, ctx, t)
    ensures Run(acc, fault, gates, ctx).Continue? <==> forall g :: g in gates ==> Admits(acc, fault, g, t)
    ensures Run(acc, fault, gates, ctx).Continue? ==> Resolved(acc, Run(acc, fault, gates, ctx).ctx, t)
    decreases |gates|
  {
    if gates != [] {
      var g := gates[0];
      assert forall h :: h in gates <==> h == g || h in gates[1..] by {
        assert gates == [g] + gates[1..];
      }
      match Apply(acc, fault, g, ctx)
      case Halt(_, _) =>
        assert !Admits(acc, fault, g, t);
      case Continue(c) =>
        assert Admits(acc, fault, g, t);
        assert Resolved(acc, c, t);
        RunAfterValidation(acc, fault, gates[1..], c, t);
    }
  }

  /** A route whose list starts with `validToken` lets a request through iff
      its header holds a valid token and every later gate admits it. */
  lemma ChainVerdict(acc: Accounts, fault: bool, gates: seq<Gate>, header: Option<string>)
    ensures Run(acc, fault, [ValidTokenGate] + gates, Incoming(header)).Continue? <==>
      && header.Some? && header.value != "" && IsValidToken(acc.tokens, header.value)
      && forall g :: g in gates ==> Admits(acc, fault, g, header.value)
    ensures Run(acc, fault, [ValidTokenGate] + gates, Incoming(header)).Continue? ==>
      Resolved(acc, Run(acc, fault, [ValidTokenGate] + gates, Incoming(header)).ctx, header.value)
  {
    var all := [ValidTokenGate] + gates;
    assert all[1..] == gates;
    match ValidToken(acc, Incoming(header))
    case Halt(_, _) =>
    case Continue(c) =>
      RunAfterValidation(acc, fault, gates, c, header.value);
  }

  /** Behind `validToken`, the allow/deny verdict does not depend on the order
      of the remaining gates; only which refusal is reported may. */
  lemma VerdictIgnoresOrder(acc: Accounts, fault: bool, gates1: seq<Gate>, gates2: seq<Gate>, header: Option<string>)
    requires multiset(gates1) == multiset(gates2)
    ensures Run(acc, fault, [ValidTokenGate] + gates1, Incoming(header)).Continue? <==>
            Run(acc, fault, [ValidTokenGate] + gates2, Incoming(header)).Continue?
  {
    ChainVerdict(acc, fault, gates1, header);
    ChainVerdict(acc, fault, gates2, header);
    assert forall g :: g in gates1 <==> g in gates2 by {
      forall g ensures g in gates1 <==> g in gates2 {
        assert g in gates1 <==> g in multiset(gates1);
        assert g in gates2 <==> g in multiset(gates2);
      }
    }
  }

  /** A reversed route runs `isAccepted` before `validToken` has set
      `req.user_id`, so the lookup matches no row: every request ends in 405. */
  lemma ReversedChainAlwaysRejects(acc: Accounts, fault: bool, role: Role, header: Option<string>)
    ensures Run(acc, fault, ReversedChain(role), Incoming(header)).Halt?
    ensures Run(acc, fault, ReversedChain(role), Incoming(header)).status == 405
    ensures role != Admin ==> Run(acc, fault, ReversedChain(role), Incoming(header)) == Halt(405, AccountMissing)
  {
    assert IsAccepted(acc, role, Incoming(header)).Halt?;
  }

  /** On a person route, an authenticated user without a person row (an
      institution or an admin account) is refused by `isAccepted` with 405,
      before the role gates could answer 403. */
  lemma NoPersonRowOnPersonRoute(acc: Accounts, fault: bool, header: Option<string>)
    requires header.Some? && header.value != "" && IsValidToken(acc.tokens, header.value)
    requires acc.tokens[header.value].userId !in acc.persons
    ensures Run(acc, fault, StandardChain(Person), Incoming(header)) == Halt(405, AccountMissing)
  {
    var c := ValidToken(acc, Incoming(header)).ctx;
    assert IsAccepted(acc, Person, c) == Halt(405, AccountMissing);
  }

  /** The admin routes let a request through iff its token is valid and
      belongs to an admin account, whatever the profile tables hold. */
  lemma AdminChainVerdict(acc: Accounts, fault: bool, header: Option<string>,
                          persons: map<UserId, PersonRow>, institutions: map<UserId, InstitutionRow>)
    ensures Run(acc, fault, AdminChain(), Incoming(header)).Continue? <==>
      && header.Some? && header.value != "" && IsValidToken(acc.tokens, header.value) && !fault
      && ResolveRole(acc, header).Some? && ResolveRole(acc, header).value.role == Admin
    ensures Run(acc, fault, AdminChain(), Incoming(header)) ==
            Run(acc.(persons := persons, institutions := institutions), fault, AdminChain(), Incoming(header))
  {
    var acc' := acc.(persons := persons, institutions := institutions);
    assert AdminChain() == [ValidTokenGate] + [GetRoleGate, VerifyRoleGate(Admin)];
    ChainVerdict(acc, fault, [GetRoleGate, VerifyRoleGate(Admin)], header);
    assert ValidToken(acc, Incoming(header)) == ValidToken(acc', Incoming(header));
    assert forall t :: ResolveRole(acc, t) == ResolveRole(acc', t);
  }

  datatype Verdict = Pass | Answer(status: nat, message: string)

  /** The request object: `validToken` and `getRoleFromToken` write its
      fields; the other gates only read them. */
  class Request {
    var header: Option<string>
    var token: Option<Token>
    var userId: Option<UserId>
    var userRole: Option<RoleRow>

    constructor (h: Option<string>)
      ensures Context() == Incoming(h)
    {
      header, token, userId, userRole := h, None, None, None;
    }

    function Context(): Ctx
      reads this
    {
      Ctx(header, token, userId, userRole)
    }

    /** `validToken`, writing `req.token` and `req.user_id`. */
    method CheckToken(db: Db) returns (v: Verdict)
      modifies this
      ensures match ValidToken(db.Snapshot(), old(Context()))
        case Continue(c) => v == Pass && Context() == c
        case Halt(s, m) => v == Answer(s, m) && Context() == old(Context())
    {
      if header.None? || header.value == "" {
        return Answer(401, NoToken);
      }
      var t := header.value;
      if t !in db.tokens || !db.tokens[t].isValid {
        return Answer(401, InvalidToken);
      }
      token := Some(t);
      userId := Some(db.tokens[t].userId);
      v := Pass;
    }

    /** `getRoleFromToken`, writing `req.userRole`. */
    method LoadRole(db: Db, fault: bool) returns (v: Verdict)
      modifies this
      ensures match GetRoleFromToken(db.Snapshot(), fault, old(Context()))
        case Continue(c) => v == Pass && Context() == c
        case Halt(s, m) => v == Answer(s, m) && Context() == old(Context())
    {
      if fault {
        return Answer(501, RoleLookupFailed);
      }
      userRole := ResolveRole(db.Snapshot(), token);
      v := Pass;
    }

    /** Runs a route's middleware list on this request; `Pass` means the
        handler is reached, with the request annotated as `Run` says. */
    method Handle(db: Db, fault: bool, gates: seq<Gate>) returns (v: Verdict)
      modifies this
      ensures match Run(db.Snapshot(), fault, gates, old(Context()))
        case Continue(c) => v == Pass && Context() == c
        case Halt(s, m) => v == Answer(s, m)
    {
      var i := 0;
      while i < |gates|
        invariant 0 <= i <= |gates|
        invariant Run(db.Snapshot(), fault, gates, old(Context())) == Run(db.Snapshot(), fault, gates[i..], Context())
      {
        var acc := db.Snapshot();
        ghost var before := Context();
        assert gates[i..][0] == gates[i] && gates[i..][1..] == gates[i + 1..];
        match gates[i] {
          case ValidTokenGate =>
            v := CheckToken(db);
          case GetRoleGate =>
            v := LoadRole(db, fault);
          case VerifyRoleGate(r) =>
            v := LoadRole(db, fault);
            if v == Pass && (userRole.None? || userRole.value.role != r) {
              v := Answer(403, WrongRole);
            }
          case IsEnabledGate(r) =>
            var s := IsEnabled(acc, r, Context());
            v := if s.Halt? then Answer(s.status, s.message) else Pass;
          case IsAcceptedGate(r) =>
            var s := IsAccepted(acc, r, Context());
            v := if s.Halt? then Answer(s.status, s.message) else Pass;
        }
        if v.Answer? {
          assert Apply(acc, fault, gates[i], before) == Halt(v.status, v.message);
          return;
        }
        assert Apply(acc, fault, gates[i], before) == Continue(Context());
        i := i + 1;
      }
      v := Pass;
    }
  }
}
