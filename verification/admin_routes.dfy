/**
 * The admin routes: the five flag setters behind `validToken`,
 * `getRoleFromToken` and `verifyRole("admin")`, which are the only writers
 * of `is_enabled` and `is_accepted` after registration, and the public
 * institution view.
 */
module AdminRoutes {
  import opened Http
  import opened Store
  import opened Auth
  import opened Pairs

  datatype AdminAction =
    | DisableInstitution
    | EnableInstitution
    | AcceptInstitution
    | DisablePerson
    | EnablePerson

  /** The message each setter answers with when the id check fails: only
      `disable_institution` passes the thrown message on, the others replace
      it with their own. */
  function FailureMessage(action: AdminAction): string
  {
    match action
    case DisableInstitution => BadInput
    case EnableInstitution => "Hiba az intézmény tiltásának a feloldása során"
    case AcceptInstitution => "Hiba az intézményi regisztráció jóváhagyása során"
    case DisablePerson => "Hiba a fiók tiltás során"
    case EnablePerson => "Hiba a fiók tiltásának a feloldása során"
  }

  function SuccessMessage(action: AdminAction): string
  {
    match action
    case DisableInstitution => "Az intézmény sikeresen le lett tiltva"
    case EnableInstitution => "Az intézménynek tiltása sikeresen feololdva"
    case AcceptInstitution => "Az intézményi regisztráció jóváhagyva"
    case DisablePerson => "A fiók sikeresen le lett tiltva"
    case EnablePerson => "A fiók tiltása sikeresen feloldva"
  }

  /** `UPDATE institutions SET is_enabled = v WHERE institution_id = id`. */
  function SetInstitutionEnabled(rows: map<UserId, InstitutionRow>, id: InstitutionId, v: bool)
    : (r: map<UserId, InstitutionRow>)
    ensures r.Keys == rows.Keys
    ensures forall u :: u in rows && rows[u].institutionId == id ==> r[u] == rows[u].(isEnabled := v)
    ensures forall u :: u in rows && rows[u].institutionId != id ==> r[u] == rows[u]
  {
    map u | u in rows :: if rows[u].institutionId == id then rows[u].(isEnabled := v) else rows[u]
  }

  /** `UPDATE institutions SET is_accepted = 1 WHERE institution_id = id`. */
  function AcceptInstitutionRow(rows: map<UserId, InstitutionRow>, id: InstitutionId)
    : (r: map<UserId, InstitutionRow>)
    ensures r.Keys == rows.Keys
    ensures forall u :: u in rows && rows[u].institutionId == id ==> r[u] == rows[u].(isAccepted := true)
    ensures forall u :: u in rows && rows[u].institutionId != id ==> r[u] == rows[u]
  {
    map u | u in rows :: if rows[u].institutionId == id then rows[u].(isAccepted := true) else rows[u]
  }

  /** `UPDATE person SET is_enabled = v WHERE person_id = id`. */
  function SetPersonEnabled(rows: map<UserId, PersonRow>, id: PersonId, v: bool): (r: map<UserId, PersonRow>)
    ensures r.Keys == rows.Keys
    ensures forall u :: u in rows && rows[u].personId == id ==> r[u] == rows[u].(isEnabled := v)
    ensures forall u :: u in rows && rows[u].personId != id ==> r[u] == rows[u]
  {
    map u | u in rows :: if rows[u].personId == id then rows[u].(isEnabled := v) else rows[u]
  }

  /** The profile tables after `action` on the row with id `id`. */
  function ApplyAction(acc: Accounts, action: AdminAction, id: nat): (r: Accounts)
    ensures r.tokens == acc.tokens && r.users == acc.users
    ensures action.DisablePerson? || action.EnablePerson? ==> r.institutions == acc.institutions
    ensures !(action.DisablePerson? || action.EnablePerson?) ==> r.persons == acc.persons
  {
    match action
    case DisableInstitution => acc.(institutions := SetInstitutionEnabled(acc.institutions, id, false))
    case EnableInstitution => acc.(institutions := SetInstitutionEnabled(acc.institutions, id, true))
    case AcceptInstitution => acc.(institutions := AcceptInstitutionRow(acc.institutions, id))
    case DisablePerson => acc.(persons := SetPersonEnabled(acc.persons, id, false))
    case EnablePerson => acc.(persons := SetPersonEnabled(acc.persons, id, true))
  }

  /** Every setter writes a constant, so applying it twice is applying it once. */
  lemma {:induction false} ActionIdempotent(acc: Accounts, action: AdminAction, id: nat)
    ensures ApplyAction(ApplyAction(acc, action, id), action, id) == ApplyAction(acc, action, id)
  {
    var once := ApplyAction(acc, action, id);
    var twice := ApplyAction(once, action, id);
    match action
    case DisablePerson =>
      assert twice.persons == once.persons;
    case EnablePerson =>
      assert twice.persons == once.persons;
    case _ =>
      assert twice.institutions == once.institutions;
  }

  /** The setters close the loop with the profile gates: after accepting an
      institution, `isAccepted("institution")` lets its user through; after
      enabling or disabling, `isEnabled` answers accordingly; a user whose
      profile row carries another id gets the same verdict as before. */
  lemma {:induction false} ActionDecidesGates(acc: Accounts, action: AdminAction, id: nat, ctx: Ctx)
    requires ctx.userId.Some? && ctx.userId.value in acc.users
    ensures var u := ctx.userId.value;
      var after := ApplyAction(acc, action, id);
      && (action == AcceptInstitution && u in acc.institutions && acc.institutions[u].institutionId == id ==>
            IsAccepted(after, Institution, ctx) == Continue(ctx))
      && (action == EnableInstitution && u in acc.institutions && acc.institutions[u].institutionId == id ==>
            IsEnabled(after, Institution, ctx) == Continue(ctx))
      && (action == DisableInstitution && u in acc.institutions && acc.institutions[u].institutionId == id ==>
            IsEnabled(after, Institution, ctx) == Halt(406, AccountDisabled))
      && (action == EnablePerson && u in acc.persons && acc.persons[u].personId == id ==>
            IsEnabled(after, Person, ctx) == Continue(ctx))
      && (action == DisablePerson && u in acc.persons && acc.persons[u].personId == id ==>
            IsEnabled(after, Person, ctx) == Halt(406, AccountDisabled))
      && (u in acc.institutions && acc.institutions[u].institutionId != id ==>
            IsEnabled(after, Institution, ctx) == IsEnabled(acc, Institution, ctx)
            && IsAccepted(after, Institution, ctx) == IsAccepted(acc, Institution, ctx))
      && (u in acc.persons && acc.persons[u].personId != id ==>
            IsEnabled(after, Person, ctx) == IsEnabled(acc, Person, ctx)
            && IsAccepted(after, Person, ctx) == IsAccepted(acc, Person, ctx))
  {
    var u := ctx.userId.value;
    var after := ApplyAction(acc, action, id);
    assert ProfileFlags(after, Institution, ctx.userId).Some? <==> ProfileFlags(acc, Institution, ctx.userId).Some?;
    assert ProfileFlags(after, Person, ctx.userId).Some? <==> ProfileFlags(acc, Person, ctx.userId).Some?;
  }

  /** A setter changes flags only, so the store's constraints still hold. */
  lemma {:induction false} ActionKeepsConsistent(acc: Accounts, action: AdminAction, id: nat,
                                                 nextUserId: nat, nextPersonId: nat, nextInstitutionId: nat)
    requires AccountsConsistent(acc.users, nextUserId, acc.persons, nextPersonId, acc.institutions, nextInstitutionId)
    ensures var after := ApplyAction(acc, action, id);
      AccountsConsistent(after.users, nextUserId, after.persons, nextPersonId, after.institutions, nextInstitutionId)
  {
    var after := ApplyAction(acc, action, id);
    if action.DisablePerson? || action.EnablePerson? {
      assert forall u :: u in acc.persons ==> after.persons[u].personId == acc.persons[u].personId;
    } else {
      assert forall u :: u in acc.institutions ==>
        after.institutions[u].institutionId == acc.institutions[u].institutionId;
    }
    SameIdsKeepConsistent(acc.users, nextUserId, acc.persons, after.persons, nextPersonId,
                          acc.institutions, after.institutions, nextInstitutionId);
  }

  /** The `UPDATE` statement of a setter, on the store. */
  method Update(db: Db, action: AdminAction, id: nat)
    requires db.Valid()
    modifies db`persons, db`institutions
    ensures db.Valid()
    ensures db.Snapshot() == ApplyAction(old(db.Snapshot()), action, id)
  {
    var before := db.Snapshot();
    var after := ApplyAction(before, action, id);
    ActionKeepsConsistent(before, action, id, db.nextUserId, db.nextPersonId, db.nextInstitutionId);
    db.persons, db.institutions := after.persons, after.institutions;
  }

  /** A setter route: the admin chain, then the id check, then the update;
      a success carries the route's confirmation message (its `data` is null). */
  method AdminUpdate(db: Db, header: Option<string>, fault: bool, action: AdminAction, param: string)
    returns (r: Reply<string>)
    requires db.Valid()
    modifies db`persons, db`institutions
    ensures db.Valid()
    ensures Run(old(db.Snapshot()), fault, AdminChain(), Incoming(header)).Halt? ==>
      var h := Run(old(db.Snapshot()), fault, AdminChain(), Incoming(header));
      r == Error(h.status, h.message) && unchanged(db)
    ensures Run(old(db.Snapshot()), fault, AdminChain(), Incoming(header)).Continue? && MissingOrNaN(param) ==>
      r == Error(500, FailureMessage(action)) && unchanged(db)
    ensures r.Ok? <==> Run(old(db.Snapshot()), fault, AdminChain(), Incoming(header)).Continue? && !MissingOrNaN(param)
    ensures r.Ok? ==>
      && r == Ok(200, SuccessMessage(action))
      && db.Snapshot() == ApplyAction(old(db.Snapshot()), action, ParamId(param).value)
  {
    var gate := Run(db.Snapshot(), fault, AdminChain(), Incoming(header));
    if gate.Halt? {
      return Error(gate.status, gate.message);
    }
    if MissingOrNaN(param) {
      return Error(500, FailureMessage(action));
    }
    Update(db, action, ParamId(param).value);
    r := Ok(200, SuccessMessage(action));
  }

  /** The profile part of the public institution view. */
  datatype InstitutionProfile = InstitutionProfile(
    institutionId: InstitutionId, name: string, avatar: string, banner: string,
    description: string, followers: nat)

  const InvalidParam := "hibás bemeneti adat"
  const UnknownInstitution := "Érvényteéen intézményi azonosító"

  /** `GET /institution/:institution_id`, open to everyone: an empty
      parameter and an id with no institution row are refused with 500;
      otherwise the institution's profile with its follower count.  A
      non-numeric parameter matches no row. */
  function InstitutionView(acc: Accounts, following: set<(PersonId, InstitutionId)>, param: string)
    : (r: Reply<InstitutionProfile>)
    requires UniqueInstitutionIds(acc.institutions)
    requires forall u :: u in acc.institutions ==> u in acc.users
    ensures param == "" ==> r == Error(500, InvalidParam)
    ensures param != "" && (ParamId(param).None? || !InstitutionExists(acc.institutions, ParamId(param).value)) ==>
      r == Error(500, UnknownInstitution)
    ensures r.Ok? <==> ParamId(param).Some? && InstitutionExists(acc.institutions, ParamId(param).value)
    ensures r.Ok? ==>
      && r.status == 200 && r.value.institutionId == ParamId(param).value
      && r.value.followers == |Fans(following, ParamId(param).value)|
      && exists u :: u in acc.institutions && acc.institutions[u].institutionId == r.value.institutionId
                     && r.value.name == acc.users[u].name && r.value.avatar == acc.institutions[u].avatar
                     && r.value.banner == acc.institutions[u].banner
                     && r.value.description == acc.institutions[u].description
  {
    if param == "" then Error(500, InvalidParam)
    else if ParamId(param).None? || !InstitutionExists(acc.institutions, ParamId(param).value) then
      Error(500, UnknownInstitution)
    else
      var id := ParamId(param).value;
      var u :| u in acc.institutions && acc.institutions[u].institutionId == id;
      var row := acc.institutions[u];
      Ok(200, InstitutionProfile(id, acc.users[u].name, row.avatar, row.banner, row.description,
                                 |Fans(following, id)|))
  }
}
