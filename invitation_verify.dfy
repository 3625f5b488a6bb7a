/**
 * `GET /api/invitations/verify?token=…`: reports whether an invitation can
 * still be answered, and echoes it. It only reads the invitations, which
 * are an input here and never part of the result.
 */
module InvitationVerify {

  import opened Wrappers
  import opened Js
  import opened ApiUtils
  import opened Invitations

  const MSG_MISSING_TOKEN := "Token manquant"
  const TEST_TOKEN := "test-token"
  /** One day, in milliseconds: the expiry of the test invitation. */
  const ONE_DAY := 86400000

  /** The fixed invitation returned for the test token; `iso` formats a time as `toISOString` does. */
  function TestInvitation(now: int, iso: int -> string): Value {
    Obj(map["invited_email" := Str("test@example.com"),
            "workspace" := Obj(map["id" := Str("123456"), "name" := Str("Workspace de test"),
                                   "description" := Str("Description de test"), "logo_url" := Null]),
            "role" := Str("member"),
            "expires_at" := Str(iso(now + ONE_DAY))])
  }

  /** The invitation as echoed on success: its own fields, and the workspace with `id` taken from `workspace_id`. */
  function Echo(inv: Invitation): (v: Value)
    ensures v.Obj? && "workspace" in v.fields && v.fields["workspace"].Obj?
    ensures "id" in v.fields["workspace"].fields && v.fields["workspace"].fields["id"] == inv.workspaceId
    ensures forall k :: k in {"id", "invited_email", "workspace_id", "role", "expires_at", "status"} ==> k in v.fields
    ensures v.fields["id"] == inv.id && v.fields["workspace_id"] == inv.workspaceId && v.fields["status"] == inv.status
    ensures v.fields["invited_email"] == inv.invitedEmail && v.fields["role"] == inv.role && v.fields["expires_at"] == inv.expiresAt
  {
    Obj(map["id" := inv.id, "invited_email" := inv.invitedEmail, "workspace_id" := inv.workspaceId,
            "role" := inv.role, "expires_at" := inv.expiresAt, "status" := inv.status,
            "workspace" := Obj(map["id" := inv.workspaceId,
                                   "name" := Prop(inv.workspace, "name"),
                                   "description" := Prop(inv.workspace, "description"),
                                   "logo_url" := Prop(inv.workspace, "logo_url")])])
  }

  /**
   * The handler. A missing workspace makes reading its `name` throw the
   * engine's `typeError`, which the handler maps like a database error.
   */
  function Verify(token: Option<string>, now: int, iso: int -> string, parseDate: Value -> Option<int>,
                  invitations: seq<Invitation>, typeError: string): (r: Response)
    ensures r.body.Success? <==> r.status == 200
    ensures r.body.Success? ==> token.Some? && token.value != ""
  {
    if token.None? || token.value == "" then ApiError(MSG_MISSING_TOKEN, ERR_VALIDATION, 400)
    else if token.value == TEST_TOKEN then ApiSuccess(TestInvitation(now, iso))
    else
      var found := Lookup(invitations, Str(token.value));
      match CheckInvitation(found, now, parseDate)
      case Some(rejected) => rejected
      case None =>
        if !Destructurable(found.value.workspace) then HandleDbError(DbError(None, Some(typeError)))
        else ApiSuccess(Echo(found.value))
  }

  /** A missing or empty token is a VALIDATION/400 error. */
  lemma MissingTokenRejected(token: Option<string>, now: int, iso: int -> string, parseDate: Value -> Option<int>,
                             invitations: seq<Invitation>, typeError: string)
    requires token.None? || token.value == ""
    ensures var r := Verify(token, now, iso, parseDate, invitations, typeError);
            r.status == 400 && r.body.Failure? && r.body.code == ERR_VALIDATION && r.body.message == MSG_MISSING_TOKEN
  {
  }

  /** The test token succeeds whatever the table holds, expiring a day from now. */
  lemma TestTokenNeedsNoLookup(now: int, iso: int -> string, parseDate: Value -> Option<int>,
                               invitations: seq<Invitation>, other: seq<Invitation>, typeError: string)
    ensures var r := Verify(Some(TEST_TOKEN), now, iso, parseDate, invitations, typeError);
            r == Verify(Some(TEST_TOKEN), now, iso, parseDate, other, typeError) &&
            r.status == 200 && r.body.Success? &&
            r.body.data.Obj? && r.body.data.fields["expires_at"] == Str(iso(now + 86400000))
  {
  }

  /**
   * Any other token goes through the shared checks in order; a valid
   * invitation with its workspace is echoed, with status 200.
   */
  lemma VerifyFollowsChecks(token: string, now: int, iso: int -> string, parseDate: Value -> Option<int>,
                            invitations: seq<Invitation>, typeError: string)
    requires token != "" && token != TEST_TOKEN
    ensures var found := Lookup(invitations, Str(token));
            var r := Verify(Some(token), now, iso, parseDate, invitations, typeError);
            (CheckInvitation(found, now, parseDate).Some? ==> r == CheckInvitation(found, now, parseDate).value) &&
            (CheckInvitation(found, now, parseDate).None? && Destructurable(found.value.workspace) ==>
               r.status == 200 && r == ApiSuccess(Echo(found.value)) &&
               found.value.token == Str(token) && found.value.status == Str("pending"))
    ensures Verify(Some(token), now, iso, parseDate, invitations, typeError).body.Success? ==>
              Lookup(invitations, Str(token)).Some? && !Expired(Lookup(invitations, Str(token)).value, now, parseDate)
  {
  }
}
