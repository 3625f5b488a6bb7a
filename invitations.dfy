/**
 * Accepting or rejecting a workspace invitation (`POST /api/invitations`),
 * and the check chain it shares with the verification route. The tables
 * `workspace_invitations` and `workspace_members` are sequences of rows;
 * the queries that can fail are given their failure, if any.
 */
module Invitations {

  import opened Wrappers
  import opened Js
  import opened Seqs
  import opened ApiUtils
  import opened Validation

  /** A `workspace_invitations` row with its embedded `workspaces`. `expiresAt` is the stored timestamp. */
  datatype Invitation = Invitation(id: Value, token: Value, workspaceId: Value, invitedEmail: Value,
                                   role: Value, status: Value, expiresAt: Value, workspace: Value)

  /** A `workspace_members` row. */
  datatype Member = Member(workspaceId: Value, userId: string, role: Value)

  datatype Db = Db(invitations: seq<Invitation>, members: seq<Member>)

  function HasToken(token: Value): Invitation -> bool {
    (i: Invitation) => i.token == token
  }

  /** `.eq('token', token).single()`: the row, only when exactly one carries the token. */
  function Lookup(invitations: seq<Invitation>, token: Value): (r: Option<Invitation>)
    ensures r.Some? <==> |Filter(invitations, HasToken(token))| == 1
    ensures r.Some? ==> r.value in invitations && r.value.token == token
  {
    var found := Filter(invitations, HasToken(token));
    if |found| == 1 then assert found[0] in found; Some(found[0]) else None
  }

  const MSG_UNKNOWN := "L'invitation n'existe pas ou a expiré"
  const MSG_EXPIRED := "L'invitation a expiré"
  const MSG_NOT_FOR_YOU := "Cette invitation ne vous est pas destinée"

  /** The already-processed message: "acceptée" only for 'accepted', "rejetée" for every other status. */
  function ProcessedMessage(status: Value): (m: string)
    ensures status == Str("accepted") ==> m == "L'invitation a déjà été acceptée"
    ensures status != Str("accepted") ==> m == "L'invitation a déjà été rejetée"
  {
    "L'invitation a déjà été " + if status == Str("accepted") then "acceptée" else "rejetée"
  }

  /**
   * `new Date(expires_at) < new Date()`. `parseDate` is the date parser in
   * milliseconds; an unparsable date (NaN) compares false, so it never expires.
   */
  predicate Expired(inv: Invitation, now: int, parseDate: Value -> Option<int>): (b: bool)
    ensures parseDate(inv.expiresAt).None? ==> !b
  {
    parseDate(inv.expiresAt).Some? && parseDate(inv.expiresAt).value < now
  }

  /** The three checks both routes run, in order: unknown token, expired, not pending. */
  function CheckInvitation(found: Option<Invitation>, now: int, parseDate: Value -> Option<int>): (r: Option<Response>)
    ensures r.None? <==> found.Some? && !Expired(found.value, now, parseDate) && found.value.status == Str("pending")
    ensures r.Some? ==> r.value.body.Failure? && r.value.body.details.None?
  {
    if found.None? then Some(ApiError(MSG_UNKNOWN, ERR_NOT_FOUND, 404))
    else if Expired(found.value, now, parseDate) then Some(ApiError(MSG_EXPIRED, ERR_EXPIRED, 410))
    else if found.value.status != Str("pending") then Some(ApiError(ProcessedMessage(found.value.status), ERR_INVALID_STATE, 400))
    else None
  }

  /** Which check rejects: the first that fails, and the error it reports. */
  lemma CheckOrder(found: Option<Invitation>, now: int, parseDate: Value -> Option<int>)
    ensures found.None? ==> CheckInvitation(found, now, parseDate) == Some(ApiError(MSG_UNKNOWN, ERR_NOT_FOUND, 404))
    ensures found.Some? && Expired(found.value, now, parseDate) ==>
              CheckInvitation(found, now, parseDate).value.status == 410 &&
              CheckInvitation(found, now, parseDate).value.body.code == ERR_EXPIRED
    ensures found.Some? && !Expired(found.value, now, parseDate) && found.value.status != Str("pending") ==>
              CheckInvitation(found, now, parseDate).value.status == 400 &&
              CheckInvitation(found, now, parseDate).value.body.code == ERR_INVALID_STATE &&
              CheckInvitation(found, now, parseDate).value.body.message == ProcessedMessage(found.value.status)
  {
  }

  /** The comparison is strict: an invitation that expires exactly now is still valid. */
  lemma ExpiryIsStrict(inv: Invitation, now: int, parseDate: Value -> Option<int>)
    requires parseDate(inv.expiresAt) == Some(now)
    ensures !Expired(inv, now, parseDate)
    ensures Expired(inv, now + 1, parseDate)
  {
  }

  /** Once expired, an invitation stays expired. */
  lemma ExpiryIsFinal(inv: Invitation, now: int, later: int, parseDate: Value -> Option<int>)
    requires Expired(inv, now, parseDate) && now <= later
    ensures Expired(inv, later, parseDate)
  {
  }

  /** The rules of the request body: a token, and an action that is 'accept' or 'reject'. */
  function PostRules(): (rules: seq<(string, Rule)>)
    ensures |rules| == 2 && rules[0].0 == "token" && rules[1].0 == "action" && DistinctFields(rules)
    ensures forall i :: 0 <= i < |rules| ==> rules[i].1.required
  {
    [("token", NoChecks.(required := true)),
     ("action", NoChecks.(required := true, enumValues := Some(["accept", "reject"])))]
  }

  /** The body passes exactly when the token is present and the action is one of the two strings. */
  lemma PostRulesMeaning(body: map<string, Value>)
    ensures RequestCheck(body, PostRules(), NoDates).None? <==>
            !Blank(Get(body, "token")) && Get(body, "action") in {Str("accept"), Str("reject")}
  {
    RequestPassesIffAllFieldsPass(body, PostRules(), NoDates);
    assert PostRules()[0].0 == "token" && PostRules()[1].0 == "action";
    FieldErrorNoneIffPasses("token", Get(body, "token"), PostRules()[0].1, NoDates);
    FieldErrorNoneIffPasses("action", Get(body, "action"), PostRules()[1].1, NoDates);
  }

  /** `.update({ status }).eq('id', id)`. */
  function SetStatus(invitations: seq<Invitation>, id: Value, status: Value): (r: seq<Invitation>)
    ensures |r| == |invitations|
    ensures forall i :: 0 <= i < |invitations| ==>
              r[i] == if invitations[i].id == id then invitations[i].(status := status) else invitations[i]
  {
    if invitations == [] then []
    else [if invitations[0].id == id then invitations[0].(status := status) else invitations[0]] +
         SetStatus(invitations[1..], id, status)
  }

  function IsMembership(workspaceId: Value, userId: string): Member -> bool {
    (m: Member) => m.workspaceId == workspaceId && m.userId == userId
  }

  /** `existingMember` under `.single()`: found only when exactly one row matches. */
  predicate AlreadyMember(members: seq<Member>, workspaceId: Value, userId: string) {
    |Filter(members, IsMembership(workspaceId, userId))| == 1
  }

  /**
   * The failures of the writes: the stored procedure, the status update
   * (the fallback's, or the rejection's), and the membership insert.
   */
  datatype Faults = Faults(rpc: Option<DbError>, status: Option<DbError>, member: Option<DbError>)

  function AcceptedBody(inv: Invitation): Value {
    Obj(map["status" := Str("accepted"), "workspace" := inv.workspace])
  }

  /**
   * The handler, given the request body, the signed-in user's id, the email
   * of their profile row (none when the row was not found), the current time
   * and the tables. The success of `accept_workspace_invitation` is taken as
   * a success with no change of the tables here.
   */
  function Respond(body: map<string, Value>, userId: string, profileEmail: Option<Value>, now: int,
                   parseDate: Value -> Option<int>, db: Db, faults: Faults): (r: (Response, Db))
    ensures r.0.body.Success? ==>
              r.0.status == 200 && RequestCheck(body, PostRules(), NoDates).None? &&
              CheckInvitation(Lookup(db.invitations, Get(body, "token")), now, parseDate).None?
    ensures r.0.body.Failure? && r.1 != db ==>
              Get(body, "action") == Str("accept") && faults.rpc.Some? && faults.member.Some? &&
              r.1.members == db.members
  {
    match RequestCheck(body, PostRules(), NoDates)
    case Some(invalid) => (invalid, db)
    case None =>
      var found := Lookup(db.invitations, Get(body, "token"));
      match CheckInvitation(found, now, parseDate)
      case Some(rejected) => (rejected, db)
      case None =>
        var inv := found.value;
        if profileEmail.Some? && profileEmail.value != inv.invitedEmail then
          (ApiError(MSG_NOT_FOR_YOU, ERR_FORBIDDEN, 403), db)
        else if Get(body, "action") == Str("accept") then
          if faults.rpc.None? then (ApiSuccess(AcceptedBody(inv)), db)
          else if faults.status.Some? then (HandleDbError(faults.status.value), db)
          else
            var db1 := db.(invitations := SetStatus(db.invitations, inv.id, Str("accepted")));
            if AlreadyMember(db.members, inv.workspaceId, userId) then (ApiSuccess(AcceptedBody(inv)), db1)
            else if faults.member.Some? then (HandleDbError(faults.member.value), db1)
            else (ApiSuccess(AcceptedBody(inv)), db1.(members := db.members + [Member(inv.workspaceId, userId, inv.role)]))
        else if faults.status.Some? then (HandleDbError(faults.status.value), db)
        else (ApiSuccess(Obj(map["status" := Str("rejected")])), db.(invitations := SetStatus(db.invitations, inv.id, Str("rejected"))))
  }

  /** A request that fails validation gets VALIDATION/400 and changes nothing. */
  lemma InvalidBodyRejected(body: map<string, Value>, userId: string, profileEmail: Option<Value>, now: int,
                            parseDate: Value -> Option<int>, db: Db, faults: Faults)
    requires Blank(Get(body, "token")) || Get(body, "action") !in {Str("accept"), Str("reject")}
    ensures var (r, db') := Respond(body, userId, profileEmail, now, parseDate, db, faults);
            r.status == 400 && r.body.Failure? && r.body.code == ERR_VALIDATION && db' == db
  {
    PostRulesMeaning(body);
  }

  /**
   * Only a known, unexpired, pending invitation addressed to the user (when
   * their profile was found) leads to any change of the tables.
   */
  lemma OnlyPendingChanges(body: map<string, Value>, userId: string, profileEmail: Option<Value>, now: int,
                           parseDate: Value -> Option<int>, db: Db, faults: Faults)
    ensures var (r, db') := Respond(body, userId, profileEmail, now, parseDate, db, faults);
            var found := Lookup(db.invitations, Get(body, "token"));
            db' != db ==>
              found.Some? && found.value.status == Str("pending") && !Expired(found.value, now, parseDate) &&
              (profileEmail.Some? ==> profileEmail.value == found.value.invitedEmail)
  {
  }

  /**
   * The email check rejects with FORBIDDEN/403 when a found profile names
   * another address, and never when no profile row was found.
   */
  lemma EmailMismatchForbidden(body: map<string, Value>, userId: string, profileEmail: Option<Value>, now: int,
                               parseDate: Value -> Option<int>, db: Db, faults: Faults)
    requires RequestCheck(body, PostRules(), NoDates).None?
    requires CheckInvitation(Lookup(db.invitations, Get(body, "token")), now, parseDate).None?
    ensures var (r, db') := Respond(body, userId, profileEmail, now, parseDate, db, faults);
            var inv := Lookup(db.invitations, Get(body, "token")).value;
            (profileEmail.Some? && profileEmail.value != inv.invitedEmail) ==> r.status == 403 && r.body.code == ERR_FORBIDDEN && db' == db
    ensures var (r, _) := Respond(body, userId, profileEmail, now, parseDate, db, faults);
            profileEmail.None? ==> r != ApiError(MSG_NOT_FOR_YOU, ERR_FORBIDDEN, 403)
  {
  }

  /**
   * The fallback of an acceptance: the invitation becomes 'accepted', and a
   * membership with the invitation's role is added exactly when the user was
   * not already a member; the other invitations are untouched.
   */
  lemma AcceptFallback(body: map<string, Value>, userId: string, profileEmail: Option<Value>, now: int,
                       parseDate: Value -> Option<int>, db: Db, rpcError: DbError)
    requires RequestCheck(body, PostRules(), NoDates).None? && Get(body, "action") == Str("accept")
    requires CheckInvitation(Lookup(db.invitations, Get(body, "token")), now, parseDate).None?
    requires profileEmail.None? || profileEmail.value == Lookup(db.invitations, Get(body, "token")).value.invitedEmail
    ensures var inv := Lookup(db.invitations, Get(body, "token")).value;
            var (r, db') := Respond(body, userId, profileEmail, now, parseDate, db, Faults(Some(rpcError), None, None));
            r == ApiSuccess(AcceptedBody(inv)) &&
            db'.invitations == SetStatus(db.invitations, inv.id, Str("accepted")) &&
            db'.members == if AlreadyMember(db.members, inv.workspaceId, userId) then db.members
                           else db.members + [Member(inv.workspaceId, userId, inv.role)]
  {
  }

  /** A rejection sets 'rejected' and never adds a membership. */
  lemma RejectAddsNoMember(body: map<string, Value>, userId: string, profileEmail: Option<Value>, now: int,
                           parseDate: Value -> Option<int>, db: Db, faults: Faults)
    requires Get(body, "action") != Str("accept")
    ensures var (r, db') := Respond(body, userId, profileEmail, now, parseDate, db, faults);
            db'.members == db.members &&
            (db'.invitations != db.invitations ==>
               db'.invitations == SetStatus(db.invitations, Lookup(db.invitations, Get(body, "token")).value.id, Str("rejected")))
  {
    var found := Lookup(db.invitations, Get(body, "token"));
    var (r, db') := Respond(body, userId, profileEmail, now, parseDate, db, faults);
    if RequestCheck(body, PostRules(), NoDates).None? && CheckInvitation(found, now, parseDate).None? &&
       !(profileEmail.Some? && profileEmail.value != found.value.invitedEmail) && faults.status.None? {
      assert db' == db.(invitations := SetStatus(db.invitations, found.value.id, Str("rejected")));
    } else {
      assert db' == db;
    }
  }
}
