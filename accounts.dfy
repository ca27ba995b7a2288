/** The account lookups and guards of lib/api.ts: `getUserIdByPhoneOrEmail`,
    `updateUserStatus` (with `fetchUserById` and `fetchOrCreateUserStatus`)
    and `completePasswordReset`. Collections are values passed in; the flags
    say whether each SDK call succeeds. */
module Accounts {
  import opened Wrappers
  import opened Text

  /** The fields of a user document the lookups read. */
  datatype UserDocument = UserDocument(id: string, email: string, phone: string)

  datatype Field = EmailField | PhoneField

  function FieldValue(u: UserDocument, f: Field): string {
    match f case EmailField => u.email case PhoneField => u.phone
  }

  /** The field `getUserIdByPhoneOrEmail` queries: "email" exactly when the
      identifier contains "@". */
  function LookupField(identifier: string): (f: Field)
    ensures f == EmailField <==> '@' in identifier
  {
    ContainsOneChar(identifier, '@');
    if Contains(identifier, "@") then EmailField else PhoneField
  }

  lemma ContainsOneChar(s: string, c: char)
    ensures Contains(s, [c]) <==> c in s
  {
    if c in s {
      var i :| 0 <= i < |s| && s[i] == c;
      assert OccursAt(s, [c], i);
    }
    if Contains(s, [c]) {
      var i :| OccursAt(s, [c], i);
      assert s[i] == s[i..i + 1][0];
    }
  }

  /** The index of the first user whose field `f` equals `value`. */
  function FirstMatch(users: seq<UserDocument>, f: Field, value: string): (r: Option<nat>)
    ensures r.Some? ==> && r.value < |users| && FieldValue(users[r.value], f) == value
                        && forall j :: 0 <= j < r.value ==> FieldValue(users[j], f) != value
    ensures r.None? ==> forall j :: 0 <= j < |users| ==> FieldValue(users[j], f) != value
  {
    if users == [] then None
    else if FieldValue(users[0], f) == value then Some(0)
    else match FirstMatch(users[1..], f, value)
      case Some(i) => Some(i + 1)
      case None => None
  }

  /** `getUserIdByPhoneOrEmail(identifier)`: the id of the first user whose
      email (identifier with "@") or phone (otherwise) equals the
      identifier; null when none does or when the query fails. */
  function GetUserIdByPhoneOrEmail(users: seq<UserDocument>, listOk: bool, identifier: string)
    : (r: Option<string>)
    ensures !listOk ==> r.None?
    ensures r.Some? ==> exists i :: && 0 <= i < |users| && users[i].id == r.value
                                    && FieldValue(users[i], LookupField(identifier)) == identifier
                                    && forall j :: 0 <= j < i ==> FieldValue(users[j], LookupField(identifier)) != identifier
  {
    if !listOk then None
    else match FirstMatch(users, LookupField(identifier), identifier)
      case Some(i) => Some(users[i].id)
      case None => None
  }

  /** A successful lookup finds a user whose queried field is the identifier,
      and a lookup fails on a readable collection exactly when no user has
      it. */
  lemma LookupFindsMatchingUser(users: seq<UserDocument>, identifier: string)
    ensures var r := GetUserIdByPhoneOrEmail(users, true, identifier);
            && (r.Some? ==> exists u :: u in users && u.id == r.value
                                       && FieldValue(u, LookupField(identifier)) == identifier)
            && (r.None? <==> forall u :: u in users ==> FieldValue(u, LookupField(identifier)) != identifier)
  {
    var r := GetUserIdByPhoneOrEmail(users, true, identifier);
    var m := FirstMatch(users, LookupField(identifier), identifier);
    if m.Some? {
      assert users[m.value] in users;
    }
  }

  /** An identifier with "@" is looked up by email only: a user whose phone
      equals it is not found through the phone field. */
  lemma EmailIdentifierQueriesEmail(users: seq<UserDocument>, identifier: string)
    requires '@' in identifier
    requires forall u :: u in users ==> u.email != identifier
    ensures GetUserIdByPhoneOrEmail(users, true, identifier) == None
  {
  }

  // updateUserStatus

  /** A document of the user status collection. */
  datatype StatusDocument = StatusDocument(id: string, userId: string, status: string, lastActive: int)

  /** The `status` argument, which the guard checks to be a string. */
  datatype StatusArgument = StringStatus(s: string) | NonStringStatus

  const UpdateStatusFailed: string := "Failed to update user status"

  /** `listDocuments(userStatusCollection, [Query.equal("userId", userId)])`,
      of which the update takes the first document. */
  function FirstStatusOf(statuses: seq<StatusDocument>, userId: string): (r: Option<nat>)
    ensures r.Some? ==> && r.value < |statuses| && statuses[r.value].userId == userId
                        && forall j :: 0 <= j < r.value ==> statuses[j].userId != userId
    ensures r.None? ==> forall j :: 0 <= j < |statuses| ==> statuses[j].userId != userId
  {
    if statuses == [] then None
    else if statuses[0].userId == userId then Some(0)
    else match FirstStatusOf(statuses[1..], userId)
      case Some(i) => Some(i + 1)
      case None => None
  }

  /** `updateDocument(id, { status, lastActive })` on every document with
      that id (ids are unique in a collection). */
  function SetStatus(statuses: seq<StatusDocument>, id: string, status: string, now: int)
    : (r: seq<StatusDocument>)
    ensures |r| == |statuses|
    ensures forall j :: 0 <= j < |r| ==>
              r[j] == if statuses[j].id == id then statuses[j].(status := status, lastActive := now) else statuses[j]
  {
    if statuses == [] then []
    else
      [if statuses[0].id == id then statuses[0].(status := status, lastActive := now) else statuses[0]]
      + SetStatus(statuses[1..], id, status, now)
  }

  /** `updateUserStatus(userId, status)`: the result (null, the updated
      document, or the thrown message) and the status collection after it.
      `usersOk`, `listOk`, `createOk` and `updateOk` are the outcomes of the
      user lookup, the status lookup, the status creation and the update. */
  function UpdateUserStatus(users: seq<UserDocument>, statuses: seq<StatusDocument>,
                            usersOk: bool, listOk: bool, createOk: bool, updateOk: bool,
                            userId: string, status: StatusArgument, now: int)
    : (out: (Result<Option<StatusDocument>>, seq<StatusDocument>))
    ensures out.0.Ok? && out.0.value.Some? ==>
              var doc := out.0.value.value;
              doc.userId == userId && status.StringStatus? && doc.status == status.s
              && doc.lastActive == now && doc in out.1
    ensures |statuses| <= |out.1| <= |statuses| + 1
    ensures FirstStatusOf(statuses, userId).Some? ==> |out.1| == |statuses|
    ensures out.0.Ok? && out.0.value.Some? <==>
              && userId != "" && status.StringStatus? && usersOk && FirstMatchById(users, userId).Some?
              && listOk && updateOk && (FirstStatusOf(statuses, userId).Some? || createOk)
    ensures out.0 == Ok(None) ==> out.1 == statuses
    ensures out.0.Ok? && out.0.value.Some? && FirstStatusOf(statuses, userId).Some? ==>
              out.1 == SetStatus(statuses, statuses[FirstStatusOf(statuses, userId).value].id, status.s, now)
    ensures out.0.Ok? && out.0.value.Some? && FirstStatusOf(statuses, userId).None? ==>
              out.1 == SetStatus(statuses + [StatusDocument(userId, userId, status.s, now)], userId, status.s, now)
    ensures out.0.Err? ==>
              || out.1 == statuses
              || (&& FirstStatusOf(statuses, userId).None? && createOk && !updateOk && status.StringStatus?
                  && out.1 == statuses + [StatusDocument(userId, userId, status.s, now)])
  {
    if userId == "" || status.NonStringStatus? then (Ok(None), statuses)
    else if !usersOk then (Err(UpdateStatusFailed), statuses)
    else if FirstMatchById(users, userId).None? then (Ok(None), statuses)
    else if !listOk then (Err(UpdateStatusFailed), statuses)
    else
      var s := status.s;
      match FirstStatusOf(statuses, userId)
      case Some(i) =>
        var doc := statuses[i];
        if !updateOk then (Err(UpdateStatusFailed), statuses)
        else
          var statuses' := SetStatus(statuses, doc.id, s, now);
          assert statuses'[i] == doc.(status := s, lastActive := now);
          (Ok(Some(doc.(status := s, lastActive := now))), statuses')
      case None =>
        if !createOk then (Err(UpdateStatusFailed), statuses)
        else
          var created := StatusDocument(userId, userId, s, now);
          var withNew := statuses + [created];
          if !updateOk then (Err(UpdateStatusFailed), withNew)
          else
            var statuses' := SetStatus(withNew, userId, s, now);
            assert statuses'[|statuses|] == created;
            (Ok(Some(created)), statuses')
  }

  /** `fetchUserById`: the first user document with that `$id`. */
  function FirstMatchById(users: seq<UserDocument>, userId: string): (r: Option<nat>)
    ensures r.Some? ==> r.value < |users| && users[r.value].id == userId
    ensures r.None? ==> forall j :: 0 <= j < |users| ==> users[j].id != userId
  {
    if users == [] then None
    else if users[0].id == userId then Some(0)
    else match FirstMatchById(users[1..], userId)
      case Some(i) => Some(i + 1)
      case None => None
  }

  /** An empty user id or a status that is not a string gives null without
      touching the collections: the result is the same whatever the SDK
      would have answered. */
  lemma UpdateStatusGuard(users: seq<UserDocument>, statuses: seq<StatusDocument>,
                          usersOk: bool, listOk: bool, createOk: bool, updateOk: bool,
                          users': seq<UserDocument>, usersOk': bool, listOk': bool,
                          createOk': bool, updateOk': bool,
                          userId: string, status: StatusArgument, now: int)
    requires userId == "" || status.NonStringStatus?
    ensures UpdateUserStatus(users, statuses, usersOk, listOk, createOk, updateOk, userId, status, now)
            == (Ok(None), statuses)
            == UpdateUserStatus(users', statuses, usersOk', listOk', createOk', updateOk', userId, status, now)
  {
  }

  /** Updating the status of a user twice creates at most one status
      document: the second update finds the first one's document. */
  lemma RepeatedUpdateCreatesOnce(users: seq<UserDocument>, statuses: seq<StatusDocument>,
                                  createOk: bool, updateOk: bool, createOk': bool, updateOk': bool,
                                  userId: string, s: string, s': string, now: int, later: int)
    requires UpdateUserStatus(users, statuses, true, true, createOk, updateOk, userId, StringStatus(s), now).0.Ok?
    ensures var mid := UpdateUserStatus(users, statuses, true, true, createOk, updateOk, userId, StringStatus(s), now).1;
            |UpdateUserStatus(users, mid, true, true, createOk', updateOk', userId, StringStatus(s'), later).1|
            == |mid| <= |statuses| + 1
  {
    var out := UpdateUserStatus(users, statuses, true, true, createOk, updateOk, userId, StringStatus(s), now);
    var mid := out.1;
    if out.0.value.Some? {
      var doc := out.0.value.value;
      var k :| 0 <= k < |mid| && mid[k] == doc;
      assert mid[k].userId == userId;
    }
  }

  // completePasswordReset

  /** How `account.updateMagicURLSession` ends: success, or a thrown value
      with its `message` (if any) and whether it is an `Error`. */
  datatype SessionOutcome = SessionCreated | SessionThrew(message: Option<string>, isError: bool)

  const MissingParameterMessage: string := "Missing required parameter for password reset."
  const InvalidSecretMessage: string := "The secret key is invalid or has expired. Please request a new one."
  const ResetFailedMessage: string := "Failed to reset password. Please try again."

  /** JavaScript truthiness of an optional string argument. */
  predicate Truthy(v: Option<string>) {
    v.Some? && v.value != ""
  }

  /** `completePasswordReset(userId, secret)`: both arguments must be given;
      an "Invalid secret" failure becomes the expired-key message, any other
      `Error` is rethrown as it is, anything else becomes the generic
      failure. */
  function CompletePasswordReset(userId: Option<string>, secret: Option<string>, session: SessionOutcome)
    : (r: Result<()>)
    ensures r.Ok? <==> Truthy(userId) && Truthy(secret) && session.SessionCreated?
    ensures !Truthy(userId) || !Truthy(secret) ==> r == Err(MissingParameterMessage)
  {
    if !Truthy(userId) || !Truthy(secret) then Err(MissingParameterMessage)
    else match session
      case SessionCreated => Ok(())
      case SessionThrew(message, isError) =>
        if message.Some? && Contains(message.value, "Invalid secret") then Err(InvalidSecretMessage)
        else if isError then Err(if message.Some? then message.value else "")
        else Err(ResetFailedMessage)
  }

  /** A missing user id or secret fails before the session call: the answer
      does not depend on what the call would have done. */
  lemma ResetGuardIgnoresSession(userId: Option<string>, secret: Option<string>,
                                 s1: SessionOutcome, s2: SessionOutcome)
    requires !Truthy(userId) || !Truthy(secret)
    ensures CompletePasswordReset(userId, secret, s1) == CompletePasswordReset(userId, secret, s2)
                                                     == Err(MissingParameterMessage)
  {
  }

  /** With both arguments the reset succeeds exactly when the session call
      does, and any failure whose message mentions "Invalid secret" is
      reported as an expired key. */
  lemma ResetOutcome(userId: string, secret: string, session: SessionOutcome)
    requires userId != "" && secret != ""
    ensures CompletePasswordReset(Some(userId), Some(secret), session).Ok? <==> session.SessionCreated?
    ensures session.SessionThrew? && session.message.Some?
            && (exists i :: OccursAt(session.message.value, "Invalid secret", i))
            ==> CompletePasswordReset(Some(userId), Some(secret), session) == Err(InvalidSecretMessage)
  {
  }
}
