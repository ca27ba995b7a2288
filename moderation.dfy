/** `reportUser`, `banUser` and `fetchBanStatus` of lib/api.ts. The report
    and ban collections are values passed in and returned; `fetchOk` and
    `createOk` say whether the SDK's list and create calls succeed, and
    `now` is the clock in milliseconds. */
module Moderation {
  import opened Wrappers

  const MsInADay: int := 24 * 60 * 60 * 1000

  /** The report cooldown: twenty days. */
  const CooldownMs: int := 20 * MsInADay

  /** A document of the report collection; `createdAt` is `$createdAt` in
      milliseconds. */
  datatype Report = Report(
    reporterId: string, reportedUserId: string, reason: string, details: string, createdAt: int)

  /** A document of the ban collection; `reason` may be absent. */
  datatype Ban = Ban(userId: string, reason: Option<string>, bannedBy: string)

  /** The `{ success, message }` object both mutations return. */
  datatype Response = Response(success: bool, message: string)

  /** The `{ isBanned, reason }` object of `fetchBanStatus`. */
  datatype BanStatus = BanStatus(isBanned: bool, reason: Option<string>)

  const ReportCooldownMessage: string := "You can only report this user once every 20 days."
  const ReportSubmittedMessage: string := "Report submitted successfully."
  const ReportFailedMessage: string := "Failed to report user."
  const AlreadyBannedMessage: string := "User is already banned."
  const BannedMessage: string := "User banned successfully."
  const BanFailedMessage: string := "Failed to ban user."
  const NoReasonProvided: string := "No reason provided"

  /** The query `reporterId == reporter && reportedUserId == reported`. */
  function ReportsFor(db: seq<Report>, reporter: string, reported: string): (r: seq<Report>)
    ensures forall x :: x in r <==> x in db && x.reporterId == reporter && x.reportedUserId == reported
  {
    if db == [] then []
    else
      var rest := ReportsFor(db[1..], reporter, reported);
      assert forall x :: x in db <==> x == db[0] || x in db[1..];
      if db[0].reporterId == reporter && db[0].reportedUserId == reported then [db[0]] + rest else rest
  }

  /** `reports.every(report => now - createdAt > 20 * MS_IN_A_DAY)`. */
  function OutsideCooldown(reports: seq<Report>, now: int): (ok: bool)
    ensures ok <==> forall x :: x in reports ==> now - x.createdAt > CooldownMs
  {
    if reports == [] then true
    else
      assert forall x :: x in reports <==> x == reports[0] || x in reports[1..];
      now - reports[0].createdAt > CooldownMs && OutsideCooldown(reports[1..], now)
  }

  /** `reportUser(payload)`: the response and the report collection after it. */
  function ReportUser(db: seq<Report>, fetchOk: bool, createOk: bool,
                      reporterId: string, reportedUserId: string, reason: string, details: string,
                      now: int): (out: (Response, seq<Report>))
    ensures !out.0.success ==> out.1 == db
    ensures out.0.success ==> out.1 == db + [Report(reporterId, reportedUserId, reason, details, now)]
  {
    if !fetchOk then (Response(false, ReportFailedMessage), db)
    else if !OutsideCooldown(ReportsFor(db, reporterId, reportedUserId), now) then
      (Response(false, ReportCooldownMessage), db)
    else if !createOk then (Response(false, ReportFailedMessage), db)
    else (Response(true, ReportSubmittedMessage), db + [Report(reporterId, reportedUserId, reason, details, now)])
  }

  /** When the collection can be read and written, a report is accepted
      exactly when every earlier report by the same reporter on the same
      user is more than twenty days old. */
  lemma ReportAllowedIff(db: seq<Report>, reporterId: string, reportedUserId: string,
                         reason: string, details: string, now: int)
    ensures ReportUser(db, true, true, reporterId, reportedUserId, reason, details, now).0.success
            <==> (forall x :: x in db && x.reporterId == reporterId && x.reportedUserId == reportedUserId ==>
                      now - x.createdAt > CooldownMs)
  {
  }

  /** A first report on a user is always accepted. */
  lemma FirstReportAllowed(db: seq<Report>, reporterId: string, reportedUserId: string,
                           reason: string, details: string, now: int)
    requires forall x :: x in db ==> x.reporterId != reporterId || x.reportedUserId != reportedUserId
    ensures ReportUser(db, true, true, reporterId, reportedUserId, reason, details, now).0
            == Response(true, ReportSubmittedMessage)
  {
  }

  /** After an accepted report, the same reporter cannot report the same user
      again until more than twenty days have passed; the refusal changes
      nothing. */
  lemma ReportAgainWithinCooldownRefused(db: seq<Report>, fetchOk: bool, createOk: bool,
                                         reporterId: string, reportedUserId: string,
                                         reason: string, details: string, now: int,
                                         fetchOk': bool, createOk': bool,
                                         reason': string, details': string, later: int)
    requires ReportUser(db, fetchOk, createOk, reporterId, reportedUserId, reason, details, now).0.success
    requires later - now <= CooldownMs
    ensures var db' := ReportUser(db, fetchOk, createOk, reporterId, reportedUserId, reason, details, now).1;
            var out := ReportUser(db', fetchOk', createOk', reporterId, reportedUserId, reason', details', later);
            !out.0.success && out.1 == db'
  {
    var db' := ReportUser(db, fetchOk, createOk, reporterId, reportedUserId, reason, details, now).1;
    var last := Report(reporterId, reportedUserId, reason, details, now);
    assert last in db';
    assert last in ReportsFor(db', reporterId, reportedUserId);
  }

  /** A ban document selected by the query `userId == userId && bannedBy == bannedBy`. */
  predicate Matches(b: Ban, userId: string, bannedBy: string)
  {
    b.userId == userId && b.bannedBy == bannedBy
  }

  /** The query `userId == userId && bannedBy == bannedBy`, in collection order. */
  function BansFor(db: seq<Ban>, userId: string, bannedBy: string): (r: seq<Ban>)
    ensures forall b :: b in r <==> b in db && Matches(b, userId, bannedBy)
    ensures r != [] ==> exists i :: (0 <= i < |db| && db[i] == r[0] && forall j :: 0 <= j < i ==> !Matches(db[j], userId, bannedBy))
  {
    if db == [] then []
    else
      var rest := BansFor(db[1..], userId, bannedBy);
      assert forall b :: b in db <==> b == db[0] || b in db[1..];
      if Matches(db[0], userId, bannedBy) then [db[0]] + rest
      else
        assert rest != [] ==> exists i :: (0 <= i < |db| && db[i] == rest[0] && forall j :: 0 <= j < i ==> !Matches(db[j], userId, bannedBy)) by {
          if rest != [] {
            var k :| 0 <= k < |db[1..]| && db[1..][k] == rest[0] && forall j :: 0 <= j < k ==> !Matches(db[1..][j], userId, bannedBy);
            assert db[k + 1] == rest[0];
            forall j | 0 <= j < k + 1 ensures !Matches(db[j], userId, bannedBy) {
              if j > 0 { assert db[j] == db[1..][j - 1]; }
            }
          }
        }
        rest
  }

  /** `banUser({ userId, reason, bannedBy })`: the response and the ban
      collection after it. */
  function BanUser(db: seq<Ban>, fetchOk: bool, createOk: bool,
                   userId: string, reason: Option<string>, bannedBy: string): (out: (Response, seq<Ban>))
    ensures !out.0.success ==> out.1 == db
    ensures out.0.success ==> out.1 == db + [Ban(userId, reason, bannedBy)]
  {
    if !fetchOk then (Response(false, BanFailedMessage), db)
    else if |BansFor(db, userId, bannedBy)| > 0 then (Response(false, AlreadyBannedMessage), db)
    else if !createOk then (Response(false, BanFailedMessage), db)
    else (Response(true, BannedMessage), db + [Ban(userId, reason, bannedBy)])
  }

  /** `fetchBanStatus(userId, bannedBy)`: not banned with no reason when no
      ban document exists (or the query fails), otherwise banned with the
      first document's reason, "No reason provided" when it has none. */
  function FetchBanStatus(db: seq<Ban>, fetchOk: bool, userId: string, bannedBy: string): (s: BanStatus)
    ensures s.isBanned <==> fetchOk && exists b :: b in db && Matches(b, userId, bannedBy)
    ensures s.isBanned ==>
              var first := BansFor(db, userId, bannedBy)[0].reason;
              s.reason == Some(if first.Some? && first.value != "" then first.value else NoReasonProvided)
    ensures s.isBanned ==> s.reason.Some? && s.reason.value != ""
    ensures !s.isBanned ==> s.reason.None?
  {
    var bans := BansFor(db, userId, bannedBy);
    if !fetchOk || |bans| == 0 then BanStatus(false, None)
    else match bans[0].reason
      case Some(r) => BanStatus(true, Some(if r != "" then r else NoReasonProvided))
      case None => BanStatus(true, Some(NoReasonProvided))
  }

  /** The ban gate and the status query agree: a ban is refused as a
      duplicate exactly when the status says the user is banned by that
      moderator. */
  lemma BanGateMatchesStatus(db: seq<Ban>, createOk: bool, userId: string, reason: Option<string>, bannedBy: string)
    ensures BanUser(db, true, createOk, userId, reason, bannedBy).0.message == AlreadyBannedMessage
            <==> FetchBanStatus(db, true, userId, bannedBy).isBanned
  {
  }

  /** Banning twice: the second call reports the existing ban and creates
      nothing. */
  lemma BanTwiceRefused(db: seq<Ban>, fetchOk: bool, createOk: bool, createOk': bool,
                        userId: string, reason: Option<string>, reason': Option<string>, bannedBy: string)
    requires BanUser(db, fetchOk, createOk, userId, reason, bannedBy).0.success
    ensures var db' := BanUser(db, fetchOk, createOk, userId, reason, bannedBy).1;
            BanUser(db', true, createOk', userId, reason', bannedBy) == (Response(false, AlreadyBannedMessage), db')
  {
    var db' := BanUser(db, fetchOk, createOk, userId, reason, bannedBy).1;
    assert Ban(userId, reason, bannedBy) in BansFor(db', userId, bannedBy);
  }

  /** After a first ban, the status shows the user banned with the given
      reason, or "No reason provided" when the reason is missing or empty. */
  lemma StatusAfterFirstBan(db: seq<Ban>, fetchOk: bool, createOk: bool,
                            userId: string, reason: Option<string>, bannedBy: string)
    requires BanUser(db, fetchOk, createOk, userId, reason, bannedBy).0.success
    ensures var db' := BanUser(db, fetchOk, createOk, userId, reason, bannedBy).1;
            FetchBanStatus(db', true, userId, bannedBy)
            == BanStatus(true, Some(if reason.Some? && reason.value != "" then reason.value else NoReasonProvided))
  {
    var db' := BanUser(db, fetchOk, createOk, userId, reason, bannedBy).1;
    BansForAppend(db, [Ban(userId, reason, bannedBy)], userId, bannedBy);
    assert BansFor(db, userId, bannedBy) == [];
  }

  lemma {:induction false} BansForAppend(a: seq<Ban>, b: seq<Ban>, userId: string, bannedBy: string)
    ensures BansFor(a + b, userId, bannedBy) == BansFor(a, userId, bannedBy) + BansFor(b, userId, bannedBy)
  {
    if a == [] {
      assert a + b == b;
    } else {
      assert (a + b)[1..] == a[1..] + b;
      BansForAppend(a[1..], b, userId, bannedBy);
    }
  }
}
