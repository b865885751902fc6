/** The authentication context: the fixed user table, the session
    (current user, authenticated flag, persisted copy of the user) and the
    append-only attendance ledger, with the login, logout and
    attendance-claim operations that change them. */
module Auth {
  import opened Wrappers

  datatype Role = Admin | Member

  /** An instant as milliseconds since the Unix epoch, the value behind
      `new Date()`; the model receives it as a parameter. */
  type Instant = int

  /** A calendar day as the number of days since 1970-01-01. The source
      stores days as `YYYY-MM-DD` strings; two such strings are equal
      exactly when their day numbers are. */
  type Day = int

  const MsPerDay: int := 86_400_000

  /** The UTC calendar day of an instant, which is what
      `toISOString().split('T')[0]` names. */
  function UtcDay(t: Instant): (d: Day)
    ensures d * MsPerDay <= t < (d + 1) * MsPerDay
  {
    t / MsPerDay
  }

  datatype User = User(
    id: string,
    username: string,
    role: Role,
    name: string,
    email: string,
    attendance: nat,
    lastAttendance: Option<Day>,
    badges: Option<seq<string>>)

  /** One ledger entry, written by a successful claim. */
  datatype Record = Record(
    userId: string,
    username: string,
    name: string,
    timestamp: Instant,
    sessionId: string)

  const Admin1: User :=
    User("1", "admin1", Admin, "Admin User", "admin@datascienceclub.com", 0, None, None)
  /** Last attended 2025-11-05. */
  const Member1: User :=
    User("2", "member1", Member, "John Smith", "john@example.com", 15, Some(20397),
         Some(["Early Bird", "Regular Attendee"]))
  /** Last attended 2025-11-04. */
  const Member2: User :=
    User("3", "member2", Member, "Sarah Johnson", "sarah@example.com", 12, Some(20396),
         Some(["Team Player"]))

  /** The fixed user table, keyed by username. */
  const MockUsers: map<string, User> :=
    map["admin1" := Admin1, "member1" := Member1, "member2" := Member2]

  /** The user a login with this username and claimed role yields. */
  function FindUser(username: string, role: Role): (r: Option<User>)
    ensures r.Some? <==> username in MockUsers && MockUsers[username].role == role
    ensures r.Some? ==> r.value == MockUsers[username] && r.value.username == username
  {
    if username in MockUsers && MockUsers[username].role == role then Some(MockUsers[username]) else None
  }

  /** The result of the claim rule: either nothing changes, or the session
      user is replaced and one record is appended. */
  datatype ClaimOutcome = Rejected | Accepted(user: User, record: Record)

  /** The claim rule of `markAttendance`, applied to the current session
      user. The source reads the clock twice: `checkedAt` is the first
      reading, whose UTC day is compared with the last attendance and
      stored as the new one; `stampedAt` is the second, which becomes the
      record's timestamp. */
  function Claim(u: Option<User>, sessionId: string, checkedAt: Instant, stampedAt: Instant): (c: ClaimOutcome)
    ensures c.Accepted? <==> u.Some? && u.value.role == Member && u.value.lastAttendance != Some(UtcDay(checkedAt))
  {
    if u.None? || u.value.role != Member then Rejected
    else if u.value.lastAttendance == Some(UtcDay(checkedAt)) then Rejected
    else
      var v := u.value;
      Accepted(v.(attendance := v.attendance + 1, lastAttendance := Some(UtcDay(checkedAt))),
               Record(v.id, v.username, v.name, stampedAt, sessionId))
  }

  /** What an accepted claim writes: the count goes up by one, the last
      attendance becomes the day of the first clock reading, every other
      field is kept, and the record names the user, the second clock
      reading and the presented session id. */
  lemma ClaimEffect(u: User, sessionId: string, checkedAt: Instant, stampedAt: Instant)
    requires u.role == Member && u.lastAttendance != Some(UtcDay(checkedAt))
    ensures var c := Claim(Some(u), sessionId, checkedAt, stampedAt);
      && c.Accepted?
      && c.user.attendance == u.attendance + 1
      && c.user.lastAttendance == Some(UtcDay(checkedAt))
      && c.user.id == u.id && c.user.username == u.username && c.user.role == u.role
      && c.user.name == u.name && c.user.email == u.email && c.user.badges == u.badges
      && c.record == Record(u.id, u.username, u.name, stampedAt, sessionId)
  {
  }

  /** After an accepted claim, a second claim whose day check falls on the
      same UTC day is rejected, whatever session id it presents. */
  lemma ClaimTwiceSameDayRejected(u: Option<User>, s1: string, s2: string,
                                  checked1: Instant, stamped1: Instant, checked2: Instant, stamped2: Instant)
    requires Claim(u, s1, checked1, stamped1).Accepted?
    requires UtcDay(checked1) == UtcDay(checked2)
    ensures Claim(Some(Claim(u, s1, checked1, stamped1).user), s2, checked2, stamped2) == Rejected
  {
  }

  /** The session id plays no part in the decision or in the new user; it
      is only copied into the record. Any string, the empty one included,
      is accepted. */
  lemma {:induction false} ClaimIgnoresSessionId(u: Option<User>, s1: string, s2: string,
                                                 checkedAt: Instant, stampedAt: Instant)
    ensures Claim(u, s1, checkedAt, stampedAt).Accepted? == Claim(u, s2, checkedAt, stampedAt).Accepted?
    ensures Claim(u, s1, checkedAt, stampedAt).Accepted? ==>
      Claim(u, s1, checkedAt, stampedAt).user == Claim(u, s2, checkedAt, stampedAt).user &&
      Claim(u, s1, checkedAt, stampedAt).record == Claim(u, s2, checkedAt, stampedAt).record.(sessionId := s1)
  {
  }

  /** The new last-attendance day is the day of the first clock reading and
      the record carries the second; the record's own day is the new
      last-attendance day exactly when both readings fall on the same UTC
      day. */
  lemma ClaimRecordIsToday(u: Option<User>, sessionId: string, checkedAt: Instant, stampedAt: Instant)
    requires Claim(u, sessionId, checkedAt, stampedAt).Accepted?
    ensures Claim(u, sessionId, checkedAt, stampedAt).user.lastAttendance == Some(UtcDay(checkedAt))
    ensures Claim(u, sessionId, checkedAt, stampedAt).record.timestamp == stampedAt
    ensures Claim(u, sessionId, checkedAt, stampedAt).user.lastAttendance
              == Some(UtcDay(Claim(u, sessionId, checkedAt, stampedAt).record.timestamp))
            <==> UtcDay(checkedAt) == UtcDay(stampedAt)
  {
  }

  /** Consecutive instants fall on different UTC days, the first on a day
      other than the user's last attendance. */
  ghost predicate FreshDays(u: User, nows: seq<Instant>)
  {
    && (|nows| > 0 ==> u.lastAttendance != Some(UtcDay(nows[0])))
    && forall i :: 0 < i < |nows| ==> UtcDay(nows[i - 1]) != UtcDay(nows[i])
  }

  /** Claims by the same user at each instant of `nows` (both clock
      readings at that instant), in order: the final user and the number of
      claims accepted. */
  function ClaimAll(u: User, nows: seq<Instant>): (User, nat)
    decreases |nows|
  {
    if nows == [] then (u, 0)
    else match Claim(Some(u), "", nows[0], nows[0])
      case Rejected => var (v, n) := ClaimAll(u, nows[1..]); (v, n)
      case Accepted(v, _) => var (w, n) := ClaimAll(v, nows[1..]); (w, n + 1)
  }

  /** Counter consistency: claims on N successive distinct days are all
      accepted, add N to the count and leave the last day claimed as the
      last attendance. */
  lemma {:induction false} ClaimAllOnFreshDays(u: User, nows: seq<Instant>)
    requires u.role == Member && FreshDays(u, nows)
    ensures ClaimAll(u, nows).1 == |nows|
    ensures ClaimAll(u, nows).0.attendance == u.attendance + |nows|
    ensures ClaimAll(u, nows).0.role == Member && ClaimAll(u, nows).0.id == u.id
    ensures |nows| > 0 ==> ClaimAll(u, nows).0.lastAttendance == Some(UtcDay(nows[|nows| - 1]))
    ensures |nows| == 0 ==> ClaimAll(u, nows).0 == u
    decreases |nows|
  {
    if nows != [] {
      var v := Claim(Some(u), "", nows[0], nows[0]).user;
      assert FreshDays(v, nows[1..]) by {
        forall i | 0 < i < |nows[1..]| ensures UtcDay(nows[1..][i - 1]) != UtcDay(nows[1..][i]) {
          assert nows[1..][i - 1] == nows[i] && nows[1..][i] == nows[i + 1];
        }
      }
      ClaimAllOnFreshDays(v, nows[1..]);
    }
  }

  /** Some record of the ledger is by this user on this UTC day. */
  predicate ClaimedOnDay(ledger: seq<Record>, userId: string, day: Day)
  {
    exists i :: 0 <= i < |ledger| && ledger[i].userId == userId && UtcDay(ledger[i].timestamp) == day
  }

  /** At most one record per user per UTC day. */
  ghost predicate OncePerDay(ledger: seq<Record>)
  {
    forall i, j :: 0 <= i < j < |ledger| ==>
      !(ledger[i].userId == ledger[j].userId && UtcDay(ledger[i].timestamp) == UtcDay(ledger[j].timestamp))
  }

  /** The claim rule with one clock reading `now` serving as both the day
      checked and the timestamp, and with the ledger consulted as well as
      the user's own last-attendance day. */
  function ClaimChecked(u: Option<User>, ledger: seq<Record>, sessionId: string, now: Instant): (c: ClaimOutcome)
    ensures c.Accepted? <==>
      Claim(u, sessionId, now, now).Accepted? && !ClaimedOnDay(ledger, u.value.id, UtcDay(now))
    ensures c.Accepted? ==> c == Claim(u, sessionId, now, now)
  {
    var c := Claim(u, sessionId, now, now);
    if c.Rejected? then Rejected
    else if ClaimedOnDay(ledger, u.value.id, UtcDay(now)) then Rejected
    else c
  }

  /** The ledger-checked claim keeps the once-per-day property of the
      ledger, whoever the session user is and however it was loaded. */
  lemma CheckedClaimKeepsOncePerDay(u: Option<User>, ledger: seq<Record>, sessionId: string, now: Instant)
    requires OncePerDay(ledger)
    requires ClaimChecked(u, ledger, sessionId, now).Accepted?
    ensures OncePerDay(ledger + [ClaimChecked(u, ledger, sessionId, now).record])
  {
  }

  class AuthProvider {
    /** The session user (`null` as `None`). */
    var user: Option<User>
    var isAuthenticated: bool
    /** The persisted copy of the session user (the `currentUser` key). */
    var storedUser: Option<User>
    /** The persisted attendance ledger (the `attendanceRecords` key). */
    var ledger: seq<Record>

    /** The session is authenticated exactly when there is a user, and the
        persisted copy is the session user. */
    ghost predicate Valid()
      reads this
    {
      isAuthenticated == user.Some? && storedUser == user
    }

    /** Mounting the provider restores the persisted user, if any, as the
        authenticated session; the ledger is whatever was persisted. */
    constructor (stored: Option<User>, records: seq<Record>)
      ensures Valid()
      ensures user == stored && isAuthenticated == stored.Some? && storedUser == stored && ledger == records
    {
      user := stored;
      isAuthenticated := stored.Some?;
      storedUser := stored;
      ledger := records;
    }

    /** Succeeds exactly when the username is in the table with the claimed
        role; the password is not consulted. On failure nothing changes. */
    method Login(username: string, password: string, role: Role) returns (ok: bool)
      requires Valid()
      modifies this
      ensures Valid()
      ensures ok == FindUser(username, role).Some?
      ensures ok ==> user == Some(MockUsers[username]) && isAuthenticated && storedUser == user
      ensures !ok ==> user == old(user) && isAuthenticated == old(isAuthenticated) && storedUser == old(storedUser)
      ensures ledger == old(ledger)
    {
      var found := FindUser(username, role);
      if found.Some? {
        user := found;
        isAuthenticated := true;
        storedUser := found;
        return true;
      }
      return false;
    }

    /** Ends the session and removes the persisted user; the ledger stays. */
    method Logout()
      requires Valid()
      modifies this
      ensures Valid()
      ensures user == None && !isAuthenticated && storedUser == None
      ensures ledger == old(ledger)
    {
      user := None;
      isAuthenticated := false;
      storedUser := None;
    }

    /** The claim rule as the source writes it: members only, once per UTC
        day as judged by the session user's last-attendance day. An accepted
        claim updates and persists the user and appends one record. The two
        clock readings are `checkedAt` (the day) and `stampedAt` (the
        record's timestamp). */
    method MarkAttendance(sessionId: string, checkedAt: Instant, stampedAt: Instant) returns (ok: bool)
      requires Valid()
      modifies this
      ensures Valid()
      ensures ok == Claim(old(user), sessionId, checkedAt, stampedAt).Accepted?
      ensures ok ==> user == Some(Claim(old(user), sessionId, checkedAt, stampedAt).user)
                     && ledger == old(ledger) + [Claim(old(user), sessionId, checkedAt, stampedAt).record]
      ensures !ok ==> user == old(user) && ledger == old(ledger)
      ensures isAuthenticated == old(isAuthenticated)
    {
      if user.None? || user.value.role != Member {
        return false;
      }
      var today := UtcDay(checkedAt);
      if user.value.lastAttendance == Some(today) {
        return false;
      }
      var u := user.value;
      var updated := u.(attendance := u.attendance + 1, lastAttendance := Some(today));
      user := Some(updated);
      storedUser := Some(updated);
      ledger := ledger + [Record(u.id, u.username, u.name, stampedAt, sessionId)];
      return true;
    }

    /** The claim rule with a single clock reading and the ledger consulted
        too, so that neither a user reloaded from the table by a fresh login
        nor a claim straddling midnight can add a second record for a day
        the ledger already holds. */
    method MarkAttendanceOncePerDay(sessionId: string, now: Instant) returns (ok: bool)
      requires Valid()
      modifies this
      ensures Valid()
      ensures ok == ClaimChecked(old(user), old(ledger), sessionId, now).Accepted?
      ensures ok ==> user == Some(Claim(old(user), sessionId, now, now).user)
                     && ledger == old(ledger) + [Claim(old(user), sessionId, now, now).record]
      ensures !ok ==> user == old(user) && ledger == old(ledger)
      ensures isAuthenticated == old(isAuthenticated)
      ensures OncePerDay(old(ledger)) ==> OncePerDay(ledger)
    {
      var c := ClaimChecked(user, ledger, sessionId, now);
      if c.Rejected? {
        return false;
      }
      if OncePerDay(ledger) {
        CheckedClaimKeepsOncePerDay(user, ledger, sessionId, now);
      }
      user := Some(c.user);
      storedUser := Some(c.user);
      ledger := ledger + [c.record];
      return true;
    }
  }

  /** Within one session, two claims whose day checks fall on the same UTC
      day: the second is refused, and the ledger grows by at most one
      record. */
  method ClaimTwiceSameDay(a: AuthProvider, s1: string, s2: string,
                           checked1: Instant, stamped1: Instant, checked2: Instant, stamped2: Instant)
      returns (first: bool, second: bool)
    requires a.Valid() && UtcDay(checked1) == UtcDay(checked2)
    modifies a
    ensures a.Valid()
    ensures !second
    ensures |a.ledger| == |old(a.ledger)| + (if first then 1 else 0)
  {
    first := a.MarkAttendance(s1, checked1, stamped1);
    if first {
      ClaimTwiceSameDayRejected(old(a.user), s1, s2, checked1, stamped1, checked2, stamped2);
    }
    second := a.MarkAttendance(s2, checked2, stamped2);
  }

  /** The claim rule as written does not keep the ledger once per day:
      member1 claims, logs out, logs in again (which reloads the table
      record with its old last-attendance day) and claims again the same
      day. Both claims are accepted and the ledger holds two records by the
      same user on the same day. */
  method ReloginClaimsTwice() returns (first: bool, second: bool, records: seq<Record>)
    ensures first && second
    ensures |records| == 2 && records[0].userId == records[1].userId == "2"
    ensures UtcDay(records[0].timestamp) == UtcDay(records[1].timestamp)
    ensures !OncePerDay(records)
  {
    var now := 20740 * MsPerDay;  // 2026-10-14, 00:00 UTC
    var a := new AuthProvider(None, []);
    var in1 := a.Login("member1", "", Member);
    first := a.MarkAttendance("session_a", now, now);
    a.Logout();
    var in2 := a.Login("member1", "", Member);
    second := a.MarkAttendance("session_b", now + 1000, now + 1000);
    records := a.ledger;
  }

  /** Nor within one session: a claim whose first clock reading is the last
      millisecond of 2026-10-13 and whose second is the first millisecond of
      2026-10-14 stores 2026-10-13 as the last attendance but stamps its
      record 2026-10-14, so a second claim later on 2026-10-14 is accepted
      and the ledger holds two records by the same user on that day. */
  method MidnightClaimsTwice() returns (first: bool, second: bool, records: seq<Record>)
    ensures first && second
    ensures |records| == 2 && records[0].userId == records[1].userId == "2"
    ensures UtcDay(records[0].timestamp) == UtcDay(records[1].timestamp) == 20740
    ensures !OncePerDay(records)
  {
    var midnight := 20740 * MsPerDay;  // 2026-10-14, 00:00 UTC
    var a := new AuthProvider(None, []);
    var in1 := a.Login("member1", "", Member);
    first := a.MarkAttendance("session_a", midnight - 1, midnight);
    second := a.MarkAttendance("session_b", midnight + 1000, midnight + 1000);
    records := a.ledger;
  }

  /** The ledger-checked rule refuses the second claim after a fresh login. */
  method ReloginClaimsOnceChecked() returns (first: bool, second: bool, records: seq<Record>)
    ensures first && !second
    ensures |records| == 1 && OncePerDay(records)
  {
    var now := 20740 * MsPerDay;
    var a := new AuthProvider(None, []);
    var in1 := a.Login("member1", "", Member);
    first := a.MarkAttendanceOncePerDay("session_a", now);
    a.Logout();
    var in2 := a.Login("member1", "", Member);
    assert a.ledger[0].userId == "2" && UtcDay(a.ledger[0].timestamp) == UtcDay(now + 1000);
    second := a.MarkAttendanceOncePerDay("session_b", now + 1000);
    records := a.ledger;
  }

  /** With one clock reading, a claim in the last millisecond of 2026-10-13
      counts for that day, so a claim later on 2026-10-14 is a different
      day's claim and the ledger stays once per day. */
  method MidnightClaimsOnceChecked() returns (first: bool, second: bool, records: seq<Record>)
    ensures first && second
    ensures |records| == 2 && OncePerDay(records)
    ensures UtcDay(records[0].timestamp) == 20739 && UtcDay(records[1].timestamp) == 20740
  {
    var midnight := 20740 * MsPerDay;
    var a := new AuthProvider(None, []);
    var in1 := a.Login("member1", "", Member);
    first := a.MarkAttendanceOncePerDay("session_a", midnight - 1);
    assert !ClaimedOnDay(a.ledger, "2", UtcDay(midnight + 1000));
    second := a.MarkAttendanceOncePerDay("session_b", midnight + 1000);
    records := a.ledger;
  }

  /** The login scenarios of the fixed table: member1 as a member yields the
      record with 15 attendances; member1 as an admin, or an unknown name,
      fails. */
  lemma LoginScenarios()
    ensures FindUser("member1", Member) == Some(Member1) && Member1.attendance == 15
    ensures FindUser("member1", Admin) == None
    ensures FindUser("admin1", Admin) == Some(Admin1)
    ensures FindUser("nobody", Member) == None
  {
  }
}
