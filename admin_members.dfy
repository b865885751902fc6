/** The admin's member table: a search box and a status select narrowing
    a fixed member list, with the total, active and average-attendance
    figures above it. */
module AdminMembers {
  import opened Seqs
  import opened Text

  datatype Status = Active | Inactive

  datatype Member = Member(
    id: string,
    name: string,
    email: string,
    username: string,
    attendance: nat,
    lastSession: string,
    status: Status,
    badges: seq<string>)

  /** The status as the select's option values spell it. */
  function StatusName(s: Status): (n: string)
    ensures n == "active" || n == "inactive"
    ensures n == "active" <==> s == Active
  {
    match s
    case Active => "active"
    case Inactive => "inactive"
  }

  /** Attendance at which a member row carries the "High" badge. */
  const HighThreshold: nat := 15

  const MockMembers: seq<Member> := [
    Member("1", "John Smith", "john@example.com", "member1", 15, "2025-11-05", Active, ["Early Bird", "Regular Attendee"]),
    Member("2", "Sarah Johnson", "sarah@example.com", "member2", 12, "2025-11-04", Active, ["Team Player"]),
    Member("3", "Michael Chen", "michael@example.com", "member3", 18, "2025-11-05", Active, ["Perfect Attendance", "Star Member"]),
    Member("4", "Emily Davis", "emily@example.com", "member4", 8, "2025-10-28", Active, []),
    Member("5", "David Wilson", "david@example.com", "member5", 3, "2025-10-15", Inactive, [])
  ]

  /** The search box: the lowercased query occurs in the lowercased name,
      email or username. */
  predicate MatchesSearch(m: Member, query: string)
  {
    || Includes(Lower(m.name), Lower(query))
    || Includes(Lower(m.email), Lower(query))
    || Includes(Lower(m.username), Lower(query))
  }

  /** The status select: `'all'` or the member's own status. */
  predicate MatchesFilter(m: Member, filterStatus: string)
  {
    filterStatus == "all" || StatusName(m.status) == filterStatus
  }

  /** The rows of the table, in list order. */
  function FilteredMembers(members: seq<Member>, query: string, filterStatus: string): (r: seq<Member>)
    ensures IsSubsequence(r, members) && |r| <= |members|
    ensures |r| == Count(members, (m: Member) => MatchesSearch(m, query) && MatchesFilter(m, filterStatus))
    ensures forall m :: m in r <==> m in members && MatchesSearch(m, query) && MatchesFilter(m, filterStatus)
  {
    Filter(members, (m: Member) => MatchesSearch(m, query) && MatchesFilter(m, filterStatus))
  }

  /** With no query and the `'all'` filter, every member is listed. */
  lemma EmptySearchListsAll(members: seq<Member>)
    ensures FilteredMembers(members, "", "all") == members
  {
    forall i | 0 <= i < |members|
      ensures MatchesSearch(members[i], "") && MatchesFilter(members[i], "all")
    {
      IncludesEmpty(Lower(members[i].name));
    }
    FilterKeepsAll(members, (m: Member) => MatchesSearch(m, "") && MatchesFilter(m, "all"));
  }

  /** Selecting a status lists only members with that status. */
  lemma StatusFilterIsSound(members: seq<Member>, query: string, status: Status)
    ensures forall m :: m in FilteredMembers(members, query, StatusName(status)) ==> m.status == status
  {
  }

  predicate IsActive(m: Member) { m.status == Active }

  /** The "Active Members" figure: it never exceeds the total, and it is the
      number of rows the `'active'` filter shows for an empty query. */
  function ActiveMembers(members: seq<Member>): (n: nat)
    ensures n <= |members|
    ensures n == |FilteredMembers(members, "", "active")|
  {
    var p := (m: Member) => MatchesSearch(m, "") && MatchesFilter(m, "active");
    forall i | 0 <= i < |members| ensures p(members[i]) == IsActive(members[i]) {
      IncludesEmpty(Lower(members[i].name));
    }
    FilterCongruent(members, p, IsActive);
    Count(members, IsActive)
  }

  function Sum(members: seq<Member>): nat
  {
    if members == [] then 0 else members[0].attendance + Sum(members[1..])
  }

  function MinAttendance(members: seq<Member>): nat
    requires members != []
  {
    if |members| == 1 then members[0].attendance
    else var m := MinAttendance(members[1..]); if members[0].attendance < m then members[0].attendance else m
  }

  function MaxAttendance(members: seq<Member>): nat
    requires members != []
  {
    if |members| == 1 then members[0].attendance
    else var m := MaxAttendance(members[1..]); if members[0].attendance > m then members[0].attendance else m
  }

  /** The total attendance is at least the count times the smallest
      attendance. */
  lemma {:induction false} SumAtLeast(members: seq<Member>)
    requires members != []
    ensures |members| * MinAttendance(members) <= Sum(members)
  {
    if |members| > 1 {
      var rest := members[1..];
      SumAtLeast(rest);
      StepBound(|rest|, MinAttendance(members), MinAttendance(rest), members[0].attendance, Sum(rest));
    }
  }

  /** The total attendance is at most the count times the largest
      attendance. */
  lemma {:induction false} SumAtMost(members: seq<Member>)
    requires members != []
    ensures Sum(members) <= |members| * MaxAttendance(members)
  {
    if |members| > 1 {
      var rest := members[1..];
      SumAtMost(rest);
      StepBoundUp(|rest|, MaxAttendance(members), MaxAttendance(rest), members[0].attendance, Sum(rest));
    }
  }

  /** If `k * m' <= s` and `m` is at most both `m'` and `a`, then
      `(k + 1) * m <= a + s`. */
  lemma StepBound(k: nat, m: int, m': int, a: int, s: int)
    requires m <= m' && m <= a && k * m' <= s
    ensures (k + 1) * m <= a + s
  {
    MulMonotone(k, m, m');
  }

  /** If `s <= k * m'` and `m` is at least both `m'` and `a`, then
      `a + s <= (k + 1) * m`. */
  lemma StepBoundUp(k: nat, m: int, m': int, a: int, s: int)
    requires m' <= m && a <= m && s <= k * m'
    ensures a + s <= (k + 1) * m
  {
    MulMonotone(k, m', m);
  }

  lemma MulMonotone(k: nat, a: int, b: int)
    requires a <= b
    ensures k * a <= k * b
  {
  }

  /** The "Avg. Attendance" figure: the mean rounded to the nearest integer
      (halves up), which lies between the smallest and the largest
      attendance. */
  function AvgAttendance(members: seq<Member>): (r: int)
    requires members != []
    ensures 2 * |members| * r - |members| <= 2 * Sum(members) < 2 * |members| * r + |members|
    ensures MinAttendance(members) <= r <= MaxAttendance(members)
  {
    var n, s := |members|, Sum(members);
    var r := RoundDiv(s, n);
    SumAtLeast(members);
    SumAtMost(members);
    RoundAtLeast(n, s, r, MinAttendance(members));
    RoundAtMost(n, s, r, MaxAttendance(members));
    r
  }

  /** A rounded quotient of a total of at least `n * lo` is at least `lo`. */
  lemma RoundAtLeast(n: int, s: int, r: int, lo: int)
    requires n > 0 && 2 * s < 2 * n * r + n && n * lo <= s
    ensures lo <= r
  {
    var x := 2 * r + 1 - 2 * lo;
    assert n * x == 2 * n * r + n - 2 * (n * lo);
    PositiveFactor(n, x);
  }

  /** A rounded quotient of a total of at most `n * hi` is at most `hi`. */
  lemma RoundAtMost(n: int, s: int, r: int, hi: int)
    requires n > 0 && 2 * n * r - n <= 2 * s && s <= n * hi
    ensures r <= hi
  {
    var x := 2 * hi + 1 - 2 * r;
    assert n * x == 2 * (n * hi) + n - 2 * n * r;
    PositiveFactor(n, x);
  }

  lemma PositiveFactor(n: int, x: int)
    requires n > 0 && n * x > 0
    ensures x > 0
  {
  }

  /** The attendance cell's "High" badge: shown from 15 attendances on. */
  predicate ShowsHighBadge(m: Member): (b: bool)
    ensures b <==> 15 <= m.attendance
  {
    m.attendance >= HighThreshold
  }

  /** Once earned, the badge is shown for every member with at least as
      many attendances. */
  lemma HighBadgeMonotone(m: Member, m': Member)
    requires ShowsHighBadge(m) && m.attendance <= m'.attendance
    ensures ShowsHighBadge(m')
  {
  }

  /** Below the search controls: either the "no members found" row, or the
      rows with a "Showing N of M members" line. */
  datatype TableView = NoMembersFound | Showing(rows: seq<Member>, shown: nat, total: nat)

  function MembersTable(members: seq<Member>, query: string, filterStatus: string): (v: TableView)
    ensures v.NoMembersFound? <==> FilteredMembers(members, query, filterStatus) == []
    ensures v.Showing? ==> v.rows == FilteredMembers(members, query, filterStatus)
    ensures v.Showing? ==> 0 < v.shown == |v.rows| <= v.total == |members|
  {
    var rows := FilteredMembers(members, query, filterStatus);
    if rows == [] then NoMembersFound else Showing(rows, |rows|, |members|)
  }

  /** The figures for the fixed list: five members, four of them active. */
  lemma MockCounts()
    ensures |MockMembers| == 5 && ActiveMembers(MockMembers) == 4
  {
    var s := MockMembers;
    assert s[4..][1..] == [] && Count(s[4..], IsActive) == 0;
    assert s[3..][1..] == s[4..] && Count(s[3..], IsActive) == 1;
    assert s[2..][1..] == s[3..] && Count(s[2..], IsActive) == 2;
    assert s[1..][1..] == s[2..] && Count(s[1..], IsActive) == 3;
    assert Count(s, IsActive) == 4;
  }

  /** The average for the fixed list: 56 / 5 rounds to 11. */
  lemma MockAverage()
    ensures Sum(MockMembers) == 56 && AvgAttendance(MockMembers) == 11
  {
  }

  /** The "High" badge appears on John Smith and Michael Chen only. */
  lemma MockHighBadges()
    ensures Filter(MockMembers, ShowsHighBadge) == [MockMembers[0], MockMembers[2]]
  {
  }
}
