# Club portal attendance core, modelled in Dafny

This project models the attendance logic of the club membership portal.
Admins display a QR code that rotates every minute. Members scan it and confirm
the scan, which is meant to claim attendance at most once per calendar day;
"## Findings" shows two ways the code lets a second same-day record in. Each
accepted claim is appended to a ledger that the admin dashboard lists by day. Around that
lifecycle sit three small decision procedures: login against a fixed user table,
the admin's member search, and role-gated routing between views.

Modules, one per source file, with three helper modules:

- `Auth` (`auth.dfy`): the authentication context. Class `AuthProvider` holds the
  session user, the authenticated flag, the persisted user and the ledger. Its
  methods are login, logout and the claim rule. The claim rule is also a pure
  function `Claim`, and the lemmas about the rule are stated on it.
- `AdminDashboard` (`admin_dashboard.dfy`): class `QrRotation` holds the token and
  its one-second countdown. There are pure models of the countdown (`AfterTick`,
  `Run`, `Replay`), plus `FormatTime`, `TodayRecords` and the "first five / +n
  more" panel.
- `MemberAttendance` (`member_attendance.dfy`): class `AttendanceScreen` is the
  scan-then-confirm state machine. It also has the camera-error classification
  and the attendance rate.
- `AdminMembers` (`admin_members.dfy`): the search/status filter and the
  total/active/average figures, all pure.
- `App` (`app.dfy`): `RenderContent`, the login gate and role/page dispatch, and
  class `AppContent` with its page setters.
- `Wrappers` (`Option`), `Seqs` (order-preserving `Filter`, `Count`,
  `IsSubsequence`) and `Text` (`NatToString` with its decimal reading
  `DigitsValue`, `Pad2`, ASCII `Lower`, `Includes`, `RoundDiv`) are helpers.

How the environment is represented:

- Time is an `Instant`: milliseconds since the epoch, passed in as a parameter.
- The claim rule's "today" is the UTC day `UtcDay(t) = t / 86400000`, where the
  source takes the ISO date prefix of an instant; two such date strings are equal
  exactly when these day numbers are. The claim reads the clock twice. The first
  reading (`checkedAt`) gives the day that is compared and stored. The second
  (`stampedAt`) becomes the record's timestamp. The two may fall on different
  days. Dates in the fixed table are day
  numbers: 2025-11-05 is 20397 and 2025-11-04 is 20396.
- The dashboard's local-time day is a separate function parameter, `localDay`.
- The random part of a session id is a string parameter.
- The browser store is two typed fields: the persisted user, an `Option<User>`,
  and the ledger, a `seq<Record>`.

Behaviour of the code that the model keeps:

- The claim rule accepts any session id, empty included. That string is never
  compared with the active token.
- The claim rule accepts an empty session id. The scan callback drops a falsy
  payload (`null` or `""`), and the confirm button refuses an absent or empty
  `scannedData`.
- The countdown regenerates when it is at 1 or below, so it shows 60..1 and
  never 0.
- The scan guard `isProcessing` is set and cleared inside one callback. It is
  therefore never set when the next decode arrives, and a second decode replaces
  the first (`TwoScansInARow`).
- Token values are not proved distinct, and the code does not ensure that they
  are.

## Model

| member | source | states |
|---|---|---|
| `Auth.UtcDay` | src/contexts/AuthContext.tsx:97 | the day returned is the one whose 86400000 ms span contains the instant |
| `Auth.FindUser` | src/contexts/AuthContext.tsx:75-77 | login finds a user iff the username is a key of the fixed table and that record's role is the claimed role; the user found is that record |
| `Auth.LoginScenarios` | src/contexts/AuthContext.tsx:25-54 | member1 as member yields the record with 15 attendances; member1 as admin and an unknown name fail; admin1 as admin succeeds |
| `Auth.Claim` | src/contexts/AuthContext.tsx:93-102 | a claim is accepted iff there is a session user, it is a member, and its last attendance is not the UTC day of the first clock reading |
| `Auth.ClaimEffect` | src/contexts/AuthContext.tsx:104-121 | an accepted claim adds exactly 1 to attendance, sets last attendance to the day of the first clock reading and keeps id, username, role, name, email and badges; the record carries the user's id, username and name, the second clock reading and the presented session id |
| `Auth.ClaimTwiceSameDayRejected` | src/contexts/AuthContext.tsx:99-111 | after an accepted claim, a claim by the updated user whose day check falls on the same UTC day is rejected with any session id |
| `Auth.ClaimIgnoresSessionId` | src/contexts/AuthContext.tsx:96 | the decision and the new user do not depend on the session id; the record differs only in the session id it copies |
| `Auth.ClaimRecordIsToday` | src/contexts/AuthContext.tsx:97-119 | the new last-attendance day is the first reading's UTC day and the record's timestamp is the second reading; the record's day equals the new last-attendance day iff both readings fall on the same UTC day |
| `Auth.ClaimAllOnFreshDays` | src/contexts/AuthContext.tsx:104-108 | claims by a member on N successive distinct days are all accepted, add N to attendance, and leave the last claimed day as last attendance |
| `Auth.AuthProvider.constructor` | src/contexts/AuthContext.tsx:60-68 | mounting restores the persisted user as the session, authenticated iff there is one; the ledger is the persisted one |
| `Auth.AuthProvider.Login` | src/contexts/AuthContext.tsx:70-85 | succeeds iff `FindUser` finds the user (the password is unused); on success the session user and the persisted user are the table record and the session is authenticated; on failure nothing changes; the ledger never changes |
| `Auth.AuthProvider.Logout` | src/contexts/AuthContext.tsx:87-91 | user none, not authenticated, persisted user removed, ledger unchanged |
| `Auth.AuthProvider.MarkAttendance` | src/contexts/AuthContext.tsx:93-125 | given both clock readings, returns whether `Claim` accepts; if it does, the session and persisted user become the claimed user and exactly that record is appended after the old ledger; otherwise user and ledger are unchanged |
| `Auth.ClaimTwiceSameDay` | src/contexts/AuthContext.tsx:99-111 | two claims in one session whose day checks fall on the same UTC day: the second returns false and the ledger grows by at most one record |
| `Auth.ReloginClaimsTwice` | src/contexts/AuthContext.tsx:75-111 | claim, logout, login and claim again on one day: both claims are accepted and the ledger holds two records by user "2" on the same day, so once-per-day fails |
| `Auth.MidnightClaimsTwice` | src/contexts/AuthContext.tsx:97-119 | in one session, a claim whose readings straddle midnight (last ms of 2026-10-13, first ms of 2026-10-14) and a later claim on 2026-10-14 are both accepted, and both records fall on 2026-10-14, so once-per-day fails |
| `Auth.ClaimChecked` | src/contexts/AuthContext.tsx:99-102 | corrected rule, one clock reading for both the day and the timestamp: accepted iff `Claim` accepts and the ledger holds no record by this user on that UTC day; the outcome is then `Claim`'s |
| `Auth.CheckedClaimKeepsOncePerDay` | src/contexts/AuthContext.tsx:99-122 | under the corrected rule, appending the accepted record to a ledger with at most one record per user per day keeps that property |
| `Auth.AuthProvider.MarkAttendanceOncePerDay` | src/contexts/AuthContext.tsx:93-125 | the claim with the corrected rule: same state change as `MarkAttendance` when accepted, and it preserves at most one record per user per day |
| `Auth.ReloginClaimsOnceChecked` | src/contexts/AuthContext.tsx:99-111 | the relogin trace under the corrected rule: the second claim is refused and the ledger keeps one record |
| `Auth.MidnightClaimsOnceChecked` | src/contexts/AuthContext.tsx:97-119 | the midnight trace under the corrected rule: the first claim counts for 2026-10-13, the second for 2026-10-14, and the ledger stays once per day |
| `AdminDashboard.Token` | src/components/AdminDashboard.tsx:50 | the session id is `session_`, then the decimal clock value, then `_`, then the random part |
| `AdminDashboard.TickInWindow` | src/components/AdminDashboard.tsx:36-44 | from 1..60 a tick stays in 1..60; it regenerates iff the countdown is 1, and otherwise it decrements by exactly 1 |
| `AdminDashboard.RunCountsDown` | src/components/AdminDashboard.tsx:36-44 | fewer ticks than the countdown shows count it down by that many with no regeneration |
| `AdminDashboard.RunFromFullWindow` | src/components/AdminDashboard.tsx:36-44 | n ticks from 60 leave 60 - n mod 60 and regenerate n div 60 times |
| `AdminDashboard.RotationBoundary` | src/components/AdminDashboard.tsx:36-44 | 59 ticks from 60 regenerate nothing and leave 1; 60 ticks regenerate exactly once and leave 60 |
| `AdminDashboard.ReplayStaysInWindow` | src/components/AdminDashboard.tsx:36-53 | any interleaving of ticks and manual regenerations keeps the countdown in 1..60 |
| `AdminDashboard.QrRotation.constructor` | src/components/AdminDashboard.tsx:29-32 | mounting issues one token: session id and QR data equal `Token(now, rand)`, countdown 60 |
| `AdminDashboard.QrRotation.GenerateNewQR` | src/components/AdminDashboard.tsx:49-55 | session id and QR data both become the token `Token(now, rand)`, which begins `session_`; the countdown is 60; one more regeneration |
| `AdminDashboard.QrRotation.Tick` | src/components/AdminDashboard.tsx:36-44 | the new countdown is `AfterTick` of the old; at 1 or below a new token is issued, above 1 the token is unchanged and the countdown drops by 1 |
| `AdminDashboard.FormatTime` | src/components/AdminDashboard.tsx:86-90 | the result is digits, `:`, then two digits; minutes * 60 + seconds is the input, the seconds are below 60, and minutes of more than one digit have no leading zero |
| `AdminDashboard.FormatTimeExamples` | src/components/AdminDashboard.tsx:86-90 | 60 gives "1:00", 59 gives "0:59", 1 gives "0:01" |
| `AdminDashboard.TodayRecords` | src/components/AdminDashboard.tsx:98-103 | an order-preserving subsequence of the ledger holding exactly the records on today's local day, as many as there are such records |
| `AdminDashboard.TodayRecordsAppend` | src/components/AdminDashboard.tsx:98-103 | a newly appended record joins the end of today's list iff it is from today; the earlier list is untouched |
| `AdminDashboard.TodayPanelView` | src/components/AdminDashboard.tsx:287-325 | "no records" iff the list is empty; otherwise the first min(count, 5) records are listed, "+n more" appears iff there are over 5, with n = count - 5 |
| `MemberAttendance.CameraFailureMessage` | src/components/MemberAttendance.tsx:40-50 | denied message iff `NotAllowedError`, no-camera message iff `NotFoundError`, generic message otherwise |
| `MemberAttendance.AttendanceRate` | src/components/MemberAttendance.tsx:68 | the rounded percentage of 20 sessions is 5 times the attendance |
| `MemberAttendance.AttendanceScreen.constructor` | src/components/MemberAttendance.tsx:15-17 | scanner closed, no payload, not processing |
| `MemberAttendance.AttendanceScreen.OpenScanner` | src/components/MemberAttendance.tsx:181 | the scanner is shown |
| `MemberAttendance.AttendanceScreen.HandleScan` | src/components/MemberAttendance.tsx:30-38 | a truthy payload while not processing becomes the pending string (or its `text`), closes the scanner and leaves processing false; otherwise nothing changes; the session is never touched |
| `MemberAttendance.AttendanceScreen.HandleError` | src/components/MemberAttendance.tsx:40-50 | closes the scanner and reports the categorised message; payload and session unchanged |
| `MemberAttendance.AttendanceScreen.HandleMarkAttendance` | src/components/MemberAttendance.tsx:52-65 | no truthy payload: error, no claim, nothing changes; otherwise the claim runs with the payload and both clock readings; the payload is cleared iff it was accepted; the session and ledger change exactly as `MarkAttendance` says |
| `MemberAttendance.AttendanceScreen.Cancel` | src/components/MemberAttendance.tsx:216 | the scanner closes; session and ledger untouched |
| `MemberAttendance.AttendanceScreen.ScanAgain` | src/components/MemberAttendance.tsx:247 | the payload is cleared; session and ledger untouched |
| `MemberAttendance.TwoScansInARow` | src/components/MemberAttendance.tsx:30-38 | two decodes in a row are both taken; the later payload is pending |
| `MemberAttendance.ScanThenConfirm` | src/components/MemberAttendance.tsx:30-65 | scan then confirm succeeds iff the claim rule accepts the scanned text; on failure the payload is kept and the ledger is unchanged |
| `AdminMembers.StatusName` | src/components/AdminMembersPage.tsx:24 | a status is spelled `active` or `inactive`, `active` exactly for Active |
| `AdminMembers.FilteredMembers` | src/components/AdminMembersPage.tsx:86-96 | an order-preserving subsequence, as long as the number of matching members, holding exactly the members whose lowercased name, email or username includes the lowercased query and whose status passes the filter |
| `AdminMembers.EmptySearchListsAll` | src/components/AdminMembersPage.tsx:86-96 | an empty query with `all` lists every member, in order |
| `AdminMembers.StatusFilterIsSound` | src/components/AdminMembersPage.tsx:92-93 | with filter `active` or `inactive` every listed member has that status |
| `AdminMembers.ActiveMembers` | src/components/AdminMembersPage.tsx:99 | the active count is at most the total and equals the number of rows for an empty query with filter `active` |
| `AdminMembers.AvgAttendance` | src/components/AdminMembersPage.tsx:100-102 | the result is the mean rounded to the nearest integer with halves up, as `Math.round` does (mean − 1/2 <= r < mean + 1/2, stated without division), and lies between the smallest and the largest attendance |
| `AdminMembers.MembersTable` | src/components/AdminMembersPage.tsx:239-243 | "no members found" iff the filtered list is empty; otherwise the rows are the filtered list and "Showing N of M" has 0 < N = rows <= M = total |
| `AdminMembers.MockCounts` | src/components/AdminMembersPage.tsx:98-99 | the fixed list has 5 members, 4 active |
| `AdminMembers.MockAverage` | src/components/AdminMembersPage.tsx:100-102 | the fixed list's attendance sums to 56 and averages to 11 |
| `AdminMembers.ShowsHighBadge` | src/components/AdminMembersPage.tsx:276 | the badge shows iff attendance >= 15 |
| `AdminMembers.HighBadgeMonotone` | src/components/AdminMembersPage.tsx:276 | a member with at least the attendance of one that shows the badge shows it too |
| `AdminMembers.MockHighBadges` | src/components/AdminMembersPage.tsx:276 | the "High" badge (attendance at least 15) shows on John Smith and Michael Chen only |
| `App.RenderContent` | src/App.tsx:18-44 | the login page iff not authenticated or no user; admin views only for an admin user; member views only for a member user |
| `App.AdminRouting` | src/App.tsx:23-33 | admin: `members` gives the members page, every other page the dashboard |
| `App.MemberRouting` | src/App.tsx:34-43 | member: `attendance` gives the attendance screen, every other page (`members` included) the member dashboard; never an admin view |
| `App.AppContent.constructor` | src/App.tsx:16 | the page starts at `home` |
| `App.AppContent.Navigate` | src/App.tsx:54 | the header sets the current page |
| `App.AppContent.NavigateToAttendance` | src/App.tsx:37 | the member dashboard's callback sets the page to `attendance` |
| `App.AppContent.SubmitLogin` | src/App.tsx:19 | a successful login returns to `home`, where the role's dashboard is shown, with the table record for the username as session user; a failed one changes neither page nor user; the ledger is never changed |

## Left out

- The 500 ms simulated latency of login is not modelled: login is synchronous.
- JSON serialisation of the store is not modelled. The persisted values are typed fields, so the store round-trip is the identity.
- `Date`, `Date.now()` and `Math.random` are not modelled: the clock readings, the local-day function and the random part of the session id are parameters.
- Time zones are not modelled: the claim rule's UTC day and the dashboard's local day stay separate.
- `setInterval` and `clearInterval` are not modelled: the timer is the explicit `Tick` method. Teardown is not modelled.
- The 'New QR code generated' toast is not modelled.
- `handleDownloadQR` is not modelled: it is canvas and DOM work.
- QR rendering, the camera library and the toast library are not modelled. Toasts are returned as `Toast` values.
- FormatTime: takes only non-negative seconds: the countdown is always in 1..60, so negative inputs never occur.
- TodayRecords: takes one reading of today's local day for the whole list; the per-record `new Date()` inside the filter callback, which could straddle local midnight during one render, is not modelled.
- Lower: maps only ASCII letters: full Unicode `toLowerCase` is not modelled.
- AttendanceRate and AvgAttendance: round the exact rational quotient: floating-point division is not modelled.
- AvgAttendance: requires a non-empty list: the member list is a fixed non-empty constant, and the `NaN` an empty list would give is not modelled.
- `progressPercentage`, the fixed dashboard figures (156, 42, 78, 1) and the mock attendance history are display-only values and are not modelled.
- RenderContent: takes a three-valued `Page`: the source's `default` branches for other strings are unreachable here, and its `'members'` case for members is covered by the member default.
- `LoginPage`, `Header`, `MemberDashboard`, `BulletinCard` and `StatsCard` are not part of this model: they are markup and animation.
- The `console.error` call in `handleError` is not modelled: it is logging only.
- The emoji at the end of the success toast is omitted from `MarkedMessage`.
- The "mark attendance" session id is not compared with the active token, as in the source.

## Findings

| source | as written | input that shows it | evidently intended | confidence | as-written member | corrected member |
|---|---|---|---|---|---|---|
| src/contexts/AuthContext.tsx:75-111 | the once-per-day check reads only the session user's `lastAttendance`, and `login` reloads that user from the fixed table | member1 logs in and claims today, logs out, logs in again (last attendance back to 2025-11-05) and claims again the same day: both are accepted and the ledger holds two records by user "2" for that day | at most one ledger record per user per day ("Prevent marking attendance twice on the same day") | not executed; proved from the model | `Auth.ReloginClaimsTwice` | `Auth.CheckedClaimKeepsOncePerDay` |
| src/contexts/AuthContext.tsx:97-119 | the day checked and stored comes from one `new Date()` and the record's timestamp from a second | a claim whose first reading is 2026-10-13T23:59:59.999Z and whose second is 2026-10-14T00:00:00.000Z stores 2026-10-13 but stamps 2026-10-14; a second claim later on 2026-10-14 is accepted, so the ledger holds two records by user "2" for that day | one instant for the day and the timestamp, so a record's day is the day it was counted for | not executed; proved from the model | `Auth.MidnightClaimsTwice` | `Auth.CheckedClaimKeepsOncePerDay` |

The corrected rule reads the clock once and consults the ledger as well as the user (`Auth.ClaimChecked`, `Auth.AuthProvider.MarkAttendanceOncePerDay`). The confirm button (`MemberAttendance.AttendanceScreen.HandleMarkAttendance`) calls `Auth.AuthProvider.MarkAttendance`, as the component does.
