/** The admin dashboard: the rotating attendance token with its one-second
    countdown, the `m:ss` rendering of the countdown, and the list of
    today's ledger records. */
module AdminDashboard {
  import opened Wrappers
  import opened Seqs
  import opened Text
  import Auth

  /** Seconds a token is displayed before it is replaced. */
  const Window: int := 60

  /** Most records listed by name under "Today's Attendance". */
  const ListedMax: nat := 5

  /** The session id built from `Date.now()` and the random base-36 part,
      both supplied by the caller. */
  function Token(now: nat, rand: string): (s: string)
    ensures |s| == 9 + |NatToString(now)| + |rand| && s[..8] == "session_"
    ensures s[8..|s| - |rand| - 1] == NatToString(now) && s[|s| - |rand| - 1] == '_'
    ensures s[|s| - |rand|..] == rand
  {
    var s := "session_" + NatToString(now) + "_" + rand;
    assert s[8..|s| - |rand| - 1] == NatToString(now);
    s
  }

  /** The countdown value a tick leaves: one less, or a full window once it
      has reached 1 or below. */
  function AfterTick(t: int): int
  {
    if t <= 1 then Window else t - 1
  }

  /** Whether that tick also issues a new token. */
  predicate TickRegenerates(t: int)
  {
    t <= 1
  }

  /** A tick keeps the countdown in 1..60 and regenerates exactly when it
      wraps round to a full window from 1. */
  lemma TickInWindow(t: int)
    requires 1 <= t <= Window
    ensures 1 <= AfterTick(t) <= Window
    ensures TickRegenerates(t) <==> t == 1
    ensures !TickRegenerates(t) ==> AfterTick(t) == t - 1
  {
  }

  /** `n` ticks from countdown `t` with no manual regeneration: the final
      countdown and the number of regenerations. */
  function Run(t: int, n: nat): (int, nat)
  {
    if n == 0 then (t, 0)
    else
      var (u, g) := Run(t, n - 1);
      (AfterTick(u), g + if TickRegenerates(u) then 1 else 0)
  }

  /** Fewer ticks than the countdown shows count it down without any
      regeneration. */
  lemma {:induction false} RunCountsDown(t: int, n: nat)
    requires n < t
    ensures Run(t, n) == (t - n, 0)
  {
    if n > 0 {
      RunCountsDown(t, n - 1);
    }
  }

  /** From a full window, `n` ticks leave `60 - n % 60` seconds and have
      regenerated `n / 60` times. */
  lemma {:induction false} RunFromFullWindow(n: nat)
    ensures Run(Window, n) == (Window - n % Window, n / Window)
  {
    if n > 0 {
      RunFromFullWindow(n - 1);
      var m := n - 1;
      if m % Window == Window - 1 {
        assert n % Window == 0 && n / Window == m / Window + 1;
      } else {
        assert n % Window == m % Window + 1 && n / Window == m / Window;
      }
    }
  }

  /** The rotation boundary: 59 ticks from a full window regenerate nothing
      and leave 1 second; the 60th regenerates once and refills the
      window. */
  lemma RotationBoundary()
    ensures Run(Window, 59) == (1, 0)
    ensures Run(Window, 60) == (Window, 1)
  {
    RunCountsDown(Window, 59);
  }

  /** What can happen to the countdown: a timer tick or a press of
      Regenerate. */
  datatype Event = TimerTick | ManualRegenerate

  function Replay(t: int, events: seq<Event>): int
    decreases |events|
  {
    if events == [] then t
    else Replay(if events[0] == TimerTick then AfterTick(t) else Window, events[1..])
  }

  /** Whatever the interleaving of ticks and manual regenerations, a
      countdown that starts in 1..60 stays there. */
  lemma {:induction false} ReplayStaysInWindow(t: int, events: seq<Event>)
    requires 1 <= t <= Window
    ensures 1 <= Replay(t, events) <= Window
    decreases |events|
  {
    if events != [] {
      ReplayStaysInWindow(if events[0] == TimerTick then AfterTick(t) else Window, events[1..]);
    }
  }

  /** The token display: the session id, the value encoded in the QR code,
      and the seconds left before the next rotation. */
  class QrRotation {
    var qrData: string
    var sessionId: string
    var timeRemaining: int
    /** How many tokens this display has issued. */
    ghost var regenerations: nat

    ghost predicate Valid()
      reads this
    {
      1 <= timeRemaining <= Window && qrData == sessionId && |sessionId| > 8 && sessionId[..8] == "session_"
    }

    /** Mounting the dashboard issues the first token. */
    constructor (now: nat, rand: string)
      ensures Valid()
      ensures sessionId == Token(now, rand) && qrData == sessionId && timeRemaining == Window
      ensures regenerations == 1
    {
      sessionId := Token(now, rand);
      qrData := Token(now, rand);
      timeRemaining := Window;
      regenerations := 1;
    }

    /** Issues a new token and restarts the countdown; also what the
        Regenerate button does. */
    method GenerateNewQR(now: nat, rand: string)
      modifies this
      ensures Valid()
      ensures sessionId == Token(now, rand) && qrData == sessionId && timeRemaining == Window
      ensures regenerations == old(regenerations) + 1
    {
      var id := Token(now, rand);
      sessionId := id;
      qrData := id;
      timeRemaining := Window;
      regenerations := regenerations + 1;
    }

    /** One firing of the one-second interval, given the clock and random
        part a regeneration would use. */
    method Tick(now: nat, rand: string)
      requires Valid()
      modifies this
      ensures Valid()
      ensures (timeRemaining, regenerations) ==
        (AfterTick(old(timeRemaining)), old(regenerations) + if TickRegenerates(old(timeRemaining)) then 1 else 0)
      ensures TickRegenerates(old(timeRemaining)) ==> sessionId == Token(now, rand) && qrData == sessionId
      ensures !TickRegenerates(old(timeRemaining)) ==>
        sessionId == old(sessionId) && qrData == old(qrData) && timeRemaining == old(timeRemaining) - 1
    {
      if timeRemaining <= 1 {
        GenerateNewQR(now, rand);
        timeRemaining := Window;
      } else {
        timeRemaining := timeRemaining - 1;
      }
    }
  }

  /** `formatTime`: minutes, a colon, and the seconds padded to two digits. */
  function FormatTime(seconds: nat): (r: string)
    ensures |r| >= 4 && r[|r| - 3] == ':'
    ensures AllDigits(r[..|r| - 3]) && AllDigits(r[|r| - 2..])
    ensures DigitsValue(r[|r| - 2..]) < 60
    ensures DigitsValue(r[..|r| - 3]) * 60 + DigitsValue(r[|r| - 2..]) == seconds
    ensures |r| > 4 ==> r[0] != '0'
  {
    var mins := NatToString(seconds / 60);
    var secs := Pad2(seconds % 60);
    NatToStringValue(seconds / 60);
    var r := mins + ":" + secs;
    assert r[..|r| - 3] == mins && r[|r| - 2..] == secs && r[0] == mins[0];
    r
  }

  lemma FormatTimeExamples()
    ensures FormatTime(60) == "1:00"
    ensures FormatTime(59) == "0:59"
    ensures FormatTime(1) == "0:01"
  {
  }

  /** The ledger records whose timestamp falls on the same local calendar
      day as `now`; `localDay` is the time-zone-dependent day of an
      instant, kept separate from the UTC day the claim rule uses. */
  function TodayRecords(ledger: seq<Auth.Record>, localDay: Auth.Instant -> Auth.Day, now: Auth.Instant)
    : (r: seq<Auth.Record>)
    ensures IsSubsequence(r, ledger)
    ensures |r| == Count(ledger, (rec: Auth.Record) => localDay(rec.timestamp) == localDay(now))
    ensures forall rec :: rec in r <==> rec in ledger && localDay(rec.timestamp) == localDay(now)
  {
    Filter(ledger, (rec: Auth.Record) => localDay(rec.timestamp) == localDay(now))
  }

  /** A newly appended record joins the end of today's list exactly when it
      is from today; the earlier entries stay as they were. */
  lemma TodayRecordsAppend(ledger: seq<Auth.Record>, rec: Auth.Record, localDay: Auth.Instant -> Auth.Day, now: Auth.Instant)
    ensures TodayRecords(ledger + [rec], localDay, now) ==
      TodayRecords(ledger, localDay, now) + (if localDay(rec.timestamp) == localDay(now) then [rec] else [])
  {
    FilterSnoc(ledger, rec, (r: Auth.Record) => localDay(r.timestamp) == localDay(now));
  }

  /** What the "Today's Attendance" card shows. */
  datatype TodayPanel = NoRecordsYet | Listed(shown: seq<Auth.Record>, more: Option<nat>)

  /** The first five records by name, then "+n more" for the rest. */
  function TodayPanelView(records: seq<Auth.Record>): (p: TodayPanel)
    ensures p.NoRecordsYet? <==> records == []
    ensures p.Listed? ==> |p.shown| <= ListedMax && p.shown <= records
    ensures p.Listed? ==> (p.more.Some? <==> |records| > ListedMax)
    ensures p.Listed? ==> |p.shown| + (if p.more.Some? then p.more.value else 0) == |records|
    ensures p.Listed? ==> |p.shown| == (if |records| <= ListedMax then |records| else ListedMax)
    ensures p.Listed? && p.more.Some? ==> p.more.value == |records| - ListedMax
  {
    if records == [] then NoRecordsYet
    else if |records| <= ListedMax then Listed(records, None)
    else Listed(records[..ListedMax], Some(|records| - ListedMax))
  }
}
