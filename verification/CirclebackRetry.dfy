/** The bounded transcript retry: one persisted record per meeting without a transcript, its next
    attempt and its deadline. Times are nanoseconds, 0 for none; records keep whole seconds. */
module CirclebackRetry {
  import opened Options
  import opened Text

  const SECOND := 1_000_000_000
  const HOUR := 3600 * SECOND
  const CADENCE := 6 * HOUR
  const WINDOW := 7 * 24 * HOUR
  const UNKNOWN_SPAN := 48 * HOUR

  /** A timestamp's text: RFC 3339 to the second, or something that does not parse. */
  datatype Stamp = Good(seconds: nat) | Bad(text: string)

  function Format(t: nat): Stamp {
    Good(t / SECOND)
  }

  function Parse(s: Stamp): Option<nat> {
    if s.Good? then Some(s.seconds * SECOND) else None
  }

  /** A failed parse leaves the zero time. */
  function ParseOrZero(s: Stamp): nat {
    if s.Good? then s.seconds * SECOND else 0
  }

  datatype Pending = Pending(meetingId: string, next: Stamp, until: Stamp)

  /** What the scheduler reads of a meeting. */
  datatype Times = Times(scheduled: nat, ended: nat)

  function Deadline(m: Times, now: nat, previous: Option<Pending>): nat {
    var kept := if previous.Some? then ParseOrZero(previous.value.until) else 0;
    if m.scheduled == 0 then (if kept == 0 then now + UNKNOWN_SPAN else kept)
    else if m.scheduled + WINDOW > kept then m.scheduled + WINDOW
    else kept
  }

  function NextAttempt(m: Times, now: nat, previous: Option<Pending>): nat {
    if previous.None? && m.scheduled > now then (if m.ended != 0 then m.ended else m.scheduled + HOUR)
    else now + CADENCE
  }

  function Schedule(id: string, m: Times, now: nat, previous: Option<Pending>): Option<Pending> {
    var until := Deadline(m, now, previous);
    if until <= now then None
    else
      var next := NextAttempt(m, now, previous);
      Some(Pending(id, Format(if next > until then until else next), Format(until)))
  }

  /** The stamp parses and its time has come. */
  predicate Reached(s: Stamp, now: nat) {
    s.Good? && s.seconds * SECOND <= now
  }

  predicate Expired(p: Pending, now: nat) {
    Reached(p.until, now)
  }

  /** A stamp that does not parse is due at once. */
  predicate Due(p: Pending, now: nat) {
    p.until.Bad? || Reached(p.until, now) || p.next.Bad? || Reached(p.next, now)
  }

  // ---- One record ----

  predicate InOrder(p: Pending) {
    p.next.Good? && p.until.Good? && p.next.seconds <= p.until.seconds
  }

  lemma SecondsMonotone(a: nat, b: nat)
    requires a <= b
    ensures a / SECOND <= b / SECOND
  {
  }

  lemma FloorBounds(t: nat)
    ensures t - SECOND < t / SECOND * SECOND <= t
  {
  }

  /** Every record produced attempts no later than its deadline, carries the meeting's ID, and never
      moves a deadline it was given earlier. */
  lemma RecordsAreInOrder(id: string, m: Times, now: nat, previous: Option<Pending>)
    requires Schedule(id, m, now, previous).Some?
    ensures var p := Schedule(id, m, now, previous).value;
      && InOrder(p) && p.meetingId == id
      && (previous.Some? && previous.value.until.Good? ==> previous.value.until.seconds <= p.until.seconds)
  {
    var until := Deadline(m, now, previous);
    var next := NextAttempt(m, now, previous);
    SecondsMonotone(if next > until then until else next, until);
    if previous.Some? && previous.value.until.Good? {
      SecondsMonotone(ParseOrZero(previous.value.until), until);
    }
  }

  /** The scheduler gives up exactly when every deadline there is has come: the recorded one, and the
      schedule's week; a meeting with neither gets its first two days. */
  lemma GivesUpExactly(id: string, m: Times, now: nat, previous: Option<Pending>)
    ensures var kept := if previous.Some? then ParseOrZero(previous.value.until) else 0;
      Schedule(id, m, now, previous).None? <==> kept <= now && (if m.scheduled == 0 then kept > 0 else m.scheduled + WINDOW <= now)
  {
  }

  /** An expired record ends the retries - the meeting's state becomes terminal without another call -
      exactly when the schedule, to the nanosecond and as the provider now has it, has run out too. */
  lemma ExpiredEndsExactly(id: string, m: Times, now: nat, previous: Option<Pending>, m': Times, later: nat)
    requires Schedule(id, m, now, previous).Some? && now >= SECOND
    requires Expired(Schedule(id, m, now, previous).value, later)
    ensures Schedule(id, m', later, Schedule(id, m, now, previous)).None? <==> m'.scheduled == 0 || m'.scheduled + WINDOW <= later
  {
    FloorBounds(Deadline(m, now, previous));
  }

  /** A schedule of whole seconds that stays put runs out with its record. */
  lemma WholeSecondsEnd(id: string, m: Times, now: nat, previous: Option<Pending>, later: nat)
    requires Schedule(id, m, now, previous).Some? && now >= SECOND && m.scheduled % SECOND == 0
    requires Expired(Schedule(id, m, now, previous).value, later)
    ensures Schedule(id, m, later, Schedule(id, m, now, previous)).None?
  {
    ExpiredEndsExactly(id, m, now, previous, m, later);
    var until := Deadline(m, now, previous);
    if m.scheduled != 0 {
      SecondsMonotone(m.scheduled + WINDOW, until);
      assert (m.scheduled + WINDOW) / SECOND * SECOND == m.scheduled + WINDOW;
    }
  }

  /** Between the stored deadline and the real one of a fractional schedule an expired record is renewed. */
  lemma FractionRenews()
    ensures exists m: Times, now: nat, later: nat, p: Pending ::
      Schedule("a", m, now, None) == Some(p) && Expired(p, later) && Schedule("a", m, later, Some(p)).Some?
  {
    var m, now := Times(2 * SECOND + 1, 0), 2 * SECOND + 1;
    var later := 2 * SECOND + WINDOW;
    var p := Schedule("a", m, now, None).value;
    assert p.until == Good(2 + 7 * 24 * 3600);
    assert Expired(p, later) && Schedule("a", m, later, Some(p)).Some?;
  }

  // ---- A meeting's attempts under a fixed schedule ----

  /** Record k was produced at times[k]; for a later one the record before was due and not expired. */
  predicate RecordAt(id: string, m: Times, first: Option<Pending>, times: seq<nat>, records: seq<Pending>, k: nat)
    requires k < |times| && |times| == |records|
  {
    && Schedule(id, m, times[k], if k == 0 then first else Some(records[k - 1])) == Some(records[k])
    && (k > 0 ==> Due(records[k - 1], times[k]) && !Expired(records[k - 1], times[k]))
  }

  ghost predicate Attempted(id: string, m: Times, first: Option<Pending>, times: seq<nat>, records: seq<Pending>) {
    |times| == |records| && forall k | 0 <= k < |times| :: RecordAt(id, m, first, times, records, k)
  }

  lemma DeadlineFixed(id: string, m: Times, now: nat, later: nat, previous: Option<Pending>)
    requires Schedule(id, m, now, previous).Some? && !Expired(Schedule(id, m, now, previous).value, later)
    requires Schedule(id, m, later, Schedule(id, m, now, previous)).Some?
    ensures Schedule(id, m, later, Schedule(id, m, now, previous)).value.until == Schedule(id, m, now, previous).value.until
  {
    FloorBounds(Deadline(m, now, previous));
  }

  /** An attempt whose record was due is six hours after the one before, to the second. */
  lemma SpacedByCadence(id: string, m: Times, now: nat, later: nat, previous: Option<Pending>)
    requires Schedule(id, m, now, previous).Some? && (previous.Some? || m.scheduled <= now)
    requires var p := Schedule(id, m, now, previous).value; Due(p, later) && !Expired(p, later)
    ensures later > now + CADENCE - SECOND
  {
    var p := Schedule(id, m, now, previous).value;
    RecordsAreInOrder(id, m, now, previous);
    var until := Deadline(m, now, previous);
    var next := if now + CADENCE > until then until else now + CADENCE;
    FloorBounds(next);
    FloorBounds(until);
  }

  lemma {:induction false} AttemptsSpread(id: string, m: Times, first: Option<Pending>, times: seq<nat>, records: seq<Pending>, n: nat)
    requires Attempted(id, m, first, times, records) && n < |times|
    requires first.Some? || m.scheduled <= times[0]
    ensures times[n] >= times[0] + n * (CADENCE - SECOND)
  {
    if n > 0 {
      AttemptsSpread(id, m, first, times, records, n - 1);
      assert RecordAt(id, m, first, times, records, n - 1) && RecordAt(id, m, first, times, records, n);
      SpacedByCadence(id, m, times[n - 1], times[n], if n == 1 then first else Some(records[n - 2]));
    }
  }

  lemma {:induction false} DeadlineStays(id: string, m: Times, first: Option<Pending>, times: seq<nat>, records: seq<Pending>, n: nat)
    requires Attempted(id, m, first, times, records) && n < |times|
    ensures records[n].until == records[0].until && records[n].until.Good?
  {
    assert RecordAt(id, m, first, times, records, n);
    if n > 0 {
      var previous := if n == 1 then first else Some(records[n - 2]);
      DeadlineStays(id, m, first, times, records, n - 1);
      assert RecordAt(id, m, first, times, records, n - 1);
      DeadlineFixed(id, m, times[n - 1], times[n], previous);
    }
  }

  /** Main result: under a fixed schedule the attempts are spaced by the cadence, to the second, and end
      at the first record's deadline: n of them fit only if the time left is that long. */
  lemma AttemptsBounded(id: string, m: Times, first: Option<Pending>, times: seq<nat>, records: seq<Pending>)
    requires Attempted(id, m, first, times, records) && |times| > 0
    requires first.Some? || m.scheduled <= times[0]
    ensures (|times| - 1) * (CADENCE - SECOND) <= Deadline(m, times[0], first) - times[0]
    ensures |times| <= (Deadline(m, times[0], first) - times[0]) / (CADENCE - SECOND) + 1
  {
    var n := |times| - 1;
    assert RecordAt(id, m, first, times, records, 0);
    FloorBounds(Deadline(m, times[0], first));
    if n > 0 {
      assert RecordAt(id, m, first, times, records, n);
      AttemptsSpread(id, m, first, times, records, n);
      DeadlineStays(id, m, first, times, records, n - 1);
    }
  }

  /** A meeting first seen once it has been due to start is tried at most 29 times: a week of six-hour
      steps and one. */
  lemma AWeekOfAttempts(id: string, m: Times, times: seq<nat>, records: seq<Pending>)
    requires Attempted(id, m, None, times, records) && |times| > 0
    requires m.scheduled == 0 || m.scheduled <= times[0]
    ensures |times| <= 29 && (m.scheduled == 0 ==> |times| <= 9)
  {
    AttemptsBounded(id, m, None, times, records);
  }

  /** One seen before its start is tried once more. */
  lemma OneMoreAttempt(id: string, m: Times, times: seq<nat>, records: seq<Pending>)
    requires Attempted(id, m, None, times, records) && |times| > 1 && m.scheduled > times[0]
    requires m.scheduled <= times[1]
    ensures |times| <= 30
  {
    var rest, later := times[1..], records[1..];
    assert RecordAt(id, m, None, times, records, 0);
    forall k | 0 <= k < |rest| ensures RecordAt(id, m, Some(records[0]), rest, later, k) {
      assert RecordAt(id, m, None, times, records, k + 1);
    }
    assert Attempted(id, m, Some(records[0]), rest, later);
    AttemptsBounded(id, m, Some(records[0]), rest, later);
    FloorBounds(Deadline(m, times[0], None));
  }

  // ---- The cursor ----

  /** The persisted state: the watermark, empty or a timestamp, and the records. */
  datatype Cursor = Cursor(createdAfter: Option<Stamp>, pending: seq<Pending>)

  predicate Distinct(pending: seq<Pending>) {
    forall i, j | 0 <= i < j < |pending| :: TrimSpace(pending[i].meetingId) != TrimSpace(pending[j].meetingId)
  }

  predicate NoBlankIds(pending: seq<Pending>) {
    forall i | 0 <= i < |pending| :: TrimSpace(pending[i].meetingId) != ""
  }

  predicate ValidCursor(c: Cursor) {
    && (c.createdAfter.Some? ==> c.createdAfter.value.Good?)
    && NoBlankIds(c.pending) && Distinct(c.pending)
    && forall i | 0 <= i < |c.pending| :: InOrder(c.pending[i])
  }

  /** Record i is in order and new to the cursor. */
  predicate ValidAt(pending: seq<Pending>, i: nat)
    requires i < |pending|
  {
    var id := TrimSpace(pending[i].meetingId);
    InOrder(pending[i]) && id != "" && forall k | 0 <= k < i :: TrimSpace(pending[k].meetingId) != id
  }

  lemma ValidByRecord(c: Cursor)
    ensures ValidCursor(c) <==>
      && (c.createdAfter.Some? ==> c.createdAfter.value.Good?)
      && forall i | 0 <= i < |c.pending| :: ValidAt(c.pending, i)
  {
    if forall i | 0 <= i < |c.pending| :: ValidAt(c.pending, i) {
      forall i, j | 0 <= i < j < |c.pending|
        ensures TrimSpace(c.pending[i].meetingId) != TrimSpace(c.pending[j].meetingId)
      {
        assert ValidAt(c.pending, j);
      }
      forall i | 0 <= i < |c.pending|
        ensures InOrder(c.pending[i]) && TrimSpace(c.pending[i].meetingId) != ""
      {
        assert ValidAt(c.pending, i);
      }
    }
  }

  method Validate(c: Cursor) returns (ok: bool)
    ensures ok == ValidCursor(c)
  {
    ValidByRecord(c);
    if c.createdAfter.Some? && c.createdAfter.value.Bad? {
      return false;
    }
    var seen: set<string> := {};
    var i := 0;
    while i < |c.pending|
      invariant 0 <= i <= |c.pending|
      invariant forall k | 0 <= k < i :: ValidAt(c.pending, k)
      invariant forall id :: id in seen <==> exists k | 0 <= k < i :: TrimSpace(c.pending[k].meetingId) == id
    {
      var p := c.pending[i];
      var id := TrimSpace(p.meetingId);
      if id == "" || id in seen || p.next.Bad? || p.until.Bad? || p.next.seconds > p.until.seconds {
        assert !ValidAt(c.pending, i);
        return false;
      }
      seen := seen + {id};
      i := i + 1;
    }
    ok := true;
  }

  /** A completed run's cursor: its watermark and the records it holds, one for each ID. */
  ghost predicate Completes(c: Cursor, pendingById: map<string, Pending>) {
    && (c.createdAfter.Some? ==> c.createdAfter.value.Good?)
    && (forall i | 0 <= i < |c.pending| :: c.pending[i].meetingId in pendingById && c.pending[i] == pendingById[c.pending[i].meetingId])
    && (forall i, j | 0 <= i < j < |c.pending| :: c.pending[i].meetingId != c.pending[j].meetingId)
  }

  /** Main result: the next run accepts a completed cursor exactly when no ID in it is blank and no two
      IDs differ by white space only; trimmed nonblank IDs are enough. */
  lemma CompletedCursorValidates(c: Cursor, pendingById: map<string, Pending>)
    requires Completes(c, pendingById)
    requires forall id | id in pendingById :: InOrder(pendingById[id])
    ensures ValidCursor(c) <==> NoBlankIds(c.pending) && Distinct(c.pending)
    ensures (forall i | 0 <= i < |c.pending| :: var id := c.pending[i].meetingId; id != "" && TrimSpace(id) == id) ==> ValidCursor(c)
  {
    if forall i | 0 <= i < |c.pending| :: var id := c.pending[i].meetingId; id != "" && TrimSpace(id) == id {
      forall i, j | 0 <= i < j < |c.pending|
        ensures TrimSpace(c.pending[i].meetingId) != TrimSpace(c.pending[j].meetingId)
      {
        assert TrimSpace(c.pending[i].meetingId) == c.pending[i].meetingId;
        assert TrimSpace(c.pending[j].meetingId) == c.pending[j].meetingId;
      }
    }
  }
}
