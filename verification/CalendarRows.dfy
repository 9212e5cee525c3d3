/** Archiving calendar events: the row key, the keyed upsert, cancellations, and what happens when
    a delta is delivered again. */
module CalendarRows {
  import opened Options

  const CANCELLED := "cancelled"

  /** A change as the service delivers it, with what each of a persist's writes takes from it: `head` is the
      message row itself, `facts` the metadata payload apart from the status. */
  datatype Event = Event(id: string, recurringId: string, originalDate: string, originalTime: string,
                         status: string, facts: map<string, string>, content: Content)

  datatype Content = Content(head: string, body: string, raw: string, organizer: string, attendees: seq<string>)

  /** Stored metadata: missing or corrupt text, or a JSON object. */
  datatype Metadata = Unreadable | Fields(keys: map<string, string>)

  /** An archived event; the recipients are none until written. */
  datatype Row = Row(head: string, meta: Metadata, body: Option<string>, raw: Option<string>, sender: string, to: seq<string>)

  type Rows = map<string, Row>

  // ---- The row key ----

  function OriginalStartKey(ev: Event): string {
    if ev.originalDate != "" then ev.originalDate else ev.originalTime
  }

  predicate IsOccurrence(ev: Event) {
    ev.recurringId != "" && OriginalStartKey(ev) != ""
  }

  function SourceMessageID(ev: Event): string {
    if IsOccurrence(ev) then ev.recurringId + "|" + OriginalStartKey(ev) else ev.id
  }

  /** What the key is meant to tell apart. */
  datatype Identity = Single(id: string) | Occurrence(series: string, start: string)

  function IdentityOf(ev: Event): Identity {
    if IsOccurrence(ev) then Occurrence(ev.recurringId, OriginalStartKey(ev)) else Single(ev.id)
  }

  /** The service's own alphabets: no bar in the ID of a single event or in a date. A series ID may have one. */
  predicate NoStrayBar(ev: Event) {
    if IsOccurrence(ev) then '|' !in OriginalStartKey(ev) else '|' !in ev.id
  }

  lemma BarsOf(a: string, b: string)
    requires '|' !in b
    ensures var s := a + "|" + b; s[|a|] == '|' && forall i | |a| < i < |s| :: s[i] != '|'
  {
    var s := a + "|" + b;
    assert forall i | |a| < i < |s| :: s[i] == b[i - |a| - 1];
  }

  lemma LastBar(a: string, b: string, c: string, d: string)
    requires a + "|" + b == c + "|" + d && '|' !in b && '|' !in d
    ensures a == c && b == d
  {
    BarsOf(a, b);
    BarsOf(c, d);
    var s := a + "|" + b;
    assert |a| == |c|;
    assert s[..|a|] == a && s[|a| + 1..] == b;
    assert s[..|c|] == c && s[|c| + 1..] == d;
  }

  lemma HasBar(ev: Event)
    requires NoStrayBar(ev)
    ensures IsOccurrence(ev) <==> '|' in SourceMessageID(ev)
  {
    if IsOccurrence(ev) {
      BarsOf(ev.recurringId, OriginalStartKey(ev));
    }
  }

  /** Two changes share a row exactly when they are changes of one event or one occurrence. */
  lemma KeyIsIdentity(e: Event, f: Event)
    requires NoStrayBar(e) && NoStrayBar(f)
    ensures SourceMessageID(e) == SourceMessageID(f) <==> IdentityOf(e) == IdentityOf(f)
  {
    HasBar(e);
    HasBar(f);
    if SourceMessageID(e) == SourceMessageID(f) && IsOccurrence(e) {
      LastBar(e.recurringId, OriginalStartKey(e), f.recurringId, OriginalStartKey(f));
    }
  }

  const NO_CONTENT := Content("", "", "", "", [])

  /** Without that alphabet an event and an occurrence can land on one row. */
  lemma StrayBarCollides()
    ensures exists e, f :: IdentityOf(e) != IdentityOf(f) && SourceMessageID(e) == SourceMessageID(f)
  {
    var e := Event("a|1", "", "", "", "", map[], NO_CONTENT);
    var f := Event("b", "a", "1", "", "", map[], NO_CONTENT);
    assert SourceMessageID(f) == "a" + "|" + "1" == "a|1";
    assert IdentityOf(e) != IdentityOf(f) && SourceMessageID(e) == SourceMessageID(f);
  }

  // ---- The upsert ----

  /** The payload's status is left out when empty. */
  function BuildMetadata(ev: Event): map<string, string> {
    if ev.status == "" then ev.facts - {"status"} else ev.facts["status" := ev.status]
  }

  function Readable(meta: Metadata): map<string, string> {
    if meta.Fields? then meta.keys else map[]
  }

  /** A message row of which nothing has been written yet. */
  const BARE := Row("", Unreadable, None, None, "", [])

  const WRITES := 6

  /** The first n of ingestEvent's writes: the message row, metadata, body, raw event, sender, attendees. */
  function Ingested(row: Row, ev: Event, n: nat): Row {
    Row(if n >= 1 then ev.content.head else row.head,
        if n >= 2 then Fields(BuildMetadata(ev)) else row.meta,
        if n >= 3 then Some(ev.content.body) else row.body,
        if n >= 4 then Some(ev.content.raw) else row.raw,
        if n >= 5 then ev.content.organizer else row.sender,
        if n >= 6 then ev.content.attendees else row.to)
  }

  /** flagCancelled's one write to a known row. */
  function Flagged(row: Row): Row {
    row.(meta := Fields(Readable(row.meta)["status" := CANCELLED]))
  }

  function RowOrBare(rows: Rows, key: string): Row {
    if key in rows then rows[key] else BARE
  }

  /** persistOne as far as its first n writes: a cancellation of a known row only sets its status,
      everything else overwrites. */
  function PersistUpTo(rows: Rows, ev: Event, n: nat): Rows {
    var key := SourceMessageID(ev);
    if n == 0 then rows
    else if ev.status == CANCELLED && key in rows then rows[key := Flagged(rows[key])]
    else rows[key := Ingested(RowOrBare(rows, key), ev, n)]
  }

  function PersistOne(rows: Rows, ev: Event): Rows {
    PersistUpTo(rows, ev, WRITES)
  }

  datatype Part = Head | Meta | Body | Raw | Sender | Attendees

  /** This part of the row shows this change; a cancellation says nothing but the status. */
  predicate Shows(row: Row, part: Part, ev: Event) {
    if ev.status == CANCELLED then
      part.Meta? ==> row.meta.Fields? && "status" in row.meta.keys && row.meta.keys["status"] == CANCELLED
    else
      match part
      case Head => row.head == ev.content.head
      case Meta => row.meta == Fields(BuildMetadata(ev))
      case Body => row.body == Some(ev.content.body)
      case Raw => row.raw == Some(ev.content.raw)
      case Sender => row.sender == ev.content.organizer
      case Attendees => row.to == ev.content.attendees
  }

  predicate Reflects(row: Row, ev: Event) {
    forall part: Part :: Shows(row, part, ev)
  }

  /** A cancellation keeps everything else of its row, and every change leaves all other rows alone. */
  lemma CancellationKeepsTheRest(rows: Rows, ev: Event, field: string, key: string)
    ensures SourceMessageID(ev) in PersistOne(rows, ev) && Reflects(PersistOne(rows, ev)[SourceMessageID(ev)], ev)
    ensures key != SourceMessageID(ev) ==>
      (key in PersistOne(rows, ev) <==> key in rows) && (key in rows ==> PersistOne(rows, ev)[key] == rows[key])
    ensures ev.status == CANCELLED && SourceMessageID(ev) in rows ==>
      var was, now := rows[SourceMessageID(ev)], PersistOne(rows, ev)[SourceMessageID(ev)];
      && now.head == was.head && now.body == was.body && now.raw == was.raw && now.sender == was.sender && now.to == was.to
      && now.meta.Fields?
      && (was.meta.Fields? && field != "status" ==>
            (field in now.meta.keys <==> field in was.meta.keys) && (field in was.meta.keys ==> now.meta.keys[field] == was.meta.keys[field]))
  {
  }

  // ---- Delivering a delta again ----

  function PersistAll(rows: Rows, events: seq<Event>): Rows
    decreases |events|
  {
    if events == [] then rows else PersistAll(PersistOne(rows, events[0]), events[1..])
  }

  ghost predicate OnePerKey(delta: seq<Event>) {
    forall i, j | 0 <= i < j < |delta| :: SourceMessageID(delta[i]) != SourceMessageID(delta[j])
  }

  lemma PersistTwice(rows: Rows, ev: Event)
    ensures PersistOne(PersistOne(rows, ev), ev) == PersistOne(rows, ev)
  {
    var key := SourceMessageID(ev);
    var once := PersistOne(rows, ev);
    if ev.status == CANCELLED {
      FlaggedTwice(once[key]);
      assert Readable(once[key].meta)["status" := CANCELLED] == Readable(once[key].meta);
    }
    assert PersistOne(once, ev)[key] == once[key];
  }

  lemma FlaggedTwice(row: Row)
    ensures Flagged(Flagged(row)) == Flagged(row)
  {
    assert Flagged(row).meta.keys["status" := CANCELLED] == Flagged(row).meta.keys;
  }

  /** Row by row: a key no event has stays as it was; one that has a single event, however often
      delivered, shows that event applied once. */
  lemma {:induction false} RowAfterAll(rows: Rows, events: seq<Event>, key: string, ev: Event)
    requires forall e | e in events && SourceMessageID(e) == key :: e == ev
    ensures SourceMessageID(ev) != key || ev !in events ==>
      (key in PersistAll(rows, events) <==> key in rows) && (key in rows ==> PersistAll(rows, events)[key] == rows[key])
    ensures SourceMessageID(ev) == key && ev in events ==>
      key in PersistAll(rows, events) && PersistAll(rows, events)[key] == PersistOne(rows, ev)[key]
    decreases |events|
  {
    if events != [] {
      var next := PersistOne(rows, events[0]);
      assert forall e | e in events[1..] :: e in events;
      RowAfterAll(next, events[1..], key, ev);
      assert events == [events[0]] + events[1..];
      if SourceMessageID(events[0]) == key {
        PersistTwice(rows, ev);
      } else if ev in events && SourceMessageID(ev) == key {
        assert PersistOne(next, ev)[key] == PersistOne(rows, ev)[key];
      }
    }
  }

  lemma SameRow(delta: seq<Event>, e: Event, f: Event)
    requires OnePerKey(delta) && e in delta && f in delta && SourceMessageID(e) == SourceMessageID(f)
    ensures e == f
  {
    var i :| 0 <= i < |delta| && delta[i] == e;
    var j :| 0 <= j < |delta| && delta[j] == f;
    if i < j {
    } else if j < i {
    }
  }

  // ---- What an interrupted attempt leaves ----

  /** One event's turn in an earlier attempt at the delta: so many of its writes took effect. */
  datatype Attempt = Attempt(ev: Event, writes: nat)

  function AttemptAll(rows: Rows, attempts: seq<Attempt>): Rows
    decreases |attempts|
  {
    if attempts == [] then rows
    else AttemptAll(PersistUpTo(rows, attempts[0].ev, attempts[0].writes), attempts[1..])
  }

  /** How far the first of the key's turns came that wrote anything. */
  function FirstWrites(attempts: seq<Attempt>, key: string): nat {
    if attempts == [] then 0
    else if SourceMessageID(attempts[0].ev) == key && attempts[0].writes > 0 then attempts[0].writes
    else FirstWrites(attempts[1..], key)
  }

  /** A cancellation of an event the archive did not have. */
  predicate NewCancellation(rows: Rows, ev: Event) {
    ev.status == CANCELLED && SourceMessageID(ev) !in rows
  }

  /** A turn that broke off with the message row in place and something of the event unwritten: the raw
      event, which is never empty, or recipients it has. */
  predicate Misses(ev: Event, n: nat) {
    || 1 <= n <= 3
    || (n == 4 && (ev.content.organizer != "" || ev.content.attendees != []))
    || (n == 5 && ev.content.attendees != [])
  }

  lemma FlaggedIsWhole(ev: Event, n: nat)
    requires ev.status == CANCELLED && n > 0
    ensures Flagged(Ingested(BARE, ev, n)) == Ingested(BARE, ev, WRITES) <==> !Misses(ev, n)
  {
    assert BuildMetadata(ev)["status" := CANCELLED] == BuildMetadata(ev);
  }

  /** A persist that broke off is made good by the next exactly when it was not of a cancellation of an unseen
      event with something still to write: that one finds its own row, and only sets the status. */
  lemma HalfPersistExactly(rows: Rows, ev: Event, n: nat)
    ensures PersistOne(PersistUpTo(rows, ev, n), ev) == PersistOne(rows, ev) <==> !(NewCancellation(rows, ev) && Misses(ev, n))
  {
    var key := SourceMessageID(ev);
    var clean, late := PersistOne(rows, ev), PersistOne(PersistUpTo(rows, ev, n), ev);
    if n > 0 {
      if NewCancellation(rows, ev) {
        FlaggedIsWhole(ev, n);
      } else if ev.status == CANCELLED {
        FlaggedTwice(rows[key]);
      }
      assert late == rows[key := late[key]] && clean == rows[key := clean[key]];
    }
  }

  /** Row by row: once the event gets through, its row is what a clean pass leaves, or what its first turn
      wrote and the status. */
  lemma {:induction false} RowAfterAttempts(rows: Rows, attempts: seq<Attempt>, key: string, ev: Event)
    requires SourceMessageID(ev) == key
    requires forall a | a in attempts && SourceMessageID(a.ev) == key :: a.ev == ev
    ensures PersistOne(AttemptAll(rows, attempts), ev)[key] ==
      if NewCancellation(rows, ev) && FirstWrites(attempts, key) > 0 then Flagged(Ingested(BARE, ev, FirstWrites(attempts, key)))
      else PersistOne(rows, ev)[key]
    decreases |attempts|
  {
    if attempts != [] {
      var n := attempts[0].writes;
      var next := PersistUpTo(rows, attempts[0].ev, n);
      assert forall a | a in attempts[1..] :: a in attempts;
      RowAfterAttempts(next, attempts[1..], key, ev);
      if SourceMessageID(attempts[0].ev) == key && n > 0 && ev.status == CANCELLED && key in rows {
        FlaggedTwice(rows[key]);
      }
    }
  }

  lemma {:induction false} OtherRowAfterAttempts(rows: Rows, attempts: seq<Attempt>, key: string)
    requires forall a | a in attempts :: SourceMessageID(a.ev) != key
    ensures key in AttemptAll(rows, attempts) <==> key in rows
    ensures key in rows ==> AttemptAll(rows, attempts)[key] == rows[key]
    decreases |attempts|
  {
    if attempts != [] {
      assert forall a | a in attempts[1..] :: a in attempts;
      OtherRowAfterAttempts(PersistUpTo(rows, attempts[0].ev, attempts[0].writes), attempts[1..], key);
    }
  }

  /** The row an event of the delta ends up with, after an interrupted attempt and without one. */
  lemma RowAfterDelta(rows: Rows, attempts: seq<Attempt>, delta: seq<Event>, ev: Event)
    requires OnePerKey(delta) && ev in delta && forall a | a in attempts :: a.ev in delta
    ensures var key, left, right := SourceMessageID(ev), PersistAll(AttemptAll(rows, attempts), delta), PersistAll(rows, delta);
      && key in left && key in right
      && (left[key] == right[key] <==> !(NewCancellation(rows, ev) && Misses(ev, FirstWrites(attempts, key))))
  {
    var key := SourceMessageID(ev);
    forall e | e in delta && SourceMessageID(e) == key ensures e == ev {
      SameRow(delta, e, ev);
    }
    RowAfterAll(AttemptAll(rows, attempts), delta, key, ev);
    RowAfterAll(rows, delta, key, ev);
    RowAfterAttempts(rows, attempts, key, ev);
    if NewCancellation(rows, ev) && FirstWrites(attempts, key) > 0 {
      FlaggedIsWhole(ev, FirstWrites(attempts, key));
    }
  }

  lemma OtherRowAfterDelta(rows: Rows, attempts: seq<Attempt>, delta: seq<Event>, key: string)
    requires forall e | e in delta :: SourceMessageID(e) != key
    requires forall a | a in attempts :: a.ev in delta
    ensures var left, right := PersistAll(AttemptAll(rows, attempts), delta), PersistAll(rows, delta);
      (key in left <==> key in right) && (key in left ==> left[key] == right[key])
  {
    var other := Event(key + "x", "", "", "", "", map[], NO_CONTENT);
    RowAfterAll(AttemptAll(rows, attempts), delta, key, other);
    RowAfterAll(rows, delta, key, other);
    OtherRowAfterAttempts(rows, attempts, key);
  }

  /** Main result: after attempts at a delta that broke off anywhere between or inside its events, in any
      order and any number of times, persisting the whole delta leaves what one clean pass would have
      left - exactly when no cancellation of an unseen event broke off with something still to write,
      at the first of its turns that wrote anything. */
  lemma ReplayConvergesExactly(rows: Rows, attempts: seq<Attempt>, delta: seq<Event>)
    requires OnePerKey(delta) && forall a | a in attempts :: a.ev in delta
    ensures PersistAll(AttemptAll(rows, attempts), delta) == PersistAll(rows, delta) <==>
      forall ev | ev in delta :: !(NewCancellation(rows, ev) && Misses(ev, FirstWrites(attempts, SourceMessageID(ev))))
  {
    var left, right := PersistAll(AttemptAll(rows, attempts), delta), PersistAll(rows, delta);
    if ev :| ev in delta && NewCancellation(rows, ev) && Misses(ev, FirstWrites(attempts, SourceMessageID(ev))) {
      RowAfterDelta(rows, attempts, delta, ev);
    } else {
      forall key: string
        ensures (key in left <==> key in right) && (key in left ==> left[key] == right[key])
      {
        if ev :| ev in delta && SourceMessageID(ev) == key {
          RowAfterDelta(rows, attempts, delta, ev);
        } else {
          OtherRowAfterDelta(rows, attempts, delta, key);
        }
      }
      assert left.Keys == right.Keys;
    }
  }

  lemma {:induction false} WholeAttempts(rows: Rows, part: seq<Event>, attempts: seq<Attempt>)
    requires |attempts| == |part| && forall k | 0 <= k < |part| :: attempts[k] == Attempt(part[k], WRITES)
    ensures AttemptAll(rows, attempts) == PersistAll(rows, part)
    ensures forall key :: FirstWrites(attempts, key) == 0 || FirstWrites(attempts, key) == WRITES
    decreases |part|
  {
    if part != [] {
      WholeAttempts(PersistOne(rows, part[0]), part[1..], attempts[1..]);
    }
  }

  /** So whatever part of a delta ran through before, in whatever order, the replay converges. */
  lemma ReplayConverges(rows: Rows, part: seq<Event>, delta: seq<Event>)
    requires OnePerKey(delta) && forall e | e in part :: e in delta
    ensures PersistAll(PersistAll(rows, part), delta) == PersistAll(rows, delta)
  {
    var attempts := seq(|part|, k requires 0 <= k < |part| => Attempt(part[k], WRITES));
    WholeAttempts(rows, part, attempts);
    ReplayConvergesExactly(rows, attempts, delta);
  }
}
