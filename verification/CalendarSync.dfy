/** Full, resumed, limited, time-bounded and incremental runs of one calendar against one stored
    sync token. The service is a log of changes; a token is a position in it. A run's script says
    what each call into the service and the store did; a script that ends early is the process
    dying, so every state a run goes through is the end of some script. */
module CalendarSync {
  import opened Options
  import opened CalendarRows

  type Log = seq<Event>

  /** One traversal of events.list. It starts behind token `from` (0 for none), brings the client
      to `upTo`, and delivers on its pages the changes with these log positions. */
  datatype Listing = Listing(from: nat, upTo: nat, pages: seq<seq<nat>>, token: bool)

  /** A page token: the empty one starts a listing, the others continue one. */
  datatype PageToken = Start | At(listing: Listing, page: nat)

  /** What a call did. Of an event's writes, `writes` took effect before the call failed or the run left. */
  datatype Step = Done | Errs(writes: nat) | Stops(writes: nat)

  /** One turn of a run's loop. `Stops` in a turn is a cancellation the run leaves at once for, or
      the process dying. `fresh` is the listing the service would start for this request. */
  datatype Turn = Canceled | Refused | Gone | Page(start: Listing, steps: seq<Step>, save: Step)

  datatype Ending = Ending(advance: Step, complete: Step)

  /** The checkpoint column of a run: nothing, a bare page token of an incremental run, or JSON of
      some kind around a page token. */
  datatype Text = Blank | Bare(token: PageToken) | Json(kind: string, token: PageToken)

  datatype Run = Ended | Running(saved: Text)

  /** The archive with, for every key persisted whole once, a log position no part of its row is older than. */
  datatype Books = Books(rows: Rows, ver: map<string, nat>)

  datatype Calendar = Calendar(books: Books, cursor: Option<nat>, run: Run)

  /** How a full run is asked for; with `unread` its look for an interrupted run fails, which it passes over. */
  datatype Choice = Choice(limit: int, bounded: bool, noResume: bool, unread: bool)

  const FULL_KIND := "gcal_full_v1"

  // ---- Checkpoints ----

  function EncodeCheckpoint(token: PageToken): Text {
    Json(FULL_KIND, token)
  }

  function DecodeCheckpoint(raw: Text): Option<PageToken> {
    if raw.Json? && raw.kind == FULL_KIND then Some(raw.token) else None
  }

  predicate ResumeEligible(c: Choice) {
    !c.noResume && c.limit == 0 && !c.bounded
  }

  /** The page token a full run starts at. */
  function ResumeToken(s: Calendar, c: Choice): PageToken {
    if ResumeEligible(c) && !c.unread && s.run.Running? && DecodeCheckpoint(s.run.saved).Some?
    then DecodeCheckpoint(s.run.saved).value else Start
  }

  // ---- What the service promises ----

  function KeyAt(log: Log, i: nat): string
    requires i < |log|
  {
    SourceMessageID(log[i])
  }

  /** Position v is no older than the newest change of its key before n. */
  ghost predicate Latest(log: Log, v: nat, n: nat)
    requires v < |log| && n <= |log|
  {
    forall i | 0 <= i < n && KeyAt(log, i) == KeyAt(log, v) :: i <= v
  }

  ghost predicate Delivers(log: Log, l: Listing, p: nat)
    requires l.upTo <= |log| && p < |l.pages|
  {
    forall k | 0 <= k < |l.pages[p]| :: l.pages[p][k] < |log| && Latest(log, l.pages[p][k], l.upTo)
  }

  ghost predicate ListingOk(log: Log, l: Listing) {
    && l.from <= l.upTo <= |log| && |l.pages| > 0
    && forall p | 0 <= p < |l.pages| :: Delivers(log, l, p)
  }

  predicate OnPage(log: Log, page: seq<nat>, key: string) {
    exists k | 0 <= k < |page| && page[k] < |log| :: KeyAt(log, page[k]) == key
  }

  /** A traversal without time bounds delivers every key changed since its token. */
  ghost predicate Complete(log: Log, l: Listing)
    requires l.upTo <= |log|
  {
    forall i | l.from <= i < l.upTo :: exists p | 0 <= p < |l.pages| :: OnPage(log, l.pages[p], KeyAt(log, i))
  }

  /** What the service may start: never behind a token it has handed out. */
  ghost predicate Startable(log: Log, s: Calendar, l: Listing, from: nat, bounded: bool) {
    && ListingOk(log, l) && l.from == from && (!bounded ==> Complete(log, l))
    && (s.cursor.Some? ==> s.cursor.value <= l.upTo)
  }

  // ---- One page ----

  datatype Halt = Going | LimitHit | Failed | Stopped

  datatype Progress = Progress(books: Books, ingested: int, errors: nat, halt: Halt)

  function Persisted(log: Log, b: Books, v: nat): Books
    requires v < |log|
  {
    Books(PersistOne(b.rows, log[v]), b.ver[KeyAt(log, v) := v])
  }

  /** A persist that broke off. */
  function Touched(log: Log, b: Books, v: nat, writes: nat): Books
    requires v < |log|
  {
    var key := KeyAt(log, v);
    Books(PersistUpTo(b.rows, log[v], writes), if key in b.ver && writes > 0 && v < b.ver[key] then b.ver[key := v] else b.ver)
  }

  /** Positions a page may hold in this log. */
  predicate InLog(log: Log, items: seq<nat>) {
    forall k | 0 <= k < |items| :: items[k] < |log|
  }

  function StepAt(steps: seq<Step>): Step {
    if steps == [] then Stops(0) else steps[0]
  }

  function Rest<T>(s: seq<T>): seq<T> {
    if s == [] then [] else s[1..]
  }

  /** A full run's page: the first error ends the run. */
  function FullPage(log: Log, b: Books, items: seq<nat>, steps: seq<Step>, limit: int, ingested: int): Progress
    requires InLog(log, items)
    decreases |items|
  {
    if items == [] then Progress(b, ingested, 0, Going)
    else if limit > 0 && ingested >= limit then Progress(b, ingested, 0, LimitHit)
    else match StepAt(steps)
      case Errs(writes) => Progress(Touched(log, b, items[0], writes), ingested, 0, Failed)
      case Stops(writes) => Progress(Touched(log, b, items[0], writes), ingested, 0, Stopped)
      case Done => FullPage(log, Persisted(log, b, items[0]), items[1..], Rest(steps), limit, ingested + 1)
  }

  /** An incremental run's page: errors are counted and passed over. */
  function DeltaPage(log: Log, b: Books, items: seq<nat>, steps: seq<Step>, errors: nat): Progress
    requires InLog(log, items)
    decreases |items|
  {
    if items == [] then Progress(b, 0, errors, Going)
    else match StepAt(steps)
      case Errs(writes) => DeltaPage(log, Touched(log, b, items[0], writes), items[1..], Rest(steps), errors + 1)
      case Stops(writes) => Progress(Touched(log, b, items[0], writes), 0, errors, Stopped)
      case Done => DeltaPage(log, Persisted(log, b, items[0]), items[1..], Rest(steps), errors)
  }

  // ---- Runs ----

  /** A loop's state between turns; `open` says the run has not come to its end. */
  datatype Loop = Loop(cal: Calendar, token: PageToken, ingested: int, errors: nat, outcome: Outcome)

  datatype Outcome = Open | Left | Expired | Ran(final: Option<nat>)

  function EndRun(s: Calendar): Calendar {
    s.(run := Ended)
  }

  /** The page a request is answered with. */
  function Served(token: PageToken, start: Listing): PageToken {
    if token.Start? then At(start, 0) else token
  }

  predicate Answerable(log: Log, at: PageToken) {
    at.At? && at.page < |at.listing.pages| && InLog(log, at.listing.pages[at.page])
  }

  function NextToken(at: PageToken): PageToken
    requires at.At?
  {
    if at.page + 1 < |at.listing.pages| then At(at.listing, at.page + 1) else Start
  }

  /** The sync token on a page: only the last one carries it, if the service sends it at all. */
  function SyncTokenOn(at: PageToken): Option<nat>
    requires at.At?
  {
    if at.page + 1 >= |at.listing.pages| && at.listing.token then Some(at.listing.upTo) else None
  }

  /** The token a full run may store: not after a limit, not under time bounds. */
  function FinalToken(c: Choice, limitHit: bool, at: PageToken): Option<nat>
    requires at.At?
  {
    if limitHit || c.bounded then None else SyncTokenOn(at)
  }

  /** Writing a checkpoint, then going on or not. */
  function AfterSave(s: Calendar, saved: Text, save: Step, next: Loop): Loop {
    match save
    case Done => next.(cal := s.(run := Running(saved)))
    case Errs(_) => next.(cal := EndRun(s), outcome := Left)
    case Stops(_) => next.(cal := s, outcome := Left)
  }

  function FullTurn(log: Log, c: Choice, x: Loop, turn: Turn): Loop
    requires turn.Page? ==> Answerable(log, Served(x.token, turn.start))
  {
    match turn
    case Canceled => x.(outcome := Left)
    case Refused => x.(cal := EndRun(x.cal), outcome := Left)
    case Gone => x.(cal := EndRun(x.cal), outcome := Left)
    case Page(start, steps, save) =>
      var at := Served(x.token, start);
      var pr := FullPage(log, x.cal.books, at.listing.pages[at.page], steps, c.limit, x.ingested);
      FullAfter(c, x, at, pr, save)
  }

  /** What a full run does once a page's items are through. */
  function FullAfter(c: Choice, x: Loop, at: PageToken, pr: Progress, save: Step): Loop
    requires at.At?
  {
    var s := x.cal.(books := pr.books);
    if pr.halt.Failed? then x.(cal := EndRun(s), outcome := Left)
    else if pr.halt.Stopped? then x.(cal := s, outcome := Left)
    else
      var limitHit := pr.halt.LimitHit?;
      var next := Loop(s, NextToken(at), pr.ingested, 0,
                       if NextToken(at).Start? || limitHit then Ran(FinalToken(c, limitHit, at)) else Open);
      if ResumeEligible(c) then AfterSave(s, EncodeCheckpoint(NextToken(at)), save, next) else next
  }

  function DeltaTurn(log: Log, x: Loop, turn: Turn): Loop
    requires turn.Page? ==> Answerable(log, Served(x.token, turn.start))
  {
    match turn
    case Canceled => x.(cal := EndRun(x.cal), outcome := Left)
    case Refused => x.(cal := EndRun(x.cal), outcome := Left)
    case Gone => x.(cal := EndRun(x.cal), outcome := Expired)
    case Page(start, steps, save) =>
      var at := Served(x.token, start);
      var pr := DeltaPage(log, x.cal.books, at.listing.pages[at.page], steps, x.errors);
      DeltaAfter(x, at, pr, save)
  }

  function DeltaAfter(x: Loop, at: PageToken, pr: Progress, save: Step): Loop
    requires at.At?
  {
    var s := x.cal.(books := pr.books);
    if pr.halt.Stopped? then x.(cal := s, outcome := Left)
    else
      var next := Loop(s, NextToken(at), 0, pr.errors, if NextToken(at).Start? then Ran(SyncTokenOn(at)) else Open);
      AfterSave(s, Bare(NextToken(at)), save, next)
  }

  /** The script answers every request the loop makes. */
  ghost predicate FullServed(log: Log, c: Choice, x: Loop, script: seq<Turn>)
    decreases |script|
  {
    x.outcome.Open? && script != [] ==>
      && (script[0].Page? ==> (x.token.Start? ==> Startable(log, x.cal, script[0].start, 0, c.bounded))
                              && Answerable(log, Served(x.token, script[0].start)))
      && FullServed(log, c, FullTurn(log, c, x, script[0]), script[1..])
  }

  ghost predicate DeltaServed(log: Log, from: nat, x: Loop, script: seq<Turn>)
    decreases |script|
  {
    x.outcome.Open? && script != [] ==>
      && (script[0].Page? ==> (x.token.Start? ==> Startable(log, x.cal, script[0].start, from, false))
                              && Answerable(log, Served(x.token, script[0].start)))
      && DeltaServed(log, from, DeltaTurn(log, x, script[0]), script[1..])
  }

  ghost function FullLoop(log: Log, c: Choice, x: Loop, script: seq<Turn>): Loop
    requires FullServed(log, c, x, script)
    decreases |script|
  {
    if !x.outcome.Open? || script == [] then x else FullLoop(log, c, FullTurn(log, c, x, script[0]), script[1..])
  }

  ghost function DeltaLoop(log: Log, from: nat, x: Loop, script: seq<Turn>): Loop
    requires DeltaServed(log, from, x, script)
    decreases |script|
  {
    if !x.outcome.Open? || script == [] then x else DeltaLoop(log, from, DeltaTurn(log, x, script[0]), script[1..])
  }

  /** Storing the token and completing the run. */
  function Finish(s: Calendar, final: Option<nat>, end: Ending): Calendar {
    if final.None? then Completed(s, end.complete)
    else match end.advance
      case Done => Completed(s.(cursor := final), end.complete)
      case Errs(_) => EndRun(s)
      case Stops(_) => s
  }

  function Completed(s: Calendar, step: Step): Calendar {
    if step.Stops? then s else EndRun(s)
  }

  /** StartSync: a new run row, with no checkpoint yet, supersedes the one before. */
  function FullStart(s: Calendar, c: Choice): Loop {
    Loop(s.(run := Running(Blank)), ResumeToken(s, c), 0, 0, Open)
  }

  function DeltaStart(s: Calendar): Loop {
    Loop(s.(run := Running(Blank)), Start, 0, 0, Open)
  }

  function FullEnd(x: Loop, end: Ending): Calendar {
    if x.outcome.Ran? then Finish(x.cal, x.outcome.final, end) else x.cal
  }

  function DeltaEnd(x: Loop, end: Ending): Calendar {
    if !x.outcome.Ran? then x.cal
    else if x.errors > 0 then EndRun(x.cal)
    else Finish(x.cal, x.outcome.final, end)
  }

  ghost function FullRun(log: Log, s: Calendar, c: Choice, script: seq<Turn>, end: Ending): Calendar
    requires FullServed(log, c, FullStart(s, c), script)
  {
    FullEnd(FullLoop(log, c, FullStart(s, c), script), end)
  }

  /** The caller's answer to an expired token: clear the cursor, which may fail unnoticed, and start over. */
  function Cleared(s: Calendar, clear: Step): Calendar {
    if clear.Done? then s.(cursor := None) else s
  }

  // ---- What the stored token claims ----

  /** Row `key` is archived at a version that shows every change of the key before n. */
  ghost predicate UpToDate(log: Log, b: Books, key: string, n: nat)
    requires n <= |log|
  {
    key in b.ver && forall i | 0 <= i < n && KeyAt(log, i) == key :: i <= b.ver[key]
  }

  /** This part of the row shows a change of the key that is not before position i. */
  ghost predicate PartFrom(log: Log, row: Row, part: Part, key: string, i: nat) {
    exists v | i <= v < |log| && KeyAt(log, v) == key :: Shows(row, part, log[v])
  }

  /** A broken-off persist may leave a row with parts of several changes. */
  ghost predicate RowFrom(log: Log, row: Row, key: string, i: nat) {
    forall part: Part :: PartFrom(log, row, part, key, i)
  }

  ghost predicate BooksOk(log: Log, b: Books) {
    forall key | key in b.ver ::
      && b.ver[key] < |log| && KeyAt(log, b.ver[key]) == key
      && key in b.rows && RowFrom(log, b.rows[key], key, b.ver[key])
  }

  ghost predicate Reflected(log: Log, b: Books, n: nat)
    requires n <= |log|
  {
    forall i | 0 <= i < n :: UpToDate(log, b, KeyAt(log, i), n)
  }

  ghost predicate PageDone(log: Log, b: Books, page: seq<nat>, n: nat)
    requires n <= |log|
  {
    forall k | 0 <= k < |page| && page[k] < |log| :: UpToDate(log, b, KeyAt(log, page[k]), n)
  }

  /** The first p pages of a listing are in the archive. */
  ghost predicate PagesDone(log: Log, b: Books, l: Listing, p: nat)
    requires l.upTo <= |log|
  {
    forall q | 0 <= q < p && q < |l.pages| :: PageDone(log, b, l.pages[q], l.upTo)
  }

  /** A page token of a listing that started behind `from` and reaches past the stored token. */
  ghost predicate Behind(log: Log, s: Calendar, token: PageToken, from: nat, complete: bool) {
    token.At? ==>
      && ListingOk(log, token.listing) && (complete ==> Complete(log, token.listing))
      && token.listing.from == from && token.page < |token.listing.pages|
      && (s.cursor.Some? ==> s.cursor.value <= token.listing.upTo)
  }

  /** A page token a full run saved: everything before it has been archived. */
  ghost predicate TokenOk(log: Log, s: Calendar, token: PageToken) {
    && Behind(log, s, token, 0, true)
    && (token.At? ==> PagesDone(log, s.books, token.listing, token.page))
  }

  ghost predicate CursorOk(log: Log, s: Calendar) {
    && BooksOk(log, s.books)
    && (s.cursor.Some? ==> s.cursor.value <= |log| && Reflected(log, s.books, s.cursor.value))
  }

  ghost predicate SavedOk(log: Log, s: Calendar) {
    s.run.Running? && DecodeCheckpoint(s.run.saved).Some? ==>
      TokenOk(log, s, DecodeCheckpoint(s.run.saved).value)
  }

  ghost predicate CalendarOk(log: Log, s: Calendar) {
    CursorOk(log, s) && SavedOk(log, s)
  }

  // ---- Pages keep it ----

  /** b' has everything b shows, as new or newer up to n. */
  ghost predicate Newer(log: Log, b: Books, b': Books, n: nat)
    requires n <= |log|
  {
    forall key, m | 0 <= m <= n && UpToDate(log, b, key, m) :: UpToDate(log, b', key, m)
  }

  /** A whole persist makes every part as new as its change. */
  lemma PersistedRow(log: Log, rows: Rows, v: nat)
    requires v < |log|
    ensures RowFrom(log, PersistOne(rows, log[v])[KeyAt(log, v)], KeyAt(log, v), v)
  {
    var row := PersistOne(rows, log[v])[KeyAt(log, v)];
    forall part: Part ensures PartFrom(log, row, part, KeyAt(log, v), v) {
      assert Shows(row, part, log[v]);
    }
  }

  /** One that broke off makes no part older than its change or what was there. */
  lemma TouchedPart(log: Log, rows: Rows, v: nat, writes: nat, part: Part, i: nat)
    requires v < |log| && i <= v && KeyAt(log, v) in rows && PartFrom(log, rows[KeyAt(log, v)], part, KeyAt(log, v), i)
    ensures PartFrom(log, PersistUpTo(rows, log[v], writes)[KeyAt(log, v)], part, KeyAt(log, v), i)
  {
    var key := KeyAt(log, v);
    var row, torn := rows[key], PersistUpTo(rows, log[v], writes)[key];
    var u :| i <= u < |log| && KeyAt(log, u) == key && Shows(row, part, log[u]);
    assert Shows(torn, part, log[u]) || Shows(torn, part, log[v]);
  }

  lemma OlderPart(log: Log, row: Row, key: string, i: nat, j: nat)
    requires i <= j && RowFrom(log, row, key, j)
    ensures RowFrom(log, row, key, i)
  {
    forall part: Part ensures PartFrom(log, row, part, key, i) {
      assert PartFrom(log, row, part, key, j);
    }
  }

  lemma PersistedKeeps(log: Log, b: Books, v: nat, n: nat)
    requires BooksOk(log, b) && v < |log| && n <= |log| && Latest(log, v, n)
    ensures BooksOk(log, Persisted(log, b, v)) && Newer(log, b, Persisted(log, b, v), n)
    ensures UpToDate(log, Persisted(log, b, v), KeyAt(log, v), n)
  {
    PersistedRow(log, b.rows, v);
  }

  lemma TouchedKeeps(log: Log, b: Books, v: nat, writes: nat, n: nat)
    requires BooksOk(log, b) && v < |log| && n <= |log| && Latest(log, v, n)
    ensures BooksOk(log, Touched(log, b, v, writes)) && Newer(log, b, Touched(log, b, v, writes), n)
  {
    var key, t := KeyAt(log, v), Touched(log, b, v, writes);
    if key in b.ver && writes > 0 {
      OlderPart(log, b.rows[key], key, t.ver[key], b.ver[key]);
      forall part: Part ensures PartFrom(log, t.rows[key], part, key, t.ver[key]) {
        TouchedPart(log, b.rows, v, writes, part, t.ver[key]);
      }
    }
  }

  lemma NewerIsTransitive(log: Log, a: Books, b: Books, c: Books, n: nat)
    requires n <= |log| && Newer(log, a, b, n) && Newer(log, b, c, n)
    ensures Newer(log, a, c, n)
  {
  }

  /** What persisting (part of) a page promises. */
  ghost predicate PageKept(log: Log, b: Books, pr: Progress, items: seq<nat>, n: nat, all: bool)
    requires n <= |log|
  {
    && BooksOk(log, pr.books) && Newer(log, b, pr.books, n)
    && (all ==> PageDone(log, pr.books, items, n))
  }

  ghost predicate AllLatest(log: Log, items: seq<nat>, n: nat)
    requires n <= |log|
  {
    forall k | 0 <= k < |items| :: items[k] < |log| && Latest(log, items[k], n)
  }

  lemma PageConsDone(log: Log, b: Books, b': Books, items: seq<nat>, n: nat)
    requires n <= |log| && items != [] && AllLatest(log, items, n)
    requires UpToDate(log, b, KeyAt(log, items[0]), n) && Newer(log, b, b', n) && PageDone(log, b', items[1..], n)
    ensures PageDone(log, b', items, n)
  {
    forall k | 0 <= k < |items| && items[k] < |log|
      ensures UpToDate(log, b', KeyAt(log, items[k]), n)
    {
      if k > 0 {
        assert items[k] == items[1..][k - 1];
      }
    }
  }

  /** One item persisted, and then the rest of the page. */
  lemma PageConsKept(log: Log, b: Books, mid: Books, pr: Progress, items: seq<nat>, n: nat, all: bool)
    requires BooksOk(log, b) && n <= |log| && items != [] && AllLatest(log, items, n)
    requires mid == Persisted(log, b, items[0]) && PageKept(log, mid, pr, items[1..], n, all)
    ensures PageKept(log, b, pr, items, n, all)
  {
    PersistedKeeps(log, b, items[0], n);
    NewerIsTransitive(log, b, mid, pr.books, n);
    if all {
      PageConsDone(log, mid, pr.books, items, n);
    }
  }

  lemma {:induction false} FullPageKeeps(log: Log, b: Books, items: seq<nat>, steps: seq<Step>, limit: int, ingested: int, n: nat, pr: Progress)
    requires BooksOk(log, b) && n <= |log| && AllLatest(log, items, n)
    requires pr == FullPage(log, b, items, steps, limit, ingested)
    ensures PageKept(log, b, pr, items, n, pr.halt.Going?)
    decreases |items|
  {
    if items == [] || (limit > 0 && ingested >= limit) {
      assert pr.books == b;
    } else if StepAt(steps).Done? {
      var mid := Persisted(log, b, items[0]);
      PersistedKeeps(log, b, items[0], n);
      FullPageKeeps(log, mid, items[1..], Rest(steps), limit, ingested + 1, n, pr);
      PageConsKept(log, b, mid, pr, items, n, pr.halt.Going?);
    } else {
      TouchedKeeps(log, b, items[0], StepAt(steps).writes, n);
    }
  }

  lemma {:induction false} DeltaPageKeeps(log: Log, b: Books, items: seq<nat>, steps: seq<Step>, errors: nat, n: nat)
    requires BooksOk(log, b) && n <= |log| && AllLatest(log, items, n)
    ensures var pr := DeltaPage(log, b, items, steps, errors);
      pr.errors >= errors && PageKept(log, b, pr, items, n, pr.halt.Going? && pr.errors == errors)
    decreases |items|
  {
    if items != [] {
      var v, step := items[0], StepAt(steps);
      if step.Done? {
        var mid := Persisted(log, b, v);
        var pr := DeltaPage(log, mid, items[1..], Rest(steps), errors);
        PersistedKeeps(log, b, v, n);
        DeltaPageKeeps(log, mid, items[1..], Rest(steps), errors, n);
        PageConsKept(log, b, mid, pr, items, n, pr.halt.Going? && pr.errors == errors);
      } else {
        var mid := Touched(log, b, v, step.writes);
        TouchedKeeps(log, b, v, step.writes, n);
        if step.Errs? {
          DeltaPageKeeps(log, mid, items[1..], Rest(steps), errors + 1, n);
          NewerIsTransitive(log, b, mid, DeltaPage(log, mid, items[1..], Rest(steps), errors + 1).books, n);
        }
      }
    }
  }

  // ---- Turns keep it ----

  /** A loop between turns. */
  ghost predicate Held(log: Log, x: Loop, from: nat, complete: bool, resumes: bool) {
    && Behind(log, x.cal, x.token, from, complete)
    && (x.errors == 0 && x.token.At? ==> PagesDone(log, x.cal.books, x.token.listing, x.token.page))
    && (x.cal.run.Running? && DecodeCheckpoint(x.cal.run.saved).Some? ==>
          resumes && complete && from == 0 && x.errors == 0 && DecodeCheckpoint(x.cal.run.saved).value == x.token)
  }

  /** A loop that came to its last page with a token worth storing. */
  ghost predicate Worth(log: Log, x: Loop) {
    x.outcome.Ran? && x.outcome.final.Some? && x.errors == 0 ==>
      && x.outcome.final.value <= |log| && Reflected(log, x.cal.books, x.outcome.final.value)
      && (x.cal.run.Running? && DecodeCheckpoint(x.cal.run.saved).Some? ==> DecodeCheckpoint(x.cal.run.saved).value.Start?)
  }

  ghost predicate LoopOk(log: Log, x: Loop, from: nat, complete: bool, resumes: bool) {
    && CursorOk(log, x.cal) && Worth(log, x)
    && (if x.outcome.Open? then Held(log, x, from, complete, resumes) else SavedOk(log, x.cal))
  }

  lemma ReflectedKept(log: Log, b: Books, b': Books, m: nat, n: nat)
    requires m <= n <= |log| && Reflected(log, b, m) && Newer(log, b, b', n)
    ensures Reflected(log, b', m)
  {
  }

  lemma PagesKept(log: Log, b: Books, b': Books, l: Listing, p: nat)
    requires l.upTo <= |log| && PagesDone(log, b, l, p) && Newer(log, b, b', l.upTo)
    ensures PagesDone(log, b', l, p)
  {
    forall q | 0 <= q < p && q < |l.pages| ensures PageDone(log, b', l.pages[q], l.upTo) {
      assert PageDone(log, b, l.pages[q], l.upTo);
    }
  }

  lemma PagesPlusOne(log: Log, b: Books, l: Listing, p: nat)
    requires l.upTo <= |log| && p < |l.pages| && PagesDone(log, b, l, p) && PageDone(log, b, l.pages[p], l.upTo)
    ensures PagesDone(log, b, l, p + 1)
  {
  }

  /** A complete listing whose pages are all archived reflects everything its token covers. */
  lemma ListingReflects(log: Log, b: Books, l: Listing)
    requires ListingOk(log, l) && Complete(log, l) && PagesDone(log, b, l, |l.pages|)
    requires Reflected(log, b, l.from)
    ensures Reflected(log, b, l.upTo)
  {
    forall i | 0 <= i < l.upTo ensures UpToDate(log, b, KeyAt(log, i), l.upTo) {
      var key := KeyAt(log, i);
      if exists j :: l.from <= j < l.upTo && KeyAt(log, j) == key {
        var j :| l.from <= j < l.upTo && KeyAt(log, j) == key;
        var p :| 0 <= p < |l.pages| && OnPage(log, l.pages[p], KeyAt(log, j));
        assert PageDone(log, b, l.pages[p], l.upTo);
      } else {
        assert UpToDate(log, b, key, l.from);
      }
    }
  }

  lemma PageIsLatest(log: Log, l: Listing, p: nat)
    requires ListingOk(log, l) && p < |l.pages|
    ensures InLog(log, l.pages[p]) && AllLatest(log, l.pages[p], l.upTo)
  {
    assert Delivers(log, l, p);
  }

  /** The books a page leaves are fit for the rest of the loop. */
  lemma PageKeepsLoop(log: Log, x: Loop, at: PageToken, s: Calendar, pr: Progress, from: nat, complete: bool, resumes: bool, all: bool)
    requires LoopOk(log, x, from, complete, resumes) && x.outcome.Open?
    requires at.At? && (x.token.At? ==> at == x.token) && (x.token.Start? ==> at.page == 0)
    requires Behind(log, x.cal, at, from, complete)
    requires PageKept(log, x.cal.books, pr, at.listing.pages[at.page], at.listing.upTo, all)
    requires s == x.cal.(books := pr.books)
    ensures CursorOk(log, s) && SavedOk(log, s)
    ensures x.errors == 0 && all ==> PagesDone(log, s.books, at.listing, at.page + 1)
  {
    var l := at.listing;
    if s.cursor.Some? {
      ReflectedKept(log, x.cal.books, s.books, s.cursor.value, l.upTo);
    }
    if x.errors == 0 {
      assert PagesDone(log, x.cal.books, l, at.page);
      PagesKept(log, x.cal.books, s.books, l, at.page);
      if all {
        PagesPlusOne(log, s.books, l, at.page);
      }
    }
  }

  lemma LastPageIsWorth(log: Log, s: Calendar, at: PageToken, from: nat)
    requires at.At? && Behind(log, s, at, from, true) && NextToken(at).Start?
    requires PagesDone(log, s.books, at.listing, at.page + 1) && Reflected(log, s.books, from)
    ensures Reflected(log, s.books, at.listing.upTo)
  {
    ListingReflects(log, s.books, at.listing);
  }

  lemma FullAfterKeeps(log: Log, c: Choice, x: Loop, at: PageToken, pr: Progress, save: Step, x': Loop)
    requires LoopOk(log, x, 0, !c.bounded, ResumeEligible(c)) && x.outcome.Open? && x.errors == 0
    requires at.At? && (x.token.At? ==> at == x.token) && (x.token.Start? ==> at.page == 0)
    requires Behind(log, x.cal, at, 0, !c.bounded)
    requires PageKept(log, x.cal.books, pr, at.listing.pages[at.page], at.listing.upTo, pr.halt.Going?)
    requires pr.halt.LimitHit? ==> c.limit > 0
    requires x' == FullAfter(c, x, at, pr, save)
    ensures LoopOk(log, x', 0, !c.bounded, ResumeEligible(c)) && x'.errors == 0
  {
    var s := x.cal.(books := pr.books);
    PageKeepsLoop(log, x, at, s, pr, 0, !c.bounded, ResumeEligible(c), pr.halt.Going?);
    if pr.halt.Going? && NextToken(at).Start? && !c.bounded {
      LastPageIsWorth(log, s, at, 0);
    }
  }

  lemma FullPageLimit(log: Log, b: Books, items: seq<nat>, steps: seq<Step>, limit: int, ingested: int)
    requires InLog(log, items) && FullPage(log, b, items, steps, limit, ingested).halt.LimitHit?
    ensures limit > 0
    decreases |items|
  {
    if !(limit > 0 && ingested >= limit) {
      FullPageLimit(log, Persisted(log, b, items[0]), items[1..], Rest(steps), limit, ingested + 1);
    }
  }

  lemma FullTurnKeeps(log: Log, c: Choice, x: Loop, turn: Turn, x': Loop)
    requires LoopOk(log, x, 0, !c.bounded, ResumeEligible(c)) && x.outcome.Open? && x.errors == 0
    requires turn.Page? ==> Answerable(log, Served(x.token, turn.start))
    requires turn.Page? && x.token.Start? ==> Startable(log, x.cal, turn.start, 0, c.bounded)
    requires x' == FullTurn(log, c, x, turn)
    ensures LoopOk(log, x', 0, !c.bounded, ResumeEligible(c)) && x'.errors == 0
  {
    if turn.Page? {
      var at := Served(x.token, turn.start);
      var page := at.listing.pages[at.page];
      var pr := FullPage(log, x.cal.books, page, turn.steps, c.limit, x.ingested);
      PageIsLatest(log, at.listing, at.page);
      FullPageKeeps(log, x.cal.books, page, turn.steps, c.limit, x.ingested, at.listing.upTo, pr);
      if pr.halt.LimitHit? {
        FullPageLimit(log, x.cal.books, page, turn.steps, c.limit, x.ingested);
      }
      FullAfterKeeps(log, c, x, at, pr, turn.save, x');
    }
  }

  lemma DeltaAfterKeeps(log: Log, x: Loop, at: PageToken, pr: Progress, save: Step, x': Loop, from: nat)
    requires LoopOk(log, x, from, true, false) && x.outcome.Open? && x.cal.cursor == Some(from)
    requires at.At? && (x.token.At? ==> at == x.token) && (x.token.Start? ==> at.page == 0)
    requires Behind(log, x.cal, at, from, true) && pr.errors >= x.errors
    requires PageKept(log, x.cal.books, pr, at.listing.pages[at.page], at.listing.upTo, pr.halt.Going? && pr.errors == x.errors)
    requires pr.halt.Going? || pr.halt.Stopped?
    requires x' == DeltaAfter(x, at, pr, save)
    ensures LoopOk(log, x', from, true, false) && x'.cal.cursor == Some(from)
  {
    var s := x.cal.(books := pr.books);
    PageKeepsLoop(log, x, at, s, pr, from, true, false, pr.halt.Going? && pr.errors == x.errors);
    if pr.halt.Going? && pr.errors == 0 && NextToken(at).Start? {
      LastPageIsWorth(log, s, at, from);
    }
  }

  lemma DeltaPageHalts(log: Log, b: Books, items: seq<nat>, steps: seq<Step>, errors: nat)
    requires InLog(log, items)
    ensures DeltaPage(log, b, items, steps, errors).halt in {Going, Stopped}
    decreases |items|
  {
  }

  lemma DeltaTurnKeeps(log: Log, x: Loop, turn: Turn, x': Loop, from: nat)
    requires LoopOk(log, x, from, true, false) && x.outcome.Open? && x.cal.cursor == Some(from)
    requires turn.Page? ==> Answerable(log, Served(x.token, turn.start))
    requires turn.Page? && x.token.Start? ==> Startable(log, x.cal, turn.start, from, false)
    requires x' == DeltaTurn(log, x, turn)
    ensures LoopOk(log, x', from, true, false) && x'.cal.cursor == Some(from)
  {
    if turn.Page? {
      var at := Served(x.token, turn.start);
      var page := at.listing.pages[at.page];
      var pr := DeltaPage(log, x.cal.books, page, turn.steps, x.errors);
      PageIsLatest(log, at.listing, at.page);
      DeltaPageKeeps(log, x.cal.books, page, turn.steps, x.errors, at.listing.upTo);
      DeltaPageHalts(log, x.cal.books, page, turn.steps, x.errors);
      DeltaAfterKeeps(log, x, at, pr, turn.save, x', from);
    }
  }

  lemma {:induction false} FullLoopKeeps(log: Log, c: Choice, x: Loop, script: seq<Turn>)
    requires LoopOk(log, x, 0, !c.bounded, ResumeEligible(c)) && x.errors == 0 && FullServed(log, c, x, script)
    ensures LoopOk(log, FullLoop(log, c, x, script), 0, !c.bounded, ResumeEligible(c)) && FullLoop(log, c, x, script).errors == 0
    decreases |script|
  {
    if x.outcome.Open? && script != [] {
      FullTurnKeeps(log, c, x, script[0], FullTurn(log, c, x, script[0]));
      FullLoopKeeps(log, c, FullTurn(log, c, x, script[0]), script[1..]);
    }
  }

  lemma {:induction false} DeltaLoopKeeps(log: Log, from: nat, x: Loop, script: seq<Turn>)
    requires LoopOk(log, x, from, true, false) && x.cal.cursor == Some(from) && DeltaServed(log, from, x, script)
    ensures LoopOk(log, DeltaLoop(log, from, x, script), from, true, false)
    decreases |script|
  {
    if x.outcome.Open? && script != [] {
      DeltaTurnKeeps(log, x, script[0], DeltaTurn(log, x, script[0]), from);
      DeltaLoopKeeps(log, from, DeltaTurn(log, x, script[0]), script[1..]);
    }
  }

  // ---- Any sequence of runs ----

  /** One run of the calendar: a full sync, or an incremental one with what happens if its token
      turns out to be expired, or was never there. */
  datatype Session =
    | FullSync(choice: Choice, script: seq<Turn>, end: Ending)
    | Incremental(choice: Choice, delta: seq<Turn>, deltaEnd: Ending, clear: Step, again: seq<Turn>, againEnd: Ending)

  ghost predicate DeltaOffered(log: Log, s: Calendar, session: Session)
    requires session.Incremental? && s.cursor.Some?
  {
    && DeltaServed(log, s.cursor.value, DeltaStart(s), session.delta)
    && var x := DeltaLoop(log, s.cursor.value, DeltaStart(s), session.delta);
       x.outcome.Expired? ==> FullServed(log, session.choice, FullStart(Cleared(x.cal, session.clear), session.choice), session.again)
  }

  /** The scripts answer every request the session makes. */
  ghost predicate Offered(log: Log, s: Calendar, session: Session) {
    match session
    case FullSync(c, script, _) => FullServed(log, c, FullStart(s, c), script)
    case Incremental(c, _, _, _, again, _) =>
      if s.cursor.None? then FullServed(log, c, FullStart(s, c), again) else DeltaOffered(log, s, session)
  }

  ghost function DeltaRun(log: Log, s: Calendar, session: Session): Calendar
    requires session.Incremental? && s.cursor.Some? && DeltaOffered(log, s, session)
  {
    var x := DeltaLoop(log, s.cursor.value, DeltaStart(s), session.delta);
    if x.outcome.Expired?
    then FullRun(log, Cleared(x.cal, session.clear), session.choice, session.again, session.againEnd)
    else DeltaEnd(x, session.deltaEnd)
  }

  ghost function After(log: Log, s: Calendar, session: Session): Calendar
    requires Offered(log, s, session)
  {
    match session
    case FullSync(c, script, end) => FullRun(log, s, c, script, end)
    case Incremental(c, _, _, _, again, end) =>
      if s.cursor.None? then FullRun(log, s, c, again, end) else DeltaRun(log, s, session)
  }

  ghost predicate AllOffered(log: Log, s: Calendar, sessions: seq<Session>)
    decreases |sessions|
  {
    sessions != [] ==> Offered(log, s, sessions[0]) && AllOffered(log, After(log, s, sessions[0]), sessions[1..])
  }

  ghost function AfterAll(log: Log, s: Calendar, sessions: seq<Session>): Calendar
    requires AllOffered(log, s, sessions)
    decreases |sessions|
  {
    if sessions == [] then s else AfterAll(log, After(log, s, sessions[0]), sessions[1..])
  }

  lemma FinishKeeps(log: Log, x: Loop, from: nat, complete: bool, resumes: bool, end: Ending)
    requires LoopOk(log, x, from, complete, resumes) && x.outcome.Ran? && x.errors == 0
    ensures CalendarOk(log, Finish(x.cal, x.outcome.final, end))
  {
  }

  lemma FullRunKeeps(log: Log, s: Calendar, c: Choice, script: seq<Turn>, end: Ending)
    requires CalendarOk(log, s) && FullServed(log, c, FullStart(s, c), script)
    ensures CalendarOk(log, FullRun(log, s, c, script, end))
  {
    FullLoopKeeps(log, c, FullStart(s, c), script);
    var x := FullLoop(log, c, FullStart(s, c), script);
    if x.outcome.Ran? {
      FinishKeeps(log, x, 0, !c.bounded, ResumeEligible(c), end);
    }
  }

  lemma DeltaRunKeeps(log: Log, s: Calendar, session: Session)
    requires CalendarOk(log, s) && session.Incremental? && s.cursor.Some? && DeltaOffered(log, s, session)
    ensures CalendarOk(log, DeltaRun(log, s, session))
  {
    var from := s.cursor.value;
    DeltaLoopKeeps(log, from, DeltaStart(s), session.delta);
    var x := DeltaLoop(log, from, DeltaStart(s), session.delta);
    if x.outcome.Expired? {
      FullRunKeeps(log, Cleared(x.cal, session.clear), session.choice, session.again, session.againEnd);
    } else if x.outcome.Ran? && x.errors == 0 {
      FinishKeeps(log, x, from, true, false, session.deltaEnd);
    }
  }

  lemma SessionKeeps(log: Log, s: Calendar, session: Session)
    requires CalendarOk(log, s) && Offered(log, s, session)
    ensures CalendarOk(log, After(log, s, session))
  {
    match session
    case FullSync(c, script, end) => FullRunKeeps(log, s, c, script, end);
    case Incremental(c, _, _, _, again, end) =>
      if s.cursor.None? {
        FullRunKeeps(log, s, c, again, end);
      } else {
        DeltaRunKeeps(log, s, session);
      }
  }

  lemma {:induction false} SessionsKeep(log: Log, s: Calendar, sessions: seq<Session>)
    requires CalendarOk(log, s) && AllOffered(log, s, sessions)
    ensures CalendarOk(log, AfterAll(log, s, sessions))
    decreases |sessions|
  {
    if sessions != [] {
      SessionKeeps(log, s, sessions[0]);
      SessionsKeep(log, After(log, s, sessions[0]), sessions[1..]);
    }
  }

  /** Every part of the archived row shows change i, or a later change of the same key. */
  ghost predicate Shown(log: Log, rows: Rows, i: nat)
    requires i < |log|
  {
    KeyAt(log, i) in rows && RowFrom(log, rows[KeyAt(log, i)], KeyAt(log, i), i)
  }

  /** Main result: over any runs - full, resumed, limited, time-bounded, cancelled, failing at any
      item, incremental with failing items, expired, or dying anywhere - a stored token never covers a
      change or a cancellation the archive does not show. */
  lemma TokenNeverAhead(log: Log, start: Calendar, sessions: seq<Session>)
    requires start.books.ver == map[] && start.cursor.None? && start.run.Ended?
    requires AllOffered(log, start, sessions)
    ensures var end := AfterAll(log, start, sessions);
      end.cursor.Some? ==> end.cursor.value <= |log| && forall i | 0 <= i < end.cursor.value :: Shown(log, end.books.rows, i)
  {
    SessionsKeep(log, start, sessions);
    var end := AfterAll(log, start, sessions);
    if end.cursor.Some? {
      forall i | 0 <= i < end.cursor.value ensures Shown(log, end.books.rows, i) {
        assert UpToDate(log, end.books, KeyAt(log, i), end.cursor.value);
        var key := KeyAt(log, i);
        OlderPart(log, end.books.rows[key], key, i, end.books.ver[key]);
      }
    }
  }

  // ---- When the token does move ----

  lemma {:induction false} FullLoopLeavesCursor(log: Log, c: Choice, x: Loop, script: seq<Turn>)
    requires FullServed(log, c, x, script)
    ensures FullLoop(log, c, x, script).cal.cursor == x.cal.cursor
    decreases |script|
  {
    if x.outcome.Open? && script != [] {
      FullLoopLeavesCursor(log, c, FullTurn(log, c, x, script[0]), script[1..]);
    }
  }

  /** The stored token changes only at the end of a full run that got to a sync token it may store. */
  lemma FullRunCursor(log: Log, s: Calendar, c: Choice, script: seq<Turn>, end: Ending)
    requires FullServed(log, c, FullStart(s, c), script)
    ensures var x := FullLoop(log, c, FullStart(s, c), script);
      FullRun(log, s, c, script, end).cursor ==
        if x.outcome.Ran? && x.outcome.final.Some? && end.advance.Done? then x.outcome.final else s.cursor
  {
    FullLoopLeavesCursor(log, c, FullStart(s, c), script);
  }

  ghost predicate AllDone(steps: seq<Step>, n: nat) {
    |steps| >= n && forall k | 0 <= k < n :: steps[k].Done?
  }

  lemma {:induction false} CleanPage(log: Log, b: Books, items: seq<nat>, steps: seq<Step>, ingested: int)
    requires InLog(log, items) && AllDone(steps, |items|)
    ensures FullPage(log, b, items, steps, 0, ingested).halt.Going?
    decreases |items|
  {
    if items != [] {
      CleanPage(log, Persisted(log, b, items[0]), items[1..], Rest(steps), ingested + 1);
    }
  }

  /** Turns in which every call works, for a traversal of listing l from page p on. */
  ghost predicate CleanFrom(l: Listing, p: nat, script: seq<Turn>) {
    && |script| >= |l.pages| - p
    && forall k | 0 <= k < |l.pages| - p ::
         script[k].Page? && script[k].start == l && script[k].save.Done? && AllDone(script[k].steps, |l.pages[p + k]|)
  }

  lemma CleanRest(l: Listing, p: nat, script: seq<Turn>)
    requires p + 1 < |l.pages| && CleanFrom(l, p, script)
    ensures CleanFrom(l, p + 1, script[1..])
  {
    forall k | 0 <= k < |l.pages| - (p + 1)
      ensures script[1..][k].Page? && script[1..][k].start == l && script[1..][k].save.Done?
      ensures AllDone(script[1..][k].steps, |l.pages[p + 1 + k]|)
    {
      assert script[1..][k] == script[k + 1] && l.pages[p + 1 + k] == l.pages[p + (k + 1)];
    }
  }

  lemma {:induction false} CleanTraversal(log: Log, c: Choice, x: Loop, script: seq<Turn>, l: Listing, p: nat)
    requires FullServed(log, c, x, script) && x.outcome.Open? && c.limit == 0 && !c.bounded
    requires p < |l.pages| && CleanFrom(l, p, script)
    requires x.token == At(l, p) || (x.token.Start? && p == 0)
    ensures FullLoop(log, c, x, script).outcome == Ran(if l.token then Some(l.upTo) else None)
    decreases |script|
  {
    var at := Served(x.token, script[0].start);
    assert at == At(l, p);
    CleanPage(log, x.cal.books, l.pages[p], script[0].steps, x.ingested);
    var next := FullTurn(log, c, x, script[0]);
    if p + 1 < |l.pages| {
      assert next.token == At(l, p + 1);
      CleanRest(l, p, script);
      CleanTraversal(log, c, next, script[1..], l, p + 1);
    }
  }

  /** A run that resumes a saved page token and is not disturbed stores the listing's token: the pages
      before the interruption need not be fetched again. */
  lemma ResumedRunFinishes(log: Log, s: Calendar, c: Choice, script: seq<Turn>, l: Listing, p: nat)
    requires FullServed(log, c, FullStart(s, c), script)
    requires s.run == Running(EncodeCheckpoint(At(l, p))) && ResumeEligible(c) && !c.unread && l.token
    requires p < |l.pages| && CleanFrom(l, p, script)
    ensures FullRun(log, s, c, script, Ending(Done, Done)).cursor == Some(l.upTo)
  {
    CleanTraversal(log, c, FullStart(s, c), script, l, p);
  }

  lemma {:induction false} DeltaLoopLeavesCursor(log: Log, from: nat, x: Loop, script: seq<Turn>)
    requires DeltaServed(log, from, x, script)
    ensures DeltaLoop(log, from, x, script).cal.cursor == x.cal.cursor
    decreases |script|
  {
    if x.outcome.Open? && script != [] {
      DeltaLoopLeavesCursor(log, from, DeltaTurn(log, x, script[0]), script[1..]);
    }
  }

  /** An incremental run moves the token only when no item failed and it got to a new token. */
  lemma DeltaRunCursor(log: Log, s: Calendar, session: Session)
    requires session.Incremental? && s.cursor.Some? && DeltaOffered(log, s, session)
    requires !DeltaLoop(log, s.cursor.value, DeltaStart(s), session.delta).outcome.Expired?
    ensures var x := DeltaLoop(log, s.cursor.value, DeltaStart(s), session.delta);
      DeltaRun(log, s, session).cursor ==
        if x.outcome.Ran? && x.errors == 0 && x.outcome.final.Some? && session.deltaEnd.advance.Done?
        then x.outcome.final else s.cursor
  {
    DeltaLoopLeavesCursor(log, s.cursor.value, DeltaStart(s), session.delta);
  }

  /** An expired token heals: cleared, and followed by an undisturbed full traversal, the stored
      token is the new one. */
  lemma ExpiredTokenHeals(log: Log, s: Calendar, session: Session, l: Listing)
    requires CalendarOk(log, s) && s.cursor.Some? && session.Incremental? && Offered(log, s, session)
    requires session.delta != [] && session.delta[0].Gone? && session.clear.Done?
    requires session.choice.limit == 0 && !session.choice.bounded
    requires |l.pages| > 0 && l.token && CleanFrom(l, 0, session.again) && session.againEnd == Ending(Done, Done)
    ensures After(log, s, session).cursor == Some(l.upTo)
  {
    var gone := DeltaTurn(log, DeltaStart(s), session.delta[0]);
    var x := DeltaLoop(log, s.cursor.value, DeltaStart(s), session.delta);
    assert DeltaLoop(log, s.cursor.value, gone, session.delta[1..]) == gone == x;
    var cal := Cleared(x.cal, session.clear);
    assert ResumeToken(cal, session.choice) == Start;
    CleanTraversal(log, session.choice, FullStart(cal, session.choice), session.again, l, 0);
  }

  // ---- The syncer ----

  /** One calendar's source row, its run row and its archived rows. */
  class CalendarSyncer {
    const log: Log
    var rows: Rows
    var cursor: Option<nat>
    var run: Run
    ghost var ver: map<string, nat>

    ghost function View(): Calendar
      reads this
    {
      Calendar(Books(rows, ver), cursor, run)
    }

    constructor (log: Log)
      ensures this.log == log && View() == Calendar(Books(map[], map[]), None, Ended)
    {
      this.log, rows, cursor, run, ver := log, map[], None, Ended, map[];
    }

    /** persistOne with what became of it. */
    method Persist(v: nat, step: Step)
      requires v < |log|
      modifies this`rows, this`ver
      ensures Books(rows, ver) == if step.Done? then Persisted(log, old(Books(rows, ver)), v)
                                  else Touched(log, old(Books(rows, ver)), v, step.writes)
    {
      var writes := if step.Done? then WRITES else step.writes;
      if writes > 0 {
        if log[v].status == CANCELLED && KeyAt(log, v) in rows {
          var row := rows[KeyAt(log, v)];
          rows := rows[KeyAt(log, v) := row.(meta := Fields(Readable(row.meta)["status" := CANCELLED]))];
        } else {
          Ingest(log[v], writes);
        }
      }
      if step.Done? || (KeyAt(log, v) in ver && writes > 0 && v < ver[KeyAt(log, v)]) {
        ver := ver[KeyAt(log, v) := v];
      }
    }

    /** ingestEvent, write after write on the row until one fails. */
    method Ingest(ev: Event, writes: nat)
      requires writes > 0
      modifies this`rows
      ensures rows == old(rows)[SourceMessageID(ev) := Ingested(RowOrBare(old(rows), SourceMessageID(ev)), ev, writes)]
    {
      var key := SourceMessageID(ev);
      var row := if key in rows then rows[key] else BARE;
      row := row.(head := ev.content.head);
      if writes >= 2 {
        row := row.(meta := Fields(BuildMetadata(ev)));
      }
      if writes >= 3 {
        row := row.(body := Some(ev.content.body));
      }
      if writes >= 4 {
        row := row.(raw := Some(ev.content.raw));
      }
      if writes >= 5 {
        row := row.(sender := ev.content.organizer);
      }
      if writes >= 6 {
        row := row.(to := ev.content.attendees);
      }
      assert row == Ingested(RowOrBare(rows, key), ev, writes);
      rows := rows[key := row];
    }

    method PersistFullPage(items: seq<nat>, steps: seq<Step>, limit: int, already: int)
      returns (ingested: int, halt: Halt)
      requires InLog(log, items)
      modifies this`rows, this`ver
      ensures Progress(Books(rows, ver), ingested, 0, halt) == FullPage(log, old(Books(rows, ver)), items, steps, limit, already)
    {
      ingested := already;
      var i, rest := 0, steps;
      while i < |items|
        invariant 0 <= i <= |items|
        invariant FullPage(log, Books(rows, ver), items[i..], rest, limit, ingested)
          == FullPage(log, old(Books(rows, ver)), items, steps, limit, already)
      {
        if limit > 0 && ingested >= limit {
          return ingested, LimitHit;
        }
        var step := StepAt(rest);
        assert items[i..][0] == items[i] && items[i..][1..] == items[i + 1..];
        Persist(items[i], step);
        if step.Errs? {
          return ingested, Failed;
        } else if step.Stops? {
          return ingested, Stopped;
        }
        ingested := ingested + 1;
        i, rest := i + 1, Rest(rest);
      }
      halt := Going;
    }

    method PersistDeltaPage(items: seq<nat>, steps: seq<Step>, already: nat) returns (errors: nat, halt: Halt)
      requires InLog(log, items)
      modifies this`rows, this`ver
      ensures Progress(Books(rows, ver), 0, errors, halt) == DeltaPage(log, old(Books(rows, ver)), items, steps, already)
    {
      errors := already;
      var i, rest := 0, steps;
      while i < |items|
        invariant 0 <= i <= |items|
        invariant DeltaPage(log, Books(rows, ver), items[i..], rest, errors)
          == DeltaPage(log, old(Books(rows, ver)), items, steps, already)
      {
        var step := StepAt(rest);
        assert items[i..][0] == items[i] && items[i..][1..] == items[i + 1..];
        Persist(items[i], step);
        if step.Errs? {
          errors := errors + 1;
        } else if step.Stops? {
          return errors, Stopped;
        }
        i, rest := i + 1, Rest(rest);
      }
      halt := Going;
    }

    /** One pass of the full loop's body. */
    method TakeFullTurn(c: Choice, token: PageToken, already: int, turn: Turn)
      returns (token': PageToken, ingested: int, outcome: Outcome)
      requires turn.Page? ==> Answerable(log, Served(token, turn.start))
      modifies this`rows, this`ver, this`run
      ensures Loop(View(), token', ingested, 0, outcome) == FullTurn(log, c, Loop(old(View()), token, already, 0, Open), turn)
    {
      token', ingested, outcome := token, already, Left;
      match turn
      case Canceled =>
      case Refused => run := Ended;
      case Gone => run := Ended;
      case Page(start, steps, save) =>
        var at := Served(token, start);
        var n, halt := PersistFullPage(at.listing.pages[at.page], steps, c.limit, already);
        if halt.Failed? {
          run := Ended;
          return;
        } else if halt.Stopped? {
          return;
        }
        if ResumeEligible(c) {
          match save {
            case Done => run := Running(EncodeCheckpoint(NextToken(at)));
            case Errs(_) => run := Ended;
            case Stops(_) =>
          }
          outcome := if save.Done? then Open else Left;
        } else {
          outcome := Open;
        }
        token', ingested := NextToken(at), n;
        if outcome.Open? && (token'.Start? || halt.LimitHit?) {
          outcome := Ran(FinalToken(c, halt.LimitHit?, at));
        }
    }

    method Close(final: Option<nat>, end: Ending)
      modifies this`cursor, this`run
      ensures View() == Finish(old(View()), final, end)
    {
      if final.Some? {
        match end.advance {
          case Done => cursor := final;
          case Errs(_) =>
            run := Ended;
            return;
          case Stops(_) => return;
        }
      }
      if !end.complete.Stops? {
        run := Ended;
      }
    }

    method SyncCalendarFull(c: Choice, script: seq<Turn>, end: Ending)
      requires FullServed(log, c, FullStart(View(), c), script)
      modifies this
      ensures View() == FullRun(log, old(View()), c, script, end)
    {
      ghost var x0 := FullStart(View(), c);
      var token, ingested, outcome: Outcome := Start, 0, Open;
      if ResumeEligible(c) && !c.unread && run.Running? && DecodeCheckpoint(run.saved).Some? {
        token := DecodeCheckpoint(run.saved).value;
      }
      run := Running(Blank);
      var i := 0;
      while i < |script| && outcome.Open?
        invariant 0 <= i <= |script|
        invariant FullServed(log, c, Loop(View(), token, ingested, 0, outcome), script[i..])
        invariant FullLoop(log, c, Loop(View(), token, ingested, 0, outcome), script[i..]) == FullLoop(log, c, x0, script)
      {
        assert script[i..][0] == script[i] && script[i..][1..] == script[i + 1..];
        token, ingested, outcome := TakeFullTurn(c, token, ingested, script[i]);
        i := i + 1;
      }
      if outcome.Ran? {
        Close(outcome.final, end);
      }
    }

    /** One pass of the incremental loop's body. */
    method TakeDeltaTurn(token: PageToken, already: nat, turn: Turn)
      returns (token': PageToken, errors: nat, outcome: Outcome)
      requires turn.Page? ==> Answerable(log, Served(token, turn.start))
      modifies this`rows, this`ver, this`run
      ensures Loop(View(), token', 0, errors, outcome) == DeltaTurn(log, Loop(old(View()), token, 0, already, Open), turn)
    {
      token', errors, outcome := token, already, Left;
      match turn
      case Canceled => run := Ended;
      case Refused => run := Ended;
      case Gone =>
        run := Ended;
        outcome := Expired;
      case Page(start, steps, save) =>
        var at := Served(token, start);
        var n, halt := PersistDeltaPage(at.listing.pages[at.page], steps, already);
        if halt.Stopped? {
          return;
        }
        token', errors := NextToken(at), n;
        match save
        case Done =>
          run := Running(Bare(token'));
          outcome := if token'.Start? then Ran(SyncTokenOn(at)) else Open;
        case Errs(_) => run := Ended;
        case Stops(_) =>
    }

    method IncrementalCalendar(from: nat, script: seq<Turn>, end: Ending) returns (expired: bool)
      requires DeltaServed(log, from, DeltaStart(View()), script)
      modifies this
      ensures var x := DeltaLoop(log, from, DeltaStart(old(View())), script);
        expired == x.outcome.Expired? && View() == DeltaEnd(x, end)
    {
      ghost var x0 := DeltaStart(View());
      var token, errors, outcome: Outcome := Start, 0, Open;
      run := Running(Blank);
      var i := 0;
      while i < |script| && outcome.Open?
        invariant 0 <= i <= |script|
        invariant DeltaServed(log, from, Loop(View(), token, 0, errors, outcome), script[i..])
        invariant DeltaLoop(log, from, Loop(View(), token, 0, errors, outcome), script[i..]) == DeltaLoop(log, from, x0, script)
      {
        assert script[i..][0] == script[i] && script[i..][1..] == script[i + 1..];
        token, errors, outcome := TakeDeltaTurn(token, errors, script[i]);
        i := i + 1;
      }
      expired := outcome.Expired?;
      if outcome.Ran? {
        if errors > 0 {
          run := Ended;
        } else {
          Close(outcome.final, end);
        }
      }
    }

    /** Incremental: a full sync without a token, and after an expired one. */
    method SyncIncremental(session: Session)
      requires session.Incremental? && Offered(log, View(), session)
      modifies this
      ensures View() == After(log, old(View()), session)
    {
      if cursor.None? {
        SyncCalendarFull(session.choice, session.again, session.againEnd);
      } else {
        var expired := IncrementalCalendar(cursor.value, session.delta, session.deltaEnd);
        if expired {
          if session.clear.Done? {
            cursor := None;
          }
          SyncCalendarFull(session.choice, session.again, session.againEnd);
        }
      }
    }
  }
}
