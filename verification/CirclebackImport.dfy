/** An import run: due retries first, then what the search returns, in batches of meetings. Any call
    may fail and any run may stop; the archive keeps what was written, the cursor only what a run
    without errors completed. */
module CirclebackImport {
  import opened Options
  import opened Text
  import opened CirclebackRetry
  import opened CirclebackTranscript

  datatype Meeting = Meeting(id: string, created: nat, times: Times, payload: Json)

  /** An archived meeting: the transcript state in its metadata, if there is metadata, its creation
      time there, and the composed raw. */
  datatype Row = Row(state: Option<State>, created: nat, raw: Json)

  type Archive = map<string, Row>

  /** What a run works on: the archive, the retries by meeting, its errors and the new watermark. */
  datatype Work = Work(archive: Archive, pending: map<string, Pending>, errors: nat, maxCreated: nat)

  /** The meetings for which a store call fails. */
  datatype Trouble = Trouble(stateReads: set<string>, recoveries: set<string>, ingests: set<string>)

  const BATCH := 5
  const OVERLAP := 48 * HOUR

  function StateOf(row: Row): State {
    if row.state.Some? then row.state.value else IsOther
  }

  function Ingested(m: Meeting, t: Option<Transcript>, desired: State): Row {
    Row(Some(if HasContent(t) then IsPresent else desired), m.created, ComposeRaw(m.payload, t))
  }

  // ---- One meeting ----

  /** Writing the meeting, or failing to; its retries have been decided already. */
  function Persisted(w: Work, m: Meeting, t: Option<Transcript>, desired: State, pending: map<string, Pending>, fails: bool): Work {
    if fails then w.(pending := pending, errors := w.errors + 1)
    else Work(w.archive[m.id := Ingested(m, t, desired)], pending, w.errors,
              if m.created > w.maxCreated then m.created else w.maxCreated)
  }

  function Before(w: Work, id: string): Option<Pending> {
    if id in w.pending then Some(w.pending[id]) else None
  }

  /** Content settles the meeting; otherwise it is retried or given up. */
  function Settled(w: Work, m: Meeting, t: Option<Transcript>, now: nat, fails: bool): Work {
    var retry := Schedule(m.id, m.times, now, Before(w, m.id));
    if HasContent(t) then Persisted(w, m, t, IsPresent, w.pending - {m.id}, fails)
    else if retry.Some? then Persisted(w, m, t, IsPending, w.pending[m.id := retry.value], fails)
    else Persisted(w, m, t, IsUnavailable, w.pending - {m.id}, fails)
  }

  /** What a batch knows of a meeting when it gets to it. */
  datatype Case = StateFailed | GivenUp | CallFailed | Told(answer: Option<Transcript>)

  predicate Empty(t: Option<Transcript>) {
    t.None? || Classify(t.value).RecognizedEmpty?
  }

  function Error(w: Work): Work {
    w.(errors := w.errors + 1)
  }

  /** An answer without content never replaces archived content: that is read back first. */
  function Answered(w: Work, m: Meeting, t: Option<Transcript>, existed: bool, now: nat, trouble: Trouble): Work {
    var fails := m.id in trouble.ingests;
    if t.Some? && Classify(t.value).Drifted? then Error(w)
    else if existed && m.id in w.archive && Empty(t) then
      var kept := Recover(w.archive[m.id].state, w.archive[m.id].raw);
      if m.id in trouble.recoveries || kept.NoMetadata? || kept.BadState? || kept.BadRaw? then Error(w)
      else Settled(w, m, if kept.Recovered? then Some(kept.transcript) else t, now, fails)
    else Settled(w, m, t, now, fails)
  }

  function HandleMeeting(w: Work, m: Meeting, c: Case, existed: bool, now: nat, trouble: Trouble): Work {
    match c
    case StateFailed => w
    case GivenUp => Persisted(w, m, None, IsUnavailable, w.pending - {m.id}, m.id in trouble.ingests)
    case CallFailed => w
    case Told(answer) => Answered(w, m, answer, existed, now, trouble)
  }

  // ---- What every meeting keeps ----

  /** Archived as present means the content can be read back. */
  predicate Healthy(row: Row) {
    row.state == Some(IsPresent) ==>
      var kept := Recover(row.state, row.raw);
      kept.Recovered? && Faithful(kept.transcript) && Classify(kept.transcript).Present?
  }

  ghost predicate AllHealthy(archive: Archive) {
    forall id | id in archive :: Healthy(archive[id])
  }

  /** Nothing leaves the archive, and present stays present. */
  ghost predicate Sticky(a: Archive, b: Archive) {
    forall id | id in a :: id in b && (a[id].state == Some(IsPresent) ==> b[id].state == Some(IsPresent))
  }

  ghost predicate RecordsOk(pending: map<string, Pending>) {
    forall id | id in pending :: InOrder(pending[id]) && pending[id].meetingId == id
  }

  /** The meeting is archived, and is retried exactly when it is archived as pending. */
  predicate InStep(w: Work, id: string) {
    id in w.archive && (w.archive[id].state == Some(IsPending) <==> id in w.pending)
  }

  /** Meeting id aside, nothing moved. */
  ghost predicate OnlyMoved(w: Work, w': Work, ids: set<string>) {
    && (forall id | id !in ids :: id in w'.archive <==> id in w.archive)
    && (forall id | id !in ids && id in w.archive :: w'.archive[id] == w.archive[id])
    && (forall id | id !in ids :: id in w'.pending <==> id in w.pending)
    && (forall id | id !in ids && id in w.pending :: w'.pending[id] == w.pending[id])
  }

  predicate FaithfulCase(c: Case) {
    c.Told? && c.answer.Some? ==> Faithful(c.answer.value)
  }

  /** A written row is healthy. */
  lemma IngestedHealthy(m: Meeting, t: Option<Transcript>, desired: State)
    requires (t.Some? ==> Faithful(t.value)) && (desired.IsPresent? ==> HasContent(t))
    ensures Healthy(Ingested(m, t, desired))
  {
    if HasContent(t) {
      ComposeThenRecover(m.payload, t.value);
    }
  }

  /** The archive and the retries after a meeting, whatever failed. */
  lemma HandleKeeps(w: Work, m: Meeting, c: Case, existed: bool, now: nat, trouble: Trouble)
    requires AllHealthy(w.archive) && RecordsOk(w.pending) && FaithfulCase(c)
    requires existed <==> m.id in w.archive
    requires c.GivenUp? ==> m.id in w.archive && w.archive[m.id].state == Some(IsUnavailable)
    ensures var w' := HandleMeeting(w, m, c, existed, now, trouble);
      && AllHealthy(w'.archive) && Sticky(w.archive, w'.archive) && RecordsOk(w'.pending)
      && OnlyMoved(w, w', {m.id}) && w'.errors >= w.errors && w'.maxCreated >= w.maxCreated
  {
    var w' := HandleMeeting(w, m, c, existed, now, trouble);
    match c
    case StateFailed =>
    case GivenUp => IngestedHealthy(m, None, IsUnavailable);
    case CallFailed =>
    case Told(answer) => AnsweredKeeps(w, m, answer, now, trouble);
  }

  lemma SettledKeeps(w: Work, m: Meeting, t: Option<Transcript>, now: nat, fails: bool)
    requires AllHealthy(w.archive) && RecordsOk(w.pending) && (t.Some? ==> Faithful(t.value))
    requires m.id in w.archive && w.archive[m.id].state == Some(IsPresent) ==> HasContent(t)
    ensures var w' := Settled(w, m, t, now, fails);
      && AllHealthy(w'.archive) && Sticky(w.archive, w'.archive) && RecordsOk(w'.pending)
      && OnlyMoved(w, w', {m.id}) && w'.errors >= w.errors && w'.maxCreated >= w.maxCreated
      && (w'.errors == w.errors ==> InStep(w', m.id))
  {
    if Schedule(m.id, m.times, now, Before(w, m.id)).Some? {
      RecordsAreInOrder(m.id, m.times, now, Before(w, m.id));
    }
    IngestedHealthy(m, t, if HasContent(t) then IsPresent else IsPending);
    IngestedHealthy(m, t, if HasContent(t) then IsPresent else IsUnavailable);
  }

  lemma AnsweredKeeps(w: Work, m: Meeting, t: Option<Transcript>, now: nat, trouble: Trouble)
    requires AllHealthy(w.archive) && RecordsOk(w.pending) && (t.Some? ==> Faithful(t.value))
    ensures var w' := Answered(w, m, t, m.id in w.archive, now, trouble);
      && AllHealthy(w'.archive) && Sticky(w.archive, w'.archive) && RecordsOk(w'.pending)
      && OnlyMoved(w, w', {m.id}) && w'.errors >= w.errors && w'.maxCreated >= w.maxCreated
      && (w'.errors == w.errors ==> InStep(w', m.id))
  {
    var fails := m.id in trouble.ingests;
    if t.Some? && Classify(t.value).Drifted? {
    } else if m.id in w.archive && Empty(t) {
      var kept := Recover(w.archive[m.id].state, w.archive[m.id].raw);
      assert Healthy(w.archive[m.id]);
      if kept.Recovered? {
        RecoveredIsFaithful(w.archive[m.id].state, w.archive[m.id].raw);
        SettledKeeps(w, m, Some(kept.transcript), now, fails);
      } else if kept.NotKept? {
        SettledKeeps(w, m, t, now, fails);
      }
    } else {
      SettledKeeps(w, m, t, now, fails);
    }
  }

  lemma RecoveredIsFaithful(state: Option<State>, raw: Json)
    requires Recover(state, raw).Recovered?
    ensures Faithful(Recover(state, raw).transcript) && Classify(Recover(state, raw).transcript).Present? && state == Some(IsPresent)
  {
    DecodeIsFaithful(raw.fields["transcript"]);
  }

  /** A meeting handled without an error is in step with its retry; one the batch could not ask about
      has its error counted elsewhere. */
  lemma HandledInStep(w: Work, m: Meeting, c: Case, now: nat, trouble: Trouble)
    requires AllHealthy(w.archive) && RecordsOk(w.pending) && FaithfulCase(c) && (c.GivenUp? || c.Told?)
    requires HandleMeeting(w, m, c, m.id in w.archive, now, trouble).errors == w.errors
    ensures InStep(HandleMeeting(w, m, c, m.id in w.archive, now, trouble), m.id)
  {
    if c.Told? {
      AnsweredKeeps(w, m, c.answer, now, trouble);
    }
  }

  /** Main result, one meeting: archived content survives every answer - omitted, empty, expired,
      foreign, new content - in incremental and full runs alike, and can still be read back. */
  lemma PresentIsForGood(w: Work, m: Meeting, c: Case, now: nat, trouble: Trouble)
    requires AllHealthy(w.archive) && RecordsOk(w.pending) && FaithfulCase(c)
    requires m.id in w.archive && w.archive[m.id].state == Some(IsPresent) && !c.GivenUp?
    ensures var w' := HandleMeeting(w, m, c, true, now, trouble);
      && m.id in w'.archive && w'.archive[m.id].state == Some(IsPresent)
      && Recover(w'.archive[m.id].state, w'.archive[m.id].raw).Recovered?
  {
    HandleKeeps(w, m, c, true, now, trouble);
    assert Healthy(HandleMeeting(w, m, c, true, now, trouble).archive[m.id]);
  }

  /** An answer without content changes the meeting at most, never the archived transcript. */
  lemma EmptyAnswerKeepsTranscript(w: Work, m: Meeting, t: Option<Transcript>, now: nat, trouble: Trouble)
    requires m.id in w.archive && Healthy(w.archive[m.id]) && w.archive[m.id].state == Some(IsPresent) && Empty(t)
    ensures var row, row' := w.archive[m.id], Answered(w, m, t, true, now, trouble).archive[m.id];
      Recover(row'.state, row'.raw) == Recover(row.state, row.raw)
  {
    ComposeThenRecover(m.payload, Recover(w.archive[m.id].state, w.archive[m.id].raw).transcript);
  }

  // ---- A run ----

  /** Where a run is cancelled within a batch. */
  datatype Cancel = Never | BeforeRead | AfterRead | AfterTranscripts | AtMeeting(n: nat)

  /** What the provider and the store answered to one batch; no meetings or transcripts is a failed call. */
  datatype Answer = Answer(meetings: Option<seq<Meeting>>, lookupFails: bool, transcripts: Option<map<string, Transcript>>,
                           canceled: bool, trouble: Trouble, saveFails: bool, cancel: Cancel)

  /** One search page. */
  datatype Page = Page(meetings: Option<seq<Meeting>>, lookupFails: bool, canceled: bool)

  /** Transcripts reach the importer through the client's decoder. */
  ghost predicate FaithfulAnswer(a: Answer) {
    a.transcripts.Some? ==> forall id | id in a.transcripts.value :: Faithful(a.transcripts.value[id])
  }

  ghost predicate WorkOk(w: Work) {
    AllHealthy(w.archive) && RecordsOk(w.pending)
  }

  /** What handling the meetings in ids, or some of them, may have done. */
  ghost predicate Follows(w: Work, w': Work, ids: set<string>) {
    && WorkOk(w') && Sticky(w.archive, w'.archive) && OnlyMoved(w, w', ids)
    && w'.errors >= w.errors && w'.maxCreated >= w.maxCreated
  }

  lemma FollowsOn(a: Work, b: Work, c: Work, ids: set<string>, more: set<string>)
    requires Follows(a, b, ids) && Follows(b, c, more)
    ensures Follows(a, c, ids + more)
  {
  }

  function AsSet(ids: seq<string>): set<string> {
    set id | id in ids
  }

  function Ids(meetings: seq<Meeting>): set<string> {
    set m | m in meetings :: m.id
  }

  /** A meeting is retried no more: incremental runs stop asking for its transcript. */
  predicate AskedNoMore(w: Work, id: string, now: nat) {
    (id in w.pending && Expired(w.pending[id], now)) || (id in w.archive && StateOf(w.archive[id]) == IsUnavailable)
  }

  /** The retries a cursor holds, under their trimmed IDs. */
  predicate HasRecord(c: Cursor, id: string) {
    exists i | 0 <= i < |c.pending| :: TrimSpace(c.pending[i].meetingId) == id
  }

  ghost predicate CursorArchived(c: Cursor, archive: Archive) {
    forall i | 0 <= i < |c.pending| :: TrimSpace(c.pending[i].meetingId) in archive
  }

  function ReturnedIds(pages: seq<Page>): set<string> {
    if pages == [] then {}
    else
      var last := pages[|pages| - 1].meetings;
      ReturnedIds(pages[..|pages| - 1]) + (if last.Some? then Ids(last.value) else {})
  }

  /** The provider's IDs have no white space around them. */
  ghost predicate WellNamed(pages: seq<Page>) {
    forall k | 0 <= k < |pages| && pages[k].meetings.Some? ::
      forall m | m in pages[k].meetings.value :: TrimSpace(m.id) == m.id
  }

  predicate Proper(id: string) {
    id != "" && TrimSpace(id) == id
  }

  /** Why a search may leave an ID out of its work. */
  predicate Covered(w: Work, processed: set<string>, searched: seq<string>, full: bool, id: string) {
    || id in searched || id in processed
    || (!full && (id in w.pending || (id in w.archive && StateOf(w.archive[id]) != IsPending)))
  }

  lemma FollowsWider(a: Work, b: Work, ids: set<string>, more: set<string>)
    requires Follows(a, b, ids) && ids <= more
    ensures Follows(a, b, more)
  {
  }

  ghost predicate AllInStep(w: Work, ids: seq<string>) {
    forall id | id in ids :: InStep(w, id)
  }

  lemma InStepKept(w: Work, w': Work, earlier: seq<string>, ids: seq<string>)
    requires AllInStep(w, earlier) && Follows(w, w', AsSet(ids)) && AllInStep(w', ids)
    ensures AllInStep(w', earlier + ids)
  {
    forall id | id in earlier + ids ensures InStep(w', id) {
      if id !in ids {
        assert InStep(w, id);
      }
    }
  }

  /** How a search page ended. */
  datatype Verdict = GoOn | NothingNew | LimitReached | Failed

  /** A run's options and everything that happens to it. */
  datatype Request = Request(full: bool, limit: int, now: nat, loadFails: bool, due: seq<Answer>, pages: seq<Page>,
                             rest: seq<Answer>, canceled: bool, statsFail: bool, completeFails: bool)

  /** The meeting is archived, and if it waits for its transcript the cursor holds its retry. */
  predicate Healed(archive: Archive, c: Cursor, id: string) {
    id in archive && (archive[id].state == Some(IsPending) ==> HasRecord(c, id))
  }

  ghost predicate PendingArchived(w: Work) {
    forall id | id in w.pending :: id in w.archive && Proper(id)
  }

  lemma LoadedArchived(c: Cursor, archive: Archive, w: Work)
    requires CursorArchived(c, archive) && w.archive == archive
    requires forall id :: id in w.pending <==> HasRecord(c, id)
    requires forall id | id in w.pending :: Proper(id)
    ensures PendingArchived(w)
  {
    forall id | id in w.pending ensures id in w.archive {
      assert HasRecord(c, id);
    }
  }

  /** Everything a run without errors leaves waiting is archived. */
  lemma RunLeavesArchived(w0: Work, w1: Work, w2: Work, due: seq<string>, searched: seq<string>)
    requires PendingArchived(w0) && Follows(w0, w1, AsSet(due)) && Follows(w1, w2, AsSet(searched))
    requires AllInStep(w1, due) && AllInStep(w2, searched)
    requires (forall id | id in due :: id in w0.pending) && (forall id | id in searched :: Proper(id))
    ensures PendingArchived(w2)
  {
    forall id | id in w2.pending ensures id in w2.archive && Proper(id) {
      if id in searched {
        assert InStep(w2, id);
      } else if id in due {
        assert InStep(w1, id);
      }
    }
  }

  lemma CompletedIsValid(c: Cursor, w: Work)
    requires Completes(c, w.pending) && RecordsOk(w.pending) && PendingArchived(w)
    ensures ValidCursor(c) && CursorArchived(c, w.archive)
  {
    CompletedCursorValidates(c, w.pending);
  }

  predicate Accounted(w: Work, id: string) {
    id in w.archive && (w.archive[id].state == Some(IsPending) ==> id in w.pending)
  }

  /** Main result: a complete traversal without errors accounts for every meeting it was shown. */
  lemma RunHeals(w0: Work, w1: Work, w2: Work, due: seq<string>, searched: seq<string>, full: bool, returned: set<string>)
    requires PendingArchived(w0) && Follows(w0, w1, AsSet(due)) && Follows(w1, w2, AsSet(searched))
    requires AllInStep(w1, due) && AllInStep(w2, searched)
    requires forall id | id in searched :: id !in due
    requires forall id | id in returned :: Covered(w1, AsSet(due), searched, full, id)
    ensures forall id | id in returned :: Accounted(w2, id)
  {
    forall id | id in returned ensures Accounted(w2, id) {
      if id in searched {
        assert InStep(w2, id);
      } else if id in due {
        assert InStep(w1, id);
      }
    }
  }

  lemma AccountedIsHealed(w: Work, returned: set<string>, c: Cursor)
    requires forall id | id in returned :: Accounted(w, id)
    requires PendingArchived(w) && (forall id | id in w.pending :: w.pending[id].meetingId == id && w.pending[id] in c.pending)
    ensures forall id | id in returned :: Healed(w.archive, c, id)
  {
    forall id | id in returned && id in w.pending ensures HasRecord(c, id) {
      var i :| 0 <= i < |c.pending| && c.pending[i] == w.pending[id];
      assert TrimSpace(c.pending[i].meetingId) == id;
    }
  }

  lemma StickyKeepsCursor(c: Cursor, a: Archive, b: Archive)
    requires CursorArchived(c, a) && Sticky(a, b)
    ensures CursorArchived(c, b)
  {
  }

  class Importer {
    var archive: Archive
    var pending: map<string, Pending>
    var errors: nat
    var maxCreated: nat
    var cursor: Cursor

    ghost function View(): Work
      reads this
    {
      Work(archive, pending, errors, maxCreated)
    }

    /** What holds between runs, whatever happened in them: archived content can be read back, and a
        meeting with a retry in the cursor is archived. */
    ghost predicate Valid()
      reads this
    {
      AllHealthy(archive) && CursorArchived(cursor, archive)
    }

    constructor ()
      ensures Valid() && archive == map[] && cursor == Cursor(None, [])
    {
      archive, pending, errors, maxCreated, cursor := map[], map[], 0, 0, Cursor(None, []);
    }

    method Ingest(m: Meeting, t: Option<Transcript>, desired: State, fails: bool)
      modifies `archive, `pending, `errors, `maxCreated
      ensures View() == Persisted(old(View()), m, t, desired, old(pending), fails)
    {
      if fails {
        errors := errors + 1;
        return;
      }
      archive := archive[m.id := Ingested(m, t, desired)];
      if m.created > maxCreated {
        maxCreated := m.created;
      }
    }

    /** The body of the batch's last loop. */
    method Handle(m: Meeting, c: Case, now: nat, trouble: Trouble)
      modifies `archive, `pending, `errors, `maxCreated
      ensures View() == HandleMeeting(old(View()), m, c, m.id in old(archive), now, trouble)
    {
      var fails := m.id in trouble.ingests;
      if c.GivenUp? {
        pending := pending - {m.id};
        Ingest(m, None, IsUnavailable, fails);
        return;
      }
      if !c.Told? {
        return;
      }
      var t := c.answer;
      if t.Some? && Classify(t.value).Drifted? {
        errors := errors + 1;
        return;
      }
      if m.id in archive && Empty(t) {
        var kept := Recover(archive[m.id].state, archive[m.id].raw);
        if m.id in trouble.recoveries || kept.NoMetadata? || kept.BadState? || kept.BadRaw? {
          errors := errors + 1;
          return;
        }
        if kept.Recovered? {
          t := Some(kept.transcript);
        }
      }
      var desired := IsPresent;
      if HasContent(t) {
        pending := pending - {m.id};
      } else {
        var retry := Schedule(m.id, m.times, now, if m.id in pending then Some(pending[m.id]) else None);
        if retry.Some? {
          desired, pending := IsPending, pending[m.id := retry.value];
        } else {
          desired, pending := IsUnavailable, pending - {m.id};
        }
      }
      Ingest(m, t, desired, fails);
    }

    /** Meetings of the reply worth handling: named, asked for, and the first of their name. */
    method Sift(ids: seq<string>, reply: seq<Meeting>) returns (ordered: seq<Meeting>)
      modifies `errors
      ensures errors >= old(errors)
      ensures forall m | m in ordered :: m.id in ids && m.id != ""
      ensures forall i, j | 0 <= i < j < |ordered| :: ordered[i].id != ordered[j].id
      ensures errors == old(errors) ==> forall id | id in ids :: id in Ids(ordered)
    {
      ordered := [];
      var seen: set<string> := {};
      for i := 0 to |reply|
        invariant seen == Ids(ordered) && errors >= old(errors)
        invariant forall m | m in ordered :: m.id in ids && m.id != ""
        invariant forall i, j | 0 <= i < j < |ordered| :: ordered[i].id != ordered[j].id
      {
        var id := reply[i].id;
        if id == "" || id !in ids || id in seen {
          errors := errors + 1;
        } else {
          assert forall m | m in ordered :: m.id in seen;
          ordered, seen := ordered + [reply[i]], seen + {id};
        }
      }
      for i := 0 to |ids|
        invariant errors >= old(errors)
        invariant errors == old(errors) ==> forall k | 0 <= k < i :: ids[k] in seen
      {
        if ids[i] !in seen {
          errors := errors + 1;
        }
      }
    }

    /** Which meetings to ask about, and what is known of the others. */
    method Plan(ordered: seq<Meeting>, full: bool, now: nat, trouble: Trouble)
      returns (asked: seq<string>, givenUp: set<string>, unread: set<string>)
      modifies `errors
      ensures errors >= old(errors) && (unread != {} ==> errors > old(errors))
      ensures forall id | id in asked :: id in Ids(ordered) && (!full ==> !AskedNoMore(View(), id, now))
      ensures forall id | id in givenUp :: id in archive && StateOf(archive[id]) == IsUnavailable
    {
      asked, givenUp, unread := [], {}, {};
      for i := 0 to |ordered|
        invariant errors >= old(errors) && (unread != {} ==> errors > old(errors))
        invariant forall id | id in asked :: id in Ids(ordered) && (!full ==> !AskedNoMore(View(), id, now))
        invariant forall id | id in givenUp :: id in archive && StateOf(archive[id]) == IsUnavailable
      {
        var id := ordered[i].id;
        if id in pending && !full && Expired(pending[id], now) {
        } else if id in archive && !full && id in trouble.stateReads {
          errors, unread := errors + 1, unread + {id};
        } else if id in archive && !full && StateOf(archive[id]) == IsUnavailable {
          givenUp := givenUp + {id};
        } else {
          asked := asked + [id];
        }
      }
    }

    method HandleSafely(m: Meeting, c: Case, now: nat, trouble: Trouble)
      requires WorkOk(View()) && FaithfulCase(c)
      requires c.GivenUp? ==> m.id in archive && archive[m.id].state == Some(IsUnavailable)
      modifies `archive, `pending, `errors, `maxCreated
      ensures View() == HandleMeeting(old(View()), m, c, m.id in old(archive), now, trouble)
      ensures Follows(old(View()), View(), {m.id})
      ensures (c.GivenUp? || c.Told?) && errors == old(errors) ==> InStep(View(), m.id)
    {
      ghost var w := View();
      HandleKeeps(w, m, c, m.id in archive, now, trouble);
      Handle(m, c, now, trouble);
      if (c.GivenUp? || c.Told?) && errors == w.errors {
        HandledInStep(w, m, c, now, trouble);
      }
    }

    /** The last loop. A batch whose transcripts failed writes nothing but refreshes. */
    method HandleAll(ordered: seq<Meeting>, givenUp: set<string>, unread: set<string>, told: Option<map<string, Transcript>>,
                     now: nat, trouble: Trouble, cancel: Cancel) returns (stopped: bool)
      requires WorkOk(View())
      requires forall i, j | 0 <= i < j < |ordered| :: ordered[i].id != ordered[j].id
      requires forall id | id in givenUp :: id in archive && StateOf(archive[id]) == IsUnavailable
      requires told.Some? ==> forall id | id in told.value :: Faithful(told.value[id])
      modifies `archive, `pending, `errors, `maxCreated
      ensures Follows(old(View()), View(), Ids(ordered)) && (stopped ==> errors > old(errors))
      ensures !stopped && errors == old(errors) && told.Some? && unread == {} ==>
        forall id | id in Ids(ordered) :: InStep(View(), id)
    {
      ghost var w0 := View();
      stopped := false;
      assert Ids(ordered[..0]) == {};
      for i := 0 to |ordered|
        invariant Follows(w0, View(), Ids(ordered[..i]))
        invariant errors == w0.errors && told.Some? && unread == {} ==> FirstInStep(View(), ordered, i)
      {
        var m := ordered[i];
        if cancel == AtMeeting(i) {
          errors := errors + 1;
          SubsetIds(ordered, i);
          return true;
        }
        var c := if m.id in unread then StateFailed
                 else if m.id in givenUp then GivenUp
                 else if told.None? then CallFailed
                 else Told(if m.id in told.value then Some(told.value[m.id]) else None);
        ghost var w := View();
        NotYetMoved(ordered, i);
        HandleSafely(m, c, now, trouble);
        FollowsOn(w0, w, View(), Ids(ordered[..i]), {m.id});
        OneMoreId(ordered, i);
        if errors == w0.errors && told.Some? && unread == {} {
          OneMoreInStep(w, View(), ordered, i);
        }
      }
      assert ordered[..|ordered|] == ordered;
    }

    /** A batch once its meetings are known. */
    method AskAndHandle(ordered: seq<Meeting>, full: bool, now: nat, a: Answer) returns (stopped: bool, asked: seq<string>)
      requires WorkOk(View()) && FaithfulAnswer(a)
      requires forall i, j | 0 <= i < j < |ordered| :: ordered[i].id != ordered[j].id
      modifies `archive, `pending, `errors, `maxCreated
      ensures Follows(old(View()), View(), Ids(ordered)) && (stopped ==> errors > old(errors))
      ensures !stopped && errors == old(errors) ==> forall id | id in Ids(ordered) :: InStep(View(), id)
      ensures !full ==> forall id | id in asked :: !AskedNoMore(old(View()), id, now)
    {
      ghost var w0 := View();
      var givenUp, unread;
      asked, givenUp, unread := Plan(ordered, full, now, a.trouble);
      var told := Some(map[]);
      if asked != [] {
        if a.cancel.AfterTranscripts? || a.canceled {
          errors := errors + 1;
          return true, asked;
        }
        told := a.transcripts;
        if a.transcripts.None? {
          errors := errors + 1;
        }
      }
      ghost var w := View();
      assert Follows(w0, w, {});
      stopped := HandleAll(ordered, givenUp, unread, told, now, a.trouble, a.cancel);
      FollowsOn(w0, w, View(), {}, Ids(ordered));
      assert {} + Ids(ordered) == Ids(ordered);
    }

    /** One batch. */
    method ProcessBatch(ids: seq<string>, full: bool, now: nat, a: Answer) returns (stopped: bool, asked: seq<string>)
      requires WorkOk(View()) && FaithfulAnswer(a)
      modifies `archive, `pending, `errors, `maxCreated
      ensures Follows(old(View()), View(), AsSet(ids)) && (stopped ==> errors > old(errors))
      ensures !stopped && errors == old(errors) ==> AllInStep(View(), ids)
      ensures !full ==> forall id | id in asked :: !AskedNoMore(old(View()), id, now)
    {
      ghost var w0 := View();
      asked := [];
      if a.cancel.BeforeRead? || a.cancel.AfterRead? {
        errors := errors + 1;
        return true, asked;
      }
      if a.meetings.None? {
        errors := errors + 1;
      } else {
        var ordered := Sift(ids, a.meetings.value);
        if a.lookupFails && ordered != [] {
          errors := errors + 1;
          return true, asked;
        }
        ghost var w := View();
        assert Follows(w0, w, {});
        stopped, asked := AskAndHandle(ordered, full, now, a);
        FollowsOn(w0, w, View(), {}, Ids(ordered));
        FollowsWider(w0, View(), {} + Ids(ordered), AsSet(ids));
        if stopped {
          return;
        }
      }
      if a.saveFails {
        errors := errors + 1;
      }
      stopped := false;
    }

    /** All batches of a worklist; answers that run out are the run being cancelled. */
    method ProcessWorkIds(workIds: seq<string>, full: bool, now: nat, answers: seq<Answer>) returns (stopped: bool)
      requires WorkOk(View()) && forall a | a in answers :: FaithfulAnswer(a)
      modifies `archive, `pending, `errors, `maxCreated
      ensures Follows(old(View()), View(), AsSet(workIds)) && (stopped ==> errors > old(errors))
      ensures !stopped && errors == old(errors) ==> AllInStep(View(), workIds)
    {
      ghost var w0 := View();
      ghost var all := AsSet(workIds);
      var start, k := 0, 0;
      assert Follows(w0, w0, {});
      FollowsWider(w0, w0, {}, all);
      while start < |workIds|
        invariant 0 <= start <= |workIds|
        invariant Follows(w0, View(), all)
        invariant errors == w0.errors ==> AllInStep(View(), workIds[..start])
      {
        if k >= |answers| {
          errors := errors + 1;
          return true;
        }
        var end := if start + BATCH < |workIds| then start + BATCH else |workIds|;
        ghost var w := View();
        var asked;
        stopped, asked := ProcessBatch(workIds[start..end], full, now, answers[k]);
        FollowsWider(w, View(), AsSet(workIds[start..end]), all);
        FollowsOn(w0, w, View(), all, all);
        assert all + all == all;
        if stopped {
          return;
        }
        if errors == w0.errors {
          InStepKept(w, View(), workIds[..start], workIds[start..end]);
          assert workIds[..start] + workIds[start..end] == workIds[..end];
        }
        start, k := end, k + 1;
      }
      assert workIds[..start] == workIds;
      stopped := false;
    }

    /** The search loop: which meetings are new, changed, or stranded by an earlier failed run. A page
        list that runs out is the run being cancelled. */
    method Search(pages: seq<Page>, full: bool, limit: nat, refreshAfter: Option<int>, processed: set<string>)
      returns (searched: seq<string>, returned: set<string>, ok: bool)
      requires WellNamed(pages)
      modifies `errors
      ensures errors >= old(errors) && (!ok ==> errors > old(errors))
      ensures ok ==> errors == old(errors)
      ensures forall id | id in searched :: Proper(id)
      ensures forall id | id in searched :: id in returned && id !in processed
      ensures limit > 0 ==> |searched| <= limit
      ensures ok && limit == 0 ==> exists n | 0 <= n < |pages| :: pages[n].meetings == Some([]) && returned == ReturnedIds(pages[..n])
      ensures ok && limit == 0 ==> forall id | id in returned :: Covered(View(), processed, searched, full, id)
    {
      searched, returned := [], {};
      var n := 0;
      assert ReturnedIds(pages[..0]) == {};
      while n < |pages|
        invariant 0 <= n <= |pages| && errors == old(errors) && returned == ReturnedIds(pages[..n])
        invariant forall id | id in searched :: id in returned && id !in processed && Proper(id)
        invariant limit > 0 ==> |searched| < limit
        invariant forall id | id in returned :: Covered(View(), processed, searched, full, id)
      {
        var page := pages[n];
        if page.canceled || page.meetings.None? || (page.lookupFails && page.meetings.value != []) {
          errors := errors + 1;
          return [], returned, false;
        }
        if page.meetings.value == [] {
          return searched, returned, true;
        }
        var work, ids, verdict := SearchPage(page.meetings.value, full, limit, refreshAfter, processed, searched, returned);
        if verdict.Failed? {
          errors := errors + 1;
          return [], returned, false;
        }
        searched, returned := work, ids;
        if verdict.LimitReached? {
          return searched, returned, true;
        }
        assert pages[..n + 1][..n] == pages[..n];
        if verdict.NothingNew? {
          errors := errors + 1;
          return searched, returned, false;
        }
        n := n + 1;
      }
      errors := errors + 1;
      ok := false;
    }

    /** One page of it. */
    method SearchPage(meetings: seq<Meeting>, full: bool, limit: nat, refreshAfter: Option<int>, processed: set<string>,
                      before: seq<string>, seen: set<string>)
      returns (searched: seq<string>, returned: set<string>, verdict: Verdict)
      requires limit > 0 ==> |before| < limit
      requires forall id | id in before :: id in seen && id !in processed && Proper(id)
      requires forall m | m in meetings :: TrimSpace(m.id) == m.id
      requires forall id | id in seen :: Covered(View(), processed, before, full, id)
      ensures !verdict.Failed? ==>
        && (forall id | id in searched :: id in returned && id !in processed && Proper(id))
        && (forall id | id in returned :: Covered(View(), processed, searched, full, id))
        && (limit > 0 ==> |searched| <= limit && (|searched| == limit <==> verdict.LimitReached?))
        && (limit == 0 ==> !verdict.LimitReached?)
        && (!verdict.LimitReached? ==> returned == seen + Ids(meetings) && (verdict.NothingNew? <==> Ids(meetings) <= seen))
    {
      searched, returned := before, seen;
      for i := 0 to |meetings|
        invariant returned == seen + Ids(meetings[..i])
        invariant forall id | id in searched :: id in returned && id !in processed && Proper(id)
        invariant forall id | id in returned :: Covered(View(), processed, searched, full, id)
        invariant limit > 0 ==> |searched| < limit
      {
        OneMoreId(meetings, i);
        var m := meetings[i];
        if m.id == "" {
          return searched, returned, Failed;
        }
        if m.id in returned {
          continue;
        }
        ghost var earlier := searched;
        returned := returned + {m.id};
        if m.id in processed || (m.id in pending && !full) || (!full && Unchanged(m, refreshAfter)) {
          continue;
        }
        searched := searched + [m.id];
        assert forall id | id in earlier :: id in searched;
        if limit > 0 && |searched| == limit {
          return searched, returned, LimitReached;
        }
      }
      assert meetings[..|meetings|] == meetings;
      verdict := if returned == seen then NothingNew else GoOn;
    }

    /** An archived meeting from before the refresh window, unless it waits for its transcript: that
        signal outlives a failed run's lost cursor entry. */
    predicate Unchanged(m: Meeting, refreshAfter: Option<int>)
      reads `archive
    {
      && m.id in archive && refreshAfter.Some?
      && var row := archive[m.id];
         var created := if m.created != 0 then m.created else if row.state.Some? then row.created else 0;
         created != 0 && created < refreshAfter.value && StateOf(row) != IsPending
    }

    /** The cursor's retries by trimmed ID. */
    method LoadPending()
      requires ValidCursor(cursor)
      modifies `pending
      ensures RecordsOk(pending)
      ensures forall id :: id in pending <==> HasRecord(cursor, id)
      ensures forall id | id in pending :: Proper(id)
    {
      pending := map[];
      for i := 0 to |cursor.pending|
        invariant RecordsOk(pending) && cursor == old(cursor)
        invariant forall id :: id in pending <==> exists k | 0 <= k < i :: TrimSpace(cursor.pending[k].meetingId) == id
        invariant forall id | id in pending :: Proper(id)
      {
        var p := cursor.pending[i];
        var id := TrimSpace(p.meetingId);
        TrimTwice(p.meetingId);
        pending := pending[id := p.(meetingId := id)];
      }
    }

    method DueIds(now: nat) returns (due: seq<string>)
      ensures forall id :: id in due <==> id in pending && Due(pending[id], now)
    {
      due := [];
      var left := pending.Keys;
      while left != {}
        invariant left <= pending.Keys
        invariant forall id :: id in due <==> id in pending.Keys - left && Due(pending[id], now)
        decreases |left|
      {
        var id :| id in left;
        left := left - {id};
        if Due(pending[id], now) {
          due := due + [id];
        }
      }
    }

    method PendingSlice() returns (records: seq<Pending>)
      requires RecordsOk(pending)
      ensures forall id | id in pending :: pending[id] in records
      ensures forall i | 0 <= i < |records| :: records[i].meetingId in pending && records[i] == pending[records[i].meetingId]
      ensures forall i, j | 0 <= i < j < |records| :: records[i].meetingId != records[j].meetingId
    {
      records := [];
      var left := pending.Keys;
      while left != {}
        invariant left <= pending.Keys
        invariant forall id | id in pending && id !in left :: pending[id] in records
        invariant forall i | 0 <= i < |records| :: records[i].meetingId in pending.Keys - left && records[i] == pending[records[i].meetingId]
        invariant forall i, j | 0 <= i < j < |records| :: records[i].meetingId != records[j].meetingId
        decreases |left|
      {
        var id :| id in left;
        left := left - {id};
        records := records + [pending[id]];
      }
    }

    /** Both phases of a run, from loaded retries to the last batch. */
    method Traverse(r: Request) returns (done: bool, returned: set<string>)
      requires WorkOk(View()) && PendingArchived(View()) && WellNamed(r.pages) && errors == 0
      requires forall a | a in r.due + r.rest :: FaithfulAnswer(a)
      modifies `archive, `pending, `errors, `maxCreated
      ensures WorkOk(View()) && Sticky(old(archive), archive)
      ensures done ==> errors == 0 && PendingArchived(View())
      ensures done && r.limit <= 0 ==> exists n | 0 <= n < |r.pages| :: r.pages[n].meetings == Some([]) && returned == ReturnedIds(r.pages[..n])
      ensures done && r.limit <= 0 ==> forall id | id in returned :: Accounted(View(), id)
    {
      ghost var w0 := View();
      done, returned := false, {};
      var refreshAfter: Option<int> := None;
      if !r.full && cursor.createdAfter.Some? && cursor.createdAfter.value.Good? {
        refreshAfter := Some(ParseOrZero(cursor.createdAfter.value) - OVERLAP);
      }
      var due := DueIds(r.now);
      var stopped := ProcessWorkIds(due, r.full, r.now, r.due);
      if stopped {
        return;
      }
      ghost var w1 := View();
      var searched, ids, ok := Search(r.pages, r.full, if r.limit > 0 then r.limit else 0, refreshAfter, AsSet(due));
      if !ok {
        return;
      }
      returned := ids;
      stopped := Finish(w0, w1, due, searched, r);
      if !stopped && errors == 0 {
        done := true;
        if r.limit <= 0 {
          RunHeals(w0, w1, View(), due, searched, r.full, returned);
        }
      }
    }

    method Finish(ghost w0: Work, ghost w1: Work, ghost due: seq<string>, searched: seq<string>, r: Request) returns (stopped: bool)
      requires View() == w1 && PendingArchived(w0) && Follows(w0, w1, AsSet(due)) && (errors == 0 ==> AllInStep(w1, due))
      requires (forall id | id in due :: id in w0.pending) && (forall id | id in searched :: Proper(id))
      requires forall a | a in r.rest :: FaithfulAnswer(a)
      modifies `archive, `pending, `errors, `maxCreated
      ensures WorkOk(View()) && Sticky(w0.archive, archive) && Follows(w1, View(), AsSet(searched))
      ensures !stopped && errors == 0 ==> PendingArchived(View()) && AllInStep(w1, due) && AllInStep(View(), searched)
    {
      stopped := ProcessWorkIds(searched, r.full, r.now, r.rest);
      FollowsOn(w0, w1, View(), AsSet(due), AsSet(searched));
      if !stopped && errors == 0 {
        RunLeavesArchived(w0, w1, View(), due, searched);
      }
    }

    /** A run. It completes only without a single error; then it stores a new cursor. */
    method Import(r: Request) returns (completed: bool, returned: set<string>)
      requires Valid() && WellNamed(r.pages)
      requires forall a | a in r.due + r.rest :: FaithfulAnswer(a)
      modifies this
      ensures Valid() && Sticky(old(archive), archive)
      ensures !completed ==> cursor == old(cursor)
      ensures completed ==> ValidCursor(cursor) && old(ValidCursor(cursor))
      ensures completed && r.limit > 0 ==> cursor.createdAfter == old(cursor.createdAfter)
      ensures completed && r.limit <= 0 ==> exists n | 0 <= n < |r.pages| :: r.pages[n].meetings == Some([]) && returned == ReturnedIds(r.pages[..n])
      ensures completed && r.limit <= 0 ==> forall id | id in returned :: Healed(archive, cursor, id)
    {
      returned := {};
      errors, completed := 0, false;
      var readable := Validate(cursor);
      if r.loadFails || !readable {
        return;
      }
      LoadPending();
      maxCreated := if cursor.createdAfter.Some? then ParseOrZero(cursor.createdAfter.value) else 0;
      LoadedArchived(cursor, archive, View());
      var done;
      done, returned := Traverse(r);
      StickyKeepsCursor(cursor, old(archive), archive);
      if !done || r.canceled || r.statsFail {
        return;
      }
      var records := PendingSlice();
      var watermark := if r.limit <= 0 && maxCreated > 0 then Some(Format(maxCreated)) else cursor.createdAfter;
      var next := Cursor(watermark, records);
      CompletedIsValid(next, View());
      if r.completeFails {
        return;
      }
      if r.limit <= 0 {
        AccountedIsHealed(View(), returned, next);
      }
      cursor, completed := next, true;
    }
  }

  lemma NotYetMoved(ordered: seq<Meeting>, i: nat)
    requires i < |ordered| && forall j, k | 0 <= j < k < |ordered| :: ordered[j].id != ordered[k].id
    ensures ordered[i].id !in Ids(ordered[..i])
  {
  }

  ghost predicate FirstInStep(w: Work, ordered: seq<Meeting>, n: nat)
    requires n <= |ordered|
  {
    forall k | 0 <= k < n :: InStep(w, ordered[k].id)
  }

  lemma OneMoreInStep(w: Work, w': Work, ordered: seq<Meeting>, n: nat)
    requires n < |ordered| && forall j, k | 0 <= j < k < |ordered| :: ordered[j].id != ordered[k].id
    requires FirstInStep(w, ordered, n) && OnlyMoved(w, w', {ordered[n].id}) && InStep(w', ordered[n].id)
    ensures FirstInStep(w', ordered, n + 1)
  {
    forall k | 0 <= k < n ensures InStep(w', ordered[k].id) {
      assert InStep(w, ordered[k].id);
    }
  }

  lemma OneMoreId(ordered: seq<Meeting>, i: nat)
    requires i < |ordered|
    ensures Ids(ordered[..i + 1]) == Ids(ordered[..i]) + {ordered[i].id}
  {
    assert ordered[..i + 1] == ordered[..i] + [ordered[i]];
  }

  lemma SubsetIds(ordered: seq<Meeting>, i: nat)
    requires i <= |ordered|
    ensures Ids(ordered[..i]) <= Ids(ordered)
  {
  }
}
