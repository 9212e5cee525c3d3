/** One chat's message walk: the oldest-ward backfill and the newest-ward incremental fetch, turn
    by turn, with the paging contract of the server they talk to. */
module BeeperWalk {
  import opened Options
  import opened BeeperState

  datatype Message = Message(id: MessageId, reaction: bool, deleted: bool, hidden: bool, linked: Option<MessageId>)

  type History = seq<Message>

  datatype Page = Page(items: seq<Message>, hasMore: bool, oldest: Cursor, newest: Cursor)

  /** What the environment answers to one round of a walk's loop: the context is done, the fetch
      fails, or a page arrives. `visible` is the length of the chat's history at that moment.
      Handling the `cut`-th message of the page fails, if there are that many; with `retry` because
      a reaction's target could not be refetched. `targets` are the reaction targets that could,
      by the position of the reaction event. */
  datatype Turn =
    | Canceled
    | Failed
    | Served(visible: nat, page: Page, cut: nat, retry: bool, targets: map<nat, Message>)

  datatype Halt = Going | Returned | Aborted

  /** A walk in progress. `served` collects every ID a page of this walk has carried. */
  datatype Walk = Walk(chat: Chat, rows: set<MessageId>, recent: seq<set<MessageId>>, budget: nat,
                       served: set<MessageId>, fetchErrors: nat, halt: Halt)

  const RECENT_ID_WINDOW_PAGES := 5

  // ---- Persisting messages ----

  /** processMessage hands exactly these events to persistMessage. */
  predicate Stored(m: Message) {
    !m.reaction && !m.deleted && !m.hidden
  }

  function RowsOf(items: seq<Message>): set<MessageId> {
    set m | m in items && Stored(m) :: m.id
  }

  function IdsOf(items: seq<Message>): set<MessageId> {
    set m | m in items :: m.id
  }

  function RepliesOf(items: seq<Message>): seq<Reply> {
    if items == [] then []
    else
      var rest := RepliesOf(items[..|items| - 1]);
      var m := items[|items| - 1];
      if Stored(m) && m.linked.Some? then rest + [Reply(m.id, m.linked.value)] else rest
  }

  lemma RepliesMembers(items: seq<Message>)
    ensures forall m :: m in items && Stored(m) && m.linked.Some? ==> Reply(m.id, m.linked.value) in RepliesOf(items)
    ensures forall r :: r in RepliesOf(items) ==>
      exists m :: m in items && Stored(m) && m.linked.Some? && r == Reply(m.id, m.linked.value)
  {
    if items != [] {
      RepliesMembers(items[..|items| - 1]);
      assert items == items[..|items| - 1] + [items[|items| - 1]];
    }
  }

  /** The state after the messages of `items` went through processMessage. */
  function Process(w: Walk, items: seq<Message>): Walk {
    w.(rows := w.rows + RowsOf(items), chat := w.chat.(pending := w.chat.pending + RepliesOf(items)))
  }

  // ---- The duplicate window ----

  predicate InWindow(recent: seq<set<MessageId>>, id: MessageId) {
    exists k | 0 <= k < |recent| :: id in recent[k]
  }

  function Unseen(recent: seq<set<MessageId>>, items: seq<Message>): seq<Message> {
    if items == [] then []
    else
      var rest := Unseen(recent, items[..|items| - 1]);
      var m := items[|items| - 1];
      if InWindow(recent, m.id) then rest else rest + [m]
  }

  lemma UnseenMembers(recent: seq<set<MessageId>>, items: seq<Message>)
    ensures forall m :: m in Unseen(recent, items) <==> m in items && !InWindow(recent, m.id)
  {
    if items != [] {
      UnseenMembers(recent, items[..|items| - 1]);
      assert items == items[..|items| - 1] + [items[|items| - 1]];
    }
  }

  function Push(recent: seq<set<MessageId>>, page: set<MessageId>, max: nat): seq<set<MessageId>> {
    var pages := recent + [page];
    if |pages| > max then pages[1..] else pages
  }

  // ---- One round of each loop ----

  predicate LimitReached(limit: nat, budget: nat) {
    limit > 0 && budget >= limit
  }

  function Min(a: nat, b: nat): nat {
    if a < b then a else b
  }

  /** The incremental cursor is primed from the first page that has one. */
  function Primed(w: Walk, page: Page): Walk {
    if w.chat.newest.Null? && page.newest.At? then w.(chat := w.chat.(newest := page.newest)) else w
  }

  /** A page all of whose unseen messages were persisted, before the loop decides how to go on. A
      throttled checkpoint inside the walk sees the chat record as it is here. */
  function BackfillPage(w: Walk, page: Page): Walk {
    var unseen := Unseen(w.recent, page.items);
    var w := Process(Primed(w, page), unseen).(
      budget := w.budget + |unseen|,
      recent := Push(w.recent, IdsOf(page.items), RECENT_ID_WINDOW_PAGES),
      served := w.served + IdsOf(page.items));
    if unseen != [] && page.oldest.At? then w.(chat := w.chat.(oldest := page.oldest)) else w
  }

  function BackfillTurn(w: Walk, limit: nat, t: Turn): Walk {
    if t.Canceled? then w.(halt := Aborted)
    else if LimitReached(limit, w.budget) then w.(halt := Returned)
    else if t.Failed? then w.(fetchErrors := w.fetchErrors + 1, halt := Returned)
    else
      var page := t.page;
      var unseen := Unseen(w.recent, page.items);
      if page.items == [] then
        var w := Primed(w, page);
        w.(chat := w.chat.(done := true), halt := Returned)
      else if t.cut < |unseen| then Process(Primed(w, page), unseen[..t.cut]).(halt := Aborted)
      else
        var next := BackfillPage(w, page);
        if unseen == [] || !page.hasMore then next.(chat := next.chat.(done := true), halt := Returned)
        else if LimitReached(limit, next.budget) || page.oldest.Null? then next.(halt := Returned)
        else next
  }

  /** The messages an incremental page hands to the archive: a reaction event stands for its
      refetched target. */
  function Expand(items: seq<Message>, targets: map<nat, Message>): seq<Message> {
    if items == [] then []
    else
      var i := |items| - 1;
      Expand(items[..i], targets) +
      (if !items[i].reaction then [items[i]] else if items[i].linked.Some? && i in targets then [targets[i]] else [])
  }

  function ExtendTurn(w: Walk, limit: nat, t: Turn): Walk {
    if t.Canceled? then w.(halt := Aborted)
    else if LimitReached(limit, w.budget) then w.(halt := Returned)
    else if t.Failed? then w.(fetchErrors := w.fetchErrors + 1, halt := Returned)
    else
      var page := t.page;
      if page.items == [] then w.(halt := Returned)
      else if t.cut < |page.items| then
        var cut := Process(w, Expand(page.items[..t.cut], t.targets));
        var m := page.items[t.cut];
        if t.retry && m.reaction && m.linked.Some? then cut.(fetchErrors := w.fetchErrors + 1, halt := Returned)
        else cut.(halt := Aborted)
      else
        var done := Process(w, Expand(page.items, t.targets)).(budget := w.budget + |page.items|);
        if page.newest.Null? || page.newest == w.chat.newest then done.(halt := Returned)
        else
          var moved := done.(chat := done.chat.(newest := page.newest));
          if LimitReached(limit, moved.budget) || !page.hasMore then moved.(halt := Returned) else moved
  }

  /** What the environment answers, round by round; past its end the context is done. */
  type Script = seq<Turn>

  function TurnAt(script: Script, k: nat): Turn {
    if k < |script| then script[k] else Canceled
  }

  function BackfillAfter(w: Walk, limit: nat, script: Script, k: nat): Walk {
    if k == 0 then w
    else
      var w := BackfillAfter(w, limit, script, k - 1);
      if w.halt.Going? then BackfillTurn(w, limit, TurnAt(script, k - 1)) else w
  }

  function ExtendAfter(w: Walk, limit: nat, script: Script, k: nat): Walk {
    if k == 0 then w
    else
      var w := ExtendAfter(w, limit, script, k - 1);
      if w.halt.Going? then ExtendTurn(w, limit, TurnAt(script, k - 1)) else w
  }

  function Begin(chat: Chat, rows: set<MessageId>): Walk {
    Walk(chat, rows, [], 0, {}, 0, Going)
  }

  // ---- The server's paging contract ----

  ghost predicate UniqueIds(h: History) {
    forall i, j | 0 <= i < |h| && 0 <= j < |h| && h[i].id == h[j].id :: i == j
  }

  /** The page carries h[lo..hi), newest first, and its cursors stand on its two ends. */
  ghost predicate Slice(h: History, lo: int, hi: int, page: Page) {
    && 0 <= lo <= hi <= |h|
    && |page.items| == hi - lo
    && (forall j | 0 <= j < |page.items| :: page.items[j] == h[hi - 1 - j])
    && (page.newest.At? ==> page.newest.pos == hi - 1)
  }

  /** direction=before: without a cursor the newest page; before a message the page that ends just
      short of it; past the first message either nothing or the oldest messages once more, under a
      cursor that stays past the beginning. hasMore=false is only said at the beginning. */
  ghost predicate ServesBefore(h: History, floor: nat, cursor: Cursor, t: Turn) {
    t.Served? ==>
      var page, n := t.page, |t.page.items|;
      && floor <= t.visible <= |h|
      && (n == 0 ==> page.oldest.Null? && page.newest.Null?)
      && if cursor.At? && cursor.pos <= 0 then
           && n <= t.visible && Slice(h, 0, n, page)
           && (page.oldest.At? ==> page.oldest.pos <= 0)
         else
           var hi := if cursor.At? then cursor.pos else t.visible;
           && hi <= t.visible && (hi > 0 ==> n > 0) && Slice(h, hi - n, hi, page)
           && (page.oldest.At? ==> page.oldest.pos == hi - n)
           && (!page.hasMore ==> n == hi)
  }

  /** direction=after: the page that starts just past the cursor, or, at a stuck head, any known
      messages under a cursor that does not advance. */
  ghost predicate ServesAfter(h: History, cursor: Cursor, t: Turn) {
    t.Served? ==>
      var page, n := t.page, |t.page.items|;
      && t.visible <= |h|
      && (forall i | i in t.targets :: t.targets[i] in h)
      && (forall m | m in page.items :: m in h)
      && (n > 0 && page.newest.At? && page.newest != cursor ==>
           cursor.At? && cursor.pos + 1 + n <= t.visible && Slice(h, cursor.pos + 1, cursor.pos + 1 + n, page))
  }

  // ---- What a chat record claims ----

  /** The messages the record says are behind it: back to the oldest cursor while the backfill is
      under way, back to the beginning once it is done. */
  predicate Covers(chat: Chat, i: int) {
    chat.newest.At? && 0 <= i <= chat.newest.pos && (chat.done || (chat.oldest.At? && chat.oldest.pos <= i))
  }

  ghost predicate Linked(h: History, i: int, links: map<MessageId, Option<MessageId>>)
    requires 0 <= i < |h|
  {
    h[i].id in links &&
    forall j | 0 <= j < i && Stored(h[j]) && h[i].linked == Some(h[j].id) :: links[h[i].id] == Some(h[j].id)
  }

  /** Message i is archived, and if it is a reply its link is either set or buffered. */
  ghost predicate Settled(h: History, i: int, rows: set<MessageId>, pending: seq<Reply>, links: map<MessageId, Option<MessageId>>)
    requires 0 <= i < |h|
  {
    Stored(h[i]) ==>
      && h[i].id in rows
      && (h[i].linked.Some? ==> Reply(h[i].id, h[i].linked.value) in pending || Linked(h, i, links))
  }

  ghost predicate InRange(h: History, chat: Chat) {
    && (chat.newest.At? ==> 0 <= chat.newest.pos < |h|)
    && (chat.oldest.At? ==> chat.oldest.pos <= |h|)
  }

  /** Everything the record covers is settled. */
  ghost predicate Justified(h: History, chat: Chat, rows: set<MessageId>, links: map<MessageId, Option<MessageId>>) {
    && InRange(h, chat)
    && forall i | 0 <= i < |h| && Covers(chat, i) :: Settled(h, i, rows, chat.pending, links)
  }

  /** The invariant of a backfill that began with Done unset. An aborted walk fails the run before
      its record can be saved, so nothing is asked of it. */
  ghost predicate WalkOk(h: History, w: Walk, links: map<MessageId, Option<MessageId>>) {
    && UniqueIds(h)
    && (!w.halt.Aborted? ==> Justified(h, w.chat, w.rows, links))
    && (w.halt.Going? ==> !w.chat.done && WindowOk(h, w, links))
  }

  /** Every ID in the duplicate window was already processed in this walk, and the window holds
      nothing of the part of history that is still ahead. */
  ghost predicate WindowOk(h: History, w: Walk, links: map<MessageId, Option<MessageId>>) {
    && (w.chat.oldest.Null? ==> w.recent == [])
    && (forall id | InWindow(w.recent, id) :: id in IdsOf(h))
    && forall i | 0 <= i < |h| && InWindow(w.recent, h[i].id) ::
         Settled(h, i, w.rows, w.chat.pending, links) && (w.chat.oldest.At? ==> i >= w.chat.oldest.pos)
  }

  lemma ProcessSettles(h: History, w: Walk, items: seq<Message>, links: map<MessageId, Option<MessageId>>)
    ensures forall i | 0 <= i < |h| && Settled(h, i, w.rows, w.chat.pending, links) ::
      Settled(h, i, Process(w, items).rows, Process(w, items).chat.pending, links)
    ensures forall i | 0 <= i < |h| && h[i] in items ::
      Settled(h, i, Process(w, items).rows, Process(w, items).chat.pending, links)
  {
    RepliesMembers(items);
  }

  /** Every message of a page is settled once the page went through, seen before or not. */
  lemma PageSettles(h: History, w: Walk, page: Page, links: map<MessageId, Option<MessageId>>)
    requires WindowOk(h, w, links)
    ensures forall i | 0 <= i < |h| && (h[i] in page.items || Settled(h, i, w.rows, w.chat.pending, links)) ::
      Settled(h, i, BackfillPage(w, page).rows, BackfillPage(w, page).chat.pending, links)
  {
    var unseen := Unseen(w.recent, page.items);
    ProcessSettles(h, Primed(w, page), unseen, links);
    UnseenMembers(w.recent, page.items);
    forall i | 0 <= i < |h| && (h[i] in page.items || Settled(h, i, w.rows, w.chat.pending, links))
      ensures Settled(h, i, BackfillPage(w, page).rows, BackfillPage(w, page).chat.pending, links)
    {
      if h[i] in page.items && h[i] !in unseen {
        assert InWindow(w.recent, h[i].id);
      }
    }
  }

  /** The index one past the newest message a page after this cursor carries. */
  function PageEnd(cursor: Cursor, t: Turn): int
    requires t.Served?
  {
    if cursor.At? then (if cursor.pos <= 0 then |t.page.items| else cursor.pos) else t.visible
  }

  lemma PagePositions(h: History, floor: nat, cursor: Cursor, t: Turn)
    requires t.Served? && ServesBefore(h, floor, cursor, t)
    ensures 0 <= PageEnd(cursor, t) - |t.page.items| <= PageEnd(cursor, t) <= |h|
    ensures forall i | PageEnd(cursor, t) - |t.page.items| <= i < PageEnd(cursor, t) :: h[i] in t.page.items
    ensures forall m | m in t.page.items :: m in h
    ensures UniqueIds(h) ==> forall i | 0 <= i < |h| && h[i].id in IdsOf(t.page.items) ::
      PageEnd(cursor, t) - |t.page.items| <= i < PageEnd(cursor, t)
  {
    var items, hi := t.page.items, PageEnd(cursor, t);
    assert Slice(h, hi - |items|, hi, t.page);
    forall i | hi - |items| <= i < hi
      ensures h[i] in items
    {
      assert items[hi - 1 - i] == h[i];
    }
    if UniqueIds(h) {
      forall i | 0 <= i < |h| && h[i].id in IdsOf(items)
        ensures hi - |items| <= i < hi
      {
        var m :| m in items && m.id == h[i].id;
        var j :| 0 <= j < |items| && items[j] == m;
        assert h[hi - 1 - j].id == h[i].id;
      }
    }
  }

  /** What the page carries lies just below what the record covered so far. */
  lemma BackfillPageKeepsCoverage(h: History, w: Walk, t: Turn, floor: nat, links: map<MessageId, Option<MessageId>>)
    requires WalkOk(h, w, links) && w.halt.Going?
    requires w.chat.oldest.Null? && w.chat.newest.At? ==> w.chat.newest.pos < floor
    requires t.Served? && t.page.items != [] && ServesBefore(h, floor, w.chat.oldest, t)
    ensures Justified(h, BackfillPage(w, t.page).chat, BackfillPage(w, t.page).rows, links)
  {
    PageSettles(h, w, t.page, links);
    PagePositions(h, floor, w.chat.oldest, t);
    var next := BackfillPage(w, t.page);
    assert InRange(h, next.chat);
    forall i | 0 <= i < |h| && Covers(next.chat, i)
      ensures h[i] in t.page.items || Covers(w.chat, i)
    {
    }
  }

  /** A page with nothing new can only come from past the beginning of history. */
  lemma NothingNewMeansExhausted(h: History, w: Walk, t: Turn, floor: nat, links: map<MessageId, Option<MessageId>>)
    requires WalkOk(h, w, links) && w.halt.Going?
    requires t.Served? && t.page.items != [] && ServesBefore(h, floor, w.chat.oldest, t)
    requires Unseen(w.recent, t.page.items) == []
    ensures w.chat.oldest.At? && w.chat.oldest.pos <= 0
  {
    PagePositions(h, floor, w.chat.oldest, t);
    var newest := h[PageEnd(w.chat.oldest, t) - 1];
    UnseenMembers(w.recent, t.page.items);
    assert newest in t.page.items && newest !in Unseen(w.recent, t.page.items);
    assert InWindow(w.recent, newest.id);
  }

  /** Recording the end of history is right: the page reached the first message or lies past it. */
  lemma DoneIsExhausted(h: History, w: Walk, t: Turn, floor: nat, links: map<MessageId, Option<MessageId>>)
    requires WalkOk(h, w, links) && w.halt.Going?
    requires w.chat.oldest.Null? && w.chat.newest.At? ==> w.chat.newest.pos < floor
    requires t.Served? && t.page.items != [] && ServesBefore(h, floor, w.chat.oldest, t)
    requires Unseen(w.recent, t.page.items) == [] || !t.page.hasMore
    ensures Justified(h, BackfillPage(w, t.page).chat.(done := true), BackfillPage(w, t.page).rows, links)
  {
    PageSettles(h, w, t.page, links);
    PagePositions(h, floor, w.chat.oldest, t);
    if Unseen(w.recent, t.page.items) == [] {
      NothingNewMeansExhausted(h, w, t, floor, links);
    }
    var next := BackfillPage(w, t.page).chat;
    assert InRange(h, next);
    forall i | 0 <= i < |h| && Covers(next.(done := true), i)
      ensures h[i] in t.page.items || Covers(w.chat, i)
    {
    }
  }

  lemma BackfillPageKeepsWindow(h: History, w: Walk, t: Turn, floor: nat, links: map<MessageId, Option<MessageId>>)
    requires WalkOk(h, w, links) && w.halt.Going?
    requires t.Served? && t.page.oldest.At? && ServesBefore(h, floor, w.chat.oldest, t)
    requires Unseen(w.recent, t.page.items) != []
    ensures WindowOk(h, BackfillPage(w, t.page), links)
  {
    PageSettles(h, w, t.page, links);
    PagePositions(h, floor, w.chat.oldest, t);
    var next := BackfillPage(w, t.page);
    assert next.chat.oldest == t.page.oldest;
    forall id | InWindow(next.recent, id)
      ensures id in IdsOf(h)
    {
      if !InWindow(w.recent, id) {
        WindowGrowsByOnePage(w.recent, IdsOf(t.page.items), id);
      }
    }
    forall i | 0 <= i < |h| && InWindow(next.recent, h[i].id)
      ensures Settled(h, i, next.rows, next.chat.pending, links) && i >= next.chat.oldest.pos
    {
      if !InWindow(w.recent, h[i].id) {
        WindowGrowsByOnePage(w.recent, IdsOf(t.page.items), h[i].id);
      }
    }
  }

  lemma WindowGrowsByOnePage(recent: seq<set<MessageId>>, page: set<MessageId>, id: MessageId)
    requires InWindow(Push(recent, page, RECENT_ID_WINDOW_PAGES), id) && !InWindow(recent, id)
    ensures id in page
  {
    var pushed := Push(recent, page, RECENT_ID_WINDOW_PAGES);
    var k :| 0 <= k < |pushed| && id in pushed[k];
    assert pushed[k] == (recent + [page])[k + |recent| + 1 - |pushed|];
  }

  /** The core step: one round of the backfill keeps the walk's invariant, whatever the server
      serves within its contract and wherever the limit, an error or a cancellation stops it. */
  lemma BackfillTurnKeepsWalk(h: History, w: Walk, limit: nat, t: Turn, floor: nat, links: map<MessageId, Option<MessageId>>)
    requires WalkOk(h, w, links) && w.halt.Going?
    requires w.chat.oldest.Null? && w.chat.newest.At? ==> w.chat.newest.pos < floor
    requires ServesBefore(h, floor, w.chat.oldest, t)
    ensures WalkOk(h, BackfillTurn(w, limit, t), links)
  {
    if t.Served? && !LimitReached(limit, w.budget) && t.page.items != [] {
      var unseen := Unseen(w.recent, t.page.items);
      if t.cut >= |unseen| {
        BackfillPageKeepsCoverage(h, w, t, floor, links);
        if unseen == [] || !t.page.hasMore {
          DoneIsExhausted(h, w, t, floor, links);
        } else if t.page.oldest.At? {
          BackfillPageKeepsWindow(h, w, t, floor, links);
        }
      }
    }
  }

  /** Cursors only ever stand where the server put them, whatever else went wrong. */
  lemma BackfillStaysInRange(h: History, w: Walk, limit: nat, t: Turn, floor: nat)
    requires InRange(h, w.chat) && ServesBefore(h, floor, w.chat.oldest, t)
    ensures InRange(h, BackfillTurn(w, limit, t).chat)
    ensures t.Served? && t.page.items != [] ==> InRange(h, BackfillPage(w, t.page).chat)
  {
  }

  lemma ExtendStaysInRange(h: History, w: Walk, limit: nat, t: Turn)
    requires InRange(h, w.chat) && ServesAfter(h, w.chat.newest, t)
    ensures InRange(h, ExtendTurn(w, limit, t).chat)
  {
  }

  // ---- The incremental fetch ----

  lemma ExpandKeepsPlainMessages(items: seq<Message>, targets: map<nat, Message>)
    ensures forall m | m in items && Stored(m) :: m in Expand(items, targets)
    ensures forall m | m in Expand(items, targets) :: m in items || exists i | i in targets :: m == targets[i]
  {
    if items != [] {
      var i := |items| - 1;
      assert items == items[..i] + [items[i]];
      ExpandKeepsPlainMessages(items[..i], targets);
    }
  }

  /** The messages a page past the cursor newly covers are on it. */
  lemma NewlyCoveredOnPage(h: History, cursor: Cursor, t: Turn, i: int)
    requires t.Served? && ServesAfter(h, cursor, t) && t.page.items != [] && t.page.newest.At? && t.page.newest != cursor
    requires cursor.At? && cursor.pos < i <= t.page.newest.pos
    ensures 0 <= i < |h| && h[i] in t.page.items
  {
    var n := |t.page.items|;
    assert t.page.items[n - 1 - (i - cursor.pos - 1)] == h[i];
  }

  /** A page all of whose messages were persisted, with the cursor moved to its newest or not. */
  lemma ExtendPageKeepsCoverage(h: History, w: Walk, t: Turn, links: map<MessageId, Option<MessageId>>, next: Walk, newest: Cursor)
    requires Justified(h, w.chat, w.rows, links) && t.Served? && ServesAfter(h, w.chat.newest, t) && t.page.items != []
    requires newest == w.chat.newest || (newest == t.page.newest && newest.At?)
    requires next == Process(w, Expand(t.page.items, t.targets))
    ensures Justified(h, next.chat.(newest := newest), next.rows, links)
  {
    ExpandKeepsPlainMessages(t.page.items, t.targets);
    ProcessSettles(h, w, Expand(t.page.items, t.targets), links);
    var chat := next.chat.(newest := newest);
    forall i | 0 <= i < |h| && Covers(chat, i)
      ensures Settled(h, i, next.rows, chat.pending, links)
    {
      if newest != w.chat.newest && i > w.chat.newest.pos {
        NewlyCoveredOnPage(h, w.chat.newest, t, i);
      }
    }
  }

  /** One round of the incremental fetch keeps what a finished chat's record claims. */
  lemma ExtendTurnKeepsWalk(h: History, w: Walk, limit: nat, t: Turn, links: map<MessageId, Option<MessageId>>)
    requires Justified(h, w.chat, w.rows, links) && ServesAfter(h, w.chat.newest, t)
    ensures Justified(h, ExtendTurn(w, limit, t).chat, ExtendTurn(w, limit, t).rows, links)
  {
    if t.Served? && !LimitReached(limit, w.budget) && t.page.items != [] {
      if t.cut < |t.page.items| {
        ProcessSettles(h, w, Expand(t.page.items[..t.cut], t.targets), links);
      } else {
        var next := Process(w, Expand(t.page.items, t.targets));
        ExtendPageKeepsCoverage(h, w, t, links, next, w.chat.newest);
        if t.page.newest.At? {
          ExtendPageKeepsCoverage(h, w, t, links, next, t.page.newest);
        }
      }
    }
  }

  /** The incremental fetch goes on only past a page that moved its cursor forward, so it stops at
      the head, at an empty page and at a cursor that does not advance. */
  lemma ExtendGoesOnOnlyForward(h: History, w: Walk, limit: nat, t: Turn)
    requires w.chat.newest.At? && ServesAfter(h, w.chat.newest, t) && ExtendTurn(w, limit, t).halt.Going? && w.halt.Going?
    ensures ExtendTurn(w, limit, t).chat.newest.At?
    ensures w.chat.newest.pos < ExtendTurn(w, limit, t).chat.newest.pos < |h|
  {
  }

  /** So it makes no more fetches than there are messages past its cursor, and one. */
  lemma {:induction false} ExtendTerminates(h: History, w: Walk, limit: nat, script: Script, k: nat)
    requires InRange(h, w.chat) && w.chat.newest.At?
    requires forall j: nat :: ExtendServed(h, w, limit, script, j)
    ensures ExtendAfter(w, limit, script, k).halt.Going? ==>
      ExtendAfter(w, limit, script, k).chat.newest.At? && w.chat.newest.pos + k <= ExtendAfter(w, limit, script, k).chat.newest.pos < |h|
  {
    if k > 0 {
      ExtendTerminates(h, w, limit, script, k - 1);
      assert ExtendServed(h, w, limit, script, k - 1);
      if ExtendAfter(w, limit, script, k).halt.Going? {
        ExtendGoesOnOnlyForward(h, ExtendAfter(w, limit, script, k - 1), limit, TurnAt(script, k - 1));
      }
    }
  }

  /** What an incremental round persists is the chat's own. */
  lemma ExtendPersists(h: History, w: Walk, limit: nat, t: Turn) returns (handed: seq<Message>)
    requires ServesAfter(h, w.chat.newest, t)
    ensures forall m | m in handed :: m in h
    ensures ExtendTurn(w, limit, t).chat.pending == w.chat.pending + RepliesOf(handed)
    ensures ExtendTurn(w, limit, t).rows == w.rows + RowsOf(handed)
    ensures ChatDefines(w.chat, ExtendTurn(w, limit, t).chat)
  {
    handed := [];
    assert w.chat.pending + [] == w.chat.pending;
    if t.Served? && !LimitReached(limit, w.budget) && t.page.items != [] {
      var items := if t.cut < |t.page.items| then t.page.items[..t.cut] else t.page.items;
      ExpandKeepsPlainMessages(items, t.targets);
      handed := Expand(items, t.targets);
    }
  }

  /** The messages a backfill round persists. */
  function BackfillHands(w: Walk, limit: nat, t: Turn): seq<Message> {
    if !t.Served? || LimitReached(limit, w.budget) || t.page.items == [] then []
    else
      var unseen := Unseen(w.recent, t.page.items);
      if t.cut < |unseen| then unseen[..t.cut] else unseen
  }

  lemma BackfillAdds(w: Walk, limit: nat, t: Turn, handed: seq<Message>)
    requires handed == BackfillHands(w, limit, t)
    ensures BackfillTurn(w, limit, t).chat.pending == w.chat.pending + RepliesOf(handed)
  {
    if handed == [] {
      assert w.chat.pending + RepliesOf(handed) == w.chat.pending;
    }
  }

  lemma BackfillDefines(w: Walk, limit: nat, t: Turn)
    ensures ChatDefines(w.chat, BackfillTurn(w, limit, t).chat)
  {
  }

  lemma BackfillAddsRows(w: Walk, limit: nat, t: Turn, handed: seq<Message>)
    requires handed == BackfillHands(w, limit, t)
    ensures BackfillTurn(w, limit, t).rows == w.rows + RowsOf(handed)
  {
    if handed == [] {
      assert w.rows + RowsOf(handed) == w.rows;
    }
  }

  /** What a backfill round persists is the chat's own. */
  lemma BackfillPersists(h: History, floor: nat, w: Walk, limit: nat, t: Turn) returns (handed: seq<Message>)
    requires ServesBefore(h, floor, w.chat.oldest, t)
    ensures forall m | m in handed :: m in h
    ensures BackfillTurn(w, limit, t).chat.pending == w.chat.pending + RepliesOf(handed)
    ensures BackfillTurn(w, limit, t).rows == w.rows + RowsOf(handed)
    ensures ChatDefines(w.chat, BackfillTurn(w, limit, t).chat)
  {
    handed := BackfillHands(w, limit, t);
    BackfillAdds(w, limit, t, handed);
    BackfillAddsRows(w, limit, t, handed);
    BackfillDefines(w, limit, t);
    if handed != [] {
      PagePositions(h, floor, w.chat.oldest, t);
      UnseenMembers(w.recent, t.page.items);
    }
  }

  /** Every answer the incremental fetch gets respects the paging contract for its cursor. */
  ghost predicate ExtendServed(h: History, w: Walk, limit: nat, script: Script, k: nat) {
    var now := ExtendAfter(w, limit, script, k);
    now.halt.Going? ==> ServesAfter(h, now.chat.newest, TurnAt(script, k))
  }

  lemma {:induction false} ExtendKeepsCoverage(h: History, w: Walk, limit: nat, script: Script, links: map<MessageId, Option<MessageId>>, k: nat)
    requires Justified(h, w.chat, w.rows, links)
    requires forall j: nat :: ExtendServed(h, w, limit, script, j)
    ensures Justified(h, ExtendAfter(w, limit, script, k).chat, ExtendAfter(w, limit, script, k).rows, links)
  {
    if k > 0 {
      ExtendKeepsCoverage(h, w, limit, script, links, k - 1);
      assert ExtendServed(h, w, limit, script, k - 1);
      if ExtendAfter(w, limit, script, k - 1).halt.Going? {
        ExtendTurnKeepsWalk(h, ExtendAfter(w, limit, script, k - 1), limit, TurnAt(script, k - 1), links);
      }
    }
  }

  // ---- Termination ----

  /** The server behaves: a page item is either new to this walk or repeats one of the last few
      pages. */
  ghost predicate RepeatsOnlyRecent(ids: set<MessageId>, w: Walk, t: Turn) {
    t.Served? ==> forall m | m in t.page.items :: m.id in ids && (m.id in w.served ==> InWindow(w.recent, m.id))
  }

  ghost predicate TurnRepeatsOnlyRecent(ids: set<MessageId>, w: Walk, limit: nat, script: Script, k: nat) {
    RepeatsOnlyRecent(ids, BackfillAfter(w, limit, script, k), TurnAt(script, k))
  }

  lemma BackfillTurnServesNew(ids: set<MessageId>, w: Walk, limit: nat, t: Turn)
    requires RepeatsOnlyRecent(ids, w, t) && w.served <= ids
    ensures w.served <= BackfillTurn(w, limit, t).served <= ids
    ensures w.halt.Going? && BackfillTurn(w, limit, t).halt.Going? ==> |w.served| < |BackfillTurn(w, limit, t).served|
  {
    var next := BackfillTurn(w, limit, t);
    if w.halt.Going? && next.halt.Going? {
      var unseen := Unseen(w.recent, t.page.items);
      UnseenMembers(w.recent, t.page.items);
      assert unseen[0] in unseen;
      assert unseen[0].id in next.served - w.served;
      SmallerThanWithMore(w.served, next.served, unseen[0].id);
    }
  }

  lemma SmallerThanWithMore(a: set<MessageId>, b: set<MessageId>, extra: MessageId)
    requires a <= b && extra in b - a
    ensures |a| < |b|
  {
    assert b == a + (b - a);
    assert |b| == |a| + |b - a|;
  }

  lemma {:induction false} BackfillProgress(ids: set<MessageId>, w: Walk, limit: nat, script: Script, k: nat)
    requires w.served <= ids
    requires forall j: nat :: TurnRepeatsOnlyRecent(ids, w, limit, script, j)
    ensures BackfillAfter(w, limit, script, k).served <= ids
    ensures BackfillAfter(w, limit, script, k).halt.Going? ==> |BackfillAfter(w, limit, script, k).served| >= k
  {
    if k > 0 {
      BackfillProgress(ids, w, limit, script, k - 1);
      assert TurnRepeatsOnlyRecent(ids, w, limit, script, k - 1);
      BackfillTurnServesNew(ids, BackfillAfter(w, limit, script, k - 1), limit, TurnAt(script, k - 1));
    }
  }

  /** A backfill returns after at most one fetch more than the chat has messages. */
  lemma BackfillTerminates(ids: set<MessageId>, w: Walk, limit: nat, script: Script)
    requires w.served <= ids
    requires forall j: nat :: TurnRepeatsOnlyRecent(ids, w, limit, script, j)
    ensures !BackfillAfter(w, limit, script, |ids| + 1).halt.Going?
  {
    BackfillProgress(ids, w, limit, script, |ids| + 1);
    assert BackfillAfter(w, limit, script, |ids| + 1).served <= ids;
    SubsetIsNoLarger(BackfillAfter(w, limit, script, |ids| + 1).served, ids);
  }

  lemma SubsetIsNoLarger(a: set<MessageId>, b: set<MessageId>)
    requires a <= b
    ensures |a| <= |b|
  {
    assert b == a + (b - a);
    assert |b| == |a| + |b - a|;
  }

  // ---- Whole walks ----

  /** Every answer the backfill gets respects the paging contract for the cursor it asked with. */
  ghost predicate BackfillServed(h: History, floor: nat, w: Walk, limit: nat, script: Script) {
    forall k: nat :: TurnServed(h, floor, w, limit, script, k)
  }

  ghost predicate TurnServed(h: History, floor: nat, w: Walk, limit: nat, script: Script, k: nat) {
    var now := BackfillAfter(w, limit, script, k);
    now.halt.Going? ==> ServesBefore(h, floor, now.chat.oldest, TurnAt(script, k))
  }

  /** A walk that is still going has not asked for the newest page twice. */
  predicate PastFirstPage(w: Walk, chat: Chat) {
    w.halt.Going? && w.chat.oldest.Null? ==> w.chat.newest == chat.newest
  }

  /** A backfill that starts with Done unset keeps its record justified throughout. */
  lemma {:induction false} BackfillKeepsCoverage(h: History, chat: Chat, rows: set<MessageId>, limit: nat, script: Script,
                                                 links: map<MessageId, Option<MessageId>>, floor: nat, k: nat)
    requires UniqueIds(h) && Justified(h, chat, rows, links) && !chat.done
    requires chat.newest.At? ==> chat.newest.pos < floor
    requires BackfillServed(h, floor, Begin(chat, rows), limit, script)
    ensures WalkOk(h, BackfillAfter(Begin(chat, rows), limit, script, k), links)
    ensures PastFirstPage(BackfillAfter(Begin(chat, rows), limit, script, k), chat)
  {
    if k > 0 {
      BackfillKeepsCoverage(h, chat, rows, limit, script, links, floor, k - 1);
      var w := BackfillAfter(Begin(chat, rows), limit, script, k - 1);
      assert TurnServed(h, floor, Begin(chat, rows), limit, script, k - 1);
      if w.halt.Going? {
        BackfillTurnKeepsWalk(h, w, limit, TurnAt(script, k - 1), floor, links);
        TurnStaysPastFirstPage(w, limit, TurnAt(script, k - 1), chat);
      }
    }
  }

  lemma TurnStaysPastFirstPage(w: Walk, limit: nat, t: Turn, chat: Chat)
    requires PastFirstPage(w, chat) && w.halt.Going?
    ensures PastFirstPage(BackfillTurn(w, limit, t), chat)
  {
  }

  // ---- A walk of a chat that is marked done already ----

  /** The walk with the mark taken back: what it claims by itself. */
  function Undone(w: Walk): Walk {
    w.(chat := w.chat.(done := false))
  }

  /** The round ends by exhaustion: an empty page, a page with nothing new, or the server saying so. */
  predicate ReachesEnd(w: Walk, limit: nat, t: Turn) {
    BackfillTurn(Undone(w), limit, t).chat.done
  }

  /** The record claims nothing, or its own cursors already reach the beginning. */
  predicate Whole(chat: Chat) {
    chat.newest.Null? || (chat.oldest.At? && chat.oldest.pos <= 0)
  }

  function Marked(w: Walk): Walk {
    w.(chat := w.chat.(done := true))
  }

  lemma PageIgnoresDone(w: Walk, page: Page)
    ensures BackfillPage(Marked(w), page) == Marked(BackfillPage(w, page))
  {
    assert Primed(Marked(w), page) == Marked(Primed(w, page));
    var unseen := Unseen(w.recent, page.items);
    assert Process(Marked(Primed(w, page)), unseen) == Marked(Process(Primed(w, page), unseen));
  }

  lemma CutIgnoresDone(w: Walk, page: Page, items: seq<Message>)
    ensures Process(Primed(Marked(w), page), items) == Marked(Process(Primed(w, page), items))
  {
  }

  /** The backfill never looks at the mark. */
  lemma TurnIgnoresDone(w: Walk, limit: nat, t: Turn)
    requires w.chat.done
    ensures BackfillTurn(w, limit, t) == Marked(BackfillTurn(Undone(w), limit, t))
  {
    var u := Undone(w);
    assert w == Marked(u);
    if t.Served? {
      PageIgnoresDone(u, t.page);
      var unseen := Unseen(u.recent, t.page.items);
      if t.cut < |unseen| {
        CutIgnoresDone(u, t.page, unseen[..t.cut]);
      }
    }
  }

  /** A record that claims everything between its cursors honestly may claim all of history when they
      reach the beginning. */
  lemma WholeIsHonest(h: History, chat: Chat, rows: set<MessageId>, links: map<MessageId, Option<MessageId>>)
    requires Justified(h, chat, rows, links) && Whole(chat)
    ensures Justified(h, chat.(done := true), rows, links)
  {
    forall i | 0 <= i < |h| && Covers(chat.(done := true), i) ensures Covers(chat, i) {
    }
  }

  /** One round of a walk marked done: without the mark it is an ordinary walk, and its record is right
      as marked once it ended by exhaustion or its cursors reach the beginning. */
  lemma MarkedTurnKeepsWalk(h: History, w: Walk, limit: nat, t: Turn, floor: nat, links: map<MessageId, Option<MessageId>>)
    requires w.chat.done && w.halt.Going? && WalkOk(h, Undone(w), links)
    requires w.chat.oldest.Null? && w.chat.newest.At? ==> w.chat.newest.pos < floor
    requires ServesBefore(h, floor, w.chat.oldest, t)
    ensures var w' := BackfillTurn(w, limit, t);
      && (w'.halt.Going? ==> w'.chat.done && WalkOk(h, Undone(w'), links))
      && (!w'.halt.Aborted? && (ReachesEnd(w, limit, t) || Whole(w'.chat)) ==> Justified(h, w'.chat, w'.rows, links))
  {
    TurnIgnoresDone(w, limit, t);
    BackfillTurnKeepsWalk(h, Undone(w), limit, t, floor, links);
    var u' := BackfillTurn(Undone(w), limit, t);
    if !u'.halt.Aborted? && Whole(u'.chat) {
      WholeIsHonest(h, u'.chat, u'.rows, links);
    }
  }

  /** The record a marked walk hands to the checkpoint in the middle. */
  lemma MarkedPageKeepsRecord(h: History, w: Walk, limit: nat, t: Turn, floor: nat, links: map<MessageId, Option<MessageId>>)
    requires w.chat.done && w.halt.Going? && WalkOk(h, Undone(w), links)
    requires w.chat.oldest.Null? && w.chat.newest.At? ==> w.chat.newest.pos < floor
    requires t.Served? && t.page.items != [] && ServesBefore(h, floor, w.chat.oldest, t)
    requires !LimitReached(limit, w.budget) && |Unseen(w.recent, t.page.items)| <= t.cut
    requires ReachesEnd(w, limit, t) || Whole(BackfillPage(w, t.page).chat)
    ensures Justified(h, BackfillPage(w, t.page).chat, BackfillPage(w, t.page).rows, links)
  {
    var u := BackfillPage(Undone(w), t.page);
    assert BackfillPage(w, t.page) == u.(chat := u.chat.(done := true));
    if ReachesEnd(w, limit, t) {
      DoneIsExhausted(h, Undone(w), t, floor, links);
    } else {
      BackfillPageKeepsCoverage(h, Undone(w), t, floor, links);
      WholeIsHonest(h, u.chat, u.rows, links);
    }
  }

  /** With the mark or without, the same rounds. */
  lemma {:induction false} MarkedWalkIsSame(chat: Chat, rows: set<MessageId>, limit: nat, script: Script, k: nat)
    requires chat.done
    ensures var u := BackfillAfter(Begin(chat.(done := false), rows), limit, script, k);
      BackfillAfter(Begin(chat, rows), limit, script, k) == u.(chat := u.chat.(done := true))
  {
    if k > 0 {
      MarkedWalkIsSame(chat, rows, limit, script, k - 1);
      var u := BackfillAfter(Begin(chat.(done := false), rows), limit, script, k - 1);
      var w := BackfillAfter(Begin(chat, rows), limit, script, k - 1);
      if w.halt.Going? {
        TurnIgnoresDone(w, limit, TurnAt(script, k - 1));
        TurnIgnoresDone(u.(chat := u.chat.(done := true)), limit, TurnAt(script, k - 1));
        GoingIsUnmarked(chat.(done := false), rows, limit, script, k - 1);
        assert Undone(w) == u;
      }
    }
  }

  lemma PageKeepsMark(w: Walk, page: Page)
    ensures BackfillPage(w, page).chat.done == w.chat.done && BackfillPage(w, page).halt == w.halt
  {
  }

  lemma TurnGoesOnUnmarked(w: Walk, limit: nat, t: Turn)
    requires !w.chat.done && BackfillTurn(w, limit, t).halt.Going?
    ensures !BackfillTurn(w, limit, t).chat.done
  {
    if t.Served? {
      PageKeepsMark(w, t.page);
    }
  }

  lemma {:induction false} GoingIsUnmarked(chat: Chat, rows: set<MessageId>, limit: nat, script: Script, k: nat)
    requires !chat.done
    ensures BackfillAfter(Begin(chat, rows), limit, script, k).halt.Going? ==>
      !BackfillAfter(Begin(chat, rows), limit, script, k).chat.done
  {
    if k > 0 {
      GoingIsUnmarked(chat, rows, limit, script, k - 1);
      var w, t := BackfillAfter(Begin(chat, rows), limit, script, k - 1), TurnAt(script, k - 1);
      if w.halt.Going? && BackfillTurn(w, limit, t).halt.Going? {
        TurnGoesOnUnmarked(w, limit, t);
      }
    }
  }

  lemma {:induction false} ServedWithoutMark(h: History, chat: Chat, rows: set<MessageId>, limit: nat, script: Script, floor: nat)
    requires chat.done && BackfillServed(h, floor, Begin(chat, rows), limit, script)
    ensures BackfillServed(h, floor, Begin(chat.(done := false), rows), limit, script)
  {
    forall k: nat ensures TurnServed(h, floor, Begin(chat.(done := false), rows), limit, script, k) {
      MarkedWalkIsSame(chat, rows, limit, script, k);
      assert TurnServed(h, floor, Begin(chat, rows), limit, script, k);
    }
  }

  /** Main result for a given re-walk of a chat that was finished while empty: if it ended by exhaustion,
      its record is honest. */
  lemma RewalkEndsHonest(h: History, chat: Chat, rows: set<MessageId>, limit: nat, script: Script,
                         links: map<MessageId, Option<MessageId>>, floor: nat, k: nat)
    requires UniqueIds(h) && InRange(h, chat) && chat.done && chat.newest.Null?
    requires BackfillServed(h, floor, Begin(chat, rows), limit, script)
    requires BackfillAfter(Begin(chat.(done := false), rows), limit, script, k).chat.done
    requires !BackfillAfter(Begin(chat, rows), limit, script, k).halt.Aborted?
    ensures var w := BackfillAfter(Begin(chat, rows), limit, script, k); Justified(h, w.chat, w.rows, links)
  {
    MarkedWalkIsSame(chat, rows, limit, script, k);
    ServedWithoutMark(h, chat, rows, limit, script, floor);
    BackfillKeepsCoverage(h, chat.(done := false), rows, limit, script, links, floor, k);
  }

  // ---- The walk the importer restarts on a chat that was empty when it was finished ----

  const EMPTY_WHEN_DONE := Chat(Null, Null, true, [])

  ghost predicate AllStored(h: History) {
    forall i | 0 <= i < |h| :: Stored(h[i])
  }

  /** Whatever the server serves, the restarted walk leaves a justified record. */
  ghost predicate RewalkSafe(h: History) {
    forall limit: nat, script: Script, k: nat |
      BackfillServed(h, 0, Begin(EMPTY_WHEN_DONE, {}), limit, script) &&
      BackfillAfter(Begin(EMPTY_WHEN_DONE, {}), limit, script, k).halt.Returned? ::
      Justified(h, BackfillAfter(Begin(EMPTY_WHEN_DONE, {}), limit, script, k).chat,
                BackfillAfter(Begin(EMPTY_WHEN_DONE, {}), limit, script, k).rows, map[])
  }

  /** The one message of a one-message history is settled as soon as the record covers it. */
  ghost predicate OneMessageOk(h: History, w: Walk) {
    && InRange(h, w.chat)
    && forall i | 0 <= i < |h| && (w.chat.newest.At? || InWindow(w.recent, h[i].id)) ::
         Settled(h, i, w.rows, w.chat.pending, map[])
  }

  /** Every page with something on it has the one message, and settles it. */
  lemma PageSettlesTheOne(h: History, w: Walk, t: Turn)
    requires |h| <= 1 && OneMessageOk(h, w)
    requires t.Served? && t.page.items != [] && ServesBefore(h, 0, w.chat.oldest, t)
    ensures |h| == 1 && var next := BackfillPage(w, t.page); Settled(h, 0, next.rows, next.chat.pending, map[])
  {
    PagePositions(h, 0, w.chat.oldest, t);
    assert h[0] in t.page.items;
    ProcessSettles(h, Primed(w, t.page), Unseen(w.recent, t.page.items), map[]);
    UnseenMembers(w.recent, t.page.items);
    if h[0] !in Unseen(w.recent, t.page.items) {
      assert InWindow(w.recent, h[0].id);
    }
  }

  lemma RewalkTurnOfOneMessage(h: History, w: Walk, limit: nat, t: Turn)
    requires |h| <= 1 && UniqueIds(h) && OneMessageOk(h, w)
    requires ServesBefore(h, 0, w.chat.oldest, t) && !BackfillTurn(w, limit, t).halt.Aborted?
    ensures OneMessageOk(h, BackfillTurn(w, limit, t))
  {
    if t.Served? && t.page.items != [] {
      PageSettlesTheOne(h, w, t);
    }
  }

  lemma {:induction false} RewalkOfOneMessage(h: History, limit: nat, script: Script, k: nat)
    requires |h| <= 1 && UniqueIds(h)
    requires BackfillServed(h, 0, Begin(EMPTY_WHEN_DONE, {}), limit, script)
    ensures BackfillAfter(Begin(EMPTY_WHEN_DONE, {}), limit, script, k).halt.Aborted? ||
            OneMessageOk(h, BackfillAfter(Begin(EMPTY_WHEN_DONE, {}), limit, script, k))
  {
    if k > 0 {
      RewalkOfOneMessage(h, limit, script, k - 1);
      var w := BackfillAfter(Begin(EMPTY_WHEN_DONE, {}), limit, script, k - 1);
      assert TurnServed(h, 0, Begin(EMPTY_WHEN_DONE, {}), limit, script, k - 1);
      if w.halt.Going? && !BackfillTurn(w, limit, TurnAt(script, k - 1)).halt.Aborted? {
        RewalkTurnOfOneMessage(h, w, limit, TurnAt(script, k - 1));
      }
    }
  }

  /** The newest message arrives, then the next fetch fails. */
  function OnePageThenFailure(h: History): Script
    requires h != []
  {
    var n := |h| - 1;
    [Served(|h|, Page([h[n]], true, At(n), At(n)), 1, false, map[]), Failed]
  }

  lemma FirstPageOfOne(h: History)
    requires h != []
    ensures var n := |h| - 1;
      BackfillTurn(Begin(EMPTY_WHEN_DONE, {}), 0, TurnAt(OnePageThenFailure(h), 0)) ==
      Walk(Chat(At(n), At(n), true, RepliesOf([h[n]])), RowsOf([h[n]]), [{h[n].id}], 1, {h[n].id}, 0, Going)
  {
    var n := |h| - 1;
    TurnOfOne(Begin(EMPTY_WHEN_DONE, {}), TurnAt(OnePageThenFailure(h), 0), Page([h[n]], true, At(n), At(n)), n, h[n]);
  }

  lemma TurnOfOne(start: Walk, t: Turn, page: Page, n: nat, m: Message)
    requires start == Begin(EMPTY_WHEN_DONE, {}) && page == Page([m], true, At(n), At(n))
    requires t.Served? && t.page == page && t.cut == 1
    ensures BackfillTurn(start, 0, t) == Walk(Chat(At(n), At(n), true, RepliesOf([m])), RowsOf([m]), [{m.id}], 1, {m.id}, 0, Going)
  {
    PageOfOne(start, page, true, {}, n, m);
    assert {} + RowsOf([m]) == RowsOf([m]);
    UnseenOfOne(m);
    assert !LimitReached(0, start.budget) && start.recent == [];
  }

  lemma UnseenOfOne(m: Message)
    ensures Unseen([], [m]) == [m]
  {
    assert [m][..0] == [] && Unseen([], []) == [];
  }

  /** The first page of a backfill, with one message on it. */
  lemma PageOfOne(start: Walk, page: Page, done: bool, rows: set<MessageId>, n: nat, m: Message)
    requires start == Begin(Chat(Null, Null, done, []), rows) && page.items == [m] && page.oldest == page.newest == At(n)
    ensures BackfillPage(start, page) ==
      Walk(Chat(At(n), At(n), done, RepliesOf([m])), rows + RowsOf([m]), [{m.id}], 1, {m.id}, 0, Going)
  {
    UnseenOfOne(m);
    var primed := start.(chat := Chat(At(n), Null, done, []));
    assert Primed(start, page) == primed;
    var processed := start.(chat := Chat(At(n), Null, done, RepliesOf([m])), rows := rows + RowsOf([m]));
    assert Process(primed, [m]) == processed by {
      assert [] + RepliesOf([m]) == RepliesOf([m]);
    }
    assert IdsOf([m]) == {m.id} && Push([], {m.id}, RECENT_ID_WINDOW_PAGES) == [{m.id}];
  }

  lemma OnePageIsServed(h: History)
    requires h != []
    ensures BackfillServed(h, 0, Begin(EMPTY_WHEN_DONE, {}), 0, OnePageThenFailure(h))
  {
    var script, start := OnePageThenFailure(h), Begin(EMPTY_WHEN_DONE, {});
    forall k: nat
      ensures TurnServed(h, 0, start, 0, script, k)
    {
      if k == 0 {
        assert Slice(h, |h| - 1, |h|, TurnAt(script, 0).page);
      }
    }
  }

  /** Done survives the restart, so a restarted walk that stops early passes for finished. */
  lemma RewalkLeavesGap(h: History)
    requires |h| >= 2 && UniqueIds(h) && AllStored(h)
    ensures !RewalkSafe(h)
  {
    var script, start := OnePageThenFailure(h), Begin(EMPTY_WHEN_DONE, {});
    OnePageIsServed(h);
    FirstPageOfOne(h);
    var w1 := BackfillAfter(start, 0, script, 1);
    assert BackfillAfter(start, 0, script, 0) == start;
    assert w1 == BackfillTurn(start, 0, TurnAt(script, 0));
    var w2 := BackfillAfter(start, 0, script, 2);
    assert w2 == BackfillTurn(w1, 0, Failed);
    assert Covers(w2.chat, 0) && h[0].id !in w2.rows;
    assert !Settled(h, 0, w2.rows, w2.chat.pending, map[]);
    assert !Justified(h, w2.chat, w2.rows, map[]);
  }

  /** The restarted walk of a chat that was empty when it was finished is safe exactly while the
      chat has at most one message. */
  lemma RewalkSafeExactly(h: History)
    requires UniqueIds(h) && AllStored(h)
    ensures RewalkSafe(h) <==> |h| <= 1
  {
    if |h| <= 1 {
      forall limit: nat, script: Script, k: nat |
        BackfillServed(h, 0, Begin(EMPTY_WHEN_DONE, {}), limit, script) &&
        BackfillAfter(Begin(EMPTY_WHEN_DONE, {}), limit, script, k).halt.Returned?
        ensures Justified(h, BackfillAfter(Begin(EMPTY_WHEN_DONE, {}), limit, script, k).chat,
                          BackfillAfter(Begin(EMPTY_WHEN_DONE, {}), limit, script, k).rows, map[])
      {
        RewalkOfOneMessage(h, limit, script, k);
      }
    } else {
      RewalkLeavesGap(h);
    }
  }
}
