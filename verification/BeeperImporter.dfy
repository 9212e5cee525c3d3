/** The importer's loops over one chat, in place, each proved to follow its walk round by round. */
module BeeperImporter {
  import opened Options
  import opened BeeperState
  import opened BeeperWalk

  /** recentIDWindow: the message IDs of the last few pages of a backfill. */
  class RecentIdWindow {
    var pages: seq<set<MessageId>>
    const max: nat

    constructor (maxPages: nat)
      ensures pages == [] && max == maxPages
    {
      pages, max := [], maxPages;
    }

    method Contains(id: MessageId) returns (found: bool)
      ensures found <==> InWindow(pages, id)
    {
      for k := 0 to |pages|
        invariant forall j | 0 <= j < k :: id !in pages[j]
      {
        if id in pages[k] {
          return true;
        }
      }
      return false;
    }

    method Add(pageIDs: seq<MessageId>)
      modifies this
      ensures pages == Push(old(pages), (set id | id in pageIDs), max)
    {
      var page := {};
      for k := 0 to |pageIDs|
        invariant page == (set id | id in pageIDs[..k])
      {
        page := page + {pageIDs[k]};
      }
      assert pageIDs[..|pageIDs|] == pageIDs;
      pages := pages + [page];
      if |pages| > max {
        pages := pages[1..];
      }
    }
  }

  type Links = map<MessageId, Option<MessageId>>

  /** SetReplyTo updates the child's row, if it is archived, with a lookup of the parent's. */
  function SetReplyTo(links: Links, rows: set<MessageId>, r: Reply): Links {
    if r.child in rows then links[r.child := if r.parent in rows then Some(r.parent) else None] else links
  }

  function Flush(links: Links, rows: set<MessageId>, pending: seq<Reply>): Links {
    if pending == [] then links
    else
      SetReplyTo(Flush(links, rows, pending[..|pending| - 1]), rows, pending[|pending| - 1])
  }

  class Store {
    var rows: set<MessageId>
    var links: Links

    constructor ()
      ensures rows == {} && links == map[]
    {
      rows, links := {}, map[];
    }
  }

  const CHECKPOINT_PAGE_INTERVAL := 25

  /** The records a backfill hands to the throttled checkpoint in its first k rounds. */
  function BackfillOffers(w: Walk, limit: nat, script: Script, k: nat): seq<Chat> {
    if k == 0 then []
    else
      BackfillOffers(w, limit, script, k - 1) + OfferOf(BackfillAfter(w, limit, script, k - 1), limit, TurnAt(script, k - 1), k)
  }

  function OfferOf(w: Walk, limit: nat, t: Turn, page: nat): seq<Chat> {
    if CompletesPage(w, limit, t) && page % CHECKPOINT_PAGE_INTERVAL == 0 then [BackfillPage(w, t.page).chat] else []
  }

  predicate CompletesPage(w: Walk, limit: nat, t: Turn) {
    && w.halt.Going? && t.Served? && !LimitReached(limit, w.budget)
    && 0 < |Unseen(w.recent, t.page.items)| <= t.cut
  }

  /** Every record a backfill offers to the checkpoint is justified, not only the final one. */
  lemma {:induction false} OffersAreJustified(h: History, chat: Chat, rows: set<MessageId>, limit: nat, script: Script,
                                              links: Links, floor: nat, k: nat)
    requires UniqueIds(h) && Justified(h, chat, rows, links) && !chat.done
    requires chat.newest.At? ==> chat.newest.pos < floor
    requires BackfillServed(h, floor, Begin(chat, rows), limit, script)
    ensures forall c | c in BackfillOffers(Begin(chat, rows), limit, script, k) ::
      Justified(h, c, BackfillAfter(Begin(chat, rows), limit, script, k).rows, links)
  {
    if k > 0 {
      OffersAreJustified(h, chat, rows, limit, script, links, floor, k - 1);
      BackfillKeepsCoverage(h, chat, rows, limit, script, links, floor, k - 1);
      var w := BackfillAfter(Begin(chat, rows), limit, script, k - 1);
      assert TurnServed(h, floor, Begin(chat, rows), limit, script, k - 1);
      if w.halt.Going? {
        OfferIsJustified(h, w, limit, TurnAt(script, k - 1), k, floor, links);
        MoreRowsStayJustified(h, BackfillOffers(Begin(chat, rows), limit, script, k - 1),
                              w.rows, BackfillTurn(w, limit, TurnAt(script, k - 1)).rows, links);
      }
    }
  }

  lemma OfferIsJustified(h: History, w: Walk, limit: nat, t: Turn, page: nat, floor: nat, links: Links)
    requires WalkOk(h, w, links) && w.halt.Going? && PastFirstPage(w, w.chat)
    requires w.chat.oldest.Null? && w.chat.newest.At? ==> w.chat.newest.pos < floor
    requires ServesBefore(h, floor, w.chat.oldest, t)
    ensures forall c | c in OfferOf(w, limit, t, page) :: Justified(h, c, BackfillTurn(w, limit, t).rows, links)
    ensures w.rows <= BackfillTurn(w, limit, t).rows
  {
    if CompletesPage(w, limit, t) {
      assert t.page.items != [];
      BackfillPageKeepsCoverage(h, w, t, floor, links);
    }
  }

  lemma MoreRowsStayJustified(h: History, chats: seq<Chat>, rows: set<MessageId>, more: set<MessageId>, links: Links)
    requires rows <= more && forall c | c in chats :: Justified(h, c, rows, links)
    ensures forall c | c in chats :: Justified(h, c, more, links)
  {
  }

  /** chatScope: one chat of one run. */
  class ChatScope {
    const cs: ChatState
    const store: Store
    const limit: nat
    var budgetUsed: nat

    constructor (cs: ChatState, store: Store, limit: nat)
      ensures this.cs == cs && this.store == store && this.limit == limit && budgetUsed == 0
    {
      this.cs, this.store, this.limit, this.budgetUsed := cs, store, limit, 0;
    }

    /** processMessage for anything but a reaction event. */
    method ProcessMessage(m: Message)
      modifies cs, store
      ensures Handed(old(cs.View()), old(store.rows), [m], cs.View(), store.rows) && store.links == old(store.links)
    {
      assert [m][..0] == [] && RepliesOf([]) == [];
      if m.reaction || m.deleted || m.hidden {
        return;
      }
      store.rows := store.rows + {m.id};
      if m.linked.Some? {
        cs.pendingReplies := cs.pendingReplies + [Reply(m.id, m.linked.value)];
      }
    }

    /** The item loop of one backfill page; stops at the first write that fails. */
    method ProcessUnseen(recent: RecentIdWindow, items: seq<Message>, cut: nat)
      returns (newItems: nat, failed: bool, pageIDs: seq<MessageId>)
      modifies cs, store
      ensures failed <==> cut < |Unseen(recent.pages, items)|
      ensures !failed ==> newItems == |Unseen(recent.pages, items)| && pageIDs == IdSeq(items)
      ensures Handed(old(cs.View()), old(store.rows), UpTo(Unseen(recent.pages, items), cut),
                     cs.View(), store.rows)
      ensures store.links == old(store.links)
    {
      newItems, failed, pageIDs := 0, false, [];
      ghost var chat0, rows0 := cs.View(), store.rows;
      for i := 0 to |items|
        invariant newItems == |Unseen(recent.pages, items[..i])| <= cut && !failed
        invariant pageIDs == IdSeq(items[..i])
        invariant Handed(chat0, rows0, Unseen(recent.pages, items[..i]), cs.View(), store.rows)
        invariant store.links == old(store.links)
      {
        var m := items[i];
        ghost var done := Unseen(recent.pages, items[..i]);
        UnseenGrowsBy(recent.pages, items, i);
        IdSeqGrowsBy(items, i);
        pageIDs := pageIDs + [m.id];
        var known := recent.Contains(m.id);
        if !known {
          newItems := newItems + 1;
          if newItems == cut + 1 {
            UnseenCut(recent.pages, items, i, cut);
            failed := true;
            return;
          }
          ghost var chat, rows := cs.View(), store.rows;
          ProcessMessage(m);
          HandedOneMore(chat0, rows0, done, m, chat, rows, cs.View(), store.rows);
        }
      }
      UnseenUncut(recent.pages, items, cut);
    }

    /** The scope, the records and the duplicate window are in the state of the walk `w`. */
    ghost predicate Follows(w: Walk, recent: RecentIdWindow)
      reads this, cs, store, recent
    {
      cs.View() == w.chat && store.rows == w.rows && recent.pages == w.recent && budgetUsed == w.budget
    }

    /** One fetched page of a backfill, from priming the incremental cursor to the loop's exits. */
    method BackfillRound(recent: RecentIdWindow, t: Turn, ghost w: Walk) returns (halt: Halt, completed: bool, record: Chat)
      requires t.Served? && w.halt.Going? && !LimitReached(limit, w.budget)
      requires Follows(w, recent) && recent.max == RECENT_ID_WINDOW_PAGES
      modifies this, cs, store, recent
      ensures halt == BackfillTurn(w, limit, t).halt && store.links == old(store.links)
      ensures cs.View() == BackfillTurn(w, limit, t).chat && store.rows == BackfillTurn(w, limit, t).rows
      ensures budgetUsed == BackfillTurn(w, limit, t).budget
      ensures halt.Going? ==> Follows(BackfillTurn(w, limit, t), recent)
      ensures completed == CompletesPage(w, limit, t)
      ensures completed ==> record == BackfillPage(w, t.page).chat
    {
      var page := t.page;
      completed, record := false, cs.View();
      if cs.newest.Null? && page.newest.At? {
        cs.newest := page.newest;
      }
      if |page.items| == 0 {
        assert Unseen(w.recent, page.items) == [];
        cs.done := true;
        return Returned, false, record;
      }
      var newItems, failed, pageIDs := ProcessUnseen(recent, page.items, t.cut);
      if failed {
        return Aborted, false, record;
      }
      assert UpTo(Unseen(w.recent, page.items), t.cut) == Unseen(w.recent, page.items);
      budgetUsed := budgetUsed + newItems;
      IdSeqIds(page.items);
      recent.Add(pageIDs);
      if newItems == 0 {
        cs.done := true;
        return Returned, false, record;
      }
      completed := true;
      if page.oldest.At? {
        cs.oldest := page.oldest;
      }
      record := cs.View();
      assert record == BackfillPage(w, page).chat;
      if !page.hasMore {
        cs.done := true;
        return Returned, true, record;
      }
      if LimitReached(limit, budgetUsed) {
        return Returned, true, record;
      }
      if page.oldest.Null? {
        return Returned, true, record;
      }
      return Going, true, record;
    }

    /** One pass of backfillChat's loop. */
    method BackfillStep(recent: RecentIdWindow, t: Turn, ghost w: Walk, ghost next: Walk, ghost offer: seq<Chat>, ghost page: nat)
      returns (halt: Halt, fetchErrors: nat, completed: bool, record: Chat)
      requires w.halt.Going? && Follows(w, recent) && recent.max == RECENT_ID_WINDOW_PAGES
      requires next == BackfillTurn(w, limit, t) && offer == OfferOf(w, limit, t, page)
      modifies this, cs, store, recent
      ensures halt == next.halt && store.links == old(store.links)
      ensures Recorded(next) && w.fetchErrors + fetchErrors == next.fetchErrors
      ensures halt.Going? ==> Follows(next, recent) && completed
      ensures offer == if completed && page % CHECKPOINT_PAGE_INTERVAL == 0 then [record] else []
    {
      fetchErrors, completed, record := 0, false, cs.View();
      if t.Canceled? {
        halt := Aborted;
      } else if LimitReached(limit, budgetUsed) {
        halt := Returned;
      } else if t.Failed? {
        halt, fetchErrors := Returned, 1;
      } else {
        halt, completed, record := BackfillRound(recent, t, w);
      }
    }

    ghost predicate Recorded(w: Walk)
      reads this, cs, store
    {
      cs.View() == w.chat && store.rows == w.rows && budgetUsed == w.budget
    }

    /** One pass with its checkpoint interval: the pages completed so far, and what this pass hands on. */
    method BackfillPass(recent: RecentIdWindow, t: Turn, pages: nat, ghost w: Walk, ghost next: Walk, ghost offer: seq<Chat>)
      returns (halt: Halt, fetchErrors: nat, handed: seq<Chat>, pages': nat)
      requires w.halt.Going? && Follows(w, recent) && recent.max == RECENT_ID_WINDOW_PAGES
      requires next == BackfillTurn(w, limit, t) && offer == OfferOf(w, limit, t, pages + 1)
      modifies this, cs, store, recent
      ensures halt == next.halt && store.links == old(store.links)
      ensures Recorded(next) && w.fetchErrors + fetchErrors == next.fetchErrors
      ensures halt.Going? ==> Follows(next, recent) && pages' == pages + 1
      ensures handed == offer
    {
      var completed, record;
      halt, fetchErrors, completed, record := BackfillStep(recent, t, w, next, offer, pages + 1);
      pages' := if completed then pages + 1 else pages;
      handed := if completed && pages' % CHECKPOINT_PAGE_INTERVAL == 0 then [record] else [];
    }

    /** backfillChat. `offers` are the records it hands to the throttled checkpoint. The walk ends
        because the server only ever repeats recent messages (see BackfillTerminates). */
    method BackfillChat(script: Script, ghost ids: set<MessageId>, ghost start: Walk)
      returns (aborted: bool, fetchErrors: nat, offers: seq<Chat>, rounds: nat, ghost w: Walk)
      requires budgetUsed == 0 && start == Begin(cs.View(), store.rows)
      requires AlwaysRepeatsOnlyRecent(ids, start, limit, script)
      modifies this, cs, store
      ensures IsRound(start, limit, script, rounds, w, offers) && Recorded(w)
      ensures !w.halt.Going? && (aborted <==> w.halt.Aborted?) && fetchErrors == w.fetchErrors
      ensures store.links == old(store.links) && rounds <= |ids| + 1
    {
      ghost var walks, handed := BackfillTrace(ids, start, limit, script);
      var recent := new RecentIdWindow(RECENT_ID_WINDOW_PAGES);
      assert IsRound(start, limit, script, 0, walks[0], handed[0]);
      var halt;
      halt, fetchErrors, offers, rounds := BackfillLoop(recent, script, walks, handed);
      w := walks[rounds];
      assert IsRound(start, limit, script, rounds, walks[rounds], handed[rounds]);
      aborted := halt.Aborted?;
    }

    method BackfillLoop(recent: RecentIdWindow, script: Script, ghost walks: seq<Walk>, ghost handed: seq<seq<Chat>>)
      returns (halt: Halt, fetchErrors: nat, offers: seq<Chat>, rounds: nat)
      requires recent.max == RECENT_ID_WINDOW_PAGES && IsTrace(walks, handed, limit, script)
      requires Follows(walks[0], recent) && walks[0].halt.Going? && walks[0].fetchErrors == 0 && handed[0] == []
      modifies this, cs, store, recent
      ensures rounds < |walks| && Recorded(walks[rounds]) && offers == handed[rounds]
      ensures !halt.Going? && halt == walks[rounds].halt && fetchErrors == walks[rounds].fetchErrors
      ensures store.links == old(store.links)
    {
      halt, fetchErrors, offers, rounds := Going, 0, [], 0;
      var pages := 0;
      while halt.Going?
        invariant rounds < |walks| && offers == handed[rounds]
        invariant halt == walks[rounds].halt && fetchErrors == walks[rounds].fetchErrors
        invariant Recorded(walks[rounds]) && store.links == old(store.links)
        invariant halt.Going? ==> Follows(walks[rounds], recent) && pages == rounds
        decreases |walks| - rounds
      {
        var t := TurnAt(script, rounds);
        assert RoundOk(walks, handed, limit, script, rounds);
        var errors, more;
        halt, errors, more, pages := BackfillPass(recent, t, pages, walks[rounds], walks[rounds + 1], OfferOf(walks[rounds], limit, t, rounds + 1));
        fetchErrors, offers, rounds := fetchErrors + errors, offers + more, rounds + 1;
      }
    }

    /** One item of an incremental page: a reaction event stands for its refetched target. */
    method ProcessItem(m: Message, i: nat, targets: map<nat, Message>)
      modifies cs, store
      ensures Handed(old(cs.View()), old(store.rows), ExpandItem(m, i, targets), cs.View(), store.rows) && store.links == old(store.links)
    {
      assert RepliesOf([]) == [];
      if !m.reaction {
        ProcessMessage(m);
      } else if m.linked.Some? && i in targets {
        ProcessMessage(targets[i]);
      }
    }

    /** The item loop of one incremental page. */
    method ProcessPage(items: seq<Message>, targets: map<nat, Message>, cut: nat) returns (failed: bool)
      modifies cs, store
      ensures failed <==> cut < |items|
      ensures Handed(old(cs.View()), old(store.rows), Expand(items[..Min(cut, |items|)], targets), cs.View(), store.rows)
      ensures store.links == old(store.links)
    {
      ghost var chat0, rows0 := cs.View(), store.rows;
      var i := 0;
      while i < |items|
        invariant 0 <= i <= |items| && i <= cut
        invariant Handed(chat0, rows0, Expand(items[..i], targets), cs.View(), store.rows)
        invariant store.links == old(store.links)
      {
        if i == cut {
          return true;
        }
        ExpandGrowsBy(items, targets, i);
        ghost var chat, rows := cs.View(), store.rows;
        ProcessItem(items[i], i, targets);
        HandedMore(chat0, rows0, Expand(items[..i], targets), ExpandItem(items[i], i, targets), chat, rows, cs.View(), store.rows);
        i := i + 1;
      }
      return false;
    }

    /** One pass of incrementalChat's loop. */
    method ExtendStep(t: Turn, ghost w: Walk, ghost next: Walk) returns (halt: Halt, fetchErrors: nat)
      requires w.halt.Going? && Recorded(w) && next == ExtendTurn(w, limit, t)
      modifies this, cs, store
      ensures halt == next.halt && Recorded(next) && w.fetchErrors + fetchErrors == next.fetchErrors
      ensures store.links == old(store.links)
    {
      if t.Canceled? {
        return Aborted, 0;
      }
      if LimitReached(limit, budgetUsed) {
        return Returned, 0;
      }
      if t.Failed? {
        return Returned, 1;
      }
      var page := t.page;
      if |page.items| == 0 {
        return Returned, 0;
      }
      var failed := ProcessPage(page.items, t.targets, t.cut);
      if failed {
        var m := page.items[t.cut];
        if t.retry && m.reaction && m.linked.Some? {
          return Returned, 1;
        }
        return Aborted, 0;
      }
      assert page.items[..|page.items|] == page.items;
      budgetUsed := budgetUsed + |page.items|;
      if page.newest.Null? || page.newest == cs.newest {
        return Returned, 0;
      }
      cs.newest := page.newest;
      if LimitReached(limit, budgetUsed) {
        return Returned, 0;
      }
      if !page.hasMore {
        return Returned, 0;
      }
      return Going, 0;
    }

    /** incrementalChat. */
    method IncrementalChat(script: Script, ghost h: History) returns (aborted: bool, fetchErrors: nat, rounds: nat)
      requires budgetUsed == 0 && cs.newest.At? && InRange(h, cs.View())
      requires forall j: nat :: ExtendServed(h, Begin(cs.View(), store.rows), limit, script, j)
      modifies this, cs, store
      ensures var w := ExtendAfter(Begin(old(cs.View()), old(store.rows)), limit, script, rounds);
        !w.halt.Going? && (aborted <==> w.halt.Aborted?) && fetchErrors == w.fetchErrors && Recorded(w)
      ensures store.links == old(store.links)
    {
      ghost var start := Begin(cs.View(), store.rows);
      ghost var w := start;
      var halt := Going;
      fetchErrors, rounds := 0, 0;
      while halt.Going?
        invariant w == ExtendAfter(start, limit, script, rounds) && w.halt == halt && w.fetchErrors == fetchErrors
        invariant Recorded(w) && store.links == old(store.links)
        invariant halt.Going? ==> start.chat.newest.pos + rounds < |h|
        decreases halt.Going?, |h| - rounds
      {
        var t := TurnAt(script, rounds);
        ghost var next := ExtendProgress(h, start, limit, script, rounds, w, t);
        var errors;
        halt, errors := ExtendStep(t, w, next);
        fetchErrors := fetchErrors + errors;
        rounds := rounds + 1;
        w := next;
      }
      aborted := halt.Aborted?;
    }

    /** flushReplies. */
    method FlushReplies()
      modifies cs, store
      ensures store.rows == old(store.rows) && store.links == Flush(old(store.links), store.rows, old(cs.pendingReplies))
      ensures cs.View() == old(cs.View()).(pending := [])
    {
      for i := 0 to |cs.pendingReplies|
        invariant cs.View() == old(cs.View()) && store.rows == old(store.rows)
        invariant store.links == Flush(old(store.links), store.rows, cs.pendingReplies[..i])
      {
        var pr := cs.pendingReplies[i];
        assert cs.pendingReplies[..i + 1][..i] == cs.pendingReplies[..i];
        store.links := SetReplyTo(store.links, store.rows, pr);
      }
      assert cs.pendingReplies[..|cs.pendingReplies|] == cs.pendingReplies;
      cs.pendingReplies := [];
    }
  }

  function ExpandItem(m: Message, i: nat, targets: map<nat, Message>): seq<Message> {
    if !m.reaction then [m] else if m.linked.Some? && i in targets then [targets[i]] else []
  }

  lemma ExpandGrowsBy(items: seq<Message>, targets: map<nat, Message>, i: nat)
    requires i < |items|
    ensures Expand(items[..i + 1], targets) == Expand(items[..i], targets) + ExpandItem(items[i], i, targets)
  {
    assert items[..i + 1][..i] == items[..i];
  }

  lemma ExtendProgress(h: History, start: Walk, limit: nat, script: Script, k: nat, w: Walk, t: Turn) returns (next: Walk)
    requires w == ExtendAfter(start, limit, script, k) && w.halt.Going? && t == TurnAt(script, k)
    requires InRange(h, start.chat) && start.chat.newest.At?
    requires forall j: nat :: ExtendServed(h, start, limit, script, j)
    ensures next == ExtendAfter(start, limit, script, k + 1) && next == ExtendTurn(w, limit, t)
    ensures next.halt.Going? ==> start.chat.newest.pos + k + 1 < |h|
  {
    next := ExtendTurn(w, limit, t);
    ExtendTerminates(h, start, limit, script, k + 1);
  }

  /** After k rounds the walk is w and has handed on these records. */
  ghost predicate IsRound(start: Walk, limit: nat, script: Script, k: nat, w: Walk, offers: seq<Chat>) {
    w == BackfillAfter(start, limit, script, k) && offers == BackfillOffers(start, limit, script, k)
  }

  ghost predicate AlwaysRepeatsOnlyRecent(ids: set<MessageId>, start: Walk, limit: nat, script: Script) {
    forall j: nat :: TurnRepeatsOnlyRecent(ids, start, limit, script, j)
  }

  /** While it goes on, a walk goes from one entry to the next by its turn. */
  ghost predicate RoundOk(walks: seq<Walk>, handed: seq<seq<Chat>>, limit: nat, script: Script, k: nat)
    requires k < |walks| == |handed|
  {
    walks[k].halt.Going? ==>
      && k + 1 < |walks| && walks[k + 1] == BackfillTurn(walks[k], limit, TurnAt(script, k))
      && handed[k + 1] == handed[k] + OfferOf(walks[k], limit, TurnAt(script, k), k + 1)
  }

  /** A walk up to its end: its states, and the records it has handed on by then. */
  ghost predicate IsTrace(walks: seq<Walk>, handed: seq<seq<Chat>>, limit: nat, script: Script) {
    0 < |walks| == |handed| && forall k | 0 <= k < |walks| :: RoundOk(walks, handed, limit, script, k)
  }

  lemma BackfillTrace(ids: set<MessageId>, start: Walk, limit: nat, script: Script)
    returns (walks: seq<Walk>, handed: seq<seq<Chat>>)
    requires start.served <= ids && AlwaysRepeatsOnlyRecent(ids, start, limit, script)
    ensures IsTrace(walks, handed, limit, script) && |walks| == |ids| + 2
    ensures forall k | 0 <= k < |walks| :: IsRound(start, limit, script, k, walks[k], handed[k])
  {
    BackfillTerminates(ids, start, limit, script);
    walks := seq(|ids| + 2, k requires 0 <= k => BackfillAfter(start, limit, script, k));
    handed := seq(|ids| + 2, k requires 0 <= k => BackfillOffers(start, limit, script, k));
  }

  function UpTo(items: seq<Message>, cut: nat): seq<Message> {
    items[..Min(cut, |items|)]
  }

  lemma UnseenCut(recent: seq<set<MessageId>>, items: seq<Message>, i: nat, cut: nat)
    requires i < |items| && !InWindow(recent, items[i].id) && |Unseen(recent, items[..i])| == cut
    ensures cut < |Unseen(recent, items)| && UpTo(Unseen(recent, items), cut) == Unseen(recent, items[..i])
  {
    UnseenGrowsBy(recent, items, i);
    UnseenGrows(recent, items, i + 1);
    UnseenGrows(recent, items, i);
  }

  lemma UnseenUncut(recent: seq<set<MessageId>>, items: seq<Message>, cut: nat)
    requires |Unseen(recent, items[..|items|])| <= cut
    ensures |Unseen(recent, items)| <= cut && UpTo(Unseen(recent, items), cut) == Unseen(recent, items[..|items|])
    ensures IdSeq(items[..|items|]) == IdSeq(items)
  {
    assert items[..|items|] == items;
  }

  /** `items` took the record and the archive from (chat, rows) to (chat', rows'). */
  ghost predicate Handed(chat: Chat, rows: set<MessageId>, items: seq<Message>, chat': Chat, rows': set<MessageId>) {
    chat' == chat.(pending := chat.pending + RepliesOf(items)) && rows' == rows + RowsOf(items)
  }

  lemma HandedOneMore(chat: Chat, rows: set<MessageId>, items: seq<Message>, m: Message, chat': Chat, rows': set<MessageId>,
                      chat'': Chat, rows'': set<MessageId>)
    requires Handed(chat, rows, items, chat', rows') && Handed(chat', rows', [m], chat'', rows'')
    ensures Handed(chat, rows, items + [m], chat'', rows'')
  {
    RepliesSnoc(items, m);
    RowsSnoc(items, m);
    AppendTwice(chat.pending, RepliesOf(items), RepliesOf([m]));
    AddTwice(rows, RowsOf(items), RowsOf([m]));
  }

  lemma AppendTwice(a: seq<Reply>, b: seq<Reply>, c: seq<Reply>)
    ensures (a + b) + c == a + (b + c)
  {
  }

  lemma AddTwice(a: set<MessageId>, b: set<MessageId>, c: set<MessageId>)
    ensures (a + b) + c == a + (b + c)
  {
  }

  lemma RowsSnoc(items: seq<Message>, m: Message)
    ensures RowsOf(items + [m]) == RowsOf(items) + RowsOf([m])
  {
  }

  lemma HandedMore(chat: Chat, rows: set<MessageId>, items: seq<Message>, more: seq<Message>, chat': Chat, rows': set<MessageId>,
                   chat'': Chat, rows'': set<MessageId>)
    requires Handed(chat, rows, items, chat', rows') && Handed(chat', rows', more, chat'', rows'') && |more| <= 1
    ensures Handed(chat, rows, items + more, chat'', rows'')
  {
    if more == [] {
      assert items + more == items && RepliesOf(more) == [] && RowsOf(more) == {};
    } else {
      assert more == [more[0]];
      HandedOneMore(chat, rows, items, more[0], chat', rows', chat'', rows'');
    }
  }

  function IdSeq(items: seq<Message>): seq<MessageId> {
    seq(|items|, i requires 0 <= i < |items| => items[i].id)
  }

  lemma IdSeqGrowsBy(items: seq<Message>, i: nat)
    requires i < |items|
    ensures IdSeq(items[..i + 1]) == IdSeq(items[..i]) + [items[i].id]
  {
  }

  lemma IdSeqIds(items: seq<Message>)
    ensures (set id | id in IdSeq(items)) == IdsOf(items)
  {
    forall m | m in items
      ensures m.id in IdSeq(items)
    {
      var i :| 0 <= i < |items| && items[i] == m;
      assert IdSeq(items)[i] == m.id;
    }
  }

  lemma UnseenGrowsBy(recent: seq<set<MessageId>>, items: seq<Message>, i: nat)
    requires i < |items|
    ensures Unseen(recent, items[..i + 1]) ==
      if InWindow(recent, items[i].id) then Unseen(recent, items[..i]) else Unseen(recent, items[..i]) + [items[i]]
  {
    assert items[..i + 1] == items[..i] + [items[i]];
    UnseenSnoc(recent, items[..i], items[i]);
  }

  lemma UnseenSnoc(recent: seq<set<MessageId>>, items: seq<Message>, m: Message)
    ensures Unseen(recent, items + [m]) == if InWindow(recent, m.id) then Unseen(recent, items) else Unseen(recent, items) + [m]
  {
    assert (items + [m])[..|items|] == items;
  }

  lemma RepliesSnoc(items: seq<Message>, m: Message)
    ensures RepliesOf(items + [m]) == RepliesOf(items) + RepliesOf([m])
  {
    assert (items + [m])[..|items|] == items;
    assert [m][..0] == [];
  }

  lemma {:induction false} UnseenGrows(recent: seq<set<MessageId>>, items: seq<Message>, k: nat)
    requires k <= |items|
    ensures Unseen(recent, items[..k]) <= Unseen(recent, items)
    decreases |items| - k
  {
    if k < |items| {
      UnseenGrows(recent, items, k + 1);
      UnseenSnoc(recent, items[..k], items[k]);
      assert items[..k + 1] == items[..k] + [items[k]];
    } else {
      assert items[..k] == items;
    }
  }
}
