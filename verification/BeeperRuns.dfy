/** Whole lineages of import runs: crashes, cancellations, failed and completed runs, --full runs,
    resumed checkpoints, messages that keep arriving. What a saved state claims is archived, is. */
module BeeperRuns {
  import opened Options
  import opened BeeperState
  import opened BeeperWalk
  import opened BeeperImporter

  // ---- Merging a baseline with a checkpoint that does not descend from it ----

  /** The interval of positions the record claims; empty when its upper end is the lower. */
  function Claim(chat: Chat): (int, int) {
    if chat.newest.Null? || (!chat.done && chat.oldest.Null?) then (0, -1)
    else (if chat.done || chat.oldest.pos < 0 then 0 else chat.oldest.pos, chat.newest.pos)
  }

  function Past(i: int, claim: (int, int)): int {
    if claim.0 <= i <= claim.1 then claim.1 + 1 else i
  }

  /** The merged record's claim is bridged by the claims of the two records it was made from. */
  predicate Joined(base: Chat, other: Chat) {
    var merged, b, o := Claim(MergeChat(base, other)), Claim(base), Claim(other);
    merged.0 > merged.1 || Past(Past(merged.0, b), o) > merged.1 || Past(Past(merged.0, o), b) > merged.1
  }

  ghost predicate RowsCover(h: History, chat: Chat, rows: set<MessageId>) {
    forall i | 0 <= i < |h| && Covers(chat, i) && Stored(h[i]) :: h[i].id in rows
  }

  /** Whatever is archived, a merge of two honest records is honest. */
  ghost predicate MergeIsHonest(h: History, base: Chat, other: Chat) {
    forall rows | RowsCover(h, base, rows) && RowsCover(h, other, rows) :: RowsCover(h, MergeChat(base, other), rows)
  }

  lemma ClaimIsCovers(chat: Chat, i: int)
    ensures Covers(chat, i) <==> Claim(chat).0 <= i <= Claim(chat).1
  {
  }

  lemma JoinedCovers(base: Chat, other: Chat, i: int)
    requires Joined(base, other) && Covers(MergeChat(base, other), i)
    ensures Covers(base, i) || Covers(other, i)
  {
  }

  /** SyncState.Merge is right exactly when no gap opens between what the two records claim. */
  lemma MergeIsHonestExactly(h: History, base: Chat, other: Chat)
    requires UniqueIds(h) && AllStored(h) && InRange(h, base) && InRange(h, other)
    ensures MergeIsHonest(h, base, other) <==> Joined(base, other)
  {
    if Joined(base, other) {
      forall i | Covers(MergeChat(base, other), i)
        ensures Covers(base, i) || Covers(other, i)
      {
        JoinedCovers(base, other, i);
      }
    } else {
      var merged, b, o := MergeChat(base, other), Claim(base), Claim(other);
      var x, y := Past(Past(Claim(merged).0, b), o), Past(Past(Claim(merged).0, o), b);
      var gap := if Covers(base, x) || Covers(other, x) then y else x;
      assert Covers(merged, gap) && !Covers(base, gap) && !Covers(other, gap);
      var rows := set i | 0 <= i < |h| && (Covers(base, i) || Covers(other, i)) :: h[i].id;
      assert h[gap].id !in rows;
      assert RowsCover(h, base, rows) && RowsCover(h, other, rows) && !RowsCover(h, merged, rows);
    }
  }

  /** An interrupted --full checkpoint over a completed baseline: Done is OR'd, so the messages
      between the baseline's head and the checkpoint's tail count as archived. */
  lemma InterruptedFullMergeLeavesGap()
    ensures !Joined(Chat(At(9), At(0), true, []), Chat(At(99), At(80), false, []))
    ensures Covers(MergeChat(Chat(At(9), At(0), true, []), Chat(At(99), At(80), false, [])), 50)
  {
  }

  /** Merging is harmless for this chat: the checkpoint descends from the baseline, or no gap opens
      and no reply buffer displaces another. */
  predicate MergeKeeps(base: Chat, other: Chat) {
    ChatDefines(base, other) || (Joined(base, other) && (base.pending == [] || other.pending == []))
  }

  lemma MergeKeepsJustified(h: History, base: Chat, other: Chat, rows: set<MessageId>, links: Links)
    requires MergeKeeps(base, other) && Justified(h, base, rows, links) && Justified(h, other, rows, links)
    ensures Justified(h, MergeChat(base, other), rows, links)
  {
    var merged := MergeChat(base, other);
    forall i | 0 <= i < |h| && Covers(merged, i)
      ensures Settled(h, i, rows, merged.pending, links)
    {
      if ChatDefines(base, other) {
        assert Covers(other, i);
      } else {
        JoinedCovers(base, other, i);
      }
    }
  }

  // ---- The system of runs ----

  /** A copy of the sync state, with the chats for which nothing is promised. */
  datatype Snap = Snap(chats: Chats, exempt: set<ChatId>)

  const EMPTY := Snap(map[], {})

  /** The chat being synced: in the backfill or in the incremental branch of syncChat. A re-walk is a
      backfill of a chat that is marked done already. */
  datatype Current = Current(id: ChatId, backfill: bool, rewalk: bool, walk: Walk)

  datatype Run = NoRun | Run(snap: Snap, limit: nat, cur: Option<Current>)

  /** `baseline` is the state the last completed run saved; `ckpt` the checkpoint of the latest run,
      if that run has not completed. */
  datatype Sys = Sys(hist: map<ChatId, History>, rows: set<MessageId>, links: Links,
                     baseline: Snap, ckpt: Option<Snap>, run: Run)

  /** A run starts with `base` and `ckpt` saying which of the two saved states could be read: a read
      that fails is passed over. */
  datatype Action =
    | Arrive(id: ChatId, m: Message)
    | Start(full: bool, limit: nat, saved: bool, base: bool, ckpt: bool)
    | Visit(id: ChatId)
    | Vanish(id: ChatId)
    | BeginChat(id: ChatId)
    | Round(t: Turn, saved: bool)
    | Reconcile(items: seq<Message>)
    | EndChat
    | Checkpoint
    | Complete
    | Stop

  const INIT := Sys(map[], {}, map[], EMPTY, None, NoRun)

  function Hist(s: Sys, id: ChatId): History {
    if id in s.hist then s.hist[id] else []
  }

  ghost predicate Known(s: Sys, m: Message) {
    exists id :: m in Hist(s, id)
  }

  /** SyncState.Merge of two copies. The promise ends for a chat one copy promised nothing about, or
      whose two records do not merge. */
  function Merged(base: Snap, other: Snap): Snap {
    Snap(MergeChats(base.chats, other.chats),
         base.exempt + other.exempt + set id | id in other.chats && !MergeKeeps(Lookup(base.chats, id), other.chats[id]))
  }

  /** loadResumeState, given what could be read. */
  function Loaded(s: Sys, base: bool, ckpt: bool): Snap {
    var start := if base then s.baseline else EMPTY;
    if ckpt && s.ckpt.Some? then Merged(start, s.ckpt.value) else start
  }

  function Resumed(s: Sys, full: bool, base: bool, ckpt: bool): Snap {
    if full then EMPTY else Loaded(s, base, ckpt)
  }

  predicate NewId(s: Sys, id: MessageId) {
    forall c | c in s.hist :: forall m | m in s.hist[c] :: m.id != id
  }

  ghost predicate Enabled(s: Sys, a: Action) {
    match a
    case Arrive(id, m) => NewId(s, m.id)
    case Start(_, _, _, _, _) => s.run.NoRun?
    case Visit(_) => s.run.Run? && s.run.cur.None?
    case Vanish(id) => s.run.Run? && s.run.cur.None? && id in s.run.snap.chats && !s.run.snap.chats[id].done
    case BeginChat(id) => s.run.Run? && s.run.cur.None? && id in s.run.snap.chats
    case Round(t, saved) =>
      && s.run.Run? && s.run.cur.Some? && s.run.cur.value.walk.halt.Going?
      && (var c := s.run.cur.value;
          && (if c.backfill then ServesBefore(Hist(s, c.id), |Hist(s, c.id)|, c.walk.chat.oldest, t)
              else ServesAfter(Hist(s, c.id), c.walk.chat.newest, t))
          && (saved ==> c.backfill && CompletesPage(c.walk, s.run.limit, t)))
    case Reconcile(items) =>
      && s.run.Run? && s.run.cur.Some? && !s.run.cur.value.backfill && s.run.cur.value.walk.halt.Returned?
      && forall m | m in items :: m in Hist(s, s.run.cur.value.id)
    case EndChat => s.run.Run? && s.run.cur.Some? && s.run.cur.value.walk.halt.Returned?
    case Checkpoint => s.run.Run? && s.run.cur.None?
    case Complete => s.run.Run? && s.run.cur.None?
    case Stop => s.run.Run?
  }

  function Step(s: Sys, a: Action): Sys
    requires Enabled(s, a)
  {
    match a
    case Arrive(id, m) => s.(hist := s.hist[id := Hist(s, id) + [m]])
    case Start(full, limit, saved, base, ckpt) =>
      var snap := Resumed(s, full, base, ckpt);
      s.(run := Run(snap, limit, None), ckpt := if saved then Some(snap) else None)
    case Visit(id) => s.(run := s.run.(snap := Put(s.run.snap, id, Lookup(s.run.snap.chats, id))))
    case Vanish(id) =>
      var chat, exempt := s.run.snap.chats[id], s.run.snap.exempt;
      s.(run := s.run.(snap := Snap(s.run.snap.chats[id := chat.(done := true)], if Whole(chat) then exempt else exempt + {id})))
    case BeginChat(id) =>
      var chat := s.run.snap.chats[id];
      var backfill := !chat.done || chat.newest.Null?;
      s.(run := s.run.(cur := Some(Current(id, backfill, chat.done && backfill, Begin(chat, s.rows)))))
    case Round(t, saved) => RoundStep(s, t, saved)
    case Reconcile(items) => WithWalk(s, Process(s.run.cur.value.walk, items), s.run.snap.exempt)
    case EndChat =>
      var c := s.run.cur.value;
      if c.walk.chat.done then
        s.(links := Flush(s.links, s.rows, c.walk.chat.pending),
           run := s.run.(snap := Put(s.run.snap, c.id, c.walk.chat.(pending := [])), cur := None))
      else s.(run := s.run.(cur := None))
    case Checkpoint => s.(ckpt := Some(s.run.snap))
    case Complete => s.(baseline := s.run.snap, ckpt := None, run := NoRun)
    case Stop => s.(run := NoRun)
  }

  function Put(snap: Snap, id: ChatId, chat: Chat): Snap {
    snap.(chats := snap.chats[id := chat])
  }

  /** Advancing the current chat's walk, with the chats nothing is promised for from then on. */
  function WithWalk(s: Sys, walk: Walk, exempt: set<ChatId>): Sys
    requires s.run.Run? && s.run.cur.Some?
  {
    var c := s.run.cur.value;
    s.(rows := walk.rows,
       run := s.run.(snap := Snap(s.run.snap.chats[c.id := walk.chat], exempt), cur := Some(c.(walk := walk))))
  }

  function RoundWalk(s: Sys, t: Turn): Walk
    requires s.run.Run? && s.run.cur.Some?
  {
    var c := s.run.cur.value;
    if c.backfill then BackfillTurn(c.walk, s.run.limit, t) else ExtendTurn(c.walk, s.run.limit, t)
  }

  /** A round leaves a re-walked chat with a record that is right as marked: the round ended by
      exhaustion, or the record claims no more than its cursors do. */
  predicate RightAsMarked(w: Walk, limit: nat, t: Turn, record: Chat) {
    ReachesEnd(w, limit, t) || Whole(record)
  }

  /** The promise for a re-walked chat is withdrawn while its record is ahead of the walk, and given
      back when it is not. */
  function Judged(exempt: set<ChatId>, c: Current, right: bool): set<ChatId> {
    if !c.rewalk then exempt else if right then exempt - {c.id} else exempt + {c.id}
  }

  /** The record a completed backfill page hands to the checkpoint. */
  function PageRecord(s: Sys, t: Turn): Chat
    requires s.run.Run? && s.run.cur.Some? && t.Served?
  {
    BackfillPage(s.run.cur.value.walk, t.page).chat
  }

  function RoundStep(s: Sys, t: Turn, saved: bool): Sys
    requires s.run.Run? && s.run.cur.Some? && (saved ==> t.Served?)
  {
    var c, w, limit := s.run.cur.value, RoundWalk(s, t), s.run.limit;
    var next := WithWalk(s, w, Judged(s.run.snap.exempt, c, RightAsMarked(c.walk, limit, t, w.chat)));
    if saved then next.(ckpt := Some(RoundCheckpoint(s, t))) else next
  }

  function RoundCheckpoint(s: Sys, t: Turn): Snap
    requires s.run.Run? && s.run.cur.Some? && t.Served?
  {
    var c, record := s.run.cur.value, PageRecord(s, t);
    Snap(s.run.snap.chats[c.id := record],
         Judged(s.run.snap.exempt, c, RightAsMarked(c.walk, s.run.limit, t, record)))
  }

  // ---- The invariant ----

  ghost predicate HistOk(hist: map<ChatId, History>) {
    forall a, b, i, j | a in hist && b in hist && 0 <= i < |hist[a]| && 0 <= j < |hist[b]| && hist[a][i].id == hist[b][j].id ::
      a == b && i == j
  }

  /** Links only ever point at archived parents. */
  ghost predicate LinksOk(links: Links, rows: set<MessageId>) {
    forall x | x in links && links[x].Some? :: links[x].value in rows
  }

  /** A buffered pair is a reply some chat really has. */
  ghost predicate Genuine(s: Sys, r: Reply) {
    exists m :: Known(s, m) && m.id == r.child && m.linked == Some(r.parent)
  }

  ghost predicate ChatOk(s: Sys, id: ChatId, chat: Chat) {
    Justified(Hist(s, id), chat, s.rows, s.links)
  }

  ghost predicate SnapOk(s: Sys, snap: Snap) {
    && (forall id | id in snap.chats && id !in snap.exempt :: ChatOk(s, id, snap.chats[id]))
    && (forall id | id in snap.chats :: InRange(Hist(s, id), snap.chats[id]))
    && (forall id | id in snap.chats :: forall r | r in snap.chats[id].pending :: Genuine(s, r))
  }

  ghost predicate RunOk(s: Sys) {
    s.run.Run? ==>
      && (s.run.cur.Some? ==> CurrentOk(s, s.run.cur.value))
      && ((s.run.cur.Some? && s.run.cur.value.walk.halt.Aborted?) || SnapOk(s, s.run.snap))
  }

  /** What a walk in progress owes: an ordinary backfill its own claim, a re-walk what it would claim
      without the mark. */
  ghost predicate WalkOwes(h: History, c: Current, exempt: set<ChatId>, links: Links) {
    && (c.rewalk ==> c.backfill && (c.walk.halt.Going? ==> c.walk.chat.done && WalkOk(h, Undone(c.walk), links)))
    && (!c.rewalk && c.backfill && c.id !in exempt ==> WalkOk(h, c.walk, links))
    && (!c.backfill ==> c.walk.chat.done && c.walk.chat.newest.At?)
  }

  ghost predicate CurrentOk(s: Sys, c: Current)
    requires s.run.Run?
  {
    && c.id in s.run.snap.chats && s.run.snap.chats[c.id] == c.walk.chat && c.walk.rows == s.rows
    && WalkOwes(Hist(s, c.id), c, s.run.snap.exempt, s.links)
  }

  ghost predicate Inv(s: Sys) {
    && HistOk(s.hist)
    && LinksOk(s.links, s.rows)
    && SnapOk(s, s.baseline)
    && (s.ckpt.Some? ==> SnapOk(s, s.ckpt.value))
    && RunOk(s)
  }

  /** Nothing a record relies on is ever taken back. */
  ghost predicate Later(s: Sys, s': Sys) {
    && s.rows <= s'.rows
    && (forall id :: Hist(s, id) <= Hist(s', id))
    && (forall id, i | 0 <= i < |Hist(s, id)| && Linked(Hist(s, id), i, s.links) :: Linked(Hist(s', id), i, s'.links))
  }

  lemma LaterKeepsGenuine(s: Sys, s': Sys, r: Reply)
    requires Later(s, s') && Genuine(s, r)
    ensures Genuine(s', r)
  {
    var m :| Known(s, m) && m.id == r.child && m.linked == Some(r.parent);
    var id :| m in Hist(s, id);
    assert m in Hist(s', id);
  }

  lemma LaterKeepsChat(s: Sys, s': Sys, id: ChatId, chat: Chat)
    requires Later(s, s') && ChatOk(s, id, chat)
    ensures ChatOk(s', id, chat)
  {
    var h, h' := Hist(s, id), Hist(s', id);
    forall i | 0 <= i < |h'| && Covers(chat, i)
      ensures Settled(h', i, s'.rows, chat.pending, s'.links)
    {
      assert h[i] == h'[i];
      assert Settled(h, i, s.rows, chat.pending, s.links);
    }
  }

  lemma LaterKeepsSnap(s: Sys, s': Sys, snap: Snap)
    requires Later(s, s') && SnapOk(s, snap)
    ensures SnapOk(s', snap)
  {
    forall id | id in snap.chats && id !in snap.exempt
      ensures ChatOk(s', id, snap.chats[id])
    {
      LaterKeepsChat(s, s', id, snap.chats[id]);
    }
    forall id | id in snap.chats ensures InRange(Hist(s', id), snap.chats[id]) {
      assert Hist(s, id) <= Hist(s', id);
    }
    forall id, r | id in snap.chats && r in snap.chats[id].pending
      ensures Genuine(s', r)
    {
      LaterKeepsGenuine(s, s', r);
    }
  }

  lemma MergedOk(s: Sys, base: Snap, other: Snap)
    requires SnapOk(s, base) && SnapOk(s, other)
    ensures SnapOk(s, Merged(base, other))
  {
    var merged := Merged(base, other);
    forall id | id in merged.chats && id !in merged.exempt
      ensures ChatOk(s, id, merged.chats[id])
    {
      if id in other.chats {
        assert ChatOk(s, id, Lookup(base.chats, id));
        MergeKeepsJustified(Hist(s, id), Lookup(base.chats, id), other.chats[id], s.rows, s.links);
      }
    }
  }

  /** What a next run loads is honest too, whichever of the two saved states it could read. */
  lemma ResumeOk(s: Sys, base: bool, ckpt: bool)
    requires Inv(s)
    ensures SnapOk(s, Loaded(s, base, ckpt))
  {
    var start := if base then s.baseline else EMPTY;
    assert SnapOk(s, EMPTY);
    if ckpt && s.ckpt.Some? {
      MergedOk(s, start, s.ckpt.value);
    }
  }

  // ---- Every action keeps the invariant ----

  lemma ArriveIsLater(s: Sys, id: ChatId, m: Message, s': Sys)
    requires HistOk(s.hist) && NewId(s, m.id) && s' == s.(hist := s.hist[id := Hist(s, id) + [m]])
    ensures HistOk(s'.hist) && Later(s, s')
  {
    assert Hist(s', id) == Hist(s, id) + [m];
    assert forall c | c != id :: Hist(s', c) == Hist(s, c);
  }

  lemma ArriveKeepsRun(s: Sys, id: ChatId, m: Message, s': Sys)
    requires Inv(s) && s' == s.(hist := s.hist[id := Hist(s, id) + [m]]) && Later(s, s') && HistOk(s'.hist)
    requires s.run.Run? && SnapOk(s, s.run.snap) ==> SnapOk(s', s.run.snap)
    ensures RunOk(s')
  {
    if s.run.Run? && s.run.cur.Some? {
      var c := s.run.cur.value;
      assert UniqueIds(Hist(s', c.id));
      if c.rewalk && c.walk.halt.Going? {
        WalkStays(s, s', c.(walk := Undone(c.walk)));
      } else if !c.rewalk && c.backfill && c.id !in s.run.snap.exempt {
        WalkStays(s, s', c);
      }
    }
  }

  lemma ArriveKeeps(s: Sys, id: ChatId, m: Message)
    requires Inv(s) && Enabled(s, Arrive(id, m))
    ensures Inv(Step(s, Arrive(id, m))) && Later(s, Step(s, Arrive(id, m)))
  {
    var s' := Step(s, Arrive(id, m));
    ArriveIsLater(s, id, m, s');
    SnapsStay(s, s');
    ArriveKeepsRun(s, id, m, s');
  }

  /** Saved and running copies stay honest while the archive and the chats grow. */
  lemma SnapsStay(s: Sys, s': Sys)
    requires Inv(s) && Later(s, s')
    ensures SnapOk(s', s.baseline)
    ensures s.ckpt.Some? ==> SnapOk(s', s.ckpt.value)
    ensures s.run.Run? && SnapOk(s, s.run.snap) ==> SnapOk(s', s.run.snap)
  {
    LaterKeepsSnap(s, s', s.baseline);
    if s.ckpt.Some? {
      LaterKeepsSnap(s, s', s.ckpt.value);
    }
    if s.run.Run? && SnapOk(s, s.run.snap) {
      LaterKeepsSnap(s, s', s.run.snap);
    }
  }

  lemma WalkStays(s: Sys, s': Sys, c: Current)
    requires Later(s, s') && s.rows == s'.rows == c.walk.rows && s.links == s'.links
    requires WalkOk(Hist(s, c.id), c.walk, s.links) && UniqueIds(Hist(s', c.id))
    ensures WalkOk(Hist(s', c.id), c.walk, s'.links)
  {
    var h, h' := Hist(s, c.id), Hist(s', c.id);
    if !c.walk.halt.Aborted? {
      LaterKeepsChat(s, s', c.id, c.walk.chat);
    }
    if c.walk.halt.Going? {
      forall i | 0 <= i < |h'| && InWindow(c.walk.recent, h'[i].id)
        ensures i < |h| && h'[i] == h[i]
      {
        var m :| m in h && m.id == h'[i].id;
        var j :| 0 <= j < |h| && h[j] == m;
        assert h'[j].id == h'[i].id;
      }
      assert IdsOf(h) <= IdsOf(h');
    }
  }

  lemma SameFactsSameChats(s: Sys, s': Sys)
    requires s.hist == s'.hist && s.rows == s'.rows && s.links == s'.links
    ensures Later(s, s') && Later(s', s)
  {
    assert forall id :: Hist(s, id) == Hist(s', id);
  }

  lemma StartKeeps(s: Sys, a: Action)
    requires Inv(s) && a.Start? && Enabled(s, a)
    ensures Inv(Step(s, a))
  {
    var s' := Step(s, a);
    SameFactsSameChats(s, s');
    SnapsStay(s, s');
    ResumeOk(s, a.base, a.ckpt);
    LaterKeepsSnap(s, s', Loaded(s, a.base, a.ckpt));
    assert SnapOk(s', EMPTY);
  }

  /** Replacing one chat's record by one that is honest if it is to be relied on. */
  lemma PutKeeps(s: Sys, snap: Snap, id: ChatId, chat: Chat, exempt: set<ChatId>)
    requires SnapOk(s, snap) && exempt + {id} == snap.exempt + {id}
    requires InRange(Hist(s, id), chat) && (id !in exempt ==> ChatOk(s, id, chat))
    requires forall r | r in chat.pending :: Genuine(s, r)
    ensures SnapOk(s, Snap(snap.chats[id := chat], exempt))
  {
    forall x | x in snap.chats[id := chat] && x !in exempt ensures ChatOk(s, x, snap.chats[id := chat][x]) {
      if x != id {
        assert x !in snap.exempt + {id};
      }
    }
  }

  lemma VisitKeeps(s: Sys, id: ChatId)
    requires Inv(s) && Enabled(s, Visit(id))
    ensures Inv(Step(s, Visit(id)))
  {
    var s' := Step(s, Visit(id));
    SameFactsSameChats(s, s');
    SnapsStay(s, s');
    PutKeeps(s', s.run.snap, id, Lookup(s.run.snap.chats, id), s.run.snap.exempt);
  }

  lemma VanishKeeps(s: Sys, id: ChatId)
    requires Inv(s) && Enabled(s, Vanish(id))
    ensures Inv(Step(s, Vanish(id)))
  {
    var s', chat := Step(s, Vanish(id)), s.run.snap.chats[id];
    SameFactsSameChats(s, s');
    SnapsStay(s, s');
    if id !in s'.run.snap.exempt {
      assert ChatOk(s', id, chat);
      WholeIsHonest(Hist(s', id), chat, s'.rows, s'.links);
    }
    PutKeeps(s', s.run.snap, id, chat.(done := true), s'.run.snap.exempt);
  }

  lemma BeginChatKeeps(s: Sys, id: ChatId)
    requires Inv(s) && Enabled(s, BeginChat(id))
    ensures Inv(Step(s, BeginChat(id)))
  {
    var s' := Step(s, BeginChat(id));
    SameFactsSameChats(s, s');
    SnapsStay(s, s');
    var c := s'.run.cur.value;
    assert c.walk.recent == [] && (forall x :: !InWindow(c.walk.recent, x));
    assert UniqueIds(Hist(s', id));
    if id !in s'.run.snap.exempt {
      assert ChatOk(s', id, s.run.snap.chats[id]);
    }
  }

  lemma CheckpointKeeps(s: Sys)
    requires Inv(s) && Enabled(s, Checkpoint)
    ensures Inv(Step(s, Checkpoint))
  {
    var s' := Step(s, Checkpoint);
    SameFactsSameChats(s, s');
    SnapsStay(s, s');
  }

  lemma CompleteKeeps(s: Sys)
    requires Inv(s) && Enabled(s, Complete)
    ensures Inv(Step(s, Complete))
  {
    var s' := Step(s, Complete);
    SameFactsSameChats(s, s');
    SnapsStay(s, s');
  }

  lemma StopKeeps(s: Sys)
    requires Inv(s) && Enabled(s, Stop)
    ensures Inv(Step(s, Stop))
  {
    var s' := Step(s, Stop);
    SameFactsSameChats(s, s');
    SnapsStay(s, s');
  }

  // ---- A round of the current chat ----

  lemma MoreRowsIsLater(s: Sys, s': Sys)
    requires s.hist == s'.hist && s.rows <= s'.rows && s.links == s'.links
    ensures Later(s, s')
  {
    assert forall id :: Hist(s, id) == Hist(s', id);
  }

  lemma ProcessedRepliesAreGenuine(s: Sys, items: seq<Message>, r: Reply)
    requires forall m | m in items :: Known(s, m)
    requires r in RepliesOf(items)
    ensures Genuine(s, r)
  {
    RepliesMembers(items);
  }

  /** Whatever the round persisted comes from the chats, and rows are only ever added. */
  lemma RoundOnlyAdds(s: Sys, t: Turn)
    requires Inv(s) && Enabled(s, Round(t, false))
    ensures var c, w := s.run.cur.value, RoundWalk(s, t);
      && c.walk.rows <= w.rows && ChatDefines(c.walk.chat, w.chat)
      && forall r | r in w.chat.pending :: r in c.walk.chat.pending || Genuine(s, r)
  {
    var c, w := s.run.cur.value, RoundWalk(s, t);
    var h, handed := Hist(s, c.id), [];
    if c.backfill {
      handed := BackfillPersists(h, |h|, c.walk, s.run.limit, t);
    } else {
      handed := ExtendPersists(h, c.walk, s.run.limit, t);
    }
    assert forall m | m in handed :: Known(s, m);
    forall r | r in RepliesOf(handed) ensures Genuine(s, r) {
      ProcessedRepliesAreGenuine(s, handed, r);
    }
  }

  lemma RoundStaysInRange(s: Sys, t: Turn)
    requires Inv(s) && Enabled(s, Round(t, false))
    ensures InRange(Hist(s, s.run.cur.value.id), RoundWalk(s, t).chat)
  {
    var c := s.run.cur.value;
    assert InRange(Hist(s, c.id), s.run.snap.chats[c.id]);
    if c.backfill {
      BackfillStaysInRange(Hist(s, c.id), c.walk, s.run.limit, t, |Hist(s, c.id)|);
    } else {
      ExtendStaysInRange(Hist(s, c.id), c.walk, s.run.limit, t);
    }
  }

  /** Advancing the current chat's walk, for whatever reason. */
  lemma WithWalkKeeps(s: Sys, walk: Walk, exempt: set<ChatId>, s': Sys)
    requires Inv(s) && s.run.Run? && s.run.cur.Some? && s' == WithWalk(s, walk, exempt)
    requires s.rows <= walk.rows && exempt + {s.run.cur.value.id} == s.run.snap.exempt + {s.run.cur.value.id}
    requires !s.run.cur.value.walk.halt.Aborted? && InRange(Hist(s, s.run.cur.value.id), walk.chat)
    requires forall r | r in walk.chat.pending :: r in s.run.cur.value.walk.chat.pending || Genuine(s, r)
    requires WalkOwes(Hist(s, s.run.cur.value.id), s.run.cur.value.(walk := walk), exempt, s.links)
    requires !walk.halt.Aborted? && s.run.cur.value.id !in exempt ==>
      Justified(Hist(s, s.run.cur.value.id), walk.chat, walk.rows, s.links)
    ensures Inv(s') && Later(s, s')
  {
    var c := s.run.cur.value;
    MoreRowsIsLater(s, s');
    SnapsStay(s, s');
    assert Hist(s, c.id) == Hist(s', c.id);
    if !walk.halt.Aborted? {
      forall r | r in walk.chat.pending ensures Genuine(s', r) {
        if r in c.walk.chat.pending {
          assert Genuine(s, r);
        }
        LaterKeepsGenuine(s, s', r);
      }
      PutKeeps(s', s.run.snap, c.id, walk.chat, exempt);
    }
  }

  /** Saving an honest copy as the run's checkpoint. */
  lemma SavingKeeps(s: Sys, snap: Snap)
    requires Inv(s) && s.run.Run? && SnapOk(s, snap)
    ensures Inv(s.(ckpt := Some(snap)))
  {
    var s' := s.(ckpt := Some(snap));
    SameFactsSameChats(s, s');
    SnapsStay(s, s');
    LaterKeepsSnap(s, s', snap);
  }

  lemma BackfillRoundOwes(s: Sys, t: Turn, w: Walk)
    requires Inv(s) && Enabled(s, Round(t, false)) && s.run.cur.value.backfill && !s.run.cur.value.rewalk
    requires w == RoundWalk(s, t) && s.run.cur.value.id !in s.run.snap.exempt
    ensures WalkOk(Hist(s, s.run.cur.value.id), w, s.links)
  {
    var c := s.run.cur.value;
    BackfillTurnKeepsWalk(Hist(s, c.id), c.walk, s.run.limit, t, |Hist(s, c.id)|, s.links);
  }

  lemma ExtendRoundOwes(s: Sys, t: Turn, w: Walk)
    requires Inv(s) && Enabled(s, Round(t, false)) && !s.run.cur.value.backfill && w == RoundWalk(s, t)
    ensures w.chat.done && w.chat.newest.At?
    ensures s.run.cur.value.id !in s.run.snap.exempt ==> Justified(Hist(s, s.run.cur.value.id), w.chat, w.rows, s.links)
  {
    var c := s.run.cur.value;
    if c.id !in s.run.snap.exempt {
      assert ChatOk(s, c.id, c.walk.chat);
      ExtendTurnKeepsWalk(Hist(s, c.id), c.walk, s.run.limit, t, s.links);
    }
  }

  lemma RewalkRoundOwes(s: Sys, t: Turn, w: Walk)
    requires Inv(s) && Enabled(s, Round(t, false)) && s.run.cur.value.rewalk && w == RoundWalk(s, t)
    ensures var c, h := s.run.cur.value, Hist(s, s.run.cur.value.id);
      && (w.halt.Going? ==> w.chat.done && WalkOk(h, Undone(w), s.links))
      && (!w.halt.Aborted? && RightAsMarked(c.walk, s.run.limit, t, w.chat) ==> Justified(h, w.chat, w.rows, s.links))
  {
    var c := s.run.cur.value;
    assert InRange(Hist(s, c.id), s.run.snap.chats[c.id]);
    MarkedTurnKeepsWalk(Hist(s, c.id), c.walk, s.run.limit, t, |Hist(s, c.id)|, s.links);
  }

  lemma RoundKeeps(s: Sys, t: Turn, s': Sys)
    requires Inv(s) && Enabled(s, Round(t, false)) && s' == RoundStep(s, t, false)
    ensures Inv(s') && Later(s, s')
  {
    var c, w := s.run.cur.value, RoundWalk(s, t);
    var exempt := Judged(s.run.snap.exempt, c, RightAsMarked(c.walk, s.run.limit, t, w.chat));
    RoundOnlyAdds(s, t);
    RoundStaysInRange(s, t);
    if c.rewalk {
      RewalkRoundOwes(s, t, w);
    } else if c.backfill {
      if c.id !in exempt {
        BackfillRoundOwes(s, t, w);
      }
    } else {
      ExtendRoundOwes(s, t, w);
    }
    WithWalkKeeps(s, w, exempt, s');
  }

  lemma RecordAdds(s: Sys, t: Turn)
    requires Inv(s) && Enabled(s, Round(t, true))
    ensures var c, record := s.run.cur.value, BackfillPage(s.run.cur.value.walk, t.page);
      && record.rows == RoundWalk(s, t).rows && record.chat.pending == RoundWalk(s, t).chat.pending
      && ChatDefines(c.walk.chat, record.chat) && InRange(Hist(s, c.id), record.chat)
  {
    var c := s.run.cur.value;
    assert t.page.items != [];
    assert InRange(Hist(s, c.id), s.run.snap.chats[c.id]);
    BackfillStaysInRange(Hist(s, c.id), c.walk, s.run.limit, t, |Hist(s, c.id)|);
  }

  lemma RecordIsHonest(s: Sys, t: Turn)
    requires Inv(s) && Enabled(s, Round(t, true)) && s.run.cur.value.id !in RoundCheckpoint(s, t).exempt
    ensures var c, record := s.run.cur.value, BackfillPage(s.run.cur.value.walk, t.page);
      Justified(Hist(s, c.id), record.chat, record.rows, s.links)
  {
    var c := s.run.cur.value;
    assert t.page.items != [];
    assert InRange(Hist(s, c.id), s.run.snap.chats[c.id]);
    if c.rewalk {
      MarkedPageKeepsRecord(Hist(s, c.id), c.walk, s.run.limit, t, |Hist(s, c.id)|, s.links);
    } else {
      BackfillPageKeepsCoverage(Hist(s, c.id), c.walk, t, |Hist(s, c.id)|, s.links);
    }
  }

  lemma RecordRepliesAreGenuine(s: Sys, t: Turn, s': Sys)
    requires Inv(s) && Enabled(s, Round(t, true)) && Later(s, s')
    ensures forall r | r in PageRecord(s, t).pending :: Genuine(s', r)
  {
    RoundOnlyAdds(s, t);
    RecordAdds(s, t);
    forall r | r in PageRecord(s, t).pending ensures Genuine(s', r) {
      if r in s.run.cur.value.walk.chat.pending {
        assert Genuine(s, r);
      }
      LaterKeepsGenuine(s, s', r);
    }
  }

  lemma RoundCheckpointOk(s: Sys, t: Turn, s': Sys)
    requires Inv(s) && Enabled(s, Round(t, true)) && Later(s, s') && s' == RoundStep(s, t, false)
    ensures SnapOk(s', RoundCheckpoint(s, t))
  {
    var c := s.run.cur.value;
    RecordAdds(s, t);
    if c.id !in RoundCheckpoint(s, t).exempt {
      RecordIsHonest(s, t);
    }
    LaterKeepsSnap(s, s', s.run.snap);
    RecordRepliesAreGenuine(s, t, s');
    assert Hist(s, c.id) == Hist(s', c.id);
    PutKeeps(s', s.run.snap, c.id, PageRecord(s, t), RoundCheckpoint(s, t).exempt);
  }

  /** The throttled checkpoint inside a backfill saves a record that is honest as well. */
  lemma SavedRoundKeeps(s: Sys, t: Turn)
    requires Inv(s) && Enabled(s, Round(t, true))
    ensures Inv(RoundStep(s, t, true))
  {
    var s' := RoundStep(s, t, false);
    RoundKeeps(s, t, s');
    RoundCheckpointOk(s, t, s');
    SavingKeeps(s', RoundCheckpoint(s, t));
  }

  lemma ReconcileKeeps(s: Sys, items: seq<Message>)
    requires Inv(s) && Enabled(s, Reconcile(items))
    ensures Inv(Step(s, Reconcile(items)))
  {
    var c, w := s.run.cur.value, Process(s.run.cur.value.walk, items);
    ProcessSettles(Hist(s, c.id), c.walk, items, s.links);
    assert c.id !in s.run.snap.exempt ==> ChatOk(s, c.id, c.walk.chat);
    assert InRange(Hist(s, c.id), s.run.snap.chats[c.id]);
    forall r | r in w.chat.pending
      ensures r in c.walk.chat.pending || Genuine(s, r)
    {
      if r !in c.walk.chat.pending {
        assert forall m | m in items :: Known(s, m);
        ProcessedRepliesAreGenuine(s, items, r);
      }
    }
    WithWalkKeeps(s, w, s.run.snap.exempt, Step(s, Reconcile(items)));
  }

  // ---- Linking the buffered replies ----

  lemma SetReplyToKeepsLink(h: History, i: int, links: Links, rows: set<MessageId>, r: Reply)
    requires 0 <= i < |h| && Linked(h, i, links) && LinksOk(links, rows)
    requires r.child == h[i].id ==> h[i].linked == Some(r.parent)
    ensures Linked(h, i, SetReplyTo(links, rows, r))
  {
  }

  lemma FlushKeepsLink(h: History, i: int, links: Links, rows: set<MessageId>, pending: seq<Reply>)
    requires 0 <= i < |h| && Linked(h, i, links) && LinksOk(links, rows)
    requires forall r | r in pending && r.child == h[i].id :: h[i].linked == Some(r.parent)
    ensures Linked(h, i, Flush(links, rows, pending)) && LinksOk(Flush(links, rows, pending), rows)
  {
    if pending != [] {
      FlushKeepsLink(h, i, links, rows, pending[..|pending| - 1]);
      SetReplyToKeepsLink(h, i, Flush(links, rows, pending[..|pending| - 1]), rows, pending[|pending| - 1]);
    }
  }

  lemma FlushKeepsLinksOk(links: Links, rows: set<MessageId>, pending: seq<Reply>)
    requires LinksOk(links, rows)
    ensures LinksOk(Flush(links, rows, pending), rows)
  {
  }

  /** A buffered reply is linked by the flush once its earlier messages are archived. */
  lemma FlushLinks(h: History, i: int, links: Links, rows: set<MessageId>, pending: seq<Reply>)
    requires 0 <= i < |h| && h[i].id in rows && LinksOk(links, rows)
    requires h[i].linked.Some? && Reply(h[i].id, h[i].linked.value) in pending
    requires forall r | r in pending && r.child == h[i].id :: h[i].linked == Some(r.parent)
    requires forall j | 0 <= j < i && Stored(h[j]) :: h[j].id in rows
    ensures Linked(h, i, Flush(links, rows, pending))
  {
    var last := pending[|pending| - 1];
    FlushKeepsLinksOk(links, rows, pending[..|pending| - 1]);
    if last != Reply(h[i].id, h[i].linked.value) {
      FlushLinks(h, i, links, rows, pending[..|pending| - 1]);
      SetReplyToKeepsLink(h, i, Flush(links, rows, pending[..|pending| - 1]), rows, last);
    }
  }

  lemma GenuineDecides(s: Sys, r: Reply, id: ChatId, i: int)
    requires HistOk(s.hist) && Genuine(s, r) && 0 <= i < |Hist(s, id)| && Hist(s, id)[i].id == r.child
    ensures Hist(s, id)[i].linked == Some(r.parent)
  {
    var m :| Known(s, m) && m.id == r.child && m.linked == Some(r.parent);
    var c :| m in Hist(s, c);
    var j :| 0 <= j < |Hist(s, c)| && Hist(s, c)[j] == m;
    assert s.hist[c][j].id == s.hist[id][i].id;
  }

  lemma EndChatIsLater(s: Sys)
    requires Inv(s) && Enabled(s, EndChat)
    ensures Later(s, Step(s, EndChat)) && LinksOk(Step(s, EndChat).links, s.rows)
  {
    var s', c := Step(s, EndChat), s.run.cur.value;
    var pending := c.walk.chat.pending;
    assert forall id :: Hist(s, id) == Hist(s', id);
    FlushKeepsLinksOk(s.links, s.rows, pending);
    forall id, i | 0 <= i < |Hist(s, id)| && Linked(Hist(s, id), i, s.links)
      ensures Linked(Hist(s', id), i, s'.links)
    {
      forall r | r in pending && r.child == Hist(s, id)[i].id
        ensures Hist(s, id)[i].linked == Some(r.parent)
      {
        assert Genuine(s, r);
        GenuineDecides(s, r, id, i);
      }
      FlushKeepsLink(Hist(s, id), i, s.links, s.rows, pending);
    }
  }

  /** After the flush of a finished chat its emptied buffer is no longer needed. */
  lemma FlushedChatIsOk(s: Sys)
    requires Inv(s) && Enabled(s, EndChat) && s.run.cur.value.walk.chat.done
    requires s.run.cur.value.id !in s.run.snap.exempt
    ensures ChatOk(Step(s, EndChat), s.run.cur.value.id, s.run.cur.value.walk.chat.(pending := []))
  {
    var s', c := Step(s, EndChat), s.run.cur.value;
    var h, chat := Hist(s, c.id), c.walk.chat;
    EndChatIsLater(s);
    assert ChatOk(s, c.id, chat);
    forall i | 0 <= i < |h| && Covers(chat, i)
      ensures Settled(h, i, s'.rows, [], s'.links)
    {
      assert Settled(h, i, s.rows, chat.pending, s.links);
      if Stored(h[i]) && h[i].linked.Some? && Reply(h[i].id, h[i].linked.value) in chat.pending {
        forall r | r in chat.pending && r.child == h[i].id
          ensures h[i].linked == Some(r.parent)
        {
          assert Genuine(s, r);
          GenuineDecides(s, r, c.id, i);
        }
        forall j | 0 <= j < i && Stored(h[j])
          ensures h[j].id in s.rows
        {
          assert Covers(chat, j);
        }
        FlushLinks(h, i, s.links, s.rows, chat.pending);
      }
    }
  }

  lemma EndChatKeeps(s: Sys)
    requires Inv(s) && Enabled(s, EndChat)
    ensures Inv(Step(s, EndChat))
  {
    var s', c := Step(s, EndChat), s.run.cur.value;
    EndChatIsLater(s);
    SnapsStay(s, s');
    if c.walk.chat.done {
      if c.id !in s.run.snap.exempt {
        FlushedChatIsOk(s);
        assert Hist(s, c.id) == Hist(s', c.id);
      }
      assert InRange(Hist(s', c.id), s.run.snap.chats[c.id]);
      PutKeeps(s', s.run.snap, c.id, c.walk.chat.(pending := []), s.run.snap.exempt);
    }
  }

  lemma StepKeeps(s: Sys, a: Action)
    requires Inv(s) && Enabled(s, a)
    ensures Inv(Step(s, a))
  {
    match a
    case Arrive(id, m) => ArriveKeeps(s, id, m);
    case Start(_, _, _, _, _) => StartKeeps(s, a);
    case Visit(id) => VisitKeeps(s, id);
    case Vanish(id) => VanishKeeps(s, id);
    case BeginChat(id) => BeginChatKeeps(s, id);
    case Round(t, saved) => if saved { SavedRoundKeeps(s, t); } else { RoundKeeps(s, t, Step(s, a)); }
    case Reconcile(items) => ReconcileKeeps(s, items);
    case EndChat => EndChatKeeps(s);
    case Checkpoint => CheckpointKeeps(s);
    case Complete => CompleteKeeps(s);
    case Stop => StopKeeps(s);
  }

  // ---- Main results ----

  /** Action k takes state k to state k + 1. */
  ghost predicate StepsAt(states: seq<Sys>, actions: seq<Action>, k: nat)
    requires k < |actions| && |states| == |actions| + 1
  {
    Enabled(states[k], actions[k]) && states[k + 1] == Step(states[k], actions[k])
  }

  ghost predicate IsLineage(states: seq<Sys>, actions: seq<Action>) {
    && |states| == |actions| + 1 && states[0] == INIT
    && forall k | 0 <= k < |actions| :: StepsAt(states, actions, k)
  }

  lemma {:induction false} LineageKeepsInv(states: seq<Sys>, actions: seq<Action>, k: nat)
    requires IsLineage(states, actions) && k < |states|
    ensures Inv(states[k])
  {
    if k > 0 {
      LineageKeepsInv(states, actions, k - 1);
      assert StepsAt(states, actions, k - 1);
      StepKeeps(states[k - 1], actions[k - 1]);
    }
  }

  /** The states an importer can find saved: the last completed run's, the interrupted run's
      checkpoint, and what it resumes from, with the baseline or without. */
  predicate IsSaved(s: Sys, snap: Snap) {
    snap == s.baseline || s.ckpt == Some(snap) || snap == Loaded(s, true, true) || snap == Loaded(s, false, true)
  }

  /** Over every sequence of runs, errors, limits, cancellations and crashes, whatever a saved
      record covers - back to its oldest cursor, or back to the beginning of history once the
      backfill is done - is archived, and its replies are linked or still buffered. */
  lemma SavedRecordsAreHonest(states: seq<Sys>, actions: seq<Action>, k: nat, snap: Snap, id: ChatId, i: int)
    requires IsLineage(states, actions) && k < |states| && IsSaved(states[k], snap)
    requires id in snap.chats && id !in snap.exempt
    requires Covers(snap.chats[id], i)
    ensures i < |Hist(states[k], id)|
    ensures var m := Hist(states[k], id)[i]; Stored(m) ==>
      && m.id in states[k].rows
      && (m.linked.Some? ==> Reply(m.id, m.linked.value) in snap.chats[id].pending || Linked(Hist(states[k], id), i, states[k].links))
  {
    LineageKeepsInv(states, actions, k);
    ResumeOk(states[k], true, true);
    ResumeOk(states[k], false, true);
    assert ChatOk(states[k], id, snap.chats[id]);
    assert Settled(Hist(states[k], id), i, states[k].rows, snap.chats[id].pending, states[k].links);
  }

  // ---- The promise, chat by chat ----

  /** The chat is in the middle of a re-walk whose record is ahead of it, and cannot be saved yet. */
  predicate MidRewalk(s: Sys, id: ChatId) {
    && s.run.Run? && s.run.cur.Some? && s.run.cur.value.id == id
    && s.run.cur.value.rewalk && !s.run.cur.value.walk.halt.Returned?
  }

  /** Every saved copy promises the chat, and every copy since has a value wherever the baseline has one. */
  predicate Kept(s: Sys, id: ChatId) {
    && id !in s.baseline.exempt
    && (s.ckpt.Some? ==>
          id !in s.ckpt.value.exempt && ChatDefines(Lookup(s.baseline.chats, id), Lookup(s.ckpt.value.chats, id)))
    && (s.run.Run? ==>
          (id in s.run.snap.exempt ==> MidRewalk(s, id)) && ChatDefines(Lookup(s.baseline.chats, id), Lookup(s.run.snap.chats, id)))
  }

  /** The actions that keep the promise for a chat: a start whose record has a value wherever the
      baseline's has one; not being marked done for having vanished, unless it was walked to the
      beginning; and a re-walk that does not return, or reach a checkpoint, with its record ahead of it. */
  predicate Harmless(s: Sys, a: Action, id: ChatId) {
    match a
    case Start(full, _, _, base, ckpt) =>
      ChatDefines(Lookup(s.baseline.chats, id), Lookup(Resumed(s, full, base, ckpt).chats, id))
    case Vanish(gone) => gone == id && s.run.Run? && id in s.run.snap.chats ==> Whole(s.run.snap.chats[id])
    case Round(t, saved) =>
      s.run.Run? && s.run.cur.Some? && s.run.cur.value.id == id && s.run.cur.value.rewalk ==>
        var c, w := s.run.cur.value, RoundWalk(s, t);
        && (w.halt.Returned? ==> RightAsMarked(c.walk, s.run.limit, t, w.chat))
        && (saved && t.Served? ==> RightAsMarked(c.walk, s.run.limit, t, PageRecord(s, t)))
    case _ => true
  }

  /** Which starts keep it: without --full those that read the baseline, or else a checkpoint; and any
      start, as long as the baseline has nothing of the chat. */
  lemma StartsHarmlessExactly(s: Sys, id: ChatId, full: bool, limit: nat, saved: bool, base: bool, ckpt: bool)
    requires Kept(s, id) && s.run.NoRun?
    ensures Harmless(s, Start(full, limit, saved, base, ckpt), id) <==>
      (!full && (base || (ckpt && s.ckpt.Some?))) || ChatDefines(Lookup(s.baseline.chats, id), FRESH)
  {
    if !full && base && ckpt && s.ckpt.Some? {
      MergeDefinesBoth(s.baseline.chats, s.ckpt.value.chats);
    }
  }

  lemma StartKeepsChat(s: Sys, a: Action, id: ChatId)
    requires Kept(s, id) && a.Start? && Enabled(s, a) && Harmless(s, a, id)
    ensures Kept(Step(s, a), id)
  {
    if a.ckpt && s.ckpt.Some? {
      assert ChatDefines(FRESH, Lookup(s.ckpt.value.chats, id));
    }
  }

  lemma RoundKeepsChat(s: Sys, t: Turn, id: ChatId, s': Sys)
    requires Inv(s) && Kept(s, id) && Enabled(s, Round(t, false)) && Harmless(s, Round(t, false), id)
    requires s' == RoundStep(s, t, false)
    ensures Kept(s', id)
  {
    RoundOnlyAdds(s, t);
    DefinesOn(Lookup(s.baseline.chats, id), s.run.cur.value.walk.chat, RoundWalk(s, t).chat);
  }

  lemma DefinesOn(base: Chat, later: Chat, latest: Chat)
    requires ChatDefines(later, latest)
    ensures ChatDefines(base, later) ==> ChatDefines(base, latest)
  {
  }

  lemma SavedRoundKeepsChat(s: Sys, t: Turn, id: ChatId, s': Sys)
    requires Inv(s) && Kept(s, id) && Enabled(s, Round(t, true)) && Harmless(s, Round(t, true), id)
    requires s' == RoundStep(s, t, true)
    ensures Kept(s', id)
  {
    RoundKeepsChat(s, t, id, RoundStep(s, t, false));
    RecordAdds(s, t);
    DefinesOn(Lookup(s.baseline.chats, id), s.run.cur.value.walk.chat, PageRecord(s, t));
    CheckpointKeepsChat(s, t, id, RoundCheckpoint(s, t));
  }

  lemma CheckpointKeepsChat(s: Sys, t: Turn, id: ChatId, snap: Snap)
    requires Inv(s) && Kept(s, id) && Enabled(s, Round(t, true)) && Harmless(s, Round(t, true), id)
    requires snap == RoundCheckpoint(s, t) && ChatDefines(s.run.cur.value.walk.chat, PageRecord(s, t))
    ensures id !in snap.exempt && ChatDefines(Lookup(s.baseline.chats, id), Lookup(snap.chats, id))
  {
  }

  lemma StepKeepsChat(s: Sys, a: Action, id: ChatId)
    requires Inv(s) && Kept(s, id) && Enabled(s, a) && Harmless(s, a, id)
    ensures Kept(Step(s, a), id)
  {
    match a
    case Start(_, _, _, _, _) => StartKeepsChat(s, a, id);
    case Round(t, saved) =>
      if saved { SavedRoundKeepsChat(s, t, id, Step(s, a)); } else { RoundKeepsChat(s, t, id, Step(s, a)); }
    case _ => OtherStepKeepsChat(s, a, id);
  }

  lemma OtherStepKeepsChat(s: Sys, a: Action, id: ChatId)
    requires Inv(s) && Kept(s, id) && Enabled(s, a) && Harmless(s, a, id) && !a.Start? && !a.Round?
    ensures Kept(Step(s, a), id)
  {
    if s.run.Run? && s.run.cur.Some? {
      assert CurrentOk(s, s.run.cur.value);
    }
  }

  lemma KeptSnaps(s: Sys, id: ChatId, snap: Snap)
    requires Kept(s, id) && IsSaved(s, snap)
    ensures id !in snap.exempt
  {
    if s.ckpt.Some? {
      assert ChatDefines(FRESH, Lookup(s.ckpt.value.chats, id));
    }
  }

  lemma {:induction false} HarmlessLineageKeeps(states: seq<Sys>, actions: seq<Action>, k: nat, id: ChatId)
    requires IsLineage(states, actions) && k < |states|
    requires forall j | 0 <= j < k :: Harmless(states[j], actions[j], id)
    ensures Kept(states[k], id)
  {
    if k > 0 {
      HarmlessLineageKeeps(states, actions, k - 1, id);
      LineageKeepsInv(states, actions, k - 1);
      assert StepsAt(states, actions, k - 1);
      StepKeepsChat(states[k - 1], actions[k - 1], id);
    }
  }

  /** Main result, chat by chat: in every lineage without an action that harms this chat - whatever happens
      to the others - all a saved record of it covers is archived, and its replies are linked or buffered. */
  lemma HarmlessChatIsHonest(states: seq<Sys>, actions: seq<Action>, k: nat, snap: Snap, id: ChatId, i: int)
    requires IsLineage(states, actions) && k < |states| && IsSaved(states[k], snap)
    requires forall j | 0 <= j < k :: Harmless(states[j], actions[j], id)
    requires id in snap.chats && Covers(snap.chats[id], i)
    ensures i < |Hist(states[k], id)|
    ensures var m := Hist(states[k], id)[i]; Stored(m) ==>
      && m.id in states[k].rows
      && (m.linked.Some? ==> Reply(m.id, m.linked.value) in snap.chats[id].pending || Linked(Hist(states[k], id), i, states[k].links))
  {
    HarmlessLineageKeeps(states, actions, k, id);
    KeptSnaps(states[k], id, snap);
    SavedRecordsAreHonest(states, actions, k, snap, id, i);
  }

  // ---- Repair ----

  /** A start that resumes nothing, or nothing that the promise was withdrawn for. */
  predicate StartsFresh(s: Sys, a: Action, id: ChatId) {
    a.Start? && id !in Resumed(s, a.full, a.base, a.ckpt).exempt
  }

  /** Within a run that started so. */
  predicate Fresh(s: Sys, id: ChatId) {
    s.run.Run? && (id in s.run.snap.exempt ==> MidRewalk(s, id))
  }

  lemma StepStaysFresh(s: Sys, a: Action, id: ChatId)
    requires Inv(s) && Fresh(s, id) && Enabled(s, a) && Harmless(s, a, id) && !a.Start? && !a.Stop? && !a.Complete?
    ensures Fresh(Step(s, a), id)
  {
  }

  lemma {:induction false} RunStaysFresh(states: seq<Sys>, actions: seq<Action>, first: nat, k: nat, id: ChatId)
    requires IsLineage(states, actions) && first < k <= |actions| && StartsFresh(states[first], actions[first], id)
    requires forall j | first < j < k ::
               !actions[j].Start? && !actions[j].Stop? && !actions[j].Complete? && Harmless(states[j], actions[j], id)
    ensures Fresh(states[k], id)
  {
    assert StepsAt(states, actions, k - 1);
    if k > first + 1 {
      RunStaysFresh(states, actions, first, k - 1, id);
      LineageKeepsInv(states, actions, k - 1);
      StepStaysFresh(states[k - 1], actions[k - 1], id);
    }
  }

  /** A run that resumed nothing bad of a chat - a --full run, or one that could read nothing - and runs to
      completion without harming it restores the promise for it, whatever the lineage went through before. */
  lemma CompletedRunRepairs(states: seq<Sys>, actions: seq<Action>, first: nat, last: nat, id: ChatId)
    requires IsLineage(states, actions) && first < last < |actions|
    requires StartsFresh(states[first], actions[first], id) && actions[last].Complete?
    requires forall j | first < j < last ::
               !actions[j].Start? && !actions[j].Stop? && !actions[j].Complete? && Harmless(states[j], actions[j], id)
    ensures Kept(states[last + 1], id)
  {
    RunStaysFresh(states, actions, first, last, id);
    assert StepsAt(states, actions, last);
  }

  /** Marking a chat that is gone from the server as done is honest about its history exactly when
      the backfill had already reached the beginning. */
  lemma VanishedIsHonestExactly(h: History, chat: Chat)
    requires UniqueIds(h) && AllStored(h) && InRange(h, chat) && !chat.done && chat.newest.At?
    ensures (forall rows | RowsCover(h, chat, rows) :: RowsCover(h, chat.(done := true), rows)) <==>
            (chat.oldest.At? && chat.oldest.pos <= 0)
  {
    if !(chat.oldest.At? && chat.oldest.pos <= 0) {
      var rows := set i | 0 <= i < |h| && Covers(chat, i) :: h[i].id;
      assert h[0].id !in rows;
      assert Covers(chat.(done := true), 0);
      assert RowsCover(h, chat, rows) && !RowsCover(h, chat.(done := true), rows);
    }
  }

  /** For a given re-walk: what it claims by itself makes what its record claims honest exactly when it
      ended by exhaustion, or its cursors reach the beginning. An early return - limit, failed fetch, no
      cursor - is what breaks it. */
  lemma RewalkHonestExactly(h: History, chat: Chat, rows: set<MessageId>, limit: nat, script: Script, floor: nat, k: nat)
    requires UniqueIds(h) && AllStored(h) && InRange(h, chat) && chat.done && chat.newest.Null?
    requires BackfillServed(h, floor, Begin(chat, rows), limit, script)
    requires !BackfillAfter(Begin(chat, rows), limit, script, k).halt.Aborted?
    ensures var u := BackfillAfter(Begin(chat.(done := false), rows), limit, script, k).chat;
      var w := BackfillAfter(Begin(chat, rows), limit, script, k).chat;
      (forall archived | RowsCover(h, u, archived) :: RowsCover(h, w, archived)) <==> u.done || Whole(w)
  {
    MarkedWalkIsSame(chat, rows, limit, script, k);
    ServedWithoutMark(h, chat, rows, limit, script, floor);
    BackfillKeepsCoverage(h, chat.(done := false), rows, limit, script, map[], floor, k);
    var u := BackfillAfter(Begin(chat.(done := false), rows), limit, script, k).chat;
    if !u.done && u.newest.At? {
      VanishedIsHonestExactly(h, u);
    }
  }
}
