/** A lineage that breaks the promise without --full, a vanished chat or an empty finished one: a run
    whose read of the baseline fails is not told, starts over, and leaves a checkpoint that the next run
    merges with the baseline. */
module BeeperGap {
  import opened Options
  import opened BeeperState
  import opened BeeperWalk
  import opened BeeperImporter
  import opened BeeperRuns

  datatype Lineage = Lineage(states: seq<Sys>, actions: seq<Action>)

  predicate UnreadStart(a: Action) {
    a.Start? && !a.full && !a.base
  }

  /** A lineage in which nothing harms any chat but starts whose read of the baseline failed. */
  ghost predicate AlmostHarmless(x: Lineage) {
    && IsLineage(x.states, x.actions)
    && forall k, id | 0 <= k < |x.actions| :: UnreadStart(x.actions[k]) || Harmless(x.states[k], x.actions[k], id)
  }

  function Last(x: Lineage): Sys
    requires |x.states| > 0
  {
    x.states[|x.states| - 1]
  }

  lemma Extended(x: Lineage, s: Sys, a: Action, s': Sys) returns (x': Lineage)
    requires AlmostHarmless(x) && Last(x) == s && Enabled(s, a) && s' == Step(s, a)
    requires UnreadStart(a) || forall id :: Harmless(s, a, id)
    ensures AlmostHarmless(x') && Last(x') == s'
  {
    x' := Lineage(x.states + [s'], x.actions + [a]);
    forall k | 0 <= k < |x'.actions| ensures StepsAt(x'.states, x'.actions, k) {
      if k < |x.actions| {
        assert StepsAt(x.states, x.actions, k);
      }
    }
  }

  const CHAT := "c"

  function Plain(id: MessageId): Message {
    Message(id, false, false, false, None)
  }

  /** A page of one message, the last of what is visible. */
  function OneMessage(n: nat, m: Message, hasMore: bool): Turn {
    Served(n + 1, Page([m], hasMore, At(n), At(n)), 1, false, map[])
  }

  function Idle(h: History, rows: set<MessageId>, baseline: Snap): Sys {
    Sys(map[CHAT := h], rows, map[], baseline, None, NoRun)
  }

  /** A run between two chats, and one about to walk the chat. */
  function Between(h: History, rows: set<MessageId>, baseline: Snap, limit: nat, chats: Chats): Sys {
    Idle(h, rows, baseline).(run := Run(Snap(chats, {}), limit, None))
  }

  function Walking(h: History, rows: set<MessageId>, baseline: Snap, limit: nat, walk: Walk): Sys {
    Idle(h, rows, baseline).(run := Run(Snap(map[CHAT := walk.chat], {}), limit, Some(Current(CHAT, true, false, walk))))
  }

  /** A run that does not know the chat visits it and begins its backfill. */
  lemma BeginsFromScratch(x0: Lineage, h: History, rows: set<MessageId>, baseline: Snap, limit: nat) returns (x: Lineage)
    requires AlmostHarmless(x0) && Last(x0) == Between(h, rows, baseline, limit, map[])
    ensures AlmostHarmless(x) && Last(x) == Walking(h, rows, baseline, limit, Begin(FRESH, rows))
  {
    var s0 := Between(h, rows, baseline, limit, map[]);
    var s1 := Between(h, rows, baseline, limit, map[CHAT := FRESH]);
    var x1 := Extended(x0, s0, Visit(CHAT), s1);
    x := Extended(x1, s1, BeginChat(CHAT), Walking(h, rows, baseline, limit, Begin(FRESH, rows)));
  }

  /** The first page brings the newest message. */
  lemma FirstTurn(start: Walk, rows: set<MessageId>, t: Turn, n: nat, m: Message, hasMore: bool, limit: nat, next: Walk)
    requires start == Begin(FRESH, rows) && t == OneMessage(n, m, hasMore) && m == Plain(m.id)
    requires next == Walk(Chat(At(n), At(n), false, []), rows + {m.id}, [{m.id}], 1, {m.id}, 0, Going)
    ensures BackfillTurn(start, limit, t) ==
      if hasMore then next.(halt := if LimitReached(limit, 1) then Returned else Going)
      else next.(chat := Chat(At(n), At(n), true, []), halt := Returned)
  {
    assert RowsOf([m]) == {m.id} && RepliesOf([m]) == [] by {
      assert [m][..0] == [] && RowsOf([]) == {} && RepliesOf([]) == [];
    }
    PageOfOne(start, t.page, false, rows, n, m);
    assert BackfillPage(start, t.page) == next;
    assert Unseen(start.recent, t.page.items) == [m] by {
      UnseenOfOne(m);
    }
    assert !LimitReached(limit, start.budget);
  }

  lemma ServesNewest(h: History, n: nat, m: Message, hasMore: bool)
    requires h != [] && n == |h| - 1 && h[n] == m && (hasMore || n == 0)
    ensures ServesBefore(h, |h|, Null, OneMessage(n, m, hasMore))
  {
    assert Slice(h, n, n + 1, OneMessage(n, m, hasMore).page);
  }

  lemma TakesPage(x0: Lineage, s0: Sys, h: History, rows: set<MessageId>, start: Walk, next: Walk, limit: nat, t: Turn)
    returns (x: Lineage)
    requires AlmostHarmless(x0) && Last(x0) == s0 == Walking(h, rows, s0.baseline, limit, start)
    requires start.halt.Going? && ServesBefore(h, |h|, start.chat.oldest, t) && next == BackfillTurn(start, limit, t)
    ensures AlmostHarmless(x) && Last(x) == Walking(h, next.rows, s0.baseline, limit, next)
  {
    assert map[CHAT := start.chat][CHAT := next.chat] == map[CHAT := next.chat];
    var s1 := Walking(h, next.rows, s0.baseline, limit, next);
    assert s1 == RoundStep(s0, t, false);
    x := Extended(x0, s0, Round(t, false), s1);
  }

  lemma EndsWalk(x0: Lineage, s0: Sys, h: History, walk: Walk, limit: nat) returns (x: Lineage)
    requires AlmostHarmless(x0) && Last(x0) == s0 == Walking(h, s0.rows, s0.baseline, limit, walk)
    requires walk.halt.Returned? && walk.chat.pending == []
    ensures AlmostHarmless(x) && Last(x) == Between(h, s0.rows, s0.baseline, limit, map[CHAT := walk.chat])
  {
    assert Flush(map[], s0.rows, []) == map[];
    assert walk.chat.(pending := []) == walk.chat;
    assert map[CHAT := walk.chat][CHAT := walk.chat] == map[CHAT := walk.chat];
    x := Extended(x0, s0, EndChat, Between(h, s0.rows, s0.baseline, limit, map[CHAT := walk.chat]));
  }

  lemma Walks(x0: Lineage, h: History, rows: set<MessageId>, baseline: Snap, limit: nat, n: nat, m: Message, hasMore: bool)
    returns (x: Lineage)
    requires AlmostHarmless(x0) && Last(x0) == Walking(h, rows, baseline, limit, Begin(FRESH, rows))
    requires h != [] && n == |h| - 1 && h[n] == m == Plain(m.id) && (hasMore || n == 0) && (hasMore ==> limit == 1)
    ensures AlmostHarmless(x)
    ensures Last(x) == Between(h, rows + {m.id}, baseline, limit, map[CHAT := Chat(At(n), At(n), !hasMore, [])])
  {
    var t, start := OneMessage(n, m, hasMore), Begin(FRESH, rows);
    var going := Walk(Chat(At(n), At(n), false, []), rows + {m.id}, [{m.id}], 1, {m.id}, 0, Going);
    var next := going.(chat := Chat(At(n), At(n), !hasMore, []), halt := Returned);
    FirstTurn(start, rows, t, n, m, hasMore, limit, going);
    ServesNewest(h, n, m, hasMore);
    var x1 := TakesPage(x0, Last(x0), h, rows, start, next, limit, t);
    x := EndsWalk(x1, Last(x1), h, next, limit);
  }

  /** A first run completes with the chat's one message. */
  lemma FirstRun() returns (x: Lineage)
    ensures AlmostHarmless(x)
    ensures Last(x) == Idle([Plain("0")], {"0"}, Snap(map[CHAT := Chat(At(0), At(0), true, [])], {}))
  {
    var h, done := [Plain("0")], Chat(At(0), At(0), true, []);
    var x0 := Lineage([INIT], []);
    var s1 := Idle(h, {}, EMPTY);
    assert [] + [Plain("0")] == h;
    var x1 := Extended(x0, INIT, Arrive(CHAT, Plain("0")), s1);
    var s2 := Between(h, {}, EMPTY, 0, map[]);
    var x2 := Extended(x1, s1, Start(false, 0, false, true, true), s2);
    var x3 := BeginsFromScratch(x2, h, {}, EMPTY, 0);
    var x4 := Walks(x3, h, {}, EMPTY, 0, 0, Plain("0"), false);
    assert {} + {"0"} == {"0"};
    var s5 := Between(h, {"0"}, EMPTY, 0, map[CHAT := done]);
    x := Extended(x4, s5, Complete, Idle(h, {"0"}, Snap(map[CHAT := done], {})));
  }

  lemma TwoMore(x0: Lineage, s: Sys) returns (x: Lineage)
    requires AlmostHarmless(x0) && Last(x0) == s == Idle([Plain("0")], {"0"}, s.baseline)
    ensures AlmostHarmless(x) && Last(x) == Idle([Plain("0"), Plain("1"), Plain("2")], {"0"}, s.baseline)
  {
    var one, two := [Plain("0"), Plain("1")], [Plain("0"), Plain("1"), Plain("2")];
    assert [Plain("0")] + [Plain("1")] == one && one + [Plain("2")] == two;
    assert "0" != "1" && "0" != "2" && "1" != "2" by {
      assert "0"[0] != "1"[0] && "0"[0] != "2"[0] && "1"[0] != "2"[0];
    }
    var s1 := Idle(one, {"0"}, s.baseline);
    assert s1.hist == s.hist[CHAT := one];
    var x1 := Extended(x0, s, Arrive(CHAT, Plain("1")), s1);
    var s2 := Idle(two, {"0"}, s.baseline);
    assert s2.hist == s1.hist[CHAT := two];
    x := Extended(x1, s1, Arrive(CHAT, Plain("2")), s2);
  }

  /** A limited run that could not read the baseline sees the newest message only, and checkpoints. */
  lemma UnreadRun(x0: Lineage, h: History, baseline: Snap) returns (x: Lineage)
    requires AlmostHarmless(x0) && Last(x0) == Idle(h, {"0"}, baseline) && |h| == 3 && h[2] == Plain("2")
    ensures AlmostHarmless(x) && Last(x).baseline == baseline && Last(x).rows == {"0", "2"} && Last(x).hist == map[CHAT := h]
    ensures Last(x).ckpt == Some(Snap(map[CHAT := Chat(At(2), At(2), false, [])], {}))
  {
    var s0 := Idle(h, {"0"}, baseline);
    var s1 := Between(h, {"0"}, baseline, 1, map[]);
    var x1 := Extended(x0, s0, Start(false, 1, false, false, true), s1);
    var x2 := BeginsFromScratch(x1, h, {"0"}, baseline, 1);
    var x3 := Walks(x2, h, {"0"}, baseline, 1, 2, Plain("2"), true);
    assert {"0"} + {"2"} == {"0", "2"};
    var s4 := Between(h, {"0", "2"}, baseline, 1, map[CHAT := Chat(At(2), At(2), false, [])]);
    x := Extended(x3, s4, Checkpoint, s4.(ckpt := Some(s4.run.snap)));
  }

  /** What the run after the lineage resumes from claims a message that was never archived. */
  ghost predicate LeavesGap(x: Lineage)
    requires |x.states| > 0
  {
    var s := Last(x);
    var chats := Loaded(s, true, true).chats;
    CHAT in chats && exists i | 0 <= i < |Hist(s, CHAT)| && Covers(chats[CHAT], i) :: Stored(Hist(s, CHAT)[i]) && Hist(s, CHAT)[i].id !in s.rows
  }

  /** One unread baseline is enough: the next run takes a message for archived that was never fetched. */
  lemma UnreadBaselineLeavesGap()
    ensures exists x: Lineage :: AlmostHarmless(x) && LeavesGap(x)
  {
    var first := FirstRun();
    var grown := TwoMore(first, Last(first));
    var h := [Plain("0"), Plain("1"), Plain("2")];
    var x := UnreadRun(grown, h, Last(first).baseline);
    assert "1" !in {"0", "2"} by {
      assert "1"[0] != "0"[0] && "1"[0] != "2"[0];
    }
    var s := Last(x);
    var base, late := Chat(At(0), At(0), true, []), Chat(At(2), At(2), false, []);
    assert MergeChat(base, late) == Chat(At(2), At(2), true, []);
    assert Loaded(s, true, true).chats[CHAT] == Chat(At(2), At(2), true, []);
    assert Hist(s, CHAT)[1] == h[1] && Covers(Chat(At(2), At(2), true, []), 1);
    assert LeavesGap(x);
  }
}
