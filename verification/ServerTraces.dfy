/** What the daemon's protocols promise over whole executions. */
module ServerTraces {
  import opened Options
  import opened OperationGate
  import opened ServerProtocols

  /** An execution: a first state, and after every move the state it leads to. */
  datatype Trace = Trace(states: seq<Server>, moves: seq<Move>)

  /** The move from state k to state k + 1. */
  predicate StepsAt(x: Trace, k: nat)
    requires k < |x.moves| && |x.states| == |x.moves| + 1
  {
    Enabled(x.states[k], x.moves[k]) && x.states[k + 1] == Step(x.states[k], x.moves[k])
  }

  ghost predicate Runs(x: Trace) {
    && |x.states| == |x.moves| + 1 && Initial(x.states[0])
    && forall k | 0 <= k < |x.moves| :: StepsAt(x, k)
  }

  lemma {:induction false} AlwaysOk(x: Trace, k: nat)
    requires Runs(x) && k < |x.states|
    ensures ServerOk(x.states[k])
  {
    if k > 0 {
      AlwaysOk(x, k - 1);
      assert StepsAt(x, k - 1);
      StepKeeps(x.states[k - 1], x.moves[k - 1], x.states[k]);
    }
  }

  // ---- Tickets over time ----

  /** The gate action a move performs, if any. */
  function ActionOf(s: Server, m: Move): Option<Action> {
    match m
    case Spawn(_, _) => None
    case Shutdown => Some(DoDrain)
    case Run(t, ok) =>
      if t !in s.threads then None
      else match s.threads[t]
        case Wants(k) => GateAction(s.gate, t, k, ok)
        case Release(_) => Some(DoDrop(t))
        case Releasing(_) => Some(DoFree(t))
        case CloseRelease(w, _) => Some(DoDrop(w))
        case CloseReleasing(w, _) => Some(DoFree(w))
        case _ => None
  }

  /** A move acts on the gate through that one action. */
  lemma GateMoves(s: Server, m: Move, s': Server)
    requires ServerOk(s) && Enabled(s, m) && s' == Step(s, m)
    ensures var a := ActionOf(s, m);
      if a.Some? then Can(s.gate, a.value) && s'.gate == Do(s.gate, a.value) else s'.gate == s.gate
  {
    if m.Run? {
      assert TicketOk(s.gate, m.t, s.threads[m.t]);
      if s.threads[m.t].Wants? && ActionOf(s, m).Some? {
        GateActionTicket(s.gate, m.t, s.threads[m.t].kind, m.ok, ActionOf(s, m).value, s'.gate);
      } else if OffGate(s.threads[m.t]) {
        OffGateLeads(s, m.t, m.ok, s');
      }
    }
  }

  /** Tickets never go back, and stop holding only by their release. */
  lemma TicketAdvances(s: Server, m: Move, s': Server, b: Tid)
    requires ServerOk(s) && Enabled(s, m) && s' == Step(s, m) && b in s.gate.tickets
    ensures b in s'.gate.tickets
    ensures var p, p' := s.gate.tickets[b].phase, s'.gate.tickets[b].phase;
      p' == p || (Progress(p) < Progress(p') && (p.Held? ==> p' == Half && ActionOf(s, m) == Some(DoDrop(b))))
  {
    GateMoves(s, m, s');
    if ActionOf(s, m).Some? {
      PhasesAdvance(s.gate, ActionOf(s, m).value, b);
    }
  }

  lemma {:induction false} TicketsAdvance(x: Trace, i: nat, j: nat, b: Tid)
    requires Runs(x) && i <= j < |x.states| && b in x.states[i].gate.tickets
    ensures b in x.states[j].gate.tickets
    ensures var p, p' := x.states[i].gate.tickets[b].phase, x.states[j].gate.tickets[b].phase;
      p' == p || Progress(p) < Progress(p')
    ensures x.states[i].gate.tickets[b].phase.Held? && !x.states[j].gate.tickets[b].phase.Held? ==>
      x.states[j].gate.tickets[b].phase in {Half, Spent}
    decreases j - i
  {
    if i < j {
      TicketsAdvance(x, i, j - 1, b);
      AdvancesAt(x, j - 1, b);
    }
  }

  // ---- One move of an execution ----

  lemma AdvancesAt(x: Trace, k: nat, b: Tid)
    requires Runs(x) && k < |x.moves| && b in x.states[k].gate.tickets
    ensures b in x.states[k + 1].gate.tickets
    ensures var p, p' := x.states[k].gate.tickets[b].phase, x.states[k + 1].gate.tickets[b].phase;
      p' == p || (Progress(p) < Progress(p') && (p.Held? ==> p' == Half && ActionOf(x.states[k], x.moves[k]) == Some(DoDrop(b))))
  {
    AlwaysOk(x, k);
    assert StepsAt(x, k);
    TicketAdvances(x.states[k], x.moves[k], x.states[k + 1], b);
  }

  lemma DrainingAt(x: Trace, k: nat)
    requires Runs(x) && k < |x.moves| && x.states[k].gate.draining && x.states[k].gate.active == 0
    ensures x.states[k + 1].gate.draining && x.states[k + 1].gate.active == 0
  {
    AlwaysOk(x, k);
    assert StepsAt(x, k);
    GateMoves(x.states[k], x.moves[k], x.states[k + 1]);
    StaysDrained(x.states[k].gate, ActionOf(x.states[k], x.moves[k]), x.states[k + 1].gate);
  }

  lemma StaysDrained(g: Gate, a: Option<Action>, g': Gate)
    requires GateOk(g) && g.draining && g.active == 0
    requires if a.Some? then Can(g, a.value) && g' == Do(g, a.value) else g' == g
    ensures g'.draining && g'.active == 0
  {
  }

  lemma GenerationAt(x: Trace, k: nat)
    requires Runs(x) && k < |x.moves|
    ensures x.states[k].index.gen <= x.states[k + 1].index.gen
  {
    assert StepsAt(x, k);
    StepGeneration(x.states[k], x.moves[k], x.states[k + 1]);
  }

  lemma StepGeneration(s: Server, m: Move, s': Server)
    requires Enabled(s, m) && s' == Step(s, m)
    ensures s.index.gen <= s'.index.gen
  {
    if m.Run? && s.threads[m.t].Rebuild? {
      assert s' == RebuildStretch(s, m.t, s.threads[m.t].step, m.ok);
    }
  }

  lemma RepliedAt(x: Trace, k: nat, b: Tid)
    requires Runs(x) && k < |x.moves| && b in x.states[k].threads && x.states[k].threads[b].Replied?
    ensures b in x.states[k + 1].threads && x.states[k + 1].threads[b].Replied?
  {
    assert StepsAt(x, k);
    OthersStay(x.states[k], x.moves[k], x.states[k + 1], b);
  }

  // ---- Freeze windows ----

  lemma {:induction false} RepliedStays(x: Trace, i: nat, j: nat, b: Tid)
    requires Runs(x) && i <= j < |x.states| && b in x.states[i].threads && x.states[i].threads[b].Replied?
    ensures b in x.states[j].threads && x.states[j].threads[b].Replied?
    decreases j - i
  {
    if i < j {
      RepliedStays(x, i, j - 1, b);
      RepliedAt(x, j - 1, b);
    }
  }

  /** A move changes the program point of its own thread only. */
  lemma OthersStay(s: Server, m: Move, s': Server, b: Tid)
    requires Enabled(s, m) && s' == Step(s, m) && b in s.threads
    requires !(m.Run? && m.t == b)
    ensures b in s'.threads && s'.threads[b] == s.threads[b]
  {
  }

  /** A replied begin whose ticket is not over is the open window, or about to be closed. */
  ghost predicate WindowHeld(s: Server, b: Tid) {
    At(s.gate, b, Held) && s.gate.owner == Some(b)
  }

  /** Running thread t changes nobody else's program point and starts no thread. */
  lemma RunIsLocal(s: Server, t: Tid, ok: bool, s': Server, b: Tid)
    requires CanRun(s, t, ok) && s' == RunStretch(s, t, ok) && b != t
    ensures (b in s'.threads <==> b in s.threads) && (b in s.threads ==> s'.threads[b] == s.threads[b])
  {
  }

  /** The move that replies finds the begin with the gate. */
  lemma BecomesReplied(s: Server, m: Move, s': Server, b: Tid)
    requires ServerOk(s) && Enabled(s, m) && s' == Step(s, m)
    requires b in s'.threads && s'.threads[b].Replied? && !(b in s.threads && s.threads[b].Replied?)
    ensures At(s'.gate, b, Held)
  {
    if m.Run? {
      if m.t != b {
        RunIsLocal(s, m.t, m.ok, s', b);
      } else {
        assert TicketOk(s.gate, b, s.threads[b]);
        OnlyOpenReplies(s, b, m.ok, s');
      }
    }
  }

  lemma OnlyOpenReplies(s: Server, t: Tid, ok: bool, s': Server)
    requires CanRun(s, t, ok) && s' == RunStretch(s, t, ok) && t in s'.threads
    ensures s'.threads[t].Replied? ==> s.threads[t].FreezeOpen? && s'.gate == s.gate
  {
    var pc := s.threads[t];
    if pc.Wants? {
      assert s' == GateStretch(s, t, pc.kind, ok);
    } else if pc.Release? || pc.Releasing? || Closes(pc) {
      assert s' == ReleaseStretch(s, t, pc);
    }
  }

  lemma RepliedFrom(x: Trace, k: nat, b: Tid)
    requires Runs(x) && k < |x.moves| && b in x.states[k + 1].threads && x.states[k + 1].threads[b].Replied?
    ensures (b in x.states[k].threads && x.states[k].threads[b].Replied?) || At(x.states[k + 1].gate, b, Held)
  {
    AlwaysOk(x, k);
    assert StepsAt(x, k);
    if !(b in x.states[k].threads && x.states[k].threads[b].Replied?) {
      BecomesReplied(x.states[k], x.moves[k], x.states[k + 1], b);
    }
  }

  /** A window that replied has the gate or had it. */
  lemma {:induction false} RepliedHeld(x: Trace, i: nat, b: Tid)
    requires Runs(x) && i < |x.states| && b in x.states[i].threads && x.states[i].threads[b].Replied?
    ensures b in x.states[i].gate.tickets && x.states[i].gate.tickets[b].phase in {Held, Half, Spent}
  {
    if i > 0 {
      RepliedFrom(x, i - 1, b);
      if b in x.states[i - 1].threads && x.states[i - 1].threads[b].Replied? {
        RepliedHeld(x, i - 1, b);
        AdvancesAt(x, i - 1, b);
      }
    }
  }

  lemma HoldersAreOwner(s: Server, b: Tid)
    requires ServerOk(s) && At(s.gate, b, Held)
    ensures WindowHeld(s, b) && s.gate.active == 1
    ensures forall u | u in s.threads && Holds(s.threads[u]) :: u == b
  {
    forall u | u in s.threads && Holds(s.threads[u]) ensures u == b {
      assert TicketOk(s.gate, u, s.threads[u]);
    }
  }

  /** Main result: when an end (or a watchdog) has taken window b's release, the window has had the gate,
      alone, in every state since its begin replied. */
  lemma EndMeansHeldThroughout(x: Trace, i: nat, j: nat, k: nat, b: Tid, t: Tid)
    requires Runs(x) && i <= k <= j < |x.states|
    requires b in x.states[i].threads && x.states[i].threads[b].Replied?
    requires t in x.states[j].threads && x.states[j].threads[t].CloseRelease? && x.states[j].threads[t].window == b
    ensures WindowHeld(x.states[k], b) && x.states[k].gate.active == 1
    ensures forall u | u in x.states[k].threads && Holds(x.states[k].threads[u]) :: u == b
  {
    AlwaysOk(x, j);
    AlwaysOk(x, k);
    RepliedHeld(x, i, b);
    TicketsAdvance(x, i, k, b);
    TicketsAdvance(x, k, j, b);
    assert WindowOk(x.states[j].gate, x.states[j].threads[t]);
    HoldersAreOwner(x.states[k], b);
  }

  /** Move i is the one in which the release of window b ends its hold. */
  predicate Releases(x: Trace, i: nat, b: Tid)
    requires i < |x.moves| && |x.states| == |x.moves| + 1
  {
    At(x.states[i].gate, b, Held) && !At(x.states[i + 1].gate, b, Held)
  }

  /** A window's release takes effect once, by the thread that cleared the window, and has when end replies. */
  lemma ReleasedOnce(x: Trace, i: nat, j: nat, b: Tid)
    requires Runs(x) && i < |x.moves| && j < |x.moves| && Releases(x, i, b) && Releases(x, j, b)
    ensures i == j && ActionOf(x.states[i], x.moves[i]) == Some(DoDrop(b))
  {
    AdvancesAt(x, i, b);
    AdvancesAt(x, j, b);
    if i < j {
      TicketsAdvance(x, i + 1, j, b);
    } else if j < i {
      TicketsAdvance(x, j + 1, i, b);
    }
  }

  /** Once end has replied with success the window's hold is over. */
  lemma {:induction false} ClosedIsReleased(x: Trace, j: nat, t: Tid)
    requires Runs(x) && j < |x.states|
    requires t in x.states[j].threads && x.states[j].threads[t].Closed?
    ensures var b := x.states[j].threads[t].window; At(x.states[j].gate, b, Spent)
  {
    AlwaysOk(x, j);
    assert WindowOk(x.states[j].gate, x.states[j].threads[t]);
  }

  /** A watchdog, or an end, whose token is not the open window's changes nothing but itself. */
  lemma StaleTokenDoesNothing(s: Server, t: Tid, ok: bool)
    requires ServerOk(s) && t in s.threads && s.threads[t].Closing?
    requires s.threads[t].token.None? || s.threads[t].token != s.freeze.token
    ensures CanRun(s, t, ok) && Step(s, Run(t, ok)) == s.(threads := s.threads[t := Finished])
  {
  }

  /** Whatever a closing thread does, it only ever moves the ticket of the window whose token it had. */
  lemma CloserTouchesItsWindowOnly(s: Server, t: Tid, ok: bool, s': Server, b: Tid)
    requires ServerOk(s) && CanRun(s, t, ok) && s' == Step(s, Run(t, ok))
    requires s.threads[t].Closing? || Closes(s.threads[t])
    requires b in s.gate.tickets && s'.gate.tickets[b] != s.gate.tickets[b]
    ensures Closes(s.threads[t]) && s.threads[t].window == b && s.freeze.token != Some(b)
  {
    assert TicketOk(s.gate, t, s.threads[t]);
    if Closes(s.threads[t]) {
      assert WindowOk(s.gate, s.threads[t]);
      OnlySubjectMoves(s.gate, ReleaseAction(t, s.threads[t]));
    }
  }

  /** The release a closing thread gets is that of its own token. */
  lemma ClearedIsOwn(s: Server, t: Tid, ok: bool, s': Server)
    requires ServerOk(s) && CanRun(s, t, ok) && s.threads[t].Closing? && s' == Step(s, Run(t, ok))
    ensures Closes(s'.threads[t]) <==> s.threads[t].token.Some? && s.threads[t].token == s.freeze.token
    ensures Closes(s'.threads[t]) ==> Some(s'.threads[t].window) == s.threads[t].token && !s'.freeze.active
  {
  }

  /** After a drain with nothing active, no thread is ever at work under the gate again. */
  lemma {:induction false} DrainedForGood(x: Trace, i: nat, j: nat)
    requires Runs(x) && i <= j < |x.states| && x.states[i].gate.draining && x.states[i].gate.active == 0
    ensures x.states[j].gate.draining && x.states[j].gate.active == 0
    ensures forall u | u in x.states[j].threads :: !Holds(x.states[j].threads[u])
    decreases j - i
  {
    if i < j {
      DrainedForGood(x, i, j - 1);
      DrainingAt(x, j - 1);
    }
    AlwaysOk(x, j);
    IdleMeansNoWork(x.states[j]);
  }

  lemma IdleMeansNoWork(s: Server)
    requires ServerOk(s) && s.gate.active == 0
    ensures forall u | u in s.threads :: !Holds(s.threads[u])
  {
    forall u | u in s.threads ensures !Holds(s.threads[u]) {
      assert TicketOk(s.gate, u, s.threads[u]);
    }
  }

  // ---- The index memo ----

  /** The generation is odd exactly while a rebuild is between its bumps. */
  lemma OddMeansRebuilding(x: Trace, k: nat)
    requires Runs(x) && k < |x.states|
    ensures x.states[k].index.gen % 2 == 1 <==> exists t | t in x.states[k].threads :: MidRebuild(x.states[k].threads[t])
  {
    AlwaysOk(x, k);
    var s := x.states[k];
    forall t | t in s.threads && MidRebuild(s.threads[t]) ensures s.index.gen % 2 == 1 {
      assert KnowsOk(s.index, s.threads[t]);
    }
  }

  lemma {:induction false} GenerationGrows(x: Trace, i: nat, j: nat)
    requires Runs(x) && i <= j < |x.states|
    ensures x.states[i].index.gen <= x.states[j].index.gen
    decreases j - i
  {
    if i < j {
      GenerationGrows(x, i, j - 1);
      GenerationAt(x, j - 1);
    }
  }

  /** Main result: when the ungated worker's check passes on the generation it loaded in state i, no
      rebuild was between its bumps in any state since, and the index was complete when it scanned and
      still is at the check. */
  lemma PassMeansNoOverlap(x: Trace, i: nat, k: nat, j: nat, t: Tid)
    requires Runs(x) && i <= k <= j < |x.states|
    requires t in x.states[j].threads && x.states[j].threads[t] == Judge(x.states[i].index.gen, false)
    requires x.states[i].index.gen % 2 == 0 && x.states[j].index.gen == x.states[i].index.gen
    ensures forall u | u in x.states[k].threads :: !MidRebuild(x.states[k].threads[u])
    ensures x.states[j].index.complete
  {
    GenerationGrows(x, i, k);
    GenerationGrows(x, k, j);
    OddMeansRebuilding(x, k);
    AlwaysOk(x, j);
    assert KnowsOk(x.states[j].index, x.states[j].threads[t]);
  }

  /** The gated path needs no check: no move of anyone else makes the index incomplete while the
      worker is between its observation under the gate and its store. */
  lemma GatedStoreIsRight(s: Server, m: Move, s': Server, t: Tid)
    requires ServerOk(s) && Enabled(s, m) && s' == Step(s, m) && t in s.threads
    requires s.threads[t].GatedMemoize? && s.index.complete
    ensures s'.index.complete
  {
    AloneAtWork(s, t);
  }

  // ---- When a set flag means a complete index ----

  /** The program point a move runs from. */
  function PointOf(s: Server, m: Move): Pc {
    if m.Run? && m.t in s.threads then s.threads[m.t] else Finished
  }

  function PointAt(x: Trace, k: nat): Pc
    requires k < |x.moves| && |x.states| == |x.moves| + 1
  {
    PointOf(x.states[k], x.moves[k])
  }

  predicate EmptiesIndex(pc: Pc, m: Move) {
    m.Run? && m.ok && pc == Rebuild(2)
  }

  predicate FillsIndex(pc: Pc, m: Move) {
    m.Run? && m.ok && (pc == Rebuild(3) || pc.Backfill?)
  }

  predicate SetsFlag(pc: Pc) {
    pc.Memoize? || pc.GatedMemoize? || pc == Rebuild(4)
  }

  /** What a move does to the index and to the flag. */
  lemma MemoMoves(s: Server, m: Move, s': Server, pc: Pc)
    requires ServerOk(s) && Enabled(s, m) && s' == Step(s, m) && pc == PointOf(s, m)
    ensures s'.index.complete == if EmptiesIndex(pc, m) then false else FillsIndex(pc, m) || s.index.complete
    ensures s'.index.flag == if pc == Rebuild(1) then false else SetsFlag(pc) || s.index.flag
  {
    if m.Run? {
      if pc.Rebuild? {
        assert KnowsOk(s.index, pc);
        RebuildMoves(s, m.t, pc, m.ok, s');
      } else if OffGate(pc) && (Works(pc) || pc.Trigger? || pc.Claim?) {
        WorkerMoves(s, m.t, pc, m.ok, s');
      } else {
        IndexStays(s, m.t, m.ok, s');
      }
    }
  }

  lemma RebuildMoves(s: Server, t: Tid, pc: Pc, ok: bool, s': Server)
    requires pc.Rebuild? && pc.step <= 5 && s' == RebuildStretch(s, t, pc.step, ok)
    ensures s'.index.complete == if ok && pc.step == 2 then false else (ok && pc.step == 3) || s.index.complete
    ensures s'.index.flag == if pc.step == 1 then false else pc.step == 4 || s.index.flag
  {
  }

  lemma WorkerMoves(s: Server, t: Tid, pc: Pc, ok: bool, s': Server)
    requires t in s.threads && (Works(pc) || pc.Trigger? || pc.Claim?) && s' == WorkerStretch(s, t, pc, ok)
    ensures s'.index.complete == ((ok && pc.Backfill?) || s.index.complete)
    ensures s'.index.flag == (pc.Memoize? || pc.GatedMemoize? || s.index.flag)
  {
  }

  lemma IndexStays(s: Server, t: Tid, ok: bool, s': Server)
    requires CanRun(s, t, ok) && s' == RunStretch(s, t, ok) && !s.threads[t].Rebuild?
    requires var pc := s.threads[t]; !(OffGate(pc) && (Works(pc) || pc.Trigger? || pc.Claim?))
    ensures s'.index == s.index
  {
  }

  /** Step k is an ungated worker's store. */
  predicate Stores(x: Trace, k: nat)
    requires |x.states| == |x.moves| + 1
  {
    k < |x.moves| && PointAt(x, k).Memoize?
  }

  /** Step k is a rebuild's successful clear. */
  predicate Empties(x: Trace, k: nat)
    requires |x.states| == |x.moves| + 1
  {
    k < |x.moves| && EmptiesIndex(PointAt(x, k), x.moves[k])
  }

  predicate Fills(x: Trace, k: nat)
    requires |x.states| == |x.moves| + 1
  {
    k < |x.moves| && FillsIndex(PointAt(x, k), x.moves[k])
  }

  /** Step c cleared the index, and nothing has filled it again before step k. */
  predicate UnfilledSince(x: Trace, c: nat, k: nat)
    requires |x.states| == |x.moves| + 1
  {
    c < k && Empties(x, c) && forall p | c < p < k :: !Fills(x, p)
  }

  /** At step k the rebuild that clears in step c has forgotten the flag, and has still to clear. */
  predicate ForgotBefore(x: Trace, k: nat, c: nat)
    requires |x.states| == |x.moves| + 1
  {
    k < c && Empties(x, c) && k < |x.states|
    && x.moves[c].t in x.states[k].threads && x.states[k].threads[x.moves[c].t] == Rebuild(2)
  }

  /** Step k lies between a rebuild's forget and its next successful fill. */
  predicate InGap(x: Trace, k: nat)
    requires |x.states| == |x.moves| + 1
  {
    exists c | 0 <= c < |x.moves| :: UnfilledSince(x, c, k) || ForgotBefore(x, k, c)
  }

  lemma MemoMovesAt(x: Trace, k: nat)
    requires Runs(x) && k < |x.moves|
    ensures x.states[k + 1].index.complete == if Empties(x, k) then false else Fills(x, k) || x.states[k].index.complete
    ensures x.states[k + 1].index.flag ==
      if PointAt(x, k) == Rebuild(1) then false else SetsFlag(PointAt(x, k)) || x.states[k].index.flag
  {
    AlwaysOk(x, k);
    assert StepsAt(x, k);
    MemoMoves(x.states[k], x.moves[k], x.states[k + 1], PointAt(x, k));
  }

  lemma {:induction false} StaysEmpty(x: Trace, c: nat, k: nat)
    requires Runs(x) && k < |x.states| && UnfilledSince(x, c, k)
    ensures !x.states[k].index.complete
    decreases k
  {
    MemoMovesAt(x, k - 1);
    if c < k - 1 {
      StaysEmpty(x, c, k - 1);
    }
  }

  lemma {:induction false} LastEmptied(x: Trace, j: nat, k: nat) returns (c: nat)
    requires Runs(x) && j <= k < |x.states| && x.states[j].index.complete && !x.states[k].index.complete
    ensures UnfilledSince(x, c, k)
    decreases k
  {
    MemoMovesAt(x, k - 1);
    if x.states[k - 1].index.complete {
      c := k - 1;
    } else {
      c := LastEmptied(x, j, k - 1);
    }
  }

  /** A worker about to store saw the index complete. */
  lemma {:induction false} SawComplete(x: Trace, k: nat, t: Tid) returns (j: nat)
    requires Runs(x) && k < |x.states| && t in x.states[k].threads && x.states[k].threads[t].Memoize?
    ensures j <= k && x.states[j].index.complete
    decreases k
  {
    var s := x.states[k - 1];
    if t in s.threads && s.threads[t] == x.states[k].threads[t] {
      j := SawComplete(x, k - 1, t);
    } else {
      EntersMemoizeAt(x, k - 1, t);
      j := k - 1;
    }
  }

  lemma EntersMemoizeAt(x: Trace, k: nat, t: Tid)
    requires Runs(x) && k < |x.moves| && t in x.states[k + 1].threads && x.states[k + 1].threads[t].Memoize?
    requires !(t in x.states[k].threads && x.states[k].threads[t] == x.states[k + 1].threads[t])
    ensures x.states[k].index.complete
  {
    AlwaysOk(x, k);
    assert StepsAt(x, k);
    EntersMemoize(x.states[k], x.moves[k], x.states[k + 1], t);
  }

  lemma EntersMemoize(s: Server, m: Move, s': Server, t: Tid)
    requires ServerOk(s) && Enabled(s, m) && s' == Step(s, m)
    requires t in s'.threads && s'.threads[t].Memoize? && !(t in s.threads && s.threads[t] == s'.threads[t])
    ensures s.index.complete
  {
    EntersByRun(s, m, s', t);
    RunEnters(s, t, m.ok, s');
    assert KnowsOk(s.index, s.threads[t]);
  }

  /** A program point at which no thread starts is reached by the thread's own stretch. */
  lemma EntersByRun(s: Server, m: Move, s': Server, t: Tid)
    requires Enabled(s, m) && s' == Step(s, m) && t in s'.threads && (s'.threads[t].Memoize? || s'.threads[t] == Rebuild(2))
    requires !(t in s.threads && s.threads[t] == s'.threads[t])
    ensures m.Run? && m.t == t && t in s.threads
  {
    if m.Run? && m.t != t {
      RunIsLocal(s, m.t, m.ok, s', t);
    }
  }

  lemma RunEnters(s: Server, t: Tid, ok: bool, s': Server)
    requires CanRun(s, t, ok) && s' == RunStretch(s, t, ok) && t in s'.threads && s'.threads[t] != s.threads[t]
    ensures s'.threads[t].Memoize? ==> s.threads[t] == Judge(s'.threads[t].gen, false) && Passes(s.index, s'.threads[t].gen)
    ensures s'.threads[t] == Rebuild(2) ==> s.threads[t] == Rebuild(1)
  {
    var pc := s.threads[t];
    if pc.Release? || pc.Releasing? || Closes(pc) {
    } else if pc.Wants? {
    } else {
    }
  }

  /** At a store the index is incomplete exactly when it was cleared and not filled again. */
  lemma IncompleteExactly(x: Trace, k: nat)
    requires Runs(x) && Stores(x, k)
    ensures !x.states[k].index.complete <==> exists c | 0 <= c < |x.moves| :: UnfilledSince(x, c, k)
  {
    if !x.states[k].index.complete {
      var j := SawComplete(x, k, x.moves[k].t);
      var c := LastEmptied(x, j, k);
    } else if c :| 0 <= c < |x.moves| && UnfilledSince(x, c, k) {
      StaysEmpty(x, c, k);
    }
  }

  /** A rebuild that has forgotten stands there, or is past its clear for good. */
  predicate FromForget(pc: Pc) {
    (pc.Rebuild? && pc.step >= 2) || pc == Release(false) || pc == Releasing(false) || pc.Finished?
  }

  lemma ForgetAdvances(s: Server, m: Move, s': Server, r: Tid)
    requires ServerOk(s) && Enabled(s, m) && s' == Step(s, m) && r in s.threads && FromForget(s.threads[r])
    ensures r in s'.threads && FromForget(s'.threads[r])
    ensures s'.threads[r] == Rebuild(2) <==> s.threads[r] == Rebuild(2) && !(m.Run? && m.t == r)
  {
    assert KnowsOk(s.index, s.threads[r]);
    if m.Run? && m.t != r {
      OthersStay(s, m, s', r);
    }
  }

  lemma OnlyRebuilder(s: Server, r: Tid, m: Move)
    requires ServerOk(s) && Enabled(s, m) && r in s.threads && s.threads[r] == Rebuild(2)
    ensures Holds(PointOf(s, m)) ==> m.t == r
  {
    AloneAtWork(s, r);
  }

  lemma ForgetAdvancesAt(x: Trace, k: nat, r: Tid)
    requires Runs(x) && k < |x.moves| && r in x.states[k].threads && FromForget(x.states[k].threads[r])
    ensures r in x.states[k + 1].threads && FromForget(x.states[k + 1].threads[r])
    ensures x.states[k + 1].threads[r] == Rebuild(2) <==>
            x.states[k].threads[r] == Rebuild(2) && !(x.moves[k].Run? && x.moves[k].t == r)
    ensures x.states[k].threads[r] == Rebuild(2) && Holds(PointAt(x, k)) ==> x.moves[k].t == r
  {
    AlwaysOk(x, k);
    assert StepsAt(x, k);
    ForgetAdvances(x.states[k], x.moves[k], x.states[k + 1], r);
    if x.states[k].threads[r] == Rebuild(2) {
      OnlyRebuilder(x.states[k], r, x.moves[k]);
    }
  }

  lemma {:induction false} FromForgetOn(x: Trace, k: nat, i: nat, r: Tid)
    requires Runs(x) && k <= i < |x.states| && r in x.states[k].threads && x.states[k].threads[r] == Rebuild(2)
    ensures r in x.states[i].threads && FromForget(x.states[i].threads[r])
    decreases i
  {
    if k < i {
      FromForgetOn(x, k, i - 1, r);
      ForgetAdvancesAt(x, i - 1, r);
    }
  }

  /** A flag stored after a rebuild forgot stays set until that rebuild clears. */
  lemma {:induction false} FlagStays(x: Trace, k: nat, c: nat, r: Tid)
    requires Runs(x) && Stores(x, k) && k < c < |x.states|
    requires r in x.states[k].threads && x.states[k].threads[r] == Rebuild(2)
    requires r in x.states[c].threads && x.states[c].threads[r] == Rebuild(2)
    ensures x.states[c].index.flag
    decreases c
  {
    MemoMovesAt(x, c - 1);
    FromForgetOn(x, k, c - 1, r);
    ForgetAdvancesAt(x, c - 1, r);
    if k < c - 1 {
      FlagStays(x, k, c - 1, r);
    }
  }

  /** A store in the gap leaves the flag set over an incomplete index, at once or when the rebuild clears. */
  lemma GapBreaks(x: Trace, k: nat) returns (i: nat)
    requires Runs(x) && Stores(x, k) && InGap(x, k)
    ensures i < |x.states| && x.states[i].index.flag && !x.states[i].index.complete
  {
    var c :| 0 <= c < |x.moves| && (UnfilledSince(x, c, k) || ForgotBefore(x, k, c));
    if UnfilledSince(x, c, k) {
      StaysEmpty(x, c, k);
      MemoMovesAt(x, k);
      i := k + 1;
    } else {
      FlagStays(x, k, c, x.moves[c].t);
      MemoMovesAt(x, c);
      i := c + 1;
    }
  }

  /** Where a flag is set while a rebuild has yet to clear, it was stored since that rebuild forgot. */
  ghost predicate StoredSince(x: Trace, i: nat)
    requires |x.states| == |x.moves| + 1 && i < |x.states|
  {
    x.states[i].index.flag ==>
      forall r | r in x.states[i].threads && x.states[i].threads[r] == Rebuild(2) :: StoredAfterForget(x, i, r)
  }

  ghost predicate StoredAfterForget(x: Trace, i: nat, r: Tid)
    requires |x.states| == |x.moves| + 1 && i < |x.states|
  {
    exists k | 0 <= k < i :: Stores(x, k) && r in x.states[k].threads && x.states[k].threads[r] == Rebuild(2)
  }

  lemma EntersForgot(s: Server, m: Move, s': Server, r: Tid)
    requires ServerOk(s) && Enabled(s, m) && s' == Step(s, m)
    requires r in s'.threads && s'.threads[r] == Rebuild(2) && !(r in s.threads && s.threads[r] == Rebuild(2))
    ensures PointOf(s, m) == Rebuild(1)
  {
    EntersByRun(s, m, s', r);
    RunEnters(s, r, m.ok, s');
  }

  lemma {:induction false} FlagIsAccounted(x: Trace, i: nat)
    requires Runs(x) && i < |x.states|
    ensures StoredSince(x, i)
    decreases i
  {
    if i > 0 && x.states[i].index.flag {
      FlagIsAccounted(x, i - 1);
      MemoMovesAt(x, i - 1);
      forall r | r in x.states[i].threads && x.states[i].threads[r] == Rebuild(2)
        ensures StoredAfterForget(x, i, r)
      {
        if r in x.states[i - 1].threads && x.states[i - 1].threads[r] == Rebuild(2) {
          ForgetAdvancesAt(x, i - 1, r);
          if x.states[i - 1].index.flag {
            assert StoredAfterForget(x, i - 1, r);
          } else {
            assert Stores(x, i - 1);
          }
        } else {
          EntersForgotAt(x, i - 1, r);
        }
      }
    }
  }

  lemma EntersForgotAt(x: Trace, k: nat, r: Tid)
    requires Runs(x) && k < |x.moves| && r in x.states[k + 1].threads && x.states[k + 1].threads[r] == Rebuild(2)
    requires !(r in x.states[k].threads && x.states[k].threads[r] == Rebuild(2))
    ensures PointAt(x, k) == Rebuild(1)
  {
    AlwaysOk(x, k);
    assert StepsAt(x, k);
    EntersForgot(x.states[k], x.moves[k], x.states[k + 1], r);
  }

  /** A store under the gate, of a worker or of a rebuild, finds the index complete. */
  lemma HolderSawComplete(x: Trace, k: nat)
    requires Runs(x) && k < |x.moves| && (PointAt(x, k).GatedMemoize? || PointAt(x, k) == Rebuild(4))
    ensures x.states[k].index.complete
  {
    AlwaysOk(x, k);
    assert BuildsOk(x.states[k].index, PointAt(x, k));
  }

  /** A clear that finds the flag set comes after a store in the gap. */
  lemma StoreBeforeClear(x: Trace, c: nat) returns (k: nat)
    requires Runs(x) && Empties(x, c) && x.states[c].index.flag
    ensures Stores(x, k) && InGap(x, k)
  {
    FlagIsAccounted(x, c);
    var r := x.moves[c].t;
    assert StoredAfterForget(x, c, r);
    k :| 0 <= k < c && Stores(x, k) && r in x.states[k].threads && x.states[k].threads[r] == Rebuild(2);
    assert ForgotBefore(x, k, c);
  }

  lemma {:induction false} SoundOutsideGaps(x: Trace, i: nat)
    requires Runs(x) && i < |x.states|
    requires forall k | 0 <= k < |x.moves| && Stores(x, k) :: !InGap(x, k)
    ensures x.states[i].index.flag ==> x.states[i].index.complete
    decreases i
  {
    if i > 0 && x.states[i].index.flag {
      SoundOutsideGaps(x, i - 1);
      MemoMovesAt(x, i - 1);
      if Empties(x, i - 1) {
        var k := StoreBeforeClear(x, i - 1);
      } else if Stores(x, i - 1) {
        IncompleteExactly(x, i - 1);
      } else if SetsFlag(PointAt(x, i - 1)) {
        HolderSawComplete(x, i - 1);
      }
    }
  }

  /** Main result: in an execution a set flag always means a complete index exactly when no ungated store
      falls between a rebuild's forget and its next successful fill. */
  lemma FlagSoundExactly(x: Trace)
    requires Runs(x)
    ensures (forall i | 0 <= i < |x.states| :: x.states[i].index.flag ==> x.states[i].index.complete) <==>
            (forall k | 0 <= k < |x.moves| && Stores(x, k) :: !InGap(x, k))
  {
    if forall k | 0 <= k < |x.moves| && Stores(x, k) :: !InGap(x, k) {
      forall i | 0 <= i < |x.states|
        ensures x.states[i].index.flag ==> x.states[i].index.complete
      {
        SoundOutsideGaps(x, i);
      }
    } else {
      var k :| 0 <= k < |x.moves| && Stores(x, k) && InGap(x, k);
      var i := GapBreaks(x, k);
    }
  }

  /** A store that finds the generation its own check passed on is in no gap. */
  lemma UnmovedIsOutside(x: Trace, k: nat)
    requires Runs(x) && Stores(x, k) && x.states[k].index.gen == PointAt(x, k).gen
    ensures !InGap(x, k)
  {
    var s := x.states[k];
    AlwaysOk(x, k);
    assert KnowsOk(s.index, s.threads[x.moves[k].t]);
    IncompleteExactly(x, k);
    forall r | r in s.threads ensures s.threads[r] != Rebuild(2) {
      assert KnowsOk(s.index, s.threads[r]);
    }
  }

  /** So the flag is right throughout if no rebuild starts between a worker's check and its store. */
  lemma FlagSoundWhenUnmoved(x: Trace, i: nat)
    requires Runs(x) && i < |x.states|
    requires forall k | 0 <= k < |x.moves| && Stores(x, k) :: x.states[k].index.gen == PointAt(x, k).gen
    ensures x.states[i].index.flag ==> x.states[i].index.complete
  {
    forall k | 0 <= k < |x.moves| && Stores(x, k) ensures !InGap(x, k) {
      UnmovedIsOutside(x, k);
    }
    SoundOutsideGaps(x, i);
  }

  // ---- The window between check and store is real ----

  function Last(x: Trace): Server
    requires |x.states| > 0
  {
    x.states[|x.states| - 1]
  }

  function Extended(x: Trace, m: Move): Trace
    requires |x.states| > 0 && Enabled(Last(x), m)
  {
    Trace(x.states + [Step(Last(x), m)], x.moves + [m])
  }

  lemma ExtendedRuns(x: Trace, m: Move, s: Server, s': Server, x': Trace)
    requires Runs(x) && Last(x) == s && Enabled(s, m) && s' == Step(s, m) && x' == Extended(x, m)
    ensures Runs(x') && Last(x') == s'
  {
    forall k | 0 <= k < |x'.moves| ensures StepsAt(x', k) {
      if k < |x.moves| {
        assert StepsAt(x, k);
        assert x'.states[k] == x.states[k] && x'.states[k + 1] == x.states[k + 1] && x'.moves[k] == x.moves[k];
      }
    }
  }

  /** A worker on a quiet daemon with a complete index starts, */
  lemma WorkerStarts(start: Server) returns (x: Trace)
    requires Initial(start) && start.index.complete
    ensures Runs(x)
    ensures Last(x) == start.(index := Index(0, false, true, true, Some(1)), threads := map[1 := Load])
  {
    var s1 := start.(threads := map[1 := Trigger]);
    var s2 := start.(index := Index(0, false, true, true, Some(1)), threads := map[1 := Load]);
    var x0 := Trace([start], []);
    assert s1.threads == start.threads[1 := Trigger];
    var x1 := Extended(x0, Spawn(1, Trigger));
    ExtendedRuns(x0, Spawn(1, Trigger), start, s1, x1);
    assert s2.threads == s1.threads[1 := Load];
    var sc := start.(threads := map[1 := Claim]);
    assert sc.threads == s1.threads[1 := Claim];
    var xc := Extended(x1, Run(1, true));
    ExtendedRuns(x1, Run(1, true), s1, sc, xc);
    x := Extended(xc, Run(1, true));
    ExtendedRuns(xc, Run(1, true), sc, s2, x);
  }

  /** and gets as far as its decision. */
  lemma WorkerDecides(x0: Trace, s: Server) returns (x: Trace)
    requires Runs(x0) && Last(x0) == s && s.threads == map[1 := Load]
    requires s.index.gen == 0 && s.index.complete
    ensures Runs(x) && Last(x) == s.(threads := map[1 := Memoize(0)])
  {
    var s1 := s.(threads := map[1 := Probe(0)]);
    var s2 := s.(threads := map[1 := Judge(0, false)]);
    var s3 := s.(threads := map[1 := Memoize(0)]);
    assert s1.threads == s.threads[1 := Probe(0)];
    var x1 := Extended(x0, Run(1, true));
    ExtendedRuns(x0, Run(1, true), s, s1, x1);
    assert s2.threads == s1.threads[1 := Judge(0, false)];
    var x2 := Extended(x1, Run(1, true));
    ExtendedRuns(x1, Run(1, true), s1, s2, x2);
    assert s3.threads == s2.threads[1 := Memoize(0)];
    x := Extended(x2, Run(1, true));
    ExtendedRuns(x2, Run(1, true), s2, s3, x);
  }

  function Pair(pc: Pc): map<Tid, Pc> {
    map[1 := Memoize(0), 2 := pc]
  }

  /** Meanwhile a rebuild queues, */
  lemma RebuildQueues(x0: Trace, s: Server) returns (x: Trace)
    requires Runs(x0) && Last(x0) == s && s.threads == map[1 := Memoize(0)] && s.gate == NEW_GATE
    ensures Runs(x)
    ensures Last(x) == s.(threads := Pair(Wants(Rebuilder)),
                          gate := Gate(true, false, 0, 1, map[2 := Ticket(Got, true)], Some(2), {2}))
  {
    var s1 := s.(threads := Pair(Wants(Rebuilder)));
    var g2 := Gate(false, false, 0, 1, map[2 := Ticket(Waiting, true)], None, {2});
    var g3 := Gate(true, false, 0, 1, map[2 := Ticket(Got, true)], Some(2), {2});
    assert s1.threads == s.threads[2 := Wants(Rebuilder)];
    var x1 := Extended(x0, Spawn(2, Wants(Rebuilder)));
    ExtendedRuns(x0, Spawn(2, Wants(Rebuilder)), s, s1, x1);
    assert Do(NEW_GATE, DoArrive(2, true)) == g2;
    var x2 := Extended(x1, Run(2, true));
    ExtendedRuns(x1, Run(2, true), s1, s1.(gate := g2), x2);
    assert Do(g2, DoTake(2)) == g3;
    x := Extended(x2, Run(2, true));
    ExtendedRuns(x2, Run(2, true), s1.(gate := g2), s1.(gate := g3), x);
  }

  /** gets the gate, */
  lemma RebuildEnters(x0: Trace, s: Server) returns (x: Trace)
    requires Runs(x0) && Last(x0) == s && s.threads == Pair(Wants(Rebuilder))
    requires s.gate == Gate(true, false, 0, 1, map[2 := Ticket(Got, true)], Some(2), {2})
    ensures Runs(x)
    ensures Last(x).threads == Pair(Rebuild(0)) && Last(x).index == s.index
  {
    var g4 := Gate(true, false, 1, 1, map[2 := Ticket(Held, true)], Some(2), {2});
    var g5 := Gate(true, false, 1, 0, map[2 := Ticket(Held, false)], Some(2), {});
    assert Do(s.gate, DoAdmit(2, true)) == g4;
    var x1 := Extended(x0, Run(2, true));
    ExtendedRuns(x0, Run(2, true), s, s.(gate := g4), x1);
    assert Do(g4, DoReturn(2)) == g5;
    var x2 := Extended(x1, Run(2, true));
    ExtendedRuns(x1, Run(2, true), s.(gate := g4), s.(gate := g5), x2);
    var s3 := s.(gate := g5, threads := Pair(Rebuild(0)));
    assert s3.threads == s.threads[2 := Rebuild(0)];
    x := Extended(x2, Run(2, true));
    ExtendedRuns(x2, Run(2, true), s.(gate := g5), s3, x);
  }

  /** forgets, */
  lemma RebuildForgets(x0: Trace, s: Server) returns (x: Trace)
    requires Runs(x0) && Last(x0) == s && s.threads == Pair(Rebuild(0))
    ensures Runs(x) && Last(x).threads == Pair(Rebuild(2))
  {
    var i1 := s.index.(gen := s.index.gen + 1);
    var s1 := s.(index := i1, threads := Pair(Rebuild(1)));
    var s2 := s1.(index := i1.(flag := false), threads := Pair(Rebuild(2)));
    assert s1.threads == s.threads[2 := Rebuild(1)];
    var x1 := Extended(x0, Run(2, true));
    ExtendedRuns(x0, Run(2, true), s, s1, x1);
    assert s2.threads == s1.threads[2 := Rebuild(2)];
    x := Extended(x1, Run(2, true));
    ExtendedRuns(x1, Run(2, true), s1, s2, x);
  }

  /** and clears, and then the worker stores what it decided before. */
  lemma StoreFollows(x0: Trace, s: Server) returns (x: Trace)
    requires Runs(x0) && Last(x0) == s && s.threads == Pair(Rebuild(2))
    ensures Runs(x) && Last(x).index.flag && !Last(x).index.complete
  {
    var s1 := s.(index := s.index.(complete := false), threads := Pair(Rebuild(3)));
    var s2 := s1.(index := s1.index.(flag := true), threads := map[1 := Unrun, 2 := Rebuild(3)]);
    assert s1.threads == s.threads[2 := Rebuild(3)];
    var x1 := Extended(x0, Run(2, true));
    ExtendedRuns(x0, Run(2, true), s, s1, x1);
    assert s2.threads == s1.threads[1 := Unrun];
    x := Extended(x1, Run(1, true));
    ExtendedRuns(x1, Run(1, true), s1, s2, x);
  }

  /** The code has executions with such a store. */
  lemma RebuildFitsBetween()
    ensures exists x: Trace :: Runs(x) && Last(x).index.flag && !Last(x).index.complete
  {
    var start := Server(NEW_GATE, Freeze(false, None, None, None, None), Index(0, false, false, true, None), map[]);
    var started := WorkerStarts(start);
    var decided := WorkerDecides(started, Last(started));
    var queued := RebuildQueues(decided, Last(decided));
    var entered := RebuildEnters(queued, Last(queued));
    var forgot := RebuildForgets(entered, Last(entered));
    var x := StoreFollows(forgot, Last(forgot));
  }
}
