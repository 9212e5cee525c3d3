/** The daemon as one transition system: gated requests, backup freeze windows with their watchdog,
    index rebuilds and the ungated index worker, as threads at program points over the operation
    gate. One move is one uninterrupted stretch of one thread. */
module ServerProtocols {
  import opened Options
  import opened OperationGate

  /** Who asks for the gate. */
  datatype Kind = Plain | Freezer | Rebuilder | Worker

  /** Program points. `Wants` is inside the gate's begin call; `Ticket` says where. */
  datatype Pc =
    | Wants(kind: Kind)
    | Busy                                  // a gated request at work
    | Release(worker: bool)                 // about to call its own release
    | Releasing(worker: bool)               // between the release's two halves
    | FreezeCheck                           // begin: is a window active?
    | FreezeUndo                            // begin: refused by the gate
    | FreezeOpen                            // begin: about to publish the token
    | Replied                               // begin: the caller has the token
    | Closing(token: Option<Tid>, dog: bool)  // end, or the watchdog: about to clear the window
    | CloseRelease(window: Tid, dog: bool)    // has the window's release function
    | CloseReleasing(window: Tid, dog: bool)  // between that release's two halves
    | Closed(window: Tid, dog: bool)          // end has replied with success
    | Rebuild(step: nat)                    // 0 bump, 1 forget, 2 clear, 3 populate, 4 memoize, 5 bump
    | Trigger                               // a search: is the flag set?
    | Claim                                 // a search: is a worker running?
    | Load                                  // worker: about to load the generation
    | Probe(gen: nat)                       // worker: about to scan
    | Judge(gen: nat, needs: bool)          // worker: about to load again and decide
    | Memoize(gen: nat)                     // worker: decided, about to set the flag
    | Recheck                               // worker under the gate: about to scan
    | Backfill                              // worker under the gate: about to fill in
    | GatedMemoize                          // worker under the gate: about to set the flag
    | Unrun                                 // worker: about to clear the running bit
    | Finished

  /** backupFreezeState; `opener` is bookkeeping: the begin that set `active` and has no token yet. */
  datatype Freeze = Freeze(active: bool, token: Option<Tid>, release: Option<Tid>, opener: Option<Tid>, closer: Option<Tid>)

  /** The memo, with what it is about: whether the index is complete. `worker` is bookkeeping. */
  datatype Index = Index(gen: nat, flag: bool, running: bool, complete: bool, worker: Option<Tid>)

  datatype Server = Server(gate: Gate, freeze: Freeze, index: Index, threads: map<Tid, Pc>)

  /** A new thread arrives, shutdown starts, or a thread runs its next stretch. `ok` decides what the
      thread cannot: a context still alive, a scan or a fill that works. */
  datatype Move = Spawn(t: Tid, pc: Pc) | Shutdown | Run(t: Tid, ok: bool)

  // ---- Windows ----

  /** Begin's first section, when no freeze is active. */
  function Entered(f: Freeze, t: Tid): Freeze {
    f.(active := true, opener := Some(t))
  }

  function Undone(f: Freeze): Freeze {
    f.(active := false, opener := None)
  }

  /** Begin's last section: the window's token and release function. */
  function Opened(f: Freeze, t: Tid): Freeze {
    f.(token := Some(t), release := Some(t), opener := None)
  }

  function Cleared(f: Freeze, t: Tid): Freeze {
    f.(active := false, token := None, release := None, closer := Some(t))
  }

  /** clearBackupFreeze: only the active window's own token clears it. */
  predicate Clears(f: Freeze, token: Option<Tid>) {
    f.active && token.Some? && token == f.token
  }

  // ---- Where a thread goes from the gate ----

  function Admitted(k: Kind): Pc {
    match k
    case Plain => Busy
    case Freezer => FreezeOpen
    case Rebuilder => Rebuild(0)
    case Worker => Recheck
  }

  function TurnedAway(k: Kind): Pc {
    match k
    case Freezer => FreezeUndo
    case Worker => Unrun
    case _ => Finished
  }

  /** What a thread inside begin does next, if it can do anything. */
  function GateAction(g: Gate, t: Tid, k: Kind, ok: bool): Option<Action> {
    if t !in g.tickets then Some(DoArrive(t, k != Worker))
    else match g.tickets[t].phase
      case Waiting => if !ok then Some(DoLeave(t)) else if g.sem then None else Some(DoTake(t))
      case Got => Some(DoAdmit(t, ok))
      case Backing => Some(DoGiveBack(t))
      case Held => if g.tickets[t].counted then Some(DoReturn(t)) else None
      case Refused => if g.tickets[t].counted then Some(DoReturn(t)) else None
      case _ => None
  }

  predicate CanLeaveGate(g: Gate, t: Tid) {
    t in g.tickets && !g.tickets[t].counted && g.tickets[t].phase in {Held, Refused}
  }

  predicate CanRun(s: Server, t: Tid, ok: bool) {
    t in s.threads &&
    match s.threads[t]
    case Wants(k) => GateAction(s.gate, t, k, ok).Some? || CanLeaveGate(s.gate, t)
    case Replied => false
    case Closed(_, _) => false
    case Finished => false
    case Release(_) => Can(s.gate, DoDrop(t))
    case Releasing(_) => Can(s.gate, DoFree(t))
    case CloseRelease(w, _) => Can(s.gate, DoDrop(w))
    case CloseReleasing(w, _) => Can(s.gate, DoFree(w))
    case _ => true
  }

  function Goto(s: Server, t: Tid, pc: Pc): Server {
    s.(threads := s.threads[t := pc])
  }

  // ---- The stretches, thread by thread ----

  function GateStretch(s: Server, t: Tid, k: Kind, ok: bool): Server {
    var a := GateAction(s.gate, t, k, ok);
    if a.Some? then (if Can(s.gate, a.value) then s.(gate := Do(s.gate, a.value)) else s)
    else Goto(s, t, if At(s.gate, t, Held) then Admitted(k) else TurnedAway(k))
  }

  /** What the next half of a release does to the gate. */
  function ReleaseAction(t: Tid, pc: Pc): Action {
    match pc
    case Release(_) => DoDrop(t)
    case Releasing(_) => DoFree(t)
    case CloseRelease(w, _) => DoDrop(w)
    case CloseReleasing(w, _) => DoFree(w)
    case _ => DoDrain
  }

  function ReleaseStretch(s: Server, t: Tid, pc: Pc): Server
    requires t in s.threads && Can(s.gate, ReleaseAction(t, pc))
  {
    var freed := s.(gate := Do(s.gate, ReleaseAction(t, pc)));
    match pc
    case Release(worker) => Goto(freed, t, Releasing(worker))
    case Releasing(worker) => Goto(freed, t, if worker then Unrun else Finished)
    case CloseRelease(w, dog) => Goto(freed, t, CloseReleasing(w, dog))
    case CloseReleasing(w, dog) => Goto(freed.(freeze := s.freeze.(closer := None)), t, Closed(w, dog))
    case _ => s
  }

  function FreezeStretch(s: Server, t: Tid, pc: Pc): Server
    requires t in s.threads
  {
    var f := s.freeze;
    match pc
    case FreezeCheck =>
      if f.active then Goto(s, t, Finished) else Goto(s.(freeze := Entered(f, t)), t, Wants(Freezer))
    case FreezeUndo => Goto(s.(freeze := Undone(f)), t, Finished)
    case FreezeOpen => Goto(s.(freeze := Opened(f, t)), t, Replied)
    case Closing(token, dog) =>
      if Clears(f, token) && f.release.Some?
      then Goto(s.(freeze := Cleared(f, t)), t, CloseRelease(f.release.value, dog))
      else Goto(s, t, Finished)
    case _ => s
  }

  // ---- The memo's fields ----

  function Bumped(x: Index): Index {
    x.(gen := x.gen + 1)
  }

  function Memoized(x: Index): Index {
    x.(flag := true)
  }

  function Forgotten(x: Index): Index {
    x.(flag := false)
  }

  function Claimed(x: Index, t: Tid): Index {
    x.(running := true, worker := Some(t))
  }

  function Unclaimed(x: Index): Index {
    x.(running := false, worker := None)
  }

  /** The worker's check: the generation was even and has not moved. */
  predicate Passes(x: Index, g: nat) {
    g % 2 == 0 && x.gen == g
  }

  /** handleCLIRebuildFTS; a rebuild that fails leaves through the second bump. */
  function RebuildStretch(s: Server, t: Tid, step: nat, ok: bool): Server {
    var x := s.index;
    match step
    case 0 => Goto(s.(index := Bumped(x)), t, Rebuild(1))
    case 1 => Goto(s.(index := Forgotten(x)), t, Rebuild(2))
    case 2 => if ok then Goto(s.(index := x.(complete := false)), t, Rebuild(3)) else Goto(s, t, Rebuild(5))
    case 3 => if ok then Goto(s.(index := x.(complete := true)), t, Rebuild(4)) else Goto(s, t, Rebuild(5))
    case 4 => Goto(s.(index := Memoized(x)), t, Rebuild(5))
    case _ => Goto(s.(index := Bumped(x)), t, Release(false))
  }

  /** ensureCLISearchIndexAsync and its worker. There is a window between the second generation load
      and the store it decides on. */
  function WorkerStretch(s: Server, t: Tid, pc: Pc, ok: bool): Server
    requires t in s.threads
  {
    var x := s.index;
    match pc
    case Trigger =>
      Goto(s, t, if x.flag then Finished else Claim)
    case Claim =>
      if x.running then Goto(s, t, Finished) else Goto(s.(index := Claimed(x, t)), t, Load)
    case Load => Goto(s, t, Probe(x.gen))
    case Probe(g) => Goto(s, t, Judge(g, !(ok && x.complete)))
    case Judge(g, needs) =>
      if needs then Goto(s, t, Wants(Worker))
      else Goto(s, t, if Passes(x, g) then Memoize(g) else Unrun)
    case Memoize(_) => Goto(s.(index := Memoized(x)), t, Unrun)
    case Recheck => Goto(s, t, if ok && x.complete then GatedMemoize else Backfill)
    case Backfill => if ok then Goto(s.(index := x.(complete := true)), t, GatedMemoize) else Goto(s, t, Release(true))
    case GatedMemoize => Goto(s.(index := Memoized(x)), t, Release(true))
    case Unrun => Goto(s.(index := Unclaimed(x)), t, Finished)
    case _ => s
  }

  function RunStretch(s: Server, t: Tid, ok: bool): Server
    requires CanRun(s, t, ok)
  {
    match s.threads[t]
    case Wants(k) => GateStretch(s, t, k, ok)
    case Busy => Goto(s, t, Release(false))
    case Rebuild(step) => RebuildStretch(s, t, step, ok)
    case Release(_) => ReleaseStretch(s, t, s.threads[t])
    case Releasing(_) => ReleaseStretch(s, t, s.threads[t])
    case CloseRelease(_, _) => ReleaseStretch(s, t, s.threads[t])
    case CloseReleasing(_, _) => ReleaseStretch(s, t, s.threads[t])
    case FreezeCheck => FreezeStretch(s, t, s.threads[t])
    case FreezeUndo => FreezeStretch(s, t, s.threads[t])
    case FreezeOpen => FreezeStretch(s, t, s.threads[t])
    case Closing(_, _) => FreezeStretch(s, t, s.threads[t])
    case _ => WorkerStretch(s, t, s.threads[t], ok)
  }

  /** How threads come in: requests, freeze begins and ends, watchdogs of any age, searches. */
  predicate CanSpawn(s: Server, t: Tid, pc: Pc) {
    && t !in s.threads
    && (pc == Wants(Plain) || pc == Wants(Rebuilder) || pc == FreezeCheck || pc.Closing? || pc == Trigger)
  }

  predicate Enabled(s: Server, m: Move) {
    match m
    case Spawn(t, pc) => CanSpawn(s, t, pc)
    case Shutdown => true
    case Run(t, ok) => CanRun(s, t, ok)
  }

  function Step(s: Server, m: Move): Server
    requires Enabled(s, m)
  {
    match m
    case Spawn(t, pc) => Goto(s, t, pc)
    case Shutdown => s.(gate := StartDrain(s.gate))
    case Run(t, ok) => RunStretch(s, t, ok)
  }

  predicate Initial(s: Server) {
    && s.gate == NEW_GATE && s.threads == map[]
    && s.freeze == Freeze(false, None, None, None, None)
    && s.index.gen == 0 && !s.index.flag && !s.index.running && s.index.worker.None?
  }

  // ---- What every state keeps ----

  /** Program points at which the thread has the gate. */
  predicate Holds(pc: Pc) {
    pc.Busy? || pc.Release? || pc.FreezeOpen? || pc.Rebuild? || pc.Recheck? || pc.Backfill? || pc.GatedMemoize?
  }

  predicate Untouched(pc: Pc) {
    pc.FreezeCheck? || pc.Closing? || pc.CloseRelease? || pc.CloseReleasing? || pc.Closed?
    || pc.Trigger? || pc.Claim? || pc.Load? || pc.Probe? || pc.Judge? || pc.Memoize?
  }

  predicate Has(g: Gate, t: Tid, p: Phase) {
    At(g, t, p) && !g.tickets[t].counted
  }

  /** A thread and its ticket agree. */
  predicate TicketOk(g: Gate, t: Tid, pc: Pc) {
    && (Holds(pc) ==> Has(g, t, Held))
    && (pc.Releasing? ==> Has(g, t, Half))
    && (Untouched(pc) ==> t !in g.tickets)
    && (pc.Wants? && t in g.tickets ==> g.tickets[t].phase in {Waiting, Got, Backing, Held, Refused})
    && (pc.Replied? && t in g.tickets ==> !g.tickets[t].counted)
  }

  ghost predicate TicketsOk(s: Server) {
    && GateOk(s.gate)
    && (forall t | t in s.threads :: TicketOk(s.gate, t, s.threads[t]))
    && (forall t | t in s.gate.tickets :: t in s.threads)
  }

  predicate Opens(pc: Pc) {
    pc == Wants(Freezer) || pc.FreezeUndo? || pc.FreezeOpen?
  }

  predicate Closes(pc: Pc) {
    pc.CloseRelease? || pc.CloseReleasing?
  }

  /** A window whose release function is out is over for good. */
  predicate WindowOk(g: Gate, pc: Pc) {
    && (pc.CloseRelease? ==> Has(g, pc.window, Held))
    && (pc.CloseReleasing? ==> Has(g, pc.window, Half))
    && (pc.Closed? ==> Has(g, pc.window, Spent))
  }

  predicate OfWindow(pc: Pc) {
    pc.CloseRelease? || pc.CloseReleasing? || pc.Closed?
  }

  /** The active bit: one begin is on its way, or one window is open. At most one release is under way. */
  ghost predicate RolesOk(f: Freeze, threads: map<Tid, Pc>) {
    && (f.active <==> f.opener.Some? || f.token.Some?) && !(f.opener.Some? && f.token.Some?)
    && f.release == f.token && !(f.token.Some? && f.closer.Some?)
    && (forall t | t in threads :: Opens(threads[t]) <==> f.opener == Some(t))
    && (forall t | t in threads :: Closes(threads[t]) <==> f.closer == Some(t))
    && (f.opener.Some? ==> f.opener.value in threads) && (f.closer.Some? ==> f.closer.value in threads)
  }

  /** The published token is of a begin that has replied and has the gate. */
  predicate TokenHeld(g: Gate, f: Freeze, threads: map<Tid, Pc>) {
    f.token.Some? ==> f.token.value in threads && threads[f.token.value].Replied? && Has(g, f.token.value, Held)
  }

  ghost predicate WindowsOk(g: Gate, threads: map<Tid, Pc>) {
    forall t | t in threads && OfWindow(threads[t]) ::
      WindowOk(g, threads[t]) && threads[t].window in threads && threads[threads[t].window].Replied?
  }

  ghost predicate FreezeOk(s: Server) {
    RolesOk(s.freeze, s.threads) && TokenHeld(s.gate, s.freeze, s.threads) && WindowsOk(s.gate, s.threads)
  }

  predicate Works(pc: Pc) {
    pc.Load? || pc.Probe? || pc.Judge? || pc.Memoize? || pc == Wants(Worker) || pc.Recheck? || pc.Backfill?
    || pc.GatedMemoize? || pc == Release(true) || pc == Releasing(true) || pc.Unrun?
  }

  predicate MidRebuild(pc: Pc) {
    pc.Rebuild? && 1 <= pc.step
  }

  /** What a thread knows about the index. */
  predicate KnowsOk(x: Index, pc: Pc) {
    && (pc.Rebuild? ==> pc.step <= 5)
    && (MidRebuild(pc) ==> x.gen % 2 == 1)
    && (pc.Probe? ==> pc.gen <= x.gen)
    && (pc.Judge? ==> pc.gen <= x.gen && (!pc.needs && Passes(x, pc.gen) ==> x.complete))
    && (pc.Memoize? ==> pc.gen <= x.gen && pc.gen % 2 == 0 && (Passes(x, pc.gen) ==> x.complete))
  }

  ghost predicate IndexOk(s: Server) {
    var x := s.index;
    && (forall t | t in s.threads :: KnowsOk(x, s.threads[t]))
    && (x.gen % 2 == 1 ==> s.gate.owner.Some? && s.gate.owner.value in s.threads && MidRebuild(s.threads[s.gate.owner.value]))
    && (x.running <==> x.worker.Some?)
    && (forall t | t in s.threads :: Works(s.threads[t]) <==> x.worker == Some(t))
    && (x.worker.Some? ==> x.worker.value in s.threads)
  }

  /** What a thread at work under the gate has made of the index. */
  predicate BuildsOk(x: Index, pc: Pc) {
    && (pc.GatedMemoize? || pc == Rebuild(4) ==> x.complete)
    && (pc == Rebuild(3) ==> !x.complete)
  }

  ghost predicate BuildOk(s: Server) {
    forall t | t in s.threads :: BuildsOk(s.index, s.threads[t])
  }

  ghost predicate ServerOk(s: Server) {
    TicketsOk(s) && FreezeOk(s) && IndexOk(s) && BuildOk(s)
  }

  // ---- One stretch at a time ----

  function Subject(a: Action): Tid
    requires !a.DoDrain?
  {
    a.t
  }

  lemma OnlySubjectMoves(g: Gate, a: Action)
    requires !a.DoDrain? && Can(g, a)
    ensures Subject(a) in Do(g, a).tickets
    ensures Do(g, a).tickets == g.tickets[Subject(a) := Do(g, a).tickets[Subject(a)]]
  {
  }

  /** The gate moves h's ticket only, and only thread t moves. */
  lemma TicketsMove(s: Server, s': Server, t: Tid, h: Tid, pc: Pc)
    requires TicketsOk(s) && GateOk(s'.gate) && t in s.threads && h in s.threads && h in s'.gate.tickets
    requires s'.gate.tickets == s.gate.tickets[h := s'.gate.tickets[h]]
    requires s'.threads == s.threads[t := pc]
    requires TicketOk(s'.gate, t, pc) && (h != t ==> TicketOk(s'.gate, h, s.threads[h]))
    ensures TicketsOk(s')
  {
    forall u | u in s'.threads ensures TicketOk(s'.gate, u, s'.threads[u]) {
      if u != t && u != h {
        assert TicketOk(s.gate, u, s.threads[u]);
      }
    }
  }

  lemma GateActionTicket(g: Gate, t: Tid, k: Kind, ok: bool, a: Action, g': Gate)
    requires TicketOk(g, t, Wants(k)) && GateAction(g, t, k, ok) == Some(a)
    ensures Can(g, a) && (g' == Do(g, a) ==> TicketOk(g', t, Wants(k)))
    ensures g' == Do(g, a) ==> t in g'.tickets && g'.tickets == g.tickets[t := g'.tickets[t]]
  {
  }

  lemma TicketsAtGate(s: Server, t: Tid, k: Kind, ok: bool, s': Server, a: Action)
    requires TicketsOk(s) && t in s.threads && s.threads[t] == Wants(k)
    requires GateAction(s.gate, t, k, ok) == Some(a) && Can(s.gate, a) && s'.gate == Do(s.gate, a) && s'.threads == s.threads
    ensures TicketsOk(s')
  {
    ActionKeeps(s.gate, a);
    assert TicketOk(s.gate, t, s.threads[t]);
    GateActionTicket(s.gate, t, k, ok, a, s'.gate);
    TicketsTurn(s, s', t);
  }

  /** The gate moves t's ticket only, and no thread moves. */
  lemma TicketsTurn(s: Server, s': Server, t: Tid)
    requires TicketsOk(s) && GateOk(s'.gate) && t in s.threads && t in s'.gate.tickets
    requires s'.gate.tickets == s.gate.tickets[t := s'.gate.tickets[t]] && s'.threads == s.threads
    requires TicketOk(s'.gate, t, s.threads[t])
    ensures TicketsOk(s')
  {
    forall u | u in s'.threads ensures TicketOk(s'.gate, u, s'.threads[u]) {
      if u != t {
        assert TicketOk(s.gate, u, s.threads[u]);
      }
    }
  }

  /** A stretch that leaves the gate alone and takes t somewhere its ticket allows. */
  lemma TicketsStay(s: Server, s': Server, t: Tid, pc: Pc)
    requires TicketsOk(s) && s'.gate == s.gate && t in s.threads
    requires s'.threads == s.threads[t := pc] && TicketOk(s.gate, t, pc)
    ensures TicketsOk(s')
  {
  }

  lemma TicketsAtOwnRelease(s: Server, s': Server, t: Tid)
    requires TicketsOk(s) && t in s.threads && CanRun(s, t, true)
    requires s.threads[t].Release? || s.threads[t].Releasing?
    requires s' == ReleaseStretch(s, t, s.threads[t])
    ensures TicketsOk(s')
  {
    var pc := s.threads[t];
    assert TicketOk(s.gate, t, pc);
    var a := if pc.Release? then DoDrop(t) else DoFree(t);
    ActionKeeps(s.gate, a);
    OnlySubjectMoves(s.gate, a);
    TicketsMove(s, s', t, t, s'.threads[t]);
  }

  lemma TicketsAtWindowRelease(s: Server, s': Server, t: Tid)
    requires TicketsOk(s) && FreezeOk(s) && t in s.threads && CanRun(s, t, true) && Closes(s.threads[t])
    requires s' == ReleaseStretch(s, t, s.threads[t])
    ensures TicketsOk(s')
  {
    var pc := s.threads[t];
    var w := pc.window;
    assert TicketOk(s.gate, t, pc) && WindowOk(s.gate, pc) && TicketOk(s.gate, w, s.threads[w]);
    var a := if pc.CloseRelease? then DoDrop(w) else DoFree(w);
    ActionKeeps(s.gate, a);
    OnlySubjectMoves(s.gate, a);
    TicketsMove(s, s', t, w, s'.threads[t]);
  }

  /** Stretches that do not touch the gate, and where they lead. */
  predicate OffGate(pc: Pc) {
    !pc.Wants? && !pc.Release? && !pc.Releasing? && !Closes(pc)
  }

  /** The gate stays, t goes where its ticket allows, and everyone else stays. */
  ghost predicate Leads(s: Server, t: Tid, s': Server) {
    && s'.gate == s.gate && t in s'.threads && s'.threads == s.threads[t := s'.threads[t]]
    && TicketOk(s.gate, t, s'.threads[t])
  }

  lemma WorkerLeads(s: Server, t: Tid, ok: bool, s': Server)
    requires t in s.threads && OffGate(s.threads[t]) && (Works(s.threads[t]) || s.threads[t].Trigger? || s.threads[t].Claim?)
    requires s' == WorkerStretch(s, t, s.threads[t], ok) && TicketOk(s.gate, t, s.threads[t])
    ensures Leads(s, t, s')
  {
  }

  lemma RebuildLeads(s: Server, t: Tid, ok: bool, s': Server)
    requires t in s.threads && s.threads[t].Rebuild?
    requires s' == RebuildStretch(s, t, s.threads[t].step, ok) && TicketOk(s.gate, t, s.threads[t])
    ensures Leads(s, t, s')
  {
  }

  lemma FreezeLeads(s: Server, t: Tid, s': Server)
    requires t in s.threads
    requires s.threads[t].FreezeCheck? || s.threads[t].FreezeUndo? || s.threads[t].FreezeOpen? || s.threads[t].Closing?
    requires s' == FreezeStretch(s, t, s.threads[t]) && TicketOk(s.gate, t, s.threads[t])
    ensures Leads(s, t, s')
  {
  }

  lemma OffGateLeads(s: Server, t: Tid, ok: bool, s': Server)
    requires CanRun(s, t, ok) && OffGate(s.threads[t]) && s' == RunStretch(s, t, ok)
    requires TicketOk(s.gate, t, s.threads[t])
    ensures Leads(s, t, s')
  {
    var pc := s.threads[t];
    if pc.Rebuild? {
      RebuildLeads(s, t, ok, s');
    } else if pc.FreezeCheck? || pc.FreezeUndo? || pc.FreezeOpen? || pc.Closing? {
      FreezeLeads(s, t, s');
    } else if !pc.Busy? {
      WorkerLeads(s, t, ok, s');
    }
  }

  /** A thread whose begin has returned goes to work or is turned away. */
  lemma LeavingGateLeads(s: Server, t: Tid, ok: bool, s': Server)
    requires CanRun(s, t, ok) && s.threads[t].Wants? && GateAction(s.gate, t, s.threads[t].kind, ok).None?
    requires s' == GateStretch(s, t, s.threads[t].kind, ok)
    ensures Leads(s, t, s')
    ensures s'.threads[t] == (if At(s.gate, t, Held) then Admitted(s.threads[t].kind) else TurnedAway(s.threads[t].kind))
  {
  }

  lemma TicketsRun(s: Server, t: Tid, ok: bool, s': Server)
    requires ServerOk(s) && CanRun(s, t, ok) && s' == RunStretch(s, t, ok)
    ensures TicketsOk(s')
  {
    var pc := s.threads[t];
    assert TicketOk(s.gate, t, pc);
    if OffGate(pc) {
      OffGateLeads(s, t, ok, s');
      TicketsStay(s, s', t, s'.threads[t]);
    } else if pc.Wants? {
      var a := GateAction(s.gate, t, pc.kind, ok);
      if a.Some? {
        GateActionTicket(s.gate, t, pc.kind, ok, a.value, s'.gate);
        TicketsAtGate(s, t, pc.kind, ok, s', a.value);
      } else {
        LeavingGateLeads(s, t, ok, s');
        TicketsStay(s, s', t, s'.threads[t]);
      }
    } else if Closes(pc) {
      TicketsAtWindowRelease(s, s', t);
    } else {
      TicketsAtOwnRelease(s, s', t);
    }
  }

  // ---- Freeze windows ----

  /** Closed and closing windows stay as they are while other tickets move. */
  lemma WindowsStay(g: Gate, g': Gate, threads: map<Tid, Pc>, t: Tid, pc: Pc)
    requires WindowsOk(g, threads) && (t in threads ==> !threads[t].Replied?)
    requires forall u | u in threads && u != t && OfWindow(threads[u]) && threads[u].window in g.tickets ::
               threads[u].window in g'.tickets && g'.tickets[threads[u].window] == g.tickets[threads[u].window]
    requires OfWindow(pc) ==> WindowOk(g', pc) && pc.window in threads && threads[pc.window].Replied?
    ensures WindowsOk(g', threads[t := pc])
  {
    var threads' := threads[t := pc];
    forall u | u in threads' && OfWindow(threads'[u])
      ensures WindowOk(g', threads'[u]) && threads'[u].window in threads' && threads'[threads'[u].window].Replied?
    {
      if u != t {
        assert WindowOk(g, threads[u]);
      }
    }
  }

  /** A stretch of a thread that is no window's, and that moves no replied begin's ticket. */
  lemma FreezeStays(s: Server, s': Server, t: Tid, pc: Pc)
    requires FreezeOk(s) && t in s.threads && s'.freeze == s.freeze && s'.threads == s.threads[t := pc]
    requires !OfWindow(s.threads[t]) && !s.threads[t].Replied? && !OfWindow(pc)
    requires Opens(pc) == Opens(s.threads[t])
    requires forall u | u in s.threads && s.threads[u].Replied? && u in s.gate.tickets ::
               u in s'.gate.tickets && s'.gate.tickets[u] == s.gate.tickets[u]
    ensures FreezeOk(s')
  {
    WindowsStay(s.gate, s'.gate, s.threads, t, pc);
  }

  lemma FreezeAtBegin(s: Server, s': Server, t: Tid)
    requires FreezeOk(s) && t in s.threads
    requires s.threads[t].FreezeCheck? || s.threads[t].FreezeUndo?
    requires s' == FreezeStretch(s, t, s.threads[t])
    ensures FreezeOk(s')
  {
    WindowsStay(s.gate, s'.gate, s.threads, t, s'.threads[t]);
  }

  /** Whoever has the gate keeps every window from being closed half way. */
  lemma HolderIsAlone(s: Server, t: Tid)
    requires TicketsOk(s) && FreezeOk(s) && At(s.gate, t, Held) && t in s.threads
    ensures s.freeze.closer.Some? ==>
      s.freeze.closer.value in s.threads && Closes(s.threads[s.freeze.closer.value]) && s.threads[s.freeze.closer.value].window == t
    ensures s.freeze.token.Some? ==> s.freeze.token.value == t
  {
    assert s.gate.owner == Some(t);
    if s.freeze.closer.Some? {
      var c := s.freeze.closer.value;
      assert WindowOk(s.gate, s.threads[c]);
    }
  }

  /** Publishing the token: no window can be open or closing, because the begin has the gate. */
  lemma FreezeAtOpen(s: Server, s': Server, t: Tid)
    requires TicketsOk(s) && FreezeOk(s) && t in s.threads && s.threads[t].FreezeOpen?
    requires s' == FreezeStretch(s, t, s.threads[t])
    ensures FreezeOk(s')
  {
    assert TicketOk(s.gate, t, s.threads[t]);
    HolderIsAlone(s, t);
    WindowsStay(s.gate, s'.gate, s.threads, t, Replied);
  }

  lemma FreezeAtClose(s: Server, s': Server, t: Tid)
    requires FreezeOk(s) && t in s.threads && s.threads[t].Closing?
    requires s' == FreezeStretch(s, t, s.threads[t])
    ensures FreezeOk(s')
  {
    WindowsStay(s.gate, s'.gate, s.threads, t, s'.threads[t]);
  }

  lemma FreezeAtRelease(s: Server, s': Server, t: Tid)
    requires FreezeOk(s) && t in s.threads && Closes(s.threads[t]) && CanRun(s, t, true)
    requires s' == ReleaseStretch(s, t, s.threads[t])
    ensures FreezeOk(s')
  {
    var w := s.threads[t].window;
    assert WindowOk(s.gate, s.threads[t]);
    OnlySubjectMoves(s.gate, if s.threads[t].CloseRelease? then DoDrop(w) else DoFree(w));
    forall u | u in s.threads && u != t && OfWindow(s.threads[u]) ensures s.threads[u].window != w {
      assert WindowOk(s.gate, s.threads[u]) && !Closes(s.threads[u]);
    }
    WindowsStay(s.gate, s'.gate, s.threads, t, s'.threads[t]);
  }

  lemma FreezeRun(s: Server, t: Tid, ok: bool, s': Server)
    requires ServerOk(s) && CanRun(s, t, ok) && s' == RunStretch(s, t, ok)
    ensures FreezeOk(s')
  {
    var pc := s.threads[t];
    assert TicketOk(s.gate, t, pc);
    if pc.FreezeCheck? || pc.FreezeUndo? {
      FreezeAtBegin(s, s', t);
    } else if pc.FreezeOpen? {
      FreezeAtOpen(s, s', t);
    } else if pc.Closing? {
      FreezeAtClose(s, s', t);
    } else if Closes(pc) {
      FreezeAtRelease(s, s', t);
    } else {
      FreezeElsewhere(s, t, ok, s');
    }
  }

  lemma FreezeAtGate(s: Server, t: Tid, ok: bool, s': Server)
    requires ServerOk(s) && CanRun(s, t, ok) && s.threads[t].Wants? && s' == GateStretch(s, t, s.threads[t].kind, ok)
    ensures FreezeOk(s')
  {
    var k := s.threads[t].kind;
    assert TicketOk(s.gate, t, s.threads[t]);
    if GateAction(s.gate, t, k, ok).Some? {
      GateActionTicket(s.gate, t, k, ok, GateAction(s.gate, t, k, ok).value, s'.gate);
      FreezeTurns(s, s', t);
    } else {
      LeavingGateLeads(s, t, ok, s');
      FreezeStays(s, s', t, s'.threads[t]);
    }
  }

  lemma FreezeAtOwnRelease(s: Server, t: Tid, s': Server)
    requires ServerOk(s) && CanRun(s, t, true) && (s.threads[t].Release? || s.threads[t].Releasing?)
    requires s' == ReleaseStretch(s, t, s.threads[t])
    ensures FreezeOk(s')
  {
    OnlySubjectMoves(s.gate, ReleaseAction(t, s.threads[t]));
    FreezeStays(s, s', t, s'.threads[t]);
  }

  lemma FreezeElsewhere(s: Server, t: Tid, ok: bool, s': Server)
    requires ServerOk(s) && CanRun(s, t, ok) && s' == RunStretch(s, t, ok)
    requires var pc := s.threads[t];
      !pc.FreezeCheck? && !pc.FreezeUndo? && !pc.FreezeOpen? && !pc.Closing? && !Closes(pc)
    ensures FreezeOk(s')
  {
    var pc := s.threads[t];
    if pc.Wants? {
      FreezeAtGate(s, t, ok, s');
    } else if pc.Release? || pc.Releasing? {
      FreezeAtOwnRelease(s, t, s');
    } else {
      assert TicketOk(s.gate, t, pc);
      OffGateLeads(s, t, ok, s');
      OffFreezeLeads(s, t, ok, s');
      FreezeStays(s, s', t, s'.threads[t]);
    }
  }

  lemma OffFreezeLeads(s: Server, t: Tid, ok: bool, s': Server)
    requires CanRun(s, t, ok) && s' == RunStretch(s, t, ok) && t in s'.threads
    requires s.threads[t].Busy? || s.threads[t].Rebuild? || s.threads[t].Trigger? || s.threads[t].Claim? || (Works(s.threads[t]) && OffGate(s.threads[t]))
    ensures s'.freeze == s.freeze && !Opens(s'.threads[t]) && !OfWindow(s'.threads[t])
  {
  }

  /** No thread moves, and no replied begin's ticket. */
  lemma FreezeTurns(s: Server, s': Server, t: Tid)
    requires FreezeOk(s) && t in s.threads && !s.threads[t].Replied?
    requires s'.freeze == s.freeze && s'.threads == s.threads
    requires t in s'.gate.tickets && s'.gate.tickets == s.gate.tickets[t := s'.gate.tickets[t]]
    ensures FreezeOk(s')
  {
    forall u | u in s.threads && OfWindow(s.threads[u]) ensures WindowOk(s'.gate, s.threads[u]) {
      assert WindowOk(s.gate, s.threads[u]);
    }
  }

  // ---- The index and its memo ----

  lemma IndexFrame(s: Server, s': Server, t: Tid, pc: Pc)
    requires IndexOk(s) && t in s.threads && s'.index == s.index && s'.threads == s.threads[t := pc]
    requires KnowsOk(s.index, pc) && Works(pc) == Works(s.threads[t])
    requires s.index.gen % 2 == 1 ==> s'.gate.owner == s.gate.owner && MidRebuild(s.threads[t]) == MidRebuild(pc)
    ensures IndexOk(s')
  {
  }

  /** A stretch of t that changes the index within what the others may rely on. */
  lemma IndexMoves(s: Server, s': Server, t: Tid, pc: Pc, x: Index, x': Index)
    requires IndexOk(s) && s.index == x && t in s.threads && s'.gate == s.gate && s'.index == x' && s'.threads == s.threads[t := pc]
    requires x'.gen == x.gen && (x.complete && x.gen % 2 == 0 ==> x'.complete) && KnowsOk(x', pc)
    requires x.gen % 2 == 1 ==> MidRebuild(s.threads[t]) == MidRebuild(pc)
    requires x'.running <==> x'.worker.Some?
    requires if x'.worker == x.worker then Works(pc) == Works(s.threads[t])
             else (x.worker.None? && x'.worker == Some(t) && Works(pc)) || (x.worker == Some(t) && x'.worker.None? && !Works(pc))
    ensures IndexOk(s')
  {
    forall u | u in s.threads && u != t ensures KnowsOk(x', s.threads[u]) {
      assert KnowsOk(x, s.threads[u]);
    }
  }

  /** The gate cannot pass to someone else in the middle of a rebuild. */
  lemma OwnerStays(s: Server, a: Action)
    requires GateOk(s.gate) && Can(s.gate, a) && s.gate.owner.Some? && At(s.gate, s.gate.owner.value, Held)
    ensures Do(s.gate, a).owner == s.gate.owner
  {
  }

  /** Outside a rebuild the generation is even: whoever else has the gate sees it so. */
  lemma EvenForOthers(s: Server, t: Tid)
    requires TicketsOk(s) && IndexOk(s) && t in s.threads && Holds(s.threads[t]) && !MidRebuild(s.threads[t])
    ensures s.index.gen % 2 == 0
  {
    assert TicketOk(s.gate, t, s.threads[t]);
  }

  lemma RebuilderOwns(s: Server)
    requires TicketsOk(s) && IndexOk(s) && s.index.gen % 2 == 1
    ensures s.gate.owner.Some? && At(s.gate, s.gate.owner.value, Held)
  {
    assert TicketOk(s.gate, s.gate.owner.value, s.threads[s.gate.owner.value]);
  }

  lemma IndexAtGate(s: Server, t: Tid, k: Kind, ok: bool, s': Server)
    requires TicketsOk(s) && IndexOk(s) && t in s.threads && s.threads[t] == Wants(k) && CanRun(s, t, ok)
    requires s' == GateStretch(s, t, k, ok)
    ensures IndexOk(s')
  {
    var a := GateAction(s.gate, t, k, ok);
    if a.Some? {
      if Can(s.gate, a.value) && s.index.gen % 2 == 1 {
        RebuilderOwns(s);
        OwnerStays(s, a.value);
      }
    } else {
      IndexFrame(s, s', t, s'.threads[t]);
    }
  }

  lemma IndexAtRelease(s: Server, t: Tid, s': Server)
    requires TicketsOk(s) && IndexOk(s) && t in s.threads && CanRun(s, t, true)
    requires s.threads[t].Release? || s.threads[t].Releasing? || Closes(s.threads[t])
    requires s' == ReleaseStretch(s, t, s.threads[t])
    ensures IndexOk(s')
  {
    var pc := s.threads[t];
    var a := ReleaseAction(t, pc);
    if s.index.gen % 2 == 1 {
      RebuilderOwns(s);
      OwnerStays(s, a);
    }
    IndexFrame(s, s', t, s'.threads[t]);
  }

  lemma IndexAtBump(s: Server, t: Tid, ok: bool, s': Server)
    requires TicketsOk(s) && IndexOk(s) && t in s.threads && s.threads[t].Rebuild?
    requires s.threads[t].step == 0 || s.threads[t].step == 5
    requires s' == RebuildStretch(s, t, s.threads[t].step, ok)
    ensures IndexOk(s')
  {
    assert TicketOk(s.gate, t, s.threads[t]) && KnowsOk(s.index, s.threads[t]);
    if s.threads[t].step == 0 {
      EvenForOthers(s, t);
    }
    forall u | u in s'.threads && u != t ensures !MidRebuild(s.threads[u]) {
      if MidRebuild(s.threads[u]) {
        OneRebuilder(s, t, u);
      }
    }
  }

  /** Between the bumps the generation is odd: what waiting workers know does not depend on the index. */
  lemma IndexInside(s: Server, t: Tid, ok: bool, s': Server)
    requires TicketsOk(s) && IndexOk(s) && t in s.threads && s.threads[t].Rebuild? && 1 <= s.threads[t].step < 5
    requires s' == RebuildStretch(s, t, s.threads[t].step, ok)
    ensures IndexOk(s')
  {
    assert TicketOk(s.gate, t, s.threads[t]) && KnowsOk(s.index, s.threads[t]);
    IndexMoves(s, s', t, s'.threads[t], s.index, s'.index);
  }

  lemma IndexAtRebuild(s: Server, t: Tid, ok: bool, s': Server)
    requires TicketsOk(s) && IndexOk(s) && t in s.threads && s.threads[t].Rebuild?
    requires s' == RebuildStretch(s, t, s.threads[t].step, ok)
    ensures IndexOk(s')
  {
    assert KnowsOk(s.index, s.threads[t]);
    if 1 <= s.threads[t].step < 5 {
      IndexInside(s, t, ok, s');
    } else {
      IndexAtBump(s, t, ok, s');
    }
  }

  lemma IndexAtWorker(s: Server, t: Tid, ok: bool, s': Server)
    requires TicketsOk(s) && IndexOk(s) && t in s.threads && OffGate(s.threads[t])
    requires Works(s.threads[t]) || s.threads[t].Trigger? || s.threads[t].Claim?
    requires s' == WorkerStretch(s, t, s.threads[t], ok)
    ensures IndexOk(s')
  {
    assert KnowsOk(s.index, s.threads[t]);
    IndexMoves(s, s', t, s'.threads[t], s.index, s'.index);
  }

  lemma IndexElsewhere(s: Server, t: Tid, ok: bool, s': Server)
    requires IndexOk(s) && CanRun(s, t, ok) && s' == RunStretch(s, t, ok)
    requires var pc := s.threads[t]; pc.Busy? || pc.FreezeCheck? || pc.FreezeUndo? || pc.FreezeOpen? || pc.Closing?
    ensures IndexOk(s')
  {
    IndexFrame(s, s', t, s'.threads[t]);
  }

  lemma IndexRun(s: Server, t: Tid, ok: bool, s': Server)
    requires ServerOk(s) && CanRun(s, t, ok) && s' == RunStretch(s, t, ok)
    ensures IndexOk(s')
  {
    var pc := s.threads[t];
    if pc.Wants? {
      IndexAtGate(s, t, pc.kind, ok, s');
    } else if pc.Rebuild? {
      IndexAtRebuild(s, t, ok, s');
    } else if pc.Release? || pc.Releasing? || Closes(pc) {
      IndexAtRelease(s, t, s');
    } else if pc.Busy? || pc.FreezeCheck? || pc.FreezeUndo? || pc.FreezeOpen? || pc.Closing? {
      IndexElsewhere(s, t, ok, s');
    } else {
      IndexAtWorker(s, t, ok, s');
    }
  }

  lemma BuildMoves(s: Server, s': Server, t: Tid, pc: Pc, x': Index)
    requires BuildOk(s) && t in s.threads && s'.index == x' && s'.threads == s.threads[t := pc] && BuildsOk(x', pc)
    requires x'.complete == s.index.complete || forall u | u in s.threads && u != t :: !Holds(s.threads[u])
    ensures BuildOk(s')
  {
    forall u | u in s.threads && u != t ensures BuildsOk(x', s.threads[u]) {
      assert BuildsOk(s.index, s.threads[u]);
    }
  }

  lemma AloneAtWork(s: Server, t: Tid)
    requires TicketsOk(s) && t in s.threads && Holds(s.threads[t])
    ensures forall u | u in s.threads && u != t :: !Holds(s.threads[u])
  {
    forall u | u in s.threads && u != t ensures !Holds(s.threads[u]) {
      if Holds(s.threads[u]) {
        OneRebuilder(s, t, u);
      }
    }
  }

  lemma BuildAtRebuild(s: Server, t: Tid, ok: bool, s': Server)
    requires TicketsOk(s) && BuildOk(s) && t in s.threads && s.threads[t].Rebuild?
    requires s' == RebuildStretch(s, t, s.threads[t].step, ok)
    ensures BuildOk(s')
  {
    assert BuildsOk(s.index, s.threads[t]);
    AloneAtWork(s, t);
    BuildMoves(s, s', t, s'.threads[t], s'.index);
  }

  lemma BuildAtWorker(s: Server, t: Tid, ok: bool, s': Server)
    requires TicketsOk(s) && BuildOk(s) && t in s.threads && OffGate(s.threads[t])
    requires Works(s.threads[t]) || s.threads[t].Trigger? || s.threads[t].Claim?
    requires s' == WorkerStretch(s, t, s.threads[t], ok)
    ensures BuildOk(s')
  {
    assert BuildsOk(s.index, s.threads[t]);
    if Holds(s.threads[t]) {
      AloneAtWork(s, t);
    }
    BuildMoves(s, s', t, s'.threads[t], s'.index);
  }

  lemma BuildRun(s: Server, t: Tid, ok: bool, s': Server)
    requires TicketsOk(s) && BuildOk(s) && CanRun(s, t, ok) && s' == RunStretch(s, t, ok)
    ensures BuildOk(s')
  {
    var pc := s.threads[t];
    if pc.Rebuild? {
      BuildAtRebuild(s, t, ok, s');
    } else if OffGate(pc) && (Works(pc) || pc.Trigger? || pc.Claim?) {
      BuildAtWorker(s, t, ok, s');
    } else {
      BuildElsewhere(s, t, ok, s');
    }
  }

  lemma BuildElsewhere(s: Server, t: Tid, ok: bool, s': Server)
    requires TicketsOk(s) && BuildOk(s) && CanRun(s, t, ok) && s' == RunStretch(s, t, ok)
    requires var pc := s.threads[t]; !pc.Rebuild? && !(OffGate(pc) && (Works(pc) || pc.Trigger? || pc.Claim?))
    ensures BuildOk(s')
  {
    if !(s.threads[t].Wants? && GateAction(s.gate, t, s.threads[t].kind, ok).Some?) {
      BuildMoves(s, s', t, s'.threads[t], s.index);
    }
  }

  lemma OneRebuilder(s: Server, t: Tid, u: Tid)
    requires TicketsOk(s) && t in s.threads && u in s.threads && Holds(s.threads[t]) && Holds(s.threads[u])
    ensures t == u
  {
    assert TicketOk(s.gate, t, s.threads[t]) && TicketOk(s.gate, u, s.threads[u]);
  }

  // ---- Any move ----

  lemma SpawnKeeps(s: Server, s': Server, t: Tid, pc: Pc)
    requires ServerOk(s) && CanSpawn(s, t, pc) && s' == Goto(s, t, pc)
    ensures ServerOk(s')
  {
    SpawnKeepsTickets(s, s', t, pc);
    WindowsStay(s.gate, s'.gate, s.threads, t, pc);
    SpawnKeepsRoles(s, s', t, pc);
    SpawnKeepsIndex(s, s', t, pc);
  }

  lemma SpawnKeepsTickets(s: Server, s': Server, t: Tid, pc: Pc)
    requires TicketsOk(s) && CanSpawn(s, t, pc) && s' == Goto(s, t, pc)
    ensures TicketsOk(s')
  {
    assert t !in s.gate.tickets;
  }

  lemma SpawnKeepsRoles(s: Server, s': Server, t: Tid, pc: Pc)
    requires RolesOk(s.freeze, s.threads) && TokenHeld(s.gate, s.freeze, s.threads) && CanSpawn(s, t, pc) && s' == Goto(s, t, pc)
    ensures RolesOk(s'.freeze, s'.threads) && TokenHeld(s'.gate, s'.freeze, s'.threads)
  {
  }

  lemma SpawnKeepsIndex(s: Server, s': Server, t: Tid, pc: Pc)
    requires IndexOk(s) && BuildOk(s) && CanSpawn(s, t, pc) && s' == Goto(s, t, pc)
    ensures IndexOk(s') && BuildOk(s')
  {
  }

  lemma ShutdownKeeps(s: Server)
    requires ServerOk(s)
    ensures ServerOk(s.(gate := StartDrain(s.gate)))
  {
    var s' := s.(gate := StartDrain(s.gate));
    ActionKeeps(s.gate, DoDrain);
    forall u | u in s.threads ensures TicketOk(s'.gate, u, s.threads[u]) {
      assert TicketOk(s.gate, u, s.threads[u]);
    }
    forall u | u in s.threads && OfWindow(s.threads[u]) ensures WindowOk(s'.gate, s.threads[u]) {
      assert WindowOk(s.gate, s.threads[u]);
    }
  }

  lemma StepKeeps(s: Server, m: Move, s': Server)
    requires ServerOk(s) && Enabled(s, m) && s' == Step(s, m)
    ensures ServerOk(s')
  {
    match m
    case Spawn(t, pc) => SpawnKeeps(s, s', t, pc);
    case Shutdown => ShutdownKeeps(s);
    case Run(t, ok) =>
      TicketsRun(s, t, ok, s');
      FreezeRun(s, t, ok, s');
      IndexRun(s, t, ok, s');
      BuildRun(s, t, ok, s');
  }

  // ---- The shared objects ----

  /** backupFreezeState under its mutex; a window's release function is named by its begin. */
  class BackupFreezeState {
    var active: bool
    var token: Option<Tid>
    var release: Option<Tid>
    ghost var opener: Option<Tid>
    ghost var closer: Option<Tid>

    ghost function View(): Freeze
      reads this
    {
      Freeze(active, token, release, opener, closer)
    }

    constructor ()
      ensures View() == Freeze(false, None, None, None, None)
    {
      active, token, release, opener, closer := false, None, None, None, None;
    }

    /** A begin enters unless a freeze is active. */
    method TryEnter(t: Tid) returns (ok: bool)
      modifies this
      ensures ok == !old(active)
      ensures View() == if ok then Entered(old(View()), t) else old(View())
    {
      if active {
        return false;
      }
      active, opener := true, Some(t);
      ok := true;
    }

    method Undo()
      modifies this
      ensures View() == Undone(old(View()))
    {
      active, opener := false, None;
    }

    method Open(t: Tid)
      modifies this
      ensures View() == Opened(old(View()), t)
    {
      token, release, opener := Some(t), Some(t), None;
    }

    /** clearBackupFreeze, for end and for the watchdog. */
    method Clear(presented: Option<Tid>, t: Tid) returns (handed: Option<Tid>, ok: bool)
      modifies this
      ensures ok == Clears(old(View()), presented)
      ensures if ok then View() == Cleared(old(View()), t) && handed == old(release) else View() == old(View()) && handed.None?
    {
      if !active || presented.None? || presented != token {
        return None, false;
      }
      handed, ok := release, true;
      active, token, release, closer := false, None, None, Some(t);
    }
  }

  /** The server's atomics; `complete` is the index itself. */
  class SearchIndexMemo {
    var rebuildGen: nat
    var indexComplete: bool
    var ensureRunning: bool
    ghost var complete: bool
    ghost var worker: Option<Tid>

    ghost function View(): Index
      reads this
    {
      Index(rebuildGen, indexComplete, ensureRunning, complete, worker)
    }

    constructor (ghost complete: bool)
      ensures View() == Index(0, false, false, complete, None)
    {
      rebuildGen, indexComplete, ensureRunning := 0, false, false;
      this.complete, worker := complete, None;
    }

    method BumpGeneration()
      modifies this
      ensures View() == Bumped(old(View()))
    {
      rebuildGen := rebuildGen + 1;
    }

    method Forget()
      modifies this
      ensures View() == Forgotten(old(View()))
    {
      indexComplete := false;
    }

    /** The compare-and-swap that lets one worker start at most. */
    method TryClaim(t: Tid) returns (start: bool)
      modifies this
      ensures start == !old(View()).running
      ensures View() == if start then Claimed(old(View()), t) else old(View())
    {
      if ensureRunning {
        return false;
      }
      ensureRunning, worker := true, Some(t);
      start := true;
    }

    /** The worker's second look at the generation, before it goes on to Memoize. */
    method Unmoved(g: nat) returns (passes: bool)
      ensures passes == Passes(View(), g)
    {
      passes := g % 2 == 0 && rebuildGen == g;
    }

    method Memoize()
      modifies this
      ensures View() == Memoized(old(View()))
    {
      indexComplete := true;
    }

    method Unclaim()
      modifies this
      ensures View() == Unclaimed(old(View()))
    {
      ensureRunning, worker := false, None;
    }
  }
}
