/** The serial operation gate: a one-slot semaphore with a drain flag, an active counter and a count
    of queued requests. Each acquisition attempt is a ticket that goes through the gate's critical
    sections one at a time, interleaved with everyone else's in any way. */
module OperationGate {
  import opened Options

  type Tid = nat

  /** Where an attempt is: queued, past the semaphore but not admitted, giving the semaphore back
      after a refusal, holding, released but with the semaphore still full, and over. */
  datatype Phase = Waiting | Got | Backing | Refused | Held | Half | Spent

  /** `counted`: the attempt is a request that has not returned from its begin call yet. */
  datatype Ticket = Ticket(phase: Phase, counted: bool)

  /** `sem`, `draining`, `active` and `waiters` are the gate's own fields. `tickets`, `owner` and
      `line` are bookkeeping no step looks at. */
  datatype Gate = Gate(sem: bool, draining: bool, active: nat, waiters: int,
                       tickets: map<Tid, Ticket>, owner: Option<Tid>, line: set<Tid>)

  const NEW_GATE := Gate(false, false, 0, 0, map[], None, {})

  predicate InHand(p: Phase) {
    p in {Got, Backing, Held, Half}
  }

  predicate At(g: Gate, t: Tid, p: Phase) {
    t in g.tickets && g.tickets[t].phase == p
  }

  function Move(g: Gate, t: Tid, p: Phase): map<Tid, Ticket>
    requires t in g.tickets
  {
    g.tickets[t := Ticket(p, g.tickets[t].counted)]
  }

  // ---- The critical sections ----

  /** A request counts itself before it queues; background work only queues. */
  function Arrive(g: Gate, t: Tid, request: bool): Gate {
    g.(waiters := if request then g.waiters + 1 else g.waiters,
    tickets := g.tickets[t := Ticket(Waiting, request)],
    line := if request then g.line + {t} else g.line)
  }

  /** Filling the semaphore; possible only when it is empty. */
  function Take(g: Gate, t: Tid): Gate
    requires At(g, t, Waiting)
  {
    g.(sem := true, tickets := Move(g, t, Got), owner := Some(t))
  }

  /** Leaving the queue on a done context or a closed drain channel. */
  function Leave(g: Gate, t: Tid): Gate
    requires At(g, t, Waiting)
  {
    g.(tickets := Move(g, t, Refused))
  }

  /** Past the semaphore: a dead context or a draining gate refuses, otherwise the work is active. */
  function Admit(g: Gate, t: Tid, alive: bool): Gate
    requires At(g, t, Got)
  {
    if !alive || g.draining then g.(tickets := Move(g, t, Backing))
    else g.(active := g.active + 1, tickets := Move(g, t, Held))
  }

  function GiveBack(g: Gate, t: Tid): Gate
    requires At(g, t, Backing)
  {
    g.(sem := false, tickets := Move(g, t, Refused), owner := None)
  }

  /** The begin call returns: a request stops counting as a waiter. */
  function Return(g: Gate, t: Tid): Gate
    requires At(g, t, Held) || At(g, t, Refused)
  {
    if g.tickets[t].counted then
      g.(waiters := g.waiters - 1, tickets := g.tickets[t := g.tickets[t].(counted := false)], line := g.line - {t})
    else g
  }

  /** The release function's first half, inside its once. */
  function Drop(g: Gate, t: Tid): Gate
    requires t in g.tickets
  {
    if g.tickets[t].phase.Held? then
      g.(active := if g.active > 0 then g.active - 1 else g.active, tickets := Move(g, t, Half))
    else g
  }

  /** Its second half: emptying the semaphore. */
  function Free(g: Gate, t: Tid): Gate
    requires t in g.tickets
  {
    if g.tickets[t].phase.Half? then g.(sem := false, tickets := Move(g, t, Spent), owner := None) else g
  }

  function StartDrain(g: Gate): Gate {
    g.(draining := true)
  }

  // ---- Any interleaving ----

  datatype Action = DoArrive(t: Tid, request: bool) | DoTake(t: Tid) | DoLeave(t: Tid) | DoAdmit(t: Tid, alive: bool)
                  | DoGiveBack(t: Tid) | DoReturn(t: Tid) | DoDrop(t: Tid) | DoFree(t: Tid) | DoDrain

  /** What can happen next. A release may be called any number of times once begin has returned. */
  predicate Can(g: Gate, a: Action) {
    match a
    case DoArrive(t, _) => t !in g.tickets
    case DoTake(t) => At(g, t, Waiting) && !g.sem
    case DoLeave(t) => At(g, t, Waiting)
    case DoAdmit(t, _) => At(g, t, Got)
    case DoGiveBack(t) => At(g, t, Backing)
    case DoReturn(t) => At(g, t, Held) || At(g, t, Refused)
    case DoDrop(t) => t in g.tickets && !g.tickets[t].counted && g.tickets[t].phase in {Held, Half, Spent}
    case DoFree(t) => t in g.tickets && !g.tickets[t].counted && g.tickets[t].phase in {Half, Spent}
    case DoDrain => true
  }

  function Do(g: Gate, a: Action): Gate
    requires Can(g, a)
  {
    match a
    case DoArrive(t, request) => Arrive(g, t, request)
    case DoTake(t) => Take(g, t)
    case DoLeave(t) => Leave(g, t)
    case DoAdmit(t, alive) => Admit(g, t, alive)
    case DoGiveBack(t) => GiveBack(g, t)
    case DoReturn(t) => Return(g, t)
    case DoDrop(t) => Drop(g, t)
    case DoFree(t) => Free(g, t)
    case DoDrain => StartDrain(g)
  }

  /** At most one attempt is past the semaphore, and the semaphore says whether one is. */
  ghost predicate OwnerOk(g: Gate) {
    && (forall t | t in g.tickets :: InHand(g.tickets[t].phase) <==> g.owner == Some(t))
    && (g.owner.Some? ==> g.owner.value in g.tickets)
    && (g.sem <==> g.owner.Some?)
  }

  /** The active counter says whether someone holds the gate. */
  ghost predicate ActiveOk(g: Gate) {
    g.active == if g.owner.Some? && At(g, g.owner.value, Held) then 1 else 0
  }

  /** The waiters counter is the number of requests that have not returned from begin. */
  ghost predicate LineOk(g: Gate) {
    && (forall t | t in g.tickets :: g.tickets[t].counted <==> t in g.line)
    && (forall t | t in g.line :: t in g.tickets)
    && g.waiters == |g.line|
  }

  ghost predicate GateOk(g: Gate) {
    OwnerOk(g) && ActiveOk(g) && LineOk(g)
  }

  lemma ActionKeepsOwner(g: Gate, a: Action)
    requires OwnerOk(g) && ActiveOk(g) && Can(g, a)
    ensures OwnerOk(Do(g, a)) && ActiveOk(Do(g, a))
  {
  }

  lemma ArriveKeepsLine(g: Gate, t: Tid, request: bool)
    requires LineOk(g) && t !in g.tickets
    ensures LineOk(Arrive(g, t, request))
  {
    assert t !in g.line && |g.line + {t}| == |g.line| + 1;
  }

  lemma ReturnKeepsLine(g: Gate, t: Tid)
    requires LineOk(g) && (At(g, t, Held) || At(g, t, Refused))
    ensures LineOk(Return(g, t))
  {
    assert t in g.line ==> |g.line - {t}| == |g.line| - 1;
  }

  lemma ActionKeepsLine(g: Gate, a: Action)
    requires LineOk(g) && Can(g, a)
    ensures LineOk(Do(g, a))
  {
    match a
    case DoArrive(t, request) => ArriveKeepsLine(g, t, request);
    case DoReturn(t) => ReturnKeepsLine(g, t);
    case _ => SameLine(g, Do(g, a));
  }

  /** Moves that change no one's counted flag. */
  lemma SameLine(g: Gate, g': Gate)
    requires LineOk(g) && g'.line == g.line && g'.waiters == g.waiters && g'.tickets.Keys == g.tickets.Keys
    requires forall t | t in g.tickets :: g'.tickets[t].counted == g.tickets[t].counted
    ensures LineOk(g')
  {
  }

  lemma ActionKeeps(g: Gate, a: Action)
    requires GateOk(g) && Can(g, a)
    ensures GateOk(Do(g, a))
  {
    ActionKeepsOwner(g, a);
    ActionKeepsLine(g, a);
  }

  function DoAll(g: Gate, actions: seq<Action>): Gate
    requires CanAll(g, actions)
    decreases |actions|
  {
    if actions == [] then g else DoAll(Do(g, actions[0]), actions[1..])
  }

  predicate CanAll(g: Gate, actions: seq<Action>)
    decreases |actions|
  {
    actions != [] ==> Can(g, actions[0]) && CanAll(Do(g, actions[0]), actions[1..])
  }

  lemma {:induction false} ActionsKeep(g: Gate, actions: seq<Action>)
    requires GateOk(g) && CanAll(g, actions)
    ensures GateOk(DoAll(g, actions))
    decreases |actions|
  {
    if actions != [] {
      ActionKeeps(g, actions[0]);
      ActionsKeep(Do(g, actions[0]), actions[1..]);
    }
  }

  /** Main result: in every interleaving at most one attempt holds the gate, and semaphore, active
      counter and waiter counter agree with who does what, however often releases are called. */
  lemma GateIsExclusive(actions: seq<Action>, t: Tid, u: Tid)
    requires CanAll(NEW_GATE, actions)
    ensures var g := DoAll(NEW_GATE, actions);
      && (At(g, t, Held) && At(g, u, Held) ==> t == u)
      && g.active <= 1 && (At(g, t, Held) ==> g.active == 1 && g.sem)
      && (g.active == 1 ==> g.owner.Some? && At(g, g.owner.value, Held))
      && (!g.sem ==> t in g.tickets ==> !InHand(g.tickets[t].phase))
      && g.waiters == |set x | x in g.tickets && g.tickets[x].counted|
  {
    ActionsKeep(NEW_GATE, actions);
    var g := DoAll(NEW_GATE, actions);
    assert g.line == set x | x in g.tickets && g.tickets[x].counted;
  }

  /** Once the gate drains and nothing is active, nothing becomes active again. */
  lemma {:induction false} DrainedStaysIdle(g: Gate, actions: seq<Action>)
    requires GateOk(g) && CanAll(g, actions) && g.draining && g.active == 0
    ensures DoAll(g, actions).draining && DoAll(g, actions).active == 0
    decreases |actions|
  {
    if actions != [] {
      ActionKeeps(g, actions[0]);
      DrainedStaysIdle(Do(g, actions[0]), actions[1..]);
    }
  }

  /** How far an attempt has come; the two ways a begin can end are on different branches. */
  function Progress(p: Phase): nat {
    match p
    case Waiting => 0
    case Got => 1
    case Backing => 2
    case Held => 2
    case Refused => 3
    case Half => 3
    case Spent => 4
  }

  /** No section takes an attempt back, and the only way out of holding is the release. */
  lemma PhasesAdvance(g: Gate, a: Action, t: Tid)
    requires Can(g, a) && t in g.tickets
    ensures t in Do(g, a).tickets
    ensures var p, p' := g.tickets[t].phase, Do(g, a).tickets[t].phase;
      p' == p || (Progress(p) < Progress(p') && (p.Held? ==> p' == Half && a == DoDrop(t)))
  {
  }

  // ---- The gate object ----

  /** SerialOperationGate, one method for each stretch of code it runs without interruption.
      `released` holds the once flags of the release functions handed out. */
  class SerialOperationGate {
    var sem: bool
    var draining: bool
    var active: nat
    var requestWaiters: int
    var released: set<Tid>
    ghost var tickets: map<Tid, Ticket>
    ghost var owner: Option<Tid>
    ghost var line: set<Tid>

    ghost function View(): Gate
      reads this
    {
      Gate(sem, draining, active, requestWaiters, tickets, owner, line)
    }

    ghost predicate Valid()
      reads this
    {
      && GateOk(View())
      && forall t | t in tickets :: t in released <==> tickets[t].phase in {Half, Spent}
    }

    constructor ()
      ensures View() == NEW_GATE && Valid()
    {
      sem, draining, active, requestWaiters := false, false, 0, 0;
      released, tickets, owner, line := {}, map[], None, {};
    }

    /** The entry of BeginRequestWorkContext, or of BeginLabeledWorkContext for background work. */
    method Enter(t: Tid, request: bool)
      requires Valid() && Can(View(), DoArrive(t, request)) && t !in released
      modifies this
      ensures View() == Do(old(View()), DoArrive(t, request)) && Valid()
    {
      ActionKeeps(View(), DoArrive(t, request));
      tickets := tickets[t := Ticket(Waiting, request)];
      if request {
        requestWaiters := requestWaiters + 1;
        line := line + {t};
      }
    }

    /** The select: the semaphore if it is free, else nothing yet. */
    method TrySem(t: Tid) returns (ok: bool)
      requires Valid() && At(View(), t, Waiting)
      modifies this
      ensures ok == !old(sem) && Valid()
      ensures View() == if ok then Do(old(View()), DoTake(t)) else old(View())
    {
      if sem {
        return false;
      }
      ActionKeeps(View(), DoTake(t));
      tickets := Move(View(), t, Got);
      sem, owner := true, Some(t);
      ok := true;
    }

    /** The section after the semaphore. */
    method TryAdmit(t: Tid, alive: bool) returns (ok: bool)
      requires Valid() && Can(View(), DoAdmit(t, alive))
      modifies this
      ensures View() == Do(old(View()), DoAdmit(t, alive)) && Valid()
      ensures ok == (alive && !old(draining)) && (ok ==> old(active) == 0)
    {
      ActionKeeps(View(), DoAdmit(t, alive));
      if !alive || draining {
        tickets := Move(View(), t, Backing);
        return false;
      }
      tickets := Move(View(), t, Held);
      active := active + 1;
      ok := true;
    }

    /** Emptying the semaphore after a refusal. */
    method GiveSemBack(t: Tid)
      requires Valid() && Can(View(), DoGiveBack(t))
      modifies this
      ensures View() == Do(old(View()), DoGiveBack(t)) && Valid()
    {
      ActionKeeps(View(), DoGiveBack(t));
      tickets := Move(View(), t, Refused);
      sem, owner := false, None;
    }

    /** The deferred part of BeginRequestWorkContext. */
    method Leave(t: Tid, request: bool)
      requires Valid() && Can(View(), DoReturn(t)) && tickets[t].counted == request
      modifies this
      ensures View() == Do(old(View()), DoReturn(t)) && Valid()
    {
      ActionKeeps(View(), DoReturn(t));
      if request {
        requestWaiters := requestWaiters - 1;
        tickets := tickets[t := tickets[t].(counted := false)];
        line := line - {t};
      }
    }

    /** The release function up to the end of its locked section. */
    method ReleaseActive(t: Tid)
      requires Valid() && Can(View(), DoDrop(t))
      modifies this
      ensures View() == Do(old(View()), DoDrop(t)) && Valid()
      ensures t in released && (old(At(View(), t, Held)) ==> active == 0 && sem)
    {
      ActionKeeps(View(), DoDrop(t));
      if t !in released {
        tickets := Move(View(), t, Half);
        if active > 0 {
          active := active - 1;
        }
        released := released + {t};
      }
    }

    /** Its last step. */
    method ReleaseSem(t: Tid)
      requires Valid() && At(View(), t, Half) && Can(View(), DoFree(t))
      modifies this
      ensures View() == Do(old(View()), DoFree(t)) && Valid() && !sem
    {
      ActionKeeps(View(), DoFree(t));
      tickets := Move(View(), t, Spent);
      sem, owner := false, None;
    }

    method StartDrain()
      requires Valid()
      modifies this`draining
      ensures View() == Do(old(View()), DoDrain) && Valid()
    {
      draining := true;
    }

    /** One look of Wait: nothing is active, and if the gate drains nothing ever will be. */
    method WaitPoll(ghost future: seq<Action>) returns (idle: bool)
      requires Valid() && CanAll(View(), future)
      ensures idle == forall t | t in tickets :: !tickets[t].phase.Held?
      ensures idle && draining ==> DoAll(View(), future).active == 0
    {
      idle := active == 0;
      if active == 0 && draining {
        DrainedStaysIdle(View(), future);
      }
      assert active == 1 ==> At(View(), owner.value, Held);
    }
  }
}
