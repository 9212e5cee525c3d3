/** Idle shutdown: the tracker drains only when nothing is active and nothing has been for a full
    timeout, and then runs its callback once. */
module IdleShutdown {

  type Id = nat

  /** The tracker's fields, the callback's once flag and call count, and as bookkeeping the begins
      whose done function has not run. `due`: runs told to fire and not there yet. */
  datatype Tracker = Tracker(timeout: int, last: int, external: nat, work: nat, draining: bool,
                             once: bool, fired: nat, due: nat, openExternal: set<Id>, openWork: set<Id>)

  /** One locked section, at a time of the clock. A poll brings the time it read before it locked. */
  datatype Action =
    | BeginExternal(id: Id) | EndExternal(id: Id) | BeginWork(id: Id) | EndWork(id: Id)
    | Touch | Poll(now: int) | Fire

  datatype Event = Event(time: int, action: Action)

  function NewTracker(timeout: int, now: int): Tracker {
    Tracker(timeout, now, 0, 0, false, false, 0, 0, {}, {})
  }

  predicate Can(s: Tracker, a: Action) {
    match a
    case BeginExternal(id) => id !in s.openExternal
    case BeginWork(id) => id !in s.openWork
    case Poll(_) => s.timeout > 0
    case Fire => s.due > 0
    case _ => true
  }

  function Less(n: nat): nat {
    if n > 0 then n - 1 else n
  }

  /** nextWait's decision to fire. */
  predicate Fires(s: Tracker, now: int) {
    s.draining || (s.external == 0 && s.work == 0 && now - s.last >= s.timeout)
  }

  function Do(s: Tracker, e: Event): Tracker
    requires Can(s, e.action)
  {
    match e.action
    case BeginExternal(id) => if s.draining then s else s.(external := s.external + 1, openExternal := s.openExternal + {id})
    case BeginWork(id) => if s.draining then s else s.(work := s.work + 1, openWork := s.openWork + {id})
    case EndExternal(id) =>
      if id in s.openExternal then s.(external := Less(s.external), last := e.time, openExternal := s.openExternal - {id}) else s
    case EndWork(id) => if id in s.openWork then s.(work := Less(s.work), last := e.time, openWork := s.openWork - {id}) else s
    case Touch => if s.draining then s else s.(last := e.time)
    case Poll(now) => if Fires(s, now) then s.(draining := true, due := s.due + 1) else s
    case Fire => if s.once then s.(due := s.due - 1) else s.(due := s.due - 1, once := true, fired := s.fired + 1)
  }

  /** The wait nextWait asks for when it does not fire. */
  function Wait(s: Tracker, now: int): int
    requires !Fires(s, now)
  {
    if s.external > 0 || s.work > 0 then s.timeout else s.timeout - (now - s.last)
  }

  ghost predicate TrackerOk(s: Tracker) {
    && s.external == |s.openExternal| && s.work == |s.openWork|
    && (s.draining ==> s.openExternal == {} && s.openWork == {})
    && s.fired == (if s.once then 1 else 0)
    && (s.due > 0 || s.once ==> s.draining)
  }

  lemma DoKeeps(s: Tracker, e: Event)
    requires TrackerOk(s) && Can(s, e.action)
    ensures TrackerOk(Do(s, e))
  {
    match e.action
    case BeginExternal(id) => assert |s.openExternal + {id}| == |s.openExternal| + 1;
    case BeginWork(id) => assert |s.openWork + {id}| == |s.openWork| + 1;
    case EndExternal(id) => assert id in s.openExternal ==> |s.openExternal - {id}| == |s.openExternal| - 1;
    case EndWork(id) => assert id in s.openWork ==> |s.openWork - {id}| == |s.openWork| - 1;
    case _ =>
  }

  /** An execution: the states before and after each event, in the order of the lock. */
  ghost predicate Runs(states: seq<Tracker>, events: seq<Event>) {
    && |states| == |events| + 1 && (exists timeout, now :: states[0] == NewTracker(timeout, now))
    && (forall k | 0 <= k < |events| :: Can(states[k], events[k].action) && states[k + 1] == Do(states[k], events[k]))
    && (forall i, j | 0 <= i <= j < |events| :: states[0].last <= events[i].time <= events[j].time)
  }

  lemma {:induction false} AlwaysOk(states: seq<Tracker>, events: seq<Event>, k: nat)
    requires Runs(states, events) && k < |states|
    ensures TrackerOk(states[k]) && states[k].timeout == states[0].timeout
  {
    if k > 0 {
      AlwaysOk(states, events, k - 1);
      DoKeeps(states[k - 1], events[k - 1]);
    }
  }

  /** Main result: whoever is draining has nothing active, and the callback has run at most once, and
      only then. */
  lemma DrainingIsQuiet(states: seq<Tracker>, events: seq<Event>, k: nat)
    requires Runs(states, events) && k < |states|
    ensures states[k].draining ==> states[k].external == 0 && states[k].work == 0
    ensures states[k].fired <= 1 && (states[k].fired == 1 ==> states[k].draining)
    ensures states[k].draining ==> states[k].openExternal == {} && states[k].openWork == {}
  {
    AlwaysOk(states, events, k);
  }

  predicate Active(s: Tracker) {
    s.openExternal != {} || s.openWork != {}
  }

  /** The event is activity: it begins or ends something, or touches. */
  predicate IsActivity(s: Tracker, a: Action) {
    match a
    case BeginExternal(_) => !s.draining
    case BeginWork(_) => !s.draining
    case EndExternal(id) => id in s.openExternal
    case EndWork(id) => id in s.openWork
    case Touch => !s.draining
    case _ => false
  }

  /** After activity at event i the tracker stays active, or remembers a time no earlier. */
  lemma {:induction false} Remembered(states: seq<Tracker>, events: seq<Event>, i: nat, j: nat)
    requires Runs(states, events) && i < j < |states|
    requires IsActivity(states[i], events[i].action) || Active(states[i])
    ensures Active(states[j]) || states[j].last >= events[i].time
    decreases j
  {
    AlwaysOk(states, events, i);
    if i + 1 < j {
      Remembered(states, events, i, j - 1);
      assert events[i].time <= events[j - 1].time;
      AlwaysOk(states, events, j - 1);
      OneMore(states[j - 1], events[j - 1], events[i].time);
    } else {
      First(states[i], events[i]);
    }
  }

  lemma First(s: Tracker, e: Event)
    requires TrackerOk(s) && Can(s, e.action) && (IsActivity(s, e.action) || Active(s))
    ensures Active(Do(s, e)) || Do(s, e).last >= e.time
  {
  }

  lemma OneMore(s: Tracker, e: Event, t: int)
    requires TrackerOk(s) && Can(s, e.action) && t <= e.time && (Active(s) || s.last >= t)
    ensures Active(Do(s, e)) || Do(s, e).last >= t
  {
    if Active(s) {
      First(s, e);
    }
  }

  /** Main result: a poll that starts the drain comes a full timeout after the tracker was made, finds nothing
      active, and has seen a full timeout in which nothing was active, began, ended or touched. */
  lemma DrainsAfterFullTimeout(states: seq<Tracker>, events: seq<Event>, j: nat)
    requires Runs(states, events) && j < |events| && events[j].action.Poll?
    requires !states[j].draining && states[j + 1].draining
    ensures events[j].action.now - states[0].last >= states[0].timeout && !Active(states[j])
    ensures forall i | 0 <= i < j && events[i].time > events[j].action.now - states[0].timeout ::
      !Active(states[i]) && !IsActivity(states[i], events[i].action)
  {
    AlwaysOk(states, events, j);
    NotBeforeCreation(states, events, j);
    assert states[j + 1] == Do(states[j], events[j]);
    forall i | 0 <= i < j && events[i].time > events[j].action.now - states[0].timeout
      ensures !Active(states[i]) && !IsActivity(states[i], events[i].action)
    {
      if IsActivity(states[i], events[i].action) || Active(states[i]) {
        Remembered(states, events, i, j);
      }
    }
  }

  lemma {:induction false} NotBeforeCreation(states: seq<Tracker>, events: seq<Event>, k: nat)
    requires Runs(states, events) && k < |states|
    ensures states[0].last <= states[k].last
  {
    if k > 0 {
      NotBeforeCreation(states, events, k - 1);
    }
  }

  /** The tracker wakes no later than it has to: if nothing happens for the wait it asked for, the
      next poll fires; and it never asks for more than one timeout. */
  lemma WaitIsEnough(s: Tracker, now: int)
    requires TrackerOk(s) && s.timeout > 0 && s.last <= now && !Fires(s, now)
    ensures 0 < Wait(s, now) <= s.timeout
    ensures !Active(s) ==> Fires(s, now + Wait(s, now)) && forall t | now <= t < now + Wait(s, now) :: !Fires(s, t)
  {
  }

  // ---- The tracker object ----

  class IdleTracker {
    const timeout: int
    var lastExternal: int
    var activeExternal: nat
    var activeWork: nat
    var draining: bool
    var once: bool
    ghost var fired: nat
    ghost var due: nat
    ghost var openExternal: set<Id>
    ghost var openWork: set<Id>
    var doneExternal: set<Id>
    var doneWork: set<Id>

    ghost function View(): Tracker
      reads this
    {
      Tracker(timeout, lastExternal, activeExternal, activeWork, draining, once, fired, due, openExternal, openWork)
    }

    /** The once flags of the done functions handed out. */
    ghost predicate Valid()
      reads this
    {
      TrackerOk(View()) && openExternal !! doneExternal && openWork !! doneWork
    }

    constructor (timeout: int, now: int)
      ensures View() == NewTracker(timeout, now) && Valid()
    {
      this.timeout, lastExternal, activeExternal, activeWork, draining, once := timeout, now, 0, 0, false, false;
      fired, due, openExternal, openWork, doneExternal, doneWork := 0, 0, {}, {}, {}, {};
    }

    method TryBeginExternal(id: Id, now: int) returns (ok: bool)
      requires Valid() && Can(View(), BeginExternal(id)) && id !in doneExternal
      modifies this
      ensures Valid() && View() == Do(old(View()), Event(now, BeginExternal(id)))
      ensures ok == !old(draining) && (ok ==> id in openExternal)
    {
      DoKeeps(View(), Event(now, BeginExternal(id)));
      if draining {
        return false;
      }
      activeExternal, openExternal := activeExternal + 1, openExternal + {id};
      ok := true;
    }

    /** The done function of a request; calls after the first do nothing. */
    method DoneExternal(id: Id, now: int)
      requires Valid() && (id in openExternal || id in doneExternal)
      modifies this
      ensures Valid() && View() == Do(old(View()), Event(now, EndExternal(id)))
    {
      DoKeeps(View(), Event(now, EndExternal(id)));
      if id !in doneExternal {
        if activeExternal > 0 {
          activeExternal := activeExternal - 1;
        }
        lastExternal, openExternal, doneExternal := now, openExternal - {id}, doneExternal + {id};
      }
    }

    method TryBeginWork(id: Id, now: int) returns (ok: bool)
      requires Valid() && Can(View(), BeginWork(id)) && id !in doneWork
      modifies this
      ensures Valid() && View() == Do(old(View()), Event(now, BeginWork(id)))
      ensures ok == !old(draining) && (ok ==> id in openWork)
    {
      DoKeeps(View(), Event(now, BeginWork(id)));
      if draining {
        return false;
      }
      activeWork, openWork := activeWork + 1, openWork + {id};
      ok := true;
    }

    method DoneWork(id: Id, now: int)
      requires Valid() && (id in openWork || id in doneWork)
      modifies this
      ensures Valid() && View() == Do(old(View()), Event(now, EndWork(id)))
    {
      DoKeeps(View(), Event(now, EndWork(id)));
      if id !in doneWork {
        if activeWork > 0 {
          activeWork := activeWork - 1;
        }
        lastExternal, openWork, doneWork := now, openWork - {id}, doneWork + {id};
      }
    }

    method TouchNow(now: int)
      requires Valid()
      modifies this`lastExternal
      ensures Valid() && View() == Do(old(View()), Event(now, Touch))
    {
      if !draining {
        lastExternal := now;
      }
    }

    method NextWait(now: int) returns (wait: int, fire: bool)
      requires Valid() && timeout > 0
      modifies this`draining, this`due
      ensures Valid() && View() == Do(old(View()), Event(now, Poll(now)))
      ensures fire == old(Fires(View(), now)) && wait == if fire then 0 else old(Wait(View(), now))
    {
      DoKeeps(View(), Event(now, Poll(now)));
      if draining {
        due := due + 1;
        return 0, true;
      }
      if activeExternal > 0 || activeWork > 0 {
        return timeout, false;
      }
      var elapsed := now - lastExternal;
      if elapsed >= timeout {
        draining, due := true, due + 1;
        return 0, true;
      }
      return timeout - elapsed, false;
    }

    /** The once around the callback. */
    method FireOnce() returns (called: bool)
      requires Valid() && due > 0
      modifies this`once, this`fired, this`due
      ensures Valid() && View() == Do(old(View()), Event(0, Fire)) && called == (fired == old(fired) + 1)
      ensures called ==> old(fired) == 0
    {
      DoKeeps(View(), Event(0, Fire));
      called := !once;
      if called {
        fired := fired + 1;
      }
      once, due := true, due - 1;
    }
  }
}
