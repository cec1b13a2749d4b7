/** The service-wide limiter and the keyed book lock (service.go: WithBookLock, bookLock). Lock
    objects come and go under a reference count; each step below is one the code does atomically. */
module BookLock {
  import opened Inventory

  type Key = string
  type Id = nat   // of a goroutine, or of a lock object

  /** Where a goroutine is: before the limiter, behind it, queued on a lock object, in the section
      (with the depth of nested calls), past the unlock, past the release of its reference. */
  datatype Phase = WantSlot | HasSlot | Waiting(obj: Id) | Inside(obj: Id, depth: nat) | Unlocked(obj: Id) | Released

  datatype Routine = Routine(key: Key, phase: Phase)

  datatype LockObject = LockObject(refs: nat, holder: Option<Id>)

  /** `routines` has the goroutines that are not idle, `objects` every object ever made. */
  datatype State = State(limit: nat, used: nat, locks: map<Key, Id>, objects: map<Id, LockObject>, routines: map<Id, Routine>)

  function Start(limit: nat): State { State(limit, 0, map[], map[], map[]) }

  /** Call(key) is a call of WithBookLock: from outside it queues for the limiter; from inside it
      asks for the key the caller's context says it holds. */
  datatype Action = Call(key: Key) | Take | GiveUp | Get(made: Id) | Lock | Leave | Unlock | Release | Free

  /** The key that the context of goroutine t carries (bookLockHeld). */
  function Held(s: State, t: Id): Option<Key> {
    if t in s.routines && s.routines[t].phase.Inside? then Some(s.routines[t].key) else None
  }

  predicate Enabled(s: State, t: Id, a: Action) {
    if a.Call? then t !in s.routines || Held(s, t) == Some(a.key)
    else
      && t in s.routines
      && var p := s.routines[t].phase;
      match a
      case Take => p.WantSlot? && s.used < s.limit
      case GiveUp => p.WantSlot?
      case Get(made) => p.HasSlot? && made !in s.objects
      case Lock => p.Waiting? && p.obj in s.objects && s.objects[p.obj].holder.None?
      case Leave => p.Inside? && p.depth > 0
      case Unlock => p.Inside? && p.depth == 0 && p.obj in s.objects
      case Release => p.Unlocked? && p.obj in s.objects && s.objects[p.obj].refs > 0
      case Free => p.Released? && s.used > 0
      case Call(_) => false
  }

  function Moved(s: State, t: Id, phase: Phase): State
    requires t in s.routines
  {
    s.(routines := s.routines[t := s.routines[t].(phase := phase)])
  }

  function Next(s: State, t: Id, a: Action): State
    requires Enabled(s, t, a)
  {
    match a
    case Call(key) =>
      if Held(s, t) == Some(key) then Moved(s, t, Inside(s.routines[t].phase.obj, s.routines[t].phase.depth + 1))
      else s.(routines := s.routines[t := Routine(key, WantSlot)])
    case Take => Moved(s, t, HasSlot).(used := s.used + 1)
    case GiveUp => s.(routines := s.routines - {t})
    case Get(made) =>
      var key := s.routines[t].key;
      if key in s.locks && s.locks[key] in s.objects then
        var obj := s.locks[key];
        Moved(s, t, Waiting(obj)).(objects := s.objects[obj := s.objects[obj].(refs := s.objects[obj].refs + 1)])
      else
        Moved(s, t, Waiting(made)).(objects := s.objects[made := LockObject(1, None)], locks := s.locks[key := made])
    case Lock =>
      var obj := s.routines[t].phase.obj;
      Moved(s, t, Inside(obj, 0)).(objects := s.objects[obj := s.objects[obj].(holder := Some(t))])
    case Leave => Moved(s, t, Inside(s.routines[t].phase.obj, s.routines[t].phase.depth - 1))
    case Unlock =>
      var obj := s.routines[t].phase.obj;
      Moved(s, t, Unlocked(obj)).(objects := s.objects[obj := s.objects[obj].(holder := None)])
    case Release =>
      var key, obj := s.routines[t].key, s.routines[t].phase.obj;
      var refs := s.objects[obj].refs - 1;
      Moved(s, t, Released).(objects := s.objects[obj := s.objects[obj].(refs := refs)],
                             locks := if refs == 0 then s.locks - {key} else s.locks)
    case Free => s.(routines := s.routines - {t}, used := s.used - 1)
  }

  // ---- The invariant ----

  predicate Refers(r: Routine) { r.phase.Waiting? || r.phase.Inside? || r.phase.Unlocked? }

  /** Holders, waiters, and those about to give their reference back. */
  ghost function Users(s: State, key: Key): set<Id> {
    set t | t in s.routines && s.routines[t].key == key && Refers(s.routines[t])
  }

  ghost function Slotted(s: State): set<Id> {
    set t | t in s.routines && !s.routines[t].phase.WantSlot?
  }

  ghost predicate KeyOK(s: State, key: Key)
    requires key in s.locks
  {
    && s.locks[key] in s.objects
    && var o := s.objects[s.locks[key]];
    && o.refs == |Users(s, key)| && o.refs > 0
    && (o.holder.Some? ==>
          && o.holder.value in s.routines && s.routines[o.holder.value].key == key
          && s.routines[o.holder.value].phase.Inside?)
  }

  ghost predicate RoutineOK(s: State, t: Id)
    requires t in s.routines
  {
    var r := s.routines[t];
    Refers(r) ==>
      && r.key in s.locks && s.locks[r.key] == r.phase.obj && r.phase.obj in s.objects
      && (r.phase.Inside? <==> s.objects[r.phase.obj].holder == Some(t))
  }

  ghost predicate Inv(s: State) {
    && s.used == |Slotted(s)| && s.used <= s.limit
    && (forall key :: key in s.locks ==> KeyOK(s, key))
    && (forall k1, k2 :: k1 in s.locks && k2 in s.locks && k1 != k2 ==> s.locks[k1] != s.locks[k2])
    && (forall t :: t in s.routines ==> RoutineOK(s, t))
  }

  lemma StartOK(limit: nat)
    ensures Inv(Start(limit))
  {
    assert Slotted(Start(limit)) == {};
  }

  /** Nobody but t moves. */
  ghost predicate OnlyMoves(s: State, s': State, t: Id) {
    && s'.limit == s.limit
    && forall u :: u != t ==> (u in s.routines <==> u in s'.routines) && (u in s.routines ==> s.routines[u] == s'.routines[u])
  }

  ghost predicate Uses(s: State, t: Id, key: Key) { t in s.routines && s.routines[t].key == key && Refers(s.routines[t]) }

  ghost predicate HasSlotIn(s: State, t: Id) { t in s.routines && !s.routines[t].phase.WantSlot? }

  /** How the set behind a reference count changes when one goroutine moves. */
  lemma UsersMove(s: State, s': State, t: Id, key: Key)
    requires OnlyMoves(s, s', t)
    ensures Users(s', key) == if Uses(s', t, key) then Users(s, key) + {t} else Users(s, key) - {t}
  {
  }

  lemma UsersStay(s: State, s': State, t: Id, key: Key)
    requires OnlyMoves(s, s', t) && (Uses(s, t, key) <==> Uses(s', t, key))
    ensures Users(s', key) == Users(s, key)
  {
    UsersMove(s, s', t, key);
    assert t in Users(s, key) <==> Uses(s, t, key);
  }

  lemma SlotsMove(s: State, s': State, t: Id)
    requires OnlyMoves(s, s', t)
    ensures Slotted(s') == if HasSlotIn(s', t) then Slotted(s) + {t} else Slotted(s) - {t}
  {
  }

  lemma SlotsStay(s: State, s': State, t: Id)
    requires OnlyMoves(s, s', t) && HasSlotIn(s, t) && HasSlotIn(s', t)
    ensures Slotted(s') == Slotted(s)
  {
    SlotsMove(s, s', t);
    assert t in Slotted(s);
  }

  /** A goroutine that refers to a lock object refers to the one in the table. */
  lemma UsersShareTheObject(s: State, t: Id)
    requires Inv(s) && t in s.routines && Refers(s.routines[t])
    ensures s.routines[t].key in s.locks && s.locks[s.routines[t].key] == s.routines[t].phase.obj
    ensures t in Users(s, s.routines[t].key)
  {
    assert RoutineOK(s, t);
  }

  /** Before and after a step on one key, everything about another key is the same. */
  lemma OtherKeyStays(s: State, s': State, t: Id, key: Key, k: Key)
    requires Inv(s) && OnlyMoves(s, s', t) && k != key && k in s.locks && k in s'.locks
    requires (t in s.routines ==> s.routines[t].key == key) && (t in s'.routines ==> s'.routines[t].key == key)
    requires s'.locks[k] == s.locks[k] && s'.locks[k] in s'.objects && s'.objects[s.locks[k]] == s.objects[s.locks[k]]
    ensures KeyOK(s', k)
  {
    assert KeyOK(s, k);
    UsersStay(s, s', t, k);
  }

  /** A step that leaves the table and the objects alone. */
  lemma QuietMove(s: State, s': State, t: Id)
    requires Inv(s) && OnlyMoves(s, s', t) && s'.locks == s.locks && s'.objects == s.objects
    requires s'.used == (s.used - if HasSlotIn(s, t) then 1 else 0) + (if HasSlotIn(s', t) then 1 else 0) && s'.used <= s'.limit
    requires t in s.routines && Refers(s.routines[t]) ==>
               t in s'.routines && s'.routines[t].key == s.routines[t].key && s.routines[t].phase.Inside? && s'.routines[t].phase.Inside?
               && s'.routines[t].phase.obj == s.routines[t].phase.obj
    requires t in s'.routines && Refers(s'.routines[t]) ==> t in s.routines && Refers(s.routines[t])
    ensures Inv(s')
  {
    SlotsMove(s, s', t);
    assert t in s.routines ==> RoutineOK(s, t);
    forall k | k in s'.locks ensures KeyOK(s', k) {
      assert KeyOK(s, k);
      UsersStay(s, s', t, k);
    }
    forall u | u in s'.routines ensures RoutineOK(s', u) {
      if u != t { assert RoutineOK(s, u); }
    }
  }

  /** The holder of one object changes. */
  lemma HolderMove(s: State, s': State, t: Id, holder: Option<Id>)
    requires Inv(s) && OnlyMoves(s, s', t) && s'.locks == s.locks && s'.used == s.used
    requires t in s.routines && t in s'.routines && Refers(s.routines[t]) && Refers(s'.routines[t])
    requires s'.routines[t].key == s.routines[t].key && s'.routines[t].phase.obj == s.routines[t].phase.obj
    requires var obj := s.routines[t].phase.obj;
             && obj in s.objects && s'.objects == s.objects[obj := s.objects[obj].(holder := holder)]
             && (if s'.routines[t].phase.Inside? then holder == Some(t) && s.objects[obj].holder.None?
                 else holder.None? && s.routines[t].phase.Inside?)
    ensures Inv(s')
  {
    SlotsStay(s, s', t);
    UsersShareTheObject(s, t);
    var key := s.routines[t].key;
    forall k | k in s'.locks ensures KeyOK(s', k) {
      if k == key {
        assert KeyOK(s, k);
        UsersStay(s, s', t, k);
      } else {
        assert KeyOK(s, k);
        OtherKeyStays(s, s', t, key, k);
      }
    }
    forall u | u in s'.routines ensures RoutineOK(s', u) {
      assert RoutineOK(s, u);
    }
  }

  /** A reference to the object in the table. */
  lemma JoinKeepsInv(s: State, t: Id, a: Action)
    requires Inv(s) && Enabled(s, t, a) && a.Get? && s.routines[t].key in s.locks
    ensures Inv(Next(s, t, a))
  {
    var s' := Next(s, t, a);
    var key := s.routines[t].key;
    assert KeyOK(s, key);
    SlotsStay(s, s', t);
    UsersMove(s, s', t, key);
    assert t !in Users(s, key);
    forall k | k in s'.locks ensures KeyOK(s', k) {
      if k != key {
        assert KeyOK(s, k);
        OtherKeyStays(s, s', t, key, k);
      }
    }
    forall u | u in s'.routines ensures RoutineOK(s', u) {
      if u != t { assert RoutineOK(s, u); }
    }
  }

  /** A new object, of which the table knew nothing. */
  lemma CreateKeepsInv(s: State, t: Id, a: Action)
    requires Inv(s) && Enabled(s, t, a) && a.Get? && s.routines[t].key !in s.locks
    ensures Inv(Next(s, t, a))
  {
    var s' := Next(s, t, a);
    var key := s.routines[t].key;
    SlotsStay(s, s', t);
    UsersMove(s, s', t, key);
    forall u ensures u !in Users(s, key) {
      if u in Users(s, key) { UsersShareTheObject(s, u); }
    }
    assert Users(s', key) == {t};
    forall k | k in s.locks ensures k in s'.locks && k != key && s'.locks[k] == s.locks[k] && s.locks[k] != a.made && KeyOK(s', k) {
      assert KeyOK(s, k);
      OtherKeyStays(s, s', t, key, k);
    }
    forall u | u in s'.routines ensures RoutineOK(s', u) {
      if u != t { assert RoutineOK(s, u); }
    }
  }

  lemma ReleaseKeepsInv(s: State, t: Id, a: Action)
    requires Inv(s) && Enabled(s, t, a) && a.Release?
    ensures Inv(Next(s, t, a))
  {
    var s' := Next(s, t, a);
    var key, obj := s.routines[t].key, s.routines[t].phase.obj;
    assert OnlyMoves(s, s', t);
    SlotsStay(s, s', t);
    UsersShareTheObject(s, t);
    UsersMove(s, s', t, key);
    assert RoutineOK(s, t) && KeyOK(s, key);
    assert |Users(s', key)| == s.objects[obj].refs - 1;
    forall k | k in s'.locks ensures KeyOK(s', k) {
      if k != key {
        assert KeyOK(s, k);
        OtherKeyStays(s, s', t, key, k);
      }
    }
    forall u | u in s'.routines ensures RoutineOK(s', u) {
      if u != t {
        assert RoutineOK(s, u);
        if Refers(s.routines[u]) && s.routines[u].key == key {
          assert u in Users(s', key);   // another user remains, so the object does
          assert |Users(s', key)| > 0;
        }
      }
    }
  }

  lemma NextKeepsInv(s: State, t: Id, a: Action)
    requires Inv(s) && Enabled(s, t, a)
    ensures Inv(Next(s, t, a)) && Next(s, t, a).limit == s.limit
  {
    var s' := Next(s, t, a);
    if a.Get? && s.routines[t].key in s.locks { JoinKeepsInv(s, t, a); }
    else if a.Get? { CreateKeepsInv(s, t, a); }
    else if a.Release? { ReleaseKeepsInv(s, t, a); }
    else {
      assert t in s.routines ==> RoutineOK(s, t);
      if a.Lock? { HolderMove(s, s', t, Some(t)); }
      else if a.Unlock? { HolderMove(s, s', t, None); }
      else { QuietMove(s, s', t); }
    }
  }

  // ---- The two critical sections of the table's own mutex ----

  /** The table of lock objects; `next` names the object that would be made next. */
  class LockTable {
    var locks: map<Key, Id>
    var objects: map<Id, LockObject>
    var next: Id

    ghost predicate At(s: State)
      reads this
    {
      locks == s.locks && objects == s.objects && forall obj :: obj in objects ==> obj < next
    }

    /** Finds or makes the lock object of a key and counts the caller: the step Get. */
    method GetLock(key: Key, ghost s: State, ghost t: Id) returns (obj: Id)
      requires Inv(s) && At(s) && t in s.routines && s.routines[t] == Routine(key, HasSlot)
      modifies this
      ensures var a := Get(old(next));
              Enabled(s, t, a) && At(Next(s, t, a)) && Next(s, t, a).routines[t] == Routine(key, Waiting(obj))
    {
      assert key in s.locks ==> KeyOK(s, key);
      if key !in locks {
        locks, objects := locks[key := next], objects[next := LockObject(0, None)];
        next := next + 1;
      }
      obj := locks[key];
      objects := objects[obj := objects[obj].(refs := objects[obj].refs + 1)];
    }

    /** Takes the caller off the count and forgets an object that nobody uses: the step Release. */
    method ReleaseLock(key: Key, obj: Id, ghost s: State, ghost t: Id)
      requires At(s) && t in s.routines && s.routines[t] == Routine(key, Unlocked(obj)) && Enabled(s, t, Release)
      modifies this
      ensures At(Next(s, t, Release))
    {
      objects := objects[obj := objects[obj].(refs := objects[obj].refs - 1)];
      if objects[obj].refs == 0 {
        locks := locks - {key};
      }
    }
  }

  // ---- What holds however the steps interleave ----

  /** A schedule; a step that is not enabled when its turn comes does not happen. */
  function Scheduled(s: State, steps: seq<(Id, Action)>): State {
    if steps == [] then s
    else
      var before := Scheduled(s, steps[..|steps| - 1]);
      var (t, a) := steps[|steps| - 1];
      if Enabled(before, t, a) then Next(before, t, a) else before
  }

  lemma {:induction false} ScheduleKeepsInv(limit: nat, steps: seq<(Id, Action)>)
    ensures Inv(Scheduled(Start(limit), steps)) && Scheduled(Start(limit), steps).limit == limit
  {
    if steps == [] {
      StartOK(limit);
    } else {
      ScheduleKeepsInv(limit, steps[..|steps| - 1]);
      var before := Scheduled(Start(limit), steps[..|steps| - 1]);
      var (t, a) := steps[|steps| - 1];
      if Enabled(before, t, a) { NextKeepsInv(before, t, a); }
    }
  }

  predicate InSection(s: State, t: Id, key: Key) { t in s.routines && s.routines[t].key == key && s.routines[t].phase.Inside? }

  /** Two goroutines are never in the section of one book. */
  lemma MutualExclusion(limit: nat, steps: seq<(Id, Action)>, t: Id, u: Id, key: Key)
    requires var s := Scheduled(Start(limit), steps); InSection(s, t, key) && InSection(s, u, key)
    ensures t == u
  {
    ScheduleKeepsInv(limit, steps);
    var s := Scheduled(Start(limit), steps);
    assert RoutineOK(s, t) && RoutineOK(s, u);
  }

  ghost function Sections(s: State): set<Id> {
    set t | t in s.routines && s.routines[t].phase.Inside?
  }

  lemma SubsetSize(a: set<Id>, b: set<Id>)
    requires a <= b
    ensures |a| <= |b|
  {
    assert b == a + (b - a);
  }

  /** No more books are worked on at once than the limiter has slots, nested calls included. */
  lemma LimitHolds(limit: nat, steps: seq<(Id, Action)>)
    ensures |Sections(Scheduled(Start(limit), steps))| <= limit
  {
    ScheduleKeepsInv(limit, steps);
    var s := Scheduled(Start(limit), steps);
    SubsetSize(Sections(s), Slotted(s));
  }

  /** The count of a lock object is the number of its holders and waiters, and the object is in
      the table exactly while there are any. */
  lemma CountIsUsers(limit: nat, steps: seq<(Id, Action)>, key: Key)
    ensures var s := Scheduled(Start(limit), steps);
            && (key in s.locks <==> Users(s, key) != {})
            && (key in s.locks ==> s.locks[key] in s.objects && s.objects[s.locks[key]].refs == |Users(s, key)|)
  {
    ScheduleKeepsInv(limit, steps);
    var s := Scheduled(Start(limit), steps);
    if key in s.locks {
      assert KeyOK(s, key);
    } else if t :| t in Users(s, key) {
      UsersShareTheObject(s, t);
    }
  }

  // ---- Nested calls ----

  /** n calls of goroutine t for this key, one inside the other, and their returns. */
  function Calls(t: Id, key: Key, n: nat): seq<(Id, Action)> {
    if n == 0 then [] else Calls(t, key, n - 1) + [(t, Call(key))]
  }

  function Leaves(t: Id, n: nat): seq<(Id, Action)> {
    if n == 0 then [] else Leaves(t, n - 1) + [(t, Leave)]
  }

  /** The same state, goroutine t being n calls deeper. */
  function Deeper(s: State, t: Id, n: nat): State
    requires t in s.routines && s.routines[t].phase.Inside?
  {
    Moved(s, t, Inside(s.routines[t].phase.obj, s.routines[t].phase.depth + n))
  }

  lemma ScheduledOn(s: State, a: seq<(Id, Action)>, t: Id, x: Action)
    ensures Scheduled(s, a + [(t, x)]) == var before := Scheduled(s, a); if Enabled(before, t, x) then Next(before, t, x) else before
  {
    assert (a + [(t, x)])[..|a|] == a;
  }

  lemma OneDeeper(s: State, t: Id, key: Key, n: nat)
    requires Held(s, t) == Some(key)
    ensures var d := Deeper(s, t, n); Enabled(d, t, Call(key)) && Next(d, t, Call(key)) == Deeper(s, t, n + 1)
  {
    assert s.routines[t := s.routines[t].(phase := Inside(s.routines[t].phase.obj, s.routines[t].phase.depth + n))]
                     [t := s.routines[t].(phase := Inside(s.routines[t].phase.obj, s.routines[t].phase.depth + n + 1))]
        == s.routines[t := s.routines[t].(phase := Inside(s.routines[t].phase.obj, s.routines[t].phase.depth + n + 1))];
  }

  lemma OneBack(s: State, t: Id, n: nat)
    requires t in s.routines && s.routines[t].phase.Inside? && n > 0
    ensures var d := Deeper(s, t, n); Enabled(d, t, Leave) && Next(d, t, Leave) == Deeper(s, t, n - 1)
  {
    assert s.routines[t := s.routines[t].(phase := Inside(s.routines[t].phase.obj, s.routines[t].phase.depth + n))]
                     [t := s.routines[t].(phase := Inside(s.routines[t].phase.obj, s.routines[t].phase.depth + n - 1))]
        == s.routines[t := s.routines[t].(phase := Inside(s.routines[t].phase.obj, s.routines[t].phase.depth + n - 1))];
  }

  lemma NoDeeper(s: State, t: Id)
    requires t in s.routines && s.routines[t].phase.Inside?
    ensures Deeper(s, t, 0) == s
  {
    assert s.routines[t := s.routines[t]] == s.routines;
  }

  lemma {:induction false} CallsNest(s: State, t: Id, key: Key, n: nat)
    requires Held(s, t) == Some(key)
    ensures Scheduled(s, Calls(t, key, n)) == Deeper(s, t, n)
  {
    if n == 0 {
      NoDeeper(s, t);
    } else {
      CallsNest(s, t, key, n - 1);
      ScheduledOn(s, Calls(t, key, n - 1), t, Call(key));
      OneDeeper(s, t, key, n - 1);
    }
  }

  lemma {:induction false} LeavesReturn(s: State, t: Id, m: nat, n: nat)
    requires t in s.routines && s.routines[t].phase.Inside? && n <= m
    ensures Scheduled(Deeper(s, t, m), Leaves(t, n)) == Deeper(s, t, m - n)
  {
    if n > 0 {
      LeavesReturn(s, t, m, n - 1);
      ScheduledOn(Deeper(s, t, m), Leaves(t, n - 1), t, Leave);
      OneBack(s, t, m - n + 1);
    }
  }

  lemma {:induction false} ScheduledInParts(s: State, a: seq<(Id, Action)>, b: seq<(Id, Action)>)
    ensures Scheduled(s, a + b) == Scheduled(Scheduled(s, a), b)
  {
    if b == [] {
      assert a + b == a;
    } else {
      var front := b[..|b| - 1];
      ScheduledInParts(s, a, front);
      assert (a + b)[..|a + b| - 1] == a + front;
    }
  }

  /** After any schedule: a goroutine in the section of a book may call for the same book as often as
      it likes, one call inside the other. That takes no slot, waits for nobody and touches no lock
      object, and when the calls have returned the state is exactly what it was. */
  lemma NestedCallsAreFree(limit: nat, steps: seq<(Id, Action)>, t: Id, key: Key, n: nat)
    requires InSection(Scheduled(Start(limit), steps), t, key)
    ensures var s, inside := Scheduled(Start(limit), steps), Scheduled(Start(limit), steps + Calls(t, key, n));
            && inside.used == s.used && inside.locks == s.locks && inside.objects == s.objects
            && InSection(inside, t, key) && inside.routines[t].phase.depth == s.routines[t].phase.depth + n
            && forall r :: r != t ==> (r in inside.routines <==> r in s.routines) && (r in s.routines ==> inside.routines[r] == s.routines[r])
    ensures Scheduled(Start(limit), steps + Calls(t, key, n) + Leaves(t, n)) == Scheduled(Start(limit), steps)
  {
    var s := Scheduled(Start(limit), steps);
    ScheduledInParts(Start(limit), steps, Calls(t, key, n));
    CallsNest(s, t, key, n);
    ScheduledInParts(Start(limit), steps + Calls(t, key, n), Leaves(t, n));
    LeavesReturn(s, t, n, n);
    NoDeeper(s, t);
  }

  // ---- Progress ----

  ghost predicate CanStep(s: State, t: Id) {
    exists a: Action :: !a.Call? && !a.GiveUp? && Enabled(s, t, a)
  }

  lemma {:induction false} AFreshObject(objects: set<Id>) returns (obj: Id)
    ensures obj !in objects && forall x :: x in objects ==> x < obj
    decreases |objects|
  {
    if objects == {} {
      obj := 0;
    } else {
      var x :| x in objects;
      var rest := AFreshObject(objects - {x});
      assert forall y :: y in objects ==> y == x || y in objects - {x};
      obj := if x < rest then rest else x + 1;
    }
  }

  /** A goroutine behind the limiter can step, or the holder of the lock it waits for can. */
  lemma SlottedCanStep(s: State, t: Id)
    requires Inv(s) && t in Slotted(s)
    ensures exists u :: u in s.routines && CanStep(s, u)
  {
    var p := s.routines[t].phase;
    assert RoutineOK(s, t);
    match p
    case HasSlot =>
      var made := AFreshObject(s.objects.Keys);
      assert Enabled(s, t, Get(made));
    case Waiting(obj) =>
      assert KeyOK(s, s.routines[t].key);
      var holder := s.objects[obj].holder;
      if holder.None? {
        assert Enabled(s, t, Lock);
      } else {
        HolderCanStep(s, holder.value);
      }
    case Inside(_, _) => HolderCanStep(s, t);
    case Unlocked(obj) =>
      assert KeyOK(s, s.routines[t].key);
      assert Enabled(s, t, Release);
    case Released =>
      assert Slotted(s) != {};
      assert Enabled(s, t, Free);
    case WantSlot => assert false;
  }

  lemma HolderCanStep(s: State, t: Id)
    requires Inv(s) && t in s.routines && s.routines[t].phase.Inside?
    ensures CanStep(s, t)
  {
    assert RoutineOK(s, t);
    if s.routines[t].phase.depth > 0 {
      assert Enabled(s, t, Leave);
    } else {
      assert Enabled(s, t, Unlock);
    }
  }

  /** Never stuck: while any goroutine is not idle, one of them can go on, without new calls,
      without giving up and without nesting deeper. */
  lemma SomebodyCanStep(limit: nat, steps: seq<(Id, Action)>)
    requires limit > 0 && Scheduled(Start(limit), steps).routines != map[]
    ensures var s := Scheduled(Start(limit), steps); exists t :: t in s.routines && CanStep(s, t)
  {
    ScheduleKeepsInv(limit, steps);
    var s := Scheduled(Start(limit), steps);
    if Slotted(s) == {} {
      var t :| t in s.routines;
      assert t !in Slotted(s);
      assert Enabled(s, t, Take);
      assert CanStep(s, t);
    } else {
      var t :| t in Slotted(s);
      SlottedCanStep(s, t);
    }
  }
}
