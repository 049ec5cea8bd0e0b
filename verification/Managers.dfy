/** The manager as an object: its lock sections, and its sweeps when nothing runs beside them. */
module Managers {
  import opened Wrappers
  import opened Identity
  import opened Lifecycle

  class ActorObject {
    const id: ObjectID
    var active: int
    var lastUsed: int
    var poisoned: bool

    constructor (id: ObjectID, now: int)
      ensures this.id == id && active == 0 && lastUsed == now && !poisoned
    {
      this.id := id;
      active, lastUsed, poisoned := 0, now, false;
    }

    predicate IsIdle(now: int, idleTimeout: int)
      reads this
    {
      idleTimeout > 0 && active <= 0 && lastUsed != 0 && now - lastUsed >= idleTimeout
    }
  }

  class StartCallObject {
    var done: bool
    var result: Started<ActorObject>

    constructor ()
      ensures !done
    {
      done, result := false, NotStarted(Context);
    }
  }

  /** Whether closing the actor of an identity fails. */
  type Closing = ObjectID -> Option<Error>

  /** What is reported when actors are evicted one after the other. */
  function Reports(order: seq<ObjectID>, closing: Closing): seq<Event> {
    if order == [] then []
    else var id := order[|order| - 1];
         Reports(order[..|order| - 1], closing) + [ActorEvict(id), ActorStop(id, closing(id))]
  }

  /** The first of the errors that closing actors one after the other gives. */
  function FirstError(order: seq<ObjectID>, closing: Closing): Option<Error> {
    if order == [] then None
    else var before := FirstError(order[..|order| - 1], closing);
         if before.Some? then before else closing(order[|order| - 1])
  }

  ghost predicate Enumerates(order: seq<ObjectID>, ids: set<ObjectID>) {
    && (forall id :: id in order <==> id in ids)
    && (forall i, j | 0 <= i < j < |order| :: order[i] != order[j])
  }

  class Manager {
    /** The lifetime of the runtimes has been ended. */
    var cancelled: bool
    var actors: map<ObjectID, ActorObject>
    var starts: map<ObjectID, StartCallObject>
    var log: seq<Event>
    const idleTimeout: int

    /** Actors are filed under their own identity. */
    ghost predicate Filed()
      reads this, actors.Values
    {
      forall id | id in actors :: actors[id].id == id
    }

    /** In addition, an identity being started has no actor, and its call is open. */
    ghost predicate Valid()
      reads this, actors.Values, starts.Values
    {
      Filed() && forall id | id in starts :: id !in actors && !starts[id].done
    }

    constructor (idleTimeout: int)
      ensures Valid() && actors == map[] && starts == map[] && log == [] && !cancelled
      ensures this.idleTimeout == idleTimeout
    {
      cancelled := false;
      actors, starts, log := map[], map[], [];
      this.idleTimeout := idleTimeout;
    }

    /** The first lock section of `getOrStart`: an actor, a call to wait for, or a new call that the caller must run. */
    method FindOrClaim(id: ObjectID) returns (found: Found<ActorObject, StartCallObject>, call: StartCallObject?)
      requires Valid()
      modifies this`starts
      ensures Valid()
      ensures found == old(Find(actors, starts, id))
      ensures found.Start? ==> call != null && fresh(call) && !call.done && starts == old(starts)[id := call]
      ensures !found.Start? ==> starts == old(starts)
    {
      call := null;
      if id in actors {
        return Hit(actors[id]), null;
      }
      if id in starts {
        return Join(starts[id]), null;
      }
      found := Start;
      call := new StartCallObject();
      starts := starts[id := call];
    }

    /**
     * The second lock section of `getOrStart`. The call is resolved with the very result that the starter returns. A
     * started actor that finds another one in its place is handed back to be closed, which cannot happen while an
     * identity being started has no actor.
     */
    method Publish(id: ObjectID, call: StartCallObject, started: Started<ActorObject>)
      returns (result: Started<ActorObject>, toClose: ActorObject?)
      requires Filed()
      requires id in starts && starts[id] == call && forall other | other in starts && other != id :: starts[other] != call
      requires started.Got? ==> started.actor.id == id
      modifies this`actors, this`starts, call
      ensures Filed() && (old(Valid()) ==> Valid())
      ensures result == old(PublishedResult(actors, id, started)) && call.done && call.result == result
      ensures actors == old(PublishedActors(actors, id, started)) && starts == old(starts) - {id}
      ensures toClose == if started.Got? && id in old(actors) then started.actor else null
      ensures old(Valid()) ==> toClose == null && result == started
    {
      result := started;
      toClose := null;
      if started.Got? {
        if id in actors {
          toClose := started.actor;
          result := Got(actors[id]);
        } else {
          actors := actors[id := started.actor];
        }
      }
      call.result := result;
      starts := starts - {id};
      call.done := true;
    }

    /** The lock section of `evictActor`: whatever is there, or the expected actor only. */
    method Remove(id: ObjectID, expected: ActorObject?) returns (actor: ActorObject?, removed: bool)
      requires Valid()
      modifies this`actors
      ensures Valid()
      ensures removed == if expected == null then id in old(actors) else old(IsCurrent(actors, id, expected))
      ensures actors == if removed then old(actors) - {id} else old(actors)
      ensures actor == if expected != null then expected else if removed then old(actors)[id] else null
    {
      actor, removed := expected, false;
      if expected == null {
        if id in actors {
          actor := actors[id];
          actors := actors - {id};
          removed := true;
        }
      } else if id in actors && actors[id] == expected {
        actors := actors - {id};
        removed := true;
      }
    }

    /** `evictActor` with nothing beside it: poison first, report an eviction only if something was removed, then close. */
    method EvictActor(id: ObjectID, expected: ActorObject?, closing: Closing) returns (error: Option<Error>)
      requires Valid()
      modifies this`actors, this`log, actors.Values, expected
      ensures Valid()
      ensures var removed := if expected == null then id in old(actors) else old(IsCurrent(actors, id, expected));
              var closed := expected != null || removed;
              && actors == (if removed then old(actors) - {id} else old(actors))
              && log == old(log) + (if removed then [ActorEvict(id)] else [])
                                 + (if closed then [ActorStop(id, closing(id))] else [])
              && error == (if closed then closing(id) else None)
              && (removed ==> old(actors)[id].poisoned)
              && (expected != null ==> expected.poisoned)
      ensures forall other | other in old(actors) && other != id && old(actors)[other] != expected ::
                old(actors)[other].poisoned == old(actors[other].poisoned)
    {
      var actor, removed := Remove(id, expected);
      if actor == null {
        return None;
      }
      actor.poisoned := true;
      if removed {
        log := log + [ActorEvict(id)];
      }
      error := closing(id);
      log := log + [ActorStop(id, error)];
    }

    ghost function Idle(now: int): set<ObjectID>
      reads this, actors.Values
    {
      set id | id in actors && actors[id].IsIdle(now, idleTimeout)
    }

    /**
     * `EvictIdle` with nothing beside it: exactly the idle actors go, in some order each is poisoned, reported and closed,
     * the first error of the closing is returned, and the rest stay as they were.
     */
    method EvictIdle(now: int, closing: Closing)
      returns (evicted: nat, error: Option<Error>, ghost order: seq<ObjectID>)
      requires Valid()
      modifies this`actors, this`log, actors.Values
      ensures Valid()
      ensures actors == old(actors) - old(Idle(now))
      ensures forall id | id in old(actors) ::
                old(actors)[id].poisoned == (id in old(Idle(now)) || old(actors[id].poisoned))
      ensures Enumerates(order, old(Idle(now))) && evicted == |old(Idle(now))|
      ensures log == old(log) + Reports(order, closing) && error == FirstError(order, closing)
    {
      evicted, error, order := 0, None, [];
      if idleTimeout <= 0 {
        assert Idle(now) == {};
        return;
      }
      var before := actors;
      var candidates := CollectIdle(now);
      MembersOfSet(candidates, Idle(now));
      DistinctCount(candidates);
      actors := RemoveAll(actors, candidates);
      order := candidates;
      evicted, error := CloseAndReport(before, candidates, closing);
    }

    /** `Close` with nothing beside it: the lifetime ends, every actor goes, is poisoned and closed; nothing is reported. */
    method Close(closing: Closing) returns (error: Option<Error>, ghost order: seq<ObjectID>)
      requires Valid()
      modifies this`cancelled, this`actors, actors.Values
      ensures Valid() && cancelled && actors == map[]
      ensures forall id | id in old(actors) :: old(actors)[id].poisoned
      ensures Enumerates(order, old(actors).Keys) && error == FirstError(order, closing)
    {
      cancelled := true;
      var before := actors;
      var todo := actors.Keys;
      actors := map[];
      error, order := None, [];
      while todo != {}
        invariant todo <= before.Keys
        invariant Enumerates(order, before.Keys - todo) && error == FirstError(order, closing)
        invariant forall id | id in before && id !in todo :: before[id].poisoned
        invariant actors == map[] && unchanged(this`starts) && cancelled
        decreases todo
      {
        var id :| id in todo;
        before[id].poisoned := true;
        var failure := closing(id);
        if failure.Some? && error.None? {
          error := failure;
        }
        assert (order + [id])[..|order|] == order;
        order := order + [id];
        todo := todo - {id};
      }
    }

    /** The second loop of `EvictIdle`. */
    method CloseAndReport(removed: map<ObjectID, ActorObject>, candidates: seq<ObjectID>, closing: Closing)
      returns (evicted: nat, error: Option<Error>)
      requires forall id | id in removed :: removed[id].id == id
      requires forall id | id in candidates :: id in removed
      modifies this`log, removed.Values
      ensures evicted == |candidates|
      ensures log == old(log) + Reports(candidates, closing) && error == FirstError(candidates, closing)
      ensures forall id | id in removed :: removed[id].poisoned == (id in candidates || old(removed[id].poisoned))
    {
      evicted, error := 0, None;
      for i := 0 to |candidates|
        invariant evicted == i
        invariant log == old(log) + Reports(candidates[..i], closing) && error == FirstError(candidates[..i], closing)
        invariant forall id | id in removed :: removed[id].poisoned == (id in candidates[..i] || old(removed[id].poisoned))
      {
        var id := candidates[i];
        removed[id].poisoned := true;
        log := log + [ActorEvict(id)];
        var failure := closing(id);
        if failure.Some? && error.None? {
          error := failure;
        }
        log := log + [ActorStop(id, failure)];
        evicted := evicted + 1;
        assert candidates[..i + 1][..i] == candidates[..i] && candidates[..i + 1] == candidates[..i] + [id];
      }
      assert candidates[..|candidates|] == candidates;
    }

    /** The scanning loop of `EvictIdle`, over the map in no particular order. */
    method CollectIdle(now: int) returns (candidates: seq<ObjectID>)
      requires Valid()
      ensures (set id | id in candidates) == Idle(now)
      ensures forall i, j | 0 <= i < j < |candidates| :: candidates[i] != candidates[j]
    {
      candidates := [];
      var todo := actors.Keys;
      while todo != {}
        invariant todo <= actors.Keys
        invariant (set id | id in candidates) == Idle(now) - todo
        invariant forall i, j | 0 <= i < j < |candidates| :: candidates[i] != candidates[j]
        decreases todo
      {
        var id :| id in todo;
        todo := todo - {id};
        assert id !in (set other | other in candidates);
        if actors[id].IsIdle(now, idleTimeout) {
          ghost var found := candidates;
          candidates := candidates + [id];
          assert (set other | other in candidates) == (set other | other in found) + {id};
        }
      }
    }
  }

  /** The removing loop of `EvictIdle`. */
  method RemoveAll(actors: map<ObjectID, ActorObject>, candidates: seq<ObjectID>) returns (rest: map<ObjectID, ActorObject>)
    ensures rest == actors - (set id | id in candidates)
  {
    rest := actors;
    for i := 0 to |candidates|
      invariant rest == actors - (set id | id in candidates[..i])
    {
      rest := rest - {candidates[i]};
    }
    assert candidates[..|candidates|] == candidates;
  }

  lemma MembersOfSet(s: seq<ObjectID>, ids: set<ObjectID>)
    requires (set id | id in s) == ids
    ensures forall id :: id in s <==> id in ids
  {
  }

  lemma {:induction false} DistinctCount(s: seq<ObjectID>)
    requires forall i, j | 0 <= i < j < |s| :: s[i] != s[j]
    ensures |set id | id in s| == |s|
  {
    if s != [] {
      var front, last := s[..|s| - 1], s[|s| - 1];
      DistinctCount(front);
      assert (set id | id in s) == (set id | id in front) + {last};
    }
  }
}
