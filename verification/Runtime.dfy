/** The runtime's objects and the methods that create, find, destroy and clean up actors, each running alone. What
    happens when they interleave is the matter of the transition system in `Server`. */
module Runtime {
  import opened Base
  import opened Messages

  /** A client's connection as the runtime sees it. */
  class RuntimeConnection {
    var closed: bool   // the event
    var shut: bool     // its socket

    constructor ()
      ensures !closed && !shut
    {
      closed, shut := false, false;
    }

    /** Gives the connection up. */
    method Abort()
      modifies this
      ensures closed && shut
    {
      closed := true;
      shut := true;
    }
  }

  /** An actor with its executor: what waits, what has run and what was cancelled. */
  class ActorEntry {
    const owner: RuntimeConnection
    var waiting: seq<Request>
    var ran: seq<Request>
    var cancelled: seq<Request>
    var live: bool
    var shutdowns: nat

    constructor (owner: RuntimeConnection)
      ensures this.owner == owner && live && shutdowns == 0 && waiting == ran == cancelled == []
    {
      this.owner := owner;
      waiting, ran, cancelled, live, shutdowns := [], [], [], true, 0;
    }

    /** An executor that has been shut down refuses. */
    method Submit(request: Request) returns (accepted: bool)
      modifies this`waiting
      ensures accepted == live && waiting == old(waiting) + (if live then [request] else [])
    {
      accepted := live;
      if live { waiting := waiting + [request]; }
    }

    /** Takes no more work and cancels or runs what waits, one after the other. */
    method Shutdown(cancel: bool)
      modifies this
      ensures !live && shutdowns == old(shutdowns) + 1 && waiting == []
      ensures cancelled == old(cancelled) + (if cancel then old(waiting) else [])
      ensures ran == old(ran) + (if cancel then [] else old(waiting))
    {
      live, shutdowns := false, shutdowns + 1;
      ghost var done: seq<Request> := [];
      while waiting != []
        invariant done + waiting == old(waiting) && !live && shutdowns == old(shutdowns) + 1
        invariant cancelled == old(cancelled) + (if cancel then done else [])
        invariant ran == old(ran) + (if cancel then [] else done)
        decreases |waiting|
      {
        if cancel { cancelled := cancelled + [waiting[0]]; } else { ran := ran + [waiting[0]]; }
        done := done + [waiting[0]];
        waiting := waiting[1..];
      }
    }
  }

  /** The entry has been shut down, once more than before, and what waited was cancelled. */
  twostate predicate WasCancelled(entry: ActorEntry)
    reads entry
  {
    && !entry.live && entry.shutdowns == old(entry.shutdowns) + 1 && entry.waiting == []
    && entry.ran == old(entry.ran) && entry.cancelled == old(entry.cancelled) + old(entry.waiting)
  }

  class RpcRuntime {
    var closed: bool
    var listening: bool
    var poolLive: bool
    var connections: set<RuntimeConnection>
    var actors: map<string, ActorEntry>

    /** Every actor in the table has an executor of its own, which nobody has shut down. */
    ghost predicate Valid()
      reads this, actors.Values
    {
      && (forall id :: id in actors ==> actors[id].live && actors[id].shutdowns == 0)
      && (forall id, other :: id in actors && other in actors && actors[id] == actors[other] ==> id == other)
    }

    constructor ()
      ensures Valid() && !closed && !listening && poolLive && connections == {} && actors == map[]
    {
      closed, listening, poolLive, connections, actors := false, false, true, {}, map[];
    }

    /** Starts unless it is stopped, started, or cannot bind its address, which `bind` tells; a refused start changes
        nothing. */
    method Start(bind: Result<(), Error>) returns (r: Result<(), Error>)
      modifies this`listening
      ensures r.Ok? <==> !old(closed) && !old(listening) && bind.Ok?
      ensures r.Ok? ==> listening
      ensures r.Err? ==> listening == old(listening)
      ensures !old(closed) && !old(listening) && bind.Err? ==> r == bind
    {
      if closed {
        return Err(Error("RuntimeError", "runtime cannot be restarted after stop"));
      }
      if listening {
        return Err(Error("RuntimeError", "runtime is already started"));
      }
      if bind.Err? {
        return bind;
      }
      listening := true;
      r := Ok(());
    }

    /** Looks the actor up and submits the call to its executor, which never refuses. */
    method SubmitCall(id: string, request: Request) returns (found: bool)
      requires Valid()
      modifies actors.Values
      ensures Valid() && found == (id in actors)
      ensures found ==> actors[id].waiting == old(actors[id].waiting) + [request]
      ensures found ==> actors[id].ran == old(actors[id].ran) && actors[id].cancelled == old(actors[id].cancelled)
      ensures forall other :: other in actors && other != id ==> unchanged(actors[other])
    {
      found := id in actors;
      if found {
        var accepted := actors[id].Submit(request);
      }
    }

    /** Publishes a new actor under its id, or shuts its executor down again. */
    method CreateActor(connection: RuntimeConnection, id: string) returns (actor: ActorEntry, refused: Option<Error>)
      requires Valid()
      modifies this`actors
      ensures Valid() && fresh(actor) && actor.owner == connection
      ensures refused == None <==> !connection.closed && id !in old(actors)
      ensures actors == if refused == None then old(actors)[id := actor] else old(actors)
      ensures refused.Some? ==> !actor.live && actor.shutdowns == 1
      ensures refused.Some? ==> refused.value.kind == (if connection.closed then "ConnectionClosedError" else "ValueError")
    {
      actor := new ActorEntry(connection);
      refused := None;
      if connection.closed {
        refused := Some(Error("ConnectionClosedError", "client disconnected during actor creation"));
      } else if id in actors {
        refused := Some(Error("ValueError", id));
      } else {
        actors := actors[id := actor];
      }
      if refused.Some? { actor.Shutdown(true); }
    }

    /** Takes the actor out of the table if the connection owns it, and then runs everything that waits for it. */
    method DestroyActor(connection: RuntimeConnection, id: string) returns (r: Result<(), Error>)
      requires Valid()
      modifies this`actors, actors.Values
      ensures Valid()
      ensures r.Ok? <==> id in old(actors) && old(actors)[id].owner == connection
      ensures r.Err? ==> r.error.kind == (if id in old(actors) then "ActorOwnershipError" else "ActorNotFoundError")
      ensures actors == if r.Ok? then old(actors) - {id} else old(actors)
      ensures r.Ok? ==> var actor := old(actors)[id];
        && !actor.live && actor.shutdowns == 1 && actor.waiting == []
        && actor.ran == old(actors[id].ran) + old(actors[id].waiting)
        && actor.cancelled == old(actors[id].cancelled)
      ensures forall other :: other in actors ==> unchanged(actors[other])
    {
      if id !in actors {
        return Err(Error("ActorNotFoundError", id));
      }
      var actor := actors[id];
      if actor.owner != connection {
        return Err(Error("ActorOwnershipError", id));
      }
      actors := actors - {id};
      actor.Shutdown(false);
      r := Ok(());
    }

    /** Pops the actors with these ids, one after the other. */
    method PopAll(ids: set<string>) returns (taken: set<ActorEntry>)
      requires ids <= actors.Keys
      modifies this`actors
      ensures actors == old(actors) - ids && taken == set id | id in ids :: old(actors)[id]
    {
      taken := {};
      var left := ids;
      while left != {}
        invariant left <= ids && actors == old(actors) - (ids - left)
        invariant taken == set id | id in ids - left :: old(actors)[id]
        decreases left
      {
        var id :| id in left;
        left := left - {id};
        taken := taken + {actors[id]};
        actors := actors - {id};
      }
    }

    /** Shuts these executors down one after the other, cancelling what waits. */
    method CancelAll(entries: set<ActorEntry>)
      modifies entries
      ensures forall e :: e in entries ==> WasCancelled(e)
    {
      var left := entries;
      while left != {}
        invariant left <= entries
        invariant forall e :: e in left ==> unchanged(e)
        invariant forall e :: e in entries - left ==> WasCancelled(e)
        decreases left
      {
        var e :| e in left;
        e.Shutdown(true);
        left := left - {e};
      }
    }

    /** Takes every actor of the connection out of the table, and then shuts its executor down; other connections'
        actors are not touched. */
    method RemoveConnectionActors(connection: RuntimeConnection)
      requires Valid()
      modifies this`actors, actors.Values
      ensures Valid()
      ensures actors == map id | id in old(actors) && old(actors)[id].owner != connection :: old(actors)[id]
      ensures forall id :: id in old(actors) && old(actors)[id].owner == connection ==> WasCancelled(old(actors)[id])
      ensures forall id :: id in actors ==> unchanged(actors[id])
    {
      var ids := set id | id in actors && actors[id].owner == connection;
      var taken := PopAll(ids);
      label Popped:
      CancelAll(taken);
      forall id | id in old(actors) && old(actors)[id].owner == connection ensures WasCancelled(old(actors)[id]) {
        assert id in ids && old(actors)[id] in taken;
        assert WasCancelled@Popped(old(actors)[id]);
      }
    }

    /** Closes these connections one after the other. */
    method CloseAll(listed: set<RuntimeConnection>)
      modifies listed
      ensures forall c :: c in listed ==> c.closed && c.shut
    {
      var left := listed;
      while left != {}
        invariant left <= listed && forall c :: c in listed - left ==> c.closed && c.shut
        decreases left
      {
        var c :| c in left;
        c.Abort();
        left := left - {c};
      }
    }

    /** The first stop closes the socket, every listed connection and the pool, and cancels every actor; later ones do
        nothing. */
    method Stop()
      requires Valid()
      modifies this, connections, actors.Values
      ensures Valid() && closed
      ensures old(closed) ==> unchanged(this) && (forall id :: id in actors ==> unchanged(actors[id]))
      ensures old(closed) ==> forall c :: c in connections ==> unchanged(c)
      ensures !old(closed) ==> !listening && !poolLive && connections == {} && actors == map[]
      ensures !old(closed) ==> forall c :: c in old(connections) ==> c.closed && c.shut
      ensures !old(closed) ==> forall id :: id in old(actors) ==> WasCancelled(old(actors)[id])
    {
      if closed {
        return;
      }
      closed, listening := true, false;
      var listed := connections;
      connections := {};
      CloseAll(listed);
      poolLive := false;
      var entries := actors.Values;
      actors := map[];
      label Taken:
      CancelAll(entries);
      forall id | id in old(actors) ensures WasCancelled(old(actors)[id]) {
        assert old(actors)[id] in entries;
        assert WasCancelled@Taken(old(actors)[id]);
      }
    }
  }
}
