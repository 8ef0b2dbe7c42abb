/** How a stage's resources are handed out: a pool that grows on demand, a queue for it, and remembered owners. */
module Pool {
  import opened Common

  datatype Strategy = NextAvailable | RandomChoice | ByOwner

  /** What a request gets: a resource at once, a place in the queue, or an error for an unknown owner. */
  datatype Reply = Granted(resource: nat) | Queued | NoOwner

  /** The owners once a resource is granted to some tasks. */
  function Remember(owners: map<nat, nat>, tasks: seq<nat>, r: nat): map<nat, nat> {
    owners + map t | t in tasks :: r
  }

  class PoolManager {
    /** Resources made one at a time without end, or a given list of them. */
    const unlimited: bool
    /** The resources not drawn yet, in order; for an unlimited pool the next number. */
    var undrawn: seq<nat>
    var nextMade: nat
    var available: seq<nat>
    var waiters: seq<seq<nat>>
    var owners: map<nat, nat>
    var registered: seq<nat>
    var listed: Option<seq<nat>>
    /** Resources that the pool has handed out and not got back. */
    ghost var busy: set<nat>
    /** Resources that ever belonged to the pool. */
    ghost var pooled: set<nat>

    /** A pool resource is available or busy, never both, and owners are pool resources. */
    ghost predicate Sound()
      reads this
    {
      && Distinct(available) && (forall r :: r in available ==> r !in busy)
      && (forall r :: r in pooled <==> r in available || r in busy)
      && (forall r :: r in pooled ==> r in registered)
      && Distinct(undrawn) && (forall r :: r in undrawn ==> r !in registered)
      && (unlimited ==> undrawn == [] && forall r :: r in registered ==> r < nextMade)
      && (forall t :: t in owners ==> owners[t] in pooled)
      && (listed.Some? ==> undrawn == [] && listed.value != [])
    }

    /** And nobody waits while a resource is available or could be drawn. */
    ghost predicate Valid()
      reads this
    {
      Sound() && (waiters != [] ==> available == [] && !unlimited && undrawn == [])
    }

    constructor (unlimited: bool, resources: seq<nat>)
      requires Distinct(resources) && (unlimited ==> resources == [])
      ensures Valid() && available == [] && waiters == [] && owners == map[] && registered == []
      ensures undrawn == resources && this.unlimited == unlimited
    {
      this.unlimited := unlimited;
      undrawn, nextMade, available, waiters, owners, registered := resources, 0, [], [], map[], [];
      listed, busy, pooled := None, {}, {};
    }

    /** The next resource of the source, if there is one. */
    method Draw() returns (r: Option<nat>)
      requires Valid()
      modifies this`undrawn, this`nextMade
      ensures r.Some? <==> unlimited || old(undrawn) != []
      ensures r.Some? ==> r.value !in registered && r.value !in undrawn && r.value !in pooled
      ensures !unlimited && r.Some? ==> r.value == old(undrawn)[0] && undrawn == old(undrawn)[1..]
      ensures r.None? ==> undrawn == old(undrawn)
      ensures unlimited ==> undrawn == [] && (forall q :: q in registered || Some(q) == r ==> q < nextMade)
    {
      if unlimited {
        r := Some(nextMade);
        nextMade := nextMade + 1;
      } else if undrawn != [] {
        r := Some(undrawn[0]);
        assert undrawn == [undrawn[0]] + undrawn[1..];
        undrawn := undrawn[1..];
      } else {
        r := None;
      }
    }

    /** Grants the first available resource to a list of tasks and remembers it as their owner. */
    method Grant(tasks: seq<nat>) returns (r: nat)
      requires Sound() && available != []
      modifies this`available, this`owners, this`busy
      ensures Sound() && r == old(available)[0] && available == old(available)[1..] && busy == old(busy) + {r}
      ensures owners == Remember(old(owners), tasks, r)
    {
      r := available[0];
      DistinctTail(available);
      available := available[1..];
      busy := busy + {r};
      for i := 0 to |tasks|
        modifies this`owners
        invariant forall t :: t in owners <==> t in old(owners) || t in tasks[..i]
        invariant forall t :: t in owners ==> owners[t] == if t in tasks[..i] then r else old(owners)[t]
      {
        owners := owners[tasks[i] := r];
      }
    }

    /** A resource for a list of tasks: whoever is free, a resource drawn for the purpose, or a place in the queue. */
    method RequestNext(tasks: seq<nat>) returns (reply: Reply)
      requires Valid()
      modifies this
      ensures Valid()
      ensures reply.Granted? || reply.Queued?
      ensures reply.Queued? <==> old(available) == [] && !unlimited && old(undrawn) == []
      ensures reply.Granted? ==> reply.resource in busy && reply.resource !in old(busy)
      ensures owners == if reply.Granted? then Remember(old(owners), tasks, reply.resource) else old(owners)
      ensures reply.Granted? && old(available) != [] ==> reply.resource == old(available)[0]
      ensures waiters == if reply.Queued? then old(waiters) + [tasks] else old(waiters)
    {
      if available == [] {
        var drawn := Draw();
        if drawn.Some? {
          available := [drawn.value];
          registered := registered + [drawn.value];
          pooled := pooled + {drawn.value};
        }
      }
      if available == [] {
        waiters := waiters + [tasks];
        return Queued;
      }
      var r := Grant(tasks);
      reply := Granted(r);
    }

    /** Work that comes back goes to whoever did it before, free or not. */
    method RequestOwner(task: nat) returns (reply: Reply)
      requires Valid()
      ensures reply == if task in owners then Granted(owners[task]) else NoOwner
      ensures reply.Granted? ==> reply.resource in pooled
    {
      if task !in owners {
        return NoOwner;
      }
      reply := Granted(owners[task]);
    }

    /**
     * Any resource, busy or not.  On a limited pool the first such request lists all resources and so uses up the
     * source: from then on no resource is drawn into the pool, and one listed but not pooled never joins it.
     */
    method RequestRandom() returns (reply: Reply)
      requires Valid() && (unlimited || registered + undrawn != [])
      modifies this`undrawn, this`nextMade, this`registered, this`listed
      ensures Valid() && reply.Granted? && reply.resource in registered
      ensures !unlimited && old(listed).None? ==> undrawn == [] && listed == Some(old(registered) + old(undrawn))
      ensures !unlimited ==> listed.Some? && reply.resource in listed.value
      ensures unlimited ==> reply.resource !in old(registered)
    {
      var r: nat;
      if unlimited {
        var drawn := Draw();
        r := drawn.value;
      } else {
        if listed.None? {
          listed := Some(registered + undrawn);
          undrawn := [];
        }
        var k: int := *;
        if !(0 <= k < |listed.value|) {
          k := 0;
        }
        r := listed.value[k];
      }
      if r !in registered {
        registered := registered + [r];
      }
      reply := Granted(r);
    }

    /** A resource comes back; whoever has waited longest gets it at once. */
    method Release(r: nat) returns (served: Option<seq<nat>>)
      requires Valid() && r in busy
      modifies this`available, this`owners, this`busy, this`waiters
      ensures Valid()
      ensures served.Some? <==> old(waiters) != []
      ensures served.Some? ==> served.value == old(waiters)[0] && waiters == old(waiters)[1..]
      ensures served.Some? ==> r in busy && owners == Remember(old(owners), served.value, r)
      ensures served.None? ==> waiters == [] && available == old(available) + [r] && r !in busy && owners == old(owners)
    {
      DistinctConcat(available, [r]);
      available := available + [r];
      busy := busy - {r};
      if waiters != [] {
        var tasks := waiters[0];
        waiters := waiters[1..];
        assert available == [r];
        var got := Grant(tasks);
        served := Some(tasks);
      } else {
        served := None;
      }
    }
  }
}
