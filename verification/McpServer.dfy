/** MCPServer itself: the fields its mutex guards and the sections it runs under that mutex. */
module McpServer {
  import opened Wrappers
  import opened McpTransport

  /** Some registration other than those in `left` uses channel u. */
  ghost predicate Tried(pending: map<int, nat>, left: set<int>, u: int) {
    exists id :: id in pending && id !in left && pending[id] == u
  }

  lemma {:induction false} NonEmpty(ids: set<int>)
    ensures ids == {} || exists id :: id in ids
  {
    if forall id :: id !in ids { assert ids == {}; }
  }

  lemma {:induction false} TriedOneMore(pending: map<int, nat>, left: set<int>, id: int)
    requires id in left && left <= pending.Keys
    ensures forall u :: Tried(pending, left - {id}, u) <==> Tried(pending, left, u) || pending[id] == u
  {
    forall u ensures Tried(pending, left - {id}, u) <==> Tried(pending, left, u) || pending[id] == u {
      if Tried(pending, left, u) {
        var i :| i in pending && i !in left && pending[i] == u;
        assert i !in left - {id};
      }
      if pending[id] == u { assert id !in left - {id}; }
    }
  }

  class MCPServer {
    var current: Option<nat>
    var dead: bool
    var pending: map<int, nat>
    var lastID: int
    var requests: seq<Request>
    var gens: seq<Gen>

    ghost function View(): Shared
      reads this
    {
      Shared(current, dead, pending, lastID, requests, gens)
    }

    /** Every registered channel exists. */
    ghost predicate Valid()
      reads this
    {
      forall id :: id in pending ==> pending[id] < |requests|
    }

    constructor ()
      ensures Valid() && View() == Init().sh
    {
      current, dead, pending, lastID, requests, gens := None, false, map[], 0, [], [];
    }

    method Attach()
      modifies this
      ensures Valid() && View() == Attached(old(View()))
    {
      current := Some(|gens|);
      gens := gens + [Gen(Scanning, [], None)];
      pending := map[];
      dead := false;
      lastID := 0;
    }

    /** The mutex section of teardown: hand over the generation to join and clear the fields. */
    method Detach() returns (joined: Option<nat>)
      modifies this
      ensures joined == old(current)
      ensures Valid() && View() == Detached(old(View()))
    {
      joined := current;
      current, pending := None, map[];
      dead := false;
    }

    /** The mutex section of send; refuses when nothing is running. */
    method Register(t: nat) returns (req: Option<nat>)
      requires Valid()
      modifies this
      ensures Valid()
      ensures old(Running(View())) ==> req == Some(old(|requests|)) && View() == Registered(old(View()), t)
      ensures !old(Running(View())) ==> req == None && View() == old(View())
    {
      if current.None? || dead {
        return None;
      }
      lastID := lastID + 1;
      req := Some(|requests|);
      requests := requests + [Request(t, current.value, lastID, None, 0)];
      pending := pending[lastID := req.value];
    }

    method Deregister(id: int)
      requires Valid()
      modifies this`pending
      ensures Valid() && View() == Deregistered(old(View()), id)
    {
      pending := pending - {id};
    }

    /** The mutex section of route. */
    method Route(g: nat, id: int, text: string)
      requires Valid() && g < |gens|
      modifies this`pending, this`gens
      ensures Valid() && View() == Routed(old(View()), g, id, text)
    {
      if id in pending {
        gens := gens[g := gens[g].(reader := Handing(pending[id], Line(g, id, text)))];
        pending := pending - {id};
      }
    }

    /** The mutex section of finishReader: mark the transport dead, then try every waiting channel once. */
    method FinishReader(g: nat)
      requires Valid() && g < |gens|
      modifies this`dead, this`requests, this`gens
      ensures Valid() && View() == Finished(old(View()), g)
    {
      ghost var was := requests;
      if current == Some(g) {
        dead := true;
      }
      var left: set<int> := pending.Keys;
      while left != {}
        invariant left <= pending.Keys && |requests| == |was|
        invariant gens == old(gens) && dead == (old(dead) || current == Some(g))
        invariant forall u :: 0 <= u < |was| ==>
          requests[u] == if Tried(pending, left, u) then Failed(was[u]) else was[u]
        decreases |left|
      {
        NonEmpty(left);
        var id :| id in left;
        var u := pending[id];
        if requests[u].inbox.None? {
          requests := requests[u := requests[u].(inbox := Some(Failure), sends := requests[u].sends + 1)];
        }
        TriedOneMore(pending, left, id);
        left := left - {id};
      }
      forall u | 0 <= u < |was| ensures Tried(pending, {}, u) == Awaited(old(View()), u) {
      }
      assert requests == Finished(old(View()), g).requests;
      gens := gens[g := gens[g].(reader := Draining)];
    }
  }
}
