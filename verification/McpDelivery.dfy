/**
 Which waiting callers of the transport still have their entry in the pending map. Ids restart with every
 generation and deregister is keyed by id alone, so an entry can be taken away from outside; this is the only way.
*/
module McpDelivery {
  import opened Wrappers
  import opened McpTransport
  import opened McpSafety

  predicate IsRegistered(sh: Shared, u: nat) {
    u < |sh.requests| && sh.requests[u].id in sh.pending && sh.pending[sh.requests[u].id] == u
  }

  /** The goroutine has registered request u and has not begun to let go of it. */
  predicate HoldsOn(pc: PC, u: nat) { ReqOf(pc) == Some(u) && !pc.Dropping? }

  /** The reader can still find the request: it is not done and is not carrying its reply. */
  predicate Looking(reader: Reader, u: nat) { reader.Scanning? || (reader.Handing? && reader.req != u) }

  /** Request u of goroutine t is held on to, belongs to the attached generation and has not been answered. */
  predicate Unanswered(s: State, t: nat, u: nat) {
    && u < |s.sh.requests| && s.sh.requests[u].sends == 0
    && s.sh.current == Some(s.sh.requests[u].gen) && s.sh.requests[u].gen < |s.sh.gens|
    && Looking(s.sh.gens[s.sh.requests[u].gen].reader, u)
    && HoldsOn(At(s, t), u)
  }

  /** A caller of an earlier generation deregisters the id of request u. */
  predicate Steals(s: State, a: Action, u: nat) {
    && a.Wait? && a.await.Deregister? && At(s, a.t).Dropping?
    && u < |s.sh.requests| && At(s, a.t).req < |s.sh.requests|
    && s.sh.requests[At(s, a.t).req].id == s.sh.requests[u].id
    && s.sh.requests[At(s, a.t).req].gen < s.sh.requests[u].gen
  }

  ghost predicate Stolen(s: State, actions: seq<Action>, u: nat)
    decreases |actions|
  {
    && actions != [] && Enabled(s, actions[0])
    && (Steals(s, actions[0], u) || Stolen(Next(s, actions[0]), actions[1..], u))
  }

  // ---------------------------------------------------------------- one step

  lemma {:induction false} DeregisteredEntry(sh: Shared, id: int, u: nat)
    requires u < |sh.requests|
    ensures IsRegistered(Deregistered(sh, id), u) <==> IsRegistered(sh, u) && sh.requests[u].id != id
  {
  }

  /** Whoever lets go of the id of an unanswered request of somebody else belongs to an earlier generation. */
  lemma {:induction false} DropperIsEarlier(s: State, r: nat, t: nat, u: nat)
    requires Requests(s.sh) && PcOk(s, r, At(s, r)) && PcOk(s, t, At(s, t)) && Unanswered(s, t, u)
    requires s.sh.current.Some? ==> s.sh.current.value + 1 == |s.sh.gens|
    requires At(s, r).Dropping? && At(s, r).req < |s.sh.requests|
    ensures var v := At(s, r).req; s.sh.requests[v].id == s.sh.requests[u].id ==>
        s.sh.requests[v].gen < s.sh.requests[u].gen
  {
    var v := At(s, r).req;
    assert RequestOk(s.sh, s.sh.requests[v]);
    assert s.sh.requests[u].owner == t && s.sh.requests[v].owner == r;
    assert v != u;
  }

  lemma {:induction false} DeregisterKeepsOthers(s: State, r: nat, t: nat, u: nat)
    requires Requests(s.sh) && PcOk(s, r, At(s, r)) && PcOk(s, t, At(s, t)) && Unanswered(s, t, u)
    requires s.sh.current.Some? ==> s.sh.current.value + 1 == |s.sh.gens|
    requires Enabled(s, Wait(r, Deregister))
    ensures var s' := Next(s, Wait(r, Deregister));
            IsRegistered(s'.sh, u) <==> IsRegistered(s.sh, u) && !Steals(s, Wait(r, Deregister), u)
  {
    DropperIsEarlier(s, r, t, u);
    DeregisteredEntry(s.sh, s.sh.requests[At(s, r).req].id, u);
  }

  lemma {:induction false} ReadingKeeps(s: State, g: nat, r: Read, t: nat, u: nat)
    requires SharedInv(s.sh) && Live(s) && Enabled(s, Reading(g, r)) && Unanswered(s, t, u)
    requires Unanswered(Next(s, Reading(g, r)), t, u)
    ensures IsRegistered(Next(s, Reading(g, r)).sh, u) <==> IsRegistered(s.sh, u)
  {
  }

  lemma {:induction false} SendingKeeps(s: State, r: nat, w: Send, t: nat, u: nat)
    requires SharedInv(s.sh) && Enabled(s, Transmit(r, w)) && Unanswered(s, t, u)
    ensures IsRegistered(Next(s, Transmit(r, w)).sh, u) <==> IsRegistered(s.sh, u)
  {
    assert RequestOk(s.sh, s.sh.requests[u]);
  }

  lemma {:induction false} EnteringKeeps(s: State, r: nat, e: Entry, t: nat, u: nat)
    requires Enabled(s, Enter(r, e)) && Unanswered(s, t, u) && Unanswered(Next(s, Enter(r, e)), t, u)
    ensures IsRegistered(Next(s, Enter(r, e)).sh, u) <==> IsRegistered(s.sh, u)
  {
  }

  lemma {:induction false} TearingKeeps(s: State, r: nat, d: Tear, t: nat, u: nat)
    requires Enabled(s, Teardown(r, d)) && Unanswered(s, t, u) && Unanswered(Next(s, Teardown(r, d)), t, u)
    ensures IsRegistered(Next(s, Teardown(r, d)).sh, u) <==> IsRegistered(s.sh, u)
  {
  }

  lemma {:induction false} AwaitingKeeps(s: State, r: nat, w: Await, u: nat)
    requires Enabled(s, Wait(r, w)) && !w.Deregister? && u < |s.sh.requests|
    ensures IsRegistered(Next(s, Wait(r, w)).sh, u) <==> IsRegistered(s.sh, u)
  {
  }

  /** One step between two states in which the request is unanswered takes its entry away exactly if it steals it, and
      never brings it back. */
  lemma {:induction false} StepKeepsEntryExactly(s: State, a: Action, t: nat, u: nat)
    requires Inv(s) && Enabled(s, a) && Unanswered(s, t, u) && Unanswered(Next(s, a), t, u)
    ensures IsRegistered(Next(s, a).sh, u) <==> IsRegistered(s.sh, u) && !Steals(s, a, u)
  {
    match a
    case Enter(r, e) => EnteringKeeps(s, r, e, t, u);
    case Teardown(r, d) => TearingKeeps(s, r, d, t, u);
    case Transmit(r, w) => SendingKeeps(s, r, w, t, u);
    case Wait(r, w) =>
      assert PcOk(s, r, At(s, r)) && PcOk(s, t, At(s, t));
      if w.Deregister? { DeregisterKeepsOthers(s, r, t, u); } else { AwaitingKeeps(s, r, w, u); }
    case Reading(g, r) => ReadingKeeps(s, g, r, t, u);
  }

  // ---------------------------------------------------------------- once over, over for good

  /** What is left of Unanswered without the goroutine. */
  predicate Open(sh: Shared, u: nat) {
    && u < |sh.requests| && sh.requests[u].sends == 0
    && sh.current == Some(sh.requests[u].gen) && sh.requests[u].gen < |sh.gens|
    && Looking(sh.gens[sh.requests[u].gen].reader, u)
  }

  lemma {:induction false} ReadingNotReopens(s: State, g: nat, r: Read, u: nat)
    requires SharedInv(s.sh) && Enabled(s, Reading(g, r)) && u < |s.sh.requests| && !Open(s.sh, u)
    ensures !Open(Next(s, Reading(g, r)).sh, u)
  {
    assert RequestOk(s.sh, s.sh.requests[u]);
    assert ReaderOk(s.sh, g, s.sh.gens[g].reader);
  }

  lemma {:induction false} EnteringNotReopens(s: State, r: nat, e: Entry, u: nat)
    requires Enabled(s, Enter(r, e)) && u < |s.sh.requests| && s.sh.requests[u].gen < |s.sh.gens| && !Open(s.sh, u)
    ensures !Open(Next(s, Enter(r, e)).sh, u)
  {
  }

  lemma {:induction false} TearingNotReopens(s: State, r: nat, d: Tear, u: nat)
    requires Enabled(s, Teardown(r, d)) && u < |s.sh.requests| && !Open(s.sh, u)
    ensures !Open(Next(s, Teardown(r, d)).sh, u)
  {
  }

  lemma {:induction false} SendingNotReopens(s: State, r: nat, w: Send, u: nat)
    requires Enabled(s, Transmit(r, w)) && u < |s.sh.requests| && !Open(s.sh, u)
    ensures !Open(Next(s, Transmit(r, w)).sh, u)
  {
  }

  lemma {:induction false} AwaitingNotReopens(s: State, r: nat, w: Await, u: nat)
    requires Enabled(s, Wait(r, w)) && u < |s.sh.requests| && !Open(s.sh, u)
    ensures !Open(Next(s, Wait(r, w)).sh, u)
  {
  }

  lemma {:induction false} OpenNotRegained(s: State, a: Action, u: nat)
    requires SharedInv(s.sh) && Enabled(s, a) && u < |s.sh.requests| && !Open(s.sh, u)
    ensures !Open(Next(s, a).sh, u)
  {
    assert RequestOk(s.sh, s.sh.requests[u]);
    match a
    case Enter(r, e) => EnteringNotReopens(s, r, e, u);
    case Teardown(r, d) => TearingNotReopens(s, r, d, u);
    case Transmit(r, w) => SendingNotReopens(s, r, w, u);
    case Wait(r, w) => AwaitingNotReopens(s, r, w, u);
    case Reading(g, r) => ReadingNotReopens(s, g, r, u);
  }

  lemma {:induction false} SenderNotRegains(s: State, t: nat, w: Send, u: nat)
    requires Enabled(s, Transmit(t, w)) && u < |s.sh.requests| && !HoldsOn(At(s, t), u)
    ensures !HoldsOn(At(Next(s, Transmit(t, w)), t), u)
  {
  }

  lemma {:induction false} TearerNotRegains(s: State, t: nat, d: Tear, u: nat)
    requires Enabled(s, Teardown(t, d)) && !HoldsOn(At(s, t), u)
    ensures !HoldsOn(At(Next(s, Teardown(t, d)), t), u)
  {
  }

  lemma {:induction false} AwaiterNotRegains(s: State, t: nat, w: Await, u: nat)
    requires Enabled(s, Wait(t, w)) && !HoldsOn(At(s, t), u)
    ensures !HoldsOn(At(Next(s, Wait(t, w)), t), u)
  {
  }

  lemma {:induction false} HoldNotRegained(s: State, a: Action, t: nat, u: nat)
    requires Enabled(s, a) && u < |s.sh.requests| && !HoldsOn(At(s, t), u)
    ensures !HoldsOn(At(Next(s, a), t), u)
  {
    OnlyMoverMoves(s, a);
    if Mover(a) == Some(t) {
      match a
      case Enter(_, _) =>
      case Teardown(_, d) => TearerNotRegains(s, t, d, u);
      case Transmit(_, w) => SenderNotRegains(s, t, w, u);
      case Wait(_, w) => AwaiterNotRegains(s, t, w, u);
    }
  }

  lemma {:induction false} NotRegained(s: State, a: Action, t: nat, u: nat)
    requires Inv(s) && Enabled(s, a) && u < |s.sh.requests| && !Unanswered(s, t, u)
    ensures !Unanswered(Next(s, a), t, u)
  {
    if !Open(s.sh, u) { OpenNotRegained(s, a, u); } else { HoldNotRegained(s, a, t, u); }
  }

  lemma {:induction false} NeverRegained(s: State, actions: seq<Action>, s': State, t: nat, u: nat)
    requires Inv(s) && Steps(s, actions, s') && u < |s.sh.requests| && !Unanswered(s, t, u)
    ensures !Unanswered(s', t, u)
    decreases |actions|
  {
    if actions != [] {
      NotRegained(s, actions[0], t, u);
      StepKeeps(s, actions[0]);
      InvKeeps(s, actions[0]);
      NeverRegained(Next(s, actions[0]), actions[1..], s', t, u);
    }
  }

  lemma {:induction false} NeverRegainedOr(s: State, actions: seq<Action>, s': State, t: nat, u: nat)
    requires Inv(s) && Steps(s, actions, s') && u < |s.sh.requests|
    ensures Unanswered(s', t, u) ==> Unanswered(s, t, u)
  {
    if !Unanswered(s, t, u) { NeverRegained(s, actions, s', t, u); }
  }

  // ---------------------------------------------------------------- whole runs

  lemma {:induction false} EntryKeptExactly(s: State, actions: seq<Action>, s': State, t: nat, u: nat)
    requires Inv(s) && Steps(s, actions, s') && Unanswered(s, t, u) && Unanswered(s', t, u)
    ensures IsRegistered(s'.sh, u) <==> IsRegistered(s.sh, u) && !Stolen(s, actions, u)
    decreases |actions|
  {
    if actions != [] {
      var next := Next(s, actions[0]);
      InvKeeps(s, actions[0]);
      StepKeeps(s, actions[0]);
      NeverRegainedOr(next, actions[1..], s', t, u);
      StepKeepsEntryExactly(s, actions[0], t, u);
      EntryKeptExactly(next, actions[1..], s', t, u);
    }
  }

  /** Over every run, a caller that still waits for an answer of the attached generation, whose reader is scanning, is
      registered, so that the reader will find it, exactly if no caller of an earlier generation deregistered its
      id since it registered. */
  lemma {:induction false} WaiterReachableExactly(s: State, t: nat, actions: seq<Action>, s': State)
    requires Reachable(s) && Enabled(s, Transmit(t, SendBody)) && Running(s.sh)
    requires Steps(Next(s, Transmit(t, SendBody)), actions, s')
    requires var u := |s.sh.requests|; At(s', t) == Waiting(u) && u < |s'.sh.requests| && s'.sh.requests[u].sends == 0
    requires var r := s'.sh.requests[|s.sh.requests|];
             s'.sh.current == Some(r.gen) && r.gen < |s'.sh.gens| && s'.sh.gens[r.gen].reader.Scanning?
    ensures IsRegistered(s'.sh, |s.sh.requests|) <==> !Stolen(Next(s, Transmit(t, SendBody)), actions, |s.sh.requests|)
  {
    ReachableInv(s);
    var u, begun := |s.sh.requests|, Next(s, Transmit(t, SendBody));
    InvKeeps(s, Transmit(t, SendBody));
    assert ReaderOk(s.sh, s.sh.current.value, s.sh.gens[s.sh.current.value].reader);
    assert Unanswered(begun, t, u) && IsRegistered(begun.sh, u);
    EntryKeptExactly(begun, actions, s', t, u);
  }
}
