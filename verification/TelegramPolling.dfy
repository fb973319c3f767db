/**
 Polling generations of internal/app/telegram.go: subscribers acquire or join a generation, its
 worker polls until it is cancelled or a poll fails, closes both output channels, and only then
 may the next generation be made. The update offset outlives the generations.
*/
module TelegramPolling {
  import opened Wrappers

  /** What is done to the channels of one generation, in order. */
  datatype Op = CloseStart | Handle(update: int) | CloseOutputs

  /** Parked waits for start or cancellation; Fetching is inside the long poll, which may outlast a cancellation and
      still return a batch; Exiting is before the deferred cancel, Closing before the section that closes the
      channels. */
  datatype Worker = Parked | Polling | Fetching | Handling(batch: seq<int>, i: nat) | Exiting | Closing | Ended

  datatype Gen = Gen(cancelled: bool, started: bool, closed: bool, worker: Worker, ops: seq<Op>)

  /** The generation field is the newest generation, if any; nextUpdateID is shared by all of them. */
  datatype State = State(gens: seq<Gen>, nextUpdateID: int, handled: seq<int>)

  datatype Action =
    | Acquire(start: bool, breakerOpen: bool)
    | Cancel(g: nat)
    | LeaveParked(g: nat)
    | Start(g: nat)
    | LeaveLoop(g: nat)
    | BeginFetch(g: nat)
    | Fetch(g: nat, updates: seq<int>)
    | FetchFails(g: nat)
    | HandleNext(g: nat)
    | BatchDone(g: nat)
    | Panic(g: nat)
    | CancelSelf(g: nat)
    | CloseUp(g: nat)

  // ---------------------------------------------------------------- critical sections

  /** What acquireGeneration answers: wait for the old worker, refused by the breaker, or joined. */
  datatype Acquired = Waits | Refused | Joins(g: nat)

  function Fresh(): Gen { Gen(false, false, false, Parked, []) }

  function Started(gen: Gen): Gen {
    if gen.started then gen else gen.(started := true, ops := gen.ops + [CloseStart])
  }

  function AcquireResult(gens: seq<Gen>, start: bool, breakerOpen: bool): (seq<Gen>, Acquired) {
    var last := |gens| - 1;
    if gens != [] && !gens[last].closed && gens[last].cancelled then (gens, Waits)
    else if start && breakerOpen then (gens, Refused)
    else
      var made := if gens == [] || gens[last].closed then gens + [Fresh()] else gens;
      var g := |made| - 1;
      (if start then made[g := Started(made[g])] else made, Joins(g))
  }

  // ---------------------------------------------------------------- steps

  function Put(s: State, g: nat, gen: Gen): State
    requires g < |s.gens|
  {
    s.(gens := s.gens[g := gen])
  }

  function At(s: State, g: nat): Worker { if g < |s.gens| then s.gens[g].worker else Ended }

  function To(s: State, g: nat, w: Worker): State
    requires g < |s.gens|
  {
    Put(s, g, s.gens[g].(worker := w))
  }

  predicate Enabled(s: State, a: Action) {
    match a
    case Acquire(_, _) => true
    case Cancel(g) => g < |s.gens|
    case LeaveParked(g) => At(s, g).Parked? && s.gens[g].cancelled
    case Start(g) => At(s, g).Parked? && s.gens[g].started
    case LeaveLoop(g) => At(s, g).Polling? && s.gens[g].cancelled
    case BeginFetch(g) => At(s, g).Polling? && !s.gens[g].cancelled
    case Fetch(g, _) => At(s, g).Fetching?
    case FetchFails(g) => At(s, g).Fetching?
    case HandleNext(g) => At(s, g).Handling? && At(s, g).i < |At(s, g).batch|
    case BatchDone(g) => At(s, g).Handling? && At(s, g).i >= |At(s, g).batch|
    case Panic(g) => At(s, g).Handling? || At(s, g).Fetching? || At(s, g).Polling?
    case CancelSelf(g) => At(s, g).Exiting?
    case CloseUp(g) => At(s, g).Closing?
  }

  function Next(s: State, a: Action): State
    requires Enabled(s, a)
  {
    match a
    case Acquire(start, breakerOpen) => s.(gens := AcquireResult(s.gens, start, breakerOpen).0)
    case Cancel(g) => Put(s, g, s.gens[g].(cancelled := true))
    case LeaveParked(g) => To(s, g, Exiting)
    case Start(g) => To(s, g, Polling)
    case LeaveLoop(g) => To(s, g, Exiting)
    case BeginFetch(g) => To(s, g, Fetching)
    case Fetch(g, updates) => To(s, g, Handling(updates, 0))
    case FetchFails(g) => To(s, g, Exiting)
    case HandleNext(g) =>
      var Handling(batch, i) := At(s, g);
      if batch[i] < s.nextUpdateID then To(s, g, Handling(batch, i + 1))
      else
        Put(s, g, s.gens[g].(worker := Handling(batch, i + 1), ops := s.gens[g].ops + [Handle(batch[i])]))
          .(nextUpdateID := batch[i] + 1, handled := s.handled + [batch[i]])
    case BatchDone(g) => To(s, g, Polling)
    case Panic(g) => To(s, g, Exiting)
    case CancelSelf(g) => Put(s, g, s.gens[g].(worker := Closing, cancelled := true))
    case CloseUp(g) => Put(s, g, s.gens[g].(worker := Ended, closed := true, ops := s.gens[g].ops + [CloseOutputs]))
  }

  function Init(): State { State([], 0, []) }

  ghost predicate Steps(s: State, actions: seq<Action>, s': State)
    decreases |actions|
  {
    if actions == [] then s == s'
    else Enabled(s, actions[0]) && Steps(Next(s, actions[0]), actions[1..], s')
  }

  ghost predicate Reachable(s: State) { exists actions :: Steps(Init(), actions, s) }

  // ---------------------------------------------------------------- invariant

  ghost predicate Rising(ids: seq<int>) { forall i, j :: 0 <= i < j < |ids| ==> ids[i] < ids[j] }

  /** Each channel is closed at most once, the outputs last, so nothing is sent on them after. */
  ghost predicate OpsOk(gen: Gen) {
    && (forall i, j :: 0 <= i < j < |gen.ops| ==> !(gen.ops[i].CloseStart? && gen.ops[j].CloseStart?))
    && (forall i :: 0 <= i < |gen.ops| && gen.ops[i].CloseOutputs? ==> forall j :: i < j < |gen.ops| ==>
        gen.ops[j].CloseStart?)
    && (!gen.started ==> forall i :: 0 <= i < |gen.ops| ==> !gen.ops[i].CloseStart?)
    && (!gen.closed ==> forall i :: 0 <= i < |gen.ops| ==> !gen.ops[i].CloseOutputs?)
    && (gen.closed <==> gen.worker.Ended?)
  }

  ghost predicate Generations(s: State) {
    && (forall g :: 0 <= g < |s.gens| ==> OpsOk(s.gens[g]))
    && (forall g :: 0 <= g < |s.gens| - 1 ==> s.gens[g].closed)
  }

  ghost predicate Offsets(s: State) {
    && Rising(s.handled)
    && forall i :: 0 <= i < |s.handled| ==> s.handled[i] < s.nextUpdateID
  }

  ghost predicate Inv(s: State) { Generations(s) && Offsets(s) }

  lemma {:induction false} OpsGrow(gen: Gen, op: Op, gen': Gen)
    requires OpsOk(gen) && !gen.closed && gen'.ops == gen.ops + [op] && (gen'.closed <==> gen'.worker.Ended?)
    requires gen.started ==> gen'.started
    requires op.CloseStart? ==> !gen.started && gen'.started
    requires gen'.closed <==> op.CloseOutputs?
    ensures OpsOk(gen')
  {
  }

  lemma {:induction false} AcquireKeeps(s: State, start: bool, breakerOpen: bool)
    requires Generations(s)
    ensures Generations(Next(s, Acquire(start, breakerOpen)))
  {
    var last := |s.gens| - 1;
    assert OpsOk(Fresh());
    if s.gens != [] && !s.gens[last].closed && !s.gens[last].started { OpsGrow(s.gens[last], CloseStart,
        Started(s.gens[last])); }
    OpsGrow(Fresh(), CloseStart, Started(Fresh()));
  }

  lemma {:induction false} WorkerKeeps(s: State, a: Action)
    requires Inv(s) && Enabled(s, a) && !a.Acquire?
    ensures Inv(Next(s, a))
  {
    var gen, gen' := s.gens[a.g], Next(s, a).gens[a.g];
    assert OpsOk(gen);
    if a.CloseUp? {
      OpsGrow(gen, CloseOutputs, gen');
    } else if a.HandleNext? && gen'.ops != gen.ops {
      OpsGrow(gen, Handle(At(s, a.g).batch[At(s, a.g).i]), gen');
    }
    assert OpsOk(gen');
  }

  lemma {:induction false} InvKeeps(s: State, a: Action)
    requires Inv(s) && Enabled(s, a)
    ensures Inv(Next(s, a))
  {
    if a.Acquire? { AcquireKeeps(s, a.start, a.breakerOpen); } else { WorkerKeeps(s, a); }
  }

  lemma {:induction false} InvAlong(s: State, actions: seq<Action>, s': State)
    requires Inv(s) && Steps(s, actions, s')
    ensures Inv(s')
    decreases |actions|
  {
    if actions != [] {
      InvKeeps(s, actions[0]);
      InvAlong(Next(s, actions[0]), actions[1..], s');
    }
  }

  lemma {:induction false} ReachableInv(s: State)
    requires Reachable(s)
    ensures Inv(s)
  {
    var actions :| Steps(Init(), actions, s);
    InvAlong(Init(), actions, s);
  }

  // ---------------------------------------------------------------- whole runs

  /** At most one generation is open, so at most one worker runs and touches the offset. */
  lemma {:induction false} OneOpenGeneration(s: State, g: nat, h: nat)
    requires Reachable(s) && g < |s.gens| && h < |s.gens|
    requires (!s.gens[g].closed || !s.gens[g].worker.Ended?) && (!s.gens[h].closed || !s.gens[h].worker.Ended?)
    ensures g == h == |s.gens| - 1
  {
    ReachableInv(s);
    assert OpsOk(s.gens[g]) && OpsOk(s.gens[h]);
  }

  /** What a subscriber is answered, over every run: it waits exactly for a cancelled generation that has not closed,
      is refused exactly for a start with the breaker open, and otherwise joins the one open generation, started if it
      asked for that; only a join makes or starts anything, and it makes one exactly if none is open. */
  lemma {:induction false} SubscriberIsAnswered(s: State, start: bool, breakerOpen: bool)
    requires Reachable(s)
    ensures var s' := Next(s, Acquire(start, breakerOpen)); var r := AcquireResult(s.gens, start, breakerOpen).1;
            var open := set g | 0 <= g < |s.gens| && !s.gens[g].closed;
            && (r.Waits? <==> exists g :: g in open && s.gens[g].cancelled)
            && (r.Refused? <==> !r.Waits? && start && breakerOpen)
            && (!r.Joins? ==> s' == s)
            && (r.Joins? ==>
                  && r.g + 1 == |s'.gens| && !s'.gens[r.g].closed && !s'.gens[r.g].cancelled
                  && (start ==> s'.gens[r.g].started)
                  && |s'.gens| == |s.gens| + (if open == {} then 1 else 0)
                  && (forall g :: 0 <= g < |s.gens| && g != r.g ==> s'.gens[g] == s.gens[g])
                  && (r.g < |s.gens| ==> s'.gens[r.g].worker == s.gens[r.g].worker
                                         && (!start ==> s'.gens[r.g] == s.gens[r.g])))
  {
    ReachableInv(s);
    var open := set g | 0 <= g < |s.gens| && !s.gens[g].closed;
    var last := |s.gens| - 1;
    assert open == if s.gens != [] && !s.gens[last].closed then {last} else {};
    if s.gens != [] && !s.gens[last].closed && s.gens[last].cancelled { assert last in open; }
  }

  /** Both channels are closed at most once and nothing is handled after the outputs are closed. */
  lemma {:induction false} ChannelsCloseOnce(s: State, g: nat, i: nat, j: nat)
    requires Reachable(s) && g < |s.gens| && i < j < |s.gens[g].ops|
    ensures !(s.gens[g].ops[i].CloseStart? && s.gens[g].ops[j].CloseStart?)
    ensures !(s.gens[g].ops[i].CloseOutputs? && s.gens[g].ops[j].CloseOutputs?)
    ensures !(s.gens[g].ops[i].CloseOutputs? && s.gens[g].ops[j].Handle?)
  {
    ReachableInv(s);
    assert OpsOk(s.gens[g]);
  }

  /** Over all generations every update is handled at most once, in rising order. */
  lemma {:induction false} UpdatesHandledOnce(s: State, i: nat, j: nat)
    requires Reachable(s) && i < j < |s.handled|
    ensures s.handled[i] < s.handled[j]
  {
    ReachableInv(s);
  }

  /** Distance of a cancelled worker from its end, not counting the batch of a fetch still under way. */
  function Rank(w: Worker): nat {
    match w
    case Ended => 0
    case Closing => 1
    case Exiting => 2
    case Polling => 3
    case Parked => 4
    case Handling(batch, i) => 4 + if i < |batch| then |batch| - i else 0
    case Fetching => 5
  }

  /** A step that the worker of generation g takes itself. */
  predicate OwnStep(a: Action, g: nat) { !a.Acquire? && !a.Cancel? && a.g == g }

  /** How many updates the step brings to the worker of generation g. */
  function Brought(a: Action, g: nat): nat { if a.Fetch? && a.g == g then |a.updates| else 0 }

  /** A cancelled worker stays cancelled and begins no fetch; each step of its own, whichever it is, brings it closer
      to closing up, except for the batch that a fetch under way may still bring; no other step moves it. */
  lemma {:induction false} CancelledWorkerAdvances(s: State, a: Action, g: nat)
    requires Enabled(s, a) && g < |s.gens| && s.gens[g].cancelled
    ensures var s' := Next(s, a); g < |s'.gens| && s'.gens[g].cancelled
    ensures var before, after := s.gens[g].worker, Next(s, a).gens[g].worker;
            && (if OwnStep(a, g) then Rank(after) + 1 <= Rank(before) + Brought(a, g) else after == before)
            && (after.Fetching? ==> before.Fetching? && !OwnStep(a, g))
            && (a.Fetch? && a.g == g ==> before.Fetching?)
  {
  }

  /** And until it has ended it always has a step of its own, whatever the others do. */
  lemma {:induction false} CancelledWorkerNeverStuck(s: State, g: nat) returns (a: Action)
    requires g < |s.gens| && s.gens[g].cancelled && !s.gens[g].worker.Ended?
    ensures Enabled(s, a) && OwnStep(a, g)
  {
    match s.gens[g].worker
    case Parked => a := LeaveParked(g);
    case Polling => a := LeaveLoop(g);
    case Fetching => a := FetchFails(g);
    case Handling(batch, i) => a := if i < |batch| then HandleNext(g) else BatchDone(g);
    case Exiting => a := CancelSelf(g);
    case Closing => a := CloseUp(g);
  }

  ghost function OwnSteps(actions: seq<Action>, g: nat): nat
    decreases |actions|
  {
    if actions == [] then 0 else (if OwnStep(actions[0], g) then 1 else 0) + OwnSteps(actions[1..], g)
  }

  /** The batches the worker of generation g fetches in a run. */
  ghost function Batches(actions: seq<Action>, g: nat): seq<seq<int>>
    decreases |actions|
  {
    if actions == [] then []
    else (if actions[0].Fetch? && actions[0].g == g then [actions[0].updates] else []) + Batches(actions[1..], g)
  }

  /** Over every run after a cancellation the worker gets at most one more batch, and that only if its fetch was
      under way when it was cancelled; it takes at most as many steps as its distance from the end plus the size of
      that batch. So Stop and a waiting acquire get their turn once a fetch under way returns. */
  lemma {:induction false} CancelledWorkerIsBounded(s: State, actions: seq<Action>, s': State, g: nat)
    requires Steps(s, actions, s') && g < |s.gens| && s.gens[g].cancelled
    ensures g < |s'.gens| && (s'.gens[g].worker.Fetching? ==> s.gens[g].worker.Fetching?)
    ensures var batches := Batches(actions, g); var w, w' := s.gens[g].worker, s'.gens[g].worker;
            && |batches| <= (if w.Fetching? && !w'.Fetching? then 1 else 0)
            && OwnSteps(actions, g) + Rank(w') <= Rank(w) + if batches == [] then 0 else |batches[0]|
    decreases |actions|
  {
    if actions != [] {
      CancelledWorkerAdvances(s, actions[0], g);
      CancelledWorkerIsBounded(Next(s, actions[0]), actions[1..], s', g);
    }
  }

  /** The extra batch is real: a worker cancelled inside its fetch still handles everything the fetch brings. */
  lemma {:induction false} FetchOutlastsStop(u: int) returns (s: State, fetch: Action)
    requires u >= 0
    ensures Reachable(s) && |s.gens| == 1 && s.gens[0].cancelled && fetch == Fetch(0, [u]) && Enabled(s, fetch)
    ensures Enabled(Next(s, fetch), HandleNext(0)) && Next(Next(s, fetch), HandleNext(0)).handled == [u]
  {
    var s1 := Next(Init(), Acquire(true, false));
    assert s1.gens == [Started(Fresh())];
    var s2 := Next(s1, Start(0));
    var s3 := Next(s2, BeginFetch(0));
    s := Next(s3, Cancel(0));
    fetch := Fetch(0, [u]);
    assert Steps(s3, [Cancel(0)], s) by { assert [Cancel(0)][1..] == []; }
    StepsCons(s2, BeginFetch(0), [Cancel(0)], s);
    StepsCons(s1, Start(0), [BeginFetch(0)] + [Cancel(0)], s);
    StepsCons(Init(), Acquire(true, false), [Start(0)] + ([BeginFetch(0)] + [Cancel(0)]), s);
  }

  lemma {:induction false} StepsCons(s: State, a: Action, rest: seq<Action>, s': State)
    requires Enabled(s, a) && Steps(Next(s, a), rest, s')
    ensures Steps(s, [a] + rest, s')
  {
    assert ([a] + rest)[1..] == rest;
  }

  // ---------------------------------------------------------------- the object

  /** The updates of a batch that startPoller handles, given the offset it starts with. */
  function Unseen(updates: seq<int>, next: int): seq<int>
    decreases |updates|
  {
    if updates == [] then []
    else if updates[0] < next then Unseen(updates[1..], next)
    else [updates[0]] + Unseen(updates[1..], updates[0] + 1)
  }

  /** The offset after the batch. */
  function OffsetAfter(updates: seq<int>, next: int): int
    decreases |updates|
  {
    if updates == [] then next
    else OffsetAfter(updates[1..], if updates[0] < next then next else updates[0] + 1)
  }

  /** Adding one update at the end of a batch. */
  lemma {:induction false} UnseenSnoc(updates: seq<int>, next: int, u: int)
    ensures OffsetAfter(updates + [u], next) == if u < OffsetAfter(updates, next) then OffsetAfter(updates, next)
        else u + 1
    ensures Unseen(updates + [u], next) == Unseen(updates, next) + if u < OffsetAfter(updates, next) then [] else [u]
    decreases |updates|
  {
    if updates == [] {
      assert updates + [u] == [u];
      assert Unseen([u][1..], u + 1) == [];
    } else {
      assert (updates + [u])[1..] == updates[1..] + [u];
      UnseenSnoc(updates[1..], if updates[0] < next then next else updates[0] + 1, u);
    }
  }

  /** The handled part of a batch rises, starts at the offset, and leaves the offset above it; an update
      of the batch that is not handled lies below the new offset. */
  lemma {:induction false} UnseenRises(updates: seq<int>, next: int)
    ensures Rising(Unseen(updates, next)) && next <= OffsetAfter(updates, next)
    ensures forall u :: u in Unseen(updates, next) ==> next <= u < OffsetAfter(updates, next) && u in updates
    ensures forall u :: u in updates ==> u < OffsetAfter(updates, next)
    decreases |updates|
  {
    if updates != [] {
      UnseenRises(updates[1..], if updates[0] < next then next else updates[0] + 1);
      var rest := Unseen(updates[1..], updates[0] + 1);
      assert updates[0] >= next ==> forall i :: 0 <= i < |rest| ==> rest[i] in rest;
      assert forall u :: u in updates <==> u == updates[0] || u in updates[1..];
    }
  }

  /** k steps of a worker through its batch. */
  function Handled(s: State, g: nat, k: nat): State {
    if k == 0 then s
    else
      var before := Handled(s, g, k - 1);
      if Enabled(before, HandleNext(g)) then Next(before, HandleNext(g)) else before
  }

  /** The steps of the protocol through a fetched batch do what the loop of startPoller does: they handle the unseen
      updates and move the offset past them. */
  lemma {:induction false} BatchSteps(s: State, g: nat, updates: seq<int>, k: nat)
    requires At(s, g) == Handling(updates, 0) && k <= |updates|
    ensures var s' := Handled(s, g, k);
            && At(s', g) == Handling(updates, k) && (k < |updates| ==> Enabled(s', HandleNext(g)))
            && s'.handled == s.handled + Unseen(updates[..k], s.nextUpdateID)
            && s'.nextUpdateID == OffsetAfter(updates[..k], s.nextUpdateID)
  {
    if k > 0 {
      BatchSteps(s, g, updates, k - 1);
      UnseenSnoc(updates[..k - 1], s.nextUpdateID, updates[k - 1]);
      assert updates[..k] == updates[..k - 1] + [updates[k - 1]];
    }
  }

  /** From the first subscription on: the generation is made, started and polls. */
  lemma {:induction false} SubscribedPolls(s: State) returns (g: nat, s': State)
    requires forall g :: 0 <= g < |s.gens| ==> s.gens[g].closed
    ensures g == |s.gens| && s' == Next(Next(s, Acquire(true, false)), Start(g))
        && Enabled(Next(s, Acquire(true, false)), Start(g))
    ensures |s'.gens| == g + 1 && At(s', g) == Polling && !s'.gens[g].cancelled && s'.handled == s.handled
  {
    g := |s.gens|;
    s' := Next(Next(s, Acquire(true, false)), Start(g));
  }

  /** A round of polling that nothing disturbs handles exactly the unseen updates and polls on. */
  lemma {:induction false} RoundOfPolling(s: State, g: nat, updates: seq<int>) returns (s': State)
    requires At(s, g) == Polling && !s.gens[g].cancelled
    ensures Enabled(s, BeginFetch(g)) && Enabled(Next(s, BeginFetch(g)), Fetch(g, updates))
    ensures var batch := Handled(Next(Next(s, BeginFetch(g)), Fetch(g, updates)), g, |updates|);
            Enabled(batch, BatchDone(g)) && s' == Next(batch, BatchDone(g))
    ensures At(s', g) == Polling && s'.handled == s.handled + Unseen(updates, s.nextUpdateID)
    ensures s'.nextUpdateID == OffsetAfter(updates, s.nextUpdateID)
  {
    var fetched := Next(Next(s, BeginFetch(g)), Fetch(g, updates));
    BatchSteps(fetched, g, updates, |updates|);
    assert updates[..|updates|] == updates;
    s' := Next(Handled(fetched, g, |updates|), BatchDone(g));
  }

  class TgAPI {
    var gens: seq<Gen>
    var nextUpdateID: int
    var handled: seq<int>

    constructor ()
      ensures gens == [] && nextUpdateID == 0 && handled == []
    {
      gens, nextUpdateID, handled := [], 0, [];
    }

    /** The lifecycle section of acquire. */
    method AcquireGeneration(start: bool, breakerOpen: bool) returns (r: Acquired)
      modifies this`gens
      ensures (gens, r) == AcquireResult(old(gens), start, breakerOpen)
    {
      var last := |gens| - 1;
      if gens != [] && !gens[last].closed && gens[last].cancelled {
        return Waits;
      }
      if start && breakerOpen {
        return Refused;
      }
      if gens == [] || gens[last].closed {
        gens := gens + [Gen(false, false, false, Parked, [])];
      }
      var g := |gens| - 1;
      if start && !gens[g].started {
        gens := gens[g := gens[g].(started := true, ops := gens[g].ops + [CloseStart])];
      }
      r := Joins(g);
      ghost var made := if old(gens) == [] || old(gens)[last].closed then old(gens) + [Fresh()] else old(gens);
      assert made[g := made[g]] == made;
    }

    /** The inner loop of startPoller over one fetched batch. */
    method HandleBatch(updates: seq<int>)
      modifies this`nextUpdateID, this`handled
      ensures handled == old(handled) + Unseen(updates, old(nextUpdateID))
      ensures nextUpdateID == OffsetAfter(updates, old(nextUpdateID))
    {
      for i := 0 to |updates|
        invariant handled == old(handled) + Unseen(updates[..i], old(nextUpdateID))
        invariant nextUpdateID == OffsetAfter(updates[..i], old(nextUpdateID))
      {
        UnseenSnoc(updates[..i], old(nextUpdateID), updates[i]);
        assert updates[..i + 1] == updates[..i] + [updates[i]];
        if updates[i] < nextUpdateID {
          continue;
        }
        nextUpdateID := updates[i] + 1;
        handled := handled + [updates[i]];
      }
      assert updates[..|updates|] == updates;
    }
  }
}
