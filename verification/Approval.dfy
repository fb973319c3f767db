/**
 Human approval of tool calls: internal/agent/hitl.go with the guarded upsert of
 internal/context/manager.go. A waiter and the callbacks for its request meet through a
 persisted status and a live channel of capacity 1; either write may fail or come late.
*/
module Approval {
  import opened Wrappers

  /** hitl_approvals.status; Absent is a missing row (or a missing store). */
  datatype Status = Absent | Sending | Pending | Approved | Rejected

  /** The channel one RequestApproval made for its request id. */
  datatype Channel = Channel(owner: nat, req: string, inbox: Option<bool>)

  datatype Answer = Decided(approved: bool) | Failed

  /** Where RequestApproval is: after registerWaiter, before the first status read (Registered), before
      persisting "sending", before sending the buttons, before persisting "pending", before the
      non-blocking receive (Polling), before the second status read, in the blocking select,
      and before releaseWaiter. */
  datatype Waiter =
    | Out
    | Registered(req: string, ch: nat)
    | Announcing(req: string, ch: nat)
    | Delivering(req: string, ch: nat)
    | Confirming(req: string, ch: nat)
    | Polling(req: string, ch: nat)
    | Rechecking(req: string, ch: nat)
    | Blocked(req: string, ch: nat)
    | Finished(req: string, ch: nat, answer: Answer)

  /** Where HandleCallback is: before persisting, before looking the waiter up, before notifying. */
  datatype Callback =
    | Quiet
    | Arrived(req: string, approved: bool)
    | Persisted(req: string, approved: bool)
    | Found(req: string, approved: bool, ch: nat)

  datatype State = State(
    rows: map<string, Status>,
    pending: map<string, nat>,
    channels: seq<Channel>,
    waiters: map<nat, Waiter>,
    callbacks: map<nat, Callback>,
    decisions: seq<(string, bool)>,
    results: seq<(string, Answer)>)

  /** `ok` is whether the outside operation of the step succeeds. */
  datatype Action =
    | Register(w: nat, req: string)
    | ReadStatus(w: nat, ok: bool)
    | PersistSending(w: nat, ok: bool)
    | SendButtons(w: nat, ok: bool)
    | PersistPending(w: nat, ok: bool)
    | TryReceive(w: nat)
    | Recheck(w: nat, ok: bool)
    | Receive(w: nat)
    | Expire(w: nat)
    | Leave(w: nat)
    | Arrive(c: nat, req: string, approved: bool)
    | Persist(c: nat, ok: bool)
    | Lookup(c: nat)
    | Notify(c: nat)

  // ---------------------------------------------------------------- the critical sections

  predicate IsDecision(st: Status) { st.Approved? || st.Rejected? }

  function StatusOf(rows: map<string, Status>, req: string): Status { if req in rows then rows[req] else Absent }

  /** SaveHITLApproval: ON CONFLICT DO UPDATE ... WHERE the new status is a decision or the old one is not. */
  function Upserted(rows: map<string, Status>, req: string, st: Status): map<string, Status> {
    if req !in rows || !(st.Sending? || st.Pending?) || !IsDecision(rows[req]) then rows[req := st] else rows
  }

  function Filled(channels: seq<Channel>, ch: nat, approved: bool): seq<Channel>
    requires ch < |channels|
  {
    if channels[ch].inbox.None? then channels[ch := channels[ch].(inbox := Some(approved))] else channels
  }

  function Emptied(channels: seq<Channel>, ch: nat): seq<Channel>
    requires ch < |channels|
  {
    channels[ch := channels[ch].(inbox := None)]
  }

  function Unregistered(pending: map<string, nat>, req: string, ch: nat): map<string, nat> {
    if req in pending && pending[req] == ch then pending - {req} else pending
  }

  // ---------------------------------------------------------------- steps

  function W(s: State, w: nat): Waiter { if w in s.waiters then s.waiters[w] else Out }

  function C(s: State, c: nat): Callback { if c in s.callbacks then s.callbacks[c] else Quiet }

  function ToW(s: State, w: nat, at: Waiter): State { s.(waiters := s.waiters[w := at]) }

  function ToC(s: State, c: nat, at: Callback): State { s.(callbacks := s.callbacks[c := at]) }

  predicate HasMail(s: State, ch: nat) { ch < |s.channels| && s.channels[ch].inbox.Some? }

  predicate Enabled(s: State, a: Action) {
    match a
    case Register(w, req) => W(s, w).Out? && req !in s.pending
    case ReadStatus(w, _) => W(s, w).Registered?
    case PersistSending(w, _) => W(s, w).Announcing?
    case SendButtons(w, _) => W(s, w).Delivering?
    case PersistPending(w, _) => W(s, w).Confirming?
    case TryReceive(w) => W(s, w).Polling?
    case Recheck(w, _) => W(s, w).Rechecking?
    case Receive(w) => W(s, w).Blocked? && HasMail(s, W(s, w).ch)
    case Expire(w) => W(s, w).Blocked?
    case Leave(w) => W(s, w).Finished?
    case Arrive(c, _, _) => C(s, c).Quiet?
    case Persist(c, _) => C(s, c).Arrived?
    case Lookup(c) => C(s, c).Persisted?
    case Notify(c) => C(s, c).Found? && C(s, c).ch < |s.channels|
  }

  function Took(s: State, w: nat, req: string, ch: nat): State
    requires HasMail(s, ch)
  {
    ToW(s.(channels := Emptied(s.channels, ch)), w, Finished(req, ch, Decided(s.channels[ch].inbox.value)))
  }

  predicate ByCallback(a: Action) { a.Arrive? || a.Persist? || a.Lookup? || a.Notify? }

  function Next(s: State, a: Action): State
    requires Enabled(s, a)
  {
    if ByCallback(a) then CallbackNext(s, a) else WaiterNext(s, a)
  }

  function CallbackNext(s: State, a: Action): State
    requires Enabled(s, a) && ByCallback(a)
  {
    match a
    case Arrive(c, req, approved) =>
      ToC(s.(decisions := s.decisions + [(req, approved)]), c, Arrived(req, approved))
    case Persist(c, ok) =>
      var at := C(s, c);
      ToC(if ok then s.(rows := Upserted(s.rows, at.req, if at.approved then Approved else Rejected)) else s,
          c, Persisted(at.req, at.approved))
    case Lookup(c) =>
      var at := C(s, c);
      ToC(s, c, if at.req in s.pending then Found(at.req, at.approved, s.pending[at.req]) else Quiet)
    case Notify(c) => ToC(s.(channels := Filled(s.channels, C(s, c).ch, C(s, c).approved)), c, Quiet)
  }

  function WaiterNext(s: State, a: Action): State
    requires Enabled(s, a) && !ByCallback(a)
  {
    match a
    case Register(w, req) =>
      ToW(s.(pending := s.pending[req := |s.channels|], channels := s.channels + [Channel(w, req, None)]),
          w, Registered(req, |s.channels|))
    case ReadStatus(w, ok) =>
      var Registered(req, ch) := W(s, w);
      var st := StatusOf(s.rows, req);
      ToW(s, w, if !ok then Finished(req, ch, Failed)
                else if IsDecision(st) then Finished(req, ch, Decided(st.Approved?))
                else if st.Pending? then Polling(req, ch)
                else Announcing(req, ch))
    case PersistSending(w, ok) =>
      var Announcing(req, ch) := W(s, w);
      ToW(if ok then s.(rows := Upserted(s.rows, req, Sending)) else s, w, Delivering(req, ch))
    case SendButtons(w, ok) =>
      var Delivering(req, ch) := W(s, w);
      ToW(s, w, if ok then Confirming(req, ch) else Finished(req, ch, Failed))
    case PersistPending(w, ok) =>
      var Confirming(req, ch) := W(s, w);
      ToW(if ok then s.(rows := Upserted(s.rows, req, Pending)) else s, w, Polling(req, ch))
    case TryReceive(w) =>
      var Polling(req, ch) := W(s, w);
      if HasMail(s, ch) then Took(s, w, req, ch) else ToW(s, w, Rechecking(req, ch))
    case Recheck(w, ok) =>
      var Rechecking(req, ch) := W(s, w);
      var st := StatusOf(s.rows, req);
      ToW(s, w, if !ok then Finished(req, ch, Failed)
                else if IsDecision(st) then Finished(req, ch, Decided(st.Approved?))
                else Blocked(req, ch))
    case Receive(w) => Took(s, w, W(s, w).req, W(s, w).ch)
    case Expire(w) => ToW(s, w, Finished(W(s, w).req, W(s, w).ch, Failed))
    case Leave(w) =>
      var Finished(req, ch, answer) := W(s, w);
      ToW(s.(pending := Unregistered(s.pending, req, ch), results := s.results + [(req, answer)]), w, Out)
  }

  function Init(): State { State(map[], map[], [], map[], map[], [], []) }

  ghost predicate Steps(s: State, actions: seq<Action>, s': State)
    decreases |actions|
  {
    if actions == [] then s == s'
    else Enabled(s, actions[0]) && Steps(Next(s, actions[0]), actions[1..], s')
  }

  ghost predicate Reachable(s: State) { exists actions :: Steps(Init(), actions, s) }

  // ---------------------------------------------------------------- invariant

  /** A live waiter is the one registered for its request, and its channel is its own. */
  ghost predicate WaiterOk(s: State, w: nat, at: Waiter) {
    at.Out? ||
    (&& at.ch < |s.channels| && s.channels[at.ch].owner == w && s.channels[at.ch].req == at.req
     && at.req in s.pending && s.pending[at.req] == at.ch
     && (at.Finished? && at.answer.Decided? ==> (at.req, at.answer.approved) in s.decisions))
  }

  ghost predicate Waiters(s: State) { forall w: nat :: WaiterOk(s, w, W(s, w)) }

  ghost predicate Registry(s: State) {
    forall req :: req in s.pending ==> s.pending[req] < |s.channels| && s.channels[s.pending[req]].req == req
  }

  /** Whatever a callback carries, a channel holds or a row records was decided by some callback. */
  ghost predicate Sourced(s: State) {
    && (forall c: nat :: !C(s, c).Quiet? ==> (C(s, c).req, C(s, c).approved) in s.decisions)
    && (forall c: nat :: C(s, c).Found? ==> C(s, c).ch < |s.channels| && s.channels[C(s, c).ch].req == C(s, c).req)
    && (forall ch :: 0 <= ch < |s.channels| && s.channels[ch].inbox.Some? ==>
        (s.channels[ch].req, s.channels[ch].inbox.value) in s.decisions)
    && (forall req :: req in s.rows && IsDecision(s.rows[req]) ==> (req, s.rows[req].Approved?) in s.decisions)
    && (forall i :: 0 <= i < |s.results| && s.results[i].1.Decided? ==>
        (s.results[i].0, s.results[i].1.approved) in s.decisions)
  }

  /** Callback c is going to fill channel ch. */
  predicate WillFill(s: State, c: nat, req: string, ch: nat) {
    (C(s, c).Persisted? && C(s, c).req == req) || (C(s, c).Found? && C(s, c).ch == ch)
  }

  /** A blocked waiter with a recorded decision has mail, or mail is on its way. */
  ghost predicate Awakened(s: State, at: Waiter) {
    at.Blocked? && IsDecision(StatusOf(s.rows, at.req)) && !HasMail(s, at.ch) ==>
      exists c: nat :: WillFill(s, c, at.req, at.ch)
  }

  ghost predicate NoneLost(s: State) { forall w: nat :: Awakened(s, W(s, w)) }

  ghost predicate Inv(s: State) { Waiters(s) && Registry(s) && Sourced(s) && NoneLost(s) }

  lemma {:induction false} MovedWaiter(s: State, a: Action)
    requires Enabled(s, a) && !ByCallback(a)
    ensures forall v: nat :: v != a.w ==> W(WaiterNext(s, a), v) == W(s, v)
    ensures forall c: nat :: C(WaiterNext(s, a), c) == C(s, c)
  {
  }

  lemma {:induction false} MovedCallback(s: State, a: Action)
    requires Enabled(s, a) && ByCallback(a)
    ensures forall v: nat :: W(CallbackNext(s, a), v) == W(s, v)
    ensures forall c: nat :: c != a.c ==> C(CallbackNext(s, a), c) == C(s, c)
  {
  }

  lemma {:induction false} MoverStaysOk(s: State, a: Action)
    requires Sourced(s) && Enabled(s, a) && !ByCallback(a) && WaiterOk(s, a.w, W(s, a.w))
    ensures WaiterOk(WaiterNext(s, a), a.w, W(WaiterNext(s, a), a.w))
  {
  }

  lemma {:induction false} OthersStayOk(s: State, a: Action, v: nat)
    requires Enabled(s, a) && !ByCallback(a) && WaiterOk(s, a.w, W(s, a.w)) && v != a.w && WaiterOk(s, v, W(s, v))
    ensures WaiterOk(WaiterNext(s, a), v, W(WaiterNext(s, a), v))
  {
    MovedWaiter(s, a);
  }

  lemma {:induction false} WaiterKeepsRegistry(s: State, a: Action)
    requires Waiters(s) && Registry(s) && Sourced(s) && Enabled(s, a) && !ByCallback(a)
    ensures Waiters(WaiterNext(s, a)) && Registry(WaiterNext(s, a))
  {
    var s' := WaiterNext(s, a);
    assert WaiterOk(s, a.w, W(s, a.w));
    forall v: nat ensures WaiterOk(s', v, W(s', v)) {
      assert WaiterOk(s, v, W(s, v));
      if v == a.w { MoverStaysOk(s, a); } else { OthersStayOk(s, a, v); }
    }
  }

  lemma {:induction false} WaiterKeepsSources(s: State, a: Action)
    requires Waiters(s) && Sourced(s) && Enabled(s, a) && !ByCallback(a)
    ensures Sourced(WaiterNext(s, a))
  {
    MovedWaiter(s, a);
    assert WaiterOk(s, a.w, W(s, a.w));
  }

  lemma {:induction false} WaiterLosesNothing(s: State, a: Action)
    requires Waiters(s) && NoneLost(s) && Enabled(s, a) && !ByCallback(a)
    ensures NoneLost(WaiterNext(s, a))
  {
    MovedWaiter(s, a);
    var s' := WaiterNext(s, a);
    assert WaiterOk(s, a.w, W(s, a.w));
    forall v: nat ensures Awakened(s', W(s', v)) {
      assert WaiterOk(s, v, W(s, v)) && Awakened(s, W(s, v));
      if v != a.w && W(s, v).Blocked? && (exists c: nat :: WillFill(s, c, W(s, v).req, W(s, v).ch)) {
        var c: nat :| WillFill(s, c, W(s, v).req, W(s, v).ch);
        assert WillFill(s', c, W(s, v).req, W(s, v).ch);
      }
    }
  }

  lemma {:induction false} CallbackKeepsSources(s: State, a: Action)
    requires Waiters(s) && Registry(s) && Sourced(s) && Enabled(s, a) && ByCallback(a)
    ensures Waiters(CallbackNext(s, a)) && Registry(CallbackNext(s, a)) && Sourced(CallbackNext(s, a))
  {
    MovedCallback(s, a);
    var s' := CallbackNext(s, a);
    forall v: nat ensures WaiterOk(s', v, W(s', v)) {
      assert WaiterOk(s, v, W(s, v));
    }
  }

  lemma {:induction false} CallbackLosesNothing(s: State, a: Action)
    requires Waiters(s) && NoneLost(s) && Enabled(s, a) && ByCallback(a)
    ensures NoneLost(CallbackNext(s, a))
  {
    MovedCallback(s, a);
    var s' := CallbackNext(s, a);
    forall v: nat ensures Awakened(s', W(s', v)) {
      var at := W(s, v);
      assert WaiterOk(s, v, at) && Awakened(s, at);
      if at.Blocked? && IsDecision(StatusOf(s'.rows, at.req)) && !HasMail(s', at.ch) {
        if IsDecision(StatusOf(s.rows, at.req)) {
          var c: nat :| WillFill(s, c, at.req, at.ch);
          assert WillFill(s', c, at.req, at.ch);
        } else {
          assert WillFill(s', a.c, at.req, at.ch);
        }
      }
    }
  }

  lemma {:induction false} InvKeeps(s: State, a: Action)
    requires Inv(s) && Enabled(s, a)
    ensures Inv(Next(s, a))
  {
    if ByCallback(a) {
      CallbackKeepsSources(s, a);
      CallbackLosesNothing(s, a);
    } else {
      WaiterKeepsRegistry(s, a);
      WaiterKeepsSources(s, a);
      WaiterLosesNothing(s, a);
    }
  }

  lemma {:induction false} InvAlong(s: State, actions: seq<Action>, s': State)
    requires Inv(s) && Steps(s, actions, s')
    ensures Inv(s')
    decreases |actions|
  {
    if actions != [] {
      InvKeeps(s, actions[0]);
      InvAlong(Next(s, actions[0]), actions[1..], s');
    }
  }

  lemma {:induction false} ReachableInv(s: State)
    requires Reachable(s)
    ensures Inv(s)
  {
    var actions :| Steps(Init(), actions, s);
    InvAlong(Init(), actions, s);
  }

  // ---------------------------------------------------------------- whole runs

  /** No waiter blocks on a decision that is already recorded: either its channel has mail, or some
      callback still in flight reaches that very channel and leaves mail in it. */
  lemma {:induction false} NoLostDecision(s: State, w: nat) returns (c: nat)
    requires Reachable(s) && W(s, w).Blocked? && StatusOf(s.rows, W(s, w).req) in {Approved, Rejected}
    ensures HasMail(s, W(s, w).ch) ==> Enabled(s, Receive(w))
    ensures !HasMail(s, W(s, w).ch) && C(s, c).Persisted? ==>
              && Enabled(s, Lookup(c)) && C(Next(s, Lookup(c)), c).Found?
              && C(Next(s, Lookup(c)), c).ch == W(s, w).ch
    ensures !HasMail(s, W(s, w).ch) && !C(s, c).Persisted? ==>
              Enabled(s, Notify(c)) && HasMail(Next(s, Notify(c)), W(s, w).ch)
  {
    ReachableInv(s);
    assert WaiterOk(s, w, W(s, w)) && Awakened(s, W(s, w));
    c := 0;
    if !HasMail(s, W(s, w).ch) {
      c :| WillFill(s, c, W(s, w).req, W(s, w).ch);
    }
  }

  /** A request is answered with a decision only if a callback for its id carried that decision. */
  lemma {:induction false} AnswerComesFromACallback(s: State, i: nat)
    requires Reachable(s) && i < |s.results| && s.results[i].1.Decided?
    ensures (s.results[i].0, s.results[i].1.approved) in s.decisions
  {
    ReachableInv(s);
  }

  lemma {:induction false} OneWaiterPerRequest(s: State, v: nat, w: nat)
    requires Reachable(s) && !W(s, v).Out? && !W(s, w).Out? && W(s, v).req == W(s, w).req
    ensures v == w
  {
    ReachableInv(s);
    assert WaiterOk(s, v, W(s, v)) && WaiterOk(s, w, W(s, w));
  }

  /** No callback for this request writes its decision in the run. */
  ghost predicate Undisturbed(s: State, actions: seq<Action>, req: string)
    decreases |actions|
  {
    actions == [] || !Enabled(s, actions[0]) ||
    (&& (actions[0].Persist? ==> C(s, actions[0].c).req != req)
     && Undisturbed(Next(s, actions[0]), actions[1..], req))
  }

  /** A recorded decision stays one in every continuation; only a callback for the same request can change it. */
  lemma {:induction false} DecisionStays(s: State, actions: seq<Action>, s': State, req: string)
    requires Steps(s, actions, s') && StatusOf(s.rows, req) in {Approved, Rejected}
    ensures StatusOf(s'.rows, req) in {Approved, Rejected}
    ensures Undisturbed(s, actions, req) ==> StatusOf(s'.rows, req) == StatusOf(s.rows, req)
    decreases |actions|
  {
    if actions != [] { DecisionStays(Next(s, actions[0]), actions[1..], s', req); }
  }

  /** Where a waiter for the request has not been asked about, and is not on its way to ask. */
  predicate Unasked(at: Waiter, req: string) { at.Out? || at.req != req || at.Registered? || at.Finished? }

  /** The request id stands for session, tool and arguments, so a recorded decision answers every later identical
      request: whoever is not asking yet never sends the buttons, in any continuation. */
  lemma {:induction false} DecidedIsNotAskedAgain(s: State, actions: seq<Action>, s': State, req: string, w: nat)
    requires Steps(s, actions, s') && StatusOf(s.rows, req) in {Approved, Rejected} && Unasked(W(s, w), req)
    ensures Unasked(W(s', w), req)
    decreases |actions|
  {
    if actions != [] {
      var next := Next(s, actions[0]);
      DecisionStays(s, [actions[0]], next, req);
      if ByCallback(actions[0]) { MovedCallback(s, actions[0]); } else { MovedWaiter(s, actions[0]); }
      DecidedIsNotAskedAgain(next, actions[1..], s', req, w);
    }
  }

  /** And what it is answered is the recorded decision, unless a callback for the same request changed it. */
  lemma {:induction false} DecidedIsReused(s: State, actions: seq<Action>, s': State, req: string, w: nat)
    requires Steps(s, actions, s') && StatusOf(s.rows, req) in {Approved, Rejected} && Undisturbed(s, actions, req)
    requires W(s', w).Registered? && W(s', w).req == req
    ensures Enabled(s', ReadStatus(w, true))
    ensures W(Next(s', ReadStatus(w, true)), w) == Finished(req, W(s', w).ch, Decided(StatusOf(s.rows, req).Approved?))
  {
    DecisionStays(s, actions, s', req);
  }

  // ---------------------------------------------------------------- why a request ends as it does

  /** The step by which the request of waiter w ends: a decision is one that was read from the table or taken from the
      channel, a failure is a failed read, a failed send or an expiry. */
  predicate Settles(s: State, a: Action, req: string, answer: Answer) {
    && Enabled(s, a) && !ByCallback(a) && !W(s, a.w).Out? && W(s, a.w).req == req
    && var st, ch := StatusOf(s.rows, req), W(s, a.w).ch;
       match answer
       case Decided(approved) =>
         || ((a.ReadStatus? || a.Recheck?) && a.ok && st == (if approved then Approved else Rejected))
         || ((a.TryReceive? || a.Receive?) && ch < |s.channels| && s.channels[ch].inbox == Some(approved))
       case Failed => ((a.ReadStatus? || a.Recheck? || a.SendButtons?) && !a.ok) || a.Expire?
  }

  ghost predicate SettledIn(s: State, actions: seq<Action>, req: string, answer: Answer)
    decreases |actions|
  {
    && actions != [] && Enabled(s, actions[0])
    && (Settles(s, actions[0], req, answer) || SettledIn(Next(s, actions[0]), actions[1..], req, answer))
  }

  /** The request has been answered so, or is about to be. */
  ghost predicate Ending(s: State, req: string, answer: Answer) {
    || (req, answer) in s.results
    || exists w: nat :: W(s, w).Finished? && W(s, w).req == req && W(s, w).answer == answer
  }

  lemma {:induction false} EndingHasCause(s: State, a: Action, req: string, answer: Answer)
    requires Enabled(s, a) && Ending(Next(s, a), req, answer)
    ensures Ending(s, req, answer) || Settles(s, a, req, answer)
  {
    if ByCallback(a) { MovedCallback(s, a); } else { MovedWaiter(s, a); }
    var s' := Next(s, a);
    if (req, answer) in s'.results {
      if (req, answer) !in s.results { assert a.Leave? && W(s, a.w) == Finished(req, W(s, a.w).ch, answer); }
    } else {
      var w: nat :| W(s', w).Finished? && W(s', w).req == req && W(s', w).answer == answer;
      assert W(s, w) == W(s', w) || (!ByCallback(a) && w == a.w);
    }
  }

  lemma {:induction false} EndingSettledIn(s: State, actions: seq<Action>, s': State, req: string, answer: Answer)
    requires Steps(s, actions, s') && Ending(s', req, answer)
    ensures Ending(s, req, answer) || SettledIn(s, actions, req, answer)
    decreases |actions|
  {
    if actions != [] {
      EndingSettledIn(Next(s, actions[0]), actions[1..], s', req, answer);
      if Ending(Next(s, actions[0]), req, answer) { EndingHasCause(s, actions[0], req, answer); }
    }
  }

  /** Over every run, each answer a request was given has its cause in the run: a decision that was on record or in its
      channel at that moment, or a failed read, a failed send or an expiry. */
  lemma {:induction false} AnswersHaveCauses(actions: seq<Action>, s: State, i: nat)
    requires Steps(Init(), actions, s) && i < |s.results|
    ensures SettledIn(Init(), actions, s.results[i].0, s.results[i].1)
  {
    EndingSettledIn(Init(), actions, s, s.results[i].0, s.results[i].1);
  }

  /** Waiter w has been asked about and finds the decision in its channel. */
  predicate HasDecision(s: State, w: nat, req: string, ch: nat, approved: bool) {
    && (W(s, w) == Confirming(req, ch) || W(s, w) == Polling(req, ch) || W(s, w) == Blocked(req, ch))
    && ch < |s.channels| && s.channels[ch].inbox == Some(approved)
  }

  /** Its next receive ends the request with that decision. */
  lemma {:induction false} MailIsTheAnswer(s: State, w: nat, req: string, ch: nat, approved: bool)
    requires HasDecision(s, w, req, ch, approved) && !W(s, w).Confirming?
    ensures var a := if W(s, w).Polling? then TryReceive(w) else Receive(w);
            && Enabled(s, a) && W(Next(s, a), w) == Finished(req, ch, Decided(approved))
            && Enabled(Next(s, a), Leave(w)) && Next(Next(s, a), Leave(w)).results ==
                s.results + [(req, Decided(approved))]
  {
  }

  /** An expiry ends the request with a failure, and so does a failed read or send. */
  lemma {:induction false} FailureIsReported(s: State, a: Action)
    requires Enabled(s, a) && (a.Expire? || ((a.ReadStatus? || a.Recheck? || a.SendButtons?) && !a.ok))
    ensures var s' := Next(s, a);
            && W(s', a.w) == Finished(W(s, a.w).req, W(s, a.w).ch, Failed)
            && Next(s', Leave(a.w)).results == s.results + [(W(s, a.w).req, Failed)]
  {
  }

  /** Where such a waiter can be later. */
  ghost predicate OnItsWay(s: State, w: nat, req: string, ch: nat, approved: bool) {
    || HasDecision(s, w, req, ch, approved)
    || W(s, w) == Finished(req, ch, Decided(approved))
    || (req, Decided(approved)) in s.results
  }

  lemma {:induction false} CallbackKeepsOnItsWay(s: State, a: Action, w: nat, req: string, ch: nat, approved: bool)
    requires Enabled(s, a) && ByCallback(a) && OnItsWay(s, w, req, ch, approved)
    ensures OnItsWay(CallbackNext(s, a), w, req, ch, approved)
  {
    MovedCallback(s, a);
  }

  lemma {:induction false} OtherKeepsOnItsWay(s: State, a: Action, w: nat, req: string, ch: nat, approved: bool)
    requires Enabled(s, a) && !ByCallback(a) && a.w != w && OnItsWay(s, w, req, ch, approved)
    requires WaiterOk(s, w, W(s, w)) && WaiterOk(s, a.w, W(s, a.w))
    ensures OnItsWay(WaiterNext(s, a), w, req, ch, approved)
  {
    MovedWaiter(s, a);
  }

  lemma {:induction false} OwnKeepsOnItsWay(s: State, a: Action, req: string, ch: nat, approved: bool)
    requires Enabled(s, a) && !ByCallback(a) && !a.Expire? && OnItsWay(s, a.w, req, ch, approved)
    ensures OnItsWay(WaiterNext(s, a), a.w, req, ch, approved)
  {
  }

  lemma {:induction false} StepKeepsOnItsWay(s: State, a: Action, w: nat, req: string, ch: nat, approved: bool)
    requires Waiters(s) && Enabled(s, a) && OnItsWay(s, w, req, ch, approved) && a != Expire(w)
    ensures OnItsWay(Next(s, a), w, req, ch, approved)
  {
    if ByCallback(a) {
      CallbackKeepsOnItsWay(s, a, w, req, ch, approved);
    } else if a.w != w {
      assert WaiterOk(s, w, W(s, w)) && WaiterOk(s, a.w, W(s, a.w));
      OtherKeepsOnItsWay(s, a, w, req, ch, approved);
    } else {
      OwnKeepsOnItsWay(s, a, req, ch, approved);
    }
  }

  /** Over every run a waiter whose channel holds a decision ends with that decision, unless it expires. */
  lemma {:induction false} MailDecides(s: State, actions: seq<Action>, s': State, w: nat, req: string, ch: nat,
      approved: bool)
    requires Inv(s) && Steps(s, actions, s') && OnItsWay(s, w, req, ch, approved)
    ensures OnItsWay(s', w, req, ch, approved) || Expire(w) in actions
    decreases |actions|
  {
    if actions != [] && actions[0] != Expire(w) {
      StepKeepsOnItsWay(s, actions[0], w, req, ch, approved);
      InvKeeps(s, actions[0]);
      MailDecides(Next(s, actions[0]), actions[1..], s', w, req, ch, approved);
    }
  }

  // ---------------------------------------------------------------- a request that nothing disturbs

  ghost predicate Leads(s: State, s': State) { exists actions :: Steps(s, actions, s') }

  lemma {:induction false} StepsSnoc(s: State, actions: seq<Action>, m: State, a: Action)
    requires Steps(s, actions, m) && Enabled(m, a)
    ensures Steps(s, actions + [a], Next(m, a))
    decreases |actions|
  {
    if actions == [] {
      assert Steps(Next(m, a), [a][1..], Next(m, a));
      assert actions + [a] == [a];
    } else {
      StepsSnoc(Next(s, actions[0]), actions[1..], m, a);
      assert (actions + [a])[1..] == actions[1..] + [a];
    }
  }

  lemma {:induction false} LeadsThen(s: State, m: State, a: Action) returns (s': State)
    requires Leads(s, m) && Enabled(m, a)
    ensures s' == Next(m, a) && Leads(s, s')
  {
    var actions :| Steps(s, actions, m);
    StepsSnoc(s, actions, m, a);
    s' := Next(m, a);
  }

  /** The first half: registered, "sending" on record, about to send the buttons. */
  lemma {:induction false} RegisteredAndAnnounced(s: State, w: nat, req: string) returns (s': State)
    requires Enabled(s, Register(w, req)) && (StatusOf(s.rows, req).Absent? || StatusOf(s.rows, req).Sending?)
    ensures Leads(s, s') && W(s', w) == Delivering(req, |s.channels|) && s'.rows == s.rows[req := Sending]
    ensures s'.pending == s.pending[req := |s.channels|] && s'.channels == s.channels + [Channel(w, req, None)]
    ensures s'.callbacks == s.callbacks && s'.results == s.results
  {
    assert Leads(s, s) by { assert Steps(s, [], s); }
    s' := LeadsThen(s, s, Register(w, req));
    s' := LeadsThen(s, s', ReadStatus(w, true));
    s' := LeadsThen(s, s', PersistSending(w, true));
  }

  /** All but the waiter w and the status of its request is as before. */
  ghost predicate Moves(s: State, w: nat, at: Waiter, s': State) {
    && W(s', w) == at && s'.pending == s.pending && s'.channels == s.channels
    && s'.callbacks == s.callbacks && s'.results == s.results
  }

  lemma {:induction false} ButtonsSent(s: State, w: nat, req: string, ch: nat)
    requires W(s, w) == Delivering(req, ch)
    ensures Enabled(s, SendButtons(w, true))
    ensures var s' := Next(s, SendButtons(w, true)); Moves(s, w, Confirming(req, ch), s') && s'.rows == s.rows
  {
  }

  lemma {:induction false} PendingRecorded(s: State, w: nat, req: string, ch: nat)
    requires W(s, w) == Confirming(req, ch) && StatusOf(s.rows, req).Sending?
    ensures Enabled(s, PersistPending(w, true))
    ensures var s' := Next(s, PersistPending(w, true));
            Moves(s, w, Polling(req, ch), s') && s'.rows == s.rows[req := Pending]
  {
  }

  lemma {:induction false} Delivered(s0: State, s: State, w: nat, req: string, ch: nat) returns (s': State)
    requires Leads(s0, s) && W(s, w) == Delivering(req, ch) && StatusOf(s.rows, req).Sending?
    ensures Leads(s0, s') && Moves(s, w, Polling(req, ch), s') && s'.rows == s.rows[req := Pending]
  {
    ButtonsSent(s, w, req, ch);
    s' := LeadsThen(s0, s, SendButtons(w, true));
    PendingRecorded(s', w, req, ch);
    s' := LeadsThen(s0, s', PersistPending(w, true));
  }

  lemma {:induction false} BlocksOnNothing(s0: State, s: State, w: nat, req: string, ch: nat) returns (s': State)
    requires Leads(s0, s) && W(s, w) == Polling(req, ch) && StatusOf(s.rows, req).Pending?
    requires ch < |s.channels| && s.channels[ch].inbox == None
    ensures Leads(s0, s') && W(s', w) == Blocked(req, ch) && s'.rows == s.rows
    ensures s'.pending == s.pending && s'.channels == s.channels
    ensures s'.callbacks == s.callbacks && s'.results == s.results
  {
    var tried := LeadsThen(s0, s, TryReceive(w));
    assert W(tried, w) == Rechecking(req, ch) && tried.rows == s.rows;
    s' := LeadsThen(s0, tried, Recheck(w, true));
  }

  /** The callback's half: on record ... */
  lemma {:induction false} CallbackPersists(s0: State, s: State, c: nat, req: string, approved: bool)
      returns (s': State)
    requires Leads(s0, s) && C(s, c).Quiet?
    ensures Leads(s0, s') && s'.rows == s.rows[req := if approved then Approved else Rejected]
    ensures C(s', c) == Persisted(req, approved) && s'.pending == s.pending && s'.channels == s.channels
    ensures s'.waiters == s.waiters && s'.results == s.results
  {
    s' := LeadsThen(s0, s, Arrive(c, req, approved));
    s' := LeadsThen(s0, s', Persist(c, true));
  }

  /** ... and in the waiter's channel. */
  lemma {:induction false} CallbackDelivers(s0: State, s: State, c: nat, req: string, ch: nat, approved: bool)
    returns (s': State)
    requires Leads(s0, s) && C(s, c) == Persisted(req, approved) && req in s.pending && s.pending[req] == ch
    requires ch < |s.channels| && s.channels[ch].inbox == None
    ensures Leads(s0, s') && s'.rows == s.rows && s'.pending == s.pending && s'.results == s.results
    ensures s'.channels == s.channels[ch := s.channels[ch].(inbox := Some(approved))] && s'.waiters == s.waiters
  {
    s' := LeadsThen(s0, s, Lookup(c));
    s' := LeadsThen(s0, s', Notify(c));
  }

  lemma {:induction false} ReceivesAndLeaves(s0: State, s: State, w: nat, req: string, ch: nat, approved: bool)
    returns (s': State)
    requires Leads(s0, s) && W(s, w) == Blocked(req, ch) && ch < |s.channels| && s.channels[ch].inbox == Some(approved)
    requires req in s.pending && s.pending[req] == ch
    ensures Leads(s0, s') && W(s', w).Out? && req !in s'.pending && s'.rows == s.rows
    ensures s'.results == s.results + [(req, Decided(approved))]
  {
    s' := LeadsThen(s0, s, Receive(w));
    s' := LeadsThen(s0, s', Leave(w));
  }

  /** A request that nothing disturbs: it is asked, the callback comes, and it is answered as the callback said. */
  lemma {:induction false} AskedAndAnswered(s: State, w: nat, c: nat, req: string, approved: bool) returns (s': State)
    requires Enabled(s, Register(w, req)) && (StatusOf(s.rows, req).Absent? || StatusOf(s.rows, req).Sending?)
    requires C(s, c).Quiet?
    ensures Leads(s, s') && W(s', w).Out? && req !in s'.pending
    ensures StatusOf(s'.rows, req) == (if approved then Approved else Rejected)
    ensures s'.results == s.results + [(req, Decided(approved))]
  {
    var ch := |s.channels|;
    s' := RegisteredAndAnnounced(s, w, req);
    s' := Delivered(s, s', w, req, ch);
    s' := BlocksOnNothing(s, s', w, req, ch);
    s' := CallbackPersists(s, s', c, req, approved);
    s' := CallbackDelivers(s, s', c, req, ch, approved);
    s' := ReceivesAndLeaves(s, s', w, req, ch, approved);
  }

  /** After a restart a request that was already delivered is waited for without asking again. */
  lemma {:induction false} PendingIsNotAskedAgain(s: State, w: nat, req: string)
    requires Enabled(s, Register(w, req)) && StatusOf(s.rows, req).Pending?
    ensures var s1 := Next(s, Register(w, req)); W(Next(s1, ReadStatus(w, true)), w) == Polling(req, |s.channels|)
  {
  }

  // ---------------------------------------------------------------- every request ends

  function WaiterRank(at: Waiter): nat {
    match at
    case Out => 0
    case Finished(_, _, _) => 1
    case Blocked(_, _) => 2
    case Rechecking(_, _) => 3
    case Polling(_, _) => 4
    case Confirming(_, _) => 5
    case Delivering(_, _) => 6
    case Announcing(_, _) => 7
    case Registered(_, _) => 8
  }

  function CallbackRank(at: Callback): nat {
    match at
    case Quiet => 0
    case Found(_, _, _) => 1
    case Persisted(_, _) => 2
    case Arrived(_, _) => 3
  }

  /** Every step of a request or a callback after its first brings it closer to its end. */
  lemma {:induction false} EveryStepIsProgress(s: State, a: Action)
    requires Enabled(s, a) && !a.Register? && !a.Arrive?
    ensures !ByCallback(a) ==> WaiterRank(W(Next(s, a), a.w)) < WaiterRank(W(s, a.w))
    ensures ByCallback(a) ==> CallbackRank(C(Next(s, a), a.c)) < CallbackRank(C(s, a.c))
  {
  }

  /** And until it has ended a request always has a next step, whatever the others do. */
  lemma {:induction false} RequestNeverStuck(s: State, w: nat, ok: bool) returns (a: Action)
    requires !W(s, w).Out?
    ensures Enabled(s, a) && !ByCallback(a) && a.w == w && !a.Register?
  {
    match W(s, w)
    case Registered(_, _) => a := ReadStatus(w, ok);
    case Announcing(_, _) => a := PersistSending(w, ok);
    case Delivering(_, _) => a := SendButtons(w, ok);
    case Confirming(_, _) => a := PersistPending(w, ok);
    case Polling(_, _) => a := TryReceive(w);
    case Rechecking(_, _) => a := Recheck(w, ok);
    case Blocked(_, _) => a := Expire(w);
    case Finished(_, _, _) => a := Leave(w);
  }

  // ---------------------------------------------------------------- the object

  /** HITLManager's waiters with the rows of its store. */
  class HITLManager {
    var rows: map<string, Status>
    var pending: map<string, nat>
    var channels: seq<Channel>

    ghost predicate Valid()
      reads this
    {
      forall req :: req in pending ==> pending[req] < |channels|
    }

    constructor ()
      ensures Valid() && rows == map[] && pending == map[] && channels == []
    {
      rows, pending, channels := map[], map[], [];
    }

    /** Refuses a second waiter for the same id. */
    method RegisterWaiter(w: nat, req: string) returns (ch: Option<nat>)
      requires Valid()
      modifies this`pending, this`channels
      ensures Valid()
      ensures req in old(pending) ==> ch == None && pending == old(pending) && channels == old(channels)
      ensures req !in old(pending) ==>
                && ch == Some(|old(channels)|) && pending == old(pending)[req := |old(channels)|]
                && channels == old(channels) + [Channel(w, req, None)]
    {
      if req in pending {
        return None;
      }
      ch := Some(|channels|);
      channels := channels + [Channel(w, req, None)];
      pending := pending[req := ch.value];
    }

    method ReleaseWaiter(req: string, ch: nat)
      requires Valid()
      modifies this`pending
      ensures Valid() && pending == Unregistered(old(pending), req, ch)
    {
      if req in pending && pending[req] == ch {
        pending := pending - {req};
      }
    }

    /** The upsert: a decision is never replaced by a delivery status. */
    method SaveHITLApproval(req: string, st: Status)
      modifies this`rows
      ensures rows == Upserted(old(rows), req, st)
      ensures StatusOf(old(rows), req) in {Approved, Rejected} && st in {Sending, Pending} ==> rows == old(rows)
      ensures st in {Approved, Rejected} ==> StatusOf(rows, req) == st
    {
      if req !in rows {
        rows := rows[req := st];
      } else if !(st.Sending? || st.Pending?) || !IsDecision(rows[req]) {
        rows := rows[req := st];
      }
    }

    /** The lookup of HandleCallback, under the mutex. */
    method FindWaiter(req: string) returns (ch: Option<nat>)
      requires Valid()
      ensures ch == if req in pending then Some(pending[req]) else None
      ensures ch.Some? ==> ch.value < |channels|
    {
      if req in pending {
        return Some(pending[req]);
      }
      ch := None;
    }

    /** notifyHITLWaiter, later and without the mutex: the channel gets the decision unless it is full. */
    method NotifyWaiter(ch: nat, approved: bool)
      requires Valid() && ch < |channels|
      modifies this`channels
      ensures Valid() && channels == Filled(old(channels), ch, approved) && channels[ch].inbox.Some?
    {
      if channels[ch].inbox.None? {
        channels := channels[ch := channels[ch].(inbox := Some(approved))];
      }
    }
  }
}
