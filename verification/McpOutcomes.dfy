/**
 What a caller of the transport is told, and why: the reply it took from its channel, or that it was cancelled, or
 that the transport closed with nothing sent. Each request is reported once, and no reply taken goes unreported.
*/
module McpOutcomes {
  import opened Wrappers
  import opened McpTransport
  import opened McpSafety

  /** The step that decides what the caller of request u is told. */
  predicate Decides(s: State, a: Action, u: nat, out: Outcome) {
    && Enabled(s, a) && a.Wait? && At(s, a.t) == Waiting(u) && u < |s.sh.requests|
    && match out
       case Got(reply) => (a.await.TakeReply? || a.await.SeeClosed?) && s.sh.requests[u].inbox == Some(reply)
       case Cancelled => a.await.Cancel?
       case TransportClosed => a.await.SeeClosed? && s.sh.requests[u].inbox == None
  }

  ghost predicate DecidedIn(s: State, actions: seq<Action>, u: nat, out: Outcome)
    decreases |actions|
  {
    && actions != [] && Enabled(s, actions[0])
    && (Decides(s, actions[0], u, out) || DecidedIn(Next(s, actions[0]), actions[1..], u, out))
  }

  predicate Reports(pc: PC, u: nat, out: Outcome) { pc == Dropping(u, Return(out)) }

  /** The caller of u has been told this, or is about to be. */
  ghost predicate Told(s: State, u: nat, out: Outcome) {
    (u, out) in s.log || exists t: nat :: Reports(At(s, t), u, out)
  }

  lemma {:induction false} InitInv()
    ensures Inv(Init()) && Once(Init()) && TakenAreTold(Init())
  {
  }

  // ---------------------------------------------------------------- every outcome has its cause

  lemma {:induction false} SenderReportsNothing(s: State, t: nat, w: Send, u: nat, out: Outcome)
    requires SendEnabled(s, t, w)
    ensures !Reports(At(SendNext(s, t, w), t), u, out)
  {
  }

  lemma {:induction false} TearerReportsNothing(s: State, t: nat, d: Tear, u: nat, out: Outcome)
    requires TearEnabled(s, t, d)
    ensures !Reports(At(TearNext(s, t, d), t), u, out)
  {
  }

  lemma {:induction false} AwaiterReports(s: State, t: nat, w: Await, u: nat, out: Outcome)
    requires WaitEnabled(s, t, w) && Reports(At(WaitNext(s, t, w), t), u, out) && u < |s.sh.requests|
    ensures Decides(s, Wait(t, w), u, out)
  {
  }

  lemma {:induction false} MoverReports(s: State, a: Action, u: nat, out: Outcome)
    requires Enabled(s, a) && Mover(a).Some? && Reports(At(Next(s, a), a.t), u, out) && u < |s.sh.requests|
    ensures Decides(s, a, u, out)
  {
    match a
    case Enter(_, _) =>
    case Teardown(t, d) => TearerReportsNothing(s, t, d, u, out);
    case Transmit(t, w) => SenderReportsNothing(s, t, w, u, out);
    case Wait(t, w) => AwaiterReports(s, t, w, u, out);
  }

  lemma {:induction false} LogGrowsByReport(s: State, a: Action, u: nat, out: Outcome)
    requires Enabled(s, a) && (u, out) in Next(s, a).log && (u, out) !in s.log
    ensures a.Wait? && a.await.Deregister? && Reports(At(s, a.t), u, out)
  {
  }

  lemma {:induction false} ToldHasCause(s: State, a: Action, u: nat, out: Outcome)
    requires Enabled(s, a) && Told(Next(s, a), u, out) && u < |s.sh.requests|
    ensures Told(s, u, out) || Decides(s, a, u, out)
  {
    var s' := Next(s, a);
    OnlyMoverMoves(s, a);
    if (u, out) in s'.log {
      if (u, out) !in s.log { LogGrowsByReport(s, a, u, out); }
    } else {
      var t: nat :| Reports(At(s', t), u, out);
      if Mover(a) == Some(t) { MoverReports(s, a, u, out); } else { assert Reports(At(s, t), u, out); }
    }
  }

  lemma {:induction false} LogIsOld(s: State, a: Action, u: nat, out: Outcome)
    requires Returns(s) && Pcs(s) && Enabled(s, a) && (u, out) in Next(s, a).log
    ensures u < |s.sh.requests|
  {
    if (u, out) in s.log {
      var i :| 0 <= i < |s.log| && s.log[i] == (u, out);
      assert OutcomeOk(s.sh, s.log[i].0, s.log[i].1);
    } else {
      LogGrowsByReport(s, a, u, out);
      assert PcOk(s, a.t, At(s, a.t));
    }
  }

  lemma {:induction false} ReportIsOld(s: State, a: Action, t: nat, u: nat, out: Outcome)
    requires Pcs(s) && Enabled(s, a) && Reports(At(Next(s, a), t), u, out)
    ensures u < |s.sh.requests|
  {
    assert PcOk(s, t, At(s, t));
    OnlyMoverMoves(s, a);
    if Mover(a) == Some(t) && u >= |s.sh.requests| { NewMoverReportsNothing(s, a, u, out); }
  }

  /** A request that is only made in this step is not reported on in it. */
  lemma {:induction false} ToldIsOld(s: State, a: Action, u: nat, out: Outcome)
    requires Returns(s) && Pcs(s) && Enabled(s, a) && Told(Next(s, a), u, out)
    ensures u < |s.sh.requests|
  {
    if (u, out) in Next(s, a).log {
      LogIsOld(s, a, u, out);
    } else {
      var t: nat :| Reports(At(Next(s, a), t), u, out);
      ReportIsOld(s, a, t, u, out);
    }
  }

  lemma {:induction false} NewMoverReportsNothing(s: State, a: Action, u: nat, out: Outcome)
    requires Enabled(s, a) && Mover(a).Some? && u >= |s.sh.requests| && PcOk(s, a.t, At(s, a.t))
    ensures !Reports(At(Next(s, a), a.t), u, out)
  {
    match a
    case Enter(_, _) =>
    case Teardown(t, d) => TearerReportsNothing(s, t, d, u, out);
    case Transmit(t, w) => SenderReportsNothing(s, t, w, u, out);
    case Wait(_, _) =>
  }

  lemma {:induction false} ToldDecidedIn(s: State, actions: seq<Action>, s': State, u: nat, out: Outcome)
    requires Inv(s) && Steps(s, actions, s') && Told(s', u, out)
    ensures Told(s, u, out) || DecidedIn(s, actions, u, out)
    decreases |actions|
  {
    if actions != [] {
      var next := Next(s, actions[0]);
      InvKeeps(s, actions[0]);
      ToldDecidedIn(next, actions[1..], s', u, out);
      if Told(next, u, out) {
        ToldIsOld(s, actions[0], u, out);
        ToldHasCause(s, actions[0], u, out);
      }
    }
  }

  /** Over every run, each outcome a caller was given was decided by a step of its own: the reply that was in its
      channel, a cancellation, or the end of the reader with nothing in the channel. */
  lemma {:induction false} OutcomesHaveCauses(actions: seq<Action>, s: State, i: nat)
    requires Steps(Init(), actions, s) && i < |s.log|
    ensures DecidedIn(Init(), actions, s.log[i].0, s.log[i].1)
  {
    InitInv();
    ToldDecidedIn(Init(), actions, s, s.log[i].0, s.log[i].1);
  }

  // ---------------------------------------------------------------- a reply that is there is returned

  /** Over every run, a waiting caller whose channel holds a reply can take it and is then told exactly that reply. */
  lemma {:induction false} ReplyIsReturned(s: State, t: nat, u: nat, reply: Reply)
    requires Reachable(s) && At(s, t) == Waiting(u) && u < |s.sh.requests| && s.sh.requests[u].inbox == Some(reply)
    ensures Enabled(s, Wait(t, TakeReply))
    ensures var taken := Next(s, Wait(t, TakeReply));
            && Enabled(taken, Wait(t, Deregister))
            && Next(taken, Wait(t, Deregister)).log == s.log + [(u, Got(reply))]
  {
  }

  /** And the handshake goes on with the reply to initialize exactly if it is a line. */
  lemma {:induction false} GreetingIsUsed(s: State, t: nat)
    requires Reachable(s) && Enabled(s, Wait(t, HelloTake))
    ensures var u := At(s, t).req; var reply, s' := s.sh.requests[u].inbox.value, Next(s, Wait(t, HelloTake));
            && (At(s', t).Answered? <==> reply.Line?)
            && (reply.Line? ==> s'.sh.gens[s.sh.requests[u].gen].greeting == Some(reply))
  {
  }

  // ---------------------------------------------------------------- one report per request

  lemma {:induction false} SenderClaimsNoOld(s: State, t: nat, w: Send, u: nat)
    requires SendEnabled(s, t, w) && u < |s.sh.requests| && ReqOf(At(s, t)) != Some(u)
    ensures ReqOf(At(SendNext(s, t, w), t)) != Some(u)
  {
  }

  lemma {:induction false} TearerClaimsNoOld(s: State, t: nat, d: Tear, u: nat)
    requires TearEnabled(s, t, d) && ReqOf(At(s, t)) != Some(u)
    ensures ReqOf(At(TearNext(s, t, d), t)) != Some(u)
  {
  }

  lemma {:induction false} AwaiterClaimsNoOld(s: State, t: nat, w: Await, u: nat)
    requires WaitEnabled(s, t, w) && ReqOf(At(s, t)) != Some(u)
    ensures ReqOf(At(WaitNext(s, t, w), t)) != Some(u)
  {
  }

  /** Nobody comes to hold a request that was made before without having held it already. */
  lemma {:induction false} ClaimsNoOld(s: State, a: Action, t: nat, u: nat)
    requires Enabled(s, a) && u < |s.sh.requests| && ReqOf(At(s, t)) != Some(u)
    ensures ReqOf(At(Next(s, a), t)) != Some(u)
  {
    OnlyMoverMoves(s, a);
    if Mover(a) == Some(t) {
      match a
      case Enter(_, _) =>
      case Teardown(_, d) => TearerClaimsNoOld(s, t, d, u);
      case Transmit(_, w) => SenderClaimsNoOld(s, t, w, u);
      case Wait(_, w) => AwaiterClaimsNoOld(s, t, w, u);
    }
  }

  /** Reported requests are reported once and are held by nobody. */
  ghost predicate Once(s: State) {
    && (forall i, j :: 0 <= i < j < |s.log| ==> s.log[i].0 != s.log[j].0)
    && (forall i, t: nat :: 0 <= i < |s.log| ==> ReqOf(At(s, t)) != Some(s.log[i].0))
  }

  /** After the deferred deregister nobody holds the request that was let go of. */
  lemma {:induction false} LetGoOf(s: State, t: nat, r: nat)
    requires PcOk(s, t, At(s, t)) && PcOk(s, r, At(s, r)) && Enabled(s, Wait(t, Deregister))
    ensures ReqOf(At(Next(s, Wait(t, Deregister)), r)) != Some(At(s, t).req)
  {
    OnlyMoverMoves(s, Wait(t, Deregister));
  }

  lemma {:induction false} DeregisterOnce(s: State, t: nat)
    requires Returns(s) && Pcs(s) && Once(s) && Enabled(s, Wait(t, Deregister))
    ensures Once(Next(s, Wait(t, Deregister)))
  {
    var s', u := Next(s, Wait(t, Deregister)), At(s, t).req;
    assert ReqOf(At(s, t)) == Some(u);
    assert s'.log == s.log || exists out :: s'.log == s.log + [(u, out)];
    forall i, r: nat | 0 <= i < |s'.log| ensures ReqOf(At(s', r)) != Some(s'.log[i].0) {
      if i < |s.log| {
        assert OutcomeOk(s.sh, s.log[i].0, s.log[i].1) && s'.log[i] == s.log[i];
        ClaimsNoOld(s, Wait(t, Deregister), r, s.log[i].0);
      } else {
        assert PcOk(s, r, At(s, r)) && PcOk(s, t, At(s, t));
        LetGoOf(s, t, r);
      }
    }
  }

  lemma {:induction false} LogStaysUnless(s: State, a: Action)
    requires Enabled(s, a) && !(a.Wait? && a.await.Deregister?)
    ensures Next(s, a).log == s.log
  {
  }

  lemma {:induction false} OnceKept(s: State, a: Action)
    requires Returns(s) && Pcs(s) && Once(s) && Enabled(s, a)
    ensures Once(Next(s, a))
  {
    if a.Wait? && a.await.Deregister? {
      DeregisterOnce(s, a.t);
    } else {
      LogStaysUnless(s, a);
      forall i, t: nat | 0 <= i < |s.log| ensures ReqOf(At(Next(s, a), t)) != Some(s.log[i].0) {
        assert OutcomeOk(s.sh, s.log[i].0, s.log[i].1);
        ClaimsNoOld(s, a, t, s.log[i].0);
      }
    }
  }

  lemma {:induction false} OnceAlong(s: State, actions: seq<Action>, s': State)
    requires Inv(s) && Once(s) && Steps(s, actions, s')
    ensures Once(s')
    decreases |actions|
  {
    if actions != [] {
      OnceKept(s, actions[0]);
      InvKeeps(s, actions[0]);
      OnceAlong(Next(s, actions[0]), actions[1..], s');
    }
  }

  /** Over every run each request is reported at most once. */
  lemma {:induction false} OneReportPerRequest(s: State, i: nat, j: nat)
    requires Reachable(s) && i < j < |s.log|
    ensures s.log[i].0 != s.log[j].0
  {
    var actions :| Steps(Init(), actions, s);
    InitInv();
    OnceAlong(Init(), actions, s);
  }

  // ---------------------------------------------------------------- no reply is lost

  /** A reply was sent for request u and is no longer in the channel. */
  predicate Taken(sh: Shared, u: nat) { u < |sh.requests| && sh.requests[u].sends == 1 && sh.requests[u].inbox.None? }

  ghost predicate ToldReply(s: State, u: nat) { exists reply :: Told(s, u, Got(reply)) }

  lemma {:induction false} TakingIsReceiving(s: State, a: Action, u: nat)
    requires Inv(s) && Enabled(s, a) && Taken(Next(s, a).sh, u) && !Taken(s.sh, u) && u < |s.sh.requests|
    requires s.sh.requests[u].id != 1
    ensures exists reply :: Decides(s, a, u, Got(reply)) && Reports(At(Next(s, a), a.t), u, Got(reply))
  {
    assert RequestOk(s.sh, s.sh.requests[u]);
    if a.Reading? {
      ReadingTakesNothing(s, a.g, a.read, u);
    } else {
      assert PcOk(s, a.t, At(s, a.t));
      TakerReceives(s, a, u);
    }
  }

  lemma {:induction false} ReadingTakesNothing(s: State, g: nat, r: Read, u: nat)
    requires ReadEnabled(s, g, r) && u < |s.sh.requests| && !Taken(s.sh, u)
    ensures !Taken(ReadNext(s, g, r).sh, u)
  {
  }

  lemma {:induction false} TakerReceives(s: State, a: Action, u: nat)
    requires Enabled(s, a) && Mover(a).Some? && PcOk(s, a.t, At(s, a.t)) && u < |s.sh.requests|
    requires s.sh.requests[u].id != 1 && Taken(Next(s, a).sh, u) && !Taken(s.sh, u)
    ensures exists reply :: Decides(s, a, u, Got(reply)) && Reports(At(Next(s, a), a.t), u, Got(reply))
  {
    match a
    case Enter(_, _) =>
    case Teardown(_, _) =>
    case Transmit(_, _) =>
    case Wait(t, w) =>
      assert s.sh.requests[u].inbox.Some?;
      var reply := s.sh.requests[u].inbox.value;
      assert Decides(s, a, u, Got(reply)) && Reports(At(Next(s, a), t), u, Got(reply));
  }

  lemma {:induction false} ToldStays(s: State, a: Action, u: nat, out: Outcome)
    requires Enabled(s, a) && Told(s, u, out)
    ensures Told(Next(s, a), u, out)
  {
    OnlyMoverMoves(s, a);
    if (u, out) !in s.log {
      var t: nat :| Reports(At(s, t), u, out);
      if Mover(a) == Some(t) {
        assert a == Wait(t, Deregister);
      } else {
        assert Reports(At(Next(s, a), t), u, out);
      }
    }
  }

  ghost predicate TakenAreTold(s: State) {
    forall u: nat :: Taken(s.sh, u) && s.sh.requests[u].id != 1 ==> ToldReply(s, u)
  }

  lemma {:induction false} TakenAreToldKept(s: State, a: Action)
    requires Inv(s) && TakenAreTold(s) && Enabled(s, a)
    ensures TakenAreTold(Next(s, a))
  {
    var s' := Next(s, a);
    StepKeeps(s, a);
    forall u: nat | Taken(s'.sh, u) && s'.sh.requests[u].id != 1 ensures ToldReply(s', u) {
      if u >= |s.sh.requests| {
        NewIsNotTaken(s, a, u);
      } else if Taken(s.sh, u) {
        var reply :| Told(s, u, Got(reply));
        ToldStays(s, a, u, Got(reply));
      } else {
        TakingIsReceiving(s, a, u);
        var reply :| Reports(At(s', a.t), u, Got(reply));
        assert Told(s', u, Got(reply));
      }
    }
  }

  lemma {:induction false} NewIsNotTaken(s: State, a: Action, u: nat)
    requires Enabled(s, a) && u >= |s.sh.requests|
    ensures !Taken(Next(s, a).sh, u)
  {
  }

  lemma {:induction false} TakenAreToldAlong(s: State, actions: seq<Action>, s': State)
    requires Inv(s) && TakenAreTold(s) && Steps(s, actions, s')
    ensures TakenAreTold(s')
    decreases |actions|
  {
    if actions != [] {
      TakenAreToldKept(s, actions[0]);
      InvKeeps(s, actions[0]);
      TakenAreToldAlong(Next(s, actions[0]), actions[1..], s');
    }
  }

  /** Over every run, a reply taken out of the channel of a call is what its caller is told. */
  lemma {:induction false} TakenRepliesAreReported(s: State, u: nat)
    requires Reachable(s) && Taken(s.sh, u) && s.sh.requests[u].id != 1
    ensures ToldReply(s, u)
  {
    var actions :| Steps(Init(), actions, s);
    InitInv();
    TakenAreToldAlong(Init(), actions, s);
  }

  // ---------------------------------------------------------------- a call that nothing disturbs

  /** A free transport that is up, its reader at rest. */
  ghost predicate Up(s: State, t: nat, g: nat) {
    && At(s, t) == Idle && s.admit == None && s.sh.current == Some(g) && g < |s.sh.gens| && !s.sh.dead
    && s.sh.gens[g].reader == Scanning
  }

  lemma {:induction false} CallIsAdmitted(s: State, t: nat, g: nat) returns (s': State)
    requires Up(s, t, g)
    ensures Leads(s, s') && s' == s.(admit := Some(t), pcs := s.pcs[t := Ready])
  {
    assert Leads(s, s) by { assert Steps(s, [], s); }
    s' := LeadsThen(s, s, Enter(t, Acquire(true)));
    s' := LeadsThen(s, s', Enter(t, CheckRunning));
    assert s'.pcs == s.pcs[t := Ready];
  }

  lemma {:induction false} CallIsWritten(s: State, t: nat, g: nat) returns (s': State)
    requires At(s, t) == Ready && s.sh.current == Some(g) && g < |s.sh.gens| && !s.sh.dead
    ensures Leads(s, s') && At(s', t) == Waiting(|s.sh.requests|) && s'.admit == None && s'.log == s.log
    ensures s'.sh == Wired(Registered(s.sh, t), g, Invoke(s.sh.lastID + 1))
  {
    assert Leads(s, s) by { assert Steps(s, [], s); }
    s' := LeadsThen(s, s, Transmit(t, SendBody));
    s' := LeadsThen(s, s', Transmit(t, Land));
    s' := LeadsThen(s, s', Transmit(t, WriteOk));
  }

  /** Admission, the check, registration, the write: the line is on the wire, the call waits, admission is free. */
  lemma {:induction false} CallIsSent(s: State, t: nat, g: nat) returns (s': State)
    requires Up(s, t, g)
    ensures Leads(s, s') && At(s', t) == Waiting(|s.sh.requests|) && s'.admit == None && s'.log == s.log
    ensures s'.sh == s.sh.(
              lastID := s.sh.lastID + 1,
              requests := s.sh.requests + [Request(t, g, s.sh.lastID + 1, None, 0)],
              pending := s.sh.pending[s.sh.lastID + 1 := |s.sh.requests|],
              gens := s.sh.gens[g := s.sh.gens[g].(wire := s.sh.gens[g].wire + [Invoke(s.sh.lastID + 1)])])
  {
    var m := CallIsAdmitted(s, t, g);
    s' := CallIsWritten(m, t, g);
    LeadsJoin(s, m, s');
  }

  /** The reader finds the id, hands the line over, and the caller is told it. */
  lemma {:induction false} AnswerIsTold(s: State, t: nat, g: nat, u: nat, text: string) returns (s': State)
    requires At(s, t) == Waiting(u) && u < |s.sh.requests| && g < |s.sh.gens| && s.sh.gens[g].reader == Scanning
    requires s.sh.requests[u].inbox == None && s.sh.requests[u].id in s.sh.pending
    requires s.sh.pending[s.sh.requests[u].id] == u
    ensures Leads(s, s') && At(s', t) == Idle && s'.admit == s.admit
    ensures s'.log == s.log + [(u, Got(Line(g, s.sh.requests[u].id, text)))]
    ensures s'.sh.pending == s.sh.pending - {s.sh.requests[u].id}
    ensures |s'.sh.gens| == |s.sh.gens| && s'.sh.gens[g] == s.sh.gens[g]
  {
    assert Leads(s, s) by { assert Steps(s, [], s); }
    s' := LeadsThen(s, s, Reading(g, Scan(s.sh.requests[u].id, text)));
    s' := LeadsThen(s, s', Reading(g, Hand));
    s' := LeadsThen(s, s', Wait(t, TakeReply));
    s' := LeadsThen(s, s', Wait(t, Deregister));
  }

  /** On a transport that is up, a call that nothing disturbs writes its line and is told the line that answers it. */
  lemma {:induction false} CallGetsItsReply(s: State, t: nat, g: nat, text: string) returns (s': State)
    requires Up(s, t, g)
    ensures Leads(s, s') && At(s', t) == Idle && s'.admit == None && |s'.sh.gens| == |s.sh.gens|
    ensures s'.sh.gens[g] == s.sh.gens[g].(wire := s.sh.gens[g].wire + [Invoke(s.sh.lastID + 1)])
    ensures s'.log == s.log + [(|s.sh.requests|, Got(Line(g, s.sh.lastID + 1, text)))]
  {
    var m := CallIsSent(s, t, g);
    assert m.sh.requests[|s.sh.requests|] == Request(t, g, s.sh.lastID + 1, None, 0);
    s' := AnswerIsTold(m, t, g, |s.sh.requests|, text);
    LeadsJoin(s, m, s');
  }

  /** On a transport that is down it first starts one: the three lines of the lifecycle, in order, and the reply. */
  lemma {:induction false} CallStartsTransport(s: State, t: nat, text: string) returns (s': State)
    requires Quiet(s, t)
    ensures Leads(s, s') && At(s', t) == Idle && s'.admit == None && |s'.sh.gens| == |s.sh.gens| + 1
    ensures var gen := s'.sh.gens[|s.sh.gens|];
            gen.reader == Scanning && gen.wire == [Initialize(1), Initialized, Invoke(2)]
    ensures s'.log == s.log + [(|s.sh.requests| + 1, Got(Line(|s.sh.gens|, 2, text)))]
  {
    var m := RunCall(s, t);
    s' := AnswerIsTold(m, t, |s.sh.gens|, |s.sh.requests| + 1, text);
    LeadsJoin(s, m, s');
  }

  /** When a reader ends, the transport it read for counts as down and every registered caller has something to take. */
  lemma {:induction false} EndOfReaderIsNoticed(s: State, g: nat, u: nat)
    requires Reachable(s) && Enabled(s, Reading(g, Finish))
    ensures var s' := Next(s, Reading(g, Finish));
            && (s.sh.current == Some(g) ==> !Running(s'.sh))
            && (Awaited(s.sh, u) ==> u < |s'.sh.requests| && s'.sh.requests[u].inbox.Some?)
            && (!Awaited(s.sh, u) && u < |s.sh.requests| ==> s'.sh.requests[u] == s.sh.requests[u])
  {
    ReachableInv(s);
    if Awaited(s.sh, u) { var id :| id in s.sh.pending && s.sh.pending[id] == u; }
  }

  /** A call on a transport that is down, or whose reader has ended, tears it down and launches anew. */
  lemma {:induction false} DownMeansRestart(s: State, t: nat)
    requires At(s, t).Admitted?
    ensures At(Next(s, Enter(t, CheckRunning)), t) == TearWant(Launch(At(s, t).call)) <==>
            s.sh.current.None? || s.sh.dead
  {
  }

  /** A write that fails or is cancelled takes the transport down before the caller is let go. */
  lemma {:induction false} FailedWriteTearsDown(s: State, t: nat, u: nat, landed: bool, g: nat) returns (s': State)
    requires At(s, t) == Writing(Body(u), landed) && u < |s.sh.requests| && s.stop == None && s.admit == Some(t)
    requires s.sh.current == Some(g) && g < |s.sh.gens| && s.sh.gens[g].reader == Scanning
    ensures Leads(s, s') && At(s', t) == Idle && s'.admit == None && s'.stop == None
    ensures s'.sh.current == None && s'.sh.pending == map[] && |s'.sh.gens| == |s.sh.gens|
    ensures s'.sh.gens[g].reader == Ended && s'.log == s.log
  {
    var a := WriteFails(s, t, u, landed, g);
    var b := RunReaderEnd(a, g);
    LeadsJoin(s, a, b);
    s' := LeadsThen(s, b, Teardown(t, Join));
    s' := LeadsThen(s, s', Wait(t, Deregister));
    s' := LeadsThen(s, s', Enter(t, Release));
  }

  lemma {:induction false} WriteFails(s: State, t: nat, u: nat, landed: bool, g: nat) returns (s': State)
    requires At(s, t) == Writing(Body(u), landed) && u < |s.sh.requests| && s.stop == None
    requires s.sh.current == Some(g)
    ensures Leads(s, s')
    ensures s' == Goto(s.(stop := Some(t), sh := Detached(s.sh)), t, Joining(Some(g), Drop(Body(u), landed)))
    ensures s'.sh.current == None && !s'.sh.dead && s'.sh.pending == map[] && s'.sh.requests == s.sh.requests
  {
    assert Leads(s, s) by { assert Steps(s, [], s); }
    s' := LeadsThen(s, s, Transmit(t, WriteFail));
    s' := LeadsThen(s, s', Teardown(t, TearLock));
    s' := LeadsThen(s, s', Teardown(t, Detach));
    assert s'.pcs == s.pcs[t := Joining(Some(g), Drop(Body(u), landed))];
  }

  /** A waiting caller can be cancelled at any time and is then told so. */
  lemma {:induction false} CancelIsTold(s: State, t: nat, u: nat)
    requires At(s, t) == Waiting(u) && u < |s.sh.requests|
    ensures Enabled(s, Wait(t, Cancel)) && Enabled(Next(s, Wait(t, Cancel)), Wait(t, Deregister))
    ensures Next(Next(s, Wait(t, Cancel)), Wait(t, Deregister)).log == s.log + [(u, Cancelled)]
  {
  }

  // ---------------------------------------------------------------- every operation ends

  function Flag(landed: bool): nat { if landed then 0 else 1 }

  /** How far a goroutine is from the end of its call, start or stop. */
  function Rank(pc: PC): nat {
    match pc
    case Idle => 0
    case Releasing => 1
    case Dropping(_, exit) =>
      (match exit case Return(_) => 1 case SendFailed => 2 case HelloFailed => 5 case HelloOk(_) => 9)
    case Waiting(_) => 2
    case Joining(_, after) => 1 + RankAfter(after)
    case TearHeld(after) => 2 + RankAfter(after)
    case TearWant(after) => 3 + RankAfter(after)
    case Writing(job, landed) => (match job case Body(_) => 6 case Note(_, _, _) => 10 case Hello(_,
        _) => 14) + Flag(landed)
    case Ready => 8
    case Answered(_, _) => 12
    case HelloWait(_, _) => 13
    case Greeting(_) => 16
    case Launching(_) => 17
    case Admitted(_) => 21
  }

  function RankAfter(after: After): nat {
    match after
    case Stop => 0
    case Fail => 1
    case Drop(job, landed) => (if job.Body? then 2 else 5) + Flag(landed)
    case Launch(_) => 17
  }

  predicate Begins(a: Action) { (a.Enter? && a.entry.Acquire?) || (a.Teardown? && a.tear.StopBegin?) }

  lemma {:induction false} SendProgress(s: State, t: nat, w: Send)
    requires SendEnabled(s, t, w)
    ensures Rank(At(SendNext(s, t, w), t)) < Rank(At(s, t))
  {
  }

  lemma {:induction false} WaitProgress(s: State, t: nat, w: Await)
    requires WaitEnabled(s, t, w)
    ensures Rank(At(WaitNext(s, t, w), t)) < Rank(At(s, t))
  {
  }

  lemma {:induction false} TearProgress(s: State, t: nat, d: Tear)
    requires TearEnabled(s, t, d) && !d.StopBegin?
    ensures Rank(At(TearNext(s, t, d), t)) < Rank(At(s, t))
  {
  }

  /** Every step a goroutine takes after its first brings it closer to the end of its operation. */
  lemma {:induction false} EveryStepIsProgress(s: State, a: Action)
    requires Enabled(s, a) && Mover(a).Some? && !Begins(a)
    ensures Rank(At(Next(s, a), a.t)) < Rank(At(s, a.t))
  {
    match a
    case Enter(_, _) =>
    case Teardown(t, d) => TearProgress(s, t, d);
    case Transmit(t, w) => SendProgress(s, t, w);
    case Wait(t, w) => WaitProgress(s, t, w);
  }

  ghost function OwnSteps(actions: seq<Action>, t: nat): nat
    decreases |actions|
  {
    if actions == [] then 0 else (if Mover(actions[0]) == Some(t) then 1 else 0) + OwnSteps(actions[1..], t)
  }

  /** So over every run an operation takes at most 21 steps of its goroutine after the first. */
  lemma {:induction false} OperationIsBounded(s: State, actions: seq<Action>, s': State, t: nat)
    requires Steps(s, actions, s')
    requires forall i :: 0 <= i < |actions| && Mover(actions[i]) == Some(t) ==> !Begins(actions[i])
    ensures OwnSteps(actions, t) + Rank(At(s', t)) <= Rank(At(s, t)) <= 21
    decreases |actions|
  {
    if actions != [] {
      var a := actions[0];
      OnlyMoverMoves(s, a);
      if Mover(a) == Some(t) {
        assert !Begins(actions[0]);
        EveryStepIsProgress(s, a);
      }
      assert forall i :: 0 <= i < |actions[1..]| ==> actions[1..][i] == actions[i + 1];
      OperationIsBounded(Next(s, a), actions[1..], s', t);
    }
  }

  /** And until it is over there is always a next one, except while another goroutine tears down or the reader to be
      joined has not ended. */
  lemma {:induction false} OperationNeverStuck(s: State, t: nat) returns (a: Action)
    requires Reachable(s) && At(s, t) != Idle && !(At(s, t).TearWant? && s.stop.Some?)
    requires At(s, t).Joining? && At(s, t).joined.Some? ==>
             At(s, t).joined.value < |s.sh.gens| && s.sh.gens[At(s, t).joined.value].reader.Ended?
    ensures Mover(a) == Some(t) && Enabled(s, a) && !Begins(a)
  {
    ReachableInv(s);
    assert PcOk(s, t, At(s, t));
    match At(s, t)
    case Admitted(_) => a := Enter(t, CheckRunning);
    case Launching(_) => a := Enter(t, LaunchFail);
    case Greeting(_) => a := Transmit(t, SendHello);
    case Writing(_, _) => a := Transmit(t, WriteFail);
    case HelloWait(_, _) => a := Wait(t, HelloGiveUp);
    case Answered(_, _) => a := Transmit(t, NoteStart);
    case Ready => a := Transmit(t, SendBody);
    case Waiting(_) => a := Wait(t, Cancel);
    case Dropping(_, _) => a := Wait(t, Deregister);
    case TearWant(_) => a := Teardown(t, TearLock);
    case TearHeld(_) => a := Teardown(t, Detach);
    case Joining(_, _) => a := Teardown(t, Join);
    case Releasing => a := Enter(t, Release);
  }
}
