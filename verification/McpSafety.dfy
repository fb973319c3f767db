/** Every step of the transport keeps its invariant, and what follows for whole runs. */
module McpSafety {
  import opened Wrappers
  import opened McpTransport

  // ---------------------------------------------------------------- critical sections

  /** Requests are never forgotten or renumbered, and the channels of an ended generation stay as they are. */
  ghost predicate Grows(sh: Shared, sh': Shared) {
    && |sh.requests| <= |sh'.requests| && |sh.gens| <= |sh'.gens|
    && (forall u :: 0 <= u < |sh.requests| ==>
          && sh'.requests[u].gen == sh.requests[u].gen
          && sh'.requests[u].id == sh.requests[u].id
          && sh'.requests[u].owner == sh.requests[u].owner
          && sh.requests[u].sends <= sh'.requests[u].sends
          && (sh.requests[u].gen < |sh.gens| && sh.gens[sh.requests[u].gen].reader.Ended? ==>
                sh'.requests[u].sends == sh.requests[u].sends))
    && (forall g :: 0 <= g < |sh.gens| && sh.gens[g].reader.Ended? ==> sh'.gens[g].reader.Ended?)
  }

  /** Nothing the holder of admission relies on has changed. */
  ghost predicate Still(sh: Shared, sh': Shared) {
    && Grows(sh, sh')
    && |sh'.requests| == |sh.requests| && |sh'.gens| == |sh.gens| && sh'.lastID == sh.lastID
    && (sh.current.None? ==> sh'.current.None?)
    && (forall g :: 0 <= g < |sh.gens| ==>
          sh'.gens[g].wire == sh.gens[g].wire && sh'.gens[g].greeting == sh.gens[g].greeting)
  }

  lemma {:induction false} AttachedKeeps(sh: Shared)
    requires SharedInv(sh) && sh.current.None?
    requires forall g :: 0 <= g < |sh.gens| ==> sh.gens[g].reader.Ended?
    ensures SharedInv(Attached(sh)) && Grows(sh, Attached(sh))
  {
  }

  lemma {:induction false} DetachedKeeps(sh: Shared)
    requires SharedInv(sh)
    ensures SharedInv(Detached(sh)) && Still(sh, Detached(sh))
  {
  }

  lemma {:induction false} RegisteredKeeps(sh: Shared, t: nat)
    requires SharedInv(sh) && Running(sh)
    ensures SharedInv(Registered(sh, t)) && Grows(sh, Registered(sh, t))
  {
    var sh' := Registered(sh, t);
    assert Readers(sh') by {
      forall g | 0 <= g < |sh'.gens| ensures ReaderOk(sh', g, sh'.gens[g].reader) {
        assert ReaderOk(sh, g, sh.gens[g].reader);
      }
    }
    assert Pending(sh') by { assert ReaderOk(sh, sh.current.value, sh.gens[sh.current.value].reader); }
  }

  lemma {:induction false} DeregisteredKeeps(sh: Shared, id: int)
    requires SharedInv(sh)
    ensures SharedInv(Deregistered(sh, id)) && Still(sh, Deregistered(sh, id))
  {
  }

  lemma {:induction false} EmptiedKeeps(sh: Shared, u: nat)
    requires SharedInv(sh) && u < |sh.requests|
    ensures SharedInv(Emptied(sh, u)) && Still(sh, Emptied(sh, u))
  {
    var sh' := Emptied(sh, u);
    forall v | 0 <= v < |sh'.requests| ensures RequestOk(sh', sh'.requests[v]) {
      assert RequestOk(sh, sh.requests[v]);
    }
  }

  lemma {:induction false} RoutedKeeps(sh: Shared, g: nat, id: int, text: string)
    requires SharedInv(sh) && g < |sh.gens| && sh.gens[g].reader.Scanning?
    requires sh.current.Some? ==> sh.current == Some(g)
    ensures SharedInv(Routed(sh, g, id, text)) && Still(sh, Routed(sh, g, id, text))
  {
  }

  lemma {:induction false} HandedKeeps(sh: Shared, g: nat)
    requires SharedInv(sh) && g < |sh.gens| && sh.gens[g].reader.Handing?
    requires sh.current.Some? ==> sh.current == Some(g)
    ensures sh.gens[g].reader.req < |sh.requests|
    ensures SharedInv(Handed(sh, g)) && Still(sh, Handed(sh, g))
  {
    assert ReaderOk(sh, g, sh.gens[g].reader);
    var sh' := Handed(sh, g);
    forall v | 0 <= v < |sh'.requests| ensures RequestOk(sh', sh'.requests[v]) {
      assert RequestOk(sh, sh.requests[v]);
    }
  }

  lemma {:induction false} FinishedRequests(sh: Shared, g: nat)
    requires Requests(sh) && Pending(sh) && g < |sh.gens| && sh.gens[g].reader.Scanning?
    requires sh.current.Some? ==> sh.current == Some(g)
    ensures Requests(Finished(sh, g)) && Still(sh, Finished(sh, g))
  {
    var sh' := Finished(sh, g);
    forall u | 0 <= u < |sh.requests|
      ensures RequestOk(sh', sh'.requests[u]) && (Awaited(sh, u) ==> sh.requests[u].gen == g)
    {
      assert RequestOk(sh, sh.requests[u]);
      if Awaited(sh, u) {
        var id :| id in sh.pending && sh.pending[id] == u;
      }
    }
  }

  lemma {:induction false} FinishedKeeps(sh: Shared, g: nat)
    requires SharedInv(sh) && g < |sh.gens| && sh.gens[g].reader.Scanning?
    requires sh.current.Some? ==> sh.current == Some(g)
    ensures SharedInv(Finished(sh, g)) && Still(sh, Finished(sh, g))
  {
    var sh' := Finished(sh, g);
    FinishedRequests(sh, g);
    assert Readers(sh') by {
      forall h | 0 <= h < |sh'.gens| ensures ReaderOk(sh', h, sh'.gens[h].reader) {
        assert ReaderOk(sh, h, sh.gens[h].reader);
        if h != g && sh.gens[h].reader.Handing? {
          assert !Awaited(sh, sh.gens[h].reader.req);
        }
      }
    }
  }

  lemma {:induction false} ClosedKeeps(sh: Shared, g: nat)
    requires SharedInv(sh) && g < |sh.gens| && sh.gens[g].reader.Draining?
    ensures SharedInv(WithReader(sh, g, Ended)) && Still(sh, WithReader(sh, g, Ended))
  {
    assert ReaderOk(sh, g, sh.gens[g].reader);
  }

  lemma {:induction false} GreetedKeeps(sh: Shared, g: nat, reply: Reply)
    requires SharedInv(sh) && g < |sh.gens| && reply.Line? && reply.gen == g && reply.id == 1
    ensures SharedInv(Greeted(sh, g, reply)) && Grows(sh, Greeted(sh, g, reply))
  {
  }

  lemma {:induction false} WiredFlight(sh: Shared, job: Job)
    requires FlightOk(sh, job, false)
    ensures JobGen(sh, job) + 1 == |sh.gens|
    ensures FlightOk(Wired(sh, JobGen(sh, job), JobLine(sh, job)), job, true)
  {
  }

  /** One more line in its place. */
  lemma {:induction false} GrammarGrows(g: nat, gen: Gen, line: Wire, id: int)
    requires Grammar(g, gen) && Below(gen.wire, id + 1)
    requires || (line == Initialize(1) && gen.wire == [])
             || (line == Initialized && gen.wire == [Initialize(1)] && gen.greeting.Some?)
             || (line == Invoke(id) && 2 <= id && 2 <= |gen.wire| && Below(gen.wire, id))
    ensures var gen' := gen.(wire := gen.wire + [line]); Grammar(g, gen') && Below(gen'.wire, id + 1)
  {
    var wire' := gen.wire + [line];
    assert forall i :: 0 <= i < |gen.wire| ==> wire'[i] == gen.wire[i];
  }

  lemma {:induction false} WiredGrammar(sh: Shared, job: Job)
    requires Wires(sh) && FlightOk(sh, job, false)
    ensures JobGen(sh, job) + 1 == |sh.gens|
    ensures Wires(Wired(sh, JobGen(sh, job), JobLine(sh, job)))
  {
    var last := |sh.gens| - 1;
    assert Grammar(last, sh.gens[last]);
    GrammarGrows(last, sh.gens[last], JobLine(sh, job), sh.lastID);
  }

  lemma {:induction false} WiredKeeps(sh: Shared, job: Job)
    requires SharedInv(sh) && FlightOk(sh, job, false)
    ensures JobGen(sh, job) < |sh.gens|
    ensures var sh' := Wired(sh, JobGen(sh, job), JobLine(sh, job));
            SharedInv(sh') && Grows(sh, sh')
  {
    WiredGrammar(sh, job);
    var sh' := Wired(sh, JobGen(sh, job), JobLine(sh, job));
    assert forall g :: 0 <= g < |sh.gens| ==> sh'.gens[g].reader == sh.gens[g].reader;
  }

  // ---------------------------------------------------------------- steps

  /** What one step of goroutine `mover` (or of a reader) may do to the shared fields. */
  ghost predicate StepOk(s: State, s': State, mover: Option<nat>) {
    && SharedInv(s'.sh) && Grows(s.sh, s'.sh)
    && (Still(s.sh, s'.sh) || (mover.Some? && HoldsAdmission(At(s, mover.value))))
    && (forall u :: 0 <= u < |s.sh.requests| && Some(s.sh.requests[u].owner) != mover && Unread(s.sh, u) ==>
          Unread(s'.sh, u))
  }

  ghost predicate Local(s: State, t: nat) { Tokens(s) && SharedInv(s.sh) && Live(s) && PcOk(s, t, At(s, t)) }

  /** At an attach no reader is left running. */
  lemma {:induction false} AttachIsAlone(s: State, t: nat)
    requires Live(s) && PcOk(s, t, At(s, t)) && At(s, t).Launching?
    ensures s.sh.current.None? && forall g :: 0 <= g < |s.sh.gens| ==> s.sh.gens[g].reader.Ended?
  {
  }

  lemma {:induction false} EnterShared(s: State, t: nat, e: Entry)
    requires Local(s, t) && EnterEnabled(s, t, e)
    ensures StepOk(s, EnterNext(s, t, e), Some(t))
  {
    if e.Attach? {
      AttachIsAlone(s, t);
      AttachedKeeps(s.sh);
    }
  }

  lemma {:induction false} TearShared(s: State, t: nat, d: Tear)
    requires Local(s, t) && TearEnabled(s, t, d)
    ensures StepOk(s, TearNext(s, t, d), Some(t))
  {
    if d.Detach? { DetachedKeeps(s.sh); }
  }

  lemma {:induction false} StillItself(sh: Shared)
    ensures Still(sh, sh)
  {
  }

  lemma {:induction false} SendShared(s: State, t: nat, w: Send)
    requires Local(s, t) && SendEnabled(s, t, w)
    ensures StepOk(s, SendNext(s, t, w), Some(t))
  {
    if (w.SendHello? || w.SendBody?) && Running(s.sh) {
      RegisteredKeeps(s.sh, t);
    } else if w.Land? {
      LandShared(s, t);
    } else {
      StillItself(s.sh);
    }
  }

  lemma {:induction false} FlightHolds(pc: PC)
    ensures Flight(pc).Some? ==> HoldsAdmission(pc)
  {
  }

  lemma {:induction false} LandShared(s: State, t: nat)
    requires Local(s, t) && SendEnabled(s, t, Land)
    ensures StepOk(s, SendNext(s, t, Land), Some(t))
  {
    var job := Flight(At(s, t)).value.0;
    WiredKeeps(s.sh, job);
    FlightHolds(At(s, t));
    var sh' := Wired(s.sh, JobGen(s.sh, job), JobLine(s.sh, job));
    assert SendNext(s, t, Land).sh == sh' && sh'.requests == s.sh.requests;
  }

  /** Taking the reply to initialize out of its channel and noting it. */
  lemma {:induction false} TakenGreetingKeeps(sh: Shared, u: nat, g: nat, reply: Reply)
    requires SharedInv(sh) && u < |sh.requests| && g < |sh.gens| && reply.Line? && reply.gen == g && reply.id == 1
    ensures var sh' := Greeted(Emptied(sh, u), g, reply); SharedInv(sh') && Grows(sh, sh')
  {
    EmptiedKeeps(sh, u);
    GreetedKeeps(Emptied(sh, u), g, reply);
  }

  lemma {:induction false} GreetShared(s: State, t: nat)
    requires Local(s, t) && WaitEnabled(s, t, HelloTake)
    ensures StepOk(s, WaitNext(s, t, HelloTake), Some(t))
  {
    var u := At(s, t).req;
    var reply := s.sh.requests[u].inbox.value;
    assert RequestOk(s.sh, s.sh.requests[u]);
    if reply.Line? {
      TakenGreetingKeeps(s.sh, u, s.sh.requests[u].gen, reply);
    } else {
      EmptiedKeeps(s.sh, u);
    }
    assert WaitNext(s, t, HelloTake).sh.requests == Emptied(s.sh, u).requests;
  }

  lemma {:induction false} ReceivedShared(s: State, t: nat, u: nat)
    requires Local(s, t) && At(s, t) == Waiting(u) && ReqInbox(s, u)
    ensures StepOk(s, Received(s, t, u), Some(t))
  {
    EmptiedKeeps(s.sh, u);
  }

  lemma {:induction false} WaitShared(s: State, t: nat, w: Await)
    requires Local(s, t) && WaitEnabled(s, t, w)
    ensures StepOk(s, WaitNext(s, t, w), Some(t))
  {
    if w.HelloTake? {
      GreetShared(s, t);
    } else if w.TakeReply? || (w.SeeClosed? && ReqInbox(s, At(s, t).req)) {
      ReceivedShared(s, t, At(s, t).req);
    } else if w.Deregister? {
      DeregisteredKeeps(s.sh, s.sh.requests[At(s, t).req].id);
    } else {
      StillItself(s.sh);
    }
  }

  /** A reader only ever fills channels. */
  lemma {:induction false} ReadUnread(s: State, g: nat, r: Read, u: nat)
    requires ReadEnabled(s, g, r) && u < |s.sh.requests| && Unread(s.sh, u)
    ensures Unread(ReadNext(s, g, r).sh, u)
  {
  }

  lemma {:induction false} ReadShared(s: State, g: nat, r: Read)
    requires SharedInv(s.sh) && Live(s) && ReadEnabled(s, g, r)
    ensures StepOk(s, ReadNext(s, g, r), None)
  {
    match r {
      case Scan(id, text) => RoutedKeeps(s.sh, g, id, text);
      case Hand => HandedKeeps(s.sh, g);
      case Finish => FinishedKeeps(s.sh, g);
      case Close => ClosedKeeps(s.sh, g);
    }
    forall u | 0 <= u < |s.sh.requests| && Unread(s.sh, u) ensures Unread(ReadNext(s, g, r).sh, u) {
      ReadUnread(s, g, r, u);
    }
  }

  lemma {:induction false} EnterTokens(s: State, t: nat, e: Entry)
    requires Tokens(s) && EnterEnabled(s, t, e)
    ensures Tokens(EnterNext(s, t, e))
    ensures Joined(s).None? && s.sh.current.None? ==> Joined(EnterNext(s, t, e)).None?
  {
  }

  lemma {:induction false} EnterLive(s: State, t: nat, e: Entry)
    requires EnterEnabled(s, t, e) && Tokens(s) && Live(s) && PcOk(s, t, At(s, t))
    requires s.sh.current.Some? ==> s.sh.current.value + 1 == |s.sh.gens|
    ensures Live(EnterNext(s, t, e))
  {
  }

  lemma {:induction false} EnterPc(s: State, t: nat, e: Entry)
    requires EnterEnabled(s, t, e) && Live(s) && PcOk(s, t, At(s, t))
    requires s.sh.current.Some? ==> s.sh.current.value + 1 == |s.sh.gens|
    ensures PcOk(EnterNext(s, t, e), t, At(EnterNext(s, t, e), t))
  {
  }

  lemma {:induction false} EnterHandshake(s: State, t: nat, e: Entry)
    requires EnterEnabled(s, t, e) && Tokens(s) && Handshake(s) && PcOk(s, t, At(s, t))
    requires s.sh.current.Some? ==> s.sh.current.value + 1 == |s.sh.gens|
    ensures Handshake(EnterNext(s, t, e))
  {
  }

  lemma {:induction false} TearTokens(s: State, t: nat, d: Tear)
    requires Tokens(s) && TearEnabled(s, t, d)
    ensures Tokens(TearNext(s, t, d))
    ensures Joined(s).None? && s.sh.current.None? ==> Joined(TearNext(s, t, d)).None?
  {
  }

  lemma {:induction false} TearLive(s: State, t: nat, d: Tear)
    requires TearEnabled(s, t, d) && Tokens(s) && Live(s) && PcOk(s, t, At(s, t))
    requires s.sh.current.Some? ==> s.sh.current.value + 1 == |s.sh.gens|
    ensures Live(TearNext(s, t, d))
  {
  }

  lemma {:induction false} FlightDetached(sh: Shared, job: Job, landed: bool)
    requires FlightOk(sh, job, landed)
    ensures FlightOk(Detached(sh), job, landed)
  {
  }

  lemma {:induction false} DetachPc(s: State, t: nat)
    requires TearEnabled(s, t, Detach) && PcOk(s, t, At(s, t))
    requires s.sh.current.Some? ==> s.sh.current.value + 1 == |s.sh.gens|
    ensures PcOk(TearNext(s, t, Detach), t, At(TearNext(s, t, Detach), t))
  {
    var pc := At(s, t);
    if Flight(pc).Some? { FlightDetached(s.sh, Flight(pc).value.0, Flight(pc).value.1); }
    assert Flight(At(TearNext(s, t, Detach), t)) == Flight(pc);
  }

  lemma {:induction false} JoinPc(s: State, t: nat)
    requires TearEnabled(s, t, Join) && PcOk(s, t, At(s, t))
    ensures PcOk(TearNext(s, t, Join), t, At(TearNext(s, t, Join), t))
  {
    assert Joined(TearNext(s, t, Join)).None?;
  }

  lemma {:induction false} TearPc(s: State, t: nat, d: Tear)
    requires TearEnabled(s, t, d) && PcOk(s, t, At(s, t))
    requires s.sh.current.Some? ==> s.sh.current.value + 1 == |s.sh.gens|
    ensures PcOk(TearNext(s, t, d), t, At(TearNext(s, t, d), t))
  {
    if d.Detach? { DetachPc(s, t); } else if d.Join? { JoinPc(s, t); }
  }

  lemma {:induction false} TearHandshake(s: State, t: nat, d: Tear)
    requires TearEnabled(s, t, d) && Tokens(s) && Handshake(s) && PcOk(s, t, At(s, t))
    requires s.sh.current.Some? ==> s.sh.current.value + 1 == |s.sh.gens|
    ensures Handshake(TearNext(s, t, d))
  {
  }

  lemma {:induction false} SendTokens(s: State, t: nat, w: Send)
    requires Tokens(s) && SendEnabled(s, t, w)
    ensures Tokens(SendNext(s, t, w))
    ensures Joined(s).None? && s.sh.current.None? ==> Joined(SendNext(s, t, w)).None?
  {
  }

  function JoinedOf(pc: PC): Option<nat> { if pc.Joining? then pc.joined else None }

  /** Steps that touch neither generations nor joins. */
  lemma {:induction false} LiveFrame(s: State, s': State, t: nat)
    requires Live(s) && s'.stop == s.stop && s'.sh.current == s.sh.current && |s'.sh.gens| == |s.sh.gens|
    requires forall g :: 0 <= g < |s.sh.gens| ==> s'.sh.gens[g].reader == s.sh.gens[g].reader
    requires (forall r: nat :: r != t ==> At(s', r) == At(s, r)) && JoinedOf(At(s', t)) == JoinedOf(At(s, t))
    ensures Live(s')
  {
    assert Joined(s') == Joined(s);
  }

  lemma {:induction false} SendLive(s: State, t: nat, w: Send)
    requires SendEnabled(s, t, w) && Live(s)
    ensures Live(SendNext(s, t, w))
  {
    LiveFrame(s, SendNext(s, t, w), t);
  }

  lemma {:induction false} RegisterPc(s: State, t: nat, w: Send)
    requires SendEnabled(s, t, w) && (w.SendHello? || w.SendBody?)
    requires Handshake(s) && PcOk(s, t, At(s, t)) && 0 <= s.sh.lastID
    requires Running(s.sh) ==> s.sh.current.value + 1 == |s.sh.gens| && Below(Last(s.sh).wire, s.sh.lastID + 1)
    requires Tokens(s)
    ensures PcOk(SendNext(s, t, w), t, At(SendNext(s, t, w), t))
  {
    assert w.SendBody? ==> s.admit == Some(t) && !Handshaking(At(s, t));
  }

  /** All that is asked of a goroutine whose write is in progress. */
  lemma {:induction false} FlightSuffices(s: State, t: nat, pc: PC)
    requires Flight(pc).Some? && FlightOk(s.sh, Flight(pc).value.0, Flight(pc).value.1)
    requires s.sh.requests[Flight(pc).value.0.req].owner == t
    requires pc.Joining? ==> s.sh.current.None? && (pc.joined.Some? ==> pc.joined.value < |s.sh.gens|)
    ensures PcOk(s, t, pc)
  {
  }

  lemma {:induction false} LandPc(s: State, t: nat)
    requires SendEnabled(s, t, Land) && PcOk(s, t, At(s, t))
    ensures PcOk(SendNext(s, t, Land), t, At(SendNext(s, t, Land), t))
  {
    var pc, job := At(s, t), Flight(At(s, t)).value.0;
    WiredFlight(s.sh, job);
    var s' := SendNext(s, t, Land);
    assert ReqOf(pc) == Some(job.req);
    FlightSuffices(s', t, Landed(pc));
  }

  lemma {:induction false} WritePc(s: State, t: nat, w: Send)
    requires SendEnabled(s, t, w) && !w.SendHello? && !w.SendBody? && !w.Land? && PcOk(s, t, At(s, t))
    requires s.sh.current.Some? ==> s.sh.current.value + 1 == |s.sh.gens|
    ensures PcOk(SendNext(s, t, w), t, At(SendNext(s, t, w), t))
  {
    var pc' := At(SendNext(s, t, w), t);
    if Flight(pc').Some? { FlightSuffices(SendNext(s, t, w), t, pc'); }
  }

  lemma {:induction false} SendPc(s: State, t: nat, w: Send)
    requires SendEnabled(s, t, w) && SharedInv(s.sh) && Handshake(s) && Tokens(s) && PcOk(s, t, At(s, t))
    ensures PcOk(SendNext(s, t, w), t, At(SendNext(s, t, w), t))
  {
    if w.SendHello? || w.SendBody? {
      RegisterPc(s, t, w);
    } else if w.Land? {
      LandPc(s, t);
    } else {
      WritePc(s, t, w);
    }
  }

  lemma {:induction false} RegisterHandshake(s: State, t: nat, w: Send)
    requires SendEnabled(s, t, w) && (w.SendHello? || w.SendBody? || w.NoteStart?)
    requires Tokens(s) && Handshake(s) && PcOk(s, t, At(s, t))
    ensures Handshake(SendNext(s, t, w))
  {
  }

  lemma {:induction false} LandHandshake(s: State, t: nat)
    requires SendEnabled(s, t, Land) && Tokens(s) && Handshake(s) && PcOk(s, t, At(s, t))
    requires s.sh.current.Some? ==> s.sh.current.value + 1 == |s.sh.gens|
    ensures Handshake(SendNext(s, t, Land))
  {
  }

  lemma {:induction false} WriteHandshake(s: State, t: nat, w: Send)
    requires SendEnabled(s, t, w) && (w.WriteOk? || w.WriteFail? || w.WriteRefused?)
    requires Tokens(s) && Handshake(s) && PcOk(s, t, At(s, t))
    requires s.sh.current.Some? ==> s.sh.current.value + 1 == |s.sh.gens|
    ensures Handshake(SendNext(s, t, w))
  {
  }

  lemma {:induction false} SendHandshake(s: State, t: nat, w: Send)
    requires SendEnabled(s, t, w) && Tokens(s) && Handshake(s) && PcOk(s, t, At(s, t))
    requires s.sh.current.Some? ==> s.sh.current.value + 1 == |s.sh.gens|
    ensures Handshake(SendNext(s, t, w))
  {
    match w
    case Land => LandHandshake(s, t);
    case SendHello => RegisterHandshake(s, t, w);
    case SendBody => RegisterHandshake(s, t, w);
    case NoteStart => RegisterHandshake(s, t, w);
    case _ => WriteHandshake(s, t, w);
  }

  lemma {:induction false} WaitTokens(s: State, t: nat, w: Await)
    requires Tokens(s) && WaitEnabled(s, t, w)
    ensures Tokens(WaitNext(s, t, w))
    ensures Joined(s).None? && s.sh.current.None? ==> Joined(WaitNext(s, t, w)).None?
  {
  }

  lemma {:induction false} WaitLive(s: State, t: nat, w: Await)
    requires WaitEnabled(s, t, w) && Live(s)
    ensures Live(WaitNext(s, t, w))
  {
    LiveFrame(s, WaitNext(s, t, w), t);
  }

  lemma {:induction false} GreetPc(s: State, t: nat)
    requires WaitEnabled(s, t, HelloTake) && PcOk(s, t, At(s, t))
    ensures PcOk(WaitNext(s, t, HelloTake), t, At(WaitNext(s, t, HelloTake), t))
  {
    var u, s' := At(s, t).req, WaitNext(s, t, HelloTake);
    assert s'.sh.requests[u].owner == t && s'.sh.requests[u].gen == s.sh.requests[u].gen;
    assert Last(s'.sh).wire == Last(s.sh).wire;
  }

  lemma {:induction false} ReceivePc(s: State, t: nat, u: nat)
    requires At(s, t) == Waiting(u) && ReqInbox(s, u) && RequestOk(s.sh, s.sh.requests[u]) && PcOk(s, t, At(s, t))
    ensures PcOk(Received(s, t, u), t, At(Received(s, t, u), t))
  {
  }

  lemma {:induction false} WaitPc(s: State, t: nat, w: Await)
    requires WaitEnabled(s, t, w) && Requests(s.sh) && PcOk(s, t, At(s, t))
    ensures PcOk(WaitNext(s, t, w), t, At(WaitNext(s, t, w), t))
  {
    if w.HelloTake? {
      GreetPc(s, t);
    } else if w.TakeReply? || (w.SeeClosed? && ReqInbox(s, At(s, t).req)) {
      ReceivePc(s, t, At(s, t).req);
    } else if w.Deregister? {
      DroppedPc(s, t);
    } else {
      GivenUpPc(s, t, w);
    }
  }

  lemma {:induction false} DroppedPc(s: State, t: nat)
    requires WaitEnabled(s, t, Deregister) && PcOk(s, t, At(s, t))
    ensures PcOk(WaitNext(s, t, Deregister), t, At(WaitNext(s, t, Deregister), t))
  {
  }

  lemma {:induction false} GivenUpPc(s: State, t: nat, w: Await)
    requires WaitEnabled(s, t, w) && Requests(s.sh) && PcOk(s, t, At(s, t))
    requires w.HelloGiveUp? || w.Cancel? || (w.SeeClosed? && !ReqInbox(s, At(s, t).req))
    ensures PcOk(WaitNext(s, t, w), t, At(WaitNext(s, t, w), t))
  {
  }

  lemma {:induction false} WaitHandshake(s: State, t: nat, w: Await)
    requires WaitEnabled(s, t, w) && Tokens(s) && Handshake(s) && PcOk(s, t, At(s, t))
    requires s.sh.current.Some? ==> s.sh.current.value + 1 == |s.sh.gens|
    ensures Handshake(WaitNext(s, t, w))
  {
  }

  lemma {:induction false} ReadPc(s: State, g: nat, r: Read)
    requires Tokens(s) && Live(s) && Handshake(s) && ReadEnabled(s, g, r)
    ensures var s' := ReadNext(s, g, r); Tokens(s') && Live(s') && Handshake(s') && Joined(s') == Joined(s)
  {
  }

  lemma {:induction false} OutcomeStays(sh: Shared, sh': Shared, u: nat, out: Outcome)
    requires OutcomeOk(sh, u, out) && Grows(sh, sh') && Requests(sh')
    ensures OutcomeOk(sh', u, out)
  {
    assert RequestOk(sh', sh'.requests[u]);
  }

  /** A step that leaves alone what the holder of admission relies on disturbs no other goroutine. */
  lemma {:induction false} HolderStays(s: State, s': State, r: nat)
    requires PcOk(s, r, At(s, r)) && HoldsAdmission(At(s, r)) && At(s', r) == At(s, r) && Still(s.sh, s'.sh)
    requires forall u :: 0 <= u < |s.sh.requests| && s.sh.requests[u].owner == r && Unread(s.sh, u) ==> Unread(s'.sh, u)
    requires Joined(s).None? && s.sh.current.None? ==> Joined(s').None?
    ensures PcOk(s', r, At(s', r))
  {
  }

  /** A goroutine without admission is not disturbed by any other. */
  lemma {:induction false} OutsiderStays(s: State, s': State, r: nat)
    requires PcOk(s, r, At(s, r)) && !HoldsAdmission(At(s, r)) && At(s', r) == At(s, r)
    requires Grows(s.sh, s'.sh) && Requests(s'.sh)
    requires forall u :: 0 <= u < |s.sh.requests| && s.sh.requests[u].owner == r && Unread(s.sh, u) ==> Unread(s'.sh, u)
    ensures PcOk(s', r, At(s', r))
  {
    var pc := At(s, r);
    if pc.Dropping? { OutcomeStays(s.sh, s'.sh, pc.req, pc.exit.out); }
  }

  lemma {:induction false} LogStays(s: State, s': State)
    requires Returns(s) && s'.log == s.log && Grows(s.sh, s'.sh) && Requests(s'.sh)
    ensures Returns(s')
  {
    forall i | 0 <= i < |s'.log| ensures OutcomeOk(s'.sh, s'.log[i].0, s'.log[i].1) {
      OutcomeStays(s.sh, s'.sh, s.log[i].0, s.log[i].1);
    }
  }

  lemma {:induction false} LogGrows(s: State, s': State, u: nat, out: Outcome)
    requires Returns(s) && s'.log == s.log + [(u, out)] && Grows(s.sh, s'.sh) && Requests(s'.sh)
    requires OutcomeOk(s.sh, u, out)
    ensures Returns(s')
  {
    OutcomeStays(s.sh, s'.sh, u, out);
    forall i | 0 <= i < |s.log| ensures OutcomeOk(s'.sh, s'.log[i].0, s'.log[i].1) {
      OutcomeStays(s.sh, s'.sh, s.log[i].0, s.log[i].1);
    }
  }

  lemma {:induction false} ReturnsKeep(s: State, a: Action)
    requires Pcs(s) && Returns(s) && Enabled(s, a) && Grows(s.sh, Next(s, a).sh) && Requests(Next(s, a).sh)
    ensures Returns(Next(s, a))
  {
    if a.Wait? && a.await.Deregister? && At(s, a.t).exit.Return? {
      assert PcOk(s, a.t, At(s, a.t));
      LogGrows(s, Next(s, a), At(s, a.t).req, At(s, a.t).exit.out);
    } else {
      LogStays(s, Next(s, a));
    }
  }

  function Mover(a: Action): Option<nat> { if a.Reading? then None else Some(a.t) }

  lemma {:induction false} OnlyMoverMoves(s: State, a: Action)
    requires Enabled(s, a)
    ensures forall r: nat :: Mover(a) != Some(r) ==> At(Next(s, a), r) == At(s, r)
  {
  }

  lemma {:induction false} StepKeeps(s: State, a: Action)
    requires Inv(s) && Enabled(s, a)
    ensures var s' := Next(s, a);
            && StepOk(s, s', Mover(a)) && Tokens(s') && Live(s') && Handshake(s')
            && (Joined(s).None? && s.sh.current.None? ==> Joined(s').None?)
            && (Mover(a).Some? ==> PcOk(s', a.t, At(s', a.t)))
  {
    if Mover(a).Some? { assert PcOk(s, a.t, At(s, a.t)); }
    match a
    case Enter(t, e) =>
      EnterShared(s, t, e);
      EnterTokens(s, t, e);
      EnterLive(s, t, e);
      EnterPc(s, t, e);
      EnterHandshake(s, t, e);
    case Teardown(t, d) =>
      TearShared(s, t, d);
      TearTokens(s, t, d);
      TearLive(s, t, d);
      TearPc(s, t, d);
      TearHandshake(s, t, d);
    case Transmit(t, w) =>
      SendShared(s, t, w);
      SendTokens(s, t, w);
      SendLive(s, t, w);
      SendPc(s, t, w);
      SendHandshake(s, t, w);
    case Wait(t, w) =>
      WaitShared(s, t, w);
      WaitTokens(s, t, w);
      WaitLive(s, t, w);
      WaitPc(s, t, w);
      WaitHandshake(s, t, w);
    case Reading(g, r) => ReadShared(s, g, r); ReadPc(s, g, r);
  }

  lemma {:induction false} PcsStay(s: State, s': State, mover: Option<nat>)
    requires Tokens(s) && Pcs(s) && StepOk(s, s', mover)
    requires forall r: nat :: mover != Some(r) ==> At(s', r) == At(s, r)
    requires Joined(s).None? && s.sh.current.None? ==> Joined(s').None?
    requires mover.Some? ==> PcOk(s', mover.value, At(s', mover.value))
    ensures Pcs(s')
  {
    forall r: nat ensures PcOk(s', r, At(s', r)) {
      assert PcOk(s, r, At(s, r));
      if mover != Some(r) {
        if HoldsAdmission(At(s, r)) { HolderStays(s, s', r); } else { OutsiderStays(s, s', r); }
      }
    }
  }

  lemma {:induction false} InvKeeps(s: State, a: Action)
    requires Inv(s) && Enabled(s, a)
    ensures Inv(Next(s, a))
  {
    StepKeeps(s, a);
    ReturnsKeep(s, a);
    OnlyMoverMoves(s, a);
    PcsStay(s, Next(s, a), Mover(a));
  }

  // ---------------------------------------------------------------- whole runs

  lemma {:induction false} InvAlong(s: State, actions: seq<Action>, s': State)
    requires Inv(s) && Steps(s, actions, s')
    ensures Inv(s')
    decreases |actions|
  {
    if actions != [] {
      InvKeeps(s, actions[0]);
      InvAlong(Next(s, actions[0]), actions[1..], s');
    }
  }

  lemma {:induction false} ReachableInv(s: State)
    requires Reachable(s)
    ensures Inv(s)
  {
    var actions :| Steps(Init(), actions, s);
    InvAlong(Init(), actions, s);
  }

  /** A caller is given a line only if the line carries the id of its own request and was
      read by the reader of the generation that request was registered on. */
  lemma {:induction false} DeliveredLineIsOwn(s: State, i: nat)
    requires Reachable(s) && i < |s.log| && s.log[i].1.Got? && s.log[i].1.reply.Line?
    ensures s.log[i].0 < |s.sh.requests|
    ensures var line, request := s.log[i].1.reply, s.sh.requests[s.log[i].0];
            line.id == request.id && line.gen == request.gen
  {
    ReachableInv(s);
  }

  /** At most one reader runs, it is the newest one, and it can always take its next step. */
  lemma {:induction false} OneReaderNeverStuck(s: State, g: nat, h: nat)
    requires Reachable(s) && g < |s.sh.gens| && h < |s.sh.gens|
    requires !s.sh.gens[g].reader.Ended? && !s.sh.gens[h].reader.Ended?
    ensures g == h == |s.sh.gens| - 1
    ensures s.sh.gens[g].reader.Handing? ==> Enabled(s, Reading(g, Hand))
    ensures s.sh.gens[g].reader.Scanning? ==> Enabled(s, Reading(g, Finish))
    ensures s.sh.gens[g].reader.Draining? ==> Enabled(s, Reading(g, Close))
  {
    ReachableInv(s);
    assert ReaderOk(s.sh, g, s.sh.gens[g].reader);
    if s.sh.gens[g].reader.Handing? { assert RequestOk(s.sh, s.sh.requests[s.sh.gens[g].reader.req]); }
  }

  /** Whenever a goroutine is about to attach a generation, the readers of all earlier ones have been joined. */
  lemma {:induction false} NoReaderAtAttach(s: State, t: nat, g: nat)
    requires Reachable(s) && Enabled(s, Enter(t, Attach)) && g < |s.sh.gens|
    ensures s.sh.gens[g].reader.Ended? && s.sh.current.None? && s.sh.pending == map[]
  {
    ReachableInv(s);
    assert PcOk(s, t, At(s, t));
    AttachIsAlone(s, t);
    assert forall id :: id !in s.sh.pending;
  }

  /** One send per registration. */
  lemma {:induction false} OneSendPerRequest(s: State, u: nat)
    requires Reachable(s) && u < |s.sh.requests|
    ensures s.sh.requests[u].sends <= 1
  {
    ReachableInv(s);
    assert RequestOk(s.sh, s.sh.requests[u]);
  }

  lemma {:induction false} GrowsAlong(s: State, actions: seq<Action>, s': State, u: nat)
    requires Inv(s) && Steps(s, actions, s') && u < |s.sh.requests|
    requires s.sh.requests[u].gen < |s.sh.gens| && s.sh.gens[s.sh.requests[u].gen].reader.Ended?
    ensures u < |s'.sh.requests| && s'.sh.requests[u].sends == s.sh.requests[u].sends
    decreases |actions|
  {
    if actions != [] {
      StepKeeps(s, actions[0]);
      InvKeeps(s, actions[0]);
      GrowsAlong(Next(s, actions[0]), actions[1..], s', u);
    }
  }

  /** A caller told that the transport closed had no reply delivered before, and gets none later. */
  lemma {:induction false} ClosedMeansNeverDelivered(s: State, i: nat, actions: seq<Action>, s': State)
    requires Reachable(s) && i < |s.log| && s.log[i].1 == TransportClosed && Steps(s, actions, s')
    ensures s.log[i].0 < |s'.sh.requests| && s'.sh.requests[s.log[i].0].sends == 0
  {
    ReachableInv(s);
    assert OutcomeOk(s.sh, s.log[i].0, s.log[i].1);
    GrowsAlong(s, actions, s', s.log[i].0);
  }

  /** Once its reader has ended a waiting caller can return, and a reply that was delivered is the one it returns. */
  lemma {:induction false} WaiterOfEndedReaderReturns(s: State, t: nat)
    requires Reachable(s) && At(s, t).Waiting? && ReaderEnded(s, At(s, t).req)
    ensures Enabled(s, Wait(t, SeeClosed))
    ensures var u := At(s, t).req; var pc := At(Next(s, Wait(t, SeeClosed)), t);
            && pc.Dropping? && pc.exit.Return?
            && (pc.exit.out.TransportClosed? <==> s.sh.requests[u].sends == 0)
            && (s.sh.requests[u].sends == 1 ==>
                  s.sh.requests[u].inbox.Some? && pc.exit.out == Got(s.sh.requests[u].inbox.value))
  {
    ReachableInv(s);
    assert PcOk(s, t, At(s, t));
    assert RequestOk(s.sh, s.sh.requests[At(s, t).req]);
  }

  /** Every generation is spoken to in the order the MCP lifecycle asks for. */
  lemma {:induction false} WireFollowsLifecycle(s: State, g: nat)
    requires Reachable(s) && g < |s.sh.gens|
    ensures Grammar(g, s.sh.gens[g])
  {
    ReachableInv(s);
  }

  lemma {:induction false} WritesNeverOverlap(s: State, t: nat, r: nat)
    requires Reachable(s) && Flight(At(s, t)).Some? && Flight(At(s, r)).Some?
    ensures t == r
  {
    ReachableInv(s);
    assert HoldsAdmission(At(s, t)) && HoldsAdmission(At(s, r));
  }

  // ---------------------------------------------------------------- deregister is keyed by id alone

  /** deregister takes away somebody else's entry exactly when the caller belongs to an
      earlier generation than the one now attached and its id is in use there. */
  lemma {:induction false} DeregisterStealsExactlyAcrossGenerations(s: State, t: nat)
    requires Reachable(s) && At(s, t).Dropping?
    ensures At(s, t).req < |s.sh.requests|
    ensures var u := At(s, t).req; var id := s.sh.requests[u].id;
            (exists v :: v != u && Awaited(s.sh, v) && !Awaited(Deregistered(s.sh, id), v)) <==>
            (id in s.sh.pending && s.sh.current != Some(s.sh.requests[u].gen))
  {
    ReachableInv(s);
    assert PcOk(s, t, At(s, t));
    var u := At(s, t).req;
    var id := s.sh.requests[u].id;
    if id in s.sh.pending {
      var w := s.sh.pending[id];
      assert Awaited(s.sh, w) && !Awaited(Deregistered(s.sh, id), w);
      assert w == u <==> s.sh.requests[w].gen == s.sh.requests[u].gen;
    }
    forall v | Awaited(s.sh, v) && !Awaited(Deregistered(s.sh, id), v)
      ensures id in s.sh.pending && s.sh.pending[id] == v
    {
      var i :| i in s.sh.pending && s.sh.pending[i] == v;
      assert i != id ==> i in Deregistered(s.sh, id).pending;
    }
  }

  ghost predicate Leads(s: State, s': State) { exists actions :: Steps(s, actions, s') }

  lemma {:induction false} StepsJoin(s: State, a: seq<Action>, m: State, b: seq<Action>, s': State)
    requires Steps(s, a, m) && Steps(m, b, s')
    ensures Steps(s, a + b, s')
    decreases |a|
  {
    if a == [] {
      assert a + b == b;
    } else {
      StepsJoin(Next(s, a[0]), a[1..], m, b, s');
      assert (a + b)[1..] == a[1..] + b;
    }
  }

  lemma {:induction false} LeadsJoin(s: State, m: State, s': State)
    requires Leads(s, m) && Leads(m, s')
    ensures Leads(s, s')
  {
    var a :| Steps(s, a, m);
    var b :| Steps(m, b, s');
    StepsJoin(s, a, m, b, s');
  }

  lemma {:induction false} LeadsThen(s: State, m: State, a: Action) returns (s': State)
    requires Leads(s, m) && Enabled(m, a)
    ensures s' == Next(m, a) && Leads(s, s')
  {
    s' := Next(m, a);
    assert Steps(m, [a], s') by { assert Steps(s', [a][1..], s'); }
    LeadsJoin(s, m, s');
  }

  /** Nobody is inside the transport and no generation is attached. */
  ghost predicate Quiet(s: State, t: nat) {
    At(s, t) == Idle && s.admit == None && s.stop == None && s.sh.current == None
  }

  lemma {:induction false} RunToTeardown(s: State, t: nat) returns (s': State)
    requires Quiet(s, t)
    ensures Leads(s, s')
    ensures s' == Goto(s.(admit := Some(t)), t, TearWant(Launch(true)))
  {
    assert Leads(s, s) by { assert Steps(s, [], s); }
    s' := LeadsThen(s, s, Enter(t, Acquire(true)));
    s' := LeadsThen(s, s', Enter(t, CheckRunning));
  }

  lemma {:induction false} RunToLaunch(s: State, t: nat) returns (s': State)
    requires At(s, t) == TearWant(Launch(true)) && s.stop == None && s.sh.current == None
    ensures Leads(s, s')
    ensures s' == Goto(s.(sh := Detached(s.sh)), t, Launching(true))
  {
    assert Leads(s, s) by { assert Steps(s, [], s); }
    s' := LeadsThen(s, s, Teardown(t, TearLock));
    s' := LeadsThen(s, s', Teardown(t, Detach));
    s' := LeadsThen(s, s', Teardown(t, Join));
    assert s'.pcs == s.pcs[t := Launching(true)];
  }

  lemma {:induction false} RunToGreeting(s: State, t: nat) returns (s': State)
    requires Quiet(s, t)
    ensures Leads(s, s')
    ensures s' == Goto(s.(admit := Some(t), sh := Attached(s.sh)), t, Greeting(true))
  {
    var a := RunToTeardown(s, t);
    var b := RunToLaunch(a, t);
    LeadsJoin(s, a, b);
    s' := LeadsThen(s, b, Enter(t, Attach));
    assert s'.sh == Attached(s.sh) && s'.pcs == s.pcs[t := Greeting(true)];
  }

  lemma {:induction false} RunToHelloWait(s: State, t: nat, g: nat) returns (s': State)
    requires At(s, t) == Greeting(true) && s.sh.current == Some(g) && g + 1 == |s.sh.gens| && !s.sh.dead
    requires s.sh.pending == map[] && s.sh.lastID == 0 && s.sh.gens[g] == Gen(Scanning, [], None)
    ensures Leads(s, s')
    ensures s' == Goto(s.(sh := s.sh.(
              lastID := 1, pending := map[1 := |s.sh.requests|],
              requests := s.sh.requests + [Request(t, g, 1, None, 0)],
              gens := s.sh.gens[g := Gen(Scanning, [Initialize(1)], None)])),
              t, HelloWait(|s.sh.requests|, true))
  {
    assert Leads(s, s) by { assert Steps(s, [], s); }
    s' := LeadsThen(s, s, Transmit(t, SendHello));
    s' := LeadsThen(s, s', Transmit(t, Land));
    s' := LeadsThen(s, s', Transmit(t, WriteOk));
    assert s'.sh.gens[g].wire == [Initialize(1)];
    assert s'.sh.gens == s.sh.gens[g := Gen(Scanning, [Initialize(1)], None)];
    assert s'.pcs == s.pcs[t := HelloWait(|s.sh.requests|, true)];
  }

  lemma {:induction false} RunHelloReply(s: State, t: nat, g: nat, u: nat) returns (s': State)
    requires At(s, t) == HelloWait(u, true) && g < |s.sh.gens| && u + 1 == |s.sh.requests|
        && s.sh.pending == map[1 := u]
    requires s.sh.gens[g] == Gen(Scanning, [Initialize(1)], None) && s.sh.requests[u] == Request(t, g, 1, None, 0)
    ensures Leads(s, s')
    ensures s' == Goto(s.(sh := s.sh.(
              pending := map[],
              requests := s.sh.requests[u := Request(t, g, 1, None, 1)],
              gens := s.sh.gens[g := Gen(Scanning, [Initialize(1)], Some(Line(g, 1, "")))])),
              t, Answered(u, true))
  {
    assert Leads(s, s) by { assert Steps(s, [], s); }
    s' := LeadsThen(s, s, Reading(g, Scan(1, "")));
    assert s'.sh.pending == map[];
    s' := LeadsThen(s, s', Reading(g, Hand));
    s' := LeadsThen(s, s', Wait(t, HelloTake));
    assert s'.sh.requests == s.sh.requests[u := Request(t, g, 1, None, 1)];
    assert s'.sh.gens == s.sh.gens[g := Gen(Scanning, [Initialize(1)], Some(Line(g, 1, "")))];
  }

  lemma {:induction false} RunToAnswered(s: State, t: nat, g: nat) returns (s': State)
    requires At(s, t) == Greeting(true) && s.sh.current == Some(g) && g + 1 == |s.sh.gens| && !s.sh.dead
    requires s.sh.pending == map[] && s.sh.lastID == 0 && s.sh.gens[g] == Gen(Scanning, [], None)
    ensures Leads(s, s')
    ensures s' == Goto(s.(sh := s.sh.(
              lastID := 1,
              requests := s.sh.requests + [Request(t, g, 1, None, 1)],
              gens := s.sh.gens[g := Gen(Scanning, [Initialize(1)], Some(Line(g, 1, "")))])),
              t, Answered(|s.sh.requests|, true))
  {
    var u := |s.sh.requests|;
    var a := RunToHelloWait(s, t, g);
    s' := RunHelloReply(a, t, g, u);
    LeadsJoin(s, a, s');
    assert s'.sh.requests == s.sh.requests + [Request(t, g, 1, None, 1)];
    assert s'.sh.gens == s.sh.gens[g := Gen(Scanning, [Initialize(1)], Some(Line(g, 1, "")))];
    assert s'.pcs == s.pcs[t := Answered(u, true)];
  }

  lemma {:induction false} RunBody(s: State, t: nat, g: nat) returns (s': State)
    requires At(s, t) == Ready && s.sh.current == Some(g) && g + 1 == |s.sh.gens| && !s.sh.dead && s.sh.pending == map[]
    ensures Leads(s, s')
    ensures s'.sh.current == Some(g) && !s'.sh.dead && s'.sh.pending == map[s.sh.lastID + 1 := |s.sh.requests|]
    ensures s'.sh.requests == s.sh.requests + [Request(t, g, s.sh.lastID + 1, None, 0)]
    ensures |s'.sh.gens| == |s.sh.gens| && s'.sh.gens[g].reader == s.sh.gens[g].reader
    ensures s'.admit == None && s'.stop == s.stop && s'.pcs == s.pcs[t := Waiting(|s.sh.requests|)] && s'.log == s.log
    ensures s'.sh.gens[g].wire == s.sh.gens[g].wire + [Invoke(s.sh.lastID + 1)]
  {
    assert Leads(s, s) by { assert Steps(s, [], s); }
    s' := LeadsThen(s, s, Transmit(t, SendBody));
    s' := LeadsThen(s, s', Transmit(t, Land));
    s' := LeadsThen(s, s', Transmit(t, WriteOk));
  }

  lemma {:induction false} RunNote(s: State, t: nat, g: nat, u: nat) returns (s': State)
    requires At(s, t) == Answered(u, true) && s.sh.current == Some(g) && g < |s.sh.gens| && u < |s.sh.requests|
    requires s.sh.pending == map[]
    ensures Leads(s, s')
    ensures s' == Goto(s.(sh := Wired(s.sh, g, Initialized)), t, Ready)
  {
    assert Leads(s, s) by { assert Steps(s, [], s); }
    s' := LeadsThen(s, s, Transmit(t, NoteStart));
    s' := LeadsThen(s, s', Transmit(t, Land));
    s' := LeadsThen(s, s', Transmit(t, WriteOk));
    s' := LeadsThen(s, s', Wait(t, Deregister));
    assert s'.pcs == s.pcs[t := Ready] && s'.sh.pending == map[];
  }

  lemma {:induction false} RunCall(s: State, t: nat) returns (s': State)
    requires Quiet(s, t)
    ensures Leads(s, s')
    ensures s'.sh.current == Some(|s.sh.gens|) && s'.sh.pending == map[2 := |s.sh.requests| + 1]
    ensures |s'.sh.gens| == |s.sh.gens| + 1 && s'.sh.gens[|s.sh.gens|].reader == Scanning
    ensures |s'.sh.requests| == |s.sh.requests| + 2 && s'.sh.requests[..|s.sh.requests|] == s.sh.requests
    ensures s'.sh.requests[|s.sh.requests| + 1] == Request(t, |s.sh.gens|, 2, None, 0)
    ensures s'.admit == None && s'.stop == None && s'.pcs == s.pcs[t := Waiting(|s.sh.requests| + 1)] && s'.log == s.log
    ensures s'.sh.gens[|s.sh.gens|].wire == [Initialize(1), Initialized, Invoke(2)]
  {
    var a := RunToGreeting(s, t);
    var b := RunToAnswered(a, t, |s.sh.gens|);
    LeadsJoin(s, a, b);
    var c := RunNote(b, t, |s.sh.gens|, |s.sh.requests|);
    LeadsJoin(s, b, c);
    s' := RunBody(c, t, |s.sh.gens|);
    LeadsJoin(s, c, s');
    assert s'.pcs == s.pcs[t := Waiting(|s.sh.requests| + 1)];
  }

  lemma {:induction false} RunToJoin(s: State, r: nat) returns (s': State)
    requires At(s, r) == Idle && s.stop == None
    ensures Leads(s, s')
    ensures s' == Goto(s.(stop := Some(r), sh := Detached(s.sh)), r, Joining(s.sh.current, Stop))
  {
    assert Leads(s, s) by { assert Steps(s, [], s); }
    s' := LeadsThen(s, s, Teardown(r, StopBegin));
    s' := LeadsThen(s, s', Teardown(r, TearLock));
    s' := LeadsThen(s, s', Teardown(r, Detach));
    assert s'.pcs == s.pcs[r := Joining(s.sh.current, Stop)];
  }

  lemma {:induction false} RunReaderEnd(s: State, g: nat) returns (s': State)
    requires s.sh.current == None && !s.sh.dead && s.sh.pending == map[] && g < |s.sh.gens|
        && s.sh.gens[g].reader == Scanning
    ensures Leads(s, s')
    ensures s' == s.(sh := s.sh.(gens := s.sh.gens[g := s.sh.gens[g].(reader := Ended)]))
  {
    assert Leads(s, s) by { assert Steps(s, [], s); }
    s' := LeadsThen(s, s, Reading(g, Finish));
    assert s'.sh.requests == s.sh.requests;
    s' := LeadsThen(s, s', Reading(g, Close));
    assert s'.sh.gens == s.sh.gens[g := s.sh.gens[g].(reader := Ended)];
  }

  lemma {:induction false} RunStop(s: State, r: nat, g: nat) returns (s': State)
    requires At(s, r) == Idle && s.stop == None && s.sh.current == Some(g) && g < |s.sh.gens|
    requires s.sh.gens[g].reader == Scanning
    ensures Leads(s, s')
    ensures s' == s.(pcs := s.pcs[r := Idle], sh := s.sh.(current := None, dead := false, pending := map[],
                       gens := s.sh.gens[g := s.sh.gens[g].(reader := Ended)]))
  {
    var a := RunToJoin(s, r);
    var b := RunReaderEnd(a, g);
    LeadsJoin(s, a, b);
    s' := LeadsThen(s, b, Teardown(r, Join));
    assert s'.pcs == s.pcs[r := Idle];
  }

  lemma {:induction false} RunStoppedCall() returns (s: State)
    ensures Leads(Init(), s) && Quiet(s, 2) && At(s, 0) == Dropping(1, Return(TransportClosed))
    ensures |s.sh.gens| == 1 && |s.sh.requests| == 2 && s.sh.requests[1].id == 2
  {
    var i := Init();
    var m := RunCall(i, 0);
    s := RunStop(m, 1, 0);
    LeadsJoin(i, m, s);
    assert s.sh.requests[1] == Request(0, 0, 2, None, 0);
    s := LeadsThen(i, s, Wait(0, SeeClosed));
  }

  /** The response of a live caller is not always delivered: goroutine 0 waits on generation 0,
      goroutine 1 stops the transport, goroutine 2 restarts it and waits with the same id,
      and only then does goroutine 0 run its deferred deregister. */
  lemma {:induction false} LiveCallerCanLoseItsEntry() returns (s: State)
    ensures Reachable(s) && |s.sh.requests| == 4 && |s.sh.gens| == 2
    ensures At(s, 2) == Waiting(3) && s.sh.current == Some(1) && s.sh.requests[3] == Request(2, 1, 2, None, 0)
    ensures Enabled(s, Reading(1, Scan(2, "result"))) && Next(s, Reading(1, Scan(2, "result"))) == s
  {
    var m := RunStoppedCall();
    s := RunCall(m, 2);
    LeadsJoin(Init(), m, s);
    assert At(s, 0) == At(m, 0);
    assert s.sh.requests[1] == s.sh.requests[..2][1] == m.sh.requests[1];
    s := LeadsThen(Init(), s, Wait(0, Deregister));
  }
}
