/**
 The stdio transport of internal/app/tool_mcp.go: one subprocess pipe shared by
 any number of goroutines, one reader goroutine per transport generation.

 `Shared` holds the fields of MCPServer that its mutex guards, together with every
 response channel and every generation made so far. The functions on `Shared` are the
 critical sections of the source. `State` adds the admission token, the teardown mutex
 and where each goroutine is; `Next` is one atomic step of one goroutine or one reader.
*/
module McpTransport {
  import opened Wrappers

  // ---------------------------------------------------------------- data

  /** mcpResult. A line is tagged with the generation whose reader read it. */
  datatype Reply = Line(gen: nat, id: int, text: string) | Failure

  /** mcpRequest: the goroutine waiting on it, its generation (the `done` channel), its id,
      its channel of capacity 1, and how often something was sent on that channel. */
  datatype Request = Request(owner: nat, gen: nat, id: int, inbox: Option<Reply>, sends: nat)

  /** Handing is the point between the map lookup in route and the channel send;
      Draining is the point between the mutex section of finishReader and close(done). */
  datatype Reader = Scanning | Handing(req: nat, line: Reply) | Draining | Ended

  datatype Wire = Initialize(id: int) | Initialized | Invoke(id: int)

  /** One transport generation: its reader, the lines written to its stdin, and the reply
      the handshake took for its initialize request. */
  datatype Gen = Gen(reader: Reader, wire: seq<Wire>, greeting: Option<Reply>)

  /** cmd, stdin, stdout and readerDone are set together by attach and cleared together by
      teardown, so one optional generation number stands for all four. */
  datatype Shared = Shared(
    current: Option<nat>,
    dead: bool,
    pending: map<int, nat>,
    lastID: int,
    requests: seq<Request>,
    gens: seq<Gen>)

  datatype Outcome = Got(reply: Reply) | Cancelled | TransportClosed

  /** A write in progress. `call` tells Call from start. */
  datatype Job = Hello(req: nat, call: bool) | Note(gen: nat, req: nat, call: bool) | Body(req: nat)

  /** What follows the removal of a request from the pending map. */
  datatype Exit = Return(out: Outcome) | SendFailed | HelloFailed | HelloOk(call: bool)

  /** What follows a teardown. Drop keeps the write that may still land before it is joined. */
  datatype After = Launch(call: bool) | Fail | Drop(job: Job, landed: bool) | Stop

  datatype PC =
    | Idle
    | Admitted(call: bool)
    | Launching(call: bool)
    | Greeting(call: bool)
    | Writing(job: Job, landed: bool)
    | HelloWait(req: nat, call: bool)
    | Answered(req: nat, call: bool)
    | Ready
    | Waiting(req: nat)
    | Dropping(req: nat, exit: Exit)
    | TearWant(after: After)
    | TearHeld(after: After)
    | Joining(joined: Option<nat>, after: After)
    | Releasing

  datatype State = State(
    sh: Shared,
    admit: Option<nat>,
    stop: Option<nat>,
    pcs: map<nat, PC>,
    log: seq<(nat, Outcome)>)

  /** acquire, ensureStarted, startProcess up to attach, release. */
  datatype Entry = Acquire(call: bool) | CheckRunning | LaunchFail | Attach | Release

  /** stop and teardown. */
  datatype Tear = StopBegin | TearLock | Detach | Join

  /** send and write; Land is the write goroutine reaching the pipe. */
  datatype Send = SendHello | SendBody | NoteStart | Land | WriteOk | WriteFail | WriteRefused

  /** await, in the handshake and in Call, and the deferred deregister. */
  datatype Await = HelloTake | HelloGiveUp | TakeReply | Cancel | SeeClosed | Deregister

  /** readLoop, route and finishReader. */
  datatype Read = Scan(id: int, text: string) | Hand | Finish | Close

  datatype Action =
    | Enter(t: nat, entry: Entry)
    | Teardown(t: nat, tear: Tear)
    | Transmit(t: nat, send: Send)
    | Wait(t: nat, await: Await)
    | Reading(g: nat, read: Read)

  // ---------------------------------------------------------------- critical sections

  predicate Running(sh: Shared) { sh.current.Some? && !sh.dead }

  function Attached(sh: Shared): Shared {
    Shared(Some(|sh.gens|), false, map[], 0, sh.requests, sh.gens + [Gen(Scanning, [], None)])
  }

  function Detached(sh: Shared): Shared {
    sh.(current := None, dead := false, pending := map[])
  }

  function Registered(sh: Shared, t: nat): Shared
    requires sh.current.Some?
  {
    sh.(lastID := sh.lastID + 1,
        requests := sh.requests + [Request(t, sh.current.value, sh.lastID + 1, None, 0)],
        pending := sh.pending[sh.lastID + 1 := |sh.requests|])
  }

  function Deregistered(sh: Shared, id: int): Shared {
    sh.(pending := sh.pending - {id})
  }

  function WithReader(sh: Shared, g: nat, reader: Reader): Shared
    requires g < |sh.gens|
  {
    sh.(gens := sh.gens[g := sh.gens[g].(reader := reader)])
  }

  function Routed(sh: Shared, g: nat, id: int, text: string): Shared
    requires g < |sh.gens|
  {
    if id in sh.pending then
      WithReader(sh.(pending := sh.pending - {id}), g, Handing(sh.pending[id], Line(g, id, text)))
    else
      sh
  }

  function WithReply(sh: Shared, u: nat, reply: Reply): Shared
    requires u < |sh.requests|
  {
    sh.(requests := sh.requests[u := sh.requests[u].(inbox := Some(reply), sends := sh.requests[u].sends + 1)])
  }

  function Handed(sh: Shared, g: nat): Shared
    requires g < |sh.gens| && sh.gens[g].reader.Handing? && sh.gens[g].reader.req < |sh.requests|
  {
    WithReader(WithReply(sh, sh.gens[g].reader.req, sh.gens[g].reader.line), g, Scanning)
  }

  /** The non-blocking send of finishReader on one channel. */
  function Failed(r: Request): Request {
    if r.inbox.None? then r.(inbox := Some(Failure), sends := r.sends + 1) else r
  }

  predicate Awaited(sh: Shared, u: int) { exists id :: id in sh.pending && sh.pending[id] == u }

  function Finished(sh: Shared, g: nat): Shared
    requires g < |sh.gens|
  {
    WithReader(sh.(
      dead := sh.dead || sh.current == Some(g),
      requests := seq(|sh.requests|, u requires 0 <= u < |sh.requests| =>
        if Awaited(sh, u) then Failed(sh.requests[u]) else sh.requests[u])),
      g, Draining)
  }

  function Emptied(sh: Shared, u: nat): Shared
    requires u < |sh.requests|
  {
    sh.(requests := sh.requests[u := sh.requests[u].(inbox := None)])
  }

  function Greeted(sh: Shared, g: nat, reply: Reply): Shared
    requires g < |sh.gens|
  {
    sh.(gens := sh.gens[g := sh.gens[g].(greeting := Some(reply))])
  }

  function Wired(sh: Shared, g: nat, line: Wire): Shared
    requires g < |sh.gens|
  {
    sh.(gens := sh.gens[g := sh.gens[g].(wire := sh.gens[g].wire + [line])])
  }

  // ---------------------------------------------------------------- goroutines

  function At(s: State, t: nat): PC { if t in s.pcs then s.pcs[t] else Idle }

  function Goto(s: State, t: nat, pc: PC): State { s.(pcs := s.pcs[t := pc]) }

  function JobGen(sh: Shared, job: Job): nat
    requires job.req < |sh.requests|
  {
    if job.Note? then job.gen else sh.requests[job.req].gen
  }

  function JobLine(sh: Shared, job: Job): Wire
    requires job.req < |sh.requests|
  {
    match job
    case Hello(u, _) => Initialize(sh.requests[u].id)
    case Note(_, _, _) => Initialized
    case Body(u) => Invoke(sh.requests[u].id)
  }

  function ExitOf(job: Job): Exit { if job.Body? then SendFailed else HelloFailed }

  function AfterOf(pc: PC): Option<After> {
    match pc
    case TearWant(a) => Some(a)
    case TearHeld(a) => Some(a)
    case Joining(_, a) => Some(a)
    case _ => None
  }

  /** The write a goroutine has started and not yet joined, and whether it has landed. */
  function Flight(pc: PC): Option<(Job, bool)> {
    match pc
    case Writing(job, landed) => Some((job, landed))
    case _ =>
      match AfterOf(pc)
      case Some(Drop(job, landed)) => Some((job, landed))
      case _ => None
  }

  function Landed(pc: PC): PC {
    match pc
    case Writing(job, _) => Writing(job, true)
    case TearWant(Drop(job, _)) => TearWant(Drop(job, true))
    case TearHeld(Drop(job, _)) => TearHeld(Drop(job, true))
    case Joining(g, Drop(job, _)) => Joining(g, Drop(job, true))
    case _ => pc
  }

  predicate HoldsAdmission(pc: PC) {
    match pc
    case Idle => false
    case Waiting(_) => false
    case Dropping(_, exit) => !exit.Return?
    case TearWant(a) => !a.Stop?
    case TearHeld(a) => !a.Stop?
    case Joining(_, a) => !a.Stop?
    case _ => true
  }

  predicate InTeardown(pc: PC) { pc.TearHeld? || pc.Joining? }

  function Resume(after: After): PC {
    match after
    case Launch(call) => Launching(call)
    case Fail => Releasing
    case Drop(job, _) => Dropping(job.req, ExitOf(job))
    case Stop => Idle
  }

  function WriteDone(job: Job): PC {
    match job
    case Hello(u, call) => HelloWait(u, call)
    case Note(_, u, call) => Dropping(u, HelloOk(call))
    case Body(u) => Waiting(u)
  }

  function AfterDrop(exit: Exit): PC {
    match exit
    case Return(_) => Idle
    case SendFailed => Releasing
    case HelloFailed => TearWant(Fail)
    case HelloOk(call) => if call then Ready else Releasing
  }

  // ---------------------------------------------------------------- steps

  predicate ReqInbox(s: State, u: nat) { u < |s.sh.requests| && s.sh.requests[u].inbox.Some? }

  predicate ReaderEnded(s: State, u: nat) {
    u < |s.sh.requests| && s.sh.requests[u].gen < |s.sh.gens| && s.sh.gens[s.sh.requests[u].gen].reader.Ended?
  }

  predicate EnterEnabled(s: State, t: nat, e: Entry) {
    match e
    case Acquire(_) => At(s, t).Idle? && s.admit.None?
    case CheckRunning => At(s, t).Admitted?
    case LaunchFail => At(s, t).Launching?
    case Attach => At(s, t).Launching?
    case Release => At(s, t).Releasing?
  }

  function EnterNext(s: State, t: nat, e: Entry): State
    requires EnterEnabled(s, t, e)
  {
    match e
    case Acquire(call) => Goto(s.(admit := Some(t)), t, Admitted(call))
    case CheckRunning =>
      var call := At(s, t).call;
      Goto(s, t, if !Running(s.sh) then TearWant(Launch(call)) else if call then Ready else Releasing)
    case LaunchFail => Goto(s, t, Releasing)
    case Attach => Goto(s.(sh := Attached(s.sh)), t, Greeting(At(s, t).call))
    case Release => Goto(s.(admit := None), t, Idle)
  }

  predicate TearEnabled(s: State, t: nat, d: Tear) {
    match d
    case StopBegin => At(s, t).Idle?
    case TearLock => At(s, t).TearWant? && s.stop.None?
    case Detach => At(s, t).TearHeld?
    case Join =>
      && At(s, t).Joining?
      && (At(s, t).joined.Some? ==>
            At(s, t).joined.value < |s.sh.gens| && s.sh.gens[At(s, t).joined.value].reader.Ended?)
  }

  function TearNext(s: State, t: nat, d: Tear): State
    requires TearEnabled(s, t, d)
  {
    match d
    case StopBegin => Goto(s, t, TearWant(Stop))
    case TearLock => Goto(s.(stop := Some(t)), t, TearHeld(At(s, t).after))
    case Detach => Goto(s.(sh := Detached(s.sh)), t, Joining(s.sh.current, At(s, t).after))
    case Join => Goto(s.(stop := None), t, Resume(At(s, t).after))
  }

  predicate SendEnabled(s: State, t: nat, w: Send) {
    match w
    case SendHello => At(s, t).Greeting?
    case SendBody => At(s, t).Ready?
    case NoteStart => At(s, t).Answered?
    case Land =>
      && Flight(At(s, t)).Some? && !Flight(At(s, t)).value.1
      && Flight(At(s, t)).value.0.req < |s.sh.requests|
      && JobGen(s.sh, Flight(At(s, t)).value.0) < |s.sh.gens|
    case WriteOk => At(s, t).Writing? && At(s, t).landed
    case WriteFail => At(s, t).Writing?
    case WriteRefused => At(s, t).Writing? && !At(s, t).landed
  }

  function SendNext(s: State, t: nat, w: Send): State
    requires SendEnabled(s, t, w)
  {
    match w
    case SendHello =>
      if Running(s.sh) then
        Goto(s.(sh := Registered(s.sh, t)), t, Writing(Hello(|s.sh.requests|, At(s, t).call), false))
      else
        Goto(s, t, TearWant(Fail))
    case SendBody =>
      if Running(s.sh) then
        Goto(s.(sh := Registered(s.sh, t)), t, Writing(Body(|s.sh.requests|), false))
      else
        Goto(s, t, Releasing)
    case NoteStart =>
      if s.sh.current.Some? then
        Goto(s, t, Writing(Note(s.sh.current.value, At(s, t).req, At(s, t).call), false))
      else
        Goto(s, t, Dropping(At(s, t).req, HelloFailed))
    case Land =>
      var job := Flight(At(s, t)).value.0;
      Goto(s.(sh := Wired(s.sh, JobGen(s.sh, job), JobLine(s.sh, job))), t, Landed(At(s, t)))
    case WriteOk =>
      var job := At(s, t).job;
      Goto(if job.Body? then s.(admit := None) else s, t, WriteDone(job))
    case WriteFail => Goto(s, t, TearWant(Drop(At(s, t).job, At(s, t).landed)))
    case WriteRefused => Goto(s, t, Dropping(At(s, t).job.req, ExitOf(At(s, t).job)))
  }

  predicate WaitEnabled(s: State, t: nat, w: Await) {
    match w
    case HelloTake =>
      && At(s, t).HelloWait? && ReqInbox(s, At(s, t).req)
      && s.sh.requests[At(s, t).req].gen < |s.sh.gens|
    case HelloGiveUp => At(s, t).HelloWait?
    case TakeReply => At(s, t).Waiting? && ReqInbox(s, At(s, t).req)
    case Cancel => At(s, t).Waiting?
    case SeeClosed => At(s, t).Waiting? && ReaderEnded(s, At(s, t).req)
    case Deregister => At(s, t).Dropping? && At(s, t).req < |s.sh.requests|
  }

  /** Taking the reply of a request out of its channel. */
  function Received(s: State, t: nat, u: nat): State
    requires ReqInbox(s, u)
  {
    Goto(s.(sh := Emptied(s.sh, u)), t, Dropping(u, Return(Got(s.sh.requests[u].inbox.value))))
  }

  function WaitNext(s: State, t: nat, w: Await): State
    requires WaitEnabled(s, t, w)
  {
    match w
    case HelloTake =>
      var u := At(s, t).req;
      var reply := s.sh.requests[u].inbox.value;
      if reply.Line? then
        Goto(s.(sh := Greeted(Emptied(s.sh, u), s.sh.requests[u].gen, reply)), t, Answered(u, At(s, t).call))
      else
        Goto(s.(sh := Emptied(s.sh, u)), t, Dropping(u, HelloFailed))
    case HelloGiveUp => Goto(s, t, Dropping(At(s, t).req, HelloFailed))
    case TakeReply => Received(s, t, At(s, t).req)
    case Cancel => Goto(s, t, Dropping(At(s, t).req, Return(Cancelled)))
    case SeeClosed =>
      if ReqInbox(s, At(s, t).req) then Received(s, t, At(s, t).req)
      else Goto(s, t, Dropping(At(s, t).req, Return(TransportClosed)))
    case Deregister =>
      var u, exit := At(s, t).req, At(s, t).exit;
      Goto(s.(sh := Deregistered(s.sh, s.sh.requests[u].id),
              log := if exit.Return? then s.log + [(u, exit.out)] else s.log),
           t, AfterDrop(exit))
  }

  predicate ReadEnabled(s: State, g: nat, r: Read) {
    && g < |s.sh.gens|
    && match r
       case Scan(_, _) => s.sh.gens[g].reader.Scanning?
       case Hand =>
         && s.sh.gens[g].reader.Handing?
         && s.sh.gens[g].reader.req < |s.sh.requests|
         && s.sh.requests[s.sh.gens[g].reader.req].inbox.None?
       case Finish => s.sh.gens[g].reader.Scanning?
       case Close => s.sh.gens[g].reader.Draining?
  }

  function ReadNext(s: State, g: nat, r: Read): State
    requires ReadEnabled(s, g, r)
  {
    match r
    case Scan(id, text) => s.(sh := Routed(s.sh, g, id, text))
    case Hand => s.(sh := Handed(s.sh, g))
    case Finish => s.(sh := Finished(s.sh, g))
    case Close => s.(sh := WithReader(s.sh, g, Ended))
  }

  predicate Enabled(s: State, a: Action) {
    match a
    case Enter(t, e) => EnterEnabled(s, t, e)
    case Teardown(t, d) => TearEnabled(s, t, d)
    case Transmit(t, w) => SendEnabled(s, t, w)
    case Wait(t, w) => WaitEnabled(s, t, w)
    case Reading(g, r) => ReadEnabled(s, g, r)
  }

  function Next(s: State, a: Action): State
    requires Enabled(s, a)
  {
    match a
    case Enter(t, e) => EnterNext(s, t, e)
    case Teardown(t, d) => TearNext(s, t, d)
    case Transmit(t, w) => SendNext(s, t, w)
    case Wait(t, w) => WaitNext(s, t, w)
    case Reading(g, r) => ReadNext(s, g, r)
  }

  function Init(): State {
    State(Shared(None, false, map[], 0, [], []), None, None, map[], [])
  }

  ghost predicate Steps(s: State, actions: seq<Action>, s': State)
    decreases |actions|
  {
    if actions == [] then s == s'
    else Enabled(s, actions[0]) && Steps(Next(s, actions[0]), actions[1..], s')
  }

  ghost predicate Reachable(s: State) { exists actions :: Steps(Init(), actions, s) }

  // ---------------------------------------------------------------- invariant

  ghost predicate Tokens(s: State) {
    && (forall t: nat :: HoldsAdmission(At(s, t)) <==> s.admit == Some(t))
    && (forall t: nat :: InTeardown(At(s, t)) <==> s.stop == Some(t))
  }

  predicate RequestOk(sh: Shared, r: Request) {
    && r.gen < |sh.gens|
    && 1 <= r.id
    && (r.gen + 1 == |sh.gens| ==> r.id <= sh.lastID)
    && r.sends <= 1
    && (r.inbox.Some? ==> r.sends == 1)
    && (r.inbox.Some? && r.inbox.value.Line? ==> r.inbox.value.gen == r.gen && r.inbox.value.id == r.id)
  }

  ghost predicate Requests(sh: Shared) {
    && 0 <= sh.lastID
    && (forall u :: 0 <= u < |sh.requests| ==> RequestOk(sh, sh.requests[u]))
    && (forall u, v :: 0 <= u < v < |sh.requests| && sh.requests[u].gen == sh.requests[v].gen ==>
          sh.requests[u].id < sh.requests[v].id)
  }

  function Joined(s: State): Option<nat> {
    if s.stop.Some? && At(s, s.stop.value).Joining? then At(s, s.stop.value).joined else None
  }

  /** The reader of a generation is joined before the next generation is attached. */
  ghost predicate Live(s: State) {
    && (s.sh.current.Some? ==> Joined(s).None?)
    && (forall g :: 0 <= g < |s.sh.gens| && !s.sh.gens[g].reader.Ended? ==>
          g + 1 == |s.sh.gens| && (s.sh.current == Some(g) || Joined(s) == Some(g)))
  }

  ghost predicate Pending(sh: Shared) {
    forall id :: id in sh.pending ==>
      && sh.current.Some? && sh.current.value < |sh.gens|
      && sh.pending[id] < |sh.requests|
      && sh.requests[sh.pending[id]].gen == sh.current.value
      && sh.requests[sh.pending[id]].id == id
      && (sh.gens[sh.current.value].reader.Scanning? || sh.gens[sh.current.value].reader.Handing? ==>
            sh.requests[sh.pending[id]].sends == 0)
  }

  predicate ReaderOk(sh: Shared, g: nat, reader: Reader) {
    match reader
    case Scanning => true
    case Handing(u, line) =>
      && u < |sh.requests| && sh.requests[u].gen == g && g + 1 == |sh.gens| && sh.requests[u].sends == 0
      && line.Line? && line.gen == g && line.id == sh.requests[u].id
      && line.id !in sh.pending
    case _ => sh.current == Some(g) ==> sh.dead
  }

  ghost predicate Readers(sh: Shared) {
    forall g :: 0 <= g < |sh.gens| ==> ReaderOk(sh, g, sh.gens[g].reader)
  }

  /** initialize with id 1, then the notification after its reply, then rising ids. */
  ghost predicate Grammar(g: nat, gen: Gen) {
    && (1 <= |gen.wire| ==> gen.wire[0] == Initialize(1))
    && (2 <= |gen.wire| ==> gen.wire[1] == Initialized && gen.greeting.Some?)
    && (forall i :: 2 <= i < |gen.wire| ==> gen.wire[i].Invoke? && 2 <= gen.wire[i].id)
    && (forall i, j :: 2 <= i < j < |gen.wire| ==> gen.wire[i].id < gen.wire[j].id)
    && (gen.greeting.Some? ==> gen.greeting.value.Line? && gen.greeting.value.gen == g && gen.greeting.value.id == 1)
  }

  ghost predicate Below(wire: seq<Wire>, bound: int) {
    forall i :: 0 <= i < |wire| && wire[i].Invoke? ==> wire[i].id < bound
  }

  ghost predicate Wires(sh: Shared) {
    && (forall g :: 0 <= g < |sh.gens| ==> Grammar(g, sh.gens[g]))
    && (0 < |sh.gens| ==> Below(sh.gens[|sh.gens| - 1].wire, sh.lastID + 1))
  }

  function Last(sh: Shared): Gen
    requires 0 < |sh.gens|
  {
    sh.gens[|sh.gens| - 1]
  }

  ghost predicate FlightOk(sh: Shared, job: Job, landed: bool) {
    && 0 < |sh.gens| && job.req < |sh.requests|
    && sh.requests[job.req].gen + 1 == |sh.gens|
    && sh.requests[job.req].id == sh.lastID
    && match job
       case Hello(u, _) => sh.lastID == 1 && Last(sh).wire == (if landed then [Initialize(1)] else [])
       case Note(g, u, _) =>
         && sh.lastID == 1 && g + 1 == |sh.gens| && Last(sh).greeting.Some?
         && Last(sh).wire == (if landed then [Initialize(1), Initialized] else [Initialize(1)])
       case Body(u) =>
         && 2 <= sh.lastID && 2 <= |Last(sh).wire| && Unread(sh, u)
         && (!landed ==> Below(Last(sh).wire, sh.lastID))
  }

  ghost predicate OutcomeOk(sh: Shared, u: nat, out: Outcome) {
    && u < |sh.requests| && sh.requests[u].gen < |sh.gens|
    && match out
       case Got(Line(g, id, _)) => g == sh.requests[u].gen && id == sh.requests[u].id && sh.requests[u].sends == 1
       case TransportClosed => sh.requests[u].sends == 0 && sh.gens[sh.requests[u].gen].reader.Ended?
       case _ => true
  }

  /** The request a goroutine has registered and not yet let go of. */
  function ReqOf(pc: PC): Option<nat> {
    match pc
    case HelloWait(u, _) => Some(u)
    case Answered(u, _) => Some(u)
    case Waiting(u) => Some(u)
    case Dropping(u, _) => Some(u)
    case _ => if Flight(pc).Some? then Some(Flight(pc).value.0.req) else None
  }

  /** A goroutine that has not taken its reply yet still finds it in the channel. */
  predicate Unread(sh: Shared, u: nat) {
    u < |sh.requests| && (sh.requests[u].sends == 0 || sh.requests[u].inbox.Some?)
  }

  ghost predicate PcOk(s: State, t: nat, pc: PC) {
    && (ReqOf(pc).Some? ==> ReqOf(pc).value < |s.sh.requests| && s.sh.requests[ReqOf(pc).value].owner == t)
    && (Flight(pc).Some? ==> FlightOk(s.sh, Flight(pc).value.0, Flight(pc).value.1))
    && (pc.Joining? && !pc.after.Stop? ==> s.sh.current.None?)
    && (pc.Joining? && pc.joined.Some? ==> pc.joined.value < |s.sh.gens|)
    && match pc
       case Launching(_) => s.sh.current.None? && Joined(s).None?
       case Greeting(_) => 0 < |s.sh.gens| && Last(s.sh).wire == [] && s.sh.lastID == 0
       case HelloWait(u, _) =>
         && 0 < |s.sh.gens| && u < |s.sh.requests| && s.sh.requests[u].gen + 1 == |s.sh.gens|
         && s.sh.requests[u].id == 1 == s.sh.lastID && Last(s.sh).wire == [Initialize(1)]
       case Answered(u, _) =>
         && 0 < |s.sh.gens| && u < |s.sh.requests| && s.sh.requests[u].gen + 1 == |s.sh.gens|
         && s.sh.requests[u].id == 1 == s.sh.lastID && Last(s.sh).wire == [Initialize(1)] && Last(s.sh).greeting.Some?
       case Waiting(u) => Unread(s.sh, u)
       case Dropping(u, Return(out)) => OutcomeOk(s.sh, u, out)
       case Dropping(u, HelloOk(_)) => 0 < |s.sh.gens| && 2 <= |Last(s.sh).wire|
       case _ => true
  }

  ghost predicate Pcs(s: State) { forall t: nat :: PcOk(s, t, At(s, t)) }

  ghost predicate Returns(s: State) {
    forall i :: 0 <= i < |s.log| ==> OutcomeOk(s.sh, s.log[i].0, s.log[i].1)
  }

  /** The holder of admission is still inside the handshake of the current generation. */
  predicate Handshaking(pc: PC) {
    || pc.Greeting? || pc.HelloWait? || pc.Answered?
    || (Flight(pc).Some? && !Flight(pc).value.0.Body?)
    || (pc.Dropping? && pc.exit.HelloFailed?)
    || (AfterOf(pc).Some? && AfterOf(pc).value.Fail?)
  }

  ghost predicate Handshake(s: State) {
    && (s.sh.current.Some? && s.sh.current.value < |s.sh.gens| && |s.sh.gens[s.sh.current.value].wire| < 2 ==>
          s.admit.Some? && Handshaking(At(s, s.admit.value)))
    && (s.sh.current.Some? && s.sh.current.value < |s.sh.gens| && 2 <= |s.sh.gens[s.sh.current.value].wire| ==>
          1 <= s.sh.lastID)
  }

  ghost predicate SharedInv(sh: Shared) {
    && (sh.current.Some? ==> sh.current.value + 1 == |sh.gens|)
    && Requests(sh) && Pending(sh) && Readers(sh) && Wires(sh)
  }

  ghost predicate Inv(s: State) {
    && Tokens(s) && SharedInv(s.sh) && Live(s) && Pcs(s) && Returns(s) && Handshake(s)
  }
}
