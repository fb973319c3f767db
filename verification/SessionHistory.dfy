/**
 Turns and background compactions of internal/agent/session_history.go and agent.go over the
 lock table and the checkpoint store, under every interleaving of clients, failures and
 cancellations. The result is a refinement: the durable history of a session behaves as one
 register that turns and compactions read and replace atomically.

 Threads are never completed here; CheckpointStore.CompletedThreadLosesTurnExactly says what
 happens to those that are.
*/
module SessionHistory {
  import opened Wrappers
  import opened Messages
  import opened CheckpointStore
  import L = SessionLock

  /** tokenBudget, summaryTurns and the token estimate, which only needs to be a function of the messages. */
  datatype Config = Config(budget: int, summaryTurns: int, estimate: seq<Message> -> nat)

  /** How many newest messages a compaction keeps. */
  function Keep(cfg: Config): nat { if cfg.summaryTurns <= 0 then 20 else cfg.summaryTurns }

  /** A session in one of the (per-user or shared) stores. */
  datatype Cell = Cell(store: nat, key: string)

  /** What a client inside the lock has in hand: the snapshot it loaded, or the one it saved. */
  datatype Work =
    | Rest
    | Turn(store: nat, iteration: int, history: seq<Message>, stateless: bool)
    | Acked(store: nat, history: seq<Message>)
    | Compacting(store: nat, iteration: int, history: seq<Message>)
    | Published(store: nat, history: seq<Message>)

  /** The commits, in order. A turn records the durable history it was run on. */
  datatype Event =
    | TurnDone(cell: Cell, read: seq<Message>, wrote: seq<Message>)
    | Compacted(cell: Cell, summary: Message)

  datatype State = State(lk: L.State, stores: map<nat, Store>, work: map<nat, Work>, log: seq<Event>)

  /** Failures and cancellations are Abandon; `acked` is whether a commit was also reported as one. */
  datatype Action =
    | Lock(a: L.Action)
    | BeginTurn(c: nat, store: nat, created: bool)
    | CommitTurn(c: nat, updated: seq<Message>, acked: bool)
    | TurnTokens(c: nat)
    | BeginCompact(c: nat, store: nat)
    | PublishCompact(c: nat, summary: Message, acked: bool)
    | Stamp(c: nat, now: int)
    | Abandon(c: nat)

  // ---------------------------------------------------------------- steps

  function StoreOf(s: State, i: nat): Store { if i in s.stores then s.stores[i] else Empty() }

  function WorkOf(s: State, c: nat): Work { if c in s.work then s.work[c] else Rest }

  predicate Inside(s: State, c: nat) { L.At(s.lk, c).Inside? && L.At(s.lk, c).lock < |s.lk.locks| }

  function Key(s: State, c: nat): string
    requires Inside(s, c)
  {
    L.KeyOf(s.lk, c)
  }

  function Put(s: State, i: nat, st: Store): State { s.(stores := s.stores[i := st]) }

  function Set(s: State, c: nat, w: Work): State { s.(work := s.work[c := w]) }

  function Suffix(history: seq<Message>, n: nat): seq<Message> {
    if n <= |history| then history[|history| - n..] else history
  }

  predicate Enabled(s: State, a: Action) {
    match a
    case Lock(la) => L.Enabled(s.lk, la)
    case BeginTurn(c, _, _) => Inside(s, c) && WorkOf(s, c).Rest?
    case CommitTurn(c, updated, _) => Inside(s, c) && WorkOf(s, c).Turn? && !WorkOf(s, c).stateless && updated != []
    case TurnTokens(c) => Inside(s, c) && WorkOf(s, c).Acked?
    case BeginCompact(c, _) => Inside(s, c) && WorkOf(s, c).Rest?
    case PublishCompact(c, _, _) => Inside(s, c) && WorkOf(s, c).Compacting?
    case Stamp(c, _) => Inside(s, c) && WorkOf(s, c).Published?
    case Abandon(c) => Inside(s, c)
  }

  /** loadHistory: a session without snapshot gets its thread row, or goes on without one. */
  function TurnBegun(s: State, c: nat, i: nat, created: bool): State
    requires Inside(s, c)
  {
    match LoadLatest(StoreOf(s, i), Key(s, c))
    case Some(row) => Set(s, c, Turn(i, row.iteration, row.messages, false))
    case None =>
      if created then Set(Put(s, i, Created(StoreOf(s, i), Key(s, c))), c, Turn(i, 0, [], false))
      else Set(s, c, Turn(i, 0, [], true))
  }

  /** A commit by client c that saves what its event says. */
  function Committed(s: State, c: nat, i: nat, iteration: int, messages: seq<Message>, e: Event, w: Work): State
    requires Inside(s, c)
  {
    Set(Put(s, i, Saved(StoreOf(s, i), Key(s, c), iteration, messages)), c, w).(log := s.log + [e])
  }

  /** persistResult: the next iteration is saved in one transaction. */
  function TurnCommitted(s: State, c: nat, updated: seq<Message>, acked: bool): State
    requires Inside(s, c) && WorkOf(s, c).Turn?
  {
    var w := WorkOf(s, c);
    Committed(s, c, w.store, w.iteration + 1, updated, TurnDone(Cell(w.store, Key(s, c)), w.history, updated),
              if acked then Acked(w.store, updated) else Rest)
  }

  /** updateTokenBudget: the estimate changes, last_compacted_at is written back as it was read. */
  function TokensRefreshed(st: Store, key: string, tokens: nat): Store {
    WithTokens(st, key, tokens, CompactedAt(st, key))
  }

  /** loadCompactionSnapshot and the length check of compactSessionLocked. */
  function CompactBegun(cfg: Config, s: State, c: nat, i: nat): State
    requires Inside(s, c)
  {
    match LoadLatest(StoreOf(s, i), Key(s, c))
    case None => s
    case Some(row) =>
      if cfg.budget <= 0 then s else
      Set(Put(s, i, TokensRefreshed(StoreOf(s, i), Key(s, c), cfg.estimate(row.messages))), c,
          if 0 < cfg.budget < cfg.estimate(row.messages) && Keep(cfg) < |row.messages|
          then Compacting(i, row.iteration, row.messages) else Rest)
  }

  function Shrunk(cfg: Config, history: seq<Message>, summary: Message): seq<Message> {
    [summary] + Suffix(history, Keep(cfg))
  }

  /** publishCompaction up to the commit: the same iteration is saved again. */
  function CompactPublished(cfg: Config, s: State, c: nat, summary: Message, acked: bool): State
    requires Inside(s, c) && WorkOf(s, c).Compacting?
  {
    var w := WorkOf(s, c);
    var compacted := Shrunk(cfg, w.history, summary);
    Committed(s, c, w.store, w.iteration, compacted, Compacted(Cell(w.store, Key(s, c)), summary),
              if acked then Published(w.store, compacted) else Rest)
  }

  function Next(cfg: Config, s: State, a: Action): State
    requires Enabled(s, a)
  {
    match a
    case Lock(la) => if la.Unlock? then Set(s, la.c, Rest).(lk := L.Next(s.lk, la)) else s.(lk := L.Next(s.lk, la))
    case BeginTurn(c, i, created) => TurnBegun(s, c, i, created)
    case CommitTurn(c, updated, acked) => TurnCommitted(s, c, updated, acked)
    case TurnTokens(c) =>
      var w := WorkOf(s, c);
      if cfg.budget <= 0 then Set(s, c, Rest)
      else Set(Put(s, w.store, TokensRefreshed(StoreOf(s, w.store), Key(s, c), cfg.estimate(w.history))), c, Rest)
    case BeginCompact(c, i) => CompactBegun(cfg, s, c, i)
    case PublishCompact(c, summary, acked) => CompactPublished(cfg, s, c, summary, acked)
    case Stamp(c, now) =>
      var w := WorkOf(s, c);
      Set(Put(s, w.store, WithTokens(StoreOf(s, w.store), Key(s, c), cfg.estimate(w.history), Some(now))), c, Rest)
    case Abandon(c) => Set(s, c, Rest)
  }

  function Init(): State { State(L.Init(), map[], map[], []) }

  ghost predicate Steps(cfg: Config, s: State, actions: seq<Action>, s': State)
    decreases |actions|
  {
    if actions == [] then s == s'
    else Enabled(s, actions[0]) && Steps(cfg, Next(cfg, s, actions[0]), actions[1..], s')
  }

  ghost predicate Reachable(cfg: Config, s: State) { exists actions :: Steps(cfg, Init(), actions, s) }

  // ---------------------------------------------------------------- the register

  /** What a session amounts to: how many turns were committed and the current history. */
  datatype Register = Register(turns: int, history: seq<Message>)

  function Apply(cfg: Config, r: Register, e: Event): Register {
    match e
    case TurnDone(_, _, wrote) => Register(r.turns + 1, wrote)
    case Compacted(_, summary) => Register(r.turns, Shrunk(cfg, r.history, summary))
  }

  function Replay(cfg: Config, log: seq<Event>, cell: Cell): Register {
    if log == [] then Register(0, [])
    else
      var r := Replay(cfg, log[..|log| - 1], cell);
      if log[|log| - 1].cell == cell then Apply(cfg, r, log[|log| - 1]) else r
  }

  /** A turn runs on the register's current history; a compaction only replaces one over the
      budget and longer than what it keeps. */
  predicate LegalEvent(cfg: Config, r: Register, e: Event) {
    match e
    case TurnDone(_, read, _) => read == r.history
    case Compacted(_, _) => 0 < cfg.budget < cfg.estimate(r.history) && Keep(cfg) < |r.history|
  }

  ghost predicate Legal(cfg: Config, log: seq<Event>) {
    forall i :: 0 <= i < |log| ==> LegalEvent(cfg, Replay(cfg, log[..i], log[i].cell), log[i])
  }

  function TurnsIn(log: seq<Event>, cell: Cell): nat {
    if log == [] then 0
    else TurnsIn(log[..|log| - 1], cell) +
         if log[|log| - 1].TurnDone? && log[|log| - 1].cell == cell then 1 else 0
  }

  function LastOf(log: seq<Event>, cell: Cell): Option<Event> {
    if log == [] then None
    else if log[|log| - 1].cell == cell then Some(log[|log| - 1])
    else LastOf(log[..|log| - 1], cell)
  }

  /** LoadLatest, read as a register. */
  function Loaded(s: State, cell: Cell): Register {
    match LoadLatest(StoreOf(s, cell.store), cell.key)
    case None => Register(0, [])
    case Some(row) => Register(row.iteration, row.messages)
  }

  // ---------------------------------------------------------------- invariant

  /** No thread is completed, and a checkpoint is only ever stored for a thread that has its row. */
  ghost predicate StoreInv(st: Store) {
    && Valid(st)
    && (forall k :: k in st.threads ==> !st.threads[k].completed)
    && (forall r :: r in st.rows ==> r.thread in st.threads)
  }

  ghost predicate Stores(s: State) { forall i :: i in s.stores ==> StoreInv(s.stores[i]) }

  predicate HasThread(s: State, cell: Cell) { cell.key in StoreOf(s, cell.store).threads }

  ghost predicate WorkOk(cfg: Config, s: State, c: nat) {
    var w := WorkOf(s, c);
    w.Rest? ||
    (Inside(s, c) &&
      var cell := Cell(w.store, Key(s, c));
      match w
      case Turn(_, it, h, stateless) => Loaded(s, cell) == Register(it, h) && (!stateless ==> HasThread(s, cell))
      case Acked(_, h) => Loaded(s, cell).history == h && HasThread(s, cell)
      case Compacting(_, it, h) =>
        && Loaded(s, cell) == Register(it, h) && HasThread(s, cell)
        && LegalEvent(cfg, Loaded(s, cell), Compacted(cell, Message(System, "", [], None)))
      case Published(_, h) =>
        && Loaded(s, cell).history == h
        && LastOf(s.log, cell).Some? && LastOf(s.log, cell).value.Compacted?)
  }

  ghost predicate Refines(cfg: Config, s: State) {
    forall cell :: Loaded(s, cell) == Replay(cfg, s.log, cell)
  }

  ghost predicate Inv(cfg: Config, s: State) {
    && L.Inv(s.lk) && Stores(s) && (forall c: nat :: WorkOk(cfg, s, c))
    && Refines(cfg, s) && Legal(cfg, s.log)
  }

  // ---------------------------------------------------------------- what a step may touch

  /** A step by client c writes at most the session whose lock c holds. */
  ghost predicate Touches(s: State, s': State, c: nat, key: string) {
    && s'.lk == s.lk && Stores(s')
    && (forall d: nat :: d != c ==> WorkOf(s', d) == WorkOf(s, d))
    && (forall cell: Cell :: cell.key != key ==>
          Loaded(s', cell) == Loaded(s, cell) && LastOf(s'.log, cell) == LastOf(s.log, cell))
    && (forall cell: Cell :: HasThread(s, cell) ==> HasThread(s', cell))
  }

  lemma {:induction false} OthersStay(cfg: Config, s: State, s': State, c: nat, d: nat)
    requires L.Inv(s.lk) && Inside(s, c) && Touches(s, s', c, Key(s, c)) && d != c && WorkOk(cfg, s, d)
    ensures WorkOk(cfg, s', d)
  {
    if !WorkOf(s, d).Rest? {
      L.KeyedExclusion(s.lk, c, d);
    }
  }

  lemma {:induction false} TokensInvisible(s: State, i: nat, key: string, tokens: int, at: Option<int>)
    requires Stores(s)
    ensures var s' := Put(s, i, WithTokens(StoreOf(s, i), key, tokens, at));
            Stores(s') && forall cell :: Loaded(s', cell) == Loaded(s, cell)
  {
    assert StoreInv(StoreOf(s, i));
  }

  lemma {:induction false} CreateInvisible(s: State, i: nat, key: string)
    requires Stores(s)
    ensures var s' := Put(s, i, Created(StoreOf(s, i), key));
            Stores(s') && forall cell :: Loaded(s', cell) == Loaded(s, cell)
  {
    assert StoreInv(StoreOf(s, i));
  }

  /** A save at the loaded iteration or the next replaces what is loaded, and only that. */
  lemma {:induction false} SaveVisible(s: State, i: nat, key: string, iteration: int, messages: seq<Message>)
    requires Stores(s) && 0 <= iteration && HasThread(s, Cell(i, key))
    requires LoadLatest(StoreOf(s, i), key).Some? ==> Loaded(s, Cell(i, key)).turns <= iteration
    ensures var s' := Put(s, i, Saved(StoreOf(s, i), key, iteration, messages));
            && Stores(s') && Loaded(s', Cell(i, key)) == Register(iteration, messages)
            && forall cell :: cell != Cell(i, key) ==> Loaded(s', cell) == Loaded(s, cell)
  {
    var st := StoreOf(s, i);
    assert StoreInv(st);
    SaveThenLoad(st, key, iteration, messages, key);
    forall r | r in Saved(st, key, iteration, messages).rows ensures r.thread in st.threads {
      SavedRowsAreOld(st, key, iteration, messages, r);
    }
    var s' := Put(s, i, Saved(st, key, iteration, messages));
    forall cell | cell != Cell(i, key) ensures Loaded(s', cell) == Loaded(s, cell) {
      if cell.store == i { SaveThenLoad(st, key, iteration, messages, cell.key); }
    }
  }

  lemma {:induction false} LogStep(cfg: Config, log: seq<Event>, e: Event)
    requires Legal(cfg, log) && LegalEvent(cfg, Replay(cfg, log, e.cell), e)
    ensures Legal(cfg, log + [e])
    ensures forall cell ::
      && Replay(cfg, log + [e], cell) == (if cell == e.cell then Apply(cfg, Replay(cfg, log, cell), e)
          else Replay(cfg, log, cell))
      && LastOf(log + [e], cell) == (if cell == e.cell then Some(e) else LastOf(log, cell))
  {
    var log' := log + [e];
    assert log'[..|log'| - 1] == log;
    forall i | 0 <= i < |log'| ensures LegalEvent(cfg, Replay(cfg, log'[..i], log'[i].cell), log'[i]) {
      assert log'[..i] == log[..i];
      if i == |log| { assert log[..i] == log; }
    }
  }

  // ---------------------------------------------------------------- steps keep the invariant

  lemma {:induction false} LockKeepsWork(cfg: Config, s: State, la: L.Action, d: nat)
    requires Enabled(s, Lock(la)) && WorkOk(cfg, s, d)
    ensures WorkOk(cfg, Next(cfg, s, Lock(la)), d)
  {
    var s' := Next(cfg, s, Lock(la));
    L.Moved(s.lk, la);
    if !WorkOf(s', d).Rest? {
      LockKeepsKeys(s.lk, la, L.At(s.lk, d).lock);
      var cell := Cell(WorkOf(s, d).store, Key(s, d));
      assert Loaded(s', cell) == Loaded(s, cell);
    }
  }

  lemma {:induction false} LockKeeps(cfg: Config, s: State, la: L.Action)
    requires Inv(cfg, s) && Enabled(s, Lock(la))
    ensures Inv(cfg, Next(cfg, s, Lock(la)))
  {
    var s' := Next(cfg, s, Lock(la));
    L.InvKeeps(s.lk, la);
    forall d: nat ensures WorkOk(cfg, s', d) {
      assert WorkOk(cfg, s, d);
      LockKeepsWork(cfg, s, la, d);
    }
    assert forall cell :: Loaded(s', cell) == Loaded(s, cell);
  }

  lemma {:induction false} LockKeepsKeys(lk: L.State, la: L.Action, l: nat)
    requires L.Enabled(lk, la) && l < |lk.locks|
    ensures l < |L.Next(lk, la).locks| && L.Next(lk, la).locks[l].key == lk.locks[l].key
  {
  }

  /** Steps that commit nothing: the register is as before, and so is the log. */
  lemma {:induction false} QuietKeeps(cfg: Config, s: State, s': State, c: nat)
    requires Inv(cfg, s) && Inside(s, c) && Touches(s, s', c, Key(s, c)) && s'.log == s.log
    requires forall cell :: Loaded(s', cell) == Loaded(s, cell)
    requires WorkOk(cfg, s', c)
    ensures Inv(cfg, s')
  {
    forall d: nat ensures WorkOk(cfg, s', d) {
      if d != c { OthersStay(cfg, s, s', c, d); }
    }
  }

  /** A write that does not show through LoadLatest. */
  lemma {:induction false} InvisibleTouches(s: State, i: nat, st: Store, c: nat, w: Work)
    requires Inside(s, c) && Stores(Put(s, i, st)) && forall cell :: Loaded(Put(s, i, st), cell) == Loaded(s, cell)
    requires StoreOf(s, i).threads.Keys <= st.threads.Keys
    ensures var s' := Set(Put(s, i, st), c, w);
            Touches(s, s', c, Key(s, c)) && forall cell :: Loaded(s', cell) == Loaded(s, cell)
  {
    var s' := Set(Put(s, i, st), c, w);
    assert forall cell :: Loaded(s', cell) == Loaded(Put(s, i, st), cell);
  }

  lemma {:induction false} SetTouches(s: State, c: nat, w: Work)
    requires Inside(s, c) && Stores(s)
    ensures Touches(s, Set(s, c, w), c, Key(s, c)) && forall cell :: Loaded(Set(s, c, w), cell) == Loaded(s, cell)
  {
  }

  /** A session with a checkpoint has its thread row. */
  lemma {:induction false} LoadedHasThread(s: State, cell: Cell)
    requires Stores(s) && LoadLatest(StoreOf(s, cell.store), cell.key).Some?
    ensures HasThread(s, cell)
  {
    assert StoreInv(StoreOf(s, cell.store));
    NewestIsNewest(StoreOf(s, cell.store).rows, cell.key);
  }

  lemma {:induction false} BeginTurnKeeps(cfg: Config, s: State, c: nat, i: nat, created: bool)
    requires Inv(cfg, s) && Enabled(s, BeginTurn(c, i, created))
    ensures Inv(cfg, Next(cfg, s, BeginTurn(c, i, created)))
  {
    var s' := Next(cfg, s, BeginTurn(c, i, created));
    if LoadLatest(StoreOf(s, i), Key(s, c)).None? && created {
      CreateInvisible(s, i, Key(s, c));
      InvisibleTouches(s, i, Created(StoreOf(s, i), Key(s, c)), c, WorkOf(s', c));
    } else {
      SetTouches(s, c, WorkOf(s', c));
      if LoadLatest(StoreOf(s, i), Key(s, c)).Some? { LoadedHasThread(s, Cell(i, Key(s, c))); }
    }
    QuietKeeps(cfg, s, s', c);
  }

  lemma {:induction false} TokensKeep(cfg: Config, s: State, c: nat, i: nat, tokens: int, at: Option<int>)
    requires Inv(cfg, s) && Inside(s, c)
    ensures Inv(cfg, Set(Put(s, i, WithTokens(StoreOf(s, i), Key(s, c), tokens, at)), c, Rest))
  {
    TokensInvisible(s, i, Key(s, c), tokens, at);
    InvisibleTouches(s, i, WithTokens(StoreOf(s, i), Key(s, c), tokens, at), c, Rest);
    QuietKeeps(cfg, s, Set(Put(s, i, WithTokens(StoreOf(s, i), Key(s, c), tokens, at)), c, Rest), c);
  }

  lemma {:induction false} BeginCompactKeeps(cfg: Config, s: State, c: nat, i: nat)
    requires Inv(cfg, s) && Enabled(s, BeginCompact(c, i))
    ensures Inv(cfg, Next(cfg, s, BeginCompact(c, i)))
  {
    var key, st := Key(s, c), StoreOf(s, i);
    if LoadLatest(st, key).Some? && 0 < cfg.budget {
      var row := LoadLatest(st, key).value;
      var st' := TokensRefreshed(st, key, cfg.estimate(row.messages));
      TokensInvisible(s, i, key, cfg.estimate(row.messages), CompactedAt(st, key));
      LoadedHasThread(s, Cell(i, key));
      var w := if 0 < cfg.budget < cfg.estimate(row.messages) && Keep(cfg) < |row.messages|
               then Compacting(i, row.iteration, row.messages) else Rest;
      InvisibleTouches(s, i, st', c, w);
      QuietKeeps(cfg, s, Set(Put(s, i, st'), c, w), c);
    }
  }

  lemma {:induction false} AbandonKeeps(cfg: Config, s: State, c: nat)
    requires Inv(cfg, s) && Inside(s, c)
    ensures Inv(cfg, Set(s, c, Rest))
  {
    SetTouches(s, c, Rest);
    QuietKeeps(cfg, s, Set(s, c, Rest), c);
  }

  /** What a commit does to the stores. */
  lemma {:induction false} CommitLoads(s: State, c: nat, i: nat, iteration: int, messages: seq<Message>, e: Event,
      w: Work)
    requires Stores(s) && Inside(s, c) && 0 <= iteration && HasThread(s, Cell(i, Key(s, c)))
    requires LoadLatest(StoreOf(s, i), Key(s, c)).Some? ==> Loaded(s, Cell(i, Key(s, c))).turns <= iteration
    ensures var s' := Committed(s, c, i, iteration, messages, e, w);
            && Stores(s') && (forall cell :: HasThread(s, cell) ==> HasThread(s', cell))
            && forall cell :: Loaded(s', cell) ==
                 if cell == Cell(i, Key(s, c)) then Register(iteration, messages) else Loaded(s, cell)
  {
    SaveVisible(s, i, Key(s, c), iteration, messages);
    var s' := Committed(s, c, i, iteration, messages, e, w);
    var put := Put(s, i, Saved(StoreOf(s, i), Key(s, c), iteration, messages));
    assert s'.stores == put.stores;
    assert forall cell :: Loaded(s', cell) == Loaded(put, cell);
  }

  lemma {:induction false} CommitRefines(cfg: Config, s: State, c: nat, i: nat, iteration: int,
                                         messages: seq<Message>, e: Event, w: Work)
    requires Stores(s) && Refines(cfg, s) && Legal(cfg, s.log) && Inside(s, c) && e.cell == Cell(i, Key(s, c))
    requires HasThread(s, e.cell)
    requires LegalEvent(cfg, Loaded(s, e.cell), e) && Apply(cfg, Loaded(s, e.cell), e) == Register(iteration, messages)
    ensures var s' := Committed(s, c, i, iteration, messages, e, w);
            && Touches(s, s', c, Key(s, c)) && Refines(cfg, s') && Legal(cfg, s'.log)
            && Loaded(s', e.cell) == Register(iteration, messages) && LastOf(s'.log, e.cell) == Some(e)
  {
    TurnsNonNegative(cfg, s.log, e.cell);
    CommitLoads(s, c, i, iteration, messages, e, w);
    LogStep(cfg, s.log, e);
  }

  lemma {:induction false} CommitKeeps(cfg: Config, s: State, c: nat, i: nat, iteration: int, messages: seq<Message>,
                                       e: Event, w: Work, s': State)
    requires Inv(cfg, s) && Inside(s, c) && e.cell == Cell(i, Key(s, c)) && HasThread(s, e.cell)
    requires LegalEvent(cfg, Loaded(s, e.cell), e) && Apply(cfg, Loaded(s, e.cell), e) == Register(iteration, messages)
    requires w.Rest? || (w == Acked(i, messages)) || (w == Published(i, messages) && e.Compacted?)
    requires s' == Committed(s, c, i, iteration, messages, e, w)
    ensures Inv(cfg, s')
  {
    CommitRefines(cfg, s, c, i, iteration, messages, e, w);
    CommitKeepsWork(cfg, s, s', c, e.cell, messages, w);
  }

  lemma {:induction false} CommitKeepsWork(cfg: Config, s: State, s': State, c: nat, cell: Cell,
      messages: seq<Message>, w: Work)
    requires L.Inv(s.lk) && Inside(s, c) && Touches(s, s', c, Key(s, c)) && (forall d: nat :: WorkOk(cfg, s, d))
    requires HasThread(s', cell) && cell.key == Key(s, c) && Loaded(s', cell).history == messages
    requires LastOf(s'.log, cell).Some? && WorkOf(s', c) == w
    requires w.Rest? || w == Acked(cell.store, messages) || (w == Published(cell.store, messages)
        && LastOf(s'.log, cell).value.Compacted?)
    ensures forall d: nat :: WorkOk(cfg, s', d)
  {
    forall d: nat ensures WorkOk(cfg, s', d) {
      if d != c { OthersStay(cfg, s, s', c, d); }
    }
  }

  lemma {:induction false} TurnsNonNegative(cfg: Config, log: seq<Event>, cell: Cell)
    ensures Replay(cfg, log, cell).turns == TurnsIn(log, cell)
  {
    if log != [] { TurnsNonNegative(cfg, log[..|log| - 1], cell); }
  }

  /** A turn in progress was begun on the current history of a session that has its thread row. */
  lemma {:induction false} TurnIsLegal(cfg: Config, s: State, c: nat, updated: seq<Message>) returns (e: Event)
    requires Inside(s, c) && WorkOk(cfg, s, c) && WorkOf(s, c).Turn? && !WorkOf(s, c).stateless
    ensures e == TurnDone(Cell(WorkOf(s, c).store, Key(s, c)), WorkOf(s, c).history, updated)
    ensures HasThread(s, e.cell) && LegalEvent(cfg, Loaded(s, e.cell), e)
    ensures Apply(cfg, Loaded(s, e.cell), e) == Register(WorkOf(s, c).iteration + 1, updated)
  {
    e := TurnDone(Cell(WorkOf(s, c).store, Key(s, c)), WorkOf(s, c).history, updated);
  }

  lemma {:induction false} TurnCommits(s: State, c: nat, updated: seq<Message>, acked: bool, e: Event, w': Work)
    requires Inside(s, c) && WorkOf(s, c).Turn?
    requires e == TurnDone(Cell(WorkOf(s, c).store, Key(s, c)), WorkOf(s, c).history, updated)
    requires w' == if acked then Acked(WorkOf(s, c).store, updated) else Rest
    ensures TurnCommitted(s, c, updated, acked)
         == Committed(s, c, WorkOf(s, c).store, WorkOf(s, c).iteration + 1, updated, e, w')
  {
  }

  lemma {:induction false} CommitTurnKeeps(cfg: Config, s: State, c: nat, updated: seq<Message>, acked: bool, s': State)
    requires Inv(cfg, s) && Enabled(s, CommitTurn(c, updated, acked)) && s' == TurnCommitted(s, c, updated, acked)
    ensures Inv(cfg, s')
  {
    assert WorkOk(cfg, s, c);
    var e := TurnIsLegal(cfg, s, c, updated);
    var w' := if acked then Acked(WorkOf(s, c).store, updated) else Rest;
    TurnCommits(s, c, updated, acked, e, w');
    CommitKeeps(cfg, s, c, WorkOf(s, c).store, WorkOf(s, c).iteration + 1, updated, e, w', s');
  }

  lemma {:induction false} PublishKeeps(cfg: Config, s: State, c: nat, summary: Message, acked: bool, s': State)
    requires Inv(cfg, s) && Enabled(s, PublishCompact(c, summary, acked))
    requires s' == CompactPublished(cfg, s, c, summary, acked)
    ensures Inv(cfg, s')
  {
    assert WorkOk(cfg, s, c);
    var w := WorkOf(s, c);
    var compacted := Shrunk(cfg, w.history, summary);
    CommitKeeps(cfg, s, c, w.store, w.iteration, compacted, Compacted(Cell(w.store, Key(s, c)), summary),
                if acked then Published(w.store, compacted) else Rest, s');
  }

  lemma {:induction false} InvKeeps(cfg: Config, s: State, a: Action)
    requires Inv(cfg, s) && Enabled(s, a)
    ensures Inv(cfg, Next(cfg, s, a))
  {
    match a
    case Lock(la) => LockKeeps(cfg, s, la);
    case BeginTurn(c, i, created) => BeginTurnKeeps(cfg, s, c, i, created);
    case CommitTurn(c, updated, acked) => CommitTurnKeeps(cfg, s, c, updated, acked, Next(cfg, s, a));
    case TurnTokens(c) =>
      var w := WorkOf(s, c);
      if cfg.budget <= 0 { AbandonKeeps(cfg, s, c); }
      else { TokensKeep(cfg, s, c, w.store, cfg.estimate(w.history), CompactedAt(StoreOf(s, w.store), Key(s, c))); }
    case BeginCompact(c, i) => BeginCompactKeeps(cfg, s, c, i);
    case PublishCompact(c, summary, acked) => PublishKeeps(cfg, s, c, summary, acked, Next(cfg, s, a));
    case Stamp(c, now) => TokensKeep(cfg, s, c, WorkOf(s, c).store, cfg.estimate(WorkOf(s, c).history), Some(now));
    case Abandon(c) => AbandonKeeps(cfg, s, c);
  }

  lemma {:induction false} InvAlong(cfg: Config, s: State, actions: seq<Action>, s': State)
    requires Inv(cfg, s) && Steps(cfg, s, actions, s')
    ensures Inv(cfg, s')
    decreases |actions|
  {
    if actions != [] {
      InvKeeps(cfg, s, actions[0]);
      InvAlong(cfg, Next(cfg, s, actions[0]), actions[1..], s');
    }
  }

  lemma {:induction false} ReachableInv(cfg: Config, s: State)
    requires Reachable(cfg, s)
    ensures Inv(cfg, s)
  {
    var actions :| Steps(cfg, Init(), actions, s);
    InvAlong(cfg, Init(), actions, s);
  }

  // ---------------------------------------------------------------- whole runs

  /** LoadLatest returns the last committed snapshot, its iteration is the number of committed turns,
      and every commit was made on the history that was current at that point. */
  lemma {:induction false} LatestIsTheRegister(cfg: Config, s: State, cell: Cell)
    requires Reachable(cfg, s)
    ensures Loaded(s, cell) == Replay(cfg, s.log, cell)
    ensures Loaded(s, cell).turns == TurnsIn(s.log, cell)
    ensures Legal(cfg, s.log)
  {
    ReachableInv(cfg, s);
    TurnsNonNegative(cfg, s.log, cell);
  }

  lemma {:induction false} ReplayOneMore(cfg: Config, log: seq<Event>, i: nat)
    requires i < |log|
    ensures Replay(cfg, log[..i + 1], log[i].cell) == Apply(cfg, Replay(cfg, log[..i], log[i].cell), log[i])
  {
    assert log[..i + 1][..i] == log[..i];
  }

  /** After a compaction the history is one summary followed by the newest messages unchanged, it
      replaced a history over the budget, and no committed turn was dropped from the count. */
  lemma {:induction false} CompactionKeepsTheNewest(cfg: Config, s: State, i: nat)
    requires Reachable(cfg, s) && i < |s.log| && s.log[i].Compacted?
    ensures var cell := s.log[i].cell;
            var before, after := Replay(cfg, s.log[..i], cell), Replay(cfg, s.log[..i + 1], cell);
            && 0 < cfg.budget < cfg.estimate(before.history)
            && Keep(cfg) < |before.history|
            && after.history == [s.log[i].summary] + before.history[|before.history| - Keep(cfg)..]
            && |after.history| == 1 + (if cfg.summaryTurns > 0 then cfg.summaryTurns else 20)
            && after.turns == before.turns
  {
    ReachableInv(cfg, s);
    ReplayOneMore(cfg, s.log, i);
    assert LegalEvent(cfg, Replay(cfg, s.log[..i], s.log[i].cell), s.log[i]);
  }

  function StampOf(s: State, cell: Cell): Option<int> { CompactedAt(StoreOf(s, cell.store), cell.key) }

  lemma {:induction false} OnlyStampStamps(cfg: Config, s: State, a: Action, cell: Cell)
    requires Enabled(s, a) && StampOf(Next(cfg, s, a), cell).Some? && StampOf(Next(cfg, s, a), cell) != StampOf(s, cell)
    ensures a.Stamp? && cell == Cell(WorkOf(s, a.c).store, Key(s, a.c)) && StampOf(Next(cfg, s, a), cell) == Some(a.now)
    ensures Tokens(StoreOf(Next(cfg, s, a), cell.store), cell.key) == cfg.estimate(WorkOf(s, a.c).history)
  {
  }

  /** A new last_compacted_at appears only once the compacted snapshot is the session's latest,
      and with the token estimate of that snapshot. */
  lemma {:induction false} StampOnlyAfterCommit(cfg: Config, s: State, a: Action, cell: Cell)
    requires Reachable(cfg, s) && Enabled(s, a)
    requires StampOf(Next(cfg, s, a), cell).Some? && StampOf(Next(cfg, s, a), cell) != StampOf(s, cell)
    ensures a.Stamp? && StampOf(Next(cfg, s, a), cell) == Some(a.now)
    ensures LastOf(s.log, cell).Some? && LastOf(s.log, cell).value.Compacted?
    ensures var s' := Next(cfg, s, a);
            Tokens(StoreOf(s', cell.store), cell.key) == cfg.estimate(Loaded(s', cell).history)
  {
    OnlyStampStamps(cfg, s, a, cell);
    ReachableInv(cfg, s);
    assert WorkOk(cfg, s, a.c);
    var w := WorkOf(s, a.c);
    TokensInvisible(s, w.store, Key(s, a.c), cfg.estimate(w.history), Some(a.now));
    InvisibleTouches(s, w.store, WithTokens(StoreOf(s, w.store), Key(s, a.c), cfg.estimate(w.history), Some(a.now)),
        a.c, Rest);
  }

  /** After an acknowledged turn the token estimate becomes that of the session's latest history, and the
      compaction stamp is left as it was. */
  lemma {:induction false} TokensFollowTheTurn(cfg: Config, s: State, c: nat)
    requires Reachable(cfg, s) && Enabled(s, TurnTokens(c)) && 0 < cfg.budget
    ensures var s', cell := Next(cfg, s, TurnTokens(c)), Cell(WorkOf(s, c).store, Key(s, c));
            && Tokens(StoreOf(s', cell.store), cell.key) == cfg.estimate(Loaded(s', cell).history)
            && Loaded(s', cell) == Loaded(s, cell) && StampOf(s', cell) == StampOf(s, cell)
  {
    ReachableInv(cfg, s);
    assert WorkOk(cfg, s, c);
    var w := WorkOf(s, c);
    var at := CompactedAt(StoreOf(s, w.store), Key(s, c));
    TokensInvisible(s, w.store, Key(s, c), cfg.estimate(w.history), at);
    InvisibleTouches(s, w.store, WithTokens(StoreOf(s, w.store), Key(s, c), cfg.estimate(w.history), at), c, Rest);
  }

  /** Two clients are never in the middle of the same session. */
  lemma {:induction false} OneWorkerPerSession(cfg: Config, s: State, c: nat, d: nat)
    requires Reachable(cfg, s) && !WorkOf(s, c).Rest? && !WorkOf(s, d).Rest? && c != d
    ensures Inside(s, c) && Inside(s, d) && Key(s, c) != Key(s, d)
  {
    ReachableInv(cfg, s);
    assert WorkOk(cfg, s, c) && WorkOk(cfg, s, d);
    L.KeyedExclusion(s.lk, c, d);
  }
}
