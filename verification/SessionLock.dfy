/**
 The reference-counted table of session locks in internal/agent/lock_metrics.go, under any
 interleaving of clients that may give up waiting (cancellation or deadlock timeout).
 A lock object is a position in `locks`; its channel of capacity 1 is the flag `token`.
*/
module SessionLock {
  datatype Lock = Lock(key: string, token: bool, refs: int)

  /** Queued is inside Lock(), Inside holds the token, Leaving still has to call release. */
  datatype Client = Away | Queued(lock: nat) | Inside(lock: nat) | Leaving(lock: nat)

  datatype State = State(table: map<string, nat>, locks: seq<Lock>, clients: map<nat, Client>)

  datatype Action =
    | Acquire(c: nat, key: string)
    | Enter(c: nat)
    | GiveUp(c: nat)
    | Unlock(c: nat)
    | Release(c: nat)

  // ---------------------------------------------------------------- the table

  /** acquireLock: the lock object for key and the table with one more reference to it. */
  function Acquired(table: map<string, nat>, locks: seq<Lock>, key: string): (map<string, nat>, seq<Lock>, nat) {
    if key in table && table[key] < |locks| then
      (table, locks[table[key] := locks[table[key]].(refs := locks[table[key]].refs + 1)], table[key])
    else
      (table[key := |locks|], locks + [Lock(key, true, 1)], |locks|)
  }

  /** release: one reference less, and the entry goes with the last one. */
  function Released(table: map<string, nat>, locks: seq<Lock>, l: nat): (map<string, nat>, seq<Lock>)
    requires l < |locks|
  {
    (if locks[l].refs - 1 <= 0 then table - {locks[l].key} else table,
     locks[l := locks[l].(refs := locks[l].refs - 1)])
  }

  function WithToken(locks: seq<Lock>, l: nat, token: bool): seq<Lock>
    requires l < |locks|
  {
    locks[l := locks[l].(token := token)]
  }

  // ---------------------------------------------------------------- steps

  function At(s: State, c: nat): Client { if c in s.clients then s.clients[c] else Away }

  function Goto(s: State, c: nat, at: Client): State { s.(clients := s.clients[c := at]) }

  predicate Enabled(s: State, a: Action) {
    match a
    case Acquire(c, _) => At(s, c).Away?
    case Enter(c) => At(s, c).Queued? && At(s, c).lock < |s.locks| && s.locks[At(s, c).lock].token
    case GiveUp(c) => At(s, c).Queued?
    case Unlock(c) => At(s, c).Inside? && At(s, c).lock < |s.locks| && !s.locks[At(s, c).lock].token
    case Release(c) => At(s, c).Leaving? && At(s, c).lock < |s.locks|
  }

  function Next(s: State, a: Action): State
    requires Enabled(s, a)
  {
    match a
    case Acquire(c, key) =>
      var (table, locks, l) := Acquired(s.table, s.locks, key);
      Goto(s.(table := table, locks := locks), c, Queued(l))
    case Enter(c) => Goto(s.(locks := WithToken(s.locks, At(s, c).lock, false)), c, Inside(At(s, c).lock))
    case GiveUp(c) => Goto(s, c, Leaving(At(s, c).lock))
    case Unlock(c) => Goto(s.(locks := WithToken(s.locks, At(s, c).lock, true)), c, Leaving(At(s, c).lock))
    case Release(c) =>
      var (table, locks) := Released(s.table, s.locks, At(s, c).lock);
      Goto(s.(table := table, locks := locks), c, Away)
  }

  function Init(): State { State(map[], [], map[]) }

  ghost predicate Steps(s: State, actions: seq<Action>, s': State)
    decreases |actions|
  {
    if actions == [] then s == s'
    else Enabled(s, actions[0]) && Steps(Next(s, actions[0]), actions[1..], s')
  }

  ghost predicate Reachable(s: State) { exists actions :: Steps(Init(), actions, s) }

  // ---------------------------------------------------------------- invariant

  predicate Uses(at: Client, l: nat) { !at.Away? && at.lock == l }

  function Users(s: State, l: nat): set<nat> { set c | c in s.clients && Uses(s.clients[c], l) }

  /** Clients only hold lock objects that the table still lists under their key. */
  ghost predicate Listed(s: State) {
    forall c: nat :: !At(s, c).Away? ==>
      && At(s, c).lock < |s.locks|
      && s.locks[At(s, c).lock].key in s.table
      && s.table[s.locks[At(s, c).lock].key] == At(s, c).lock
  }

  ghost predicate Entries(s: State) {
    forall key :: key in s.table ==>
      s.table[key] < |s.locks| && s.locks[s.table[key]].key == key && 0 < s.locks[s.table[key]].refs
  }

  ghost predicate Counted(s: State) {
    forall l :: 0 <= l < |s.locks| ==> s.locks[l].refs == |Users(s, l)|
  }

  /** The token is in the channel exactly when nobody is inside, and one client at most is. */
  ghost predicate Exclusive(s: State) {
    && (forall c: nat :: At(s, c).Inside? && At(s, c).lock < |s.locks| ==> !s.locks[At(s, c).lock].token)
    && (forall c: nat, d: nat :: At(s, c).Inside? && At(s, d).Inside? && At(s, c).lock == At(s, d).lock ==> c == d)
    && (forall l :: 0 <= l < |s.locks| && !s.locks[l].token ==> exists c: nat :: At(s, c) == Inside(l))
  }

  ghost predicate Inv(s: State) { Listed(s) && Entries(s) && Counted(s) && Exclusive(s) }

  lemma {:induction false} UsersMove(s: State, c: nat, at: Client, l: nat)
    ensures Users(Goto(s, c, at), l) == if Uses(at, l) then Users(s, l) + {c} else Users(s, l) - {c}
    ensures c in Users(s, l) <==> Uses(At(s, c), l)
  {
  }

  lemma {:induction false} Moved(s: State, a: Action)
    requires Enabled(s, a)
    ensures forall d: nat :: At(Next(s, a), d) == if d == a.c then At(Next(s, a), a.c) else At(s, d)
  {
  }

  lemma {:induction false} NewLockUnused(s: State, l: nat)
    requires Listed(s) && |s.locks| <= l
    ensures Users(s, l) == {}
  {
    assert forall c :: c in Users(s, l) ==> Uses(At(s, c), l);
  }

  lemma {:induction false} AcquireRefs(s: State, c: nat, key: string, l: nat)
    requires Listed(s) && Entries(s) && Counted(s) && Enabled(s, Acquire(c, key))
        && l < |Next(s, Acquire(c, key)).locks|
    ensures Next(s, Acquire(c, key)).locks[l].refs == |Users(Next(s, Acquire(c, key)), l)|
  {
    var s' := Next(s, Acquire(c, key));
    UsersMove(s, c, At(s', c), l);
    assert Users(s', l) == Users(Goto(s, c, At(s', c)), l);
    if l == |s.locks| {
      NewLockUnused(s, l);
      assert Users(s', l) == {c};
    }
  }

  lemma {:induction false} ReleaseRefs(s: State, c: nat, l: nat)
    requires Counted(s) && Enabled(s, Release(c)) && l < |s.locks|
    ensures Next(s, Release(c)).locks[l].refs == |Users(Next(s, Release(c)), l)|
  {
    var s' := Next(s, Release(c));
    UsersMove(s, c, Away, l);
    assert Users(s', l) == Users(Goto(s, c, Away), l);
  }

  /** The other steps move a client within its lock object. */
  lemma {:induction false} OtherRefs(s: State, a: Action, l: nat)
    requires Counted(s) && Enabled(s, a) && !a.Acquire? && !a.Release? && l < |s.locks|
    ensures Next(s, a).locks[l].refs == |Users(Next(s, a), l)|
  {
    var s' := Next(s, a);
    assert !At(s', a.c).Away? && At(s', a.c).lock == At(s, a.c).lock;
    UsersMove(s, a.c, At(s', a.c), l);
    assert Users(s', l) == Users(Goto(s, a.c, At(s', a.c)), l) == Users(s, l);
  }

  lemma {:induction false} RefsKeep(s: State, a: Action, l: nat)
    requires Listed(s) && Entries(s) && Counted(s) && Enabled(s, a) && l < |Next(s, a).locks|
    ensures Next(s, a).locks[l].refs == |Users(Next(s, a), l)|
  {
    if a.Acquire? {
      AcquireRefs(s, a.c, a.key, l);
    } else if a.Release? {
      ReleaseRefs(s, a.c, l);
    } else {
      OtherRefs(s, a, l);
    }
  }

  lemma {:induction false} CountedKeeps(s: State, a: Action)
    requires Listed(s) && Entries(s) && Counted(s) && Enabled(s, a)
    ensures Counted(Next(s, a))
  {
    forall l | 0 <= l < |Next(s, a).locks| ensures Next(s, a).locks[l].refs == |Users(Next(s, a), l)| {
      RefsKeep(s, a, l);
    }
  }

  lemma {:induction false} ReleaseKeepsListed(s: State, c: nat)
    requires Listed(s) && Entries(s) && Enabled(s, Release(c)) && Counted(Next(s, Release(c)))
    ensures Listed(Next(s, Release(c))) && Entries(Next(s, Release(c)))
  {
    var s', l := Next(s, Release(c)), At(s, c).lock;
    Moved(s, Release(c));
    forall d: nat | !At(s', d).Away? && At(s', d).lock == l ensures l < |s'.locks| && 0 < s'.locks[l].refs {
      assert d in Users(s', l);
    }
  }

  lemma {:induction false} ListedKeeps(s: State, a: Action)
    requires Listed(s) && Entries(s) && Enabled(s, a) && Counted(Next(s, a))
    ensures Listed(Next(s, a)) && Entries(Next(s, a))
  {
    if a.Release? { ReleaseKeepsListed(s, a.c); } else { Moved(s, a); }
  }

  lemma {:induction false} ExclusiveKeeps(s: State, a: Action)
    requires Listed(s) && Entries(s) && Exclusive(s) && Enabled(s, a)
    ensures Exclusive(Next(s, a))
  {
    var s' := Next(s, a);
    Moved(s, a);
    forall k | 0 <= k < |s'.locks| && !s'.locks[k].token ensures exists d: nat :: At(s', d) == Inside(k) {
      if a.Enter? && At(s, a.c).lock == k {
        assert At(s', a.c) == Inside(k);
      } else {
        var d: nat :| At(s, d) == Inside(k);
        assert At(s', d) == Inside(k);
      }
    }
  }

  lemma {:induction false} InvKeeps(s: State, a: Action)
    requires Inv(s) && Enabled(s, a)
    ensures Inv(Next(s, a))
  {
    CountedKeeps(s, a);
    ListedKeeps(s, a);
    ExclusiveKeeps(s, a);
  }

  lemma {:induction false} InvAlong(s: State, actions: seq<Action>, s': State)
    requires Inv(s) && Steps(s, actions, s')
    ensures Inv(s')
    decreases |actions|
  {
    if actions != [] {
      InvKeeps(s, actions[0]);
      InvAlong(Next(s, actions[0]), actions[1..], s');
    }
  }

  lemma {:induction false} ReachableInv(s: State)
    requires Reachable(s)
    ensures Inv(s)
  {
    var actions :| Steps(Init(), actions, s);
    InvAlong(Init(), actions, s);
  }

  // ---------------------------------------------------------------- whole runs

  /** The session a client is working for. */
  function KeyOf(s: State, c: nat): string
    requires !At(s, c).Away? && At(s, c).lock < |s.locks|
  {
    s.locks[At(s, c).lock].key
  }

  lemma {:induction false} KeyedExclusion(s: State, c: nat, d: nat)
    requires Inv(s) && At(s, c).Inside? && At(s, d).Inside? && c != d
    ensures KeyOf(s, c) != KeyOf(s, d)
  {
  }

  /** At most one client per session key is inside, and all clients of a key share one lock object. */
  lemma {:induction false} OneHolderPerKey(s: State, c: nat, d: nat)
    requires Reachable(s) && !At(s, c).Away? && !At(s, d).Away?
    ensures At(s, c).lock < |s.locks| && At(s, d).lock < |s.locks|
    ensures KeyOf(s, c) == KeyOf(s, d) ==> At(s, c).lock == At(s, d).lock
    ensures KeyOf(s, c) == KeyOf(s, d) && At(s, c).Inside? && At(s, d).Inside? ==> c == d
  {
    ReachableInv(s);
  }

  lemma {:induction false} Occupied(users: set<nat>)
    ensures users == {} || exists c :: c in users
  {
    if forall c :: c !in users { assert users == {}; }
  }

  /** The entry of a key is there exactly as long as some client refers to a lock of that key. */
  lemma {:induction false} EntryExactlyWhileUsed(s: State, key: string)
    requires Reachable(s)
    ensures key in s.table <==>
            exists c: nat :: !At(s, c).Away? && At(s, c).lock < |s.locks| && KeyOf(s, c) == key
  {
    ReachableInv(s);
    if key in s.table {
      Occupied(Users(s, s.table[key]));
      var c :| c in Users(s, s.table[key]);
      assert KeyOf(s, c) == key;
    }
  }

  /** Tokens in the channel plus clients inside is always one, so Unlock never blocks. */
  lemma {:induction false} UnlockNeverBlocks(s: State, l: nat)
    requires Reachable(s) && l < |s.locks|
    ensures (if s.locks[l].token then 1 else 0) + |set c | c in s.clients && s.clients[c] == Inside(l)| == 1
    ensures forall c: nat :: At(s, c) == Inside(l) ==> Enabled(s, Unlock(c))
  {
    ReachableInv(s);
    var inside := set c | c in s.clients && s.clients[c] == Inside(l);
    if s.locks[l].token {
      assert forall c | c in inside :: At(s, c) == Inside(l);
      assert inside == {};
    } else {
      var c: nat :| At(s, c) == Inside(l);
      assert inside == {c} by {
        forall d | d in inside ensures d == c { assert At(s, d) == Inside(l); }
      }
    }
  }

  function Rank(at: Client): nat {
    match at
    case Away => 0
    case Leaving(_) => 1
    case Inside(_) => 2
    case Queued(_) => 3
  }

  /** Every step of a client after acquireLock brings it closer to leaving, and over every run it always has one. */
  lemma {:induction false} ClientsLeave(s: State, c: nat)
    requires Reachable(s) && !At(s, c).Away?
    ensures forall a :: Enabled(s, a) && a.c == c ==> Rank(At(Next(s, a), c)) < Rank(At(s, c))
    ensures exists a :: Enabled(s, a) && a.c == c
  {
    ReachableInv(s);
    match At(s, c)
    case Queued(_) => assert Enabled(s, GiveUp(c));
    case Inside(_) => assert Enabled(s, Unlock(c));
    case Leaving(_) => assert Enabled(s, Release(c));
  }

  /** A client alone on its key takes the token, gives it back, and leaves the table as it found it. */
  lemma {:induction false} UncontendedTurn(s: State, c: nat, key: string) returns (inside: State, s': State)
    requires At(s, c).Away? && key !in s.table
    ensures Enabled(s, Acquire(c, key)) && Enabled(Next(s, Acquire(c, key)), Enter(c))
    ensures inside == Next(Next(s, Acquire(c, key)), Enter(c)) && At(inside, c) == Inside(|s.locks|)
    ensures key in inside.table && inside.locks[|s.locks|] == Lock(key, false, 1)
    ensures Enabled(inside, Unlock(c)) && Enabled(Next(inside, Unlock(c)), Release(c))
    ensures s' == Next(Next(inside, Unlock(c)), Release(c)) && At(s', c).Away? && s'.table == s.table
  {
    inside := Next(Next(s, Acquire(c, key)), Enter(c));
    s' := Next(Next(inside, Unlock(c)), Release(c));
    assert s.table[key := |s.locks|] - {key} == s.table;
  }

  // ---------------------------------------------------------------- the object

  datatype Locking = Locked | GaveUp | Waits

  /** A select with both cases ready takes either. */
  function Select(token: bool, done: bool, first: bool): Locking {
    if token && !(done && first) then Locked else if done then GaveUp else Waits
  }

  /** Every outcome of the select is a step of the protocol, or none while it waits, and every step is an outcome:
      a client enters exactly by Locked and leaves exactly by GaveUp, which needs no missing token. */
  lemma {:induction false} SelectIsAStep(s: State, c: nat, done: bool, first: bool)
    requires At(s, c).Queued? && At(s, c).lock < |s.locks|
    ensures var l := At(s, c).lock; var r := Select(s.locks[l].token, done, first);
            && (r.Locked? ==>
                  && Enabled(s, Enter(c)) && At(Next(s, Enter(c)), c) == Inside(l)
                  && Next(s, Enter(c)).locks == WithToken(s.locks, l, false))
            && (r.GaveUp? ==>
                  && Enabled(s, GiveUp(c)) && At(Next(s, GiveUp(c)), c) == Leaving(l)
                  && Next(s, GiveUp(c)).locks == s.locks)
    ensures Enabled(s, Enter(c)) ==> Select(s.locks[At(s, c).lock].token, done, false) == Locked
    ensures Select(s.locks[At(s, c).lock].token, true, true) == GaveUp
    ensures Select(s.locks[At(s, c).lock].token, done, first) == Waits <==> !s.locks[At(s, c).lock].token && !done
    ensures Select(s.locks[At(s, c).lock].token, done, first) == GaveUp ==> done
  {
  }

  /** allLocks together with the lock objects made so far; each method is one section under allLocksMu
      or one channel operation. */
  class LockTable {
    var allLocks: map<string, nat>
    var locks: seq<Lock>

    ghost predicate Valid()
      reads this
    {
      forall key :: key in allLocks ==> allLocks[key] < |locks|
    }

    constructor ()
      ensures Valid() && allLocks == map[] && locks == []
    {
      allLocks, locks := map[], [];
    }

    method AcquireLock(key: string) returns (l: nat)
      requires Valid()
      modifies this
      ensures Valid() && l < |locks| && (allLocks, locks, l) == Acquired(old(allLocks), old(locks), key)
    {
      if key !in allLocks {
        allLocks := allLocks[key := |locks|];
        locks := locks + [Lock(key, true, 0)];
      }
      l := allLocks[key];
      locks := locks[l := locks[l].(refs := locks[l].refs + 1)];
      assert key !in old(allLocks) ==> locks == old(locks) + [Lock(key, true, 1)];
    }

    method Release(l: nat)
      requires Valid() && l < |locks|
      modifies this
      ensures Valid() && (allLocks, locks) == Released(old(allLocks), old(locks), l)
    {
      locks := locks[l := locks[l].(refs := locks[l].refs - 1)];
      if locks[l].refs <= 0 {
        allLocks := allLocks - {locks[l].key};
      }
    }

    /** Lock's select: `done` is whether the context or the timer has fired, and `first` how the select chooses
        when the token is there as well. */
    method AwaitLock(l: nat, done: bool, first: bool) returns (r: Locking)
      requires l < |locks|
      modifies this`locks
      ensures r == Select(old(locks)[l].token, done, first)
      ensures locks == if r.Locked? then WithToken(old(locks), l, false) else old(locks)
    {
      if locks[l].token && !(done && first) {
        locks := locks[l := locks[l].(token := false)];
        return Locked;
      }
      r := if done then GaveUp else Waits;
    }

    /** Unlock's channel send; the caller has taken the token out. */
    method Unlock(l: nat)
      requires l < |locks| && !locks[l].token
      modifies this`locks
      ensures locks == WithToken(old(locks), l, true)
    {
      locks := locks[l := locks[l].(token := true)];
    }
  }
}
