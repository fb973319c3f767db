/**
 The checkpoint table of internal/context/manager.go: an append-only id, one row per saved
 snapshot, pruned to the newest ten rows of a thread inside the transaction that inserts.
*/
module CheckpointStore {
  import opened Wrappers
  import opened Messages

  const MAX_CHECKPOINTS_PER_THREAD: nat := 10

  datatype Row = Row(id: nat, thread: string, iteration: int, messages: seq<Message>)

  /** The row of the threads table. */
  datatype Thread = Thread(completed: bool, tokens: int, compactedAt: Option<int>)

  datatype Store = Store(rows: seq<Row>, nextID: nat, threads: map<string, Thread>)

  function Empty(): Store { Store([], 1, map[]) }

  /** ORDER BY iteration DESC, checkpoint_id DESC puts a before b. */
  predicate Newer(a: Row, b: Row) { a.iteration > b.iteration || (a.iteration == b.iteration && a.id > b.id) }

  /** checkpoint_id is unique and below the next one to be given out. */
  ghost predicate Valid(st: Store) {
    && (forall i :: 0 <= i < |st.rows| ==> st.rows[i].id < st.nextID)
    && Distinct(st.rows)
  }

  ghost predicate Distinct(rows: seq<Row>) {
    forall i, j :: 0 <= i < j < |rows| ==> rows[i].id != rows[j].id
  }

  // ---------------------------------------------------------------- operations

  /** SELECT ... ORDER BY iteration DESC, checkpoint_id DESC LIMIT 1 */
  function Newest(rows: seq<Row>, thread: string): Option<Row> {
    if rows == [] then None
    else
      var best := Newest(rows[..|rows| - 1], thread);
      var r := rows[|rows| - 1];
      if r.thread == thread && (best.None? || Newer(r, best.value)) then Some(r) else best
  }

  function Above(rows: seq<Row>, r: Row): set<Row> {
    set q | q in rows && q.thread == r.thread && Newer(q, r)
  }

  /** A row survives the DELETE when it is of another thread or fewer than ten of its thread are newer. */
  predicate Survives(rows: seq<Row>, thread: string, r: Row) {
    r.thread != thread || |Above(rows, r)| < MAX_CHECKPOINTS_PER_THREAD
  }

  function Filter(part: seq<Row>, rows: seq<Row>, thread: string): seq<Row> {
    if part == [] then []
    else if Survives(rows, thread, part[0]) then [part[0]] + Filter(part[1..], rows, thread)
    else Filter(part[1..], rows, thread)
  }

  function Pruned(rows: seq<Row>, thread: string): seq<Row> { Filter(rows, rows, thread) }

  /** The committed transaction of SaveSnapshot. */
  function Saved(st: Store, thread: string, iteration: int, messages: seq<Message>): Store {
    st.(rows := Pruned(st.rows + [Row(st.nextID, thread, iteration, messages)], thread), nextID := st.nextID + 1)
  }

  predicate Completed(st: Store, thread: string) { thread in st.threads && st.threads[thread].completed }

  function LoadLatest(st: Store, thread: string): Option<Row> {
    if Completed(st, thread) then None else Newest(st.rows, thread)
  }

  /** INSERT OR REPLACE: the row starts over with default columns. */
  function Created(st: Store, thread: string): Store {
    st.(threads := st.threads[thread := Thread(false, 0, None)])
  }

  function MarkedCompleted(st: Store, thread: string): Store {
    if thread in st.threads then st.(threads := st.threads[thread := st.threads[thread].(completed := true)]) else st
  }

  /** UPDATE threads SET estimated_tokens, last_compacted_at; no row, no effect. */
  function WithTokens(st: Store, thread: string, tokens: int, compactedAt: Option<int>): Store {
    if thread in st.threads then
      st.(threads := st.threads[thread := st.threads[thread].(tokens := tokens, compactedAt := compactedAt)])
    else st
  }

  function CompactedAt(st: Store, thread: string): Option<int> {
    if thread in st.threads then st.threads[thread].compactedAt else None
  }

  function Tokens(st: Store, thread: string): int {
    if thread in st.threads then st.threads[thread].tokens else 0
  }

  // ---------------------------------------------------------------- the newest row

  ghost predicate IsNewest(rows: seq<Row>, thread: string, r: Row) {
    && r in rows && r.thread == thread
    && (forall q :: q in rows && q.thread == thread ==> q == r || Newer(r, q))
  }

  lemma {:induction false} NewestIsNewest(rows: seq<Row>, thread: string)
    requires Distinct(rows)
    ensures Newest(rows, thread).None? <==> forall q :: q in rows ==> q.thread != thread
    ensures Newest(rows, thread).Some? ==> IsNewest(rows, thread, Newest(rows, thread).value)
  {
    if rows != [] {
      var init, r := rows[..|rows| - 1], rows[|rows| - 1];
      NewestIsNewest(init, thread);
      assert rows == init + [r];
      assert forall q :: q in rows <==> q in init || q == r;
    }
  }

  lemma {:induction false} NewestIsUnique(rows: seq<Row>, thread: string, r: Row)
    requires Distinct(rows) && IsNewest(rows, thread, r)
    ensures Newest(rows, thread) == Some(r)
  {
    NewestIsNewest(rows, thread);
  }

  // ---------------------------------------------------------------- pruning

  lemma {:induction false} FilterMembers(part: seq<Row>, rows: seq<Row>, thread: string)
    ensures forall r :: r in Filter(part, rows, thread) <==> r in part && Survives(rows, thread, r)
    ensures Distinct(part) ==> Distinct(Filter(part, rows, thread))
  {
    if part != [] {
      FilterMembers(part[1..], rows, thread);
      assert part == [part[0]] + part[1..];
      assert forall r :: r in part <==> r == part[0] || r in part[1..];
      if Distinct(part) {
        var rest := Filter(part[1..], rows, thread);
        forall i | 0 <= i < |rest| ensures rest[i].id != part[0].id {
          assert rest[i] in part[1..];
        }
        assert Distinct(part[1..]);
        assert Distinct([part[0]] + rest);
      }
    }
  }

  /** Pruning drops no row of another thread and never the newest row of any thread. */
  lemma {:induction false} PruneKeepsNewest(rows: seq<Row>, thread: string, any: string)
    requires Distinct(rows)
    ensures Newest(Pruned(rows, thread), any) == Newest(rows, any)
    ensures forall r :: r in rows && r.thread != thread ==> r in Pruned(rows, thread)
  {
    FilterMembers(rows, rows, thread);
    NewestIsNewest(rows, any);
    NewestIsNewest(Pruned(rows, thread), any);
    if Newest(rows, any).Some? {
      var r := Newest(rows, any).value;
      assert forall q :: q in Above(rows, r) ==> q == r || Newer(r, q);
      assert Above(rows, r) == {};
      NewestIsUnique(Pruned(rows, thread), any, r);
    }
  }

  function RowsOf(rows: seq<Row>, thread: string): set<Row> { set r | r in rows && r.thread == thread }

  /** In a set ordered by Newer there is a first and a last element. */
  lemma {:induction false} Extremes(s: set<Row>) returns (first: Row, last: Row)
    requires s != {}
    requires Ordered(s)
    ensures first in s && forall r :: r in s && r != first ==> Newer(first, r)
    ensures last in s && forall r :: r in s && r != last ==> Newer(r, last)
    decreases |s|
  {
    SomeRow(s);
    var x :| x in s;
    first, last := x, x;
    if s != {x} {
      var rest := s - {x};
      assert s == rest + {x};
      first, last := Extremes(rest);
      if Newer(x, first) { first := x; }
      if Newer(last, x) { last := x; }
    }
  }

  lemma {:induction false} SomeRow(s: set<Row>)
    ensures s == {} || exists r :: r in s
  {
    if forall r :: r !in s { assert s == {}; }
  }

  lemma {:induction false} OrderedByNewer(rows: seq<Row>)
    requires Distinct(rows)
    ensures forall a, b :: a in rows && b in rows && a != b ==> Newer(a, b) || Newer(b, a)
  {
    forall a, b | a in rows && b in rows && a != b ensures a.id != b.id {
      var i :| 0 <= i < |rows| && rows[i] == a;
      var j :| 0 <= j < |rows| && rows[j] == b;
    }
  }

  ghost predicate Ordered(s: set<Row>) {
    forall a, b :: a in s && b in s && a != b ==> Newer(a, b) || Newer(b, a)
  }

  function Over(s: set<Row>, r: Row): set<Row> { set q | q in s && Newer(q, r) }

  function Top(s: set<Row>, k: nat): set<Row> { set r | r in s && |Over(s, r)| < k }

  lemma {:induction false} TopAtMost(s: set<Row>, k: nat)
    requires Ordered(s)
    ensures |Top(s, k)| <= k
  {
    if Top(s, k) != {} {
      var _, last := Extremes(Top(s, k));
      assert Top(s, k) - {last} <= Over(s, last);
      SetSize(Top(s, k) - {last}, Over(s, last));
    }
  }

  lemma {:induction false} TopAtLeast(s: set<Row>, k: nat)
    requires Ordered(s)
    ensures Top(s, k) == s || k <= |Top(s, k)|
  {
    if s - Top(s, k) != {} {
      var first, _ := Extremes(s - Top(s, k));
      forall q | q in Over(s, first) ensures q in Top(s, k) {
        assert q in s - Top(s, k) ==> Newer(first, q);
      }
      SetSize(Over(s, first), Top(s, k));
    } else {
      assert s == Top(s, k) + (s - Top(s, k));
    }
  }

  /** After a prune exactly ten rows of the thread remain, or all of them when there were fewer. */
  lemma {:induction false} PruneBounds(rows: seq<Row>, thread: string)
    requires Distinct(rows)
    ensures var kept, all := RowsOf(Pruned(rows, thread), thread), RowsOf(rows, thread);
            |kept| == if |all| < MAX_CHECKPOINTS_PER_THREAD then |all| else MAX_CHECKPOINTS_PER_THREAD
  {
    FilterMembers(rows, rows, thread);
    OrderedByNewer(rows);
    var all := RowsOf(rows, thread);
    forall r | r in all ensures Over(all, r) == Above(rows, r) {
    }
    assert RowsOf(Pruned(rows, thread), thread) == Top(all, MAX_CHECKPOINTS_PER_THREAD);
    TopAtMost(all, MAX_CHECKPOINTS_PER_THREAD);
    TopAtLeast(all, MAX_CHECKPOINTS_PER_THREAD);
    SetSize(Top(all, MAX_CHECKPOINTS_PER_THREAD), all);
  }

  lemma {:induction false} SetSize(a: set<Row>, b: set<Row>)
    requires a <= b
    ensures |a| <= |b|
    ensures a != b ==> |a| < |b|
  {
    assert b == a + (b - a);
    assert |b| == |a| + |b - a|;
    SomeRow(b - a);
  }

  // ---------------------------------------------------------------- save, then load

  /** A save keeps the ids unique, answers LoadLatest exactly when no higher iteration is stored,
      and is invisible to every other thread. */
  lemma {:induction false} SaveThenLoad(st: Store, thread: string, iteration: int, messages: seq<Message>, any: string)
    requires Valid(st)
    ensures var st' := Saved(st, thread, iteration, messages); var row := Row(st.nextID, thread, iteration, messages);
            && Valid(st') && st'.threads == st.threads
            && |RowsOf(st'.rows, thread)| <= MAX_CHECKPOINTS_PER_THREAD
            && (any != thread ==> Newest(st'.rows, any) == Newest(st.rows, any))
            && Newest(st'.rows, thread) ==
                 if Newest(st.rows, thread).None? || Newest(st.rows, thread).value.iteration <= iteration
                 then Some(row) else Newest(st.rows, thread)
  {
    var row := Row(st.nextID, thread, iteration, messages);
    var rows := st.rows + [row];
    assert Distinct(rows);
    FilterMembers(rows, rows, thread);
    PruneKeepsNewest(rows, thread, any);
    PruneKeepsNewest(rows, thread, thread);
    PruneBounds(rows, thread);
    assert rows[..|rows| - 1] == st.rows;
    NewestIsNewest(st.rows, thread);
    if Newest(st.rows, thread).Some? { assert Newest(st.rows, thread).value.id < st.nextID; }
    forall i | 0 <= i < |Pruned(rows, thread)| ensures Pruned(rows, thread)[i].id < st.nextID + 1 {
      assert Pruned(rows, thread)[i] in rows;
    }
  }

  /** A save brings in no row but its own. */
  lemma {:induction false} SavedRowsAreOld(st: Store, thread: string, iteration: int, messages: seq<Message>, r: Row)
    requires r in Saved(st, thread, iteration, messages).rows
    ensures r in st.rows || r == Row(st.nextID, thread, iteration, messages)
  {
    var rows := st.rows + [Row(st.nextID, thread, iteration, messages)];
    FilterMembers(rows, rows, thread);
  }

  /** One turn on a completed thread: nothing is loaded, the thread row is made anew, iteration 1 is saved. */
  function TurnOnCompleted(st: Store, thread: string, messages: seq<Message>): Store {
    Saved(Created(st, thread), thread, 1, messages)
  }

  /** After CompleteThread the next turn is lost to the following load exactly when the thread
      had got past its first iteration. */
  lemma {:induction false} CompletedThreadLosesTurnExactly(st: Store, thread: string, messages: seq<Message>)
    requires Valid(st) && Completed(st, thread)
    ensures LoadLatest(st, thread) == None
    ensures LoadLatest(TurnOnCompleted(st, thread, messages), thread) == Some(Row(st.nextID, thread, 1, messages)) <==>
            (forall r :: r in st.rows && r.thread == thread ==> r.iteration <= 1)
  {
    SaveThenLoad(Created(st, thread), thread, 1, messages, thread);
    NewestIsNewest(st.rows, thread);
  }

  /** Two turns, completion, one more turn: the following load returns the second turn, not the third. */
  lemma {:induction false} CompletedTurnIsLost(one: seq<Message>, two: seq<Message>, three: seq<Message>)
      returns (st: Store)
    requires two != three
    ensures var first := Saved(Created(Empty(), "t"), "t", 1, one);
            st == MarkedCompleted(Saved(first, "t", 2, two), "t") && Valid(st) && Completed(st, "t")
    ensures var next := TurnOnCompleted(st, "t", three);
            LoadLatest(next, "t").Some? && LoadLatest(next, "t").value.messages == two
  {
    var zero := Created(Empty(), "t");
    SaveThenLoad(zero, "t", 1, one, "t");
    var first := Saved(zero, "t", 1, one);
    SaveThenLoad(first, "t", 2, two, "t");
    st := MarkedCompleted(Saved(first, "t", 2, two), "t");
    SaveThenLoad(Created(st, "t"), "t", 1, three, "t");
  }

  // ---------------------------------------------------------------- the object

  class CheckpointManager {
    var rows: seq<Row>
    var nextID: nat
    var threads: map<string, Thread>

    function View(): Store
      reads this
    {
      Store(rows, nextID, threads)
    }

    constructor ()
      ensures Valid(View()) && View() == Empty()
    {
      rows, nextID, threads := [], 1, map[];
    }

    method CreateThread(thread: string, ok: bool)
      modifies this`threads
      ensures View() == if ok then Created(old(View()), thread) else old(View())
    {
      if ok {
        threads := threads[thread := Thread(false, 0, None)];
      }
    }

    /** `ok` is whether the transaction commits; otherwise it rolls back. */
    method SaveSnapshot(thread: string, iteration: int, messages: seq<Message>, ok: bool) returns (saved: bool)
      requires Valid(View())
      modifies this`rows, this`nextID
      ensures saved == ok && Valid(View())
      ensures View() == if ok then Saved(old(View()), thread, iteration, messages) else old(View())
      ensures ok ==> |RowsOf(rows, thread)| <= MAX_CHECKPOINTS_PER_THREAD
      ensures var stored := old(Newest(rows, thread));
              Newest(rows, thread) ==
                if ok && (stored.None? || stored.value.iteration <= iteration)
                then Some(Row(old(nextID), thread, iteration, messages)) else stored
      ensures forall any :: any != thread ==> Newest(rows, any) == old(Newest(rows, any))
    {
      if ok {
        ghost var was := View();
        forall any | any != thread
          ensures Newest(Saved(was, thread, iteration, messages).rows, any) == Newest(was.rows, any)
        {
          SaveThenLoad(was, thread, iteration, messages, any);
        }
        SaveThenLoad(was, thread, iteration, messages, thread);
        rows := rows + [Row(nextID, thread, iteration, messages)];
        rows := Pruned(rows, thread);
        nextID := nextID + 1;
      }
      saved := ok;
    }

    method UpdateSessionTokens(thread: string, tokens: int, compactedAt: Option<int>, ok: bool)
      modifies this`threads
      ensures View() == if ok then WithTokens(old(View()), thread, tokens, compactedAt) else old(View())
    {
      if ok && thread in threads {
        threads := threads[thread := threads[thread].(tokens := tokens, compactedAt := compactedAt)];
      }
    }
  }
}
