/**
 At-most-once tool execution: internal/context/idempotency.go and the execution path of
 internal/app/runner_tools.go. Instants are counted in nanoseconds; the table keeps whole seconds.
*/
module Idempotency {
  import opened Wrappers
  import ToolLoop
  import Messages

  const SECOND: int := 1_000_000_000

  datatype Row = Row(toolName: string, paramsHash: string, result: string, sessionKey: string, createdAt: int)

  /** CURRENT_TIMESTAMP drops the fraction of the second. */
  function WholeSecond(t: int): int { t - t % SECOND }

  predicate Expired(createdAt: int, now: int, ttl: int) { now - createdAt > ttl }

  /** One attempted tool call: when it is checked, what the tool would answer, when it is stored, and which
      of the database statements go through. */
  datatype Call = Call(
    key: string, toolName: string, paramsHash: string, sessionKey: string,
    checkedAt: int, readOk: bool, deleteOk: bool,
    answer: Option<string>, storedAt: int, insertOk: bool)

  /** NotFound, a cached result, or an error. */
  datatype CheckResult = NotFound | Found(cached: string) | HashMismatch | CheckError

  /** What the caller sees. The tool ran exactly in the last two cases. */
  datatype Reply = Refused | Mismatch | Cached(result: string) | Ran(result: string, stored: bool) | ToolFailed

  type Table = map<string, Row>

  // ---------------------------------------------------------------- specification

  function Checked(rows: Table, c: Call, ttl: int): (Table, CheckResult) {
    if !c.readOk then (rows, CheckError)
    else if c.key !in rows then (rows, NotFound)
    else if rows[c.key].paramsHash != c.paramsHash then (rows, HashMismatch)
    else if Expired(rows[c.key].createdAt, c.checkedAt, ttl)
        then (if c.deleteOk then rows - {c.key} else rows, NotFound)
    else (rows, Found(rows[c.key].result))
  }

  predicate Inserts(rows: Table, c: Call) { c.insertOk && c.key !in rows }

  function Stored(rows: Table, c: Call, result: string): Table {
    if !Inserts(rows, c) then rows
    else rows[c.key := Row(c.toolName, c.paramsHash, result, c.sessionKey, WholeSecond(c.storedAt))]
  }

  /** One guarded tool call. */
  function Execute(rows: Table, c: Call, ttl: int): (Table, Reply) {
    var (checked, found) := Checked(rows, c, ttl);
    match found
    case CheckError => (checked, Refused)
    case HashMismatch => (checked, Mismatch)
    case Found(cached) => (checked, Cached(cached))
    case NotFound =>
      if c.answer.None? then (checked, ToolFailed)
      else (Stored(checked, c, c.answer.value), Ran(c.answer.value, Inserts(checked, c)))
  }

  predicate ToolRan(r: Reply) { r.Ran? || r.ToolFailed? }

  // ---------------------------------------------------------------- the object

  class IdempotencyStore {
    var rows: Table
    const ttl: int

    constructor (ttl: int)
      ensures rows == map[] && this.ttl == ttl
    {
      rows := map[];
      this.ttl := ttl;
    }

    method Check(c: Call) returns (r: CheckResult)
      modifies this`rows
      ensures (rows, r) == Checked(old(rows), c, ttl)
    {
      if !c.readOk {
        return CheckError;
      }
      if c.key !in rows {
        return NotFound;
      }
      var row := rows[c.key];
      if row.paramsHash != c.paramsHash {
        return HashMismatch;
      }
      if c.checkedAt - row.createdAt > ttl {
        if c.deleteOk {
          rows := rows - {c.key};
        }
        return NotFound;
      }
      r := Found(row.result);
    }

    method Store(c: Call, result: string) returns (ok: bool)
      modifies this`rows
      ensures rows == Stored(old(rows), c, result) && ok == Inserts(old(rows), c)
    {
      ok := c.insertOk && c.key !in rows;
      if ok {
        rows := rows[c.key := Row(c.toolName, c.paramsHash, result, c.sessionKey, WholeSecond(c.storedAt))];
      }
    }
  }

  /** executeToolCall: only side-effecting tools are guarded, and only if there is a store. A call whose
      parameters could not be hashed is refused there. */
  method ExecuteToolCall(store: IdempotencyStore?, sideEffecting: bool, hashed: bool, c: Call) returns (reply: Reply)
    modifies store
    ensures (!sideEffecting || store == null) ==> reply == if c.answer.None? then ToolFailed
        else Ran(c.answer.value, false)
    ensures store != null && (!sideEffecting || !hashed) ==> store.rows == old(store.rows)
    ensures store != null && sideEffecting && !hashed ==> reply == Refused
    ensures store != null && sideEffecting && hashed ==> (store.rows, reply) == Execute(old(store.rows), c, store.ttl)
  {
    if !sideEffecting || store == null {
      return if c.answer.None? then ToolFailed else Ran(c.answer.value, false);
    }
    if !hashed {
      return Refused;
    }
    var check := store.Check(c);
    match check
    case CheckError => return Refused;
    case HashMismatch => return Mismatch;
    case Found(cached) => return Cached(cached);
    case NotFound =>
      if c.answer.None? {
        return ToolFailed;
      }
      var ok := store.Store(c, c.answer.value);
      reply := Ran(c.answer.value, ok);
  }

  // ---------------------------------------------------------------- sequential runs

  /** The table before call k of a run, and the reply to call k. */
  function RowsAt(rows: Table, calls: seq<Call>, k: nat, ttl: int): Table
    requires k <= |calls|
  {
    if k == 0 then rows else Execute(RowsAt(rows, calls, k - 1, ttl), calls[k - 1], ttl).0
  }

  function ReplyAt(rows: Table, calls: seq<Call>, k: nat, ttl: int): Reply
    requires k < |calls|
  {
    Execute(RowsAt(rows, calls, k, ttl), calls[k], ttl).1
  }

  ghost predicate Clocked(calls: seq<Call>) {
    && (forall k :: 0 <= k < |calls| ==> calls[k].checkedAt <= calls[k].storedAt)
    && (forall k, l :: 0 <= k < l < |calls| ==> calls[k].storedAt <= calls[l].checkedAt)
  }

  /** Call i ran its tool and its result was stored. */
  ghost predicate Recorded(rows: Table, calls: seq<Call>, i: nat, ttl: int) {
    i < |calls| && ReplyAt(rows, calls, i, ttl).Ran? && ReplyAt(rows, calls, i, ttl).stored
  }

  ghost function RecordOf(rows: Table, calls: seq<Call>, i: nat, ttl: int): Row
    requires Recorded(rows, calls, i, ttl)
  {
    Row(calls[i].toolName, calls[i].paramsHash, ReplyAt(rows, calls, i, ttl).result, calls[i].sessionKey,
        WholeSecond(calls[i].storedAt))
  }

  /** The tool runs exactly if the table can be read and has no row for the key, or an expired one with the same
      parameters; whenever it runs and answers, the caller gets that answer, stored or not. */
  lemma {:induction false} RunsExactly(rows: Table, c: Call, ttl: int)
    ensures var r := Execute(rows, c, ttl).1;
            && (ToolRan(r) <==>
                  && c.readOk
                  && (c.key !in rows
                      || (rows[c.key].paramsHash == c.paramsHash && c.checkedAt - rows[c.key].createdAt > ttl)))
            && (ToolRan(r) ==> if c.answer.Some? then r.Ran? && r.result == c.answer.value else r == ToolFailed)
            && (r.Cached? ==> c.key in rows && r.result == rows[c.key].result && rows[c.key].paramsHash == c.paramsHash)
            && (r.Mismatch? <==> c.readOk && c.key in rows && rows[c.key].paramsHash != c.paramsHash)
            && (r.Refused? <==> !c.readOk)
  {
  }

  /** The call finds the row expired and takes it away. */
  predicate Outdated(row: Row, c: Call, ttl: int) {
    row.paramsHash == c.paramsHash && Expired(row.createdAt, c.checkedAt, ttl)
  }

  lemma {:induction false} ExecuteFrame(rows: Table, c: Call, ttl: int, key: string)
    ensures key != c.key ==> (key in Execute(rows, c, ttl).0 <==> key in rows)
    ensures key != c.key && key in rows ==> Execute(rows, c, ttl).0[key] == rows[key]
    ensures key in rows && (key != c.key || !Outdated(rows[key], c, ttl)) ==>
      key in Execute(rows, c, ttl).0 && Execute(rows, c, ttl).0[key] == rows[key]
  {
  }

  /** A record stays exactly as it was stored until it expires. */
  lemma {:induction false} RecordStays(rows: Table, calls: seq<Call>, i: nat, k: nat, ttl: int)
    requires Clocked(calls) && Recorded(rows, calls, i, ttl) && i < k < |calls|
    requires !Expired(WholeSecond(calls[i].storedAt), calls[k].checkedAt, ttl)
    ensures var now := RowsAt(rows, calls, k, ttl);
            calls[i].key in now && now[calls[i].key] == RecordOf(rows, calls, i, ttl)
  {
    if k > i + 1 {
      RecordStays(rows, calls, i, k - 1, ttl);
      ExecuteFrame(RowsAt(rows, calls, k - 1, ttl), calls[k - 1], ttl, calls[i].key);
    }
  }

  /** After a recorded execution the same key and parameters, checked within the TTL of the recorded second,
      give the first result without running the tool; other parameters give an error without running it. */
  lemma {:induction false} LaterCallsGetTheFirstResult(rows: Table, calls: seq<Call>, i: nat, k: nat, ttl: int)
    requires Clocked(calls) && Recorded(rows, calls, i, ttl) && i < k < |calls| && calls[k].key == calls[i].key
        && calls[k].readOk
    requires !Expired(WholeSecond(calls[i].storedAt), calls[k].checkedAt, ttl)
    ensures ReplyAt(rows, calls, k, ttl) ==
      if calls[k].paramsHash == calls[i].paramsHash then Cached(ReplyAt(rows, calls, i, ttl).result) else Mismatch
  {
    RecordStays(rows, calls, i, k, ttl);
  }

  /** So a tool runs again for a recorded key only after the TTL of the recorded second. */
  lemma {:induction false} RunsAgainOnlyAfterTTL(rows: Table, calls: seq<Call>, i: nat, j: nat, ttl: int)
    requires Clocked(calls) && Recorded(rows, calls, i, ttl) && i < j < |calls| && calls[j].key == calls[i].key
    requires ToolRan(ReplyAt(rows, calls, j, ttl))
    ensures calls[j].checkedAt - WholeSecond(calls[i].storedAt) > ttl
    ensures calls[j].checkedAt - calls[i].storedAt > ttl - SECOND
  {
    if !Expired(WholeSecond(calls[i].storedAt), calls[j].checkedAt, ttl) {
      RecordStays(rows, calls, i, j, ttl);
    }
  }

  /** While nobody asks for its key, the record stays even past its expiry. */
  lemma {:induction false} UnaskedRecordStays(rows: Table, calls: seq<Call>, i: nat, k: nat, ttl: int)
    requires Recorded(rows, calls, i, ttl) && i < k <= |calls|
    requires forall l :: i < l < k ==> calls[l].key != calls[i].key
    ensures var now := RowsAt(rows, calls, k, ttl);
            calls[i].key in now && now[calls[i].key] == RecordOf(rows, calls, i, ttl)
  {
    if k > i + 1 {
      UnaskedRecordStays(rows, calls, i, k - 1, ttl);
      ExecuteFrame(RowsAt(rows, calls, k - 1, ttl), calls[k - 1], ttl, calls[i].key);
    }
  }

  /** The right to run again is as sharp as that: after a recorded execution the next call for the same key,
      however many other calls lie between, runs its tool exactly if it comes after the TTL of the recorded
      second, with the same parameters and a working database. */
  lemma {:induction false} RunsAgainExactly(rows: Table, calls: seq<Call>, i: nat, j: nat, ttl: int)
    requires Recorded(rows, calls, i, ttl) && i < j < |calls| && calls[j].key == calls[i].key
    requires forall l :: i < l < j ==> calls[l].key != calls[i].key
    ensures ToolRan(ReplyAt(rows, calls, j, ttl)) <==>
            && calls[j].readOk && calls[j].paramsHash == calls[i].paramsHash
            && calls[j].checkedAt - WholeSecond(calls[i].storedAt) > ttl
  {
    UnaskedRecordStays(rows, calls, i, j, ttl);
  }

  lemma {:induction false} RowsAtPrefix(rows: Table, calls: seq<Call>, more: seq<Call>, k: nat, ttl: int)
    requires k <= |calls|
    ensures RowsAt(rows, calls + more, k, ttl) == RowsAt(rows, calls, k, ttl)
  {
    if k > 0 { RowsAtPrefix(rows, calls, more, k - 1, ttl); }
  }

  /** A continuation of the run in which the tool of its last call runs again within the TTL of its storing. */
  ghost predicate RunsAgainEarly(rows: Table, calls: seq<Call>, more: seq<Call>, ttl: int)
    requires calls != []
  {
    var all, i := calls + more, |calls| - 1;
    && Clocked(all)
    && exists j :: i < j < |all| && all[j].key == all[i].key && ToolRan(ReplyAt(rows, all, j, ttl))
                   && all[j].checkedAt - all[i].storedAt <= ttl
  }

  /** After a recorded execution some continuation runs the tool again within the TTL, counted from the real time
      of storing, exactly if that time was not a whole second (and the TTL is not negative). */
  lemma {:induction false} TTLIsShortExactly(rows: Table, calls: seq<Call>, ttl: int)
    requires calls != [] && Clocked(calls) && Recorded(rows, calls, |calls| - 1, ttl)
    ensures (exists more :: RunsAgainEarly(rows, calls, more, ttl)) <==>
            0 <= ttl && calls[|calls| - 1].storedAt % SECOND != 0
  {
    var i := |calls| - 1;
    var last := calls[i];
    if more :| RunsAgainEarly(rows, calls, more, ttl) {
      var all := calls + more;
      RowsAtPrefix(rows, calls, more, i, ttl);
      var j :| i < j < |all| && all[j].key == all[i].key && ToolRan(ReplyAt(rows, all, j, ttl))
               && all[j].checkedAt - all[i].storedAt <= ttl;
      RunsAgainOnlyAfterTTL(rows, all, i, j, ttl);
    }
    if 0 <= ttl && last.storedAt % SECOND != 0 {
      EarlyRerun(rows, calls, ttl);
    }
  }

  /** The same call, checked when the TTL has just not passed since the storing. */
  lemma {:induction false} EarlyRerun(rows: Table, calls: seq<Call>, ttl: int)
    requires calls != [] && Clocked(calls) && Recorded(rows, calls, |calls| - 1, ttl)
    requires 0 <= ttl && calls[|calls| - 1].storedAt % SECOND != 0
    ensures exists more :: RunsAgainEarly(rows, calls, more, ttl)
  {
    var i := |calls| - 1;
    var at := calls[i].storedAt + ttl;
    var again := calls[i].(checkedAt := at, storedAt := at, readOk := true);
    var all := calls + [again];
    RowsAtPrefix(rows, calls, [again], i, ttl);
    assert Recorded(rows, all, i, ttl);
    RunsAgainExactly(rows, all, i, i + 1, ttl);
    assert all[i + 1].checkedAt - all[i].storedAt <= ttl;
    assert RunsAgainEarly(rows, calls, [again], ttl);
  }

  /** Two executions of one key less than the TTL apart. */
  lemma {:induction false} TTLCanBeShort() returns (calls: seq<Call>, ttl: int)
    ensures |calls| == 2 && Clocked(calls) && calls[0].key == calls[1].key && calls[0].paramsHash == calls[1].paramsHash
    ensures Recorded(map[], calls, 0, ttl) && Recorded(map[], calls, 1, ttl)
    ensures calls[1].checkedAt - calls[0].storedAt < ttl
  {
    ttl := 10 * SECOND;
    var first := Call("k", "t", "h", "s", 900_000_000, true, true, Some("a"), 900_000_000, true);
    var again := first.(checkedAt := ttl + 1, storedAt := ttl + 1);
    calls := [first, again];
    var none: Table := map[];
    var row := Row("t", "h", "a", "s", 0);
    assert RowsAt(none, calls, 0, ttl) == none;
    assert Execute(none, first, ttl) == (none["k" := row], Ran("a", true));
    assert RowsAt(none, calls, 1, ttl) == none["k" := row];
    assert Checked(none["k" := row], again, ttl).1 == NotFound;
  }

  /** An expired row that cannot be deleted keeps the new result from being stored: the next call runs the
      tool once more, however soon. */
  lemma {:induction false} StuckRowDisarms(rows: Table, c: Call, d: Call, ttl: int)
    requires c.readOk && d.readOk && c.key in rows && d.key == c.key
        && c.paramsHash == d.paramsHash == rows[c.key].paramsHash
    requires Expired(rows[c.key].createdAt, c.checkedAt, ttl) && c.checkedAt <= d.checkedAt
    ensures c.deleteOk || ToolRan(Execute(Execute(rows, c, ttl).0, d, ttl).1)
    ensures c.deleteOk && c.answer.Some? && c.insertOk && !Expired(WholeSecond(c.storedAt), d.checkedAt, ttl) ==>
      Execute(Execute(rows, c, ttl).0, d, ttl).1 == Cached(c.answer.value)
  {
  }

  // ---------------------------------------------------------------- key strings

  function Digit(d: nat): (c: char)
    requires d < 10
    ensures '0' <= c <= '9'
  {
    '0' + d as char
  }

  /** %d of a natural number. */
  function Decimal(n: nat): string {
    if n < 10 then [Digit(n)] else Decimal(n / 10) + [Digit(n % 10)]
  }

  ghost predicate NoColon(s: string) { forall i :: 0 <= i < |s| ==> s[i] != ':' }

  lemma {:induction false} DecimalHasNoColon(n: nat)
    ensures NoColon(Decimal(n)) && |Decimal(n)| > 0
  {
    if n >= 10 { DecimalHasNoColon(n / 10); }
  }

  lemma {:induction false} DecimalInjective(m: nat, n: nat)
    requires Decimal(m) == Decimal(n)
    ensures m == n
  {
    var a, b := Decimal(m), Decimal(n);
    DecimalHasNoColon(m / 10);
    DecimalHasNoColon(n / 10);
    assert a[|a| - 1] == b[|b| - 1] == Digit(m % 10) == Digit(n % 10);
    if m >= 10 && n >= 10 {
      assert a[..|a| - 1] == Decimal(m / 10) && b[..|b| - 1] == Decimal(n / 10);
      DecimalInjective(m / 10, n / 10);
    }
  }

  /** The part before the first colon and the part behind it are determined by the whole. */
  lemma {:induction false} SplitAtColon(a: string, x: string, b: string, y: string)
    requires NoColon(a) && NoColon(b) && a + ":" + x == b + ":" + y
    ensures a == b && x == y
    decreases |a|
  {
    var s, t := a + ":" + x, b + ":" + y;
    if a == [] || b == [] {
      assert s[|a|] == ':' == t[|b|] && s[0] == t[0];
      assert x == s[|a| + 1..] && y == t[|b| + 1..];
    } else {
      assert s[0] == a[0] && t[0] == b[0];
      assert s[1..] == a[1..] + ":" + x && t[1..] == b[1..] + ":" + y;
      SplitAtColon(a[1..], x, b[1..], y);
      assert a == [a[0]] + a[1..] && b == [b[0]] + b[1..];
    }
  }

  function Tail(iter: nat, seqLen: nat, name: string, hash: string): string {
    Decimal(iter) + ":" + (Decimal(seqLen) + ":" + (name + ":" + hash))
  }

  /** The key that mainToolStep builds. */
  function Key(invocation: string, session: string, iter: nat, seqLen: nat, name: string, hash: string): string {
    "auto-v2:" + (invocation + ":" + (session + ":" + Tail(iter, seqLen, name, hash)))
  }

  /** Invocation ids have no colon, so calls of different runs never share a key. */
  lemma {:induction false} KeysOfDifferentRunsDiffer(inv: string, inv': string, session: string, session': string,
      tail: string, tail': string)
    requires NoColon(inv) && NoColon(inv')
    requires "auto-v2:" + (inv + ":" + (session + ":" + tail)) == "auto-v2:" + (inv' + ":" + (session' + ":" + tail'))
    ensures inv == inv' && session + ":" + tail == session' + ":" + tail'
  {
    var a, b := inv + ":" + (session + ":" + tail), inv' + ":" + (session' + ":" + tail');
    assert a == ("auto-v2:" + a)[8..] && b == ("auto-v2:" + b)[8..];
    SplitAtColon(inv, session + ":" + tail, inv', session' + ":" + tail');
  }

  /** For one session the key determines the run, the turn and the number of the call, and with hashes of one
      length everything it is made of. */
  lemma {:induction false} KeyInjective(inv: string, inv': string, session: string,
                                        i: nat, n: nat, name: string, hash: string,
                                        i': nat, n': nat, name': string, hash': string)
    requires NoColon(inv) && NoColon(inv')
    requires Key(inv, session, i, n, name, hash) == Key(inv', session, i', n', name', hash')
    ensures inv == inv' && i == i' && n == n'
    ensures |hash| == |hash'| ==> name == name' && hash == hash'
  {
    var tail, tail' := Tail(i, n, name, hash), Tail(i', n', name', hash');
    KeysOfDifferentRunsDiffer(inv, inv', session, session, tail, tail');
    assert tail == (session + ":" + tail)[|session| + 1..] && tail' == (session + ":" + tail')[|session| + 1..];
    DecimalHasNoColon(i);
    DecimalHasNoColon(i');
    SplitAtColon(Decimal(i), Decimal(n) + ":" + (name + ":" + hash), Decimal(i'),
        Decimal(n') + ":" + (name' + ":" + hash'));
    DecimalInjective(i, i');
    DecimalHasNoColon(n);
    DecimalHasNoColon(n');
    SplitAtColon(Decimal(n), name + ":" + hash, Decimal(n'), name' + ":" + hash');
    DecimalInjective(n, n');
    var s, t := name + ":" + hash, name' + ":" + hash';
    assert name == s[..|name|] && name' == t[..|name'|] && hash == s[|name| + 1..] && hash' == t[|name'| + 1..];
  }

  /** The key of an invocation of the tool loop. */
  function KeyOf(inv: string, session: string, c: ToolLoop.CallState, hash: string -> string): string {
    Key(inv, session, c.iter, c.seqLen, c.call.name, hash(c.call.args))
  }

  /** In every run of the tool loop, different invocations have different keys, whatever their arguments. */
  lemma {:induction false} InvocationsHaveDistinctKeys(env: ToolLoop.Env, input: seq<Messages.Message>, inv: string,
                                                       session: string, hash: string -> string, i: nat, j: nat)
    requires NoColon(inv)
    requires var made := ToolLoop.Play(env, input, 0, 0, []).1; i < |made| && j < |made| && i != j
    ensures var made := ToolLoop.Play(env, input, 0, 0, []).1;
            KeyOf(inv, session, made[i], hash) != KeyOf(inv, session, made[j], hash)
  {
    ToolLoop.InvocationsNumbered(env, input, 0, 0, []);
    var made := ToolLoop.Play(env, input, 0, 0, []).1;
    var c, d := made[i], made[j];
    assert c.seqLen != d.seqLen;
    if KeyOf(inv, session, c, hash) == KeyOf(inv, session, d, hash) {
      KeyInjective(inv, inv, session, c.iter, c.seqLen, c.call.name, hash(c.call.args),
                   d.iter, d.seqLen, d.call.name, hash(d.call.args));
      assert false;
    }
  }

  // ---------------------------------------------------------------- many runs of the tool loop

  /** One run of the tool loop, with the invocation id it drew. */
  datatype Invocation = Invocation(env: ToolLoop.Env, input: seq<Messages.Message>, inv: string, session: string)

  /** Which invocation of which run a guarded call belongs to; replays of one invocation share it. */
  datatype Origin = Origin(run: nat, index: nat)

  function MadeBy(run: Invocation): seq<ToolLoop.CallState> { ToolLoop.Play(run.env, run.input, 0, 0, []).1 }

  /** The runs drew distinct ids, and every call carries the key of its origin. */
  ghost predicate Keyed(runs: seq<Invocation>, hash: string -> string, calls: seq<Call>, origins: seq<Origin>) {
    && (forall r :: 0 <= r < |runs| ==> NoColon(runs[r].inv))
    && (forall r, q :: 0 <= r < q < |runs| ==> runs[r].inv != runs[q].inv)
    && |origins| == |calls|
    && (forall k :: 0 <= k < |calls| ==> HasOrigin(runs, hash, calls[k], origins[k]))
  }

  ghost predicate HasOrigin(runs: seq<Invocation>, hash: string -> string, c: Call, o: Origin) {
    && o.run < |runs| && o.index < |MadeBy(runs[o.run])|
    && var run, made := runs[o.run], MadeBy(runs[o.run])[o.index];
       c.key == KeyOf(run.inv, run.session, made, hash) && c.paramsHash == hash(made.call.args)
  }

  lemma {:induction false} KeysTellOrigins(runs: seq<Invocation>, hash: string -> string, calls: seq<Call>,
      origins: seq<Origin>,
                                           j: nat, k: nat)
    requires Keyed(runs, hash, calls, origins) && j < |calls| && k < |calls| && calls[j].key == calls[k].key
    ensures origins[j] == origins[k]
  {
    var o, p := origins[j], origins[k];
    assert HasOrigin(runs, hash, calls[j], o) && HasOrigin(runs, hash, calls[k], p);
    var a, b := runs[o.run], runs[p.run];
    var c, d := MadeBy(a)[o.index], MadeBy(b)[p.index];
    KeysOfDifferentRunsDiffer(a.inv, b.inv, a.session, b.session,
                              Tail(c.iter, c.seqLen, c.call.name, hash(c.call.args)),
                              Tail(d.iter, d.seqLen, d.call.name, hash(d.call.args)));
    assert o.run == p.run;
    if o.index != p.index {
      InvocationsHaveDistinctKeys(a.env, a.input, a.inv, a.session, hash, o.index, p.index);
    }
  }

  /** Every row was put there by an earlier recorded call for its key. */
  lemma {:induction false} RowsHaveSources(calls: seq<Call>, k: nat, ttl: int, key: string) returns (j: nat)
    requires k <= |calls| && key in RowsAt(map[], calls, k, ttl)
    ensures j < k && calls[j].key == key && Recorded(map[], calls, j, ttl)
    ensures RowsAt(map[], calls, k, ttl)[key] == RecordOf(map[], calls, j, ttl)
  {
    var before, c := RowsAt(map[], calls, k - 1, ttl), calls[k - 1];
    if key == c.key && Recorded(map[], calls, k - 1, ttl) {
      j := k - 1;
    } else {
      ExecuteFrame(before, c, ttl, key);
      j := RowsHaveSources(calls, k - 1, ttl, key);
    }
  }

  /** Over any number of runs of the tool loop, starting from an empty table, a guarded call never meets the row of
      another invocation: a cached answer was given by a replay of the same invocation, and a call is never refused
      for different parameters. */
  lemma {:induction false} OnlyOwnRowsAreFound(runs: seq<Invocation>, hash: string -> string, calls: seq<Call>,
                                               origins: seq<Origin>, k: nat, ttl: int)
    requires Keyed(runs, hash, calls, origins) && k < |calls|
    ensures ReplyAt(map[], calls, k, ttl).Cached? ==>
      exists j :: 0 <= j < k && origins[j] == origins[k] && Recorded(map[], calls, j, ttl)
                  && ReplyAt(map[], calls, j, ttl).result == ReplyAt(map[], calls, k, ttl).result
    ensures !ReplyAt(map[], calls, k, ttl).Mismatch?
  {
    if calls[k].key in RowsAt(map[], calls, k, ttl) {
      var j := RowsHaveSources(calls, k, ttl, calls[k].key);
      KeysTellOrigins(runs, hash, calls, origins, j, k);
      assert HasOrigin(runs, hash, calls[j], origins[j]) && HasOrigin(runs, hash, calls[k], origins[k]);
    }
  }
}
