/**
 History compaction of internal/agent/compaction.go: a `keep` array is marked in place by the
 newest messages, by a safety net of recent assistant turns, and by two passes that complete
 tool chains; then one leading assistant turn may be stripped.
*/
module Compaction {
  import opened Wrappers
  import opened Messages

  // ---------------------------------------------------------------- tool chains

  /** Message i is a model turn that makes the tool call `id`; the empty id names no call. */
  predicate Calls(m: Message, id: string) {
    IsAssistant(m) && id != "" && exists k :: 0 <= k < |m.toolCalls| && m.toolCalls[k].id == id
  }

  predicate Responds(m: Message, id: string) { m.role.Tool? && m.toolCallID == Some(id) }

  /** Message j answers a tool call made by message i. */
  predicate Answers(msgs: seq<Message>, i: int, j: int) {
    && 0 <= i < |msgs| && 0 <= j < |msgs|
    && msgs[j].role.Tool? && msgs[j].toolCallID.Some? && Calls(msgs[i], msgs[j].toolCallID.value)
  }

  /** buildToolCallMap's answer for one id: the last message that makes the call. */
  ghost predicate LastCaller(msgs: seq<Message>, id: string, i: int) {
    && 0 <= i < |msgs| && Calls(msgs[i], id)
    && forall k :: i < k < |msgs| ==> !Calls(msgs[k], id)
  }

  ghost predicate LastCallerOf(msgs: seq<Message>, i: int, j: int) {
    Answers(msgs, i, j) && LastCaller(msgs, msgs[j].toolCallID.value, i)
  }

  function Marks(keep: seq<bool>): set<int> { set i | 0 <= i < |keep| && keep[i] }

  /** Some marked message answers a call last made by message i. */
  ghost predicate Wanted(msgs: seq<Message>, marks: set<int>, i: int) {
    exists j :: j in marks && LastCallerOf(msgs, i, j)
  }

  /** Some marked message makes the call that message j answers. */
  ghost predicate Owed(msgs: seq<Message>, marks: set<int>, j: int) {
    exists i :: i in marks && Answers(msgs, i, j)
  }

  ghost function Backward(msgs: seq<Message>, marks: set<int>): set<int> {
    marks + set i | 0 <= i < |msgs| && Wanted(msgs, marks, i)
  }

  ghost function Forward(msgs: seq<Message>, marks: set<int>): set<int> {
    marks + set j | 0 <= j < |msgs| && Owed(msgs, marks, j)
  }

  ghost function Completed(msgs: seq<Message>, marks: set<int>): set<int> { Forward(msgs, Backward(msgs, marks)) }

  /** No chain is split: answers go with their call, and a call goes with its answers. */
  ghost predicate Closed(msgs: seq<Message>, marks: set<int>) {
    && (forall i, j :: i in marks && Answers(msgs, i, j) ==> j in marks)
    && (forall i, j :: j in marks && Answers(msgs, i, j) ==> exists c :: c in marks && Answers(msgs, c, j))
  }

  ghost predicate UniqueCallIds(msgs: seq<Message>) {
    forall i, j, id :: 0 <= i < |msgs| && 0 <= j < |msgs| && Calls(msgs[i], id) && Calls(msgs[j], id) ==> i == j
  }

  lemma {:induction false} LastCallerExists(msgs: seq<Message>, id: string, i: int)
    requires 0 <= i < |msgs| && Calls(msgs[i], id)
    ensures exists k :: LastCaller(msgs, id, k)
    decreases |msgs| - i
  {
    if k :| i < k < |msgs| && Calls(msgs[k], id) {
      LastCallerExists(msgs, id, k);
    } else {
      assert LastCaller(msgs, id, i);
    }
  }

  /** One backward and one forward pass reach a closed set. */
  lemma {:induction false} TwoPassesClose(msgs: seq<Message>, marks: set<int>)
    ensures Closed(msgs, Completed(msgs, marks))
  {
    var back := Backward(msgs, marks);
    var all := Completed(msgs, marks);
    forall i, j | j in all && Answers(msgs, i, j) ensures exists c :: c in all && Answers(msgs, c, j) {
      if j in marks {
        LastCallerExists(msgs, msgs[j].toolCallID.value, i);
        var c :| LastCaller(msgs, msgs[j].toolCallID.value, c);
        assert LastCallerOf(msgs, c, j);
        assert c in back;
      }
    }
  }

  /** With unique call ids the two passes add nothing that is not forced. */
  lemma {:induction false} TwoPassesAreLeast(msgs: seq<Message>, marks: set<int>, closed: set<int>)
    requires UniqueCallIds(msgs) && marks <= closed && Closed(msgs, closed)
    ensures Completed(msgs, marks) <= closed
  {
    forall i, j | j in closed && Answers(msgs, i, j) ensures i in closed {
      var c :| c in closed && Answers(msgs, c, j);
      assert Calls(msgs[c], msgs[j].toolCallID.value);
    }
    assert Backward(msgs, marks) <= closed;
  }

  /** What the two passes keep, without passes: a marked message, the last caller of a marked answer,
      or an answer to a call made by either. */
  ghost predicate Chained(msgs: seq<Message>, marks: set<int>, x: int) {
    || x in marks
    || (exists j :: j in marks && LastCallerOf(msgs, x, j))
    || (exists c :: Answers(msgs, c, x) && (c in marks || exists j :: j in marks && LastCallerOf(msgs, c, j)))
  }

  lemma {:induction false} CompletedIsChained(msgs: seq<Message>, marks: set<int>, x: int)
    ensures x in Completed(msgs, marks) <==> Chained(msgs, marks, x)
  {
    if c :| Answers(msgs, c, x) && (c in marks || exists j :: j in marks && LastCallerOf(msgs, c, j)) {
      assert c in Backward(msgs, marks);
    }
  }

  /** With unique call ids "the last caller" is "the caller". */
  ghost predicate ChainedToCaller(msgs: seq<Message>, marks: set<int>, x: int) {
    || x in marks
    || (exists j :: j in marks && Answers(msgs, x, j))
    || (exists c :: Answers(msgs, c, x) && (c in marks || exists j :: j in marks && Answers(msgs, c, j)))
  }

  lemma {:induction false} ChainedWhenUnique(msgs: seq<Message>, marks: set<int>, x: int)
    requires UniqueCallIds(msgs)
    ensures Chained(msgs, marks, x) <==> ChainedToCaller(msgs, marks, x)
  {
    forall c, j | Answers(msgs, c, j) ensures LastCallerOf(msgs, c, j) {
      assert Calls(msgs[c], msgs[j].toolCallID.value);
    }
  }

  // ---------------------------------------------------------------- marking in place

  /** How many model turns there are from position i on. */
  function AssistantsFrom(msgs: seq<Message>, i: nat): nat
    requires i <= |msgs|
    decreases |msgs| - i
  {
    if i == |msgs| then 0 else (if IsAssistant(msgs[i]) then 1 else 0) + AssistantsFrom(msgs, i + 1)
  }

  /** One of the last n model turns. */
  predicate Recent(msgs: seq<Message>, n: int, i: int) {
    0 <= i < |msgs| && IsAssistant(msgs[i]) && AssistantsFrom(msgs, i + 1) < n
  }

  /** The user turn right before one of them. */
  predicate LeadsIn(msgs: seq<Message>, n: int, i: int) {
    0 <= i < |msgs| && msgs[i].role.User? && Recent(msgs, n, i + 1)
  }

  /** The safety net: the last n model turns and the user turn right before each. */
  predicate Netted(msgs: seq<Message>, n: int, i: int) { Recent(msgs, n, i) || LeadsIn(msgs, n, i) }

  ghost function RecentFrom(msgs: seq<Message>, n: int, i: nat): set<int> {
    set x | i <= x < |msgs| && Recent(msgs, n, x)
  }

  lemma {:induction false} RecentCount(msgs: seq<Message>, n: nat, i: nat)
    requires i <= |msgs|
    ensures |RecentFrom(msgs, n, i)| == if AssistantsFrom(msgs, i) < n then AssistantsFrom(msgs, i) else n
    decreases |msgs| - i
  {
    if i < |msgs| {
      RecentCount(msgs, n, i + 1);
      assert RecentFrom(msgs, n, i) == RecentFrom(msgs, n, i + 1) + if Recent(msgs, n, i) then {i} else {};
    } else {
      assert RecentFrom(msgs, n, i) == {};
    }
  }

  ghost function Turns(msgs: seq<Message>): set<int> { set x | 0 <= x < |msgs| && IsAssistant(msgs[x]) }

  lemma {:induction false} TurnCount(msgs: seq<Message>, i: nat)
    requires i <= |msgs|
    ensures AssistantsFrom(msgs, i) == |set x | i <= x < |msgs| && IsAssistant(msgs[x])|
    decreases |msgs| - i
  {
    var here := set x | i <= x < |msgs| && IsAssistant(msgs[x]);
    if i < |msgs| {
      TurnCount(msgs, i + 1);
      var rest := set x | i + 1 <= x < |msgs| && IsAssistant(msgs[x]);
      assert here == rest + if IsAssistant(msgs[i]) then {i} else {};
    } else {
      assert here == {};
    }
  }

  lemma {:induction false} LaterIsRecent(msgs: seq<Message>, n: int, x: nat, y: nat)
    requires Recent(msgs, n, x) && x < y < |msgs| && IsAssistant(msgs[y])
    ensures Recent(msgs, n, y)
    decreases y - x
  {
    AssistantsFall(msgs, x + 1, y + 1);
  }

  lemma {:induction false} AssistantsFall(msgs: seq<Message>, i: nat, j: nat)
    requires i <= j <= |msgs|
    ensures AssistantsFrom(msgs, j) <= AssistantsFrom(msgs, i)
    decreases j - i
  {
    if i < j { AssistantsFall(msgs, i + 1, j); }
  }

  /** The protected assistants are the last n model turns of the history, or all of them if there are fewer. */
  lemma {:induction false} RecentAreTheLast(msgs: seq<Message>, n: nat)
    ensures var recent := set x | 0 <= x < |msgs| && Recent(msgs, n, x);
            && recent <= Turns(msgs) && |recent| == (if |Turns(msgs)| < n then |Turns(msgs)| else n)
            && forall x, y :: x in recent && y in Turns(msgs) && x < y ==> y in recent
  {
    RecentCount(msgs, n, 0);
    TurnCount(msgs, 0);
    assert RecentFrom(msgs, n, 0) == set x | 0 <= x < |msgs| && Recent(msgs, n, x);
    forall x, y | 0 <= x < y < |msgs| && Recent(msgs, n, x) && IsAssistant(msgs[y]) ensures Recent(msgs, n, y) {
      LaterIsRecent(msgs, n, x, y);
    }
  }

  /** The safety net is the last n model turns and, where one is directly preceded by a user turn, that turn. */
  lemma {:induction false} NetIsTheLastTurns(msgs: seq<Message>, n: nat, x: nat)
    requires x < |msgs|
    ensures var recent := set y | 0 <= y < |msgs| && Recent(msgs, n, y);
            Netted(msgs, n, x) <==> (x in recent || (msgs[x].role.User? && x + 1 in recent))
  {
    var recent := set y | 0 <= y < |msgs| && Recent(msgs, n, y);
    assert x in recent <==> Recent(msgs, n, x);
    assert x + 1 in recent <==> Recent(msgs, n, x + 1);
  }

  method ApplyKeepLastAssistants(msgs: seq<Message>, keep: array<bool>, n: int)
    requires keep.Length == |msgs|
    modifies keep
    ensures forall x :: 0 <= x < |msgs| ==> keep[x] == (old(keep[x]) || Netted(msgs, n, x))
  {
    if n <= 0 {
      return;
    }
    var found := 0;
    var i := |msgs| - 1;
    while i >= 0
      invariant -1 <= i < |msgs|
      invariant found == if AssistantsFrom(msgs, i + 1) < n then AssistantsFrom(msgs, i + 1) else n
      invariant forall x :: 0 <= x < |msgs| ==>
        keep[x] == (old(keep[x]) || (i < x && Recent(msgs, n, x)) || (i <= x && LeadsIn(msgs, n, x)))
    {
      if IsAssistant(msgs[i]) && found < n {
        keep[i] := true;
        if i > 0 && msgs[i - 1].role.User? {
          keep[i - 1] := true;
        }
        found := found + 1;
      }
      i := i - 1;
    }
  }

  ghost predicate CalledBelow(msgs: seq<Message>, n: nat, id: string) {
    exists k :: 0 <= k < n && k < |msgs| && Calls(msgs[k], id)
  }

  ghost predicate LastBelow(msgs: seq<Message>, n: nat, id: string, i: int) {
    && 0 <= i < n && i < |msgs| && Calls(msgs[i], id)
    && forall k :: i < k < n && k < |msgs| ==> !Calls(msgs[k], id)
  }

  lemma {:induction false} CallsOneMore(msgs: seq<Message>, i: nat)
    requires i < |msgs|
    ensures forall id :: CalledBelow(msgs, i + 1, id) <==> CalledBelow(msgs, i, id) || Calls(msgs[i], id)
    ensures forall id :: Calls(msgs[i], id) ==> LastBelow(msgs, i + 1, id, i)
    ensures forall id, c :: LastBelow(msgs, i, id, c) && !Calls(msgs[i], id) ==> LastBelow(msgs, i + 1, id, c)
  {
  }

  method BuildToolCallMap(msgs: seq<Message>) returns (calls: map<string, int>)
    ensures forall id :: id in calls <==> CalledBelow(msgs, |msgs|, id)
    ensures forall id :: id in calls ==> LastCaller(msgs, id, calls[id])
  {
    calls := map[];
    for i := 0 to |msgs|
      invariant forall id :: id in calls <==> CalledBelow(msgs, i, id)
      invariant forall id :: id in calls ==> LastBelow(msgs, i, id, calls[id])
    {
      CallsOneMore(msgs, i);
      if IsAssistant(msgs[i]) {
        calls := NoteCalls(msgs, i, calls);
      }
    }
  }

  /** The inner loop of buildToolCallMap: message i becomes the caller of each of its ids. */
  method NoteCalls(msgs: seq<Message>, i: nat, before: map<string, int>) returns (calls: map<string, int>)
    requires i < |msgs| && IsAssistant(msgs[i])
    ensures forall id :: id in calls <==> id in before || Calls(msgs[i], id)
    ensures forall id :: id in calls ==> calls[id] == if Calls(msgs[i], id) then i else before[id]
  {
    calls := before;
    for k := 0 to |msgs[i].toolCalls|
      invariant forall id :: id in calls <==>
        id in before || (id != "" && exists h :: 0 <= h < k && msgs[i].toolCalls[h].id == id)
      invariant forall id :: id in calls ==>
        calls[id] == if id != "" && (exists h :: 0 <= h < k && msgs[i].toolCalls[h].id == id) then i else before[id]
    {
      if msgs[i].toolCalls[k].id != "" {
        calls := calls[msgs[i].toolCalls[k].id := i];
      }
    }
  }

  method CompleteChainsBackward(msgs: seq<Message>, keep: array<bool>, calls: map<string, int>)
    requires keep.Length == |msgs|
    requires forall id :: id in calls <==> CalledBelow(msgs, |msgs|, id)
    requires forall id :: id in calls ==> LastCaller(msgs, id, calls[id])
    modifies keep
    ensures Marks(keep[..]) == Backward(msgs, Marks(old(keep[..])))
  {
    ghost var was := Marks(keep[..]);
    for i := 0 to |msgs|
      invariant forall x :: 0 <= x < |msgs| ==>
        (keep[x] <==> x in was || exists j :: 0 <= j < i && j in was && LastCallerOf(msgs, x, j))
    {
      if keep[i] && msgs[i].role.Tool? && msgs[i].toolCallID.Some? {
        var id := msgs[i].toolCallID.value;
        if id in calls {
          if !keep[calls[id]] {
            keep[calls[id]] := true;
          }
          assert LastCallerOf(msgs, calls[id], i);
        }
      }
    }
  }

  method KeepResponsesForCall(msgs: seq<Message>, keep: array<bool>, i: nat)
    requires keep.Length == |msgs| && i < |msgs| && IsAssistant(msgs[i])
    modifies keep
    ensures forall x :: 0 <= x < |msgs| ==> (keep[x] <==> old(keep[x]) || Answers(msgs, i, x))
  {
    for k := 0 to |msgs[i].toolCalls|
      invariant forall x :: 0 <= x < |msgs| ==>
        (keep[x] <==>
           || old(keep[x])
           || exists h :: 0 <= h < k && msgs[i].toolCalls[h].id != "" && Responds(msgs[x], msgs[i].toolCalls[h].id))
    {
      var id := msgs[i].toolCalls[k].id;
      if id != "" {
        MarkResponses(msgs, keep, id);
      }
    }
  }

  /** The innermost loop: every response to one id. */
  method MarkResponses(msgs: seq<Message>, keep: array<bool>, id: string)
    requires keep.Length == |msgs|
    modifies keep
    ensures forall x :: 0 <= x < |msgs| ==> (keep[x] <==> old(keep[x]) || Responds(msgs[x], id))
  {
    for j := 0 to |msgs|
      invariant forall x :: 0 <= x < |msgs| ==> (keep[x] <==> old(keep[x]) || (x < j && Responds(msgs[x], id)))
    {
      if msgs[j].role.Tool? && msgs[j].toolCallID == Some(id) {
        keep[j] := true;
      }
    }
  }

  method CompleteChainsForward(msgs: seq<Message>, keep: array<bool>)
    requires keep.Length == |msgs|
    modifies keep
    ensures Marks(keep[..]) == Forward(msgs, Marks(old(keep[..])))
  {
    ghost var was := Marks(keep[..]);
    for i := 0 to |msgs|
      invariant forall x :: 0 <= x < |msgs| ==>
        (keep[x] <==> x in was || exists c :: 0 <= c < i && c in was && Answers(msgs, c, x))
    {
      if keep[i] && IsAssistant(msgs[i]) {
        KeepResponsesForCall(msgs, keep, i);
      }
    }
  }

  method ApplyToolChainConsistency(msgs: seq<Message>, keep: array<bool>)
    requires keep.Length == |msgs|
    modifies keep
    ensures Marks(keep[..]) == Completed(msgs, Marks(old(keep[..])))
    ensures Closed(msgs, Marks(keep[..]))
  {
    TwoPassesClose(msgs, Marks(keep[..]));
    var calls := BuildToolCallMap(msgs);
    CompleteChainsBackward(msgs, keep, calls);
    CompleteChainsForward(msgs, keep);
  }

  // ---------------------------------------------------------------- the compacted list

  /** The kept ones among the first n messages, and their positions. */
  function Select(msgs: seq<Message>, keep: seq<bool>, n: nat): seq<Message>
    requires n <= |msgs| == |keep|
  {
    if n == 0 then [] else Select(msgs, keep, n - 1) + if keep[n - 1] then [msgs[n - 1]] else []
  }

  function Positions(keep: seq<bool>, n: nat): seq<int>
    requires n <= |keep|
  {
    if n == 0 then [] else Positions(keep, n - 1) + if keep[n - 1] then [n - 1] else []
  }

  predicate HasKeptToolCalls(c: seq<Message>) {
    && c != []
    && exists k, q :: 0 <= k < |c[0].toolCalls| && 1 <= q < |c| && c[0].toolCalls[k].id != ""
        && Responds(c[q], c[0].toolCalls[k].id)
  }

  function StripLeading(c: seq<Message>): seq<Message> {
    if c == [] || !IsAssistant(c[0]) || HasKeptToolCalls(c) then c else c[1..]
  }

  /** keepN as CompactMessages clamps it. */
  function Clamp(maxN: int, keepN: int): int {
    var k := if keepN >= maxN then maxN - 1 else keepN;
    if k < 1 then 1 else k
  }

  predicate Triggers(msgs: seq<Message>, maxN: int, keepN: int) { 0 < maxN < |msgs| && 0 < keepN }

  /** The marks before the chain passes: the newest messages and the safety net. */
  ghost function Initial(msgs: seq<Message>, newest: int, n: int): set<int> {
    set x | 0 <= x < |msgs| && (|msgs| - newest <= x || Netted(msgs, n, x))
  }

  /** None of the newest n messages answers a call or is answered. */
  ghost predicate Unchained(msgs: seq<Message>, n: int) {
    forall x, y :: |msgs| - n <= x ==> !Answers(msgs, x, y) && !Answers(msgs, y, x)
  }

  lemma {:induction false} NewestAreMarked(msgs: seq<Message>, n: int, protected: int, keep: seq<bool>)
    requires |keep| == |msgs| && Marks(keep) == Completed(msgs, Initial(msgs, n, protected))
    ensures forall x :: 0 <= x < |msgs| && |msgs| - n <= x ==> keep[x]
    ensures protected <= 0 && Unchained(msgs, n) ==> forall x :: 0 <= x < |msgs| ==> (keep[x] <==> |msgs| - n <= x)
  {
    forall x | 0 <= x < |msgs|
      ensures |msgs| - n <= x ==> keep[x]
      ensures protected <= 0 && Unchained(msgs, n) && keep[x] ==> |msgs| - n <= x
    {
      assert x in Marks(keep) <==> keep[x];
      CompletedIsChained(msgs, Initial(msgs, n, protected), x);
      AssistantsNonNegative(msgs, n, protected, x);
    }
  }

  /** Without protected assistants only the newest messages are marked at first. */
  lemma {:induction false} AssistantsNonNegative(msgs: seq<Message>, n: int, protected: int, x: int)
    ensures protected <= 0 ==> (x in Initial(msgs, n, protected) <==> 0 <= x < |msgs| && |msgs| - n <= x)
  {
  }

  method CompactMessages(msgs: seq<Message>, maxN: int, keepN: int, keepLastAssistants: int)
    returns (compacted: seq<Message>, dropped: int, keep: Option<seq<bool>>)
    ensures dropped + |compacted| == |msgs|
    ensures !Triggers(msgs, maxN, keepN) ==> compacted == msgs && keep == None
    ensures Triggers(msgs, maxN, keepN) ==>
              && keep.Some? && |keep.value| == |msgs|
              && Marks(keep.value) == Completed(msgs, Initial(msgs, Clamp(maxN, keepN), keepLastAssistants))
              && compacted == StripLeading(Select(msgs, keep.value, |msgs|))
    // It triggers exactly on a positive limit that is exceeded and something to keep ...
    ensures keep.Some? <==> maxN > 0 && keepN > 0 && |msgs| > maxN
    // ... and then the newest keepN messages are marked, or maxN - 1 if keepN is not below maxN, and at least one;
    // exactly those if no assistants are protected and none of them is part of a tool chain.
    ensures keep.Some? ==>
              var n := if keepN < maxN then keepN else if 1 < maxN then maxN - 1 else 1;
              && (forall x :: 0 <= x < |msgs| && |msgs| - n <= x ==> keep.value[x])
              && (keepLastAssistants <= 0 && Unchained(msgs, n) ==>
                    forall x :: 0 <= x < |msgs| ==> (keep.value[x] <==> |msgs| - n <= x))
  {
    if maxN <= 0 || keepN <= 0 || |msgs| <= maxN {
      return msgs, 0, None;
    }
    var newest := keepN;
    if newest >= maxN {
      newest := maxN - 1;
    }
    if newest < 1 {
      newest := 1;
    }
    var marks := new bool[|msgs|](_ => false);
    var start := |msgs| - newest;
    for i := start to |msgs|
      invariant forall x :: 0 <= x < |msgs| ==> marks[x] == (start <= x < i)
    {
      marks[i] := true;
    }
    ApplyKeepLastAssistants(msgs, marks, keepLastAssistants);
    assert Marks(marks[..]) == Initial(msgs, newest, keepLastAssistants);
    ApplyToolChainConsistency(msgs, marks);
    compacted := [];
    for i := 0 to |msgs|
      invariant compacted == Select(msgs, marks[..], i)
    {
      if marks[i] {
        compacted := compacted + [msgs[i]];
      }
    }
    compacted := StripLeading(compacted);
    dropped := |msgs| - |compacted|;
    keep := Some(marks[..]);
    NewestAreMarked(msgs, newest, keepLastAssistants, marks[..]);
  }

  /** c is msgs at the rising positions ps, all of them kept. */
  ghost predicate Picks(msgs: seq<Message>, keep: seq<bool>, c: seq<Message>, ps: seq<int>)
    requires |msgs| == |keep|
  {
    && |ps| == |c|
    && (forall p :: 0 <= p < |ps| ==> 0 <= ps[p] < |msgs| && keep[ps[p]] && c[p] == msgs[ps[p]])
    && (forall p, q :: 0 <= p < q < |ps| ==> ps[p] < ps[q])
  }

  lemma {:induction false} PositionsPick(msgs: seq<Message>, keep: seq<bool>, n: nat)
    requires n <= |msgs| == |keep|
    ensures Picks(msgs, keep, Select(msgs, keep, n), Positions(keep, n))
    ensures forall p :: 0 <= p < |Positions(keep, n)| ==> Positions(keep, n)[p] < n
    ensures forall x :: 0 <= x < n && keep[x] ==> x in Positions(keep, n)
  {
    if n > 0 { PositionsPick(msgs, keep, n - 1); }
  }

  function StripPositions(c: seq<Message>, ps: seq<int>): seq<int>
    requires |c| == |ps|
  {
    if c == [] || !IsAssistant(c[0]) || HasKeptToolCalls(c) then ps else ps[1..]
  }

  lemma {:induction false} StripPicks(msgs: seq<Message>, keep: seq<bool>, c: seq<Message>, ps: seq<int>)
    requires |msgs| == |keep| && Picks(msgs, keep, c, ps)
    ensures Picks(msgs, keep, StripLeading(c), StripPositions(c, ps))
  {
  }

  lemma {:induction false} StripDropsOnlyTheFirst(msgs: seq<Message>, keep: seq<bool>, c: seq<Message>, ps: seq<int>,
      x: int)
    requires |msgs| == |keep| && Picks(msgs, keep, c, ps) && forall y :: 0 <= y < |keep| && keep[y] ==> y in ps
    requires 0 <= x < |msgs| && keep[x] && x !in StripPositions(c, ps)
    ensures IsAssistant(msgs[x]) && forall y :: 0 <= y < x ==> !keep[y]
  {
    assert x in ps && ps == [ps[0]] + ps[1..];
    assert x == ps[0];
    assert forall y :: y in ps ==> x <= y;
  }

  /** The positions, in the original list, of what CompactMessages returns. */
  function OutputPositions(msgs: seq<Message>, keep: seq<bool>): seq<int>
    requires |msgs| == |keep|
  {
    var c, ps := Select(msgs, keep, |msgs|), Positions(keep, |msgs|);
    if |c| == |ps| then StripPositions(c, ps) else []
  }

  /** The output is the input at rising positions; every marked position is among them except
      possibly the first one, and that one only if it is a model turn. */
  lemma {:induction false} OutputIsSubsequence(msgs: seq<Message>, keep: seq<bool>)
    requires |msgs| == |keep|
    ensures Picks(msgs, keep, StripLeading(Select(msgs, keep, |msgs|)), OutputPositions(msgs, keep))
    ensures forall x :: 0 <= x < |msgs| && keep[x] && x !in OutputPositions(msgs, keep) ==>
              IsAssistant(msgs[x]) && forall y :: 0 <= y < x ==> !keep[y]
  {
    PositionsPick(msgs, keep, |msgs|);
    var c, ps := Select(msgs, keep, |msgs|), Positions(keep, |msgs|);
    StripPicks(msgs, keep, c, ps);
    forall x | 0 <= x < |msgs| && keep[x] && x !in StripPositions(c, ps)
      ensures IsAssistant(msgs[x]) && forall y :: 0 <= y < x ==> !keep[y]
    {
      StripDropsOnlyTheFirst(msgs, keep, c, ps, x);
    }
  }

  /** When compaction triggers, the newest messages and the safety net are marked. */
  lemma {:induction false} NewestAndNetAreKept(msgs: seq<Message>, newest: int, n: int, x: int)
    requires 0 <= x < |msgs| && (|msgs| - newest <= x || Netted(msgs, n, x))
    ensures x in Completed(msgs, Initial(msgs, newest, n))
  {
  }

  lemma {:induction false} AnsweredHeadStays(c: seq<Message>, q: nat, id: string)
    requires 1 <= q < |c| && Responds(c[q], id) && Calls(c[0], id)
    ensures StripLeading(c) == c
  {
    var k :| 0 <= k < |c[0].toolCalls| && c[0].toolCalls[k].id == id;
    assert Responds(c[q], c[0].toolCalls[k].id);
  }

  /** An answer in c never loses its only call to the strip. */
  lemma {:induction false} StripKeepsCallers(c: seq<Message>, q: nat, p: nat, id: string)
    requires q < |StripLeading(c)| && Responds(StripLeading(c)[q], id) && p < |c| && Calls(c[p], id)
    ensures exists p' :: 0 <= p' < |StripLeading(c)| && Calls(StripLeading(c)[p'], id)
  {
    var q' := if StripLeading(c) == c then q else q + 1;
    assert Responds(c[q'], id);
    if p == 0 {
      AnsweredHeadStays(c, q', id);
    }
    assert Calls(StripLeading(c)[if StripLeading(c) == c then p else p - 1], id);
  }

  lemma {:induction false} CallersStay(msgs: seq<Message>, keep: seq<bool>, c: seq<Message>, ps: seq<int>, q: nat,
      i: nat, id: string)
    requires |msgs| == |keep| && Picks(msgs, keep, c, ps) && (forall x :: 0 <= x < |keep| && keep[x] ==> x in ps)
    requires Closed(msgs, Marks(keep)) && Picks(msgs, keep, StripLeading(c), StripPositions(c, ps))
    requires q < |StripLeading(c)| && i < |msgs| && Responds(StripLeading(c)[q], id) && Calls(msgs[i], id)
    ensures exists p :: 0 <= p < |StripLeading(c)| && Calls(StripLeading(c)[p], id)
  {
    var j := StripPositions(c, ps)[q];
    assert Answers(msgs, i, j) && j in Marks(keep);
    var k :| k in Marks(keep) && Answers(msgs, k, j);
    var p :| 0 <= p < |ps| && ps[p] == k;
    StripKeepsCallers(c, q, p, id);
  }

  /** An answer that is sent on, and whose call exists anywhere in the history, has a call beside it. */
  lemma {:induction false} OutputAnswersHaveCalls(msgs: seq<Message>, keep: seq<bool>, marks: set<int>, q: nat,
      i: nat, id: string)
    requires |msgs| == |keep| && Marks(keep) == Completed(msgs, marks)
    requires var out := StripLeading(Select(msgs, keep, |msgs|)); q < |out| && Responds(out[q], id)
    requires i < |msgs| && Calls(msgs[i], id)
    ensures var out := StripLeading(Select(msgs, keep, |msgs|)); exists p :: 0 <= p < |out| && Calls(out[p], id)
  {
    TwoPassesClose(msgs, marks);
    PositionsPick(msgs, keep, |msgs|);
    StripPicks(msgs, keep, Select(msgs, keep, |msgs|), Positions(keep, |msgs|));
    CallersStay(msgs, keep, Select(msgs, keep, |msgs|), Positions(keep, |msgs|), q, i, id);
  }

  /** Every answer, anywhere in the history, to a call that is sent on is sent on too. */
  lemma {:induction false} OutputCallsHaveAnswers(msgs: seq<Message>, keep: seq<bool>, marks: set<int>, p: nat,
      j: nat, id: string)
    requires |msgs| == |keep| && Marks(keep) == Completed(msgs, marks)
    requires var out := StripLeading(Select(msgs, keep, |msgs|)); p < |out| && Calls(out[p], id)
    requires j < |msgs| && Responds(msgs[j], id)
    ensures j in OutputPositions(msgs, keep)
  {
    TwoPassesClose(msgs, marks);
    OutputIsSubsequence(msgs, keep);
    var i := OutputPositions(msgs, keep)[p];
    assert Answers(msgs, i, j) && i in Marks(keep);
    assert j in Marks(keep) && !IsAssistant(msgs[j]);
  }

  // ---------------------------------------------------------------- does it shrink?

  lemma {:induction false} SelectAll(msgs: seq<Message>, keep: seq<bool>, n: nat)
    requires n <= |msgs| == |keep|
    ensures |Select(msgs, keep, n)| <= n
    ensures |Select(msgs, keep, n)| == n <==> forall x :: 0 <= x < n ==> keep[x]
    ensures (forall x :: 0 <= x < n ==> keep[x]) ==> Select(msgs, keep, n) == msgs[..n]
  {
    if n > 0 { SelectAll(msgs, keep, n - 1); }
  }

  /** Compaction drops a message exactly when some message is not tied to a protected one, or the
      history opens with a model turn nobody answers. */
  lemma {:induction false} ShrinksExactly(msgs: seq<Message>, keep: seq<bool>, marks: set<int>)
    requires |msgs| == |keep| && Marks(keep) == Completed(msgs, marks)
    ensures |StripLeading(Select(msgs, keep, |msgs|))| < |msgs| <==>
            || (exists x :: 0 <= x < |msgs| && !Chained(msgs, marks, x))
            || (msgs != [] && IsAssistant(msgs[0]) && !HasKeptToolCalls(msgs))
  {
    SelectAll(msgs, keep, |msgs|);
    assert msgs[..|msgs|] == msgs;
    forall x | 0 <= x < |msgs| ensures keep[x] <==> Chained(msgs, marks, x) {
      CompletedIsChained(msgs, marks, x);
      assert keep[x] <==> x in Marks(keep);
    }
  }

  lemma {:induction false} PairedAlone(msgs: seq<Message>)
    requires msgs != [] && IsAssistant(msgs[0]) && |msgs| == 1 + |msgs[0].toolCalls|
    requires AnswerAll(msgs[1..], msgs[0].toolCalls)
    ensures Paired(msgs)
  {
    var k := |msgs[0].toolCalls|;
    assert msgs[1..1 + k] == msgs[1..] && msgs[1 + k..] == [];
  }

  lemma {:induction false} TwoAnswersKept(turn: Message, one: Message, two: Message)
    requires Calls(turn, "a") && Calls(turn, "b") && Responds(one, "a") && Responds(two, "b")
    ensures var msgs := [turn, one, two];
            StripLeading(msgs) == msgs && forall x :: 0 <= x < 3 ==> x in Completed(msgs, Initial(msgs, 1, 0))
  {
    var msgs := [turn, one, two];
    var start := Initial(msgs, 1, 0);
    assert Answers(msgs, 0, 2) && LastCallerOf(msgs, 0, 2) && 2 in start;
    assert Wanted(msgs, start, 0);
    assert 0 in Backward(msgs, start);
    assert Answers(msgs, 0, 1);
    assert Owed(msgs, Backward(msgs, start), 1);
    AnsweredHeadStays(msgs, 1, "a");
  }

  /** A history over the limit of which nothing is dropped: the newest message answers the first, which
      made two calls. */
  lemma {:induction false} NothingToDrop() returns (msgs: seq<Message>)
    ensures Paired(msgs) && Triggers(msgs, 2, 1) && StripLeading(msgs) == msgs
    ensures forall x :: 0 <= x < |msgs| ==> x in Completed(msgs, Initial(msgs, Clamp(2, 1), 0))
  {
    var turn := Message(Assistant, "", [ToolCall("a", "search", ""), ToolCall("b", "search", "")], None);
    var one, two := Message(Tool, "", [], Some("a")), Message(Tool, "", [], Some("b"));
    msgs := [turn, one, two];
    PairedAlone(msgs);
    assert turn.toolCalls[0].id == "a" && turn.toolCalls[1].id == "b";
    TwoAnswersKept(turn, one, two);
  }
}
