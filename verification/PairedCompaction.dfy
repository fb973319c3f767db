/**
 Compaction (internal/agent/compaction.go) against the histories the tool loop produces
 (internal/app/runner.go): when every call has its own id, pairing survives. The budget compaction of
 internal/agent/session_history.go cuts by count instead; it is shown exactly when that is safe.
*/
module PairedCompaction {
  import opened Wrappers
  import opened Messages
  import opened Compaction
  import ToolLoop
  import H = SessionHistory

  /** Every call carries an id. */
  ghost predicate NamedCalls(msgs: seq<Message>) {
    forall i, k :: 0 <= i < |msgs| && 0 <= k < |msgs[i].toolCalls| ==> msgs[i].toolCalls[k].id != ""
  }

  /** The kept messages from position i on. */
  function SelectFrom(msgs: seq<Message>, keep: seq<bool>, i: nat): seq<Message>
    requires i <= |msgs| == |keep|
    decreases |msgs| - i
  {
    if i == |msgs| then [] else (if keep[i] then [msgs[i]] else []) + SelectFrom(msgs, keep, i + 1)
  }

  lemma {:induction false} SelectSplits(msgs: seq<Message>, keep: seq<bool>, n: nat)
    requires n <= |msgs| == |keep|
    ensures Select(msgs, keep, n) + SelectFrom(msgs, keep, n) == SelectFrom(msgs, keep, 0)
  {
    if n > 0 {
      SelectSplits(msgs, keep, n - 1);
      var here := if keep[n - 1] then [msgs[n - 1]] else [];
      assert Select(msgs, keep, n - 1) + (here + SelectFrom(msgs, keep, n)) ==
          Select(msgs, keep, n - 1) + here + SelectFrom(msgs, keep, n);
    }
  }

  /** A stretch that is kept or dropped as a whole. */
  lemma {:induction false} SelectStretch(msgs: seq<Message>, keep: seq<bool>, i: nat, m: nat)
    requires i < m <= |msgs| == |keep| && forall x :: i <= x < m ==> keep[x] == keep[i]
    ensures SelectFrom(msgs, keep, i) == (if keep[i] then msgs[i..m] else []) + SelectFrom(msgs, keep, m)
    decreases m - i
  {
    var tail := SelectFrom(msgs, keep, m);
    if i + 1 == m {
      assert msgs[i..m] == [msgs[i]];
    } else {
      SelectStretch(msgs, keep, i + 1, m);
      assert keep[i + 1] == keep[i];
      if keep[i] {
        assert msgs[i..m] + tail == [msgs[i]] + (msgs[i + 1..m] + tail);
      } else {
        assert SelectFrom(msgs, keep, i) == SelectFrom(msgs, keep, i + 1);
      }
    }
  }

  // ---------------------------------------------------------------- what is sent on

  /** Message x is one of the answers right behind turn t. */
  predicate InBlock(msgs: seq<Message>, t: int, x: int) {
    0 <= t < x < |msgs| && x <= t + |msgs[t].toolCalls|
  }

  /** Every turn goes with all of its answers. */
  ghost predicate Together(msgs: seq<Message>, sent: set<int>) {
    forall t, x :: InBlock(msgs, t, x) ==> (t in sent <==> x in sent)
  }

  /** None of its calls has an id. */
  ghost predicate Unnamed(m: Message) { forall k :: 0 <= k < |m.toolCalls| ==> m.toolCalls[k].id == "" }

  /** The oldest kept message is taken away if it is a model turn that made no named call. */
  ghost predicate Stripped(msgs: seq<Message>, kept: set<int>, x: int) {
    0 <= x < |msgs| && IsAssistant(msgs[x]) && Unnamed(msgs[x]) && forall y :: y in kept ==> x <= y
  }

  ghost function Sent(msgs: seq<Message>, kept: set<int>): set<int> {
    set x | x in kept && 0 <= x < |msgs| && !Stripped(msgs, kept, x)
  }

  ghost function Flags(n: nat, s: set<int>): seq<bool> { seq(n, i requires 0 <= i < n => i in s) }

  lemma {:induction false} InBlockAnswers(msgs: seq<Message>, t: nat, x: nat)
    requires Paired(msgs) && InBlock(msgs, t, x)
    ensures IsAssistant(msgs[t]) && AnswersCall(msgs[x], msgs[t].toolCalls[x - t - 1])
  {
    PairedTurnIsModel(msgs, t);
    PairedCallsAnswered(msgs, t, x - t - 1);
  }

  /** The answer of a named call of a kept turn is kept. */
  lemma {:induction false} NamedAnswerKept(msgs: seq<Message>, kept: set<int>, t: nat, x: nat)
    requires Paired(msgs) && Closed(msgs, kept) && InBlock(msgs, t, x) && t in kept
        && msgs[t].toolCalls[x - t - 1].id != ""
    ensures x in kept
  {
    InBlockAnswers(msgs, t, x);
    assert Calls(msgs[t], msgs[t].toolCalls[x - t - 1].id);
    assert Answers(msgs, t, x);
  }

  lemma {:induction false} SelectAgrees(msgs: seq<Message>, keep: seq<bool>, keep': seq<bool>, i: nat)
    requires i <= |msgs| == |keep| == |keep'| && forall x :: i <= x < |msgs| ==> keep[x] == keep'[x]
    ensures SelectFrom(msgs, keep, i) == SelectFrom(msgs, keep', i)
    decreases |msgs| - i
  {
    if i < |msgs| { SelectAgrees(msgs, keep, keep', i + 1); }
  }

  lemma {:induction false} SelectsAsFrom(msgs: seq<Message>, keep: seq<bool>)
    requires |msgs| == |keep|
    ensures Select(msgs, keep, |msgs|) == SelectFrom(msgs, keep, 0)
  {
    SelectSplits(msgs, keep, |msgs|);
  }

  lemma {:induction false} SelectSkips(msgs: seq<Message>, keep: seq<bool>, h: nat)
    requires h <= |msgs| == |keep| && forall x :: 0 <= x < h ==> !keep[x]
    ensures SelectFrom(msgs, keep, 0) == SelectFrom(msgs, keep, h)
  {
    if h > 0 { SelectSkips(msgs, keep, h - 1); }
  }

  /** Selecting without the first kept message. */
  lemma {:induction false} SelectWithoutFirst(msgs: seq<Message>, keep: seq<bool>, keep': seq<bool>, h: nat)
    requires h < |msgs| == |keep| == |keep'| && keep[h] && forall x :: 0 <= x < h ==> !keep[x]
    requires forall x :: 0 <= x < |msgs| ==> keep'[x] == (keep[x] && x != h)
    ensures Select(msgs, keep, |msgs|) == [msgs[h]] + Select(msgs, keep', |msgs|)
  {
    SelectSkips(msgs, keep, h);
    SelectSkips(msgs, keep', h + 1);
    SelectAgrees(msgs, keep, keep', h + 1);
    SelectsAsFrom(msgs, keep);
    SelectsAsFrom(msgs, keep');
  }

  /** The head of the selection is stripped exactly if it is a model turn that made no named call. */
  lemma {:induction false} HeadStrippedExactly(msgs: seq<Message>, keep: seq<bool>, h: nat)
    requires Paired(msgs) && |msgs| == |keep| && Closed(msgs, Marks(keep))
    requires h < |msgs| && keep[h] && forall x :: 0 <= x < h ==> !keep[x]
    requires var c := Select(msgs, keep, |msgs|); c != [] && c[0] == msgs[h]
    ensures var c := Select(msgs, keep, |msgs|);
            StripLeading(c) == if IsAssistant(msgs[h]) && Unnamed(msgs[h]) then c[1..] else c
  {
    var c := Select(msgs, keep, |msgs|);
    if k :| 0 <= k < |msgs[h].toolCalls| && msgs[h].toolCalls[k].id != "" {
      var x := h + 1 + k;
      PairedCallsAnswered(msgs, h, k);
      NamedAnswerKept(msgs, Marks(keep), h, x);
      PositionsPick(msgs, keep, |msgs|);
      var ps := Positions(keep, |msgs|);
      assert keep[x] && x in ps;
      var q :| 0 <= q < |ps| && ps[q] == x;
      assert Responds(c[q], c[0].toolCalls[k].id);
      assert q != 0;
    }
  }

  /** If a first message is kept: what is sent on is what is kept, without it if it is stripped. */
  lemma {:induction false} SentFlags(msgs: seq<Message>, keep: seq<bool>, h: nat)
    requires h < |msgs| == |keep| && keep[h] && forall x :: 0 <= x < h ==> !keep[x]
    ensures Flags(|msgs|, Sent(msgs, Marks(keep))) ==
            if IsAssistant(msgs[h]) && Unnamed(msgs[h]) then keep[h := false] else keep
  {
    var kept, flags := Marks(keep), Flags(|msgs|, Sent(msgs, Marks(keep)));
    assert h in kept;
    forall x | 0 <= x < |msgs|
      ensures flags[x] == (keep[x] && !(x == h && IsAssistant(msgs[h]) && Unnamed(msgs[h])))
    {
      assert x in kept <==> keep[x];
      assert x < h ==> !keep[x];
      assert x == h ==> forall y :: y in kept ==> x <= y;
    }
  }

  lemma {:induction false} StripSendsSome(msgs: seq<Message>, keep: seq<bool>, h: nat)
    requires Paired(msgs) && h < |msgs| == |keep| && Closed(msgs, Marks(keep))
    requires keep[h] && forall x :: 0 <= x < h ==> !keep[x]
    ensures StripLeading(Select(msgs, keep, |msgs|)) == Select(msgs, Flags(|msgs|, Sent(msgs, Marks(keep))), |msgs|)
  {
    SelectWithoutFirst(msgs, keep, keep[h := false], h);
    HeadStrippedExactly(msgs, keep, h);
    SentFlags(msgs, keep, h);
  }

  lemma {:induction false} StripSendsNone(msgs: seq<Message>, keep: seq<bool>)
    requires |msgs| == |keep| && forall x :: 0 <= x < |keep| ==> !keep[x]
    ensures StripLeading(Select(msgs, keep, |msgs|)) == Select(msgs, Flags(|msgs|, Sent(msgs, Marks(keep))), |msgs|)
  {
    assert Flags(|msgs|, Sent(msgs, Marks(keep))) == keep;
    SelectSkips(msgs, keep, |msgs|);
    SelectsAsFrom(msgs, keep);
  }

  /** What CompactMessages returns is the history at the positions sent on. */
  lemma {:induction false} StripSends(msgs: seq<Message>, keep: seq<bool>)
    requires Paired(msgs) && |msgs| == |keep| && Closed(msgs, Marks(keep))
    ensures StripLeading(Select(msgs, keep, |msgs|)) == Select(msgs, Flags(|msgs|, Sent(msgs, Marks(keep))), |msgs|)
  {
    if h :| 0 <= h < |msgs| && keep[h] && forall x :: 0 <= x < h ==> !keep[x] {
      StripSendsSome(msgs, keep, h);
    } else {
      NoneKept(keep, |keep|);
      StripSendsNone(msgs, keep);
    }
  }

  /** If there is no first kept message there is no kept message. */
  lemma {:induction false} NoneKept(keep: seq<bool>, n: nat)
    requires n <= |keep| && forall h :: 0 <= h < |keep| && keep[h] ==> exists x :: 0 <= x < h && keep[x]
    ensures forall x :: 0 <= x < n ==> !keep[x]
  {
    if n > 0 { NoneKept(keep, n - 1); }
  }

  // ---------------------------------------------------------------- together is enough

  lemma {:induction false} LedAlone(msgs: seq<Message>)
    requires msgs != [] && Led(msgs)
    ensures Paired(msgs[..1 + |msgs[0].toolCalls|])
  {
    var k := |msgs[0].toolCalls|;
    var head := msgs[..1 + k];
    assert head[1..1 + k] == msgs[1..1 + k] && head[1 + k..] == [];
  }

  lemma {:induction false} BlockTogether(msgs: seq<Message>, keep: seq<bool>, i: nat)
    requires |msgs| == |keep| && Together(msgs, Marks(keep)) && i < |msgs| && i + |msgs[i].toolCalls| < |msgs|
    ensures forall x :: i <= x <= i + |msgs[i].toolCalls| ==> keep[x] == keep[i]
  {
    forall x | i < x <= i + |msgs[i].toolCalls| ensures keep[x] == keep[i] {
      assert InBlock(msgs, i, x) && (x in Marks(keep) <==> keep[x]) && (i in Marks(keep) <==> keep[i]);
    }
  }

  lemma {:induction false} SelectionPaired(msgs: seq<Message>, keep: seq<bool>, i: nat)
    requires i <= |msgs| == |keep| && Together(msgs, Marks(keep)) && Paired(msgs[i..])
    ensures Paired(SelectFrom(msgs, keep, i))
    decreases |msgs| - i
  {
    if i < |msgs| {
      var rest, k := msgs[i..], |msgs[i].toolCalls|;
      var m := i + 1 + k;
      assert Led(rest);
      BlockTogether(msgs, keep, i);
      SelectStretch(msgs, keep, i, m);
      assert rest[1 + k..] == msgs[m..];
      SelectionPaired(msgs, keep, m);
      if keep[i] {
        LedAlone(rest);
        assert rest[..1 + k] == msgs[i..m];
        PairedConcat(msgs[i..m], SelectFrom(msgs, keep, m));
      } else {
        assert [] + SelectFrom(msgs, keep, m) == SelectFrom(msgs, keep, m);
      }
    }
  }

  lemma {:induction false} FlagsMark(msgs: seq<Message>, kept: set<int>)
    ensures Marks(Flags(|msgs|, Sent(msgs, kept))) == Sent(msgs, kept)
  {
  }

  lemma {:induction false} TogetherSuffices(msgs: seq<Message>, keep: seq<bool>)
    requires Paired(msgs) && |msgs| == |keep| && Closed(msgs, Marks(keep)) && Together(msgs, Sent(msgs, Marks(keep)))
    ensures Paired(StripLeading(Select(msgs, keep, |msgs|)))
  {
    var keep' := Flags(|msgs|, Sent(msgs, Marks(keep)));
    StripSends(msgs, keep);
    FlagsMark(msgs, Marks(keep));
    assert msgs[0..] == msgs;
    SelectionPaired(msgs, keep', 0);
    SelectsAsFrom(msgs, keep');
  }

  // ---------------------------------------------------------------- together is needed

  /** The model turns sent on are the last ones of the history. */
  ghost predicate LastTurns(msgs: seq<Message>, sent: set<int>) {
    forall t, u :: t in sent && 0 <= t < u < |msgs| && IsAssistant(msgs[t]) && IsAssistant(msgs[u]) ==> u in sent
  }

  /** A call kept for a marked answer is that answer's own turn or comes after the answer. */
  lemma {:induction false} WantedIsOwnOrLater(msgs: seq<Message>, t: nat, j: nat)
    requires Paired(msgs) && LastCallerOf(msgs, t, j)
    ensures t > j || InBlock(msgs, t, j)
  {
    var u, k := PairedAnswersCalled(msgs, j);
    assert Calls(msgs[u], msgs[j].toolCallID.value);
    if u < t <= j { InBlockAnswers(msgs, u, t); }
  }

  /** Under the marks of CompactMessages the kept model turns are the last ones. */
  lemma {:induction false} KeptTurnsAreLast(msgs: seq<Message>, newest: int, n: int, t: nat, u: nat)
    requires Paired(msgs) && t in Completed(msgs, Initial(msgs, newest, n))
    requires t < u < |msgs| && IsAssistant(msgs[t]) && IsAssistant(msgs[u])
    ensures u in Completed(msgs, Initial(msgs, newest, n))
  {
    var marks := Initial(msgs, newest, n);
    AssistantsFall(msgs, t + 1, u + 1);
    if t !in marks {
      assert Wanted(msgs, marks, t);
      var j :| j in marks && LastCallerOf(msgs, t, j);
      WantedIsOwnOrLater(msgs, t, j);
      assert |msgs| - newest <= j;
      if InBlock(msgs, t, j) && u <= j { InBlockAnswers(msgs, t, u); }
      assert u in marks;
    }
  }

  lemma {:induction false} SentTurnsAreLast(msgs: seq<Message>, newest: int, n: int)
    requires Paired(msgs)
    ensures LastTurns(msgs, Sent(msgs, Completed(msgs, Initial(msgs, newest, n))))
  {
    var kept := Completed(msgs, Initial(msgs, newest, n));
    forall t, u | t in Sent(msgs, kept) && 0 <= t < u < |msgs| && IsAssistant(msgs[t]) && IsAssistant(msgs[u])
      ensures u in Sent(msgs, kept)
    {
      KeptTurnsAreLast(msgs, newest, n, t, u);
    }
  }

  /** The selected list is paired and ps are its positions. */
  ghost predicate PairedPick(msgs: seq<Message>, sent: set<int>, out: seq<Message>, ps: seq<int>) {
    Paired(msgs) && Paired(out) && LastTurns(msgs, sent) && PickOf(msgs, sent, out, ps)
  }

  ghost predicate PickOf(msgs: seq<Message>, sent: set<int>, out: seq<Message>, ps: seq<int>) {
    && |ps| == |out| && (forall p :: 0 <= p < |ps| ==> 0 <= ps[p] < |msgs| && out[p] == msgs[ps[p]])
    && (forall p, q :: 0 <= p < q < |ps| ==> ps[p] < ps[q])
    && (forall x :: x in sent <==> x in ps)
  }

  /** An answer is sent on only with its own turn: a sent turn before it cannot be an earlier one. */
  lemma {:induction false} AnswersBringTurns(msgs: seq<Message>, sent: set<int>, out: seq<Message>, ps: seq<int>,
      t: nat, x: nat)
    requires PairedPick(msgs, sent, out, ps) && InBlock(msgs, t, x) && x in sent
    ensures t in sent
  {
    InBlockAnswers(msgs, t, x);
    var q :| 0 <= q < |ps| && ps[q] == x;
    var i, k := PairedAnswersCalled(out, q);
    var u := ps[i];
    assert u in sent && IsAssistant(msgs[u]) && u < x;
    if t < u { InBlockAnswers(msgs, t, u); }
  }

  /** What follows a sent turn, as far as its calls reach, are its own answers. */
  lemma {:induction false} OwnAnswersFollow(msgs: seq<Message>, sent: set<int>, out: seq<Message>, ps: seq<int>,
      i: nat, m: nat)
    requires PairedPick(msgs, sent, out, ps) && i < |ps| && m < |msgs[ps[i]].toolCalls|
    ensures i + 1 + m < |ps| && InBlock(msgs, ps[i], ps[i + 1 + m])
  {
    var t := ps[i];
    PairedCallsAnswered(out, i, m);
    var y := ps[i + 1 + m];
    var u, k := PairedAnswersCalled(msgs, y);
    assert y in sent && InBlock(msgs, u, y);
    AnswersBringTurns(msgs, sent, out, ps, u, y);
    if u < t { InBlockAnswers(msgs, u, t); }
    if t < u {
      var p :| 0 <= p < |ps| && ps[p] == u;
      assert i < p < i + 1 + m;
      PairedCallsAnswered(out, i, p - i - 1);
    }
  }

  lemma {:induction false} RisesBy(ps: seq<int>, p: nat, q: nat)
    requires p <= q < |ps| && forall a, b :: 0 <= a < b < |ps| ==> ps[a] < ps[b]
    ensures ps[q] - ps[p] >= q - p
  {
    if p < q { RisesBy(ps, p, q - 1); }
  }

  /** k rising positions within k places are those places. */
  lemma {:induction false} Squeezed(ps: seq<int>, i: nat, k: nat, x: int)
    requires i + k < |ps| && ps[i] <= x <= ps[i] + k && ps[i + k] <= ps[i] + k
    requires forall a, b :: 0 <= a < b < |ps| ==> ps[a] < ps[b]
    ensures x in ps
  {
    var m := x - ps[i];
    RisesBy(ps, i, i + m);
    RisesBy(ps, i + m, i + k);
    assert ps[i + m] == x;
  }

  /** Where turn t stands in the selection, and that its last answer follows in time. */
  lemma {:induction false} TurnPlace(msgs: seq<Message>, sent: set<int>, out: seq<Message>, ps: seq<int>, t: nat)
    returns (i: nat)
    requires PairedPick(msgs, sent, out, ps) && t in sent && t < |msgs| && msgs[t].toolCalls != []
    ensures i + |msgs[t].toolCalls| < |ps| && ps[i] == t && ps[i + |msgs[t].toolCalls|] <= t + |msgs[t].toolCalls|
  {
    i :| 0 <= i < |ps| && ps[i] == t;
    OwnAnswersFollow(msgs, sent, out, ps, i, |msgs[t].toolCalls| - 1);
  }

  /** A turn is sent on only with all of its answers: as many as it has calls, all from its own block. */
  lemma {:induction false} TurnsBringAnswers(msgs: seq<Message>, sent: set<int>, out: seq<Message>, ps: seq<int>,
                                             t: nat, x: nat)
    requires PairedPick(msgs, sent, out, ps) && InBlock(msgs, t, x) && t in sent
    ensures x in sent
  {
    var i := TurnPlace(msgs, sent, out, ps, t);
    Squeezed(ps, i, |msgs[t].toolCalls|, x);
  }

  lemma {:induction false} FlagsPick(msgs: seq<Message>, sent: set<int>)
    requires forall x :: x in sent ==> 0 <= x < |msgs|
    ensures var keep := Flags(|msgs|, sent); PickOf(msgs, sent, Select(msgs, keep, |msgs|), Positions(keep, |msgs|))
  {
    PositionsPick(msgs, Flags(|msgs|, sent), |msgs|);
  }

  lemma {:induction false} PairedPickTogether(msgs: seq<Message>, sent: set<int>, out: seq<Message>, ps: seq<int>)
    requires PairedPick(msgs, sent, out, ps)
    ensures Together(msgs, sent)
  {
    forall t, x | InBlock(msgs, t, x) ensures t in sent <==> x in sent {
      if x in sent { AnswersBringTurns(msgs, sent, out, ps, t, x); }
      if t in sent { TurnsBringAnswers(msgs, sent, out, ps, t, x); }
    }
  }

  lemma {:induction false} TogetherNeeded(msgs: seq<Message>, keep: seq<bool>)
    requires Paired(msgs) && |msgs| == |keep| && Closed(msgs, Marks(keep)) && LastTurns(msgs, Sent(msgs, Marks(keep)))
    requires Paired(StripLeading(Select(msgs, keep, |msgs|)))
    ensures Together(msgs, Sent(msgs, Marks(keep)))
  {
    var sent := Sent(msgs, Marks(keep));
    var keep' := Flags(|msgs|, sent);
    StripSends(msgs, keep);
    FlagsPick(msgs, sent);
    PairedPickTogether(msgs, sent, Select(msgs, keep', |msgs|), Positions(keep', |msgs|));
  }

  // ---------------------------------------------------------------- exactly when pairing survives

  /** Compaction of a paired history, whatever its ids, gives a paired history exactly if every turn is sent
      on with all of its answers or with none. What is kept is a function of the input; see Chained. */
  lemma {:induction false} CompactionPairedExactly(msgs: seq<Message>, newest: int, n: int, keep: seq<bool>)
    requires Paired(msgs) && |msgs| == |keep| && Marks(keep) == Completed(msgs, Initial(msgs, newest, n))
    ensures Paired(StripLeading(Select(msgs, keep, |msgs|))) <==>
            Together(msgs, Sent(msgs, Completed(msgs, Initial(msgs, newest, n))))
  {
    TwoPassesClose(msgs, Initial(msgs, newest, n));
    if Together(msgs, Sent(msgs, Marks(keep))) {
      TogetherSuffices(msgs, keep);
    }
    if Paired(StripLeading(Select(msgs, keep, |msgs|))) {
      SentTurnsAreLast(msgs, newest, n);
      TogetherNeeded(msgs, keep);
    }
  }

  /** If every call has an id, only an answer without its turn can break the pairing. */
  lemma {:induction false} NamedPairedExactly(msgs: seq<Message>, newest: int, n: int, keep: seq<bool>)
    requires Paired(msgs) && NamedCalls(msgs)
    requires |msgs| == |keep| && Marks(keep) == Completed(msgs, Initial(msgs, newest, n))
    ensures var kept := Completed(msgs, Initial(msgs, newest, n));
            Paired(StripLeading(Select(msgs, keep, |msgs|))) <==>
            forall t, x :: InBlock(msgs, t, x) && x in kept ==> t in kept
  {
    CompactionPairedExactly(msgs, newest, n, keep);
    TwoPassesClose(msgs, Initial(msgs, newest, n));
    NamedTogether(msgs, Marks(keep));
  }

  lemma {:induction false} NamedTogether(msgs: seq<Message>, kept: set<int>)
    requires Paired(msgs) && NamedCalls(msgs) && Closed(msgs, kept)
    ensures Together(msgs, Sent(msgs, kept)) <==> forall t, x :: InBlock(msgs, t, x) && x in kept ==> t in kept
  {
    forall t, x | InBlock(msgs, t, x)
      ensures (t in Sent(msgs, kept) <==> t in kept) && (x in Sent(msgs, kept) <==> x in kept)
          && (t in kept ==> x in kept)
    {
      InBlockAnswers(msgs, t, x);
      assert msgs[t].toolCalls[x - t - 1].id != "";
      if t in kept { NamedAnswerKept(msgs, kept, t, x); }
    }
  }

  /** So compaction of a paired history whose calls have their own ids gives a paired history, from any marks. */
  lemma {:induction false} CompactionKeepsPairing(msgs: seq<Message>, keep: seq<bool>, marks: set<int>)
    requires Paired(msgs) && UniqueCallIds(msgs) && NamedCalls(msgs)
    requires |msgs| == |keep| && Marks(keep) == Completed(msgs, marks)
    ensures Paired(StripLeading(Select(msgs, keep, |msgs|)))
  {
    var kept := Marks(keep);
    TwoPassesClose(msgs, marks);
    forall t, x | InBlock(msgs, t, x) && x in kept ensures t in kept {
      InBlockAnswers(msgs, t, x);
      assert Calls(msgs[t], msgs[t].toolCalls[x - t - 1].id);
      assert Answers(msgs, t, x);
      var c :| c in kept && Answers(msgs, c, x);
      assert Calls(msgs[c], msgs[t].toolCalls[x - t - 1].id);
    }
    NamedTogether(msgs, kept);
    TogetherSuffices(msgs, keep);
  }

  /** A turn run on a compacted history leaves a paired history behind whenever the compaction did. */
  lemma {:induction false} TurnAfterCompaction(msgs: seq<Message>, newest: int, n: int, keep: seq<bool>,
      more: seq<Message>, env: ToolLoop.Env)
    requires Paired(msgs) && Paired(more)
    requires |msgs| == |keep| && Marks(keep) == Completed(msgs, Initial(msgs, newest, n))
    ensures var run := ToolLoop.Play(env, StripLeading(Select(msgs, keep, |msgs|)) + more, 0, 0, []).0;
            Together(msgs, Sent(msgs, Marks(keep))) && ToolLoop.ModelReplies(env) && run.Done? ==> Paired(run.messages)
  {
    var sent := StripLeading(Select(msgs, keep, |msgs|));
    CompactionPairedExactly(msgs, newest, n, keep);
    if Paired(sent) && ToolLoop.ModelReplies(env) && ToolLoop.Play(env, sent + more, 0, 0, []).0.Done? {
      PairedConcat(sent, more);
      ToolLoop.RunKeepsPairing(env, sent + more);
    }
  }

  // ---------------------------------------------------------------- inputs that split

  lemma {:induction false} LoneTurn(call: Message, answer: Message)
    requires IsAssistant(call) && |call.toolCalls| == 1 && AnswersCall(answer, call.toolCalls[0])
    ensures Paired([call, answer])
  {
    var msgs := [call, answer];
    assert msgs[1..2] == [answer] && msgs[2..] == [];
    assert Led(msgs);
  }

  /** Calls without an id are not tied to their answers: the newest answer can be left without its call. */
  lemma {:induction false} UnnamedCallsAreSplit() returns (msgs: seq<Message>, keep: seq<bool>)
    ensures Paired(msgs) && UniqueCallIds(msgs) && Triggers(msgs, 1, 1) && |keep| == |msgs|
    ensures Marks(keep) == Completed(msgs, Initial(msgs, Clamp(1, 1), 0))
        && !Paired(StripLeading(Select(msgs, keep, |msgs|)))
  {
    var call, answer := Message(Assistant, "", [ToolCall("", "search", "")], None), Message(Tool, "", [], None);
    msgs, keep := [call, answer], [false, true];
    LoneTurn(call, answer);
    assert forall i, id :: 0 <= i < 2 ==> !Calls(msgs[i], id);
    assert Initial(msgs, 1, 0) == {1} == Marks(keep);
    assert Select(msgs, keep, 2) == [answer] by { assert Select(msgs, keep, 1) == []; }
    AnswerFirst([answer]);
  }

  lemma {:induction false} RepeatedMarks(call: Message, answer: Message)
    requires IsAssistant(call) && |call.toolCalls| == 1 && call.toolCalls[0].id == "a" && Responds(answer, "a")
    ensures var msgs := [call, answer, call, answer]; Completed(msgs, Initial(msgs, 1, 0)) == {1, 2, 3}
  {
    var msgs := [call, answer, call, answer];
    var start := Initial(msgs, 1, 0);
    assert Calls(call, "a") && !Calls(answer, "a");
    assert start == {3};
    assert LastCallerOf(msgs, 2, 3) && Wanted(msgs, start, 2);
    assert Backward(msgs, start) == {2, 3};
    assert Answers(msgs, 2, 1) && Owed(msgs, {2, 3}, 1);
    assert Forward(msgs, {2, 3}) == {1, 2, 3};
  }

  lemma {:induction false} DropFirst(msgs: seq<Message>)
    requires |msgs| == 4
    ensures Select(msgs, [false, true, true, true], 4) == msgs[1..]
  {
    var keep := [false, true, true, true];
    SelectStretch(msgs, keep, 1, 4);
    assert SelectFrom(msgs, keep, 0) == msgs[1..4];
    SelectSplits(msgs, keep, 4);
  }

  /** A history that opens with an answer is not paired, and the strip does not mend it. */
  lemma {:induction false} AnswerFirst(c: seq<Message>)
    requires c != [] && c[0].role.Tool?
    ensures !Paired(StripLeading(c))
  {
  }

  lemma {:induction false} TwoTurnsPaired(call: Message, answer: Message)
    requires IsAssistant(call) && |call.toolCalls| == 1 && AnswersCall(answer, call.toolCalls[0])
    ensures Paired([call, answer, call, answer])
  {
    LoneTurn(call, answer);
    PairedConcat([call, answer], [call, answer]);
    assert [call, answer, call, answer] == [call, answer] + [call, answer];
  }

  /** Ids used by two turns tie an answer to the wrong one: its own call can be dropped. */
  lemma {:induction false} RepeatedIdsAreSplit() returns (msgs: seq<Message>, keep: seq<bool>)
    ensures Paired(msgs) && NamedCalls(msgs) && Triggers(msgs, 2, 1) && |keep| == |msgs|
    ensures Marks(keep) == Completed(msgs, Initial(msgs, Clamp(2, 1), 0))
    ensures !Paired(StripLeading(Select(msgs, keep, |msgs|)))
  {
    var call := Message(Assistant, "", [ToolCall("a", "search", "")], None);
    var answer := Message(Tool, "", [], Some("a"));
    msgs, keep := [call, answer, call, answer], [false, true, true, true];
    TwoTurnsPaired(call, answer);
    RepeatedMarks(call, answer);
    assert Marks(keep) == {1, 2, 3};
    DropFirst(msgs);
    AnswerFirst(msgs[1..]);
  }

  // ---------------------------------------------------------------- compaction by count

  /** The end of a paired history is paired exactly if it does not begin with an answer. */
  lemma {:induction false} SuffixPairedExactly(msgs: seq<Message>, p: nat)
    requires Paired(msgs) && p < |msgs|
    ensures Paired(msgs[p..]) <==> !msgs[p].role.Tool?
    decreases |msgs|
  {
    var k := |msgs[0].toolCalls|;
    if p > k {
      SuffixPairedExactly(msgs[1 + k..], p - 1 - k);
      assert msgs[1 + k..][p - 1 - k..] == msgs[p..];
    } else {
      LedAnswers(msgs, p);
      assert msgs[p..][0] == msgs[p] && msgs[0..] == msgs;
    }
  }

  /** A summary in place of all but the newest n messages gives a paired history exactly if the oldest message kept is
      not a tool answer. */
  lemma {:induction false} SummaryPairedExactly(msgs: seq<Message>, n: nat, summary: Message)
    requires Paired(msgs) && 0 < n <= |msgs| && summary.role.System? && summary.toolCalls == []
    ensures Paired([summary] + msgs[|msgs| - n..]) <==> !msgs[|msgs| - n].role.Tool?
  {
    SuffixPairedExactly(msgs, |msgs| - n);
    var all := [summary] + msgs[|msgs| - n..];
    assert all[1..1] == [] && all[1..] == msgs[|msgs| - n..];
    assert Led(all);
  }

  /** What a budget compaction publishes is paired exactly if the oldest message it keeps is not a tool answer. */
  lemma {:induction false} BudgetCompactionPairedExactly(cfg: H.Config, msgs: seq<Message>, summary: Message)
    requires Paired(msgs) && H.Keep(cfg) < |msgs| && summary.role.System? && summary.toolCalls == []
    ensures Paired(H.Shrunk(cfg, msgs, summary)) <==> !msgs[|msgs| - H.Keep(cfg)].role.Tool?
  {
    SummaryPairedExactly(msgs, H.Keep(cfg), summary);
  }

  /** A history over the budget whose only kept message is an answer without its turn. */
  lemma {:induction false} BudgetCutSplits() returns (cfg: H.Config, msgs: seq<Message>, summary: Message)
    ensures Paired(msgs) && 0 < cfg.budget < cfg.estimate(msgs) && H.Keep(cfg) < |msgs| && summary.role.System?
    ensures !Paired(H.Shrunk(cfg, msgs, summary))
  {
    var call := Message(Assistant, "", [ToolCall("a", "search", "")], None);
    var answer := Message(Tool, "", [], Some("a"));
    cfg, msgs, summary := H.Config(1, 1, _ => 2), [call, answer], Message(System, "", [], None);
    LoneTurn(call, answer);
    BudgetCompactionPairedExactly(cfg, msgs, summary);
  }
}
