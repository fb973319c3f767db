/**
 The agent's tool-call loop: internal/app/runner.go, runner_tools.go and runner_reflection.go. The
 provider, the tools with their hooks and the critic are arbitrary functions of where in the run they are asked.
*/
module ToolLoop {
  import opened Wrappers
  import opened Messages

  /** One tool invocation: the chat turn it belongs to and its number within the run, counted from one. */
  datatype CallState = CallState(iter: nat, seqLen: nat, call: ToolCall)

  datatype ToolError = Canceled | DeadlineExceeded | Denied | OtherError

  /** How an invocation went: the pre-tool hook failed or overrode it, the tool answered, or it failed. */
  datatype ToolOutcome = PreHookError | Override(text: string) | Answered(text: string) | Failed(report: string,
      error: ToolError)

  /** The critic could not be heard, let the reply pass, or asks for a correction. */
  datatype Audit = Unheard | Passes | Corrects(correction: string)

  datatype Env = Env(
    chat: (nat, seq<Message>) -> Option<Message>,
    tool: CallState -> ToolOutcome,
    audit: (nat, string) -> Audit,
    cronSession: bool,
    reflects: bool,
    maxToolIterations: int,
    maxReflectionRounds: int)

  datatype Result = Done(text: string, messages: seq<Message>) | ChatFailed | ToolAborted | Exhausted

  /** The text a tool invocation contributes, or none if it ends the run: hook failures, cancellation and
      denial always do, any failure does in a cron session. */
  function ToolText(outcome: ToolOutcome, cronSession: bool): Option<string> {
    match outcome
    case PreHookError => None
    case Override(text) => Some(text)
    case Answered(text) => Some(text)
    case Failed(report, error) => if !error.OtherError? || cronSession then None else Some(report)
  }

  function ToolMessage(call: ToolCall, text: string): Message {
    Message(Tool, text, [], if call.id == "" then None else Some(call.id))
  }

  // ---------------------------------------------------------------- reference semantics

  /** The invocations a turn makes: all of them, or up to the first that ends the run. */
  function Invoked(env: Env, calls: seq<ToolCall>, iter: nat, seqLen: nat): seq<CallState>
    decreases |calls|
  {
    if calls == [] then []
    else
      var c := CallState(iter, seqLen + 1, calls[0]);
      [c] + if ToolText(env.tool(c), env.cronSession).None? then [] else Invoked(env, calls[1..], iter, seqLen + 1)
  }

  /** Their answers, or none if one of them ends the run. */
  function Replies(env: Env, calls: seq<ToolCall>, iter: nat, seqLen: nat): Option<seq<Message>>
    decreases |calls|
  {
    if calls == [] then Some([])
    else
      var text := ToolText(env.tool(CallState(iter, seqLen + 1, calls[0])), env.cronSession);
      if text.None? then None
      else
        var rest := Replies(env, calls[1..], iter, seqLen + 1);
        if rest.None? then None else Some([ToolMessage(calls[0], text.value)] + rest.value)
  }

  /** What one chat turn leads to: the run ends, or goes on with more messages. */
  datatype Step = Ends(result: Result, made: seq<CallState>) | Goes(messages: seq<Message>, rounds: int,
      made: seq<CallState>)

  predicate Corrected(env: Env, iter: nat, text: string, rounds: int) {
    env.reflects && rounds < env.maxReflectionRounds && env.audit(iter, text).Corrects?
  }

  function ChatTurn(env: Env, messages: seq<Message>, iter: nat, rounds: int, made: seq<CallState>): Step {
    var reply := env.chat(iter, messages);
    if reply.None? then Ends(ChatFailed, made)
    else
      var Message(_, text, calls, _) := reply.value;
      var asked := messages + [reply.value];
      if calls == [] then
        if Corrected(env, iter, text, rounds)
        then Goes(asked + [Message(User, env.audit(iter, text).correction, [], None)], rounds + 1, made)
        else Ends(Done(text, asked), made)
      else
        var now, replies := made + Invoked(env, calls, iter, |made|), Replies(env, calls, iter, |made|);
        if replies.None? then Ends(ToolAborted, now) else Goes(asked + replies.value, rounds, now)
  }

  /** A whole run from a point on, with the invocations it makes. */
  function Play(env: Env, messages: seq<Message>, iter: nat, rounds: int, made: seq<CallState>): (Result,
      seq<CallState>)
    decreases env.maxToolIterations - iter
  {
    if iter >= env.maxToolIterations then (Exhausted, made)
    else
      match ChatTurn(env, messages, iter, rounds, made)
      case Ends(result, now) => (result, now)
      case Goes(messages', rounds', now) => Play(env, messages', iter + 1, rounds', now)
  }

  // ---------------------------------------------------------------- the loops

  method RunToolWithHooks(env: Env, call: CallState) returns (text: Option<string>)
    ensures text == ToolText(env.tool(call), env.cronSession)
    ensures text.None? <==> EndsRun(env.tool(call), env.cronSession)
    ensures text.Some? ==> Says(env.tool(call), text.value)
  {
    var outcome := env.tool(call);
    if outcome.PreHookError? {
      return None;
    }
    if outcome.Override? {
      return Some(outcome.text);
    }
    if outcome.Failed? {
      if outcome.error.Canceled? || outcome.error.DeadlineExceeded? || outcome.error.Denied? {
        return None;
      }
      if env.cronSession {
        return None;
      }
      return Some(outcome.report);
    }
    text := Some(outcome.text);
  }

  /** One invocation of a turn, as its loop takes it. */
  lemma {:induction false} InvocationStep(env: Env, calls: seq<ToolCall>, k: nat, iter: nat, before: seq<CallState>,
      messages: seq<Message>)
    requires k < |calls|
    ensures var c := CallState(iter, |before| + 1, calls[k]); var text := ToolText(env.tool(c), env.cronSession);
      && before + Invoked(env, calls[k..], iter, |before|)
         == before + [c] + (if text.None? then [] else Invoked(env, calls[k + 1..], iter, |before| + 1))
      && Appended(messages, Replies(env, calls[k..], iter, |before|))
         == if text.None? then None
            else Appended(messages + [ToolMessage(calls[k], text.value)],
                Replies(env, calls[k + 1..], iter, |before| + 1))
  {
    assert calls[k..][0] == calls[k] && calls[k..][1..] == calls[k + 1..];
    var rest := Replies(env, calls[k + 1..], iter, |before| + 1);
    var text := ToolText(env.tool(CallState(iter, |before| + 1, calls[k])), env.cronSession);
    if text.Some? && rest.Some? {
      var m := ToolMessage(calls[k], text.value);
      assert messages + ([m] + rest.value) == messages + [m] + rest.value;
    }
  }

  function Appended(messages: seq<Message>, more: Option<seq<Message>>): Option<seq<Message>> {
    if more.None? then None else Some(messages + more.value)
  }

  /** One round of processToolCalls: the invocation is noted, and gives a message or ends the run. */
  method InvokeTool(env: Env, tc: ToolCall, iter: nat, toolSeq: seq<CallState>)
    returns (message: Option<Message>, toolSeq': seq<CallState>)
    ensures toolSeq' == toolSeq + [CallState(iter, |toolSeq| + 1, tc)]
    ensures var text := ToolText(env.tool(CallState(iter, |toolSeq| + 1, tc)), env.cronSession);
            message == if text.None? then None else Some(ToolMessage(tc, text.value))
  {
    var toolCallID := None;
    if tc.id != "" {
      toolCallID := Some(tc.id);
    }
    var call := CallState(iter, |toolSeq| + 1, tc);
    toolSeq' := toolSeq + [call];
    var text := RunToolWithHooks(env, call);
    message := if text.None? then None else Some(Message(Tool, text.value, [], toolCallID));
  }

  lemma {:induction false} NothingLeft(env: Env, calls: seq<ToolCall>, iter: nat, made: seq<CallState>,
                                       messages: seq<Message>)
    ensures made + Invoked(env, calls[|calls|..], iter, |made|) == made
    ensures Appended(messages, Replies(env, calls[|calls|..], iter, |made|)) == Some(messages)
  {
    assert calls[|calls|..] == [] && messages + [] == messages;
  }

  lemma {:induction false} AllLeft(env: Env, calls: seq<ToolCall>, iter: nat, seqLen: nat)
    ensures calls[0..] == calls
    ensures Appended([], Replies(env, calls, iter, seqLen)) == Replies(env, calls, iter, seqLen)
  {
    var all := Replies(env, calls, iter, seqLen);
    assert all.Some? ==> [] + all.value == all.value;
  }

  method ProcessToolCalls(env: Env, calls: seq<ToolCall>, iter: nat, toolSeq: seq<CallState>)
    returns (answers: Option<seq<Message>>, toolSeq': seq<CallState>)
    ensures answers == Replies(env, calls, iter, |toolSeq|)
    ensures toolSeq' == toolSeq + Invoked(env, calls, iter, |toolSeq|)
  {
    var messages: seq<Message> := [];
    toolSeq' := toolSeq;
    ghost var all, made := Replies(env, calls, iter, |toolSeq|), toolSeq + Invoked(env, calls, iter, |toolSeq|);
    AllLeft(env, calls, iter, |toolSeq|);
    for k := 0 to |calls|
      invariant made == toolSeq' + Invoked(env, calls[k..], iter, |toolSeq'|)
      invariant all == Appended(messages, Replies(env, calls[k..], iter, |toolSeq'|))
    {
      InvocationStep(env, calls, k, iter, toolSeq', messages);
      var message: Option<Message>;
      message, toolSeq' := InvokeTool(env, calls[k], iter, toolSeq');
      if message.None? {
        return None, toolSeq';
      }
      messages := messages + [message.value];
    }
    NothingLeft(env, calls, iter, toolSeq', messages);
    answers := Some(messages);
  }

  /** Whether the run ends with this reply, the correction to add otherwise, and the rounds used. */
  method HandleTerminalResponse(env: Env, iter: nat, reply: Message, rounds: int)
    returns (done: bool, correction: Option<Message>, rounds': int)
    ensures done <==> !Corrected(env, iter, reply.content, rounds)
    ensures !done ==> rounds' == rounds + 1
    ensures !done ==> correction == Some(Message(User, env.audit(iter, reply.content).correction, [], None))
    ensures done ==> correction == None
  {
    rounds' := rounds;
    if env.reflects {
      if rounds >= env.maxReflectionRounds {
        return true, None, rounds';
      }
      match env.audit(iter, reply.content)
      case Unheard =>
      case Passes => rounds' := 0;
      case Corrects(text) =>
        return false, Some(Message(User, text, [], None)), rounds + 1;
    }
    done, correction := true, None;
  }

  method Run(env: Env, input: seq<Message>) returns (result: Result, toolSeq: seq<CallState>)
    ensures (result, toolSeq) == Play(env, input, 0, 0, [])
  {
    var messages, rounds, iter := input, 0, 0;
    toolSeq := [];
    while iter < env.maxToolIterations
      invariant Play(env, input, 0, 0, []) == Play(env, messages, iter, rounds, toolSeq)
      decreases env.maxToolIterations - iter
    {
      var reply := env.chat(iter, messages);
      if reply.None? {
        return ChatFailed, toolSeq;
      }
      messages := messages + [reply.value];
      if reply.value.toolCalls == [] {
        var done, correction, used := HandleTerminalResponse(env, iter, reply.value, rounds);
        if done {
          return Done(reply.value.content, messages), toolSeq;
        }
        messages, rounds, iter := messages + [correction.value], used, iter + 1;
        continue;
      }
      var answers, made := ProcessToolCalls(env, reply.value.toolCalls, iter, toolSeq);
      toolSeq := made;
      if answers.None? {
        return ToolAborted, toolSeq;
      }
      messages, iter := messages + answers.value, iter + 1;
    }
    result := Exhausted;
  }

  // ---------------------------------------------------------------- what a run is, turn by turn

  /** A chat turn that did not end the run: the reply, what was added after it, and the invocations it made. */
  datatype Turn = Turn(reply: Message, added: seq<Message>, calls: seq<CallState>)

  /** The outcomes after which a run cannot go on: a failing pre-tool hook, a tool that was cancelled, timed out or
      denied, and in a cron session any tool that failed. */
  predicate EndsRun(outcome: ToolOutcome, cronSession: bool) {
    || outcome.PreHookError?
    || (outcome.Failed? && (outcome.error.Canceled? || outcome.error.DeadlineExceeded? || outcome.error.Denied?))
    || (outcome.Failed? && cronSession)
  }

  /** The text is the override, the tool's own answer, or the report of its failure. */
  predicate Says(outcome: ToolOutcome, text: string) {
    outcome == Override(text) || outcome == Answered(text) || (outcome.Failed? && outcome.report == text)
  }

  /** Each call has its answer, or the reply made no call and was sent back with a correction. */
  ghost predicate TurnOk(t: Turn) {
    if t.reply.toolCalls != [] then AnswerAll(t.added, t.reply.toolCalls)
    else |t.added| == 1 && t.added[0].role.User? && t.added[0].toolCalls == []
  }

  /** The invocations of a turn: one per call, in order, numbered on. */
  ghost predicate Numbers(calls: seq<CallState>, asked: seq<ToolCall>, iter: nat, made: nat) {
    |calls| <= |asked| && forall k :: 0 <= k < |calls| ==> calls[k] == CallState(iter, made + k + 1, asked[k])
  }

  /** Turn t can happen at chat turn iter: every call is invoked and its message says what that invocation gave, or
      the critic, with rounds left, asked for just this correction. */
  ghost predicate Happens(env: Env, t: Turn, iter: nat, rounds: int, made: nat) {
    && TurnOk(t)
    && if t.reply.toolCalls != [] then
         && Numbers(t.calls, t.reply.toolCalls, iter, made) && |t.calls| == |t.added|
         && forall k :: 0 <= k < |t.calls| ==>
              && !EndsRun(env.tool(t.calls[k]), env.cronSession)
              && Says(env.tool(t.calls[k]), t.added[k].content)
       else
         && t.calls == [] && env.reflects && rounds < env.maxReflectionRounds
         && env.audit(iter, t.reply.content) == Corrects(t.added[0].content)
  }

  /** How a run ends at chat turn iter: no turns left, no reply, a last reply the critic has no say in or no objection
      to, or a tool invocation that ends it. */
  ghost predicate EndsAt(env: Env, messages: seq<Message>, iter: nat, rounds: int, made: seq<CallState>,
                         r: Result, all: seq<CallState>)
  {
    if iter >= env.maxToolIterations then r == Exhausted && all == made
    else
      match env.chat(iter, messages)
      case None => r == ChatFailed && all == made
      case Some(reply) =>
        if reply.toolCalls == [] then
          && r == Done(reply.content, messages + [reply]) && all == made
          && !(env.reflects && rounds < env.maxReflectionRounds && env.audit(iter, reply.content).Corrects?)
        else
          && r == ToolAborted && made < all
          && Numbers(all[|made|..], reply.toolCalls, iter, |made|)
          && (forall k :: |made| <= k < |all| - 1 ==> !EndsRun(env.tool(all[k]), env.cronSession))
          && EndsRun(env.tool(all[|all| - 1]), env.cronSession)
  }

  /** The run goes through these turns, each asked of the provider with the whole history so far, and then ends. */
  ghost predicate Traces(env: Env, messages: seq<Message>, iter: nat, rounds: int, made: seq<CallState>,
                         turns: seq<Turn>, r: Result, all: seq<CallState>)
    decreases |turns|
  {
    if turns == [] then EndsAt(env, messages, iter, rounds, made, r, all)
    else
      var t := turns[0];
      && iter < env.maxToolIterations && env.chat(iter, messages) == Some(t.reply)
      && Happens(env, t, iter, rounds, |made|)
      && Traces(env, messages + [t.reply] + t.added, iter + 1, rounds + (if t.reply.toolCalls == [] then 1 else 0),
                made + t.calls, turns[1..], r, all)
  }

  lemma {:induction false} TextExactly(outcome: ToolOutcome, cronSession: bool)
    ensures ToolText(outcome, cronSession).None? <==> EndsRun(outcome, cronSession)
    ensures ToolText(outcome, cronSession).Some? ==> Says(outcome, ToolText(outcome, cronSession).value)
  {
  }

  lemma {:induction false} InvokedNumbers(env: Env, calls: seq<ToolCall>, iter: nat, seqLen: nat)
    ensures Numbers(Invoked(env, calls, iter, seqLen), calls, iter, seqLen)
    ensures var inv := Invoked(env, calls, iter, seqLen);
      && (forall k :: 0 <= k < |inv| - 1 ==> !EndsRun(env.tool(inv[k]), env.cronSession))
      && (Replies(env, calls, iter, seqLen).None? <==> inv != [] && EndsRun(env.tool(inv[|inv| - 1]), env.cronSession))
    decreases |calls|
  {
    if calls != [] {
      TextExactly(env.tool(CallState(iter, seqLen + 1, calls[0])), env.cronSession);
      InvokedNumbers(env, calls[1..], iter, seqLen + 1);
    }
  }

  lemma {:induction false} RepliesAnswer(env: Env, calls: seq<ToolCall>, iter: nat, seqLen: nat)
    requires Replies(env, calls, iter, seqLen).Some?
    ensures var answers, inv := Replies(env, calls, iter, seqLen).value, Invoked(env, calls, iter, seqLen);
      && AnswerAll(answers, calls) && |inv| == |calls|
      && forall k :: 0 <= k < |calls| ==>
           !EndsRun(env.tool(inv[k]), env.cronSession) && Says(env.tool(inv[k]), answers[k].content)
    decreases |calls|
  {
    if calls != [] {
      TextExactly(env.tool(CallState(iter, seqLen + 1, calls[0])), env.cronSession);
      RepliesAnswer(env, calls[1..], iter, seqLen + 1);
    }
  }

  /** A turn that goes on is one that happens. */
  lemma {:induction false} TurnHappens(env: Env, messages: seq<Message>, iter: nat, rounds: int, made: seq<CallState>)
    returns (t: Turn)
    requires ChatTurn(env, messages, iter, rounds, made).Goes?
    ensures Happens(env, t, iter, rounds, |made|) && env.chat(iter, messages) == Some(t.reply)
    ensures ChatTurn(env, messages, iter, rounds, made)
         == Goes(messages + [t.reply] + t.added, rounds + (if t.reply.toolCalls == [] then 1 else 0), made + t.calls)
  {
    var reply := env.chat(iter, messages).value;
    if reply.toolCalls == [] {
      t := Turn(reply, [Message(User, env.audit(iter, reply.content).correction, [], None)], []);
    } else {
      InvokedNumbers(env, reply.toolCalls, iter, |made|);
      RepliesAnswer(env, reply.toolCalls, iter, |made|);
      t := Turn(reply, Replies(env, reply.toolCalls, iter, |made|).value, Invoked(env, reply.toolCalls, iter, |made|));
    }
  }

  lemma {:induction false} TurnEndsAt(env: Env, messages: seq<Message>, iter: nat, rounds: int, made: seq<CallState>)
    requires ChatTurn(env, messages, iter, rounds, made).Ends? && iter < env.maxToolIterations
    ensures var s := ChatTurn(env, messages, iter, rounds, made); EndsAt(env, messages, iter, rounds, made, s.result,
        s.made)
  {
    if env.chat(iter, messages).Some? && env.chat(iter, messages).value.toolCalls != [] {
      var calls := env.chat(iter, messages).value.toolCalls;
      InvokedNumbers(env, calls, iter, |made|);
      var inv, all := Invoked(env, calls, iter, |made|), made + Invoked(env, calls, iter, |made|);
      assert all[|made|..] == inv;
    }
  }

  /** Every run, however it ends, goes through turns that happen and then ends as it must. */
  lemma {:induction false} RunTraces(env: Env, messages: seq<Message>, iter: nat, rounds: int, made: seq<CallState>)
    returns (turns: seq<Turn>)
    ensures var (r, all) := Play(env, messages, iter, rounds, made);
            Traces(env, messages, iter, rounds, made, turns, r, all)
    decreases env.maxToolIterations - iter
  {
    turns := [];
    if iter < env.maxToolIterations {
      var s := ChatTurn(env, messages, iter, rounds, made);
      if s.Goes? {
        var t := TurnHappens(env, messages, iter, rounds, made);
        var rest := RunTraces(env, s.messages, iter + 1, s.rounds, s.made);
        turns := [t] + rest;
        assert turns[1..] == rest;
      } else {
        TurnEndsAt(env, messages, iter, rounds, made);
      }
    }
  }

  /** A run is aborted exactly if one of the invocations it made had a failing pre-tool hook, or a tool that was
      cancelled, timed out or denied, or failed in a cron session. */
  lemma {:induction false} AbortedExactly(env: Env, input: seq<Message>)
    ensures var (r, all) := Play(env, input, 0, 0, []);
            r.ToolAborted? <==>
            exists i :: 0 <= i < |all| &&
              (|| env.tool(all[i]).PreHookError?
               || (env.tool(all[i]).Failed? && env.tool(all[i]).error != OtherError)
               || (env.tool(all[i]).Failed? && env.cronSession))
  {
    InvocationsNumbered(env, input, 0, 0, []);
    var all := Play(env, input, 0, 0, []).1;
    forall i | 0 <= i < |all|
      ensures Continues(env, all[i]) <==>
        !(|| env.tool(all[i]).PreHookError?
          || (env.tool(all[i]).Failed? && env.tool(all[i]).error != OtherError)
          || (env.tool(all[i]).Failed? && env.cronSession))
    {
      TextExactly(env.tool(all[i]), env.cronSession);
    }
  }

  // ---------------------------------------------------------------- what a successful run returns

  ghost function Flat(turns: seq<Turn>): seq<Message>
    decreases |turns|
  {
    if turns == [] then [] else [turns[0].reply] + turns[0].added + Flat(turns[1..])
  }

  ghost function Corrections(turns: seq<Turn>): nat
    decreases |turns|
  {
    if turns == [] then 0 else (if turns[0].reply.toolCalls == [] then 1 else 0) + Corrections(turns[1..])
  }

  lemma {:induction false} FlatCons(messages: seq<Message>, t: Turn, rest: seq<Turn>)
    ensures messages + Flat([t] + rest) == messages + [t.reply] + t.added + Flat(rest)
    ensures Corrections([t] + rest) == Corrections(rest) + if t.reply.toolCalls == [] then 1 else 0
  {
    assert ([t] + rest)[1..] == rest;
  }

  lemma {:induction false} TracesExtend(env: Env, messages: seq<Message>, iter: nat, rounds: int, made: seq<CallState>,
                                        turns: seq<Turn>, r: Result, all: seq<CallState>) returns (last: Message)
    requires Traces(env, messages, iter, rounds, made, turns, r, all) && r.Done?
    ensures r.messages == messages + Flat(turns) + [last] && r.text == last.content && last.toolCalls == []
    ensures forall t :: t in turns ==> TurnOk(t)
    ensures iter + |turns| + 1 <= env.maxToolIterations
    ensures Corrections(turns) == 0 || (env.reflects && rounds + Corrections(turns) <= env.maxReflectionRounds)
    ensures ModelReplies(env) ==> IsAssistant(last) && forall t :: t in turns ==> IsAssistant(t.reply)
    decreases |turns|
  {
    if turns == [] {
      last := env.chat(iter, messages).value;
    } else {
      var t := turns[0];
      last := TracesExtend(env, messages + [t.reply] + t.added, iter + 1,
                           rounds + (if t.reply.toolCalls == [] then 1 else 0), made + t.calls, turns[1..], r, all);
      FlatCons(messages, t, turns[1..]);
      assert turns == [t] + turns[1..];
    }
  }

  /** A successful run returns its input extended by complete turns and one last reply without calls, within
      both budgets; its text is that reply's. */
  lemma {:induction false} RunExtends(env: Env, messages: seq<Message>, iter: nat, rounds: int, made: seq<CallState>)
    returns (turns: seq<Turn>, last: Message)
    requires Play(env, messages, iter, rounds, made).0.Done?
    ensures var (r, all) := Play(env, messages, iter, rounds, made);
      && Traces(env, messages, iter, rounds, made, turns, r, all)
      && r.messages == messages + Flat(turns) + [last] && r.text == last.content && last.toolCalls == []
    ensures forall t :: t in turns ==> TurnOk(t)
    ensures iter + |turns| + 1 <= env.maxToolIterations
    ensures Corrections(turns) == 0 || (env.reflects && rounds + Corrections(turns) <= env.maxReflectionRounds)
    ensures ModelReplies(env) ==> IsAssistant(last) && forall t :: t in turns ==> IsAssistant(t.reply)
  {
    turns := RunTraces(env, messages, iter, rounds, made);
    var (r, all) := Play(env, messages, iter, rounds, made);
    last := TracesExtend(env, messages, iter, rounds, made, turns, r, all);
  }

  /** The provider answers with model turns. */
  ghost predicate ModelReplies(env: Env) {
    forall i, m :: env.chat(i, m).Some? ==> IsAssistant(env.chat(i, m).value)
  }

  lemma {:induction false} LonePaired(m: Message)
    requires !m.role.Tool? && m.toolCalls == []
    ensures Paired([m])
  {
    assert [m][1..1] == [] && [m][1..] == [];
  }

  lemma {:induction false} TurnPaired(t: Turn)
    requires TurnOk(t) && IsAssistant(t.reply)
    ensures Paired([t.reply] + t.added)
  {
    var all, k := [t.reply] + t.added, |t.added|;
    assert all[1..1 + k] == t.added && all[1 + k..] == [];
    if t.reply.toolCalls == [] {
      LonePaired(t.reply);
      LonePaired(t.added[0]);
      PairedConcat([t.reply], [t.added[0]]);
      assert all == [t.reply] + [t.added[0]];
    } else {
      assert Led(all);
    }
  }

  lemma {:induction false} FlatPaired(turns: seq<Turn>)
    requires forall t :: t in turns ==> TurnOk(t) && IsAssistant(t.reply)
    ensures Paired(Flat(turns))
    decreases |turns|
  {
    if turns != [] {
      FlatPaired(turns[1..]);
      TurnPaired(turns[0]);
      PairedConcat([turns[0].reply] + turns[0].added, Flat(turns[1..]));
    }
  }

  /** A run over a paired history returns a paired history that ends in a model turn without calls. */
  lemma {:induction false} RunKeepsPairing(env: Env, input: seq<Message>)
    requires ModelReplies(env) && Paired(input) && Play(env, input, 0, 0, []).0.Done?
    ensures var out := Play(env, input, 0, 0, []).0.messages;
      Paired(out) && input <= out && |input| < |out| && IsAssistant(out[|out| - 1]) && out[|out| - 1].toolCalls == []
  {
    var turns, last := RunExtends(env, input, 0, 0, []);
    FlatPaired(turns);
    PairedConcat(input, Flat(turns));
    LonePaired(last);
    PairedConcat(input + Flat(turns), [last]);
  }

  // ---------------------------------------------------------------- invocations

  /** Invocations are numbered one by one, and their turns do not go back. */
  ghost predicate Numbered(made: seq<CallState>) {
    && (forall i :: 0 <= i < |made| ==> made[i].seqLen == i + 1)
    && (forall i, j :: 0 <= i < j < |made| ==> made[i].iter <= made[j].iter)
  }

  ghost predicate Continues(env: Env, c: CallState) { ToolText(env.tool(c), env.cronSession).Some? }

  lemma {:induction false} InvokedNumbered(env: Env, calls: seq<ToolCall>, iter: nat, seqLen: nat)
    ensures var inv := Invoked(env, calls, iter, seqLen);
      && (forall i :: 0 <= i < |inv| ==> inv[i].seqLen == seqLen + i + 1 && inv[i].iter == iter)
      && (forall i :: 0 <= i < |inv| - 1 ==> Continues(env, inv[i]))
      && (Replies(env, calls, iter, seqLen).None? <==> inv != [] && !Continues(env, inv[|inv| - 1]))
    decreases |calls|
  {
    if calls != [] { InvokedNumbered(env, calls[1..], iter, seqLen + 1); }
  }

  /** All invocations so far are numbered, belong to turns before `iter`, and none ended the run. */
  ghost predicate GoodSoFar(env: Env, made: seq<CallState>, iter: nat) {
    Numbered(made) && forall i :: 0 <= i < |made| ==> made[i].iter < iter && Continues(env, made[i])
  }

  /** The same, except that the last invocation has ended the run if the result says so. */
  ghost predicate GoodAtEnd(env: Env, all: seq<CallState>, r: Result) {
    && Numbered(all)
    && (forall i :: 0 <= i < |all| - 1 ==> Continues(env, all[i]))
    && (r.ToolAborted? <==> all != [] && !Continues(env, all[|all| - 1]))
    && (forall i :: 0 <= i < |all| ==> all[i].iter < env.maxToolIterations)
  }

  lemma {:induction false} TurnNumbers(env: Env, messages: seq<Message>, iter: nat, rounds: int, made: seq<CallState>)
    requires GoodSoFar(env, made, iter) && iter < env.maxToolIterations
    ensures var s := ChatTurn(env, messages, iter, rounds, made);
      made <= s.made && if s.Goes? then GoodSoFar(env, s.made, iter + 1) else GoodAtEnd(env, s.made, s.result)
  {
    if env.chat(iter, messages).Some? {
      InvokedNumbered(env, env.chat(iter, messages).value.toolCalls, iter, |made|);
    }
  }

  /** Over every run, however it ends, the invocations have distinct numbers; only the last one can have
      ended the run, and it has exactly if the run was aborted by a tool. */
  lemma {:induction false} InvocationsNumbered(env: Env, messages: seq<Message>, iter: nat, rounds: int,
      made: seq<CallState>)
    requires GoodSoFar(env, made, iter) && (iter <= env.maxToolIterations || made == [])
    ensures var (r, all) := Play(env, messages, iter, rounds, made); GoodAtEnd(env, all, r) && made <= all
    decreases env.maxToolIterations - iter
  {
    if iter < env.maxToolIterations {
      TurnNumbers(env, messages, iter, rounds, made);
      var s := ChatTurn(env, messages, iter, rounds, made);
      if s.Goes? { InvocationsNumbered(env, s.messages, iter + 1, s.rounds, s.made); }
    }
  }

  // ---------------------------------------------------------------- termination with an answer

  /** From chat turn i on the provider makes no tool calls. */
  ghost predicate SettlesDown(env: Env, i: nat) {
    forall k, m :: k >= i && env.chat(k, m).Some? ==> env.chat(k, m).value.toolCalls == []
  }

  /** The provider always answers and no tool ends the run. */
  ghost predicate NoFailures(env: Env) {
    && (forall k, m :: env.chat(k, m).Some?)
    && (forall c :: Continues(env, c))
  }

  /** If the provider stops calling tools early enough to leave room for every correction, the run succeeds. */
  lemma {:induction false} RunSucceeds(env: Env, messages: seq<Message>, iter: nat, rounds: int,
      made: seq<CallState>, i: nat)
    requires NoFailures(env) && SettlesDown(env, i)
    requires var corrections := if env.reflects && rounds < env.maxReflectionRounds
        then env.maxReflectionRounds - rounds else 0;
      (if i > iter then i else iter) + corrections < env.maxToolIterations
    ensures Play(env, messages, iter, rounds, made).0.Done?
    decreases env.maxToolIterations - iter
  {
    var s := ChatTurn(env, messages, iter, rounds, made);
    InvokedNumbered(env, env.chat(iter, messages).value.toolCalls, iter, |made|);
    if s.Goes? { RunSucceeds(env, s.messages, iter + 1, s.rounds, s.made, i); }
  }
}
