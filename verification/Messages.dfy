/** The conversation messages of internal/context/schema.go, as far as any decision reads them. */
module Messages {
  import opened Wrappers

  datatype Role = User | Assistant | Model | Tool | System

  datatype ToolCall = ToolCall(id: string, name: string, args: string)

  datatype Message = Message(role: Role, content: string, toolCalls: seq<ToolCall>, toolCallID: Option<string>)

  /** Both names mark a turn of the model. */
  predicate IsAssistant(m: Message) { m.role.Assistant? || m.role.Model? }

  /** A tool message for one call; a call without an id is answered without one. */
  predicate AnswersCall(m: Message, call: ToolCall) {
    m.role.Tool? && m.toolCalls == [] && m.toolCallID == if call.id == "" then None else Some(call.id)
  }

  /** The messages answer the calls one by one, in order. */
  predicate AnswerAll(msgs: seq<Message>, calls: seq<ToolCall>) {
    |msgs| == |calls| && forall k :: 0 <= k < |calls| ==> AnswersCall(msgs[k], calls[k])
  }

  /** The list opens with one message that is not a tool message, followed by exactly the answers to its calls. */
  predicate Led(msgs: seq<Message>)
    requires msgs != []
  {
    var k := |msgs[0].toolCalls|;
    && !msgs[0].role.Tool? && (k > 0 ==> IsAssistant(msgs[0]))
    && k < |msgs| && AnswerAll(msgs[1..1 + k], msgs[0].toolCalls)
  }

  /** The history a provider accepts: only model turns make calls, each is followed at once by exactly its
      answers, and there are no other tool messages. */
  predicate Paired(msgs: seq<Message>)
    decreases |msgs|
  {
    msgs == [] || (Led(msgs) && Paired(msgs[1 + |msgs[0].toolCalls|..]))
  }

  lemma {:induction false} LedConcat(a: seq<Message>, b: seq<Message>)
    requires a != [] && Led(a)
    ensures Led(a + b)
  {
    var k := |a[0].toolCalls|;
    assert (a + b)[1..1 + k] == a[1..1 + k];
  }

  /** Paired histories can be joined. */
  lemma {:induction false} PairedConcat(a: seq<Message>, b: seq<Message>)
    requires Paired(a) && Paired(b)
    ensures Paired(a + b)
    decreases |a|
  {
    if a == [] {
      assert a + b == b;
    } else {
      var k := |a[0].toolCalls|;
      LedConcat(a, b);
      PairedConcat(a[1 + k..], b);
      assert (a + b)[1 + k..] == a[1 + k..] + b;
    }
  }

  /** The answers of the leading turn, by place. */
  lemma {:induction false} LedAnswers(msgs: seq<Message>, i: nat)
    requires msgs != [] && Led(msgs)
    ensures 0 < i <= |msgs[0].toolCalls| ==> i < |msgs| && AnswersCall(msgs[i], msgs[0].toolCalls[i - 1])
  {
    var k := |msgs[0].toolCalls|;
    if 0 < i <= k { assert msgs[1..1 + k][i - 1] == msgs[i]; }
  }

  /** What pairing says place by place: every call is answered right behind its turn, in order. */
  lemma {:induction false} PairedCallsAnswered(msgs: seq<Message>, i: nat, k: nat)
    requires Paired(msgs) && i < |msgs| && k < |msgs[i].toolCalls|
    ensures i + 1 + k < |msgs| && AnswersCall(msgs[i + 1 + k], msgs[i].toolCalls[k])
    decreases |msgs|
  {
    var n := |msgs[0].toolCalls|;
    LedAnswers(msgs, i);
    if i == 0 {
      LedAnswers(msgs, 1 + k);
    } else {
      PairedCallsAnswered(msgs[1 + n..], i - 1 - n, k);
    }
  }

  /** And every tool message belongs to a call right before it. */
  lemma {:induction false} PairedAnswersCalled(msgs: seq<Message>, j: nat) returns (i: nat, k: nat)
    requires Paired(msgs) && j < |msgs| && msgs[j].role.Tool?
    ensures i < j && IsAssistant(msgs[i]) && j == i + 1 + k && k < |msgs[i].toolCalls|
        && AnswersCall(msgs[j], msgs[i].toolCalls[k])
    decreases |msgs|
  {
    var n := |msgs[0].toolCalls|;
    if j <= n {
      i, k := 0, j - 1;
      LedAnswers(msgs, j);
    } else {
      i, k := PairedAnswersCalled(msgs[1 + n..], j - 1 - n);
      i := i + 1 + n;
    }
  }

  /** Only model turns make calls. */
  lemma {:induction false} PairedTurnIsModel(msgs: seq<Message>, t: nat)
    requires Paired(msgs) && t < |msgs| && msgs[t].toolCalls != []
    ensures IsAssistant(msgs[t])
    decreases |msgs|
  {
    var n := |msgs[0].toolCalls|;
    LedAnswers(msgs, t);
    if t > 0 { PairedTurnIsModel(msgs[1 + n..], t - 1 - n); }
  }
}
