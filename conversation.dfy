/** The round-robin conversation driver of conversation.js: building the
    model wrappers, running the turn loop that threads one message from
    model to model, and formatting the round-labelled log that is archived. */
module Conversation {
  import opened Builtins

  // ---------------------------------------------------------------------
  // Model wrappers and the inference oracle
  // ---------------------------------------------------------------------

  /** A model wrapper: it holds the model's name and never changes. */
  datatype LLM = LLM(modelName: string)

  /** The models a session may use, in the order they are handed out. */
  const Models: seq<string> := ["smollm:360m", "qwen3:0.6b"]

  /** The inference service behind `LLM.chat`, left uninterpreted: the reply
      to `input` when it is sent to wrapper `llm` as the call numbered
      `callNo` (counted from 0) of the conversation. The call number lets
      two calls with the same prompt receive different replies. */
  type Chat = (LLM, nat, string) -> string

  /** `setupLLMs(numberOfLLMs)`: one wrapper per name of
      `Models.slice(0, numberOfLLMs)`, in order. A negative count counts back
      from the end of the list, as `slice` does. */
  method SetupLLMs(numberOfLLMs: int) returns (llms: seq<LLM>)
    ensures |llms| == if numberOfLLMs >= 0
                      then (if numberOfLLMs < |Models| then numberOfLLMs else |Models|)
                      else (if |Models| + numberOfLLMs < 0 then 0 else |Models| + numberOfLLMs)
    ensures forall i :: 0 <= i < |llms| ==> llms[i].modelName == Models[i]
  {
    var filteredModels := Slice(Models, 0, numberOfLLMs);
    llms := [];
    for i := 0 to |filteredModels|
      invariant |llms| == i
      invariant forall j :: 0 <= j < i ==> llms[j].modelName == Models[j]
    {
      llms := llms + [LLM(filteredModels[i])];
    }
  }

  // ---------------------------------------------------------------------
  // The turn loop, specified by the sequence of calls it makes
  // ---------------------------------------------------------------------

  /** The number of rounds a conversation runs when the caller names none. */
  const DefaultRounds: int := 3

  /** One call to the oracle: the round it belongs to (from 0), the position
      of the model called, the message it was sent and its reply. */
  datatype Call = Call(round: nat, index: nat, input: string, output: string)

  /** The fixed texts of the two prompt templates. */
  const OpeningLead: string := "Let's discuss the following topic: "
  const OpeningTail: string := ". Please share your thoughts."
  const FollowUpLead: string := "Previous response: "
  const FollowUpMiddle: string := "\n\nPlease continue the discussion about "

  /** The message that opens the discussion of `topic`. */
  function Opening(topic: string): string
  {
    OpeningLead + topic + OpeningTail
  }

  /** The message that carries a reply on to the next model. */
  function FollowUp(response: string, topic: string): string
  {
    FollowUpLead + response + FollowUpMiddle + topic + "."
  }

  /** The follow-up message carries the whole reply: two replies give the
      same follow-up about a topic only when they are the same. */
  lemma FollowUpInjective(a: string, b: string, topic: string)
    requires FollowUp(a, topic) == FollowUp(b, topic)
    ensures a == b
  {
    var lead := |FollowUpLead|;
    assert |a| == |b|;
    assert a == FollowUp(a, topic)[lead..lead + |a|];
    assert b == FollowUp(b, topic)[lead..lead + |b|];
  }

  /** No follow-up message can be mistaken for the opening one. */
  lemma OpeningNotFollowUp(topic: string, response: string, topic': string)
    ensures Opening(topic) != FollowUp(response, topic')
  {
    assert Opening(topic)[0] == 'L';
    assert FollowUp(response, topic')[0] == 'P';
  }

  /** The message the next call receives after the calls in `done`. */
  function NextInput(done: seq<Call>, topic: string): string
  {
    if done == [] then Opening(topic) else FollowUp(done[|done| - 1].output, topic)
  }

  /** The number of calls a conversation of `rounds` rounds over `n` models
      makes: n per round; a non-positive round count runs no round. */
  function TotalCalls(rounds: int, n: nat): (total: nat)
    ensures n == 0 ==> total == 0
    decreases rounds
  {
    if rounds <= 0 then 0 else TotalCalls(rounds - 1, n) + n
  }

  /** Where the turn of model `i` in round `r` falls, counting from 0. */
  function Position(r: nat, i: nat, n: nat): nat
  {
    r * n + i
  }

  /** The call that follows the calls in `done`: call number |done| goes to
      the model and round `Turn` assigns it, with the message threaded from
      the reply before it, and records the oracle's reply. */
  function NextCall(llms: seq<LLM>, topic: string, chat: Chat, done: seq<Call>): Call
    requires |llms| > 0
  {
    var t := Turn(|done|, |llms|);
    var input := NextInput(done, topic);
    Call(t.0, t.1, input, chat(llms[t.1], |done|, input))
  }

  /** The first `m` calls of a conversation about `topic` among `llms`, in
      the order they are made. */
  function Calls(llms: seq<LLM>, topic: string, chat: Chat, m: nat): (calls: seq<Call>)
    requires m == 0 || |llms| > 0
    ensures |calls| == m
    decreases m
  {
    if m == 0 then []
    else
      var done := Calls(llms, topic, chat, m - 1);
      done + [NextCall(llms, topic, chat, done)]
  }

  /** The round and the model position of call number k among n models, as
      the two nested loops count them: the model position steps up, and
      wraps to 0 with the round stepping up once every model has spoken. */
  function Turn(k: nat, n: nat): (t: (nat, nat))
    requires n > 0
    ensures t.1 < n
  {
    if k == 0 then (0, 0)
    else
      var t := Turn(k - 1, n);
      if t.1 + 1 < n then (t.0, t.1 + 1) else (t.0 + 1, 0)
  }

  /** The conversation entry recorded for a reply of the model at position
      `index`: the model is named by its 1-based position. */
  function Entry(index: nat, response: string): string
  {
    "Model " + NatToString(index + 1) + ": " + response
  }

  /** An entry names its model and carries the whole reply: two entries are
      equal only for the same model and the same reply. */
  lemma EntryInjective(i: nat, j: nat, a: string, b: string)
    requires Entry(i, a) == Entry(j, b)
    ensures i == j && a == b
  {
    LabelledSplit(NatToString(i + 1), NatToString(j + 1), a, b);
    if i != j {
      NatToStringInjective(i + 1, j + 1);
    }
  }

  /** "Model <u>: <a>" determines the digit string u and the text a: the
      digits end at the first colon. */
  lemma LabelledSplit(u: string, v: string, a: string, b: string)
    requires IsDigits(u) && IsDigits(v)
    requires "Model " + u + ": " + a == "Model " + v + ": " + b
    ensures u == v && a == b
  {
    var e, e' := "Model " + u + ": " + a, "Model " + v + ": " + b;
    if |u| < |v| {
      LabelledAt(u, a, |u|);
      assert false;
    } else if |v| < |u| {
      LabelledAt(v, b, |v|);
      assert false;
    }
    assert u == e[6..6 + |u|];
    assert v == e'[6..6 + |v|];
    assert a == e[8 + |u|..];
    assert b == e'[8 + |v|..];
  }

  /** Character 6 + w of "Model <u>: <a>" is digit w of u, or the colon right
      after the last digit. */
  lemma LabelledAt(u: string, a: string, w: nat)
    requires IsDigits(u) && w <= |u|
    ensures w < |u| ==> IsDigit(("Model " + u + ": " + a)[6 + w])
    ensures w == |u| ==> ("Model " + u + ": " + a)[6 + w] == ':'
  {
  }

  /** The entries recorded for a sequence of calls, pushed one per call. */
  function Entries(calls: seq<Call>): (conversation: seq<string>)
    ensures |conversation| == |calls|
  {
    if calls == [] then []
    else
      var last := calls[|calls| - 1];
      Entries(calls[..|calls| - 1]) + [Entry(last.index, last.output)]
  }

  /** `facilitateConversation(llms, topic, rounds)`: for each round, ask every
      model in order, passing on one message. The returned conversation holds
      the entries of the calls `Calls` prescribes for `rounds` rounds, one per
      call, in the order the calls are made. */
  method FacilitateConversation(llms: seq<LLM>, topic: string, rounds: int, chat: Chat)
    returns (conversation: seq<string>)
    ensures conversation == Entries(Calls(llms, topic, chat, TotalCalls(rounds, |llms|)))
  {
    conversation := [];
    var currentMessage := Opening(topic);
    var round: nat := 0;
    while round < rounds
      invariant round <= (if rounds > 0 then rounds else 0)
      invariant RoundsRecorded(llms, topic, chat, round, conversation, currentMessage)
    {
      conversation, currentMessage := TakeRound(llms, topic, chat, round, conversation, currentMessage);
      round := round + 1;
    }
    RoundsFinished(llms, topic, chat, rounds, round, conversation, currentMessage);
  }

  /** When the outer loop stops, the conversation holds the entries of all
      the calls of `rounds` rounds. */
  lemma RoundsFinished(llms: seq<LLM>, topic: string, chat: Chat, rounds: int, round: nat,
                       conversation: seq<string>, currentMessage: string)
    requires round == if rounds > 0 then rounds else 0
    requires RoundsRecorded(llms, topic, chat, round, conversation, currentMessage)
    ensures conversation == Entries(Calls(llms, topic, chat, TotalCalls(rounds, |llms|)))
  {
  }

  /** The state the outer loop keeps after `round` rounds: the next call is
      the turn of the first model of that round, and the loop state is as
      `Recorded` describes after the calls of those rounds. */
  ghost predicate RoundsRecorded(llms: seq<LLM>, topic: string, chat: Chat, round: nat,
                                 conversation: seq<string>, currentMessage: string)
  {
    && (|llms| > 0 ==> TurnIs(TotalCalls(round, |llms|), |llms|, round, 0))
    && Recorded(llms, topic, chat, TotalCalls(round, |llms|), conversation, currentMessage)
  }

  /** One pass of the outer loop of `facilitateConversation`: the inner loop
      asks every model in order, pushing its entry and passing its reply on,
      and the loop state moves on by one round. */
  method TakeRound(llms: seq<LLM>, topic: string, chat: Chat, round: nat,
                   conversation: seq<string>, currentMessage: string)
    returns (conversation': seq<string>, currentMessage': string)
    requires RoundsRecorded(llms, topic, chat, round, conversation, currentMessage)
    ensures RoundsRecorded(llms, topic, chat, round + 1, conversation', currentMessage')
  {
    ghost var made := TotalCalls(round, |llms|);
    conversation', currentMessage' := conversation, currentMessage;
    ghost var made' := made;
    for i := 0 to |llms|
      invariant made' == made + i
      invariant i < |llms| ==> TurnIs(made', |llms|, round, i)
      invariant 0 < i == |llms| ==> TurnIs(made', |llms|, round + 1, 0)
      invariant Recorded(llms, topic, chat, made', conversation', currentMessage')
    {
      // the call number is the number of replies received so far
      var response := chat(llms[i], |conversation'|, currentMessage');
      TurnTaken(llms, topic, chat, made', conversation', currentMessage', round, i, response);
      TurnNext(made', |llms|, round, i);
      conversation' := conversation' + [Entry(i, response)];
      currentMessage' := FollowUp(response, topic);
      made' := made' + 1;
    }
    assert TotalCalls(round + 1, |llms|) == made';
  }

  /** A conversation of `rounds` rounds among n models makes rounds * n calls
      and records one entry for each; it makes no call at all exactly when
      there is no round or no model. */
  lemma ConversationSize(llms: seq<LLM>, topic: string, chat: Chat, rounds: int)
    ensures var calls := Calls(llms, topic, chat, TotalCalls(rounds, |llms|));
      && |Entries(calls)| == |calls| == (if rounds > 0 then rounds * |llms| else 0)
      && (calls == [] <==> rounds <= 0 || llms == [])
  {
    TotalCallsProduct(rounds, |llms|);
    if rounds > 0 {
      ScaledBeyond(rounds, |llms|);
    }
  }

  /** Call number k is the turn of model i in round r. */
  ghost predicate TurnIs(k: nat, n: nat, r: nat, i: nat)
  {
    n > 0 && Turn(k, n) == (r, i)
  }

  /** A conversation of `rounds` rounds over n models makes rounds * n calls. */
  lemma {:induction false} TotalCallsProduct(rounds: int, n: nat)
    ensures TotalCalls(rounds, n) == if rounds > 0 then rounds * n else 0
    decreases rounds
  {
    if rounds > 0 {
      TotalCallsProduct(rounds - 1, n);
      NextMultiple(rounds - 1, n);
    }
  }

  /** The state the turn loop keeps after k calls: one entry has been pushed
      for each call the specification prescribes, and the current message is
      the one the next call receives. */
  ghost predicate Recorded(llms: seq<LLM>, topic: string, chat: Chat, k: nat,
                           conversation: seq<string>, currentMessage: string)
  {
    && (k == 0 || |llms| > 0)
    && conversation == Entries(Calls(llms, topic, chat, k))
    && currentMessage == NextInput(Calls(llms, topic, chat, k), topic)
  }

  /** One pass through the inner loop: call number k goes to model i of
      round r, and the loop state is kept. */
  lemma TurnTaken(llms: seq<LLM>, topic: string, chat: Chat, k: nat,
                  conversation: seq<string>, currentMessage: string,
                  r: nat, i: nat, response: string)
    requires i < |llms| && TurnIs(k, |llms|, r, i)
    requires Recorded(llms, topic, chat, k, conversation, currentMessage)
    requires response == chat(llms[i], k, currentMessage)
    ensures Recorded(llms, topic, chat, k + 1, conversation + [Entry(i, response)],
                     FollowUp(response, topic))
  {
    var done := Calls(llms, topic, chat, k);
    var c := Call(r, i, currentMessage, response);
    assert c == NextCall(llms, topic, chat, done);
    assert Calls(llms, topic, chat, k + 1) == done + [c];
    EntriesAppend(done, c);
  }

  /** One more call moves the turn on by one model, or to the first model of
      the next round. */
  lemma TurnNext(k: nat, n: nat, r: nat, i: nat)
    requires TurnIs(k, n, r, i)
    ensures if i + 1 < n then TurnIs(k + 1, n, r, i + 1) else TurnIs(k + 1, n, r + 1, 0)
  {
  }

  /** Recording one more call pushes its entry. */
  lemma EntriesAppend(calls: seq<Call>, c: Call)
    ensures Entries(calls + [c]) == Entries(calls) + [Entry(c.index, c.output)]
  {
    assert (calls + [c])[..|calls|] == calls;
  }

  // ---------------------------------------------------------------------
  // Integer division by the number of models
  // ---------------------------------------------------------------------

  /** A non-zero multiple of n is at least n away from 0. */
  lemma ScaledBeyond(a: int, n: int)
    requires n >= 0
    ensures a >= 1 ==> a * n >= n
    ensures a <= -1 ==> a * n <= -n
  {
    if a >= 1 {
      assert a * n == (a - 1) * n + n;
    } else if a <= -1 {
      assert a * n == (a + 1) * n - n;
    }
  }

  /** x div n is the one q with q * n <= x < q * n + n. */
  lemma DivUnique(x: nat, q: nat, n: nat)
    requires n > 0 && q * n <= x < q * n + n
    ensures x / n == q && x % n == x - q * n
  {
    var d, m := x / n, x % n;
    assert x == d * n + m;
    assert (d - q) * n == x - m - q * n;
    ScaledBeyond(d - q, n);
  }

  /** The turn of model i in round r is call number r * n + i, and no other. */
  lemma DivModPosition(r: nat, i: nat, n: nat)
    requires i < n
    ensures Position(r, i, n) / n == r && Position(r, i, n) % n == i
  {
    DivUnique(Position(r, i, n), r, n);
  }

  /** The calls of one more round. */
  lemma NextMultiple(r: nat, n: nat)
    ensures r * n + n == (r + 1) * n
  {
  }

  /** Dividing by n keeps the order of the dividends. */
  lemma DivMonotone(j: nat, k: nat, n: nat)
    requires n > 0 && j <= k
    ensures j / n <= k / n
  {
    assert j == (j / n) * n + j % n;
    assert k == (k / n) * n + k % n;
    assert (j / n - k / n) * n == (j - j % n) - (k - k % n);
    ScaledBeyond(j / n - k / n, n);
  }

  /** Below r * n, the quotient by n is below r. */
  lemma DivBelow(x: nat, r: nat, n: nat)
    requires n > 0 && x < r * n
    ensures x / n < r
  {
    assert x == (x / n) * n + x % n;
    assert (x / n - r) * n == x - x % n - r * n;
    ScaledBeyond(x / n - r, n);
  }

  // ---------------------------------------------------------------------
  // What the calls are: order, targets and threaded messages
  // ---------------------------------------------------------------------

  /** Counting turns as the nested loops do puts call number k at the
      position of its model in its round. */
  lemma {:induction false} TurnPosition(k: nat, n: nat)
    requires n > 0
    ensures Position(Turn(k, n).0, Turn(k, n).1, n) == k
  {
    if k > 0 {
      TurnPosition(k - 1, n);
      var t := Turn(k - 1, n);
      if t.1 + 1 == n {
        NextMultiple(t.0, n);
      }
    }
  }

  /** Counting turns as the nested loops do agrees with dividing the call
      number by the number of models: the quotient is the round and the
      remainder the model position. */
  lemma TurnIsDivMod(k: nat, n: nat)
    requires n > 0
    ensures Turn(k, n) == (k / n, k % n)
  {
    TurnPosition(k, n);
    DivModPosition(Turn(k, n).0, Turn(k, n).1, n);
  }

  /** `c` is call number k of a conversation: the turn `Turn` assigns it,
      receiving the opening message if it is the first call and otherwise the
      follow-up to `previous`, the reply to the call before it; its output
      is the oracle's reply. */
  ghost predicate CallMade(llms: seq<LLM>, topic: string, chat: Chat, k: nat, c: Call, previous: string)
  {
    && |llms| > 0 && c.index < |llms|
    && Turn(k, |llms|) == (c.round, c.index)
    && c.input == (if k == 0 then Opening(topic) else FollowUp(previous, topic))
    && c.output == chat(llms[c.index], k, c.input)
  }

  /** Call number k of `calls` is described by `CallMade`. */
  ghost predicate IsCall(llms: seq<LLM>, topic: string, chat: Chat, calls: seq<Call>, k: nat)
  {
    && k < |calls|
    && CallMade(llms, topic, chat, k, calls[k], if k == 0 then "" else calls[k - 1].output)
  }

  /** Every call of `calls` is described by `IsCall`. */
  ghost predicate Threaded(llms: seq<LLM>, topic: string, chat: Chat, calls: seq<Call>)
  {
    forall k :: 0 <= k < |calls| ==> IsCall(llms, topic, chat, calls, k)
  }

  /** Appending the call that follows keeps every call described. */
  lemma ThreadedAppend(llms: seq<LLM>, topic: string, chat: Chat, done: seq<Call>)
    requires |llms| > 0 && Threaded(llms, topic, chat, done)
    ensures Threaded(llms, topic, chat, done + [NextCall(llms, topic, chat, done)])
  {
    var calls := done + [NextCall(llms, topic, chat, done)];
    forall k | 0 <= k < |calls|
      ensures IsCall(llms, topic, chat, calls, k)
    {
      if k < |done| {
        assert IsCall(llms, topic, chat, done, k);
        assert calls[k] == done[k];
        if k > 0 {
          assert calls[k - 1] == done[k - 1];
        }
      } else if k > 0 {
        assert calls[k - 1] == done[k - 1];
      }
    }
  }

  /** Every call of the specification, described on its own: its round, the
      model it goes to, the message it receives and the reply it records. */
  lemma {:induction false} CallsFacts(llms: seq<LLM>, topic: string, chat: Chat, m: nat)
    requires |llms| > 0
    ensures Threaded(llms, topic, chat, Calls(llms, topic, chat, m))
  {
    if m > 0 {
      CallsFacts(llms, topic, chat, m - 1);
      ThreadedAppend(llms, topic, chat, Calls(llms, topic, chat, m - 1));
    }
  }

  /** Strict lexicographic order on (round, model position). */
  predicate Before(a: Call, b: Call)
  {
    a.round < b.round || (a.round == b.round && a.index < b.index)
  }

  /** The calls of a conversation of `rounds` rounds come in strict
      lexicographic (round, model) order; call number k is the turn of model
      k mod n in round k div n, so every model has exactly one turn in every
      round and no other turn is taken. */
  lemma CallOrder(llms: seq<LLM>, topic: string, chat: Chat, rounds: nat)
    requires |llms| > 0
    ensures var calls := Calls(llms, topic, chat, TotalCalls(rounds, |llms|));
      && (forall k :: 0 <= k < |calls| ==>
            calls[k].round < rounds && calls[k].index < |llms|
            && Position(calls[k].round, calls[k].index, |llms|) == k)
      && (forall j, k :: 0 <= j < k < |calls| ==> Before(calls[j], calls[k]))
      && (forall r, i :: 0 <= r < rounds && 0 <= i < |llms| ==>
            Position(r, i, |llms|) < |calls|
            && calls[Position(r, i, |llms|)].round == r
            && calls[Position(r, i, |llms|)].index == i)
  {
    var n := |llms|;
    var calls := Calls(llms, topic, chat, TotalCalls(rounds, n));
    TotalCallsProduct(rounds, n);
    CallsFacts(llms, topic, chat, |calls|);
    forall k | 0 <= k < |calls|
      ensures calls[k].round < rounds && calls[k].index < n
      ensures Position(calls[k].round, calls[k].index, n) == k
    {
      assert IsCall(llms, topic, chat, calls, k);
      TurnPosition(k, n);
      TurnIsDivMod(k, n);
      DivBelow(k, rounds, n);
    }
    forall j, k | 0 <= j < k < |calls|
      ensures Before(calls[j], calls[k])
    {
      assert IsCall(llms, topic, chat, calls, j);
      assert IsCall(llms, topic, chat, calls, k);
      TurnIsDivMod(j, n);
      TurnIsDivMod(k, n);
      DivMonotone(j, k, n);
    }
    forall r, i | 0 <= r < rounds && 0 <= i < n
      ensures Position(r, i, n) < |calls|
      ensures calls[Position(r, i, n)].round == r && calls[Position(r, i, n)].index == i
    {
      NextMultiple(r, n);
      assert Position(r, i, n) < (r + 1) * n <= rounds * n by {
        ScaledBeyond(rounds - (r + 1), n);
        assert rounds * n - (r + 1) * n == (rounds - (r + 1)) * n;
      }
      assert IsCall(llms, topic, chat, calls, Position(r, i, n));
      TurnIsDivMod(Position(r, i, n), n);
      DivModPosition(r, i, n);
    }
  }

  /** The first call receives the opening message about the topic. */
  lemma FirstCallInput(llms: seq<LLM>, topic: string, chat: Chat, rounds: nat)
    requires |llms| > 0 && rounds > 0
    ensures var calls := Calls(llms, topic, chat, TotalCalls(rounds, |llms|));
      |calls| > 0 && calls[0].index == 0 && calls[0].round == 0
      && calls[0].input == Opening(topic)
  {
    var calls := Calls(llms, topic, chat, TotalCalls(rounds, |llms|));
    TotalCallsProduct(rounds, |llms|);
    ScaledBeyond(rounds, |llms|);
    CallsFacts(llms, topic, chat, |calls|);
    assert IsCall(llms, topic, chat, calls, 0);
  }

  /** Every later call receives the reply to the call just before it,
      wrapped in the follow-up message, and each reply is the oracle's answer
      to the model the call goes to. */
  lemma ThreadedInput(llms: seq<LLM>, topic: string, chat: Chat, rounds: nat)
    requires |llms| > 0
    ensures var calls := Calls(llms, topic, chat, TotalCalls(rounds, |llms|));
      && (forall k :: 0 < k < |calls| ==> calls[k].input == FollowUp(calls[k - 1].output, topic))
      && (forall k :: 0 <= k < |calls| ==>
            calls[k].index < |llms| && calls[k].output == chat(llms[calls[k].index], k, calls[k].input))
  {
    var calls := Calls(llms, topic, chat, TotalCalls(rounds, |llms|));
    CallsFacts(llms, topic, chat, |calls|);
    forall k | 0 <= k < |calls|
      ensures k > 0 ==> calls[k].input == FollowUp(calls[k - 1].output, topic)
      ensures calls[k].index < |llms| && calls[k].output == chat(llms[calls[k].index], k, calls[k].input)
    {
      assert IsCall(llms, topic, chat, calls, k);
    }
  }

  /** Across a round boundary the message is threaded too: the first model
      of round r > 0 receives the reply of the last model of round r - 1. */
  lemma RoundBoundary(llms: seq<LLM>, topic: string, chat: Chat, rounds: nat, r: nat)
    requires |llms| > 0 && 0 < r < rounds
    ensures var calls := Calls(llms, topic, chat, TotalCalls(rounds, |llms|));
      var first, last := Position(r, 0, |llms|), Position(r - 1, |llms| - 1, |llms|);
      && first < |calls| && last + 1 == first
      && calls[first].round == r && calls[first].index == 0
      && calls[last].round == r - 1 && calls[last].index == |llms| - 1
      && calls[first].input == FollowUp(calls[last].output, topic)
  {
    var n := |llms|;
    var calls := Calls(llms, topic, chat, TotalCalls(rounds, n));
    NextMultiple(r - 1, n);
    CallOrder(llms, topic, chat, rounds);
    ThreadedInput(llms, topic, chat, rounds);
    assert Position(r, 0, n) < |calls|;
    assert Position(r - 1, n - 1, n) < |calls|;
  }

  /** The entry recorded for model i in round r is "Model <i + 1>: " followed
      by that model's reply in that round. */
  lemma EntryAt(llms: seq<LLM>, topic: string, chat: Chat, rounds: nat, r: nat, i: nat)
    requires i < |llms| && r < rounds
    ensures var calls := Calls(llms, topic, chat, TotalCalls(rounds, |llms|));
      var k := Position(r, i, |llms|);
      var conversation := Entries(calls);
      && k < |conversation|
      && calls[k].round == r && calls[k].index == i
      && conversation[k] == "Model " + NatToString(i + 1) + ": " + chat(llms[i], k, calls[k].input)
  {
    var calls := Calls(llms, topic, chat, TotalCalls(rounds, |llms|));
    var k := Position(r, i, |llms|);
    CallOrder(llms, topic, chat, rounds);
    ThreadedInput(llms, topic, chat, rounds);
    assert k < |calls|;
    EntriesAt(calls, k);
  }

  /** Entry number k of the conversation is the entry for call number k. */
  lemma {:induction false} EntriesAt(calls: seq<Call>, k: nat)
    requires k < |calls|
    ensures Entries(calls)[k] == Entry(calls[k].index, calls[k].output)
  {
    var front := calls[..|calls| - 1];
    if k < |calls| - 1 {
      EntriesAt(front, k);
    }
  }

  // ---------------------------------------------------------------------
  // The round-labelled log built in main
  // ---------------------------------------------------------------------

  /** The first line of the log. */
  const LogTitle: string := "\nConversation Log:\n"

  /** The round an entry is filed under: entry `index` of a conversation among
      n models belongs to round index div n, counted from 1. */
  function RoundLabel(index: nat, n: nat): (k: nat)
    requires n > 0
    ensures k >= 1
  {
    index / n + 1
  }

  /** The header line announcing a round. */
  function Header(round: nat): string
  {
    "\n[Round " + NatToString(round) + "]\n"
  }

  /** The log the `forEach` over the conversation pushes after its title:
      for each entry, its round header, the entry itself and a newline. */
  function Log(conversation: seq<string>, n: nat): (log: seq<string>)
    requires n > 0 || conversation == []
    ensures |log| == 1 + 3 * |conversation|
  {
    if conversation == [] then [LogTitle]
    else
      var j := |conversation| - 1;
      Log(conversation[..j], n) + [Header(RoundLabel(j, n)), conversation[j], "\n"]
  }

  /** The loop in main that builds the log: push the title, then the three
      parts of every entry. */
  method BuildLog(conversation: seq<string>, n: nat) returns (log: seq<string>)
    requires n > 0 || conversation == []
    ensures log == Log(conversation, n)
  {
    log := [LogTitle];
    for index := 0 to |conversation|
      invariant log == Log(conversation[..index], n)
    {
      LogStep(conversation, index, n);
      log := log + [Header(RoundLabel(index, n))];
      log := log + [conversation[index]];
      log := log + ["\n"];
    }
    assert conversation[..|conversation|] == conversation;
  }

  /** Handling one more entry of the `forEach` pushes its three parts. */
  lemma LogStep(conversation: seq<string>, index: nat, n: nat)
    requires index < |conversation| && n > 0
    ensures Log(conversation[..index + 1], n)
            == Log(conversation[..index], n) + [Header(RoundLabel(index, n)), conversation[index], "\n"]
  {
    assert conversation[..index + 1][..index] == conversation[..index];
  }

  /** The log opens with its title; entry j of the conversation sits at
      position 3j + 2, right after the header of its round and right before
      a newline. */
  lemma {:induction false} LogShape(conversation: seq<string>, n: nat)
    requires n > 0 || conversation == []
    ensures var log := Log(conversation, n);
      && log[0] == LogTitle
      && forall j :: 0 <= j < |conversation| ==>
           && log[3 * j + 1] == Header(RoundLabel(j, n))
           && log[3 * j + 2] == conversation[j]
           && log[3 * j + 3] == "\n"
  {
    if conversation != [] {
      var front := conversation[..|conversation| - 1];
      LogShape(front, n);
      var log, prev := Log(conversation, n), Log(front, n);
      assert log[..|prev|] == prev;
      forall j | 0 <= j < |conversation|
        ensures log[3 * j + 1] == Header(RoundLabel(j, n))
        ensures log[3 * j + 2] == conversation[j]
        ensures log[3 * j + 3] == "\n"
      {
        if j < |front| {
          assert front[j] == conversation[j];
          assert log[3 * j + 1] == prev[3 * j + 1];
          assert log[3 * j + 2] == prev[3 * j + 2];
          assert log[3 * j + 3] == prev[3 * j + 3];
        }
      }
    }
  }

  /** Round labels never decrease along the conversation. */
  lemma LabelsNonDecreasing(n: nat, j: nat, k: nat)
    requires n > 0 && j <= k
    ensures RoundLabel(j, n) <= RoundLabel(k, n)
  {
    DivMonotone(j, k, n);
  }

  /** In a conversation of `rounds` rounds every label lies in 1 .. rounds,
      and an entry carries label k exactly when it is one of the n entries of
      round k. */
  lemma LabelRange(rounds: nat, n: nat, j: nat, k: nat)
    requires n > 0 && j < rounds * n && k >= 1
    ensures 1 <= RoundLabel(j, n) <= rounds
    ensures RoundLabel(j, n) == k <==> Position(k - 1, 0, n) <= j < Position(k - 1, n, n)
  {
    DivBelow(j, rounds, n);
    NextMultiple(k - 1, n);
    assert j == (j / n) * n + j % n;
    if Position(k - 1, 0, n) <= j < Position(k - 1, n, n) {
      DivUnique(j, k - 1, n);
    }
    if RoundLabel(j, n) == k {
      assert (k - 1) * n + j % n == j;
    }
  }

  /** The round labels of the first m entries, in order. */
  function Labels(m: nat, n: nat): (labels: seq<nat>)
    requires n > 0
    ensures |labels| == m
  {
    seq(m, j requires 0 <= j => RoundLabel(j, n))
  }

  /** How often `x` occurs in `s`. */
  function Occurrences(s: seq<nat>, x: nat): nat
  {
    if s == [] then 0
    else Occurrences(s[..|s| - 1], x) + (if s[|s| - 1] == x then 1 else 0)
  }

  /** Counting occurrences splits over concatenation. */
  lemma {:induction false} OccurrencesAppend(a: seq<nat>, b: seq<nat>, x: nat)
    ensures Occurrences(a + b, x) == Occurrences(a, x) + Occurrences(b, x)
    decreases |b|
  {
    if b != [] {
      var b' := b[..|b| - 1];
      assert (a + b)[..|a + b| - 1] == a + b';
      OccurrencesAppend(a, b', x);
    } else {
      assert a + b == a;
    }
  }

  /** n copies of v contain x n times if x is v, and never otherwise. */
  lemma {:induction false} OccurrencesConstant(n: nat, v: nat, x: nat)
    ensures Occurrences(seq(n, _ => v), x) == if x == v then n else 0
  {
    if n > 0 {
      assert seq(n, _ => v)[..n - 1] == seq(n - 1, _ => v);
      OccurrencesConstant(n - 1, v, x);
    }
  }

  /** Over a conversation of `rounds` rounds among n models, every label
      1 .. rounds is used exactly n times and no other label is used. */
  lemma {:induction false} LabelCounts(rounds: nat, n: nat, x: nat)
    requires n > 0
    ensures Occurrences(Labels(rounds * n, n), x) == if 1 <= x <= rounds then n else 0
  {
    if rounds > 0 {
      var r := rounds - 1;
      NextMultiple(r, n);
      var all, before, block := Labels(rounds * n, n), Labels(r * n, n), seq(n, _ => r + 1);
      forall j | 0 <= j < |all|
        ensures all[j] == (before + block)[j]
      {
        if j >= r * n {
          DivModPosition(r, j - r * n, n);
        }
      }
      assert all == before + block;
      OccurrencesAppend(before, block, x);
      OccurrencesConstant(n, r + 1, x);
      LabelCounts(r, n, x);
    } else {
      assert Labels(rounds * n, n) == [];
    }
  }

  /** The label the formatter computes for entry k is the round, counted
      from 1, in which call number k was made. */
  lemma CallRoundLabels(llms: seq<LLM>, topic: string, chat: Chat, m: nat)
    requires |llms| > 0
    ensures var calls := Calls(llms, topic, chat, m);
      forall k :: 0 <= k < m ==> calls[k].round + 1 == RoundLabel(k, |llms|)
  {
    var calls := Calls(llms, topic, chat, m);
    CallsFacts(llms, topic, chat, m);
    forall k | 0 <= k < m
      ensures calls[k].round + 1 == RoundLabel(k, |llms|)
    {
      assert IsCall(llms, topic, chat, calls, k);
      TurnIsDivMod(k, |llms|);
    }
  }

  /** In the log of the entries of `calls`, the header above entry k carries
      the label of position k and the line itself is the entry for call k. */
  lemma LogOfEntries(calls: seq<Call>, n: nat)
    requires n > 0
    ensures var log := Log(Entries(calls), n);
      forall k :: 0 <= k < |calls| ==>
        && log[3 * k + 1] == Header(RoundLabel(k, n))
        && log[3 * k + 2] == Entry(calls[k].index, calls[k].output)
  {
    LogShape(Entries(calls), n);
    forall k | 0 <= k < |calls|
      ensures Entries(calls)[k] == Entry(calls[k].index, calls[k].output)
    {
      EntriesAt(calls, k);
    }
  }

  /** What the formatter shows of a conversation: the header above entry k
      names the round (counted from 1) in which call k was made, and the
      entry names the model called, counted from 1, and carries its reply. */
  lemma LogMatchesCalls(llms: seq<LLM>, topic: string, chat: Chat, m: nat)
    requires |llms| > 0
    ensures var calls := Calls(llms, topic, chat, m);
      var log := Log(Entries(calls), |llms|);
      forall k :: 0 <= k < m ==>
        && log[3 * k + 1] == Header(calls[k].round + 1)
        && log[3 * k + 2] == Entry(calls[k].index, calls[k].output)
  {
    var calls := Calls(llms, topic, chat, m);
    var log := Log(Entries(calls), |llms|);
    CallRoundLabels(llms, topic, chat, m);
    LogOfEntries(calls, |llms|);
    forall k | 0 <= k < m
      ensures log[3 * k + 1] == Header(calls[k].round + 1)
      ensures log[3 * k + 2] == Entry(calls[k].index, calls[k].output)
    {
      assert calls[k].round + 1 == RoundLabel(k, |llms|);
      assert log[3 * k + 1] == Header(RoundLabel(k, |llms|));
    }
  }

  // ---------------------------------------------------------------------
  // main
  // ---------------------------------------------------------------------

  /** The topic main discusses. */
  const MainTopic: string := "why is sky blue?"

  /** The text main hands to the storage agent: two models discuss the topic
      for the default three rounds, the log is built and joined with
      newlines. */
  method MainLogText(chat: Chat) returns (text: string)
    ensures text == Join(Log(Entries(Calls([LLM(Models[0]), LLM(Models[1])], MainTopic, chat,
                                            TotalCalls(DefaultRounds, 2))), 2), "\n")
  {
    var llms := SetupLLMs(2);
    assert llms == [LLM(Models[0]), LLM(Models[1])];
    var conversation := FacilitateConversation(llms, MainTopic, DefaultRounds, chat);
    var conversationLog := BuildLog(conversation, |llms|);
    text := Join(conversationLog, "\n");
  }

  /** The stored text opens with the title, the header of round 1 and the
      first entry, each on its own line, followed by an empty line. */
  lemma LogTextOpening(conversation: seq<string>, n: nat)
    requires n > 0 && conversation != []
    ensures LogTitle + "\n" + Header(1) + "\n" + conversation[0] + "\n" + "\n"
            <= Join(Log(conversation, n), "\n")
  {
    var log := Log(conversation, n);
    var head := [LogTitle, Header(1), conversation[0], "\n"];
    LogHead(conversation, n);
    JoinFour(LogTitle, Header(1), conversation[0], "\n", "\n");
    if |log| == 4 {
      assert log == head;
    } else {
      assert head + log[4..] == log;
      JoinAppend(head, log[4..], "\n");
    }
  }

  /** The first four lines of the log: the title, the header of round 1,
      the first entry and a newline. */
  lemma LogHead(conversation: seq<string>, n: nat)
    requires n > 0 && conversation != []
    ensures Log(conversation, n)[..4] == [LogTitle, Header(1), conversation[0], "\n"]
  {
    var log := Log(conversation, n);
    LogShape(conversation, n);
    assert RoundLabel(0, n) == 1;
    assert log[1] == Header(1) && log[2] == conversation[0] && log[3] == "\n";
  }
}
