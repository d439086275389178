# Round-robin LLM conversation driver

This project models the conversation driver in `conversation.js`. The driver
builds one wrapper per model name and lets the models discuss a topic in
rounds. In each round every model is asked in order. One message is passed
from call to call: the first call gets an opening prompt, and every later call
gets the previous reply wrapped in a follow-up prompt. Each reply is recorded
as `Model <i + 1>: <reply>`. `main` then builds a log with a round header above
each entry, joins it with newlines and hands the text to a storage agent.

The model has two modules:

- `Builtins` (`builtins.dfy`) covers the JavaScript built-ins the driver relies
  on:
  - decimal rendering of a non-negative integer inside a template literal;
  - `Array.prototype.slice`, including negative indices;
  - `Array.prototype.join`.
- `Conversation` (`conversation.dfy`) covers `setupLLMs`,
  `facilitateConversation` and the log built in `main`. These are imperative
  methods with loops.
  - The model service is an uninterpreted oracle
    `chat(llm, callNumber, input)`. The call number is how many replies have
    been received so far, so two calls with the same prompt may get different
    replies.
  - `FacilitateConversation` is proved against `Calls`, the specification of
    the sequence of oracle calls. Lemmas then prove what that sequence is:
    - the (round, model) order;
    - the prompt each call receives;
    - the entry each reply produces;
    - the round label each entry is filed under in the log.

The data comes from these lines of conversation.js:

- The wrapper class `LLM` (lines 29-32) is the datatype `Conversation.LLM`. A
  wrapper's `modelName` is set by its constructor and never changes, so a
  value is enough.
- The model list (line 45) is the constant `Conversation.Models`.
- The default round count (line 54) is `Conversation.DefaultRounds`.
- The template texts (lines 56 and 63), the log title (line 80) and the topic
  in `main` (line 73) are string constants beside the functions that use
  them.
- A call of the turn loop is a `Conversation.Call` value. It holds the round,
  the model position, the message sent and the reply.

The table below lists functions, methods and lemmas.

## Model

| member | source | states |
|---|---|---|
| `Builtins.NatToString` | conversation.js:61 | the text of `${i + 1}`: at least one decimal digit, no leading zero except for 0 itself, one digit exactly for numbers below 10 |
| `Builtins.NatToStringRoundTrip` | conversation.js:61 | reading the rendered digits back gives the number rendered |
| `Builtins.NatToStringInjective` | conversation.js:82 | distinct model positions or round numbers are rendered as distinct texts |
| `Builtins.Slice` | conversation.js:46 | `models.slice(0, k)` has as many elements as the resolved end exceeds the resolved start, and they are the source's elements from the start, in order |
| `Builtins.JoinAppend` | conversation.js:86 | `join` over two non-empty lists is the two joins with one separator between them |
| `Builtins.JoinFour` | conversation.js:86 | `join` of four parts puts the separator between each neighbouring pair and nowhere else |
| `Conversation.SetupLLMs` | conversation.js:43-52 | one wrapper per name of `models.slice(0, numberOfLLMs)`: at most two, fewer for a smaller count, negative counts counting back from the end; wrapper i carries model name i of the fixed list |
| `Conversation.Opening` | conversation.js:56 | definition, no contract: the opening message built from the topic; `OpeningNotFollowUp` and `FirstCallInput` state its role |
| `Conversation.FollowUp` | conversation.js:63 | definition, no contract: the follow-up message built from a reply and the topic; `FollowUpInjective` and `ThreadedInput` state its role |
| `Conversation.FollowUpInjective` | conversation.js:63 | the follow-up message carries the whole reply: two replies give the same follow-up about a topic only when they are equal |
| `Conversation.OpeningNotFollowUp` | conversation.js:56-63 | the opening message never equals a follow-up message, whatever the reply and topic |
| `Conversation.NextInput` | conversation.js:56-63 | definition, no contract: the message the next call receives, the opening one first and then the follow-up to the last reply; `Recorded` ties it to `currentMessage` |
| `Conversation.TotalCalls` | conversation.js:58-59 | the number of calls the two loops make; its contract gives only that no model means no call, and `TotalCallsProduct` gives rounds × n |
| `Conversation.Turn` | conversation.js:58-59 | the loop counters (round, model) of call k, stepped as the loops step them; its contract gives only that the model position is valid, and `TurnIsDivMod` gives (k div n, k mod n) |
| `Conversation.NextCall` | conversation.js:60-63 | definition, no contract: the call after the calls so far, with its turn, threaded message and oracle reply; `ThreadedAppend` and `CallsFacts` state what every such call is |
| `Conversation.Entry` | conversation.js:61 | definition, no contract: the entry `Model <i + 1>: <reply>`; `EntryInjective` and `EntryAt` state its role |
| `Conversation.EntryInjective` | conversation.js:61 | two entries are equal only for the same model and the same reply |
| `Conversation.LabelledSplit` | conversation.js:61 | a text `Model <digits>: <reply>` determines its digits and its reply, because the digits end at the first colon |
| `Conversation.LabelledAt` | conversation.js:61 | in `Model <digits>: <reply>`, each character after `Model ` is a digit up to the colon that follows the last digit |
| `Conversation.Calls` | conversation.js:54-68 | the specification of the first m oracle calls has exactly m calls |
| `Conversation.Entries` | conversation.js:61 | one conversation entry is pushed per call |
| `Conversation.FacilitateConversation` | conversation.js:54-68 | the returned conversation holds exactly the entries of the calls `Calls` prescribes for `rounds` rounds over the given models, one per call, in call order |
| `Conversation.RoundsFinished` | conversation.js:58-67 | when the outer loop stops, the conversation holds the entries of all the calls of `rounds` rounds, none for a non-positive count |
| `Conversation.TakeRound` | conversation.js:59-64 | one pass of the inner loop asks every model once, keeping conversation and current message in step with the calls of one more round, and ends at model 0 of the next round |
| `Conversation.TurnTaken` | conversation.js:60-63 | one inner-loop step records exactly the next prescribed call: its entry is pushed and its reply becomes the next follow-up message |
| `Conversation.TurnNext` | conversation.js:59 | one more call moves to the next model, or to model 0 of the next round after the last model |
| `Conversation.EntriesAppend` | conversation.js:61 | recording one more call pushes exactly its entry |
| `Conversation.TotalCallsProduct` | conversation.js:58-59 | the loops make rounds × n calls, and none for a non-positive round count |
| `Conversation.ConversationSize` | conversation.js:58-65 | the conversation has exactly rounds × n entries, one per call, and no call is made exactly when there is no round or no model |
| `Conversation.TurnPosition` | conversation.js:58-59 | the round and model position of call k place it at position round × n + model, i.e. k |
| `Conversation.TurnIsDivMod` | conversation.js:58-59 | the round of call k is k div n and its model position is k mod n |
| `Conversation.ThreadedAppend` | conversation.js:56-63 | appending the prescribed next call keeps every call described by its turn, its prompt (opening or follow-up to the reply before) and its oracle reply |
| `Conversation.CallsFacts` | conversation.js:56-63 | every call of the specification has the turn, prompt and reply its position dictates |
| `Conversation.CallOrder` | conversation.js:58-60 | calls come in strict lexicographic (round, model) order; every call lies in a valid round and model; every model has its turn at position r × n + i in every round, so none is skipped or repeated |
| `Conversation.FirstCallInput` | conversation.js:56-60 | the first call goes to model 0 in round 0 and receives the opening prompt about the topic |
| `Conversation.ThreadedInput` | conversation.js:60-63 | every later call receives the follow-up prompt wrapping the reply just before it, and every reply is the oracle's answer for the model called |
| `Conversation.RoundBoundary` | conversation.js:58-63 | model 0 of round r > 0 receives the follow-up to the reply of the last model of round r - 1 |
| `Conversation.EntryAt` | conversation.js:60-61 | the entry at position r × n + i is `Model <i + 1>: ` followed by model i's reply in round r |
| `Conversation.EntriesAt` | conversation.js:61 | entry k of the conversation is the entry for call k |
| `Conversation.RoundLabel` | conversation.js:82 | the label `Math.floor(index / llms.length) + 1`; its contract gives only that it is at least 1, and `LabelRange`, `LabelCounts` and `CallRoundLabels` state its meaning |
| `Conversation.Header` | conversation.js:82 | definition, no contract: the header line `\n[Round k]\n`; `LogShape` places it above each entry |
| `Conversation.Log` | conversation.js:79-85 | the log has one title plus three lines per entry |
| `Conversation.BuildLog` | conversation.js:79-85 | the title push and the `forEach` build exactly the log `Log` specifies |
| `Conversation.LogStep` | conversation.js:81-84 | one `forEach` step pushes the header of the entry's round, the entry and a newline |
| `Conversation.LogShape` | conversation.js:79-85 | the log starts with the title; entry j sits at 3j + 2, after the header of its round and before a newline |
| `Conversation.LogHead` | conversation.js:80-84 | the log starts with the title, the header of round 1, the first entry and a newline |
| `Conversation.LabelsNonDecreasing` | conversation.js:82 | round labels never decrease along the conversation |
| `Conversation.LabelRange` | conversation.js:82 | over rounds × n entries every label lies in 1 .. rounds, and entry j carries label k exactly when it is one of the n entries of round k |
| `Conversation.LabelCounts` | conversation.js:81-82 | over rounds × n entries each label 1 .. rounds occurs exactly n times and no other label occurs |
| `Conversation.CallRoundLabels` | conversation.js:82 | the label the formatter computes for entry k is the round, counted from 1, in which call k was made |
| `Conversation.LogOfEntries` | conversation.js:79-85 | in the log of the conversation, line 3k + 1 is the header for position k and line 3k + 2 is the entry for call k |
| `Conversation.LogMatchesCalls` | conversation.js:54-85 | the header above entry k names the round in which call k was made, and the entry names that call's model and carries its reply |
| `Conversation.MainLogText` | conversation.js:70-86 | the text handed to storage is the newline-joined log of the conversation two models hold about "why is sky blue?" over the default three rounds |
| `Conversation.LogTextOpening` | conversation.js:80-86 | the stored text begins with the title, the round-1 header and the first entry, each followed by a newline, and then an empty line |

## Behaviour of the code

Three behaviours of conversation.js are easy to overlook. The model states
each of them as the code has it:

- **An empty model list.** `facilitateConversation` does not check its
  arguments. With no models the inner loop never runs, so no call is made and
  the result is `[]`. `ConversationSize` states this case.
- **A rejected `chat`.** Nothing catches the rejection. It rejects
  `facilitateConversation`, and the entries gathered so far are lost.
- **A negative count in `setupLLMs`.** `setupLLMs(k)` returns one wrapper per
  name of `models.slice(0, k)`. For a negative k, `slice` counts back from the
  end, so `setupLLMs(-1)` yields one wrapper. `SetupLLMs` states this.

## Left out

- `setupStorage` and the `Agent`, `PinataStorageProvider` and
  `privateKeyToAccount` setup (conversation.js:8-27): foreign SDK
  construction, key handling and network setup.
- `LLM.chat` and `ollama.chat` (conversation.js:34-40): the inference call is
  the oracle parameter `chat`.
- A `chat` call that fails: failure of the foreign inference call is not
  modelled. In the code it rejects the whole conversation; see above.
- `console.log` progress and status output (conversation.js:62, 75, 87):
  output only.
- `agentStorage.create` (conversation.js:86): the model states the text passed
  to it (`MainLogText`), not the storage write or the file it returns.
- `async`/`await`: the awaited calls run one after another, so the model is
  sequential.
- JavaScript numbers: `rounds` and `numberOfLLMs` are unbounded integers.
  Non-integer, `NaN` or infinite arguments are not modelled.
- `Math.floor(index / llms.length)` with no models: `Log` requires a positive
  model count or an empty conversation. With no models the conversation is
  empty and the `forEach` never divides.
- Strings are sequences of characters. UTF-16 code units are not modelled.
- `Builtins.RelativeIndex`: no contract of its own beyond the bound by the
  length. `Builtins.Slice` and `Conversation.SetupLLMs` state what it
  resolves `slice`'s arguments to.
- `Builtins.Join`: no contract of its own. `JoinAppend` and `JoinFour` state
  what the log text needs of it.
- storage.js, multi-agent/subscribe-llm2.js, log.js and logWithMemory.js:
  calls into the storage SDK, an on-chain event subscription and gateway
  fetches, with no logic beyond small string concatenations. They are not
  part of this model.
