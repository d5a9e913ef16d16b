/**
  What a model is asked and what it may answer: the context built from a session's
  successful history, and the replies the two completion providers can produce.
 */
module AgentContext {
  import opened Wrappers
  import opened Text
  import opened AgentTypes

  const MAX_MODEL_CONTEXT_BYTES := 256 * 1024
  const MAX_PROVIDER_RESPONSE_BYTES := 64 * 1024
  const MAX_USIZE := 0xFFFF_FFFF_FFFF_FFFF

  datatype CompletedTurn = CompletedTurn(turnId: TurnId, input: string, terminal: TurnTerminal)

  datatype ModelRole = System | User | Assistant

  datatype ModelMessage = ModelMessage(role: ModelRole, content: string)

  type ModelContext = seq<ModelMessage>

  /** The user and assistant messages of exactly the turns that ended in `Final`, in ledger order. */
  function History(turns: seq<CompletedTurn>): (messages: ModelContext) {
    if turns == [] then []
    else (match turns[0].terminal
          case Final(content) => [ModelMessage(User, turns[0].input), ModelMessage(Assistant, content)]
          case _ => []) + History(turns[1..])
  }

  function Projection(systemPrompt: string, turns: seq<CompletedTurn>, input: string): (messages: ModelContext) {
    [ModelMessage(System, systemPrompt)] + (History(turns) + [ModelMessage(User, input)])
  }

  function ContextBytes(messages: ModelContext): (n: nat) {
    if messages == [] then 0 else ByteLen(messages[0].content) + ContextBytes(messages[1..])
  }

  /** The context of a turn, or the failure recorded when it is over the limit. */
  function ContextOf(systemPrompt: string, turns: seq<CompletedTurn>, input: string)
    : (r: Result<ModelContext, TurnFailure>)
  {
    var messages := Projection(systemPrompt, turns, input);
    if ContextBytes(messages) <= MAX_MODEL_CONTEXT_BYTES then Ok(messages) else Err(ContextLimit)
  }

  lemma {:induction false} ContextBytesAppend(a: ModelContext, b: ModelContext)
    ensures ContextBytes(a + b) == ContextBytes(a) + ContextBytes(b)
  {
    if a == [] {
      assert a + b == b;
    } else {
      assert (a + b)[1..] == a[1..] + b;
      ContextBytesAppend(a[1..], b);
    }
  }

  /** `push_context_message`: `None` when the running total leaves the limit, or a `usize`. */
  method PushContextMessage(messages: ModelContext, contextBytes: nat, role: ModelRole, content: string)
    returns (pushed: Option<(ModelContext, nat)>)
    requires contextBytes == ContextBytes(messages) <= MAX_MODEL_CONTEXT_BYTES
    ensures pushed.None? <==> contextBytes + ByteLen(content) > 262144
    ensures pushed.Some? ==>
      && pushed.value.0 == messages + [ModelMessage(role, content)]
      && pushed.value.1 == ContextBytes(pushed.value.0) <= MAX_MODEL_CONTEXT_BYTES
  {
    var total := contextBytes + ByteLen(content);
    if total > MAX_USIZE || total > MAX_MODEL_CONTEXT_BYTES {
      return None;
    }
    ContextBytesAppend(messages, [ModelMessage(role, content)]);
    return Some((messages + [ModelMessage(role, content)], total));
  }

  /** A prefix of a context that is over the limit puts the whole context over it. */
  lemma OverLimit(whole: ModelContext, messages: ModelContext, next: ModelMessage, rest: ModelContext)
    requires whole == messages + ([next] + rest)
    requires ContextBytes(messages) + ByteLen(next.content) > MAX_MODEL_CONTEXT_BYTES
    ensures ContextBytes(whole) > MAX_MODEL_CONTEXT_BYTES
  {
    ContextBytesAppend(messages, [next] + rest);
    assert ([next] + rest)[1..] == rest;
  }

  lemma HistoryHead(turns: seq<CompletedTurn>, last: ModelContext)
    requires turns != []
    ensures turns[0].terminal.Final? ==>
      History(turns) + last == [ModelMessage(User, turns[0].input)]
        + ([ModelMessage(Assistant, turns[0].terminal.content)] + (History(turns[1..]) + last))
    ensures !turns[0].terminal.Final? ==> History(turns) == History(turns[1..])
  {
    var rest := History(turns[1..]);
    if turns[0].terminal.Final? {
      var user := [ModelMessage(User, turns[0].input)];
      var assistant := [ModelMessage(Assistant, turns[0].terminal.content)];
      assert History(turns) == (user + assistant) + rest;
      Assoc(user, assistant, rest);
      Assoc(user, assistant + rest, last);
      Assoc(assistant, rest, last);
    } else {
      assert [] + rest == rest;
    }
  }

  /** The turns that ended in `Final`, in order. */
  function Finals(turns: seq<CompletedTurn>): (finals: seq<CompletedTurn>) {
    if turns == [] then []
    else (if turns[0].terminal.Final? then [turns[0]] else []) + Finals(turns[1..])
  }

  lemma {:induction false} FinalsAppend(a: seq<CompletedTurn>, b: seq<CompletedTurn>)
    ensures Finals(a + b) == Finals(a) + Finals(b)
  {
    if a == [] {
      assert a + b == b;
    } else {
      assert (a + b)[1..] == a[1..] + b;
      FinalsAppend(a[1..], b);
    }
  }

  /** Only such turns, and each of them behind as many as come before it. */
  lemma {:induction false} FinalsAreInOrder(turns: seq<CompletedTurn>, i: nat)
    requires i < |turns|
    ensures forall k :: 0 <= k < |Finals(turns)| ==> Finals(turns)[k].terminal.Final?
    ensures |Finals(turns[..i])| <= |Finals(turns)|
    ensures turns[i].terminal.Final? ==>
      |Finals(turns[..i])| < |Finals(turns)| && Finals(turns)[|Finals(turns[..i])|] == turns[i]
  {
    OnlyFinals(turns);
    assert turns == turns[..i] + turns[i..];
    FinalsAppend(turns[..i], turns[i..]);
  }

  lemma {:induction false} OnlyFinals(turns: seq<CompletedTurn>)
    ensures forall k :: 0 <= k < |Finals(turns)| ==> Finals(turns)[k].terminal.Final?
  {
    if turns != [] {
      OnlyFinals(turns[1..]);
    }
  }

  /** The user and assistant messages of some turns, one pair for each. */
  ghost predicate ArePairs(messages: ModelContext, finals: seq<CompletedTurn>) {
    && |messages| == 2 * |finals|
    && forall k :: 0 <= k < |finals| ==>
      && finals[k].terminal.Final?
      && messages[2 * k] == ModelMessage(User, finals[k].input)
      && messages[2 * k + 1] == ModelMessage(Assistant, finals[k].terminal.content)
  }

  lemma OneMorePair(turn: CompletedTurn, messages: ModelContext, finals: seq<CompletedTurn>)
    requires turn.terminal.Final? && ArePairs(messages, finals)
    ensures ArePairs(
      [ModelMessage(User, turn.input), ModelMessage(Assistant, turn.terminal.content)] + messages, [turn] + finals)
  {
    var pairs := [ModelMessage(User, turn.input), ModelMessage(Assistant, turn.terminal.content)] + messages;
    forall k | 1 <= k < |finals| + 1
      ensures pairs[2 * k] == messages[2 * (k - 1)] && pairs[2 * k + 1] == messages[2 * (k - 1) + 1]
    {
    }
  }

  lemma {:induction false} HistoryByIndex(turns: seq<CompletedTurn>)
    ensures ArePairs(History(turns), Finals(turns))
  {
    if turns != [] {
      HistoryByIndex(turns[1..]);
      if turns[0].terminal.Final? {
        OneMorePair(turns[0], History(turns[1..]), Finals(turns[1..]));
      } else {
        assert History(turns) == History(turns[1..]) && Finals(turns) == Finals(turns[1..]);
      }
    }
  }

  /** The messages of a context, one by one. */
  ghost predicate IsContextOf(
    messages: ModelContext, systemPrompt: string, finals: seq<CompletedTurn>, input: string) {
    && |messages| == 2 * |finals| + 2
    && messages[0] == ModelMessage(System, systemPrompt)
    && messages[|messages| - 1] == ModelMessage(User, input)
    && forall k :: 0 <= k < |finals| ==>
      && finals[k].terminal.Final?
      && messages[2 * k + 1] == ModelMessage(User, finals[k].input)
      && messages[2 * k + 2] == ModelMessage(Assistant, finals[k].terminal.content)
  }

  /** The projection holds the system prompt, then the pairs of exactly the `Final` turns, then the input. */
  lemma ProjectionByIndex(systemPrompt: string, turns: seq<CompletedTurn>, input: string)
    ensures IsContextOf(Projection(systemPrompt, turns, input), systemPrompt, Finals(turns), input)
  {
    var messages, history := Projection(systemPrompt, turns, input), History(turns);
    HistoryByIndex(turns);
    assert forall k :: 0 <= k < |history| ==> messages[k + 1] == history[k];
    forall k | 0 <= k < |Finals(turns)|
      ensures messages[2 * k + 1] == history[2 * k] && messages[2 * k + 2] == history[2 * k + 1]
    {
      assert messages[(2 * k + 1) + 1] == history[2 * k + 1];
    }
  }

  /** `build_model_context` returns the projection of the successful history, exactly when it fits. */
  method BuildModelContext(systemPrompt: string, turns: seq<CompletedTurn>, currentInput: string)
    returns (r: Result<ModelContext, TurnFailure>)
    ensures r == ContextOf(systemPrompt, turns, currentInput)
    ensures r.Ok? ==> IsContextOf(r.value, systemPrompt, Finals(turns), currentInput)
    ensures r.Ok? ==> ContextBytes(r.value) <= 262144
    ensures r.Err? ==> r.error == ContextLimit
  {
    ghost var whole := Projection(systemPrompt, turns, currentInput);
    ghost var last := [ModelMessage(User, currentInput)];
    var messages: ModelContext, contextBytes: nat := [], 0;
    OverLimitOrPushed(whole, messages, ModelMessage(System, systemPrompt), History(turns) + last);
    var pushed := PushContextMessage(messages, contextBytes, System, systemPrompt);
    if pushed.None? {
      return Err(ContextLimit);
    }
    messages, contextBytes := pushed.value.0, pushed.value.1;
    assert turns[0..] == turns;
    for i := 0 to |turns|
      invariant contextBytes == ContextBytes(messages) <= MAX_MODEL_CONTEXT_BYTES
      invariant whole == messages + (History(turns[i..]) + last)
    {
      assert turns[i..][1..] == turns[i + 1..];
      if turns[i].terminal.Final? {
        var user, assistant := ModelMessage(User, turns[i].input), ModelMessage(Assistant, turns[i].terminal.content);
        ghost var later := History(turns[i + 1..]) + last;
        HistoryHead(turns[i..], last);
        OverLimitOrPushed(whole, messages, user, [assistant] + later);
        pushed := PushContextMessage(messages, contextBytes, User, turns[i].input);
        if pushed.None? {
          return Err(ContextLimit);
        }
        messages, contextBytes := pushed.value.0, pushed.value.1;
        OverLimitOrPushed(whole, messages, assistant, later);
        pushed := PushContextMessage(messages, contextBytes, Assistant, turns[i].terminal.content);
        if pushed.None? {
          return Err(ContextLimit);
        }
        messages, contextBytes := pushed.value.0, pushed.value.1;
      } else {
        HistoryHead(turns[i..], last);
      }
    }
    assert [] + last == last + [];
    OverLimitOrPushed(whole, messages, ModelMessage(User, currentInput), []);
    pushed := PushContextMessage(messages, contextBytes, User, currentInput);
    if pushed.None? {
      return Err(ContextLimit);
    }
    assert pushed.value.0 + [] == pushed.value.0;
    ProjectionByIndex(systemPrompt, turns, currentInput);
    return Ok(pushed.value.0);
  }

  lemma OverLimitOrPushed(whole: ModelContext, messages: ModelContext, next: ModelMessage, rest: ModelContext)
    requires whole == messages + ([next] + rest)
    ensures ContextBytes(messages) + ByteLen(next.content) > MAX_MODEL_CONTEXT_BYTES ==>
      ContextBytes(whole) > MAX_MODEL_CONTEXT_BYTES
    ensures whole == (messages + [next]) + rest
  {
    if ContextBytes(messages) + ByteLen(next.content) > MAX_MODEL_CONTEXT_BYTES {
      OverLimit(whole, messages, next, rest);
    }
  }

  // ------------------------------------------------ the deterministic provider

  /** `messages.iter().rev().filter(User).map(content)`. */
  function UserInputsReversed(messages: ModelContext): (inputs: seq<string>)
    decreases |messages|
  {
    if messages == [] then []
    else
      var last := messages[|messages| - 1];
      (if last.role == User then [last.content] else []) + UserInputsReversed(messages[..|messages| - 1])
  }

  function Reply(previous: Option<string>, current: string): (reply: string) {
    match previous
    case Some(p) => "previous: " + p + "; current: " + current
    case None => "current: " + current
  }

  /** `deterministic_final`. */
  function DeterministicFinal(messages: ModelContext): (reply: string)
    requires UserInputsReversed(messages) != []
  {
    var inputs := UserInputsReversed(messages);
    Reply(if |inputs| > 1 then Some(inputs[1]) else None, inputs[0])
  }

  /** The most recent turn of the session that ended in `Final`. */
  function LatestFinal(turns: seq<CompletedTurn>): (turn: Option<CompletedTurn>)
    decreases |turns|
  {
    if turns == [] then None
    else if turns[|turns| - 1].terminal.Final? then Some(turns[|turns| - 1])
    else LatestFinal(turns[..|turns| - 1])
  }

  /** No later turn ended in `Final`; and there is none at all when there is no latest one. */
  lemma {:induction false} LatestFinalIsLatest(turns: seq<CompletedTurn>)
    ensures LatestFinal(turns).None? <==> forall i :: 0 <= i < |turns| ==> !turns[i].terminal.Final?
    ensures LatestFinal(turns).Some? ==> exists i ::
        && 0 <= i < |turns| && turns[i] == LatestFinal(turns).value && turns[i].terminal.Final?
        && forall j :: i < j < |turns| ==> !turns[j].terminal.Final?
    decreases |turns|
  {
    if turns != [] && !turns[|turns| - 1].terminal.Final? {
      LatestFinalIsLatest(turns[..|turns| - 1]);
    }
  }

  lemma {:induction false} UserInputsAppend(a: ModelContext, b: ModelContext)
    ensures UserInputsReversed(a + b) == UserInputsReversed(b) + UserInputsReversed(a)
    decreases |b|
  {
    if b == [] {
      assert a + b == a;
    } else {
      assert (a + b)[..|a + b| - 1] == a + b[..|b| - 1];
      assert (a + b)[|a + b| - 1] == b[|b| - 1];
      UserInputsAppend(a, b[..|b| - 1]);
      if b[|b| - 1].role == User {
        Assoc([b[|b| - 1].content], UserInputsReversed(b[..|b| - 1]), UserInputsReversed(a));
      }
    }
  }

  lemma {:induction false} HistoryAppend(turns: seq<CompletedTurn>, turn: CompletedTurn)
    ensures History(turns + [turn]) == History(turns) + History([turn])
  {
    if turns == [] {
      assert turns + [turn] == [turn];
    } else {
      assert (turns + [turn])[1..] == turns[1..] + [turn];
      HistoryAppend(turns[1..], turn);
    }
  }

  lemma OneTurnInputs(turn: CompletedTurn)
    ensures UserInputsReversed(History([turn])) == if turn.terminal.Final? then [turn.input] else []
  {
    if turn.terminal.Final? {
      var user, assistant := ModelMessage(User, turn.input), ModelMessage(Assistant, turn.terminal.content);
      assert History([turn]) == [user] + [assistant];
      UserInputsAppend([user], [assistant]);
    } else {
      assert History([turn]) == [];
    }
  }

  /** The newest user input in a history is that of the latest successful turn. */
  lemma {:induction false} HistoryEndsWithLatestFinal(turns: seq<CompletedTurn>)
    ensures LatestFinal(turns).None? ==> UserInputsReversed(History(turns)) == []
    ensures LatestFinal(turns).Some? ==>
      && UserInputsReversed(History(turns)) != []
      && UserInputsReversed(History(turns))[0] == LatestFinal(turns).value.input
    decreases |turns|
  {
    if turns != [] {
      var before, turn := turns[..|turns| - 1], turns[|turns| - 1];
      assert turns == before + [turn];
      HistoryAppend(before, turn);
      UserInputsAppend(History(before), History([turn]));
      OneTurnInputs(turn);
      HistoryEndsWithLatestFinal(before);
    }
  }

  /**
    The deterministic reply quotes the current input and the input of the session's latest
    `Final` turn, never that of a failed, cancelled or timed-out one.
   */
  lemma ReplyQuotesLatestFinal(systemPrompt: string, turns: seq<CompletedTurn>, input: string)
    ensures var messages := Projection(systemPrompt, turns, input);
      var latest := LatestFinal(turns);
      && UserInputsReversed(messages) != []
      && DeterministicFinal(messages) == Reply(if latest.Some? then Some(latest.value.input) else None, input)
      && DeterministicFinal(messages)
         == (if latest.Some? then "previous: " + latest.value.input + "; " else "") + ("current: " + input)
  {
    var system, current := [ModelMessage(System, systemPrompt)], [ModelMessage(User, input)];
    UserInputsAppend(system, History(turns) + current);
    UserInputsAppend(History(turns), current);
    HistoryEndsWithLatestFinal(turns);
    assert UserInputsReversed(current) == [input] && UserInputsReversed(system) == [];
    ReplyReads(if LatestFinal(turns).Some? then Some(LatestFinal(turns).value.input) else None, input);
  }

  /** The text of a reply. */
  lemma ReplyReads(previous: Option<string>, current: string)
    ensures Reply(previous, current)
      == (if previous.Some? then "previous: " + previous.value + "; " else "") + ("current: " + current)
  {
    if previous.Some? {
      assert "; " + "current: " == "; current: ";
      Assoc("; ", "current: ", current);
      Assoc("previous: " + previous.value, "; ", "current: " + current);
      Assoc("previous: " + previous.value, "; current: ", current);
    }
  }

  // ---------------------------------------------------- what providers may say

  /** `is_safe_model_content`. */
  predicate SafeModelContent(content: string) {
    && !Blank(content)
    && ByteLen(content) <= MAX_MODEL_CONTENT_BYTES
    && PlainText(content)
  }

  /** Some character that is not white space, at most 16 KiB, no control characters but newline and tab. */
  lemma SafeContentIsExact(content: string)
    ensures SafeModelContent(content) <==>
      && (exists i :: 0 <= i < |content| && !IsWhitespace(content[i]))
      && ByteLen(content) <= 16384
      && forall i :: 0 <= i < |content| && IsControl(content[i]) ==> content[i] == '\n' || content[i] == '\t'
  {
  }

  datatype Choice = Choice(content: Option<string>, finishReason: string)

  /** `decode_deepseek_response`, from the parsed choices of a payload that parses at all. */
  function DecodeResponse(parsed: Option<seq<Choice>>): (r: Result<string, TurnFailure>)
    ensures r.Ok? ==> SafeModelContent(r.value)
    ensures r.Err? ==> r.error == InvalidProviderResponse
    ensures forall content :: r == Ok(content) <==>
      parsed == Some([Choice(Some(content), "stop")]) && SafeModelContent(content)
  {
    if parsed.None? || |parsed.value| != 1 then Err(InvalidProviderResponse)
    else
      var choice := parsed.value[0];
      if choice.finishReason != "stop" || choice.content.None? || !SafeModelContent(choice.content.value)
      then Err(InvalidProviderResponse)
      else
        assert parsed.value == [choice];
        Ok(choice.content.value)
  }

  function Concat(chunks: seq<seq<byte>>): (bytes: seq<byte>) {
    if chunks == [] then [] else chunks[0] + Concat(chunks[1..])
  }

  /**
    The response-reading loop of the external provider, over the chunks that arrive before the stream
    ends or breaks: a refusal past 64 KiB, the transport's failure, or all of the chunks.
   */
  method ReadPayload(chunks: seq<seq<byte>>, breaks: bool) returns (r: Result<seq<byte>, TurnFailure>)
    ensures r ==
      if |Concat(chunks)| > 65536 then Err(InvalidProviderResponse)
      else if breaks then Err(ProviderUnavailable)
      else Ok(Concat(chunks))
  {
    var payload: seq<byte> := [];
    assert chunks[0..] == chunks;
    for i := 0 to |chunks|
      invariant payload + Concat(chunks[i..]) == Concat(chunks)
      invariant |payload| <= MAX_PROVIDER_RESPONSE_BYTES
    {
      assert chunks[i..][1..] == chunks[i + 1..];
      Assoc(payload, chunks[i], Concat(chunks[i + 1..]));
      var remaining := MAX_PROVIDER_RESPONSE_BYTES - |payload|;
      if |chunks[i]| > remaining {
        return Err(InvalidProviderResponse);
      }
      payload := payload + chunks[i];
    }
    assert payload + [] == payload;
    return if breaks then Err(ProviderUnavailable) else Ok(payload);
  }

  predicate ValidInputs(turns: seq<CompletedTurn>) {
    forall i :: 0 <= i < |turns| ==> ValidInput(turns[i].input)
  }

  lemma {:induction false} LatestFinalIsRecorded(turns: seq<CompletedTurn>)
    requires LatestFinal(turns).Some?
    ensures LatestFinal(turns).value in turns && LatestFinal(turns).value.terminal.Final?
    decreases |turns|
  {
    if !turns[|turns| - 1].terminal.Final? {
      LatestFinalIsRecorded(turns[..|turns| - 1]);
    }
  }

  lemma QuotedReplyIsPlain(previous: Option<string>, current: string)
    requires NoControls(current) && (previous.Some? ==> NoControls(previous.value))
    ensures PlainText(Reply(previous, current))
  {
    assert PlainText("current: ") && PlainText("previous: ") && PlainText("; current: ");
  }

  lemma QuotedReplyIsShort(previous: Option<string>, current: string)
    requires ByteLen(current) <= MAX_INPUT_BYTES
    requires previous.Some? ==> ByteLen(previous.value) <= MAX_INPUT_BYTES
    ensures ByteLen(Reply(previous, current)) <= MAX_MODEL_CONTENT_BYTES
  {
    match previous
    case Some(p) =>
      LabelledBytes("previous: ", p);
      LabelledBytes("; current: ", current);
      Assoc("previous: " + p, "; current: ", current);
      ByteLenAppend("previous: " + p, "; current: " + current);
    case None => LabelledBytes("current: ", current);
  }

  lemma LabelledBytes(words: string, text: string)
    ensures ByteLen(words + text) <= 4 * |words| + ByteLen(text)
  {
    ByteLenBounds(words);
    ByteLenAppend(words, text);
  }

  datatype Provider = Deterministic | DeepSeek

  /** The replies a provider can give to a context. */
  ghost predicate CanReply(provider: Provider, messages: ModelContext, content: string) {
    match provider
    case Deterministic => UserInputsReversed(messages) != [] && content == DeterministicFinal(messages)
    case DeepSeek => SafeModelContent(content)
  }

  /** Every reply either provider can give to an admitted turn is stored unchanged. */
  lemma EveryReplyIsWireSafe(
    provider: Provider, session: SessionId, turn: TurnId,
    systemPrompt: string, turns: seq<CompletedTurn>, input: string, content: string)
    requires ValidInput(input) && ValidInputs(turns)
    requires CanReply(provider, Projection(systemPrompt, turns, input), content)
    ensures WireSafe(session, turn, Final(content)) == Final(content)
  {
    if provider == Deterministic {
      ReplyQuotesLatestFinal(systemPrompt, turns, input);
      var latest := LatestFinal(turns);
      if latest.Some? {
        LatestFinalIsRecorded(turns);
      }
      var previous := if latest.Some? then Some(latest.value.input) else None;
      QuotedReplyIsPlain(previous, input);
      QuotedReplyIsShort(previous, input);
    }
    PlainContentFits(session, turn, content);
  }
}
