/**
  The Agent's public vocabulary: identities, terminals, input validation and the JSON
  texts in which a terminal travels, with their size limits.
 */
module AgentTypes {
  import opened Wrappers
  import opened Text

  const MAX_INPUT_BYTES := 4 * 1024
  const MAX_AGENT_WIRE_RESPONSE_BYTES := 60 * 1024
  const MAX_FABRIC_PAYLOAD_BYTES := 64 * 1024
  const MAX_OUTPUT_FRAME_BYTES := 64 * 1024
  const MAX_MODEL_CONTENT_BYTES := 16 * 1024
  const MAX_TURN_DEADLINE_NANOS := 60_000_000_000

  /** The hyphenated text of a UUID, as it appears on the wire. */
  type Uuid = s: string | |s| == 36 witness "00000000-0000-0000-0000-000000000000"

  datatype SessionId = SessionId(uuid: Uuid)

  datatype TurnId = TurnId(uuid: Uuid)

  datatype TurnFailure = ProviderRejected | ProviderUnavailable | InvalidProviderResponse | ContextLimit

  datatype TurnTerminal =
    | Final(content: string)
    | Cancelled
    | TimedOut
    | Failed(reason: TurnFailure)

  datatype CancelResult =
    | CancellationRequested
    | AlreadyTerminal(terminal: TurnTerminal)
    | NotActive

  // --------------------------------------------------------- admitted inputs

  datatype InputFault = EmptyInput | InputTooLong | ControlInInput

  /** `validate_input`. */
  function InputFaultOf(input: string): (fault: Option<InputFault>) {
    if Blank(input) then Some(EmptyInput)
    else if ByteLen(input) > MAX_INPUT_BYTES then Some(InputTooLong)
    else if !NoControls(input) then Some(ControlInInput)
    else None
  }

  predicate ValidInput(input: string) {
    InputFaultOf(input).None?
  }

  /** An input is refused as empty, too long, or for a control character, in this order, and otherwise admitted. */
  lemma InputFaultIsExact(input: string)
    ensures InputFaultOf(input) == Some(EmptyInput) <==> forall i :: 0 <= i < |input| ==> IsWhitespace(input[i])
    ensures InputFaultOf(input) == Some(InputTooLong) <==>
      (exists i :: 0 <= i < |input| && !IsWhitespace(input[i])) && ByteLen(input) > 4096
    ensures ValidInput(input) <==>
      && (exists i :: 0 <= i < |input| && !IsWhitespace(input[i]))
      && ByteLen(input) <= 4096
      && forall i :: 0 <= i < |input| ==> !IsControl(input[i])
  {
  }

  predicate ValidDeadline(nanos: nat) {
    0 < nanos <= MAX_TURN_DEADLINE_NANOS
  }

  // ---------------------------------------------------------------- JSON text

  /** One character inside a JSON string (section 7 of RFC 8259), escaped only where it must be. */
  function EscapeChar(c: char): (s: string) {
    var code := c as int;
    if c == '\"' then "\\\""
    else if c == '\\' then "\\\\"
    else if code == 8 then "\\b"
    else if code == 9 then "\\t"
    else if code == 10 then "\\n"
    else if code == 12 then "\\f"
    else if code == 13 then "\\r"
    else if code < 0x20 then "\\u00" + [HexDigit(code / 16), HexDigit(code % 16)]
    else [c]
  }

  function Escape(s: string): (r: string) {
    if s == [] then [] else EscapeChar(s[0]) + Escape(s[1..])
  }

  /** The character that a two-character escape stands for. */
  function Unescaped(c: char): (r: Option<char>) {
    match c
    case '\"' => Some('\"')
    case '\\' => Some('\\')
    case 'b' => Some(8 as char)
    case 't' => Some('\t')
    case 'n' => Some('\n')
    case 'f' => Some(12 as char)
    case 'r' => Some('\r')
    case _ => None
  }

  /** The text that stands inside a JSON string; a bare quote or a bare control character is not allowed there. */
  function Unescape(s: string): (r: Option<string>)
    decreases |s|
  {
    if s == [] then Some([])
    else if s[0] == '\"' || s[0] as int < 0x20 then None
    else if s[0] != '\\' then Prepend([s[0]], Unescape(s[1..]))
    else if |s| >= 2 && Unescaped(s[1]).Some? then Prepend([Unescaped(s[1]).value], Unescape(s[2..]))
    else if |s| >= 6 && s[1] == 'u' && s[2] == '0' && s[3] == '0' && HexValue(s[4]).Some? && HexValue(s[5]).Some? then
      Prepend([(16 * HexValue(s[4]).value + HexValue(s[5]).value) as char], Unescape(s[6..]))
    else None
  }

  function Prepend(head: string, tail: Option<string>): (r: Option<string>) {
    if tail.Some? then Some(head + tail.value) else None
  }

  lemma EscapeCharReads(c: char, rest: string)
    ensures Unescape(EscapeChar(c) + rest) == Prepend([c], Unescape(rest))
  {
    var e := EscapeChar(c);
    var s := e + rest;
    assert s[|e|..] == rest;
    if |e| == 6 {
      HexDigitReads(c as int / 16);
      HexDigitReads(c as int % 16);
      assert s[1] == 'u' && s[2] == '0' && s[3] == '0';
    }
  }

  /** A JSON reader gets back exactly the text that was escaped. */
  lemma {:induction false} EscapeReads(s: string)
    ensures Unescape(Escape(s)) == Some(s)
  {
    if s != [] {
      EscapeReads(s[1..]);
      EscapeCharReads(s[0], Escape(s[1..]));
      assert [s[0]] + s[1..] == s;
    }
  }

  function ReasonName(reason: TurnFailure): (s: string)
    ensures |s| <= 25
  {
    match reason
    case ProviderRejected => "provider_rejected"
    case ProviderUnavailable => "provider_unavailable"
    case InvalidProviderResponse => "invalid_provider_response"
    case ContextLimit => "context_limit"
  }

  function TerminalJson(terminal: TurnTerminal): (s: string) {
    match terminal
    case Final(content) => "{\"terminal\":\"final\",\"content\":\"" + Escape(content) + "\"}"
    case Cancelled => "{\"terminal\":\"cancelled\"}"
    case TimedOut => "{\"terminal\":\"timed_out\"}"
    case Failed(reason) => "{\"terminal\":\"failed\",\"reason\":\"" + ReasonName(reason) + "\"}"
  }

  function ResultHeader(session: SessionId, turn: TurnId): (s: string)
    ensures |s| <= 120
  {
    "{\"session_id\":\"" + session.uuid + "\",\"turn_id\":\"" + turn.uuid + "\",\"terminal\":"
  }

  /** The Fabric response to a submit. */
  function TurnResponseJson(session: SessionId, turn: TurnId, terminal: TurnTerminal): (s: string) {
    "{\"response\":\"turn\",\"result\":" + ResultHeader(session, turn) + TerminalJson(terminal) + "}}"
  }

  function CancelHeader(session: SessionId, turn: TurnId): (s: string)
    ensures |s| <= 200
  {
    "{\"response\":\"cancel\",\"session_id\":\"" + session.uuid + "\",\"turn_id\":\"" + turn.uuid + "\",\"result\":"
  }

  /** The Fabric response to a cancel of a turn that already has a terminal. */
  function CancelResponseJson(session: SessionId, turn: TurnId, terminal: TurnTerminal): (s: string) {
    CancelHeader(session, turn) + "{\"status\":\"already_terminal\",\"terminal\":" + TerminalJson(terminal) + "}}"
  }

  /** The JSONL frame that delivers a terminal to the Textual client. */
  function TerminalFrameJson(session: SessionId, turn: TurnId, terminal: TurnTerminal): (s: string) {
    "{\"type\":\"turn_terminal\",\"v\":1,\"result\":" + ResultHeader(session, turn) + TerminalJson(terminal) + "}}"
  }

  predicate FitsWire(session: SessionId, turn: TurnId, terminal: TurnTerminal) {
    ByteLen(TurnResponseJson(session, turn, terminal)) <= MAX_AGENT_WIRE_RESPONSE_BYTES
  }

  /** `wire_safe_terminal`: a terminal that would not fit its response is replaced by a failure. */
  function WireSafe(session: SessionId, turn: TurnId, terminal: TurnTerminal): (r: TurnTerminal) {
    if FitsWire(session, turn, terminal) then terminal else Failed(InvalidProviderResponse)
  }

  // -------------------------------------------------------------- wire bounds

  lemma Concat3(a: string, b: string, c: string)
    ensures ByteLen(a + b + c) == ByteLen(a) + ByteLen(b) + ByteLen(c)
  {
    ByteLenAppend(a + b, c);
    ByteLenAppend(a, b);
  }

  /** Terminals without content always fit. */
  lemma SmallTerminalsFit(session: SessionId, turn: TurnId, terminal: TurnTerminal)
    requires !terminal.Final?
    ensures FitsWire(session, turn, terminal)
  {
    assert |TerminalJson(terminal)| <= 100;
    ByteLenBounds(TurnResponseJson(session, turn, terminal));
  }

  /** What `wire_safe_terminal` returns fits, whatever it was given. */
  lemma WireSafeFits(session: SessionId, turn: TurnId, terminal: TurnTerminal)
    ensures FitsWire(session, turn, WireSafe(session, turn, terminal))
    ensures WireSafe(session, turn, terminal) ==
      if ByteLen(TurnResponseJson(session, turn, terminal)) <= 61440 then terminal else Failed(InvalidProviderResponse)
  {
    SmallTerminalsFit(session, turn, Failed(InvalidProviderResponse));
  }

  /**
    A terminal that fits its turn response also fits the 64 KiB limits of the response to a late
    cancel and of the JSONL frame.
   */
  lemma StoredTerminalFitsEverywhere(session: SessionId, turn: TurnId, terminal: TurnTerminal)
    requires FitsWire(session, turn, terminal)
    ensures ByteLen(TurnResponseJson(session, turn, terminal)) <= MAX_FABRIC_PAYLOAD_BYTES
    ensures ByteLen(CancelResponseJson(session, turn, terminal)) <= MAX_FABRIC_PAYLOAD_BYTES
    ensures ByteLen(TerminalFrameJson(session, turn, terminal)) <= MAX_OUTPUT_FRAME_BYTES
  {
    var json := TerminalJson(terminal);
    Concat3("{\"response\":\"turn\",\"result\":" + ResultHeader(session, turn), json, "}}");
    var cancelHeader := CancelHeader(session, turn) + "{\"status\":\"already_terminal\",\"terminal\":";
    Concat3(cancelHeader, json, "}}");
    ByteLenBounds(cancelHeader);
    ByteLenBounds("}}");
    var frameHeader := "{\"type\":\"turn_terminal\",\"v\":1,\"result\":" + ResultHeader(session, turn);
    Concat3(frameHeader, json, "}}");
    ByteLenBounds(frameHeader);
  }

  /** No control characters but newline and tab: nothing needs a six-byte escape. */
  predicate PlainText(s: string) {
    forall i :: 0 <= i < |s| ==> !IsControl(s[i]) || s[i] == '\n' || s[i] == '\t'
  }

  lemma EscapeCharAtMostDoubles(c: char)
    requires !IsControl(c) || c == '\n' || c == '\t'
    ensures ByteLen(EscapeChar(c)) <= 2 * CharLen(c)
  {
    var e := EscapeChar(c);
    if |e| == 1 {
      assert e == [c] && e[1..] == [];
    } else {
      assert e == [e[0]] + [e[1]];
      ByteLenAppend([e[0]], [e[1]]);
      assert ByteLen([e[0]]) == 1 && ByteLen([e[1]]) == 1;
    }
  }

  lemma {:induction false} EscapeAtMostDoubles(s: string)
    requires PlainText(s)
    ensures ByteLen(Escape(s)) <= 2 * ByteLen(s)
  {
    if s != [] {
      EscapeAtMostDoubles(s[1..]);
      ByteLenAppend(EscapeChar(s[0]), Escape(s[1..]));
      EscapeCharAtMostDoubles(s[0]);
    }
  }

  lemma FinalJsonBytes(content: string)
    ensures ByteLen(TerminalJson(Final(content))) <= 200 + ByteLen(Escape(content))
  {
    var open := "{\"terminal\":\"final\",\"content\":\"";
    Concat3(open, Escape(content), "\"}");
    ByteLenBounds(open);
    ByteLenBounds("\"}");
  }

  /** Plain content of at most 16 KiB always fits, however many of its characters are escaped. */
  lemma PlainContentFits(session: SessionId, turn: TurnId, content: string)
    requires PlainText(content) && ByteLen(content) <= MAX_MODEL_CONTENT_BYTES
    ensures FitsWire(session, turn, Final(content))
    ensures WireSafe(session, turn, Final(content)) == Final(content)
  {
    EscapeAtMostDoubles(content);
    FinalJsonBytes(content);
    var header := "{\"response\":\"turn\",\"result\":" + ResultHeader(session, turn);
    Concat3(header, TerminalJson(Final(content)), "}}");
    ByteLenBounds(header);
    ByteLenBounds("}}");
  }

  lemma Sandwich(before: string, x: string, y: string, after: string)
    requires before + x + after == before + y + after
    ensures x == y
  {
    assert |x| == |y|;
    assert (before + x + after)[|before|..|before| + |x|] == x;
    assert (before + y + after)[|before|..|before| + |y|] == y;
  }

  lemma FinalTextsDiffer(a: string, b: string)
    requires TerminalJson(Final(a)) == TerminalJson(Final(b))
    ensures a == b
  {
    Sandwich("{\"terminal\":\"final\",\"content\":\"", Escape(a), Escape(b), "\"}");
    EscapeReads(a);
    EscapeReads(b);
  }

  /** Each of the three messages carries the whole content: two contents never give the same message. */
  lemma MessagesCarryTheContent(session: SessionId, turn: TurnId, a: string, b: string)
    ensures TurnResponseJson(session, turn, Final(a)) == TurnResponseJson(session, turn, Final(b)) ==> a == b
    ensures CancelResponseJson(session, turn, Final(a)) == CancelResponseJson(session, turn, Final(b)) ==> a == b
    ensures TerminalFrameJson(session, turn, Final(a)) == TerminalFrameJson(session, turn, Final(b)) ==> a == b
  {
    var x, y := TerminalJson(Final(a)), TerminalJson(Final(b));
    if TurnResponseJson(session, turn, Final(a)) == TurnResponseJson(session, turn, Final(b)) {
      Sandwich("{\"response\":\"turn\",\"result\":" + ResultHeader(session, turn), x, y, "}}");
      FinalTextsDiffer(a, b);
    }
    if CancelResponseJson(session, turn, Final(a)) == CancelResponseJson(session, turn, Final(b)) {
      var open := CancelHeader(session, turn) + "{\"status\":\"already_terminal\",\"terminal\":";
      Sandwich(open, x, y, "}}");
      FinalTextsDiffer(a, b);
    }
    if TerminalFrameJson(session, turn, Final(a)) == TerminalFrameJson(session, turn, Final(b)) {
      Sandwich("{\"type\":\"turn_terminal\",\"v\":1,\"result\":" + ResultHeader(session, turn), x, y, "}}");
      FinalTextsDiffer(a, b);
    }
  }
}
