/**
 The turn loop of the geometry environment: ask the model, note its boxed answer, serve at most one
 tool call per turn, and score the last answer.
 */
module Geo3kRun {
  import opened Wrappers
  import Boxed
  import Text
  import Thinking

  /** The arguments of a tool call: not an object, or an object with perhaps an answer as text. */
  datatype Arguments = NotAnObject | Object(answer: Option<string>)

  /** How a tool call reads from a message: none, one that makes the parser raise, or a call. */
  datatype ToolParse = NoCall | ParserRaises | Call(name: string, arguments: Arguments)

  datatype GatewayAnswer = GatewayRaises | Reply(text: string)

  datatype Role = User | Assistant

  datatype Feedback =
    | Unsupported(name: string)
    | ArgumentsNotAnObject
    | NoAnswer
    | Right(answer: string)
    | WrongLastChance(answer: string)
    | Wrong(answer: string)

  datatype Content = Question(text: string) | Said(text: string) | Told(feedback: Feedback)

  datatype Message = Message(role: Role, content: Content, images: seq<string>)

  datatype ToolCall = ToolCall(name: string, answer: string, score: real)

  datatype RewardSource = LatestBoxedAnswer | MissingBoxedAnswer

  datatype Outcome = Outcome(
    score: real,
    source: RewardSource,
    finalAnswer: Option<string>,
    latestBoxed: Option<string>,
    totalToolCalls: nat,
    toolCalls: seq<ToolCall>,
    turns: nat)

  const SUPPORTED := {"calc_score", "calc_geo3k_reward"}

  /**
   What a run is given.  plain and boxed read a message: what is left of it without its thinking, and
   the boxed answer in that; parse and grade stand for the tool parser and the grading function.
   */
  datatype Setup = Setup(
    question: string,
    groundTruth: string,
    images: seq<string>,
    maxTurns: int,
    maxImages: int,
    echoImages: bool,
    plain: string -> string,
    boxed: string -> Option<string>,
    parse: string -> ToolParse,
    grade: (string, string) -> bool,
    gateway: (nat, seq<Message>) -> GatewayAnswer)

  // --- Reading a message -------------------------------------------------------------------------

  function Plain(msg: string): string {
    Text.Strip(Thinking.WithoutThinking(msg))
  }

  /** The answer a message contributes: its boxed answer, stripped, unless that is empty. */
  function Contribution(setup: Setup, msg: string): Option<string> {
    match setup.boxed(setup.plain(msg))
    case None => None
    case Some(a) => if Text.Strip(a) == "" then None else Some(Text.Strip(a))
  }

  /** The last contribution of the assistant's messages. */
  function Latest(setup: Setup, messages: seq<Message>): Option<string> {
    if messages == [] then None
    else
      var last := messages[|messages| - 1];
      if last.role == Assistant && last.content.Said? && Contribution(setup, last.content.text).Some?
      then Contribution(setup, last.content.text)
      else Latest(setup, messages[..|messages| - 1])
  }

  function Score(setup: Setup, answer: string): real {
    if setup.groundTruth == "" then 0.0
    else
      var a := Text.Strip(answer);
      if setup.grade(a, setup.groundTruth) then 1.0
      else if Boxed.RFind(a, Boxed.BOXED).None? && setup.grade("\\boxed{" + a + "}", setup.groundTruth) then 1.0
      else 0.0
  }

  predicate LastChance(step: nat, maxTurns: int) {
    var warning := if maxTurns >= 2 then maxTurns - 2 else maxTurns - 1;
    step - 1 >= warning
  }

  function Limit(maxTurns: int): nat {
    if maxTurns < 1 then 1 else maxTurns
  }

  /** The last-chance warning is given exactly when at most one model call is left. */
  lemma WarnedOnTheLastChance(step: nat, maxTurns: int)
    requires step >= 1
    ensures LastChance(step, maxTurns) <==> Limit(maxTurns) - step <= 1
  {
  }

  /** A call counts when its tool is supported and it carries an answer. */
  function Served(setup: Setup, name: string, arguments: Arguments): Option<ToolCall> {
    var n := Text.Strip(name);
    var a := if arguments.Object? && arguments.answer.Some? then Text.Strip(arguments.answer.value) else "";
    if n in SUPPORTED && a != "" then Some(ToolCall(n, a, Score(setup, a))) else None
  }

  /**
   The feedback fits the call: it tells why a call was not counted, or grades it; and it warns exactly when a
   counted call was wrong and at most one model call is left.
   */
  ghost predicate Fitting(setup: Setup, step: nat, name: string, arguments: Arguments, f: Feedback) {
    var n := Text.Strip(name);
    match Served(setup, name, arguments)
    case None =>
      && (f == Unsupported(n) <==> n !in SUPPORTED)
      && (f == ArgumentsNotAnObject <==> n in SUPPORTED && arguments.NotAnObject?)
      && (f == NoAnswer <==> n in SUPPORTED && arguments.Object?)
    case Some(c) =>
      && (f == Right(c.answer) <==> c.score == 1.0)
      && (f == WrongLastChance(c.answer) <==> c.score != 1.0 && Limit(setup.maxTurns) - step <= 1)
      && (f == Wrong(c.answer) <==> c.score != 1.0 && Limit(setup.maxTurns) - step > 1)
  }

  /** The tool call that a message records, if it is one the run counts. */
  function Counted(setup: Setup, text: string): Option<ToolCall> {
    match setup.parse(setup.plain(text))
    case Call(name, arguments) => Served(setup, name, arguments)
    case _ => None
  }

  /** All counted tool calls of a transcript. */
  function ToolCalls(setup: Setup, messages: seq<Message>): seq<ToolCall> {
    if messages == [] then []
    else
      var last := messages[|messages| - 1];
      var front := ToolCalls(setup, messages[..|messages| - 1]);
      if last.role == Assistant && last.content.Said? && Counted(setup, last.content.text).Some?
      then front + [Counted(setup, last.content.text).value]
      else front
  }

  /** The transcript alternates, starting with the user. */
  ghost predicate Alternating(messages: seq<Message>) {
    (&& messages != []
     && (forall i :: 0 <= i < |messages| ==> (messages[i].role == User <==> i % 2 == 0))
     && (forall i :: 0 <= i < |messages| && messages[i].role == Assistant ==> messages[i].content.Said?)) == true
  }

  lemma Parity(n: nat, k: nat)
    ensures n % 2 == 1 ==> (n + 1) % 2 == 0
    ensures n == 2 * k - 1 ==> n % 2 == 1
  {
  }

  lemma LastSpeaker(messages: seq<Message>, k: nat)
    requires Alternating(messages)
    ensures |messages| == 2 * k + 1 ==> messages[|messages| - 1].role == User
    ensures |messages| == 2 * k ==> messages[|messages| - 1].role == Assistant && messages[|messages| - 1].content.Said?
  {
  }

  type Gateway = (nat, seq<Message>) -> GatewayAnswer

  /** Asked in its turn, with this transcript, the model replies so. */
  ghost predicate Asked(gateway: Gateway, messages: seq<Message>, reply: string) {
    (gateway((|messages| + 1) / 2, messages) == Reply(reply)) == true
  }

  /** Message i is what the model has replied to the transcript before it, blanks around it aside. */
  ghost predicate FromModel(gateway: Gateway, messages: seq<Message>, i: nat)
    requires i < |messages|
  {
    (exists reply :: Asked(gateway, messages[..i], reply) && messages[i].content == Said(Text.Strip(reply))) == true
  }

  /** Every message of the assistant is the model's. */
  ghost predicate Replied(gateway: Gateway, messages: seq<Message>) {
    (forall i: nat :: i < |messages| && messages[i].role == Assistant ==> FromModel(gateway, messages, i)) == true
  }

  lemma FeedbackAdded(gateway: Gateway, messages: seq<Message>, m: Message)
    requires Replied(gateway, messages) && m.role == User
    ensures Replied(gateway, messages + [m])
  {
    var more := messages + [m];
    forall i: nat | i < |more| && more[i].role == Assistant ensures FromModel(gateway, more, i) {
      assert more[..i] == messages[..i] && FromModel(gateway, messages, i);
    }
  }

  lemma ReplyAdded(gateway: Gateway, messages: seq<Message>, reply: string)
    requires Replied(gateway, messages) && Asked(gateway, messages, reply)
    ensures Replied(gateway, messages + [Message(Assistant, Said(Text.Strip(reply)), [])])
  {
    var more := messages + [Message(Assistant, Said(Text.Strip(reply)), [])];
    assert more[..|messages|] == messages;
    forall i: nat | i < |more| && more[i].role == Assistant ensures FromModel(gateway, more, i) {
      if i < |messages| {
        assert more[..i] == messages[..i] && FromModel(gateway, messages, i);
      }
    }
  }

  /** What one more message does to the three views of a transcript. */
  lemma OneMore(setup: Setup, messages: seq<Message>, m: Message)
    requires Alternating(messages) && (m.role == User <==> |messages| % 2 == 0) && (m.role == Assistant ==> m.content.Said?)
    ensures Alternating(messages + [m])
    ensures m.role == User ==> Latest(setup, messages + [m]) == Latest(setup, messages)
                               && ToolCalls(setup, messages + [m]) == ToolCalls(setup, messages)
    ensures m.role == Assistant ==>
              && Latest(setup, messages + [m])
                 == (if Contribution(setup, m.content.text).Some? then Contribution(setup, m.content.text)
                     else Latest(setup, messages))
              && ToolCalls(setup, messages + [m])
                 == ToolCalls(setup, messages)
                    + (if Counted(setup, m.content.text).Some? then [Counted(setup, m.content.text).value] else [])
  {
    assert (messages + [m])[..|messages|] == messages;
  }

  /** What is left of a final reply without its thinking. */
  function LastSaid(setup: Setup, messages: seq<Message>): Option<string> {
    if messages != [] && messages[|messages| - 1].role == Assistant && messages[|messages| - 1].content.Said?
    then Some(setup.plain(messages[|messages| - 1].content.text))
    else None
  }

  class RunState {
    const setup: Setup
    var messages: seq<Message>
    var latestBoxed: Option<string>
    var totalToolCalls: nat
    var toolCalls: seq<ToolCall>
    var finalAnswer: Option<string>
    var stepCount: nat
    ghost var modelCalls: nat

    /** Between turns: the fields agree with the transcript, which ends with the user. */
    ghost predicate Valid()
      reads this
    {
      && Alternating(messages) && |messages| == 2 * stepCount + 1 && Replied(setup.gateway, messages)
      && latestBoxed == Latest(setup, messages)
      && toolCalls == ToolCalls(setup, messages)
      && totalToolCalls == |toolCalls| <= stepCount
      && modelCalls == stepCount
    }

    constructor (setup: Setup)
      ensures this.setup == setup && messages == [] && latestBoxed == None && totalToolCalls == 0 && toolCalls == []
      ensures finalAnswer == None && stepCount == 0 && modelCalls == 0
    {
      this.setup := setup;
      messages := [];
      latestBoxed := None;
      totalToolCalls := 0;
      toolCalls := [];
      finalAnswer := None;
      stepCount := 0;
      modelCalls := 0;
    }

    function ShownImages(): (r: seq<string>)
      ensures r <= setup.images
      ensures if setup.maxImages >= |setup.images| then r == setup.images else |r| == setup.maxImages || r == []
      ensures setup.maxImages > 0 && setup.images != [] ==> r != []
    {
      if setup.maxImages > 0 then
        if setup.maxImages < |setup.images| then setup.images[..setup.maxImages] else setup.images
      else []
    }

    method AppendToolFeedback(feedback: Feedback)
      modifies this`messages
      ensures messages == old(messages)
                          + [Message(User, Told(feedback), if setup.echoImages then ShownImages() else [])]
    {
      if setup.echoImages && setup.maxImages > 0 && setup.images != [] {
        messages := messages + [Message(User, Told(feedback), ShownImages())];
      } else {
        messages := messages + [Message(User, Told(feedback), [])];
      }
    }

    /** Serve a call: count it when it is supported and carries an answer, and tell the model. */
    method HandleToolCall(name: string, arguments: Arguments)
      modifies this`messages, this`totalToolCalls, this`toolCalls
      ensures |messages| == |old(messages)| + 1 && messages[..|old(messages)|] == old(messages)
      ensures messages[|old(messages)|].role == User && messages[|old(messages)|].content.Told?
      ensures messages[|old(messages)|].images == if setup.echoImages then ShownImages() else []
      ensures stepCount >= 1 ==> Fitting(setup, stepCount, name, arguments, messages[|old(messages)|].content.feedback)
      ensures match Served(setup, name, arguments)
              case Some(c) => toolCalls == old(toolCalls) + [c] && totalToolCalls == old(totalToolCalls) + 1
              case None => toolCalls == old(toolCalls) && totalToolCalls == old(totalToolCalls)
    {
      var n := Text.Strip(name);
      if n !in SUPPORTED {
        AppendToolFeedback(Unsupported(n));
        return;
      }
      if arguments.NotAnObject? {
        AppendToolFeedback(ArgumentsNotAnObject);
        return;
      }
      var parsed := if arguments.answer.None? then "" else Text.Strip(arguments.answer.value);
      if parsed == "" {
        AppendToolFeedback(NoAnswer);
        return;
      }
      if stepCount >= 1 {
        WarnedOnTheLastChance(stepCount, setup.maxTurns);
      }
      var score := Score(setup, parsed);
      totalToolCalls := totalToolCalls + 1;
      toolCalls := toolCalls + [ToolCall(n, parsed, score)];
      if score == 1.0 {
        AppendToolFeedback(Right(parsed));
      } else if LastChance(stepCount, setup.maxTurns) {
        AppendToolFeedback(WrongLastChance(parsed));
      } else {
        AppendToolFeedback(Wrong(parsed));
      }
    }

    /** Append the reply and note its boxed answer. */
    method NoteReply(ghost reply: string, msg: string)
      requires Alternating(messages) && |messages| % 2 == 1 && latestBoxed == Latest(setup, messages)
      requires Replied(setup.gateway, messages) && Asked(setup.gateway, messages, reply) && msg == Text.Strip(reply)
      modifies this`messages, this`latestBoxed
      ensures messages == old(messages) + [Message(Assistant, Said(msg), [])]
      ensures Alternating(messages) && latestBoxed == Latest(setup, messages) && Replied(setup.gateway, messages)
    {
      ReplyAdded(setup.gateway, messages, reply);
      OneMore(setup, messages, Message(Assistant, Said(msg), []));
      messages := messages + [Message(Assistant, Said(msg), [])];
      var boxed := setup.boxed(setup.plain(msg));
      if boxed.Some? {
        var stripped := Text.Strip(boxed.value);
        if stripped != "" {
          latestBoxed := Some(stripped);
        }
      }
    }

    /** The score the latest boxed answer earns, and where it comes from. */
    ghost predicate Earned(score: real, source: RewardSource)
      reads this
    {
      && (latestBoxed.Some? ==> score == Score(setup, latestBoxed.value) && source == LatestBoxedAnswer)
      && (latestBoxed.None? ==> score == 0.0 && source == MissingBoxedAnswer)
    }

    /** Serve the call a noted reply asks for. */
    method ServeCall(msg: string, name: string, arguments: Arguments, ghost before: seq<Message>)
      requires setup.parse(setup.plain(msg)) == Call(name, arguments)
      requires Alternating(before) && |before| % 2 == 1 && messages == before + [Message(Assistant, Said(msg), [])]
      requires Alternating(messages) && latestBoxed == Latest(setup, messages) && Replied(setup.gateway, messages)
      requires toolCalls == ToolCalls(setup, before) && totalToolCalls == |toolCalls|
      modifies this`messages, this`totalToolCalls, this`toolCalls
      ensures |messages| == |old(messages)| + 1 && messages[..|old(messages)|] == old(messages)
      ensures Alternating(messages) && latestBoxed == Latest(setup, messages) && toolCalls == ToolCalls(setup, messages)
      ensures totalToolCalls == |toolCalls| <= |old(toolCalls)| + 1 && Replied(setup.gateway, messages)
    {
      ghost var said := messages;
      OneMore(setup, before, Message(Assistant, Said(msg), []));
      assert Counted(setup, msg) == Served(setup, name, arguments);
      Parity(|before|, 0);
      HandleToolCall(name, arguments);
      ghost var m := messages[|said|];
      assert messages == said + [m];
      OneMore(setup, said, m);
      FeedbackAdded(setup.gateway, said, m);
    }

    /** One turn's work on a reply.  None: the tool parser raised.  Some(true): the run is done. */
    method ProcessAction(reply: string) returns (done: Option<bool>, score: real, source: RewardSource)
      requires Alternating(messages) && |messages| % 2 == 1
      requires latestBoxed == Latest(setup, messages) && toolCalls == ToolCalls(setup, messages)
      requires totalToolCalls == |toolCalls|
      requires Replied(setup.gateway, messages) && Asked(setup.gateway, messages, reply)
      modifies this`messages, this`latestBoxed, this`totalToolCalls, this`toolCalls, this`finalAnswer
      ensures var msg := Text.Strip(reply);
              && |messages| == |old(messages)| + (if done == Some(false) then 2 else 1)
              && messages[..|old(messages)|] == old(messages)
              && messages[|old(messages)|] == Message(Assistant, Said(msg), [])
              && (done == None <==> setup.parse(setup.plain(msg)).ParserRaises?)
              && (done == Some(true) <==> setup.parse(setup.plain(msg)).NoCall?)
      ensures done == Some(true) ==> Earned(score, source) && Final()
      ensures Alternating(messages) && latestBoxed == Latest(setup, messages) && Replied(setup.gateway, messages)
      ensures totalToolCalls == |toolCalls| <= |old(toolCalls)| + 1
      ensures done.Some? ==> toolCalls == ToolCalls(setup, messages)
      ensures done != Some(true) ==> finalAnswer == old(finalAnswer)
    {
      score, source := 0.0, MissingBoxedAnswer;
      var msg := Text.Strip(reply);
      NoteReply(reply, msg);
      done, score, source := React(msg, old(messages));
    }

    /** What follows once the reply is noted. */
    method React(msg: string, ghost before: seq<Message>) returns (done: Option<bool>, score: real, source: RewardSource)
      requires Alternating(before) && |before| % 2 == 1 && messages == before + [Message(Assistant, Said(msg), [])]
      requires Alternating(messages) && latestBoxed == Latest(setup, messages) && Replied(setup.gateway, messages)
      requires toolCalls == ToolCalls(setup, before) && totalToolCalls == |toolCalls|
      modifies this`messages, this`totalToolCalls, this`toolCalls, this`finalAnswer
      ensures |messages| == |old(messages)| + (if done == Some(false) then 1 else 0)
      ensures messages[..|old(messages)|] == old(messages)
      ensures done == None <==> setup.parse(setup.plain(msg)).ParserRaises?
      ensures done == Some(true) <==> setup.parse(setup.plain(msg)).NoCall?
      ensures done == Some(true) ==> Earned(score, source) && Final()
      ensures Alternating(messages) && latestBoxed == Latest(setup, messages) && Replied(setup.gateway, messages)
      ensures totalToolCalls == |toolCalls| <= |old(toolCalls)| + 1
      ensures done.Some? ==> toolCalls == ToolCalls(setup, messages)
      ensures done != Some(true) ==> finalAnswer == old(finalAnswer)
    {
      score, source := 0.0, MissingBoxedAnswer;
      var call := setup.parse(setup.plain(msg));
      if call.ParserRaises? {
        return None, score, source;
      }
      if call.Call? {
        ServeCall(msg, call.name, call.arguments, before);
        return Some(false), score, source;
      }
      assert Counted(setup, msg).None?;
      OneMore(setup, before, Message(Assistant, Said(msg), []));
      score, source := Conclude(msg);
      return Some(true), score, source;
    }

    /** No tool was called: the answer is final, and the latest boxed answer is scored. */
    method Conclude(msg: string) returns (score: real, source: RewardSource)
      modifies this`finalAnswer
      ensures finalAnswer == if latestBoxed.Some? then latestBoxed else Some(setup.plain(msg))
      ensures Earned(score, source)
    {
      score, source := 0.0, MissingBoxedAnswer;
      finalAnswer := if latestBoxed.Some? then latestBoxed else Some(setup.plain(msg));
      if latestBoxed.Some? {
        score := Score(setup, latestBoxed.value);
        source := LatestBoxedAnswer;
      }
    }

    /** The last message calls no tool, and the final answer is the latest boxed one, or else what that message says. */
    ghost predicate Final()
      reads this
    {
      && messages != [] && messages[|messages| - 1].role == Assistant && messages[|messages| - 1].content.Said?
      && setup.parse(setup.plain(messages[|messages| - 1].content.text)).NoCall?
      && finalAnswer == if latestBoxed.Some? then latestBoxed else LastSaid(setup, messages)
    }

    /** The state when a run has ended: after a final reply, or after feedback on the last turn. */
    ghost predicate Ended(score: real, source: RewardSource)
      reads this
    {
      && Alternating(messages) && 1 <= stepCount == modelCalls <= Limit(setup.maxTurns)
      && (|| (|messages| == 2 * stepCount && Final())
          || (|messages| == 2 * stepCount + 1 && stepCount == Limit(setup.maxTurns) && finalAnswer == latestBoxed))
      && latestBoxed == Latest(setup, messages)
      && toolCalls == ToolCalls(setup, messages)
      && totalToolCalls == |toolCalls| <= stepCount
      && Earned(score, source)
    }

    /** One round of the loop. None: an exception left it.  Some(true): the run has ended. */
    method Round() returns (over: Option<bool>, score: real, source: RewardSource)
      requires Valid() && stepCount < Limit(setup.maxTurns)
      modifies this
      ensures |old(messages)| <= |messages| <= |old(messages)| + 2 && messages[..|old(messages)|] == old(messages)
      ensures Alternating(messages) && modelCalls == old(modelCalls) + 1 && stepCount == old(stepCount) + 1
      ensures Replied(setup.gateway, messages)
      ensures over == Some(true) ==> Ended(score, source)
      ensures over == Some(false) ==> Valid() && stepCount < Limit(setup.maxTurns)
    {
      score, source := 0.0, MissingBoxedAnswer;
      stepCount := stepCount + 1;
      modelCalls := modelCalls + 1;
      var answer := setup.gateway(stepCount, messages);
      if answer.GatewayRaises? {
        return None, score, source;
      }
      assert Asked(setup.gateway, messages, answer.text);
      over, score, source := Respond(answer.text);
    }

    /** The rest of a round, from the model's reply. */
    method Respond(reply: string) returns (over: Option<bool>, score: real, source: RewardSource)
      requires Alternating(messages) && |messages| == 2 * stepCount - 1 && 1 <= stepCount == modelCalls <= Limit(setup.maxTurns)
      requires latestBoxed == Latest(setup, messages) && toolCalls == ToolCalls(setup, messages)
      requires totalToolCalls == |toolCalls| < stepCount
      requires Replied(setup.gateway, messages) && Asked(setup.gateway, messages, reply)
      modifies this`messages, this`latestBoxed, this`totalToolCalls, this`toolCalls, this`finalAnswer
      ensures |old(messages)| <= |messages| <= |old(messages)| + 2 && messages[..|old(messages)|] == old(messages)
      ensures Alternating(messages) && Replied(setup.gateway, messages)
      ensures over == Some(true) ==> Ended(score, source)
      ensures over == Some(false) ==> Valid() && stepCount < Limit(setup.maxTurns)
    {
      var done;
      Parity(|messages|, stepCount);
      done, score, source := ProcessAction(reply);
      if done.None? || done.value {
        assert done == Some(true) ==> |messages| == 2 * stepCount;
        return done, score, source;
      }
      over, score, source := GoOn();
    }

    /** After feedback: another turn, or none is left and the latest boxed answer decides. */
    method GoOn() returns (over: Option<bool>, score: real, source: RewardSource)
      requires Valid() && 1 <= stepCount <= Limit(setup.maxTurns)
      modifies this`finalAnswer
      ensures over == Some(true) ==> Ended(score, source)
      ensures over != Some(true) ==> over == Some(false) && Valid() && stepCount < Limit(setup.maxTurns)
    {
      score, source := 0.0, MissingBoxedAnswer;
      if stepCount < setup.maxTurns {
        return Some(false), score, source;
      }
      if latestBoxed.Some? {
        score := Score(setup, latestBoxed.value);
        source := LatestBoxedAnswer;
      }
      finalAnswer := latestBoxed;
      return Some(true), score, source;
    }

    /**
     The whole run, or None when the gateway or the tool parser raises.  At most Limit model calls
     are made; the transcript alternates; tool calls are those of the transcript, no more than turns;
     and the score is what the latest boxed answer earns.
     */
    method Run() returns (r: Option<Outcome>)
      requires messages == [] && latestBoxed == None && totalToolCalls == 0 && toolCalls == [] && stepCount == 0
      requires modelCalls == 0
      modifies this
      ensures modelCalls <= Limit(setup.maxTurns) && Alternating(messages) && |messages| <= 2 * Limit(setup.maxTurns) + 1
      ensures messages[0] == Message(User, Question(setup.question), ShownImages()) && Replied(setup.gateway, messages)
      ensures r.Some? ==>
                && Ended(r.value.score, r.value.source)
                && r.value == Outcome(r.value.score, r.value.source, finalAnswer, latestBoxed, totalToolCalls, toolCalls, stepCount)
    {
      messages := [Message(User, Question(setup.question), ShownImages())];
      assert messages[..|messages| - 1] == [];
      while true
        invariant Valid() && stepCount < Limit(setup.maxTurns)
        invariant messages[0] == Message(User, Question(setup.question), ShownImages())
        decreases Limit(setup.maxTurns) - stepCount
      {
        ghost var before := messages;
        var over, score, source := Round();
        assert messages[0] == messages[..|before|][0];
        if over.None? {
          return None;
        }
        if over.value {
          return Some(Outcome(score, source, finalAnswer, latestBoxed, totalToolCalls, toolCalls, stepCount));
        }
      }
    }
  }

  /** A score is one or zero, and one exactly for an answer that is accepted. */
  lemma ScoreIsAccepted(setup: Setup, answer: string)
    ensures Score(setup, answer) == 1.0 <==>
            setup.groundTruth != "" && Accepted(setup.grade, Text.Strip(answer), setup.groundTruth)
    ensures Score(setup, answer) == 1.0 || Score(setup, answer) == 0.0
  {
  }

  // --- What a reply says outside its thinking ----------------------------------------------------

  /** Outside its thinking, and blanks around it aside, the reply reads like this. */
  ghost predicate Says(reply: string, rest: string) {
    exists left :: Thinking.LeavesOut(reply, "<think>", "</think>", left) && Text.Trims(left, rest)
  }

  /** Outside its thinking the reply holds no marker of a boxed answer. */
  ghost predicate BoxesNothing(reply: string) {
    forall rest, k: nat :: Says(reply, rest) ==> !Boxed.OccursAt(rest, "\\boxed", k)
  }

  lemma PlainIsSaid(reply: string)
    ensures Says(reply, Plain(reply))
  {
    var left := Thinking.WithoutThinking(reply);
    Thinking.ThinkingIsLeftOut(reply, left);
    Text.StripTrims(left);
  }

  lemma NothingBoxedNothingGiven(reply: string)
    requires BoxesNothing(reply)
    ensures Boxed.Extract(Plain(reply)).None?
  {
    PlainIsSaid(reply);
    Boxed.FramedOnlyIsNothing(Plain(reply));
  }

  /** What a reply says is determined. */
  lemma OneReading(reply: string, rest: string)
    requires Says(reply, rest)
    ensures rest == Plain(reply)
  {
    var left :| Thinking.LeavesOut(reply, "<think>", "</think>", left) && Text.Trims(left, rest);
    Thinking.ThinkingIsLeftOut(reply, left);
    Text.TrimsOneWay(left, rest);
  }

  /** The replies box nothing outside their thinking. */
  ghost predicate BoxlessTalk(messages: seq<Message>) {
    forall m :: m in messages && m.role == Assistant && m.content.Said? ==> BoxesNothing(m.content.text)
  }

  /** A transcript whose replies box nothing outside their thinking has no answer. */
  lemma {:induction false} NothingBoxedNoAnswer(messages: seq<Message>)
    requires BoxlessTalk(messages)
    ensures LatestOf(messages) == None
  {
    if messages != [] {
      var last := messages[|messages| - 1];
      NothingBoxedNoAnswer(messages[..|messages| - 1]);
      if last.role == Assistant && last.content.Said? {
        NothingBoxedNothingGiven(last.content.text);
      }
    }
  }

  /** Every counted call names a supported tool, carries an answer, and is scored by the grading function. */
  ghost predicate ProperCall(c: ToolCall, groundTruth: string, grade: (string, string) -> bool) {
    && (c.name == "calc_score" || c.name == "calc_geo3k_reward") && c.answer != ""
    && (c.score == 1.0 || c.score == 0.0)
    && (c.score == 1.0 <==> groundTruth != "" && Accepted(grade, Text.Strip(c.answer), groundTruth))
  }

  lemma {:induction false} CallsAreProper(setup: Setup, messages: seq<Message>)
    ensures forall c :: c in ToolCalls(setup, messages) ==> ProperCall(c, setup.groundTruth, setup.grade)
  {
    if messages != [] {
      CallsAreProper(setup, messages[..|messages| - 1]);
      var last := messages[|messages| - 1];
      if last.role == Assistant && last.content.Said? && Counted(setup, last.content.text).Some? {
        ScoreIsAccepted(setup, Counted(setup, last.content.text).value.answer);
      }
    }
  }

  /** What a run and its transcript have to do with one another. */
  ghost predicate Answers(transcript: seq<Message>, o: Outcome, groundTruth: string, grade: (string, string) -> bool) {
    && o.latestBoxed == LatestOf(transcript)
    && (BoxlessTalk(transcript) ==> o.latestBoxed == None)
    && (o.score == 0.0 || o.score == 1.0)
    && (o.score == 1.0 <==>
        o.latestBoxed.Some? && groundTruth != "" && Accepted(grade, Text.Strip(o.latestBoxed.value), groundTruth))
    && (o.source == MissingBoxedAnswer <==> o.latestBoxed.None?)
    && (forall c :: c in o.toolCalls ==> ProperCall(c, groundTruth, grade))
  }

  /** The final answer is the latest boxed one, or else what the last reply says outside its thinking. */
  ghost predicate Finally(transcript: seq<Message>, o: Outcome) {
    && transcript != []
    && var last := transcript[|transcript| - 1];
       if o.latestBoxed.Some? then o.finalAnswer == o.latestBoxed
       else if last.role == Assistant
       then last.content.Said? && o.finalAnswer.Some? && Says(last.content.text, o.finalAnswer.value)
       else o.finalAnswer == None
  }

  lemma RunAnswers(setup: Setup, transcript: seq<Message>, o: Outcome)
    requires setup.plain == Plain && setup.boxed == Boxed.Extract
    requires o.latestBoxed == Latest(setup, transcript) && o.toolCalls == ToolCalls(setup, transcript)
    requires o.latestBoxed.Some? ==> o.score == Score(setup, o.latestBoxed.value) && o.source == LatestBoxedAnswer
    requires o.latestBoxed.None? ==> o.score == 0.0 && o.source == MissingBoxedAnswer
    ensures Answers(transcript, o, setup.groundTruth, setup.grade)
  {
    LatestAgrees(setup, transcript);
    CallsAreProper(setup, transcript);
    if o.latestBoxed.Some? {
      ScoreIsAccepted(setup, o.latestBoxed.value);
    }
    if BoxlessTalk(transcript) {
      NothingBoxedNoAnswer(transcript);
    }
  }

  lemma RunFinishes(setup: Setup, transcript: seq<Message>, o: Outcome)
    requires setup.plain == Plain && Alternating(transcript)
    requires || (|transcript| == 2 * o.turns
                 && o.finalAnswer == if o.latestBoxed.Some? then o.latestBoxed else LastSaid(setup, transcript))
             || (|transcript| == 2 * o.turns + 1 && o.finalAnswer == o.latestBoxed)
    ensures Finally(transcript, o)
  {
    LastSpeaker(transcript, o.turns);
    var last := transcript[|transcript| - 1];
    if last.role == Assistant {
      PlainIsSaid(last.content.text);
    }
  }

  /** The run of the environment: messages are read without their thinking, answers are boxed. */
  method RunGeo3k(question: string, groundTruth: string, images: seq<string>, maxTurns: int, maxImages: int,
                  echoImages: bool, parse: string -> ToolParse, grade: (string, string) -> bool,
                  gateway: (nat, seq<Message>) -> GatewayAnswer)
    returns (r: Option<Outcome>, transcript: seq<Message>)
    ensures Alternating(transcript) && |transcript| <= 2 * Limit(maxTurns) + 1 && Replied(gateway, transcript)
    ensures r.Some? ==> 1 <= r.value.turns <= Limit(maxTurns) && r.value.totalToolCalls == |r.value.toolCalls|
    ensures r.Some? ==> Answers(transcript, r.value, groundTruth, grade) && Finally(transcript, r.value)
  {
    var setup := Setup(question, groundTruth, images, maxTurns, maxImages, echoImages, Plain, Boxed.Extract, parse, grade,
                       gateway);
    var run := new RunState(setup);
    r := run.Run();
    transcript := run.messages;
    if r.Some? {
      RunAnswers(setup, transcript, r.value);
      RunFinishes(setup, transcript, r.value);
    }
  }

  /** The answer is graded correct as it stands, or boxed when it is not boxed yet. */
  predicate Accepted(grade: (string, string) -> bool, a: string, groundTruth: string) {
    grade(a, groundTruth) || (Boxed.RFind(a, Boxed.BOXED).None? && grade("\\boxed{" + a + "}", groundTruth))
  }

  /** The last non-empty boxed answer among the assistant's messages, thinking aside. */
  function LatestOf(messages: seq<Message>): Option<string> {
    if messages == [] then None
    else
      var last := messages[|messages| - 1];
      var a := if last.role == Assistant && last.content.Said? then Boxed.Extract(Plain(last.content.text)) else None;
      if a.Some? && Text.Strip(a.value) != "" then Some(Text.Strip(a.value)) else LatestOf(messages[..|messages| - 1])
  }

  lemma {:induction false} LatestAgrees(setup: Setup, messages: seq<Message>)
    requires setup.plain == Plain && setup.boxed == Boxed.Extract
    ensures Latest(setup, messages) == LatestOf(messages)
  {
    if messages != [] {
      LatestAgrees(setup, messages[..|messages| - 1]);
    }
  }
}
