/**
  The agent and its loop (packages/agent/src/agent.ts, agent-loop.ts). Whatever the loop waits for,
  listeners, hooks, the provider, tools, is an answer of the environment; any answer may come with
  an abort and with newly queued messages. A run is a finite script of answers, aborted at its end.
*/
module AgentLoop {
  import opened Basics
  import opened AgentLog
  import opened AgentMessages
  import opened AgentQueue

  datatype ProviderEvent = Done | Start(partial: Message) | Update(partial: Message) | Terminal(message: Message)

  /** How an operation ends: with a value, or with an error that may be an abort error. */
  datatype Ending = Settles | Throws(isAbort: bool)

  /**
    One answer of the environment: whether the run is aborted meanwhile, and before the operation
    settles; how it ends and with what; and what is queued meanwhile. `outcomes` is what the operation,
    if it is part of running a tool call, gives for each call of the turn.
  */
  datatype Answer = Answer(
    abort: bool, abortFirst: bool, ending: Ending, flag: bool, messages: seq<Message>, event: ProviderEvent,
    message: Message,
    outcomes: seq<ToolOutcome>, pick: nat, steer: seq<Message>, followUp: seq<Message>)

  const NO_MESSAGE := Message(Assistant, "", [], Normal, "", false)

  /** The answer once the script is at its end: an abort. */
  const ABORT := Answer(true, true, Settles, false, [], Done, NO_MESSAGE, [], 0, [], [])

  /** What a part of the loop does next: it goes on, it has emitted `agent_end`, or it throws. */
  datatype Flow = Going | Ended | Failed

  /** The message a response ended with, or the error it threw. */
  datatype Response = Returned(message: Message) | Broken(isAbort: bool)

  /** What became of a raced operation. */
  datatype Raced = Value(answer: Answer) | Threw(isAbort: bool)

  /** The abort comes before the operation settles. */
  predicate Cut(answer: Answer) {
    answer.abort && answer.abortFirst
  }

  /** What becomes of an operation that starts before any abort. */
  function Outcome(answer: Answer): Raced {
    if Cut(answer) then Threw(true)
    else match answer.ending case Settles => Value(answer) case Throws(isAbort) => Threw(isAbort)
  }

  /** The provider's final message: the result of its stream, or the message of the event that ends it. */
  predicate GivesFinal(answer: Answer, message: Message) {
    Outcome(answer).Value? && (answer.message == message || answer.event == Terminal(message))
  }

  predicate GivesPartial(answer: Answer, message: Message) {
    Outcome(answer).Value? && (answer.event == Start(message) || answer.event == Update(message))
  }

  /** One of the answers from `from` to `to` gives the final message. */
  predicate FinalGiven(environment: seq<Answer>, from: int, to: int, message: Message) {
    exists k :: 0 <= from <= k < to <= |environment| && GivesFinal(environment[k], message)
  }

  predicate PartialGiven(environment: seq<Answer>, from: int, to: int, partial: Option<Message>) {
    partial.Some? ==> exists k :: 0 <= from <= k < to <= |environment| && GivesPartial(environment[k], partial.value)
  }

  lemma GivenLater(environment: seq<Answer>, from: int, to: int, later: int, partial: Option<Message>)
    requires PartialGiven(environment, from, to, partial) && to <= later <= |environment|
    ensures PartialGiven(environment, from, later, partial)
  {
  }

  lemma NothingGiven(environment: seq<Answer>, from: int)
    ensures PartialGiven(environment, from, from, None)
  {
  }

  predicate EventGiven(environment: seq<Answer>, from: int, to: int, event: ProviderEvent) {
    match event
    case Done => true
    case Terminal(message) => FinalGiven(environment, from, to, message)
    case Start(message) => PartialGiven(environment, from, to, Some(message))
    case Update(message) => PartialGiven(environment, from, to, Some(message))
  }

  lemma AnswerGiven(environment: seq<Answer>, from: int, k: int, to: int)
    requires 0 <= from <= k < to <= |environment| && Outcome(environment[k]).Value?
    ensures EventGiven(environment, from, to, environment[k].event)
  {
    assert environment[k].event.Terminal? ==> GivesFinal(environment[k], environment[k].event.message);
    assert environment[k].event.Start? ==> GivesPartial(environment[k], environment[k].event.partial);
    assert environment[k].event.Update? ==> GivesPartial(environment[k], environment[k].event.partial);
  }

  // What answers give for tool calls

  /** `createErrorToolResult`. */
  function ErrorOutcome(text: string): ToolOutcome {
    ToolOutcome(text, true, false)
  }

  /** The outcome of a call whose hook is lost to an abort. */
  const ABORTED_OUTCOME := ErrorOutcome("Request was aborted")

  function OutcomeFor(answer: Answer, call: nat): ToolOutcome {
    if call < |answer.outcomes| then answer.outcomes[call] else ToolOutcome("", false, false)
  }

  /** The call is known and valid, and the hook before it lets it run. */
  predicate Allows(answer: Answer) {
    !Cut(answer) && answer.ending.Settles? && answer.flag
  }

  /**
    The call is unknown or invalid, or the hook before it blocks it or throws; the outcome is the reason as
    an error.
  */
  predicate Refuses(answer: Answer, call: nat, outcome: ToolOutcome) {
    !Cut(answer) && !Allows(answer) && outcome == ErrorOutcome(OutcomeFor(answer, call).text)
  }

  /** The tool settles, with its value without an error, or throws one. */
  predicate Executes(answer: Answer, call: nat, executed: ToolOutcome) {
    && !Cut(answer) && !answer.flag && executed.text == OutcomeFor(answer, call).text
    && (executed.isError <==> answer.ending.Throws?)
    && (executed.terminate <==> answer.ending.Settles? && OutcomeFor(answer, call).terminate)
  }

  /** The hook after the call leaves the outcome as it is, replaces it, or throws an error, which replaces it. */
  predicate Finalizes(answer: Answer, call: nat, executed: ToolOutcome, outcome: ToolOutcome) {
    && !Cut(answer)
    && (answer.ending.Throws? ==> outcome == ErrorOutcome(OutcomeFor(answer, call).text))
    && (answer.ending.Settles? ==> outcome == if answer.flag then OutcomeFor(answer, call) else executed)
  }

  /** One of the answers from `from` to `to` lets the call run. */
  predicate AllowedIn(environment: seq<Answer>, from: int, to: int) {
    exists p :: 0 <= from <= p < to <= |environment| && Allows(environment[p])
  }

  /** One of them is what the call's tool has settled with, after one that let it run. */
  ghost predicate ExecutedIn(environment: seq<Answer>, from: int, to: int, call: nat, executed: ToolOutcome) {
    exists e ::
      0 <= e < to <= |environment| && AllowedIn(environment, from, e) && Executes(environment[e], call, executed)
  }

  /** The answers from `from` to `to` give the call's outcome: one refuses it, or its tool has run and was finalized. */
  ghost predicate GivenIn(environment: seq<Answer>, from: int, to: int, call: nat, outcome: ToolOutcome) {
    || (exists p :: 0 <= from <= p < to <= |environment| && Refuses(environment[p], call, outcome))
    || (exists f, executed ::
          && 0 <= f < to <= |environment| && ExecutedIn(environment, from, f, call, executed)
          && Finalizes(environment[f], call, executed, outcome))
  }

  /** The outcome is given, or that of an abort. */
  ghost predicate OutcomeGiven(environment: seq<Answer>, from: int, to: int, aborted: bool, call: nat,
      outcome: ToolOutcome)
  {
    GivenIn(environment, from, to, call, outcome) || (aborted && outcome == ABORTED_OUTCOME)
  }

  /** What has been heard for a call that is not over. */
  ghost predicate StageGiven(environment: seq<Answer>, from: int, to: int, aborted: bool, call: nat, entry: Entry) {
    match entry
    case InFlight => AllowedIn(environment, from, to)
    case Settled(executed) => aborted || ExecutedIn(environment, from, to, call, executed)
    case Over(_) => true
  }

  lemma AllowsGives(environment: seq<Answer>, from: int, heard: int)
    requires 0 <= from <= heard < |environment| && Allows(environment[heard])
    ensures AllowedIn(environment, from, heard + 1)
  {
  }

  lemma RefusesGives(environment: seq<Answer>, from: int, heard: int, call: nat, outcome: ToolOutcome)
    requires 0 <= from <= heard < |environment| && Refuses(environment[heard], call, outcome)
    ensures GivenIn(environment, from, heard + 1, call, outcome)
  {
  }

  lemma ExecutesGives(environment: seq<Answer>, from: int, heard: int, call: nat, executed: ToolOutcome)
    requires 0 <= heard < |environment| && AllowedIn(environment, from, heard)
             && Executes(environment[heard], call, executed)
    ensures ExecutedIn(environment, from, heard + 1, call, executed)
  {
  }

  lemma FinalizesGives(environment: seq<Answer>, from: int, heard: int, call: nat, executed: ToolOutcome,
      outcome: ToolOutcome)
    requires 0 <= heard < |environment| && ExecutedIn(environment, from, heard, call, executed)
             && Finalizes(environment[heard], call, executed, outcome)
    ensures GivenIn(environment, from, heard + 1, call, outcome)
  {
  }

  lemma StageLater(environment: seq<Answer>, from: int, to: int, later: int, aborted: bool, abortedLater: bool,
      call: nat, entry: Entry)
    requires StageGiven(environment, from, to, aborted, call, entry)
    requires to <= later <= |environment| && (aborted ==> abortedLater)
    ensures StageGiven(environment, from, later, abortedLater, call, entry)
  {
  }

  /** What was so when an event was emitted: how many answers had been heard, and whether the run was aborted. */
  datatype Mark = Mark(heard: int, aborted: bool)

  /** How many answers had been heard when the call last started. */
  function Since(log: seq<Event>, marks: seq<Mark>, call: nat): int {
    if log == [] || |marks| != |log| then 0
    else if log[|log| - 1].ToolStart? && log[|log| - 1].call == call then marks[|log| - 1].heard
    else Since(log[..|log| - 1], marks[..|log| - 1], call)
  }

  lemma SinceMore(log: seq<Event>, marks: seq<Mark>, event: Event, mark: Mark, call: nat)
    requires |marks| == |log|
    ensures Since(log + [event], marks + [mark], call)
         == if event.ToolStart? && event.call == call then mark.heard else Since(log, marks, call)
  {
    assert (log + [event])[..|log|] == log && (marks + [mark])[..|log|] == marks;
  }

  lemma SinceAll(log: seq<Event>, marks: seq<Mark>, event: Event, mark: Mark)
    requires |marks| == |log|
    ensures forall call: nat :: Since(log + [event], marks + [mark], call)
                                == if event.ToolStart? && event.call == call then mark.heard
                                  else Since(log, marks, call)
  {
    forall call: nat
      ensures Since(log + [event], marks + [mark], call)
           == if event.ToolStart? && event.call == call then mark.heard else Since(log, marks, call)
    {
      SinceMore(log, marks, event, mark, call);
    }
  }

  /** Each call has been heard to where its entry says. */
  ghost predicate StagesGiven(environment: seq<Answer>, log: seq<Event>, marks: seq<Mark>, heard: int, aborted: bool,
      entries: seq<Entry>)
  {
    forall k :: 0 <= k < |entries| ==> StageGiven(environment, Since(log, marks, k), heard, aborted, k, entries[k])
  }

  /** Entries stay as heard while their calls do not start again. */
  lemma StagesLater(environment: seq<Answer>, log: seq<Event>, marks: seq<Mark>, heard: int, aborted: bool,
      logLater: seq<Event>, marksLater: seq<Mark>, later: int, abortedLater: bool, entries: seq<Entry>)
    requires StagesGiven(environment, log, marks, heard, aborted, entries)
    requires forall k :: 0 <= k < |entries| ==> Since(logLater, marksLater, k) == Since(log, marks, k)
    requires heard <= later <= |environment| && (aborted ==> abortedLater)
    ensures StagesGiven(environment, logLater, marksLater, later, abortedLater, entries)
  {
    hide Since;
    hide StageGiven;
    forall k | 0 <= k < |entries|
      ensures StageGiven(environment, Since(logLater, marksLater, k), later, abortedLater, k, entries[k])
    {
      StageLater(environment, Since(log, marks, k), heard, later, aborted, abortedLater, k, entries[k]);
    }
  }

  lemma OverIsGiven(environment: seq<Answer>, from: int, to: int, aborted: bool, call: nat, outcome: ToolOutcome)
    ensures StageGiven(environment, from, to, aborted, call, Over(outcome))
  {
  }

  lemma StagesWith(environment: seq<Answer>, log: seq<Event>, marks: seq<Mark>, heard: int, aborted: bool,
      entries: seq<Entry>, entry: Entry)
    requires StagesGiven(environment, log, marks, heard, aborted, entries)
    requires StageGiven(environment, Since(log, marks, |entries|), heard, aborted, |entries|, entry)
    ensures StagesGiven(environment, log, marks, heard, aborted, entries + [entry])
  {
    hide Since;
    hide StageGiven;
  }

  lemma StageFrom(environment: seq<Answer>, log: seq<Event>, marks: seq<Mark>, heard: int, aborted: bool,
      entries: seq<Entry>, k: nat)
    requires k < |entries| && StagesGiven(environment, log, marks, heard, aborted, entries)
    ensures StageGiven(environment, Since(log, marks, k), heard, aborted, k, entries[k])
  {
  }

  lemma StageChanged(environment: seq<Answer>, log: seq<Event>, marks: seq<Mark>, heard: int, aborted: bool,
      entries: seq<Entry>, k: nat, entry: Entry)
    requires k < |entries| && StagesGiven(environment, log, marks, heard, aborted, entries)
    requires StageGiven(environment, Since(log, marks, k), heard, aborted, k, entry)
    ensures StagesGiven(environment, log, marks, heard, aborted, entries[k := entry])
  {
    hide Since;
    hide StageGiven;
  }

  /** The end of a call has an outcome given since its start. */
  ghost predicate EndGiven(environment: seq<Answer>, log: seq<Event>, marks: seq<Mark>, event: Event, mark: Mark) {
    event.ToolEnd? ==>
      OutcomeGiven(environment, Since(log, marks, event.call), mark.heard, mark.aborted, event.call, event.outcome)
  }

  ghost predicate EndsGiven(environment: seq<Answer>, log: seq<Event>, marks: seq<Mark>) {
    && |marks| == |log|
    && forall t :: 0 <= t < |log| ==> EndGiven(environment, log[..t], marks[..t], log[t], marks[t])
  }

  lemma EndsGivenMore(environment: seq<Answer>, log: seq<Event>, marks: seq<Mark>, event: Event, mark: Mark)
    requires EndsGiven(environment, log, marks) && EndGiven(environment, log, marks, event, mark)
    ensures EndsGiven(environment, log + [event], marks + [mark])
  {
    var allLog, allMarks := log + [event], marks + [mark];
    hide EndGiven;
    forall t | 0 <= t < |allLog|
      ensures EndGiven(environment, allLog[..t], allMarks[..t], allLog[t], allMarks[t])
    {
      assert allLog[..t] == log[..t] && allMarks[..t] == marks[..t];
      assert t == |log| ==> log[..t] == log && marks[..t] == marks;
    }
  }

  lemma EndsGivenOther(environment: seq<Answer>, log: seq<Event>, marks: seq<Mark>, event: Event, mark: Mark)
    requires EndsGiven(environment, log, marks) && !event.ToolEnd?
    ensures EndsGiven(environment, log + [event], marks + [mark])
  {
    EndsGivenMore(environment, log, marks, event, mark);
  }

  /**
    The result is that of its call, with the outcome the call's end announced in this turn, which is given
    by answers heard between the call's start and that end.
  */
  ghost predicate ResultHeard(environment: seq<Answer>, log: seq<Event>, marks: seq<Mark>, calls: seq<Call>, k: nat,
      result: Message)
  {
    var t := LastEnd(log, k);
    && k < |calls| && |marks| == |log| && 0 <= t < |log| && IsEndOf(log[t], k)
    && (forall j :: t < j < |log| ==> !log[j].TurnEnd?)
    && result == ToolResultMessage(calls[k], log[t].outcome)
    && EndGiven(environment, log[..t], marks[..t], log[t], marks[t])
  }

  lemma ResultIsHeard(environment: seq<Answer>, log: seq<Event>, marks: seq<Mark>, calls: seq<Call>, k: nat,
      result: Message)
    requires EndsGiven(environment, log, marks) && k < |calls| && k in StateAfter(log).tools.finished
    requires result == ToolResultMessage(calls[k], StateAfter(log).tools.finished[k])
    ensures ResultHeard(environment, log, marks, calls, k, result)
  {
    FinishedSays(log, k);
    hide StateAfter;
    hide LastEnd;
    hide EndGiven;
  }

  /** Every result of every `turn_end` is that of its call, as heard. */
  ghost predicate AllHeard(environment: seq<Answer>, log: seq<Event>, marks: seq<Mark>) {
    forall i, k ::
      0 <= i < |log| <= |marks| && log[i].TurnEnd? && 0 <= k < |log[i].results| ==>
        ResultHeard(environment, log[..i], marks[..i], log[i].message.calls, k, log[i].results[k])
  }

  lemma EndsGivenBefore(environment: seq<Answer>, log: seq<Event>, marks: seq<Mark>, i: nat)
    requires EndsGiven(environment, log, marks) && i <= |log|
    ensures EndsGiven(environment, log[..i], marks[..i])
  {
    hide EndGiven;
    forall t | 0 <= t < i
      ensures EndGiven(environment, log[..i][..t], marks[..i][..t], log[t], marks[t])
    {
      assert log[..i][..t] == log[..t] && marks[..i][..t] == marks[..t];
    }
  }

  lemma TurnsHeard(environment: seq<Answer>, log: seq<Event>, marks: seq<Mark>)
    requires Follows(log) && EndsGiven(environment, log, marks)
    ensures AllHeard(environment, log, marks)
  {
    assert |marks| == |log|;
    hide Follows;
    hide StateAfter;
    hide EndsGiven;
    hide ResultHeard;
    forall i, k | 0 <= i < |log| && log[i].TurnEnd? && 0 <= k < |log[i].results|
      ensures ResultHeard(environment, log[..i], marks[..i], log[i].message.calls, k, log[i].results[k])
    {
      EndsGivenBefore(environment, log, marks, i);
      ResultsFinished(log, i, k);
      ResultIsHeard(environment, log[..i], marks[..i], log[i].message.calls, k, log[i].results[k]);
    }
  }

  /** What a hook's answer to whether to stop means. */
  function Asked(answer: Answer): Flow {
    if answer.ending.Throws? then Failed else if answer.flag then Ended else Going
  }

  /**
    How a turn that is not aborted goes on: the hook after it and the one before the next are asked,
    steering is polled, and only if there is none the hook is asked again.
  */
  function AfterTurnFlow(script: seq<Answer>, queued: bool): Flow {
    var first, second := AnswerAt(script, 0), AnswerAt(script, 1);
    if !Asked(first).Going? then Asked(first)
    else if !Asked(second).Going? then Asked(second)
    else if queued || first.steer != [] || second.steer != [] then Going
    else Asked(AnswerAt(script, 3))
  }

  /** How a run that is not aborted ends, or goes on with follow-ups, or, without any, with continuation messages. */
  function FindMoreFlow(script: seq<Answer>, queued: bool): Flow {
    var first, second, more := AnswerAt(script, 0), AnswerAt(script, 2), AnswerAt(script, 3);
    if !Asked(first).Going? then Asked(first)
    else if queued || first.followUp != [] then Going
    else if !Asked(second).Going? then Asked(second)
    else if more.ending.Throws? then Failed
    else if more.messages == [] then Ended
    else Going
  }

  /** `createAbortedAssistantMessage`. */
  function AbortedMessage(partial: Option<Message>): Message {
    Message(Assistant, if partial.Some? then partial.value.text else "",
      if partial.Some? then partial.value.calls else [], Aborted, "", false)
  }

  function StreamingAfter(streaming: Option<Message>, event: Event): Option<Message> {
    match event
    case MessageStart(message) => Some(message)
    case MessageUpdate(message) => Some(message)
    case MessageEnd(_, _) => None
    case AgentEnd(_) => None
    case _ => streaming
  }

  function AsBatch(messages: seq<Message>): Batches {
    if messages == [] then [] else [messages]
  }

  /** The batches that answers queue. */
  function Queued(answers: seq<Answer>, source: Source): Batches {
    if answers == [] then []
    else
      var answer := answers[|answers| - 1];
      Queued(answers[..|answers| - 1], source) + AsBatch(if source.Steering? then answer.steer else answer.followUp)
  }

  /** What a run starts from: the whole script of its environment, and the batches queued before it. */
  datatype Given = Given(environment: seq<Answer>, steering: Batches, followUp: Batches)

  predicate IsTail(environment: seq<Answer>, script: seq<Answer>) {
    |script| <= |environment| && environment[|environment| - |script|..] == script
  }

  /** Everything ever queued: what was there before the run, and what the answers heard so far have brought. */
  function QueuedBy(given: Given, script: seq<Answer>, source: Source): Batches
    requires IsTail(given.environment, script)
  {
    (if source.Steering? then given.steering else given.followUp)
      + Queued(given.environment[..|given.environment| - |script|], source)
  }

  /** The batches of both queues, after what polls have taken off them, are what has been queued. */
  predicate AllKept(given: Given, script: seq<Answer>, steered: Channel, followed: Channel, steering: Batches,
      followUp: Batches)
  {
    && IsTail(given.environment, script) && NoneEmpty(steering) && NoneEmpty(followUp)
    && Keeps(steered, QueuedBy(given, script, Steering), steering)
    && Keeps(followed, QueuedBy(given, script, FollowUp), followUp)
  }

  /** The answer after `k` others; an abort once the script is at its end. */
  function AnswerAt(script: seq<Answer>, k: nat): Answer {
    if k < |script| then script[k] else ABORT
  }

  function Later(script: seq<Answer>): seq<Answer> {
    if script == [] then [] else script[1..]
  }

  class Agent {
    // The environment of the run, and its abort signal
    var script: seq<Answer>
    var aborted: bool

    // Agent state
    var messages: seq<Message>
    var streamingMessage: Option<Message>
    var pendingToolCalls: set<string>
    var isStreaming: bool
    var activeRun: bool
    var skipInitialSteeringPoll: bool
    const steeringQueue: PendingMessageQueue
    const followUpQueue: PendingMessageQueue
    const sequential: bool
    const sequentialTools: set<string>

    // The loop's context and the messages it returns
    var context: seq<Message>
    var newMessages: seq<Message>

    // The log of the run and what was so at each event, the transcript before it, its whole script, and what
    // was queued before it
    ghost var log: seq<Event>
    ghost var marks: seq<Mark>
    ghost var protocol: Protocol
    ghost var transcript: seq<Message>
    ghost var given: Given

    constructor (messages: seq<Message>, steeringMode: QueueMode, followUpMode: QueueMode, sequential: bool,
        sequentialTools: set<string>)
      ensures Idle() && this.messages == messages && steeringQueue.batches == [] && followUpQueue.batches == []
      ensures fresh(steeringQueue) && fresh(followUpQueue)
    {
      script, aborted, this.messages, streamingMessage, pendingToolCalls := [], false, messages, None, {};
      isStreaming, activeRun, skipInitialSteeringPoll, context, newMessages := false, false, false, [], [];
      this.sequential, this.sequentialTools := sequential, sequentialTools;
      steeringQueue := new PendingMessageQueue(steeringMode);
      followUpQueue := new PendingMessageQueue(followUpMode);
      log, marks, protocol, transcript, given := [], [], START, messages, Given([], [], []);
    }

    ghost predicate Idle()
      reads `activeRun, `isStreaming, `streamingMessage, `pendingToolCalls, steeringQueue`batches, followUpQueue`batches
    {
      && !activeRun && !isStreaming && streamingMessage.None? && pendingToolCalls == {}
      && steeringQueue != followUpQueue && NoneEmpty(steeringQueue.batches) && NoneEmpty(followUpQueue.batches)
    }

    /** What every step of a run keeps. */
    ghost predicate Running()
      reads `aborted, `activeRun, `isStreaming, `log, `marks, `protocol, `messages, `transcript, `pendingToolCalls
      reads `script, `given, steeringQueue`batches, followUpQueue`batches
    {
      && activeRun && isStreaming
      && Follows(log) && protocol == StateAfter(log)
      && messages == transcript + protocol.ends && pendingToolCalls == protocol.tools.ids
      && Conserved() && (protocol.aborted ==> aborted)
      && EndsGiven(given.environment, log, marks) && (forall mark :: mark in marks && mark.aborted ==> aborted)
      && AllInTurn(log)
    }

    /** The agent runs its tools in sequence, or one of the calls' tools asks for it. */
    ghost predicate TakesTurns(calls: seq<Call>) {
      sequential || exists k :: 0 <= k < |calls| && calls[k].name in sequentialTools
    }

    /**
      Calls that take turns start only when no other runs. If they need not, no result comes before every call
      of the response has ended.
    */
    ghost predicate InTurn(p: Protocol, event: Event) {
      p.reply.Some? ==>
        && (event.ToolStart? && TakesTurns(p.reply.value.calls) ==> p.tools.running == {})
        && (event.MessageEnd? && event.origin.FromTool? && !TakesTurns(p.reply.value.calls) ==>
              AllFinished(p.tools.finished, |p.reply.value.calls|))
    }

    ghost predicate AllInTurn(log: seq<Event>) {
      forall i :: 0 <= i < |log| ==> InTurn(StateAfter(log[..i]), log[i])
    }

    lemma InTurnMore(log: seq<Event>, event: Event)
      requires AllInTurn(log) && InTurn(StateAfter(log), event)
      ensures AllInTurn(log + [event])
    {
      hide InTurn;
      hide StateAfter;
      var all := log + [event];
      forall i | 0 <= i < |all|
        ensures InTurn(StateAfter(all[..i]), all[i])
      {
        assert all[..i] == log[..i];
        assert i == |log| ==> log[..i] == log;
      }
    }

    /** Queued batches are either still queued or drained, in their order, and what a poll left comes next. */
    ghost predicate Conserved()
      reads `protocol, `script, `given, steeringQueue`batches, followUpQueue`batches
    {
      && steeringQueue != followUpQueue
      && AllKept(given, script, protocol.queues.steering, protocol.queues.followUp, steeringQueue.batches,
         followUpQueue.batches)
    }

    /** Every wait but the last lowers it. */
    ghost function Fuel(): nat
      reads `script, `aborted
    {
      2 * |script| + if aborted then 0 else 1
    }

    /** What the environment will answer next. */
    function NextAnswer(): Answer
      reads `script
    {
      AnswerAt(script, 0)
    }

    /** The environment has answered once: its answer is off the script, and its batches are in their queues. */
    twostate predicate Hears(answer: Answer)
      reads `script, `aborted, steeringQueue`batches, followUpQueue`batches
    {
      && answer == old(NextAnswer()) && script == Later(old(script)) && aborted == (old(aborted) || answer.abort)
      && steeringQueue.batches == old(steeringQueue.batches) + AsBatch(answer.steer)
      && followUpQueue.batches == old(followUpQueue.batches) + AsBatch(answer.followUp)
    }

    /** How many answers have been heard. */
    ghost function Heard(): int
      reads `script, `given
    {
      |given.environment| - |script|
    }

    /** Waits for the environment. */
    method Await() returns (answer: Answer)
      requires Conserved()
      modifies `script, `aborted, steeringQueue`batches, followUpQueue`batches
      ensures Conserved() && Hears(answer)
      ensures Fuel() <= old(Fuel()) && (old(Fuel()) > 0 ==> Fuel() < old(Fuel()))
    {
      KeptFacts(given, script, protocol.queues.steering, protocol.queues.followUp, steeringQueue.batches,
        followUpQueue.batches);
      answer := ABORT;
      if |script| > 0 {
        answer := script[0];
        AnswerKeeps(given, script, protocol.queues.steering, protocol.queues.followUp, steeringQueue.batches,
          followUpQueue.batches);
        script := script[1..];
      }
      hide AllKept;
      hide NoneEmpty;
      hide AsBatch;
      aborted := aborted || answer.abort;
      Steer(answer.steer);
      QueueFollowUp(answer.followUp);
    }

    /** `steer`. */
    method Steer(batch: seq<Message>)
      requires NoneEmpty(steeringQueue.batches)
      modifies steeringQueue`batches
      ensures NoneEmpty(steeringQueue.batches) && steeringQueue.batches == old(steeringQueue.batches) + AsBatch(batch)
    {
      steeringQueue.Enqueue(batch);
    }

    /** `followUp`. */
    method QueueFollowUp(batch: seq<Message>)
      requires NoneEmpty(followUpQueue.batches)
      modifies followUpQueue`batches
      ensures NoneEmpty(followUpQueue.batches) && followUpQueue.batches == old(followUpQueue.batches) + AsBatch(batch)
    {
      followUpQueue.Enqueue(batch);
    }

    /** Reduces the agent's state for an event, and then waits for the listeners. */
    method Emit(event: Event)
      requires Running() && Allowed(protocol, event) && (TellsAbort(event) ==> aborted)
      requires EndGiven(given.environment, log, marks, event, Mark(Heard(), aborted)) && InTurn(protocol, event)
      requires !event.Polled? && !event.SkippedPoll? && !event.AskedToContinue? && !event.Continued? && !event.Stopping?
      modifies `script, `aborted, steeringQueue`batches, followUpQueue`batches,
               `messages, `streamingMessage, `pendingToolCalls, `log, `marks, `protocol
      ensures Running() && log == old(log) + [event] && protocol == After(old(protocol), event)
      ensures marks == old(marks) + [Mark(old(Heard()), old(aborted))]
      ensures streamingMessage == StreamingAfter(old(streamingMessage), event)
      ensures old(aborted) ==> aborted
      ensures Fuel() <= old(Fuel()) && (old(Fuel()) > 0 ==> Fuel() < old(Fuel()))
    {
      hide Follows;
      hide Allowed;
      hide StateAfter;
      hide AllKept;
      hide EndGiven;
      hide EndsGiven;
      hide InTurn;
      hide AllInTurn;
      EmitEffect(protocol, event);
      hide After;
      React(event);
      Log(event);
      hide Conserved;
      hide ToolsAfter;
      var _ := Await();
    }

    /** Adds to the log what drains no queue. */
    ghost method Log(event: Event)
      requires Follows(log) && protocol == StateAfter(log) && Conserved() && Allowed(protocol, event)
      requires EndsGiven(given.environment, log, marks) && AllInTurn(log) && InTurn(protocol, event)
               && EndGiven(given.environment, log, marks, event, Mark(Heard(), aborted))
      requires !event.Polled?
      modifies `log, `marks, `protocol
      ensures Follows(log) && protocol == StateAfter(log) && Conserved() && EndsGiven(given.environment, log, marks)
              && AllInTurn(log)
      ensures log == old(log) + [event] && protocol == After(old(protocol), event)
              && marks == old(marks) + [Mark(Heard(), aborted)]
    {
      FollowsMore(log, event);
      EndsGivenMore(given.environment, log, marks, event, Mark(Heard(), aborted));
      InTurnMore(log, event);
      EmitEffect(protocol, event);
      hide Follows;
      hide StateAfter;
      hide Allowed;
      hide After;
      hide AllKept;
      hide EndsGiven;
      hide AllInTurn;
      log, marks, protocol := log + [event], marks + [Mark(Heard(), aborted)], After(protocol, event);
    }

    /** The cases of `processEvents`. */
    method React(event: Event)
      modifies `messages, `streamingMessage, `pendingToolCalls
      ensures messages == if event.MessageEnd? then old(messages) + [event.message] else old(messages)
      ensures pendingToolCalls == ToolsAfter(Tools({}, map[], old(pendingToolCalls)), event).ids
      ensures streamingMessage == StreamingAfter(old(streamingMessage), event)
    {
      match event {
        case MessageStart(message) => streamingMessage := Some(message);
        case MessageUpdate(message) => streamingMessage := Some(message);
        case MessageEnd(message, _) =>
          streamingMessage := None;
          messages := messages + [message];
        case ToolStart(_, id) => pendingToolCalls := pendingToolCalls + {id};
        case ToolEnd(_, id, _) => pendingToolCalls := pendingToolCalls - {id};
        case AgentEnd(_) => streamingMessage := None;
        case _ =>
      }
    }

    /** Waits in the middle of a run. */
    method Wait() returns (answer: Answer)
      requires Running()
      modifies `script, `aborted, steeringQueue`batches, followUpQueue`batches
      ensures Running() && Hears(answer)
      ensures Fuel() <= old(Fuel()) && (old(Fuel()) > 0 ==> Fuel() < old(Fuel()))
      ensures old(Fuel()) == 0 ==> aborted
    {
      answer := Await();
    }

    /** `raceWithAbort`: the operation's answer, unless an abort comes first or had come before. */
    method Hear() returns (heard: Option<Answer>)
      requires Running()
      modifies `script, `aborted, steeringQueue`batches, followUpQueue`batches
      ensures Running() && (old(aborted) ==> aborted) && (heard.None? <==> old(aborted) || Cut(old(NextAnswer())))
      ensures !old(aborted) ==> Hears(old(NextAnswer())) && (heard.Some? ==> heard.value == old(NextAnswer()))
      ensures heard.Some? ==>
                && 0 <= old(Heard()) == Heard() - 1 < |given.environment|
                && given.environment[old(Heard())] == heard.value
      ensures old(Heard()) <= Heard() && Fuel() <= old(Fuel()) && (!old(aborted) ==> Fuel() < old(Fuel()))
    {
      if aborted {
        return None;
      }
      NextIsGiven(given.environment, script);
      hide Running;
      var answer := Wait();
      heard := if answer.abort && answer.abortFirst then None else Some(answer);
    }

    /** A raced operation, with the error it throws, which is an abort error if the abort comes first. */
    method Race() returns (raced: Raced)
      requires Running()
      modifies `script, `aborted, steeringQueue`batches, followUpQueue`batches
      ensures Running() && (old(aborted) ==> aborted && raced == Threw(true))
      ensures !old(aborted) ==> Hears(old(NextAnswer())) && raced == Outcome(old(NextAnswer()))
      ensures raced.Value? ==>
                && 0 <= old(Heard()) == Heard() - 1 < |given.environment|
                && given.environment[old(Heard())] == raced.answer
                && Outcome(raced.answer).Value?
      ensures old(Heard()) <= Heard() && Fuel() <= old(Fuel()) && (!old(aborted) ==> Fuel() < old(Fuel()))
    {
      hide Running;
      var heard := Hear();
      if heard.None? {
        return Threw(true);
      }
      raced := if heard.value.ending.Throws? then Threw(heard.value.ending.isAbort) else Value(heard.value);
    }

    // Streaming one response

    /** The response so far: `partial` is its message in the context, once the provider has started one. */
    ghost predicate Streaming(partial: Option<Message>, base: seq<Message>, before: Protocol)
      reads `aborted, `activeRun, `isStreaming, `log, `marks, `protocol, `messages, `transcript, `pendingToolCalls,
            `context
      reads `script, `given, steeringQueue`batches, followUpQueue`batches
    {
      && Running() && protocol.final.None? && protocol.ends == before.ends && protocol.tools == before.tools
      && protocol.queues == before.queues
      && protocol.toolWork == before.toolWork && protocol.midTurn
      && before.tools == NO_TOOLS && before.queues.polled && before.queues.drained == before.queues.injected
      && protocol.reply.None?
      && protocol.open == partial.Some? && StartedTwice(partial, base, before.extra, context, protocol.extra)
    }

    /** `streamAssistantResponse` after its `catch`: what it returns or throws. */
    method StreamAssistantResponse() returns (response: Response, ghost partial: Option<Message>)
      requires Streaming(None, context, protocol)
      modifies `script, `aborted, steeringQueue`batches, followUpQueue`batches,
               `messages, `streamingMessage, `pendingToolCalls, `log, `marks, `protocol, `context
      ensures Running() && protocol.final.None? && protocol.queues == old(protocol.queues) && protocol.tools == NO_TOOLS
      ensures response.Returned? ==> Answered(response.message, old(protocol), protocol, old(context), context)
      ensures response.Returned? ==>
                || FinalGiven(given.environment, old(Heard()), Heard(), response.message)
                || (aborted && response.message == AbortedMessage(partial)
                   && PartialGiven(given.environment, old(Heard()), Heard(), partial))
      ensures old(aborted) ==> aborted
      ensures response.Returned? ==> Fuel() < old(Fuel()) || old(Fuel()) == 0
      ensures Fuel() <= old(Fuel())
    {
      ghost var base, before := context, protocol;
      var started;
      response, started := ReadResponse(base, before);
      partial := started;
      if response.Broken? && aborted && response.isAbort {
        var finalMessage := AbortedMessage(started);
        FinishMessage(finalMessage, started, base, before);
        response := Returned(finalMessage);
      }
    }

    /** The final message takes the place of the partial one, or starts and ends at once. */
    method FinishMessage(finalMessage: Message, partial: Option<Message>, ghost base: seq<Message>,
        ghost before: Protocol)
      requires Streaming(partial, base, before)
      modifies `script, `aborted, steeringQueue`batches, followUpQueue`batches,
               `messages, `streamingMessage, `pendingToolCalls, `log, `marks, `protocol, `context
      ensures Running() && Answered(finalMessage, before, protocol, base, context)
      ensures old(aborted) ==> aborted
      ensures old(Heard()) <= Heard() && Fuel() <= old(Fuel()) && (old(Fuel()) > 0 ==> Fuel() < old(Fuel()))
    {
      hide Running;
      if partial.Some? {
        context := context[..|context| - 1] + [finalMessage];
      } else {
        context := context + [finalMessage];
        Emit(MessageStart(finalMessage));
      }
      Emit(MessageEnd(finalMessage, FromProvider));
    }

    /** Streaming, with a partial message that the provider has given since `from`. */
    ghost predicate Reading(partial: Option<Message>, base: seq<Message>, before: Protocol, from: int)
      reads `aborted, `activeRun, `isStreaming, `log, `marks, `protocol, `messages, `transcript, `pendingToolCalls,
            `context
      reads `script, `given, steeringQueue`batches, followUpQueue`batches
    {
      Streaming(partial, base, before) && 0 <= from <= Heard()
        && PartialGiven(given.environment, from, Heard(), partial)
    }

    /** The `try` of `streamAssistantResponse`: hooks, then the provider's events until the final message. */
    method ReadResponse(ghost base: seq<Message>, ghost before: Protocol)
        returns (response: Response, partial: Option<Message>)
      requires Streaming(None, base, before)
      modifies `script, `aborted, steeringQueue`batches, followUpQueue`batches,
               `messages, `streamingMessage, `pendingToolCalls, `log, `marks, `protocol, `context
      ensures response.Returned? ==> Running() && Answered(response.message, before, protocol, base, context)
      ensures response.Returned? ==> FinalGiven(given.environment, old(Heard()), Heard(), response.message)
      ensures response.Broken? ==> Reading(partial, base, before, old(Heard()))
      ensures old(aborted) ==> aborted && response.Broken?
      ensures Fuel() <= old(Fuel()) && (!old(aborted) ==> Fuel() < old(Fuel()))
    {
      ghost var from := Heard();
      partial := None;
      var broken := CallProvider(base, before);
      hide Reading;
      hide Running;
      hide Fuel;
      hide Answered;
      hide FinalGiven;
      hide EventGiven;
      if broken.Some? {
        return Broken(broken.value), partial;
      }
      var over := false;
      while !over
        invariant Reading(partial, base, before, from) && !old(aborted) && Fuel() < old(Fuel())
        decreases Fuel(), !over
      {
        var raced := RaceReading(partial, base, before, from);
        if raced.Threw? {
          return Broken(raced.isAbort), partial;
        }
        match raced.answer.event {
          case Done => over := true;
          case Start(message) => partial := StartPartial(message, partial, base, before, from);
          case Update(message) => partial := UpdatePartial(message, partial, base, before, from);
          case Terminal(message) =>
            response := TakeResult(Some(message), partial, base, before, from);
            return;
        }
      }
      response := TakeResult(None, partial, base, before, from);
    }

    /** `transformContext`, `convertToLlm`, `getApiKey` with `getSystemPrompt`, and the provider call. */
    method CallProvider(ghost base: seq<Message>, ghost before: Protocol) returns (broken: Option<bool>)
      requires Streaming(None, base, before)
      modifies `script, `aborted, steeringQueue`batches, followUpQueue`batches
      ensures Reading(None, base, before, old(Heard())) && (old(aborted) ==> aborted && broken.Some?)
      ensures Fuel() <= old(Fuel()) && (!old(aborted) ==> Fuel() < old(Fuel()))
    {
      assert 0 <= Heard();
      hide Running;
      hide Fuel;
      hide Streaming;
      NothingGiven(given.environment, Heard());
      hide PartialGiven;
      hide EventGiven;
      ghost var from := Heard();
      hide Reading;
      for i := 0 to 4
        invariant Reading(None, base, before, from) && (old(aborted) ==> i == 0) && (i == 0 ==> aborted == old(aborted))
        invariant Fuel() <= old(Fuel()) && (i > 0 ==> Fuel() < old(Fuel()))
      {
        var raced := RaceReading(None, base, before, from);
        if raced.Threw? {
          return Some(raced.isAbort);
        }
      }
      broken := None;
    }

    /** A wait for the provider. */
    method RaceReading(ghost partial: Option<Message>, ghost base: seq<Message>, ghost before: Protocol,
        ghost from: int) returns (raced: Raced)
      requires Reading(partial, base, before, from)
      modifies `script, `aborted, steeringQueue`batches, followUpQueue`batches
      ensures Reading(partial, base, before, from)
              && (raced.Value? ==> EventGiven(given.environment, from, Heard(), raced.answer.event))
      ensures (old(aborted) ==> aborted && raced.Threw?) && Fuel() <= old(Fuel())
              && (!old(aborted) ==> Fuel() < old(Fuel()))
    {
      hide Running;
      hide Fuel;
      hide StartedTwice;
      ghost var heard := Heard();
      raced := Race();
      GivenLater(given.environment, from, heard, Heard(), partial);
      if raced.Value? {
        AnswerGiven(given.environment, from, heard, Heard());
      }
    }

    /**
      Ends with the stream's result; if that is lost to an abort, with the message of the event that ended
      the stream, if any.
    */
    method TakeResult(terminal: Option<Message>, partial: Option<Message>, ghost base: seq<Message>,
        ghost before: Protocol, ghost from: int)
      returns (response: Response)
      requires Reading(partial, base, before, from)
      requires terminal.Some? ==> EventGiven(given.environment, from, Heard(), Terminal(terminal.value))
      modifies `script, `aborted, steeringQueue`batches, followUpQueue`batches,
               `messages, `streamingMessage, `pendingToolCalls, `log, `marks, `protocol, `context
      ensures response.Returned? ==> Running() && Answered(response.message, before, protocol, base, context)
      ensures response.Returned? ==> FinalGiven(given.environment, from, Heard(), response.message)
      ensures response.Broken? ==> Reading(partial, base, before, from)
      ensures (old(aborted) ==> aborted) && Fuel() <= old(Fuel())
    {
      hide Running;
      hide Fuel;
      hide Outcome;
      hide StartedTwice;
      var result := Race();
      if result.Threw? && (terminal.None? || !aborted || !result.isAbort) {
        return Broken(result.isAbort);
      }
      var finalMessage := if result.Value? then result.answer.message else terminal.value;
      FinishMessage(finalMessage, partial, base, before);
      response := Returned(finalMessage);
    }

    method StartPartial(message: Message, was: Option<Message>, ghost base: seq<Message>, ghost before: Protocol,
        ghost from: int)
      returns (partial: Option<Message>)
      requires Reading(was, base, before, from) && EventGiven(given.environment, from, Heard(), Start(message))
      modifies `script, `aborted, steeringQueue`batches, followUpQueue`batches,
               `messages, `streamingMessage, `pendingToolCalls, `log, `marks, `protocol, `context
      ensures Reading(partial, base, before, from) && partial == Some(message)
      ensures log == old(log) + [MessageStart(message)]
      ensures (old(aborted) ==> aborted) && Fuel() <= old(Fuel())
    {
      hide Running;
      partial := Some(message);
      context := context + [message];
      Emit(MessageStart(message));
    }

    method UpdatePartial(message: Message, was: Option<Message>, ghost base: seq<Message>, ghost before: Protocol,
        ghost from: int)
      returns (partial: Option<Message>)
      requires Reading(was, base, before, from) && EventGiven(given.environment, from, Heard(), Update(message))
      modifies `script, `aborted, steeringQueue`batches, followUpQueue`batches,
               `messages, `streamingMessage, `pendingToolCalls, `log, `marks, `protocol, `context
      ensures Reading(partial, base, before, from) && partial == if was.Some? then Some(message) else None
      ensures log == old(log) + if was.Some? then [MessageUpdate(message)] else []
      ensures (old(aborted) ==> aborted) && Fuel() <= old(Fuel())
    {
      hide Running;
      partial := was;
      if was.Some? {
        partial := Some(message);
        context := context[..|context| - 1] + [message];
        Emit(MessageUpdate(message));
      }
    }

    // Running tools

    /** Running, between messages, with the turn's other state as it was `before`. */
    ghost predicate Executing(calls: seq<Call>, before: Protocol)
      reads `aborted, `activeRun, `isStreaming, `log, `marks, `protocol, `messages, `transcript, `pendingToolCalls
      reads `script, `given, steeringQueue`batches, followUpQueue`batches
    {
      && Running() && protocol.final.None? && protocol.midTurn && !protocol.open && protocol.extra == before.extra
      && protocol.queues == before.queues
      && protocol.reply == before.reply && protocol.reply.Some? && protocol.reply.value.calls == calls
      && IdsRunning(calls, protocol.tools)
    }

    /** What has been heard since call `k` started lets it be where `entry` says. */
    ghost predicate StageAt(k: nat, entry: Entry)
      reads `log, `marks, `script, `given, `aborted
    {
      StageGiven(given.environment, Since(log, marks, k), Heard(), aborted, k, entry)
    }

    /** What has been heard since call `k` started gives the outcome. */
    ghost predicate OutcomeAt(k: nat, outcome: ToolOutcome)
      reads `log, `marks, `script, `given, `aborted
    {
      OutcomeGiven(given.environment, Since(log, marks, k), Heard(), aborted, k, outcome)
    }

    /** Calls other than `k` have started when they had, and more may have been heard. */
    twostate predicate KeepsStarts(k: int)
      reads `log, `marks, `script, `given, `aborted
    {
      && (forall j: nat :: j != k ==> Since(log, marks, j) == old(Since(log, marks, j)))
      && old(Heard()) <= Heard() <= |given.environment| && (old(aborted) ==> aborted)
    }

    /** `prepareToolCall`: an immediate outcome for an unknown, invalid, blocked or aborted call. */
    method PrepareToolCall(k: nat) returns (immediate: Option<ToolOutcome>)
      requires Running() && 0 <= Since(log, marks, k) <= Heard()
      modifies `script, `aborted, steeringQueue`batches, followUpQueue`batches
      ensures Running() && (old(aborted) ==> aborted) && Fuel() <= old(Fuel())
      ensures if immediate.Some? then OutcomeAt(k, immediate.value) else StageAt(k, InFlight)
      ensures immediate.None? <==> !old(aborted) && Allows(old(NextAnswer()))
      ensures old(Heard()) <= Heard() <= |given.environment|
    {
      hide Running;
      hide Since;
      hide AllowedIn;
      hide GivenIn;
      var heard := Hear();
      if heard.None? {
        return Some(ErrorOutcome("Request was aborted"));
      }
      var answer := heard.value;
      ghost var from := Since(log, marks, k);
      if Allows(answer) {
        AllowsGives(given.environment, from, Heard() - 1);
      } else {
        RefusesGives(given.environment, from, Heard() - 1, k, ErrorOutcome(OutcomeFor(answer, k).text));
      }
      immediate :=
        if answer.ending.Settles? && answer.flag then None else Some(ErrorOutcome(OutcomeFor(answer, k).text));
    }

    /** `finalizeExecutedToolCall`: the after hook may replace the outcome, or fail. */
    method FinalizeExecutedToolCall(k: nat, executed: ToolOutcome) returns (outcome: ToolOutcome)
      requires Running() && StageAt(k, Settled(executed))
      modifies `script, `aborted, steeringQueue`batches, followUpQueue`batches
      ensures Running() && (old(aborted) ==> aborted) && Fuel() <= old(Fuel())
      ensures OutcomeAt(k, outcome) && old(Heard()) <= Heard() <= |given.environment|
      ensures if old(aborted) || Cut(old(NextAnswer())) then outcome == ABORTED_OUTCOME
              else Finalizes(old(NextAnswer()), k, executed, outcome)
    {
      hide Running;
      hide Since;
      hide ExecutedIn;
      hide GivenIn;
      var heard := Hear();
      if heard.None? {
        return ErrorOutcome("Request was aborted");
      }
      var answer := heard.value;
      outcome := if answer.ending.Throws? then ErrorOutcome(OutcomeFor(answer, k).text)
                 else if answer.flag then OutcomeFor(answer, k) else executed;
      FinalizesGives(given.environment, Since(log, marks, k), Heard() - 1, k, executed, outcome);
    }

    /** What the running tool does next: an update, or its end, as its result, its error, or the abort. */
    method HearTool(k: nat) returns (executed: Option<ToolOutcome>)
      requires Running() && StageAt(k, InFlight)
      modifies `script, `aborted, steeringQueue`batches, followUpQueue`batches
      ensures Running() && (old(aborted) ==> aborted) && old(Heard()) <= Heard() <= |given.environment|
      ensures StageAt(k, if executed.Some? then Settled(executed.value) else InFlight)
      ensures !old(aborted) && !Cut(old(NextAnswer())) && !old(NextAnswer()).abort ==>
                if old(NextAnswer()).flag then executed.None?
                else executed.Some? && Executes(old(NextAnswer()), k, executed.value)
      ensures Fuel() < old(Fuel()) || (Fuel() <= old(Fuel()) && executed.Some?)
    {
      hide Running;
      hide Since;
      hide AllowedIn;
      hide ExecutedIn;
      hide Fuel;
      ghost var from := Since(log, marks, k);
      var heard := Hear();
      if heard.None? {
        return Some(ErrorOutcome("Tool execution aborted"));
      }
      var answer := heard.value;
      if answer.flag {
        StageLater(given.environment, from, old(Heard()), Heard(), old(aborted), aborted, k, InFlight);
        return None;
      }
      var result := OutcomeFor(answer, k);
      executed := Some(if answer.ending.Settles? then ToolOutcome(result.text, false, result.terminate)
                       else ErrorOutcome(if aborted then "Tool execution aborted" else result.text));
      if !aborted {
        ExecutesGives(given.environment, from, old(Heard()), k, executed.value);
      }
    }

    /** One thing a running tool does; an update is emitted. */
    method ToolStep(k: nat, id: string, ghost calls: seq<Call>, ghost before: Protocol)
        returns (executed: Option<ToolOutcome>)
      requires Executing(calls, before) && k in protocol.tools.running && k < |calls| && id == calls[k].id
      requires StageAt(k, InFlight)
      modifies `script, `aborted, steeringQueue`batches, followUpQueue`batches,
               `messages, `streamingMessage, `pendingToolCalls, `log, `marks, `protocol
      ensures Executing(calls, before) && protocol.tools == old(protocol.tools) && protocol.ends == old(protocol.ends)
      ensures protocol.toolWork == old(protocol.toolWork) && (old(aborted) ==> aborted)
      ensures StageAt(k, if executed.Some? then Settled(executed.value) else InFlight) && KeepsStarts(-1)
      ensures log == old(log) + if executed.None? then [ToolUpdate(k, id)] else []
      ensures Fuel() < old(Fuel()) || (Fuel() <= old(Fuel()) && executed.Some?)
    {
      hide Running;
      hide IdsRunning;
      hide Since;
      hide StageGiven;
      executed := HearTool(k);
      if executed.None? {
        EmitUpdate(k, id, calls, before);
      }
    }

    method EmitUpdate(k: nat, id: string, ghost calls: seq<Call>, ghost before: Protocol)
      requires Executing(calls, before) && k in protocol.tools.running && k < |calls| && id == calls[k].id
      requires StageAt(k, InFlight)
      modifies `script, `aborted, steeringQueue`batches, followUpQueue`batches,
               `messages, `streamingMessage, `pendingToolCalls, `log, `marks, `protocol
      ensures Executing(calls, before) && protocol.tools == old(protocol.tools) && protocol.ends == old(protocol.ends)
      ensures protocol.toolWork == old(protocol.toolWork) && (old(aborted) ==> aborted)
      ensures StageAt(k, InFlight) && KeepsStarts(-1) && Fuel() <= old(Fuel()) && log == old(log) + [ToolUpdate(k, id)]
    {
      assert |marks| == |log|;
      hide Running;
      hide IdsRunning;
      hide Since;
      hide AllowedIn;
      SinceAll(log, marks, ToolUpdate(k, id), Mark(Heard(), aborted));
      ToolEffect(protocol, ToolUpdate(k, id));
      hide After;
      Emit(ToolUpdate(k, id));
      StageLater(given.environment, Since(log, marks, k), old(Heard()), Heard(), old(aborted), aborted, k, InFlight);
    }

    /** Starts call `k` and prepares it. */
    method StartCall(calls: seq<Call>, k: nat, ghost before: Protocol) returns (immediate: Option<ToolOutcome>)
      requires Executing(calls, before) && k < |calls| && k !in protocol.tools.running && k !in protocol.tools.finished
      requires TakesTurns(calls) ==> protocol.tools.running == {}
      modifies `script, `aborted, steeringQueue`batches, followUpQueue`batches,
               `messages, `streamingMessage, `pendingToolCalls, `log, `marks, `protocol
      ensures Executing(calls, before) && protocol.tools.running == old(protocol.tools.running) + {k}
      ensures protocol.tools.finished == old(protocol.tools.finished) && protocol.ends == old(protocol.ends)
      ensures protocol.toolWork == old(protocol.toolWork) && (old(aborted) ==> aborted) && Fuel() <= old(Fuel())
      ensures if immediate.Some? then OutcomeAt(k, immediate.value) else StageAt(k, InFlight)
      ensures KeepsStarts(k) && old(Heard()) <= Since(log, marks, k) <= Heard()
    {
      assert |marks| == |log| && 0 <= Heard();
      hide Running;
      IdsStart(calls, protocol.tools, k);
      hide IdsRunning;
      hide Since;
      SinceAll(log, marks, ToolStart(k, calls[k].id), Mark(Heard(), aborted));
      ToolEffect(protocol, ToolStart(k, calls[k].id));
      hide After;
      Emit(ToolStart(k, calls[k].id));
      immediate := PrepareToolCall(k);
    }

    /** `emitToolExecutionEnd`, with an outcome given since the call's start. */
    method EndCall(calls: seq<Call>, k: nat, finalized: ToolOutcome, ghost before: Protocol)
      requires Executing(calls, before) && k < |calls| && k in protocol.tools.running && OutcomeAt(k, finalized)
      modifies `script, `aborted, steeringQueue`batches, followUpQueue`batches,
               `messages, `streamingMessage, `pendingToolCalls, `log, `marks, `protocol
      ensures Executing(calls, before) && protocol.tools.running == old(protocol.tools.running) - {k}
      ensures protocol.tools.finished == old(protocol.tools.finished)[k := finalized]
              && protocol.ends == old(protocol.ends)
      ensures protocol.toolWork == (old(protocol.toolWork) || !finalized.terminate) && (old(aborted) ==> aborted)
              && Fuel() <= old(Fuel())
      ensures KeepsStarts(-1)
    {
      assert |marks| == |log|;
      hide Running;
      IdsEnd(calls, protocol.tools, k, finalized);
      hide IdsRunning;
      hide Since;
      hide OutcomeGiven;
      SinceAll(log, marks, ToolEnd(k, calls[k].id, finalized), Mark(Heard(), aborted));
      ToolEffect(protocol, ToolEnd(k, calls[k].id, finalized));
      hide After;
      Emit(ToolEnd(k, calls[k].id, finalized));
    }

    /** `emitToolResultMessage`, once no call is running. */
    method EmitResult(result: Message, ghost calls: seq<Call>, ghost before: Protocol)
      requires Executing(calls, before) && protocol.tools.running == {}
      requires TakesTurns(calls) || AllFinished(protocol.tools.finished, |calls|)
      modifies `script, `aborted, steeringQueue`batches, followUpQueue`batches,
               `messages, `streamingMessage, `pendingToolCalls, `log, `marks, `protocol
      ensures Executing(calls, before) && protocol.tools == old(protocol.tools)
              && protocol.ends == old(protocol.ends) + [result]
      ensures protocol.toolWork == old(protocol.toolWork) && (old(aborted) ==> aborted) && Fuel() <= old(Fuel())
    {
      hide Running;
      hide IdsRunning;
      Emit(MessageStart(result));
      Emit(MessageEnd(result, FromTool));
    }

    /**
      Each result is that of its call, with the outcome its end announced, which answers since its start
      have given.
    */
    ghost predicate ResultsHeard(calls: seq<Call>, results: seq<Message>)
      reads `log, `marks, `given
    {
      forall k :: 0 <= k < |results| ==> ResultHeard(given.environment, log, marks, calls, k, results[k])
    }

    lemma ResultsAreHeard(calls: seq<Call>, results: seq<Message>, before: Protocol)
      requires Executing(calls, before) && ResultsOf(results, calls, protocol.tools.finished)
      ensures ResultsHeard(calls, results)
    {
      forall k | 0 <= k < |results|
        ensures ResultHeard(given.environment, log, marks, calls, k, results[k])
      {
        hide Follows;
        hide StateAfter;
        hide EndsGiven;
        hide Conserved;
        hide IdsRunning;
        ResultIsHeard(given.environment, log, marks, calls, k, results[k]);
      }
    }

    /** `executeToolCallsSequential`: one result for each call of a prefix of the calls, all of them unless aborted. */
    method ExecuteToolCallsSequential(calls: seq<Call>, ghost before: Protocol)
        returns (results: seq<Message>, terminate: bool)
      requires Executing(calls, before) && protocol.tools == NO_TOOLS && TakesTurns(calls)
      modifies `script, `aborted, steeringQueue`batches, followUpQueue`batches,
               `messages, `streamingMessage, `pendingToolCalls, `log, `marks, `protocol
      ensures Executing(calls, before) && protocol.tools.running == {} && protocol.ends == old(protocol.ends) + results
      ensures ResultsOf(results, calls, protocol.tools.finished) && AllFinished(protocol.tools.finished, |results|)
      ensures ResultsHeard(calls, results) && (|results| < |calls| ==> aborted)
      ensures protocol.toolWork == (old(protocol.toolWork) || (results != [] && !terminate))
              && (terminate ==> results != [])
      ensures (old(aborted) ==> aborted) && Fuel() <= old(Fuel())
    {
      results := [];
      var every := true;
      var k := 0;
      hide Executing;
      hide Fuel;
      while k < |calls| && !aborted
        invariant k == |results| && ResultsOf(results, calls, protocol.tools.finished)
                  && AllFinished(protocol.tools.finished, k)
        invariant Executing(calls, before) && protocol.tools.running == {}
                  && protocol.ends == old(protocol.ends) + results
        invariant protocol.toolWork == (old(protocol.toolWork) || !every) && (k == 0 ==> every)
        invariant (old(aborted) ==> aborted) && Fuel() <= old(Fuel())
      {
        var finalized := RunCall(calls, k, before);
        var result := ToolResultMessage(calls[k], finalized);
        EmitResult(result, calls, before);
        ghost var earlier := results;
        results := results + [result];
        assert old(protocol.ends) + earlier + [result] == old(protocol.ends) + results;
        every := every && finalized.terminate;
        k := k + 1;
      }
      terminate := |results| > 0 && every;
      ResultsAreHeard(calls, results, before);
    }

    /** Starts call `k`, runs it to its end, and ends it. */
    method RunCall(calls: seq<Call>, k: nat, ghost before: Protocol) returns (finalized: ToolOutcome)
      requires Executing(calls, before) && k < |calls| && protocol.tools.running == {} && k !in protocol.tools.finished
      modifies `script, `aborted, steeringQueue`batches, followUpQueue`batches,
               `messages, `streamingMessage, `pendingToolCalls, `log, `marks, `protocol
      ensures Executing(calls, before) && protocol.tools.running == {}
              && protocol.tools.finished == old(protocol.tools.finished)[k := finalized]
      ensures protocol.ends == old(protocol.ends)
              && protocol.toolWork == (old(protocol.toolWork) || !finalized.terminate)
      ensures (old(aborted) ==> aborted) && Fuel() <= old(Fuel())
    {
      hide Executing;
      hide StageAt;
      hide OutcomeAt;
      hide KeepsStarts;
      hide Fuel;
      var immediate := StartCall(calls, k, before);
      if immediate.Some? {
        finalized := immediate.value;
      } else {
        var executed := RunTool(calls, k, before);
        finalized := FinalizeWhile(k, executed, calls, before);
      }
      EndCall(calls, k, finalized, before);
    }

    /** Finalizes a call whose tool has run, and ends it. */
    method CloseCall(calls: seq<Call>, k: nat, executed: ToolOutcome, ghost before: Protocol)
        returns (finalized: ToolOutcome)
      requires Executing(calls, before) && k < |calls| && k in protocol.tools.running && StageAt(k, Settled(executed))
      modifies `script, `aborted, steeringQueue`batches, followUpQueue`batches,
               `messages, `streamingMessage, `pendingToolCalls, `log, `marks, `protocol
      ensures Executing(calls, before) && protocol.tools.running == old(protocol.tools.running) - {k}
      ensures protocol.tools.finished == old(protocol.tools.finished)[k := finalized]
              && protocol.ends == old(protocol.ends)
      ensures protocol.toolWork == (old(protocol.toolWork) || !finalized.terminate) && Fuel() <= old(Fuel())
      ensures KeepsStarts(-1)
    {
      hide Executing;
      hide Since;
      hide StageGiven;
      hide OutcomeGiven;
      hide Fuel;
      finalized := FinalizeWhile(k, executed, calls, before);
      EndCall(calls, k, finalized, before);
    }

    /** `executePreparedToolCall`. */
    method RunTool(calls: seq<Call>, k: nat, ghost before: Protocol) returns (executed: ToolOutcome)
      requires Executing(calls, before) && k in protocol.tools.running && k < |calls| && StageAt(k, InFlight)
      modifies `script, `aborted, steeringQueue`batches, followUpQueue`batches,
               `messages, `streamingMessage, `pendingToolCalls, `log, `marks, `protocol
      ensures Executing(calls, before) && protocol.tools == old(protocol.tools) && protocol.ends == old(protocol.ends)
      ensures protocol.toolWork == old(protocol.toolWork) && (old(aborted) ==> aborted) && Fuel() <= old(Fuel())
      ensures StageAt(k, Settled(executed))
    {
      hide Executing;
      hide StageAt;
      hide KeepsStarts;
      hide Fuel;
      var step: Option<ToolOutcome> := None;
      while step.None?
        invariant Executing(calls, before) && protocol.tools == old(protocol.tools)
                  && protocol.ends == old(protocol.ends)
        invariant protocol.toolWork == old(protocol.toolWork) && (old(aborted) ==> aborted) && Fuel() <= old(Fuel())
        invariant StageAt(k, if step.Some? then Settled(step.value) else InFlight)
        decreases Fuel(), step.None?
      {
        step := ToolStep(k, calls[k].id, calls, before);
      }
      executed := step.value;
    }

    /** Each call has been heard to where its entry says. */
    ghost predicate EntriesHeard(entries: seq<Entry>)
      reads `log, `marks, `script, `given, `aborted
    {
      StagesGiven(given.environment, log, marks, Heard(), aborted, entries)
    }

    /** The batch's calls are running or over as its entries say. */
    ghost predicate Underway(calls: seq<Call>, entries: seq<Entry>, before: Protocol)
      reads `aborted, `activeRun, `isStreaming, `log, `marks, `protocol, `messages, `transcript, `pendingToolCalls
      reads `script, `given, steeringQueue`batches, followUpQueue`batches
    {
      && Executing(calls, before) && protocol.ends == before.ends && |entries| <= |calls|
      && EntriesMatch(entries, protocol.tools) && EntriesHeard(entries)
      && protocol.toolWork == (before.toolWork || GoesOn(entries))
    }

    /** Starts and prepares every call in source order; an immediate outcome ends its call at once. */
    method PrepareAll(calls: seq<Call>, ghost before: Protocol) returns (entries: seq<Entry>)
      requires Underway(calls, [], before) && !TakesTurns(calls)
      modifies `script, `aborted, steeringQueue`batches, followUpQueue`batches,
               `messages, `streamingMessage, `pendingToolCalls, `log, `marks, `protocol
      ensures Underway(calls, entries, before) && |entries| == |calls|
      ensures (old(aborted) ==> aborted) && Fuel() <= old(Fuel())
    {
      entries := [];
      hide Underway;
      hide Fuel;
      for k := 0 to |calls|
        invariant |entries| == k && Underway(calls, entries, before)
        invariant (old(aborted) ==> aborted) && Fuel() <= old(Fuel())
      {
        entries := PrepareNext(calls, entries, before);
      }
    }

    method PrepareNext(calls: seq<Call>, was: seq<Entry>, ghost before: Protocol) returns (entries: seq<Entry>)
      requires Underway(calls, was, before) && |was| < |calls| && !TakesTurns(calls)
      modifies `script, `aborted, steeringQueue`batches, followUpQueue`batches,
               `messages, `streamingMessage, `pendingToolCalls, `log, `marks, `protocol
      ensures Underway(calls, entries, before) && |entries| == |was| + 1 && was <= entries
      ensures (old(aborted) ==> aborted) && Fuel() <= old(Fuel())
    {
      hide Executing;
      hide Fuel;
      hide EntriesMatch;
      hide Since;
      hide StageGiven;
      hide OutcomeGiven;
      hide StagesGiven;
      ghost var tools := protocol.tools;
      EntryIsNew(was, tools);
      var k := |was|;
      var immediate := StartCall(calls, k, before);
      var entry := InFlight;
      if immediate.Some? {
        EndCall(calls, k, immediate.value, before);
        entry := Over(immediate.value);
        OverIsGiven(given.environment, Since(log, marks, k), Heard(), aborted, k, immediate.value);
      }
      EntryAdded(was, entry, tools, protocol.tools);
      GoesOnAdded(was, entry);
      entries := was + [entry];
      StagesLater(given.environment, old(log), old(marks), old(Heard()), old(aborted), log, marks, Heard(), aborted,
        was);
      StagesWith(given.environment, log, marks, Heard(), aborted, was, entry);
    }

    /**
      `Promise.all` over the prepared calls. The environment picks which call takes its next step:
      an update, the end of its execution, or its finalization and its end event.
    */
    method RunAll(calls: seq<Call>, prepared: seq<Entry>, ghost before: Protocol) returns (entries: seq<Entry>)
      requires Underway(calls, prepared, before) && |prepared| == |calls|
      modifies `script, `aborted, steeringQueue`batches, followUpQueue`batches,
               `messages, `streamingMessage, `pendingToolCalls, `log, `marks, `protocol
      ensures Underway(calls, entries, before) && |entries| == |calls| && Work(entries) == 0
      ensures (old(aborted) ==> aborted) && Fuel() <= old(Fuel())
    {
      entries := prepared;
      hide Underway;
      hide Fuel;
      hide Work;
      while Work(entries) > 0
        invariant Underway(calls, entries, before) && |entries| == |calls|
        invariant (old(aborted) ==> aborted) && Fuel() <= old(Fuel())
        decreases Fuel(), Work(entries)
      {
        var answer := WaitWhile(calls, entries, before);
        var k := PickUnfinished(entries, answer.pick);
        entries := StepCall(calls, entries, k, before);
      }
    }

    method WaitWhile(ghost calls: seq<Call>, ghost entries: seq<Entry>, ghost before: Protocol)
        returns (answer: Answer)
      requires Underway(calls, entries, before)
      modifies `script, `aborted, steeringQueue`batches, followUpQueue`batches
      ensures Underway(calls, entries, before) && (old(aborted) ==> aborted) && Fuel() <= old(Fuel())
    {
      hide EntriesMatch;
      hide GoesOn;
      hide IdsRunning;
      hide Since;
      hide StagesGiven;
      assert 0 <= Heard();
      answer := WaitHeard();
      StagesLater(given.environment, log, marks, old(Heard()), old(aborted), log, marks, Heard(), aborted, entries);
    }

    method WaitHeard() returns (answer: Answer)
      requires Running()
      modifies `script, `aborted, steeringQueue`batches, followUpQueue`batches
      ensures Running() && (old(aborted) ==> aborted) && Fuel() <= old(Fuel())
      ensures old(Heard()) <= Heard() <= |given.environment|
    {
      hide Running;
      answer := Wait();
    }

    method StepCall(calls: seq<Call>, was: seq<Entry>, k: nat, ghost before: Protocol) returns (entries: seq<Entry>)
      requires Underway(calls, was, before) && |was| == |calls| && k < |was| && !was[k].Over?
      modifies `script, `aborted, steeringQueue`batches, followUpQueue`batches,
               `messages, `streamingMessage, `pendingToolCalls, `log, `marks, `protocol
      ensures Underway(calls, entries, before) && |entries| == |was|
      ensures Fuel() < old(Fuel()) || Work(entries) < Work(was)
      ensures (old(aborted) ==> aborted) && Fuel() <= old(Fuel())
    {
      hide Underway;
      hide Fuel;
      hide Work;
      if was[k].InFlight? {
        entries := StepTool(calls, was, k, before);
      } else {
        entries := FinishCall(calls, was, k, before);
      }
    }

    method StepTool(calls: seq<Call>, was: seq<Entry>, k: nat, ghost before: Protocol) returns (entries: seq<Entry>)
      requires Underway(calls, was, before) && |was| == |calls| && k < |was| && was[k].InFlight?
      modifies `script, `aborted, steeringQueue`batches, followUpQueue`batches,
               `messages, `streamingMessage, `pendingToolCalls, `log, `marks, `protocol
      ensures Underway(calls, entries, before) && |entries| == |was|
      ensures Fuel() < old(Fuel()) || Work(entries) < Work(was)
      ensures (old(aborted) ==> aborted) && Fuel() <= old(Fuel())
    {
      StageFrom(given.environment, log, marks, Heard(), aborted, was, k);
      EntryMatches(was, protocol.tools, k);
      hide Executing;
      hide EntriesMatch;
      hide Fuel;
      hide Work;
      hide Since;
      hide StageGiven;
      hide StagesGiven;
      var executed := ToolStep(k, calls[k].id, calls, before);
      StagesLater(given.environment, old(log), old(marks), old(Heard()), old(aborted), log, marks, Heard(), aborted,
        was);
      entries := was;
      if executed.Some? {
        var entry := Settled(executed.value);
        StageChanged(given.environment, log, marks, Heard(), aborted, was, k, entry);
        EntryChanged(was, k, entry, protocol.tools, protocol.tools);
        WorkAt(was, k, entry);
        GoesOnAt(was, k, entry);
        entries := was[k := entry];
      }
    }

    method FinishCall(calls: seq<Call>, was: seq<Entry>, k: nat, ghost before: Protocol) returns (entries: seq<Entry>)
      requires Underway(calls, was, before) && |was| == |calls| && k < |was| && was[k].Settled?
      modifies `script, `aborted, steeringQueue`batches, followUpQueue`batches,
               `messages, `streamingMessage, `pendingToolCalls, `log, `marks, `protocol
      ensures Underway(calls, entries, before) && |entries| == |was| && Work(entries) < Work(was)
      ensures (old(aborted) ==> aborted) && Fuel() <= old(Fuel())
    {
      StageFrom(given.environment, log, marks, Heard(), aborted, was, k);
      EntryMatches(was, protocol.tools, k);
      hide Executing;
      hide EntriesMatch;
      hide Fuel;
      hide Work;
      hide Since;
      hide StageGiven;
      hide StagesGiven;
      var finalized := CloseCall(calls, k, was[k].executed, before);
      var entry := Over(finalized);
      StagesLater(given.environment, old(log), old(marks), old(Heard()), old(aborted), log, marks, Heard(), aborted,
        was);
      OverIsGiven(given.environment, Since(log, marks, k), Heard(), aborted, k, finalized);
      StageChanged(given.environment, log, marks, Heard(), aborted, was, k, entry);
      EntryChanged(was, k, entry, old(protocol.tools), protocol.tools);
      WorkAt(was, k, entry);
      GoesOnAt(was, k, entry);
      entries := was[k := entry];
    }

    method FinalizeWhile(k: nat, executed: ToolOutcome, ghost calls: seq<Call>, ghost before: Protocol)
        returns (outcome: ToolOutcome)
      requires Executing(calls, before) && StageAt(k, Settled(executed))
      modifies `script, `aborted, steeringQueue`batches, followUpQueue`batches
      ensures Executing(calls, before) && (old(aborted) ==> aborted) && Fuel() <= old(Fuel())
      ensures OutcomeAt(k, outcome) && KeepsStarts(-1) && protocol == old(protocol)
    {
      hide Running;
      outcome := FinalizeExecutedToolCall(k, executed);
    }

    /** `executeToolCallsParallel`: after every call has ended, one result for each, in source order. */
    method ExecuteToolCallsParallel(calls: seq<Call>, ghost before: Protocol)
        returns (results: seq<Message>, terminate: bool)
      requires Executing(calls, before) && protocol.tools == NO_TOOLS && protocol.ends == before.ends
               && protocol.toolWork == before.toolWork && !TakesTurns(calls)
      modifies `script, `aborted, steeringQueue`batches, followUpQueue`batches,
               `messages, `streamingMessage, `pendingToolCalls, `log, `marks, `protocol
      ensures Executing(calls, before) && protocol.tools.running == {} && protocol.ends == before.ends + results
      ensures |results| == |calls| && ResultsOf(results, calls, protocol.tools.finished)
              && AllFinished(protocol.tools.finished, |calls|) && ResultsHeard(calls, results)
      ensures protocol.toolWork == (before.toolWork || (results != [] && !terminate)) && (terminate ==> results != [])
      ensures (old(aborted) ==> aborted) && Fuel() <= old(Fuel())
    {
      var prepared := PrepareAll(calls, before);
      var entries := RunAll(calls, prepared, before);
      WorkDone(entries, protocol.tools);
      results, terminate := EmitResults(calls, entries, before);
      ResultsAreHeard(calls, results, before);
    }

    method EmitResults(calls: seq<Call>, entries: seq<Entry>, ghost before: Protocol)
        returns (results: seq<Message>, terminate: bool)
      requires Executing(calls, before) && protocol.tools.running == {} && protocol.ends == before.ends
      requires |entries| == |calls| && AllOver(entries, protocol.tools.finished)
               && AllFinished(protocol.tools.finished, |calls|)
      modifies `script, `aborted, steeringQueue`batches, followUpQueue`batches,
               `messages, `streamingMessage, `pendingToolCalls, `log, `marks, `protocol
      ensures Executing(calls, before) && protocol.tools == old(protocol.tools)
              && protocol.ends == before.ends + results
      ensures |results| == |calls| && ResultsOf(results, calls, protocol.tools.finished)
      ensures protocol.toolWork == old(protocol.toolWork) && terminate == (results != [] && !GoesOn(entries))
      ensures (old(aborted) ==> aborted) && Fuel() <= old(Fuel())
    {
      results := [];
      var every := true;
      hide Executing;
      hide Fuel;
      for k := 0 to |entries|
        invariant k == |results| && ResultsOf(results, calls, protocol.tools.finished)
        invariant Executing(calls, before) && protocol.tools == old(protocol.tools)
                  && protocol.ends == before.ends + results
        invariant protocol.toolWork == old(protocol.toolWork) && every == !GoesOn(entries[..k])
        invariant (old(aborted) ==> aborted) && Fuel() <= old(Fuel())
      {
        var result := ToolResultMessage(calls[k], entries[k].finalized);
        EmitResult(result, calls, before);
        ghost var earlier := results;
        results := results + [result];
        assert before.ends + earlier + [result] == before.ends + results;
        assert entries[..k + 1] == entries[..k] + [entries[k]];
        GoesOnAdded(entries[..k], entries[k]);
        every := every && entries[k].finalized.terminate;
      }
      assert entries[..|entries|] == entries;
      terminate := |results| > 0 && every;
    }

    // The loop

    /** Between messages, with the loop's lists in step with the log. */
    ghost predicate Level()
      reads `aborted, `activeRun, `isStreaming, `log, `marks, `protocol, `messages, `transcript, `pendingToolCalls,
            `context,
            `newMessages
      reads `script, `given, steeringQueue`batches, followUpQueue`batches
    {
      Running() && protocol.final.None? && !protocol.open
        && InStep(transcript, context, newMessages, protocol.ends, protocol.extra)
    }

    /** Level, before a turn's response or after the turn. */
    ghost predicate AtRest()
      reads `aborted, `activeRun, `isStreaming, `log, `marks, `protocol, `messages, `transcript, `pendingToolCalls,
            `context,
            `newMessages
      reads `script, `given, steeringQueue`batches, followUpQueue`batches
    {
      Level() && protocol.tools == NO_TOOLS && protocol.reply.None?
    }

    /** At rest after the initial steering poll. */
    ghost predicate Between()
      reads `aborted, `activeRun, `isStreaming, `log, `marks, `protocol, `messages, `transcript, `pendingToolCalls,
            `context,
            `newMessages
      reads `script, `given, steeringQueue`batches, followUpQueue`batches
    {
      AtRest() && protocol.queues.polled
    }

    /** The run has emitted `agent_end` with every message of the run; unless aborted, nothing drained is missing. */
    ghost predicate Finished()
      reads `aborted, `activeRun, `isStreaming, `log, `marks, `protocol, `messages, `transcript, `pendingToolCalls,
            `context,
            `newMessages
      reads `script, `given, steeringQueue`batches, followUpQueue`batches
    {
      && Running() && protocol.final == Some(newMessages)
      && InStep(transcript, context, newMessages, protocol.ends, protocol.extra)
      && (!aborted ==> protocol.queues.drained == protocol.queues.injected) && protocol.turned
    }

    /** The last answer is that of a hook that asks to stop. */
    ghost predicate LastAskedToStop()
      reads `script, `given
    {
      0 < Heard() <= |given.environment| && Asked(given.environment[Heard() - 1]).Ended?
    }

    /** Ends the run: it is aborted, the hook just heard has asked it to stop, or that has been decided already. */
    method EndRun(ghost asked: bool) returns (flow: Flow)
      requires Between() && (!aborted ==> protocol.queues.drained == protocol.queues.injected)
      requires asked ==> LastAskedToStop()
      requires protocol.turned && (aborted || asked || protocol.boundary.NothingMore? || protocol.boundary.Stopped?)
      modifies `script, `aborted, steeringQueue`batches, followUpQueue`batches,
               `messages, `streamingMessage, `pendingToolCalls, `log, `marks, `protocol
      ensures Finished() && flow == Ended
      ensures (old(aborted) ==> aborted) && Fuel() <= old(Fuel())
    {
      hide Running;
      hide Fuel;
      if !protocol.boundary.NothingMore? && !protocol.boundary.Stopped? {
        QuietEffect(protocol, Stopping(aborted, asked));
        Record(Stopping(aborted, asked));
      }
      Emit(AgentEnd(newMessages));
      flow := Ended;
    }

    function Queue(source: Source): PendingMessageQueue {
      if source.Steering? then steeringQueue else followUpQueue
    }

    /** What the next poll of a queue is in the log: the queue's drain, unless it is to be skipped. */
    function NextPoll(source: Source): (event: Event)
      reads `skipInitialSteeringPoll, steeringQueue`batches, steeringQueue`mode, followUpQueue`batches,
            followUpQueue`mode
    {
      if source.Steering? && skipInitialSteeringPoll then SkippedPoll
      else Polled(source, Taken(Queue(source).batches, Queue(source).mode),
        Rest(Queue(source).batches, Queue(source).mode))
    }

    /**
      `pollMessagesUnlessAborted` on a queue: its drain, which is empty only if the queue is or the
      poll is skipped. Messages drained when the abort comes first are lost.
    */
    method Poll(source: Source) returns (polled: seq<Message>, threw: bool)
      requires AtRest() && (source.FollowUp? && !aborted ==> protocol.boundary.NoSteering? && !protocol.toolWork)
      requires source.Steering? && skipInitialSteeringPoll ==> aborted || !protocol.queues.polled
      requires protocol.queues.drained == protocol.queues.injected
      modifies `script, `aborted, steeringQueue`batches, followUpQueue`batches, `log, `marks, `protocol,
               `skipInitialSteeringPoll
      ensures AtRest() && (old(aborted) ==> aborted) && Fuel() <= old(Fuel())
      ensures !old(aborted) || old(protocol.queues.polled) ==> Between()
      ensures threw ==> aborted && !old(aborted)
      ensures !threw ==> protocol.queues.drained == protocol.queues.injected + polled
      ensures protocol.toolWork == old(protocol.toolWork) && protocol.turned == old(protocol.turned)
              && protocol.midTurn == old(protocol.midTurn)
      ensures !old(aborted) ==> script == Later(old(script))
      ensures old(aborted) ==> polled == [] && log == old(log) && protocol == old(protocol)
      ensures !old(aborted) ==> log == old(log) + [old(NextPoll(source))] && polled == PolledBy(old(NextPoll(source)))
      ensures !old(aborted) && !(source.Steering? && old(skipInitialSteeringPoll)) ==>
                && (polled == [] <==> old(Queue(source).batches) == [])
                && protocol.boundary == if polled != [] then Fed else if source.Steering? then NoSteering
                   else NoFollowUp
      ensures skipInitialSteeringPoll ==> old(skipInitialSteeringPoll) && (source.Steering? ==> aborted)
    {
      hide Running;
      hide Fuel;
      hide InStep;
      hide NextPoll;
      hide PolledBy;
      if aborted {
        assert protocol.queues.injected + [] == protocol.queues.injected;
        return [], false;
      }
      polled := PollQueue(source);
      threw := WaitForPoll();
    }

    /** The poll's drain. */
    method PollQueue(source: Source) returns (polled: seq<Message>)
      requires AtRest() && (source.FollowUp? ==> protocol.boundary.NoSteering? && !protocol.toolWork)
      requires source.Steering? && skipInitialSteeringPoll ==> !protocol.queues.polled
      modifies steeringQueue`batches, followUpQueue`batches, `log, `marks, `protocol, `skipInitialSteeringPoll
      ensures Between() && protocol.queues.injected == old(protocol.queues.injected)
              && protocol.queues.drained == old(protocol.queues.drained) + polled
      ensures protocol.toolWork == old(protocol.toolWork) && protocol.turned == old(protocol.turned)
              && protocol.midTurn == old(protocol.midTurn)
      ensures log == old(log) + [old(NextPoll(source))] && polled == PolledBy(old(NextPoll(source)))
      ensures !(source.Steering? && old(skipInitialSteeringPoll)) ==>
                && (polled == [] <==> old(Queue(source).batches) == [])
                && protocol.boundary == if polled != [] then Fed else if source.Steering? then NoSteering
                   else NoFollowUp
      ensures skipInitialSteeringPoll <==> old(skipInitialSteeringPoll) && source.FollowUp?
    {
      PollGives(source);
      hide Running;
      hide InStep;
      hide After;
      hide NextPoll;
      hide PolledBy;
      polled := DrainQueue(source);
    }

    /** The wait for the drained messages. */
    method WaitForPoll() returns (threw: bool)
      requires Between()
      modifies `script, `aborted, steeringQueue`batches, followUpQueue`batches
      ensures Between() && (old(aborted) ==> aborted) && (threw ==> aborted) && Fuel() <= old(Fuel())
              && script == Later(old(script))
    {
      hide Running;
      hide Fuel;
      var answer := Wait();
      threw := answer.abort && answer.abortFirst;
    }

    /** A poll changes nothing but the queues and the boundary, which says whether the queue was empty. */
    lemma PollGives(source: Source)
      requires NoneEmpty(steeringQueue.batches) && NoneEmpty(followUpQueue.batches)
      ensures var event := NextPoll(source);
              var q := After(protocol, event);
              && (q.ends, q.open, q.extra, q.reply, q.tools, q.toolWork)
                 == (protocol.ends, protocol.open, protocol.extra, protocol.reply, protocol.tools, protocol.toolWork)
              && q.final == protocol.final && q.turned == protocol.turned && q.midTurn == protocol.midTurn
              && q.queues.polled
              && q.queues.drained == protocol.queues.drained + PolledBy(event)
              && q.queues.injected == protocol.queues.injected
              && (!(source.Steering? && skipInitialSteeringPoll) ==>
                    && (PolledBy(event) == [] <==> Queue(source).batches == [])
                    && q.boundary == if PolledBy(event) != [] then Fed else if source.Steering? then NoSteering
                       else NoFollowUp)
    {
      FlatEmpty(Taken(Queue(source).batches, Queue(source).mode));
      hide Flat;
    }

    /** The queue's drain, as the loop's configuration calls it, and its entry in the log. */
    method DrainQueue(source: Source) returns (polled: seq<Message>)
      requires Running() && protocol.final.None?
               && (source.FollowUp? ==> protocol.boundary.NoSteering? && !protocol.toolWork)
      requires source.Steering? && skipInitialSteeringPoll ==> !protocol.queues.polled
      modifies Queue(source)`batches, `log, `marks, `protocol, `skipInitialSteeringPoll
      ensures Running() && log == old(log) + [old(NextPoll(source))]
              && protocol == After(old(protocol), old(NextPoll(source)))
      ensures polled == PolledBy(old(NextPoll(source)))
      ensures !(source.Steering? && old(skipInitialSteeringPoll)) ==>
                (polled == [] <==> old(Queue(source).batches) == [])
                  && Queue(source).batches == old(Rest(Queue(source).batches, Queue(source).mode))
      ensures source.Steering? && old(skipInitialSteeringPoll) ==> Queue(source).batches == old(Queue(source).batches)
      ensures skipInitialSteeringPoll <==> old(skipInitialSteeringPoll) && source.FollowUp?
    {
      ghost var event := NextPoll(source);
      hide Follows;
      hide StateAfter;
      hide AllKept;
      hide AllInTurn;
      hide EndsGiven;
      PollEffect(protocol, event);
      hide After;
      polled := TakeBatches(source);
      hide NextPoll;
      hide QueuesAfter;
      hide IsPoll;
      LogPoll(event);
    }

    /** Adds a poll to the log. */
    ghost method LogPoll(event: Event)
      requires Follows(log) && protocol == StateAfter(log) && Allowed(protocol, event)
      requires EndsGiven(given.environment, log, marks) && AllInTurn(log) && (event.Polled? || event.SkippedPoll?)
      modifies `log, `marks, `protocol
      ensures Follows(log) && protocol == StateAfter(log) && EndsGiven(given.environment, log, marks) && AllInTurn(log)
      ensures log == old(log) + [event] && protocol == After(old(protocol), event)
              && marks == old(marks) + [Mark(Heard(), aborted)]
    {
      FollowsMore(log, event);
      InTurnMore(log, event);
      EndsGivenOther(given.environment, log, marks, event, Mark(Heard(), aborted));
      hide *;
      log, marks, protocol := log + [event], marks + [Mark(Heard(), aborted)], After(protocol, event);
    }

    /** `getSteeringMessages`, `getFollowUpMessages`. */
    method TakeBatches(source: Source) returns (polled: seq<Message>)
      requires Conserved()
      modifies Queue(source)`batches, `skipInitialSteeringPoll
      ensures var event, q := old(NextPoll(source)), QueuesAfter(protocol.queues, old(NextPoll(source)));
              && polled == PolledBy(event)
              && (event.Polled? ==> IsPoll(ChannelOf(protocol.queues, source), event.taken, event.left))
              && AllKept(given, script, q.steering, q.followUp, steeringQueue.batches, followUpQueue.batches)
      ensures !(source.Steering? && old(skipInitialSteeringPoll)) ==>
                (polled == [] <==> old(Queue(source).batches) == [])
                  && Queue(source).batches == old(Rest(Queue(source).batches, Queue(source).mode))
      ensures source.Steering? && old(skipInitialSteeringPoll) ==> Queue(source).batches == old(Queue(source).batches)
      ensures skipInitialSteeringPoll <==> old(skipInitialSteeringPoll) && source.FollowUp?
    {
      hide AllKept;
      if source.Steering? && skipInitialSteeringPoll {
        skipInitialSteeringPoll := false;
        polled := [];
      } else {
        PollKeeps(given, script, protocol.queues, source, steeringQueue.batches, followUpQueue.batches,
          Queue(source).mode);
        hide IsPoll;
        polled := Queue(source).Drain();
      }
    }

    /** Injects the pending messages before the next response. */
    method InjectPending(pending: seq<Message>)
      requires Between() && protocol.queues.drained == protocol.queues.injected + pending
      modifies `script, `aborted, steeringQueue`batches, followUpQueue`batches,
               `messages, `streamingMessage, `pendingToolCalls, `log, `marks, `protocol, `context, `newMessages
      ensures Between() && protocol.queues.drained == protocol.queues.injected
              && protocol.toolWork == old(protocol.toolWork) && protocol.midTurn == old(protocol.midTurn)
      ensures (old(aborted) ==> aborted) && Fuel() <= old(Fuel())
    {
      hide Running;
      hide Fuel;
      assert pending[0..] == pending;
      for i := 0 to |pending|
        invariant Between() && protocol.queues.drained == protocol.queues.injected + pending[i..]
                  && protocol.toolWork == old(protocol.toolWork) && protocol.midTurn == old(protocol.midTurn)
        invariant (old(aborted) ==> aborted) && Fuel() <= old(Fuel())
      {
        assert pending[i..] == [pending[i]] + pending[i + 1..];
        Inject(pending[i], pending[i + 1..]);
      }
    }

    method Inject(message: Message, ghost more: seq<Message>)
      requires Between() && protocol.queues.drained == protocol.queues.injected + ([message] + more)
      modifies `script, `aborted, steeringQueue`batches, followUpQueue`batches,
               `messages, `streamingMessage, `pendingToolCalls, `log, `marks, `protocol, `context, `newMessages
      ensures Between() && protocol.queues.drained == protocol.queues.injected + more
              && protocol.toolWork == old(protocol.toolWork) && protocol.midTurn == old(protocol.midTurn)
      ensures (old(aborted) ==> aborted) && Fuel() <= old(Fuel())
    {
      hide Running;
      hide Fuel;
      hide Since;
      hide OutcomeGiven;
      InjectEffect(protocol, message);
      Regroup(protocol.queues.injected, [message], more);
      StepMore(transcript, context, newMessages, protocol.ends, protocol.extra, message);
      hide InStep;
      hide After;
      hide Allowed;
      Emit(MessageStart(message));
      Emit(MessageEnd(message, FromQueue));
      context := context + [message];
      newMessages := newMessages + [message];
    }

    /** `executeToolCalls`: in sequence if the agent or one of the tools asks for it, else in parallel. */
    method ExecuteToolCalls(calls: seq<Call>, ghost before: Protocol) returns (results: seq<Message>, terminate: bool)
      requires Executing(calls, before) && protocol.tools == NO_TOOLS && protocol.ends == before.ends
               && protocol.toolWork == before.toolWork
      modifies `script, `aborted, steeringQueue`batches, followUpQueue`batches,
               `messages, `streamingMessage, `pendingToolCalls, `log, `marks, `protocol
      ensures Executing(calls, before) && protocol.tools.running == {} && protocol.ends == before.ends + results
      ensures ResultsOf(results, calls, protocol.tools.finished) && AllFinished(protocol.tools.finished, |results|)
      ensures ResultsHeard(calls, results) && (|results| < |calls| ==> aborted)
      ensures protocol.toolWork == (before.toolWork || (results != [] && !terminate)) && (terminate ==> results != [])
      ensures (old(aborted) ==> aborted) && Fuel() <= old(Fuel())
    {
      hide Executing;
      hide Fuel;
      if sequential || exists call :: call in calls && call.name in sequentialTools {
        results, terminate := ExecuteToolCallsSequential(calls, before);
      } else {
        results, terminate := ExecuteToolCallsParallel(calls, before);
      }
    }

    /** Streams the response and takes it into the new messages. */
    method Respond() returns (response: Response)
      requires Between() && protocol.queues.drained == protocol.queues.injected && protocol.midTurn
      modifies `script, `aborted, steeringQueue`batches, followUpQueue`batches,
               `messages, `streamingMessage, `pendingToolCalls, `log, `marks, `protocol, `context, `newMessages
      ensures Running() && protocol.final.None? && protocol.queues == old(protocol.queues)
      ensures response.Returned? ==>
                && Level() && protocol.tools == NO_TOOLS && protocol.reply == Some(response.message)
                && protocol.toolWork == old(protocol.toolWork) && protocol.midTurn
                && protocol.ends == old(protocol.ends) + [response.message]
      ensures (old(aborted) ==> aborted) && Fuel() <= old(Fuel())
      ensures response.Returned? ==> Fuel() < old(Fuel()) || old(Fuel()) == 0
    {
      hide Running;
      hide Fuel;
      ghost var before, base := protocol, context;
      ghost var partial;
      response, partial := StreamAssistantResponse();
      if response.Returned? {
        TakeIn(transcript, base, newMessages, before, response.message, context, protocol);
        hide InStep;
        newMessages := newMessages + [response.message];
      }
    }

    /**
      Runs the response's tools and takes their results into the context: one for each call, in order,
      unless aborted.
    */
    method RunTools(message: Message) returns (results: seq<Message>, hasMoreToolCalls: bool)
      requires Level() && protocol.tools == NO_TOOLS && protocol.reply == Some(message) && message.stop.Normal?
      requires protocol.queues.drained == protocol.queues.injected && !protocol.toolWork && protocol.midTurn
      modifies `script, `aborted, steeringQueue`batches, followUpQueue`batches,
               `messages, `streamingMessage, `pendingToolCalls, `log, `marks, `protocol, `context, `newMessages
      ensures Level() && protocol.reply == Some(message) && protocol.tools.running == {} && protocol.tools.ids == {}
              && protocol.midTurn
      ensures protocol.ends == old(protocol.ends) + results
              && Answers(results, message, protocol.tools.finished, aborted) && ResultsHeard(message.calls, results)
      ensures (protocol.toolWork ==> hasMoreToolCalls) && (hasMoreToolCalls ==> protocol.toolWork || aborted)
      ensures protocol.queues == old(protocol.queues)
      ensures (old(aborted) ==> aborted) && Fuel() <= old(Fuel())
    {
      hide Running;
      hide Fuel;
      hide ResultsOf;
      hide AllFinished;
      results, hasMoreToolCalls := [], false;
      if |message.calls| == 0 {
        NoneAnswer(message, aborted);
      } else {
        ghost var before := protocol;
        var terminate;
        results, terminate := ExecuteToolCalls(message.calls, before);
        hasMoreToolCalls := !terminate;
        NoIds(message.calls, protocol.tools);
        TakeResults(transcript, context, newMessages, before, results, protocol);
        hide InStep;
        context := context + results;
        newMessages := newMessages + results;
      }
    }

    /** The inner loop's body up to `turn_end`. */
    method Turn(firstTurn: bool, pending: seq<Message>) returns (flow: Flow, hasMoreToolCalls: bool)
      requires Between() && protocol.queues.drained == protocol.queues.injected + pending && !aborted
      requires protocol.midTurn <==> firstTurn
      requires if firstTurn then !protocol.toolWork
               else protocol.boundary.Fed? || (protocol.boundary.NoSteering? && protocol.toolWork)
      modifies `script, `aborted, steeringQueue`batches, followUpQueue`batches,
               `messages, `streamingMessage, `pendingToolCalls, `log, `marks, `protocol, `context, `newMessages
      ensures flow.Going? ==>
              Between() && protocol.turned && !protocol.midTurn && protocol.queues.drained == protocol.queues.injected
                && Fuel() < old(Fuel())
      ensures flow.Going? ==>
              (protocol.toolWork ==> hasMoreToolCalls) && (hasMoreToolCalls ==> protocol.toolWork || aborted)
      ensures flow.Ended? ==> Finished()
      ensures flow.Failed? ==> Running() && protocol.final.None?
      ensures Fuel() <= old(Fuel())
    {
      hasMoreToolCalls := false;
      ghost var fuel := Fuel();
      assert fuel > 0;
      hide Running;
      hide Fuel;
      hide InStep;
      BeginTurn(firstTurn, pending);
      ghost var earlier := protocol.ends;
      var response := Respond();
      if response.Broken? {
        return Failed, false;
      }
      flow, hasMoreToolCalls := FinishTurn(response.message, earlier);
    }

    method BeginTurn(firstTurn: bool, pending: seq<Message>)
      requires Between() && protocol.queues.drained == protocol.queues.injected + pending
      requires protocol.midTurn <==> firstTurn
      requires if firstTurn then !protocol.toolWork
               else protocol.boundary.Fed? || (protocol.boundary.NoSteering? && protocol.toolWork)
      modifies `script, `aborted, steeringQueue`batches, followUpQueue`batches,
               `messages, `streamingMessage, `pendingToolCalls, `log, `marks, `protocol, `context, `newMessages
      ensures Between() && protocol.queues.drained == protocol.queues.injected && !protocol.toolWork
              && protocol.midTurn
      ensures (old(aborted) ==> aborted) && Fuel() <= old(Fuel())
    {
      hide Running;
      hide Fuel;
      hide InStep;
      if !firstTurn {
        Emit(TurnStart);
        QuietEffect(old(protocol), TurnStart);
      }
      hide After;
      InjectPending(pending);
    }

    /** A failed response ends the run with its turn; any other has its tools run. */
    method FinishTurn(message: Message, ghost earlier: seq<Message>) returns (flow: Flow, hasMoreToolCalls: bool)
      requires Level() && protocol.tools == NO_TOOLS && protocol.reply == Some(message)
               && protocol.ends == earlier + [message]
      requires protocol.queues.polled && protocol.queues.drained == protocol.queues.injected && !protocol.toolWork
               && protocol.midTurn
      modifies `script, `aborted, steeringQueue`batches, followUpQueue`batches,
               `messages, `streamingMessage, `pendingToolCalls, `log, `marks, `protocol, `context, `newMessages
      ensures flow == if message.stop.Normal? then Going else Ended
      ensures flow.Going? ==>
              Between() && protocol.turned && !protocol.midTurn && protocol.queues.drained == protocol.queues.injected
      ensures flow.Going? ==>
              (protocol.toolWork ==> hasMoreToolCalls) && (hasMoreToolCalls ==> protocol.toolWork || aborted)
      ensures flow.Ended? ==> Finished()
      ensures Fuel() <= old(Fuel())
    {
      hide Running;
      hide Fuel;
      hide InStep;
      hide AllFinished;
      if message.stop.Error? || message.stop.Aborted? {
        NoneAnswer(message, aborted);
        LastOnes(earlier, message, []);
        EndTurn(message, []);
        hasMoreToolCalls := false;
        flow := EndRun(false);
        return;
      }
      var results;
      results, hasMoreToolCalls := RunTools(message);
      LastOnes(earlier, message, results);
      EndTurn(message, results);
      flow := Going;
    }

    method EndTurn(message: Message, results: seq<Message>)
      requires Level() && protocol.reply == Some(message) && protocol.tools.running == {} && protocol.tools.ids == {}
               && protocol.midTurn
      requires protocol.queues.polled && EndsWith(protocol.ends, [message] + results)
               && Answers(results, message, protocol.tools.finished, aborted)
      modifies `script, `aborted, steeringQueue`batches, followUpQueue`batches,
               `messages, `streamingMessage, `pendingToolCalls, `log, `marks, `protocol
      ensures Between() && protocol.queues == old(protocol.queues) && protocol.toolWork == old(protocol.toolWork)
      ensures protocol.turned && !protocol.midTurn && protocol.boundary == if message.stop.Normal? then Busy
              else Stopped
      ensures (old(aborted) ==> aborted) && Fuel() <= old(Fuel())
    {
      hide Running;
      hide Fuel;
      Emit(TurnEnd(message, results, aborted));
    }

    /** `shouldStopBeforeTurn`, a synchronous hook. */
    method AskToStop() returns (stop: bool, threw: bool)
      requires Running()
      modifies `script, `aborted, steeringQueue`batches, followUpQueue`batches
      ensures Running() && (old(aborted) ==> aborted) && Fuel() <= old(Fuel())
      ensures stop && !threw ==> LastAskedToStop()
      ensures Hears(old(NextAnswer())) && stop == old(NextAnswer()).flag && threw == old(NextAnswer()).ending.Throws?
    {
      NextIsGiven(given.environment, script);
      hide Running;
      hide Fuel;
      var answer := Wait();
      stop, threw := answer.flag, answer.ending.Throws?;
    }

    /** The inner loop's body after `turn_end`: whether to stop, and the steering messages if not. */
    method AfterTurn() returns (flow: Flow, polled: seq<Message>)
      requires Between() && protocol.queues.drained == protocol.queues.injected && protocol.turned
               && !skipInitialSteeringPoll && !protocol.midTurn
      modifies `script, `aborted, steeringQueue`batches, followUpQueue`batches,
               `messages, `streamingMessage, `pendingToolCalls, `log, `marks, `protocol, `skipInitialSteeringPoll
      ensures flow.Going? ==>
              Between() && protocol.queues.drained == protocol.queues.injected + polled
                && protocol.toolWork == old(protocol.toolWork)
      ensures !aborted ==> flow == AfterTurnFlow(old(script), old(steeringQueue.batches) != [])
      ensures flow.Going? ==> !old(aborted) && protocol.turned && !protocol.midTurn && !skipInitialSteeringPoll
      ensures flow.Going? ==> if polled == [] then aborted || protocol.boundary.NoSteering? else protocol.boundary.Fed?
      ensures flow.Ended? ==> Finished()
      ensures flow.Failed? ==> Running() && protocol.final.None?
      ensures Fuel() <= old(Fuel())
    {
      hide Running;
      hide Fuel;
      hide InStep;
      hide NextPoll;
      hide PolledBy;
      polled := [];
      flow := StopAfterTurn();
      if !flow.Going? {
        return;
      }
      flow := StopBeforeTurn();
      if !flow.Going? {
        return;
      }
      var threw;
      polled, threw := Poll(Steering);
      if threw {
        flow := EndRun(false);
        return;
      }
      assert protocol.queues.injected + [] == protocol.queues.injected;
      if |polled| == 0 {
        flow := StopBeforeTurn();
      }
    }

    /** `shouldStopAfterTurn`, and the abort. */
    method StopAfterTurn() returns (flow: Flow)
      requires Between() && protocol.turned && protocol.queues.drained == protocol.queues.injected
      modifies `script, `aborted, steeringQueue`batches, followUpQueue`batches,
               `messages, `streamingMessage, `pendingToolCalls, `log, `marks, `protocol
      ensures !aborted ==> flow == Asked(old(NextAnswer()))
      ensures flow.Going? ==> Between() && protocol == old(protocol) && !old(aborted) && Hears(old(NextAnswer()))
      ensures flow.Ended? ==> Finished()
      ensures flow.Failed? ==> Running() && protocol.final.None?
      ensures (old(aborted) ==> aborted) && Fuel() <= old(Fuel())
    {
      hide Running;
      hide Fuel;
      hide InStep;
      if aborted {
        flow := EndRun(false);
        return;
      }
      var raced := Race();
      if raced.Threw? && !(aborted && raced.isAbort) {
        return Failed;
      }
      flow := Going;
      if raced.Threw? || raced.answer.flag {
        flow := EndRun(raced.Value? && raced.answer.flag);
      }
    }

    /** Stops the run if the hook says so. */
    method StopBeforeTurn() returns (flow: Flow)
      requires Between() && protocol.turned && protocol.queues.drained == protocol.queues.injected
      modifies `script, `aborted, steeringQueue`batches, followUpQueue`batches,
               `messages, `streamingMessage, `pendingToolCalls, `log, `marks, `protocol
      ensures flow == Asked(old(NextAnswer()))
      ensures flow.Going? ==> Between() && protocol == old(protocol) && Hears(old(NextAnswer()))
      ensures flow.Ended? ==> Finished()
      ensures flow.Failed? ==> Running() && protocol.final.None?
      ensures (old(aborted) ==> aborted) && Fuel() <= old(Fuel())
    {
      hide Running;
      hide Fuel;
      hide InStep;
      var stop, threw := AskToStop();
      if threw {
        return Failed;
      }
      flow := Going;
      if stop {
        flow := EndRun(stop);
      }
    }

    /** The outer loop's tail: follow-ups, and then, only without any, continuation messages. */
    method FindMore() returns (flow: Flow, polled: seq<Message>)
      requires Between() && protocol.queues.drained == protocol.queues.injected && protocol.turned
               && !skipInitialSteeringPoll && !protocol.midTurn
      requires aborted || (protocol.boundary.NoSteering? && !protocol.toolWork)
      modifies `script, `aborted, steeringQueue`batches, followUpQueue`batches,
               `messages, `streamingMessage, `pendingToolCalls, `log, `marks, `protocol, `skipInitialSteeringPoll
      ensures flow.Going? ==>
              Between() && protocol.queues.drained == protocol.queues.injected + polled && polled != []
                && protocol.boundary.Fed?
      ensures !aborted ==> flow == FindMoreFlow(old(script), old(followUpQueue.batches) != [])
      ensures flow.Going? ==> protocol.turned && !protocol.midTurn && !skipInitialSteeringPoll
      ensures flow.Ended? ==> Finished()
      ensures flow.Failed? ==> Running() && protocol.final.None?
      ensures Fuel() <= old(Fuel())
    {
      hide Running;
      hide Fuel;
      hide InStep;
      polled := [];
      flow := StopBeforeTurn();
      if !flow.Going? {
        return;
      }
      var threw;
      polled, threw := Poll(FollowUp);
      if threw {
        flow := EndRun(false);
        return;
      }
      if |polled| > 0 {
        return;
      }
      assert protocol.queues.injected + [] == protocol.queues.injected;
      flow := StopBeforeTurn();
      if flow.Going? {
        flow, polled := AskForMore();
      }
    }

    /** `getContinuationMessages`. */
    method AskForMore() returns (flow: Flow, polled: seq<Message>)
      requires Between() && protocol.turned && protocol.queues.drained == protocol.queues.injected
               && (aborted || protocol.boundary.NoFollowUp?)
      modifies `script, `aborted, steeringQueue`batches, followUpQueue`batches,
               `messages, `streamingMessage, `pendingToolCalls, `log, `marks, `protocol
      ensures flow.Going? ==>
              Between() && protocol.queues.drained == protocol.queues.injected + polled && polled != []
                && protocol.boundary.Fed?
      ensures flow.Going? ==>
              protocol.turned && protocol.midTurn == old(protocol.midTurn) && polled == old(NextAnswer()).messages
      ensures !aborted ==> flow == if old(NextAnswer()).ending.Throws? then Failed
              else if old(NextAnswer()).messages == [] then Ended else Going
      ensures flow.Ended? ==> Finished()
      ensures flow.Failed? ==> Running() && protocol.final.None?
      ensures (old(aborted) ==> aborted) && Fuel() <= old(Fuel())
    {
      hide Running;
      hide Fuel;
      hide InStep;
      hide After;
      polled := [];
      QuietEffect(protocol, AskedToContinue(aborted));
      Record(AskedToContinue(aborted));
      var raced := Race();
      if raced.Value? {
        polled := raced.answer.messages;
        flow := TakeContinuation(polled);
      } else if aborted && raced.isAbort {
        flow := EndRun(false);
      } else {
        flow := Failed;
      }
    }

    method TakeContinuation(polled: seq<Message>) returns (flow: Flow)
      requires Between() && protocol.turned && protocol.queues.drained == protocol.queues.injected
               && protocol.boundary.Asking?
      modifies `script, `aborted, steeringQueue`batches, followUpQueue`batches,
               `messages, `streamingMessage, `pendingToolCalls, `log, `marks, `protocol
      ensures flow == if polled == [] then Ended else Going
      ensures (old(aborted) ==> aborted) && protocol.turned
              && (flow.Going? ==> protocol.midTurn == old(protocol.midTurn))
      ensures flow.Going? ==>
              Between() && protocol.queues.drained == protocol.queues.injected + polled && protocol.boundary.Fed?
      ensures flow.Ended? ==> Finished()
      ensures Fuel() <= old(Fuel())
    {
      hide Running;
      hide Fuel;
      hide InStep;
      hide After;
      QuietEffect(protocol, Continued(polled));
      Record(Continued(polled));
      assert protocol.queues.injected + [] == protocol.queues.injected;
      flow := Going;
      if |polled| == 0 {
        flow := EndRun(false);
      }
    }

    /** Notes in the log what is not emitted. */
    ghost method Record(event: Event)
      requires Running() && Allowed(protocol, event) && (TellsAbort(event) ==> aborted)
      requires event.AskedToContinue? || event.Continued? || event.Stopping?
      modifies `log, `marks, `protocol
      ensures Running() && log == old(log) + [event] && protocol == After(old(protocol), event)
    {
      hide Follows;
      hide StateAfter;
      hide Conserved;
      QuietEffect(protocol, event);
      hide After;
      Log(event);
    }

    /** `runLoop`: turns while tools or steering ask for more, then follow-ups and continuations. */
    method RunLoop() returns (flow: Flow)
      requires AtRest() && protocol.queues.drained == protocol.queues.injected && !protocol.toolWork
               && !protocol.queues.polled && protocol.midTurn
      modifies `script, `aborted, steeringQueue`batches, followUpQueue`batches,
               `messages, `streamingMessage, `pendingToolCalls, `log, `marks, `protocol, `context, `newMessages,
               `skipInitialSteeringPoll
      ensures flow.Ended? ==> Finished()
      ensures !flow.Ended? ==> flow.Failed? && Running() && protocol.final.None?
    {
      hide Running;
      hide Fuel;
      hide InStep;
      var firstTurn := true;
      var pending, threw := Poll(Steering);
      if threw {
        return Failed;
      }
      while true
        invariant AtRest() && (protocol.queues.polled || aborted)
                  && protocol.queues.drained == protocol.queues.injected + pending
        invariant if firstTurn then !protocol.toolWork else |pending| > 0 && protocol.boundary.Fed? && protocol.turned
        invariant (skipInitialSteeringPoll ==> aborted) && (protocol.midTurn <==> firstTurn)
        decreases Fuel()
      {
        if aborted {
          return Failed;
        }
        var hasMoreToolCalls := true;
        ghost var fuel := Fuel();
        while hasMoreToolCalls || |pending| > 0
          invariant Between() && protocol.queues.drained == protocol.queues.injected + pending
                    && !skipInitialSteeringPoll && (protocol.midTurn <==> firstTurn)
          invariant Fuel() <= fuel && (hasMoreToolCalls || |pending| > 0 || Fuel() < fuel)
          invariant if firstTurn then hasMoreToolCalls && !protocol.toolWork
                    else protocol.turned && ReadyOrDone(hasMoreToolCalls, pending, protocol, aborted)
          decreases Fuel()
        {
          if aborted {
            return Failed;
          }
          flow, hasMoreToolCalls := Turn(firstTurn, pending);
          if !flow.Going? {
            return;
          }
          firstTurn := false;
          flow, pending := AfterTurn();
          if !flow.Going? {
            return;
          }
        }
        assert protocol.queues.injected + pending == protocol.queues.injected;
        flow, pending := FindMore();
        if !flow.Going? {
          return;
        }
      }
    }

    // Runs

    /** What has begun: nothing logged yet, and the context is the transcript. */
    ghost predicate Begun()
      reads `aborted, `activeRun, `isStreaming, `log, `marks, `protocol, `messages, `transcript, `pendingToolCalls
      reads `script, `given, steeringQueue`batches, followUpQueue`batches
    {
      Running() && log == [] && protocol == START && messages == transcript
    }

    /** `runAgentLoop`: the prompts enter the transcript, and the loop runs. */
    method RunAgentLoop(prompts: seq<Message>) returns (flow: Flow)
      requires Begun()
      modifies `script, `aborted, steeringQueue`batches, followUpQueue`batches,
               `messages, `streamingMessage, `pendingToolCalls, `log, `marks, `protocol, `context, `newMessages,
               `skipInitialSteeringPoll
      ensures flow.Ended? ==> Finished()
      ensures !flow.Ended? ==> flow.Failed? && Running() && protocol.final.None?
    {
      hide Running;
      hide Fuel;
      newMessages := prompts;
      context := messages + prompts;
      StartRun();
      assert prompts[..0] == [];
      hide Beginning;
      for i := 0 to |prompts|
        invariant Beginning(prompts[..i]) && newMessages == prompts && context == transcript + prompts
      {
        assert prompts[..i + 1] == prompts[..i] + [prompts[i]];
        EmitPrompt(prompts[..i], prompts[i]);
      }
      assert prompts[..|prompts|] == prompts;
      BeginningIsBetween(prompts);
      flow := RunLoop();
    }

    method StartRun()
      requires Begun()
      modifies `script, `aborted, steeringQueue`batches, followUpQueue`batches,
               `messages, `streamingMessage, `pendingToolCalls, `log, `marks, `protocol
      ensures Beginning([]) && log == [AgentStart, TurnStart]
    {
      hide Running;
      hide Fuel;
      Emit(AgentStart);
      Emit(TurnStart);
    }

    /** The first events of a run, with some prompts ended. */
    ghost predicate Beginning(ended: seq<Message>)
      reads `aborted, `activeRun, `isStreaming, `log, `marks, `protocol, `messages, `transcript, `pendingToolCalls
      reads `script, `given, steeringQueue`batches, followUpQueue`batches
    {
      && Running() && !protocol.open && protocol.extra == 0 && protocol.tools == NO_TOOLS && !protocol.toolWork
      && protocol.final.None? && protocol.midTurn
      && protocol.queues == UNTOUCHED && protocol.reply.None? && protocol.ends == ended
    }

    method EmitPrompt(ghost ended: seq<Message>, prompt: Message)
      requires Beginning(ended)
      modifies `script, `aborted, steeringQueue`batches, followUpQueue`batches,
               `messages, `streamingMessage, `pendingToolCalls, `log, `marks, `protocol
      ensures Beginning(ended + [prompt])
    {
      hide Running;
      hide Fuel;
      Emit(MessageStart(prompt));
      Emit(MessageEnd(prompt, FromPrompt));
    }

    lemma BeginningIsBetween(prompts: seq<Message>)
      requires Beginning(prompts) && newMessages == prompts && context == transcript + prompts
      ensures AtRest() && protocol.queues.drained == protocol.queues.injected && !protocol.toolWork
              && !protocol.queues.polled && protocol.midTurn
    {
      hide Running;
    }

    /** `runAgentLoopContinue`: from the transcript as it is, which must not end with the assistant. */
    method RunAgentLoopContinue() returns (flow: Flow)
      requires Begun()
      modifies `script, `aborted, steeringQueue`batches, followUpQueue`batches,
               `messages, `streamingMessage, `pendingToolCalls, `log, `marks, `protocol, `context, `newMessages,
               `skipInitialSteeringPoll
      ensures flow.Ended? ==> Finished()
      ensures !flow.Ended? ==> flow.Failed? && Running() && protocol.final.None?
    {
      newMessages := [];
      context := messages;
      assert transcript + [] == transcript;
      hide Running;
      hide Fuel;
      if |context| == 0 || context[|context| - 1].role.Assistant? {
        return Failed;
      }
      StartRun();
      hide Beginning;
      BeginningIsBetween([]);
      flow := RunLoop();
    }

    /** `handleRunFailure`: the failure is the run's last message. */
    method HandleRunFailure() returns (failure: Message)
      requires Running() && protocol.final.None?
      modifies `script, `aborted, steeringQueue`batches, followUpQueue`batches,
               `messages, `streamingMessage, `pendingToolCalls, `log, `marks, `protocol
      ensures Running() && protocol.final == Some([failure]) && protocol.ends == old(protocol.ends) + [failure]
      ensures failure.role.Assistant? && (if old(aborted) then failure.stop.Aborted? else failure.stop.Error?)
    {
      failure := Message(Assistant, "", [], if aborted then Aborted else Error, "", false);
      hide Running;
      hide Fuel;
      Emit(MessageStart(failure));
      Emit(MessageEnd(failure, FromFailure));
      assert protocol.ends[|protocol.ends| - 1..] == [failure];
      Emit(AgentEnd([failure]));
    }

    /** The part of `runWithLifecycle` before the run. */
    method BeginRun(environment: seq<Answer>)
      requires Idle()
      modifies `activeRun, `isStreaming, `streamingMessage, `script, `aborted, `log, `marks, `protocol, `transcript,
               `given
      ensures Begun() && !aborted && transcript == messages
      ensures given == Given(environment, steeringQueue.batches, followUpQueue.batches)
    {
      hide Running;
      hide Begun;
      hide Flat;
      hide NoneEmpty;
      activeRun, isStreaming, streamingMessage := true, true, None;
      script, aborted := environment, false;
      log, marks, protocol, transcript := [], [], START, messages;
      given := Given(environment, steeringQueue.batches, followUpQueue.batches);
      RunBegins();
    }

    lemma RunBegins()
      requires activeRun && isStreaming && log == [] && marks == [] && protocol == START && messages == transcript
               && pendingToolCalls == {}
      requires steeringQueue != followUpQueue && NoneEmpty(steeringQueue.batches) && NoneEmpty(followUpQueue.batches)
      requires given == Given(script, steeringQueue.batches, followUpQueue.batches)
      ensures Begun()
    {
      hide Flat;
      hide NoneEmpty;
      hide After;
      hide Allowed;
      assert given.environment[..0] == [] && given.environment[0..] == script;
      assert given.steering + [] == [] + given.steering && given.followUp + [] == [] + given.followUp
             && transcript + [] == transcript;
    }

    /** `finishRun`. */
    method FinishRun()
      requires Running()
      modifies `isStreaming, `streamingMessage, `pendingToolCalls, `activeRun
      ensures Idle()
    {
      isStreaming, streamingMessage, pendingToolCalls, activeRun := false, None, {}, false;
    }

    /**
      What a run has done, whatever its environment: its log follows the protocol, ends with its only
      `agent_end`, and is what has been added to the transcript; every turn's calls have got their
      results, one each and in order, short of an abort; unless the run was aborted by the call's end, the
      outcome in a result is what answers heard since the call's start have given for it; calls that take
      turns never ran at once. A run that did not fail has ended for a reason
      or because both queues were found empty and nothing continued it, has returned exactly the
      messages of the log, its context is the transcript unless the provider started a message twice,
      and unless it was aborted everything it drained from the queues has been injected.
    */
    ghost predicate Recorded(before: seq<Message>, failed: bool, environment: seq<Answer>)
      reads `log, `marks, `messages, `context, `newMessages, `aborted, `protocol
    {
      && Follows(log) && protocol == StateAfter(log) && messages == before + Ends(log)
      && log != [] && log[|log| - 1].AgentEnd? && (forall i :: 0 <= i < |log| && log[i].AgentEnd? ==> i == |log| - 1)
      && (forall i :: 0 <= i < |log| && log[i].TurnEnd? ==> CallsAnswered(log[i].message, log[i].results, aborted))
      && AllInTurn(log)
      && |marks| == |log| && AllHeard(environment, log, marks)
      && (forall mark :: mark in marks && mark.aborted ==> aborted)
      && (failed ==> Ends(log) != [] && log[|log| - 1] == AgentEnd([Ends(log)[|Ends(log)| - 1]]))
      && (!failed ==> (exists i :: 0 <= i < |log| && log[i].TurnEnd?))
      && (!failed ==> EndedForAReason(log) && log[|log| - 1] == AgentEnd(newMessages) && newMessages == Ends(log)
                      && (context == before + newMessages <==> protocol.extra == 0)
                      && (!aborted ==> protocol.queues.drained == protocol.queues.injected))
    }

    /**
      Of the batches queued before the run and by each answer heard in it, each whole and in its order,
      those drained come first and the others are still queued.
    */
    ghost predicate KeptInOrder(before: Given)
      reads `protocol, `script, steeringQueue`batches, followUpQueue`batches
    {
      && IsTail(before.environment, script)
      && QueuedBy(before, script, Steering) == protocol.queues.steering.drained + steeringQueue.batches
      && QueuedBy(before, script, FollowUp) == protocol.queues.followUp.drained + followUpQueue.batches
    }

    /** `runWithLifecycle` around `runAgentLoop`; an agent that is already running refuses. */
    method RunPromptMessages(prompts: seq<Message>, skipInitialSteeringPoll: bool, environment: seq<Answer>)
        returns (started: bool, failed: bool)
      requires activeRun || Idle()
      modifies this, steeringQueue`batches, followUpQueue`batches
      ensures started <==> !old(activeRun)
      ensures !started ==> messages == old(messages) && log == old(log) && activeRun
      ensures started ==> Idle() && Recorded(old(messages), failed, environment)
      ensures started ==> KeptInOrder(Given(environment, old(steeringQueue.batches), old(followUpQueue.batches)))
    {
      hide Idle;
      hide Begun;
      hide Finished;
      hide Running;
      hide Recorded;
      hide KeptInOrder;
      failed := false;
      if activeRun {
        return false, false;
      }
      started := true;
      this.skipInitialSteeringPoll := skipInitialSteeringPoll;
      BeginRun(environment);
      var flow := RunAgentLoop(prompts);
      failed := Conclude(flow);
    }

    /** `runWithLifecycle` around `runAgentLoopContinue`. */
    method RunContinuation(environment: seq<Answer>) returns (started: bool, failed: bool)
      requires activeRun || Idle()
      modifies this, steeringQueue`batches, followUpQueue`batches
      ensures started <==> !old(activeRun)
      ensures !started ==> messages == old(messages) && log == old(log) && activeRun
      ensures started ==> Idle() && Recorded(old(messages), failed, environment)
      ensures started ==> KeptInOrder(Given(environment, old(steeringQueue.batches), old(followUpQueue.batches)))
    {
      hide Idle;
      hide Begun;
      hide Finished;
      hide Running;
      hide Recorded;
      hide KeptInOrder;
      failed := false;
      if activeRun {
        return false, false;
      }
      started := true;
      skipInitialSteeringPoll := false;
      BeginRun(environment);
      var flow := RunAgentLoopContinue();
      failed := Conclude(flow);
    }

    lemma AllTurnsAnswered()
      requires Running()
      ensures forall i :: 0 <= i < |log| && log[i].TurnEnd? ==> CallsAnswered(log[i].message, log[i].results, aborted)
    {
      hide Follows;
      hide StateAfter;
      hide Conserved;
      forall i | 0 <= i < |log| && log[i].TurnEnd?
        ensures CallsAnswered(log[i].message, log[i].results, aborted)
      {
        TurnEndAnswers(log, i);
      }
    }

    lemma FinishedIsRunning()
      requires Finished()
      ensures Running()
    {
    }

    lemma RunIsRecorded(failed: bool)
      requires if failed
               then Running() && protocol.ends != [] && protocol.final == Some([protocol.ends[|protocol.ends| - 1]])
                 else Finished()
      ensures Recorded(transcript, failed, given.environment) && KeptInOrder(given)
    {
      EndsAreEnds(log);
      AgentEndIsLast(log);
      AllTurnsAnswered();
      TurnsHeard(given.environment, log, marks);
      EndsForAReason(log);
      TurnedSays(log);
      hide Follows;
      hide StateAfter;
      hide EndedForAReason;
      hide Ends;
      hide CallsAnswered;
      hide NoneEmpty;
      hide QueuedBy;
      hide IsTail;
    }

    /** The `catch` and `finally` of `runWithLifecycle`. */
    method Conclude(flow: Flow) returns (failed: bool)
      requires !flow.Going? && (flow.Ended? ==> Finished()) && (flow.Failed? ==> Running() && protocol.final.None?)
      modifies `script, `aborted, steeringQueue`batches, followUpQueue`batches,
               `messages, `streamingMessage, `pendingToolCalls, `log, `marks, `protocol, `isStreaming, `activeRun
      ensures Idle() && Recorded(transcript, failed, given.environment) && KeptInOrder(given)
              && (failed <==> flow.Failed?)
    {
      hide Running;
      hide Finished;
      hide Idle;
      failed := flow.Failed?;
      if !failed {
        FinishedIsRunning();
      }
      if failed {
        var _ := HandleRunFailure();
      }
      RunIsRecorded(failed);
      hide Recorded;
      hide KeptInOrder;
      FinishRun();
    }
  }

  /** Between turns: new messages have come, or steering was empty and tool work is left as the flag says. */
  predicate ReadyOrDone(hasMoreToolCalls: bool, pending: seq<Message>, p: Protocol, aborted: bool) {
    if pending != [] then p.boundary.Fed?
    else aborted || (p.boundary.NoSteering? && p.toolWork == hasMoreToolCalls)
  }

  lemma TakeIn(transcript: seq<Message>, base: seq<Message>, newMessages: seq<Message>, before: Protocol,
      message: Message, context: seq<Message>, after: Protocol)
    requires InStep(transcript, base, newMessages, before.ends, before.extra)
             && Answered(message, before, after, base, context)
    ensures InStep(transcript, context, newMessages + [message], after.ends, after.extra)
  {
    Regroup(transcript, newMessages, [message]);
  }

  lemma StepMore(transcript: seq<Message>, context: seq<Message>, newMessages: seq<Message>, ends: seq<Message>,
      extra: nat, message: Message)
    requires InStep(transcript, context, newMessages, ends, extra)
    ensures InStep(transcript, context + [message], newMessages + [message], ends + [message], extra)
  {
    Regroup(transcript, newMessages, [message]);
  }

  lemma TakeResults(transcript: seq<Message>, context: seq<Message>, newMessages: seq<Message>, before: Protocol,
      results: seq<Message>, after: Protocol)
    requires InStep(transcript, context, newMessages, before.ends, before.extra) && after.ends == before.ends + results
             && after.extra == before.extra
    ensures InStep(transcript, context + results, newMessages + results, after.ends, after.extra)
  {
    Regroup(transcript, newMessages, results);
  }

  lemma LastOnes(earlier: seq<Message>, message: Message, results: seq<Message>)
    ensures EndsWith(earlier + [message] + results, [message] + results)
    ensures EndsWith(earlier + [message], [message] + [])
  {
    var all := earlier + [message] + results;
    assert all[|earlier|..] == [message] + results;
    assert (earlier + [message])[|earlier|..] == [message] == [message] + [];
  }

  lemma NoneAnswer(message: Message, aborted: bool)
    requires !message.stop.Normal? || message.calls == []
    ensures Answers([], message, NO_TOOLS.finished, aborted)
  {
  }

  lemma NoIds(calls: seq<Call>, t: Tools)
    requires IdsRunning(calls, t) && t.running == {}
    ensures t.ids == {}
  {
  }

  /** The events that leave the messages, the tools and the queues as they are. */
  lemma QuietEffect(p: Protocol, event: Event)
    requires event.TurnStart? || event.AskedToContinue? || event.Continued? || event.Stopping?
    ensures var q := After(p, event);
            && (q.ends, q.open, q.extra, q.reply, q.tools, q.final)
               == (p.ends, p.open, p.extra, p.reply, p.tools, p.final)
            && q.boundary == BoundaryAfter(p.boundary, event) && q.toolWork == (p.toolWork && !event.TurnStart?)
            && q.aborted == (p.aborted || TellsAbort(event)) && q.midTurn == (p.midTurn || event.TurnStart?)
            && q.queues.polled == p.queues.polled && q.turned == p.turned
            && q.queues.injected == p.queues.injected
            && q.queues.drained == p.queues.drained + (if event.Continued? then event.messages else [])
  {
  }

  /** A tool's events leave all but the tools, and the tool work, as they are. */
  lemma ToolEffect(p: Protocol, event: Event)
    requires event.ToolStart? || event.ToolUpdate? || event.ToolEnd?
    ensures var q := After(p, event);
            && (q.ends, q.open, q.extra, q.reply, q.queues, q.midTurn, q.final)
               == (p.ends, p.open, p.extra, p.reply, p.queues, p.midTurn, p.final)
            && q.tools == ToolsAfter(p.tools, event)
            && q.toolWork == (p.toolWork || (event.ToolEnd? && !event.outcome.terminate))
  {
  }

  lemma PollEffect(p: Protocol, event: Event)
    requires event.Polled? || event.SkippedPoll?
    ensures var q := After(p, event);
            && (q.ends, q.tools, q.aborted) == (p.ends, p.tools, p.aborted) && q.queues == QueuesAfter(p.queues, event)
  {
  }

  lemma EmitEffect(p: Protocol, event: Event)
    requires !event.Polled?
    ensures var q := After(p, event);
            && q.ends == (if event.MessageEnd? then p.ends + [event.message] else p.ends)
            && q.tools == ToolsAfter(p.tools, event)
            && q.queues.steering == p.queues.steering && q.queues.followUp == p.queues.followUp
            && q.aborted == (p.aborted || TellsAbort(event))
  {
  }

  /** The messages a poll gives the loop. */
  function PolledBy(event: Event): seq<Message> {
    if event.Polled? then Flat(event.taken) else []
  }

  /** The batches queued are those drained and those still queued; those the last poll left come first. */
  predicate Keeps(c: Channel, queued: Batches, batches: Batches) {
    queued == c.drained + batches && c.left <= batches
  }

  lemma NextIsGiven(environment: seq<Answer>, script: seq<Answer>)
    requires IsTail(environment, script)
    ensures script != [] ==> environment[|environment| - |script|] == script[0]
  {
  }

  lemma AnswerKeeps(given: Given, script: seq<Answer>, steered: Channel, followed: Channel, steering: Batches,
      followUp: Batches)
    requires script != [] && AllKept(given, script, steered, followed, steering, followUp)
    ensures AllKept(given, script[1..], steered, followed, steering + AsBatch(script[0].steer),
            followUp + AsBatch(script[0].followUp))
  {
    KeepsQueued(steered, QueuedBy(given, script, Steering), steering, AsBatch(script[0].steer));
    KeepsQueued(followed, QueuedBy(given, script, FollowUp), followUp, AsBatch(script[0].followUp));
    var n := |given.environment| - |script|;
    assert given.environment[..n + 1] == given.environment[..n] + [script[0]];
    assert given.environment[..n + 1][..n] == given.environment[..n];
    Regroup(given.steering, Queued(given.environment[..n], Steering), AsBatch(script[0].steer));
    Regroup(given.followUp, Queued(given.environment[..n], FollowUp), AsBatch(script[0].followUp));
    hide Keeps;
  }

  lemma KeptFacts(given: Given, script: seq<Answer>, steered: Channel, followed: Channel, steering: Batches,
      followUp: Batches)
    requires AllKept(given, script, steered, followed, steering, followUp)
    ensures IsTail(given.environment, script) && NoneEmpty(steering) && NoneEmpty(followUp)
    ensures steering + AsBatch([]) == steering && followUp + AsBatch([]) == followUp
  {
  }

  lemma KeepsQueued(c: Channel, queued: Batches, batches: Batches, more: Batches)
    requires Keeps(c, queued, batches)
    ensures Keeps(c, queued + more, batches + more)
  {
    Regroup(c.drained, batches, more);
  }

  lemma PollKeeps(given: Given, script: seq<Answer>, q: Queues, source: Source, steering: Batches, followUp: Batches,
      mode: QueueMode)
    requires AllKept(given, script, q.steering, q.followUp, steering, followUp)
    ensures var batches := if source.Steering? then steering else followUp;
            var c := ChannelOf(q, source);
            var next := Channel(c.drained + Taken(batches, mode), Rest(batches, mode));
            && NoneEmpty(batches) && IsPoll(c, Taken(batches, mode), Rest(batches, mode))
            && (Flat(Taken(batches, mode)) == [] <==> batches == [])
            && (source.Steering? ==> AllKept(given, script, next, q.followUp, Rest(batches, mode), followUp))
            && (source.FollowUp? ==> AllKept(given, script, q.steering, next, steering, Rest(batches, mode)))
  {
    var batches := if source.Steering? then steering else followUp;
    assert Taken(batches, mode) + Rest(batches, mode) == batches;
    Regroup(ChannelOf(q, source).drained, Taken(batches, mode), Rest(batches, mode));
    FlatEmpty(Taken(batches, mode));
    hide QueuedBy;
    hide IsTail;
  }

  /** A message that starts and ends enters the messages that have ended, and those injected. */
  lemma InjectEffect(p: Protocol, message: Message)
    requires p.final.None? && !p.open
    ensures var started := After(p, MessageStart(message));
            var q := After(started, MessageEnd(message, FromQueue));
            && Allowed(p, MessageStart(message)) && Allowed(started, MessageEnd(message, FromQueue))
            && q.ends == p.ends + [message]
            && (q.open, q.extra, q.reply, q.tools, q.toolWork, q.midTurn, q.final)
               == (p.open, p.extra, p.reply, p.tools, p.toolWork, p.midTurn, p.final)
            && q.queues.polled == p.queues.polled && q.queues.drained == p.queues.drained
            && q.queues.injected == p.queues.injected + [message]
  {
  }

  /**
    The new messages are those that ended in the log; the context is the transcript and them, unless the
    provider started twice.
  */
  ghost predicate InStep(transcript: seq<Message>, context: seq<Message>, newMessages: seq<Message>, ends: seq<Message>,
      extra: nat)
  {
    && newMessages == ends && |context| == |transcript| + |newMessages| + extra
    && (extra == 0 ==> context == transcript + newMessages)
  }

  /** A prepared call in flight, one whose execution has settled, and one that has ended. */
  datatype Entry = InFlight | Settled(executed: ToolOutcome) | Over(finalized: ToolOutcome)

  ghost predicate EntriesMatch(entries: seq<Entry>, t: Tools) {
    && (forall k: nat :: k in t.running <==> k < |entries| && !entries[k].Over?)
    && (forall k: nat :: k in t.finished <==> k < |entries| && entries[k].Over?)
    && (forall k: nat :: k in t.finished ==> t.finished[k] == entries[k].finalized)
  }

  /** Every call has ended, as its entry says. */
  ghost predicate AllOver(entries: seq<Entry>, finished: map<nat, ToolOutcome>) {
    forall k :: 0 <= k < |entries| ==> entries[k].Over? && k in finished && finished[k] == entries[k].finalized
  }

  /** A call has ended without asking to terminate. */
  predicate GoesOn(entries: seq<Entry>) {
    exists k :: 0 <= k < |entries| && entries[k].Over? && !entries[k].finalized.terminate
  }

  lemma GoesOnAdded(entries: seq<Entry>, entry: Entry)
    ensures GoesOn(entries + [entry]) == (GoesOn(entries) || (entry.Over? && !entry.finalized.terminate))
  {
    var all := entries + [entry];
    assert all[|entries|] == entry;
    assert forall k :: 0 <= k < |entries| ==> all[k] == entries[k];
  }

  lemma GoesOnAt(entries: seq<Entry>, k: nat, entry: Entry)
    requires k < |entries| && !entries[k].Over?
    ensures GoesOn(entries[k := entry]) == (GoesOn(entries) || (entry.Over? && !entry.finalized.terminate))
  {
    var all := entries[k := entry];
    assert all[k] == entry;
    assert forall j :: 0 <= j < |entries| && j != k ==> all[j] == entries[j];
  }

  lemma EntryIsNew(entries: seq<Entry>, t: Tools)
    requires EntriesMatch(entries, t)
    ensures |entries| !in t.running && |entries| !in t.finished
  {
  }

  lemma EntryAdded(entries: seq<Entry>, entry: Entry, t: Tools, after: Tools)
    requires EntriesMatch(entries, t) && !entry.Settled?
    requires after.running == (if entry.Over? then t.running + {|entries|} - {|entries|} else t.running + {|entries|})
    requires after.finished == if entry.Over? then t.finished[|entries| := entry.finalized] else t.finished
    ensures EntriesMatch(entries + [entry], after)
  {
  }

  lemma EntryMatches(entries: seq<Entry>, t: Tools, k: nat)
    requires EntriesMatch(entries, t) && k < |entries|
    ensures k in t.running <==> !entries[k].Over?
  {
  }

  lemma EntryChanged(entries: seq<Entry>, k: nat, entry: Entry, t: Tools, after: Tools)
    requires EntriesMatch(entries, t) && k < |entries| && !entries[k].Over? && !entry.InFlight?
    requires after.running == if entry.Over? then t.running - {k} else t.running
    requires after.finished == if entry.Over? then t.finished[k := entry.finalized] else t.finished
    ensures EntriesMatch(entries[k := entry], after)
  {
  }

  /** Steps still to be taken, updates aside. */
  function Work(entries: seq<Entry>): nat {
    if entries == [] then 0
    else
      var last := match entries[|entries| - 1] case InFlight => 2 case Settled(_) => 1 case Over(_) => 0;
      Work(entries[..|entries| - 1]) + last
  }

  lemma {:induction false} WorkAt(entries: seq<Entry>, k: nat, entry: Entry)
    requires k < |entries| && ((entries[k].InFlight? && !entry.InFlight?) || (entries[k].Settled? && entry.Over?))
    ensures Work(entries[k := entry]) < Work(entries)
  {
    var n := |entries| - 1;
    if k < n {
      WorkAt(entries[..n], k, entry);
      assert entries[k := entry][..n] == entries[..n][k := entry];
    } else {
      assert entries[k := entry][..n] == entries[..n];
    }
  }

  lemma {:induction false} WorkIsLeft(entries: seq<Entry>)
    ensures Work(entries) == 0 <==> forall k :: 0 <= k < |entries| ==> entries[k].Over?
  {
    if entries != [] {
      WorkIsLeft(entries[..|entries| - 1]);
    }
  }

  lemma WorkDone(entries: seq<Entry>, t: Tools)
    requires Work(entries) == 0 && EntriesMatch(entries, t)
    ensures t.running == {} && AllOver(entries, t.finished) && AllFinished(t.finished, |entries|)
  {
    WorkIsLeft(entries);
  }

  /** The call the environment picks, or the first one that is not over. */
  method PickUnfinished(entries: seq<Entry>, pick: nat) returns (k: nat)
    requires Work(entries) > 0
    ensures k < |entries| && !entries[k].Over?
    ensures pick < |entries| && !entries[pick].Over? ==> k == pick
  {
    if pick < |entries| && !entries[pick].Over? {
      return pick;
    }
    WorkIsLeft(entries);
    k := 0;
    while k < |entries| && entries[k].Over?
      invariant k <= |entries| && forall j :: 0 <= j < k ==> entries[j].Over?
    {
      k := k + 1;
    }
  }

  /** Every pending id is that of a running call; two calls may share one. */
  ghost predicate IdsRunning(calls: seq<Call>, t: Tools) {
    && (forall k :: k in t.running ==> k < |calls|)
    && forall id :: id in t.ids ==> exists k :: k in t.running && k < |calls| && calls[k].id == id
  }

  lemma IdsStart(calls: seq<Call>, t: Tools, k: nat)
    requires IdsRunning(calls, t) && k < |calls|
    ensures IdsRunning(calls, ToolsAfter(t, ToolStart(k, calls[k].id)))
  {
    var after := ToolsAfter(t, ToolStart(k, calls[k].id));
    forall id | id in after.ids
      ensures exists j :: j in after.running && j < |calls| && calls[j].id == id
    {
      if id == calls[k].id {
        assert k in after.running;
      } else {
        var j :| j in t.running && j < |calls| && calls[j].id == id;
        assert j in after.running;
      }
    }
  }

  lemma IdsEnd(calls: seq<Call>, t: Tools, k: nat, finalized: ToolOutcome)
    requires IdsRunning(calls, t) && k < |calls|
    ensures IdsRunning(calls, ToolsAfter(t, ToolEnd(k, calls[k].id, finalized)))
  {
    var after := ToolsAfter(t, ToolEnd(k, calls[k].id, finalized));
    forall id | id in after.ids
      ensures exists j :: j in after.running && j < |calls| && calls[j].id == id
    {
      var j :| j in t.running && j < |calls| && calls[j].id == id;
      assert j in after.running;
    }
  }

  /** One message for one start; every further start of the provider has left another one in the context. */
  ghost predicate StartedTwice(partial: Option<Message>, base: seq<Message>, extraBefore: nat, context: seq<Message>,
      extra: nat)
  {
    if partial.None? then context == base && extra == extraBefore
    else
      && extraBefore <= extra && base <= context && |context| == |base| + 1 + (extra - extraBefore)
      && context[|context| - 1] == partial.value
      && (extra == extraBefore ==> context == base + [partial.value])
  }

  /** One response: one message has ended and is the context's last; nothing else has changed but superfluous starts. */
  ghost predicate Answered(message: Message, before: Protocol, after: Protocol, base: seq<Message>,
      context: seq<Message>)
  {
    && after.ends == before.ends + [message] && !after.open && after.final.None?
    && after.reply == Some(message) && after.tools == before.tools && after.toolWork == before.toolWork
    && after.queues == before.queues && after.midTurn
    && StartedTwice(Some(message), base, before.extra, context, after.extra)
  }
}
