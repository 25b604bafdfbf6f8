/**
  What the agent emits (packages/agent/src/agent-loop.ts, agent.ts): messages, events, and the
  protocol that every run's events follow. Polls of the queues are part of the log too, so that the
  protocol can say when they may happen.
*/
module AgentLog {
  import opened Basics
  import opened AgentMessages
  import opened AgentQueue

  /** Where a message that enters the transcript comes from. */
  datatype Origin = FromPrompt | FromQueue | FromProvider | FromTool | FromFailure

  datatype Source = Steering | FollowUp

  /** What the loop emits, with what it decides in between; `aborted` is whether the run was aborted by then. */
  datatype Event =
    | AgentStart
    | TurnStart
    | MessageStart(message: Message)
    | MessageUpdate(message: Message)
    | MessageEnd(message: Message, origin: Origin)
    | ToolStart(call: nat, id: string)
    | ToolUpdate(call: nat, id: string)
    | ToolEnd(call: nat, id: string, outcome: ToolOutcome)
    | TurnEnd(message: Message, results: seq<Message>, aborted: bool)
    | AgentEnd(messages: seq<Message>)
    // The rest is not emitted
    | Polled(source: Source, taken: Batches, left: Batches) // a poll took some batches off its queue and left others
    | SkippedPoll                                           // the initial steering poll left its queue alone
    | AskedToContinue(aborted: bool)                        // the continuation hook is called
    | Continued(messages: seq<Message>)                     // and has given these messages
    | Stopping(aborted: bool, asked: bool)                  // the run is aborted, or a hook asks to stop

  /**
    What has been decided since the last event of a turn: messages have come for the next one, or the
    queues polled so far were empty, or the hook is being asked, or the run is to stop.
  */
  datatype Boundary = Busy | Fed | NoSteering | NoFollowUp | Asking | NothingMore | Stopped

  /** The calls of the turn that run, what became of those that have ended, and the ids `Agent` holds pending. */
  datatype Tools = Tools(running: set<nat>, finished: map<nat, ToolOutcome>, ids: set<string>)

  /** The batches polls have taken off a queue, and those the last poll left. */
  datatype Channel = Channel(drained: Batches, left: Batches)

  datatype Queues = Queues(steering: Channel, followUp: Channel, polled: bool, drained: seq<Message>,
      injected: seq<Message>)

  /**
    The state of the protocol after a log: the messages that have ended, whether one is open and how many
    started while another was open, the turn's response and its tool calls, whether a call of the turn wants
    another turn, whether a turn has ended and whether one is under way, what was drained from the queues
    and injected, what has been decided, whether an event has told of an abort, and the messages of
    `agent_end`.
  */
  datatype Protocol = Protocol(
    ends: seq<Message>, open: bool, extra: nat, reply: Option<Message>, tools: Tools, toolWork: bool, turned: bool,
    midTurn: bool,    queues: Queues, boundary: Boundary, aborted: bool, final: Option<seq<Message>>)

  const NO_TOOLS := Tools({}, map[], {})

  const UNTOUCHED := Queues(Channel([], []), Channel([], []), false, [], [])

  const START := Protocol([], false, 0, None, NO_TOOLS, false, false, false, UNTOUCHED, Busy, false, None)

  predicate EndsWith(messages: seq<Message>, tail: seq<Message>) {
    |tail| <= |messages| && messages[|messages| - |tail|..] == tail
  }

  /** Call `call` of the turn's response has this id. */
  predicate IsCall(reply: Option<Message>, call: nat, id: string) {
    reply.Some? && call < |reply.value.calls| && reply.value.calls[call].id == id
  }

  /**
    A response has its calls' results, one for each in their order unless the run is aborted; one that
    failed has none.
  */
  ghost predicate Answers(results: seq<Message>, message: Message, finished: map<nat, ToolOutcome>, aborted: bool) {
    && AllFinished(finished, |results|)
    && if message.stop.Normal?
       then ResultsOf(results, message.calls, finished) && (|results| < |message.calls| ==> aborted) else results == []
  }

  function ChannelOf(q: Queues, source: Source): Channel {
    if source.Steering? then q.steering else q.followUp
  }

  /** A poll takes batches from the front, beginning with those left before: everything there is, or one of them. */
  predicate IsPoll(c: Channel, taken: Batches, left: Batches) {
    NoneEmpty(taken) && c.left <= taken + left && (taken == [] ==> left == []) && (|taken| > 1 ==> left == [])
  }

  /** The order of events. Nothing follows `agent_end`, which carries every message of the run, or its failure. */
  ghost predicate Allowed(p: Protocol, event: Event) {
    && p.final.None?
    && match event
       case AgentStart => p == START
       case MessageUpdate(_) => p.open
       // A turn has one reply, after steering has been polled and everything drained has been injected; tool
       // results come after every call has ended.
       case MessageEnd(_, origin) => p.open
         && (origin.FromProvider? ==>
            p.midTurn && p.reply.None? && p.queues.polled && p.queues.drained == p.queues.injected)
                                     && (origin.FromTool? ==> p.tools.running == {})
       // A call is one of the reply's, and its events are its start, updates and its end.
       case ToolStart(call, id) => IsCall(p.reply, call, id) && call !in p.tools.running && call !in p.tools.finished
       case ToolUpdate(call, id) => IsCall(p.reply, call, id) && call in p.tools.running
       case ToolEnd(call, id, _) => IsCall(p.reply, call, id) && call in p.tools.running
       // A turn ends with its reply and the results of the reply's calls, once every call has ended.
       case TurnEnd(message, results, aborted) =>
         && p.midTurn && p.reply == Some(message) && p.tools.running == {} && p.tools.ids == {}
         && EndsWith(p.ends, [message] + results) && Answers(results, message, p.tools.finished, aborted)
       // A turn starts on new messages, or on tool work after steering was found empty.
       case TurnStart => !p.midTurn && (p.boundary.Fed? || (p.boundary.NoSteering? && p.toolWork))
       // Follow-ups are polled only without tool work and after steering was found empty.
       case Polled(source, taken, left) => IsPoll(ChannelOf(p.queues, source), taken, left)
         && (source.FollowUp? ==> p.boundary.NoSteering? && !p.toolWork)
       case SkippedPoll => !p.queues.polled
       // More is asked for only after follow-ups were found empty, too.
       case AskedToContinue(aborted) => aborted || p.boundary.NoFollowUp?
       case Continued(_) => p.boundary.Asking?
       // The run ends for a reason, or when nothing more has come.
       case Stopping(aborted, asked) => aborted || asked
       case AgentEnd(messages) => (p.boundary.NothingMore? || p.boundary.Stopped?)
         && (messages == p.ends || (|messages| == 1 && EndsWith(p.ends, messages)))
       case _ => true
  }

  function ToolsAfter(t: Tools, event: Event): Tools {
    match event
    case ToolStart(call, id) => Tools(t.running + {call}, t.finished, t.ids + {id})
    case ToolEnd(call, id, outcome) => Tools(t.running - {call}, t.finished[call := outcome], t.ids - {id})
    case TurnEnd(_, _, _) => t.(finished := map[])
    case _ => t
  }

  function QueuesAfter(q: Queues, event: Event): Queues {
    match event
    case Polled(Steering, taken, left) =>
      q.(steering := Channel(q.steering.drained + taken, left), polled := true, drained := q.drained + Flat(taken))
    case Polled(FollowUp, taken, left) =>
      q.(followUp := Channel(q.followUp.drained + taken, left), polled := true, drained := q.drained + Flat(taken))
    case SkippedPoll => q.(polled := true)
    case Continued(messages) => q.(drained := q.drained + messages)
    case MessageEnd(message, FromQueue) => q.(injected := q.injected + [message])
    case _ => q
  }

  function BoundaryAfter(b: Boundary, event: Event): Boundary {
    match event
    case AgentStart => Fed
    case Polled(source, taken, _) => if taken != [] then Fed else if source.Steering? then NoSteering else NoFollowUp
    case AskedToContinue(_) => if b.NoFollowUp? then Asking else Busy
    case Continued(messages) => if messages != [] then Fed else NothingMore
    case Stopping(_, _) => Stopped
    case TurnEnd(message, _, _) => if message.stop.Normal? then Busy else Stopped
    case MessageEnd(_, FromFailure) => Stopped
    case _ => Busy
  }

  function ReplyAfter(reply: Option<Message>, event: Event): Option<Message> {
    match event
    case MessageEnd(message, FromProvider) => Some(message)
    case TurnEnd(_, _, _) => None
    case _ => reply
  }

  /** The event tells of an abort. */
  predicate TellsAbort(event: Event) {
    (event.TurnEnd? || event.AskedToContinue? || event.Stopping?) && event.aborted
  }

  function After(p: Protocol, event: Event): Protocol {
    Protocol(
      if event.MessageEnd? then p.ends + [event.message] else p.ends,
      if event.MessageStart? then true else if event.MessageEnd? then false else p.open,
      if event.MessageStart? && p.open then p.extra + 1 else p.extra,
      ReplyAfter(p.reply, event), ToolsAfter(p.tools, event),
      if event.TurnStart? then false else p.toolWork || (event.ToolEnd? && !event.outcome.terminate),
      p.turned || event.TurnEnd?, event.TurnStart? || (p.midTurn && !event.TurnEnd?),
      QueuesAfter(p.queues, event), BoundaryAfter(p.boundary, event),
      p.aborted || TellsAbort(event),
      if event.AgentEnd? then Some(event.messages) else p.final)
  }

  function StateAfter(log: seq<Event>): Protocol {
    if log == [] then START else After(StateAfter(log[..|log| - 1]), log[|log| - 1])
  }

  /** Every event was allowed when it came. */
  ghost predicate Follows(log: seq<Event>) {
    log == [] || (Follows(log[..|log| - 1]) && Allowed(StateAfter(log[..|log| - 1]), log[|log| - 1]))
  }

  lemma FollowsMore(log: seq<Event>, event: Event)
    ensures StateAfter(log + [event]) == After(StateAfter(log), event)
    ensures Follows(log + [event]) <==> Follows(log) && Allowed(StateAfter(log), event)
  {
    assert (log + [event])[..|log|] == log;
  }

  // What the protocol says about a log

  function Ends(log: seq<Event>): seq<Message> {
    if log == [] then []
    else Ends(log[..|log| - 1]) + if log[|log| - 1].MessageEnd? then [log[|log| - 1].message] else []
  }

  lemma {:induction false} EndsAreEnds(log: seq<Event>)
    ensures StateAfter(log).ends == Ends(log)
  {
    if log != [] {
      EndsAreEnds(log[..|log| - 1]);
    }
  }

  /** The events of one call. */
  function CallEvents(log: seq<Event>, call: nat): seq<Event> {
    if log == [] then []
    else CallEvents(log[..|log| - 1], call) + if IsOf(log[|log| - 1], call) then [log[|log| - 1]] else []
  }

  predicate IsOf(event: Event, call: nat) {
    (event.ToolStart? || event.ToolUpdate? || event.ToolEnd?) && event.call == call
  }

  /** Nothing yet, a start and updates, or a start, updates and an end. */
  predicate IsCallHistory(events: seq<Event>, running: bool, finished: bool) {
    if !running && !finished then events == []
    else
      && |events| >= (if finished then 2 else 1) && events[0].ToolStart?
      && (finished ==> events[|events| - 1].ToolEnd?)
      && forall i :: 1 <= i < (if finished then |events| - 1 else |events|) ==> events[i].ToolUpdate?
  }

  lemma CallStep(p: Protocol, event: Event, call: nat, events: seq<Event>)
    requires Allowed(p, event) && !event.TurnEnd? && (call in p.tools.running ==> call !in p.tools.finished)
    requires IsCallHistory(events, call in p.tools.running, call in p.tools.finished)
    ensures var t := ToolsAfter(p.tools, event);
            && (call in t.running ==> call !in t.finished)
            && IsCallHistory(events + (if IsOf(event, call) then [event] else []), call in t.running,
               call in t.finished)
  {
    assert events + [] == events;
  }

  /**
    In a log that follows the protocol, from the start of a turn's calls on (`since`, up to the turn's
    end), each call has started, updated and ended in that order, and nothing of it comes after its end.
  */
  lemma {:induction false} CallsInOrder(before: seq<Event>, since: seq<Event>, call: nat)
    requires Follows(before + since) && forall i :: 0 <= i < |since| ==> !since[i].TurnEnd?
    requires call !in StateAfter(before).tools.running && call !in StateAfter(before).tools.finished
    ensures var t := StateAfter(before + since).tools;
            && (call in t.running ==> call !in t.finished)
            && IsCallHistory(CallEvents(since, call), call in t.running, call in t.finished)
    decreases |since|
  {
    if since == [] {
      assert before + since == before;
    } else {
      var init, last := since[..|since| - 1], since[|since| - 1];
      var log := before + init;
      assert before + since == log + [last];
      FollowsMore(log, last);
      hide Follows;
      hide StateAfter;
      hide Allowed;
      hide ToolsAfter;
      hide QueuesAfter;
      hide BoundaryAfter;
      hide ReplyAfter;
      hide IsCallHistory;
      CallsInOrder(before, init, call);
      CallStep(StateAfter(log), last, call, CallEvents(init, call));
    }
  }

  /** When a turn ends, every call it started has ended, no id is pending, and the next turn's calls begin afresh. */
  lemma TurnEndClosesCalls(log: seq<Event>)
    requires Follows(log) && log != [] && log[|log| - 1].TurnEnd?
    ensures StateAfter(log).tools == NO_TOOLS && StateAfter(log[..|log| - 1]).tools.running == {}
  {
    hide QueuesAfter;
    hide BoundaryAfter;
  }

  /** `agent_end` comes last. */
  lemma {:induction false} AgentEndIsLast(log: seq<Event>)
    requires Follows(log)
    ensures forall i :: 0 <= i < |log| && log[i].AgentEnd? ==> i == |log| - 1
    ensures StateAfter(log).final.Some? <==> log != [] && log[|log| - 1].AgentEnd?
    ensures StateAfter(log).final.Some? ==> log[|log| - 1] == AgentEnd(StateAfter(log).final.value)
  {
    if log != [] {
      AgentEndIsLast(log[..|log| - 1]);
      hide QueuesAfter;
      hide BoundaryAfter;
      hide ToolsAfter;
    }
  }

  lemma {:induction false} FollowsPrefix(log: seq<Event>, k: nat)
    requires Follows(log) && k <= |log|
    ensures Follows(log[..k])
    ensures StateAfter(log[..k]).aborted ==> StateAfter(log).aborted
    decreases |log|
  {
    if k < |log| {
      hide Allowed;
      FollowsPrefix(log[..|log| - 1], k);
      assert log[..|log| - 1][..k] == log[..k];
    } else {
      assert log[..k] == log;
    }
  }

  /**
    `turn_end` carries a result for each call of the reply, in order, or for the first ones if aborted; a
    failed reply has none.
  */
  predicate CallsAnswered(message: Message, results: seq<Message>, aborted: bool) {
    if !message.stop.Normal? then results == []
    else
      && |results| <= |message.calls| && (|results| < |message.calls| ==> aborted)
      && forall k :: 0 <= k < |results| ==> results[k].role.ToolResult? && results[k].callId == message.calls[k].id
  }

  predicate IsEndOf(event: Event, call: nat) {
    event.ToolEnd? && event.call == call
  }

  /** The last end of the call, or -1. */
  function LastEnd(log: seq<Event>, call: nat): int {
    if log == [] then -1
    else if IsEndOf(log[|log| - 1], call) then |log| - 1
    else LastEnd(log[..|log| - 1], call)
  }

  /** What the protocol says became of a call is what its last end said, and no turn has ended since. */
  lemma {:induction false} FinishedSays(log: seq<Event>, call: nat)
    requires call in StateAfter(log).tools.finished
    ensures var t := LastEnd(log, call);
            && 0 <= t < |log| && IsEndOf(log[t], call) && log[t].outcome == StateAfter(log).tools.finished[call]
            && forall j :: t < j < |log| ==> !log[j].TurnEnd?
  {
    var init, last := log[..|log| - 1], log[|log| - 1];
    hide QueuesAfter;
    hide BoundaryAfter;
    hide ReplyAfter;
    if !IsEndOf(last, call) {
      FinishedSays(init, call);
    }
  }

  /** A result of a turn's end is its call's, with what became of the call. */
  lemma ResultsFinished(log: seq<Event>, i: nat, k: nat)
    requires Follows(log) && i < |log| && log[i].TurnEnd? && k < |log[i].results|
    ensures var finished, calls := StateAfter(log[..i]).tools.finished, log[i].message.calls;
            k in finished && k < |calls| && log[i].results[k] == ToolResultMessage(calls[k], finished[k])
  {
    hide Allowed;
    FollowsPrefix(log, i + 1);
    assert log[..i + 1] == log[..i] + [log[i]];
    FollowsMore(log[..i], log[i]);
    hide Follows;
    hide StateAfter;
    hide After;
    AllowedEndResults(StateAfter(log[..i]), log[i], k);
  }

  lemma AllowedEndResults(p: Protocol, event: Event, k: nat)
    requires event.TurnEnd? && Allowed(p, event) && k < |event.results|
    ensures k in p.tools.finished && k < |event.message.calls|
            && event.results[k] == ToolResultMessage(event.message.calls[k], p.tools.finished[k])
  {
  }

  lemma AllowedEndAnswers(p: Protocol, event: Event)
    requires event.TurnEnd? && Allowed(p, event)
    ensures CallsAnswered(event.message, event.results, After(p, event).aborted)
  {
    hide QueuesAfter;
    hide BoundaryAfter;
    hide ToolsAfter;
    hide ReplyAfter;
  }

  lemma {:induction false} TurnEndAnswers(log: seq<Event>, i: nat)
    requires Follows(log) && i < |log| && log[i].TurnEnd?
    ensures CallsAnswered(log[i].message, log[i].results, StateAfter(log).aborted)
  {
    FollowsPrefix(log, i + 1);
    hide Allowed;
    assert log[..i + 1] == log[..i] + [log[i]];
    FollowsMore(log[..i], log[i]);
    hide Follows;
    hide StateAfter;
    hide After;
    AllowedEndAnswers(StateAfter(log[..i]), log[i]);
  }

  lemma BoundarySays(p: Protocol, event: Event)
    requires Allowed(p, event)
    ensures var now := BoundaryAfter(p.boundary, event);
            && (now.Stopped? ==> Stops(event))
            && (now.NothingMore? ==> event == Continued([]) && p.boundary.Asking?)
            && (now.Asking? ==> event.AskedToContinue? && p.boundary.NoFollowUp?)
            && (now.NoFollowUp? ==> event == Polled(FollowUp, [], []) && p.boundary.NoSteering?)
            && (now.NoSteering? ==> event == Polled(Steering, [], []))
  {
    hide Answers;
  }

  /** What the last event was, by what has been decided. */
  lemma LastSays(log: seq<Event>)
    requires Follows(log) && log != []
    ensures var last, before, now := log[|log| - 1], StateAfter(log[..|log| - 1]).boundary, StateAfter(log).boundary;
            && (now.Stopped? ==> Stops(last))
            && (now.NothingMore? ==> last == Continued([]) && before.Asking?)
            && (now.Asking? ==> last.AskedToContinue? && before.NoFollowUp?)
            && (now.NoFollowUp? ==> last == Polled(FollowUp, [], []) && before.NoSteering?)
            && (now.NoSteering? ==> last == Polled(Steering, [], []))
  {
    hide Allowed;
    hide BoundaryAfter;
    hide QueuesAfter;
    hide ToolsAfter;
    hide ReplyAfter;
    hide Stops;
    BoundarySays(StateAfter(log[..|log| - 1]), log[|log| - 1]);
  }

  /**
    An event after which a run ends: it is aborted, a hook has asked for it, or its reply or the run itself
    has failed.
  */
  predicate Stops(event: Event) {
    || (event.Stopping? && (event.aborted || event.asked))
    || (event.TurnEnd? && !event.message.stop.Normal?)
    || (event.MessageEnd? && event.origin.FromFailure?)
  }

  /** Right before event `i`, both queues were found empty, one right after the other. */
  predicate FoundBothEmpty(log: seq<Event>, i: int) {
    2 <= i <= |log| && log[i - 2] == Polled(Steering, [], []) && log[i - 1] == Polled(FollowUp, [], [])
  }

  /** Follow-ups are polled right after steering was found empty; continuation messages come only after both were. */
  lemma {:induction false} PollsInOrder(log: seq<Event>, event: Event)
    requires Follows(log + [event])
    ensures event.Polled? && event.source.FollowUp? ==> log != [] && log[|log| - 1] == Polled(Steering, [], [])
    ensures event.Continued? ==> |log| >= 3 && log[|log| - 1].AskedToContinue? && FoundBothEmpty(log, |log| - 1)
  {
    FollowsMore(log, event);
    hide Follows;
    hide StateAfter;
    hide NoneEmpty;
    if event.Polled? && event.source.FollowUp? {
      NotAtStart(log);
      LastSays(log);
    } else if event.Continued? {
      AskedAfterBoth(log);
    }
  }

  lemma NotAtStart(log: seq<Event>)
    requires !StateAfter(log).boundary.Busy?
    ensures log != []
  {
  }

  lemma AskedAfterBoth(log: seq<Event>)
    requires Follows(log) && StateAfter(log).boundary.Asking?
    ensures |log| >= 3 && log[|log| - 1].AskedToContinue? && FoundBothEmpty(log, |log| - 1)
  {
    hide Follows;
    hide StateAfter;
    NotAtStart(log);
    LastSays(log);
    var asked := log[..|log| - 1];
    NotAtStart(asked);
    FollowsPrefix(log, |asked|);
    LastSays(asked);
    var steered := asked[..|asked| - 1];
    NotAtStart(steered);
    FollowsPrefix(asked, |steered|);
    LastSays(steered);
  }

  /** The run was stopped, or it found both queues empty and no continuation. */
  predicate EndedForAReason(log: seq<Event>) {
    && |log| >= 2 && log[|log| - 1].AgentEnd?
    && (Stops(log[|log| - 2])
        || (|log| >= 5 && FoundBothEmpty(log, |log| - 3) && log[|log| - 3].AskedToContinue?
           && log[|log| - 2] == Continued([])))
  }

  lemma NothingMoreAfterBoth(log: seq<Event>)
    requires Follows(log) && StateAfter(log).boundary.NothingMore?
    ensures |log| >= 4 && log[|log| - 1] == Continued([]) && log[|log| - 2].AskedToContinue?
            && FoundBothEmpty(log, |log| - 2)
  {
    hide Follows;
    hide StateAfter;
    NotAtStart(log);
    LastSays(log);
    var asked := log[..|log| - 1];
    FollowsPrefix(log, |asked|);
    AskedAfterBoth(asked);
  }

  lemma DecidedToEnd(p: Protocol, event: Event)
    requires Allowed(p, event) && event.AgentEnd?
    ensures p.boundary.NothingMore? || p.boundary.Stopped?
  {
  }

  lemma {:induction false} EndsForAReason(log: seq<Event>)
    requires Follows(log) && log != [] && log[|log| - 1].AgentEnd?
    ensures EndedForAReason(log)
  {
    var run, last := log[..|log| - 1], log[|log| - 1];
    assert log == run + [last];
    FollowsMore(run, last);
    hide Follows;
    hide StateAfter;
    hide Allowed;
    hide After;
    DecidedToEnd(StateAfter(run), last);
    NotAtStart(run);
    LastSays(run);
    hide Stops;
    if StateAfter(run).boundary.NothingMore? {
      NothingMoreAfterBoth(run);
    }
  }

  lemma {:induction false} TurnedSays(log: seq<Event>)
    ensures StateAfter(log).turned <==> exists i :: 0 <= i < |log| && log[i].TurnEnd?
  {
    if log != [] {
      var init := log[..|log| - 1];
      TurnedSays(init);
      assert forall i :: 0 <= i < |init| ==> init[i] == log[i];
      hide QueuesAfter;
      hide BoundaryAfter;
      hide ToolsAfter;
    }
  }

  /** The starts and ends of turns. */
  function TurnMarks(log: seq<Event>): seq<Event> {
    if log == [] then []
    else
      var last := log[|log| - 1];
      TurnMarks(log[..|log| - 1]) + if last.TurnStart? || last.TurnEnd? then [last] else []
  }

  /** Turns start and end in turn, beginning with a start. */
  lemma {:induction false} TurnsAlternate(log: seq<Event>)
    requires Follows(log)
    ensures forall i :: 0 <= i < |TurnMarks(log)| ==> (TurnMarks(log)[i].TurnStart? <==> i % 2 == 0)
    ensures StateAfter(log).midTurn <==> |TurnMarks(log)| % 2 == 1
  {
    if log != [] {
      TurnsAlternate(log[..|log| - 1]);
      hide QueuesAfter;
      hide BoundaryAfter;
      hide ToolsAfter;
      hide ReplyAfter;
      hide Answers;
      hide IsPoll;
    }
  }

  function Starts(log: seq<Event>): nat {
    if log == [] then 0 else Starts(log[..|log| - 1]) + if log[|log| - 1].MessageStart? then 1 else 0
  }

  /** Each message that has ended has started once, but for the starts counted as superfluous. */
  lemma {:induction false} StartsMatchEnds(log: seq<Event>)
    requires Follows(log)
    ensures Starts(log) == |Ends(log)| + StateAfter(log).extra + if StateAfter(log).open then 1 else 0
  {
    if log != [] {
      hide QueuesAfter;
      hide BoundaryAfter;
      hide ToolsAfter;
      StartsMatchEnds(log[..|log| - 1]);
    }
  }
}
