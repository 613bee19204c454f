/**
 * The dialogue loop of ui.go (StartUserInterface). The dialogue is a list of
 * chat messages that only ever grows. For each line the user types, it
 * appends the user's turn and asks the language model for a completion. If
 * the reply calls tools, it runs them in order, appends one tool turn per
 * answered call, and asks once more. The content of the last reply is shown.
 *
 * The language model's replies, the stores, the JSON codec and the operating
 * system are not part of the model: they are inputs (Exchange, Services).
 */
module Dialogue {
  import opened Values
  import opened WhereFilter
  import opened ToolHelpers

  const QuitCommand := "q"
  const EmailToolName := "email_instructor"
  const CourseToolName := "get_relevant_courses"

  /** Tool-turn content of every email_instructor call. */
  const EmailConfirmation := "an email draft has been opened successfully and the user has sent an email to the recipient."

  /** The text that surrounds the query results in a get_relevant_courses tool turn. */
  const CoursesPreamble := "If you believe you have enough information to answer the original user question with the information attached below, then answer it. Be sure to include all options to the user's question: "
  const CoursesFollowUp := "\n\nHowever, if you do not think you have enough information, then feel free to make another tool call."

  datatype Role = System | User | Assistant | Tool

  datatype ToolCall = ToolCall(id: string, name: string, arguments: string)

  datatype Message = Message(role: Role, content: string, name: string, toolCallId: string, toolCalls: seq<ToolCall>)

  function UserTurn(question: string): Message {
    Message(User, question, "", "", [])
  }

  function ToolTurn(call: ToolCall, content: string): Message {
    Message(Tool, content, call.name, call.id, [])
  }

  /** The answer to a completion request: a transport error, or the choices returned. */
  datatype Completion = TransportError(msg: string) | Choices(choices: seq<Message>)

  /**
   * One line from the user with the language model's answers to the first
   * request and, should there be one, to the follow-up request.
   */
  datatype Exchange = Exchange(question: string, first: Completion, followUp: Completion)

  /** The collaborators a tool call reaches. */
  datatype Services = Services(
    decodeArguments: string -> Option<JsonObject>,
    instructors: Store,
    subjects: Store,
    courses: CourseQuery -> QueryReply,
    decodeDocument: string -> Option<Document>,
    encodeDocument: Document -> string,
    goos: string)

  /**
   * What handling one tool call does: append a tool turn with this content,
   * append nothing, or end the process (the panic in emailProfessor).
   */
  datatype ToolReply = Reply(content: string) | Skip | Crash

  function ToolReplyFor(call: ToolCall, env: Services): (r: ToolReply)
    ensures r.Crash? <==>
              call.name == EmailToolName && EmailProfessor(env.decodeArguments(call.arguments), env.goos).Panicked?
    ensures r.Skip? <==>
              call.name == CourseToolName && Build(env.decodeArguments(call.arguments), env.instructors, env.subjects).Err?
    ensures call.name == EmailToolName && r.Reply? ==> r.content == EmailConfirmation
    ensures call.name == CourseToolName && r.Reply? ==>
              var filter := Build(env.decodeArguments(call.arguments), env.instructors, env.subjects).value;
              var found := QueryText(env.courses(CourseQuery([CourseQueryText], CourseResultLimit, filter)),
                                     env.decodeDocument, env.encodeDocument);
              |r.content| == |CoursesPreamble| + |found| + |CoursesFollowUp|
              && r.content[..|CoursesPreamble|] == CoursesPreamble
              && r.content[|CoursesPreamble|..|CoursesPreamble| + |found|] == found
              && r.content[|CoursesPreamble| + |found|..] == CoursesFollowUp
    ensures call.name != EmailToolName && call.name != CourseToolName ==> r == Reply("")
  {
    var args := env.decodeArguments(call.arguments);
    if call.name == EmailToolName then
      if EmailProfessor(args, env.goos).Panicked? then Crash else Reply(EmailConfirmation)
    else if call.name == CourseToolName then
      match Build(args, env.instructors, env.subjects)
      case Err(_) => Skip
      case Ok(filter) =>
        var found := QueryText(env.courses(CourseQuery([CourseQueryText], CourseResultLimit, filter)),
                               env.decodeDocument, env.encodeDocument);
        Reply(CoursesPreamble + found + CoursesFollowUp)
    else Reply("")
  }

  /** The tool turns appended for a list of calls, and whether the process died. */
  datatype Dispatched = Dispatched(turns: seq<Message>, crashed: bool)

  function Dispatch(calls: seq<ToolCall>, env: Services): Dispatched {
    if calls == [] then Dispatched([], false)
    else
      var done := Dispatch(calls[..|calls| - 1], env);
      var call := calls[|calls| - 1];
      if done.crashed then done
      else
        match ToolReplyFor(call, env)
        case Reply(content) => Dispatched(done.turns + [ToolTurn(call, content)], false)
        case Skip => done
        case Crash => Dispatched(done.turns, true)
  }

  /** How a user line ends: the loop returns (Quit, Exited, Crashed) or goes on. */
  datatype Outcome = Quit | Exited | Skipped | Answered(text: string) | Crashed

  predicate Ends(o: Outcome) {
    o.Quit? || o.Exited? || o.Crashed?
  }

  /** The dialogue after one user line, the outcome, and the dialogues sent as requests. */
  datatype StepResult = StepResult(dialogue: seq<Message>, outcome: Outcome, requests: seq<seq<Message>>)

  function Step(d: seq<Message>, x: Exchange, env: Services): StepResult {
    if x.question == QuitCommand then StepResult(d, Quit, [])
    else
      var asked := d + [UserTurn(x.question)];
      match x.first
      case TransportError(_) => StepResult(asked, Exited, [asked])
      case Choices(choices) =>
        if |choices| == 0 then StepResult(asked, Skipped, [asked])
        else
          var msg := choices[0];
          var answered := asked + [msg];
          if msg.toolCalls == [] then StepResult(answered, Answered(msg.content), [asked])
          else
            var dispatched := Dispatch(msg.toolCalls, env);
            var augmented := answered + dispatched.turns;
            if dispatched.crashed then StepResult(augmented, Crashed, [asked])
            else
              match x.followUp
              case TransportError(_) => StepResult(augmented, Exited, [asked, augmented])
              case Choices(replies) =>
                if |replies| != 1 then StepResult(augmented, Exited, [asked, augmented])
                else StepResult(augmented, Answered(replies[0].content), [asked, augmented])
  }

  /** The dialogue after a run over several lines, and the outcome of each line handled. */
  datatype Ran = Ran(dialogue: seq<Message>, outcomes: seq<Outcome>)

  function RunAll(d: seq<Message>, xs: seq<Exchange>, env: Services): Ran
    decreases |xs|
  {
    if xs == [] then Ran(d, [])
    else
      var s := Step(d, xs[0], env);
      if Ends(s.outcome) then Ran(s.dialogue, [s.outcome])
      else
        var rest := RunAll(s.dialogue, xs[1..], env);
        Ran(rest.dialogue, [s.outcome] + rest.outcomes)
  }

  function Resume(earlier: seq<Outcome>, r: Ran): Ran {
    Ran(r.dialogue, earlier + r.outcomes)
  }

  /** What the loop body does for one call, short of appending the tool turn. */
  method HandleToolCall(tool: ToolCall, env: Services) returns (reply: ToolReply)
    ensures reply == ToolReplyFor(tool, env)
  {
    if tool.name == EmailToolName {
      var launch := EmailProfessor(env.decodeArguments(tool.arguments), env.goos);
      if launch.Panicked? {
        return Crash;
      }
      return Reply(EmailConfirmation);
    } else if tool.name == CourseToolName {
      var whereFilter, _ := BuildWhereFilter(env.decodeArguments(tool.arguments), env.instructors, env.subjects);
      if whereFilter.Err? {
        return Skip;
      }
      var queryResults, _ := QueryDb(env.courses, whereFilter.value, env.decodeDocument, env.encodeDocument);
      return Reply(CoursesPreamble + queryResults + CoursesFollowUp);
    }
    return Reply("");
  }

  /** One interactive session: the dialogue sent to the language model. */
  class Session {
    var dialogue: seq<Message>

    /** InitializeDialogue: the dialogue starts with the system turn alone. */
    constructor (systemPrompt: string)
      ensures dialogue == [Message(System, systemPrompt, "", "", [])]
    {
      dialogue := [Message(System, systemPrompt, "", "", [])];
    }

    /** The body of the scanner loop, for one line and the replies it gets. */
    method HandleQuestion(x: Exchange, env: Services) returns (outcome: Outcome, requests: seq<seq<Message>>)
      modifies this
      ensures Step(old(dialogue), x, env) == StepResult(dialogue, outcome, requests)
    {
      if x.question == QuitCommand {
        return Quit, [];
      }
      dialogue := dialogue + [UserTurn(x.question)];
      requests := [dialogue];
      var resp := x.first;
      if resp.TransportError? {
        return Exited, requests;
      }
      if |resp.choices| == 0 {
        return Skipped, requests;
      }
      var msg := resp.choices[0];
      dialogue := dialogue + [msg];
      if msg.toolCalls != [] {
        var crashed := AnswerToolCalls(msg.toolCalls, env);
        if crashed {
          return Crashed, requests;
        }
        requests := requests + [dialogue];
        resp := x.followUp;
        if resp.TransportError? || |resp.choices| != 1 {
          return Exited, requests;
        }
        msg := resp.choices[0];
      }
      outcome := Answered(msg.content);
    }

    /** The loop over the calls of one reply: one tool turn per answered call, in order. */
    method AnswerToolCalls(calls: seq<ToolCall>, env: Services) returns (crashed: bool)
      modifies this
      ensures dialogue == old(dialogue) + Dispatch(calls, env).turns
      ensures crashed == Dispatch(calls, env).crashed
    {
      var k := 0;
      while k < |calls|
        invariant 0 <= k <= |calls|
        invariant !Dispatch(calls[..k], env).crashed
        invariant dialogue == old(dialogue) + Dispatch(calls[..k], env).turns
      {
        var tool := calls[k];
        assert calls[..k + 1][..k] == calls[..k];
        var reply := HandleToolCall(tool, env);
        if reply.Crash? {
          CrashIsFinal(calls, k + 1, env);
          return true;
        }
        if reply.Skip? {
          k := k + 1;
          continue;
        }
        dialogue := dialogue + [ToolTurn(tool, reply.content)];
        k := k + 1;
      }
      assert calls[..k] == calls;
      crashed := false;
    }

    /**
     * The scanner loop: handles the lines in order and stops after the first
     * one whose outcome ends the loop.
     */
    method Run(exchanges: seq<Exchange>, env: Services) returns (outcomes: seq<Outcome>)
      modifies this
      ensures RunAll(old(dialogue), exchanges, env) == Ran(dialogue, outcomes)
    {
      outcomes := [];
      var i := 0;
      while i < |exchanges|
        invariant 0 <= i <= |exchanges|
        invariant RunAll(old(dialogue), exchanges, env) == Resume(outcomes, RunAll(dialogue, exchanges[i..], env))
      {
        assert exchanges[i..][1..] == exchanges[i + 1..];
        var outcome, _ := HandleQuestion(exchanges[i], env);
        outcomes := outcomes + [outcome];
        if Ends(outcome) {
          return;
        }
        i := i + 1;
      }
    }
  }

  // ---------------------------------------------------------------------------
  // Properties of tool dispatch

  /** Dispatching a + b dispatches a, then, unless that ended the process, b. */
  lemma {:induction false} DispatchAppend(a: seq<ToolCall>, b: seq<ToolCall>, env: Services)
    ensures Dispatch(a + b, env) ==
              if Dispatch(a, env).crashed then Dispatch(a, env)
              else Dispatched(Dispatch(a, env).turns + Dispatch(b, env).turns, Dispatch(b, env).crashed)
    decreases |b|
  {
    if b == [] {
      assert a + b == a;
    } else {
      var b' := b[..|b| - 1];
      assert (a + b)[..|a + b| - 1] == a + b';
      DispatchAppend(a, b', env);
    }
  }

  /** Once a call has ended the process, later calls are never handled. */
  lemma CrashIsFinal(calls: seq<ToolCall>, k: nat, env: Services)
    requires k <= |calls| && Dispatch(calls[..k], env).crashed
    ensures Dispatch(calls, env) == Dispatch(calls[..k], env)
  {
    assert calls == calls[..k] + calls[k..];
    DispatchAppend(calls[..k], calls[k..], env);
  }

  /**
   * A call that appends no tool turn (a get_relevant_courses call whose filter
   * cannot be built) leaves the calls after it handled exactly as if it had
   * not been made.
   */
  lemma SkippedCallIsInvisible(calls: seq<ToolCall>, i: nat, env: Services)
    requires i < |calls| && ToolReplyFor(calls[i], env).Skip?
    ensures calls[i].name == CourseToolName
    ensures Dispatch(calls, env) == Dispatch(calls[..i] + calls[i + 1..], env)
  {
    var a, b := calls[..i], calls[i + 1..];
    assert calls == (a + [calls[i]]) + b;
    DispatchAppend(a + [calls[i]], b, env);
    assert (a + [calls[i]])[..|a|] == a;
    DispatchAppend(a, b, env);
  }

  /** A tool turn that answers call: role tool, the call's name and its id. */
  predicate Answers(t: Message, call: ToolCall) {
    t.role == Tool && t.name == call.name && t.toolCallId == call.id && t.toolCalls == []
  }

  /**
   * turns answers some of calls, one turn per answered call, in the order in
   * which the calls were made.
   */
  predicate AnswersInOrder(turns: seq<Message>, calls: seq<ToolCall>)
    decreases |calls|
  {
    if calls == [] then turns == []
    else
      || AnswersInOrder(turns, calls[..|calls| - 1])
      || (&& turns != []
          && Answers(turns[|turns| - 1], calls[|calls| - 1])
          && AnswersInOrder(turns[..|turns| - 1], calls[..|calls| - 1]))
  }

  /** Every tool turn appended answers its call, and the turns follow the calls' order. */
  lemma {:induction false} DispatchAnswersInOrder(calls: seq<ToolCall>, env: Services)
    ensures AnswersInOrder(Dispatch(calls, env).turns, calls)
    ensures |Dispatch(calls, env).turns| <= |calls|
  {
    if calls != [] {
      var init := calls[..|calls| - 1];
      var done := Dispatch(init, env);
      DispatchAnswersInOrder(init, env);
      var turns := Dispatch(calls, env).turns;
      if turns != done.turns {
        assert turns[..|turns| - 1] == done.turns;
      }
    }
  }

  /**
   * When every call is answered, there is one tool turn per call, at the
   * call's own position, carrying its id, its name and its reply.
   */
  lemma {:induction false} DispatchAnswersAll(calls: seq<ToolCall>, env: Services)
    requires forall i :: 0 <= i < |calls| ==> ToolReplyFor(calls[i], env).Reply?
    ensures !Dispatch(calls, env).crashed
    ensures |Dispatch(calls, env).turns| == |calls|
    ensures forall i :: 0 <= i < |calls| ==>
              Dispatch(calls, env).turns[i] == ToolTurn(calls[i], ToolReplyFor(calls[i], env).content)
  {
    if calls != [] {
      var init := calls[..|calls| - 1];
      DispatchAnswersAll(init, env);
    }
  }

  // ---------------------------------------------------------------------------
  // Properties of one user line

  /**
   * The exact line "q" leaves the dialogue alone and sends nothing. Any other
   * line first appends exactly one user turn holding the line, and the first
   * request carries the dialogue up to and including it. The dialogue is only
   * ever appended to.
   */
  lemma StepAppends(d: seq<Message>, x: Exchange, env: Services)
    ensures var s := Step(d, x, env);
      && |s.dialogue| >= |d| && s.dialogue[..|d|] == d
      && (x.question == QuitCommand ==> s == StepResult(d, Quit, []))
      && (x.question != QuitCommand ==>
            && |s.dialogue| > |d|
            && s.dialogue[|d|] == UserTurn(x.question)
            && |s.requests| >= 1
            && s.requests[0] == d + [UserTurn(x.question)])
  {
    var s := Step(d, x, env);
    if x.question != QuitCommand {
      var asked := d + [UserTurn(x.question)];
      assert s.dialogue[..|asked|] == asked;
    }
  }

  /**
   * A failed first request ends the loop, and a reply with no choices goes on
   * to the next line, both with the dialogue grown by the user turn alone. A
   * reply that calls no tools grows the dialogue by exactly two turns, the
   * user's and the reply, and shows the reply's content.
   */
  lemma StepWithoutTools(d: seq<Message>, x: Exchange, env: Services)
    requires x.question != QuitCommand
    ensures var s := Step(d, x, env);
      && (x.first.TransportError? ==> s.outcome == Exited && |s.dialogue| == |d| + 1)
      && (x.first == Choices([]) ==> s.outcome == Skipped && |s.dialogue| == |d| + 1)
      && (x.first.Choices? && x.first.choices != [] && x.first.choices[0].toolCalls == [] ==>
            && s.dialogue == d + [UserTurn(x.question), x.first.choices[0]]
            && s.outcome == Answered(x.first.choices[0].content)
            && |s.requests| == 1)
  {
  }

  /**
   * A reply that calls tools is appended, followed by the tool turns for its
   * calls; then, unless a call ended the process, exactly one follow-up
   * request carries that whole dialogue. The follow-up's content is shown when
   * it has exactly one choice, and is never appended; otherwise the loop ends.
   */
  lemma StepWithTools(d: seq<Message>, x: Exchange, env: Services)
    requires x.question != QuitCommand && x.first.Choices? && x.first.choices != []
    requires x.first.choices[0].toolCalls != []
    ensures var s, msg := Step(d, x, env), x.first.choices[0];
      var dispatched := Dispatch(msg.toolCalls, env);
      && s.dialogue == d + [UserTurn(x.question), msg] + dispatched.turns
      && |s.dialogue| <= |d| + 2 + |msg.toolCalls|
      && AnswersInOrder(s.dialogue[|d| + 2..], msg.toolCalls)
      && (dispatched.crashed ==> s.outcome == Crashed && |s.requests| == 1)
      && (!dispatched.crashed ==>
            && |s.requests| == 2
            && s.requests[1] == s.dialogue
            && (s.outcome.Answered? <==> x.followUp.Choices? && |x.followUp.choices| == 1)
            && (s.outcome.Answered? ==> s.outcome.text == x.followUp.choices[0].content)
            && (!s.outcome.Answered? ==> s.outcome == Exited))
  {
    var msg := x.first.choices[0];
    DispatchAnswersInOrder(msg.toolCalls, env);
    var s := Step(d, x, env);
    assert s.dialogue[|d| + 2..] == Dispatch(msg.toolCalls, env).turns;
  }

  // ---------------------------------------------------------------------------
  // Properties of the whole loop

  /**
   * Over any run the dialogue is only appended to; the loop handles lines in
   * order, never more than it is given, and stops right after the first line
   * whose outcome ends it.
   */
  lemma {:induction false} RunAppendsAndStops(d: seq<Message>, xs: seq<Exchange>, env: Services)
    ensures var r := RunAll(d, xs, env);
      && |r.dialogue| >= |d| && r.dialogue[..|d|] == d
      && |r.outcomes| <= |xs|
      && (forall k :: 0 <= k < |r.outcomes| - 1 ==> !Ends(r.outcomes[k]))
      && (|r.outcomes| < |xs| ==> r.outcomes != [] && Ends(r.outcomes[|r.outcomes| - 1]))
      && (xs != [] ==> r.outcomes != [] && r.outcomes[0] == Step(d, xs[0], env).outcome)
    decreases |xs|
  {
    if xs != [] {
      var s := Step(d, xs[0], env);
      StepAppends(d, xs[0], env);
      if !Ends(s.outcome) {
        RunAppendsAndStops(s.dialogue, xs[1..], env);
        var rest := RunAll(s.dialogue, xs[1..], env);
        assert rest.dialogue[..|d|] == s.dialogue[..|s.dialogue|][..|d|];
        var r := RunAll(d, xs, env);
        forall k | 0 <= k < |r.outcomes| - 1 ensures !Ends(r.outcomes[k]) {
          if k > 0 {
            assert r.outcomes[k] == rest.outcomes[k - 1];
          }
        }
      }
    }
  }

  // ---------------------------------------------------------------------------
  // Worked examples

  /**
   * An email_instructor call with a string address is answered with the fixed
   * confirmation, and on macOS the command opens the mailto link.
   */
  lemma EmailCallConfirmed(call: ToolCall, env: Services)
    requires call.name == EmailToolName && env.goos == "darwin"
    requires env.decodeArguments(call.arguments) == Some([Member(EmailParameter, JString("x@y.edu"))])
    ensures ToolReplyFor(call, env) == Reply(EmailConfirmation)
    ensures EmailProfessor(env.decodeArguments(call.arguments), env.goos) == Launch(["open", "mailto:x@y.edu"])
  {
    assert MailtoScheme + "x@y.edu" == "mailto:x@y.edu";
  }

  /**
   * A course query that retrieves nothing still yields a tool turn holding the
   * preamble and the invitation to call another tool, with nothing in between.
   */
  lemma EmptyResultStillInvites(call: ToolCall, env: Services)
    requires call.name == CourseToolName
    requires Build(env.decodeArguments(call.arguments), env.instructors, env.subjects).Ok?
    requires forall q :: env.courses(q) == Hits([])
    ensures ToolReplyFor(call, env) == Reply(CoursesPreamble + CoursesFollowUp)
  {
    var filter := Build(env.decodeArguments(call.arguments), env.instructors, env.subjects).value;
    var reply := env.courses(CourseQuery([CourseQueryText], CourseResultLimit, filter));
    NothingRetrievedGivesEmptyText([], env.decodeDocument, env.encodeDocument);
    assert CoursesPreamble + "" == CoursesPreamble;
  }
}
