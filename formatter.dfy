/**
 * `ALLaM._format_messages` and its nested `format_message`: every message of a
 * conversation is wrapped in the Llama-2 instruction sentinels of its role.
 */
module Formatter {
  import opened Wrappers
  import opened Messages

  /** Opens the instruction block and the system block in front of a system prompt. */
  const SystemOpen := "<s> [INST]<<SYS>>\n"
  /** Closes the system block after a system prompt, leaving the instruction open. */
  const SystemClose := "\n<</SYS>>\n\n"
  /** Ends an assistant turn and opens the next instruction. */
  const AssistantClose := " </s><s> [INST] "
  /** Ends a user instruction. */
  const HumanClose := " [/INST] "

  /** The template of each role, applied to the turn's content. */
  function Template(t: Turn): BaseMessage {
    match t.role
    case System => SystemMessage(SystemOpen + t.content + SystemClose)
    case Assistant => AIMessage(t.content + AssistantClose)
    case Human => HumanMessage(t.content + HumanClose)
  }

  /**
   * The inverse of `Template`: recovers the role and the content of a message
   * that carries its role's sentinels, and nothing from one that does not.
   */
  function Untemplate(m: BaseMessage): Option<Turn> {
    match m
    case SystemMessage(s) =>
      if |SystemOpen| + |SystemClose| <= |s| && s[..|SystemOpen|] == SystemOpen
         && s[|s| - |SystemClose|..] == SystemClose
      then Some(Turn(System, s[|SystemOpen|..|s| - |SystemClose|]))
      else None
    case AIMessage(s) =>
      if |AssistantClose| <= |s| && s[|s| - |AssistantClose|..] == AssistantClose
      then Some(Turn(Assistant, s[..|s| - |AssistantClose|]))
      else None
    case HumanMessage(s) =>
      if |HumanClose| <= |s| && s[|s| - |HumanClose|..] == HumanClose
      then Some(Turn(Human, s[..|s| - |HumanClose|]))
      else None
  }

  /** `format_message(content, role)`: `None` when the role name is not recognised. */
  function FormatMessage(content: string, role: string): (r: Option<BaseMessage>)
    ensures r.Some? <==> role in RoleNames
    ensures r.Some? ==> Untemplate(r.value) == Some(Turn(ParseRole(role).value, content))
  {
    match ParseRole(role)
    case None => None
    case Some(rl) =>
      TemplateUntemplate(Turn(rl, content));
      Some(Template(Turn(rl, content)))
  }

  /** What one iteration of the loop in `_format_messages` does with one element. */
  function FormatElement(m: Message): (r: Result<Option<BaseMessage>, Error>)
    ensures r == Failure(ValueError) <==> m.NotAMessage? || (m.Typed? && m.kind == OtherKind)
    ensures r == Failure(AttributeError) <==> m.Dict? && m.role.NotStr?
    ensures r != Failure(TypeError)
  {
    match m
    case Typed(SystemKind, c) => Success(FormatMessage(c, "system"))
    case Typed(AIKind, c) => Success(FormatMessage(c, "assistant"))
    case Typed(HumanKind, c) => Success(FormatMessage(c, "human"))
    case Typed(OtherKind, _) => Failure(ValueError)
    case Dict(Missing, body) => Success(FormatMessage(body.GetOr(""), Lower("")))
    case Dict(Str(role), body) => Success(FormatMessage(body.GetOr(""), Lower(role)))
    case Dict(NotStr, _) => Failure(AttributeError)
    case NotAMessage => Failure(ValueError)
  }

  /**
   * The list the loop has built after the elements `ms`, or the exception of
   * the first element that raised.
   */
  function FormatSeq(ms: seq<Message>): Result<seq<Option<BaseMessage>>, Error> {
    if ms == [] then Success([])
    else
      match FormatSeq(ms[..|ms| - 1])
      case Failure(e) => Failure(e)
      case Success(done) =>
        match FormatElement(ms[|ms| - 1])
        case Failure(e) => Failure(e)
        case Success(next) => Success(done + [next])
  }

  /** `_format_messages(messages)` as a function of its input. */
  function Format(input: Input): Result<seq<Option<BaseMessage>>, Error> {
    match input
    case NotAList => Failure(TypeError)
    case List(ms) => FormatSeq(ms)
  }

  /** `_format_messages`: the type check, then one pass that appends or raises. */
  method FormatMessages(input: Input) returns (r: Result<seq<Option<BaseMessage>>, Error>)
    ensures r == Format(input)
  {
    if input.NotAList? {
      return Failure(TypeError);
    }
    var messages := input.items;
    var formatted: seq<Option<BaseMessage>> := [];
    for i := 0 to |messages|
      invariant FormatSeq(messages[..i]) == Success(formatted)
    {
      assert messages[..i + 1][..i] == messages[..i];
      var next: Option<BaseMessage>;
      match messages[i] {
        case Typed(SystemKind, c) =>
          next := FormatMessage(c, "system");
        case Typed(AIKind, c) =>
          next := FormatMessage(c, "assistant");
        case Typed(HumanKind, c) =>
          next := FormatMessage(c, "human");
        case Dict(field, body) =>
          if field.NotStr? {
            FailureSpreads(messages, i + 1);
            return Failure(AttributeError);
          }
          var role := Lower(if field.Str? then field.s else "");
          var content := body.GetOr("");
          next := FormatMessage(content, role);
        case _ =>
          FailureSpreads(messages, i + 1);
          return Failure(ValueError);
      }
      formatted := formatted + [next];
    }
    assert messages[..|messages|] == messages;
    return Success(formatted);
  }

  /** `Untemplate` undoes `Template`. */
  lemma TemplateUntemplate(t: Turn)
    ensures Untemplate(Template(t)) == Some(t)
  {
    var c := t.content;
    match t.role
    case System =>
      var s := SystemOpen + c + SystemClose;
      assert s[..|SystemOpen|] == SystemOpen;
      assert s[|s| - |SystemClose|..] == SystemClose;
      assert s[|SystemOpen|..|s| - |SystemClose|] == c;
    case Assistant =>
      var s := c + AssistantClose;
      assert s[|s| - |AssistantClose|..] == AssistantClose;
      assert s[..|s| - |AssistantClose|] == c;
    case Human =>
      var s := c + HumanClose;
      assert s[|s| - |HumanClose|..] == HumanClose;
      assert s[..|s| - |HumanClose|] == c;
  }

  /** Once a prefix of the conversation raised, the whole conversation raises the same. */
  lemma {:induction false} FailureSpreads(ms: seq<Message>, n: nat)
    requires n <= |ms|
    requires FormatSeq(ms[..n]).Failure?
    ensures FormatSeq(ms) == FormatSeq(ms[..n])
    decreases |ms| - n
  {
    if n == |ms| {
      assert ms[..n] == ms;
    } else {
      assert ms[..n + 1][..n] == ms[..n];
      FailureSpreads(ms, n + 1);
    }
  }
}
