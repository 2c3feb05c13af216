/** What `_format_messages` promises, stated over the whole conversation and per role. */
module FormatterProperties {
  import opened Wrappers
  import opened Messages
  import opened Formatter

  /** A message `Untemplate` accepts is exactly the template of what it recovers. */
  lemma UntemplateTemplate(m: BaseMessage, t: Turn)
    requires Untemplate(m) == Some(t)
    ensures Template(t) == m
  {
    match m
    case SystemMessage(s) =>
      assert s == s[..|SystemOpen|] + s[|SystemOpen|..|s| - |SystemClose|] + s[|s| - |SystemClose|..];
    case AIMessage(s) =>
      assert s == s[..|s| - |AssistantClose|] + s[|s| - |AssistantClose|..];
    case HumanMessage(s) =>
      assert s == s[..|s| - |HumanClose|] + s[|s| - |HumanClose|..];
  }

  /** Different turns never format to the same message: role and content survive formatting. */
  lemma TemplateInjective(t1: Turn, t2: Turn)
    requires Template(t1) == Template(t2)
    ensures t1 == t2
  {
    TemplateUntemplate(t1);
    TemplateUntemplate(t2);
  }

  /** A system message, typed or a dictionary with role "system" in any case, gets the system sentinels. */
  lemma SystemRole(m: Message, c: string)
    requires m == Typed(SystemKind, c) || (m.Dict? && m.role.Str? && Lower(m.role.s) == "system" && m.body == Some(c))
    ensures FormatElement(m) == Success(Some(SystemMessage("<s> [INST]<<SYS>>\n" + c + "\n<</SYS>>\n\n")))
  {
  }

  /** An assistant message, typed (`AIMessage`) or a dictionary with role "assistant", closes the turn. */
  lemma AssistantRole(m: Message, c: string)
    requires m == Typed(AIKind, c) || (m.Dict? && m.role.Str? && Lower(m.role.s) == "assistant" && m.body == Some(c))
    ensures FormatElement(m) == Success(Some(AIMessage(c + " </s><s> [INST] ")))
  {
  }

  /** A human message, typed or a dictionary with role "user" or "human", closes the instruction. */
  lemma HumanRole(m: Message, c: string)
    requires m == Typed(HumanKind, c)
      || (m.Dict? && m.role.Str? && Lower(m.role.s) in {"user", "human"} && m.body == Some(c))
    ensures FormatElement(m) == Success(Some(HumanMessage(c + " [/INST] ")))
  {
  }

  /**
   * A dictionary without content is formatted as if its content were "", and one whose role
   * is missing or not recognised after lower-casing yields `None` in its place; neither raises.
   */
  lemma DictDefaults(role: Field, body: Option<string>)
    requires !role.NotStr?
    ensures FormatElement(Dict(role, body)) == FormatElement(Dict(role, Some(body.GetOr(""))))
    ensures role.Missing? ==> FormatElement(Dict(role, body)) == Success(None)
    ensures role.Str? ==> (FormatElement(Dict(role, body)) == Success(None) <==> Lower(role.s) !in RoleNames)
  {
    assert Lower("") == "";
  }

  /** A typed message formats exactly as the dictionary naming its role does. */
  lemma TypedAsDict(k: Kind, c: string)
    requires k != OtherKind
    ensures FormatElement(Typed(k, c))
         == FormatElement(Dict(Str(match k case SystemKind => "system" case AIKind => "assistant" case _ => "human"), Some(c)))
  {
    match k
    case SystemKind =>
      assert Lower("system") == "system" by { LowerIs("system", "system"); }
      DictWithLowercaseRole("system", c);
    case AIKind =>
      assert Lower("assistant") == "assistant" by { LowerIs("assistant", "assistant"); }
      DictWithLowercaseRole("assistant", c);
    case HumanKind =>
      assert Lower("human") == "human" by { LowerIs("human", "human"); }
      DictWithLowercaseRole("human", c);
  }

  /** A dictionary whose role is already lower-case hands that role name to `format_message` as it is. */
  lemma DictWithLowercaseRole(name: string, c: string)
    requires Lower(name) == name
    ensures FormatElement(Dict(Str(name), Some(c))) == Success(FormatMessage(c, name))
  {
  }


  /**
   * The conversation formats without an exception exactly when every element does, and
   * then the result has one entry per element, in order: entry `i` is element `i` formatted.
   */
  lemma {:induction false} FormatSeqPointwise(ms: seq<Message>)
    ensures FormatSeq(ms).Success? <==> forall i :: 0 <= i < |ms| ==> FormatElement(ms[i]).Success?
    ensures FormatSeq(ms).Success? ==>
      |FormatSeq(ms).value| == |ms| &&
      forall i :: 0 <= i < |ms| ==> FormatSeq(ms).value[i] == FormatElement(ms[i]).value
  {
    if ms != [] {
      var init := ms[..|ms| - 1];
      FormatSeqPointwise(init);
      assert forall i :: 0 <= i < |init| ==> init[i] == ms[i];
    }
  }

  /** When some element raises, the call raises the exception of the first such element. */
  lemma {:induction false} FormatSeqFirstFailure(ms: seq<Message>, k: nat)
    requires k < |ms|
    requires FormatElement(ms[k]).Failure?
    requires forall i :: 0 <= i < k ==> FormatElement(ms[i]).Success?
    ensures FormatSeq(ms) == Failure(FormatElement(ms[k]).error)
  {
    var pre := ms[..k + 1];
    assert pre[..k] == ms[..k];
    FormatSeqPointwise(ms[..k]);
    assert FormatSeq(ms[..k]).Success?;
    FailureSpreads(ms, k + 1);
  }

  /** Input that is not a list raises a type error; no element is looked at. */
  lemma NotAListRaises()
    ensures Format(NotAList) == Failure(TypeError)
  {
  }

  /** The empty conversation formats to the empty list. */
  lemma EmptyConversation()
    ensures Format(List([])) == Success([])
  {
  }

  /** A conversation of typed and dictionary messages never raises; roles it does not know leave `None`. */
  lemma {:induction false} WellShapedNeverRaises(ms: seq<Message>)
    requires forall i :: 0 <= i < |ms| ==>
      (ms[i].Typed? && ms[i].kind != OtherKind) || (ms[i].Dict? && !ms[i].role.NotStr?)
    ensures Format(List(ms)).Success?
    ensures |Format(List(ms)).value| == |ms|
  {
    FormatSeqPointwise(ms);
  }
}
