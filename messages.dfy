/**
 * The data the ALLaM formatter consumes and produces: the shapes a caller may
 * hand in (typed LangChain messages, `{role, content}` dictionaries, anything
 * else), the role-tagged messages it returns, the exceptions it raises, and
 * the string dispatch on a role name.
 */
module Messages {
  import opened Wrappers

  /** The three roles the Llama-2 instruction template knows. */
  datatype Role = System | Assistant | Human

  /** The class of a typed LangChain message, as far as `isinstance` tells them apart. */
  datatype Kind =
    | SystemKind   // SystemMessage (and its subclasses)
    | AIKind       // AIMessage (and its subclasses, such as AIMessageChunk)
    | HumanKind    // HumanMessage (and its subclasses)
    | OtherKind    // any other message class (ToolMessage, ChatMessage, ...)

  /** The value a dictionary holds under a key. */
  datatype Field =
    | Missing      // the key is absent
    | Str(s: string)
    | NotStr       // present, but a value without a `lower` method (None, a number, ...)

  /** One element of the caller's conversation. */
  datatype Message =
    | Typed(kind: Kind, content: string)
    | Dict(role: Field, body: Option<string>)
    | NotAMessage  // neither a typed message nor a dictionary

  /** What the caller passes as `messages`: a list, or some other value. */
  datatype Input = List(items: seq<Message>) | NotAList

  /** A role-tagged message as returned by the formatter. */
  datatype BaseMessage =
    | SystemMessage(text: string)
    | AIMessage(text: string)
    | HumanMessage(text: string)

  /** The exceptions `_format_messages` can raise. */
  datatype Error = TypeError | ValueError | AttributeError

  /** A role together with the text spoken in it. */
  datatype Turn = Turn(role: Role, content: string)

  /** The role names `format_message` recognises, after lower-casing. */
  const RoleNames: set<string> := {"system", "assistant", "human", "user"}

  predicate IsUpper(c: char) {
    'A' <= c <= 'Z'
  }

  /** ASCII lower-casing of one character. */
  function LowerChar(c: char): char {
    if IsUpper(c) then (c as int + 32) as char else c
  }

  /** `str.lower()`, restricted to ASCII letters. */
  function Lower(s: string): (r: string)
    ensures |r| == |s|
    ensures forall i :: 0 <= i < |s| ==> r[i] == LowerChar(s[i])
    ensures forall i :: 0 <= i < |r| ==> !IsUpper(r[i])
  {
    if s == [] then [] else [LowerChar(s[0])] + Lower(s[1..])
  }

  /** The string dispatch at the head of `format_message`. */
  function ParseRole(name: string): (r: Option<Role>)
    ensures r.Some? <==> name in RoleNames
    ensures r == Some(System) <==> name == "system"
    ensures r == Some(Assistant) <==> name == "assistant"
    ensures r == Some(Human) <==> name == "human" || name == "user"
  {
    if name == "system" then Some(System)
    else if name == "assistant" then Some(Assistant)
    else if name == "human" || name == "user" then Some(Human)
    else None
  }

  /** `Lower(s)` is `t` exactly when `t` is `s` with every letter lower-cased. */
  lemma LowerIs(s: string, t: string)
    requires |s| == |t|
    requires forall i :: 0 <= i < |s| ==> LowerChar(s[i]) == t[i]
    ensures Lower(s) == t
  {
  }

  /**
   * Any spelling of a role name, in whatever mix of upper and lower case, is
   * dispatched as that role once lower-cased ("USER" as "user", "System" as "system").
   */
  lemma LowerRecognisesCase(spelling: string, name: string)
    requires name in RoleNames
    requires |spelling| == |name|
    requires forall i :: 0 <= i < |name| ==> LowerChar(spelling[i]) == name[i]
    ensures ParseRole(Lower(spelling)) == ParseRole(name)
    ensures ParseRole(Lower(spelling)).Some?
  {
    LowerIs(spelling, name);
  }

}
