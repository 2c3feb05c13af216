# ALLaM prompt formatter

A model of the prompt-formatting adapter of the ALLaM chat wrapper (`allam.py`).
Before a conversation goes to the hosted model, `ALLaM._format_messages` wraps
every message in the Llama-2 instruction sentinels of its role:

- system: `<s> [INST]<<SYS>>\n` + content + `\n<</SYS>>\n\n`
- assistant: content + ` </s><s> [INST] `
- user or human: content + ` [/INST] `

A message is either a typed LangChain message (`SystemMessage`, `AIMessage`,
`HumanMessage`) or a plain `{role, content}` dictionary. A dictionary's role is
lower-cased before the dispatch. A missing role or content counts as `""`. A
role that is not recognised leaves `None` in that position; it does not raise
and is not dropped. Input that is not a list raises `TypeError`. An element of
any other shape raises `ValueError`. A dictionary whose role is present but not
a string raises `AttributeError` from `.lower()`. Nothing is returned in either
case. The model also covers the constructor's parameter merge
`{**DEFAULT_PARAMETERS, **(parameters or {})}`.

Files:

- `wrappers.dfy` holds `Option` and `Result`.
- `messages.dfy` holds the input and output shapes, the exceptions, ASCII lower-casing and the role-name dispatch.
- `formatter.dfy` holds the per-role template and its inverse `Untemplate`, `format_message`, one loop step (`FormatElement`) and the whole call as a function (`Format`). It also holds `FormatMessages`, the loop that appends, proved equal to `Format`.
- `formatter_properties.dfy` holds the properties of the whole call and of each role.
- `parameters.dfy` holds the default table and the merge.
- `allam.dfy` holds the `ALLaM` object's constructor.

An unrecognised role does not raise and is not dropped: `format_message`
falls through and returns `None`, and the loop still appends that `None`, so
the output is a sequence of `Option<BaseMessage>` as long as the input.

## Model

| member | source | states |
|---|---|---|
| Messages.Lower | allam.py:75 | lower-casing keeps the length and maps each character through ASCII lower-casing, so no upper-case letter is left |
| Messages.ParseRole | allam.py:57-63 | a role name is recognised exactly when it is one of "system", "assistant", "human" or "user"; the system role exactly for "system", the assistant role exactly for "assistant", the human role exactly for "human" or "user" |
| Messages.LowerRecognisesCase | allam.py:75 | any spelling that lower-cases letter by letter to a role name, such as "USER" or "System", is dispatched as that role name after lower-casing, and is recognised |
| Formatter.FormatMessage | allam.py:57-63 | `format_message` returns a message exactly when the role name is recognised, and that message un-templates to the parsed role and the unchanged content |
| Formatter.FormatElement | allam.py:67-79 | one element raises `ValueError` exactly when it is neither a system, AI or human typed message nor a dictionary; it raises `AttributeError` exactly when it is a dictionary with a non-string role; it never raises `TypeError` |
| Formatter.FormatMessages | allam.py:54-81 | the loop that type-checks, appends one formatted entry per element and aborts on the first unsupported element returns exactly `Format(input)` |
| Formatter.TemplateUntemplate | allam.py:57-63 | stripping a role's sentinels from its template gives back the role and the content |
| Formatter.FailureSpreads | allam.py:67-79 | once some prefix of the conversation raised, the whole call raises that same exception |
| FormatterProperties.UntemplateTemplate | allam.py:57-63 | a message carrying a role's sentinels is exactly the template of the turn it strips to |
| FormatterProperties.TemplateInjective | allam.py:57-63 | two different turns never format to the same message |
| FormatterProperties.SystemRole | allam.py:58-69 | a typed system message or a dictionary whose role lower-cases to "system", with content c, becomes `SystemMessage("<s> [INST]<<SYS>>\n" + c + "\n<</SYS>>\n\n")` |
| FormatterProperties.AssistantRole | allam.py:60-71 | an `AIMessage` or a dictionary whose role lower-cases to "assistant", with content c, becomes `AIMessage(c + " </s><s> [INST] ")` |
| FormatterProperties.HumanRole | allam.py:62-73 | a `HumanMessage` or a dictionary whose role lower-cases to "user" or "human", with content c, becomes `HumanMessage(c + " [/INST] ")` |
| FormatterProperties.DictDefaults | allam.py:74-77 | a dictionary without content formats as if its content were ""; a missing role yields `None`; a string role yields `None` exactly when it is not recognised after lower-casing; none of these raise |
| FormatterProperties.TypedAsDict | allam.py:68-77 | a typed system, AI or human message formats exactly like the dictionary with role "system", "assistant" or "human" and the same content |
| FormatterProperties.FormatSeqPointwise | allam.py:65-81 | the call succeeds exactly when every element formats, and then the result has one entry per element, entry i being element i formatted |
| FormatterProperties.FormatSeqFirstFailure | allam.py:67-79 | when some element raises, the call raises the exception of the first such element and returns no partial list |
| FormatterProperties.NotAListRaises | allam.py:54-55 | input that is not a list raises `TypeError` |
| FormatterProperties.EmptyConversation | allam.py:65-81 | the empty list formats to the empty list |
| FormatterProperties.WellShapedNeverRaises | allam.py:67-77 | a list of typed messages and dictionaries with string or missing roles never raises and keeps its length, unrecognised roles included |
| Parameters.Merge | allam.py:32 | the effective keys are the default keys plus the caller's; a caller's key takes the caller's value; every other default key keeps its default; no override gives exactly the defaults |
| Parameters.MergeUnique | allam.py:32 | any map with those keys and those values is the merge |
| Parameters.EmptyOverride | allam.py:32 | an empty override gives exactly the defaults, as `None` does |
| Parameters.OverrideOne | allam.py:32 | overriding one key is the defaults with that one key updated |
| Parameters.TemperatureOverride | allam.py:15-32 | a temperature of 0.3 gives the default table with only the temperature replaced |
| Allam.ALLaM.constructor | allam.py:24-32 | the object's parameters are the defaults overridden key by key by the caller's parameters |

## Left out

- `invoke`, `ainvoke`, `stream` and `astream` (allam.py:83-99) are not modelled. They only format and then forward to the external `ChatWatsonx` client. Their substance is network calls, async suspension and streaming.
- The `ChatWatsonx` construction, `DEFAULT_MODEL_ID`, `DEFAULT_URL` and the `**kwargs` passthrough are not modelled. They belong to a foreign library's constructor.
- Reading `WATSONX_PROJECT_ID` and `WATSONX_APIKEY` and calling `load_dotenv()` are not modelled. They are process-global I/O.
- The demo entry point and `astream_response` are not modelled. They print and call the live service.
- Messages.Lower: only ASCII letters are lower-cased. Python's Unicode-aware `str.lower()` on other characters is not modelled.
- Typed message content is a string. LangChain's list-valued content, and a dictionary content that is not a string, are not modelled: the f-string renders them with `str()`, whose output is not modelled.
- A role value with its own `lower` method, such as `bytes`, is not modelled. `NotStr` stands for a value without one.
- The text of the exceptions is not modelled, in particular the type name inside the `ValueError` message. Only the exception class is.
- Parameter values are limited to the three literal kinds of the default table (string, integer, float). They are stored and forwarded and never interpreted. Other Python values a caller might pass behave the same in the merge.
- `parameters or {}` treats every falsy override like `{}`. The model covers `None` and the empty map, the only falsy dictionaries.
- `_format_messages` is an instance method but never reads `self`. `FormatMessages` is therefore a module-level method.
