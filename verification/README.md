# cadenai prompt templates and LLM chain, in Dafny

This project models the prompt-template layer and the LLM chain of cadenai.

**Prompt templates** (`cadenai/prompt_manager/template.py`):
- `Role` has three members. Each has a cadenai name and an OpenAI/Mistral name, and `from_role_name` looks a role up by either name.
- `PromptSyntax` is a table of aliases, and `from_str` looks a syntax up by alias.
- `PromptTemplate` is a plain text template.
- `MessageTemplate` renders one message in the shape a syntax asks for: a tuple, a dict or a Mistral chat message.
- `ChatPromptTemplate` is an ordered list of message templates plus the names of the input variables. It can be:
  - built from (role name, content) tuples;
  - rendered message by message;
  - extended in place by `add_system_message`, `add_ai_message` and `add_human_message`;
  - printed with `str`;
  - measured in tokens with `len`.

**LLM chain** (`cadenai/chains/llm_chain.py`): `LLMChain` binds a template to an LLM.
- `run` renders the template in the LLM's own prompt syntax and makes one completion call.
- `multiple_runs` does the same for a list of inputs, in order.

## Modules

- **`base.dfy`, module `Base`**:
  - the exceptions the code can raise (`Error`);
  - `Result` and `Option`;
  - the first-match search behind Python's `for member in Enum: if …: return member`;
  - `MapUntilError`, the loop that appends `f(x)` for each `x` and lets the first exception propagate.
- **`strformat.dfy`, module `StrFormat`**: the part of Python's `str.format(**kwargs)` that the templates use.
  - `{name}` fields are looked up among the keyword arguments.
  - `{{` and `}}` are escapes.
  - A field name runs to its first `}`, `{`, `[`, `:` or `!`; braces do not nest.
  - A lone `}`, a `{` inside a field name, or a name running to the end of the text raises ValueError.
  - A positional field raises IndexError. A field name starting with digits worth more than Py_ssize_t's maximum (2^63-1) raises ValueError, whatever follows the digits. A missing key raises KeyError.
- **`pyrepr.dfy`, module `PyRepr`**: Python's `repr` of a str, of a tuple of two str and of a list of such tuples.
  - It includes a reader for those literals, like `ast.literal_eval`.
  - The reader proves that printing loses nothing.
- **`template.dfy`, module `Template`**: the prompt-template classes.
  - `ChatPromptTemplate` is a Dafny class whose two list fields are updated in place.
  - `from_messages`, `format`, `__str__` and `__len__` are loops proved against specification functions (`MessagesFrom`, `FormatAll`, `ShownAll`, `TokenTotal`).
- **`llm_chain.dfy`, module `Chain`**: the chain.
  - The LLM is a class `Llm` whose `backend` function stands for the external completion service. `backend` is given the earlier calls, so successive answers may differ.
  - `Llm` records every call in `calls`.
  - The chain's template is any of the three template classes (`PromptSource`).
  - `RunAll` is the specification of `multiple_runs`.

## Model

| member | source | states |
|---|---|---|
| Template.Role.Value | cadenai/prompt_manager/template.py:9-12 | the enum values ("system","system"), ("ai","assistant"), ("human","user"); their disjointness and round trip are `RoleNamesDisjoint` and `RoleNameRoundTrip` |
| Template.Role.CadenaiName | cadenai/prompt_manager/template.py:14-16 | the `cadenai` property: the first component of the role's value ("system", "ai", "human") |
| Template.Role.OpenAIName | cadenai/prompt_manager/template.py:18-20 | the `openai` property: the second component of the role's value ("system", "assistant", "user") |
| Template.Role.MistralName | cadenai/prompt_manager/template.py:22-24 | the `mistral` property: also the second component of the value, the same as `openai` |
| Template.FromRoleName | cadenai/prompt_manager/template.py:26-31 | the first role, in declaration order, whose cadenai or openai name is `name`; the returned role answers to the name, and on ValueError (carrying the name) no role does |
| Template.RoleNamesDisjoint | cadenai/prompt_manager/template.py:9-24 | no name belongs to two roles: the cadenai and openai names of System ("system","system"), AI ("ai","assistant") and Human ("human","user") are pairwise distinct across roles |
| Template.FromRoleNameSpec | cadenai/prompt_manager/template.py:26-31 | `from_role_name(name)` returns role r iff name is r's cadenai or openai name; it raises ValueError carrying the name iff no role has that name |
| Template.RoleNameRoundTrip | cadenai/prompt_manager/template.py:14-31 | every role is found again from its cadenai, openai and mistral names |
| Template.PromptSyntax.Aliases | cadenai/prompt_manager/template.py:53-56 | the alias tuples of CADENAI, OPENAI and MISTRAL, spelling for spelling; `AliasesDisjoint` proves no spelling is shared |
| Template.FromStr | cadenai/prompt_manager/template.py:58-63 | the first syntax, in declaration order, whose alias tuple contains the label; the returned syntax lists it, and on ValueError (carrying the label) no syntax does |
| Template.AliasesDisjoint | cadenai/prompt_manager/template.py:53-56 | the alias tuples of CADENAI, OPENAI and MISTRAL share no spelling |
| Template.FromStrSpec | cadenai/prompt_manager/template.py:58-63 | `from_str(label)` returns s iff label is among s's aliases; it raises ValueError carrying the label iff no syntax lists it |
| Template.PromptTemplate.Format | cadenai/prompt_manager/template.py:44-45 | `template.format(**kwargs)`, computed by `StrFormat.Fill` |
| Template.PromptTemplate.ToString | cadenai/prompt_manager/template.py:47-48 | `__str__`: the raw template, placeholders included |
| Template.PromptTemplate.Length | cadenai/prompt_manager/template.py:50-51 | `__len__`: the token count of the raw template, by the given counter |
| StrFormat.Fill | cadenai/prompt_manager/template.py:45 | `str.format(**kwargs)` scanned left to right: literal text copied, `{{`/`}}` as single braces, each field replaced by `LookupField`, and the first error raised |
| StrFormat.LookupField | cadenai/prompt_manager/template.py:45 | the value of one field name: leading ASCII digits worth more than 2^63-1 are ValueError whatever follows them; otherwise an empty name or one of ASCII digits only is IndexError, a missing key is KeyError, and any other name gives its keyword argument |
| StrFormat.DigitRun | cadenai/prompt_manager/template.py:45 | the length of the run of decimal digits a field name starts with: every character before it is a digit and the one at it is not |
| StrFormat.LookupTooManyDigits | cadenai/prompt_manager/template.py:45 | a name starting with digits worth more than 2^63-1, such as `99999999999999999999x`, raises ValueError whatever characters follow the digits |
| StrFormat.NameEnd | cadenai/prompt_manager/template.py:45 | a field name ends at the first `}`, `{`, `[`, `:` or `!`, or at the end of the text, and no earlier character is one of those |
| StrFormat.FillNumericField | cadenai/prompt_manager/template.py:45 | a `{n}` field of decimal digits raises IndexError, as no positional argument is ever passed, or ValueError when n exceeds 2^63-1 |
| StrFormat.FillUnsupportedSuffix | cadenai/prompt_manager/template.py:45 | a field name followed by `[`, `:` or `!` gives the model's unsupported-field error naming it |
| StrFormat.FillUnclosedField | cadenai/prompt_manager/template.py:45 | a field whose name runs to the end of the text raises ValueError |
| Template.PromptTemplateLiteral | cadenai/prompt_manager/template.py:44-48 | a template without braces formats to exactly what `__str__` returns (the raw template); a template with doubled braces formats to the text with single braces, whatever the keyword arguments |
| StrFormat.FillField | cadenai/prompt_manager/template.py:45 | a `{name}` field is replaced by the keyword argument `name`, and formatting continues after it; a missing argument raises KeyError naming it |
| StrFormat.FillOneField | cadenai/prompt_manager/template.py:45 | a template with one placeholder between brace-free text formats to the text with the argument substituted, or raises KeyError |
| StrFormat.FillLiteralPrefix | cadenai/prompt_manager/template.py:45 | brace-free text in front of a template is copied to the output unchanged, and any exception from the rest is kept |
| StrFormat.FillLiteral | cadenai/prompt_manager/template.py:45 | a template without braces formats to itself |
| StrFormat.FillBraceInName | cadenai/prompt_manager/template.py:45 | a `{` inside a field name, as in `{a{b}}` or `{a{b}`, raises ValueError whatever follows it |
| StrFormat.FillEscape | cadenai/prompt_manager/template.py:45 | formatting undoes brace doubling: any text written with `{{`/`}}` comes back exactly |
| Template.MessageTemplate.Format | cadenai/prompt_manager/template.py:71-79 | `format(syntax, **kwargs)`: the syntax looked up with `from_str`, then the content filled, then the message built in that syntax's shape |
| Template.MessageTemplate.ToString | cadenai/prompt_manager/template.py:81-82 | `__str__`: `repr((role.cadenai, content))` |
| Template.MessageTemplate.Length | cadenai/prompt_manager/template.py:84-85 | `__len__`: the token count of the raw content |
| PyRepr.ReprStr | cadenai/prompt_manager/template.py:82 | Python's `repr` of a str: single quotes unless the text holds a single quote and no double quote; backslash, the chosen quote, tab, newline and carriage return escaped; other control characters and DEL as `\xhh` |
| PyRepr.ReprPair | cadenai/prompt_manager/template.py:82 | `repr` of a tuple of two str: `(a, b)` with both `repr`s |
| Template.MessageFormatErrors | cadenai/prompt_manager/template.py:71-79 | `MessageTemplate.format` raises the syntax's ValueError first when the syntax is unknown, then the content's formatting exception; it returns a message otherwise |
| Template.MessageFormatShape | cadenai/prompt_manager/template.py:73-79 | CADENAI gives the tuple (role.cadenai, filled content); OPENAI gives a dict with exactly the keys "role" = role.openai and "content" = filled content; MISTRAL gives a chat message with role.mistral and the filled content |
| Template.MessageFormatKeepsRole | cadenai/prompt_manager/template.py:71-79 | whatever the syntax, the rendered message's role name looks up (via `from_role_name`) to the template's role, and its text is the filled content |
| PyRepr.ReadReprStr | cadenai/prompt_manager/template.py:82 | a printed str literal reads back as the str, whatever follows it |
| PyRepr.ReprPairInjective | cadenai/prompt_manager/template.py:82 | two (role, content) tuples print the same only when they are equal |
| Template.MessageToStringRoundTrip | cadenai/prompt_manager/template.py:81-82 | `MessageTemplate.__str__` prints (role.cadenai, raw content); that text reads back as the pair, and the pair gives back the role and the unrendered content |
| Template.ChatPromptTemplate.constructor | cadenai/prompt_manager/template.py:94 | a template holding exactly the given input variables and message templates |
| Template.MessageFrom | cadenai/prompt_manager/template.py:96 | the message built from one tuple: its role answers to the tuple's role name and its content is the tuple's content unchanged, or the ValueError carrying an unknown role name |
| Template.MessagesFrom | cadenai/prompt_manager/template.py:92-97 | it succeeds iff every tuple's role name is known; then there is one message per tuple, in order, with role `from_role_name(t[0])` and content `t[1]` unchanged; otherwise it raises the ValueError of the first unknown name |
| Template.ChatPromptTemplate.FromMessages | cadenai/prompt_manager/template.py:92-97 | `from_messages` returns a new template whose input variables are exactly those given and whose messages are `MessagesFrom(messages)`; it raises that function's ValueError when there is one |
| Template.FormatAll | cadenai/prompt_manager/template.py:99-103 | it succeeds iff every message renders; then element i is `messages_template[i].format(syntax, **kwargs)` and the lengths match; otherwise it raises the exception of the first message that fails |
| Template.ChatPromptTemplate.Format | cadenai/prompt_manager/template.py:99-103 | the loop returns exactly `FormatAll(messages_template, syntax, kwargs)` |
| Template.FormatAllAppend | cadenai/prompt_manager/template.py:99-103 | rendering one more message appends its rendering to the old result, or raises |
| Template.FormatAllUnknownSyntax | cadenai/prompt_manager/template.py:99-103 | with an unknown syntax, `format` raises that ValueError as soon as there is one message, and returns [] for an empty template |
| Template.ChatPromptTemplate.AddMessage | cadenai/prompt_manager/template.py:105-118 | the body shared by the three `add_*_message` methods: exactly one message with the given role and unrendered content is appended after the old ones; the input variables are extended by the list only when it is given and non-empty |
| Template.ChatPromptTemplate.AddSystemMessage | cadenai/prompt_manager/template.py:105-108 | exactly one System message with the unrendered content is appended, and earlier messages are unchanged; the input variables are extended by the list only when it is non-empty |
| Template.ChatPromptTemplate.AddAIMessage | cadenai/prompt_manager/template.py:110-113 | the same as AddSystemMessage, with the AI role |
| Template.ChatPromptTemplate.AddHumanMessage | cadenai/prompt_manager/template.py:115-118 | the same as AddSystemMessage, with the Human role |
| Template.MessagesFromAppend | cadenai/prompt_manager/template.py:92-118 | appending a message by role gives the same list as passing one more (role.cadenai, content) tuple to `from_messages` |
| Template.ShownAll | cadenai/prompt_manager/template.py:121-123 | the list `__str__` collects: one (role.cadenai, raw content) pair per message, in message order |
| Template.ChatPromptTemplate.ToString | cadenai/prompt_manager/template.py:120-124 | `__str__` prints the list of (role.cadenai, raw content) pairs, in message order |
| PyRepr.ReprPairList | cadenai/prompt_manager/template.py:124 | `repr` of a list of such tuples: `[` then the tuples separated by `, ` then `]` |
| PyRepr.ParseReprPairList | cadenai/prompt_manager/template.py:124 | reading a printed list of str pairs back gives the same list |
| PyRepr.ReprPairListInjective | cadenai/prompt_manager/template.py:124 | two lists of pairs print the same only when they are equal |
| Template.ChatToStringRoundTrip | cadenai/prompt_manager/template.py:120-124 | `str` of a chat template reads back as its pairs, and `from_messages` on those pairs rebuilds exactly the same messages |
| Template.ChatToStringInjective | cadenai/prompt_manager/template.py:120-124 | two chat templates print the same only when their messages are equal |
| Template.TokenTotal | cadenai/prompt_manager/template.py:126-130 | the sum of `len(m)` over the messages, added first to last; its properties are `TokenTotalAppend` and `TokenTotalParts` |
| Template.ChatPromptTemplate.Length | cadenai/prompt_manager/template.py:126-130 | `__len__` is the sum of the messages' token counts of their raw contents |
| Template.TokenTotalAppend | cadenai/prompt_manager/template.py:126-130 | `len` of a concatenation of messages is the sum of the parts' `len` |
| Template.TokenTotalParts | cadenai/prompt_manager/template.py:126-130 | each message's count is at most the total, and appending a message adds exactly the count of its content |
| Chain.Llm.GetCompletion | cadenai/chains/llm_chain.py:19 | a completion call is recorded after the earlier ones, and returns the backend's answer to it given those earlier calls |
| Chain.LlmChain.constructor | cadenai/chains/llm_chain.py:7-15 | it stores `llm`, `prompt_template` and `max_tokens` as given, with `max_tokens` defaulting to 256 |
| Chain.Render | cadenai/chains/llm_chain.py:18 | `prompt_template.format(syntax=syntax, **kwargs)` for each template class, computed by the method `LlmChain.Format` (the chat case by the loop of `ChatPromptTemplate.Format`); a `syntax` key among the kwargs is TypeError; a plain template receives `syntax` as one more keyword argument |
| Chain.RunStep | cadenai/chains/llm_chain.py:17-19 | one `run` on a rendered prompt: a rendering exception is raised with the call log unchanged; otherwise exactly one call with that prompt, `max_tokens` and `stream` is appended after the earlier calls, and the result is the backend's answer to it given those calls |
| Chain.LlmChain.Run | cadenai/chains/llm_chain.py:17-19 | a rendering exception propagates and no call is made; otherwise exactly one call is made, with the rendered prompt, the chain's `max_tokens` and the caller's `stream`, and its answer is returned verbatim |
| Chain.InputPrompts | cadenai/chains/llm_chain.py:23-24 | one rendered prompt (or exception) per input dict, in input order, element i being `InputPrompt` of input i |
| Chain.InputPrompt | cadenai/chains/llm_chain.py:24 | the prompt `run` renders for one input dict, or the TypeError of a `stream` or `self` key in it |
| Chain.LlmChain.RunInput | cadenai/chains/llm_chain.py:24 | `self.run(**input, stream=stream)`: a `stream` or `self` key in the input dict raises TypeError before any call; otherwise it is exactly one `run` of that dict with the given `stream` |
| Chain.LlmChain.MultipleRuns | cadenai/chains/llm_chain.py:21-25 | the result and the call log are exactly `RunAll` over the inputs' prompts, starting from the calls made before |
| Chain.RunAll | cadenai/chains/llm_chain.py:21-25 | `run` over the prompts in order, each call seeing the calls before it; the outputs collected, or the first exception with the calls made until then |
| Chain.RunAllCalls | cadenai/chains/llm_chain.py:21-25 | the new calls follow the earlier ones, at most one per input and in input order; each has that input's prompt, the same `max_tokens` and the same `stream`; an empty input list returns [] and makes no call |
| Chain.RunAllOutputs | cadenai/chains/llm_chain.py:21-25 | when no run raises there is one output per input and one call per input; output i is the backend's answer to call i, given the calls before it |
| Chain.RunAllFailure | cadenai/chains/llm_chain.py:21-25 | when a run raises, every earlier input rendered and the exception is that of the first failing run. If its rendering failed, no call was made for it; if its completion call failed, that call is the last one |

## Left out

- **`token_counter`** (tiktoken's `gpt-4` encoding) is an external tokenizer. `__len__` takes the token counter as a function parameter `count`, so nothing is assumed about it beyond returning a natural number.
- StrFormat.Fill / StrFormat.LookupField: format specifications, conversions (`!r`) and attribute or index access inside a field are outside the model. A field that uses them gives the model's own `UnsupportedField` error instead of Python's result.
- StrFormat.LookupField: only the ASCII digits 0-9 make a field name a positional index. Python also reads a name made of other Unicode decimal digits (Arabic-Indic digits, say) as an index and raises IndexError; the model raises KeyError for it.
- **Keyword argument values** are modelled by their text. Python renders any object through `format(value, '')`, so an int or other value in `kwargs` or in a `multiple_runs` input dict stands here as the string it renders to.
- **Mistral message**: the Mistral client's `ChatMessage` is a foreign class. It is modelled as a record of a role name and a content.
- PyRepr.ReprStr: for non-ASCII text, the model treats every character at or above U+0080 as printable. Python escapes the non-printable ones among them (such as U+0085 or U+00A0) as `\x..`, `\u....` or `\U........`.
- **Reading `repr` back**: the reader accepts only the escapes `repr` produces. It is a proof device standing in for `ast.literal_eval`, not a general Python literal parser.
- **Call binding**: `Chain.LlmChain.Run` requires that `kwargs` holds no `stream` or `self` key, because Python binds those names to `run`'s own parameters. A `multiple_runs` input dict with such a key is modelled as the TypeError Python raises. A `self` or `syntax` key passed to a template's own `format` is not modelled, because the chain never passes one.
- **`input_variables=None` versus `[]`** in `add_*_message`: both are falsy in Python and leave the list unchanged. They are modelled as `None`, the parameter's default as in Python, and `Some([])`, with that same effect.
- **Templates held by value**: a `PromptTemplate` or `MessageTemplate` is a Dafny value, both as the chain's template and inside a `ChatPromptTemplate`'s list. Python shares these mutable pydantic objects, so a change made through another reference would be seen by the chain; the model cannot express that aliasing.
- **Tuples given to `from_messages`** are modelled as (role name, content) pairs. In Python, cadenai/prompt_manager/template.py line 96 reads the role name before the content. So an empty tuple raises IndexError; a one-item tuple raises the ValueError of an unknown role name, and IndexError when the name is known. Items after the second are ignored.
- **Lists** are modelled as values. pydantic copies a list when it validates a model, so a list given to `from_messages` is not shared with the caller.
- **The LLM interface** (`BasePromptTemplate` and `LLM` in `cadenai/schema.py`, and `cadenai/llm/mistral/chat_wrapper.py`): the schema module is not part of this model. The provider client is network I/O with an API key read from the environment, so it is the `backend` function parameter of `Chain.Llm`. The streaming generator is a `Stream` value holding its fragments.
- **Text splitter, vector store, retrieval chain, embeddings, PDF loader, encoder**: their implementations are not part of this model.
- **`DocumentHandler.save`**: file I/O.
- **Tests that disagree with the source**: tests/prompt_manager/test_template.py calls `format` without `syntax` at lines 13, 30 and 49, and with `openai_format=True` instead at lines 18 and 67. tests/chains/test_llm_chain.py expects `format` to be called with `openai_format=True` and no `syntax` at lines 31, 46, 61-62 and 79-80. The source's `format` takes `syntax`, and the chain passes the LLM's prompt syntax; the model follows the source.
