/** Prompt templates: the chat roles, the message syntaxes of the providers,
    plain-text templates, one-message templates, and the chat template that
    holds an ordered list of message templates and grows in place. */
module Template {
  import opened Base
  import StrFormat
  import PyRepr

  // ---------------------------------------------------------------------
  // Role

  /** A chat role.  Its enum value pairs the project's own name with the
      name the OpenAI and Mistral APIs use. */
  datatype Role = System | AI | Human {
    function Value(): (string, string) {
      match this
      case System => ("system", "system")
      case AI => ("ai", "assistant")
      case Human => ("human", "user")
    }

    /** The `cadenai` property: the first component of the value. */
    function CadenaiName(): string { Value().0 }

    /** The `openai` property: the second component of the value. */
    function OpenAIName(): string { Value().1 }

    /** The `mistral` property: also the second component of the value. */
    function MistralName(): string { Value().1 }

    /** What `from_role_name` tests each member with. */
    predicate Answers(name: string) {
      CadenaiName() == name || OpenAIName() == name
    }
  }

  /** The members in declaration order, the order `for role in Role` visits. */
  const Roles: seq<Role> := [System, AI, Human]

  /** `Role.from_role_name`: the first member whose cadenai or openai name is
      `name`; ValueError when there is none. */
  function FromRoleName(name: string): (r: Result<Role>)
    ensures r.Ok? ==> r.value.Answers(name)
    ensures r.Err? ==> r.error == InvalidRoleName(name) && forall i :: 0 <= i < |Roles| ==> !Roles[i].Answers(name)
  {
    match FirstMatch(Roles, (role: Role) => role.Answers(name))
    case Some(role) => Ok(role)
    case None => Err(InvalidRoleName(name))
  }

  /** No name belongs to two roles, so the first match is the only one. */
  lemma RoleNamesDisjoint(r1: Role, r2: Role, name: string)
    requires r1.Answers(name) && r2.Answers(name)
    ensures r1 == r2
  {
    assert "system" != "ai" && "system" != "assistant" && "system" != "human" && "system" != "user";
    assert "ai" != "human" && "ai" != "user" && "assistant" != "human" && "assistant" != "user";
  }

  /** `from_role_name` accepts exactly the two names of each role, and
      raises ValueError naming the input otherwise. */
  lemma FromRoleNameSpec(name: string, role: Role)
    ensures FromRoleName(name) == Ok(role) <==> role.Answers(name)
    ensures FromRoleName(name).Err? <==> (forall r: Role :: !r.Answers(name))
    ensures FromRoleName(name).Err? ==> FromRoleName(name).error == InvalidRoleName(name)
  {
    var p := (r: Role) => r.Answers(name);
    var m := FirstMatch(Roles, p);
    if m.Some? {
      if role.Answers(name) {
        RoleNamesDisjoint(m.value, role, name);
      }
    } else {
      assert Roles[0] == System && Roles[1] == AI && Roles[2] == Human;
      assert !p(Roles[0]) && !p(Roles[1]) && !p(Roles[2]);
      forall r: Role
        ensures !r.Answers(name)
      {
        assert r == System || r == AI || r == Human;
      }
    }
  }

  /** Every role is found again from any of its three names. */
  lemma RoleNameRoundTrip(role: Role)
    ensures FromRoleName(role.CadenaiName()) == Ok(role)
    ensures FromRoleName(role.OpenAIName()) == Ok(role)
    ensures FromRoleName(role.MistralName()) == Ok(role)
  {
    FromRoleNameSpec(role.CadenaiName(), role);
    FromRoleNameSpec(role.OpenAIName(), role);
  }

  // ---------------------------------------------------------------------
  // PromptSyntax

  /** The message format a provider expects, with the spellings accepted for it. */
  datatype PromptSyntax = Cadenai | OpenAI | Mistral {
    function Aliases(): seq<string> {
      match this
      case Cadenai => ["cadenai", "Cadenai", "cadenAI", "CadenAI"]
      case OpenAI => ["openai", "Openai", "openAI", "OpenAI"]
      case Mistral => ["mistral", "Mistral", "mistralai", "Mistralai", "mistralAI", "MistralAI"]
    }
  }

  /** The members in declaration order. */
  const Syntaxes: seq<PromptSyntax> := [Cadenai, OpenAI, Mistral]

  /** `PromptSyntax.from_str`: the first member listing `text` among its
      aliases; ValueError when there is none. */
  function FromStr(text: string): (r: Result<PromptSyntax>)
    ensures r.Ok? ==> text in r.value.Aliases()
    ensures r.Err? ==> r.error == InvalidSyntax(text) && forall i :: 0 <= i < |Syntaxes| ==> text !in Syntaxes[i].Aliases()
  {
    match FirstMatch(Syntaxes, (s: PromptSyntax) => text in s.Aliases())
    case Some(s) => Ok(s)
    case None => Err(InvalidSyntax(text))
  }

  /** The alias lists of two different syntaxes share no spelling. */
  lemma AliasesDisjoint(s1: PromptSyntax, s2: PromptSyntax, text: string)
    requires text in s1.Aliases() && text in s2.Aliases()
    ensures s1 == s2
  {
    if text in Cadenai.Aliases() {
      assert text[..3] == "cad" || text[..3] == "Cad";
    } else if text in OpenAI.Aliases() {
      assert text[..3] == "ope" || text[..3] == "Ope";
    } else {
      assert text[..3] == "mis" || text[..3] == "Mis";
    }
  }

  /** `from_str` maps each alias to the one syntax listing it, and raises
      ValueError naming the input for anything else. */
  lemma FromStrSpec(text: string, syntax: PromptSyntax)
    ensures FromStr(text) == Ok(syntax) <==> text in syntax.Aliases()
    ensures FromStr(text).Err? <==> (forall s: PromptSyntax :: text !in s.Aliases())
    ensures FromStr(text).Err? ==> FromStr(text).error == InvalidSyntax(text)
  {
    var p := (s: PromptSyntax) => text in s.Aliases();
    var m := FirstMatch(Syntaxes, p);
    if m.Some? {
      if text in syntax.Aliases() {
        AliasesDisjoint(m.value, syntax, text);
      }
    } else {
      assert Syntaxes[0] == Cadenai && Syntaxes[1] == OpenAI && Syntaxes[2] == Mistral;
      assert !p(Syntaxes[0]) && !p(Syntaxes[1]) && !p(Syntaxes[2]);
      forall s: PromptSyntax
        ensures text !in s.Aliases()
      {
        assert s == Cadenai || s == OpenAI || s == Mistral;
      }
    }
  }

  // ---------------------------------------------------------------------
  // PromptTemplate

  /** A single text template with the names of its placeholders. */
  datatype PromptTemplate = PromptTemplate(inputVariables: seq<string>, template: string) {
    /** `format(**kwargs)`: the template with its fields filled. */
    function Format(kwargs: map<string, string>): Result<string> {
      StrFormat.Fill(template, kwargs)
    }

    /** `__str__`: the raw template, placeholders included. */
    function ToString(): string { template }

    /** `__len__`: the token count of the raw template. */
    function Length(count: string -> nat): nat { count(template) }
  }

  /** A template without placeholders formats to the text `str` shows, and a
      template written with doubled braces formats to the text undoubled. */
  lemma PromptTemplateLiteral(p: PromptTemplate, text: string, kwargs: map<string, string>)
    ensures StrFormat.NoBraces(p.template) ==> p.Format(kwargs) == Ok(p.ToString())
    ensures p.template == StrFormat.Escape(text) ==> p.Format(kwargs) == Ok(text)
  {
    if StrFormat.NoBraces(p.template) {
      StrFormat.FillLiteral(p.template, kwargs);
    }
    StrFormat.FillEscape(text, kwargs);
  }

  // ---------------------------------------------------------------------
  // MessageTemplate

  /** One rendered message, in the shape the chosen syntax asks for. */
  datatype FormattedMessage =
    | CadenaiTuple(role: string, content: string)          // the tuple (role.cadenai, text)
    | OpenAIDict(fields: map<string, string>)              // {"role": role.openai, "content": text}
    | MistralChatMessage(role: string, content: string)    // ChatMessage(role=role.mistral, content=text)
  {
    function RoleName(): string {
      match this
      case OpenAIDict(f) => if "role" in f then f["role"] else ""
      case _ => role
    }

    function Text(): string {
      match this
      case OpenAIDict(f) => if "content" in f then f["content"] else ""
      case _ => content
    }
  }

  /** One message of a chat prompt: a role and an unrendered content template. */
  datatype MessageTemplate = MessageTemplate(role: Role, content: string) {
    /** `format(syntax, **kwargs)`: the syntax is looked up first, then the
        content is filled, then the message is built in that syntax's shape. */
    function Format(syntax: string, kwargs: map<string, string>): Result<FormattedMessage> {
      match FromStr(syntax)
      case Err(e) => Err(e)
      case Ok(s) =>
        match StrFormat.Fill(content, kwargs)
        case Err(e) => Err(e)
        case Ok(text) =>
          match s
          case OpenAI => Ok(OpenAIDict(map["role" := role.OpenAIName(), "content" := text]))
          case Mistral => Ok(MistralChatMessage(role.MistralName(), text))
          case Cadenai => Ok(CadenaiTuple(role.CadenaiName(), text))
    }

    /** The pair that `__str__` shows: the cadenai role name and the raw content. */
    function Shown(): (string, string) { (role.CadenaiName(), content) }

    /** `__str__`: `repr((role.cadenai, content))`. */
    function ToString(): string { PyRepr.ReprPair(Shown()) }

    /** `__len__`: the token count of the raw content. */
    function Length(count: string -> nat): nat { count(content) }
  }

  /** Rendering fails exactly when the syntax is unknown (ValueError) or the
      content cannot be filled (that exception), in that order. */
  lemma MessageFormatErrors(m: MessageTemplate, syntax: string, kwargs: map<string, string>)
    ensures FromStr(syntax).Err? ==> m.Format(syntax, kwargs) == Err(InvalidSyntax(syntax))
    ensures FromStr(syntax).Ok? && StrFormat.Fill(m.content, kwargs).Err? ==>
      m.Format(syntax, kwargs) == Err(StrFormat.Fill(m.content, kwargs).error)
    ensures FromStr(syntax).Ok? && StrFormat.Fill(m.content, kwargs).Ok? ==> m.Format(syntax, kwargs).Ok?
  {
  }

  /** Rendering keeps the role: the rendered message names the template's
      role in the syntax's vocabulary and carries the filled content. */
  lemma MessageFormatKeepsRole(m: MessageTemplate, syntax: string, kwargs: map<string, string>)
    requires m.Format(syntax, kwargs).Ok?
    ensures var f := m.Format(syntax, kwargs).value;
      FromRoleName(f.RoleName()) == Ok(m.role) && Ok(f.Text()) == StrFormat.Fill(m.content, kwargs)
  {
    var f := m.Format(syntax, kwargs).value;
    MessageFormatShape(m, syntax, kwargs);
    RoleNameRoundTrip(m.role);
    var name := f.RoleName();
    assert name == m.role.CadenaiName() || name == m.role.OpenAIName();
  }

  /** The shape of a rendered message: the tuple (role.cadenai, text), the
      dict with exactly the keys "role" and "content", or the Mistral message. */
  lemma MessageFormatShape(m: MessageTemplate, syntax: string, kwargs: map<string, string>)
    requires m.Format(syntax, kwargs).Ok?
    ensures var f := m.Format(syntax, kwargs).value;
      var text := StrFormat.Fill(m.content, kwargs).value;
      match FromStr(syntax).value
      case Cadenai => f == CadenaiTuple(m.role.CadenaiName(), text)
      case OpenAI => f.OpenAIDict? && f.fields.Keys == {"role", "content"} &&
                     f.fields["role"] == m.role.OpenAIName() && f.fields["content"] == text
      case Mistral => f == MistralChatMessage(m.role.MistralName(), text)
  {
  }

  /** `str` of a message template determines it: the printed text reads back
      as the (cadenai name, raw content) pair, and that pair as the message. */
  lemma MessageToStringRoundTrip(m: MessageTemplate)
    ensures PyRepr.ReadPair(m.ToString()) == Some((m.Shown(), |m.ToString()|))
    ensures FromRoleName(m.Shown().0) == Ok(m.role) && m.Shown().1 == m.content
  {
    PyRepr.ReadReprPair(m.Shown(), "");
    assert m.ToString() + "" == m.ToString();
    RoleNameRoundTrip(m.role);
  }

  // ---------------------------------------------------------------------
  // ChatPromptTemplate: specification functions

  /** The message `from_messages` builds from one (role name, content) tuple. */
  function MessageFrom(pair: (string, string)): (r: Result<MessageTemplate>)
    ensures r.Ok? ==> r.value.role.Answers(pair.0) && r.value.content == pair.1
    ensures r.Err? ==> r.error == InvalidRoleName(pair.0)
  {
    match FromRoleName(pair.0)
    case Err(e) => Err(e)
    case Ok(role) => Ok(MessageTemplate(role, pair.1))
  }

  /** The messages `from_messages` builds from (role name, content) tuples,
      or the ValueError of the first tuple whose role name is unknown. */
  function MessagesFrom(pairs: seq<(string, string)>): (r: Result<seq<MessageTemplate>>)
    ensures r.Ok? <==> forall i :: 0 <= i < |pairs| ==> FromRoleName(pairs[i].0).Ok?
    ensures r.Ok? ==> (|r.value| == |pairs| &&
      forall i :: 0 <= i < |pairs| ==>
        Ok(r.value[i].role) == FromRoleName(pairs[i].0) && r.value[i].content == pairs[i].1)
    ensures r.Err? ==>
      exists i :: 0 <= i < |pairs| && FromRoleName(pairs[i].0) == Err(r.error) &&
        forall j :: 0 <= j < i ==> FromRoleName(pairs[j].0).Ok?
  {
    MapUntilError(pairs, MessageFrom)
  }

  /** The messages rendered one by one, in order, or the exception of the
      first message that cannot be rendered. */
  function FormatAll(ms: seq<MessageTemplate>, syntax: string, kwargs: map<string, string>)
    : (r: Result<seq<FormattedMessage>>)
    ensures r.Ok? <==> forall i :: 0 <= i < |ms| ==> ms[i].Format(syntax, kwargs).Ok?
    ensures r.Ok? ==> (|r.value| == |ms| &&
      forall i :: 0 <= i < |ms| ==> ms[i].Format(syntax, kwargs) == Ok(r.value[i]))
    ensures r.Err? ==>
      exists i :: 0 <= i < |ms| && ms[i].Format(syntax, kwargs) == Err(r.error) &&
        forall j :: 0 <= j < i ==> ms[j].Format(syntax, kwargs).Ok?
  {
    MapUntilError(ms, (m: MessageTemplate) => m.Format(syntax, kwargs))
  }

  /** The pairs `ChatPromptTemplate.__str__` collects before printing them. */
  function ShownAll(ms: seq<MessageTemplate>): (ps: seq<(string, string)>)
    ensures |ps| == |ms| && forall i :: 0 <= i < |ms| ==> ps[i] == ms[i].Shown()
  {
    seq(|ms|, i requires 0 <= i < |ms| => ms[i].Shown())
  }

  /** The sum of the messages' token counts, added up first to last. */
  function TokenTotal(ms: seq<MessageTemplate>, count: string -> nat): nat {
    if ms == [] then 0 else TokenTotal(ms[..|ms| - 1], count) + ms[|ms| - 1].Length(count)
  }

  // ---------------------------------------------------------------------
  // ChatPromptTemplate: the class

  /** An ordered list of message templates with the names of the input
      variables they use; `add_*_message` extend both in place. */
  class ChatPromptTemplate {
    var inputVariables: seq<string>
    var messagesTemplate: seq<MessageTemplate>

    constructor (inputVariables: seq<string>, messagesTemplate: seq<MessageTemplate>)
      ensures this.inputVariables == inputVariables && this.messagesTemplate == messagesTemplate
    {
      this.inputVariables := inputVariables;
      this.messagesTemplate := messagesTemplate;
    }

    /** `from_messages`: a new template with the given input variables and one
        message per tuple, in order, appended one at a time; the ValueError of
        the first unknown role name otherwise. */
    static method FromMessages(inputVariables: seq<string>, messages: seq<(string, string)>)
      returns (r: Result<ChatPromptTemplate>)
      ensures MessagesFrom(messages).Err? ==> r == Err(MessagesFrom(messages).error)
      ensures MessagesFrom(messages).Ok? ==>
        r.Ok? && fresh(r.value) && r.value.inputVariables == inputVariables &&
        r.value.messagesTemplate == MessagesFrom(messages).value
    {
      var instance := new ChatPromptTemplate(inputVariables, []);
      for i := 0 to |messages|
        invariant instance.inputVariables == inputVariables
        invariant |instance.messagesTemplate| == i
        invariant forall j :: 0 <= j < i ==> MessageFrom(messages[j]) == Ok(instance.messagesTemplate[j])
      {
        var role := FromRoleName(messages[i].0);
        if role.Err? {
          MapUntilErrorFirst(messages, MessageFrom, i);
          return Err(role.error);
        }
        instance.messagesTemplate := instance.messagesTemplate + [MessageTemplate(role.value, messages[i].1)];
      }
      MapUntilErrorAllOk(messages, MessageFrom, instance.messagesTemplate);
      return Ok(instance);
    }

    /** `format(syntax, **kwargs)`: every message rendered, in order. */
    method Format(syntax: string, kwargs: map<string, string>) returns (r: Result<seq<FormattedMessage>>)
      ensures r == FormatAll(messagesTemplate, syntax, kwargs)
    {
      var formatted: seq<FormattedMessage> := [];
      ghost var render := (m: MessageTemplate) => m.Format(syntax, kwargs);
      for i := 0 to |messagesTemplate|
        invariant |formatted| == i
        invariant forall j :: 0 <= j < i ==> render(messagesTemplate[j]) == Ok(formatted[j])
      {
        var f := messagesTemplate[i].Format(syntax, kwargs);
        if f.Err? {
          MapUntilErrorFirst(messagesTemplate, render, i);
          return Err(f.error);
        }
        formatted := formatted + [f.value];
      }
      MapUntilErrorAllOk(messagesTemplate, render, formatted);
      return Ok(formatted);
    }

    /** What every `add_*_message` does with its own role. */
    method AddMessage(role: Role, content: string, inputVariables: Option<seq<string>> := None)
      modifies this
      ensures this.messagesTemplate == old(this.messagesTemplate) + [MessageTemplate(role, content)]
      ensures this.inputVariables ==
        if inputVariables.Some? && |inputVariables.value| > 0 then old(this.inputVariables) + inputVariables.value
        else old(this.inputVariables)
    {
      if inputVariables.Some? && |inputVariables.value| > 0 {
        this.inputVariables := this.inputVariables + inputVariables.value;
      }
      this.messagesTemplate := this.messagesTemplate + [MessageTemplate(role, content)];
    }

    /** `add_system_message`: one system message with the unrendered content
        at the end; the input variables extended only by a non-empty list
        (None and [] leave them as they are). */
    method AddSystemMessage(content: string, inputVariables: Option<seq<string>> := None)
      modifies this
      ensures this.messagesTemplate == old(this.messagesTemplate) + [MessageTemplate(System, content)]
      ensures this.inputVariables ==
        if inputVariables.Some? && |inputVariables.value| > 0 then old(this.inputVariables) + inputVariables.value
        else old(this.inputVariables)
    {
      AddMessage(System, content, inputVariables);
    }

    /** `add_ai_message`: as `add_system_message`, with the AI role. */
    method AddAIMessage(content: string, inputVariables: Option<seq<string>> := None)
      modifies this
      ensures this.messagesTemplate == old(this.messagesTemplate) + [MessageTemplate(AI, content)]
      ensures this.inputVariables ==
        if inputVariables.Some? && |inputVariables.value| > 0 then old(this.inputVariables) + inputVariables.value
        else old(this.inputVariables)
    {
      AddMessage(AI, content, inputVariables);
    }

    /** `add_human_message`: as `add_system_message`, with the human role. */
    method AddHumanMessage(content: string, inputVariables: Option<seq<string>> := None)
      modifies this
      ensures this.messagesTemplate == old(this.messagesTemplate) + [MessageTemplate(Human, content)]
      ensures this.inputVariables ==
        if inputVariables.Some? && |inputVariables.value| > 0 then old(this.inputVariables) + inputVariables.value
        else old(this.inputVariables)
    {
      AddMessage(Human, content, inputVariables);
    }

    /** `__str__`: the list of (cadenai role name, raw content) pairs, printed. */
    method ToString() returns (s: string)
      ensures s == PyRepr.ReprPairList(ShownAll(messagesTemplate))
    {
      var output: seq<(string, string)> := [];
      for i := 0 to |messagesTemplate|
        invariant |output| == i
        invariant forall j :: 0 <= j < i ==> output[j] == messagesTemplate[j].Shown()
      {
        output := output + [(messagesTemplate[i].role.CadenaiName(), messagesTemplate[i].content)];
      }
      assert output == ShownAll(messagesTemplate);
      s := PyRepr.ReprPairList(output);
    }

    /** `__len__`: the token counts of the raw contents, added up. */
    method Length(count: string -> nat) returns (length: nat)
      ensures length == TokenTotal(messagesTemplate, count)
    {
      length := 0;
      for i := 0 to |messagesTemplate|
        invariant length == TokenTotal(messagesTemplate[..i], count)
      {
        assert messagesTemplate[..i + 1][..i] == messagesTemplate[..i];
        length := length + messagesTemplate[i].Length(count);
      }
      assert messagesTemplate[..|messagesTemplate|] == messagesTemplate;
    }
  }

  // ---------------------------------------------------------------------
  // Properties relating the operations

  /** Appending a message appends its rendering: what `format` returns after
      an `add_*_message` is the old rendering plus the new message's. */
  lemma FormatAllAppend(ms: seq<MessageTemplate>, m: MessageTemplate, syntax: string, kwargs: map<string, string>)
    ensures FormatAll(ms + [m], syntax, kwargs) ==
      match FormatAll(ms, syntax, kwargs)
      case Err(e) => Err(e)
      case Ok(fs) =>
        match m.Format(syntax, kwargs)
        case Err(e) => Err(e)
        case Ok(f) => Ok(fs + [f])
  {
    MapUntilErrorAppend(ms, m, (n: MessageTemplate) => n.Format(syntax, kwargs));
  }

  /** An unknown syntax makes `format` raise its ValueError as soon as there
      is a message to render; with no messages the result is the empty list. */
  lemma FormatAllUnknownSyntax(ms: seq<MessageTemplate>, syntax: string, kwargs: map<string, string>)
    requires FromStr(syntax).Err?
    ensures FormatAll(ms, syntax, kwargs) == if ms == [] then Ok([]) else Err(InvalidSyntax(syntax))
  {
    FromStrSpec(syntax, Cadenai);
    if ms != [] {
      assert ms[0].Format(syntax, kwargs) == Err(InvalidSyntax(syntax));
    }
  }

  /** Adding the messages one at a time builds the same list as passing one
      more tuple to `from_messages`. */
  lemma MessagesFromAppend(pairs: seq<(string, string)>, role: Role, content: string)
    requires MessagesFrom(pairs).Ok?
    ensures MessagesFrom(pairs + [(role.CadenaiName(), content)]) ==
            Ok(MessagesFrom(pairs).value + [MessageTemplate(role, content)])
  {
    RoleNameRoundTrip(role);
    MapUntilErrorAppend(pairs, (role.CadenaiName(), content), MessageFrom);
  }

  /** `str` of a chat template loses nothing: reading the printed list back and
      passing it to `from_messages` rebuilds exactly the same messages. */
  lemma ChatToStringRoundTrip(ms: seq<MessageTemplate>)
    ensures PyRepr.ParsePairList(PyRepr.ReprPairList(ShownAll(ms))) == Some(ShownAll(ms))
    ensures MessagesFrom(ShownAll(ms)) == Ok(ms)
  {
    var shown := ShownAll(ms);
    PyRepr.ParseReprPairList(shown);
    forall i | 0 <= i < |ms|
      ensures MessageFrom(shown[i]) == Ok(ms[i])
    {
      RoleNameRoundTrip(ms[i].role);
    }
    MapUntilErrorAllOk(shown, MessageFrom, ms);
  }

  /** Two chat templates print the same only when their messages are equal. */
  lemma ChatToStringInjective(ms: seq<MessageTemplate>, ns: seq<MessageTemplate>)
    requires PyRepr.ReprPairList(ShownAll(ms)) == PyRepr.ReprPairList(ShownAll(ns))
    ensures ms == ns
  {
    PyRepr.ReprPairListInjective(ShownAll(ms), ShownAll(ns));
    ChatToStringRoundTrip(ms);
    ChatToStringRoundTrip(ns);
  }

  /** `len` of a template split in two is the sum of the parts' `len`. */
  lemma {:induction false} TokenTotalAppend(ms: seq<MessageTemplate>, ns: seq<MessageTemplate>, count: string -> nat)
    ensures TokenTotal(ms + ns, count) == TokenTotal(ms, count) + TokenTotal(ns, count)
  {
    if ns == [] {
      assert ms + ns == ms;
    } else {
      var last := |ns| - 1;
      assert (ms + ns)[..|ms + ns| - 1] == ms + ns[..last];
      TokenTotalAppend(ms, ns[..last], count);
    }
  }

  /** One message's token count is part of `len`. */
  lemma {:induction false} TokenTotalElement(ms: seq<MessageTemplate>, i: nat, count: string -> nat)
    requires i < |ms|
    ensures ms[i].Length(count) <= TokenTotal(ms, count)
    decreases |ms|
  {
    var last := |ms| - 1;
    if i < last {
      assert ms[..last][i] == ms[i];
      TokenTotalElement(ms[..last], i, count);
    }
  }

  /** Every message's token count is part of `len`, and adding a message
      adds exactly its own count. */
  lemma TokenTotalParts(ms: seq<MessageTemplate>, m: MessageTemplate, count: string -> nat)
    ensures forall i :: 0 <= i < |ms| ==> ms[i].Length(count) <= TokenTotal(ms, count)
    ensures TokenTotal(ms + [m], count) == TokenTotal(ms, count) + count(m.content)
  {
    forall i | 0 <= i < |ms|
      ensures ms[i].Length(count) <= TokenTotal(ms, count)
    {
      TokenTotalElement(ms, i, count);
    }
    assert (ms + [m])[..|ms|] == ms;
  }
}
