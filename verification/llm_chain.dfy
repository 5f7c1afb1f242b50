/** The LLM chain: a prompt template bound to a completion backend.  `run`
    renders the template in the backend's own message syntax and forwards
    the prompt; `multiple_runs` does so for a list of inputs, in order. */
module Chain {
  import opened Base
  import opened Template

  /** The default of the constructor's `max_tokens`. */
  const DefaultMaxTokens: int := 256

  /** What a completion call returns: a whole answer, or the fragments of a
      stream in the order the backend yields them. */
  datatype Completion = Answer(text: string) | Stream(fragments: seq<string>)

  /** What `format` returns for each kind of template. */
  datatype Prompt =
    | TextPrompt(text: string)
    | MessagePrompt(message: FormattedMessage)
    | ChatPrompt(messages: seq<FormattedMessage>)

  /** The arguments of one `get_completion` call. */
  datatype Call = Call(prompt: Prompt, maxTokens: int, stream: bool)

  /** A completion backend.  What the external service answers is given by
      `backend`, as a function of the calls made before and the call itself,
      so successive calls may answer differently; `calls` records every call
      in the order it was made. */
  class Llm {
    const promptSyntax: string
    const backend: (seq<Call>, Call) -> Result<Completion>
    var calls: seq<Call>

    constructor (promptSyntax: string, backend: (seq<Call>, Call) -> Result<Completion>)
      ensures this.promptSyntax == promptSyntax && this.backend == backend && calls == []
    {
      this.promptSyntax := promptSyntax;
      this.backend := backend;
      calls := [];
    }

    /** `get_completion(prompt, max_tokens, stream)`: one call to the service. */
    method GetCompletion(prompt: Prompt, maxTokens: int, stream: bool) returns (r: Result<Completion>)
      modifies this
      ensures calls == old(calls) + [Call(prompt, maxTokens, stream)]
      ensures r == backend(old(calls), Call(prompt, maxTokens, stream))
    {
      r := backend(calls, Call(prompt, maxTokens, stream));
      calls := calls + [Call(prompt, maxTokens, stream)];
    }
  }

  /** The templates a chain can hold: the three classes with a `format`. */
  datatype PromptSource =
    | Plain(plain: PromptTemplate)
    | Single(message: MessageTemplate)
    | Chat(chat: ChatPromptTemplate)
  {
    function Footprint(): set<object> {
      if Chat? then {chat} else {}
    }
  }

  /** `prompt_template.format(syntax=syntax, **kwargs)`.  A `syntax` key among
      the keyword arguments is a second value for that parameter (TypeError);
      a plain template receives `syntax` as one more keyword argument. */
  function Render(t: PromptSource, syntax: string, kwargs: map<string, string>): Result<Prompt>
    reads t.Footprint()
  {
    if "syntax" in kwargs then Err(DuplicateArgument("syntax"))
    else
      match t
      case Plain(p) =>
        (match p.Format(kwargs["syntax" := syntax])
         case Err(e) => Err(e)
         case Ok(text) => Ok(TextPrompt(text)))
      case Single(m) =>
        (match m.Format(syntax, kwargs)
         case Err(e) => Err(e)
         case Ok(f) => Ok(MessagePrompt(f)))
      case Chat(c) =>
        (match FormatAll(c.messagesTemplate, syntax, kwargs)
         case Err(e) => Err(e)
         case Ok(fs) => Ok(ChatPrompt(fs)))
  }

  /** The prompt `multiple_runs` renders for one input dict: `self.run(**input,
      stream=stream)` raises TypeError first when the dict holds a `stream` or
      a `self` key. */
  function InputPrompt(t: PromptSource, syntax: string, input: map<string, string>): Result<Prompt>
    reads t.Footprint()
  {
    if "stream" in input then Err(DuplicateArgument("stream"))
    else if "self" in input then Err(DuplicateArgument("self"))
    else Render(t, syntax, input)
  }

  function InputPrompts(t: PromptSource, syntax: string, inputs: seq<map<string, string>>)
    : (ps: seq<Result<Prompt>>)
    reads t.Footprint()
    ensures |ps| == |inputs| && forall i :: 0 <= i < |inputs| ==> ps[i] == InputPrompt(t, syntax, inputs[i])
  {
    if inputs == [] then []
    else [InputPrompt(t, syntax, inputs[0])] + InputPrompts(t, syntax, inputs[1..])
  }

  /** One `run` on an already rendered prompt: a rendering error is raised
      before any call; otherwise exactly one call, whose answer is returned. */
  function RunStep(backend: (seq<Call>, Call) -> Result<Completion>, history: seq<Call>,
                   prompt: Result<Prompt>, maxTokens: int, stream: bool): (r: (Result<Completion>, seq<Call>))
    ensures prompt.Err? ==> r == (Err(prompt.error), history)
    ensures prompt.Ok? ==>
      |r.1| == |history| + 1 && r.1[..|history|] == history &&
      r.1[|history|] == Call(prompt.value, maxTokens, stream) &&
      r.0 == backend(history, r.1[|history|])
  {
    match prompt
    case Err(e) => (Err(e), history)
    case Ok(p) =>
      var call := Call(p, maxTokens, stream);
      (backend(history, call), history + [call])
  }

  /** `outs` in front of the outputs `r` returns, or `r`'s exception. */
  function Extend(outs: seq<Completion>, r: Result<seq<Completion>>): Result<seq<Completion>> {
    if r.Ok? then Ok(outs + r.value) else r
  }

  /** `run` repeated over the prompts in order, each call seeing the calls
      before it, stopping at the first exception. */
  function RunAll(backend: (seq<Call>, Call) -> Result<Completion>, history: seq<Call>,
                  prompts: seq<Result<Prompt>>, maxTokens: int, stream: bool): (Result<seq<Completion>>, seq<Call>)
    decreases |prompts|
  {
    if prompts == [] then (Ok([]), history)
    else
      var (r, h) := RunStep(backend, history, prompts[0], maxTokens, stream);
      if r.Err? then (Err(r.error), h)
      else
        var (rest, h') := RunAll(backend, h, prompts[1..], maxTokens, stream);
        (Extend([r.value], rest), h')
  }

  /** The calls `RunAll` adds come after the earlier ones, one per prompt at
      most, in prompt order; each carries the rendered prompt, the chain's
      `max_tokens` and the same `stream` flag.  An empty input makes no call. */
  lemma {:induction false} RunAllCalls(backend: (seq<Call>, Call) -> Result<Completion>, history: seq<Call>,
                                       prompts: seq<Result<Prompt>>, maxTokens: int, stream: bool)
    ensures var h' := RunAll(backend, history, prompts, maxTokens, stream).1;
      |history| <= |h'| <= |history| + |prompts| && h'[..|history|] == history &&
      forall k :: 0 <= k < |h'| - |history| ==>
        prompts[k].Ok? && h'[|history| + k] == Call(prompts[k].value, maxTokens, stream)
    ensures prompts == [] ==> RunAll(backend, history, prompts, maxTokens, stream) == (Ok([]), history)
    decreases |prompts|
  {
    if prompts != [] {
      var (r, h) := RunStep(backend, history, prompts[0], maxTokens, stream);
      if r.Ok? {
        RunAllCalls(backend, h, prompts[1..], maxTokens, stream);
        var h' := RunAll(backend, h, prompts[1..], maxTokens, stream).1;
        assert h == history + [Call(prompts[0].value, maxTokens, stream)];
        assert h'[..|history|] == h'[..|h|][..|history|];
        forall k | 0 <= k < |h'| - |history|
          ensures prompts[k].Ok? && h'[|history| + k] == Call(prompts[k].value, maxTokens, stream)
        {
          if k > 0 {
            assert prompts[1..][k - 1] == prompts[k];
          }
        }
      }
    }
  }

  /** When every run returns, there is one output per prompt, in order, and
      output i is what the backend answered to call i, made with the calls
      before it as history. */
  lemma {:induction false} RunAllOutputs(backend: (seq<Call>, Call) -> Result<Completion>, history: seq<Call>,
                                         prompts: seq<Result<Prompt>>, maxTokens: int, stream: bool)
    requires RunAll(backend, history, prompts, maxTokens, stream).0.Ok?
    ensures var (r, h') := RunAll(backend, history, prompts, maxTokens, stream);
      |r.value| == |prompts| && |h'| == |history| + |prompts| &&
      forall i :: 0 <= i < |prompts| ==> backend(h'[..|history| + i], h'[|history| + i]) == Ok(r.value[i])
    decreases |prompts|
  {
    if prompts != [] {
      var (r0, h) := RunStep(backend, history, prompts[0], maxTokens, stream);
      RunAllOutputs(backend, h, prompts[1..], maxTokens, stream);
      RunAllCalls(backend, h, prompts[1..], maxTokens, stream);
      var (r, h') := RunAll(backend, history, prompts, maxTokens, stream);
      assert h'[..|history|] == history && h'[..|h|] == h;
      assert h == history + [h'[|history|]];
      forall i | 0 <= i < |prompts|
        ensures backend(h'[..|history| + i], h'[|history| + i]) == Ok(r.value[i])
      {
        if i > 0 {
          assert |history| + i == |h| + (i - 1);
        }
      }
    }
  }

  /** When some run raises, the runs before it all returned and the exception
      is that of the first failing one: its rendering (then no call was made
      for it) or its backend call (then that call is the last one). */
  lemma {:induction false} RunAllFailure(backend: (seq<Call>, Call) -> Result<Completion>, history: seq<Call>,
                                         prompts: seq<Result<Prompt>>, maxTokens: int, stream: bool)
    requires RunAll(backend, history, prompts, maxTokens, stream).0.Err?
    ensures var (r, h') := RunAll(backend, history, prompts, maxTokens, stream);
      exists i :: 0 <= i < |prompts| && (forall j :: 0 <= j < i ==> prompts[j].Ok?) &&
        ((prompts[i].Err? && r.error == prompts[i].error && |h'| == |history| + i) ||
         (prompts[i].Ok? && |h'| == |history| + i + 1 &&
          backend(h'[..|history| + i], h'[|history| + i]) == Err(r.error)))
    decreases |prompts|
  {
    var (r0, h) := RunStep(backend, history, prompts[0], maxTokens, stream);
    var (r, h') := RunAll(backend, history, prompts, maxTokens, stream);
    if r0.Err? {
      if prompts[0].Ok? {
        assert h' == h == history + [Call(prompts[0].value, maxTokens, stream)];
        assert h'[..|history|] == history;
      }
    } else {
      RunAllFailure(backend, h, prompts[1..], maxTokens, stream);
      RunAllCalls(backend, h, prompts[1..], maxTokens, stream);
      var i :| 0 <= i < |prompts[1..]| && (forall j :: 0 <= j < i ==> prompts[1..][j].Ok?) &&
        ((prompts[1..][i].Err? && r.error == prompts[1..][i].error && |h'| == |h| + i) ||
         (prompts[1..][i].Ok? && |h'| == |h| + i + 1 &&
          backend(h'[..|h| + i], h'[|h| + i]) == Err(r.error)));
      assert |h| == |history| + 1;
      assert prompts[i + 1] == prompts[1..][i];
      assert forall j :: 1 <= j < i + 1 ==> prompts[j] == prompts[1..][j - 1];
    }
  }

  /** What is left of a `RunAll` after the answers `outs` were collected. */
  function Resume(backend: (seq<Call>, Call) -> Result<Completion>, history: seq<Call>,
                  prompts: seq<Result<Prompt>>, maxTokens: int, stream: bool, outs: seq<Completion>)
    : (Result<seq<Completion>>, seq<Call>)
  {
    var (rest, h) := RunAll(backend, history, prompts, maxTokens, stream);
    (Extend(outs, rest), h)
  }

  /** One more run either ends the whole `RunAll` with its exception or adds
      its answer to those collected. */
  lemma RunAllResume(backend: (seq<Call>, Call) -> Result<Completion>, history: seq<Call>,
                     prompts: seq<Result<Prompt>>, maxTokens: int, stream: bool, outs: seq<Completion>)
    requires prompts != []
    ensures var (a, h) := RunStep(backend, history, prompts[0], maxTokens, stream);
      (a.Err? ==> Resume(backend, history, prompts, maxTokens, stream, outs) == (Err(a.error), h)) &&
      (a.Ok? ==> Resume(backend, history, prompts, maxTokens, stream, outs) ==
                 Resume(backend, h, prompts[1..], maxTokens, stream, outs + [a.value]))
  {
    var (a, h) := RunStep(backend, history, prompts[0], maxTokens, stream);
    if a.Ok? {
      var rest := RunAll(backend, h, prompts[1..], maxTokens, stream).0;
      if rest.Ok? {
        assert outs + ([a.value] + rest.value) == (outs + [a.value]) + rest.value;
      }
    }
  }

  /** A prompt template bound to a completion backend. */
  class LlmChain {
    const llm: Llm
    const promptTemplate: PromptSource
    const maxTokens: int

    constructor (llm: Llm, promptTemplate: PromptSource, maxTokens: int := DefaultMaxTokens)
      ensures this.llm == llm && this.promptTemplate == promptTemplate && this.maxTokens == maxTokens
    {
      this.llm := llm;
      this.promptTemplate := promptTemplate;
      this.maxTokens := maxTokens;
    }

    /** `prompt_template.format(syntax=..., **kwargs)`, running the chat
        template's own `format` loop when the template is a chat template. */
    method Format(syntax: string, kwargs: map<string, string>) returns (r: Result<Prompt>)
      ensures r == Render(promptTemplate, syntax, kwargs)
    {
      if "syntax" in kwargs {
        return Err(DuplicateArgument("syntax"));
      }
      match promptTemplate
      case Plain(p) =>
        var text := p.Format(kwargs["syntax" := syntax]);
        r := if text.Ok? then Ok(TextPrompt(text.value)) else Err(text.error);
      case Single(m) =>
        var f := m.Format(syntax, kwargs);
        r := if f.Ok? then Ok(MessagePrompt(f.value)) else Err(f.error);
      case Chat(c) =>
        var fs := c.Format(syntax, kwargs);
        r := if fs.Ok? then Ok(ChatPrompt(fs.value)) else Err(fs.error);
    }

    /** `run(stream, **kwargs)`: render with the backend's syntax and the
        caller's arguments unchanged, then make exactly one call with that
        prompt, the chain's `max_tokens` and the caller's `stream`, and return
        its answer as is.  A rendering error is raised before any call.
        (Python binds `stream=` and `self=` to run's own parameters, so those
        keys never reach `kwargs`.) */
    method Run(kwargs: map<string, string>, stream: bool := false) returns (r: Result<Completion>)
      requires "stream" !in kwargs && "self" !in kwargs
      modifies llm
      ensures (r, llm.calls) ==
        RunStep(llm.backend, old(llm.calls), Render(promptTemplate, llm.promptSyntax, kwargs), maxTokens, stream)
      ensures var p := Render(promptTemplate, llm.promptSyntax, kwargs);
        (p.Err? ==> r == Err(p.error) && llm.calls == old(llm.calls)) &&
        (p.Ok? ==> llm.calls == old(llm.calls) + [Call(p.value, maxTokens, stream)] &&
                   r == llm.backend(old(llm.calls), Call(p.value, maxTokens, stream)))
    {
      var prompt := Format(llm.promptSyntax, kwargs);
      if prompt.Err? {
        return Err(prompt.error);
      }
      r := llm.GetCompletion(prompt.value, maxTokens, stream);
      assert unchanged(promptTemplate.Footprint());
      assert prompt == Render(promptTemplate, llm.promptSyntax, kwargs);
    }

    /** `self.run(**input, stream=stream)` as `multiple_runs` calls it: a
        `stream` or `self` key in the dict is a second value for that
        parameter (TypeError, before any call); otherwise one `run`. */
    method RunInput(input: map<string, string>, stream: bool) returns (r: Result<Completion>)
      modifies llm
      ensures (r, llm.calls) ==
        RunStep(llm.backend, old(llm.calls), InputPrompt(promptTemplate, llm.promptSyntax, input), maxTokens, stream)
      ensures unchanged(promptTemplate.Footprint())
    {
      if "stream" in input {
        return Err(DuplicateArgument("stream"));
      }
      if "self" in input {
        return Err(DuplicateArgument("self"));
      }
      r := Run(input, stream);
    }

    /** `multiple_runs(input_list, stream)`: `run` on each input dict in
        order with the same `stream` flag, collecting the answers; the first
        exception propagates and the answers collected so far are lost. */
    method MultipleRuns(inputList: seq<map<string, string>>, stream: bool := false)
      returns (r: Result<seq<Completion>>)
      modifies llm
      ensures (r, llm.calls) ==
        RunAll(llm.backend, old(llm.calls), InputPrompts(promptTemplate, llm.promptSyntax, inputList), maxTokens, stream)
    {
      ghost var prompts := InputPrompts(promptTemplate, llm.promptSyntax, inputList);
      ghost var total := RunAll(llm.backend, llm.calls, prompts, maxTokens, stream);
      var outputList: seq<Completion> := [];
      assert prompts[0..] == prompts;
      assert Extend([], total.0) == total.0 by {
        if total.0.Ok? { assert [] + total.0.value == total.0.value; }
      }
      for i := 0 to |inputList|
        invariant unchanged(promptTemplate.Footprint())
        invariant prompts == InputPrompts(promptTemplate, llm.promptSyntax, inputList)
        invariant total == Resume(llm.backend, llm.calls, prompts[i..], maxTokens, stream, outputList)
      {
        RunAllResume(llm.backend, llm.calls, prompts[i..], maxTokens, stream, outputList);
        assert prompts[i..][0] == prompts[i] == InputPrompt(promptTemplate, llm.promptSyntax, inputList[i]);
        assert prompts[i..][1..] == prompts[i + 1..];
        var answer := RunInput(inputList[i], stream);
        if answer.Err? {
          return Err(answer.error);
        }
        outputList := outputList + [answer.value];
      }
      assert prompts[|inputList|..] == [];
      assert outputList + [] == outputList;
      r := Ok(outputList);
    }
  }
}
