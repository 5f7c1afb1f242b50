/** Shared vocabulary: the exceptions the modelled Python code can raise, a
    Result type standing for "returns a value or raises", and the first-match
    search that Python's `for member in EnumClass: if ...: return member`
    loops perform. */
module Base {

  /** Every exception the modelled code can raise, by Python class and cause. */
  datatype Error =
    | InvalidRoleName(name: string)       // ValueError from Role.from_role_name
    | InvalidSyntax(text: string)         // ValueError from PromptSyntax.from_str
    | MissingKey(key: string)             // KeyError from str.format
    | PositionalField                     // IndexError from str.format: `{}` or `{0}` with no positional argument
    | SingleCloseBrace                    // ValueError from str.format: a lone `}`
    | UnclosedField                       // ValueError from str.format: a field name running to the end of the text
    | UnexpectedBrace                     // ValueError from str.format: a `{` inside a field name
    | TooManyDigits                       // ValueError from str.format: a field name's leading digits above Py_ssize_t's maximum
    | UnsupportedField(field: string)     // a replacement field using features outside this model
    | DuplicateArgument(name: string)     // TypeError: a keyword argument given twice
    | BackendError(message: string)       // any failure of the completion backend, propagated as is

  /** A Python call that either returns a value or raises. */
  datatype Result<+T> = Ok(value: T) | Err(error: Error)

  datatype Option<+T> = None | Some(value: T)

  /** The first element of `xs` satisfying `p`, scanning in order. */
  function FirstMatch<T>(xs: seq<T>, p: T -> bool): (r: Option<T>)
    ensures r.None? <==> forall i :: 0 <= i < |xs| ==> !p(xs[i])
    ensures r.Some? ==>
      exists i :: 0 <= i < |xs| && xs[i] == r.value && p(xs[i]) &&
        forall j :: 0 <= j < i ==> !p(xs[j])
  {
    if xs == [] then None
    else if p(xs[0]) then Some(xs[0])
    else
      var r := FirstMatch(xs[1..], p);
      assert forall i :: 1 <= i < |xs| ==> xs[i] == xs[1..][i - 1];
      r
  }

  /** Applies `f` to each element in order and collects the results, stopping
      at the first call that raises: the shape of a Python loop that appends
      `f(x)` for every `x` and lets exceptions propagate. */
  function MapUntilError<A, B>(xs: seq<A>, f: A -> Result<B>): (r: Result<seq<B>>)
    ensures r.Ok? <==> forall i :: 0 <= i < |xs| ==> f(xs[i]).Ok?
    ensures r.Ok? ==> (|r.value| == |xs| && forall i :: 0 <= i < |xs| ==> f(xs[i]) == Ok(r.value[i]))
    ensures r.Err? ==>
      (exists i :: 0 <= i < |xs| && f(xs[i]) == Err(r.error) && forall j :: 0 <= j < i ==> f(xs[j]).Ok?)
  {
    if xs == [] then Ok([])
    else
      match f(xs[0])
      case Err(e) => Err(e)
      case Ok(y) =>
        var rest := MapUntilError(xs[1..], f);
        assert forall i :: 1 <= i < |xs| ==> xs[i] == xs[1..][i - 1];
        match rest
        case Err(e) => Err(e)
        case Ok(ys) => Ok([y] + ys)
  }

  /** The first failing call is unique: whoever finds one has found the one
      `MapUntilError` reports. */
  lemma MapUntilErrorFirst<A, B>(xs: seq<A>, f: A -> Result<B>, k: nat)
    requires k < |xs| && f(xs[k]).Err? && forall j :: 0 <= j < k ==> f(xs[j]).Ok?
    ensures MapUntilError(xs, f) == Err(f(xs[k]).error)
  {
    var r := MapUntilError(xs, f);
    var i :| 0 <= i < |xs| && f(xs[i]) == Err(r.error) && forall j :: 0 <= j < i ==> f(xs[j]).Ok?;
    assert f(xs[i]).Err? && f(xs[k]).Err?;
  }

  /** Mapping one more element appends its result, unless an earlier one raised. */
  lemma {:induction false} MapUntilErrorAppend<A, B>(xs: seq<A>, x: A, f: A -> Result<B>)
    ensures MapUntilError(xs + [x], f) ==
      match MapUntilError(xs, f)
      case Err(e) => Err(e)
      case Ok(ys) =>
        match f(x)
        case Err(e) => Err(e)
        case Ok(y) => Ok(ys + [y])
  {
    if xs == [] {
      assert xs + [x] == [x] && [x][1..] == [];
      assert MapUntilError([x][1..], f) == Ok([]);
      if f(x).Ok? {
        assert [f(x).value] + [] == [] + [f(x).value];
      }
    } else {
      assert (xs + [x])[0] == xs[0] && (xs + [x])[1..] == xs[1..] + [x];
      MapUntilErrorAppend(xs[1..], x, f);
      match f(xs[0])
      case Err(e) =>
      case Ok(y0) =>
        match MapUntilError(xs[1..], f)
        case Err(e) =>
        case Ok(ys) =>
          match f(x)
          case Err(e) =>
          case Ok(y) => assert [y0] + (ys + [y]) == ([y0] + ys) + [y];
    }
  }

  /** When every call returns, the result is the list of their values. */
  lemma MapUntilErrorAllOk<A, B>(xs: seq<A>, f: A -> Result<B>, ys: seq<B>)
    requires |xs| == |ys| && forall i :: 0 <= i < |xs| ==> f(xs[i]) == Ok(ys[i])
    ensures MapUntilError(xs, f) == Ok(ys)
  {
    var r := MapUntilError(xs, f);
    assert r.Ok?;
    assert forall i :: 0 <= i < |xs| ==> r.value[i] == ys[i];
    assert r.value == ys;
  }
}
