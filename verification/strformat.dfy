/** The part of Python's `str.format(**kwargs)` that prompt templates rely on:
    literal text is copied, `{name}` is replaced by the keyword argument
    `name`, `{{` and `}}` stand for single braces, and the malformed or
    unsupported cases raise.  Only keyword arguments are ever passed by the
    templates, so a positional field (`{}` or `{0}`) raises IndexError, or
    ValueError when its index does not fit in a Py_ssize_t. */
module StrFormat {
  import opened Base

  /** The largest index a numeric field name may denote: Py_ssize_t's maximum
      on a 64-bit build. */
  const MaxIndex: int := 0x7FFF_FFFF_FFFF_FFFF

  /** `prefix` followed by the text `r` returns, or `r`'s exception. */
  function Prepend(prefix: string, r: Result<string>): Result<string> {
    if r.Ok? then Ok(prefix + r.value) else r
  }

  predicate IsDigits(s: string) {
    |s| > 0 && forall i :: 0 <= i < |s| ==> '0' <= s[i] <= '9'
  }

  /** The number a string of decimal digits spells. */
  function DigitsValue(s: string): nat
    requires IsDigits(s)
  {
    if |s| == 1 then s[0] as nat - '0' as nat
    else DigitsValue(s[..|s| - 1]) * 10 + (s[|s| - 1] as nat - '0' as nat)
  }

  /** Length of the run of decimal digits `s` starts with. */
  function DigitRun(s: string): (n: nat)
    ensures n <= |s|
    ensures forall i :: 0 <= i < n ==> '0' <= s[i] <= '9'
    ensures n < |s| ==> !('0' <= s[n] <= '9')
  {
    if s == [] || !('0' <= s[0] <= '9') then 0 else 1 + DigitRun(s[1..])
  }

  /** The leading digits of a field name denote a number above `MaxIndex`.
      CPython reads those digits one by one before looking at the rest of
      the name, and raises ValueError as soon as the number grows too large. */
  predicate OverflowsIndex(name: string) {
    var n := DigitRun(name);
    n > 0 && DigitsValue(name[..n]) > MaxIndex
  }

  /** The characters that end a field name. */
  predicate EndsName(c: char) {
    c == '}' || c == '{' || c == '[' || c == ':' || c == '!'
  }

  /** Index of the first character of `s` that ends a field name, or `|s|`
      when the name runs to the end of the text. */
  function NameEnd(s: string): (k: nat)
    ensures k <= |s|
    ensures k < |s| ==> EndsName(s[k])
    ensures forall i :: 0 <= i < k ==> !EndsName(s[i])
  {
    if s == [] || EndsName(s[0]) then 0 else 1 + NameEnd(s[1..])
  }

  /** A replacement field naming a keyword argument, with no format
      specification, conversion, attribute or index access. */
  predicate IsPlainName(name: string) {
    |name| > 0 && !IsDigits(name) && !OverflowsIndex(name) && forall i :: 0 <= i < |name| ==> name[i] !in "{}:!.["
  }

  /** The value of the replacement field `{name}`: leading digits worth more
      than `MaxIndex` are ValueError, attribute access is outside the model,
      an empty or numeric name is a positional index with no positional
      argument (IndexError), and any other name is a key that must be present
      (KeyError). */
  function LookupField(name: string, kwargs: map<string, string>): Result<string> {
    if OverflowsIndex(name) then Err(TooManyDigits)
    else if '.' in name then Err(UnsupportedField(name))
    else if name == [] || IsDigits(name) then Err(PositionalField)
    else if name in kwargs then Ok(kwargs[name])
    else Err(MissingKey(name))
  }

  /** `t.format(**kwargs)`, scanning left to right and raising at the first
      malformed or unresolvable field.  A field name runs to the first `}`,
      `{`, `[`, `:` or `!`: a `{` there is ValueError, the end of the text is
      ValueError, and an index, conversion or format specification is outside
      the model. */
  function Fill(t: string, kwargs: map<string, string>): Result<string>
    decreases |t|
  {
    if t == [] then Ok("")
    else if t[0] == '{' then
      if |t| > 1 && t[1] == '{' then Prepend("{", Fill(t[2..], kwargs))
      else
        var k := NameEnd(t[1..]);
        if k == |t| - 1 then Err(UnclosedField)
        else if t[k + 1] == '{' then Err(UnexpectedBrace)
        else if t[k + 1] != '}' then Err(UnsupportedField(t[1..k + 1]))
        else
          match LookupField(t[1..k + 1], kwargs)
          case Err(e) => Err(e)
          case Ok(v) => Prepend(v, Fill(t[k + 2..], kwargs))
    else if t[0] == '}' then
      if |t| > 1 && t[1] == '}' then Prepend("}", Fill(t[2..], kwargs))
      else Err(SingleCloseBrace)
    else Prepend([t[0]], Fill(t[1..], kwargs))
  }

  predicate NoBraces(s: string) {
    forall i :: 0 <= i < |s| ==> s[i] != '{' && s[i] != '}'
  }

  /** Doubles every brace, so that `Fill` reproduces `s` literally. */
  function Escape(s: string): string {
    if s == [] then []
    else (if s[0] == '{' then "{{" else if s[0] == '}' then "}}" else [s[0]]) + Escape(s[1..])
  }

  /** Escaping is undone by formatting, whatever the keyword arguments. */
  lemma {:induction false} FillEscape(s: string, kwargs: map<string, string>)
    ensures Fill(Escape(s), kwargs) == Ok(s)
  {
    if s != [] {
      FillEscape(s[1..], kwargs);
      var t := Escape(s);
      if s[0] == '{' {
        assert t == "{{" + Escape(s[1..]) && t[2..] == Escape(s[1..]);
      } else if s[0] == '}' {
        assert t == "}}" + Escape(s[1..]) && t[2..] == Escape(s[1..]);
      } else {
        assert t == [s[0]] + Escape(s[1..]) && t[1..] == Escape(s[1..]);
      }
      assert s == [s[0]] + s[1..];
    }
  }

  /** Brace-free text in front of a template is copied to the output as is. */
  lemma {:induction false} FillLiteralPrefix(a: string, b: string, kwargs: map<string, string>)
    requires NoBraces(a)
    ensures Fill(a + b, kwargs) == Prepend(a, Fill(b, kwargs))
  {
    if a == [] {
      assert a + b == b;
      var r := Fill(b, kwargs);
      assert r.Ok? ==> a + r.value == r.value;
    } else {
      var t := a + b;
      assert t[0] == a[0] && t[1..] == a[1..] + b;
      FillLiteralPrefix(a[1..], b, kwargs);
      var r := Fill(b, kwargs);
      assert r.Ok? ==> [a[0]] + (a[1..] + r.value) == a + r.value;
    }
  }

  /** A template without braces formats to itself. */
  lemma FillLiteral(a: string, kwargs: map<string, string>)
    requires NoBraces(a)
    ensures Fill(a, kwargs) == Ok(a)
  {
    FillLiteralPrefix(a, "", kwargs);
    assert a + "" == a;
  }

  /** The name of `a + r` ends where `a` ends when `a` holds none of the
      characters that end a name and `r` starts with one. */
  lemma NameEndAt(a: string, r: string)
    requires forall i :: 0 <= i < |a| ==> !EndsName(a[i])
    requires |r| > 0 && EndsName(r[0])
    ensures NameEnd(a + r) == |a| && (a + r)[|a|] == r[0]
  {
    assert forall i :: 0 <= i < |a| ==> (a + r)[i] == a[i];
    assert (a + r)[|a|] == r[0];
  }

  /** A plain `{name}` field is replaced by its keyword argument, or raises
      KeyError when the argument is missing; formatting then goes on after it. */
  lemma FillField(name: string, rest: string, kwargs: map<string, string>)
    requires IsPlainName(name)
    ensures Fill("{" + name + "}" + rest, kwargs) ==
      if name in kwargs then Prepend(kwargs[name], Fill(rest, kwargs)) else Err(MissingKey(name))
  {
    var t := "{" + name + "}" + rest;
    assert t[1..] == name + ("}" + rest) && t[1] == name[0];
    NameEndAt(name, "}" + rest);
    var k := |name|;
    assert t[k + 1] == '}';
    assert t[1..k + 1] == name;
    assert t[k + 2..] == rest;
  }

  /** A numeric field `{n}` raises, since no positional argument is ever
      given: IndexError, or ValueError when n is beyond Py_ssize_t. */
  lemma FillNumericField(digits: string, rest: string, kwargs: map<string, string>)
    requires IsDigits(digits)
    ensures Fill("{" + digits + "}" + rest, kwargs) ==
      if DigitsValue(digits) > MaxIndex then Err(TooManyDigits) else Err(PositionalField)
  {
    var t := "{" + digits + "}" + rest;
    assert t[1..] == digits + ("}" + rest) && t[1] == digits[0];
    NameEndAt(digits, "}" + rest);
    assert t[1..|digits| + 1] == digits;
    assert forall i :: 0 <= i < |digits| ==> digits[i] != '.';
    assert DigitRun(digits) == |digits| && digits[..|digits|] == digits;
  }

  /** A longer run of digits never spells a smaller number. */
  lemma {:induction false} DigitsValuePrefix(s: string, k: nat)
    requires IsDigits(s) && 0 < k <= |s|
    ensures IsDigits(s[..k]) && DigitsValue(s[..k]) <= DigitsValue(s)
    decreases |s|
  {
    if k < |s| {
      var s' := s[..|s| - 1];
      assert s'[..k] == s[..k];
      DigitsValuePrefix(s', k);
    } else {
      assert s[..k] == s;
    }
  }

  /** A field name whose leading digits are worth more than `MaxIndex`
      raises ValueError, whatever characters follow the digits, as in
      "{99999999999999999999x}". */
  lemma LookupTooManyDigits(digits: string, tail: string, kwargs: map<string, string>)
    requires IsDigits(digits) && DigitsValue(digits) > MaxIndex
    ensures LookupField(digits + tail, kwargs) == Err(TooManyDigits)
  {
    var name := digits + tail;
    var n := DigitRun(name);
    assert forall i :: 0 <= i < |digits| ==> name[i] == digits[i];
    assert name[..n][..|digits|] == digits;
    DigitsValuePrefix(name[..n], |digits|);
  }

  /** A `{` inside a field name raises ValueError, whatever follows it: the
      name is scanned without matching braces, as in "{a{b}}" or "{a{b}". */
  lemma FillBraceInName(a: string, rest: string, kwargs: map<string, string>)
    requires |a| > 0 && forall i :: 0 <= i < |a| ==> !EndsName(a[i])
    ensures Fill("{" + a + "{" + rest, kwargs) == Err(UnexpectedBrace)
  {
    var t := "{" + a + "{" + rest;
    assert t[1..] == a + ("{" + rest) && t[1] == a[0];
    NameEndAt(a, "{" + rest);
    assert t[|a| + 1] == '{';
  }

  /** A field with an index, a conversion or a format specification after
      its name is outside the model, and is reported with that name. */
  lemma FillUnsupportedSuffix(a: string, c: char, rest: string, kwargs: map<string, string>)
    requires forall i :: 0 <= i < |a| ==> !EndsName(a[i])
    requires c == '[' || c == ':' || c == '!'
    ensures Fill("{" + a + [c] + rest, kwargs) == Err(UnsupportedField(a))
  {
    var t := "{" + a + [c] + rest;
    assert t[1..] == a + ([c] + rest);
    NameEndAt(a, [c] + rest);
    assert t[|a| + 1] == c;
    assert t[1..|a| + 1] == a;
  }

  /** A field whose name runs to the end of the text raises ValueError. */
  lemma FillUnclosedField(a: string, kwargs: map<string, string>)
    requires forall i :: 0 <= i < |a| ==> !EndsName(a[i])
    ensures Fill("{" + a, kwargs) == Err(UnclosedField)
  {
    var t := "{" + a;
    assert t[1..] == a;
  }

  /** A template with a single plain field, such as "Hello, {name}!", is
      filled by substituting that one argument and copying the rest. */
  lemma FillOneField(pre: string, name: string, post: string, kwargs: map<string, string>)
    requires NoBraces(pre) && IsPlainName(name) && NoBraces(post)
    ensures Fill(pre + "{" + name + "}" + post, kwargs) ==
      if name in kwargs then Ok(pre + kwargs[name] + post) else Err(MissingKey(name))
  {
    var field := "{" + name + "}" + post;
    assert pre + "{" + name + "}" + post == pre + field;
    FillLiteralPrefix(pre, field, kwargs);
    FillField(name, post, kwargs);
    if name in kwargs {
      FillLiteral(post, kwargs);
      assert Fill(field, kwargs) == Ok(kwargs[name] + post);
      assert pre + (kwargs[name] + post) == pre + kwargs[name] + post;
    }
  }
}
