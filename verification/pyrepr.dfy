/** Python's `repr` of a str, of a pair of str and of a list of such pairs
    (what `MessageTemplate.__str__` and `ChatPromptTemplate.__str__` print),
    and a reader for those literals, as Python's `ast.literal_eval` reads them
    back.  The reader is the partner that shows `repr` loses nothing: every
    printed list of pairs reads back as the list it came from. */
module PyRepr {
  import opened Base

  /** The quote `repr` puts around `s`: a double quote only when `s` holds a
      single quote and no double quote. */
  function QuoteFor(s: string): (q: char)
    ensures q == '\'' || q == '"'
    ensures q == '"' <==> '\'' in s && '"' !in s
  {
    if '\'' in s && '"' !in s then '"' else '\''
  }

  function HexDigit(d: int): char
    requires 0 <= d < 16
  {
    if d < 10 then ('0' as int + d) as char else ('a' as int + d - 10) as char
  }

  predicate IsHexDigit(c: char) {
    '0' <= c <= '9' || 'a' <= c <= 'f'
  }

  function HexValue(c: char): int
    requires IsHexDigit(c)
  {
    if c <= '9' then c as int - '0' as int else c as int - 'a' as int + 10
  }

  /** The control characters `repr` writes as `\xhh`. */
  predicate IsHexEscaped(c: char) {
    (c < ' ' && c != '\t' && c != '\n' && c != '\r') || c as int == 0x7F
  }

  /** How `repr` writes one character between quotes `q`. */
  function EscapeChar(c: char, q: char): string {
    if c == q || c == '\\' then ['\\', c]
    else if c == '\t' then "\\t"
    else if c == '\n' then "\\n"
    else if c == '\r' then "\\r"
    else if IsHexEscaped(c) then ['\\', 'x', HexDigit(c as int / 16), HexDigit(c as int % 16)]
    else [c]
  }

  function EscapeAll(s: string, q: char): string {
    if s == [] then [] else EscapeChar(s[0], q) + EscapeAll(s[1..], q)
  }

  /** `repr(s)` for a Python str. */
  function ReprStr(s: string): string {
    var q := QuoteFor(s);
    [q] + EscapeAll(s, q) + [q]
  }

  /** `repr((a, b))` for a tuple of two str. */
  function ReprPair(p: (string, string)): string {
    "(" + ReprStr(p.0) + ", " + ReprStr(p.1) + ")"
  }

  function JoinPairs(ps: seq<(string, string)>): string {
    if ps == [] then ""
    else if |ps| == 1 then ReprPair(ps[0])
    else ReprPair(ps[0]) + ", " + JoinPairs(ps[1..])
  }

  /** `repr(ps)` for a list of such tuples. */
  function ReprPairList(ps: seq<(string, string)>): string {
    "[" + JoinPairs(ps) + "]"
  }

  // ---------------------------------------------------------------------
  // Reading the literals back

  /** Puts `c` in front of the text read by `r` and counts `n` more characters. */
  function Cons(c: char, r: Option<(string, nat)>, n: nat): Option<(string, nat)> {
    if r.Some? then Some(([c] + r.value.0, r.value.1 + n)) else None
  }

  /** Reads the inside of a literal quoted by `q`, up to and including the
      closing quote: the text it denotes and the number of characters used. */
  function ReadBody(s: string, q: char): (r: Option<(string, nat)>)
    ensures r.Some? ==> 0 < r.value.1 <= |s|
    decreases |s|
  {
    if s == [] then None
    else if s[0] == q then Some(("", 1))
    else if s[0] == '\\' then
      if |s| < 2 then None
      else if s[1] == '\\' || s[1] == '\'' || s[1] == '"' then Cons(s[1], ReadBody(s[2..], q), 2)
      else if s[1] == 't' then Cons('\t', ReadBody(s[2..], q), 2)
      else if s[1] == 'n' then Cons('\n', ReadBody(s[2..], q), 2)
      else if s[1] == 'r' then Cons('\r', ReadBody(s[2..], q), 2)
      else if s[1] == 'x' && |s| >= 4 && IsHexDigit(s[2]) && IsHexDigit(s[3]) then
        Cons((HexValue(s[2]) * 16 + HexValue(s[3])) as char, ReadBody(s[4..], q), 4)
      else None
    else Cons(s[0], ReadBody(s[1..], q), 1)
  }

  /** Reads one quoted str literal at the start of `s`. */
  function ReadLiteral(s: string): (r: Option<(string, nat)>)
    ensures r.Some? ==> 0 < r.value.1 <= |s|
  {
    if |s| > 0 && (s[0] == '\'' || s[0] == '"') then
      match ReadBody(s[1..], s[0])
      case None => None
      case Some((t, k)) => Some((t, k + 1))
    else None
  }

  /** Reads one `(a, b)` tuple of str literals at the start of `s`. */
  function ReadPair(s: string): (r: Option<((string, string), nat)>)
    ensures r.Some? ==> 0 < r.value.1 <= |s|
  {
    if |s| == 0 || s[0] != '(' then None
    else
      match ReadLiteral(s[1..])
      case None => None
      case Some((a, k1)) =>
        var i := 1 + k1;
        if !(i + 2 <= |s| && s[i..i + 2] == ", ") then None
        else
          match ReadLiteral(s[i + 2..])
          case None => None
          case Some((b, k2)) =>
            var j := i + 2 + k2;
            if j < |s| && s[j] == ')' then Some(((a, b), j + 1)) else None
  }

  /** Reads `p1, p2, ..., pn]`, the items of a non-empty list and its end. */
  function ReadPairs(s: string): Option<seq<(string, string)>>
    decreases |s|
  {
    match ReadPair(s)
    case None => None
    case Some((p, k)) =>
      var rest := s[k..];
      if rest == "]" then Some([p])
      else if |rest| >= 2 && rest[..2] == ", " then
        match ReadPairs(rest[2..])
        case None => None
        case Some(ps) => Some([p] + ps)
      else None
  }

  /** Reads a whole list of pairs, as `ast.literal_eval` would. */
  function ParsePairList(s: string): Option<seq<(string, string)>> {
    if |s| >= 2 && s[0] == '[' then
      if s[1..] == "]" then Some([]) else ReadPairs(s[1..])
    else None
  }

  // ---------------------------------------------------------------------
  // Round trip

  lemma HexRoundTrip(c: char)
    requires IsHexEscaped(c)
    ensures var n := c as int;
      IsHexDigit(HexDigit(n / 16)) && IsHexDigit(HexDigit(n % 16)) &&
      (HexValue(HexDigit(n / 16)) * 16 + HexValue(HexDigit(n % 16))) as char == c
  {
  }

  /** Reading one escaped character gives that character back. */
  lemma ReadEscapeChar(c: char, q: char, rest: string)
    requires q == '\'' || q == '"'
    ensures ReadBody(EscapeChar(c, q) + rest, q) == Cons(c, ReadBody(rest, q), |EscapeChar(c, q)|)
  {
    var e := EscapeChar(c, q);
    var s := e + rest;
    if c == q || c == '\\' || c == '\t' || c == '\n' || c == '\r' {
      assert s[2..] == rest;
    } else if IsHexEscaped(c) {
      HexRoundTrip(c);
      assert s[4..] == rest;
    } else {
      assert s[0] == c && s[1..] == rest;
    }
  }

  /** The escaped text followed by its closing quote reads back as the text. */
  lemma {:induction false} ReadEscapeAll(s: string, q: char, rest: string)
    requires q == '\'' || q == '"'
    ensures ReadBody(EscapeAll(s, q) + [q] + rest, q) == Some((s, |EscapeAll(s, q)| + 1))
  {
    if s == [] {
      assert EscapeAll(s, q) + [q] + rest == [q] + rest;
    } else {
      var tail := EscapeAll(s[1..], q) + [q] + rest;
      assert EscapeAll(s, q) + [q] + rest == EscapeChar(s[0], q) + tail;
      ReadEscapeChar(s[0], q, tail);
      ReadEscapeAll(s[1..], q, rest);
      assert [s[0]] + s[1..] == s;
    }
  }

  /** A printed str literal, whatever follows it, reads back as the str. */
  lemma ReadReprStr(s: string, rest: string)
    ensures ReadLiteral(ReprStr(s) + rest) == Some((s, |ReprStr(s)|))
  {
    var q := QuoteFor(s);
    var t := ReprStr(s) + rest;
    assert t[0] == q;
    assert t[1..] == EscapeAll(s, q) + [q] + rest;
    ReadEscapeAll(s, q, rest);
  }

  /** A printed tuple, whatever follows it, reads back as the tuple. */
  lemma ReadReprPair(p: (string, string), rest: string)
    ensures ReadPair(ReprPair(p) + rest) == Some((p, |ReprPair(p)|))
  {
    var a, b := ReprStr(p.0), ReprStr(p.1);
    var s := ReprPair(p) + rest;
    assert s == "(" + a + ", " + b + ")" + rest;
    assert s[1..] == a + (", " + b + ")" + rest);
    ReadReprStr(p.0, ", " + b + ")" + rest);
    var i := 1 + |a|;
    assert s[i..i + 2] == ", ";
    assert s[i + 2..] == b + (")" + rest);
    ReadReprStr(p.1, ")" + rest);
    assert s[i + 2 + |b|] == ')';
  }

  /** Reading list items that start with a printed tuple. */
  lemma ReadPairsAfterPair(p: (string, string), rest: string)
    ensures ReadPairs(ReprPair(p) + rest) ==
      if rest == "]" then Some([p])
      else if |rest| >= 2 && rest[..2] == ", " then
        match ReadPairs(rest[2..])
        case None => None
        case Some(ps) => Some([p] + ps)
      else None
  {
    var s := ReprPair(p) + rest;
    ReadReprPair(p, rest);
    assert s[|ReprPair(p)|..] == rest;
  }

  /** The printed items of a non-empty list, then `]`, read back as the items. */
  lemma {:induction false} ReadJoinPairs(ps: seq<(string, string)>)
    requires |ps| > 0
    ensures ReadPairs(JoinPairs(ps) + "]") == Some(ps)
  {
    if |ps| == 1 {
      assert JoinPairs(ps) + "]" == ReprPair(ps[0]) + "]";
      ReadPairsAfterPair(ps[0], "]");
      assert ps == [ps[0]];
    } else {
      var more := JoinPairs(ps[1..]) + "]";
      var rest := ", " + more;
      assert JoinPairs(ps) + "]" == ReprPair(ps[0]) + rest;
      ReadPairsAfterPair(ps[0], rest);
      assert rest != "]" by { assert rest[0] == ',' && "]"[0] == ']'; }
      assert rest[..2] == ", " && rest[2..] == more;
      ReadJoinPairs(ps[1..]);
      assert [ps[0]] + ps[1..] == ps;
    }
  }

  /** Printing a list of pairs and reading it back gives the same list. */
  lemma ParseReprPairList(ps: seq<(string, string)>)
    ensures ParsePairList(ReprPairList(ps)) == Some(ps)
  {
    var s := ReprPairList(ps);
    if ps == [] {
      assert s == "[]" && s[1..] == "]";
    } else {
      assert s[1..] == JoinPairs(ps) + "]";
      assert |JoinPairs(ps)| > 0 by { assert JoinPairs(ps)[0] == '('; }
      assert s[1..] != "]" by { assert s[1] == '('; }
      ReadJoinPairs(ps);
    }
  }

  /** Two lists of pairs print the same only when they are equal. */
  lemma ReprPairListInjective(ps: seq<(string, string)>, qs: seq<(string, string)>)
    requires ReprPairList(ps) == ReprPairList(qs)
    ensures ps == qs
  {
    ParseReprPairList(ps);
    ParseReprPairList(qs);
  }

  /** Two tuples print the same only when they are equal. */
  lemma ReprPairInjective(p: (string, string), p': (string, string))
    requires ReprPair(p) == ReprPair(p')
    ensures p == p'
  {
    ReadReprPair(p, "");
    ReadReprPair(p', "");
    assert ReprPair(p) + "" == ReprPair(p);
    assert ReprPair(p') + "" == ReprPair(p');
  }
}
