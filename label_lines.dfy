/**
  Reading the class id of one annotation line: `int(line.split()[0])`
  (yolo_dataset_stats.py:55). `split()` with no argument splits on runs of
  whitespace and drops leading and trailing whitespace; `int` accepts an
  optional sign followed by decimal digits, single underscores allowed
  between digits.
 */
module LabelLines {
  import opened Outcomes

  /** The characters Python's `str.isspace` accepts, i.e. what `split()` splits on. */
  predicate IsSpace(c: char) {
    || c == ' '
    || '\t' <= c <= '\r'
    || '\U{1C}' <= c <= '\U{1F}'
    || c == '\U{85}' || c == '\U{A0}' || c == '\U{1680}'
    || '\U{2000}' <= c <= '\U{200A}'
    || c == '\U{2028}' || c == '\U{2029}' || c == '\U{202F}' || c == '\U{205F}' || c == '\U{3000}'
  }

  /** A line on which `split()` finds no token. */
  predicate Blank(line: string) {
    forall i :: 0 <= i < |line| ==> IsSpace(line[i])
  }

  predicate NoSpace(s: string) {
    forall i :: 0 <= i < |s| ==> !IsSpace(s[i])
  }

  /** The longest whitespace-free prefix of `s`. */
  function Word(s: string): string
    decreases |s|
  {
    if s == [] || IsSpace(s[0]) then [] else [s[0]] + Word(s[1..])
  }

  /** `Word` is a prefix without whitespace that stops at whitespace or at the end. */
  lemma {:induction false} WordShape(s: string)
    ensures |Word(s)| <= |s| && Word(s) == s[..|Word(s)|]
    ensures NoSpace(Word(s))
    ensures |Word(s)| == |s| || IsSpace(s[|Word(s)|])
    decreases |s|
  {
    if s != [] && !IsSpace(s[0]) {
      WordShape(s[1..]);
    }
  }

  /** `line.split()[0]`; None where `split()` returns an empty list. */
  function FirstToken(line: string): Option<string>
    decreases |line|
  {
    if line == [] then None
    else if IsSpace(line[0]) then FirstToken(line[1..])
    else Some(Word(line))
  }

  /** There is no first token exactly on a blank line; a token is non-empty and free of whitespace. */
  lemma {:induction false} FirstTokenMeaning(line: string)
    ensures FirstToken(line).None? <==> Blank(line)
    ensures FirstToken(line).Some? ==> FirstToken(line).value != [] && NoSpace(FirstToken(line).value)
    decreases |line|
  {
    if line != [] {
      if IsSpace(line[0]) {
        FirstTokenMeaning(line[1..]);
        assert forall i :: 1 <= i < |line| ==> line[i] == line[1..][i - 1];
      } else {
        WordShape(line);
      }
    }
  }

  /** The first token is the first word after the leading whitespace. */
  lemma {:induction false} FirstTokenOfLayout(ws: string, tok: string, rest: string)
    requires Blank(ws) && tok != [] && NoSpace(tok)
    requires rest == [] || IsSpace(rest[0])
    ensures FirstToken(ws + tok + rest) == Some(tok)
    decreases |ws|
  {
    if ws == [] {
      assert ws + tok + rest == tok + rest;
      WordOfLayout(tok, rest);
    } else {
      assert (ws + tok + rest)[1..] == ws[1..] + tok + rest;
      FirstTokenOfLayout(ws[1..], tok, rest);
    }
  }

  lemma {:induction false} WordOfLayout(tok: string, rest: string)
    requires NoSpace(tok)
    requires rest == [] || IsSpace(rest[0])
    ensures Word(tok + rest) == tok
    decreases |tok|
  {
    if tok != [] {
      assert (tok + rest)[1..] == tok[1..] + rest;
      WordOfLayout(tok[1..], rest);
    } else {
      assert tok + rest == rest;
    }
  }

  predicate IsDigit(c: char) {
    '0' <= c <= '9'
  }

  function DigitValue(c: char): (d: nat)
    requires IsDigit(c)
    ensures d < 10
  {
    (c as int) - ('0' as int)
  }

  function DigitChar(d: nat): (c: char)
    requires d < 10
    ensures IsDigit(c) && DigitValue(c) == d
  {
    (('0' as int) + d) as char
  }

  /** The body `int()` accepts in base 10: a digit, then digits each optionally preceded by one `_`. */
  predicate DigitGroups(s: string)
    decreases |s|
  {
    && s != []
    && IsDigit(s[0])
    && (|s| == 1 || DigitGroups(s[1..]) || (s[1] == '_' && DigitGroups(s[2..])))
  }

  /** The number the digits of `s` spell, underscores skipped. */
  function Magnitude(s: string): nat
    decreases |s|
  {
    if s == [] then 0
    else if IsDigit(s[|s| - 1]) then 10 * Magnitude(s[..|s| - 1]) + DigitValue(s[|s| - 1])
    else Magnitude(s[..|s| - 1])
  }

  lemma {:induction false} DigitGroupsChars(s: string)
    requires DigitGroups(s)
    ensures forall i :: 0 <= i < |s| ==> IsDigit(s[i]) || s[i] == '_'
    decreases |s|
  {
    if |s| > 1 {
      if DigitGroups(s[1..]) {
        DigitGroupsChars(s[1..]);
        assert forall i :: 1 <= i < |s| ==> s[i] == s[1..][i - 1];
      } else {
        DigitGroupsChars(s[2..]);
        assert forall i :: 2 <= i < |s| ==> s[i] == s[2..][i - 2];
      }
    }
  }

  /**
    The most decimal digits CPython (3.11 on, and the security releases of
    3.7-3.10) lets `int` convert from a string, and `str` write, by default
    (`sys.int_info.default_max_str_digits`).
   */
  const MAX_STR_DIGITS: nat := 4300

  /** The number of digits in `s`; signs and underscores do not count against the limit. */
  function DigitCount(s: string): nat
    decreases |s|
  {
    if s == [] then 0 else (if IsDigit(s[0]) then 1 else 0) + DigitCount(s[1..])
  }

  /**
    Python's `int(tok)` on a whitespace-free token; None where it raises
    ValueError, which it also does beyond `MAX_STR_DIGITS` digits.
   */
  function ParseInt(tok: string): Option<int> {
    if tok != [] && (tok[0] == '+' || tok[0] == '-') then
      if DigitGroups(tok[1..]) && DigitCount(tok[1..]) <= MAX_STR_DIGITS then
        Some(if tok[0] == '-' then -(Magnitude(tok[1..]) as int) else Magnitude(tok[1..]) as int)
      else None
    else if DigitGroups(tok) && DigitCount(tok) <= MAX_STR_DIGITS then Some(Magnitude(tok))
    else None
  }

  /**
    A token `int` accepts holds only digits, underscores and a leading
    sign, ends in a digit, and has at most `MAX_STR_DIGITS` digits.
   */
  lemma ParseIntChars(tok: string)
    requires ParseInt(tok).Some?
    ensures forall i :: 0 <= i < |tok| ==>
      IsDigit(tok[i]) || tok[i] == '_' || (i == 0 && (tok[i] == '+' || tok[i] == '-'))
    ensures tok != [] && IsDigit(tok[|tok| - 1])
    ensures DigitCount(tok) <= MAX_STR_DIGITS
  {
    if tok != [] && (tok[0] == '+' || tok[0] == '-') {
      DigitGroupsChars(tok[1..]);
      LastIsDigit(tok[1..]);
      assert forall i :: 1 <= i < |tok| ==> tok[i] == tok[1..][i - 1];
    } else {
      DigitGroupsChars(tok);
      LastIsDigit(tok);
    }
  }

  lemma {:induction false} LastIsDigit(s: string)
    requires DigitGroups(s)
    ensures IsDigit(s[|s| - 1])
    decreases |s|
  {
    if |s| > 1 {
      if DigitGroups(s[1..]) {
        LastIsDigit(s[1..]);
      } else {
        LastIsDigit(s[2..]);
      }
    }
  }

  /** Decimal rendering of a natural number, most significant digit first. */
  function ShowNat(n: nat): (s: string)
    ensures s != [] && forall i :: 0 <= i < |s| ==> IsDigit(s[i])
    decreases n
  {
    if n < 10 then [DigitChar(n)] else ShowNat(n / 10) + [DigitChar(n % 10)]
  }

  /** Decimal rendering of an integer, as Python's `str(n)`. */
  function ShowInt(n: int): (s: string)
    ensures s != [] && NoSpace(s)
  {
    if n < 0 then "-" + ShowNat(-n) else ShowNat(n)
  }

  lemma {:induction false} AllDigitsAreGroups(s: string)
    requires s != [] && forall i :: 0 <= i < |s| ==> IsDigit(s[i])
    ensures DigitGroups(s)
    decreases |s|
  {
    if |s| > 1 {
      AllDigitsAreGroups(s[1..]);
    }
  }

  lemma {:induction false} DigitCountOfDigits(s: string)
    requires forall i :: 0 <= i < |s| ==> IsDigit(s[i])
    ensures DigitCount(s) == |s|
    decreases |s|
  {
    if s != [] {
      DigitCountOfDigits(s[1..]);
    }
  }

  /** `str(n)` succeeds: the magnitude of `n` has at most `MAX_STR_DIGITS` digits. */
  predicate Writable(n: int) {
    |ShowNat(if n < 0 then -n else n)| <= MAX_STR_DIGITS
  }

  lemma {:induction false} MagnitudeOfShowNat(n: nat)
    ensures Magnitude(ShowNat(n)) == n
    decreases n
  {
    var s := ShowNat(n);
    if n < 10 {
      assert s[..0] == [];
    } else {
      MagnitudeOfShowNat(n / 10);
      assert s[..|s| - 1] == ShowNat(n / 10);
    }
  }

  /** The digits `str` writes for a natural number it can write are digits `int` reads back. */
  lemma ParseShowNat(n: nat)
    requires |ShowNat(n)| <= MAX_STR_DIGITS
    ensures DigitGroups(ShowNat(n)) && DigitCount(ShowNat(n)) <= MAX_STR_DIGITS
    ensures Magnitude(ShowNat(n)) == n
  {
    AllDigitsAreGroups(ShowNat(n));
    DigitCountOfDigits(ShowNat(n));
    MagnitudeOfShowNat(n);
  }

  /** `int(str(n)) == n` wherever `str(n)` succeeds. */
  lemma ParseShowInt(n: int)
    requires Writable(n)
    ensures ParseInt(ShowInt(n)) == Some(n)
  {
    if n < 0 {
      assert ShowInt(n)[1..] == ShowNat(-n);
      ParseShowNat(-n);
    } else {
      ParseShowNat(n);
    }
  }

  /**
    The class id written on a label line: IndexError on a blank line,
    ValueError when the first token is not an integer.
   */
  function ClassIdOf(line: string): (r: Result<int>)
    ensures r.Failure? ==> r.error.BlankLine? || r.error.NotAnInteger?
  {
    match FirstToken(line)
    case None => Failure(BlankLine)
    case Some(tok) =>
      match ParseInt(tok)
      case None => Failure(NotAnInteger(tok))
      case Some(n) => Success(n)
  }

  /**
    IndexError exactly on a blank line; ValueError exactly when there is a
    first token and `int` refuses it, naming that token, in particular for a
    first token of more than `MAX_STR_DIGITS` digits.
   */
  lemma ClassIdOfMeaning(line: string)
    ensures ClassIdOf(line) == Failure(BlankLine) <==> Blank(line)
    ensures ClassIdOf(line).Failure? && ClassIdOf(line).error.NotAnInteger? ==>
      FirstToken(line) == Some(ClassIdOf(line).error.token) && ParseInt(ClassIdOf(line).error.token).None?
    ensures FirstToken(line).Some? && ParseInt(FirstToken(line).value).None? ==>
      ClassIdOf(line) == Failure(NotAnInteger(FirstToken(line).value))
    ensures FirstToken(line).Some? && DigitCount(FirstToken(line).value) > MAX_STR_DIGITS ==>
      ClassIdOf(line) == Failure(NotAnInteger(FirstToken(line).value))
  {
    FirstTokenMeaning(line);
    if FirstToken(line).Some? && ParseInt(FirstToken(line).value).Some? {
      ParseIntChars(FirstToken(line).value);
    }
  }

  /**
    A line laid out as label files are written, `<id> <x> <y> <w> <h>`
    after optional indentation, yields its id.
   */
  lemma ClassIdOfLabelLine(ws: string, id: int, rest: string)
    requires Writable(id)
    requires Blank(ws)
    requires rest == [] || IsSpace(rest[0])
    ensures ClassIdOf(ws + ShowInt(id) + rest) == Success(id)
  {
    FirstTokenOfLayout(ws, ShowInt(id), rest);
    ParseShowInt(id);
  }
}
