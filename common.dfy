/** Shared vocabulary of the harness model: optional values, error returns,
    the outcome of one HTTP request, and the handful of Python string
    operations (decimal formatting, `in`, `lower`, `split`, `title`,
    `replace`, `Path.stem`) that the harness's decisions are built on. */
module Common {

  datatype Option<+T> = None | Some(value: T)

  datatype Result<+T, +E> = Ok(value: T) | Err(error: E)

  /** What a `requests.get`/`post` call gives back: a response with its
      status code, elapsed time and whether its body decodes as JSON, or an
      exception (connection refused, timeout, ...) with its message. */
  datatype HttpOutcome =
    | Response(statusCode: nat, elapsedSeconds: real, jsonBody: bool)
    | RequestFailed(message: string)

  // ---------------------------------------------------------------------
  // Decimal formatting of naturals (Python's f"{n}") and its inverse

  function DigitChar(d: nat): (c: char)
    requires d < 10
    ensures '0' <= c <= '9' && (c as int) - ('0' as int) == d
  {
    ('0' as int + d) as char
  }

  /** `str(n)` for a natural number: its decimal digits, most significant first. */
  function NatToString(n: nat): (s: string)
    ensures |s| >= 1
    ensures forall i :: 0 <= i < |s| ==> '0' <= s[i] <= '9'
    decreases n
  {
    if n < 10 then [DigitChar(n)] else NatToString(n / 10) + [DigitChar(n % 10)]
  }

  /** The value of a string of decimal digits (`int(s)`), the inverse of NatToString. */
  function DigitsValue(s: string): nat
    requires forall i :: 0 <= i < |s| ==> '0' <= s[i] <= '9'
  {
    if s == [] then 0
    else DigitsValue(s[..|s| - 1]) * 10 + ((s[|s| - 1] as int) - ('0' as int))
  }

  lemma {:induction false} DigitsValueOfNatToString(n: nat)
    ensures DigitsValue(NatToString(n)) == n
    decreases n
  {
    var s := NatToString(n);
    if n >= 10 {
      DigitsValueOfNatToString(n / 10);
      assert s[..|s| - 1] == NatToString(n / 10);
    }
  }

  /** Different numbers never print the same: this is what makes the
      `port_<p>` keys of the resource monitor distinct per port. */
  lemma NatToStringInjective(a: nat, b: nat)
    ensures NatToString(a) == NatToString(b) ==> a == b
  {
    DigitsValueOfNatToString(a);
    DigitsValueOfNatToString(b);
  }

  // ---------------------------------------------------------------------
  // Substrings, prefixes, case

  predicate StartsWith(s: string, prefix: string) {
    |prefix| <= |s| && s[..|prefix|] == prefix
  }

  /** `sub` appears in `s` starting at position `i`. */
  predicate MatchesAt(s: string, sub: string, i: int) {
    0 <= i <= |s| - |sub| && s[i..i + |sub|] == sub
  }

  /** Python's `sub in s`: some window of `s` equals `sub`. */
  ghost predicate Occurs(sub: string, s: string) {
    exists i :: MatchesAt(s, sub, i)
  }

  /** Python's `sub in s`, computed by scanning `s` from the left. */
  function Contains(s: string, sub: string): (b: bool)
    ensures b <==> Occurs(sub, s)
    decreases |s|
  {
    if |sub| > |s| then false
    else if s[..|sub|] == sub then (assert MatchesAt(s, sub, 0); true)
    else
      var b := Contains(s[1..], sub);
      ContainsShift(s, sub, b);
      b
  }

  lemma ContainsShift(s: string, sub: string, b: bool)
    requires |sub| <= |s| && s[..|sub|] != sub
    requires b <==> Occurs(sub, s[1..])
    ensures b <==> Occurs(sub, s)
  {
    if Occurs(sub, s) {
      var i :| MatchesAt(s, sub, i);
      assert i != 0;
      assert s[1..][i - 1..i - 1 + |sub|] == s[i..i + |sub|];
      assert MatchesAt(s[1..], sub, i - 1);
    }
    if b {
      var i :| MatchesAt(s[1..], sub, i);
      assert s[i + 1..i + 1 + |sub|] == s[1..][i..i + |sub|];
      assert MatchesAt(s, sub, i + 1);
    }
  }

  function LowerChar(c: char): char {
    if 'A' <= c <= 'Z' then (c as int + 32) as char else c
  }

  function UpperChar(c: char): char {
    if 'a' <= c <= 'z' then (c as int - 32) as char else c
  }

  predicate IsLetter(c: char) {
    'a' <= c <= 'z' || 'A' <= c <= 'Z'
  }

  /** Python's `s.lower()`, restricted to ASCII letters. */
  function Lower(s: string): (r: string)
    ensures |r| == |s| && forall i :: 0 <= i < |s| ==> r[i] == LowerChar(s[i])
  {
    seq(|s|, i requires 0 <= i < |s| => LowerChar(s[i]))
  }

  /** Python's `s.replace(old, new)` for single characters. */
  function ReplaceChar(s: string, from: char, to: char): (r: string)
    ensures |r| == |s|
    ensures forall i :: 0 <= i < |s| ==> r[i] == if s[i] == from then to else s[i]
  {
    seq(|s|, i requires 0 <= i < |s| => if s[i] == from then to else s[i])
  }

  /** Python's `s.title()` over ASCII: a letter is upper-cased when the
      character before it is not a letter, lower-cased otherwise. */
  function Title(s: string): (r: string)
    ensures |r| == |s|
    ensures forall i :: 0 <= i < |s| && IsLetter(s[i]) && (i == 0 || !IsLetter(s[i - 1])) ==> r[i] == UpperChar(s[i])
    ensures forall i :: 0 < i < |s| && IsLetter(s[i]) && IsLetter(s[i - 1]) ==> r[i] == LowerChar(s[i])
    ensures forall i :: 0 <= i < |s| && !IsLetter(s[i]) ==> r[i] == s[i]
  {
    seq(|s|, i requires 0 <= i < |s| =>
      if !IsLetter(s[i]) then s[i]
      else if i > 0 && IsLetter(s[i - 1]) then LowerChar(s[i])
      else UpperChar(s[i]))
  }

  // ---------------------------------------------------------------------
  // str.split(sep) on a single character, and its inverse join

  /** The position of the first `c` in `s` (`s.index(c)`). */
  function IndexOf(s: string, c: char): (i: nat)
    requires c in s
    ensures i < |s| && s[i] == c && c !in s[..i]
  {
    if s[0] == c then 0 else IndexOf(s[1..], c) + 1
  }

  /** Python's `s.split(sep)`: never empty; a string without `sep` is one field. */
  function Split(s: string, sep: char): (parts: seq<string>)
    ensures |parts| >= 1
    ensures forall k :: 0 <= k < |parts| ==> sep !in parts[k]
    decreases |s|
  {
    if sep !in s then [s]
    else
      var i := IndexOf(s, sep);
      [s[..i]] + Split(s[i + 1..], sep)
  }

  /** Python's `sep.join(parts)`. */
  function Join(parts: seq<string>, sep: char): string
    requires |parts| >= 1
  {
    if |parts| == 1 then parts[0] else parts[0] + [sep] + Join(parts[1..], sep)
  }

  lemma {:induction false} JoinSplit(s: string, sep: char)
    ensures Join(Split(s, sep), sep) == s
    decreases |s|
  {
    if sep in s {
      var i := IndexOf(s, sep);
      JoinSplit(s[i + 1..], sep);
      assert Split(s, sep)[1..] == Split(s[i + 1..], sep);
      assert s == s[..i] + [sep] + s[i + 1..];
    }
  }

  /** The first occurrence of a character is the only one with none before it. */
  lemma IndexOfUnique(s: string, c: char, i: nat)
    requires i < |s| && s[i] == c && c !in s[..i]
    ensures IndexOf(s, c) == i
  {
  }

  /** A separator-free field followed by the separator splits off as the first field. */
  lemma SplitAfterFirstSeparator(a: string, b: string, sep: char)
    requires sep !in a
    ensures Split(a + [sep] + b, sep) == [a] + Split(b, sep)
  {
    var s := a + [sep] + b;
    assert s[|a|] == sep;
    assert s[..|a|] == a;
    IndexOfUnique(s, sep, |a|);
    assert s[|a| + 1..] == b;
  }

  lemma {:induction false} SplitJoin(parts: seq<string>, sep: char)
    requires |parts| >= 1
    requires forall k :: 0 <= k < |parts| ==> sep !in parts[k]
    ensures Split(Join(parts, sep), sep) == parts
    decreases |parts|
  {
    if |parts| > 1 {
      var rest := Join(parts[1..], sep);
      assert Join(parts, sep) == parts[0] + [sep] + rest;
      SplitAfterFirstSeparator(parts[0], rest, sep);
      SplitJoin(parts[1..], sep);
      assert parts == [parts[0]] + parts[1..];
    }
  }

  /** Splitting yields several fields exactly when the separator occurs. */
  lemma SplitHasSeveralFieldsIff(s: string, sep: char)
    ensures |Split(s, sep)| > 1 <==> sep in s
  {
    if sep in s {
      var i := IndexOf(s, sep);
      assert Split(s, sep) == [s[..i]] + Split(s[i + 1..], sep);
    }
  }

  // ---------------------------------------------------------------------
  // pathlib.Path(p).stem

  function LastIndexOf(s: string, c: char): (i: nat)
    requires c in s
    ensures i < |s| && s[i] == c && c !in s[i + 1..]
  {
    if s[|s| - 1] == c then |s| - 1
    else
      assert c in s[..|s| - 1] by {
        var j :| 0 <= j < |s| && s[j] == c;
        assert s[..|s| - 1][j] == c;
      }
      var i := LastIndexOf(s[..|s| - 1], c);
      assert s[i + 1..] == s[..|s| - 1][i + 1..] + [s[|s| - 1]];
      i
  }

  /** The final path component (`Path(p).name`). */
  function BaseName(path: string): (name: string)
    ensures '/' !in name
    ensures name == path || (|name| < |path| && path[|path| - |name| - 1] == '/' && path[|path| - |name|..] == name)
  {
    if '/' !in path then path else path[LastIndexOf(path, '/') + 1..]
  }

  /** `Path(p).stem`: the name without its last suffix; a leading dot or a
      trailing dot does not start a suffix. */
  function Stem(path: string): (stem: string)
    ensures StartsWith(BaseName(path), stem)
    ensures '/' !in stem
    ensures var name := BaseName(path);
      || (stem == name && forall i :: 0 < i < |name| - 1 && name[i] == '.' ==> '.' in name[i + 1..])
      || (0 < |stem| < |name| - 1 && name[|stem|] == '.' && '.' !in name[|stem| + 1..])
  {
    var name := BaseName(path);
    if '.' !in name then name
    else
      var i := LastIndexOf(name, '.');
      if 0 < i < |name| - 1 then name[..i]
      else
        assert forall j :: 0 < j < |name| - 1 && name[j] == '.' ==> '.' in name[j + 1..] by {
          assert forall j :: i < j < |name| ==> name[j] == name[i + 1..][j - i - 1];
          forall j | 0 < j < |name| - 1 && name[j] == '.' ensures '.' in name[j + 1..] {
            assert name[j + 1..][i - j - 1] == '.';
          }
        }
        name
  }
}
