/** Value types shared by every module of the model, and the handful of Python
    `str` operations (`isspace`, `strip`, `join`, `lower`) whose exact meaning
    the bot's logic depends on. */
module Common {

  datatype Option<+T> = None | Some(value: T)

  /** An operation that either returns a value or raises the error it carries. */
  datatype Result<+T, +E> = Ok(value: T) | Err(error: E)

  /** Python's `str.isspace()` for a single character: the ASCII whitespace and
      separator controls plus the Unicode space separators and line/paragraph
      separators. */
  predicate IsSpace(c: char) {
    || c == ' '
    || ('\t' <= c <= '\r')
    || ('\U{1c}' <= c <= '\U{1f}')
    || c == '\U{85}' || c == '\U{a0}' || c == '\U{1680}'
    || ('\U{2000}' <= c <= '\U{200a}')
    || c == '\U{2028}' || c == '\U{2029}' || c == '\U{202f}' || c == '\U{205f}' || c == '\U{3000}'
  }

  /** True when every character is whitespace (the empty string included). */
  predicate IsBlank(s: string) {
    forall i :: 0 <= i < |s| ==> IsSpace(s[i])
  }

  /** Drops leading whitespace. */
  function TrimStart(s: string): string {
    if s != [] && IsSpace(s[0]) then TrimStart(s[1..]) else s
  }

  /** Drops trailing whitespace. */
  function TrimEnd(s: string): string {
    if s != [] && IsSpace(s[|s| - 1]) then TrimEnd(s[..|s| - 1]) else s
  }

  /** What is left after dropping leading whitespace is a suffix that does not
      start with whitespace, and everything dropped was whitespace. */
  lemma {:induction false} TrimStartSpec(s: string)
    ensures |TrimStart(s)| <= |s| && TrimStart(s) == s[|s| - |TrimStart(s)|..]
    ensures TrimStart(s) == [] || !IsSpace(TrimStart(s)[0])
    ensures forall i :: 0 <= i < |s| - |TrimStart(s)| ==> IsSpace(s[i])
  {
    if s != [] && IsSpace(s[0]) {
      TrimStartSpec(s[1..]);
      forall i | 0 < i < |s| - |TrimStart(s)| ensures IsSpace(s[i]) {
        assert s[i] == s[1..][i - 1];
      }
    }
  }

  /** What is left after dropping trailing whitespace is a prefix that does
      not end with whitespace, and everything dropped was whitespace. */
  lemma {:induction false} TrimEndSpec(s: string)
    ensures |TrimEnd(s)| <= |s| && TrimEnd(s) == s[..|TrimEnd(s)|]
    ensures TrimEnd(s) == [] || !IsSpace(TrimEnd(s)[|TrimEnd(s)| - 1])
    ensures forall i :: |TrimEnd(s)| <= i < |s| ==> IsSpace(s[i])
  {
    if s != [] && IsSpace(s[|s| - 1]) {
      TrimEndSpec(s[..|s| - 1]);
    }
  }

  /** Python's `str.strip()` with no argument. */
  function Strip(s: string): string {
    TrimEnd(TrimStart(s))
  }

  /** `s.strip() == ""` holds exactly for the blank strings. */
  lemma StripEmptyIffBlank(s: string)
    ensures Strip(s) == [] <==> IsBlank(s)
  {
    var t := TrimStart(s);
    TrimStartSpec(s);
    TrimEndSpec(t);
    if Strip(s) == [] {
      assert t == [];
    } else {
      var r := Strip(s);
      assert t[0] == r[0];
      assert s[|s| - |t|] == t[0];
    }
  }

  /** A stripped string neither starts nor ends with whitespace. */
  lemma StripHasNoOuterSpace(s: string)
    ensures Strip(s) == [] || (!IsSpace(Strip(s)[0]) && !IsSpace(Strip(s)[|Strip(s)| - 1]))
  {
    var t := TrimStart(s);
    var r := TrimEnd(t);
    TrimStartSpec(s);
    TrimEndSpec(t);
    if r != [] {
      assert r[0] == t[0];
    }
  }

  /** Stripping twice is stripping once. */
  lemma StripIdempotent(s: string)
    ensures Strip(Strip(s)) == Strip(s)
  {
    var r := Strip(s);
    StripHasNoOuterSpace(s);
    StripUnchanged(r);
  }

  /** A non-empty string that neither starts nor ends with whitespace. */
  predicate Trimmed(s: string) {
    s != [] && !IsSpace(s[0]) && !IsSpace(s[|s| - 1])
  }

  /** A string that neither starts nor ends with whitespace strips to itself. */
  lemma StripUnchanged(s: string)
    requires s == [] || (!IsSpace(s[0]) && !IsSpace(s[|s| - 1]))
    ensures Strip(s) == s
  {
  }

  /** A trimmed text between two newlines strips back to the text: the way a
      triple-quoted f-string that opens and closes on a line of its own is
      cleaned up. */
  lemma StripNewlineFramed(b: string)
    requires Trimmed(b)
    ensures Strip("\n" + b + "\n") == b
  {
    var s := "\n" + b + "\n";
    assert s[1..] == b + "\n";
    assert TrimStart(s) == TrimStart(b + "\n");
    assert TrimStart(b + "\n") == b + "\n";
    assert (b + "\n")[..|b|] == b;
    assert TrimEnd(b + "\n") == TrimEnd(b);
  }

  /** Python's `sep.join(parts)`. */
  function Join(sep: string, parts: seq<string>): string
    decreases |parts|
  {
    if |parts| == 0 then ""
    else if |parts| == 1 then parts[0]
    else parts[0] + sep + Join(sep, parts[1..])
  }

  /** A join whose first part holds a non-whitespace character holds one too. */
  lemma {:induction false} JoinKeepsNonBlankHead(sep: string, parts: seq<string>)
    requires |parts| > 0 && !IsBlank(parts[0])
    ensures !IsBlank(Join(sep, parts))
  {
    var k :| 0 <= k < |parts[0]| && !IsSpace(parts[0][k]);
    if |parts| > 1 {
      assert Join(sep, parts)[k] == parts[0][k];
    }
  }

  /** A string with a non-whitespace character does not strip to "". */
  lemma NonBlankStripsNonEmpty(s: string)
    requires !IsBlank(s)
    ensures Strip(s) != []
  {
    StripEmptyIffBlank(s);
  }

  /** `str.lower()` on the ASCII upper-case letters; every other character is
      kept. */
  function LowerAscii(c: char): char {
    if 'A' <= c <= 'Z' then (c as int + 32) as char else c
  }

  /** `s.strip().lower() == word` for a lower-case ASCII `word`. */
  predicate StrippedLowerEquals(s: string, word: string) {
    var t := Strip(s);
    |t| == |word| && forall i :: 0 <= i < |t| ==> LowerAscii(t[i]) == word[i]
  }

  /** Python's `x or y` on an optional string: a missing value and "" are both
      falsy. */
  function OrElse(x: Option<string>, y: Option<string>): Option<string> {
    if x.Some? && x.value != "" then x else y
  }

  /** No value occurs twice. */
  predicate NoDuplicates<T(==)>(s: seq<T>) {
    forall i, j :: 0 <= i < j < |s| ==> s[i] != s[j]
  }

  /** `s[:k]` in Python, including a negative `k` that counts from the end. */
  function PySlicePrefix<T>(s: seq<T>, k: int): (r: seq<T>)
    ensures r <= s
    ensures k >= 0 ==> |r| == if k < |s| then k else |s|
    ensures k < 0 ==> |r| == if |s| + k > 0 then |s| + k else 0
  {
    if k >= 0 then (if k < |s| then s[..k] else s)
    else (if |s| + k > 0 then s[..|s| + k] else [])
  }
}
