/**
 * Strings as the two runtimes see them. The browser code trims with
 * JavaScript's String.prototype.trim and measures with .length (UTF-16 code
 * units); the server code strips with Python's str.strip and measures with
 * len (code points). The whitespace sets differ in a few characters.
 */
module Text {
  import opened Wrappers

  /** An absent or empty string: false under both `!s` and `not s`. */
  predicate Falsy(v: Option<string>) {
    v.None? || v.value == ""
  }

  datatype Runtime = JavaScript | Python

  /** Whitespace removed by trim (JavaScript) or strip (Python). */
  predicate IsSpace(rt: Runtime, c: char) {
    || ('\t' <= c <= '\r')
    || c == ' ' || c == '\U{00A0}' || c == '\U{1680}'
    || ('\U{2000}' <= c <= '\U{200A}')
    || c == '\U{2028}' || c == '\U{2029}' || c == '\U{202F}' || c == '\U{205F}' || c == '\U{3000}'
    || (rt == JavaScript && c == '\U{FEFF}')
    || (rt == Python && (('\U{001C}' <= c <= '\U{001F}') || c == '\U{0085}'))
  }

  /** Every character is whitespace (the empty string included). */
  predicate IsBlank(rt: Runtime, s: string) {
    forall i :: 0 <= i < |s| ==> IsSpace(rt, s[i])
  }

  function TrimStart(rt: Runtime, s: string): string
    decreases |s|
  {
    if |s| > 0 && IsSpace(rt, s[0]) then TrimStart(rt, s[1..]) else s
  }

  /** What TrimStart leaves is a suffix of its input. */
  lemma {:induction false} TrimStartSuffix(rt: Runtime, s: string)
    ensures |TrimStart(rt, s)| <= |s| && TrimStart(rt, s) == s[|s| - |TrimStart(rt, s)|..]
    decreases |s|
  {
    if |s| > 0 && IsSpace(rt, s[0]) {
      TrimStartSuffix(rt, s[1..]);
    }
  }

  /** TrimStart drops a whitespace prefix and stops at the first other character. */
  lemma {:induction false} TrimStartShape(rt: Runtime, s: string)
    ensures var r := TrimStart(rt, s);
      && |r| <= |s| && r == s[|s| - |r|..]
      && (r == [] || !IsSpace(rt, r[0]))
      && forall i :: 0 <= i < |s| - |r| ==> IsSpace(rt, s[i])
    decreases |s|
  {
    if |s| > 0 && IsSpace(rt, s[0]) {
      TrimStartShape(rt, s[1..]);
      var r := TrimStart(rt, s);
      forall i | 0 < i < |s| - |r| ensures IsSpace(rt, s[i]) {
        assert s[i] == s[1..][i - 1];
      }
    }
  }

  function TrimEnd(rt: Runtime, s: string): string
    decreases |s|
  {
    if |s| > 0 && IsSpace(rt, s[|s| - 1]) then TrimEnd(rt, s[..|s| - 1]) else s
  }

  /** What TrimEnd leaves is a prefix of its input. */
  lemma {:induction false} TrimEndPrefix(rt: Runtime, s: string)
    ensures |TrimEnd(rt, s)| <= |s| && TrimEnd(rt, s) == s[..|TrimEnd(rt, s)|]
    decreases |s|
  {
    if |s| > 0 && IsSpace(rt, s[|s| - 1]) {
      TrimEndPrefix(rt, s[..|s| - 1]);
    }
  }

  /** TrimEnd drops a whitespace suffix and stops at the last other character. */
  lemma {:induction false} TrimEndShape(rt: Runtime, s: string)
    ensures var r := TrimEnd(rt, s);
      && |r| <= |s| && r == s[..|r|]
      && (r == [] || !IsSpace(rt, r[|r| - 1]))
      && forall i :: |r| <= i < |s| ==> IsSpace(rt, s[i])
    decreases |s|
  {
    if |s| > 0 && IsSpace(rt, s[|s| - 1]) {
      TrimEndShape(rt, s[..|s| - 1]);
      var r := TrimEnd(rt, s);
      forall i | |r| <= i < |s| - 1 ensures IsSpace(rt, s[i]) {
        assert s[i] == s[..|s| - 1][i];
      }
    }
  }

  /** trim()/strip(): strips whitespace at both ends. */
  function Trim(rt: Runtime, s: string): string {
    TrimEnd(rt, TrimStart(rt, s))
  }

  /**
   * The trimmed string is no longer than the input, starts and ends with a
   * non-space character, and is empty exactly when the input is blank.
   */
  lemma TrimShape(rt: Runtime, s: string)
    ensures |Trim(rt, s)| <= |s|
    ensures Trim(rt, s) == [] || (!IsSpace(rt, Trim(rt, s)[0]) && !IsSpace(rt, Trim(rt, s)[|Trim(rt, s)| - 1]))
    ensures Trim(rt, s) == [] <==> IsBlank(rt, s)
  {
    var t := TrimStart(rt, s);
    TrimStartShape(rt, s);
    TrimEndShape(rt, t);
    BlankSuffix(rt, s, t);
    TrimEndEmpty(rt, t);
  }

  /** A suffix left by TrimStart is blank exactly when the whole string is. */
  lemma BlankSuffix(rt: Runtime, s: string, t: string)
    requires |t| <= |s| && t == s[|s| - |t|..]
    requires forall i :: 0 <= i < |s| - |t| ==> IsSpace(rt, s[i])
    ensures IsBlank(rt, t) <==> IsBlank(rt, s)
  {
    if IsBlank(rt, t) {
      forall i | |s| - |t| <= i < |s| ensures IsSpace(rt, s[i]) {
        assert s[i] == t[i - (|s| - |t|)];
      }
    }
  }

  /** TrimEnd leaves the empty string exactly on blank input. */
  lemma TrimEndEmpty(rt: Runtime, t: string)
    ensures TrimEnd(rt, t) == [] <==> IsBlank(rt, t)
  {
    TrimEndShape(rt, t);
    var r := TrimEnd(rt, t);
    if r != [] {
      assert !IsSpace(rt, t[|r| - 1]);
    }
  }

  /** The trimmed string is the slice of the input after its leading whitespace. */
  lemma TrimIsSlice(rt: Runtime, s: string)
    ensures var off := |s| - |TrimStart(rt, s)|;
      0 <= off <= off + |Trim(rt, s)| <= |s| && Trim(rt, s) == s[off..off + |Trim(rt, s)|]
  {
    var t := TrimStart(rt, s);
    var r := TrimEnd(rt, t);
    TrimStartSuffix(rt, s);
    TrimEndPrefix(rt, t);
    assert Trim(rt, s) == r;
    var off := |s| - |t|;
    assert r == s[off..][..|r|];
  }

  /** A string with no whitespace at either end is its own trim. */
  lemma TrimOfTrimmed(rt: Runtime, s: string)
    requires s == [] || (!IsSpace(rt, s[0]) && !IsSpace(rt, s[|s| - 1]))
    ensures Trim(rt, s) == s
  {
  }

  lemma TrimIdempotent(rt: Runtime, s: string)
    ensures Trim(rt, Trim(rt, s)) == Trim(rt, s)
  {
    TrimShape(rt, s);
    TrimOfTrimmed(rt, Trim(rt, s));
  }

  /** Trimming depends only on which characters each runtime calls whitespace. */
  lemma {:induction false} TrimAgrees(s: string)
    requires forall i :: 0 <= i < |s| ==> (IsSpace(JavaScript, s[i]) <==> IsSpace(Python, s[i]))
    ensures Trim(JavaScript, s) == Trim(Python, s)
  {
    TrimStartAgrees(s);
    var t := TrimStart(Python, s);
    TrimStartShape(Python, s);
    assert forall i :: 0 <= i < |t| ==> t[i] == s[|s| - |t| + i];
    TrimEndAgrees(t);
  }

  lemma {:induction false} TrimStartAgrees(s: string)
    requires forall i :: 0 <= i < |s| ==> (IsSpace(JavaScript, s[i]) <==> IsSpace(Python, s[i]))
    ensures TrimStart(JavaScript, s) == TrimStart(Python, s)
    decreases |s|
  {
    if |s| > 0 && IsSpace(Python, s[0]) {
      assert forall i :: 0 <= i < |s| - 1 ==> s[1..][i] == s[i + 1];
      TrimStartAgrees(s[1..]);
    }
  }

  lemma {:induction false} TrimEndAgrees(s: string)
    requires forall i :: 0 <= i < |s| ==> (IsSpace(JavaScript, s[i]) <==> IsSpace(Python, s[i]))
    ensures TrimEnd(JavaScript, s) == TrimEnd(Python, s)
    decreases |s|
  {
    if |s| > 0 && IsSpace(Python, s[|s| - 1]) {
      TrimEndAgrees(s[..|s| - 1]);
    }
  }

  /** Code units of one character in UTF-16. */
  function Utf16Units(c: char): nat {
    if c as int > 0xFFFF then 2 else 1
  }

  function Utf16Length(s: string): (n: nat)
    ensures |s| <= n <= 2 * |s|
  {
    if s == [] then 0 else Utf16Units(s[0]) + Utf16Length(s[1..])
  }

  /** JavaScript's s.length or Python's len(s). */
  function Length(rt: Runtime, s: string): (n: nat)
    ensures |s| <= n <= 2 * |s|
    ensures rt == Python ==> n == |s|
  {
    match rt
    case JavaScript => Utf16Length(s)
    case Python => |s|
  }

  /** Inside the Basic Multilingual Plane both runtimes count the same. */
  lemma {:induction false} BmpLength(s: string)
    requires forall i :: 0 <= i < |s| ==> s[i] as int <= 0xFFFF
    ensures Length(JavaScript, s) == Length(Python, s) == |s|
  {
    if s != [] {
      assert forall i :: 0 <= i < |s| - 1 ==> s[1..][i] == s[i + 1];
      BmpLength(s[1..]);
    }
  }

  /** Outside it every character is two UTF-16 code units. */
  lemma {:induction false} AstralLength(s: string)
    requires forall i :: 0 <= i < |s| ==> s[i] as int > 0xFFFF
    ensures Length(JavaScript, s) == 2 * |s|
  {
    if s != [] {
      assert forall i :: 0 <= i < |s| - 1 ==> s[1..][i] == s[i + 1];
      AstralLength(s[1..]);
    }
  }

  /** JavaScript includes(c) / Python `c in s`. */
  predicate Contains(s: string, c: char) {
    exists i :: 0 <= i < |s| && s[i] == c
  }

  /** JavaScript endsWith(c) for a one-character suffix. */
  predicate EndsWith(s: string, c: char) {
    |s| > 0 && s[|s| - 1] == c
  }
}
