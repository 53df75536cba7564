/** String operations of JavaScript's String.prototype that the modelled code
    uses: searching, splitting, replacing the first match, ASCII case mapping
    and whitespace trimming.  Strings are sequences of Unicode scalar values,
    so a character outside the Basic Multilingual Plane counts once. */
module Strings {
  import opened Wrappers

  /** The first index at or after `from` where `pat` occurs in `s`. */
  function FindFrom(s: string, pat: string, from: nat): (r: Option<nat>)
    requires from <= |s|
    ensures r.Some? ==> from <= r.value <= |s| && pat <= s[r.value..]
    ensures r.Some? ==> forall j :: from <= j < r.value ==> !(pat <= s[j..])
    ensures r.None? ==> forall j :: from <= j <= |s| ==> !(pat <= s[j..])
    decreases |s| - from
  {
    if pat <= s[from..] then Some(from)
    else if from == |s| then None
    else FindFrom(s, pat, from + 1)
  }

  /** `s.indexOf(pat)`, with None for -1. */
  function IndexOf(s: string, pat: string): Option<nat>
  {
    FindFrom(s, pat, 0)
  }

  /** `s.includes(pat)`. */
  predicate Contains(s: string, pat: string)
  {
    IndexOf(s, pat).Some?
  }

  lemma ContainsAt(s: string, pat: string, i: nat)
    requires i <= |s| && pat <= s[i..]
    ensures Contains(s, pat)
  {
  }

  /** A one-character pattern occurs exactly when that character does. */
  lemma ContainsChar(s: string, c: char)
    ensures Contains(s, [c]) <==> c in s
  {
    if Contains(s, [c]) {
      var i := IndexOf(s, [c]).value;
      assert s[i] == c;
    }
    if c in s {
      var i :| 0 <= i < |s| && s[i] == c;
      ContainsAt(s, [c], i);
    }
  }

  /** `s.replace(pat, rep)` with a string pattern: only the first occurrence
      is replaced; without one, `s` comes back unchanged. */
  function ReplaceFirst(s: string, pat: string, rep: string): (r: string)
    ensures !Contains(s, pat) ==> r == s
    ensures Contains(s, pat) ==>
      var i := IndexOf(s, pat).value;
      && pat <= s[i..]
      && (forall j :: 0 <= j < i ==> !(pat <= s[j..]))
      && r == s[..i] + rep + s[i + |pat|..]
  {
    match IndexOf(s, pat)
    case None => s
    case Some(i) => s[..i] + rep + s[i + |pat|..]
  }

  /** The text before the first `sep` (all of `s` when there is none). */
  function Before(s: string, sep: char): (r: string)
    ensures r <= s && sep !in r
    ensures |r| < |s| ==> s[|r|] == sep
  {
    match IndexOf(s, [sep])
    case None =>
      assert forall j :: 0 <= j < |s| ==> s[j] != sep by {
        forall j | 0 <= j < |s| ensures s[j] != sep {
          assert !([sep] <= s[j..]);
        }
      }
      s
    case Some(i) =>
      assert forall j :: 0 <= j < i ==> s[j] != sep by {
        forall j | 0 <= j < i ensures s[j] != sep {
          assert !([sep] <= s[j..]);
        }
      }
      s[..i]
  }

  /** `Before` is the only prefix free of `sep` that ends at a `sep` or at the
      end of `s`. */
  lemma BeforeIs(s: string, sep: char, p: string)
    requires p <= s && sep !in p
    requires |p| < |s| ==> s[|p|] == sep
    ensures Before(s, sep) == p
  {
  }

  /** `s.split(sep)` for a one-character separator: the pieces between
      separators, always at least one piece; the first piece is the text
      before the first `sep`, and a second piece exists iff `sep` occurs. */
  function Split(s: string, sep: char): (r: seq<string>)
    ensures |r| >= 1 && r[0] == Before(s, sep)
    ensures |r| >= 2 <==> sep in s
    decreases |s|
  {
    var first := Before(s, sep);
    if |first| == |s| then [s] else [first] + Split(s[|first| + 1..], sep)
  }

  /** The second piece is the text between the first and second `sep`. */
  lemma SplitSecond(s: string, sep: char)
    requires sep in s
    ensures Split(s, sep)[1] == Before(s[|Before(s, sep)| + 1..], sep)
  {
  }

  /** The index of the last `c` in `s`, or -1 (`s.lastIndexOf(c)`). */
  function LastIndexOf(s: string, c: char): (r: int)
    ensures -1 <= r < |s|
    ensures r >= 0 ==> s[r] == c
    ensures forall j :: r < j < |s| ==> s[j] != c
  {
    if |s| == 0 then -1
    else if s[|s| - 1] == c then |s| - 1
    else LastIndexOf(s[..|s| - 1], c)
  }

  function LowerChar(c: char): char
  {
    if 'A' <= c <= 'Z' then (c as int + 32) as char else c
  }

  function UpperChar(c: char): char
  {
    if 'a' <= c <= 'z' then (c as int - 32) as char else c
  }

  /** `s.toLowerCase()` restricted to ASCII letters. */
  function ToLower(s: string): (r: string)
    ensures |r| == |s|
    ensures forall i :: 0 <= i < |s| ==> r[i] == LowerChar(s[i])
  {
    seq(|s|, i requires 0 <= i < |s| => LowerChar(s[i]))
  }

  /** `s.toUpperCase()` restricted to ASCII letters. */
  function ToUpper(s: string): (r: string)
    ensures |r| == |s|
    ensures forall i :: 0 <= i < |s| ==> r[i] == UpperChar(s[i])
  {
    seq(|s|, i requires 0 <= i < |s| => UpperChar(s[i]))
  }

  /** The characters that `String.prototype.trim` removes and that `\s`
      matches in a regular expression (WhiteSpace and LineTerminator). */
  predicate IsWhitespace(c: char)
  {
    c == ' ' || '\t' <= c <= '\r' || c == '\U{00A0}' || c == '\U{1680}'
    || '\U{2000}' <= c <= '\U{200A}' || c == '\U{2028}' || c == '\U{2029}'
    || c == '\U{202F}' || c == '\U{205F}' || c == '\U{3000}' || c == '\U{FEFF}'
  }

  function TrimStart(s: string): (r: string)
    ensures |r| <= |s| && r == s[|s| - |r|..]
    ensures r == [] || !IsWhitespace(r[0])
    ensures s == [] || !IsWhitespace(s[0]) ==> r == s
  {
    if |s| > 0 && IsWhitespace(s[0]) then TrimStart(s[1..]) else s
  }

  /** `TrimStart` cuts off whitespace only. */
  lemma {:induction false} TrimStartCutsWhitespace(s: string)
    ensures forall k :: 0 <= k < |s| - |TrimStart(s)| ==> IsWhitespace(s[k])
  {
    if |s| > 0 && IsWhitespace(s[0]) {
      var t := s[1..];
      TrimStartCutsWhitespace(t);
      WhitespaceRunGrows(s, |t| - |TrimStart(t)|);
    }
  }

  /** A whitespace character in front of a whitespace run makes a longer run. */
  lemma WhitespaceRunGrows(s: string, n: nat)
    requires |s| > 0 && IsWhitespace(s[0]) && n < |s|
    requires forall k :: 0 <= k < n ==> IsWhitespace(s[1..][k])
    ensures forall k :: 0 <= k < n + 1 ==> IsWhitespace(s[k])
  {
    forall k | 0 < k < n + 1 ensures IsWhitespace(s[k]) {
      assert s[k] == s[1..][k - 1];
    }
  }

  function TrimEnd(s: string): (r: string)
    ensures r <= s
    ensures r == [] || !IsWhitespace(r[|r| - 1])
    ensures s == [] || !IsWhitespace(s[|s| - 1]) ==> r == s
  {
    if |s| > 0 && IsWhitespace(s[|s| - 1]) then TrimEnd(s[..|s| - 1]) else s
  }

  /** `TrimEnd` cuts off whitespace only. */
  lemma {:induction false} TrimEndCutsWhitespace(s: string)
    ensures forall k :: |TrimEnd(s)| <= k < |s| ==> IsWhitespace(s[k])
  {
    if |s| > 0 && IsWhitespace(s[|s| - 1]) {
      TrimEndCutsWhitespace(s[..|s| - 1]);
    }
  }

  /** `s.trim()`: the piece of `s` that starts after its leading whitespace,
      with no whitespace at either end. */
  function Trim(s: string): (r: string)
    ensures |r| <= |s|
    ensures r <= s[|s| - |TrimStart(s)|..]
    ensures r == [] || (!IsWhitespace(r[0]) && !IsWhitespace(r[|r| - 1]))
    ensures s == [] || (!IsWhitespace(s[0]) && !IsWhitespace(s[|s| - 1])) ==> r == s
  {
    var t := TrimStart(s);
    var r := TrimEnd(t);
    TrimEndPrefix(t);
    r
  }

  /** Everything `trim` cuts off, on either side, is whitespace. */
  lemma TrimCutsOnlyWhitespace(s: string)
    ensures forall k :: 0 <= k < |s| - |TrimStart(s)| ==> IsWhitespace(s[k])
    ensures forall k :: |s| - |TrimStart(s)| + |Trim(s)| <= k < |s| ==> IsWhitespace(s[k])
  {
    var t := TrimStart(s);
    TrimStartCutsWhitespace(s);
    TrimEndCutsWhitespace(t);
    TrimmedTail(s, t, Trim(s));
  }

  /** What `TrimEnd` cuts off the trimmed start is a tail of `s`. */
  lemma TrimmedTail(s: string, t: string, r: string)
    requires |t| <= |s| && t == s[|s| - |t|..]
    requires |r| <= |t| && forall k :: |r| <= k < |t| ==> IsWhitespace(t[k])
    ensures forall k :: |s| - |t| + |r| <= k < |s| ==> IsWhitespace(s[k])
  {
    var d := |s| - |t|;
    forall k | d + |r| <= k < |s| ensures IsWhitespace(s[k]) {
      assert s[k] == t[k - d];
    }
  }

  lemma TrimEndPrefix(t: string)
    ensures TrimEnd(t) != [] ==> TrimEnd(t)[0] == t[0]
  {
  }

  /** Trimming only removes characters. */
  lemma TrimChars(s: string)
    ensures forall c :: c in Trim(s) ==> c in s
  {
    var r := Trim(s);
    var d := |s| - |TrimStart(s)|;
    forall c | c in r ensures c in s {
      var i :| 0 <= i < |r| && r[i] == c;
      assert s[d + i] == c;
    }
  }
}
