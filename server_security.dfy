/** The server's pure request checks (convex/security.ts): origin and
    timestamp validation, input sanitising, the e-mail shape check and the
    client-address pick. */
module ServerSecurity {
  import opened Wrappers
  import opened Strings

  const AllowedOrigins: seq<string> := ["*"]
  const SignatureValidityWindow: int := 5 * 60 * 1000

  // ---------------------------------------------------------------------
  // validateOrigin

  /** `allowedOrigins.some(a => origin === a || origin.startsWith(a))`. */
  predicate AnyAllowed(allowed: seq<string>, origin: string)
  {
    exists i :: 0 <= i < |allowed| && (origin == allowed[i] || allowed[i] <= origin)
  }

  /** `validateOrigin(origin)`; `development` is NODE_ENV === "development". */
  predicate ValidateOrigin(origin: Option<string>, development: bool)
  {
    if origin.None? || origin.value == "" then false
    else if development then Contains(origin.value, "localhost") || Contains(origin.value, "127.0.0.1")
    else AnyAllowed(AllowedOrigins, origin.value)
  }

  /** With the configured list `["*"]`, outside development only origins that
      begin with a literal '*' pass; the wildcard is not a wildcard. */
  lemma OriginOutsideDevelopment(origin: Option<string>)
    ensures ValidateOrigin(origin, false) <==> origin.Some? && |origin.value| > 0 && origin.value[0] == '*'
  {
    if origin.Some? && |origin.value| > 0 && origin.value[0] == '*' {
      assert AllowedOrigins[0] <= origin.value;
    }
  }

  /** A browser origin such as "https://example.com" is refused outside
      development. */
  lemma OrdinaryOriginRefused(origin: string)
    requires origin == "https://example.com"
    ensures !ValidateOrigin(Some(origin), false)
  {
    OriginOutsideDevelopment(Some(origin));
  }

  /** The check with "*" read as the wildcard it is written as: any entry
      "*" admits every origin. */
  predicate AnyAllowedCorrected(allowed: seq<string>, origin: string)
  {
    exists i :: 0 <= i < |allowed| && (allowed[i] == "*" || origin == allowed[i] || allowed[i] <= origin)
  }

  predicate ValidateOriginCorrected(origin: Option<string>, development: bool)
  {
    if origin.None? || origin.value == "" then false
    else if development then Contains(origin.value, "localhost") || Contains(origin.value, "127.0.0.1")
    else AnyAllowedCorrected(AllowedOrigins, origin.value)
  }

  /** With the configured list, the corrected check admits exactly the
      non-empty origins outside development and agrees with the original in
      development. */
  lemma WildcardAdmitsEveryOrigin(origin: Option<string>, development: bool)
    ensures ValidateOriginCorrected(origin, false) <==> origin.Some? && origin.value != ""
    ensures ValidateOriginCorrected(origin, true) == ValidateOrigin(origin, true)
    ensures ValidateOrigin(origin, development) ==> ValidateOriginCorrected(origin, development)
  {
    if origin.Some? && origin.value != "" {
      assert AllowedOrigins[0] == "*";
      if ValidateOrigin(origin, false) {
        var i :| 0 <= i < |AllowedOrigins| && (origin.value == AllowedOrigins[i] || AllowedOrigins[i] <= origin.value);
      }
    }
  }

  lemma NoOriginIsInvalid(development: bool)
    ensures !ValidateOrigin(None, development) && !ValidateOrigin(Some(""), development)
  {
  }

  lemma OriginInDevelopment(origin: string)
    requires origin != ""
    ensures ValidateOrigin(Some(origin), true) <==> Contains(origin, "localhost") || Contains(origin, "127.0.0.1")
  {
  }

  // ---------------------------------------------------------------------
  // validateTimestamp

  function Abs(x: int): int
  {
    if x < 0 then -x else x
  }

  /** `validateTimestamp(timestamp)` at clock reading `now`. */
  predicate ValidateTimestamp(now: int, timestamp: int)
  {
    Abs(now - timestamp) < SignatureValidityWindow
  }

  /** The window is strict and the same size in the past and the future. */
  lemma TimestampWindow(now: int, timestamp: int, d: int)
    ensures ValidateTimestamp(now, timestamp) <==> now - 300000 < timestamp < now + 300000
    ensures ValidateTimestamp(now, now - d) <==> ValidateTimestamp(now, now + d)
    ensures !ValidateTimestamp(now, now + 300000) && !ValidateTimestamp(now, now - 300000)
  {
  }

  // ---------------------------------------------------------------------
  // sanitizeInput

  /** `.replace(/[<>]/g, "")`. */
  function StripAngles(s: string): (r: string)
    ensures |r| <= |s|
  {
    if |s| == 0 then []
    else if s[0] == '<' || s[0] == '>' then StripAngles(s[1..])
    else [s[0]] + StripAngles(s[1..])
  }

  /** Every angle bracket goes and nothing else is added. */
  lemma {:induction false} StripAnglesChars(s: string)
    ensures forall c :: c in StripAngles(s) ==> c in s && c != '<' && c != '>'
  {
    if |s| > 0 {
      StripAnglesChars(s[1..]);
    }
  }

  /** Text without angle brackets passes unchanged. */
  lemma {:induction false} StripAnglesKeepsClean(s: string)
    requires '<' !in s && '>' !in s
    ensures StripAngles(s) == s
  {
    if |s| > 0 {
      StripAnglesKeepsClean(s[1..]);
      assert s == [s[0]] + s[1..];
    }
  }

  const Javascript := "javascript:"

  /** Case-insensitively, `s` starts with "javascript:". */
  predicate JavascriptAt(s: string)
  {
    |s| >= |Javascript| && ToLower(s[..|Javascript|]) == Javascript
  }

  /** `.replace(/javascript:/gi, "")`: one left-to-right pass that removes
      every non-overlapping match it meets. */
  function StripJavascript(s: string): (r: string)
    ensures |r| <= |s|
    ensures |s| < |Javascript| ==> r == s
  {
    if |s| == 0 then []
    else if JavascriptAt(s) then StripJavascript(s[|Javascript|..])
    else [s[0]] + StripJavascript(s[1..])
  }

  lemma {:induction false} StripJavascriptChars(s: string)
    ensures forall c :: c in StripJavascript(s) ==> c in s
  {
    if |s| > 0 {
      if JavascriptAt(s) {
        StripJavascriptChars(s[|Javascript|..]);
        assert forall c :: c in s[|Javascript|..] ==> c in s;
      } else {
        StripJavascriptChars(s[1..]);
        assert forall c :: c in s[1..] ==> c in s;
      }
    }
  }

  /** A pass that removes nothing found no match anywhere. */
  lemma {:induction false} StripJavascriptUnchanged(s: string)
    requires |StripJavascript(s)| == |s|
    ensures StripJavascript(s) == s
    ensures forall i :: 0 <= i < |s| ==> !JavascriptAt(s[i..])
  {
    if |s| > 0 {
      StripJavascriptUnchanged(s[1..]);
      forall i | 1 <= i < |s| ensures !JavascriptAt(s[i..]) {
        assert s[i..] == s[1..][i - 1..];
      }
      assert s[0..] == s;
    }
  }

  /** `\w`. */
  predicate IsWordChar(c: char)
  {
    'a' <= c <= 'z' || 'A' <= c <= 'Z' || '0' <= c <= '9' || c == '_'
  }

  function WordRun(s: string): (n: nat)
    ensures n <= |s|
    ensures n < |s| ==> !IsWordChar(s[n])
  {
    if |s| > 0 && IsWordChar(s[0]) then 1 + WordRun(s[1..]) else 0
  }

  /** The length of a match of `/on\w+=/i` at the start of `s`, or 0.  The
      greedy `\w+` must stop right before the '=', so only the longest run of
      word characters can match. */
  function HandlerMatch(s: string): (n: nat)
    ensures n == 0 || 4 <= n <= |s|
  {
    if |s| >= 2 && LowerChar(s[0]) == 'o' && LowerChar(s[1]) == 'n' then
      var k := WordRun(s[2..]);
      if k >= 1 && 2 + k < |s| && s[2 + k] == '=' then 2 + k + 1 else 0
    else 0
  }

  /** `.replace(/on\w+=/gi, "")`, one pass as above. */
  function StripHandlers(s: string): (r: string)
    ensures |r| <= |s|
  {
    if |s| == 0 then []
    else if HandlerMatch(s) > 0 then StripHandlers(s[HandlerMatch(s)..])
    else [s[0]] + StripHandlers(s[1..])
  }

  lemma {:induction false} StripHandlersChars(s: string)
    ensures forall c :: c in StripHandlers(s) ==> c in s
  {
    if |s| > 0 {
      if HandlerMatch(s) > 0 {
        StripHandlersChars(s[HandlerMatch(s)..]);
        assert forall c :: c in s[HandlerMatch(s)..] ==> c in s;
      } else {
        StripHandlersChars(s[1..]);
        assert forall c :: c in s[1..] ==> c in s;
      }
    }
  }

  lemma {:induction false} StripHandlersUnchanged(s: string)
    requires |StripHandlers(s)| == |s|
    ensures StripHandlers(s) == s
    ensures forall i :: 0 <= i < |s| ==> HandlerMatch(s[i..]) == 0
  {
    if |s| > 0 {
      StripHandlersUnchanged(s[1..]);
      forall i | 1 <= i < |s| ensures HandlerMatch(s[i..]) == 0 {
        assert s[i..] == s[1..][i - 1..];
      }
      assert s[0..] == s;
    }
  }

  /** `sanitizeInput(input)`: no angle bracket survives, the result is never
      longer than the input and has no whitespace at either end. */
  function SanitizeInput(input: string): (r: string)
    ensures forall c :: c in r ==> c != '<' && c != '>'
    ensures |r| <= |input|
    ensures r == [] || (!IsWhitespace(r[0]) && !IsWhitespace(r[|r| - 1]))
  {
    var a := StripAngles(input);
    var j := StripJavascript(a);
    var x := StripHandlers(j);
    StripAnglesChars(input);
    StripJavascriptChars(a);
    StripHandlersChars(j);
    TrimChars(x);
    Trim(x)
  }

  /** Each removal runs once, so removing one match can join its
      neighbours into a new one that survives. */
  lemma SinglePassLeavesHandler(s: string)
    requires s == "oonx=nx="
    ensures SanitizeInput(s) == "onx="
    ensures HandlerMatch(SanitizeInput(s)) == 4
  {
    var h := "onx=";
    ExampleHasNoAngles(s);
    StripAnglesKeepsClean(s);
    var j := StripJavascript(StripAngles(s));
    assert j == s;
    HandlerPassExample(s, h);
    ExampleNeedsNoTrim(h);
    assert SanitizeInput(s) == Trim(StripHandlers(j));
  }

  lemma ExampleHasNoAngles(s: string)
    requires s == "oonx=nx="
    ensures '<' !in s && '>' !in s
  {
  }

  lemma ExampleNeedsNoTrim(h: string)
    requires h == "onx="
    ensures Trim(h) == h
  {
    assert !IsWhitespace(h[0]) && !IsWhitespace(h[3]);
  }

  /** The handler pass on the example above: the match "onx=" in the middle
      is removed and its neighbours "o" and "nx=" form a new one. */
  lemma HandlerPassExample(s: string, h: string)
    requires s == "oonx=nx=" && h == "onx="
    ensures StripHandlers(s) == h
    ensures HandlerMatch(h) == 4
  {
    var tail := s[1..];
    assert tail == "onx=nx=";
    assert HandlerMatch(s) == 0 by {
      assert LowerChar(s[1]) == 'o';
    }
    assert StripHandlers(s) == [s[0]] + StripHandlers(tail);
    OnxMatches(tail);
    OnxMatches(h);
    var rest := tail[4..];
    assert rest == "nx=";
    NoHandlerWithoutO(rest);
    assert StripHandlers(tail) == rest;
    assert [s[0]] + rest == h;
  }

  lemma OnxMatches(t: string)
    requires |t| >= 4 && t[..4] == "onx="
    ensures HandlerMatch(t) == 4
  {
    assert t[2..][0] == 'x' && t[2..][1] == '=';
    assert WordRun(t[2..]) == 1;
  }

  /** Text without an 'o' in either case holds no handler match and passes
      unchanged. */
  lemma {:induction false} NoHandlerWithoutO(s: string)
    requires forall i :: 0 <= i < |s| ==> LowerChar(s[i]) != 'o'
    ensures StripHandlers(s) == s
  {
    if |s| > 0 {
      NoHandlerWithoutO(s[1..]);
      assert s == [s[0]] + s[1..];
    }
  }

  /** The sanitiser the comments in the source describe: both removals are
      repeated until a round removes nothing, so the result holds no
      "javascript:" and no `on\w+=` anywhere, whatever the input. */
  function StripActiveContent(s: string): (r: string)
    ensures |r| <= |s|
    ensures forall c :: c in r ==> c in s
    ensures forall i :: 0 <= i < |r| ==> !JavascriptAt(r[i..]) && HandlerMatch(r[i..]) == 0
    decreases |s|
  {
    var j := StripJavascript(s);
    var t := StripHandlers(j);
    StripJavascriptChars(s);
    StripHandlersChars(j);
    if |t| == |s| then
      StripJavascriptUnchanged(s);
      StripHandlersUnchanged(j);
      s
    else StripActiveContent(t)
  }

  function SanitizeInputCorrected(input: string): (r: string)
    ensures forall c :: c in r ==> c != '<' && c != '>'
    ensures |r| <= |input|
    ensures r == [] || (!IsWhitespace(r[0]) && !IsWhitespace(r[|r| - 1]))
    ensures forall i :: 0 <= i < |r| ==> !JavascriptAt(r[i..]) && HandlerMatch(r[i..]) == 0
  {
    var a := StripAngles(input);
    var x := StripActiveContent(a);
    StripAnglesChars(input);
    var t := TrimStart(x);
    NoMatchInPiece(x, |x| - |t|, Trim(x));
    TrimChars(x);
    Trim(x)
  }

  /** On a string that already holds no match, the corrected sanitiser only
      trims. */
  lemma CorrectedKeepsCleanInput(input: string)
    requires '<' !in input && '>' !in input
    requires forall i :: 0 <= i < |input| ==> !JavascriptAt(input[i..]) && HandlerMatch(input[i..]) == 0
    ensures SanitizeInputCorrected(input) == Trim(input)
    ensures SanitizeInputCorrected(input) == SanitizeInput(input)
  {
    StripAnglesKeepsClean(input);
    if |StripJavascript(input)| < |input| {
      StripJavascriptFinds(input);
      assert false;
    }
    StripJavascriptUnchanged(input);
    if |StripHandlers(input)| < |input| {
      StripHandlersFinds(input);
      assert false;
    }
    StripHandlersUnchanged(input);
  }

  /** A pass that shortens its input met a match somewhere. */
  lemma {:induction false} StripJavascriptFinds(s: string)
    requires |StripJavascript(s)| < |s|
    ensures exists i :: 0 <= i < |s| && JavascriptAt(s[i..])
  {
    if JavascriptAt(s) {
      assert s[0..] == s;
    } else {
      StripJavascriptFinds(s[1..]);
      var i :| 0 <= i < |s[1..]| && JavascriptAt(s[1..][i..]);
      assert s[1..][i..] == s[i + 1..];
    }
  }

  lemma {:induction false} StripHandlersFinds(s: string)
    requires |StripHandlers(s)| < |s|
    ensures exists i :: 0 <= i < |s| && HandlerMatch(s[i..]) > 0
  {
    if HandlerMatch(s) > 0 {
      assert s[0..] == s;
    } else {
      StripHandlersFinds(s[1..]);
      var i :| 0 <= i < |s[1..]| && HandlerMatch(s[1..][i..]) > 0;
      assert s[1..][i..] == s[i + 1..];
    }
  }

  /** A run of word characters ended inside `x` ends at the same place in
      any extension of `x`. */
  lemma {:induction false} WordRunOfPrefix(x: string, y: string)
    requires x <= y && WordRun(x) < |x|
    ensures WordRun(y) == WordRun(x)
  {
    if |x| > 0 && IsWordChar(x[0]) {
      assert x[1..] <= y[1..];
      WordRunOfPrefix(x[1..], y[1..]);
    }
  }

  /** Matches are found by looking forward only, so a match at the start of
      `x` is one at the start of every extension of `x`. */
  lemma MatchOfPrefix(x: string, y: string)
    requires x <= y
    ensures JavascriptAt(x) ==> JavascriptAt(y)
    ensures HandlerMatch(x) > 0 ==> HandlerMatch(y) == HandlerMatch(x)
  {
    if JavascriptAt(x) {
      assert y[..|Javascript|] == x[..|Javascript|];
    }
    if HandlerMatch(x) > 0 {
      assert x[2..] <= y[2..];
      WordRunOfPrefix(x[2..], y[2..]);
    }
  }

  /** A prefix `r` of the suffix `x[d..]` of a string without matches has
      none either. */
  lemma NoMatchInPiece(x: string, d: nat, r: string)
    requires forall i :: 0 <= i < |x| ==> !JavascriptAt(x[i..]) && HandlerMatch(x[i..]) == 0
    requires d <= |x| && r <= x[d..]
    ensures forall i :: 0 <= i < |r| ==> !JavascriptAt(r[i..]) && HandlerMatch(r[i..]) == 0
  {
    forall i | 0 <= i < |r|
      ensures !JavascriptAt(r[i..]) && HandlerMatch(r[i..]) == 0
    {
      assert r[i..] <= x[d + i..];
      MatchOfPrefix(r[i..], x[d + i..]);
    }
  }

  // ---------------------------------------------------------------------
  // isValidEmail

  /** `[^\s@]`. */
  predicate EmailChar(c: char)
  {
    !IsWhitespace(c) && c != '@'
  }

  predicate AllEmailChars(s: string)
  {
    forall i :: 0 <= i < |s| ==> EmailChar(s[i])
  }

  /** `/^[^\s@]+@[^\s@]+\.[^\s@]+$/.test(email)`: the string splits at an '@'
      and a later '.' into three non-empty runs of `[^\s@]`. */
  predicate IsValidEmail(email: string)
  {
    exists at, dot :: 0 < at && at + 1 < dot && dot + 1 < |email|
      && email[at] == '@' && email[dot] == '.'
      && AllEmailChars(email[..at]) && AllEmailChars(email[at + 1..dot]) && AllEmailChars(email[dot + 1..])
  }

  /** The same check stated on the address as a whole: no whitespace, exactly
      one '@' with something before it, and a '.' after it that is neither
      the first nor the last character of the domain. */
  predicate EmailShape(email: string)
  {
    && (forall i :: 0 <= i < |email| ==> !IsWhitespace(email[i]))
    && exists at :: 0 < at < |email| && email[at] == '@'
         && (forall i :: 0 <= i < |email| && i != at ==> email[i] != '@')
         && exists dot :: at + 1 < dot < |email| - 1 && email[dot] == '.'
  }

  lemma EmailRegexIsShape(email: string)
    ensures IsValidEmail(email) <==> EmailShape(email)
  {
    if IsValidEmail(email) {
      RegexGivesShape(email);
    }
    if EmailShape(email) {
      ShapeGivesRegex(email);
    }
  }

  lemma RegexGivesShape(email: string)
    requires IsValidEmail(email)
    ensures EmailShape(email)
  {
    var at, dot :| 0 < at && at + 1 < dot && dot + 1 < |email|
      && email[at] == '@' && email[dot] == '.'
      && AllEmailChars(email[..at]) && AllEmailChars(email[at + 1..dot]) && AllEmailChars(email[dot + 1..]);
    forall i | 0 <= i < |email| && i != at
      ensures EmailChar(email[i]) || i == dot
    {
      if i < at {
        assert email[..at][i] == email[i];
      } else if i < dot {
        assert email[at + 1..dot][i - at - 1] == email[i];
      } else if i > dot {
        assert email[dot + 1..][i - dot - 1] == email[i];
      }
    }
    assert at + 1 < dot < |email| - 1 && email[dot] == '.';
  }

  lemma ShapeGivesRegex(email: string)
    requires EmailShape(email)
    ensures IsValidEmail(email)
  {
    var at :| 0 < at < |email| && email[at] == '@'
       && (forall i :: 0 <= i < |email| && i != at ==> email[i] != '@')
       && exists dot :: at + 1 < dot < |email| - 1 && email[dot] == '.';
    var dot :| at + 1 < dot < |email| - 1 && email[dot] == '.';
    assert AllEmailChars(email[..at]);
    assert AllEmailChars(email[at + 1..dot]);
    assert AllEmailChars(email[dot + 1..]);
  }

  // ---------------------------------------------------------------------
  // getClientIP

  /** `headers.get("x-forwarded-for")?.split(",")[0] || headers.get("x-real-ip") || "unknown"`. */
  function GetClientIP(forwardedFor: Option<string>, realIp: Option<string>): (r: string)
    ensures forwardedFor.Some? && Before(forwardedFor.value, ',') != "" ==>
              r == Before(forwardedFor.value, ',') && ',' !in r
    ensures (forwardedFor.None? || Before(forwardedFor.value, ',') == "") && realIp.Some? && realIp.value != "" ==>
              r == realIp.value
    ensures (forwardedFor.None? || Before(forwardedFor.value, ',') == "") && (realIp.None? || realIp.value == "") ==>
              r == "unknown"
  {
    var first := if forwardedFor.Some? then Split(forwardedFor.value, ',')[0] else "";
    if first != "" then first
    else if realIp.Some? && realIp.value != "" then realIp.value
    else "unknown"
  }
}
