/** The browser-side request hardening (src/lib/security.ts): the CSRF token
    lookup, the default request headers, the guarded fetch wrapper, the
    HTTPS redirect and the encoded local-storage wrapper. */
module ClientSecurity {
  import opened Wrappers
  import opened Strings

  const CsrfCookieName := "XSRF-TOKEN"
  const CsrfHeader := "X-CSRF-Token"
  const ForbiddenMessage := "Access forbidden - possible CSRF token mismatch"
  const TimeoutMessage := "Request timeout"
  const InsecureUrlMessage := "Insecure URL: HTTPS required in production"

  // ---------------------------------------------------------------------
  // getCSRFToken

  /** What the page offers: no document at all (server rendering), or the
      result of the csrf-token meta-tag query (None: no tag; Some(None): a
      tag without a content attribute) and `document.cookie`. */
  datatype Page = NoDocument | Document(meta: Option<Option<string>>, cookie: string)

  /** The `name` of `const [name, value] = cookie.trim().split("=")`. */
  function CookieName(cookie: string): (name: string)
    ensures name == Before(Trim(cookie), '=')
  {
    Split(Trim(cookie), '=')[0]
  }

  /** The `value` of the same destructuring: None (undefined) when the trimmed
      cookie holds no '='; otherwise the text between the first '=' and the
      next one, so a value that itself holds '=' is cut short. */
  function CookieValue(cookie: string): (value: Option<string>)
    ensures value.None? <==> '=' !in Trim(cookie)
    ensures value.Some? ==> value.value == Before(Trim(cookie)[|CookieName(cookie)| + 1..], '=')
  {
    var t := Trim(cookie);
    var parts := Split(t, '=');
    if |parts| >= 2 then SplitSecond(t, '='); Some(parts[1]) else None
  }

  /** `decodeURIComponent(value)`; an undefined value is decoded as the text
      "undefined". */
  function DecodedValue(value: Option<string>, decode: string -> string): string
  {
    decode(if value.Some? then value.value else "undefined")
  }

  /** The names of the cookies, in order. */
  function CookieNames(cookies: seq<string>): (names: seq<string>)
    ensures |names| == |cookies|
    ensures forall j :: 0 <= j < |cookies| ==> names[j] == CookieName(cookies[j])
  {
    seq(|cookies|, j requires 0 <= j < |cookies| => CookieName(cookies[j]))
  }

  /** The first index holding `name`. */
  function FirstIndex(names: seq<string>, name: string): (r: Option<nat>)
    ensures r.Some? ==> r.value < |names| && names[r.value] == name
    ensures r.Some? ==> forall j :: 0 <= j < r.value ==> names[j] != name
    ensures r.None? ==> forall j :: 0 <= j < |names| ==> names[j] != name
  {
    if |names| == 0 then None
    else if names[0] == name then Some(0)
    else match FirstIndex(names[1..], name)
      case None => None
      case Some(i) => Some(i + 1)
  }

  /** What `getCSRFToken()` returns: the meta tag wins over the cookies; among
      the ';'-separated cookies the first one named exactly XSRF-TOKEN is
      decoded. */
  function CsrfToken(page: Page, decode: string -> string): (r: Option<string>)
    ensures page.NoDocument? ==> r.None?
    ensures page.Document? && page.meta.Some? ==> r == page.meta.value
    ensures page.Document? && page.meta.None? ==> r == CookieToken(Split(page.cookie, ';'), decode)
  {
    if page.NoDocument? then None
    else if page.meta.Some? then page.meta.value
    else CookieToken(Split(page.cookie, ';'), decode)
  }

  /** The decoded value of the first cookie named exactly XSRF-TOKEN. */
  function CookieToken(cookies: seq<string>, decode: string -> string): Option<string>
  {
    match FirstIndex(CookieNames(cookies), CsrfCookieName)
    case None => None
    case Some(i) => Some(DecodedValue(CookieValue(cookies[i]), decode))
  }

  /** No token without a cookie named exactly XSRF-TOKEN; otherwise the token
      is the decoded value of the first such cookie. */
  lemma CookieTokenIsFirstMatch(cookies: seq<string>, decode: string -> string)
    ensures CookieToken(cookies, decode).None? <==>
      forall j :: 0 <= j < |cookies| ==> CookieName(cookies[j]) != CsrfCookieName
    ensures CookieToken(cookies, decode).Some? ==>
      exists i :: (0 <= i < |cookies| && CookieName(cookies[i]) == CsrfCookieName
        && (forall j :: 0 <= j < i ==> CookieName(cookies[j]) != CsrfCookieName)
        && CookieToken(cookies, decode).value == DecodedValue(CookieValue(cookies[i]), decode))
  {
    var names := CookieNames(cookies);
    match FirstIndex(names, CsrfCookieName)
    case None =>
      forall j | 0 <= j < |cookies| ensures CookieName(cookies[j]) != CsrfCookieName {
        assert names[j] == CookieName(cookies[j]);
      }
    case Some(i) =>
      assert names[i] == CookieName(cookies[i]) == CsrfCookieName;
      forall j | 0 <= j < i ensures CookieName(cookies[j]) != CsrfCookieName {
        assert names[j] == CookieName(cookies[j]);
      }
  }

  /** The cookie scan, as the source's loop. */
  method GetCsrfToken(page: Page, decode: string -> string) returns (token: Option<string>)
    ensures token == CsrfToken(page, decode)
  {
    if page.NoDocument? {
      return None;
    }
    if page.meta.Some? {
      return page.meta.value;
    }
    var cookies := Split(page.cookie, ';');
    var found := FindFirst(CookieNames(cookies), CsrfCookieName);
    if found.Some? {
      return Some(DecodedValue(CookieValue(cookies[found.value]), decode));
    }
    return None;
  }

  /** The `for (const cookie of cookies)` loop: the first position whose
      cookie name is `name`. */
  method FindFirst(names: seq<string>, name: string) returns (r: Option<nat>)
    ensures r == FirstIndex(names, name)
  {
    var i := 0;
    while i < |names|
      invariant 0 <= i <= |names|
      invariant name !in names[..i]
    {
      if names[i] == name {
        FirstIndexAt(names, name, i);
        return Some(i);
      }
      assert names[..i + 1] == names[..i] + [names[i]];
      i := i + 1;
    }
    assert names[..i] == names;
    return None;
  }

  lemma {:induction false} FirstIndexAt(names: seq<string>, name: string, k: nat)
    requires k < |names| && names[k] == name && name !in names[..k]
    ensures FirstIndex(names, name) == Some(k)
  {
    if k > 0 {
      assert names[0] == names[..k][0];
      assert names[1..][..k - 1] == names[..k][1..];
      FirstIndexAt(names[1..], name, k - 1);
    }
  }

  /** `XSRF-TOKEN=a=b` yields the name XSRF-TOKEN and the value `a`: the
      destructuring keeps only the first two '='-separated pieces. */
  lemma ValueCutAtEquals(name: string, value: string, tail: string)
    requires '=' !in name && '=' !in value
    requires |name| > 0 && !IsWhitespace(name[0])
    requires |tail| > 0 && !IsWhitespace(tail[|tail| - 1])
    ensures CookieName(name + "=" + value + "=" + tail) == name
    ensures CookieValue(name + "=" + value + "=" + tail) == Some(value)
  {
    var c := name + "=" + value + "=" + tail;
    assert c[0] == name[0] && c[|c| - 1] == tail[|tail| - 1];
    assert Trim(c) == c;
    assert c[|name|] == '=';
    BeforeIs(c, '=', name);
    var rest := c[|name| + 1..];
    assert rest == value + "=" + tail;
    assert rest[|value|] == '=';
    BeforeIs(rest, '=', value);
    SplitSecond(c, '=');
  }

  // ---------------------------------------------------------------------
  // getSecureHeaders

  /** The headers every request carries; `requestId` is what
      `generateRequestId()` drew from the clock and the random source. */
  function SecureHeaders(requestId: string, csrf: Option<string>): (h: map<string, string>)
    ensures "Content-Type" in h && h["Content-Type"] == "application/json"
    ensures "X-Requested-With" in h && h["X-Requested-With"] == "XMLHttpRequest"
    ensures "X-Request-ID" in h && h["X-Request-ID"] == requestId
    ensures CsrfHeader in h <==> csrf.Some? && csrf.value != ""
    ensures CsrfHeader in h ==> h[CsrfHeader] == csrf.value
    ensures h.Keys <= {"Content-Type", "X-Requested-With", "X-Request-ID", CsrfHeader}
  {
    var base := map["Content-Type" := "application/json", "X-Requested-With" := "XMLHttpRequest", "X-Request-ID" := requestId];
    if csrf.Some? && csrf.value != "" then base[CsrfHeader := csrf.value] else base
  }

  method GetSecureHeaders(page: Page, decode: string -> string, requestId: string) returns (headers: map<string, string>)
    ensures headers == SecureHeaders(requestId, CsrfToken(page, decode))
  {
    headers := map["Content-Type" := "application/json", "X-Requested-With" := "XMLHttpRequest", "X-Request-ID" := requestId];
    var csrfToken := GetCsrfToken(page, decode);
    if csrfToken.Some? && csrfToken.value != "" {
      headers := headers[CsrfHeader := csrfToken.value];
    }
  }

  // ---------------------------------------------------------------------
  // _secureFetch

  /** What the network did with a request. */
  datatype FetchOutcome = Answered(status: int) | Aborted | Failed(error: string)

  /** The promise `_secureFetch` returns: resolved with a response, or
      rejected with an error message. */
  datatype FetchResult = Resolved(status: int) | Rejected(message: string)

  datatype Request = Request(url: string, headers: map<string, string>)

  /** `_secureFetch(url, { headers })`: the request is sent with the default
      headers overridden by the caller's. */
  method SecureFetch(enforceHttps: bool, url: string, callerHeaders: map<string, string>,
                     page: Page, decode: string -> string, requestId: string,
                     network: Request -> FetchOutcome)
    returns (result: FetchResult, sent: seq<Request>)
    ensures enforceHttps && !("https://" <= url) ==> sent == [] && result == Rejected(InsecureUrlMessage)
    ensures !(enforceHttps && !("https://" <= url)) ==>
      && sent == [Request(url, SecureHeaders(requestId, CsrfToken(page, decode)) + callerHeaders)]
      && result == Settle(network(sent[0]))
  {
    if enforceHttps && !("https://" <= url) {
      return Rejected(InsecureUrlMessage), [];
    }
    var defaults := GetSecureHeaders(page, decode, requestId);
    var request := Request(url, defaults + callerHeaders);
    sent := [request];
    result := Settle(network(request));
  }

  /** How the wrapper settles: a 403 becomes an error, an abort becomes a
      timeout error, anything else passes through unchanged. */
  function Settle(outcome: FetchOutcome): (r: FetchResult)
    ensures outcome.Answered? && outcome.status != 403 ==> r == Resolved(outcome.status)
    ensures outcome.Answered? && outcome.status == 403 ==> r == Rejected(ForbiddenMessage)
    ensures outcome.Aborted? ==> r == Rejected(TimeoutMessage)
    ensures outcome.Failed? ==> r == Rejected(outcome.error)
  {
    match outcome
    case Answered(status) => if status == 403 then Rejected(ForbiddenMessage) else Resolved(status)
    case Aborted => Rejected(TimeoutMessage)
    case Failed(error) => Rejected(error)
  }

  /** A header the caller passes wins over the default of the same name;
      every default the caller does not name is kept. */
  lemma CallerHeadersWin(defaults: map<string, string>, caller: map<string, string>, name: string)
    ensures name in caller ==> (defaults + caller)[name] == caller[name]
    ensures name !in caller && name in defaults ==> (defaults + caller)[name] == defaults[name]
    ensures (defaults + caller).Keys == defaults.Keys + caller.Keys
  {
  }

  // ---------------------------------------------------------------------
  // validateSecureConnection

  /** The address the page is sent to, if any: only with a window, with
      enforcement on and a protocol other than "https:". */
  function SecureRedirect(hasWindow: bool, enforceHttps: bool, protocol: string, href: string): (r: Option<string>)
    ensures r.Some? <==> hasWindow && enforceHttps && protocol != "https:"
    ensures r.Some? && !Contains(href, "http:") ==> r.value == href
    ensures r.Some? && Contains(href, "http:") ==>
      var i := IndexOf(href, "http:").value;
      r.value == href[..i] + "https:" + href[i + 5..]
      && forall j :: 0 <= j < i ==> !("http:" <= href[j..])
  {
    if hasWindow && enforceHttps && protocol != "https:" then Some(ReplaceFirst(href, "http:", "https:"))
    else None
  }

  // ---------------------------------------------------------------------
  // _secureStorage

  /** `btoa(encodeURIComponent(v))` and `decodeURIComponent(atob(e))` as a
      pair: decoding what encoding produced gives the value back, and only
      the empty value encodes to the empty string.  None stands for a throw. */
  ghost predicate InversePair(encode: string -> Option<string>, decode: string -> Option<string>)
  {
    forall v :: encode(v).Some? ==> decode(encode(v).value) == Some(v) && (encode(v).value == "" <==> v == "")
  }

  /** `localStorage` after `setItem(key, value)`: unchanged when there is no
      window or the encoding throws (the error is only logged). */
  function Stored(store: map<string, string>, hasWindow: bool, encode: string -> Option<string>,
                  key: string, value: string): (r: map<string, string>)
    ensures !hasWindow || encode(value).None? ==> r == store
    ensures hasWindow && encode(value).Some? ==> r == store[key := encode(value).value]
  {
    if hasWindow && encode(value).Some? then store[key := encode(value).value] else store
  }

  /** `getItem(key)`: null without a window, for a missing or empty entry and
      when decoding throws. */
  function Retrieved(store: map<string, string>, hasWindow: bool, decode: string -> Option<string>,
                     key: string): (r: Option<string>)
    ensures !hasWindow || key !in store || store[key] == "" ==> r.None?
    ensures hasWindow && key in store && store[key] != "" ==> r == decode(store[key])
  {
    if !hasWindow || key !in store || store[key] == "" then None else decode(store[key])
  }

  /** Reading back what was stored gives the value, except that the empty
      string reads back as null and a value that cannot be encoded leaves the
      previous entry in place. */
  lemma StorageRoundTrip(store: map<string, string>, hasWindow: bool,
                         encode: string -> Option<string>, decode: string -> Option<string>,
                         key: string, value: string)
    requires InversePair(encode, decode)
    requires hasWindow
    ensures encode(value).Some? && value != "" ==>
      Retrieved(Stored(store, hasWindow, encode, key, value), hasWindow, decode, key) == Some(value)
    ensures encode(value).Some? && value == "" ==>
      Retrieved(Stored(store, hasWindow, encode, key, value), hasWindow, decode, key) == None
    ensures encode(value).None? ==>
      Retrieved(Stored(store, hasWindow, encode, key, value), hasWindow, decode, key) == Retrieved(store, hasWindow, decode, key)
  {
  }

  /** Storing under one key leaves every other key's reading alone. */
  lemma StorageKeysIndependent(store: map<string, string>, hasWindow: bool,
                               encode: string -> Option<string>, decode: string -> Option<string>,
                               key: string, other: string, value: string)
    requires key != other
    ensures Retrieved(Stored(store, hasWindow, encode, key, value), hasWindow, decode, other)
         == Retrieved(store, hasWindow, decode, other)
  {
  }

  /** The wrapper over the browser's local storage. */
  class SecureStorage {
    var store: map<string, string>
    const hasWindow: bool
    const encode: string -> Option<string>
    const decode: string -> Option<string>

    ghost predicate Valid()
      reads this
    {
      InversePair(encode, decode)
    }

    constructor (hasWindow: bool, encode: string -> Option<string>, decode: string -> Option<string>,
                 initial: map<string, string>)
      requires InversePair(encode, decode)
      ensures Valid()
      ensures this.hasWindow == hasWindow && this.encode == encode && this.decode == decode
      ensures store == initial
    {
      this.hasWindow := hasWindow;
      this.encode := encode;
      this.decode := decode;
      store := initial;
    }

    method SetItem(key: string, value: string)
      requires Valid()
      modifies this
      ensures Valid()
      ensures store == Stored(old(store), hasWindow, encode, key, value)
    {
      if !hasWindow {
        return;
      }
      var encoded := encode(value);
      if encoded.Some? {
        store := store[key := encoded.value];
      }
    }

    method GetItem(key: string) returns (r: Option<string>)
      ensures r == Retrieved(store, hasWindow, decode, key)
    {
      if !hasWindow {
        return None;
      }
      if key !in store || store[key] == "" {
        return None;
      }
      r := decode(store[key]);
    }

    method RemoveItem(key: string)
      modifies this
      ensures store == if hasWindow then old(store) - {key} else old(store)
    {
      if !hasWindow {
        return;
      }
      store := store - {key};
    }

    method Clear()
      modifies this
      ensures store == if hasWindow then map[] else old(store)
    {
      if !hasWindow {
        return;
      }
      store := map[];
    }
  }
}
