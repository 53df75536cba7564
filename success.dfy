/** The page a payment returns to (src/routes/success.tsx): whether the
    payment is shown as failed, where its buttons lead, and which session id
    it prints. */
module Success {
  import opened Wrappers

  /** A search parameter as the route's schema admits it: absent, one string,
      or (for a repeated parameter) an array of strings. */
  datatype SearchValue = Absent | Text(text: string) | List(items: seq<string>)

  /** `isFailed`: the string "failed", or an array whose first element is
      "failed" (the first element of an empty array is `undefined`). */
  predicate IsFailed(status: SearchValue)
  {
    match status
    case Absent => false
    case Text(s) => s == "failed"
    case List(items) => |items| > 0 && items[0] == "failed"
  }

  /** Only "failed" fails: "cancel", "succeeded", any other text, an absent
      status and an empty array all show the success view; an array is
      judged by its first element alone. */
  lemma OnlyFailedFails(status: SearchValue, first: string, rest: seq<string>)
    ensures status.Text? ==> (IsFailed(status) <==> status.text == "failed")
    ensures !IsFailed(Absent) && !IsFailed(List([]))
    ensures !IsFailed(Text("cancel"))
    ensures IsFailed(List([first] + rest)) <==> IsFailed(Text(first))
  {
  }

  /** The two buttons of the page. */
  datatype Links = Links(primary: string, secondary: string)

  function ActionLinks(status: SearchValue): (links: Links)
    ensures IsFailed(status) ==> links == Links("/pricing", "/contact")
    ensures !IsFailed(status) ==> links == Links("/simulate", "/jobs")
  {
    var failed := IsFailed(status);
    Links(if failed then "/pricing" else "/simulate", if failed then "/contact" else "/jobs")
  }

  /** The failed view never offers the simulation or dashboard links and the
      success view never sends the user back to pricing or support. */
  lemma LinksSeparateViews(a: SearchValue, b: SearchValue)
    requires IsFailed(a) && !IsFailed(b)
    ensures ActionLinks(a).primary != ActionLinks(b).primary
    ensures ActionLinks(a).secondary != ActionLinks(b).secondary
  {
  }

  /** The session id text: the first array element, else the string, else
      "N/A" when it is absent or empty. An empty array yields `undefined`,
      which renders as nothing (None). */
  function SessionIdShown(sessionId: SearchValue): (shown: Option<string>)
    ensures sessionId.List? && |sessionId.items| > 0 ==> shown == Some(sessionId.items[0])
    ensures sessionId.List? && |sessionId.items| == 0 ==> shown == None
    ensures sessionId.Text? && sessionId.text != "" ==> shown == Some(sessionId.text)
    ensures sessionId.Absent? || sessionId == Text("") ==> shown == Some("N/A")
  {
    match sessionId
    case List(items) => if |items| > 0 then Some(items[0]) else None
    case Text(s) => Some(if s != "" then s else "N/A")
    case Absent => Some("N/A")
  }

  /** Repeating `session_id` shows the first value, exactly as if it had been
      given once; a real id is always shown verbatim. */
  lemma RepeatedSessionId(id: string, rest: seq<string>)
    requires id != ""
    ensures SessionIdShown(List([id] + rest)) == SessionIdShown(Text(id)) == Some(id)
  {
  }
}
