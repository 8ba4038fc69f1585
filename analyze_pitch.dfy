/**
 * The `analyze-pitch` edge function: it forwards a pitch to a language-model gateway and turns the
 * gateway's answer into its own HTTP response. The network, the environment and `JSON.parse` are
 * inputs: the gateway's answer is an outcome value, the API key an optional string, and the parser
 * an arbitrary partial function from text to JSON values.
 */
module AnalyzePitch {

  import opened Common
  import opened Js

  /** A JSON value (numbers are integers in this model). Object members keep their order. */
  datatype Json =
    | JNull
    | JBool(b: bool)
    | JNumber(n: int)
    | JString(s: string)
    | JArray(items: seq<Json>)
    | JObject(members: seq<(string, Json)>)

  /** The value of `key` in an object, the last one when the key repeats (as `JSON.parse` keeps it);
      `None` for a missing key and for a value that is not an object. */
  function Lookup(j: Json, key: string): Option<Json> {
    if j.JObject? then LookupMember(j.members, key) else None
  }

  function LookupMember(members: seq<(string, Json)>, key: string): Option<Json> {
    if members == [] then None
    else
      match LookupMember(members[1..], key)
      case Some(later) => Some(later)
      case None => if members[0].0 == key then Some(members[0].1) else None
  }

  /** A key none of the members carries is not found. */
  lemma {:induction false} LookupAbsent(members: seq<(string, Json)>, key: string)
    requires forall m :: 0 <= m < |members| ==> members[m].0 != key
    ensures LookupMember(members, key) == None
  {
    if members != [] {
      LookupAbsent(members[1..], key);
    }
  }

  /** The lookup finds the value of the key's last occurrence. */
  lemma {:induction false} LookupLastOccurrence(members: seq<(string, Json)>, key: string, k: nat)
    requires k < |members| && members[k].0 == key
    requires forall m :: k < m < |members| ==> members[m].0 != key
    ensures LookupMember(members, key) == Some(members[k].1)
  {
    if k > 0 {
      LookupLastOccurrence(members[1..], key, k - 1);
    } else {
      LookupAbsent(members[1..], key);
    }
  }

  /** Something thrown inside the handler: an `Error` with its message, or any other value. */
  datatype Thrown = ErrorValue(message: string) | NonError

  /** The text the catch-all handler reports for a thrown value. */
  function Message(t: Thrown): (m: string)
    ensures t.ErrorValue? ==> m == t.message
    ensures m == "Unknown error occurred" <==> t.NonError? || t.message == "Unknown error occurred"
  {
    match t
    case ErrorValue(m) => m
    case NonError => "Unknown error occurred"
  }

  /** What `await req.json()` and the destructuring of its result produced. */
  datatype BodyRead = BodyParsed | BodyUnreadable(thrown: Thrown)

  datatype Request = Request(verb: string, body: BodyRead)

  /** The decoded envelope of a 2xx gateway answer. Reading the envelope or reaching
      `choices[0].message` can throw; `content` itself may be absent or not a string. */
  datatype Envelope =
    | EnvelopeUnreadable(thrown: Thrown)
    | ContentNotText
    | ContentText(text: string)

  /** The outcome of the one `fetch` to the gateway. */
  datatype Gateway = FetchFailed(thrown: Thrown) | Answered(status: nat, envelope: Envelope)

  /** A response of the function. Every response carries the CORS headers; `jsonContentType` says
      whether it also declares a JSON body. */
  datatype Response = Response(status: nat, body: Option<Json>, jsonContentType: bool)

  /** The response together with what the handler did on the way: whether it read the request body
      and whether it called the gateway. */
  datatype Handled = Handled(response: Response, readBody: bool, calledGateway: bool)

  const RATE_LIMIT_MESSAGE: string := "Rate limit exceeded. Please try again later."
  const PAYMENT_MESSAGE: string := "Payment required. Please add credits to your workspace."
  const MISSING_KEY_MESSAGE: string := "LOVABLE_API_KEY is not configured"
  const GATEWAY_ERROR_PREFIX: string := "AI gateway error: "

  const FENCE_OPEN: string := "```json"
  const FENCE_CLOSE: string := "```"
  const NEWLINE_FENCE_CLOSE: string := "\n```"

  function ErrorBody(message: string): Json {
    JObject([("error", JString(message))])
  }

  /** An object whose one member is an `error` string. */
  predicate IsErrorBody(j: Json) {
    j.JObject? && |j.members| == 1 && j.members[0].0 == "error" && j.members[0].1.JString?
  }

  function JsonResponse(status: nat, body: Json): Response {
    Response(status, Some(body), true)
  }

  /** The catch-all handler: any thrown value becomes a 500 carrying its message. */
  function Failure(t: Thrown): (r: Response)
    ensures r.status == 500 && r.jsonContentType
    ensures r.body.Some? && IsErrorBody(r.body.value)
    ensures t.ErrorValue? ==> r.body == Some(ErrorBody(t.message))
    ensures t.NonError? ==> r.body == Some(ErrorBody("Unknown error occurred"))
  {
    JsonResponse(500, ErrorBody(Message(t)))
  }

  /** The analysis substituted when the model's reply cannot be parsed. */
  function Fallback(): (r: Json)
    ensures r.JObject? && |r.members| == 13 && !IsErrorBody(r)
  {
    JObject(FALLBACK_MEMBERS)
  }

  const FALLBACK_MEMBERS: seq<(string, Json)> := [
    ("market_size_score", JNumber(65)),
    ("team_strength_score", JNumber(70)),
    ("product_viability_score", JNumber(68)),
    ("financial_health_score", JNumber(60)),
    ("competitive_advantage_score", JNumber(72)),
    ("overall_score", JNumber(67)),
    ("key_strengths", JArray([JString("Innovative approach"), JString("Strong market positioning"), JString("Experienced founders")])),
    ("key_concerns", JArray([JString("Market competition"), JString("Scaling challenges"), JString("Funding requirements")])),
    ("market_insights", JString("The market shows promising growth potential with increasing demand.")),
    ("team_analysis", JString("The founding team demonstrates relevant industry experience.")),
    ("financial_summary", JString("Financial projections appear realistic with clear revenue model.")),
    ("risk_factors", JArray([JString("Market volatility"), JString("Regulatory changes"), JString("Competition intensity")])),
    ("investment_recommendation", JString("Hold"))
  ]

  // ---------------------------------------------------------------------------------------------
  // Extraction of the JSON candidate from the model's reply:
  //   text.match(/```json\n?([\s\S]*?)\n?```/) || text.match(/\{[\s\S]*\}/)
  // ---------------------------------------------------------------------------------------------

  /** A match of the fence pattern: `text[start..end]` is the whole match, `text[bodyStart..bodyEnd]`
      its capture group. */
  datatype Fence = Fence(start: nat, bodyStart: nat, bodyEnd: nat, end: nat)

  /** The shape every fence match has: it opens with "```json" and an optional newline, and closes
      with an optional newline and "```". */
  predicate WellFormed(text: string, f: Fence) {
    && OccursAt(text, FENCE_OPEN, f.start)
    && f.start + 7 <= f.bodyStart <= f.start + 8
    && (f.bodyStart == f.start + 8 ==> f.start + 7 < |text| && text[f.start + 7] == '\n')
    && f.bodyStart <= f.bodyEnd
    && f.end <= |text|
    && (f.end == f.bodyEnd + 3 || (f.end == f.bodyEnd + 4 && text[f.bodyEnd] == '\n'))
    && OccursAt(text, FENCE_CLOSE, f.end - 3)
  }

  /** `\n?```` can match at position `p`. */
  predicate ClosesAt(text: string, p: nat) {
    OccursAt(text, NEWLINE_FENCE_CLOSE, p) || OccursAt(text, FENCE_CLOSE, p)
  }

  /** The lazy group `([\s\S]*?)` starting at `p` stops at the first position where the closing
      `\n?```` matches. */
  function FirstClose(text: string, p: nat): (r: Option<nat>)
    decreases |text| - p
    ensures r.Some? ==> p <= r.value && ClosesAt(text, r.value)
    ensures r.Some? ==> forall q :: p <= q < r.value ==> !ClosesAt(text, q)
    ensures r.None? ==> forall q :: p <= q ==> !ClosesAt(text, q)
  {
    if p + 3 > |text| then None
    else if ClosesAt(text, p) then Some(p)
    else FirstClose(text, p + 1)
  }

  /** The rest of the pattern once the opening (and possibly its newline) is consumed: the body runs
      from `bodyStart` to the first closing; the greedy `\n?` takes the newline before "```" if any. */
  function FenceWithBody(text: string, start: nat, bodyStart: nat): (r: Option<Fence>)
    requires OccursAt(text, FENCE_OPEN, start)
    requires start + 7 <= bodyStart <= start + 8
    requires bodyStart == start + 8 ==> start + 7 < |text| && text[start + 7] == '\n'
    ensures r.Some? ==> WellFormed(text, r.value) && r.value.start == start && r.value.bodyStart == bodyStart
    ensures r.Some? <==> FirstClose(text, bodyStart).Some?
    ensures r.Some? ==> FirstClose(text, bodyStart) == Some(r.value.bodyEnd)
    ensures r.Some? ==> (text[r.value.bodyEnd] == '\n' <==> r.value.end == r.value.bodyEnd + 4)
  {
    match FirstClose(text, bodyStart)
    case None => None
    case Some(p) =>
      if OccursAt(text, NEWLINE_FENCE_CLOSE, p) then
        assert text[p + 1..p + 4] == text[p..p + 4][1..];
        Some(Fence(start, bodyStart, p, p + 4))
      else Some(Fence(start, bodyStart, p, p + 3))
  }

  /** The pattern tried at start position `i`: "```json", then `\n?` first with the newline and, if
      that leads nowhere, without it, then the lazy body and the closing. */
  function FenceAt(text: string, i: nat): (r: Option<Fence>)
    ensures r.Some? ==> WellFormed(text, r.value) && r.value.start == i
    ensures r.Some? ==> FirstClose(text, r.value.bodyStart) == Some(r.value.bodyEnd)
    ensures r.Some? ==> (text[r.value.bodyEnd] == '\n' <==> r.value.end == r.value.bodyEnd + 4)
  {
    if !OccursAt(text, FENCE_OPEN, i) then None
    else
      var withNewline :=
        if i + 8 <= |text| && text[i + 7] == '\n' then FenceWithBody(text, i, i + 8) else None;
      if withNewline.Some? then withNewline else FenceWithBody(text, i, i + 7)
  }

  /** `match` with a non-global pattern: the match found at the leftmost start position from `i` on. */
  function FirstFenceFrom(text: string, i: nat): (r: Option<Fence>)
    decreases |text| - i
    ensures r.Some? ==> i <= r.value.start && FenceAt(text, r.value.start) == r
    ensures r.Some? ==> forall j :: i <= j < r.value.start ==> FenceAt(text, j).None?
    ensures r.None? ==> forall j :: i <= j ==> FenceAt(text, j).None?
  {
    if i + 7 > |text| then None
    else if FenceAt(text, i).Some? then FenceAt(text, i)
    else FirstFenceFrom(text, i + 1)
  }

  function FirstFence(text: string): (r: Option<Fence>)
    ensures r.Some? ==> WellFormed(text, r.value)
  {
    FirstFenceFrom(text, 0)
  }

  /** `/\{[\s\S]*\}/`: the leftmost start that can match is the first `{`, and the greedy middle
      reaches the last `}`; no `}` after the first `{` means no match anywhere. The result is the
      half-open span of the match. */
  function BraceSpan(text: string): (r: Option<(nat, nat)>)
    ensures r.Some? ==> r.value.0 < r.value.1 <= |text| && text[r.value.0] == '{' && text[r.value.1 - 1] == '}'
  {
    match IndexOf(text, '{')
    case None => None
    case Some(i) =>
      match LastIndexOf(text, '}')
      case None => None
      case Some(j) => if i < j then Some((i, j + 1)) else None
  }

  /** `jsonMatch ? (jsonMatch[1] || jsonMatch[0]) : text`: the fence body when it is not empty,
      otherwise the whole fenced match; else the brace span; else the whole reply. */
  function Candidate(text: string): (r: string)
    ensures |r| <= |text|
  {
    match FirstFence(text)
    case Some(f) => if f.bodyStart < f.bodyEnd then text[f.bodyStart..f.bodyEnd] else text[f.start..f.end]
    case None =>
      match BraceSpan(text)
      case Some(span) => text[span.0..span.1]
      case None => text
  }

  /** The value the handler returns for a reply text: the parsed, trimmed candidate, or the fallback
      when parsing throws. */
  function ParseReply(parse: string -> Option<Json>, text: string): (r: Json)
    ensures parse(Trim(Candidate(text))) == Some(r) || (parse(Trim(Candidate(text))).None? && r == Fallback())
  {
    match parse(Trim(Candidate(text)))
    case Some(v) => v
    case None => Fallback()
  }

  // ---------------------------------------------------------------------------------------------
  // The handler
  // ---------------------------------------------------------------------------------------------

  predicate IsOk(status: nat) {
    200 <= status < 300
  }

  /** What the handler makes of the gateway's outcome once it has called it. */
  function GatewayResponse(g: Gateway, parse: string -> Option<Json>): (r: Response)
    ensures r.status in {200, 402, 429, 500} && r.body.Some? && r.jsonContentType
    ensures r.status == 200 <==> g.Answered? && IsOk(g.status) && !g.envelope.EnvelopeUnreadable?
    ensures r.status != 200 ==> IsErrorBody(r.body.value)
  {
    match g
    case FetchFailed(t) => Failure(t)
    case Answered(status, envelope) =>
      if !IsOk(status) then
        if status == 429 then JsonResponse(429, ErrorBody(RATE_LIMIT_MESSAGE))
        else if status == 402 then JsonResponse(402, ErrorBody(PAYMENT_MESSAGE))
        else Failure(ErrorValue(GATEWAY_ERROR_PREFIX + NatToString(status)))
      else
        match envelope
        case EnvelopeUnreadable(t) => Failure(t)
        case ContentNotText => JsonResponse(200, Fallback())
        case ContentText(text) => JsonResponse(200, ParseReply(parse, text))
  }

  /** One request through the function. */
  function Handle(req: Request, apiKey: Option<string>, g: Gateway, parse: string -> Option<Json>): (h: Handled)
    ensures h.response.status in {200, 402, 429, 500}
    ensures h.calledGateway ==> h.readBody
    ensures h.response.status in {402, 429} ==> h.calledGateway
  {
    if req.verb == "OPTIONS" then Handled(Response(200, None, false), false, false)
    else if req.body.BodyUnreadable? then Handled(Failure(req.body.thrown), true, false)
    else if apiKey.None? || apiKey.value == "" then Handled(Failure(ErrorValue(MISSING_KEY_MESSAGE)), true, false)
    else Handled(GatewayResponse(g, parse), true, true)
  }

  // ---------------------------------------------------------------------------------------------
  // What the handler promises
  // ---------------------------------------------------------------------------------------------

  /** The request gets past the preflight check, the body read and the API-key check. */
  predicate ReachesGateway(req: Request, apiKey: Option<string>) {
    req.verb != "OPTIONS" && req.body.BodyParsed? && apiKey.Some? && apiKey.value != ""
  }

  /** A preflight request is answered with an empty body and the CORS headers, without reading the
      request or calling the gateway; every other request is answered with a JSON body. */
  lemma PreflightIff(req: Request, apiKey: Option<string>, g: Gateway, parse: string -> Option<Json>)
    ensures Handle(req, apiKey, g, parse).response.body.None? <==> req.verb == "OPTIONS"
    ensures req.verb == "OPTIONS" ==> Handle(req, apiKey, g, parse) == Handled(Response(200, None, false), false, false)
  {
  }

  /** The handler reads the body of every non-preflight request, and calls the gateway exactly when the
      body was readable and an API key is configured. */
  lemma GatewayCalledIff(req: Request, apiKey: Option<string>, g: Gateway, parse: string -> Option<Json>)
    ensures Handle(req, apiKey, g, parse).readBody <==> req.verb != "OPTIONS"
    ensures Handle(req, apiKey, g, parse).calledGateway <==> ReachesGateway(req, apiKey)
  {
  }

  /** A missing or empty API key is reported as a 500 before any gateway call. */
  lemma MissingKeyIs500(req: Request, apiKey: Option<string>, g: Gateway, parse: string -> Option<Json>)
    requires req.verb != "OPTIONS" && req.body.BodyParsed?
    requires apiKey.None? || apiKey.value == ""
    ensures Handle(req, apiKey, g, parse) == Handled(JsonResponse(500, ErrorBody(MISSING_KEY_MESSAGE)), true, false)
  {
  }

  /** Status 429 comes back exactly when the gateway answered 429, and then only with the rate-limit message. */
  lemma RateLimitedIff(req: Request, apiKey: Option<string>, g: Gateway, parse: string -> Option<Json>)
    ensures Handle(req, apiKey, g, parse).response.status == 429
      <==> ReachesGateway(req, apiKey) && g.Answered? && g.status == 429
    ensures Handle(req, apiKey, g, parse).response.status == 429
      ==> Handle(req, apiKey, g, parse).response == JsonResponse(429, ErrorBody(RATE_LIMIT_MESSAGE))
  {
  }

  /** Status 402 comes back exactly when the gateway answered 402, and then only with the payment message. */
  lemma PaymentRequiredIff(req: Request, apiKey: Option<string>, g: Gateway, parse: string -> Option<Json>)
    ensures Handle(req, apiKey, g, parse).response.status == 402
      <==> ReachesGateway(req, apiKey) && g.Answered? && g.status == 402
    ensures Handle(req, apiKey, g, parse).response.status == 402
      ==> Handle(req, apiKey, g, parse).response == JsonResponse(402, ErrorBody(PAYMENT_MESSAGE))
  {
  }

  /** The function answers 200, 402, 429 or 500 and nothing else; every answer other than 200 is an
      object holding only an `error` string, never a score. */
  lemma ErrorResponsesCarryOnlyMessage(req: Request, apiKey: Option<string>, g: Gateway, parse: string -> Option<Json>)
    ensures Handle(req, apiKey, g, parse).response.status in {200, 402, 429, 500}
    ensures Handle(req, apiKey, g, parse).response.status != 200 ==>
      (Handle(req, apiKey, g, parse).response.body.Some?
       && IsErrorBody(Handle(req, apiKey, g, parse).response.body.value))
  {
  }

  /** Any other non-2xx status `s` becomes a 500 whose message is "AI gateway error: " followed by `s`. */
  lemma GatewayErrorReportsStatus(req: Request, apiKey: Option<string>, g: Gateway, parse: string -> Option<Json>)
    requires ReachesGateway(req, apiKey)
    requires g.Answered? && !IsOk(g.status) && g.status != 429 && g.status != 402
    ensures Handle(req, apiKey, g, parse).response
      == JsonResponse(500, ErrorBody(GATEWAY_ERROR_PREFIX + NatToString(g.status)))
  {
  }

  /** The gateway-error message names the upstream status unambiguously. */
  lemma GatewayErrorMessageDeterminesStatus(s1: nat, s2: nat)
    requires GATEWAY_ERROR_PREFIX + NatToString(s1) == GATEWAY_ERROR_PREFIX + NatToString(s2)
    ensures s1 == s2
  {
    var n := |GATEWAY_ERROR_PREFIX|;
    assert NatToString(s1) == (GATEWAY_ERROR_PREFIX + NatToString(s1))[n..];
    assert NatToString(s2) == (GATEWAY_ERROR_PREFIX + NatToString(s2))[n..];
    NatToStringInjective(s1, s2);
  }

  /** A failed fetch, or an answer whose envelope cannot be read down to `choices[0].message`, is
      outside the parse guard: it yields a 500 with the thrown message, never the fallback. */
  lemma BrokenTransportIs500(req: Request, apiKey: Option<string>, g: Gateway, parse: string -> Option<Json>)
    requires ReachesGateway(req, apiKey)
    requires g.FetchFailed? || (g.Answered? && IsOk(g.status) && g.envelope.EnvelopeUnreadable?)
    ensures Handle(req, apiKey, g, parse).response
      == Failure(if g.FetchFailed? then g.thrown else g.envelope.thrown)
  {
  }

  /** A parsed candidate is returned as it is, with status 200: its keys and score ranges are not checked. */
  lemma ParsedReplyReturnedUnchanged(req: Request, apiKey: Option<string>, status: nat, text: string,
                                     parse: string -> Option<Json>, v: Json)
    requires ReachesGateway(req, apiKey) && IsOk(status)
    requires parse(Trim(Candidate(text))) == Some(v)
    ensures Handle(req, apiKey, Answered(status, ContentText(text)), parse).response == Response(200, Some(v), true)
  {
  }

  /** When the candidate does not parse, or `content` is not a string at all (so `match` throws inside the
      parse guard), the answer is exactly the fallback analysis with status 200. */
  lemma UnparsableReplyGivesFallback(req: Request, apiKey: Option<string>, status: nat, envelope: Envelope,
                                     parse: string -> Option<Json>)
    requires ReachesGateway(req, apiKey) && IsOk(status)
    requires envelope.ContentNotText? || (envelope.ContentText? && parse(Trim(Candidate(envelope.text))).None?)
    ensures Handle(req, apiKey, Answered(status, envelope), parse).response == JsonResponse(200, Fallback())
  {
  }

  /** No key repeats among the members of an object. */
  predicate KeysDistinct(members: seq<(string, Json)>) {
    forall m, n :: 0 <= m < n < |members| ==> members[m].0 != members[n].0
  }

  /** In an object whose keys are distinct, looking up the key of member `k` finds member `k`'s value. */
  lemma LookupDistinct(members: seq<(string, Json)>, k: nat)
    requires KeysDistinct(members) && k < |members|
    ensures LookupMember(members, members[k].0) == Some(members[k].1)
  {
    LookupLastOccurrence(members, members[k].0, k);
  }

  /** The fallback's keys are pairwise distinct, so every one of them reads back its own value. */
  lemma FallbackKeysDistinct()
    ensures KeysDistinct(FALLBACK_MEMBERS)
  {
  }

  /** The fallback scores the market at 65, the team at 70 and the product at 68. */
  lemma FallbackMarketTeamProduct()
    ensures Lookup(Fallback(), "market_size_score") == Some(JNumber(65))
    ensures Lookup(Fallback(), "team_strength_score") == Some(JNumber(70))
    ensures Lookup(Fallback(), "product_viability_score") == Some(JNumber(68))
  {
    FallbackKeysDistinct();
    LookupDistinct(FALLBACK_MEMBERS, 0);
    LookupDistinct(FALLBACK_MEMBERS, 1);
    LookupDistinct(FALLBACK_MEMBERS, 2);
  }

  /** The fallback scores financial health at 60, competitive advantage at 72, and 67 overall. */
  lemma FallbackFinancialCompetitiveOverall()
    ensures Lookup(Fallback(), "financial_health_score") == Some(JNumber(60))
    ensures Lookup(Fallback(), "competitive_advantage_score") == Some(JNumber(72))
    ensures Lookup(Fallback(), "overall_score") == Some(JNumber(67))
  {
    FallbackKeysDistinct();
    LookupDistinct(FALLBACK_MEMBERS, 3);
    LookupDistinct(FALLBACK_MEMBERS, 4);
    LookupDistinct(FALLBACK_MEMBERS, 5);
  }

  /** The fallback recommends "Hold" and names three strengths. */
  lemma FallbackRecommendationAndStrengths()
    ensures Lookup(Fallback(), "investment_recommendation") == Some(JString("Hold"))
    ensures Lookup(Fallback(), "key_strengths").Some? && Lookup(Fallback(), "key_strengths").value.JArray?
      && |Lookup(Fallback(), "key_strengths").value.items| == 3
  {
    FallbackKeysDistinct();
    LookupDistinct(FALLBACK_MEMBERS, 12);
    LookupDistinct(FALLBACK_MEMBERS, 6);
  }

  /** The fallback names three concerns and three risk factors. */
  lemma FallbackConcernsAndRisks()
    ensures Lookup(Fallback(), "key_concerns").Some? && Lookup(Fallback(), "key_concerns").value.JArray?
      && |Lookup(Fallback(), "key_concerns").value.items| == 3
    ensures Lookup(Fallback(), "risk_factors").Some? && Lookup(Fallback(), "risk_factors").value.JArray?
      && |Lookup(Fallback(), "risk_factors").value.items| == 3
  {
    FallbackKeysDistinct();
    LookupDistinct(FALLBACK_MEMBERS, 7);
    LookupDistinct(FALLBACK_MEMBERS, 11);
  }

  /** Nothing bounds the scores that reach the caller: a reply scoring 150 is passed on as it is. */
  lemma OutOfRangeScorePassesThrough()
    ensures var scored := JObject([("overall_score", JNumber(150))]);
      Handle(Request("POST", BodyParsed), Some("key"), Answered(200, ContentText("x")), (s: string) => Some(scored)).response
        == Response(200, Some(scored), true)
  {
  }

  // ---------------------------------------------------------------------------------------------
  // What the extraction promises
  // ---------------------------------------------------------------------------------------------

  /** From an opening at `i` and any "```" from `i + 7` on, the fence pattern matches at `i`. */
  lemma FenceAtWhenClosed(text: string, i: nat, k: nat)
    requires OccursAt(text, FENCE_OPEN, i) && i + 7 <= k && OccursAt(text, FENCE_CLOSE, k)
    ensures FenceAt(text, i).Some?
  {
    assert ClosesAt(text, k);
  }

  /** The fence pattern matches somewhere exactly when "```json" occurs and "```" occurs after it. */
  lemma FenceMatchesIff(text: string)
    ensures FirstFence(text).Some? <==>
      exists i, k :: OccursAt(text, FENCE_OPEN, i) && i + 7 <= k && OccursAt(text, FENCE_CLOSE, k)
  {
    if FirstFence(text).Some? {
      var f := FirstFence(text).value;
      assert OccursAt(text, FENCE_OPEN, f.start) && f.start + 7 <= f.end - 3 && OccursAt(text, FENCE_CLOSE, f.end - 3);
    }
    if exists i, k :: OccursAt(text, FENCE_OPEN, i) && i + 7 <= k && OccursAt(text, FENCE_CLOSE, k) {
      var i, k :| OccursAt(text, FENCE_OPEN, i) && i + 7 <= k && OccursAt(text, FENCE_CLOSE, k);
      FenceAtWhenClosed(text, i, k);
    }
  }

  /** The chosen fence opens at the first "```json" of the reply, and its body is the shortest one: no
      closing `\n?```` starts inside it. */
  lemma FenceIsFirstAndShortest(text: string)
    requires FirstFence(text).Some?
    ensures forall j :: 0 <= j < FirstFence(text).value.start ==> !OccursAt(text, FENCE_OPEN, j)
    ensures forall q :: FirstFence(text).value.bodyStart <= q < FirstFence(text).value.bodyEnd ==> !ClosesAt(text, q)
  {
    var f := FirstFence(text).value;
    forall j | 0 <= j < f.start ensures !OccursAt(text, FENCE_OPEN, j) {
      if OccursAt(text, FENCE_OPEN, j) {
        FenceAtWhenClosed(text, j, f.end - 3);
      }
    }
  }

  /** The optional newlines stay outside the body: a newline right after "```json" is never part of it,
      and a newline right before the closing "```" is never part of it either. */
  lemma FenceNewlinesOutsideBody(text: string)
    requires FirstFence(text).Some?
    ensures var f := FirstFence(text).value;
      f.start + 7 < |text| && text[f.start + 7] == '\n' ==> f.bodyStart == f.start + 8
    ensures var f := FirstFence(text).value;
      text[f.bodyEnd] == '\n' <==> f.end == f.bodyEnd + 4
  {
    var f := FirstFence(text).value;
    var i := f.start;
    if i + 7 < |text| && text[i + 7] == '\n' {
      CloseAfterOpeningNewline(text, i, f.bodyEnd);
    }
  }

  /** A closing found from `i + 7` on, where `i + 7` holds a newline, can also be found from `i + 8` on:
      a closing that starts at that newline is "\n```", whose "```" starts at `i + 8`. */
  lemma CloseAfterOpeningNewline(text: string, i: nat, p: nat)
    requires i + 7 < |text| && text[i + 7] == '\n'
    requires i + 7 <= p && ClosesAt(text, p)
    ensures FirstClose(text, i + 8).Some?
  {
    if p == i + 7 {
      assert !OccursAt(text, FENCE_CLOSE, p) by { if p + 3 <= |text| { assert text[p..p + 3][0] == text[p]; } }
      assert text[p + 1..p + 4] == text[p..p + 4][1..];
      assert ClosesAt(text, i + 8);
    } else {
      assert ClosesAt(text, p);
    }
  }

  /** A fence with a non-empty body makes that body, without the fence and its newlines, the candidate. */
  lemma FenceBodyCandidate(text: string)
    requires FirstFence(text).Some? && FirstFence(text).value.bodyStart < FirstFence(text).value.bodyEnd
    ensures Candidate(text) == text[FirstFence(text).value.bodyStart..FirstFence(text).value.bodyEnd]
  {
  }

  /** An empty fence body is falsy, so the whole fenced match, backticks included, becomes the candidate. */
  lemma EmptyFenceBodySelectsWholeMatch(text: string)
    requires FirstFence(text).Some? && FirstFence(text).value.bodyStart == FirstFence(text).value.bodyEnd
    ensures var f := FirstFence(text).value;
      Candidate(text) == text[f.start..f.end]
      && Candidate(text)[..7] == FENCE_OPEN && Candidate(text)[|Candidate(text)| - 3..] == FENCE_CLOSE
  {
    var f := FirstFence(text).value;
    assert text[f.start..f.end][..7] == text[f.start..f.start + 7];
    assert text[f.start..f.end][f.end - f.start - 3..] == text[f.end - 3..f.end];
  }

  /** The brace pattern matches exactly when some `{` has a `}` after it. */
  lemma BraceMatchesIff(text: string)
    ensures BraceSpan(text).Some? <==> exists i, j :: 0 <= i < j < |text| && text[i] == '{' && text[j] == '}'
  {
    if exists i, j :: 0 <= i < j < |text| && text[i] == '{' && text[j] == '}' {
      var i, j :| 0 <= i < j < |text| && text[i] == '{' && text[j] == '}';
      IndexOfAtMost(text, '{', i);
      LastIndexOfAtLeast(text, '}', j);
    }
  }

  /** Without a fence, the candidate runs from the first `{` to the last `}`, both included. */
  lemma BraceCandidate(text: string)
    requires FirstFence(text).None? && BraceSpan(text).Some?
    ensures var (a, b) := BraceSpan(text).value;
      Candidate(text) == text[a..b] && text[a] == '{' && text[b - 1] == '}'
      && '{' !in text[..a] && '}' !in text[b..]
  {
  }

  /** With neither pattern matching, the candidate is the whole reply. */
  lemma NoMatchKeepsWholeText(text: string)
    requires FirstFence(text).None? && BraceSpan(text).None?
    ensures Candidate(text) == text
  {
  }

  /** Whatever pattern matches, the candidate is a piece of the reply. */
  lemma CandidateIsSubstring(text: string)
    ensures exists a, b :: 0 <= a <= b <= |text| && Candidate(text) == text[a..b]
  {
    match FirstFence(text)
    case Some(f) =>
      if f.bodyStart < f.bodyEnd {
        assert Candidate(text) == text[f.bodyStart..f.bodyEnd];
      } else {
        assert Candidate(text) == text[f.start..f.end];
      }
    case None =>
      match BraceSpan(text)
      case Some(span) => assert Candidate(text) == text[span.0..span.1];
      case None => assert Candidate(text) == text[0..|text|];
  }

  /** "```json" then a newline, the JSON text, a newline and "```": the usual fenced reply. */
  function Fenced(t: string): string {
    FENCE_OPEN + "\n" + t + NEWLINE_FENCE_CLOSE
  }

  /** A backtick-free object text reached through a fence, with its newlines, reads as the same text
      reached bare. */
  lemma FencedCandidate(t: string)
    requires '`' !in t && |t| >= 1 && t[|t| - 1] != '\n'
    ensures Candidate(Fenced(t)) == t
  {
    var w := Fenced(t);
    var e := 8 + |t|;
    assert w[..7] == FENCE_OPEN && w[7] == '\n' && w[8..e] == t && w[e..] == NEWLINE_FENCE_CLOSE;
    assert OccursAt(w, FENCE_OPEN, 0);
    forall q | 8 <= q < e ensures !ClosesAt(w, q) {
      assert w[q] == t[q - 8];
      assert !OccursAt(w, FENCE_CLOSE, q) by { if q + 3 <= |w| { assert w[q..q + 3][0] == w[q]; } }
      assert !OccursAt(w, NEWLINE_FENCE_CLOSE, q) by {
        if q + 4 <= |w| {
          assert w[q..q + 4][0] == w[q] && w[q..q + 4][1] == w[q + 1];
          if q + 1 < e { assert w[q + 1] == t[q - 7]; }
        }
      }
    }
    assert w[e..e + 4] == NEWLINE_FENCE_CLOSE;
    assert ClosesAt(w, e);
    assert FirstClose(w, 8) == Some(e);
    assert FenceAt(w, 0) == Some(Fence(0, 8, e, e + 4));
  }

  /** A bare object text, with no fence and no whitespace around it, is its own candidate. */
  lemma BareCandidate(t: string)
    requires '`' !in t && |t| >= 1 && t[0] == '{' && t[|t| - 1] == '}'
    ensures Candidate(t) == t
  {
    forall j | 0 <= j ensures FenceAt(t, j).None? {
      if j + 7 <= |t| {
        assert t[j..j + 7][0] == t[j];
      }
    }
    assert IndexOf(t, '{') == Some(0);
    assert LastIndexOf(t, '}') == Some(|t| - 1);
  }

  /** Wrapping an object text in a json fence does not change what the handler makes of it. */
  lemma FencedAndBareAgree(parse: string -> Option<Json>, t: string)
    requires '`' !in t && |t| >= 1 && t[0] == '{' && t[|t| - 1] == '}'
    ensures ParseReply(parse, Fenced(t)) == ParseReply(parse, t)
  {
    FencedCandidate(t);
    BareCandidate(t);
  }
}
