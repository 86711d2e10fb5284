/** The `get-daily-verse` edge function
    (supabase/functions/get-daily-verse/index.ts): it answers the CORS
    preflight, builds a prompt from the user's last feelings, asks the AI
    gateway for a verse, strips code fences from the answer, and maps every
    failure either to an error response (rate limit, payment) or to the
    Psalm 23 fallback. The gateway call and `JSON.parse` are parameters: the
    handler is split at the call into `Begin`, which yields the request to
    the gateway or an immediate response, and `Finish`, which maps the
    gateway's reply to the response. */
module GetDailyVerse {
  import opened Wrappers
  import opened Seqs
  import opened Text
  import opened DailyVerseRecord
  import DailyVerseHook

  /** What reaches the function: a preflight, or a POST whose JSON body was
      read as a request (`None` when `req.json()` fails). */
  datatype Request = Options | Post(body: Option<DailyVerseRequest>)

  type Headers = seq<(string, string)>

  const CorsHeaders: Headers := [
    ("Access-Control-Allow-Origin", "*"),
    ("Access-Control-Allow-Headers", "authorization, x-client-info, apikey, content-type")]

  /** The CORS headers and the JSON content type. */
  const JsonHeaders: Headers := CorsHeaders + [("Content-Type", "application/json")]

  /** The body of a response: `null`, a verse record or `{ error }`. */
  datatype Body = NullBody | VerseBody(verse: DailyVerse) | ErrorBody(error: string)

  datatype Response = Response(status: int, body: Body, headers: Headers)

  const RateLimitMessage := "Rate limit exceeded. Please try again later."
  const PaymentMessage := "Service temporarily unavailable."

  /** The answer to a preflight: `null` with the CORS headers, default status. */
  const Preflight := Response(200, NullBody, CorsHeaders)

  /** The Psalm 23 verse with the default status. */
  const FallbackResponse := Response(200, VerseBody(PsalmTwentyThree), JsonHeaders)

  const NewUserContext := "This is a new user with no history yet."
  const HistoryIntro := "The user has recently shared these feelings and experiences: "

  /** How many of the latest feelings go into the prompt. */
  const FeelingsShown := 5

  /** `feelingsContext`. */
  function FeelingsContext(userFeelings: seq<string>): string
  {
    if |userFeelings| > 0 then HistoryIntro + Join(TakeLast(userFeelings, FeelingsShown), "; ")
    else NewUserContext
  }

  /** The context is the new-user sentence exactly when there are no
      feelings, and otherwise it holds each of the last five. */
  lemma ContextShowsLastFive(userFeelings: seq<string>)
    ensures FeelingsContext(userFeelings) == NewUserContext <==> userFeelings == []
    ensures forall k | |userFeelings| - FeelingsShown <= k < |userFeelings| && 0 <= k ::
      Contains(FeelingsContext(userFeelings), userFeelings[k])
  {
    if userFeelings != [] {
      assert |FeelingsContext(userFeelings)| >= |HistoryIntro| > |NewUserContext|;
      var shown := TakeLast(userFeelings, FeelingsShown);
      var joined := Join(shown, "; ");
      forall k | |userFeelings| - FeelingsShown <= k < |userFeelings| && 0 <= k
        ensures Contains(FeelingsContext(userFeelings), userFeelings[k])
      {
        var j := k - (|userFeelings| - |shown|);
        assert shown[j] == userFeelings[k];
        JoinContainsParts(shown, "; ", j);
        ContainsInLonger(HistoryIntro, joined, "", userFeelings[k]);
        assert HistoryIntro + joined + "" == FeelingsContext(userFeelings);
      }
    }
  }

  /** Feelings older than the last five make no difference to the context. */
  lemma OlderFeelingsIgnored(older: seq<string>, recent: seq<string>)
    requires |recent| >= FeelingsShown
    ensures FeelingsContext(older + recent) == FeelingsContext(recent)
  {
    var all := older + recent;
    assert all[|all| - FeelingsShown..] == recent[|recent| - FeelingsShown..];
    assert TakeLast(all, FeelingsShown) == TakeLast(recent, FeelingsShown);
    assert |all| > 0 && |recent| > 0;
  }

  /** The prompt's text, one constant per line (per sentence for the long
      lines); they are joined below exactly as the template literal writes them. */
  const OpeningRole := "You are a compassionate Bible verse selector for the Zealous app."
  const OpeningTask := "Your job is to select an encouraging, relevant Bible verse for the user's daily devotional."
  const AskLine := "Based on their journey, select ONE Bible verse that would speak to their heart today."
  const ShouldLine := "The verse should:"
  const RuleOne := "1. Be encouraging and uplifting"
  const RuleTwo := "2. Relate to their recent feelings if they have shared any"
  const RuleThree := "3. Be from the NIV or NLT translation"
  const RuleFour := "4. Include the full verse text and reference"
  const FormatLine := "Respond ONLY with a JSON object in this exact format (no markdown, no code blocks):"
  const FormatVerse := "{\"verse\": \"The full verse text here\", "
  const FormatReference := "\"reference\": \"Book Chapter:Verse\", "
  const FormatReflection := "\"reflection\": \"A brief 1-2 sentence reflection on why this verse might speak to them today\"}"

  const PromptOpening := OpeningRole + " " + OpeningTask

  const PromptInstructions :=
    AskLine + " " + ShouldLine + "\n" + RuleOne + "\n" + RuleTwo + "\n" + RuleThree + "\n" + RuleFour
    + "\n\n" + FormatLine + "\n" + FormatVerse + FormatReference + FormatReflection

  /** What comes before and after the context in the system prompt. */
  const PromptHead := PromptOpening + "\n\n"
  const PromptTail := "\n\n" + PromptInstructions

  /** `systemPrompt`: the opening, the context and the instructions,
      separated by blank lines. */
  function SystemPrompt(context: string): string
  {
    PromptHead + context + PromptTail
  }

  /** The system prompt carries the context. */
  lemma PromptCarriesContext(context: string)
    ensures Contains(SystemPrompt(context), context)
  {
    Framed(PromptHead, context, PromptTail);
  }

  /** A string occurs in anything built around it. */
  lemma Framed(head: string, x: string, tail: string)
    ensures Contains(head + x + tail, x)
  {
    assert OccursAt(x, x, 0);
    ContainsInLonger(head, x, tail, x);
  }

  const AvoidCommon := "Make sure it's different from common verses like Jeremiah 29:11 or Philippians 4:13"
  const FindNew := " - find something that might be new to them."

  /** The user message, which names the date. */
  function UserMessage(date: string): string
  {
    "Please select an encouraging Bible verse for today (" + date + "). " + AvoidCommon + FindNew
  }

  /** The user message carries the date it was asked for. */
  lemma UserMessageNamesDate(date: string)
    ensures Contains(UserMessage(date), date)
  {
    var head := "Please select an encouraging Bible verse for today (";
    assert UserMessage(date) == head + date + ("). " + AvoidCommon + FindNew);
    Framed(head, date, "). " + AvoidCommon + FindNew);
  }

  /** `s` starts with `p`. */
  predicate HasPrefix(s: string, p: string)
  {
    |p| <= |s| && s[..|p|] == p
  }

  /** `content.replace(/```json\n?|\n?```/g, '')`: scanning from the left,
      an opening fence (with its newline when there is one) or a closing
      fence (with the newline before it when there is one) is removed, and
      every other character is kept. */
  function StripFences(s: string): (r: string)
    ensures |r| <= |s|
    decreases |s|
  {
    if HasPrefix(s, "```json\n") then StripFences(s[8..])
    else if HasPrefix(s, "```json") then StripFences(s[7..])
    else if HasPrefix(s, "\n```") then StripFences(s[4..])
    else if HasPrefix(s, "```") then StripFences(s[3..])
    else if s == [] then []
    else [s[0]] + StripFences(s[1..])
  }

  /** The first two characters of a string with prefix `p` are those of `p`. */
  lemma PrefixHeads(s: string, p: string)
    ensures HasPrefix(s, p) && |p| > 1 ==> s[0] == p[0] && s[1] == p[1]
  {
    if HasPrefix(s, p) && |p| > 1 {
      assert s[..|p|][0] == s[0] && s[..|p|][1] == s[1];
    }
  }

  /** A prefix that starts with `c` is `c` followed by a prefix of the rest. */
  lemma ShiftPrefix(c: char, t: string, p: string)
    ensures HasPrefix([c] + t, [c] + p) ==> HasPrefix(t, p)
  {
    if HasPrefix([c] + t, [c] + p) {
      assert t[..|p|] == ([c] + t)[1..|p| + 1] == ([c] + p)[1..];
    }
  }

  /** No fence starts at a character that is not a backtick and is not
      followed by one. */
  lemma NoFenceStart(s: string)
    requires s != [] && s[0] != '`' && (|s| < 2 || s[1] != '`')
    ensures !HasPrefix(s, "```json\n") && !HasPrefix(s, "```json")
    ensures !HasPrefix(s, "\n```") && !HasPrefix(s, "```")
  {
    PrefixHeads(s, "```json\n");
    PrefixHeads(s, "```json");
    PrefixHeads(s, "\n```");
    PrefixHeads(s, "```");
  }

  /** Text without backticks is left as it is. */
  lemma {:induction false} StripLeavesPlainText(s: string)
    requires '`' !in s
    ensures StripFences(s) == s
    decreases |s|
  {
    if s != [] {
      assert s[0] in s && (|s| >= 2 ==> s[1] in s);
      NoFenceStart(s);
      StripLeavesPlainText(s[1..]);
      assert s == [s[0]] + s[1..];
    }
  }

  /** Text without backticks is kept in front of whatever the rest strips
      to, provided the rest does not start with a fence (which would take a
      final newline of the text with it). */
  lemma {:induction false} StripKeepsPlainPrefix(s: string, t: string)
    requires '`' !in s
    requires !HasPrefix(t, "```")
    ensures StripFences(s + t) == s + StripFences(t)
    decreases |s|
  {
    if s != [] {
      PlainHeadIsKept(s, t);
      StripKeepsPlainPrefix(s[1..], t);
      assert s == [s[0]] + s[1..];
    } else {
      assert s + t == t;
    }
  }

  /** The first character of plain text in front of `t` is kept, and
      stripping goes on after it. */
  lemma PlainHeadIsKept(s: string, t: string)
    requires s != [] && '`' !in s
    requires !HasPrefix(t, "```")
    ensures StripFences(s + t) == [s[0]] + StripFences(s[1..] + t)
  {
    var w := s + t;
    assert w[0] == s[0] && w[1..] == s[1..] + t;
    assert s[0] in s;
    PrefixHeads(w, "```json\n");
    PrefixHeads(w, "```json");
    PrefixHeads(w, "```");
    assert !HasPrefix(w, "\n```") by {
      if |s| == 1 {
        assert w == [s[0]] + t;
        ShiftPrefix(s[0], t, "```");
      } else {
        assert s[1] in s && w[1] == s[1];
        PrefixHeads(w, "\n```");
      }
    }
    KeptHead(w);
  }

  /** A string that starts with no fence keeps its first character. */
  lemma KeptHead(w: string)
    requires w != []
    requires !HasPrefix(w, "```json\n") && !HasPrefix(w, "```json")
    requires !HasPrefix(w, "\n```") && !HasPrefix(w, "```")
    ensures StripFences(w) == [w[0]] + StripFences(w[1..])
  {
  }

  /** `cleanContent`: fences stripped, then trimmed. */
  function Clean(content: string): string
  {
    Trim(StripFences(content))
  }

  /** A backtick-free answer that neither starts nor ends with whitespace
      comes out of the clean-up unchanged, bare or wrapped in a fenced
      `json` code block. */
  lemma CleanUnwrapsFence(s: string)
    requires '`' !in s && s != []
    requires !IsWhitespace(s[0]) && !IsWhitespace(s[|s| - 1])
    ensures Clean(s) == s
    ensures Clean("```json\n" + s + "\n```") == s
  {
    StripLeavesPlainText(s);
    TrimUnpadded(s);
    var w := "```json\n" + s + "\n```";
    assert HasPrefix(w, "```json\n") && w[8..] == s + "\n```";
    PrefixHeads("\n```", "```");
    StripKeepsPlainPrefix(s, "\n```");
    assert StripFences("\n```") == StripFences("");
    assert s + "" == s;
  }

  /** What came back from the AI gateway: `fetch` threw, or a reply with its
      status and `data.choices?.[0]?.message?.content` (`None` when the body
      does not have it). */
  datatype Upstream = NetworkError | Reply(status: int, content: Option<string>)

  /** `response.ok`. */
  predicate IsOk(status: int)
  {
    200 <= status <= 299
  }

  /** The handler up to the gateway call: either the response, or the system
      prompt and user message it sends. */
  datatype Step = Respond(response: Response) | AskModel(system: string, user: string)

  /** The handler before the gateway call. */
  function Begin(req: Request, apiKey: Option<string>): (s: Step)
    ensures req.Options? ==> s == Respond(Preflight)
    ensures req.Post? && (req.body.None? || apiKey.None? || apiKey.value == "") ==>
      s == Respond(FallbackResponse)
    ensures s.AskModel? <==> req.Post? && req.body.Some? && apiKey.Some? && apiKey.value != ""
  {
    match req
    case Options => Respond(Preflight)
    case Post(None) => Respond(FallbackResponse)
    case Post(Some(body)) =>
      if apiKey.None? || apiKey.value == "" then Respond(FallbackResponse)
      else AskModel(SystemPrompt(FeelingsContext(body.userFeelings)), UserMessage(body.date))
  }

  /** A request that gets as far as the gateway sends the system prompt
      built from its feelings, which carries their last five, and the user
      message naming its date. */
  lemma GatewaySeesFeelings(body: DailyVerseRequest, apiKey: Option<string>)
    requires apiKey.Some? && apiKey.value != ""
    ensures Begin(Post(Some(body)), apiKey)
      == AskModel(SystemPrompt(FeelingsContext(body.userFeelings)), UserMessage(body.date))
    ensures forall k | |body.userFeelings| - FeelingsShown <= k < |body.userFeelings| && 0 <= k ::
      Contains(Begin(Post(Some(body)), apiKey).system, body.userFeelings[k])
  {
    var context := FeelingsContext(body.userFeelings);
    ContextShowsLastFive(body.userFeelings);
    forall k | |body.userFeelings| - FeelingsShown <= k < |body.userFeelings| && 0 <= k
      ensures Contains(SystemPrompt(context), body.userFeelings[k])
    {
      var i :| 0 <= i <= |context| && OccursAt(context, body.userFeelings[k], i);
      ContainsInLonger(PromptHead, context, PromptTail, body.userFeelings[k]);
    }
  }

  /** The handler after the gateway call; `parse` is `JSON.parse` read as a
      verse record. */
  function Finish(upstream: Upstream, parse: string -> Option<DailyVerse>): (r: Response)
  {
    match upstream
    case NetworkError => FallbackResponse
    case Reply(status, content) =>
      if !IsOk(status) then
        if status == 429 then Response(429, ErrorBody(RateLimitMessage), JsonHeaders)
        else if status == 402 then Response(402, ErrorBody(PaymentMessage), JsonHeaders)
        else FallbackResponse
      else if content.None? || content.value == "" then FallbackResponse
      else match parse(Clean(content.value))
        case None => FallbackResponse
        case Some(v) => Response(200, VerseBody(v), JsonHeaders)
  }

  /** The statuses the handler answers with: 429 and 402 exactly when the
      gateway said so, each with its message; otherwise the default status
      with a verse, which is the parsed answer of an ok reply or else the
      fallback. */
  lemma FinishOutcomes(upstream: Upstream, parse: string -> Option<DailyVerse>)
    ensures Finish(upstream, parse).status == 429 <==> upstream.Reply? && upstream.status == 429
    ensures Finish(upstream, parse).status == 402 <==> upstream.Reply? && upstream.status == 402
    ensures Finish(upstream, parse).status == 429 ==> Finish(upstream, parse).body == ErrorBody(RateLimitMessage)
    ensures Finish(upstream, parse).status == 402 ==> Finish(upstream, parse).body == ErrorBody(PaymentMessage)
    ensures Finish(upstream, parse).headers == JsonHeaders
    ensures Finish(upstream, parse).status != 429 && Finish(upstream, parse).status != 402 ==>
      Finish(upstream, parse).status == 200 && Finish(upstream, parse).body.VerseBody?
    ensures Finish(upstream, parse).body.VerseBody? ==>
      Finish(upstream, parse) == FallbackResponse
      || (upstream.Reply? && IsOk(upstream.status) && upstream.content.Some?
          && parse(Clean(upstream.content.value)) == Some(Finish(upstream, parse).body.verse))
  {
  }

  /** Every failure after the call that is not a rate limit or a payment
      problem gives the fallback verse with the default status. */
  lemma FailuresFallBack(upstream: Upstream, parse: string -> Option<DailyVerse>)
    requires || upstream.NetworkError?
             || (upstream.Reply? && !IsOk(upstream.status) && upstream.status != 429 && upstream.status != 402)
             || (upstream.Reply? && IsOk(upstream.status) && (upstream.content.None? || upstream.content.value == ""))
             || (upstream.Reply? && IsOk(upstream.status) && upstream.content.Some?
                 && parse(Clean(upstream.content.value)).None?)
    ensures Finish(upstream, parse) == FallbackResponse
  {
  }

  /** The whole handler, with the gateway as a function of the two messages. */
  function Handle(req: Request, apiKey: Option<string>, gateway: (string, string) -> Upstream,
                  parse: string -> Option<DailyVerse>): (r: Response)
    ensures req.Options? ==> r == Preflight
    ensures r.status == 429 || r.status == 402 ==>
      Begin(req, apiKey).AskModel?
      && var up := gateway(Begin(req, apiKey).system, Begin(req, apiKey).user);
         up.Reply? && up.status == r.status
    ensures r.status != 429 && r.status != 402 ==> r.status == 200
  {
    match Begin(req, apiKey)
    case Respond(response) => response
    case AskModel(system, user) =>
      FinishOutcomes(gateway(system, user), parse);
      Finish(gateway(system, user), parse)
  }

  /** A verse record the gateway writes in canonical JSON reaches the client
      unchanged, bare or in a fenced code block, provided it has no
      backtick. */
  lemma CanonicalAnswerIsReturned(v: DailyVerse, fenced: bool)
    requires '`' !in EncodeVerse(v)
    ensures Finish(Reply(200, Some(if fenced then "```json\n" + EncodeVerse(v) + "\n```" else EncodeVerse(v))), DecodeVerse)
      == Response(200, VerseBody(v), JsonHeaders)
  {
    EncodingEndsInBraces(v);
    VerseRoundTrip(v);
    CleanAnswerIsReturned(EncodeVerse(v), v, fenced);
  }

  /** A backtick-free answer that parses and is delimited by braces reaches
      the client as its verse, bare or fenced. */
  lemma CleanAnswerIsReturned(e: string, v: DailyVerse, fenced: bool)
    requires '`' !in e && e != [] && e[0] == '{' && e[|e| - 1] == '}'
    requires DecodeVerse(e) == Some(v)
    ensures Finish(Reply(200, Some(if fenced then "```json\n" + e + "\n```" else e)), DecodeVerse)
      == Response(200, VerseBody(v), JsonHeaders)
  {
    var content := if fenced then "```json\n" + e + "\n```" else e;
    BracesAreNotWhitespace();
    assert !IsWhitespace(e[0]) && !IsWhitespace(e[|e| - 1]);
    CleanUnwrapsFence(e);
    assert Clean(content) == e;
    assert content != "";
    ParsedAnswerIsReturned(content, DecodeVerse, v);
  }

  lemma BracesAreNotWhitespace()
    ensures !IsWhitespace('{') && !IsWhitespace('}')
  {
    PrintableIsNotWhitespace('{');
    PrintableIsNotWhitespace('}');
  }

  /** The written record starts with `{` and ends with `}`. */
  lemma EncodingEndsInBraces(v: DailyVerse)
    ensures var e := EncodeVerse(v); e != [] && e[0] == '{' && e[|e| - 1] == '}'
  {
  }

  /** An ok reply whose cleaned content parses is answered with the parsed verse. */
  lemma ParsedAnswerIsReturned(content: string, parse: string -> Option<DailyVerse>, v: DailyVerse)
    requires content != "" && parse(Clean(content)) == Some(v)
    ensures Finish(Reply(200, Some(content)), parse) == Response(200, VerseBody(v), JsonHeaders)
  {
  }

  /** What `supabase.functions.invoke` makes of a response: the data of a
      2xx verse response, an error for a non-2xx status. */
  function ClientOutcome(r: Response): (o: DailyVerseHook.InvokeOutcome)
    ensures o.Returned? <==> IsOk(r.status) && r.body.VerseBody?
  {
    if IsOk(r.status) && r.body.VerseBody? then DailyVerseHook.Returned(r.body.verse)
    else DailyVerseHook.ReportedError
  }

  /** Whatever the request and the gateway do, the hook ends up with either
      the Psalm 23 fallback or a verse parsed from the gateway's answer. */
  lemma HookGetsModelVerseOrFallback(body: DailyVerseRequest, apiKey: Option<string>,
                                     gateway: (string, string) -> Upstream,
                                     parse: string -> Option<DailyVerse>)
    ensures var shown := DailyVerseHook.FetchedVerse(ClientOutcome(Handle(Post(Some(body)), apiKey, gateway, parse)));
      shown == PsalmTwentyThree
      || exists content :: parse(Clean(content)) == Some(shown)
  {
    var r := Handle(Post(Some(body)), apiKey, gateway, parse);
    var step := Begin(Post(Some(body)), apiKey);
    if step.AskModel? {
      var up := gateway(step.system, step.user);
      FinishOutcomes(up, parse);
      if r.body.VerseBody? && r != FallbackResponse {
        assert parse(Clean(up.content.value)) == Some(r.body.verse);
      }
    }
  }
}
