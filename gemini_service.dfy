/** The request/response adapter around the remote generative model:
    `cleanJsonString`, the prompt template, the request that carries the
    response schema, and `analyzeRouteRisk`.

    The remote call and `JSON.parse` are parameters of the model: `generate`
    stands for the model's answer to a request and `parse` for parsing the
    cleaned text into an analysis (which the source only casts, so whatever
    parses is returned as it is). */
module GeminiService {
  import opened Wrappers
  import opened JsString
  import opened Types

  // ---- cleanJsonString: str.replace(/```json\n?|\n?```/g, "").trim() ----

  /** Three backticks start at index `i` of `s`. */
  predicate HasFenceAt(s: string, i: int) {
    0 <= i && i + 3 <= |s| && s[i] == '`' && s[i + 1] == '`' && s[i + 2] == '`'
  }

  /** `s` contains no "```". */
  predicate NoFence(s: string) {
    forall i :: 0 <= i < |s| ==> !HasFenceAt(s, i)
  }

  /** "json" starts at index `i` of `s`. */
  predicate HasJsonTagAt(s: string, i: int) {
    0 <= i && i + 4 <= |s| && s[i] == 'j' && s[i + 1] == 's' && s[i + 2] == 'o' && s[i + 3] == 'n'
  }

  /** The length of the match of the pattern at the start of `s`, 0 when it
      does not match there. The first alternative, "```json" with an optional
      newline (taken when present), is tried first; then the second, "```"
      with an optional newline before it (taken when present). */
  function FenceMatch(s: string): (n: nat)
    ensures n <= |s|
    ensures n == 0 <==> !(HasFenceAt(s, 0) || (|s| > 0 && s[0] == '\n' && HasFenceAt(s, 1)))
    ensures n == 0 || n == 3 || n == 4 || n == 7 || n == 8
    ensures n == 8 ==> s[..8] == "```json\n"
    ensures n == 7 ==> s[..7] == "```json" && (|s| == 7 || s[7] != '\n')
    ensures n == 4 ==> s[..4] == "\n```"
    ensures n == 3 ==> s[..3] == "```" && !HasJsonTagAt(s, 3)
  {
    if HasFenceAt(s, 0) && HasJsonTagAt(s, 3) then
      if |s| > 7 && s[7] == '\n' then 8 else 7
    else if |s| > 0 && s[0] == '\n' && HasFenceAt(s, 1) then 4
    else if HasFenceAt(s, 0) then 3
    else 0
  }

  /** The global replacement of every match by the empty string, scanning
      from left to right and resuming after each match. It only deletes
      characters. */
  function StripFences(s: string): (r: string)
    ensures |r| <= |s|
    decreases |s|
  {
    if |s| == 0 then ""
    else
      var n := FenceMatch(s);
      if n == 0 then [s[0]] + StripFences(s[1..]) else StripFences(s[n..])
  }

  /** `r` is `s` with some characters deleted, the rest kept in order. */
  predicate Subseq(r: string, s: string)
    decreases |s|
  {
    if |r| == 0 then true
    else if |s| == 0 then false
    else (r[0] == s[0] && Subseq(r[1..], s[1..])) || Subseq(r, s[1..])
  }

  /** Deleting a prefix of `s` as well still leaves a subsequence of `s`. */
  lemma {:induction false} SubseqDropFront(r: string, s: string, n: nat)
    requires n <= |s| && Subseq(r, s[n..])
    ensures Subseq(r, s)
    decreases n
  {
    if n > 0 {
      assert s[1..][n - 1..] == s[n..];
      SubseqDropFront(r, s[1..], n - 1);
    }
  }

  /** A subsequence keeps a sub-multiset of the characters. */
  lemma {:induction false} SubseqMultiset(r: string, s: string)
    requires Subseq(r, s)
    ensures multiset(r) <= multiset(s)
    decreases |s|
  {
    if |r| > 0 {
      assert s == [s[0]] + s[1..];
      if r[0] == s[0] && Subseq(r[1..], s[1..]) {
        SubseqMultiset(r[1..], s[1..]);
        assert r == [r[0]] + r[1..];
      } else {
        SubseqMultiset(r, s[1..]);
      }
    }
  }

  /** The replacement's output is a subsequence of its input. */
  lemma {:induction false} StripIsSubseq(s: string)
    ensures Subseq(StripFences(s), s)
    decreases |s|
  {
    if |s| > 0 {
      var n := FenceMatch(s);
      if n == 0 {
        StripIsSubseq(s[1..]);
        var r := StripFences(s);
        assert r == [s[0]] + StripFences(s[1..]);
        assert r[1..] == StripFences(s[1..]);
      } else {
        StripIsSubseq(s[n..]);
        SubseqDropFront(StripFences(s), s, n);
      }
    }
  }

  /** The replacement only deletes characters: its output is a subsequence of
      the input, so also a sub-multiset of the input's characters. */
  lemma StripDeletesOnly(s: string)
    ensures Subseq(StripFences(s), s)
    ensures multiset(StripFences(s)) <= multiset(s)
  {
    StripIsSubseq(s);
    SubseqMultiset(StripFences(s), s);
  }

  /** `cleanJsonString`: the result has no white space at either end, and it is
      no longer than its input. */
  function CleanJsonString(s: string): (r: string)
    ensures Trimmed(r)
    ensures |r| <= |s|
  {
    Trim(StripFences(s))
  }

  /** Joining `a` and `t` cannot create a match that starts inside `a`
      (given that `a` holds no "```" of its own). */
  predicate CleanJoin(a: string, t: string) {
    || |a| == 0 || |t| == 0 || t[0] != '`'
    || (a[|a| - 1] != '`' && a[|a| - 1] != '\n')
  }

  /** No match starts inside a prefix that holds no "```" and does not run
      into a fence with its last character. */
  lemma {:induction false} KeepsCleanPrefix(a: string, t: string)
    requires NoFence(a) && CleanJoin(a, t)
    ensures StripFences(a + t) == a + StripFences(t)
    decreases |a|
  {
    if |a| == 0 {
      assert a + t == t;
    } else {
      var a' := a[1..];
      assert StripFences(a + t) == [a[0]] + StripFences(a' + t) by {
        NoMatchAtCleanPrefix(a, t);
        StripKeepsUnmatched(a, t);
      }
      assert StripFences(a' + t) == a' + StripFences(t) by {
        CleanPrefixTail(a, t);
        KeepsCleanPrefix(a', t);
      }
      assert a == [a[0]] + a';
    }
  }

  /** Where nothing matches at the start of `a + t`, the first character of
      `a` is kept and the scan goes on from the rest of `a`. */
  lemma StripKeepsUnmatched(a: string, t: string)
    requires |a| > 0 && FenceMatch(a + t) == 0
    ensures StripFences(a + t) == [a[0]] + StripFences(a[1..] + t)
  {
    var s := a + t;
    assert s[0] == a[0] && s[1..] == a[1..] + t;
  }

  /** Dropping the first character of a clean prefix leaves a clean prefix. */
  lemma CleanPrefixTail(a: string, t: string)
    requires |a| > 0 && NoFence(a) && CleanJoin(a, t)
    ensures NoFence(a[1..]) && CleanJoin(a[1..], t)
  {
    var a' := a[1..];
    forall i | 0 <= i < |a'| ensures !HasFenceAt(a', i) {
      if HasFenceAt(a', i) {
        assert HasFenceAt(a, i + 1);
      }
    }
  }

  /** Nothing matches at the start of `a + t` when `a` is a non-empty clean
      prefix. */
  lemma NoMatchAtCleanPrefix(a: string, t: string)
    requires |a| > 0 && NoFence(a) && CleanJoin(a, t)
    ensures FenceMatch(a + t) == 0
  {
    var s := a + t;
    if |t| > 0 {
      assert s[|a|] == t[0];
    }
    assert s[|a| - 1] == a[|a| - 1];
    assert !HasFenceAt(s, 0) by {
      if |a| >= 3 {
        assert !HasFenceAt(a, 0);
      }
    }
    assert !(s[0] == '\n' && HasFenceAt(s, 1)) by {
      if |a| >= 4 {
        assert !HasFenceAt(a, 1);
      }
    }
  }

  /** Text without "```" passes the replacement unchanged. */
  lemma {:induction false} StripKeepsPlainText(s: string)
    requires NoFence(s)
    ensures StripFences(s) == s
  {
    KeepsCleanPrefix(s, "");
    assert s + "" == s;
  }

  /** Text without "```" and without white space at either end is returned
      unchanged. */
  lemma CleanKeepsPlainText(s: string)
    requires NoFence(s) && Trimmed(s)
    ensures CleanJsonString(s) == s
  {
    StripKeepsPlainText(s);
    TrimKeepsTrimmed(s);
  }

  /** The wrapper the model may put around its JSON is removed exactly: for a
      trimmed body without "```", the result is the body. */
  lemma CleanUnwrapsFencedBody(body: string)
    requires NoFence(body) && Trimmed(body)
    ensures CleanJsonString("```json\n" + body + "\n```") == body
  {
    var s := "```json\n" + body + "\n```";
    assert HasFenceAt(s, 0) && HasJsonTagAt(s, 3) && s[7] == '\n';
    assert FenceMatch(s) == 8;
    assert s[8..] == body + "\n```";
    KeepsCleanPrefix(body, "\n```");
    assert FenceMatch("\n```") == 4;
    assert "\n```"[4..] == "";
    assert StripFences(s) == body;
    TrimKeepsTrimmed(body);
  }

  /** The removal is global, not anchored at the ends: "```" in the middle of
      the text is deleted as well. */
  lemma StripRemovesInnerFence(a: string, b: string)
    requires NoFence(a) && (|a| == 0 || (a[|a| - 1] != '`' && a[|a| - 1] != '\n'))
    requires !HasJsonTagAt(b, 0)
    ensures StripFences(a + "```" + b) == a + StripFences(b)
  {
    var t := "```" + b;
    assert a + "```" + b == a + t;
    KeepsCleanPrefix(a, t);
    assert HasFenceAt(t, 0) && !HasJsonTagAt(t, 3);
    assert FenceMatch(t) == 3;
    assert t[3..] == b;
  }

  /** For instance "a```b" becomes "ab". */
  lemma CleanInnerFenceExample()
    ensures CleanJsonString("a```b") == "ab"
  {
    var a, b := "a", "b";
    assert NoFence(a) && NoFence(b) by {
      assert |a| == 1 && |b| == 1;
    }
    assert !HasJsonTagAt(b, 0) by {
      assert |b| < 4;
    }
    StripRemovesInnerFence(a, b);
    assert a + "```" + b == "a```b";
    StripKeepsPlainText(b);
    assert StripFences("a```b") == "ab";
    assert Trimmed("ab") by {
      assert !IsWhiteSpace('a') && !IsWhiteSpace('b');
    }
    TrimKeepsTrimmed("ab");
  }

  /** A newline right before the opening fence is consumed by the second
      alternative together with the backticks, so the "json" tag survives:
      "\n```json\n{}\n```" becomes "json\n{}". */
  lemma CleanLeadingNewlineKeepsTag()
    ensures CleanJsonString("\n```json\n{}\n```") == "json\n{}"
  {
    var s := "\n```json\n{}\n```";
    var body := "json\n{}";
    assert !HasFenceAt(s, 0) && HasFenceAt(s, 1);
    assert FenceMatch(s) == 4;
    assert s[4..] == body + "\n```";
    assert NoFence(body) by {
      assert forall k :: 0 <= k < |body| ==> body[k] != '`';
    }
    KeepsCleanPrefix(body, "\n```");
    assert FenceMatch("\n```") == 4;
    assert "\n```"[4..] == "";
    TrimKeepsTrimmed(body);
  }

  // ---- The prompt template ----

  /** Fills a template: literal pieces with one value between each pair of
      neighbours. */
  function Fill(pieces: seq<string>, values: seq<string>): string
    requires |pieces| == |values| + 1
    decreases |values|
  {
    if |values| == 0 then pieces[0]
    else pieces[0] + values[0] + Fill(pieces[1..], values[1..])
  }

  /** Where the `k`-th value starts in `Fill(pieces, values)`: after every
      piece up to the `k`-th and every earlier value. */
  function SlotStart(pieces: seq<string>, values: seq<string>, k: nat): nat
    requires |pieces| == |values| + 1 && k < |values|
    decreases k
  {
    if k == 0 then |pieces[0]|
    else |pieces[0]| + |values[0]| + SlotStart(pieces[1..], values[1..], k - 1)
  }

  /** Every value sits verbatim in its slot, and the slots come in order:
      right after value `k` comes exactly piece `k + 1`, and then value `k + 1`. */
  lemma {:induction false} FillSlot(pieces: seq<string>, values: seq<string>, k: nat)
    requires |pieces| == |values| + 1 && k < |values|
    ensures var p, i := Fill(pieces, values), SlotStart(pieces, values, k);
      var e := i + |values[k]|;
      && e + |pieces[k + 1]| <= |p|
      && p[i..e] == values[k]
      && p[e..e + |pieces[k + 1]|] == pieces[k + 1]
      && (k + 1 < |values| ==> SlotStart(pieces, values, k + 1) == e + |pieces[k + 1]|)
    decreases k
  {
    var p := Fill(pieces, values);
    var rest := Fill(pieces[1..], values[1..]);
    var h := pieces[0] + values[0];
    assert p == h + rest;
    FillSlotZero(pieces[1..], values[1..]);
    if k == 0 {
      assert p[|pieces[0]|..|h|] == values[0];
      ShiftSlice(h, rest, 0, |pieces[1]|);
    } else {
      FillSlot(pieces[1..], values[1..], k - 1);
      var i' := SlotStart(pieces[1..], values[1..], k - 1);
      var e' := i' + |values[k]|;
      ShiftSlice(h, rest, i', e');
      ShiftSlice(h, rest, e', e' + |pieces[k + 1]|);
    }
  }

  /** A slice of the second part of a concatenation, seen from the whole. */
  lemma ShiftSlice(h: string, rest: string, x: int, y: int)
    requires 0 <= x <= y <= |rest|
    ensures (h + rest)[|h| + x..|h| + y] == rest[x..y]
  {
  }

  /** A filled template starts with its first piece. */
  lemma FillSlotZero(pieces: seq<string>, values: seq<string>)
    requires |pieces| == |values| + 1
    ensures |pieces[0]| <= |Fill(pieces, values)|
    ensures Fill(pieces, values)[..|pieces[0]|] == pieces[0]
  {
    if |values| > 0 {
      assert Fill(pieces, values) == pieces[0] + (values[0] + Fill(pieces[1..], values[1..]));
    }
  }

  /** A filled template ends with its last piece. */
  lemma {:induction false} FillEnds(pieces: seq<string>, values: seq<string>)
    requires |pieces| == |values| + 1
    ensures |pieces[|values|]| <= |Fill(pieces, values)|
    ensures var p := Fill(pieces, values); p[|p| - |pieces[|values|]|..] == pieces[|values|]
    decreases |values|
  {
    if |values| > 0 {
      var rest := Fill(pieces[1..], values[1..]);
      FillEnds(pieces[1..], values[1..]);
      var h := pieces[0] + values[0];
      assert Fill(pieces, values) == h + rest;
      ShiftSlice(h, rest, |rest| - |pieces[|values|]|, |rest|);
    }
  }

  /** A filled template is at least as long as its first and last pieces. */
  lemma {:induction false} FillLength(pieces: seq<string>, values: seq<string>)
    requires |pieces| == |values| + 1 && |values| > 0
    ensures |pieces[0]| + |pieces[|values|]| <= |Fill(pieces, values)|
  {
    FillEnds(pieces[1..], values[1..]);
    assert Fill(pieces, values) == pieces[0] + values[0] + Fill(pieces[1..], values[1..]);
  }

  /** The literal text of the prompt around the eight route fields. */
  const PromptPieces: seq<string> := [
    "\n    Analyze the following shipping route:\n    - Origin: ",
    " (",
    ")\n    - Destination: ",
    " (",
    ")\n    - Mode: ",
    "\n    - Cargo: ",
    "\n    - Date: ",
    "\n    - User Role: ",
    "\n    \n    Provide the output in strict JSON format matching the schema provided.\n  "
  ]

  /** The route fields in the order the prompt embeds them. */
  function PromptFields(d: RouteData): (fs: seq<string>)
    ensures |fs| == |PromptPieces| - 1
  {
    [d.originCountry, d.originPort, d.destCountry, d.destPort,
     d.transportMode, d.cargoType, d.shipmentDate, d.userRole]
  }

  /** The prompt of `analyzeRouteRisk`: it opens with the route header and
      closes with the instruction to answer in the schema's JSON. */
  function Prompt(d: RouteData): (p: string)
    ensures |PromptPieces[0]| + |PromptPieces[8]| <= |p|
    ensures p[..|PromptPieces[0]|] == PromptPieces[0]
    ensures p[|p| - |PromptPieces[8]|..] == PromptPieces[8]
  {
    var pieces, fields := PromptPieces, PromptFields(d);
    FillSlotZero(pieces, fields);
    FillEnds(pieces, fields);
    FillLength(pieces, fields);
    Fill(pieces, fields)
  }

  /** The prompt holds every route field verbatim, in the order origin country,
      origin port, destination country, destination port, transport mode,
      cargo type, shipment date, user role, each separated from the next by
      the template's fixed text. */
  lemma PromptEmbedsRoute(d: RouteData, k: nat)
    requires k < 8
    ensures var p, fs, i := Prompt(d), PromptFields(d), SlotStart(PromptPieces, PromptFields(d), k);
      var e := i + |fs[k]|;
      && e + |PromptPieces[k + 1]| <= |p|
      && p[i..e] == fs[k]
      && p[e..e + |PromptPieces[k + 1]|] == PromptPieces[k + 1]
      && (k + 1 < 8 ==> SlotStart(PromptPieces, fs, k + 1) == e + |PromptPieces[k + 1]|)
  {
    FillSlot(PromptPieces, PromptFields(d), k);
  }

  // ---- The request ----

  const ModelName := "gemini-2.5-flash"
  const ResponseMimeType := "application/json"

  /** The enumerations the response schema declares for `riskLevel` and
      `riskTrend`, and the fields it marks as required. */
  const SchemaRiskLevels: seq<string> := ["Low", "Medium", "High"]
  const SchemaRiskTrends: seq<string> := ["Increasing", "Stable", "Decreasing"]
  const RequiredFields: seq<string> := [
    "riskScore", "riskLevel", "riskFactors", "delayProbability",
    "riskTrend", "alternatives", "recommendedOption",
    "actionableInsights", "plainLanguageExplanation", "executiveSummary"
  ]

  /** The schema's enumerations are exactly the wire strings of the types. */
  lemma SchemaEnumsMatchTypes()
    ensures forall i :: 0 <= i < 3 ==> SchemaRiskLevels[i] == RiskLevelWire(AllRiskLevels[i])
    ensures forall i :: 0 <= i < 3 ==> SchemaRiskTrends[i] == RiskTrendWire(AllRiskTrends[i])
    ensures forall s :: s in SchemaRiskLevels <==> RiskLevelFromWire(s).Some?
    ensures forall s :: s in SchemaRiskTrends <==> RiskTrendFromWire(s).Some?
  {
  }

  /** What one call to the remote model sends. The system instruction, a
      fixed text, is not modelled. `riskLevels` stands for both risk-level
      enumerations of the schema, the analysis's own and the alternatives',
      which declare the same three strings. */
  datatype Request = Request(
    model: string,
    apiKey: string,
    contents: string,
    responseMimeType: string,
    riskLevels: seq<string>,
    riskTrends: seq<string>,
    required: seq<string>)

  /** The request `analyzeRouteRisk` sends: the flash model, the caller's
      key, the route's prompt, a JSON answer whose risk level and trend are
      limited to the wire strings of the types, and ten distinct required
      fields. */
  function BuildRequest(d: RouteData, apiKey: string): (q: Request)
    ensures q.model == "gemini-2.5-flash" && q.apiKey == apiKey
    ensures q.contents == Prompt(d) && q.responseMimeType == "application/json"
    ensures forall s :: s in q.riskLevels <==> RiskLevelFromWire(s).Some?
    ensures forall s :: s in q.riskTrends <==> RiskTrendFromWire(s).Some?
    ensures |q.required| == 10
    ensures forall i, j :: 0 <= i < j < |q.required| ==> q.required[i] != q.required[j]
  {
    Request(ModelName, apiKey, Prompt(d), ResponseMimeType,
            SchemaRiskLevels, SchemaRiskTrends, RequiredFields)
  }

  // ---- analyzeRouteRisk ----

  /** What the remote call yields: it throws, or it answers with a response
      whose `text` may be missing. */
  datatype Generated = Threw | Answered(text: Option<string>)

  const MissingKeyMessage := "API Key is missing. Please check your environment configuration."
  const FailureMessage := "Failed to analyze route. Please try again."

  /** `!process.env.API_KEY` is false: the key is set and not empty. */
  predicate KeyPresent(apiKey: Option<string>) {
    apiKey.Some? && apiKey.value != ""
  }

  /** The remote model answers `q` with non-empty text whose cleaned form
      parses to `a`. */
  predicate Accepts(generate: Request -> Generated, parse: string -> Option<AnalysisResult>,
                    q: Request, a: AnalysisResult)
  {
    match generate(q)
    case Answered(Some(text)) => text != "" && parse(CleanJsonString(text)) == Some(a)
    case _ => false
  }

  /** `analyzeRouteRisk`. `sent` is the request made to the remote model, `None`
      when none is made. Without a key it fails before any request; with one
      it sends the prompt for `route` and returns exactly the parsed analysis
      when the answer is usable, and otherwise one fixed message. */
  method AnalyzeRouteRisk(route: RouteData, apiKey: Option<string>,
                          generate: Request -> Generated,
                          parse: string -> Option<AnalysisResult>)
    returns (r: Result<AnalysisResult, string>, sent: Option<Request>)
    ensures !KeyPresent(apiKey) ==> sent == None && r == Err(MissingKeyMessage)
    ensures KeyPresent(apiKey) ==> sent == Some(BuildRequest(route, apiKey.value))
    ensures KeyPresent(apiKey) && r.Err? ==> r.error == FailureMessage
    ensures r.Ok? ==> sent.Some? && Accepts(generate, parse, sent.value, r.value)
    ensures KeyPresent(apiKey) && r.Err? ==> forall a :: !Accepts(generate, parse, sent.value, a)
  {
    if !KeyPresent(apiKey) {
      return Err(MissingKeyMessage), None;
    }
    var request := BuildRequest(route, apiKey.value);
    sent := Some(request);
    var response := generate(request);
    if response.Threw? || response.text.None? || response.text.value == "" {
      return Err(FailureMessage), sent;
    }
    var parsed := parse(CleanJsonString(response.text.value));
    if parsed.None? {
      return Err(FailureMessage), sent;
    }
    r := Ok(parsed.value);
  }
}
