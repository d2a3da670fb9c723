/** The intent classifier: the keyword heuristic (`route_intent`,
    `has_time_tokens`, `has_am_pm`), the parsing of the language model's
    router reply, and the model-backed router that falls back on the
    heuristic. */
module Routing {
  import opened Wrappers
  import opened Text

  datatype Intent = Notification | Unknown

  datatype IntentResult = IntentResult(intent: Intent, normalizedText: string)

  /** The JSON record the model is asked to answer with, once parsed. */
  datatype RouterPayload = RouterPayload(intent: string, normalizedText: string)

  const TimeTokens: seq<string> :=
    ["today", "tomorrow", "tonight", "morning", "afternoon", "evening", "next ", "this ", "at ", "in ", "on "]

  const Weekdays: seq<string> :=
    ["monday", "tuesday", "wednesday", "thursday", "friday", "saturday", "sunday"]

  const Months: seq<string> :=
    ["january", "february", "march", "april", "may", "june", "july", "august",
     "september", "october", "november", "december"]

  /** Some word of `words` occurs in `lower` as a substring. */
  predicate AnyContained(lower: string, words: seq<string>) {
    exists w :: w in words && Contains(lower, w)
  }

  /** A token, weekday or month name occurs in the lowercased text. */
  predicate HasKeyword(lower: string) {
    AnyContained(lower, TimeTokens) || AnyContained(lower, Weekdays) || AnyContained(lower, Months)
  }

  predicate HasDigit(s: string) {
    exists i :: 0 <= i < |s| && IsAsciiDigit(s[i])
  }

  /** An `am` or `pm` starts at `i` with no ASCII letter on either side. */
  predicate AmPmAt(s: string, i: int) {
    && 0 <= i && i + 1 < |s|
    && (s[i] == 'a' || s[i] == 'p') && s[i + 1] == 'm'
    && (i == 0 || !IsAsciiAlpha(s[i - 1]))
    && (i + 2 >= |s| || !IsAsciiAlpha(s[i + 2]))
  }

  /** What `has_am_pm` decides: `am` or `pm` stands as a word of its own. */
  predicate AmPmWord(s: string) {
    exists i :: 0 <= i < |s| && AmPmAt(s, i)
  }

  /** `has_time_tokens`: keywords first; failing those, a text with `/` or `:`
      is a time exactly when it holds a digit, and the am/pm scan is not
      reached; otherwise the am/pm scan decides. */
  predicate HasTimeTokens(text: string) {
    var lower := LowerAscii(text);
    if HasKeyword(lower) then true
    else if '/' in lower || ':' in lower then HasDigit(lower)
    else AmPmWord(lower)
  }

  /** `has_am_pm`: the indexed scan over the (lowercased) text with an early
      return, proved to decide `AmPmWord`. */
  method HasAmPm(lower: string) returns (found: bool)
    ensures found <==> AmPmWord(lower)
  {
    var upper := if |lower| >= 1 then |lower| - 1 else 0;
    for i := 0 to upper
      invariant forall j :: 0 <= j < i ==> !AmPmAt(lower, j)
    {
      var first := lower[i];
      var second := lower[i + 1];
      if (first == 'a' || first == 'p') && second == 'm' {
        var before: Option<char> := if i == 0 then None else Some(lower[i - 1]);
        var after: Option<char> := if i + 2 >= |lower| then None else Some(lower[i + 2]);
        var boundaryBefore := before.None? || !IsAsciiAlpha(before.value);
        var boundaryAfter := after.None? || !IsAsciiAlpha(after.value);
        if boundaryBefore && boundaryAfter {
          assert AmPmAt(lower, i);
          return true;
        }
      }
    }
    assert forall j :: upper <= j < |lower| ==> !AmPmAt(lower, j);
    return false;
  }

  /** `route_intent`: the trimmed text is the normalized text; a blank text
      is Unknown, and otherwise the intent is Notification exactly when the
      time heuristic fires. */
  function RouteIntent(text: string): (r: IntentResult)
    ensures r.normalizedText == Trim(text)
    ensures IsBlank(text) ==> r.intent == Unknown
    ensures !IsBlank(text) ==> (r.intent == Notification <==> HasTimeTokens(Trim(text)))
  {
    var normalized := Trim(text);
    if normalized == [] then IntentResult(Unknown, normalized)
    else if HasTimeTokens(normalized) then IntentResult(Notification, normalized)
    else IntentResult(Unknown, normalized)
  }

  /** `parse_router_payload`, over the outcome of JSON parsing. */
  function ParseRouterPayload(parsed: Option<RouterPayload>): (r: Option<IntentResult>)
    ensures r.None? <==> parsed.None?
    ensures r.Some? ==> r.value.normalizedText == Trim(parsed.value.normalizedText)
    ensures r.Some? ==> (r.value.intent == Notification <==> parsed.value.intent == "notification")
  {
    match parsed
    case None => None
    case Some(p) =>
      var intent := if p.intent == "notification" then Notification else Unknown;
      Some(IntentResult(intent, Trim(p.normalizedText)))
  }

  /** `OpenAIRouter::route`: the model's parsed answer, or the heuristic when
      the call fails or its reply does not parse. */
  function OpenAIRoute(reply: LlmReply<RouterPayload>, text: string): (r: IntentResult)
    ensures !reply.Parsed? ==> r == RouteIntent(text)
    ensures reply.Parsed? ==> Some(r) == ParseRouterPayload(Some(reply.value))
  {
    match reply
    case Parsed(p) => ParseRouterPayload(Some(p)).value
    case _ => RouteIntent(text)
  }

  // ------------------------------------------------------------- properties

  /** Whatever the router, its normalized text is already trimmed. */
  lemma {:induction false} RoutedTextIsTrimmed(reply: LlmReply<RouterPayload>, text: string)
    ensures Trim(OpenAIRoute(reply, text).normalizedText) == OpenAIRoute(reply, text).normalizedText
    ensures Trim(RouteIntent(text).normalizedText) == RouteIntent(text).normalizedText
  {
    TrimIdempotent(text);
    if reply.Parsed? {
      TrimIdempotent(reply.value.normalizedText);
    }
  }

  /** Routing a text and routing its trimmed form agree. */
  lemma {:induction false} RouteIntentIgnoresSurroundingSpace(text: string)
    ensures RouteIntent(Trim(text)) == RouteIntent(text)
  {
    TrimIdempotent(text);
  }

  lemma {:induction false} LowerAsciiIdempotent(s: string)
    ensures LowerAscii(LowerAscii(s)) == LowerAscii(s)
  {
  }

  /** The heuristic does not depend on the case of ASCII letters. */
  lemma {:induction false} RouteIntentCaseInsensitive(text: string)
    ensures RouteIntent(LowerAscii(text)).intent == RouteIntent(text).intent
  {
    TrimAsciiLowerCommute(text);
    var t := Trim(text);
    LowerAsciiIdempotent(t);
    assert Trim(LowerAscii(text)) == LowerAscii(t);
    assert HasTimeTokens(LowerAscii(t)) == HasTimeTokens(t);
  }

  /** The `/`-and-`:` rule: with no keyword, a text holding `/` or `:` is a
      time exactly when it holds a digit, whatever its am/pm words. */
  lemma {:induction false} SlashColonRule(text: string)
    requires !HasKeyword(LowerAscii(text))
    requires '/' in text || ':' in text
    ensures HasTimeTokens(text) <==> HasDigit(text)
  {
    var lower := LowerAscii(text);
    if '/' in text {
      var i :| 0 <= i < |text| && text[i] == '/';
      assert lower[i] == '/';
    } else {
      var i :| 0 <= i < |text| && text[i] == ':';
      assert lower[i] == ':';
    }
    if HasDigit(text) {
      var i :| 0 <= i < |text| && IsAsciiDigit(text[i]);
      assert IsAsciiDigit(lower[i]);
    }
    if HasDigit(lower) {
      var i :| 0 <= i < |lower| && IsAsciiDigit(lower[i]);
      assert IsAsciiDigit(text[i]);
    }
  }

  // ------------------------------------------ a keyword anywhere in a follow-up

  /** The trimmed text is a slice whose outside is white space. */
  lemma {:induction false} TrimIsSlice(s: string) returns (p: nat, e: nat)
    ensures p <= e <= |s| && Trim(s) == s[p..e]
    ensures forall i :: 0 <= i < p ==> IsWhitespace(s[i])
    ensures forall i :: e <= i < |s| ==> IsWhitespace(s[i])
  {
    var u := TrimStart(s);
    p := |s| - |u|;
    e := p + |TrimEnd(u)|;
    assert Trim(s) == TrimEnd(u) == u[..e - p];
    assert u[..e - p] == s[p..e];
    forall i | e <= i < |s| ensures IsWhitespace(s[i]) {
      assert s[i] == u[i - p];
    }
  }

  lemma {:induction false} OccursTransitive(x: string, y: string, w: string, i: int, j: int)
    requires OccursAt(x, y, i) && OccursAt(y, w, j)
    ensures OccursAt(x, w, i + j)
  {
    forall m | 0 <= m < |w| ensures x[i + j + m] == w[m] {
      assert w[m] == y[j + m];
      assert y[j + m] == x[i..i + |y|][j + m];
    }
    assert x[i + j..i + j + |w|] == w;
  }

  lemma {:induction false} OccursLower(x: string, y: string, i: int)
    requires OccursAt(x, y, i)
    ensures OccursAt(LowerAscii(x), LowerAscii(y), i)
  {
    LowerAsciiSlice(x, i, i + |y|);
  }

  lemma {:induction false} OccursInAppend(a: string, b: string, t: string, i: int)
    requires OccursAt(b, t, i)
    ensures OccursAt(a + b, t, |a| + i)
  {
    assert (a + b)[|a| + i..|a| + i + |t|] == b[i..i + |t|];
  }

  /** A slice that covers an occurrence still holds it, shifted. */
  lemma {:induction false} OccursInCoveringSlice(s: string, t: string, lo: int, p: int, e: int)
    requires OccursAt(s, t, lo) && 0 <= p <= lo && lo + |t| <= e <= |s|
    ensures OccursAt(s[p..e], t, lo - p)
  {
    forall m | 0 <= m < |t| ensures s[p..e][lo - p + m] == t[m] {
      assert t[m] == s[lo..lo + |t|][m];
    }
    assert s[p..e][lo - p..lo - p + |t|] == t;
  }

  /** Trimming keeps every character from the first to the last one that is
      not white space. */
  lemma {:induction false} TrimCovers(s: string, i: int, j: int) returns (p: int, e: int)
    requires 0 <= i < j <= |s| && !IsWhitespace(s[i]) && !IsWhitespace(s[j - 1])
    ensures 0 <= p <= i && j <= e <= |s| && Trim(s) == s[p..e]
  {
    p, e := TrimIsSlice(s);
  }

  /** A text that is not blank trims to a slice that starts and ends with
      something other than white space. */
  lemma {:induction false} TrimEnds(b: string) returns (pb: nat, eb: nat)
    requires !IsBlank(b)
    ensures pb < eb <= |b| && Trim(b) == b[pb..eb]
    ensures !IsWhitespace(b[pb]) && !IsWhitespace(b[eb - 1])
  {
    pb, eb := TrimIsSlice(b);
    var t := Trim(b);
    assert t != [];
    assert t[0] == b[pb] && t[|t| - 1] == b[eb - 1];
  }

  /** A piece of the right part stands unbroken in any slice of the whole
      that covers it. */
  lemma {:induction false} CoveredPiece(a: string, b: string, pb: nat, eb: nat, p: nat, e: nat)
    requires pb <= eb <= |b| && p <= |a| + pb && |a| + eb <= e <= |a| + |b|
    ensures OccursAt((a + b)[p..e], b[pb..eb], |a| + pb - p)
  {
    assert OccursAt(b, b[pb..eb], pb);
    OccursInAppend(a, b, b[pb..eb], pb);
    OccursInCoveringSlice(a + b, b[pb..eb], |a| + pb, p, e);
  }

  /** The trimmed follow-up stands unbroken inside the trimmed merged text. */
  lemma {:induction false} TrimmedPartInTrimmedWhole(a: string, b: string) returns (k: int)
    requires !IsBlank(b)
    ensures OccursAt(Trim(a + b), Trim(b), k)
  {
    var pb, eb := TrimEnds(b);
    var lo := |a| + pb;
    assert (a + b)[lo] == b[pb] && (a + b)[|a| + eb - 1] == b[eb - 1];
    var p, e := TrimCovers(a + b, lo, |a| + eb);
    CoveredPiece(a, b, pb, eb, p, e);
    k := lo - p;
  }

  /** Why the session router merges texts: once a follow-up carries a
      keyword, the merged text routes as a notification whatever came
      before it. */
  lemma {:induction false} KeywordInFollowUpRoutes(earlier: string, followUp: string, w: string)
    requires w in TimeTokens || w in Weekdays || w in Months
    requires Contains(LowerAscii(Trim(followUp)), w)
    ensures RouteIntent(earlier + " " + followUp).intent == Notification
  {
    var t := Trim(followUp);
    ContainsIffOccurs(LowerAscii(t), w);
    var j :| OccursAt(LowerAscii(t), w, j);
    assert |w| > 0;
    assert !IsBlank(followUp);
    var whole := earlier + " " + followUp;
    var k := TrimmedPartInTrimmedWhole(earlier + " ", followUp);
    OccursLower(Trim(whole), t, k);
    OccursTransitive(LowerAscii(Trim(whole)), LowerAscii(t), w, k, j);
    ContainsIffOccurs(LowerAscii(Trim(whole)), w);
    assert HasKeyword(LowerAscii(Trim(whole)));
    assert !IsBlank(whole);
  }

  /** "5pm" counts as a time; the "am" inside "spam" does not. */
  lemma AmPmWordExamples()
    ensures AmPmWord("call mom 5pm")
    ensures !AmPmWord("spam")
  {
    assert AmPmAt("call mom 5pm", 10);
    var s := "spam";
    assert !AmPmAt(s, 2);
    forall i | 0 <= i < |s| ensures !AmPmAt(s, i) {
      assert i == 0 || i == 1 || i == 2 || i == 3;
    }
  }
}
