/** The pure parts of the recommendation service (app/services/openai.server.ts):
    the variable sections of the prompt, and what is made of the model's answer.
    The completion call and `JSON.parse` are parameters. */
module OpenAIService {
  import opened Common
  import opened Text

  // ---- the prompt --------------------------------------------------------

  /** An element of `previousFeedback`. */
  datatype PastFeedback = PastFeedback(productTitle: string, rating: Option<int>, comments: Option<string>)

  /** An element of `availableProducts`. */
  datatype ProductInfo = ProductInfo(id: string, title: string, description: string, tags: seq<string>, productType: string)

  /** `fb.rating ? `${fb.rating}/5` : "Not rated"`: a rating of 0 is falsy. */
  function RatingText(rating: Option<int>): string {
    if rating.Some? && rating.value != 0 then IntText(rating.value) + "/5" else "Not rated"
  }

  /** The rating reads back from its text: "Not rated" exactly when there is no
      rating or it is 0, and otherwise the number before "/5" is the rating. */
  lemma RatingTextReadsBack(rating: Option<int>)
    ensures RatingText(rating) == "Not rated" <==> rating.None? || rating.value == 0
    ensures rating.Some? && rating.value != 0 ==>
      var s := RatingText(rating);
      |s| >= 2 && s[|s| - 2..] == "/5" && ParseInt(s[..|s| - 2]) == Some(rating.value)
  {
    if rating.Some? && rating.value != 0 {
      var s := RatingText(rating);
      var n := IntText(rating.value);
      assert s[..|s| - 2] == n;
      assert s[|s| - 2..] == "/5";
      IntTextRoundTrip(rating.value);
      assert ParseInt("Not rated"[..7]) == None by {
        assert !IsDigit("Not rated"[0]);
      }
    }
  }

  /** The lines of a numbered entry, as they appear in the prompt. */
  function FeedbackLines(k: nat, fb: PastFeedback): seq<string> {
    [NatText(k + 1) + ". " + fb.productTitle,
     "   Rating: " + RatingText(fb.rating),
     "   Comments: " + OrElse(fb.comments, "No comments")]
  }

  function ProductLines(k: nat, p: ProductInfo): seq<string> {
    [NatText(k + 1) + ". ID: " + p.id,
     "   Title: " + p.title,
     "   Description: " + p.description,
     "   Type: " + p.productType,
     "   Tags: " + Join(p.tags, ", ")]
  }

  function FeedbackEntries(list: seq<PastFeedback>): (r: seq<string>)
    ensures |r| == |list|
  {
    seq(|list|, k requires 0 <= k < |list| => Join(FeedbackLines(k, list[k]), "\n"))
  }

  function ProductEntries(list: seq<ProductInfo>): (r: seq<string>)
    ensures |r| == |list|
  {
    seq(|list|, k requires 0 <= k < |list| => Join(ProductLines(k, list[k]), "\n"))
  }

  const NO_FEEDBACK := "No previous feedback available (first box)"
  const FEEDBACK_HEADER := "PREVIOUS FEEDBACK:\n"

  /** The feedback section; `previousFeedback` defaults to []. */
  function FeedbackSection(previous: Option<seq<PastFeedback>>): string {
    var list := if previous.Some? then previous.value else [];
    if |list| > 0 then FEEDBACK_HEADER + Join(FeedbackEntries(list), "\n\n") else NO_FEEDBACK
  }

  /** The product section. */
  function ProductSection(products: seq<ProductInfo>): string {
    Join(ProductEntries(products), "\n\n")
  }

  /** The number in front of an entry's first line: the digits before the
      first ".". */
  function LeadingNumber(line: string): Option<int> {
    match IndexOf(line, '.')
    case None => None
    case Some(i) => ParseInt(line[..i])
  }

  lemma NumberReadsBack(k: nat, rest: string)
    ensures LeadingNumber(NatText(k + 1) + ". " + rest) == Some(k + 1)
  {
    var digits := NatText(k + 1);
    forall j | 0 <= j < |digits|
      ensures digits[j] != '.'
    {
      assert IsDigit(digits[j]);
    }
    assert digits + ". " + rest == digits + ['.'] + (" " + rest);
    IndexOfAfterPart(digits, '.', " " + rest);
    assert (digits + ". " + rest)[..|digits|] == digits;
    IntTextRoundTrip(k + 1);
  }

  /** The feedback section is the fixed line exactly when the list is absent
      or empty, and otherwise begins with the section header. */
  lemma FeedbackSectionShape(previous: Option<seq<PastFeedback>>)
    ensures FeedbackSection(previous) == NO_FEEDBACK <==> previous.None? || |previous.value| == 0
    ensures previous.Some? && |previous.value| > 0 ==> StartsWith(FeedbackSection(previous), FEEDBACK_HEADER)
  {
    var s := FeedbackSection(previous);
    if previous.Some? && |previous.value| > 0 {
      assert s[..|FEEDBACK_HEADER|] == FEEDBACK_HEADER;
      assert s[|FEEDBACK_HEADER| - 1] == '\n';
      assert NO_FEEDBACK[|FEEDBACK_HEADER| - 1] != '\n';
      assert s != NO_FEEDBACK;
    }
  }

  ghost predicate NoBreak(s: string) {
    forall j :: 0 <= j < |s| ==> s[j] != '\n'
  }

  lemma LinesWithoutBreaks(lines: seq<string>)
    requires |lines| >= 1
    requires forall j :: 0 <= j < |lines| ==> NoBreak(lines[j])
    ensures Split(Join(lines, "\n"), '\n') == lines
  {
    SplitJoin(lines, '\n');
  }

  lemma PrefixedNoBreak(prefix: string, value: string)
    requires NoBreak(prefix) && NoBreak(value)
    ensures NoBreak(prefix + value)
  {
    forall j | 0 <= j < |prefix + value|
      ensures (prefix + value)[j] != '\n'
    {
      if j >= |prefix| {
        assert (prefix + value)[j] == value[j - |prefix|];
      }
    }
  }

  lemma NumberedNoBreak(k: nat, sep: string, value: string)
    requires NoBreak(sep) && NoBreak(value)
    ensures NoBreak(NatText(k + 1) + sep + value)
  {
    var digits := NatText(k + 1);
    forall j | 0 <= j < |digits|
      ensures digits[j] != '\n'
    {
      assert IsDigit(digits[j]);
    }
    PrefixedNoBreak(digits, sep);
    PrefixedNoBreak(digits + sep, value);
  }

  lemma {:induction false} RatingNoBreak(rating: Option<int>)
    ensures NoBreak(RatingText(rating))
  {
    if rating.Some? && rating.value != 0 {
      var n := IntText(rating.value);
      if rating.value < 0 {
        assert n == "-" + NatText(-rating.value);
      }
      forall j | 0 <= j < |n|
        ensures n[j] != '\n'
      {
        if rating.value >= 0 {
          assert IsDigit(n[j]);
        } else if j > 0 {
          assert n[j] == NatText(-rating.value)[j - 1];
          assert IsDigit(n[j]);
        }
      }
      PrefixedNoBreak(n, "/5");
    }
  }

  /** With no line break in the title or comments, a feedback entry splits back
      into its three lines: the first reads back its 1-based position, the
      others carry the rating text and the comments ("No comments" when
      missing or empty). */
  lemma FeedbackEntryReadsBack(list: seq<PastFeedback>, k: nat)
    requires k < |list|
    requires NoBreak(list[k].productTitle) && (list[k].comments.Some? ==> NoBreak(list[k].comments.value))
    ensures Split(FeedbackEntries(list)[k], '\n') == FeedbackLines(k, list[k])
    ensures LeadingNumber(FeedbackLines(k, list[k])[0]) == Some(k + 1)
    ensures FeedbackLines(k, list[k])[1] == "   Rating: " + RatingText(list[k].rating)
    ensures FeedbackLines(k, list[k])[2] ==
      "   Comments: " + (if Truthy(list[k].comments) then list[k].comments.value else "No comments")
  {
    var fb := list[k];
    var lines := FeedbackLines(k, fb);
    NumberedNoBreak(k, ". ", fb.productTitle);
    RatingNoBreak(fb.rating);
    PrefixedNoBreak("   Rating: ", RatingText(fb.rating));
    PrefixedNoBreak("   Comments: ", OrElse(fb.comments, "No comments"));
    LinesWithoutBreaks(lines);
    NumberReadsBack(k, fb.productTitle);
  }

  /** With no line break in its fields, a product entry splits back into its
      five lines, and its first line reads back its 1-based position. */
  lemma ProductEntryReadsBack(list: seq<ProductInfo>, k: nat)
    requires k < |list|
    requires NoBreak(list[k].id) && NoBreak(list[k].title) && NoBreak(list[k].description)
    requires NoBreak(list[k].productType) && NoBreak(Join(list[k].tags, ", "))
    ensures Split(ProductEntries(list)[k], '\n') == ProductLines(k, list[k])
    ensures LeadingNumber(ProductLines(k, list[k])[0]) == Some(k + 1)
  {
    var p := list[k];
    var lines := ProductLines(k, p);
    NumberedNoBreak(k, ". ID: ", p.id);
    PrefixedNoBreak("   Title: ", p.title);
    PrefixedNoBreak("   Description: ", p.description);
    PrefixedNoBreak("   Type: ", p.productType);
    PrefixedNoBreak("   Tags: ", Join(p.tags, ", "));
    LinesWithoutBreaks(lines);
    assert NatText(k + 1) + ". ID: " + p.id == NatText(k + 1) + ". " + ("ID: " + p.id);
    NumberReadsBack(k, "ID: " + p.id);
  }

  /** The fields of a past feedback that end up on a line of the prompt hold no
      line break. */
  ghost predicate SingleLineFeedback(fb: PastFeedback) {
    NoBreak(fb.productTitle) && (fb.comments.Some? ==> NoBreak(fb.comments.value))
  }

  ghost predicate SingleLineProduct(p: ProductInfo) {
    && NoBreak(p.id) && NoBreak(p.title) && NoBreak(p.description)
    && NoBreak(p.productType) && NoBreak(Join(p.tags, ", "))
  }

  /** Every line of the blocks of a list of line groups without breaks is
      itself without a break. */
  lemma BlocksWithoutBreaks(groups: seq<seq<string>>)
    requires forall i, j :: 0 <= i < |groups| && 0 <= j < |groups[i]| ==> NoBreak(groups[i][j])
    ensures forall j, k :: 0 <= j < |Blocks(groups)| && 0 <= k < |Blocks(groups)[j]| ==> Blocks(groups)[j][k] != '\n'
  {
    forall j | 0 <= j < |Blocks(groups)|
      ensures NoBreak(Blocks(groups)[j])
    {
      BlocksLines(groups, j);
    }
  }

  /** The product section, split into lines, is each product's five lines in
      order, with one empty line between neighbouring products. */
  lemma ProductSectionReadsBack(list: seq<ProductInfo>)
    requires |list| >= 1
    requires forall k :: 0 <= k < |list| ==> SingleLineProduct(list[k])
    ensures Split(ProductSection(list), '\n') ==
      Blocks(seq(|list|, k requires 0 <= k < |list| => ProductLines(k, list[k])))
  {
    var groups := seq(|list|, k requires 0 <= k < |list| => ProductLines(k, list[k]));
    forall i, j | 0 <= i < |groups| && 0 <= j < |groups[i]|
      ensures NoBreak(groups[i][j])
    {
      var p := list[i];
      NumberedNoBreak(i, ". ID: ", p.id);
      PrefixedNoBreak("   Title: ", p.title);
      PrefixedNoBreak("   Description: ", p.description);
      PrefixedNoBreak("   Type: ", p.productType);
      PrefixedNoBreak("   Tags: ", Join(p.tags, ", "));
    }
    JoinBlocks(ProductEntries(list), groups, '\n');
    BlocksWithoutBreaks(groups);
    SplitJoin(Blocks(groups), '\n');
  }

  /** The lines of past feedback without breaks in their fields hold no break. */
  lemma FeedbackGroupsWithoutBreaks(list: seq<PastFeedback>)
    requires forall k :: 0 <= k < |list| ==> SingleLineFeedback(list[k])
    ensures forall i, j :: 0 <= i < |list| && 0 <= j < |FeedbackLines(i, list[i])| ==>
      NoBreak(FeedbackLines(i, list[i])[j])
  {
    forall i | 0 <= i < |list|
      ensures forall j :: 0 <= j < |FeedbackLines(i, list[i])| ==> NoBreak(FeedbackLines(i, list[i])[j])
    {
      var fb := list[i];
      NumberedNoBreak(i, ". ", fb.productTitle);
      RatingNoBreak(fb.rating);
      PrefixedNoBreak("   Rating: ", RatingText(fb.rating));
      PrefixedNoBreak("   Comments: ", OrElse(fb.comments, "No comments"));
    }
  }

  /** A line followed by the join of a non-empty list is the join of both. */
  lemma JoinAfterHeader(head: string, rest: seq<string>)
    requires |rest| >= 1
    ensures head + "\n" + Join(rest, "\n") == Join([head] + rest, "\n")
  {
    JoinAppend([head], rest, "\n");
  }

  /** A non-empty feedback section, split into lines, is the header line and
      then each item's three lines in order, with one empty line between
      neighbouring items. */
  lemma FeedbackSectionReadsBack(list: seq<PastFeedback>)
    requires |list| >= 1
    requires forall k :: 0 <= k < |list| ==> SingleLineFeedback(list[k])
    ensures Split(FeedbackSection(Some(list)), '\n') ==
      ["PREVIOUS FEEDBACK:"] + Blocks(seq(|list|, k requires 0 <= k < |list| => FeedbackLines(k, list[k])))
  {
    var groups := seq(|list|, k requires 0 <= k < |list| => FeedbackLines(k, list[k]));
    FeedbackGroupsWithoutBreaks(list);
    JoinBlocks(FeedbackEntries(list), groups, '\n');
    var body := Blocks(groups);
    assert FeedbackSection(Some(list)) == "PREVIOUS FEEDBACK:" + "\n" + Join(body, "\n");
    JoinAfterHeader("PREVIOUS FEEDBACK:", body);
    BlocksWithoutBreaks(groups);
    var lines := ["PREVIOUS FEEDBACK:"] + body;
    assert forall j :: 1 <= j < |lines| ==> lines[j] == body[j - 1];
    SplitJoin(lines, '\n');
  }

  // ---- the answer --------------------------------------------------------

  /** The text from the first "[" through the last "]", when some "[" has a
      "]" after it (`/\[[\s\S]*\]/`); otherwise the whole text. */
  function ExtractArray(text: string): (r: string)
    ensures |r| <= |text|
  {
    match (IndexOf(text, '['), LastIndexOf(text, ']'))
    case (Some(i), Some(j)) => if i < j then text[i..j + 1] else text
    case _ => text
  }

  /** A "[" before a "]": the span runs from the first "[" to the last "]". */
  lemma ExtractSpan(text: string, a: nat, b: nat)
    requires a < b < |text| && text[a] == '[' && text[b] == ']'
    ensures IndexOf(text, '[').Some? && LastIndexOf(text, ']').Some?
    ensures
      var i, j := IndexOf(text, '[').value, LastIndexOf(text, ']').value;
      && i <= a < b <= j
      && ExtractArray(text) == text[i..j + 1]
  {
    IndexOfAtMost(text, '[', a);
    LastIndexOfAtLeast(text, ']', b);
  }

  /** The span itself has its first "[" at the start and its last "]" at the
      end, so extracting from it gives it back. */
  lemma ExtractFromSpan(r: string)
    requires |r| >= 2 && r[0] == '[' && r[|r| - 1] == ']'
    ensures ExtractArray(r) == r
  {
    assert IndexOf(r, '[') == Some(0);
    assert LastIndexOf(r, ']') == Some(|r| - 1);
  }

  /** Some "[" has a "]" somewhere after it. */
  ghost predicate HasSpan(text: string) {
    exists i, j :: 0 <= i < j < |text| && text[i] == '[' && text[j] == ']'
  }

  /** There is a "[" before a "]" exactly when the first "[" comes before the
      last "]". */
  lemma SpanFound(text: string)
    ensures HasSpan(text) <==>
      IndexOf(text, '[').Some? && LastIndexOf(text, ']').Some? &&
      IndexOf(text, '[').value < LastIndexOf(text, ']').value
  {
    var fi, lj := IndexOf(text, '['), LastIndexOf(text, ']');
    if fi.Some? && lj.Some? && fi.value < lj.value {
      assert text[fi.value] == '[' && text[lj.value] == ']';
    }
    if HasSpan(text) {
      var a, b :| 0 <= a < b < |text| && text[a] == '[' && text[b] == ']';
      ExtractSpan(text, a, b);
    }
  }

  /** With the first "[" before the last "]", the span between them is parsed;
      it is bracketed at both ends and extracting from it changes nothing. */
  lemma ExtractWithSpan(text: string, i: nat, j: nat)
    requires IndexOf(text, '[') == Some(i) && LastIndexOf(text, ']') == Some(j) && i < j
    ensures ExtractArray(text) == text[i..j + 1]
    ensures ExtractArray(text)[0] == '[' && ExtractArray(text)[|ExtractArray(text)| - 1] == ']'
    ensures ExtractArray(ExtractArray(text)) == ExtractArray(text)
  {
    var r := text[i..j + 1];
    assert r[0] == text[i] && r[|r| - 1] == text[j];
    ExtractFromSpan(r);
  }

  /** Extraction in terms of the text: when there is a "[" before a "]", the
      result is the span from the first "[" to the last "]", which begins with
      "[" and ends with "]"; otherwise it is the text itself. Extracting again
      changes nothing. */
  lemma ExtractArraySpec(text: string)
    ensures HasSpan(text) ==>
      && IndexOf(text, '[').Some? && LastIndexOf(text, ']').Some?
      && var i, j := IndexOf(text, '[').value, LastIndexOf(text, ']').value;
      && i < j
      && ExtractArray(text) == text[i..j + 1]
      && ExtractArray(text)[0] == '[' && ExtractArray(text)[|ExtractArray(text)| - 1] == ']'
    ensures !HasSpan(text) ==> ExtractArray(text) == text
    ensures ExtractArray(ExtractArray(text)) == ExtractArray(text)
  {
    SpanFound(text);
    if HasSpan(text) {
      ExtractWithSpan(text, IndexOf(text, '[').value, LastIndexOf(text, ']').value);
    }
  }

  datatype Recommendation = Recommendation(productId: string, productTitle: string, reasoning: string)

  /** The completion call: it throws, or answers with
      `choices[0]?.message?.content`, which may be missing. */
  datatype Completion = CompletionThrew | Answered(content: Option<string>)

  datatype Recommended =
    | Recommendations(recommendations: seq<Recommendation>, fullResponse: string)
    | RecommendationError(message: string)

  const GENERATION_FAILED := "Failed to generate product recommendations"

  /** `completion.choices[0]?.message?.content || "[]"` */
  function ResponseText(content: Option<string>): string {
    OrElse(content, "[]")
  }

  /** The tail of `getProductRecommendations`: extract, parse, and wrap.
      `parse` is `JSON.parse` read as a list of recommendations (None when it
      throws); every failure surfaces as the outer error. */
  function Recommend(completion: Completion, parse: string -> Option<seq<Recommendation>>): (r: Recommended)
    ensures r.RecommendationError? ==> r.message == GENERATION_FAILED
  {
    match completion
    case CompletionThrew => RecommendationError(GENERATION_FAILED)
    case Answered(content) =>
      var text := ResponseText(content);
      match parse(ExtractArray(text))
      case None => RecommendationError(GENERATION_FAILED)
      case Some(recs) => Recommendations(recs, text)
  }

  /** The answer in terms of the model's text: `fullResponse` is that text
      ("[]" when the content is missing or empty), the recommendations are what
      its bracketed span parses to, and the call fails exactly when the
      completion throws or the span does not parse. With a parser that reads
      "[]" as the empty list, a missing content gives no recommendations. */
  lemma RecommendSpec(completion: Completion, parse: string -> Option<seq<Recommendation>>)
    ensures Recommend(completion, parse).RecommendationError? <==>
      completion.CompletionThrew? || parse(ExtractArray(ResponseText(completion.content))).None?
    ensures completion.Answered? && Recommend(completion, parse).Recommendations? ==>
      var text := if Truthy(completion.content) then completion.content.value else "[]";
      && Recommend(completion, parse).fullResponse == text
      && Some(Recommend(completion, parse).recommendations) == parse(ExtractArray(text))
    ensures completion.Answered? && !Truthy(completion.content) && parse("[]") == Some([]) ==>
      Recommend(completion, parse) == Recommendations([], "[]")
  {
    if completion.Answered? && !Truthy(completion.content) {
      assert "[]"[0] == '[' && "[]"[1] == ']';
      ExtractFromSpan("[]");
    }
  }
}
