/** `build_prompt`: the article request rendered as one instruction text.

    The source writes the prompt as one triple-quoted f-string.  Here the
    f-string is the list of its physical lines, grouped by the section they
    belong to, each line with its placeholders filled in; the lines are
    joined by newlines, the newline after the opening quotes and the one
    before the closing quotes are put around them, and the whole is
    stripped.  Two lines of the f-string are placeholders whose values span
    several lines themselves: the outline block and the optional
    "Output Order" items.

    Literals longer than about thirty characters are written as a
    concatenation of shorter pieces; the text is the same. */
module PromptBuilder {
  import opened Text
  import opened Models

  const Opening := "You are a senior content " + "strategist and expert writer."
  const WritePrefix := "Write a comprehensive, " + "well-structured article in "

  const OutlineIntro := "Include a clear outline " + "before the main content."
  const OutlineH1 := "- H1 title"
  const OutlineSections := "- 5\U{2013}8 H2 sections with " + "concise H3s where helpful"
  const SkipOutline := "Skip the outline; start " + "directly with the article."

  const FullArticleItem := "2) Full article in Markdown"
  const SeoOrderItem := "3) SEO Block"
  const ReferencesOrderItem := "4) References"

  const SeoBlockIntro := "After the article, output " + "an SEO block with:"
  const SeoTitleItem := "- SEO Title (\U{2264} 60 chars)"
  const MetaDescriptionItem := "- Meta Description " + "(\U{2264} 155 chars)"
  const SeoKeywordsItem := "- 8\U{2013}12 SEO Keywords " + "(comma-separated)"
  const ReferencesRequest := "Add a short 'References' " + "section with 3\U{2013}5 plausible "
                             + "sources (titles only, " + "no links)."

  /** The keyword list as it appears on the "Primary Keywords" line. */
  function KeywordText(keywords: seq<string>): string
  {
    if |keywords| > 0 then Join(keywords, ", ") else "N/A"
  }

  /** `outline_block`: the outline instructions, or the sentence that skips them. */
  function OutlineBlock(enabled: bool): string
  {
    if enabled then OutlineIntro + "\n" + OutlineH1 + "\n" + OutlineSections + "\n"
    else SkipOutline + "\n"
  }

  /** `seo_block`.  The source computes it but never puts it into the prompt. */
  function SeoBlock(enabled: bool): string
  {
    if enabled then
      SeoBlockIntro + "\n" + SeoTitleItem + "\n" + MetaDescriptionItem + "\n" + SeoKeywordsItem + "\n"
    else ""
  }

  /** `refs_block`.  The source computes it but never puts it into the prompt. */
  function ReferencesBlock(enabled: bool): string
  {
    if enabled then ReferencesRequest + "\n" else ""
  }

  /** The value of the "Output Order" placeholder line: items 3 and 4, each
      present only when requested, with their numbers written out. */
  function OrderItems(seo: bool, references: bool): string
  {
    (if seo then SeoOrderItem + "\n" else "") + (if references then ReferencesOrderItem + "\n" else "")
  }

  /** The role sentence and the "Goal" heading. */
  const RoleLines: seq<string> := [Opening, "", "Goal", "-----"]

  /** The goal: language, topic, audience, tone, level, length and keywords. */
  function BriefLines(req: ArticleRequest): seq<string>
  {
    [ WritePrefix + req.language + " for the topic:",
      "\"" + req.topic + "\"",
      "",
      "Audience: " + req.audience,
      "Tone/Voice: " + req.tone,
      "Reading Level: " + req.readingLevel,
      "Target Length: ~" + DecimalString(req.targetWords) + " words",
      "Primary Keywords: " + KeywordText(req.keywords) ]
  }

  const StyleHeading: seq<string> := ["", "Structure & Style", "-----------------"]

  const MarkdownRule := "- Use Markdown formatting."
  const ScanningRule := "- Use scannable headings, " + "short paragraphs, and bullet " + "lists where helpful."
  const ExamplesRule := "- Provide concrete examples " + "and actionable tips."
  const FluffRule := "- Avoid fluff; keep it " + "factual and clear."
  const KeywordUsageRule := "- Natural keyword usage; " + "avoid keyword stuffing."

  const StyleRules: seq<string> := [MarkdownRule, ScanningRule, ExamplesRule, FluffRule, KeywordUsageRule, ""]

  const HookRule := "- Strong hook and crisp " + "thesis in intro."
  const CoverageRule := "- Each H2 should fully " + "cover one major point."
  const ComparisonsRule := "- Add comparisons, pros/cons, " + "pitfalls, or checklists " + "where useful."
  const ConclusionRule := "- Conclude with practical " + "summary or next steps."

  const ContentRules: seq<string> := [
    "Content Requirements", "--------------------", HookRule, CoverageRule, ComparisonsRule, ConclusionRule, "" ]

  const OrderHeading: seq<string> := [
    "Output Order",
    "------------",
    "1) Outline (if requested)",
    FullArticleItem ]

  const ClosingLines: seq<string> := ["", "Extra Instructions", "------------------"]

  /** The f-string lines before the outline block. */
  function BriefSection(req: ArticleRequest): seq<string>
  {
    RoleLines + BriefLines(req) + StyleHeading
  }

  /** The fixed f-string lines between the outline block and the optional order items. */
  const GuideLines: seq<string> := StyleRules + ContentRules + OrderHeading

  /** The f-string lines from the outline block on, up to the extra instructions. */
  function TailLines(seo: bool, references: bool): seq<string>
  {
    GuideLines + [OrderItems(seo, references)] + ClosingLines
  }

  /** Every f-string line before the extra instructions. */
  function HeadLines(req: ArticleRequest): seq<string>
  {
    BriefSection(req) + [OutlineBlock(req.includeOutline)] + TailLines(req.includeSeo, req.includeReferences)
  }

  /** The text of the f-string before `.strip()` is applied. */
  function RawPrompt(req: ArticleRequest): string
  {
    "\n" + Join(HeadLines(req) + [req.extraInstructions], "\n") + "\n"
  }

  /** `build_prompt(req)`: free of whitespace at both ends. */
  function BuildPrompt(req: ArticleRequest): (prompt: string)
    ensures Stripped(prompt)
  {
    Strip(RawPrompt(req))
  }

  /** What of the extra instructions survives the final strip. */
  function ExtraSection(extra: string): string
  {
    if Blank(extra) then "" else "\n" + TrimRight(extra)
  }

  // ---------- shape of the prompt ----------

  lemma JoinAround(a: seq<string>, x: string, b: seq<string>, sep: string)
    requires a != [] && b != []
    ensures Join(a + [x] + b, sep) == Join(a, sep) + sep + x + sep + Join(b, sep)
  {
    JoinAppend(a + [x], b, sep);
    JoinAppend(a, [x], sep);
  }

  lemma HeadEnds(req: ArticleRequest)
    ensures var head := Join(HeadLines(req), "\n");
      head != [] && head[0] == 'Y' && head[|head| - 1] == '-'
  {
    var lines := HeadLines(req);
    assert lines[0] == Opening;
    assert Opening[0] == 'Y';
    JoinFirst(lines, "\n");
    assert lines[|lines| - 1] == "------------------";
    JoinLast(lines, "\n");
  }

  /** The stripped prompt is every line before the extra instructions, then
      the extra instructions with trailing whitespace removed, on a line of
      their own; when they are blank, nothing follows the last rule line. */
  lemma PromptShape(req: ArticleRequest)
    ensures BuildPrompt(req) == Join(HeadLines(req), "\n") + ExtraSection(req.extraInstructions)
  {
    HeadEnds(req);
    StripFramedLines(HeadLines(req), req.extraInstructions);
  }


  /** The prompt opens with the role sentence on a line of its own. */
  lemma PromptOpening(req: ArticleRequest)
    ensures StartsWith(BuildPrompt(req), Opening + "\n")
  {
    PromptShape(req);
    HeadLinesOpen(req);
    JoinOpensWith(HeadLines(req), Opening, ExtraSection(req.extraInstructions));
  }

  lemma HeadLinesOpen(req: ArticleRequest)
    ensures |HeadLines(req)| >= 2 && HeadLines(req)[0] == Opening
  {
  }

  lemma JoinOpensWith(lines: seq<string>, first: string, rest: string)
    requires |lines| >= 2 && lines[0] == first
    ensures StartsWith(Join(lines, "\n") + rest, first + "\n")
  {
    JoinStartsWith(lines, "\n");
    StartsWithExtend(Join(lines, "\n"), first + "\n", rest);
  }

  lemma HeadLineInPrompt(req: ArticleRequest, k: nat)
    requires k < |HeadLines(req)|
    ensures Contains(BuildPrompt(req), HeadLines(req)[k])
  {
    var lines := HeadLines(req);
    PromptShape(req);
    JoinContainsPart(lines, "\n", k);
    ContainsInPrefix(BuildPrompt(req), Join(lines, "\n"), ExtraSection(req.extraInstructions), lines[k]);
  }

  lemma BriefLineInPrompt(req: ArticleRequest, j: nat)
    requires j < |BriefLines(req)|
    ensures Contains(BuildPrompt(req), BriefLines(req)[j])
  {
    var brief, outline := BriefSection(req), [OutlineBlock(req.includeOutline)];
    var k := |RoleLines| + j;
    IndexAfter(RoleLines, BriefLines(req), j);
    IndexBefore(RoleLines + BriefLines(req), StyleHeading, k);
    IndexBefore(brief, outline, k);
    IndexBefore(brief + outline, TailLines(req.includeSeo, req.includeReferences), k);
    HeadLineInPrompt(req, k);
  }

  lemma IndexBefore(a: seq<string>, b: seq<string>, i: nat)
    requires i < |a|
    ensures (a + b)[i] == a[i]
  {
  }

  lemma IndexAfter(a: seq<string>, b: seq<string>, j: nat)
    requires j < |b|
    ensures (a + b)[|a| + j] == b[j]
  {
  }

  /** Every request field appears unescaped on its labelled line. */
  lemma FieldsVerbatim(req: ArticleRequest)
    ensures Contains(BuildPrompt(req), WritePrefix + req.language + " for the topic:")
    ensures Contains(BuildPrompt(req), "\"" + req.topic + "\"")
    ensures Contains(BuildPrompt(req), "Audience: " + req.audience)
    ensures Contains(BuildPrompt(req), "Tone/Voice: " + req.tone)
    ensures Contains(BuildPrompt(req), "Reading Level: " + req.readingLevel)
    ensures Contains(BuildPrompt(req), "Target Length: ~" + DecimalString(req.targetWords) + " words")
    ensures Contains(BuildPrompt(req), "Primary Keywords: " + KeywordText(req.keywords))
  {
    BriefLineInPrompt(req, 0);
    BriefLineInPrompt(req, 1);
    BriefLineInPrompt(req, 3);
    BriefLineInPrompt(req, 4);
    BriefLineInPrompt(req, 5);
    BriefLineInPrompt(req, 6);
    BriefLineInPrompt(req, 7);
  }

  lemma ClosingHeading()
    ensures "\n" + "Extra Instructions" + "\n" == "\nExtra Instructions\n"
  {
  }

  lemma ClosingText()
    ensures Join(ClosingLines, "\n") == "\nExtra Instructions\n" + "------------------"
  {
    var h := "Extra Instructions";
    var r := "------------------";
    assert Join(ClosingLines[2..], "\n") == r;
    assert Join(ClosingLines[1..], "\n") == h + "\n" + r;
    assert Join(ClosingLines, "\n") == "" + "\n" + (h + "\n" + r);
    ClosingHeading();
  }

  lemma EndsBeforeEmpty(p: string, a: string, b: string, e: string)
    requires p == a + b + e && e == ""
    ensures EndsWith(p, b)
  {
    assert p == a + b;
    EndsWithParts(p, a, b);
  }

  lemma BlankExtraEnding(req: ArticleRequest)
    requires Blank(req.extraInstructions)
    ensures EndsWith(BuildPrompt(req), "\nExtra Instructions\n" + "------------------")
  {
    OrderSlot(req);
    ClosingText();
    EndsBeforeEmpty(BuildPrompt(req),
      Join(BriefSection(req), "\n") + "\n" + OutlineBlock(req.includeOutline) + "\n" + Join(GuideLines, "\n") + "\n"
        + OrderItems(req.includeSeo, req.includeReferences) + "\n",
      Join(ClosingLines, "\n"), ExtraSection(req.extraInstructions));
  }

  /** The extra instructions close the prompt, with trailing whitespace
      removed; when they are blank the prompt ends with the heading above them. */
  lemma ExtraInstructionsLast(req: ArticleRequest)
    ensures !Blank(req.extraInstructions) ==> EndsWith(BuildPrompt(req), "\n" + TrimRight(req.extraInstructions))
    ensures Stripped(req.extraInstructions) && req.extraInstructions != [] ==>
              EndsWith(BuildPrompt(req), "\n" + req.extraInstructions)
    ensures Blank(req.extraInstructions) ==> EndsWith(BuildPrompt(req), "\nExtra Instructions\n" + "------------------")
  {
    var e := req.extraInstructions;
    if Blank(e) {
      BlankExtraEnding(req);
    } else {
      PromptShape(req);
      EndsWithParts(BuildPrompt(req), Join(HeadLines(req), "\n"), "\n" + TrimRight(e));
      if Stripped(e) {
        TrimRightOfStripped(e);
      }
    }
  }

  /** The keyword line reads N/A exactly when there are no keywords or the
      only keyword is itself N/A; otherwise it lists the keywords in order. */
  lemma KeywordTextNotApplicable(keywords: seq<string>)
    ensures KeywordText(keywords) == "N/A" <==> keywords == [] || keywords == ["N/A"]
    ensures keywords != [] ==> KeywordText(keywords) == Join(keywords, ", ")
  {
    if |keywords| >= 2 {
      var j := KeywordText(keywords);
      assert j == keywords[0] + ", " + Join(keywords[1..], ", ");
      assert j[|keywords[0]|] == ',';
    }
  }

  // ---------- where the flags act ----------

  /** The prompt around the outline block and around the optional order items. */
  lemma PromptSlots(req: ArticleRequest)
    ensures BuildPrompt(req) ==
      Join(BriefSection(req), "\n") + "\n" + OutlineBlock(req.includeOutline) + "\n"
      + Join(TailLines(req.includeSeo, req.includeReferences), "\n") + ExtraSection(req.extraInstructions)
    ensures Join(TailLines(req.includeSeo, req.includeReferences), "\n") ==
      Join(GuideLines, "\n") + "\n" + OrderItems(req.includeSeo, req.includeReferences) + "\n" + Join(ClosingLines, "\n")
  {
    PromptShape(req);
    JoinAround(BriefSection(req), OutlineBlock(req.includeOutline), TailLines(req.includeSeo, req.includeReferences), "\n");
    JoinAround(GuideLines, OrderItems(req.includeSeo, req.includeReferences), ClosingLines, "\n");
  }

  lemma Regroup(pre: string, jt: string, e: string, jg: string, oi: string, jc: string)
    requires jt == jg + "\n" + oi + "\n" + jc
    ensures pre + jt + e == pre + jg + "\n" + oi + "\n" + jc + e
  {
  }

  lemma OrderSlot(req: ArticleRequest)
    ensures BuildPrompt(req) ==
      Join(BriefSection(req), "\n") + "\n" + OutlineBlock(req.includeOutline) + "\n" + Join(GuideLines, "\n") + "\n"
      + OrderItems(req.includeSeo, req.includeReferences)
      + "\n" + Join(ClosingLines, "\n") + ExtraSection(req.extraInstructions)
  {
    PromptSlots(req);
    Regroup(Join(BriefSection(req), "\n") + "\n" + OutlineBlock(req.includeOutline) + "\n",
      Join(TailLines(req.includeSeo, req.includeReferences), "\n"), ExtraSection(req.extraInstructions),
      Join(GuideLines, "\n"), OrderItems(req.includeSeo, req.includeReferences), Join(ClosingLines, "\n"));
  }

  lemma SplitAround(p: string, a: string, x: string, jt: string, e: string)
    requires p == a + "\n" + x + "\n" + jt + e
    ensures p == (a + "\n") + x + ("\n" + jt + e)
  {
  }

  /** The prompt with the outline flag set to `outline`, around its outline block. */
  lemma OutlineSlotWith(req: ArticleRequest, outline: bool)
    ensures BuildPrompt(req.(includeOutline := outline)) ==
      (Join(BriefSection(req), "\n") + "\n") + OutlineBlock(outline)
      + ("\n" + Join(TailLines(req.includeSeo, req.includeReferences), "\n") + ExtraSection(req.extraInstructions))
  {
    var r := req.(includeOutline := outline);
    PromptSlots(r);
    assert BriefSection(r) == BriefSection(req);
    SplitAround(BuildPrompt(r), Join(BriefSection(req), "\n"), OutlineBlock(outline),
      Join(TailLines(req.includeSeo, req.includeReferences), "\n"), ExtraSection(req.extraInstructions));
  }

  lemma OutlineSlot(req: ArticleRequest) returns (before: string, after: string)
    ensures BuildPrompt(req.(includeOutline := true)) == before + OutlineBlock(true) + after
    ensures BuildPrompt(req.(includeOutline := false)) == before + OutlineBlock(false) + after
  {
    before := Join(BriefSection(req), "\n") + "\n";
    after := "\n" + Join(TailLines(req.includeSeo, req.includeReferences), "\n") + ExtraSection(req.extraInstructions);
    OutlineSlotWith(req, true);
    OutlineSlotWith(req, false);
  }

  lemma InsertFirst(p: string, before: string, item: string, rest: string, jc: string, e: string)
    requires p == before + (item + "\n" + rest) + "\n" + jc + e
    ensures p == before + item + "\n" + (rest + ("\n" + jc + e))
  {
  }

  lemma InsertNoFirst(p: string, before: string, rest: string, jc: string, e: string)
    requires p == before + ("" + rest) + "\n" + jc + e
    ensures p == before + (rest + ("\n" + jc + e))
  {
  }

  lemma InsertSecond(p: string, front: string, first: string, item: string, jc: string, e: string)
    requires p == front + (first + (item + "\n")) + "\n" + jc + e
    ensures p == front + first + item + "\n" + ("\n" + jc + e)
  {
  }

  lemma InsertNoSecond(p: string, front: string, first: string, jc: string, e: string)
    requires p == front + (first + "") + "\n" + jc + e
    ensures p == front + first + ("\n" + jc + e)
  {
  }

  lemma SeoFlagOnlyAddsOrderItem(req: ArticleRequest) returns (before: string, after: string)
    ensures BuildPrompt(req.(includeSeo := true)) == before + SeoOrderItem + "\n" + after
    ensures BuildPrompt(req.(includeSeo := false)) == before + after
  {
    var refs := if req.includeReferences then ReferencesOrderItem + "\n" else "";
    var j := Join(BriefSection(req), "\n");
    var jc := Join(ClosingLines, "\n");
    var e := ExtraSection(req.extraInstructions);
    before := j + "\n" + OutlineBlock(req.includeOutline) + "\n" + Join(GuideLines, "\n") + "\n";
    after := refs + ("\n" + jc + e);
    var r1 := req.(includeSeo := true);
    var r0 := req.(includeSeo := false);
    OrderSlot(r1);
    OrderSlot(r0);
    assert Join(BriefSection(r1), "\n") == j;
    assert Join(BriefSection(r0), "\n") == j;
    InsertFirst(BuildPrompt(r1), before, SeoOrderItem, refs, jc, e);
    InsertNoFirst(BuildPrompt(r0), before, refs, jc, e);
  }

  lemma ReferencesFlagOnlyAddsOrderItem(req: ArticleRequest) returns (before: string, after: string)
    ensures BuildPrompt(req.(includeReferences := true)) == before + ReferencesOrderItem + "\n" + after
    ensures BuildPrompt(req.(includeReferences := false)) == before + after
  {
    var seo := if req.includeSeo then SeoOrderItem + "\n" else "";
    var j := Join(BriefSection(req), "\n");
    var jc := Join(ClosingLines, "\n");
    var e := ExtraSection(req.extraInstructions);
    before := j + "\n" + OutlineBlock(req.includeOutline) + "\n" + Join(GuideLines, "\n") + "\n" + seo;
    after := "\n" + jc + e;
    var r1 := req.(includeReferences := true);
    var r0 := req.(includeReferences := false);
    OrderSlot(r1);
    OrderSlot(r0);
    assert Join(BriefSection(r1), "\n") == j;
    assert Join(BriefSection(r0), "\n") == j;
    var front := j + "\n" + OutlineBlock(req.includeOutline) + "\n" + Join(GuideLines, "\n") + "\n";
    InsertSecond(BuildPrompt(r1), front, seo, ReferencesOrderItem, jc, e);
    InsertNoSecond(BuildPrompt(r0), front, seo, jc, e);
  }

  lemma OrderContains(p: string, a: string, jg: string, g0: string, f: string, oi: string, jc: string, e: string)
    requires p == a + jg + "\n" + oi + "\n" + jc + e && jg == g0 + "\n" + f
    ensures Contains(p, f + "\n" + oi + "\n")
  {
    ContainsParts(p, a + g0 + "\n", f + "\n" + oi + "\n", jc + e);
  }

  lemma GuideLinesEnd()
    ensures Join(GuideLines, "\n") == Join(GuideLines[..|GuideLines| - 1], "\n") + "\n" + FullArticleItem
  {
    JoinSnoc(GuideLines, "\n");
    assert GuideLines[|GuideLines| - 1] == FullArticleItem;
  }

  /** The output order's item lines as they read in the prompt. */
  lemma OrderLinesText()
    ensures FullArticleItem + "\n" == "2) Full article in Markdown\n"
    ensures SeoOrderItem + "\n" == "3) SEO Block\n"
    ensures ReferencesOrderItem + "\n" + "\n" == "4) References\n\n"
  {
  }

  lemma ListingParts(a: string, b: string, c: string)
    ensures a + "\n" + (b + c) + "\n" == (a + "\n") + b + (c + "\n")
  {
  }

  lemma ReferencesOnlyListing()
    ensures FullArticleItem + "\n" + OrderItems(false, true) + "\n" == "2) Full article in Markdown\n" + "4) References\n\n"
  {
    assert OrderItems(false, true) == "" + (ReferencesOrderItem + "\n");
    ListingParts(FullArticleItem, "", ReferencesOrderItem + "\n");
    OrderLinesText();
  }

  lemma FullListing()
    ensures FullArticleItem + "\n" + OrderItems(true, true) + "\n" ==
      "2) Full article in Markdown\n" + "3) SEO Block\n" + "4) References\n\n"
  {
    assert OrderItems(true, true) == (SeoOrderItem + "\n") + (ReferencesOrderItem + "\n");
    ListingParts(FullArticleItem, SeoOrderItem + "\n", ReferencesOrderItem + "\n");
    OrderLinesText();
  }

  /** The output order lists item 2, then the requested optional items with
      their fixed numbers, then a blank line: item 4 keeps its number when
      item 3 is left out. */
  lemma OutputOrderSection(req: ArticleRequest)
    ensures Contains(BuildPrompt(req), FullArticleItem + "\n" + OrderItems(req.includeSeo, req.includeReferences) + "\n")
    ensures !req.includeSeo && req.includeReferences ==>
              Contains(BuildPrompt(req), "2) Full article in Markdown\n" + "4) References\n\n")
    ensures req.includeSeo && req.includeReferences ==>
              Contains(BuildPrompt(req), "2) Full article in Markdown\n" + "3) SEO Block\n" + "4) References\n\n")
  {
    OrderSlot(req);
    GuideLinesEnd();
    ReferencesOnlyListing();
    FullListing();
    OrderContains(BuildPrompt(req),
      Join(BriefSection(req), "\n") + "\n" + OutlineBlock(req.includeOutline) + "\n",
      Join(GuideLines, "\n"), Join(GuideLines[..|GuideLines| - 1], "\n"), FullArticleItem,
      OrderItems(req.includeSeo, req.includeReferences), Join(ClosingLines, "\n"), ExtraSection(req.extraInstructions));
  }
}
