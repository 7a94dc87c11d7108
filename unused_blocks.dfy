/** The two blocks `build_prompt` computes and then leaves unused.

    The SEO instructions and the references request are built from the
    request's flags, but neither is a placeholder of the prompt template.
    Each carries a character that no line of the template carries (the
    sign \U{2264} in the SEO block, the apostrophe in the references
    request), so neither can occur in a prompt whose fields are free of that
    character, whatever the flags. */
module UnusedBlocks {
  import opened Text
  import opened Models
  import opened PromptBuilder

  const LessOrEqual: char := '\U{2264}'
  const Apostrophe: char := '\''

  predicate Avoids(lines: seq<string>, c: char) {
    forall i :: 0 <= i < |lines| ==> c !in lines[i]
  }

  /** No text the user typed holds the character `c`. */
  predicate FieldsAvoid(req: ArticleRequest, c: char) {
    && c !in req.topic && c !in req.language && c !in req.audience && c !in req.tone
    && c !in req.readingLevel && c !in req.extraInstructions
    && forall i :: 0 <= i < |req.keywords| ==> c !in req.keywords[i]
  }

  /** No fixed text of the template holds the character `c`. */
  predicate TemplateAvoids(c: char) {
    GroupsAvoid(c) && SlotsAvoid(c) && TagsAvoid(c)
  }

  /** The fixed lines. */
  predicate GroupsAvoid(c: char) {
    Avoids(RoleLines, c) && Avoids(StyleHeading, c) && Avoids(GuideLines, c) && Avoids(ClosingLines, c)
  }

  /** The texts of the outline and order placeholders. */
  predicate SlotsAvoid(c: char) {
    c !in OutlineBlock(true) && c !in OutlineBlock(false) && c !in SeoOrderItem && c !in ReferencesOrderItem
  }

  /** The text around the fields on the goal lines, and what a number and a
      keyword list are written with. */
  predicate TagsAvoid(c: char) {
    LabelsAvoid(c) && FormatsAvoid(c)
  }

  predicate LabelsAvoid(c: char) {
    && c !in WritePrefix && c !in " for the topic:" && c !in "\"" && c !in "Audience: " && c !in "Tone/Voice: "
    && c !in "Reading Level: "
  }

  predicate FormatsAvoid(c: char) {
    && c !in "Target Length: ~" && c != '-' && !IsDigit(c) && c !in " words"
    && c !in "Primary Keywords: " && c !in ", " && c !in "N/A" && c != '\n'
  }

  lemma AvoidsAppend(a: seq<string>, b: seq<string>, c: char)
    requires Avoids(a, c) && Avoids(b, c)
    ensures Avoids(a + b, c)
  {
    forall i | 0 <= i < |a + b|
      ensures c !in (a + b)[i]
    {
      if i < |a| {
        assert (a + b)[i] == a[i];
      } else {
        assert (a + b)[i] == b[i - |a|];
      }
    }
  }

  // One lemma per long template text and marker: a text is unfolded into its
  // characters once, on its own, and the lemmas about groups of lines use the
  // results.

  lemma OpeningAvoidsLessOrEqual()
    ensures LessOrEqual !in Opening
  {
  }

  lemma OpeningAvoidsApostrophe()
    ensures Apostrophe !in Opening
  {
  }

  lemma WritePrefixAvoidsLessOrEqual()
    ensures LessOrEqual !in WritePrefix
  {
  }

  lemma WritePrefixAvoidsApostrophe()
    ensures Apostrophe !in WritePrefix
  {
  }

  lemma OutlineIntroAvoidsLessOrEqual()
    ensures LessOrEqual !in OutlineIntro
  {
  }

  lemma OutlineIntroAvoidsApostrophe()
    ensures Apostrophe !in OutlineIntro
  {
  }

  lemma OutlineSectionsAvoidsLessOrEqual()
    ensures LessOrEqual !in OutlineSections
  {
  }

  lemma OutlineSectionsAvoidsApostrophe()
    ensures Apostrophe !in OutlineSections
  {
  }

  lemma SkipOutlineAvoidsLessOrEqual()
    ensures LessOrEqual !in SkipOutline
  {
  }

  lemma SkipOutlineAvoidsApostrophe()
    ensures Apostrophe !in SkipOutline
  {
  }

  lemma ScanningRuleAvoidsLessOrEqual()
    ensures LessOrEqual !in ScanningRule
  {
  }

  lemma ScanningRuleAvoidsApostrophe()
    ensures Apostrophe !in ScanningRule
  {
  }

  lemma ExamplesRuleAvoidsLessOrEqual()
    ensures LessOrEqual !in ExamplesRule
  {
  }

  lemma ExamplesRuleAvoidsApostrophe()
    ensures Apostrophe !in ExamplesRule
  {
  }

  lemma FluffRuleAvoidsLessOrEqual()
    ensures LessOrEqual !in FluffRule
  {
  }

  lemma FluffRuleAvoidsApostrophe()
    ensures Apostrophe !in FluffRule
  {
  }

  lemma KeywordUsageRuleAvoidsLessOrEqual()
    ensures LessOrEqual !in KeywordUsageRule
  {
  }

  lemma KeywordUsageRuleAvoidsApostrophe()
    ensures Apostrophe !in KeywordUsageRule
  {
  }

  lemma HookRuleAvoidsLessOrEqual()
    ensures LessOrEqual !in HookRule
  {
  }

  lemma HookRuleAvoidsApostrophe()
    ensures Apostrophe !in HookRule
  {
  }

  lemma CoverageRuleAvoidsLessOrEqual()
    ensures LessOrEqual !in CoverageRule
  {
  }

  lemma CoverageRuleAvoidsApostrophe()
    ensures Apostrophe !in CoverageRule
  {
  }

  lemma ComparisonsRuleAvoidsLessOrEqual()
    ensures LessOrEqual !in ComparisonsRule
  {
  }

  lemma ComparisonsRuleAvoidsApostrophe()
    ensures Apostrophe !in ComparisonsRule
  {
  }

  lemma ConclusionRuleAvoidsLessOrEqual()
    ensures LessOrEqual !in ConclusionRule
  {
  }

  lemma ConclusionRuleAvoidsApostrophe()
    ensures Apostrophe !in ConclusionRule
  {
  }

  lemma RoleLinesAvoidLessOrEqual()
    ensures Avoids(RoleLines, LessOrEqual)
  {
    OpeningAvoidsLessOrEqual();
    assert LessOrEqual !in RoleLines[1];
    assert LessOrEqual !in RoleLines[2];
    assert LessOrEqual !in RoleLines[3];
  }

  lemma StyleHeadingAvoidLessOrEqual()
    ensures Avoids(StyleHeading, LessOrEqual)
  {
    assert LessOrEqual !in StyleHeading[0];
    assert LessOrEqual !in StyleHeading[1];
    assert LessOrEqual !in StyleHeading[2];
  }

  lemma StyleRulesAvoidLessOrEqual()
    ensures Avoids(StyleRules, LessOrEqual)
  {
    assert LessOrEqual !in MarkdownRule;
    ScanningRuleAvoidsLessOrEqual();
    ExamplesRuleAvoidsLessOrEqual();
    FluffRuleAvoidsLessOrEqual();
    KeywordUsageRuleAvoidsLessOrEqual();
  }

  lemma ContentRulesAvoidLessOrEqual()
    ensures Avoids(ContentRules, LessOrEqual)
  {
    assert LessOrEqual !in ContentRules[0];
    assert LessOrEqual !in ContentRules[1];
    HookRuleAvoidsLessOrEqual();
    CoverageRuleAvoidsLessOrEqual();
    ComparisonsRuleAvoidsLessOrEqual();
    ConclusionRuleAvoidsLessOrEqual();
  }

  lemma OrderHeadingAvoidLessOrEqual()
    ensures Avoids(OrderHeading, LessOrEqual)
  {
    assert LessOrEqual !in OrderHeading[0];
    assert LessOrEqual !in OrderHeading[1];
    assert LessOrEqual !in OrderHeading[2];
    assert LessOrEqual !in OrderHeading[3];
  }

  lemma ClosingLinesAvoidLessOrEqual()
    ensures Avoids(ClosingLines, LessOrEqual)
  {
    assert LessOrEqual !in ClosingLines[0];
    assert LessOrEqual !in ClosingLines[1];
    assert LessOrEqual !in ClosingLines[2];
  }

  lemma GuideLinesAvoidLessOrEqual()
    ensures Avoids(GuideLines, LessOrEqual)
  {
    StyleRulesAvoidLessOrEqual();
    ContentRulesAvoidLessOrEqual();
    OrderHeadingAvoidLessOrEqual();
    AvoidsAppend(StyleRules, ContentRules, LessOrEqual);
    AvoidsAppend(StyleRules + ContentRules, OrderHeading, LessOrEqual);
  }

  lemma GroupsAvoidLessOrEqual()
    ensures GroupsAvoid(LessOrEqual)
  {
    RoleLinesAvoidLessOrEqual();
    StyleHeadingAvoidLessOrEqual();
    GuideLinesAvoidLessOrEqual();
    ClosingLinesAvoidLessOrEqual();
  }

  lemma OutlineAvoidsLessOrEqual()
    ensures LessOrEqual !in OutlineBlock(true)
  {
    OutlineIntroAvoidsLessOrEqual();
    assert LessOrEqual !in OutlineH1;
    OutlineSectionsAvoidsLessOrEqual();
  }

  lemma SlotsAvoidLessOrEqual()
    ensures SlotsAvoid(LessOrEqual)
  {
    OutlineAvoidsLessOrEqual();
    SkipOutlineAvoidsLessOrEqual();
    assert LessOrEqual !in SeoOrderItem;
    assert LessOrEqual !in ReferencesOrderItem;
  }

  lemma LabelsAvoidLessOrEqual()
    ensures LabelsAvoid(LessOrEqual)
  {
    WritePrefixAvoidsLessOrEqual();
  }

  lemma FormatsAvoidLessOrEqual()
    ensures FormatsAvoid(LessOrEqual)
  {
  }

  lemma TemplateAvoidsLessOrEqual()
    ensures TemplateAvoids(LessOrEqual)
  {
    GroupsAvoidLessOrEqual();
    SlotsAvoidLessOrEqual();
    LabelsAvoidLessOrEqual();
    FormatsAvoidLessOrEqual();
  }

  lemma RoleLinesAvoidApostrophe()
    ensures Avoids(RoleLines, Apostrophe)
  {
    OpeningAvoidsApostrophe();
    assert Apostrophe !in RoleLines[1];
    assert Apostrophe !in RoleLines[2];
    assert Apostrophe !in RoleLines[3];
  }

  lemma StyleHeadingAvoidApostrophe()
    ensures Avoids(StyleHeading, Apostrophe)
  {
    assert Apostrophe !in StyleHeading[0];
    assert Apostrophe !in StyleHeading[1];
    assert Apostrophe !in StyleHeading[2];
  }

  lemma StyleRulesAvoidApostrophe()
    ensures Avoids(StyleRules, Apostrophe)
  {
    assert Apostrophe !in MarkdownRule;
    ScanningRuleAvoidsApostrophe();
    ExamplesRuleAvoidsApostrophe();
    FluffRuleAvoidsApostrophe();
    KeywordUsageRuleAvoidsApostrophe();
  }

  lemma ContentRulesAvoidApostrophe()
    ensures Avoids(ContentRules, Apostrophe)
  {
    assert Apostrophe !in ContentRules[0];
    assert Apostrophe !in ContentRules[1];
    HookRuleAvoidsApostrophe();
    CoverageRuleAvoidsApostrophe();
    ComparisonsRuleAvoidsApostrophe();
    ConclusionRuleAvoidsApostrophe();
  }

  lemma OrderHeadingAvoidApostrophe()
    ensures Avoids(OrderHeading, Apostrophe)
  {
    assert Apostrophe !in OrderHeading[0];
    assert Apostrophe !in OrderHeading[1];
    assert Apostrophe !in OrderHeading[2];
    assert Apostrophe !in OrderHeading[3];
  }

  lemma ClosingLinesAvoidApostrophe()
    ensures Avoids(ClosingLines, Apostrophe)
  {
    assert Apostrophe !in ClosingLines[0];
    assert Apostrophe !in ClosingLines[1];
    assert Apostrophe !in ClosingLines[2];
  }

  lemma GuideLinesAvoidApostrophe()
    ensures Avoids(GuideLines, Apostrophe)
  {
    StyleRulesAvoidApostrophe();
    ContentRulesAvoidApostrophe();
    OrderHeadingAvoidApostrophe();
    AvoidsAppend(StyleRules, ContentRules, Apostrophe);
    AvoidsAppend(StyleRules + ContentRules, OrderHeading, Apostrophe);
  }

  lemma GroupsAvoidApostrophe()
    ensures GroupsAvoid(Apostrophe)
  {
    RoleLinesAvoidApostrophe();
    StyleHeadingAvoidApostrophe();
    GuideLinesAvoidApostrophe();
    ClosingLinesAvoidApostrophe();
  }

  lemma OutlineAvoidsApostrophe()
    ensures Apostrophe !in OutlineBlock(true)
  {
    OutlineIntroAvoidsApostrophe();
    assert Apostrophe !in OutlineH1;
    OutlineSectionsAvoidsApostrophe();
  }

  lemma SlotsAvoidApostrophe()
    ensures SlotsAvoid(Apostrophe)
  {
    OutlineAvoidsApostrophe();
    SkipOutlineAvoidsApostrophe();
    assert Apostrophe !in SeoOrderItem;
    assert Apostrophe !in ReferencesOrderItem;
  }

  lemma LabelsAvoidApostrophe()
    ensures LabelsAvoid(Apostrophe)
  {
    WritePrefixAvoidsApostrophe();
  }

  lemma FormatsAvoidApostrophe()
    ensures FormatsAvoid(Apostrophe)
  {
  }

  lemma TemplateAvoidsApostrophe()
    ensures TemplateAvoids(Apostrophe)
  {
    GroupsAvoidApostrophe();
    SlotsAvoidApostrophe();
    LabelsAvoidApostrophe();
    FormatsAvoidApostrophe();
  }

  lemma DecimalAvoids(n: int, c: char)
    requires c != '-' && !IsDigit(c)
    ensures c !in DecimalString(n)
  {
    var d := DecimalString(n);
    forall i | 0 <= i < |d|
      ensures d[i] != c
    {
      if i > 0 || n >= 0 {
        assert IsDigit(d[i]);
      }
    }
  }

  lemma BriefLinesAvoid(req: ArticleRequest, c: char)
    requires FieldsAvoid(req, c) && TagsAvoid(c)
    ensures Avoids(BriefLines(req), c)
  {
    DecimalAvoids(req.targetWords, c);
    if |req.keywords| > 0 {
      JoinAvoids(req.keywords, ", ", c);
    }
    var lines := BriefLines(req);
    assert c !in lines[0];
    assert c !in lines[1];
    assert c !in lines[2];
    assert c !in lines[3];
    assert c !in lines[4];
    assert c !in lines[5];
    assert c !in lines[6];
    assert c !in lines[7];
  }

  lemma HeadLinesAvoid(req: ArticleRequest, c: char)
    requires FieldsAvoid(req, c) && TemplateAvoids(c)
    ensures Avoids(HeadLines(req), c)
  {
    var tail := TailLines(req.includeSeo, req.includeReferences);
    BriefLinesAvoid(req, c);
    AvoidsAppend(RoleLines, BriefLines(req), c);
    AvoidsAppend(RoleLines + BriefLines(req), StyleHeading, c);
    AvoidsAppend(BriefSection(req), [OutlineBlock(req.includeOutline)], c);
    AvoidsAppend(GuideLines, [OrderItems(req.includeSeo, req.includeReferences)], c);
    AvoidsAppend(GuideLines + [OrderItems(req.includeSeo, req.includeReferences)], ClosingLines, c);
    AvoidsAppend(BriefSection(req) + [OutlineBlock(req.includeOutline)], tail, c);
  }

  /** A character that neither the template nor the fields hold is not in the prompt. */
  lemma PromptAvoids(req: ArticleRequest, c: char)
    requires FieldsAvoid(req, c) && TemplateAvoids(c)
    ensures c !in BuildPrompt(req)
  {
    PromptShape(req);
    HeadLinesAvoid(req, c);
    JoinAvoids(HeadLines(req), "\n", c);
    var e := req.extraInstructions;
    assert TrimRight(e) == e[..|TrimRight(e)|];
  }

  lemma Excluded(s: string, w: string, c: char)
    requires c !in s && c in w
    ensures !Contains(s, w)
  {
    if Contains(s, w) {
      ContainsChar(s, w, c);
    }
  }

  lemma SeoTextsHoldLessOrEqual()
    ensures LessOrEqual in SeoTitleItem && LessOrEqual in MetaDescriptionItem && LessOrEqual in SeoBlock(true)
  {
    assert SeoTitleItem[13] == LessOrEqual;
    assert MetaDescriptionItem[20] == LessOrEqual;
  }

  lemma ReferencesTextsHoldApostrophe()
    ensures Apostrophe in ReferencesRequest && Apostrophe in ReferencesBlock(true)
  {
    assert ReferencesRequest[12] == Apostrophe;
  }

  /** The SEO block, and each of its size-limited items, never reaches the
      prompt, whatever `include_seo` says. */
  lemma SeoBlockNeverInPrompt(req: ArticleRequest)
    requires FieldsAvoid(req, LessOrEqual)
    ensures !Contains(BuildPrompt(req), SeoBlock(true))
    ensures !Contains(BuildPrompt(req), SeoTitleItem)
    ensures !Contains(BuildPrompt(req), MetaDescriptionItem)
  {
    TemplateAvoidsLessOrEqual();
    PromptAvoids(req, LessOrEqual);
    SeoTextsHoldLessOrEqual();
    Excluded(BuildPrompt(req), SeoBlock(true), LessOrEqual);
    Excluded(BuildPrompt(req), SeoTitleItem, LessOrEqual);
    Excluded(BuildPrompt(req), MetaDescriptionItem, LessOrEqual);
  }

  /** The references request never reaches the prompt, whatever
      `include_references` says. */
  lemma ReferencesBlockNeverInPrompt(req: ArticleRequest)
    requires FieldsAvoid(req, Apostrophe)
    ensures !Contains(BuildPrompt(req), ReferencesBlock(true))
    ensures !Contains(BuildPrompt(req), ReferencesRequest)
  {
    TemplateAvoidsApostrophe();
    PromptAvoids(req, Apostrophe);
    ReferencesTextsHoldApostrophe();
    Excluded(BuildPrompt(req), ReferencesBlock(true), Apostrophe);
    Excluded(BuildPrompt(req), ReferencesRequest, Apostrophe);
  }
}
