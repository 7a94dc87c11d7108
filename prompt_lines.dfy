/** The prompt read line by line.

    The flags of an article request act on whole lines of the prompt: the
    outline flag picks between the outline instructions and the sentence
    that skips them, and the two order flags add the lines "3) SEO Block"
    and "4) References".  Read as lines, and provided the one-line fields of
    the request hold no line break, each of these lines is present exactly
    when its flag says so. */
module PromptLines {
  import opened Text
  import opened Models
  import opened PromptBuilder

  predicate SingleLine(s: string) {
    '\n' !in s
  }

  /** The fields that fill one line of the prompt hold no line break. */
  predicate SingleLineFields(req: ArticleRequest) {
    && SingleLine(req.topic) && SingleLine(req.language) && SingleLine(req.audience)
    && SingleLine(req.tone) && SingleLine(req.readingLevel)
    && forall i :: 0 <= i < |req.keywords| ==> SingleLine(req.keywords[i])
  }

  /** `s.split("\n")`. */
  function Lines(s: string): seq<string>
  {
    Split(s, '\n')
  }

  /** The lines of the prompt that come from the template and the one-line fields. */
  function HeadView(req: ArticleRequest): seq<string>
  {
    SplitAll(HeadLines(req), '\n')
  }

  /** The lines that the extra instructions contribute to the prompt. */
  function ExtraLines(extra: string): seq<string>
  {
    if Blank(extra) then [] else Lines(TrimRight(extra))
  }

  /** A line that is none of the four lines the flags control. */
  predicate Unflagged(line: string) {
    line != OutlineIntro && line != SkipOutline && line != SeoOrderItem && line != ReferencesOrderItem
  }

  predicate PlainLine(line: string) {
    SingleLine(line) && Unflagged(line)
  }

  predicate AllPlain(lines: seq<string>) {
    forall i :: 0 <= i < |lines| ==> PlainLine(lines[i])
  }

  // ---------- the prompt as lines ----------

  lemma SplitLineThen(a: string, b: string)
    requires SingleLine(a)
    ensures Lines(a + "\n" + b) == [a] + Lines(b)
  {
    SplitConcat(a, b, '\n');
    SplitWithoutSeparator(a, '\n');
  }

  lemma LinesOfShape(p: string, parts: seq<string>, extra: string)
    requires parts != [] && p == Join(parts, "\n") + ExtraSection(extra)
    ensures Lines(p) == SplitAll(parts, '\n') + ExtraLines(extra)
  {
    var head := Join(parts, "\n");
    SplitOfJoin(parts, '\n');
    if Blank(extra) {
      assert ExtraSection(extra) == "" && ExtraLines(extra) == [];
      assert p == head;
    } else {
      var t := TrimRight(extra);
      assert ExtraSection(extra) == "\n" + t && ExtraLines(extra) == Lines(t);
      LinesAfterBreak(head, t);
    }
  }

  lemma LinesAfterBreak(head: string, t: string)
    ensures Lines(head + ("\n" + t)) == Lines(head) + Lines(t)
  {
    assert head + ("\n" + t) == head + ['\n'] + t;
    SplitConcat(head, t, '\n');
  }

  /** The prompt's lines are the template's lines, then those of the extra
      instructions. */
  lemma PromptLinesShape(req: ArticleRequest)
    ensures Lines(BuildPrompt(req)) == HeadView(req) + ExtraLines(req.extraInstructions)
  {
    PromptShape(req);
    LinesOfShape(BuildPrompt(req), HeadLines(req), req.extraInstructions);
  }

  lemma OneLine(a: string)
    requires SingleLine(a)
    ensures Lines(a + "\n") == [a, ""]
  {
    SplitLineThen(a, "");
    assert a + "\n" == a + "\n" + "";
  }

  lemma TwoLines(a: string, b: string)
    requires SingleLine(a) && SingleLine(b)
    ensures Lines(a + "\n" + b + "\n") == [a, b, ""]
  {
    OneLine(b);
    SplitLineThen(a, b + "\n");
    assert a + "\n" + b + "\n" == a + "\n" + (b + "\n");
  }

  lemma ThreeLines(a: string, b: string, c: string)
    requires SingleLine(a) && SingleLine(b) && SingleLine(c)
    ensures Lines(a + "\n" + b + "\n" + c + "\n") == [a, b, c, ""]
  {
    TwoLines(b, c);
    SplitLineThen(a, b + "\n" + c + "\n");
    assert a + "\n" + b + "\n" + c + "\n" == a + "\n" + (b + "\n" + c + "\n");
  }

  lemma OutlineBlockLines(enabled: bool)
    ensures Lines(OutlineBlock(enabled)) ==
      if enabled then [OutlineIntro, OutlineH1, OutlineSections, ""] else [SkipOutline, ""]
  {
    if enabled {
      OutlineIntroOneLine();
      OutlineSectionsOneLine();
      assert SingleLine(OutlineH1);
      ThreeLines(OutlineIntro, OutlineH1, OutlineSections);
    } else {
      SkipOutlineOneLine();
      OneLine(SkipOutline);
    }
  }

  lemma OrderItemsLines(seo: bool, references: bool)
    ensures Lines(OrderItems(seo, references)) ==
      (if seo then [SeoOrderItem] else []) + (if references then [ReferencesOrderItem] else []) + [""]
  {
    assert SingleLine(SeoOrderItem) && SingleLine(ReferencesOrderItem);
    if seo && references {
      TwoLines(SeoOrderItem, ReferencesOrderItem);
      assert OrderItems(true, true) == SeoOrderItem + "\n" + ReferencesOrderItem + "\n";
    } else if seo {
      OneLine(SeoOrderItem);
      assert OrderItems(true, false) == SeoOrderItem + "\n";
    } else if references {
      OneLine(ReferencesOrderItem);
      assert OrderItems(false, true) == ReferencesOrderItem + "\n";
    } else {
      assert OrderItems(false, false) == "";
    }
  }

  // ---------- the fixed lines hold no line break ----------

  // One lemma per long template text: a text is unfolded into its characters
  // once, on its own, and the lemmas about groups of lines use the results.

  lemma OpeningOneLine()
    ensures SingleLine(Opening)
  {
  }

  lemma WritePrefixOneLine()
    ensures SingleLine(WritePrefix)
  {
  }

  lemma OutlineIntroOneLine()
    ensures SingleLine(OutlineIntro)
  {
  }

  lemma OutlineSectionsOneLine()
    ensures SingleLine(OutlineSections)
  {
  }

  lemma SkipOutlineOneLine()
    ensures SingleLine(SkipOutline)
  {
  }

  lemma ScanningRuleOneLine()
    ensures SingleLine(ScanningRule)
  {
  }

  lemma ExamplesRuleOneLine()
    ensures SingleLine(ExamplesRule)
  {
  }

  lemma FluffRuleOneLine()
    ensures SingleLine(FluffRule)
  {
  }

  lemma KeywordUsageRuleOneLine()
    ensures SingleLine(KeywordUsageRule)
  {
  }

  lemma HookRuleOneLine()
    ensures SingleLine(HookRule)
  {
  }

  lemma CoverageRuleOneLine()
    ensures SingleLine(CoverageRule)
  {
  }

  lemma ComparisonsRuleOneLine()
    ensures SingleLine(ComparisonsRule)
  {
  }

  lemma ConclusionRuleOneLine()
    ensures SingleLine(ConclusionRule)
  {
  }

  /** The first characters of the four flagged lines. */
  lemma FlaggedFirstChars()
    ensures OutlineIntro[0] == 'I' && SkipOutline[0] == 'S' && SeoOrderItem[0] == '3' && ReferencesOrderItem[0] == '4'
  {
  }

  /** A single line that starts like none of the flagged lines is plain. */
  lemma StartsPlain(line: string)
    requires SingleLine(line) && line != []
    requires line[0] != 'I' && line[0] != 'S' && line[0] != '3' && line[0] != '4'
    ensures PlainLine(line)
  {
    FlaggedFirstChars();
  }

  lemma RoleLinesPlain()
    ensures AllPlain(RoleLines)
  {
    OpeningOneLine();
    assert Opening[0] == 'Y';
    StartsPlain(Opening);
    assert PlainLine(RoleLines[1]);
    assert PlainLine(RoleLines[2]);
    assert PlainLine(RoleLines[3]);
  }

  lemma StyleHeadingPlain()
    ensures AllPlain(StyleHeading)
  {
    assert PlainLine(StyleHeading[0]);
    assert PlainLine(StyleHeading[1]);
    assert PlainLine(StyleHeading[2]);
  }

  /** Each rule is a single line starting with a dash. */
  lemma StyleRulesPlain()
    ensures AllPlain(StyleRules)
  {
    assert SingleLine(MarkdownRule);
    ScanningRuleOneLine();
    ExamplesRuleOneLine();
    FluffRuleOneLine();
    KeywordUsageRuleOneLine();
    assert MarkdownRule[0] == '-' && ScanningRule[0] == '-' && ExamplesRule[0] == '-';
    assert FluffRule[0] == '-' && KeywordUsageRule[0] == '-';
    StartsPlain(MarkdownRule);
    StartsPlain(ScanningRule);
    StartsPlain(ExamplesRule);
    StartsPlain(FluffRule);
    StartsPlain(KeywordUsageRule);
    assert PlainLine("");
  }

  lemma HookRulePlain()
    ensures PlainLine(HookRule)
  {
    HookRuleOneLine();
    assert HookRule[0] == '-';
    StartsPlain(HookRule);
  }

  lemma CoverageRulePlain()
    ensures PlainLine(CoverageRule)
  {
    CoverageRuleOneLine();
    assert CoverageRule[0] == '-';
    StartsPlain(CoverageRule);
  }

  lemma ComparisonsRulePlain()
    ensures PlainLine(ComparisonsRule)
  {
    ComparisonsRuleOneLine();
    assert ComparisonsRule[0] == '-';
    StartsPlain(ComparisonsRule);
  }

  lemma ConclusionRulePlain()
    ensures PlainLine(ConclusionRule)
  {
    ConclusionRuleOneLine();
    assert ConclusionRule[0] == '-';
    StartsPlain(ConclusionRule);
  }

  lemma ContentHeadingPlain()
    ensures PlainLine("Content Requirements") && PlainLine("--------------------")
  {
  }

  lemma ContentRulesPlain()
    ensures AllPlain(ContentRules)
  {
    ContentHeadingPlain();
    HookRulePlain();
    CoverageRulePlain();
    ComparisonsRulePlain();
    ConclusionRulePlain();
    EmptyLinePlain();
    AllPlainCons("Content Requirements", ["--------------------", HookRule, CoverageRule, ComparisonsRule, ConclusionRule, ""]);
  }

  lemma AllPlainCons(x: string, t: seq<string>)
    requires PlainLine(x) && forall i :: 0 <= i < |t| ==> PlainLine(t[i])
    ensures AllPlain([x] + t)
  {
    forall i | 0 <= i < |[x] + t|
      ensures PlainLine(([x] + t)[i])
    {
      if i > 0 {
        assert ([x] + t)[i] == t[i - 1];
      }
    }
  }

  lemma OrderHeadingPlain()
    ensures AllPlain(OrderHeading)
  {
    assert PlainLine(OrderHeading[0]);
    assert PlainLine(OrderHeading[1]);
    assert PlainLine(OrderHeading[2]);
    assert PlainLine(OrderHeading[3]);
  }

  lemma ClosingLinesPlain()
    ensures AllPlain(ClosingLines)
  {
    assert PlainLine(ClosingLines[0]);
    assert PlainLine(ClosingLines[1]);
    assert PlainLine(ClosingLines[2]);
  }

  lemma AllPlainAppend(a: seq<string>, b: seq<string>)
    requires AllPlain(a) && AllPlain(b)
    ensures AllPlain(a + b)
  {
    forall i | 0 <= i < |a + b|
      ensures PlainLine((a + b)[i])
    {
      if i < |a| {
        assert (a + b)[i] == a[i];
      } else {
        assert (a + b)[i] == b[i - |a|];
      }
    }
  }

  lemma GuideLinesPlain()
    ensures AllPlain(GuideLines)
  {
    StyleRulesPlain();
    ContentRulesPlain();
    OrderHeadingPlain();
    AllPlainAppend(StyleRules, ContentRules);
    AllPlainAppend(StyleRules + ContentRules, OrderHeading);
  }

  lemma DecimalSingleLine(n: int)
    ensures SingleLine(DecimalString(n))
  {
    var d := DecimalString(n);
    forall i | 0 <= i < |d|
      ensures d[i] != '\n'
    {
      if i > 0 || n >= 0 {
        assert IsDigit(d[i]);
      }
    }
  }

  lemma KeywordTextSingleLine(keywords: seq<string>)
    requires forall i :: 0 <= i < |keywords| ==> SingleLine(keywords[i])
    ensures SingleLine(KeywordText(keywords))
  {
    if |keywords| > 0 {
      JoinAvoids(keywords, ", ", '\n');
    }
  }

  /** A line that starts with a tag none of the flagged lines starts with. */
  lemma LabelledLine(line: string, tag: string, rest: string)
    requires line == tag + rest && tag != [] && SingleLine(tag) && SingleLine(rest)
    requires tag[0] != 'I' && tag[0] != 'S' && tag[0] != '3' && tag[0] != '4'
    ensures PlainLine(line)
  {
    assert line[0] == tag[0];
    FlaggedFirstChars();
  }

  /** Each line of the goal section starts with its fixed label, so it is
      none of the lines the flags control. */
  lemma BriefLinesPlain(req: ArticleRequest)
    requires SingleLineFields(req)
    ensures AllPlain(BriefLines(req))
  {
    DecimalSingleLine(req.targetWords);
    KeywordTextSingleLine(req.keywords);
    LanguageLinePlain(req.language);
    TopicLinePlain(req.topic);
    FieldLinesPlain(req.audience, req.tone, req.readingLevel, KeywordText(req.keywords));
    TargetLinePlain(DecimalString(req.targetWords));
    EmptyLinePlain();
  }

  lemma LanguageLinePlain(language: string)
    requires SingleLine(language)
    ensures PlainLine(WritePrefix + language + " for the topic:")
  {
    WritePrefixOneLine();
    LabelledLine(WritePrefix + language + " for the topic:", WritePrefix, language + " for the topic:");
  }

  lemma TopicLinePlain(topic: string)
    requires SingleLine(topic)
    ensures PlainLine("\"" + topic + "\"")
  {
    LabelledLine("\"" + topic + "\"", "\"", topic + "\"");
  }

  lemma TargetLinePlain(n: string)
    requires SingleLine(n)
    ensures PlainLine("Target Length: ~" + n + " words")
  {
    LabelledLine("Target Length: ~" + n + " words", "Target Length: ~", n + " words");
  }

  /** The four labelled field lines, each with a one-line value. */
  lemma FieldLinesPlain(audience: string, tone: string, level: string, keywords: string)
    requires SingleLine(audience) && SingleLine(tone) && SingleLine(level) && SingleLine(keywords)
    ensures PlainLine("Audience: " + audience) && PlainLine("Tone/Voice: " + tone)
    ensures PlainLine("Reading Level: " + level) && PlainLine("Primary Keywords: " + keywords)
  {
    LabelledLine("Audience: " + audience, "Audience: ", audience);
    LabelledLine("Tone/Voice: " + tone, "Tone/Voice: ", tone);
    LabelledLine("Reading Level: " + level, "Reading Level: ", level);
    LabelledLine("Primary Keywords: " + keywords, "Primary Keywords: ", keywords);
  }

  lemma EmptyLinePlain()
    ensures PlainLine("")
  {
  }

  lemma BriefSectionPlain(req: ArticleRequest)
    requires SingleLineFields(req)
    ensures AllPlain(BriefSection(req))
  {
    RoleLinesPlain();
    BriefLinesPlain(req);
    StyleHeadingPlain();
    AllPlainAppend(RoleLines, BriefLines(req));
    AllPlainAppend(RoleLines + BriefLines(req), StyleHeading);
  }

  lemma PlainSplitAll(g: seq<string>)
    requires AllPlain(g)
    ensures SplitAll(g, '\n') == g
  {
    SplitAllOfSingles(g, '\n');
  }

  lemma SplitAllOne(x: string)
    ensures SplitAll([x], '\n') == Lines(x)
  {
    assert [x][1..] == [];
  }

  lemma Regroup5<T>(p: seq<T>, q: seq<T>, r: seq<T>, u: seq<T>, v: seq<T>)
    ensures (p + q) + (r + u + v) == p + q + r + u + v
  {
  }

  lemma ViewParts(b: seq<string>, x: string, g: seq<string>, y: string, c: seq<string>)
    requires AllPlain(b) && AllPlain(g) && AllPlain(c)
    ensures SplitAll(b + [x] + (g + [y] + c), '\n') == b + Lines(x) + g + Lines(y) + c
  {
    var left, right := b + [x], g + [y] + c;
    SplitAllAppend(left, right, '\n');
    SplitAllAppend(b, [x], '\n');
    SplitAllOne(x);
    PlainSplitAll(b);
    assert SplitAll(left, '\n') == b + Lines(x);
    SplitAllAppend(g + [y], c, '\n');
    SplitAllAppend(g, [y], '\n');
    SplitAllOne(y);
    PlainSplitAll(g);
    PlainSplitAll(c);
    assert SplitAll(right, '\n') == g + Lines(y) + c;
    Regroup5(b, Lines(x), g, Lines(y), c);
  }

  /** The template's lines: the fixed ones and the one-line fields, the
      outline block's lines, more fixed lines, the order items' lines and
      the closing heading. */
  lemma HeadViewParts(req: ArticleRequest)
    requires SingleLineFields(req)
    ensures HeadView(req) ==
      BriefSection(req) + Lines(OutlineBlock(req.includeOutline)) + GuideLines
      + Lines(OrderItems(req.includeSeo, req.includeReferences)) + ClosingLines
  {
    BriefSectionPlain(req);
    GuideLinesPlain();
    ClosingLinesPlain();
    ViewParts(BriefSection(req), OutlineBlock(req.includeOutline), GuideLines,
      OrderItems(req.includeSeo, req.includeReferences), ClosingLines);
  }

  lemma FlaggedIn(b: seq<string>, x: seq<string>, g: seq<string>, y: seq<string>, c: seq<string>, key: string)
    requires AllPlain(b) && AllPlain(g) && AllPlain(c) && !Unflagged(key)
    ensures key in b + x + g + y + c <==> key in x || key in y
  {
  }

  lemma OutlineBlockKeys(enabled: bool)
    ensures OutlineIntro in Lines(OutlineBlock(enabled)) <==> enabled
    ensures SkipOutline in Lines(OutlineBlock(enabled)) <==> !enabled
    ensures SeoOrderItem !in Lines(OutlineBlock(enabled))
    ensures ReferencesOrderItem !in Lines(OutlineBlock(enabled))
  {
    OutlineBlockLines(enabled);
    assert OutlineIntro != SkipOutline;
    assert OutlineH1 != SkipOutline && OutlineSections != SkipOutline;
  }

  lemma OrderItemsKeys(seo: bool, references: bool)
    ensures OutlineIntro !in Lines(OrderItems(seo, references))
    ensures SkipOutline !in Lines(OrderItems(seo, references))
    ensures SeoOrderItem in Lines(OrderItems(seo, references)) <==> seo
    ensures ReferencesOrderItem in Lines(OrderItems(seo, references)) <==> references
  {
    OrderItemsLines(seo, references);
  }

  /** Among the template's lines, the outline instructions appear exactly
      when the outline is requested and the skip sentence exactly when it is
      not; "3) SEO Block" appears exactly when the SEO flag is set and
      "4) References" exactly when references are requested. */
  lemma FlagLines(req: ArticleRequest)
    requires SingleLineFields(req)
    ensures OutlineIntro in HeadView(req) <==> req.includeOutline
    ensures SkipOutline in HeadView(req) <==> !req.includeOutline
    ensures SeoOrderItem in HeadView(req) <==> req.includeSeo
    ensures ReferencesOrderItem in HeadView(req) <==> req.includeReferences
  {
    var x := Lines(OutlineBlock(req.includeOutline));
    var y := Lines(OrderItems(req.includeSeo, req.includeReferences));
    HeadViewParts(req);
    BriefSectionPlain(req);
    GuideLinesPlain();
    ClosingLinesPlain();
    OutlineBlockKeys(req.includeOutline);
    OrderItemsKeys(req.includeSeo, req.includeReferences);
    FlaggedIn(BriefSection(req), x, GuideLines, y, ClosingLines, OutlineIntro);
    FlaggedIn(BriefSection(req), x, GuideLines, y, ClosingLines, SkipOutline);
    FlaggedIn(BriefSection(req), x, GuideLines, y, ClosingLines, SeoOrderItem);
    FlaggedIn(BriefSection(req), x, GuideLines, y, ClosingLines, ReferencesOrderItem);
  }

  /** The same, read on the whole prompt, when no line of the extra
      instructions is itself one of the flagged lines. */
  lemma FlagLinesInPrompt(req: ArticleRequest)
    requires SingleLineFields(req)
    requires forall i :: 0 <= i < |ExtraLines(req.extraInstructions)| ==> Unflagged(ExtraLines(req.extraInstructions)[i])
    ensures OutlineIntro in Lines(BuildPrompt(req)) <==> req.includeOutline
    ensures SkipOutline in Lines(BuildPrompt(req)) <==> !req.includeOutline
    ensures SeoOrderItem in Lines(BuildPrompt(req)) <==> req.includeSeo
    ensures ReferencesOrderItem in Lines(BuildPrompt(req)) <==> req.includeReferences
  {
    PromptLinesShape(req);
    FlagLines(req);
  }
}
