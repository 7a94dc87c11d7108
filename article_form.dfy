/** The "Generate Article" button: the form's values turned into an article
    request and a generation config, the topic check, and the run of
    `build_prompt` and `generate_article` that follows. */
module ArticleForm {
  import opened Text
  import opened Models
  import opened PromptBuilder
  import opened OllamaCall

  const TopicMissingMessage := "Please enter a topic."

  /** A keyword as the form's parser keeps it: non-empty, stripped, and free
      of the comma that separated it from its neighbours. */
  predicate ValidKeyword(k: string) {
    k != [] && Stripped(k) && ',' !in k
  }

  lemma StripAvoids(s: string, c: char)
    requires c !in s
    ensures c !in Strip(s)
  {
    if c in Strip(s) {
      ContainsChar(s, Strip(s), c);
    }
  }

  predicate NoCommas(pieces: seq<string>) {
    forall i :: 0 <= i < |pieces| ==> ',' !in pieces[i]
  }

  /** `[k.strip() for k in pieces if k.strip()]`. */
  function KeywordPieces(pieces: seq<string>): seq<string>
  {
    if pieces == [] then []
    else
      var k := Strip(pieces[0]);
      (if k != [] then [k] else []) + KeywordPieces(pieces[1..])
  }

  /** The keyword list read from the comma-separated text field. */
  function ParseKeywords(raw: string): seq<string>
  {
    KeywordPieces(Split(raw, ','))
  }

  /** One step of the comprehension: the first piece is kept, stripped, unless it is blank. */
  lemma KeywordPiecesCons(x: string, t: seq<string>)
    ensures KeywordPieces([x] + t) == (if Strip(x) != [] then [Strip(x)] else []) + KeywordPieces(t)
  {
    var p := [x] + t;
    assert p[0] == x && p[1..] == t;
  }

  lemma {:induction false} KeywordPiecesValid(pieces: seq<string>)
    requires NoCommas(pieces)
    ensures forall i :: 0 <= i < |KeywordPieces(pieces)| ==> ValidKeyword(KeywordPieces(pieces)[i])
    decreases |pieces|
  {
    if pieces != [] {
      var x, t := pieces[0], pieces[1..];
      assert pieces == [x] + t;
      KeywordPiecesCons(x, t);
      StripAvoids(x, ',');
      assert NoCommas(t);
      KeywordPiecesValid(t);
      ValidPrefix(if Strip(x) != [] then [Strip(x)] else [], KeywordPieces(t));
    }
  }

  lemma ValidPrefix(h: seq<string>, t: seq<string>)
    requires forall i :: 0 <= i < |h| ==> ValidKeyword(h[i])
    requires forall i :: 0 <= i < |t| ==> ValidKeyword(t[i])
    ensures forall i :: 0 <= i < |h + t| ==> ValidKeyword((h + t)[i])
  {
    forall i | 0 <= i < |h + t| ensures ValidKeyword((h + t)[i]) {
      if i < |h| {
        assert (h + t)[i] == h[i];
      } else {
        assert (h + t)[i] == t[i - |h|];
      }
    }
  }

  /** Every keyword read from the field is non-empty, stripped and comma-free. */
  lemma ParseKeywordsValid(raw: string)
    ensures forall i :: 0 <= i < |ParseKeywords(raw)| ==> ValidKeyword(ParseKeywords(raw)[i])
  {
    KeywordPiecesValid(Split(raw, ','));
  }

  lemma {:induction false} KeywordPiecesAppend(a: seq<string>, b: seq<string>)
    ensures KeywordPieces(a + b) == KeywordPieces(a) + KeywordPieces(b)
    decreases |a|
  {
    if a == [] {
      assert a + b == b;
    } else {
      var x, t := a[0], a[1..];
      assert a == [x] + t;
      assert a + b == [x] + (t + b);
      KeywordPiecesCons(x, t);
      KeywordPiecesCons(x, t + b);
      KeywordPiecesAppend(t, b);
      var h := if Strip(x) != [] then [Strip(x)] else [];
      var kt, kb := KeywordPieces(t), KeywordPieces(b);
      Associative(h, kt, kb);
    }
  }


  /** Keywords on either side of a comma are read separately and kept in order. */
  lemma ParseKeywordsConcat(a: string, b: string)
    ensures ParseKeywords(a + "," + b) == ParseKeywords(a) + ParseKeywords(b)
  {
    SplitConcat(a, b, ',');
    KeywordPiecesAppend(Split(a, ','), Split(b, ','));
  }

  /** Text without a comma is one keyword, stripped, or none when it is blank. */
  lemma ParseKeywordsSingle(s: string)
    requires ',' !in s
    ensures ParseKeywords(s) == if Blank(s) then [] else [Strip(s)]
  {
    SplitWithoutSeparator(s, ',');
    KeywordPiecesCons(s, []);
    assert [s] + [] == [s];
    var k := Strip(s);
    assert KeywordPieces([s]) == (if k != [] then [k] else []) + [];
    assert k == [] <==> Blank(s);
  }

  /** An empty or whitespace-only field gives no keywords. */
  lemma ParseKeywordsBlank(raw: string)
    requires Blank(raw)
    ensures ParseKeywords(raw) == []
  {
    ParseKeywordsSingle(raw);
  }

  /** One valid keyword behind some whitespace is read as itself. */
  lemma PaddedKeyword(sp: string, k: string)
    requires Blank(sp) && ValidKeyword(k)
    ensures ParseKeywords(sp + k) == [k]
  {
    assert ',' !in sp + k;
    assert !Blank(sp + k) by {
      assert (sp + k)[|sp|] == k[0];
    }
    StripBlankPrefix(sp, k);
    ParseKeywordsSingle(sp + k);
  }

  lemma {:induction false} ParseJoinedKeywords(sp: string, keywords: seq<string>)
    requires Blank(sp)
    requires forall i :: 0 <= i < |keywords| ==> ValidKeyword(keywords[i])
    ensures ParseKeywords(sp + Join(keywords, ", ")) == keywords
    decreases |keywords|
  {
    if keywords == [] {
      assert sp + Join(keywords, ", ") == sp;
      ParseKeywordsBlank(sp);
    } else if |keywords| == 1 {
      PaddedKeyword(sp, keywords[0]);
      assert sp + Join(keywords, ", ") == sp + keywords[0];
    } else {
      var k, rest := keywords[0], keywords[1..];
      assert ValidKeyword(k);
      assert forall i :: 0 <= i < |rest| ==> ValidKeyword(rest[i]) by {
        forall i | 0 <= i < |rest| ensures ValidKeyword(rest[i]) {
          assert rest[i] == keywords[i + 1];
        }
      }
      JoinedStep(sp, keywords);
      assert Blank(" ");
      ParseJoinedKeywords(" ", rest);
      HeadTail(keywords);
    }
  }

  /** The first keyword of a joined list is read off before the first comma. */
  lemma JoinedStep(sp: string, keywords: seq<string>)
    requires Blank(sp) && |keywords| >= 2 && ValidKeyword(keywords[0])
    ensures ParseKeywords(sp + Join(keywords, ", ")) ==
      [keywords[0]] + ParseKeywords(" " + Join(keywords[1..], ", "))
  {
    var k, tail := keywords[0], Join(keywords[1..], ", ");
    assert Join(keywords, ", ") == k + ", " + tail;
    assert sp + (k + ", " + tail) == (sp + k) + "," + (" " + tail);
    PaddedKeyword(sp, k);
    ParseKeywordsConcat(sp + k, " " + tail);
  }

  /** Keywords written back the way the prompt lists them are read back unchanged. */
  lemma KeywordsRoundTrip(keywords: seq<string>)
    requires forall i :: 0 <= i < |keywords| ==> ValidKeyword(keywords[i])
    ensures ParseKeywords(Join(keywords, ", ")) == keywords
  {
    ParseJoinedKeywords("", keywords);
    assert "" + Join(keywords, ", ") == Join(keywords, ", ");
  }

  // ---------- the button handler ----------

  /** The values of the form's widgets when the button is pressed.  The
      seed box keeps its value while it is disabled. */
  datatype FormInput = FormInput(
    model: string,
    temperature: real,
    useSeed: bool,
    seed: int,
    targetWords: int,
    topic: string,
    keywordsRaw: string,
    audience: string,
    tone: string,
    readingLevel: string,
    language: string,
    includeOutline: bool,
    includeSeo: bool,
    includeReferences: bool,
    extra: string)

  datatype Submission =
    | Rejected(message: string)
    | Accepted(req: ArticleRequest, cfg: GenConfig)

  /** The request and config the handler builds, or the error it shows
      when the topic is blank. */
  function Submit(form: FormInput): (r: Submission)
    ensures r.Rejected? <==> Blank(form.topic)
    ensures r.Rejected? ==> r.message == TopicMissingMessage
    ensures r.Accepted? ==> r.req.topic != [] && Stripped(r.req.topic) && r.req.topic == Strip(form.topic)
    ensures r.Accepted? ==> r.req.keywords == ParseKeywords(form.keywordsRaw)
    ensures r.Accepted? ==> (r.cfg.seed.Some? <==> form.useSeed)
    ensures r.Accepted? && form.useSeed ==> r.cfg.seed.value == form.seed
    ensures r.Accepted? ==> r.req.audience == Strip(form.audience) && r.req.tone == Strip(form.tone)
                            && r.req.language == Strip(form.language) && r.req.extraInstructions == Strip(form.extra)
                            && r.cfg.model == Strip(form.model)
    ensures r.Accepted? ==> Stripped(r.req.audience) && Stripped(r.req.tone) && Stripped(r.req.language)
                            && Stripped(r.req.extraInstructions) && Stripped(r.cfg.model)
    ensures r.Accepted? ==> r.req.readingLevel == form.readingLevel && r.req.targetWords == form.targetWords
    ensures r.Accepted? ==> r.req.includeOutline == form.includeOutline && r.req.includeSeo == form.includeSeo
                            && r.req.includeReferences == form.includeReferences
    ensures r.Accepted? ==> r.cfg.temperature == form.temperature
  {
    if Strip(form.topic) == [] then Rejected(TopicMissingMessage)
    else
      var req := ArticleRequest(
        topic := Strip(form.topic),
        keywords := ParseKeywords(form.keywordsRaw),
        audience := Strip(form.audience),
        tone := Strip(form.tone),
        language := Strip(form.language),
        targetWords := form.targetWords,
        includeOutline := form.includeOutline,
        includeSeo := form.includeSeo,
        includeReferences := form.includeReferences,
        readingLevel := form.readingLevel,
        extraInstructions := Strip(form.extra));
      var cfg := GenConfig(
        model := Strip(form.model),
        temperature := form.temperature,
        seed := if form.useSeed then Some(form.seed) else None);
      Accepted(req, cfg)
  }

  datatype ClickResult =
    | TopicMissing(message: string)
    | Generated(request: ChatRequest, article: string)

  /** One press of the button, against a server that streams `response`. */
  method OnGenerateClicked(form: FormInput, response: seq<Chunk>) returns (result: ClickResult)
    ensures result.TopicMissing? <==> Blank(form.topic)
    ensures result.TopicMissing? ==> result.message == TopicMissingMessage
    ensures Submit(form).Accepted? ==>
      result == Generated(ChatRequestFor(BuildPrompt(Submit(form).req), Submit(form).cfg), StreamText(response))
  {
    var submission := Submit(form);
    if submission.Rejected? {
      result := TopicMissing(submission.message);
    } else {
      var prompt := BuildPrompt(submission.req);
      var request, content := GenerateArticle(prompt, submission.cfg, response);
      result := Generated(request, content);
    }
  }

  /** The sidebar's settings reach the chat request: the stripped model
      name, the temperature, and a fixed seed unchanged (zero included) or,
      with the box unticked, no seed at all. */
  lemma SettingsReachRequest(form: FormInput, prompt: string)
    requires !Blank(form.topic)
    ensures ChatRequestFor(prompt, Submit(form).cfg).model == Strip(form.model)
    ensures var options := ChatRequestFor(prompt, Submit(form).cfg).options;
      && (form.useSeed ==> "seed" in options && options["seed"] == IntOption(form.seed))
      && (!form.useSeed ==> "seed" !in options)
      && options["temperature"] == FloatOption(form.temperature)
  {
  }

  /** Every text field the form fills into the prompt arrives there stripped:
      the topic quoted, the audience, tone and language on their labelled
      lines, each parsed keyword on the keywords line, and non-blank extra
      instructions at the very end. */
  lemma FormReachesPrompt(form: FormInput)
    requires !Blank(form.topic)
    ensures Contains(BuildPrompt(Submit(form).req), "\"" + Strip(form.topic) + "\"")
    ensures Contains(BuildPrompt(Submit(form).req), "Audience: " + Strip(form.audience))
    ensures Contains(BuildPrompt(Submit(form).req), "Tone/Voice: " + Strip(form.tone))
    ensures Contains(BuildPrompt(Submit(form).req), WritePrefix + Strip(form.language) + " for the topic:")
    ensures Contains(BuildPrompt(Submit(form).req), "Primary Keywords: " + KeywordText(ParseKeywords(form.keywordsRaw)))
    ensures !Blank(form.extra) ==> EndsWith(BuildPrompt(Submit(form).req), "\n" + Strip(form.extra))
  {
    var req := Submit(form).req;
    FieldsVerbatim(req);
    ExtraInstructionsLast(req);
  }
}
