# AI Article Generator — a verified model of its core

The AI Article Generator is a small Streamlit app. A user fills in a form
(topic, keywords, audience, tone, reading level, language, length and three
flags) and presses "Generate Article". The app then checks the topic and
builds an `ArticleRequest` and a `GenConfig`. It renders the request into one
long instruction prompt (`build_prompt`), sends that prompt to a local Ollama
model over a streaming chat call (`generate_article`), and joins the streamed
chunks into the article.

This project models those steps in Dafny and proves what each step
guarantees:

- `models.dfy` (`Models`): the two request records, with the defaults the
  source gives their fields.
- `text.dfy` (`Text`): the Python string operations these steps rely on.
  That is `str.strip` over Python's whitespace set, `split` on one
  character, `join`, substring tests, and `str(int)`, together with their
  own laws (strip is idempotent, split and join undo each other, the
  decimal rendering reads back).
- `prompt_builder.dfy` (`PromptBuilder`): `build_prompt`. The f-string is
  the list of its physical lines with the placeholders filled in. The lines
  are joined by newlines, framed by the newlines after and before the triple
  quotes, and stripped. The lemmas give the exact shape of the stripped
  prompt and the places where the three flags act.
- `prompt_lines.dfy` (`PromptLines`): the prompt read as lines. Here
  exactly one of the two outline texts is present, "3) SEO Block" is
  present exactly when the SEO flag is set, and "4) References" exactly
  when references are requested.
- `unused_blocks.dfy` (`UnusedBlocks`): `seo_block` and `refs_block` are
  computed but never placed into the prompt. They never reach it.
- `ollama_call.dfy` (`OllamaCall`): the chat request that
  `generate_article` sends (two messages; an options map with the
  temperature always and the seed only when set). Its accumulation loop is
  an imperative method proved equal to the in-order concatenation of the
  chunk contents.
- `article_form.dfy` (`ArticleForm`): the button handler. It rejects a
  blank topic, strips the text fields, parses the keyword field, sets the
  seed only when the box is ticked, and runs `build_prompt` and
  `generate_article`.

On the keyword line, the code writes "N/A" when the keyword list is empty.
A list whose only keyword is the text "N/A" renders the same line. The
model proves the exact statement: the line reads "N/A" if and only if the
list is empty or is `["N/A"]`.

## Model

| member | source | states |
|---|---|---|
| Text.Strip | app_ui.py:138-157 | `s.strip()` is the piece of `s` left after only whitespace is cut from its two ends; it has no whitespace at either end and is empty exactly when `s` is all whitespace |
| Text.StripUnique | app_ui.py:138-157 | that description fixes the result: any piece of `s` with no whitespace at its ends and only whitespace around it is `s.strip()` |
| Text.StripIdempotent | app_ui.py:142-153 | stripping an already stripped field changes nothing |
| Text.SplitJoinRoundTrip | app_ui.py:144 | joining the pieces of `raw.split(",")` with "," gives back `raw`, so splitting loses no character |
| Text.SplitConcat | app_ui.py:144 | a comma cuts the text into exactly the pieces of its two sides, in order |
| Text.DecimalRoundTrip | app_ui.py:56 | the target length written into the prompt reads back as the same integer, sign included |
| PromptBuilder.BuildPrompt | app_ui.py:30-84 | the prompt has no whitespace at either end |
| PromptBuilder.PromptShape | app_ui.py:45-84 | the stripped prompt is every template line joined by newlines. Non-blank extra instructions follow on their own line with trailing whitespace removed; blank ones leave nothing after the last rule line |
| PromptBuilder.PromptOpening | app_ui.py:45-47 | the prompt starts with "You are a senior content strategist and expert writer." followed by a newline |
| PromptBuilder.FieldsVerbatim | app_ui.py:50-57 | the language, the quoted topic, audience, tone, reading level, target length and keyword text each appear unescaped on their labelled lines |
| PromptBuilder.KeywordTextNotApplicable | app_ui.py:31 | the keyword text is "N/A" if and only if the list is empty or is `["N/A"]`; a non-empty list is joined with ", " in order |
| PromptBuilder.ExtraInstructionsLast | app_ui.py:81-84 | non-blank extra instructions end the prompt, minus trailing whitespace (exactly as given when already stripped). When blank, the prompt ends with the "Extra Instructions" heading and its rule |
| PromptBuilder.OutlineSlot | app_ui.py:32-35 | turning `include_outline` on or off swaps the outline instructions for the skip sentence at one fixed place (line 61 of the template) and changes nothing else |
| PromptBuilder.SeoFlagOnlyAddsOrderItem | app_ui.py:79 | `include_seo` adds the line "3) SEO Block" to the output order and changes nothing else |
| PromptBuilder.ReferencesFlagOnlyAddsOrderItem | app_ui.py:79 | `include_references` adds the line "4) References" and changes nothing else; the item is numbered 4 with or without item 3 |
| PromptBuilder.OutputOrderSection | app_ui.py:75-80 | item 2 is followed by the requested optional items and a blank line. With references only, the text reads "2) ...\n4) References\n\n"; with both, 3 comes before 4 |
| PromptLines.PromptLinesShape | app_ui.py:45-84 | the prompt's lines are the template's lines (fields filled in), then the lines of the extra instructions minus trailing whitespace |
| PromptLines.OutlineBlockLines | app_ui.py:32-35 | the outline block is the three outline lines, or the skip sentence |
| PromptLines.OrderItemsLines | app_ui.py:79 | the order placeholder holds "3) SEO Block" only when SEO is on and "4) References" only when references are on, in that order |
| PromptLines.FlagLines | app_ui.py:32-79 | among the template's lines, the outline instructions appear if and only if `include_outline`, and the skip sentence if and only if not. The same holds for "3) SEO Block" with `include_seo` and "4) References" with `include_references` |
| PromptLines.FlagLinesInPrompt | app_ui.py:30-84 | the same four if-and-only-if statements, over all the lines of the prompt |
| UnusedBlocks.PromptAvoids | app_ui.py:45-84 | a character that is in neither the template nor any field is not in the prompt |
| UnusedBlocks.SeoBlockNeverInPrompt | app_ui.py:37-41 | the SEO block, its title item and its description item never occur in the prompt, whatever `include_seo` says |
| UnusedBlocks.ReferencesBlockNeverInPrompt | app_ui.py:43 | the references request never occurs in the prompt, whatever `include_references` says |
| OllamaCall.ChatOptions | app_ui.py:98-101 | "temperature" is always present with the configured value. "seed" is present if and only if a seed is set, and then holds exactly that value (0 included); no other key is present |
| OllamaCall.ChatRequestFor | app_ui.py:89-102 | the request names the configured model and turns streaming on. It carries the fixed system message, then the prompt unchanged as the user message, and the options above |
| OllamaCall.GenerateArticle | app_ui.py:88-109 | the method sends exactly that request. It returns the contents of the streamed chunks concatenated in arrival order, a missing message or content counting as empty |
| OllamaCall.StreamTextAppend | app_ui.py:104-109 | the reply to a stream split in two is the reply to the first part followed by the reply to the second |
| OllamaCall.DroppingEmptyChunk | app_ui.py:106-108 | a chunk without content, wherever it arrives, leaves the reply unchanged, so skipping empty contents is harmless |
| OllamaCall.ContentInStreamText | app_ui.py:104-109 | every chunk's content occurs in the reply |
| ArticleForm.ParseKeywordsValid | app_ui.py:144 | every parsed keyword is non-empty, stripped and free of commas |
| ArticleForm.ParseKeywordsConcat | app_ui.py:144 | the keywords before and after a comma are read separately and kept in order |
| ArticleForm.ParseKeywordsSingle | app_ui.py:144 | text without a comma gives its stripped self as the one keyword, or nothing when blank |
| ArticleForm.ParseKeywordsBlank | app_ui.py:144 | an empty or whitespace-only field gives no keywords |
| ArticleForm.KeywordsRoundTrip | app_ui.py:144 | valid keywords joined with ", ", as the prompt lists them, are parsed back to the same list |
| ArticleForm.Submit | app_ui.py:137-160 | a blank topic is rejected with "Please enter a topic.". Otherwise the stored topic is the stripped, non-empty topic. The keywords are the parsed list. The seed is set exactly when the box is ticked, with the box's value. Audience, tone, language, extra instructions and model are the stripped form values; the reading level, target length and flags pass through, and the temperature is unchanged |
| ArticleForm.OnGenerateClicked | app_ui.py:137-164 | a press stops at the topic check exactly when the topic is blank. Otherwise it sends the chat request for the prompt of the submitted request and yields the streamed reply |
| ArticleForm.SettingsReachRequest | app_ui.py:156-160 | the request names the stripped model, carries the temperature, and carries a fixed seed unchanged; with the box unticked no seed is sent |
| ArticleForm.FormReachesPrompt | app_ui.py:142-154 | the stripped topic appears quoted in the prompt; the stripped audience, tone and language appear on their labelled lines; the parsed keywords appear on the keywords line; and non-blank extra instructions, stripped, end the prompt |

## Left out

- Streamlit rendering is not modelled: page setup, sidebar, widgets, status spinner, success message, markdown display and download button. Widget values enter as a `FormInput` value.
- The widgets' ranges (temperature 0.0–1.5, target length 300–3000 in steps of 50, integer seed) and the three options of the reading-level box are not modelled. The handler does not check them, so `FormInput` accepts any value.
- The network call `ollama.chat` is not modelled. `GenerateArticle` returns the request it would send, and takes the server's stream of chunks as a parameter. How the server's reply depends on the request is outside the model.
- Errors raised by the chat call or during streaming are not modelled, and neither are chunks that are not mappings or contents that are not strings.
- The timestamped download file name is not modelled, because it depends on the clock.
- The coercions `float(temperature)`, `int(target_words)` and `int(seed)` are not modelled; the values are already `real` and `int` here. The temperature is an exact number, not a binary float, because it is only passed through.
- Pydantic's field validation is not modelled; the Dafny types take its place.
- app.py is not part of this model.
- PromptLines.FlagLines: stated on the prompt's lines, and it assumes the fields that fill one line (topic, language, audience, tone, reading level, keywords) hold no line break.
- PromptLines.FlagLinesInPrompt: makes the same assumption, and also assumes that no line of the extra instructions is itself one of the four flagged lines, since free text can repeat any line.
- UnusedBlocks.SeoBlockNeverInPrompt: assumes that no field holds the sign ≤, which every SEO block item carries; a field could otherwise spell out the block itself.
- UnusedBlocks.ReferencesBlockNeverInPrompt: assumes that no field holds an apostrophe, which the references request carries; a field could otherwise spell out the request itself.
