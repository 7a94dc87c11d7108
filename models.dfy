/** The two request records of the article generator, with the defaults the
    source gives their fields. */
module Models {

  datatype Option<T> = None | Some(value: T)

  /** What article to write. `topic` has no default; every other field does. */
  datatype ArticleRequest = ArticleRequest(
    topic: string,
    keywords: seq<string> := [],
    audience: string := "General readers",
    tone: string := "Informative and engaging",
    language: string := "English",
    targetWords: int := 1000,
    includeOutline: bool := true,
    includeSeo: bool := true,
    includeReferences: bool := false,
    readingLevel: string := "Easy to read (Grade 8\U{2013}10)",
    extraInstructions: string := "")

  /** How to call the model. The temperature is only passed through to the
      endpoint, so it is carried as an exact number and never computed with;
      an absent seed means non-deterministic sampling. */
  datatype GenConfig = GenConfig(
    model: string := "phi3:3.8b",
    temperature: real := 0.7,
    seed: Option<int> := None)
}
