/** `generate_article`: the chat request sent to the local model server and
    the assembly of the streamed reply.

    The server itself is outside the model: the request the function would
    send is returned as a value, and the stream of chunks the server answers
    with is a parameter. */
module OllamaCall {
  import opened Text
  import opened Models

  const SystemInstruction := "Write clear, accurate, " + "reader-friendly content. " + "Prefer Markdown."

  datatype Role = System | User

  datatype Message = Message(role: Role, content: string)

  /** The values the options map carries: the temperature is a float, the seed an integer. */
  datatype OptionValue = FloatOption(number: real) | IntOption(whole: int)

  datatype ChatRequest = ChatRequest(
    model: string,
    messages: seq<Message>,
    stream: bool,
    options: map<string, OptionValue>)

  /** One streamed chunk.  Either level may be missing from the chunk object. */
  datatype ChunkMessage = ChunkMessage(content: Option<string>)

  datatype Chunk = Chunk(message: Option<ChunkMessage>)

  /** The sampling options: the temperature always, the seed only when one is set. */
  function ChatOptions(cfg: GenConfig): (r: map<string, OptionValue>)
    ensures "temperature" in r && r["temperature"] == FloatOption(cfg.temperature)
    ensures "seed" in r <==> cfg.seed.Some?
    ensures cfg.seed.Some? ==> r["seed"] == IntOption(cfg.seed.value)
    ensures forall key :: key in r ==> key == "temperature" || key == "seed"
  {
    var base := map["temperature" := FloatOption(cfg.temperature)];
    if cfg.seed.Some? then base["seed" := IntOption(cfg.seed.value)] else base
  }

  /** The request `ollama.chat` receives: the configured model, a fixed
      system message followed by the prompt as the user message, streaming
      on, and the sampling options. */
  function ChatRequestFor(prompt: string, cfg: GenConfig): (r: ChatRequest)
    ensures r.model == cfg.model && r.stream
    ensures |r.messages| == 2
    ensures r.messages[0] == Message(System, SystemInstruction)
    ensures r.messages[1].role == User && r.messages[1].content == prompt
    ensures r.options == ChatOptions(cfg)
  {
    ChatRequest(cfg.model, [Message(System, SystemInstruction), Message(User, prompt)], true, ChatOptions(cfg))
  }

  /** `chunk.get("message", {}).get("content", "")`: a missing message or a
      missing content reads as the empty string. */
  function ChunkContent(chunk: Chunk): string
  {
    match chunk.message
    case None => ""
    case Some(m) => if m.content.Some? then m.content.value else ""
  }

  /** The reply: the contents of the chunks, in the order they arrived. */
  function StreamText(chunks: seq<Chunk>): string
  {
    if chunks == [] then "" else ChunkContent(chunks[0]) + StreamText(chunks[1..])
  }

  lemma {:induction false} StreamTextAppend(a: seq<Chunk>, b: seq<Chunk>)
    ensures StreamText(a + b) == StreamText(a) + StreamText(b)
    decreases |a|
  {
    if a == [] {
      assert a + b == b;
    } else {
      assert (a + b)[0] == a[0];
      assert (a + b)[1..] == a[1..] + b;
      StreamTextAppend(a[1..], b);
    }
  }

  /** A chunk without content, wherever it arrives, leaves the reply unchanged. */
  lemma DroppingEmptyChunk(a: seq<Chunk>, chunk: Chunk, b: seq<Chunk>)
    requires ChunkContent(chunk) == ""
    ensures StreamText(a + [chunk] + b) == StreamText(a + b)
  {
    StreamTextAppend(a + [chunk], b);
    StreamTextAppend(a, [chunk]);
    StreamTextAppend(a, b);
    StreamTextSingle(chunk);
    var ta, tb := StreamText(a), StreamText(b);
    assert StreamText(a + [chunk]) == ta + "";
    assert ta + "" == ta;
  }

  lemma StreamTextSingle(chunk: Chunk)
    ensures StreamText([chunk]) == ChunkContent(chunk)
  {
    assert [chunk][1..] == [];
  }

  /** The reply never holds more than the chunks' contents: each content
      occurs in it. */
  lemma {:induction false} ContentInStreamText(chunks: seq<Chunk>, k: nat)
    requires k < |chunks|
    ensures Contains(StreamText(chunks), ChunkContent(chunks[k]))
    decreases |chunks|
  {
    if k == 0 {
      ContainsMiddle("", ChunkContent(chunks[0]), StreamText(chunks[1..]));
      assert "" + ChunkContent(chunks[0]) + StreamText(chunks[1..]) == StreamText(chunks);
    } else {
      ContentInStreamText(chunks[1..], k - 1);
      ContainsWithin(StreamText(chunks[1..]), ChunkContent(chunks[k]), ChunkContent(chunks[0]), "");
      assert ChunkContent(chunks[0]) + StreamText(chunks[1..]) + "" == StreamText(chunks);
    }
  }

  /** `generate_article(prompt, cfg)` against a server that answers with
      `response`: the request it sends, and the text it returns. */
  method GenerateArticle(prompt: string, cfg: GenConfig, response: seq<Chunk>)
    returns (request: ChatRequest, text: string)
    ensures request == ChatRequestFor(prompt, cfg)
    ensures text == StreamText(response)
  {
    request := ChatRequest(cfg.model, [Message(System, SystemInstruction), Message(User, prompt)], true,
                           ChatOptions(cfg));
    var parts: seq<string> := [];
    var i := 0;
    while i < |response|
      invariant 0 <= i <= |response|
      invariant forall k :: 0 <= k < |parts| ==> parts[k] != ""
      invariant Join(parts, "") == StreamText(response[..i])
    {
      var content := ChunkContent(response[i]);
      assert response[..i + 1] == response[..i] + [response[i]];
      StreamTextAppend(response[..i], [response[i]]);
      assert StreamText([response[i]]) == content + StreamText([]);
      if content != "" {
        ConcatSnoc(parts, content);
        parts := parts + [content];
      }
      i := i + 1;
    }
    assert response[..i] == response;
    text := Join(parts, "");
  }
}
