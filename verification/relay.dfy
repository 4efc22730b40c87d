/** The producer side of generation, app/action.ts: build the request from
    the config, forward every text delta of the model's response to a
    streamable handle, then close the handle once. */
module Relay {
  import opened Text
  import opened Configuration
  import Prompt

  /** The model every request names. */
  const ModelId: string := "gemini-1.5-flash"

  /** The sampling temperature every request uses. */
  const Temperature: int := 1

  /** One text-generation request: the provider is built from the API key,
      and the request names the model, the temperature and the prompt. */
  datatype Request = Request(apiKey: string, model: string, temperature: int, prompt: string)

  /** The request generation sends for a config. Each config field lands in
      the prompt parameter of the same name: every stack field and the theme
      sit verbatim at their own positions of the prompt, in text order. */
  function RequestFor(config: Config): (r: Request)
    ensures r.apiKey == config.apiKey && r.model == ModelId && r.temperature == Temperature
    ensures var s := Prompt.ArgumentStarts(Prompt.Assessment, config.frontend, config.backend,
                                           config.database, config.uiFramework, config.formLibrary);
            && OccursAt(r.prompt, config.frontend, s[0])
            && OccursAt(r.prompt, config.backend, s[1])
            && OccursAt(r.prompt, config.database, s[2])
            && OccursAt(r.prompt, config.uiFramework, s[3])
            && OccursAt(r.prompt, config.formLibrary, s[4])
            && OccursAt(r.prompt, config.businessTheme, s[5])
  {
    Prompt.PromptLayout(config.businessTheme, config.frontend, config.backend,
                        config.database, config.uiFramework, config.formLibrary);
    Request(config.apiKey, ModelId, Temperature,
            Prompt.GetPrompt(config.businessTheme, config.frontend, config.backend,
                             config.database, config.uiFramework, config.formLibrary))
  }

  /** A write-once streamable handle: the updates it has been given, in
      order, and whether it has been closed. Nothing may be written to it
      after it is closed, and it is closed at most once. */
  class StreamableValue {
    const initial: string
    var updates: seq<string>
    var isDone: bool

    constructor (initial: string)
      ensures this.initial == initial && updates == [] && !isDone
    {
      this.initial := initial;
      updates := [];
      isDone := false;
    }

    /** update: hand one more value to the readers. */
    method Update(delta: string)
      requires !isDone
      modifies this
      ensures updates == old(updates) + [delta] && !isDone
    {
      updates := updates + [delta];
    }

    /** done: close the handle. */
    method Done()
      requires !isDone
      modifies this
      ensures isDone && updates == old(updates)
    {
      isDone := true;
    }
  }

  /** generate: the handle starts at "", the request is built from the
      config, each delta of the model's response (`respond` stands for the
      model service) is forwarded once, in arrival order, and the handle is
      closed after the last one. The returned handle is the one readers
      consume. */
  method Generate(config: Config, respond: Request -> seq<string>)
    returns (stream: StreamableValue, request: Request)
    ensures request == RequestFor(config)
    ensures fresh(stream) && stream.initial == ""
    ensures stream.updates == respond(request) && stream.isDone
  {
    stream := new StreamableValue("");
    request := RequestFor(config);
    var textStream := respond(request);
    for i := 0 to |textStream|
      invariant stream.updates == textStream[..i] && !stream.isDone
    {
      stream.Update(textStream[i]);
    }
    assert textStream[..|textStream|] == textStream;
    stream.Done();
  }
}
