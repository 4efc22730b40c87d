/** The editor page of app/editor/page.tsx: the document state, its load,
    save and export against local storage, and the consumer side of
    generation. */
module Editor {
  import opened Text
  import opened Configuration
  import opened Storage
  import opened Relay

  /** The file an export produces. */
  const ExportName: string := "assessment.md"
  const ExportType: string := "text/markdown"

  /** The alert shown when generation is started without an API key. */
  const MissingKeyAlert: string := "Please enter your API key. from config"

  /** Where the key guard sends the user. */
  const ConfigRoute: string := "/"

  /** A file offered for download. */
  datatype ExportFile = ExportFile(name: string, mimeType: string, content: string)

  /** What reading the config key gives: a config, or text that does not
      parse (parsing it throws). */
  datatype ConfigRead = Parsed(config: Config) | Unparsable

  /** The config generation uses: the stored one; the hard-coded fallback,
      with the same values as the form's defaults, when the key is missing or
      holds the empty string; and `Unparsable` when the key holds any other
      text. Only a stored config can carry an API key. */
  function StoredConfig(store: Store): (r: ConfigRead)
    ensures r.Parsed? && r.config.apiKey != "" ==> ConfigKey in store && store[ConfigKey] == ConfigEntry(r.config)
  {
    if ConfigKey !in store then Parsed(Defaults)
    else match store[ConfigKey]
      case ConfigEntry(c) => Parsed(c)
      case TextEntry(t) => if t == "" then Parsed(Defaults) else Unparsable
  }

  /** The stored document, with a missing entry read as "". A non-empty
      result is always the text stored under the content key. */
  function StoredContent(store: Store): (r: string)
    ensures r != "" ==> ContentKey in store && store[ContentKey] == TextEntry(r)
  {
    if ContentKey in store && store[ContentKey].TextEntry? then store[ContentKey].text else ""
  }

  /** Without a stored config, or with an empty string stored, the fallback
      is used, and it has no API key, so generation is refused. */
  lemma MissingConfigHasNoKey(store: Store)
    requires ConfigKey !in store || store[ConfigKey] == TextEntry("")
    ensures StoredConfig(store).Parsed? && StoredConfig(store).config.apiKey == ""
    ensures StoredConfig(store) == Parsed(Defaults) && !Valid(StoredConfig(store).config)
  {
  }

  /** Other text under the config key does not parse: there is no config to
      fall back to, and generation stops before any effect. */
  lemma StoredTextConfigUnparsable(store: Store)
    requires ConfigKey in store && store[ConfigKey].TextEntry? && store[ConfigKey].text != ""
    ensures StoredConfig(store) == Unparsable
  {
  }

  /** A config that passed the form's schema always has an API key, so a
      stored valid config is never refused. */
  lemma StoredValidConfigHasKey(store: Store, c: Config)
    requires ConfigKey in store && store[ConfigKey] == ConfigEntry(c) && Valid(c)
    ensures StoredConfig(store) == Parsed(c) && StoredConfig(store).config.apiKey != ""
  {
  }

  /** The page's state: the document, the saving flag, the page's view of
      local storage, the route and the alerts shown. Ghost fields record
      every request sent, the successive values of the document state and
      every value the saving flag took. */
  class EditorPage {
    var generation: string
    var isSaving: bool
    var store: Store
    var route: string
    var alerts: seq<string>
    ghost var sent: seq<Request>
    ghost var documentLog: seq<string>
    ghost var savingLog: seq<bool>

    constructor (store: Store)
      ensures this.store == store && generation == "" && !isSaving && route == "/editor"
      ensures alerts == [] && sent == [] && documentLog == [] && savingLog == []
    {
      this.store := store;
      generation := "";
      isSaving := false;
      route := "/editor";
      alerts := [];
      sent := [];
      documentLog := [];
      savingLog := [];
    }

    /** The mount effect: a non-empty stored document becomes the document;
        a missing or empty one leaves it as it is. */
    method Load()
      modifies this
      ensures StoredContent(store) != "" ==> generation == StoredContent(store) && documentLog == old(documentLog) + [generation]
      ensures StoredContent(store) == "" ==> generation == old(generation) && documentLog == old(documentLog)
      ensures store == old(store) && isSaving == old(isSaving) && route == old(route)
      ensures alerts == old(alerts) && sent == old(sent) && savingLog == old(savingLog)
    {
      var saved := StoredContent(store);
      if saved != "" {
        generation := saved;
        documentLog := documentLog + [generation];
      }
    }

    /** The outcome of saving `text`, relative to the state before: the
        saving flag was raised. If the write succeeded, `text` is stored
        under the content key and the flag is lowered again. If the write
        threw, nothing is stored and the flag stays raised, since nothing
        lowers it on that path. */
    twostate predicate Saved(text: string, storageThrows: bool)
      reads this
    {
      && (!storageThrows ==>
            store == old(store)[ContentKey := TextEntry(text)]
            && !isSaving && savingLog == old(savingLog) + [true, false])
      && (storageThrows ==>
            store == old(store) && isSaving && savingLog == old(savingLog) + [true])
    }

    /** Write `text` under the content key, raising the saving flag and
        lowering it again; `storageThrows` says whether the write throws.
        No other key changes. */
    method Persist(text: string, storageThrows: bool)
      modifies this
      ensures Saved(text, storageThrows)
      ensures forall k :: k in old(store) && k != ContentKey ==> k in store && store[k] == old(store)[k]
      ensures generation == old(generation) && route == old(route) && alerts == old(alerts)
      ensures sent == old(sent) && documentLog == old(documentLog)
    {
      isSaving := true;
      savingLog := savingLog + [true];
      if storageThrows {
        return;
      }
      store := store[ContentKey := TextEntry(text)];
      isSaving := false;
      savingLog := savingLog + [false];
    }

    /** handleSave: the current document is written under the content key. */
    method Save(storageThrows: bool)
      modifies this
      ensures Saved(generation, storageThrows)
      ensures !storageThrows ==> StoredContent(store) == generation
      ensures generation == old(generation) && route == old(route) && alerts == old(alerts)
      ensures sent == old(sent) && documentLog == old(documentLog)
    {
      Persist(generation, storageThrows);
    }

    /** handleExport: the download holds exactly the current document. */
    method Export() returns (file: ExportFile)
      ensures file.name == ExportName && file.mimeType == ExportType
      ensures file.content == generation
    {
      file := ExportFile(ExportName, ExportType, generation);
    }

    /** The reading loop of handleGenerate, from the reset document on: each
        delta is appended to the document as it arrives, so the document is
        always the concatenation of the deltas read so far. */
    method Accumulate(deltas: seq<string>)
      requires generation == ""
      modifies this
      ensures generation == Concat(deltas)
      ensures documentLog == old(documentLog) + Snapshots(deltas)[1..]
      ensures store == old(store) && sent == old(sent) && alerts == old(alerts) && route == old(route)
      ensures isSaving == old(isSaving) && savingLog == old(savingLog)
    {
      ghost var values := Snapshots(deltas);
      var i := 0;
      while i < |deltas|
        invariant 0 <= i <= |deltas|
        invariant generation == Concat(deltas[..i])
        invariant documentLog == old(documentLog) + values[1..i + 1]
        invariant store == old(store) && sent == old(sent) && alerts == old(alerts) && route == old(route)
        invariant isSaving == old(isSaving) && savingLog == old(savingLog)
      {
        ConcatStep(deltas, i);
        generation := generation + deltas[i];
        documentLog := documentLog + [generation];
        assert values[i + 1] == generation;
        assert values[1..i + 2] == values[1..i + 1] + [values[i + 1]];
        i := i + 1;
      }
      assert deltas[..i] == deltas;
    }

    /** The generation path of handleGenerate, once a config with an API
        key is in hand: the document is reset to "", the document as it was
        before the reset is saved (the save reads the state the handler was
        created with, and its outcome is not awaited, so a throwing write
        does not stop generation), one request is sent, and each delta the
        relay forwarded is appended in order: the document ends as exactly
        their concatenation, having taken the value "" and then every longer
        prefix. */
    method RunGeneration(config: Config, respond: Request -> seq<string>, storageThrows: bool)
      modifies this
      ensures var deltas := respond(RequestFor(config));
              && sent == old(sent) + [RequestFor(config)]
              && Saved(old(generation), storageThrows)
              && generation == Concat(deltas)
              && documentLog == old(documentLog) + Snapshots(deltas)
              && alerts == old(alerts) && route == old(route)
    {
      var before := generation;
      generation := "";
      documentLog := documentLog + [generation];
      Persist(before, storageThrows);

      var stream, request := Generate(config, respond);
      sent := sent + [request];
      Accumulate(stream.updates);
      assert Snapshots(stream.updates) == [""] + Snapshots(stream.updates)[1..];
    }

    /** handleGenerate. Text under the config key that does not parse makes
        the handler throw before any effect. Without an API key in the
        stored config (or in the fallback) the user is alerted and sent back
        to the form, and nothing else happens. Otherwise generation runs for
        that config. */
    method HandleGenerate(respond: Request -> seq<string>, storageThrows: bool)
      modifies this
      ensures StoredConfig(old(store)).Unparsable? ==>
                && alerts == old(alerts) && route == old(route)
                && generation == old(generation) && store == old(store) && isSaving == old(isSaving)
                && sent == old(sent) && documentLog == old(documentLog) && savingLog == old(savingLog)
      ensures var read := StoredConfig(old(store));
              read.Parsed? && read.config.apiKey == "" ==>
                && alerts == old(alerts) + [MissingKeyAlert] && route == ConfigRoute
                && generation == old(generation) && store == old(store) && isSaving == old(isSaving)
                && sent == old(sent) && documentLog == old(documentLog) && savingLog == old(savingLog)
      ensures var read := StoredConfig(old(store));
              read.Parsed? && read.config.apiKey != "" ==>
                var deltas := respond(RequestFor(read.config));
                && sent == old(sent) + [RequestFor(read.config)]
                && Saved(old(generation), storageThrows)
                && generation == Concat(deltas)
                && documentLog == old(documentLog) + Snapshots(deltas)
                && alerts == old(alerts) && route == old(route)
    {
      var read := StoredConfig(store);
      if read.Unparsable? {
        return;
      }
      if read.config.apiKey == "" {
        alerts := alerts + [MissingKeyAlert];
        route := ConfigRoute;
        return;
      }
      RunGeneration(read.config, respond, storageThrows);
    }
  }
}
