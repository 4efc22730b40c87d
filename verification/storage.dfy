/** The browser's local storage as both pages use it: a map from keys to
    entries. The config is kept as a record (its JSON encoding is not
    modelled) and the document as plain text. */
module Storage {
  import opened Configuration

  /** The key the configuration form writes and the editor reads. */
  const ConfigKey: string := "assessment-config"

  /** The key the editor saves the document under and loads it from. */
  const ContentKey: string := "assessment-content"

  datatype Entry = ConfigEntry(config: Config) | TextEntry(text: string)

  type Store = map<string, Entry>
}
