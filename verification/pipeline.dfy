/** Both pages in sequence, as a user drives them: submit the form on a
    fresh browser, open the editor, start generation, export. */
module Pipeline {
  import opened Text
  import opened Configuration
  import opened Relay
  import opened ConfigPage
  import opened Editor
  import Prompt

  /** A valid config whose storing succeeds yields, in the editor, exactly the
      concatenation of the model's deltas for that config's request, and the
      export holds that document. Any other submit stores nothing, so the
      editor falls back to a config without API key and the document stays
      empty. Whether the editor's own save throws (`saveThrows`) does not
      change the document. */
  method SubmitThenGenerate(values: Config, storageThrows: bool, saveThrows: bool,
                            respond: Request -> seq<string>)
    returns (document: string, exported: ExportFile)
    ensures Valid(values) && !storageThrows ==> document == Concat(respond(RequestFor(values)))
    ensures !(Valid(values) && !storageThrows) ==> document == ""
    ensures exported == ExportFile(ExportName, ExportType, document)
  {
    var form := new ConfigForm(map[]);
    form.HandleSubmit(values, storageThrows);
    var editor := new EditorPage(form.store);
    editor.Load();
    editor.HandleGenerate(respond, saveThrows);
    document := editor.generation;
    exported := editor.Export();
  }

  /** The fragments "Hel", "lo, ", "world" make the document "Hello, world". */
  lemma FragmentScenario()
    ensures Concat(["Hel", "lo, ", "world"]) == "Hello, world"
    ensures Snapshots(["Hel", "lo, ", "world"]) == ["", "Hel", "Hello, ", "Hello, world"]
  {
    var parts := ["Hel", "lo, ", "world"];
    assert parts[..0] == [];
    ConcatStep(parts, 0);
    ConcatStep(parts, 1);
    ConcatStep(parts, 2);
    assert parts[..3] == parts;
    assert Concat(parts[..1]) == "Hel";
    assert Concat(parts[..2]) == "Hello, ";
  }

  /** The prompt for a sample stack names each of its technologies and the theme. */
  lemma PromptScenario()
    ensures var r := Prompt.GetPrompt("Inventory Tracker", "React", "Go", "Postgres", "Bootstrap", "Formik");
            && Contains(r, "Inventory Tracker") && Contains(r, "React") && Contains(r, "Go")
            && Contains(r, "Postgres") && Contains(r, "Bootstrap") && Contains(r, "Formik")
  {
    Prompt.PromptContainsArguments("Inventory Tracker", "React", "Go", "Postgres", "Bootstrap", "Formik");
  }
}
