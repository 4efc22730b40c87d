/** The prompt builder of app/prompt.ts: six arguments spliced, without any
    escaping, into a fixed instruction text. */
module Prompt {
  import opened Text

  /** The constant text of a prompt template, piece by piece: the text before
      the first argument, between each two arguments, and after the last. */
  datatype Template = Template(
    intro: string,
    afterFrontend: string,
    afterBackend: string,
    afterDatabase: string,
    afterUiFramework: string,
    afterFormLibrary: string,
    closing: string)
  {
    /** The number of characters the template itself contributes. */
    function Length(): nat
    {
      |intro| + |afterFrontend| + |afterBackend| + |afterDatabase|
      + |afterUiFramework| + |afterFormLibrary| + |closing|
    }
  }

  // The fixed instruction text of the assessment prompt. The two long prose
  // blocks (the instructions before the technology stack, and those between
  // the form library and the theme) are abbreviated to "[...]"; every
  // property below holds whatever their wording is. The short separators
  // around the stack entries are given exactly.
  const Assessment: Template := Template(
    "\nYou are an expert in designing technical assessments [...]\n*   **Technology Stack:** Imply the use of:\n    *   Frontend: ",
    ".\n    *   Backend: ",
    ".\n    *   Database: ",
    ".\n    *   UI: ",
    "\n    *   Forms: ",
    "\n*   **Open-Ended Considerations:** [...]\n\n**Now generate one such challenge. With the theme ",
    "** \n  ")

  /** The template literal: the template's pieces and the six arguments in
      text order (frontend, backend, database, UI framework, form library,
      theme), each argument between the two pieces around it. */
  function Pieces(t: Template, businessTheme: string, frontend: string, backend: string,
                  database: string, uiFramework: string, formLibrary: string): seq<string>
  {
    [t.intro, frontend, t.afterFrontend, backend, t.afterBackend, database, t.afterDatabase,
     uiFramework, t.afterUiFramework, formLibrary, t.afterFormLibrary, businessTheme, t.closing]
  }

  /** The rendered template: its pieces joined, each argument spliced
      verbatim. */
  function Render(t: Template, businessTheme: string, frontend: string, backend: string,
                  database: string, uiFramework: string, formLibrary: string): string
  {
    Concat(Pieces(t, businessTheme, frontend, backend, database, uiFramework, formLibrary))
  }

  /** getPrompt: total and deterministic, also on empty arguments. The
      parameter order is the source's, with the theme first. */
  function GetPrompt(businessTheme: string, frontend: string, backend: string,
                     database: string, uiFramework: string, formLibrary: string): string
  {
    Render(Assessment, businessTheme, frontend, backend, database, uiFramework, formLibrary)
  }

  /** Where each argument starts in a rendered template, computed from the
      pieces that precede it, in text order: frontend, backend, database,
      UI framework, form library, theme. */
  function ArgumentStarts(t: Template, frontend: string, backend: string,
                          database: string, uiFramework: string, formLibrary: string): seq<nat>
  {
    var f := |t.intro|;
    var b := f + |frontend| + |t.afterFrontend|;
    var d := b + |backend| + |t.afterBackend|;
    var u := d + |database| + |t.afterDatabase|;
    var l := u + |uiFramework| + |t.afterUiFramework|;
    var m := l + |formLibrary| + |t.afterFormLibrary|;
    [f, b, d, u, l, m]
  }

  /** A rendered template is tiled exactly by the template's pieces and the
      arguments: each argument sits verbatim at its start position, and only
      constant template text lies before, between and after them. */
  lemma RenderLayout(t: Template, businessTheme: string, frontend: string, backend: string,
                     database: string, uiFramework: string, formLibrary: string)
    ensures var r := Render(t, businessTheme, frontend, backend, database, uiFramework, formLibrary);
            var s := ArgumentStarts(t, frontend, backend, database, uiFramework, formLibrary);
            && s[5] + |businessTheme| + |t.closing| == |r|
            && r[..s[0]] == t.intro
            && r[s[0]..s[0] + |frontend|] == frontend
            && r[s[0] + |frontend|..s[1]] == t.afterFrontend
            && r[s[1]..s[1] + |backend|] == backend
            && r[s[1] + |backend|..s[2]] == t.afterBackend
            && r[s[2]..s[2] + |database|] == database
            && r[s[2] + |database|..s[3]] == t.afterDatabase
            && r[s[3]..s[3] + |uiFramework|] == uiFramework
            && r[s[3] + |uiFramework|..s[4]] == t.afterUiFramework
            && r[s[4]..s[4] + |formLibrary|] == formLibrary
            && r[s[4] + |formLibrary|..s[5]] == t.afterFormLibrary
            && r[s[5]..s[5] + |businessTheme|] == businessTheme
            && r[s[5] + |businessTheme|..] == t.closing
  {
    RenderArguments(t, businessTheme, frontend, backend, database, uiFramework, formLibrary);
    RenderLeadingText(t, businessTheme, frontend, backend, database, uiFramework, formLibrary);
    RenderTrailingText(t, businessTheme, frontend, backend, database, uiFramework, formLibrary);
  }

  /** The arguments of a rendered template, each at its start position,
      and the closing text after the last. */
  lemma RenderArguments(t: Template, businessTheme: string, frontend: string, backend: string,
                         database: string, uiFramework: string, formLibrary: string)
    ensures var r := Render(t, businessTheme, frontend, backend, database, uiFramework, formLibrary);
            var s := ArgumentStarts(t, frontend, backend, database, uiFramework, formLibrary);
            && s[5] + |businessTheme| + |t.closing| == |r|
            && r[s[0]..s[0] + |frontend|] == frontend
            && r[s[1]..s[1] + |backend|] == backend
            && r[s[2]..s[2] + |database|] == database
            && r[s[3]..s[3] + |uiFramework|] == uiFramework
            && r[s[4]..s[4] + |formLibrary|] == formLibrary
            && r[s[5]..s[5] + |businessTheme|] == businessTheme
            && r[s[5] + |businessTheme|..] == t.closing
  {
    var parts := Pieces(t, businessTheme, frontend, backend, database, uiFramework, formLibrary);
    PieceOffsets(t, businessTheme, frontend, backend, database, uiFramework, formLibrary);
    var s := ArgumentStarts(t, frontend, backend, database, uiFramework, formLibrary);
    PieceAt(parts, 1, s[0]); PieceAt(parts, 3, s[1]); PieceAt(parts, 5, s[2]);
    PieceAt(parts, 7, s[3]); PieceAt(parts, 9, s[4]); PieceAt(parts, 11, s[5]);
    PieceAt(parts, 12, s[5] + |businessTheme|);
  }

  /** The template text of a rendered template before the database. */
  lemma RenderLeadingText(t: Template, businessTheme: string, frontend: string, backend: string,
                         database: string, uiFramework: string, formLibrary: string)
    ensures var r := Render(t, businessTheme, frontend, backend, database, uiFramework, formLibrary);
            var s := ArgumentStarts(t, frontend, backend, database, uiFramework, formLibrary);
            && s[5] + |businessTheme| + |t.closing| == |r|
            && r[..s[0]] == t.intro
            && r[s[0] + |frontend|..s[1]] == t.afterFrontend
            && r[s[1] + |backend|..s[2]] == t.afterBackend
  {
    var parts := Pieces(t, businessTheme, frontend, backend, database, uiFramework, formLibrary);
    PieceOffsets(t, businessTheme, frontend, backend, database, uiFramework, formLibrary);
    var s := ArgumentStarts(t, frontend, backend, database, uiFramework, formLibrary);
    PieceAt(parts, 0, 0); PieceAt(parts, 2, s[0] + |frontend|); PieceAt(parts, 4, s[1] + |backend|);
  }

  /** The template text of a rendered template from the database on, up to
      the theme. */
  lemma RenderTrailingText(t: Template, businessTheme: string, frontend: string, backend: string,
                         database: string, uiFramework: string, formLibrary: string)
    ensures var r := Render(t, businessTheme, frontend, backend, database, uiFramework, formLibrary);
            var s := ArgumentStarts(t, frontend, backend, database, uiFramework, formLibrary);
            && s[5] + |businessTheme| + |t.closing| == |r|
            && r[s[2] + |database|..s[3]] == t.afterDatabase
            && r[s[3] + |uiFramework|..s[4]] == t.afterUiFramework
            && r[s[4] + |formLibrary|..s[5]] == t.afterFormLibrary
  {
    var parts := Pieces(t, businessTheme, frontend, backend, database, uiFramework, formLibrary);
    PieceOffsets(t, businessTheme, frontend, backend, database, uiFramework, formLibrary);
    var s := ArgumentStarts(t, frontend, backend, database, uiFramework, formLibrary);
    PieceAt(parts, 6, s[2] + |database|); PieceAt(parts, 8, s[3] + |uiFramework|);
    PieceAt(parts, 10, s[4] + |formLibrary|);
  }

  /** Piece `k` sits verbatim in the joined pieces at `start`, the length of
      the pieces before it. */
  lemma PieceAt(parts: seq<string>, k: nat, start: nat)
    requires k < |parts| && |Concat(parts[..k])| == start
    ensures start + |parts[k]| <= |Concat(parts)|
    ensures Concat(parts)[start..start + |parts[k]|] == parts[k]
  {
    ConcatTiles(parts, k);
  }

  /** Where each piece starts in a rendered template: after all the pieces
      before it. */
  lemma PieceOffsets(t: Template, businessTheme: string, frontend: string, backend: string,
                     database: string, uiFramework: string, formLibrary: string)
    ensures var parts := Pieces(t, businessTheme, frontend, backend, database, uiFramework, formLibrary);
            var s := ArgumentStarts(t, frontend, backend, database, uiFramework, formLibrary);
            && |Concat(parts[..0])| == 0
            && |Concat(parts[..1])| == s[0]
            && |Concat(parts[..2])| == s[0] + |frontend|
            && |Concat(parts[..3])| == s[1]
            && |Concat(parts[..4])| == s[1] + |backend|
            && |Concat(parts[..5])| == s[2]
            && |Concat(parts[..6])| == s[2] + |database|
            && |Concat(parts[..7])| == s[3]
            && |Concat(parts[..8])| == s[3] + |uiFramework|
            && |Concat(parts[..9])| == s[4]
            && |Concat(parts[..10])| == s[4] + |formLibrary|
            && |Concat(parts[..11])| == s[5]
            && |Concat(parts[..12])| == s[5] + |businessTheme|
            && parts[..13] == parts
  {
    var parts := Pieces(t, businessTheme, frontend, backend, database, uiFramework, formLibrary);
    assert parts[..0] == [];
    ConcatStep(parts, 0); ConcatStep(parts, 1); ConcatStep(parts, 2); ConcatStep(parts, 3);
    ConcatStep(parts, 4); ConcatStep(parts, 5); ConcatStep(parts, 6); ConcatStep(parts, 7);
    ConcatStep(parts, 8); ConcatStep(parts, 9); ConcatStep(parts, 10); ConcatStep(parts, 11);
  }

  /** In the assessment prompt every argument appears verbatim, at its own
      position, and the positions come in the fixed text order with template
      text between each two: no argument is dropped, swapped or merged into
      its neighbour. */
  lemma PromptLayout(businessTheme: string, frontend: string, backend: string,
                     database: string, uiFramework: string, formLibrary: string)
    ensures var r := GetPrompt(businessTheme, frontend, backend, database, uiFramework, formLibrary);
            var s := ArgumentStarts(Assessment, frontend, backend, database, uiFramework, formLibrary);
            && s[0] + |frontend| < s[1] && s[1] + |backend| < s[2] && s[2] + |database| < s[3]
            && s[3] + |uiFramework| < s[4] && s[4] + |formLibrary| < s[5]
            && OccursAt(r, frontend, s[0]) && OccursAt(r, backend, s[1])
            && OccursAt(r, database, s[2]) && OccursAt(r, uiFramework, s[3])
            && OccursAt(r, formLibrary, s[4]) && OccursAt(r, businessTheme, s[5])
  {
    RenderLayout(Assessment, businessTheme, frontend, backend, database, uiFramework, formLibrary);
  }

  /** Every argument appears verbatim in the prompt. */
  lemma PromptContainsArguments(businessTheme: string, frontend: string, backend: string,
                                database: string, uiFramework: string, formLibrary: string)
    ensures var r := GetPrompt(businessTheme, frontend, backend, database, uiFramework, formLibrary);
            && Contains(r, frontend) && Contains(r, backend) && Contains(r, database)
            && Contains(r, uiFramework) && Contains(r, formLibrary) && Contains(r, businessTheme)
  {
    PromptLayout(businessTheme, frontend, backend, database, uiFramework, formLibrary);
  }

  /** Nothing is escaped, trimmed or dropped: the prompt is exactly as long as
      the template plus the six arguments. */
  lemma PromptLength(businessTheme: string, frontend: string, backend: string,
                     database: string, uiFramework: string, formLibrary: string)
    ensures |GetPrompt(businessTheme, frontend, backend, database, uiFramework, formLibrary)|
            == Assessment.Length() + |frontend| + |backend| + |database| + |uiFramework|
               + |formLibrary| + |businessTheme|
  {
    RenderArguments(Assessment, businessTheme, frontend, backend, database, uiFramework, formLibrary);
  }
}
