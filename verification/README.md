# pgfplots picture serialiser, modelled in Dafny

This project models the root node of the `pgfplots` Rust crate's scene graph:
the TikZ `Picture` environment. It covers four parts:

- the picture's key list and the rule by which `add_key` extends it;
- the rendering of a picture to LaTeX source (`impl Display for Picture`);
- the standalone LaTeX document that wraps that rendering;
- the fixed command name of the installed engine.

Files:

- `text.dfy` (module `Text`): helpers shared by the renderer. `Concat` joins a
  list of fragments, `FirstNewline` finds the end of a line, and small lemmas
  locate a fragment inside a concatenation.
- `pgfplots.dfy` (module `Pgfplots`): the model itself. It has the `Engine`
  and `PictureKey` datatypes, an `Axis` value, the pure specification
  `Render(keys, axes)`, the document wrapper `Standalone`, and a `Picture`
  class.
- `Picture` class: it holds the `keys` and `axes` fields. `AddKey` updates
  `keys` in place. `Fmt`, `FmtOptions` and `FmtAxes` build the text with the
  same loops as the Rust `fmt`, and are proved equal to `Render`.

Modelling choices:

- An axis belongs to the crate's `axis` module, which is not part of this
  model. `Axis` holds only the text its own `Display` produces.
  `Render` writes that text followed by a line feed.
- The crate's general design evicts earlier keys of the same conflict group
  when a key is added. `Picture` has only the free-form `Custom` key, which
  belongs to no group, and its `add_key` does nothing but push. The model
  follows that code: adding a key always appends.
- Writing to a `fmt::Formatter` that targets a `String` cannot fail. The
  model therefore returns the text directly instead of a `fmt::Result`.

## Model

| member | source | states |
|---|---|---|
| `Pgfplots.EngineName` | src/lib.rs:80-86 | `PdfLatex` is launched under the name `"pdflatex"`, a non-empty lower-case command name |
| `Pgfplots.KeyText` | src/lib.rs:102-107 | a `Custom` key renders as its own text, character for character and unescaped; the key is recovered from its rendering |
| `Pgfplots.WithKey` | src/lib.rs:176-183 | inserting a free-form key appends it: the result is one longer, the old keys are an unchanged prefix, and the new key is last |
| `Pgfplots.WithKeysAppendsAll` | src/lib.rs:97-99 | after any run of insertions the key list is the old list followed by the inserted keys, in insertion order, duplicates included |
| `Pgfplots.Picture.constructor` | src/lib.rs:162-164 | a new picture has no keys and no axes |
| `Pgfplots.Picture.AddKey` | src/lib.rs:176-183 | `keys` becomes the old list with the key appended, and `axes` is unchanged |
| `Pgfplots.Picture.Fmt` | src/lib.rs:128-150 | the text written is exactly `Render(keys, axes)`: opening tag, options clause, line feed, axis lines, closing tag |
| `Pgfplots.Picture.FmtOptions` | src/lib.rs:133-139 | the loop over the keys writes exactly the options clause: nothing without keys, otherwise `[`, a line feed, each key line in order, then `]` |
| `Pgfplots.Picture.FmtAxes` | src/lib.rs:142-144 | the loop over the axes writes each axis followed by a line feed, in list order |
| `Pgfplots.OptionsClausePresence` | src/lib.rs:130-140 | the character after the opening tag is `[` exactly when there are keys; without keys the rendering is opening tag, line feed, axis lines, closing tag |
| `Pgfplots.RenderLayout` | src/lib.rs:130-140 | the rendering starts with the opening tag, followed directly by the options clause and a line feed |
| `Pgfplots.KeyLineAt` | src/lib.rs:133-138 | the options clause starts with `[` and a line feed and ends with `]`; the slot of key `i` holds exactly `\t`, its text, `,` and a line feed; consecutive slots follow in list order up to the closing bracket |
| `Pgfplots.AxisLineAt` | src/lib.rs:140-146 | the slot of axis `i` holds exactly its text and a line feed; the slots start after the options clause and its line feed, follow in list order, and the closing tag comes right after the last one and ends the text |
| `Pgfplots.KeyLinesRoundTrip` | src/lib.rs:133-138 | when no key holds a line feed, the key lines can be read back into exactly the original key list |
| `Pgfplots.ParseKeyLine` | src/lib.rs:136 | one key line is read back as its key, and reading continues right after its line feed |
| `Pgfplots.NewlineInKeyIsAmbiguous` | src/lib.rs:97-99 | keys are not escaped, so a key holding `,`, a line feed and a tab renders the same picture as two separate keys |
| `Pgfplots.Standalone` | src/lib.rs:209-211 | the document starts with the fixed preamble, and the body is recovered exactly from between the preamble and `\n\end{document}` |
| `Pgfplots.Picture.StandaloneString` | src/lib.rs:209-211 | the picture's document holds exactly the picture's rendering between the preamble and the closing |
| `Pgfplots.EmptyPictureDocument` | src/lib.rs:196-208 | the document of an empty picture is exactly the text given in the `standalone_string` documentation example |

## Left out

- `Picture::show`, `Picture::show_with`, `temp_output_dir` and `compile_figure_with` (src/lib.rs:224-295) are left out. They delete and recreate the temporary directory, write files, launch the engine as a subprocess, call the embedded Tectonic compiler and open the PDF viewer. All of this is I/O, with no logic that can be stated apart from it.
- The `Compiler` enum is left out because it only selects between those two compile strategies.
- `ShowPdfError` is left out because it only wraps the error types of foreign libraries.
- The `axis` module (`Axis`, `Plot2D`, their keys and conflict rules) is not part of this model. An axis is represented only by its rendered text.
- The `fmt::Result` errors that `fmt` propagates with `?` are not modelled, because writing to a `String` never fails.
- The documentation's advice to replace line feeds and tabs before compiling is a note, not code. Nothing in the crate does this replacement.
- `#[non_exhaustive]` on `Engine` and `PictureKey` allows variants to be added later. Only the existing variants are modelled.
- Rendering twice without a change gives the same text. No lemma states this, because `Render` is a Dafny function and is therefore deterministic.
