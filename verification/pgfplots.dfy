/** The root of the PGFPlots scene graph: the TikZ `picture` environment,
    its option keys, its rendering to LaTeX source, the standalone document
    that wraps it, and the name of the installed LaTeX engine. */
module Pgfplots {
  import opened Text

  datatype Option<T> = None | Some(value: T)

  // ---------------------------------------------------------------------
  // Engine

  /** A LaTeX engine installed on the host. */
  datatype Engine = PdfLatex

  /** The command name under which the engine is launched. */
  function EngineName(e: Engine): (name: string)
    ensures e == PdfLatex ==> name == "pdflatex"
    ensures |name| > 0 && forall i :: 0 <= i < |name| ==> 'a' <= name[i] <= 'z'
  {
    match e
    case PdfLatex => "pdflatex"
  }

  // ---------------------------------------------------------------------
  // Picture keys

  /** An option of the picture environment. The only variant is a free-form
      key, written out exactly as the caller gave it. */
  datatype PictureKey = Custom(text: string)

  /** The text a key contributes to the options clause. Nothing is escaped:
      the key is recovered from its text, whatever characters it holds. */
  function KeyText(k: PictureKey): (s: string)
    ensures Custom(s) == k
    ensures |s| == |k.text| && forall i :: 0 <= i < |s| ==> s[i] == k.text[i]
  {
    match k
    case Custom(key) => key
  }

  /** The key list after one insertion. A free-form key belongs to no
      conflict group, so nothing is removed and the key goes to the end. */
  function WithKey(keys: seq<PictureKey>, key: PictureKey): (r: seq<PictureKey>)
    ensures |r| == |keys| + 1
    ensures r[..|keys|] == keys && r[|keys|] == key
  {
    match key
    case Custom(_) => keys + [key]
  }

  /** The key list after inserting `ks` one after another. */
  function WithKeys(keys: seq<PictureKey>, ks: seq<PictureKey>): seq<PictureKey>
    decreases |ks|
  {
    if ks == [] then keys else WithKeys(WithKey(keys, ks[0]), ks[1..])
  }

  /** Free-form keys are never deduplicated: any run of insertions keeps
      every key, duplicates included, in insertion order after the keys
      already present. */
  lemma {:induction false} WithKeysAppendsAll(keys: seq<PictureKey>, ks: seq<PictureKey>)
    ensures WithKeys(keys, ks) == keys + ks
    decreases |ks|
  {
    if ks != [] {
      var next := keys + [ks[0]];
      assert WithKey(keys, ks[0]) == next;
      WithKeysAppendsAll(next, ks[1..]);
      assert next + ks[1..] == keys + ks;
    }
  }

  // ---------------------------------------------------------------------
  // Axes

  /** An axis environment inside the picture. The axis module is not part
      of this model: an axis is represented by the text its rendering
      produces. */
  datatype Axis = Axis(rendered: string)

  function AxisText(a: Axis): string
  {
    a.rendered
  }

  // ---------------------------------------------------------------------
  // Rendering of the picture environment

  const Open := "\\begin{tikzpicture}"
  const Close := "\\end{tikzpicture}"

  /** One line of the options clause: a tab, the key, a comma, a line feed. */
  function KeyLine(k: PictureKey): string
  {
    "\t" + KeyText(k) + ",\n"
  }

  function KeyLines(keys: seq<PictureKey>): seq<string>
  {
    seq(|keys|, i requires 0 <= i < |keys| => KeyLine(keys[i]))
  }

  /** One line per axis: its text followed by a line feed. */
  function AxisLine(a: Axis): string
  {
    AxisText(a) + "\n"
  }

  function AxisLines(axes: seq<Axis>): seq<string>
  {
    seq(|axes|, i requires 0 <= i < |axes| => AxisLine(axes[i]))
  }

  /** The bracketed options clause, present only when there are keys. */
  function OptionsClause(keys: seq<PictureKey>): string
  {
    if keys == [] then "" else "[\n" + Concat(KeyLines(keys)) + "]"
  }

  /** The text of a picture environment with the given keys and axes. */
  function Render(keys: seq<PictureKey>, axes: seq<Axis>): string
  {
    Open + OptionsClause(keys) + "\n" + Concat(AxisLines(axes)) + Close
  }

  /** Where the line of key `i` starts inside the options clause (for
      `i == |keys|`, where the closing bracket is). */
  function KeyOffset(keys: seq<PictureKey>, i: nat): nat
    requires i <= |keys|
  {
    2 + |Concat(KeyLines(keys[..i]))|
  }

  /** Where the line of axis `i` starts in the rendering (for `i == |axes|`,
      where the closing tag starts). */
  function AxisOffset(keys: seq<PictureKey>, axes: seq<Axis>, i: nat): nat
    requires i <= |axes|
  {
    |Open| + |OptionsClause(keys)| + 1 + |Concat(AxisLines(axes[..i]))|
  }

  lemma KeyLinesSnoc(keys: seq<PictureKey>, i: nat)
    requires i < |keys|
    ensures Concat(KeyLines(keys[..i + 1])) == Concat(KeyLines(keys[..i])) + KeyLine(keys[i])
  {
    assert KeyLines(keys[..i + 1]) == KeyLines(keys[..i]) + [KeyLine(keys[i])];
    ConcatAppend(KeyLines(keys[..i]), [KeyLine(keys[i])]);
  }

  lemma AxisLinesSnoc(axes: seq<Axis>, i: nat)
    requires i < |axes|
    ensures Concat(AxisLines(axes[..i + 1])) == Concat(AxisLines(axes[..i])) + AxisLine(axes[i])
  {
    assert AxisLines(axes[..i + 1]) == AxisLines(axes[..i]) + [AxisLine(axes[i])];
    ConcatAppend(AxisLines(axes[..i]), [AxisLine(axes[i])]);
  }

  lemma KeyLinesCons(keys: seq<PictureKey>)
    requires keys != []
    ensures Concat(KeyLines(keys)) == KeyLine(keys[0]) + Concat(KeyLines(keys[1..]))
  {
    assert KeyLines(keys)[1..] == KeyLines(keys[1..]);
  }

  /** The options clause is there exactly when the key list is non-empty:
      the character after the opening tag is `[` then, and a line feed
      otherwise. Without keys the rendering is the opening tag, a line
      feed, the axis lines and the closing tag. */
  lemma OptionsClausePresence(keys: seq<PictureKey>, axes: seq<Axis>)
    ensures |Render(keys, axes)| > |Open|
    ensures Render(keys, axes)[|Open|] == '[' <==> keys != []
    ensures keys == [] ==> Render(keys, axes) == Open + "\n" + Concat(AxisLines(axes)) + Close
  {
    var r := Render(keys, axes);
    if keys == [] {
      assert r[|Open|] == '\n';
    } else {
      assert r[|Open|] == '[';
    }
  }

  /** The options clause opens with `[` and a line feed and closes with
      `]`; in between, the slot of key `i` holds exactly that key's line,
      and the slots follow one another in list order. */
  lemma KeyLineAt(keys: seq<PictureKey>, i: nat)
    requires i < |keys|
    ensures var o := OptionsClause(keys);
      var p := KeyOffset(keys, i);
      o[..2] == "[\n" &&
      KeyOffset(keys, |keys|) == |o| - 1 && o[|o| - 1] == ']' &&
      KeyOffset(keys, i + 1) == p + |KeyLine(keys[i])| && p + |KeyLine(keys[i])| < |o| &&
      o[p..p + |KeyLine(keys[i])|] == KeyLine(keys[i])
  {
    var lines := KeyLines(keys);
    FramedSlot("[\n", lines, "]", i);
    KeyLinesPrefix(keys, i);
    KeyLinesPrefix(keys, i + 1);
    assert keys[..|keys|] == keys;
    assert lines[i] == KeyLine(keys[i]);
  }

  lemma KeyLinesPrefix(keys: seq<PictureKey>, i: nat)
    requires i <= |keys|
    ensures KeyLines(keys)[..i] == KeyLines(keys[..i])
  {
  }

  lemma AxisLinesPrefix(axes: seq<Axis>, i: nat)
    requires i <= |axes|
    ensures AxisLines(axes)[..i] == AxisLines(axes[..i])
  {
  }

  /** The slot of axis `i` holds exactly that axis's line; the slots follow
      one another in list order, start after the options clause and the line
      feed that ends the opening line, and the last one is followed directly
      by the closing tag, which ends the rendering. */
  lemma AxisLineAt(keys: seq<PictureKey>, axes: seq<Axis>, i: nat)
    requires i < |axes|
    ensures var r := Render(keys, axes);
      var p := AxisOffset(keys, axes, i);
      var q := AxisOffset(keys, axes, |axes|);
      AxisOffset(keys, axes, 0) == |Open + OptionsClause(keys) + "\n"| &&
      AxisOffset(keys, axes, i + 1) == p + |AxisLine(axes[i])| &&
      p + |AxisLine(axes[i])| <= q && q + |Close| == |r| &&
      r[p..p + |AxisLine(axes[i])|] == AxisLine(axes[i]) &&
      r[q..] == Close
  {
    var head := Open + OptionsClause(keys) + "\n";
    var lines := AxisLines(axes);
    FramedSlot(head, lines, Close, i);
    AxisLinesPrefix(axes, 0);
    AxisLinesPrefix(axes, i);
    AxisLinesPrefix(axes, i + 1);
    assert axes[..|axes|] == axes;
    assert lines[i] == AxisLine(axes[i]);
    var body := head + Concat(lines);
    assert (body + Close)[|body|..] == Close;
  }

  /** The rendering starts with the opening tag, followed directly by the
      options clause and a line feed. */
  lemma RenderLayout(keys: seq<PictureKey>, axes: seq<Axis>)
    ensures var r := Render(keys, axes);
      var n := |Open| + |OptionsClause(keys)|;
      n < |r| &&
      r[..|Open|] == Open &&
      r[|Open|..n] == OptionsClause(keys) &&
      r[n] == '\n'
  {
    LeadingParts(Open, OptionsClause(keys), "\n", Concat(AxisLines(axes)), Close);
  }

  // ---------------------------------------------------------------------
  // Reading the options clause back

  /** Reads a run of key lines (`\t`, key, `,`, line feed) back into keys. */
  function ParseKeyLines(s: string): Option<seq<PictureKey>>
    decreases |s|
  {
    if s == [] then Some([])
    else
      var n := FirstNewline(s);
      if n == |s| || n < 2 || s[0] != '\t' || s[n - 1] != ',' then None
      else
        match ParseKeyLines(s[n + 1..])
        case None => None
        case Some(rest) => Some([Custom(s[1..n - 1])] + rest)
  }

  /** Reading one key line back: a key free of line feeds is read back
      as itself, and reading goes on with what follows its line. */
  lemma ParseKeyLine(k: PictureKey, rest: string)
    requires '\n' !in k.text
    ensures ParseKeyLines(KeyLine(k) + rest) ==
      match ParseKeyLines(rest)
      case None => None
      case Some(ks) => Some([k] + ks)
  {
    var line := "\t" + k.text + ",";
    assert '\n' !in line by {
      forall i | 0 <= i < |line| ensures line[i] != '\n' {
        if 0 < i < |line| - 1 {
          assert line[i] == k.text[i - 1];
        }
      }
    }
    var s := KeyLine(k) + rest;
    assert s == line + "\n" + rest;
    FirstNewlineAfter(line, rest);
    assert s[1..|line| - 1] == k.text;
    assert s[|line| + 1..] == rest;
  }

  /** The options clause is a faithful encoding of the key list as long as
      no key holds a line feed: reading the key lines back gives the keys. */
  lemma {:induction false} KeyLinesRoundTrip(keys: seq<PictureKey>)
    requires forall k | k in keys :: '\n' !in k.text
    ensures ParseKeyLines(Concat(KeyLines(keys))) == Some(keys)
  {
    if keys != [] {
      KeyLinesCons(keys);
      assert keys[0] in keys;
      KeyLinesRoundTrip(keys[1..]);
      ParseKeyLine(keys[0], Concat(KeyLines(keys[1..])));
      assert [keys[0]] + keys[1..] == keys;
    }
  }

  /** Keys are written out unescaped, so a key holding a line feed can
      impersonate several keys: these two different key lists render the
      same picture. */
  lemma NewlineInKeyIsAmbiguous()
    ensures [Custom("a,\n\tb")] != [Custom("a"), Custom("b")]
    ensures Render([Custom("a,\n\tb")], []) == Render([Custom("a"), Custom("b")], [])
  {
    var one := [Custom("a,\n\tb")];
    var two := [Custom("a"), Custom("b")];
    assert KeyLine(one[0]) == "\ta,\n\tb,\n";
    assert KeyLine(two[0]) == "\ta,\n" && KeyLine(two[1]) == "\tb,\n";
    KeyLinesCons(one);
    KeyLinesCons(two);
    KeyLinesCons(two[1..]);
    assert one[1..] == [] && two[1..][1..] == [];
    assert "\ta,\n\tb,\n" == "\ta,\n" + "\tb,\n";
  }

  // ---------------------------------------------------------------------
  // The standalone document

  const Preamble := "\\documentclass{standalone}\n\\usepackage{pgfplots}\n\\begin{document}\n"
  const Closing := "\n\\end{document}"

  /** The body of a standalone document, if `doc` has that shape. */
  function Unwrap(doc: string): Option<string>
  {
    if |doc| >= |Preamble| + |Closing|
       && doc[..|Preamble|] == Preamble
       && doc[|doc| - |Closing|..] == Closing
    then Some(doc[|Preamble|..|doc| - |Closing|])
    else None
  }

  /** A complete LaTeX document holding `body`: the preamble is a prefix,
      the closing a suffix, and the body is recovered from between them. */
  function Standalone(body: string): (doc: string)
    ensures |doc| == |Preamble| + |body| + |Closing|
    ensures doc[..|Preamble|] == Preamble
    ensures Unwrap(doc) == Some(body)
  {
    var doc := Preamble + body + Closing;
    assert doc[..|Preamble|] == Preamble;
    assert doc[|doc| - |Closing|..] == Closing;
    assert doc[|Preamble|..|doc| - |Closing|] == body;
    doc
  }

  /** The document of an empty picture is exactly this text. */
  lemma EmptyPictureDocument()
    ensures Standalone(Render([], [])) ==
      "\\documentclass{standalone}\n\\usepackage{pgfplots}\n\\begin{document}\n" +
      "\\begin{tikzpicture}" + "\n" + "\\end{tikzpicture}" +
      "\n\\end{document}"
  {
    assert Render([], []) == Open + "\n" + Close by {
      assert Concat(AxisLines([])) == "";
    }
    Regroup(Preamble, Open, "\n", Close, Closing);
  }

  // ---------------------------------------------------------------------
  // The picture object

  /** A picture environment. The key list only grows through AddKey; the
      axes are open to the caller. */
  class Picture {
    var keys: seq<PictureKey>
    var axes: seq<Axis>

    /** A new, empty picture. */
    constructor ()
      ensures keys == [] && axes == []
    {
      keys := [];
      axes := [];
    }

    /** Adds a key. A free-form key conflicts with nothing, so it is
        appended and every key before it stays where it was. */
    method AddKey(key: PictureKey)
      modifies this
      ensures keys == WithKey(old(keys), key) == old(keys) + [key]
      ensures axes == old(axes)
    {
      match key {
        case Custom(_) =>
      }
      keys := keys + [key];
    }

    /** Writes the environment: opening tag, the options clause when there
        are keys, a line feed, one line per axis, the closing tag. */
    method Fmt() returns (s: string)
      ensures s == Render(keys, axes)
    {
      var o := FmtOptions();
      var t := FmtAxes();
      s := Open + o + "\n" + t + Close;
    }

    method FmtOptions() returns (o: string)
      ensures o == OptionsClause(keys)
    {
      o := "";
      if keys != [] {
        o := "[\n";
        var i := 0;
        while i < |keys|
          invariant 0 <= i <= |keys|
          invariant o == "[\n" + Concat(KeyLines(keys[..i]))
        {
          KeyLinesSnoc(keys, i);
          o := o + "\t" + KeyText(keys[i]) + ",\n";
          i := i + 1;
        }
        assert keys[..i] == keys;
        o := o + "]";
      }
    }

    method FmtAxes() returns (t: string)
      ensures t == Concat(AxisLines(axes))
    {
      t := "";
      var j := 0;
      while j < |axes|
        invariant 0 <= j <= |axes|
        invariant t == Concat(AxisLines(axes[..j]))
      {
        AxisLinesSnoc(axes, j);
        t := t + AxisText(axes[j]) + "\n";
        j := j + 1;
      }
      assert axes[..j] == axes;
    }

    /** The picture as a standalone LaTeX document: the rendering of the
        picture is what sits between the preamble and the closing. */
    function StandaloneString(): (doc: string)
      reads this
      ensures Unwrap(doc) == Some(Render(keys, axes))
    {
      Standalone(Render(keys, axes))
    }
  }
}
