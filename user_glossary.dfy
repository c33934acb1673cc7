/** The developer-editable glossary that is offered to the language model as
    extra context, and the text built from it. A glossary is an ordered table
    of named sections (Python dicts keep insertion order). */
module UserGlossary {
  import opened Text

  datatype Section = Section(name: string, entries: seq<string>)

  type Table = seq<Section>

  /** `GLOSSARY` as shipped: three sections whose entries are all commented out. */
  const Glossary: Table := [Section("colleague_names", []), Section("project_names", []), Section("terms", [])]

  const Header: string := "Reference glossary (use only when relevant; do not invent facts):\n"

  /** An entry is kept when it is non-blank. */
  predicate IsKept(entry: string) {
    entry != [] && Strip(entry) != []
  }

  /** `[entry.strip() for entry in entries if entry and entry.strip()]`. */
  function Kept(entries: seq<string>): (r: seq<string>)
    ensures |r| <= |entries|
    ensures forall e <- r :: e != [] && IsStripped(e)
  {
    if entries == [] then []
    else
      var last := entries[|entries| - 1];
      Kept(entries[..|entries| - 1]) + (if IsKept(last) then [Strip(last)] else [])
  }

  /** Keeping distributes over concatenation: order is preserved and each
      entry is judged on its own. */
  lemma {:induction false} KeptAppend(a: seq<string>, b: seq<string>)
    ensures Kept(a + b) == Kept(a) + Kept(b)
    decreases |b|
  {
    if b == [] {
      assert a + b == a;
    } else {
      var b' := b[..|b| - 1];
      assert (a + b)[..|a + b| - 1] == a + b';
      KeptAppend(a, b');
    }
  }

  /** One entry is kept, stripped, exactly when it is non-blank. */
  lemma KeptSingle(e: string)
    ensures Kept([e]) == if Strip(e) != [] then [Strip(e)] else []
  {
    assert [e][..0] == [];
  }

  /** `section_name.replace("_", " ").title()` followed by a colon. */
  function SectionTitle(name: string): string {
    Title(ReplaceChar(name, '_', ' ')) + ":"
  }

  /** `f"- {entry}"` for each entry. */
  function Bullets(entries: seq<string>): (r: seq<string>)
    ensures |r| == |entries|
    ensures forall j :: 0 <= j < |entries| ==> r[j] == "- " + entries[j]
  {
    seq(|entries|, j requires 0 <= j < |entries| => "- " + entries[j])
  }

  /** The lines one section contributes: none when nothing is kept, otherwise
      its title followed by one bullet per kept entry. */
  function SectionLines(s: Section): seq<string> {
    var cleaned := Kept(s.entries);
    if cleaned == [] then [] else [SectionTitle(s.name)] + Bullets(cleaned)
  }

  /** `sections` after the loop has run over the whole table. */
  function Lines(g: Table): seq<string> {
    if g == [] then [] else Lines(g[..|g| - 1]) + SectionLines(g[|g| - 1])
  }

  /** `build_glossary_context()` over the table `g`. */
  function Context(g: Table): string {
    var lines := Lines(g);
    if lines == [] then "" else Header + Join(lines, "\n")
  }

  /** `build_glossary_context`: the loop that appends each section's title and
      bullets to `sections`, then the header and the lines joined by newlines. */
  method BuildGlossaryContext(g: Table) returns (context: string)
    ensures context == Context(g)
  {
    var sections: seq<string> := [];
    for i := 0 to |g|
      invariant sections == Lines(g[..i])
    {
      var cleaned := Kept(g[i].entries);
      assert g[..i + 1][..i] == g[..i];
      if cleaned == [] {
        continue;
      }
      var title := SectionTitle(g[i].name);
      sections := sections + [title];
      sections := sections + Bullets(cleaned);
    }
    assert g[..|g|] == g;
    if sections == [] {
      return "";
    }
    context := Header + Join(sections, "\n");
  }

  /** No section of `g` keeps an entry. */
  predicate NoneKept(g: Table) {
    forall i :: 0 <= i < |g| ==> Kept(g[i].entries) == []
  }

  /** There are no lines exactly when no section keeps an entry. */
  lemma {:induction false} LinesEmptyIff(g: Table)
    ensures Lines(g) == [] <==> NoneKept(g)
    decreases |g|
  {
    if g != [] {
      var g', s := g[..|g| - 1], g[|g| - 1];
      LinesEmptyIff(g');
      assert g == g' + [s];
      NoneKeptAppend(g', s);
    }
  }

  lemma NoneKeptAppend(g: Table, s: Section)
    ensures NoneKept(g + [s]) <==> NoneKept(g) && Kept(s.entries) == []
  {
    if NoneKept(g) && Kept(s.entries) == [] {
      forall i | 0 <= i < |g + [s]| ensures Kept((g + [s])[i].entries) == [] {
        if i < |g| { assert (g + [s])[i] == g[i]; }
      }
    }
    if NoneKept(g + [s]) {
      assert (g + [s])[|g|] == s;
      forall i | 0 <= i < |g| ensures Kept(g[i].entries) == [] {
        assert (g + [s])[i] == g[i];
      }
    }
  }

  /** The context is empty exactly when every section is empty after cleaning;
      otherwise it starts with the fixed header. */
  lemma ContextEmptyIff(g: Table)
    ensures Context(g) == "" <==> NoneKept(g)
    ensures Context(g) != "" ==> Context(g)[..|Header|] == Header
  {
    LinesEmptyIff(g);
  }

  /** A section that keeps nothing adds nothing, wherever it stands. */
  lemma {:induction false} EmptySectionContributesNothing(a: Table, s: Section, b: Table)
    requires Kept(s.entries) == []
    ensures Lines(a + [s] + b) == Lines(a + b)
    decreases |b|
  {
    if b == [] {
      assert a + [s] + b == a + [s];
      assert (a + [s])[..|a|] == a;
      assert a + b == a;
    } else {
      var b' := b[..|b| - 1];
      assert (a + [s] + b)[..|a + [s] + b| - 1] == a + [s] + b';
      assert (a + b)[..|a + b| - 1] == a + b';
      EmptySectionContributesNothing(a, s, b');
    }
  }

  /** A section that keeps entries contributes its title and then its bullets,
      in entry order, right after the lines of the sections before it. */
  lemma {:induction false} SectionLayout(a: Table, s: Section)
    requires Kept(s.entries) != []
    ensures var lines := Lines(a + [s]); var cleaned := Kept(s.entries);
      && |lines| == |Lines(a)| + 1 + |cleaned|
      && lines[..|Lines(a)|] == Lines(a)
      && lines[|Lines(a)|] == SectionTitle(s.name)
      && forall j :: 0 <= j < |cleaned| ==> lines[|Lines(a)| + 1 + j] == "- " + cleaned[j]
  {
    assert (a + [s])[..|a|] == a;
  }

  /** A section title: the name with each underscore turned into a space, each
      word capitalised and the rest of it in lower case, then a colon. */
  lemma SectionTitleShape(name: string)
    ensures var t := SectionTitle(name);
      && |t| == |name| + 1 && t[|name|] == ':'
      && (forall i :: 0 <= i < |name| && name[i] == '_' ==> t[i] == ' ')
      && (forall i :: 0 <= i < |name| && IsAsciiLetter(name[i]) && (i == 0 || !IsAsciiLetter(name[i - 1])) ==> t[i] == UpperChar(name[i]))
      && (forall i :: 0 < i < |name| && IsAsciiLetter(name[i]) && IsAsciiLetter(name[i - 1]) ==> t[i] == LowerChar(name[i]))
  {
    var spaced := ReplaceChar(name, '_', ' ');
    assert forall i :: 0 <= i < |name| ==> (IsAsciiLetter(spaced[i]) <==> IsAsciiLetter(name[i]));
  }

  /** With the glossary as shipped, there is no context. */
  lemma ShippedGlossaryIsEmpty()
    ensures Context(Glossary) == ""
  {
    ContextEmptyIff(Glossary);
  }
}
