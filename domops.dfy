/**
 * The extractor of `domops.rs`: the section walk that follows the `#Finnish`
 * anchor's parent, the recursive renderer that turns a kept block into chat
 * text while harvesting link titles, the heading-label helper, and the two
 * stem writers.
 *
 * Each operation that the source runs step by step is a method proved equal to
 * a specification function (`PushChar`, `RenderSeq`, `Walk`, `NounBlockAsWritten`,
 * `VerbBlock`); the properties the extractor promises are lemmas about those
 * functions.
 */
module DomOps {
  import opened RustStr
  import opened Html
  import Selection

  /** The renderer's state: the text buffer and the set of reference titles (`BTreeSet<String>`). */
  datatype Out = Out(content: string, refs: set<string>)

  // ---------------------------------------------------------------------------
  // Heading label

  /** `first_element_child`: the heading's first child node, when that node is an element. */
  function FirstElementChild(h: Elem): Option<Elem>
  {
    if |h.children| > 0 && h.children[0].Element? then Some(h.children[0].elem) else None
  }

  /** The markup `header_text` starts from: the first element child's inner markup, or "". */
  function LabelMarkup(h: Elem): string
  {
    match FirstElementChild(h)
    case Some(e) => e.innerHtml
    case None => ""
  }

  /** `header_text`: the label markup with every trailing "edit" removed. */
  function HeaderText(h: Elem): (name: string)
    ensures !EndsWith(name, "edit")
    ensures name <= LabelMarkup(h)
    ensures exists k: nat :: LabelMarkup(h) == name + Repeat("edit", k)
    ensures FirstElementChild(h).None? ==> name == ""
  {
    TrimEndMatchesRemovesCopies(LabelMarkup(h), "edit");
    TrimEndMatches(LabelMarkup(h), "edit")
  }

  // ---------------------------------------------------------------------------
  // Whitespace collapse

  predicate EndsInWhitespace(buf: string)
  {
    |buf| > 0 && IsWhitespace(buf[|buf| - 1])
  }

  /** What `push_no_double_whitespace` leaves in the buffer. */
  function PushChar(buf: string, c: char): (r: string)
    ensures r == buf <==> EndsInWhitespace(buf) && IsWhitespace(c)
    ensures r != buf ==> r == buf + [c]
  {
    if EndsInWhitespace(buf) && IsWhitespace(c) then buf else buf + [c]
  }

  /** `push_no_double_whitespace`. */
  method PushNoDoubleWhitespace(buf: string, c: char) returns (buf': string)
    ensures buf' == PushChar(buf, c)
  {
    buf' := buf;
    if |buf'| > 0 {
      var last := buf'[|buf'| - 1];
      if IsWhitespace(last) && IsWhitespace(c) {
        return;
      }
    }
    buf' := buf' + [c];
  }

  /** The character a text node contributes for `c` (before the collapse): whitespace becomes ' '. */
  function Normalize(c: char): char
  {
    if IsWhitespace(c) then ' ' else c
  }

  /** A text node rendered onto `buf`: '*' dropped, whitespace mapped to ' ', pushed one by one. */
  function PushText(buf: string, t: string): (r: string)
    ensures buf <= r && |r| <= |buf| + |t|
    decreases |t|
  {
    if t == [] then buf
    else PushText(if t[0] == '*' then buf else PushChar(buf, Normalize(t[0])), t[1..])
  }

  // ---------------------------------------------------------------------------
  // Recursive renderer

  /** Tags whose whole subtree the renderer discards. */
  predicate Discarded(tag: string)
  {
    tag == "table" || tag == "sup" || tag == "style"
  }

  /** A link title that becomes a reference: not an interwiki ("w:") or reconstruction link. */
  predicate IsRefTitle(t: string)
  {
    !StartsWith(t, "w:") && !StartsWith(t, "Reconstruction:")
  }

  /** The reference an `a` element contributes. */
  function LinkRef(e: Elem): set<string>
  {
    match Attr(e, "title")
    case Some(t) => if IsRefTitle(t) then {t} else {}
    case None => {}
  }

  /** One child as `write_content` handles it. */
  function RenderNode(o: Out, n: Node): (r: Out)
    ensures o.content <= r.content && o.refs <= r.refs
    decreases n, 1
  {
    match n
    case Text(t) => Out(PushText(o.content, t), o.refs)
    case Other => o
    case Element(e) =>
      if Discarded(e.tag) then o
      else if e.tag == "a" then RenderSeq(Out(o.content, o.refs + LinkRef(e)), e.children)
      else if e.tag == "i" then
        var r := RenderSeq(Out(o.content + "_", o.refs), e.children);
        Out(r.content + "_", r.refs)
      else RenderSeq(o, e.children)
  }

  /** `write_content` over a sequence of children, left to right. */
  function RenderSeq(o: Out, cs: seq<Node>): (r: Out)
    ensures o.content <= r.content && o.refs <= r.refs
    decreases cs, 0
  {
    if cs == [] then o else RenderSeq(RenderNode(o, cs[0]), cs[1..])
  }

  /** `write_content(content, e, refs)`: renders the children of `e` onto the buffer. */
  method WriteContent(content: string, e: Elem, refs: set<string>) returns (content': string, refs': set<string>)
    ensures Out(content', refs') == RenderSeq(Out(content, refs), e.children)
    decreases e
  {
    content', refs' := content, refs;
    for i := 0 to |e.children|
      invariant RenderSeq(Out(content, refs), e.children) == RenderSeq(Out(content', refs'), e.children[i..])
    {
      assert e.children[i..][1..] == e.children[i + 1..];
      ghost var before := Out(content', refs');
      match e.children[i] {
      case Text(t) =>
        for j := 0 to |t|
          invariant PushText(before.content, t) == PushText(content', t[j..])
        {
          assert t[j..][1..] == t[j + 1..];
          var c := t[j];
          if c != '*' {
            var mapped := if IsWhitespace(c) then ' ' else c;
            content' := PushNoDoubleWhitespace(content', mapped);
          }
        }
        assert t[|t|..] == [];
      case Element(c) =>
        if Discarded(c.tag) {
          // skipped together with its subtree
        } else if c.tag == "a" {
          match Attr(c, "title") {
            case Some(t) =>
              if IsRefTitle(t) {
                refs' := refs' + {t};
              }
            case None =>
          }
          assert refs' == before.refs + LinkRef(c);
          content', refs' := WriteContent(content', c, refs');
        } else if c.tag == "i" {
          content' := content' + "_";
          content', refs' := WriteContent(content', c, refs');
          content' := content' + "_";
        } else {
          content', refs' := WriteContent(content', c, refs');
        }
      case Other =>
      }
      assert Out(content', refs') == RenderNode(before, e.children[i]);
    }
  }

  // ---------------------------------------------------------------------------
  // Section walk

  /** Headings that open a section: `h3`, `h4`, `h5`. */
  predicate IsSectionHeading(tag: string)
  {
    tag == "h3" || tag == "h4" || tag == "h5"
  }

  /** Blocks skipped even inside a kept section. */
  predicate IsSkippedBlock(tag: string)
  {
    tag == "div" || tag == "table" || tag == "style"
  }

  /** The walk's state: the `add` flag and what has been rendered. */
  datatype WalkState = WalkState(add: bool, out: Out)

  /** One element sibling (not an `h2`) as `get_main_content` handles it. */
  function Step(skip: set<string>, st: WalkState, e: Elem): (r: WalkState)
    ensures st.out.content <= r.out.content && st.out.refs <= r.out.refs
    ensures IsSectionHeading(e.tag) ==> r.add == (HeaderText(e) !in skip)
    ensures !IsSectionHeading(e.tag) && (!st.add || IsSkippedBlock(e.tag)) ==> r == st
    ensures r.out != st.out ==> r.add
  {
    if IsSectionHeading(e.tag) then
      var name := HeaderText(e);
      if name in skip then WalkState(false, st.out)
      else WalkState(true, Out(st.out.content + "\n_" + name + "_\n", st.out.refs))
    else if !st.add || IsSkippedBlock(e.tag) then st
    else
      var r := RenderSeq(st.out, e.children);
      WalkState(true, Out(r.content + "\n", r.refs))
  }

  /** The siblings walked in order, stopping at the first `h2`. */
  function Walk(skip: set<string>, st: WalkState, sibs: seq<Node>): (r: WalkState)
    ensures st.out.content <= r.out.content && st.out.refs <= r.out.refs
    decreases |sibs|
  {
    if sibs == [] then st
    else match sibs[0]
      case Element(e) => if e.tag == "h2" then st else Walk(skip, Step(skip, st, e), sibs[1..])
      case _ => Walk(skip, st, sibs[1..])
  }

  /** What `get_main_content` returns for the siblings that follow the anchor's parent. */
  function MainContent(refs: set<string>, skip: set<string>, sibs: seq<Node>): Out
  {
    Walk(skip, WalkState(false, Out("", refs)), sibs).out
  }

  /** `get_main_content(refs, skip_chapters, par)`, with `sibs` the siblings after `par`. */
  method GetMainContent(refs: set<string>, skip: set<string>, sibs: seq<Node>) returns (content: string, refs': set<string>)
    ensures Out(content, refs') == MainContent(refs, skip, sibs)
  {
    var add := false;
    content, refs' := "", refs;
    var i := 0;
    while i < |sibs|
      invariant 0 <= i <= |sibs|
      invariant Walk(skip, WalkState(false, Out("", refs)), sibs)
             == Walk(skip, WalkState(add, Out(content, refs')), sibs[i..])
    {
      assert sibs[i..][1..] == sibs[i + 1..];
      var node := sibs[i];
      if node.Element? {
        var el := node.elem;
        if el.tag == "h2" {
          break;
        }
        if IsSectionHeading(el.tag) {
          var name := HeaderText(el);
          add := name !in skip;
          if add {
            content := content + "\n_";
            content := content + name;
            content := content + "_\n";
          }
        } else if add && !IsSkippedBlock(el.tag) {
          content, refs' := WriteContent(content, el, refs');
          content := content + "\n";
        }
      }
      i := i + 1;
    }
  }

  // ---------------------------------------------------------------------------
  // Form lookup

  /** The text of the first element each selector matches, slot by slot. */
  function FormsOf(sels: seq<string>, page: Page): (fs: seq<Option<string>>)
    ensures |fs| == |sels|
    ensures forall i :: 0 <= i < |sels| ==> (fs[i].Some? <==> sels[i] in page.firstMatch)
    ensures forall i :: 0 <= i < |sels| && fs[i].Some? ==> fs[i].value == TextContent(page.firstMatch[sels[i]])
  {
    seq(|sels|, i requires 0 <= i < |sels| =>
      match SelectFirst(page, sels[i])
      case Some(e) => Some(TextContent(e))
      case None => None)
  }

  /** `get_forms`: the noun forms and the verb forms, one slot per selector. */
  function GetForms(sels: Selection.Selectors, page: Page): (forms: (seq<Option<string>>, seq<Option<string>>))
    ensures |forms.0| == |sels.nouns| && |forms.1| == |sels.verbs|
    ensures forall i :: 0 <= i < |sels.nouns| ==>
              (forms.0[i].Some? <==> sels.nouns[i] in page.firstMatch)
              && (forms.0[i].Some? ==> forms.0[i].value == TextContent(page.firstMatch[sels.nouns[i]]))
    ensures forall i :: 0 <= i < |sels.verbs| ==>
              (forms.1[i].Some? <==> sels.verbs[i] in page.firstMatch)
              && (forms.1[i].Some? ==> forms.1[i].value == TextContent(page.firstMatch[sels.verbs[i]]))
  {
    (FormsOf(sels.nouns, page), FormsOf(sels.verbs, page))
  }

  /**
   * With the bot's selectors, the noun block is written exactly when all four
   * noun selectors match, and its stems come from the allative selectors
   * (slots 2 and 3) while the partitive forms (slots 0 and 1) are quoted.
   */
  lemma NounFormsFromSelectors(page: Page)
    ensures var ns := GetForms(Selection.New(), page).0;
            var sel := Selection.New().nouns;
            (FourForms(ns) <==> forall i :: 0 <= i < 4 ==> sel[i] in page.firstMatch)
            && (FourForms(ns) ==>
                  ns[0].value == TextContent(page.firstMatch[Selection.NounSelector("par", "s")])
                  && ns[1].value == TextContent(page.firstMatch[Selection.NounSelector("par", "p")])
                  && ns[2].value == TextContent(page.firstMatch[Selection.NounSelector("all", "s")])
                  && ns[3].value == TextContent(page.firstMatch[Selection.NounSelector("all", "p")]))
  {
    var ns := GetForms(Selection.New(), page).0;
    var sel := Selection.New().nouns;
    if forall i :: 0 <= i < 4 ==> sel[i] in page.firstMatch {
      assert sel[0] in page.firstMatch && sel[1] in page.firstMatch;
      assert sel[2] in page.firstMatch && sel[3] in page.firstMatch;
    }
  }

  /** With the bot's selectors, the verb slots are present 1st, present 3rd, past 1st, past 3rd. */
  lemma VerbFormsFromSelectors(page: Page)
    ensures var vs := GetForms(Selection.New(), page).1;
            var sel := Selection.New().verbs;
            (FourForms(vs) <==> forall i :: 0 <= i < 4 ==> sel[i] in page.firstMatch)
            && (FourForms(vs) ==>
                  vs[0].value == TextContent(page.firstMatch[Selection.VerbSelector("pres", "1")])
                  && vs[1].value == TextContent(page.firstMatch[Selection.VerbSelector("pres", "3")])
                  && vs[2].value == TextContent(page.firstMatch[Selection.VerbSelector("past", "1")])
                  && vs[3].value == TextContent(page.firstMatch[Selection.VerbSelector("past", "3")]))
  {
    var vs := GetForms(Selection.New(), page).1;
    var sel := Selection.New().verbs;
    if forall i :: 0 <= i < 4 ==> sel[i] in page.firstMatch {
      assert sel[0] in page.firstMatch && sel[1] in page.firstMatch;
      assert sel[2] in page.firstMatch && sel[3] in page.firstMatch;
    }
  }

  // ---------------------------------------------------------------------------
  // Stem writers

  /** All four positional forms are present. */
  predicate FourForms(fs: seq<Option<string>>)
  {
    |fs| == 4 && fs[0].Some? && fs[1].Some? && fs[2].Some? && fs[3].Some?
  }

  /** The noun stem as `write_noun_forms` computes it: every trailing "lle" removed. */
  function NounStemAsWritten(s: string): (stem: string)
    ensures stem <= s && !EndsWith(stem, "lle")
    ensures exists k: nat :: s == stem + Repeat("lle", k)
  {
    TrimEndMatchesRemovesCopies(s, "lle");
    TrimEndMatches(s, "lle")
  }

  /** The noun stem the heuristic intends: one allative ending "lle" removed. */
  function NounStem(s: string): (stem: string)
    ensures EndsWith(s, "lle") ==> stem + "lle" == s
    ensures !EndsWith(s, "lle") ==> stem == s
  {
    match StripSuffix(s, "lle")
    case Some(front) => front
    case None => s
  }

  /** Removing the ending undoes adding it, whatever the stem ends in. */
  lemma NounStemRoundTrip(x: string)
    ensures NounStem(x + "lle") == x
  {
    assert EndsWith(x + "lle", "lle");
  }

  /** The as-written stem loses a stem-final "lle": "nallelle" (allative of "nalle") gives "na". */
  lemma NounStemAsWrittenOverTrims()
    ensures NounStemAsWritten("nallelle") == "na"
    ensures NounStem("nallelle") == "nalle"
  {
    assert EndsWith("nallelle", "lle") && "nallelle"[..5] == "nalle";
    assert EndsWith("nalle", "lle") && "nalle"[..2] == "na";
    assert !EndsWith("na", "lle");
    assert TrimEndMatches("nalle", "lle") == "na";
  }

  /** A plural allative that does not end in a doubled "lle" is trimmed once by both stems. */
  lemma NalleiStems()
    ensures NounStemAsWritten("nalleille") == "nallei"
    ensures NounStem("nalleille") == "nallei"
  {
    assert EndsWith("nalleille", "lle") && "nalleille"[..6] == "nallei";
    assert "nallei"[3..] == "lei";
    assert !EndsWith("nallei", "lle");
    assert TrimEndMatches("nallei", "lle") == "nallei";
  }

  /**
   * The two stems agree unless the form ends in a doubled "llelle": then the
   * as-written stem goes on trimming into the word itself.
   */
  lemma NounStemAgrees(s: string)
    requires !EndsWith(s, "llelle")
    ensures NounStemAsWritten(s) == NounStem(s)
  {
    if EndsWith(s, "lle") {
      var front := s[..|s| - 3];
      SplitAtEnd(s, "lle");
      TrimEndOneCopy(s, front, "lle");
    }
  }

  /** The stem line `write_noun_forms` writes under its heading: two stems, then the two partitives. */
  function NounLine(stem: string, pluralStem: string, parS: string, parP: string): string
  {
    stem + " - " + pluralStem + " p. " + parS + " m.p. " + parP
  }

  /** The noun block as written: nothing unless four forms, stems from `NounStemAsWritten`. */
  function NounBlockAsWritten(ns: seq<Option<string>>): (block: string)
    ensures block == "" <==> !FourForms(ns)
  {
    if FourForms(ns) then
      "_Vartalot_\n" + NounLine(NounStemAsWritten(ns[2].value), NounStemAsWritten(ns[3].value), ns[0].value, ns[1].value) + "\n"
    else ""
  }

  /** The noun block with the intended stem: nothing unless four forms. */
  function NounBlock(ns: seq<Option<string>>): (block: string)
    ensures block == "" <==> !FourForms(ns)
  {
    if FourForms(ns) then
      "_Vartalot_\n" + NounLine(NounStem(ns[2].value), NounStem(ns[3].value), ns[0].value, ns[1].value) + "\n"
    else ""
  }

  /** For a noun whose stem ends in "lle" the two blocks differ: the as-written stem is three letters short. */
  lemma NounBlockAsWrittenDiffers()
    ensures var ns := [Some("nallea"), Some("nalleja"), Some("nallelle"), Some("nalleille")];
            |NounBlockAsWritten(ns)| + 3 == |NounBlock(ns)|
  {
    NounStemAsWrittenOverTrims();
    NalleiStems();
  }

  /** With neither allative ending in "llelle", the block as written is the intended one. */
  lemma NounBlockAgrees(ns: seq<Option<string>>)
    requires FourForms(ns) ==> !EndsWith(ns[2].value, "llelle") && !EndsWith(ns[3].value, "llelle")
    ensures NounBlockAsWritten(ns) == NounBlock(ns)
  {
    if FourForms(ns) {
      NounStemAgrees(ns[2].value);
      NounStemAgrees(ns[3].value);
    }
  }

  /** `write_noun_forms(content, ns)`: stems with every trailing "lle" trimmed, as the code computes them. */
  method WriteNounForms(content: string, ns: seq<Option<string>>) returns (content': string)
    ensures content' == content + NounBlockAsWritten(ns)
  {
    content' := content;
    if |ns| == 4 && ns[0].Some? && ns[1].Some? && ns[2].Some? && ns[3].Some? {
      var parS, parP, allS, allP := ns[0].value, ns[1].value, ns[2].value, ns[3].value;
      var stem := NounStemAsWritten(allS);
      var pluralStem := NounStemAsWritten(allP);
      content' := content' + ("_Vartalot_\n" + NounLine(stem, pluralStem, parS, parP) + "\n");
    }
  }

  /** The verb stem as `write_verb_forms` computes it: every trailing 'n' removed. */
  function VerbStem(s: string): (stem: string)
    ensures stem <= s && !EndsWith(stem, "n")
  {
    TrimEndMatches(s, "n")
  }

  /** What the verb stem drops is a run of 'n': "sanon" gives "sano", and "annan" gives "anna". */
  lemma VerbStemRemovesCopies(s: string)
    ensures exists k: nat :: s == VerbStem(s) + Repeat("n", k)
  {
    TrimEndMatchesRemovesCopies(s, "n");
  }

  /** The present-3rd annotation: shown when the stem is non-empty and `pr3` is not the stem with its last letter doubled. */
  function P3Note(stem: string, pr3: string): (note: string)
    ensures note == "" <==> |stem| == 0 || pr3 == stem + [stem[|stem| - 1]]
    ensures note != "" ==> StartsWith(note, " p3. ") && note[5..] == pr3
  {
    if |stem| > 0 && pr3 != stem + [stem[|stem| - 1]] then " p3. " + pr3 else ""
  }

  /** The past-3rd annotation: shown when `pa3` is not the past stem. */
  function Past3Note(pastStem: string, pa3: string): (note: string)
    ensures note == "" <==> pa3 == pastStem
    ensures note != "" ==> StartsWith(note, " past3. ") && note[8..] == pa3
  {
    if pa3 != pastStem then " past3. " + pa3 else ""
  }

  /** The stem line `write_verb_forms` writes under its heading: both stems, then the annotations. */
  function VerbLine(vs: seq<Option<string>>): string
    requires FourForms(vs)
  {
    var stem, pastStem := VerbStem(vs[0].value), VerbStem(vs[2].value);
    stem + " - " + pastStem + P3Note(stem, vs[1].value) + Past3Note(pastStem, vs[3].value)
  }

  /** What `write_verb_forms` appends: nothing unless four forms. */
  function VerbBlock(vs: seq<Option<string>>): (block: string)
    ensures block == "" <==> !FourForms(vs)
  {
    if FourForms(vs) then "_Vartalot_\n" + VerbLine(vs) + "\n" else ""
  }

  /** `write_verb_forms(content, vs)`. */
  method WriteVerbForms(content: string, vs: seq<Option<string>>) returns (content': string)
    ensures content' == content + VerbBlock(vs)
  {
    content' := content;
    if |vs| == 4 && vs[0].Some? && vs[1].Some? && vs[2].Some? && vs[3].Some? {
      var pr1, pr3, pa1, pa3 := vs[0].value, vs[1].value, vs[2].value, vs[3].value;
      var stem := VerbStem(pr1);
      var pastStem := VerbStem(pa1);
      var line := stem + " - " + pastStem;
      ghost var base := line;
      AppendEmpty(base);
      if |stem| > 0 {
        var c := stem[|stem| - 1];
        if pr3 != stem + [c] {
          line := line + (" p3. " + pr3);
        }
      }
      assert line == base + P3Note(stem, pr3);
      ghost var withP3 := line;
      AppendEmpty(withP3);
      if pa3 != pastStem {
        line := line + (" past3. " + pa3);
      }
      assert line == withP3 + Past3Note(pastStem, pa3);
      content' := content' + ("_Vartalot_\n" + line + "\n");
    }
  }
}
