/**
 * What the extractor of `domops.rs` promises, proved about the specification
 * functions of `DomOps` (and so, through the methods' postconditions, about
 * `WriteContent` and `GetMainContent`).
 */
module DomOpsProps {
  import opened RustStr
  import opened Html
  import opened DomOps

  // ---------------------------------------------------------------------------
  // Text hygiene of the renderer

  /**
   * Position `k` of `s` is clean: never '*', and a whitespace character there
   * is a plain ' ' that does not follow whitespace.
   */
  predicate CleanAt(s: string, k: int)
    requires 0 <= k < |s|
  {
    s[k] != '*' && (IsWhitespace(s[k]) ==> s[k] == ' ' && (k == 0 || !IsWhitespace(s[k - 1])))
  }

  /** Every position of `s` from `from` on is clean. */
  predicate CleanFrom(s: string, from: nat)
  {
    forall k :: from <= k < |s| ==> CleanAt(s, k)
  }

  /** Appending one clean character keeps the buffer clean. */
  lemma CleanAppend(s: string, from: nat, c: char)
    requires from <= |s| && CleanFrom(s, from)
    requires c != '*' && (IsWhitespace(c) ==> c == ' ' && !EndsInWhitespace(s))
    ensures CleanFrom(s + [c], from)
  {
    var t := s + [c];
    forall k | from <= k < |t|
      ensures CleanAt(t, k)
    {
      if k < |s| {
        assert CleanAt(s, k);
        assert t[k] == s[k];
        if k > 0 { assert t[k - 1] == s[k - 1]; }
      } else {
        assert t[k] == c;
        if k > 0 { assert t[k - 1] == s[|s| - 1]; }
      }
    }
  }

  lemma {:induction false} PushTextClean(buf: string, t: string, from: nat)
    requires from <= |buf| && CleanFrom(buf, from)
    ensures CleanFrom(PushText(buf, t), from)
    decreases |t|
  {
    if t != [] {
      var next := if t[0] == '*' then buf else PushChar(buf, Normalize(t[0]));
      if next != buf {
        CleanAppend(buf, from, Normalize(t[0]));
      }
      PushTextClean(next, t[1..], from);
    }
  }

  lemma {:induction false} RenderNodeClean(o: Out, n: Node, from: nat)
    requires from <= |o.content| && CleanFrom(o.content, from)
    ensures CleanFrom(RenderNode(o, n).content, from)
    decreases n, 1
  {
    match n
    case Text(t) => PushTextClean(o.content, t, from);
    case Other =>
    case Element(e) =>
      if Discarded(e.tag) {
      } else if e.tag == "a" {
        RenderSeqClean(Out(o.content, o.refs + LinkRef(e)), e.children, from);
      } else if e.tag == "i" {
        var o' := Out(o.content + "_", o.refs);
        CleanAppend(o.content, from, '_');
        RenderSeqClean(o', e.children, from);
        var r := RenderSeq(o', e.children);
        CleanAppend(r.content, from, '_');
      } else {
        RenderSeqClean(o, e.children, from);
      }
  }

  lemma {:induction false} RenderSeqClean(o: Out, cs: seq<Node>, from: nat)
    requires from <= |o.content| && CleanFrom(o.content, from)
    ensures CleanFrom(RenderSeq(o, cs).content, from)
    decreases cs, 0
  {
    if cs != [] {
      RenderNodeClean(o, cs[0], from);
      RenderSeqClean(RenderNode(o, cs[0]), cs[1..], from);
    }
  }

  /**
   * What `write_content` appends has no '*', has ' ' as its only whitespace,
   * and never puts whitespace right after whitespace, not even across node
   * boundaries or at the junction with what the buffer held before.
   */
  lemma RenderIsClean(o: Out, cs: seq<Node>)
    ensures CleanFrom(RenderSeq(o, cs).content, |o.content|)
  {
    RenderSeqClean(o, cs, |o.content|);
  }

  /** Two text nodes whose whitespace meets at the boundary leave a single space. */
  lemma CollapseAcrossNodes()
    ensures RenderSeq(Out("a", {}), [Text("b "), Text(" c")]).content == "ab c"
  {
    assert PushText("a", "b ") == "ab ";
    assert PushText("ab ", " c") == "ab c";
  }

  // ---------------------------------------------------------------------------
  // Emphasis

  /** An `i` element renders as '_', its children, '_'. */
  lemma ItalicWraps(o: Out, e: Elem)
    requires e.tag == "i"
    ensures var r := RenderNode(o, Element(e));
            var inner := RenderSeq(Out(o.content + "_", o.refs), e.children);
            r.content == inner.content + "_" && o.content + "_" <= inner.content && r.refs == inner.refs
  {
    RenderIsClean(Out(o.content + "_", o.refs), e.children);
  }

  /** Text without '*' and without whitespace is appended verbatim. */
  lemma {:induction false} PushTextPlain(buf: string, t: string)
    requires forall k :: 0 <= k < |t| ==> t[k] != '*' && !IsWhitespace(t[k])
    ensures PushText(buf, t) == buf + t
    decreases |t|
  {
    if t != [] {
      assert PushChar(buf, Normalize(t[0])) == buf + [t[0]];
      PushTextPlain(buf + [t[0]], t[1..]);
      assert buf + [t[0]] + t[1..] == buf + t;
    }
  }

  /** A single text child renders as that text pushed onto the buffer. */
  lemma SingleText(o: Out, t: string)
    ensures RenderSeq(o, [Text(t)]) == Out(PushText(o.content, t), o.refs)
  {
    assert [Text(t)][1..] == [];
  }

  lemma MainosIsPlain()
    ensures forall k :: 0 <= k < |"mainos"| ==> "mainos"[k] != '*' && !IsWhitespace("mainos"[k])
  {
    forall k | 0 <= k < |"mainos"|
      ensures "mainos"[k] != '*' && !IsWhitespace("mainos"[k])
    {
      assert 'a' <= "mainos"[k] <= 'z';
    }
  }

  /** The italic example: `<i>mainos</i>` appends exactly "_mainos_". */
  lemma ItalicExample(buf: string)
    ensures RenderNode(Out(buf, {}), Element(Elem("i", map[], [Text("mainos")], "mainos"))).content
         == buf + "_" + "mainos" + "_"
  {
    var i := Elem("i", map[], [Text("mainos")], "mainos");
    var o := Out(buf, {});
    ItalicWraps(o, i);
    SingleText(Out(buf + "_", {}), "mainos");
    MainosIsPlain();
    PushTextPlain(buf + "_", "mainos");
  }

  // ---------------------------------------------------------------------------
  // References

  /** The titles `write_content` harvests from `n`: from `a` elements outside discarded subtrees. */
  function TitlesOfNode(n: Node): (ts: set<string>)
    ensures forall t :: t in ts ==> IsRefTitle(t)
    decreases n, 1
  {
    match n
    case Element(e) =>
      if Discarded(e.tag) then {}
      else (if e.tag == "a" then LinkRef(e) else {}) + TitlesOfSeq(e.children)
    case _ => {}
  }

  function TitlesOfSeq(cs: seq<Node>): (ts: set<string>)
    ensures forall t :: t in ts ==> IsRefTitle(t)
    decreases cs, 0
  {
    if cs == [] then {} else TitlesOfNode(cs[0]) + TitlesOfSeq(cs[1..])
  }

  lemma {:induction false} RenderNodeRefs(o: Out, n: Node)
    ensures RenderNode(o, n).refs == o.refs + TitlesOfNode(n)
    decreases n, 1
  {
    match n
    case Text(_) =>
    case Other =>
    case Element(e) =>
      if Discarded(e.tag) {
      } else if e.tag == "a" {
        RenderSeqRefs(Out(o.content, o.refs + LinkRef(e)), e.children);
      } else if e.tag == "i" {
        RenderSeqRefs(Out(o.content + "_", o.refs), e.children);
      } else {
        RenderSeqRefs(o, e.children);
      }
  }

  /**
   * The references after rendering are the references before plus the titles
   * of the rendered links: independent of the text, each title once, and never
   * a "w:" or "Reconstruction:" title.
   */
  lemma {:induction false} RenderSeqRefs(o: Out, cs: seq<Node>)
    ensures RenderSeq(o, cs).refs == o.refs + TitlesOfSeq(cs)
    decreases cs, 0
  {
    if cs != [] {
      RenderNodeRefs(o, cs[0]);
      RenderSeqRefs(RenderNode(o, cs[0]), cs[1..]);
    }
  }

  // ---------------------------------------------------------------------------
  // Discarded subtrees

  predicate IsDiscardedNode(n: Node)
  {
    n.Element? && Discarded(n.elem.tag)
  }

  /** The tree with every `table`, `sup` and `style` subtree removed, at any depth. */
  function PruneNode(n: Node): Node
    decreases n, 1
  {
    match n
    case Element(e) => Element(Elem(e.tag, e.attrs, PruneSeq(e.children), e.innerHtml))
    case _ => n
  }

  function PruneSeq(cs: seq<Node>): seq<Node>
    decreases cs, 0
  {
    if cs == [] then []
    else (if IsDiscardedNode(cs[0]) then [] else [PruneNode(cs[0])]) + PruneSeq(cs[1..])
  }

  predicate NoDiscardedNode(n: Node)
    decreases n, 1
  {
    match n
    case Element(e) => !Discarded(e.tag) && NoDiscardedSeq(e.children)
    case _ => true
  }

  predicate NoDiscardedSeq(cs: seq<Node>)
    decreases cs, 0
  {
    cs == [] || (NoDiscardedNode(cs[0]) && NoDiscardedSeq(cs[1..]))
  }

  lemma {:induction false} PruneNodeClean(n: Node)
    requires !IsDiscardedNode(n)
    ensures NoDiscardedNode(PruneNode(n))
    decreases n, 1
  {
    if n.Element? {
      PruneSeqClean(n.elem.children);
    }
  }

  /** The pruned tree has no discarded element left at any depth. */
  lemma {:induction false} PruneSeqClean(cs: seq<Node>)
    ensures NoDiscardedSeq(PruneSeq(cs))
    decreases cs, 0
  {
    if cs != [] {
      PruneSeqClean(cs[1..]);
      var p := PruneSeq(cs);
      if IsDiscardedNode(cs[0]) {
        assert p == PruneSeq(cs[1..]);
      } else {
        PruneNodeClean(cs[0]);
        assert p[0] == PruneNode(cs[0]) && p[1..] == PruneSeq(cs[1..]);
      }
    }
  }

  lemma {:induction false} RenderNodePrune(o: Out, n: Node)
    requires !IsDiscardedNode(n)
    ensures RenderNode(o, PruneNode(n)) == RenderNode(o, n)
    decreases n, 1
  {
    match n
    case Text(_) =>
    case Other =>
    case Element(e) =>
      var pe := PruneNode(n).elem;
      assert Attr(pe, "title") == Attr(e, "title");
      if e.tag == "a" {
        RenderSeqPrune(Out(o.content, o.refs + LinkRef(e)), e.children);
      } else if e.tag == "i" {
        RenderSeqPrune(Out(o.content + "_", o.refs), e.children);
      } else {
        RenderSeqPrune(o, e.children);
      }
  }

  /**
   * Rendering the pruned children gives exactly what rendering the children
   * gives: a `table`, `sup` or `style` subtree contributes nothing to the
   * buffer or to the references, at any depth.
   */
  lemma {:induction false} RenderSeqPrune(o: Out, cs: seq<Node>)
    ensures RenderSeq(o, PruneSeq(cs)) == RenderSeq(o, cs)
    decreases cs, 0
  {
    if cs != [] {
      var p := PruneSeq(cs);
      if IsDiscardedNode(cs[0]) {
        assert p == PruneSeq(cs[1..]);
        assert RenderNode(o, cs[0]) == o;
        RenderSeqPrune(o, cs[1..]);
      } else {
        assert p[0] == PruneNode(cs[0]) && p[1..] == PruneSeq(cs[1..]);
        RenderNodePrune(o, cs[0]);
        RenderSeqPrune(RenderNode(o, cs[0]), cs[1..]);
      }
    }
  }

  // ---------------------------------------------------------------------------
  // Section walk

  predicate IsTag(n: Node, tag: string)
  {
    n.Element? && n.elem.tag == tag
  }

  predicate IsAnyHeading(n: Node)
  {
    n.Element? && (n.elem.tag == "h2" || IsSectionHeading(n.elem.tag))
  }

  /** The first `h2` ends the walk: nothing after it matters. */
  lemma {:induction false} WalkStopsAtH2(skip: set<string>, st: WalkState, pre: seq<Node>, h2: Node, post: seq<Node>)
    requires IsTag(h2, "h2")
    ensures Walk(skip, st, pre + [h2] + post) == Walk(skip, st, pre)
    decreases |pre|
  {
    var all := pre + [h2] + post;
    if pre == [] {
      assert all[0] == h2;
    } else {
      assert all[0] == pre[0] && all[1..] == pre[1..] + [h2] + post;
      if pre[0].Element? && pre[0].elem.tag != "h2" {
        WalkStopsAtH2(skip, Step(skip, st, pre[0].elem), pre[1..], h2, post);
      } else if !pre[0].Element? {
        WalkStopsAtH2(skip, st, pre[1..], h2, post);
      }
    }
  }

  /** Text, comments and other non-element siblings are ignored. */
  lemma {:induction false} WalkIgnoresNonElements(skip: set<string>, st: WalkState, pre: seq<Node>, n: Node, post: seq<Node>)
    requires !n.Element?
    ensures Walk(skip, st, pre + [n] + post) == Walk(skip, st, pre + post)
    decreases |pre|
  {
    var all := pre + [n] + post;
    if pre == [] {
      assert all[0] == n && all[1..] == post && pre + post == post;
    } else {
      assert all[0] == pre[0] && all[1..] == pre[1..] + [n] + post;
      assert (pre + post)[0] == pre[0] && (pre + post)[1..] == pre[1..] + post;
      if pre[0].Element? && pre[0].elem.tag != "h2" {
        WalkIgnoresNonElements(skip, Step(skip, st, pre[0].elem), pre[1..], n, post);
      } else if !pre[0].Element? {
        WalkIgnoresNonElements(skip, st, pre[1..], n, post);
      }
    }
  }

  /** Without an `h2` in `a`, walking `a + b` is walking `a`, then `b`. */
  lemma {:induction false} WalkAppend(skip: set<string>, st: WalkState, a: seq<Node>, b: seq<Node>)
    requires forall i :: 0 <= i < |a| ==> !IsTag(a[i], "h2")
    ensures Walk(skip, st, a + b) == Walk(skip, Walk(skip, st, a), b)
    decreases |a|
  {
    if a == [] {
      assert a + b == b;
    } else {
      assert (a + b)[0] == a[0] && (a + b)[1..] == a[1..] + b;
      assert !IsTag(a[0], "h2");
      if a[0].Element? {
        WalkAppend(skip, Step(skip, st, a[0].elem), a[1..], b);
      } else {
        WalkAppend(skip, st, a[1..], b);
      }
    }
  }

  /** Outside a kept section, siblings without any heading change nothing. */
  lemma {:induction false} WalkQuiet(skip: set<string>, st: WalkState, sibs: seq<Node>)
    requires !st.add
    requires forall i :: 0 <= i < |sibs| ==> !(sibs[i].Element? && IsSectionHeading(sibs[i].elem.tag))
    ensures Walk(skip, st, sibs) == st
    decreases |sibs|
  {
    if sibs != [] {
      WalkQuiet(skip, st, sibs[1..]);
    }
  }

  /** Since `add` starts false, everything before the first `h3`/`h4`/`h5` is dropped. */
  lemma NothingBeforeFirstHeading(refs: set<string>, skip: set<string>, pre: seq<Node>, rest: seq<Node>)
    requires forall i :: 0 <= i < |pre| ==> !IsAnyHeading(pre[i])
    ensures MainContent(refs, skip, pre + rest) == MainContent(refs, skip, rest)
  {
    var init := WalkState(false, Out("", refs));
    WalkAppend(skip, init, pre, rest);
    WalkQuiet(skip, init, pre);
  }

  /** A heading whose label is in the skip set silences every block up to the next heading. */
  lemma SkippedSectionEmitsNothing(skip: set<string>, st: WalkState, h: Elem, body: seq<Node>, rest: seq<Node>)
    requires IsSectionHeading(h.tag) && HeaderText(h) in skip
    requires forall i :: 0 <= i < |body| ==> !IsAnyHeading(body[i])
    ensures Walk(skip, st, [Element(h)] + body + rest) == Walk(skip, WalkState(false, st.out), rest)
  {
    var all := [Element(h)] + body + rest;
    assert all[0] == Element(h) && all[1..] == body + rest;
    var quiet := WalkState(false, st.out);
    WalkAppend(skip, quiet, body, rest);
    WalkQuiet(skip, quiet, body);
  }

  /** A heading whose label is not in the skip set opens a kept section and writes "\n_label_\n". */
  lemma KeptHeadingLine(skip: set<string>, st: WalkState, h: Elem, rest: seq<Node>)
    requires IsSectionHeading(h.tag) && HeaderText(h) !in skip
    ensures Walk(skip, st, [Element(h)] + rest)
         == Walk(skip, WalkState(true, Out(st.out.content + "\n_" + HeaderText(h) + "_\n", st.out.refs)), rest)
  {
    assert ([Element(h)] + rest)[1..] == rest;
  }

  /**
   * A kept block (inside a kept section, not `div`/`table`/`style`) appends
   * its rendering and then exactly one '\n': the rendering itself holds no '\n'.
   */
  lemma KeptBlockOneLine(skip: set<string>, st: WalkState, e: Elem)
    requires st.add && e.tag != "h2" && !IsSectionHeading(e.tag) && !IsSkippedBlock(e.tag)
    ensures var before := st.out.content;
            var after := Step(skip, st, e).out.content;
            before < after && after[|after| - 1] == '\n'
            && CleanFrom(after[..|after| - 1], |before|)
            && forall k :: |before| <= k < |after| - 1 ==> after[k] != '\n'
  {
    var r := RenderSeq(st.out, e.children);
    RenderIsClean(st.out, e.children);
    var after := r.content + "\n";
    assert after[..|after| - 1] == r.content;
    forall k | |st.out.content| <= k < |after| - 1
      ensures after[k] != '\n'
    {
      assert after[k] == r.content[k];
      assert CleanAt(r.content, k);
      assert IsWhitespace('\n');
    }
  }

  /** A `div`, `table` or `style` block between headings is passed over, in a kept section or not. */
  lemma SkippedBlockIgnored(skip: set<string>, st: WalkState, e: Elem, rest: seq<Node>)
    requires IsSkippedBlock(e.tag)
    ensures Walk(skip, st, [Element(e)] + rest) == Walk(skip, st, rest)
  {
    assert ([Element(e)] + rest)[1..] == rest;
  }

  /** `s` is empty or ends in a line break: whatever comes next starts a line of its own. */
  predicate LineEnded(s: string)
  {
    s == [] || s[|s| - 1] == '\n'
  }

  /** Every write of the walk ends in '\n', so its text is empty or ends a line. */
  lemma {:induction false} WalkEndsLines(skip: set<string>, st: WalkState, sibs: seq<Node>)
    requires LineEnded(st.out.content)
    ensures LineEnded(Walk(skip, st, sibs).out.content)
    decreases |sibs|
  {
    if sibs != [] {
      if sibs[0].Element? && sibs[0].elem.tag != "h2" {
        var e := sibs[0].elem;
        var next := Step(skip, st, e);
        assert LineEnded(next.out.content);
        WalkEndsLines(skip, next, sibs[1..]);
      } else if !sibs[0].Element? {
        WalkEndsLines(skip, st, sibs[1..]);
      }
    }
  }

  // ---------------------------------------------------------------------------
  // Stem blocks

  /** A prefix of a string with no line break has none either. */
  lemma NoNewlineInPrefix(s: string, r: string)
    requires r <= s && '\n' !in s
    ensures '\n' !in r
  {
    assert r == s[..|r|];
  }

  /** Joining two pieces without a line break gives none. */
  lemma NoNewlineJoin(a: string, b: string)
    requires '\n' !in a && '\n' !in b
    ensures '\n' !in a + b
  {
  }

  /** Each stem block is empty or ends its last line. */
  lemma BlocksEndLines(ns: seq<Option<string>>, vs: seq<Option<string>>)
    ensures LineEnded(NounBlockAsWritten(ns)) && LineEnded(VerbBlock(vs))
  {
  }

  /**
   * When no form holds a line break, each stem block is the "_Vartalot_" line
   * followed by exactly one more line.
   */
  lemma NounBlockTwoLines(ns: seq<Option<string>>)
    requires forall i :: 0 <= i < |ns| && ns[i].Some? ==> '\n' !in ns[i].value
    ensures FourForms(ns) ==> exists line :: '\n' !in line && NounBlockAsWritten(ns) == "_Vartalot_\n" + line + "\n"
  {
    if FourForms(ns) {
      var parS, parP, allS, allP := ns[0].value, ns[1].value, ns[2].value, ns[3].value;
      assert '\n' !in parS && '\n' !in parP && '\n' !in allS && '\n' !in allP;
      var stem, pluralStem := NounStemAsWritten(allS), NounStemAsWritten(allP);
      NoNewlineInPrefix(allS, stem);
      NoNewlineInPrefix(allP, pluralStem);
      NoNewlineJoin(stem, " - ");
      NoNewlineJoin(stem + " - ", pluralStem);
      NoNewlineJoin(stem + " - " + pluralStem, " p. ");
      NoNewlineJoin(stem + " - " + pluralStem + " p. ", parS);
      NoNewlineJoin(stem + " - " + pluralStem + " p. " + parS, " m.p. ");
      NoNewlineJoin(stem + " - " + pluralStem + " p. " + parS + " m.p. ", parP);
      assert '\n' !in NounLine(stem, pluralStem, parS, parP);
    }
  }

  lemma VerbBlockTwoLines(vs: seq<Option<string>>)
    requires forall i :: 0 <= i < |vs| && vs[i].Some? ==> '\n' !in vs[i].value
    ensures FourForms(vs) ==> exists line :: '\n' !in line && VerbBlock(vs) == "_Vartalot_\n" + line + "\n"
  {
    if FourForms(vs) {
      var pr1, pr3, pa1, pa3 := vs[0].value, vs[1].value, vs[2].value, vs[3].value;
      assert '\n' !in pr1 && '\n' !in pr3 && '\n' !in pa1 && '\n' !in pa3;
      var stem, pastStem := VerbStem(pr1), VerbStem(pa1);
      NoNewlineInPrefix(pr1, stem);
      NoNewlineInPrefix(pa1, pastStem);
      var p3, past3 := P3Note(stem, pr3), Past3Note(pastStem, pa3);
      NoNewlineJoin(" p3. ", pr3);
      NoNewlineJoin(" past3. ", pa3);
      assert '\n' !in p3 && '\n' !in past3;
      NoNewlineJoin(stem, " - ");
      NoNewlineJoin(stem + " - ", pastStem);
      NoNewlineJoin(stem + " - " + pastStem, p3);
      NoNewlineJoin(stem + " - " + pastStem + p3, past3);
      assert '\n' !in VerbLine(vs);
    }
  }

  /** "mainos": the allative stems are "mainokse" and "mainoksi", with the as-written and the intended stem alike. */
  lemma MainosStems()
    ensures NounStem("mainokselle") == "mainokse" && NounStem("mainoksille") == "mainoksi"
    ensures NounStemAsWritten("mainokselle") == "mainokse" && NounStemAsWritten("mainoksille") == "mainoksi"
  {
    assert EndsWith("mainokselle", "lle") && "mainokselle"[..8] == "mainokse";
    assert EndsWith("mainoksille", "lle") && "mainoksille"[..8] == "mainoksi";
    assert "mainokse"[5..] == "kse" && "mainoksi"[5..] == "ksi";
    assert TrimEndMatches("mainokse", "lle") == "mainokse";
    assert TrimEndMatches("mainoksi", "lle") == "mainoksi";
  }

  /** A regular verb, "sanoa": stems "sano" and "sanoi", and no annotation. */
  lemma SanoaIsRegular()
    ensures VerbStem("sanon") == "sano" && VerbStem("sanoin") == "sanoi"
    ensures P3Note("sano", "sanoo") == "" && Past3Note("sanoi", "sanoi") == ""
  {
    assert EndsWith("sanon", "n") && "sanon"[..4] == "sano";
    assert !EndsWith("sano", "n");
    assert EndsWith("sanoin", "n") && "sanoin"[..5] == "sanoi";
    assert !EndsWith("sanoi", "n");
    assert "sano" + ['o'] == "sanoo";
  }

  /** "olla": the present 3rd person "on" is not the stem "ole" with its last letter doubled, so it is annotated. */
  lemma OllaIsAnnotated()
    ensures VerbStem("olen") == "ole" && VerbStem("olin") == "oli"
    ensures P3Note("ole", "on") == " p3. on" && Past3Note("oli", "oli") == ""
  {
    assert EndsWith("olen", "n") && "olen"[..3] == "ole";
    assert !EndsWith("ole", "n");
    assert EndsWith("olin", "n") && "olin"[..3] == "oli";
    assert !EndsWith("oli", "n");
    assert |"on"| != |"ole" + ['e']|;
  }
}
