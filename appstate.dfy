/**
 * The bot's shared configuration of `appstate.rs`: the Telegram token, the
 * selector table, and the set of section labels whose sections are left out
 * of an article.
 */
module App {
  import opened Html
  import Selection
  import opened DomOps

  datatype AppState = AppState(token: string, selectors: Selection.Selectors, skipChapters: set<string>)

  /** The skipped section labels, in the order the source lists them. */
  const SkipLabels: seq<string> := [
    "Pronunciation", "", "Anagrams", "Conjugation", "Declension",
    "References", "Derived terms", "Related terms"
  ]

  /** `AppState::new(token)`: the skip set is the listed labels collected into a set. */
  function New(token: string): (app: AppState)
    ensures app.token == token
    ensures app.selectors == Selection.New()
    ensures app.skipChapters == {"Pronunciation", "", "Anagrams", "Conjugation", "Declension",
                                 "References", "Derived terms", "Related terms"}
  {
    AppState(token, Selection.New(), set l | l in SkipLabels)
  }

  /**
   * The empty label is in the skip set, so a section heading whose first child
   * is not an element always closes the current section and opens a skipped
   * one, writing nothing.
   */
  lemma EmptyLabelAlwaysSkipped(token: string, st: WalkState, h: Elem)
    requires IsSectionHeading(h.tag) && FirstElementChild(h).None?
    ensures Step(New(token).skipChapters, st, h) == WalkState(false, st.out)
  {
  }

  /** A heading labelled "Pronunciation" (after "edit" trimming) opens a skipped section. */
  lemma PronunciationSkipped(token: string, st: WalkState, h: Elem)
    requires IsSectionHeading(h.tag) && HeaderText(h) == "Pronunciation"
    ensures Step(New(token).skipChapters, st, h) == WalkState(false, st.out)
  {
  }

  /** A heading labelled "Noun" opens a kept section and writes its label line. */
  lemma NounSectionKept(token: string, st: WalkState, h: Elem)
    requires IsSectionHeading(h.tag) && HeaderText(h) == "Noun"
    ensures Step(New(token).skipChapters, st, h)
         == WalkState(true, Out(st.out.content + "\n_" + HeaderText(h) + "_\n", st.out.refs))
  {
    var skip := New(token).skipChapters;
    NounNotListed(HeaderText(h), skip);
  }

  lemma NounNotListed(noun: string, skip: set<string>)
    requires noun == "Noun" && skip == New("").skipChapters
    ensures noun !in skip
  {
    assert |noun| == 4;
    assert noun != "Pronunciation" && noun != "" && noun != "Anagrams" && noun != "Conjugation";
    assert noun != "Declension" && noun != "References" && noun != "Derived terms" && noun != "Related terms";
  }
}
