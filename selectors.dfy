/**
 * The selector table of `selectors.rs`. Only the selector TEXT is modelled;
 * parsing it into a CSS selector is the parser library's business. The order of
 * the noun and verb lists is load-bearing: the stem writers in `DomOps` take
 * their four forms by position.
 */
module Selection {

  datatype Selectors = Selectors(finnish: string, nouns: seq<string>, verbs: seq<string>, searchResult: string)

  /** Outer loop of the noun selectors: partitive, then allative. */
  const NounCases: seq<string> := ["par", "all"]
  /** Inner loop of the noun selectors: singular, then plural. */
  const Numbers: seq<string> := ["s", "p"]
  /** Outer loop of the verb selectors: present, then past. */
  const Tenses: seq<string> := ["pres", "past"]
  /** Inner loop of the verb selectors: first person, then third person. */
  const Persons: seq<string> := ["1", "3"]

  /** The selector text `.lang-fi.{infl}\|{t}-form-of`. */
  function NounSelector(infl: string, t: string): string
  {
    ".lang-fi." + infl + "\\|" + t + "-form-of"
  }

  /** The selector text `.lang-fi.\3{per} \|s\|{tense}\|indc-form-of`. */
  function VerbSelector(tense: string, per: string): string
  {
    ".lang-fi.\\3" + per + " \\|s\\|" + tense + "\\|indc-form-of"
  }

  /** `outer.flat_map(|o| inner.map(|i| f(o, i)))`: outer loop first, inner loop second. */
  function FlatMap(outer: seq<string>, inner: seq<string>, f: (string, string) -> string): (r: seq<string>)
    ensures |r| == |outer| * |inner|
  {
    if outer == [] then []
    else seq(|inner|, j requires 0 <= j < |inner| => f(outer[0], inner[j])) + FlatMap(outer[1..], inner, f)
  }

  /** Entry `i * |inner| + j` of a `FlatMap` is `f` of the `i`-th outer and the `j`-th inner item. */
  lemma {:induction false} FlatMapIndex(outer: seq<string>, inner: seq<string>, f: (string, string) -> string, i: int, j: int)
    requires 0 <= i < |outer| && 0 <= j < |inner|
    ensures i * |inner| + j < |FlatMap(outer, inner, f)|
    ensures FlatMap(outer, inner, f)[i * |inner| + j] == f(outer[i], inner[j])
  {
    var row := seq(|inner|, k requires 0 <= k < |inner| => f(outer[0], inner[k]));
    assert FlatMap(outer, inner, f) == row + FlatMap(outer[1..], inner, f);
    if i > 0 {
      FlatMapIndex(outer[1..], inner, f, i - 1, j);
      assert i * |inner| + j == |row| + ((i - 1) * |inner| + j);
    }
  }

  /** A two-by-two `FlatMap` lists the pairs with the outer index varying slowest. */
  lemma FlatMapTwoByTwo(outer: seq<string>, inner: seq<string>, f: (string, string) -> string)
    requires |outer| == 2 && |inner| == 2
    ensures FlatMap(outer, inner, f)
         == [f(outer[0], inner[0]), f(outer[0], inner[1]), f(outer[1], inner[0]), f(outer[1], inner[1])]
  {
    assert FlatMap(outer[1..][1..], inner, f) == [];
  }

  /** `Selectors::new`. */
  function New(): (s: Selectors)
    ensures s.finnish == "#Finnish"
    ensures s.nouns == [NounSelector("par", "s"), NounSelector("par", "p"),
                        NounSelector("all", "s"), NounSelector("all", "p")]
    ensures s.verbs == [VerbSelector("pres", "1"), VerbSelector("pres", "3"),
                        VerbSelector("past", "1"), VerbSelector("past", "3")]
    ensures s.searchResult == ".mw-search-result-heading a"
  {
    FlatMapTwoByTwo(NounCases, Numbers, NounSelector);
    FlatMapTwoByTwo(Tenses, Persons, VerbSelector);
    Selectors("#Finnish", FlatMap(NounCases, Numbers, NounSelector),
              FlatMap(Tenses, Persons, VerbSelector), ".mw-search-result-heading a")
  }

  /**
   * Slot `i` of the noun list is case `i / 2` and number `i % 2`; slot `i` of
   * the verb list is tense `i / 2` and person `i % 2`. So slots 0..3 are
   * partitive singular, partitive plural, allative singular, allative plural,
   * and present 1st, present 3rd, past 1st, past 3rd.
   */
  lemma SlotOrder(i: nat)
    requires i < 4
    ensures New().nouns[i] == NounSelector(NounCases[i / 2], Numbers[i % 2])
    ensures New().verbs[i] == VerbSelector(Tenses[i / 2], Persons[i % 2])
  {
  }

  /** No two slots share a selector, so each slot picks its own form. */
  lemma SlotsDistinct()
    ensures forall i, j :: 0 <= i < j < 4 ==> New().nouns[i] != New().nouns[j]
    ensures forall i, j :: 0 <= i < j < 4 ==> New().verbs[i] != New().verbs[j]
  {
    var n := New().nouns;
    var v := New().verbs;
    assert n[0][9] == 'p' && n[1][9] == 'p' && n[2][9] == 'a' && n[3][9] == 'a';
    assert n[0][14] == 's' && n[1][14] == 'p' && n[2][14] == 's' && n[3][14] == 'p';
    assert v[0][11] == '1' && v[1][11] == '3' && v[2][11] == '1' && v[3][11] == '3';
    assert v[0][19] == 'r' && v[1][19] == 'r' && v[2][19] == 'a' && v[3][19] == 'a';
  }
}
