/**
 * The per-update logic of `messagestate.rs`: turning a Telegram update into a
 * query, assembling the article message, attaching the reference keyboard,
 * and the fallback from the article link to a full-text search.
 *
 * Fetching a page is a parameter `fetch: string -> Page` (the parsed page at a
 * link), and sending a message appends it to an `outbox`; the Telegram wire
 * format and the HTTP requests themselves are outside the model.
 */
module Messages {
  import opened RustStr
  import opened Html
  import Selection
  import opened DomOps
  import opened DomOpsProps
  import App

  // ---------------------------------------------------------------------------
  // Updates and queries

  /** `MessageChat`, each chat reduced to its identifier. */
  datatype Chat = Private(user: int) | Group(id: int) | Supergroup(id: int) | Unknown(id: int)

  /** `MessageKind`: a text message with its text, or anything else. */
  datatype MessageKind = TextMessage(data: string) | NonText

  datatype Message = Message(kind: MessageKind, chat: Chat)

  /** `UpdateKind`: the three kinds the bot answers, and every other kind. */
  datatype Update =
    | NewMessage(message: Message)
    | EditedMessage(message: Message)
    | CallbackQuery(from: int, data: Option<string>)
    | OtherUpdate

  /** What `get_query` returns: the query text and the chat to answer in. */
  datatype Query = Query(q: string, chat: Chat)

  predicate IsGroup(c: Chat)
  {
    c.Group? || c.Supergroup?
  }

  /** A group command: "/w " is stripped if present, otherwise a single "/"; anything else is not a command. */
  function GroupCommand(text: string): (r: Option<string>)
    ensures r.Some? <==> StartsWith(text, "/")
    ensures StartsWith(text, "/w ") ==> r.Some? && text == "/w " + r.value
    ensures !StartsWith(text, "/w ") && r.Some? ==> text == "/" + r.value
  {
    assert StartsWith(text, "/w ") ==> text[..1] == text[..3][..1];
    match StripPrefix(text, "/w ")
    case Some(rest) => Some(rest)
    case None => StripPrefix(text, "/")
  }

  /** The query of a message: text only, lower-cased first, then the chat's prefix rule. */
  function QueryOfMessage(m: Message): (r: Option<Query>)
    ensures m.kind.NonText? ==> r.None?
    ensures r.Some? ==> r.value.chat == m.chat && IsLower(r.value.q)
    ensures m.kind.TextMessage? && !IsGroup(m.chat) ==> r.Some?
    ensures m.kind.TextMessage? && IsGroup(m.chat) ==> (r.Some? <==> StartsWith(ToLower(m.kind.data), "/"))
  {
    match m.kind
    case NonText => None
    case TextMessage(data) =>
      var text := ToLower(data);
      ToLowerIsLower(data);
      if IsGroup(m.chat) then
        match GroupCommand(text)
        case None => None
        case Some(q) =>
          SuffixIsLower(text, q);
          Some(Query(q, m.chat))
      else
        var q := TrimStartMatches(text, '/');
        SuffixIsLower(text, q);
        Some(Query(q, m.chat))
  }

  /** The end of a lower-case string is lower case. */
  lemma SuffixIsLower(s: string, r: string)
    requires IsLower(s) && |r| <= |s| && r == s[|s| - |r|..]
    ensures IsLower(r)
  {
    forall i | 0 <= i < |r|
      ensures LowerChar(r[i]) == r[i]
    {
      assert r[i] == s[|s| - |r| + i];
    }
  }

  /** `get_query`. */
  function GetQuery(u: Update): (r: Option<Query>)
    ensures u.OtherUpdate? ==> r.None?
    ensures u.CallbackQuery? ==> (r.Some? <==> u.data.Some?)
    ensures u.CallbackQuery? && r.Some? ==> r.value == Query(u.data.value, Private(u.from))
    ensures !u.CallbackQuery? && r.Some? ==> IsLower(r.value.q)
    ensures (u.NewMessage? || u.EditedMessage?) ==> r == QueryOfMessage(u.message)
  {
    match u
    case NewMessage(m) => QueryOfMessage(m)
    case EditedMessage(m) => QueryOfMessage(m)
    case CallbackQuery(from, data) =>
      (match data
       case Some(d) => Some(Query(d, Private(from)))
       case None => None)
    case OtherUpdate => None
  }

  /**
   * Outside groups, every leading '/' of the lower-cased text is removed and
   * nothing else: the query is what follows a run of '/' characters.
   */
  lemma {:induction false} PrivateQuery(data: string, chat: Chat)
    requires !IsGroup(chat)
    ensures var lower := ToLower(data);
            var r := QueryOfMessage(Message(TextMessage(data), chat));
            r.Some? && |r.value.q| <= |lower| && lower == lower[..|lower| - |r.value.q|] + r.value.q
            && (r.value.q == [] || r.value.q[0] != '/')
            && forall i :: 0 <= i < |lower| - |r.value.q| ==> lower[i] == '/'
  {
    var lower := ToLower(data);
    var q := TrimStartMatches(lower, '/');
    assert lower == lower[..|lower| - |q|] + lower[|lower| - |q|..];
  }

  /** A callback's data is passed on as it is, upper case included; a typed message is lower-cased. */
  lemma CallbackNotLowered()
    ensures GetQuery(CallbackQuery(7, Some("Koira"))) == Some(Query("Koira", Private(7)))
    ensures GetQuery(NewMessage(Message(TextMessage("Koira"), Private(7)))) == Some(Query("koira", Private(7)))
  {
    var lower := ToLower("Koira");
    assert lower[0] == 'k' && lower[1..] == "oira";
    assert lower == "koira";
    assert TrimStartMatches(lower, '/') == lower;
  }

  /** In a group, "/w koira" and "/koira" both ask for "koira", and plain "koira" is ignored. */
  lemma GroupPrefixes()
    ensures GroupCommand("/w koira") == Some("koira")
    ensures GroupCommand("/koira") == Some("koira")
    ensures GroupCommand("koira") == None
  {
    assert StartsWith("/w koira", "/w ") && "/w koira"[3..] == "koira";
    assert "/koira"[..3][1] == 'k' && "/koira"[..1] == "/" && "/koira"[1..] == "koira";
    assert "koira"[..1][0] == 'k';
  }

  // ---------------------------------------------------------------------------
  // Reference keyboard

  /** `InlineKeyboardButton::callback(text, data)`. */
  datatype Button = Button(text: string, callbackData: string)

  /** The rows of a keyboard read one after the other. */
  function Flatten<T>(rows: seq<seq<T>>): seq<T>
  {
    if rows == [] then [] else rows[0] + Flatten(rows[1..])
  }

  /** `chunks(n)`: consecutive pieces of `n` elements, the last one possibly shorter. */
  function Chunks<T>(xs: seq<T>, n: nat): (rows: seq<seq<T>>)
    requires n > 0
    ensures Flatten(rows) == xs
    ensures forall i :: 0 <= i < |rows| ==> 0 < |rows[i]| <= n
    ensures forall i :: 0 <= i < |rows| - 1 ==> |rows[i]| == n
    decreases |xs|
  {
    if xs == [] then []
    else if |xs| <= n then
      assert [xs][1..] == [];
      [xs]
    else
      var rest := Chunks(xs[n..], n);
      assert ([xs[..n]] + rest)[1..] == rest;
      [xs[..n]] + rest
  }

  /** One button per title, its label equal to its callback data. */
  function Buttons(titles: seq<string>): (bs: seq<Button>)
    ensures |bs| == |titles|
    ensures forall i :: 0 <= i < |bs| ==> bs[i].text == titles[i] && bs[i].callbackData == titles[i]
  {
    seq(|titles|, i requires 0 <= i < |titles| => Button(titles[i], titles[i]))
  }

  /** The keyboard `send_markdown` attaches: none without references, otherwise rows of four in ascending order. */
  function Keyboard(refs: set<string>): (kb: Option<seq<seq<Button>>>)
    ensures kb.None? <==> refs == {}
    ensures kb.Some? ==> forall i :: 0 <= i < |kb.value| ==> 0 < |kb.value[i]| <= 4
    ensures kb.Some? ==> forall i :: 0 <= i < |kb.value| - 1 ==> |kb.value[i]| == 4
    ensures kb.Some? ==> var bs := Flatten(kb.value);
              |bs| == |refs|
              && (forall i :: 0 <= i < |bs| ==> bs[i].text == bs[i].callbackData && bs[i].text in refs)
              && (forall i, j :: 0 <= i < j < |bs| ==> StrLess(bs[i].text, bs[j].text))
  {
    if refs == {} then None
    else
      var titles := Ascending(refs);
      var bs := Buttons(titles);
      forall i | 0 <= i < |bs| ensures bs[i].text in refs {
        assert titles[i] in titles;
      }
      Some(Chunks(bs, 4))
  }

  /** Every reference gets a button. */
  lemma KeyboardCoversRefs(refs: set<string>, r: string)
    requires r in refs
    ensures Keyboard(refs).Some?
    ensures exists b :: b in Flatten(Keyboard(refs).value) && b.text == r
  {
    var titles := Ascending(refs);
    var i :| 0 <= i < |titles| && titles[i] == r;
    var bs := Flatten(Keyboard(refs).value);
    assert bs == Buttons(titles);
    assert bs[i] in bs && bs[i].text == r;
  }

  /** Nine references make rows of four, four and one. */
  lemma NineRefsRows(xs: seq<Button>)
    requires |xs| == 9
    ensures var rows := Chunks(xs, 4); |rows| == 3 && |rows[0]| == 4 && |rows[1]| == 4 && |rows[2]| == 1
  {
    assert xs[4..][4..] == xs[8..];
  }

  // ---------------------------------------------------------------------------
  // Articles and the fallback

  /** A message handed to `send`: chat, Markdown text and optional keyboard. */
  datatype Outgoing = Outgoing(chat: Chat, text: string, keyboard: Option<seq<seq<Button>>>)

  /** What `send_link` reports. */
  datatype State = Sent | Err | Missing

  const Site: string := "https://en.wiktionary.org"

  /** The first link tried for a query. */
  function WikiLink(q: string): (link: string)
    ensures StartsWith(link, Site + "/wiki/") && link[|Site + "/wiki/"|..] == q
  {
    Site + "/wiki/" + q
  }

  const SearchPath: string := "/wiki/Special:Search?search="
  const SearchFlags: string := "&fulltext=Full+text+search&ns0=1"

  /** The full-text search link for a query: the query sits between the search path and the flags. */
  function SearchLink(q: string): (link: string)
    ensures |link| == |Site + SearchPath| + |q| + |SearchFlags|
    ensures StartsWith(link, Site + SearchPath) && EndsWith(link, SearchFlags)
    ensures link[|Site + SearchPath|..|link| - |SearchFlags|] == q
  {
    Site + SearchPath + q + SearchFlags
  }

  /** The siblings after the parent of the page's first `#Finnish` match, when there is one. */
  function Anchor(app: App.AppState, page: Page): (r: Option<seq<Node>>)
    ensures r.Some? <==> app.selectors.finnish in page.afterParent
    ensures r.Some? ==> r.value == page.afterParent[app.selectors.finnish]
  {
    if app.selectors.finnish in page.afterParent then Some(page.afterParent[app.selectors.finnish]) else None
  }

  /** The `href` of the first search result, when the result page has one. */
  function SearchHit(app: App.AppState, page: Page): (r: Option<string>)
    ensures r.Some? <==> app.selectors.searchResult in page.firstMatch
                         && "href" in page.firstMatch[app.selectors.searchResult].attrs
    ensures r.Some? ==> r.value == page.firstMatch[app.selectors.searchResult].attrs["href"]
  {
    match SelectFirst(page, app.selectors.searchResult)
    case None => None
    case Some(e) => Attr(e, "href")
  }

  /**
   * The article body `send_article` builds after the query line: the kept
   * sections, then the noun block and the verb block, then the link on a line
   * of its own; and the references the sections held, added to `refs`.
   */
  function ArticleBody(app: App.AppState, page: Page, sibs: seq<Node>, link: string, refs: set<string>): (body: Out)
    ensures body.refs == MainContent(refs, app.skipChapters, sibs).refs && refs <= body.refs
    ensures var main := MainContent(refs, app.skipChapters, sibs).content;
            var forms := GetForms(app.selectors, page);
            Framed(body.content, main, NounBlockAsWritten(forms.0) + VerbBlock(forms.1), link + "\n")
  {
    var main := MainContent(refs, app.skipChapters, sibs);
    var forms := GetForms(app.selectors, page);
    Out(Assemble(main.content, NounBlockAsWritten(forms.0), VerbBlock(forms.1), link), main.refs)
  }

  /** `s` is `head`, then `mid`, then `tail`. */
  predicate Framed(s: string, head: string, mid: string, tail: string)
  {
    |head| + |tail| <= |s| && StartsWith(s, head) && s[|head|..|s| - |tail|] == mid && EndsWith(s, tail)
  }

  function Assemble(m: string, a: string, b: string, l: string): (s: string)
    ensures Framed(s, m, a + b, l + "\n")
  {
    ArticleLayout(m, a, b, l);
    m + a + b + l + "\n"
  }

  /** The link starts a line of its own: what comes before it is empty or ends in '\n'. */
  lemma LinkOnOwnLine(app: App.AppState, page: Page, sibs: seq<Node>, link: string, refs: set<string>)
    ensures var body := ArticleBody(app, page, sibs, link, refs).content;
            |link| + 1 <= |body| && LineEnded(body[..|body| - |link| - 1])
  {
    var main := MainContent(refs, app.skipChapters, sibs);
    var forms := GetForms(app.selectors, page);
    WalkEndsLines(app.skipChapters, WalkState(false, Out("", refs)), sibs);
    BlocksEndLines(forms.0, forms.1);
    ArticleLayout(main.content, NounBlockAsWritten(forms.0), VerbBlock(forms.1), link);
  }

  /** Where each part of `m + a + b + l + "\n"` sits; after `m`, `a` and `b` that each end a line, `l` has a line of its own. */
  lemma ArticleLayout(m: string, a: string, b: string, l: string)
    ensures var s := m + a + b + l + "\n";
            |m| + |l| + 1 <= |s| && StartsWith(s, m) && s[|m|..|s| - |l| - 1] == a + b
            && EndsWith(s, l + "\n")
            && (LineEnded(m) && LineEnded(a) && LineEnded(b) ==> LineEnded(s[..|s| - |l| - 1]))
  {
    var s := m + a + b + l + "\n";
    var n := |s| - |l| - 1;
    assert s == (m + a + b) + (l + "\n");
    assert s[..n] == m + a + b;
    assert s[..|m|] == m;
    assert s[|m|..n] == a + b;
    assert s[n..] == l + "\n";
  }

  /** The message `send_article` sends: the query in bold on the first line, the body, and the keyboard of the collected references. */
  function ArticleMessage(chat: Chat, q: string, app: App.AppState, page: Page, sibs: seq<Node>, link: string): (m: Outgoing)
    ensures m.chat == chat && m.keyboard == Keyboard(ArticleBody(app, page, sibs, link, {}).refs)
    ensures StartsWith(m.text, "*" + q + "*\n")
    ensures m.text[|q| + 3..] == ArticleBody(app, page, sibs, link, {}).content
    ensures EndsWith(m.text, link + "\n")
  {
    var head := "*" + q + "*\n";
    var body := ArticleBody(app, page, sibs, link, {});
    PrefixStartsWith(head, body.content);
    SuffixKeepsEnd(head, body.content, link + "\n");
    Outgoing(chat, head + body.content, Keyboard(body.refs))
  }

  lemma SuffixKeepsEnd(h: string, x: string, t: string)
    requires EndsWith(x, t)
    ensures EndsWith(h + x, t)
  {
    assert (h + x)[|h + x| - |t|..] == x[|x| - |t|..];
  }

  /** The text sent when neither the article link nor the search finds a Finnish entry. */
  function NotFoundText(q: string): (text: string)
    ensures StartsWith(text, "*" + q + "*\n") && text[|q| + 3..] == "No article found"
  {
    "*" + q + "*\nNo article found"
  }

  /**
   * The messages `get_update` sends for an update: the article behind the
   * query's link; failing that, the article behind the first full-text search
   * result; failing the search, a "No article found" note. A search result
   * whose page has no Finnish entry ends the exchange silently.
   */
  function Respond(u: Update, app: App.AppState, fetch: string -> Page): (out: seq<Outgoing>)
    ensures GetQuery(u).None? ==> out == []
    ensures |out| <= 1
    ensures out != [] ==> out[0].chat == GetQuery(u).value.chat
                          && StartsWith(out[0].text, "*" + GetQuery(u).value.q + "*\n")
  {
    match GetQuery(u)
    case None => []
    case Some(Query(q, chat)) =>
      var head := "*" + q + "*\n";
      var link := WikiLink(q);
      var page := fetch(link);
      match Anchor(app, page)
      case Some(sibs) => [ArticleMessage(chat, q, app, page, sibs, link)]
      case None =>
        match SearchHit(app, fetch(SearchLink(q)))
        case Some(href) =>
          var link' := Site + href;
          var page' := fetch(link');
          (match Anchor(app, page')
           case Some(sibs) => [ArticleMessage(chat, q, app, page', sibs, link')]
           case None => [])
        case None =>
          PrefixStartsWith(head, "No article found");
          [Outgoing(chat, NotFoundText(q), Keyboard({}))]
  }

  lemma PrefixStartsWith(a: string, b: string)
    ensures StartsWith(a + b, a)
  {
    assert (a + b)[..|a|] == a;
  }

  /** A query whose link shows a Finnish entry is answered with that article, and no search is made. */
  lemma DirectHit(u: Update, app: App.AppState, fetch: string -> Page)
    requires GetQuery(u).Some? && Anchor(app, fetch(WikiLink(GetQuery(u).value.q))).Some?
    ensures var Query(q, chat) := GetQuery(u).value;
            var page := fetch(WikiLink(q));
            Respond(u, app, fetch) == [ArticleMessage(chat, q, app, page, Anchor(app, page).value, WikiLink(q))]
  {
  }

  /** With no Finnish entry at the link and no search result, the note is sent, without a keyboard. */
  lemma NothingFound(u: Update, app: App.AppState, fetch: string -> Page)
    requires GetQuery(u).Some?
    requires Anchor(app, fetch(WikiLink(GetQuery(u).value.q))).None?
    requires SearchHit(app, fetch(SearchLink(GetQuery(u).value.q))).None?
    ensures Respond(u, app, fetch) == [Outgoing(GetQuery(u).value.chat, NotFoundText(GetQuery(u).value.q), None)]
  {
  }

  /**
   * No Finnish entry at the query's link, but the first search result leads to
   * a page with one: that article is sent, its last line the result's link.
   */
  lemma SearchHitRetried(u: Update, app: App.AppState, fetch: string -> Page)
    requires GetQuery(u).Some?
    requires Anchor(app, fetch(WikiLink(GetQuery(u).value.q))).None?
    requires var hit := SearchHit(app, fetch(SearchLink(GetQuery(u).value.q)));
             hit.Some? && Anchor(app, fetch(Site + hit.value)).Some?
    ensures var Query(q, chat) := GetQuery(u).value;
            var link := Site + SearchHit(app, fetch(SearchLink(q))).value;
            var page := fetch(link);
            Respond(u, app, fetch) == [ArticleMessage(chat, q, app, page, Anchor(app, page).value, link)]
  {
  }

  /** A search result whose page has no Finnish entry either: nothing is sent. */
  lemma SecondMissIsSilent(u: Update, app: App.AppState, fetch: string -> Page)
    requires GetQuery(u).Some?
    requires Anchor(app, fetch(WikiLink(GetQuery(u).value.q))).None?
    requires var hit := SearchHit(app, fetch(SearchLink(GetQuery(u).value.q)));
             hit.Some? && Anchor(app, fetch(Site + hit.value)).None?
    ensures Respond(u, app, fetch) == []
  {
  }

  // ---------------------------------------------------------------------------
  // The per-update state

  /** `MessageState`: one query being answered. */
  class MessageState {
    const chat: Chat
    const q: string
    const app: App.AppState
    /** The link of the page to load next. */
    var link: string
    /** The reference titles collected from the article, in `BTreeSet` order when shown. */
    var refs: set<string>
    /** The messages handed to `send`, oldest first. */
    var outbox: seq<Outgoing>

    constructor(chat: Chat, q: string, app: App.AppState)
      ensures this.chat == chat && this.q == q && this.app == app
      ensures link == WikiLink(q) && refs == {} && outbox == []
    {
      this.chat := chat;
      this.q := q;
      this.app := app;
      link := WikiLink(q);
      refs := {};
      outbox := [];
    }

    /** `try_full_search`: on a search result with an `href`, point `link` at it. */
    method TryFullSearch(fetch: string -> Page) returns (found: bool)
      modifies this
      ensures found <==> SearchHit(app, fetch(SearchLink(q))).Some?
      ensures found ==> link == Site + SearchHit(app, fetch(SearchLink(q))).value
      ensures !found ==> link == old(link)
      ensures refs == old(refs) && outbox == old(outbox)
    {
      var fulltext := fetch(SearchLink(q));
      var first := SelectFirst(fulltext, app.selectors.searchResult);
      if first.Some? {
        var foundLink := Attr(first.value, "href");
        if foundLink.Some? {
          link := Site + foundLink.value;
          return true;
        }
      }
      return false;
    }

    /** `send_markdown`: send `text`, with the keyboard of the current references. */
    method SendMarkdown(text: string)
      modifies this
      ensures outbox == old(outbox) + [Outgoing(chat, text, Keyboard(refs))]
      ensures link == old(link) && refs == old(refs)
    {
      var keyboard: Option<seq<seq<Button>>> := None;
      if refs != {} {
        var items := Buttons(Ascending(refs));
        keyboard := Some(Chunks(items, 4));
      }
      outbox := outbox + [Outgoing(chat, text, keyboard)];
    }

    /** `send_article`: build the article from the sections after the anchor and send it. */
    method SendArticle(page: Page, sibs: seq<Node>)
      modifies this
      ensures var body := ArticleBody(app, page, sibs, link, old(refs));
              refs == body.refs
              && outbox == old(outbox) + [Outgoing(chat, "*" + q + "*\n" + body.content, Keyboard(body.refs))]
      ensures link == old(link)
    {
      var content, refs' := GetMainContent(refs, app.skipChapters, sibs);
      refs := refs';
      var forms := GetForms(app.selectors, page);
      content := WriteNounForms(content, forms.0);
      content := WriteVerbForms(content, forms.1);
      content := content + link + "\n";
      SendMarkdown("*" + q + "*\n" + content);
    }

    /** `send_link`: load `link`; send the article when the page has a Finnish entry, else report it missing. */
    method SendLink(fetch: string -> Page) returns (st: State)
      modifies this
      ensures st != Err
      ensures st == Sent <==> Anchor(app, fetch(link)).Some?
      ensures st == Sent ==>
                var page := fetch(link);
                var body := ArticleBody(app, page, Anchor(app, page).value, link, old(refs));
                refs == body.refs
                && outbox == old(outbox) + [Outgoing(chat, "*" + q + "*\n" + body.content, Keyboard(body.refs))]
      ensures st == Missing ==> refs == old(refs) && outbox == old(outbox)
      ensures link == old(link)
    {
      var html := fetch(link);
      match Anchor(app, html) {
        case Some(sibs) =>
          SendArticle(html, sibs);
          st := Sent;
        case None =>
          st := Missing;
      }
    }
  }

  /** `get_update`: answer one update. */
  method GetUpdate(u: Update, app: App.AppState, fetch: string -> Page) returns (outbox: seq<Outgoing>)
    ensures outbox == Respond(u, app, fetch)
  {
    var query := GetQuery(u);
    if query.None? {
      return [];
    }
    var ms := new MessageState(query.value.chat, query.value.q, app);
    var st := ms.SendLink(fetch);
    match st {
      case Sent =>
      case Err =>
      case Missing =>
        var found := ms.TryFullSearch(fetch);
        if found {
          st := ms.SendLink(fetch);
        } else {
          ms.SendMarkdown("*" + ms.q + "*\nNo article found");
        }
    }
    outbox := ms.outbox;
  }
}
