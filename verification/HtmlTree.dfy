/**
 Well-formed documents: on the events of a document forest, started from any open captures, the capture
 machine computes the recursive reading of the tree.
 */
module HtmlTree {
  import opened Wrappers
  import opened Text
  import opened HtmlCapture
  import opened HtmlStream

  datatype Node =
    | Characters(data: string)
    | Element(tag: string, attrs: Attrs, children: Forest)

  datatype Forest = Nil | Cons(head: Node, tail: Forest)

  function Events(f: Forest): seq<Event> {
    match f
    case Nil => []
    case Cons(Characters(data), tail) => [Data(data)] + Events(tail)
    case Cons(Element(tag, attrs, children), tail) =>
      [StartTag(tag, attrs)] + Events(children) + [EndTag(tag)] + Events(tail)
  }

  /** The pieces of text in document order. */
  function TextParts(f: Forest): seq<string> {
    match f
    case Nil => []
    case Cons(Characters(data), tail) => [data] + TextParts(tail)
    case Cons(Element(_, _, children), tail) => TextParts(children) + TextParts(tail)
  }

  /** The first non-empty link in document order. */
  function FirstLink(f: Forest): Option<string> {
    match f
    case Nil => None
    case Cons(Characters(_), tail) => FirstLink(tail)
    case Cons(Element(_, attrs, children), tail) =>
      OrElse(OrElse(Href(attrs), FirstLink(children)), FirstLink(tail))
  }

  /** The marked elements in the order of their end tags, with their subtree text and link. */
  function MarkedElements(f: Forest): seq<Capture> {
    match f
    case Nil => []
    case Cons(Characters(_), tail) => MarkedElements(tail)
    case Cons(Element(tag, attrs, children), tail) =>
      MarkedElements(children) + ElementCapture(attrs, children) + MarkedElements(tail)
  }

  function ElementCapture(attrs: Attrs, children: Forest): seq<Capture> {
    OwnCapture(DataQa(attrs), TextParts(children), OrElse(Href(attrs), FirstLink(children)))
  }

  function OwnCapture(key: Option<string>, parts: seq<string>, link: Option<string>): seq<Capture> {
    if key.Some? then [Capture(key.value, 0, parts, link)] else []
  }

  // ---------- What a forest does to open captures and to the published values ----------

  function Absorb(c: Capture, parts: seq<string>, link: Option<string>): Capture {
    c.(textParts := c.textParts + parts, href := OrElse(c.href, link))
  }

  function AbsorbAll(cs: seq<Capture>, parts: seq<string>, link: Option<string>): (r: seq<Capture>)
    ensures |r| == |cs| && forall i | 0 <= i < |cs| :: r[i] == Absorb(cs[i], parts, link)
  {
    seq(|cs|, i requires 0 <= i < |cs| => Absorb(cs[i], parts, link))
  }

  function PublishTexts(render: Render, texts: map<string, seq<string>>, done: seq<Capture>)
    : map<string, seq<string>>
  {
    if done == [] then texts else
      var c := done[|done| - 1];
      var before := PublishTexts(render, texts, done[..|done| - 1]);
      if TextOf(render, c) != "" then Append(before, c.key, TextOf(render, c)) else before
  }

  function PublishLinks(links: map<string, seq<string>>, done: seq<Capture>): map<string, seq<string>> {
    if done == [] then links else
      var c := done[|done| - 1];
      var before := PublishLinks(links, done[..|done| - 1]);
      if c.href.Some? && c.href.value != "" then Append(before, c.key, c.href.value) else before
  }

  /** The effect of a forest with these pieces of text, first link and completed captures. */
  ghost predicate Effect(render: Render, s: ParserState, r: ParserState,
                         parts: seq<string>, link: Option<string>, done: seq<Capture>) {
    && r.captures == AbsorbAll(s.captures, parts, link)
    && r.texts == PublishTexts(render, s.texts, done)
    && r.hrefs == PublishLinks(s.hrefs, done)
  }

  lemma {:induction false} PublishConcat(render: Render, texts: map<string, seq<string>>,
                                         links: map<string, seq<string>>, a: seq<Capture>, b: seq<Capture>)
    ensures PublishTexts(render, texts, a + b) == PublishTexts(render, PublishTexts(render, texts, a), b)
    ensures PublishLinks(links, a + b) == PublishLinks(PublishLinks(links, a), b)
    decreases |b|
  {
    if b == [] {
      assert a + b == a;
    } else {
      assert (a + b)[..|a + b| - 1] == a + b[..|b| - 1];
      PublishConcat(render, texts, links, a, b[..|b| - 1]);
    }
  }

  lemma EffectThen(render: Render, s: ParserState, m: ParserState, r: ParserState,
                   parts: seq<string>, link: Option<string>, done: seq<Capture>,
                   parts': seq<string>, link': Option<string>, done': seq<Capture>)
    requires Effect(render, s, m, parts, link, done)
    requires Effect(render, m, r, parts', link', done')
    ensures Effect(render, s, r, parts + parts', OrElse(link, link'), done + done')
  {
    PublishConcat(render, s.texts, s.hrefs, done, done');
    forall i | 0 <= i < |s.captures|
      ensures r.captures[i] == Absorb(s.captures[i], parts + parts', OrElse(link, link'))
    {
      assert s.captures[i].textParts + parts + parts' == s.captures[i].textParts + (parts + parts');
    }
  }

  lemma DataEffect(render: Render, s: ParserState, data: string)
    ensures Effect(render, s, OnData(s, data), [data], None, [])
  {
  }

  lemma NoEffect(render: Render, s: ParserState)
    ensures Effect(render, s, s, [], None, [])
  {
    forall i | 0 <= i < |s.captures| ensures Absorb(s.captures[i], [], None) == s.captures[i] {
      assert s.captures[i].textParts + [] == s.captures[i].textParts;
    }
  }

  /** The captures inside an element: the outer ones deepened, then its own. */
  lemma InnerCaptures(cs: seq<Capture>, key: Option<string>, href: Option<string>, parts: seq<string>,
                      link: Option<string>)
    ensures var inner := AbsorbAll(OpenCapture(cs, key, href), parts, link);
      && |inner| == |cs| + (if key.Some? then 1 else 0)
      && (forall i | 0 <= i < |cs| :: Raise(inner[i]) == Absorb(cs[i], parts, OrElse(href, link)))
      && (key.Some? ==> inner[|cs|] == Capture(key.value, 1, parts, OrElse(href, link)))
  {
    var inner := AbsorbAll(OpenCapture(cs, key, href), parts, link);
    forall i | 0 <= i < |cs| ensures Raise(inner[i]) == Absorb(cs[i], parts, OrElse(href, link)) {
      assert OpenCapture(cs, key, href)[i] == Deepen(cs[i], href);
    }
    assert [] + parts == parts;
  }

  /** The end tag undoes the deepening of its start tag. */
  lemma ElementDepths(cs: seq<Capture>, key: Option<string>, href: Option<string>,
                      parts: seq<string>, link: Option<string>)
    requires IsStack(cs)
    ensures var inner := AbsorbAll(OpenCapture(cs, key, href), parts, link);
      && Survivors(inner) == AbsorbAll(cs, parts, OrElse(href, link))
      && (key.Some? ==>
            inner != [] && inner[|inner| - 1] == Capture(key.value, 1, parts, OrElse(href, link)))
      && (key.None? && inner != [] ==> inner[|inner| - 1].depth >= 2)
  {
    hide OpenCapture, OrElse;
    InnerCaptures(cs, key, href, parts, link);
    var inner := AbsorbAll(OpenCapture(cs, key, href), parts, link);
    if key.None? && inner != [] {
      assert Raise(inner[|cs| - 1]).depth == cs[|cs| - 1].depth;
    }
    assert |Survivors(inner)| == |cs|;
  }

  lemma AbsorbKeepsStack(cs: seq<Capture>, parts: seq<string>, link: Option<string>)
    requires IsStack(cs)
    ensures IsStack(AbsorbAll(cs, parts, link))
  {
  }

  /** The element's own capture, if it is marked, is completed by its end tag; nothing else is. */
  lemma ElementEffect(render: Render, s: ParserState, inner: ParserState, tag: string, key: Option<string>,
                      href: Option<string>, parts: seq<string>, link: Option<string>, done: seq<Capture>)
    requires IsStack(s.captures)
    requires Effect(render, s.(captures := OpenCapture(s.captures, key, href)), inner, parts, link, done)
    ensures Effect(render, s, OnEnd(render, inner, tag), parts, OrElse(href, link),
                   done + OwnCapture(key, parts, OrElse(href, link)))
  {
    hide PublishTexts, PublishLinks, OpenCapture, Survivors, OnEnd, OrElse;
    ElementDepths(s.captures, key, href, parts, link);
    OpenKeepsStack(s.captures, key, href);
    AbsorbKeepsStack(OpenCapture(s.captures, key, href), parts, link);
    EndTagPopsInnermost(render, inner, tag);
    var own := OwnCapture(key, parts, OrElse(href, link));
    PublishConcat(render, s.texts, s.hrefs, done, own);
    if key.Some? {
      assert own[0] == Raise(inner.captures[|inner.captures| - 1]);
      PublishOne(render, inner.texts, inner.hrefs, own[0]);
    } else {
      assert done + own == done;
    }
  }

  lemma PublishOne(render: Render, texts: map<string, seq<string>>, links: map<string, seq<string>>, c: Capture)
    ensures PublishTexts(render, texts, [c]) ==
            if TextOf(render, c) != "" then Append(texts, c.key, TextOf(render, c)) else texts
    ensures PublishLinks(links, [c]) ==
            if c.href.Some? && c.href.value != "" then Append(links, c.key, c.href.value) else links
  {
    assert [c][..0] == [];
    assert PublishTexts(render, texts, []) == texts && PublishLinks(links, []) == links;
  }

  /**
   The streaming machine equals the recursive tree definition: from any open captures, the events of a
   document forest leave every open capture at its depth, extended by the forest's text and, if it had
   none, its first link, and publish exactly the marked elements of the forest, in end-tag order.
   */
  lemma {:induction false} MachineReadsForest(render: Render, s: ParserState, f: Forest)
    requires IsStack(s.captures)
    ensures Effect(render, s, Run(render, s, Events(f)), TextParts(f), FirstLink(f), MarkedElements(f))
    decreases f
  {
    match f {
      case Nil =>
        NoEffect(render, s);
      case Cons(Characters(data), tail) =>
        var m := OnData(s, data);
        DataEffect(render, s, data);
        RunData(render, s, data, tail);
        MachineReadsForest(render, m, tail);
        EffectThen(render, s, m, Run(render, m, Events(tail)), [data], None, [],
                   TextParts(tail), FirstLink(tail), MarkedElements(tail));
        assert [] + MarkedElements(tail) == MarkedElements(tail);
      case Cons(Element(tag, attrs, children), tail) =>
        var inner := Run(render, OnStart(s, tag, attrs), Events(children));
        var m := OnEnd(render, inner, tag);
        OpenKeepsStack(s.captures, DataQa(attrs), Href(attrs));
        MachineReadsForest(render, OnStart(s, tag, attrs), children);
        ElementEffect(render, s, inner, tag, DataQa(attrs), Href(attrs), TextParts(children), FirstLink(children),
                      MarkedElements(children));
        RunElement(render, s, tag, attrs, children, tail);
        MachineReadsForest(render, m, tail);
        EffectThen(render, s, m, Run(render, m, Events(tail)),
                   TextParts(children), OrElse(Href(attrs), FirstLink(children)),
                   MarkedElements(children) + ElementCapture(attrs, children),
                   TextParts(tail), FirstLink(tail), MarkedElements(tail));
    }
  }

  lemma RunOne(render: Render, s: ParserState, e: Event)
    ensures Run(render, s, [e]) == OnEvent(render, s, e)
  {
    assert [e][..0] == [];
  }

  lemma RunData(render: Render, s: ParserState, data: string, tail: Forest)
    ensures Run(render, s, Events(Cons(Characters(data), tail))) == Run(render, OnData(s, data), Events(tail))
  {
    RunOne(render, s, Data(data));
    RunConcat(render, s, [Data(data)], Events(tail));
  }

  lemma RunElement(render: Render, s: ParserState, tag: string, attrs: Attrs, children: Forest, tail: Forest)
    ensures
      var inner := Run(render, OnStart(s, tag, attrs), Events(children));
      Run(render, s, Events(Cons(Element(tag, attrs, children), tail))) ==
      Run(render, OnEnd(render, inner, tag), Events(tail))
  {
    var start, end := [StartTag(tag, attrs)], [EndTag(tag)];
    RunOne(render, s, start[0]);
    RunConcat(render, s, start, Events(children));
    var inner := Run(render, OnStart(s, tag, attrs), Events(children));
    RunOne(render, inner, end[0]);
    RunConcat(render, s, start + Events(children), end);
    RunConcat(render, s, start + Events(children) + end, Events(tail));
  }

  lemma {:induction false} PublishedFor(render: Render, done: seq<Capture>, key: string)
    ensures Lookup(PublishTexts(render, map[], done), key) == TextsFor(render, key, done)
    ensures Lookup(PublishLinks(map[], done), key) == LinksFor(key, done)
  {
    if done != [] {
      PublishedFor(render, done[..|done| - 1], key);
    }
  }

  /** Reading a whole document: every key holds the texts and links of its marked elements. */
  lemma DocumentTexts(render: Render, f: Forest, key: string)
    ensures var r := Run(render, INITIAL, Events(f));
      && r.captures == []
      && Lookup(r.texts, key) == TextsFor(render, key, MarkedElements(f))
      && Lookup(r.hrefs, key) == LinksFor(key, MarkedElements(f))
  {
    MachineReadsForest(render, INITIAL, f);
    PublishedFor(render, MarkedElements(f), key);
  }

  // ---------- The words of marked elements ----------

  /** The words of the character data, in document order. */
  function Words(f: Forest): seq<string> {
    match f
    case Nil => []
    case Cons(Characters(data), tail) => Split(data) + Words(tail)
    case Cons(Element(_, _, children), tail) => Words(children) + Words(tail)
  }

  /** The first link in document order; empty if there is none. */
  function LinkIn(f: Forest): string {
    match f
    case Nil => ""
    case Cons(Characters(_), tail) => LinkIn(tail)
    case Cons(Element(_, attrs, children), tail) =>
      FirstOf(FirstOf(LastValue(attrs, "href"), LinkIn(children)), LinkIn(tail))
  }

  function OwnLink(attrs: Attrs, children: Forest): string {
    FirstOf(LastValue(attrs, "href"), LinkIn(children))
  }

  function FirstOf(a: string, b: string): string {
    if a != "" then a else b
  }

  predicate MarkedAs(attrs: Attrs, key: string) {
    key in {"vacancy-title", "vacancy-company-name", "vacancy-description"} && LastValue(attrs, "data-qa") == key
  }

  /** The words of the elements marked with a key, those without words left out, in the order of their end tags. */
  function MarkedWords(f: Forest, key: string): seq<seq<string>> {
    match f
    case Nil => []
    case Cons(Characters(_), tail) => MarkedWords(tail, key)
    case Cons(Element(_, attrs, children), tail) =>
      MarkedWords(children, key) +
      (if MarkedAs(attrs, key) && Words(children) != [] then [Words(children)] else []) + MarkedWords(tail, key)
  }

  function MarkedLinks(f: Forest, key: string): seq<string> {
    match f
    case Nil => []
    case Cons(Characters(_), tail) => MarkedLinks(tail, key)
    case Cons(Element(_, attrs, children), tail) =>
      MarkedLinks(children, key) +
      (if MarkedAs(attrs, key) && OwnLink(attrs, children) != "" then [OwnLink(attrs, children)] else []) +
      MarkedLinks(tail, key)
  }

  predicate NoAmpersand(f: Forest) {
    match f
    case Nil => true
    case Cons(Characters(data), tail) => '&' !in data && NoAmpersand(tail)
    case Cons(Element(_, _, children), tail) => NoAmpersand(children) && NoAmpersand(tail)
  }

  function SplitAll(texts: seq<string>): seq<seq<string>> {
    seq(|texts|, i requires 0 <= i < |texts| => Split(texts[i]))
  }

  lemma {:induction false} WordsOfConcat(a: seq<string>, b: seq<string>)
    ensures WordsOf(a + b) == WordsOf(a) + WordsOf(b)
    decreases |b|
  {
    if b == [] {
      assert a + b == a;
    } else {
      assert (a + b)[..|a + b| - 1] == a + b[..|b| - 1];
      WordsOfConcat(a, b[..|b| - 1]);
    }
  }

  lemma {:induction false} WordsOfForest(f: Forest)
    ensures WordsOf(TextParts(f)) == Words(f)
  {
    hide Split;
    match f
    case Nil =>
    case Cons(Characters(data), tail) =>
      WordsOfConcat([data], TextParts(tail));
      WordsOfForest(tail);
      assert [data][..0] == [] && WordsOf([data]) == [] + Split(data);
    case Cons(Element(_, _, children), tail) =>
      WordsOfConcat(TextParts(children), TextParts(tail));
      WordsOfForest(children);
      WordsOfForest(tail);
  }

  lemma {:induction false} NoAmpersandInParts(f: Forest)
    requires NoAmpersand(f)
    ensures forall i | 0 <= i < |TextParts(f)| :: '&' !in TextParts(f)[i]
  {
    match f
    case Nil =>
    case Cons(Characters(_), tail) => NoAmpersandInParts(tail);
    case Cons(Element(_, _, children), tail) =>
      NoAmpersandInParts(children);
      NoAmpersandInParts(tail);
  }

  lemma {:induction false} FirstLinkIs(f: Forest)
    ensures FirstLink(f) == if LinkIn(f) != "" then Some(LinkIn(f)) else None
  {
    hide Href;
    match f
    case Nil =>
    case Cons(Characters(_), tail) => FirstLinkIs(tail);
    case Cons(Element(tag, attrs, children), tail) =>
      TagMeaning(tag, attrs);
      FirstLinkIs(children);
      FirstLinkIs(tail);
  }

  lemma {:induction false} OutputsConcat(render: Render, key: string, a: seq<Capture>, b: seq<Capture>)
    ensures TextsFor(render, key, a + b) == TextsFor(render, key, a) + TextsFor(render, key, b)
    ensures LinksFor(key, a + b) == LinksFor(key, a) + LinksFor(key, b)
    decreases |b|
  {
    if b == [] {
      assert a + b == a;
    } else {
      assert (a + b)[..|a + b| - 1] == a + b[..|b| - 1];
      OutputsConcat(render, key, a, b[..|b| - 1]);
    }
  }

  /** What one element publishes when its end tag comes. */
  lemma OwnOutputs(unescape: string -> string, tag: string, attrs: Attrs, children: Forest, key: string)
    requires LeavesPlainText(unescape) && NoAmpersand(children)
    ensures var own := ElementCapture(attrs, children);
      && SplitAll(TextsFor(Normalized(unescape), key, own)) ==
         (if MarkedAs(attrs, key) && Words(children) != [] then [Words(children)] else [])
      && LinksFor(key, own) ==
         if MarkedAs(attrs, key) && OwnLink(attrs, children) != "" then [OwnLink(attrs, children)] else []
  {
    hide Normalized, Split, Words, TextParts, LinkIn, DataQa, Href;
    TagMeaning(tag, attrs);
    FirstLinkIs(children);
    WordsOfForest(children);
    NoAmpersandInParts(children);
    PublishedWords(unescape, TextParts(children));
    var own := ElementCapture(attrs, children);
    if own != [] {
      assert own[..0] == [];
      EmptyHasNoWords();
      OneOutput(Normalized(unescape), key, own[0]);
      assert own == [own[0]];
    }
  }

  lemma EmptyHasNoWords()
    ensures Split("") == [] && Join([]) == ""
  {
  }

  lemma OneOutput(render: Render, key: string, c: Capture)
    ensures TextsFor(render, key, [c]) ==
            if c.key == key && render(c.textParts) != "" then [render(c.textParts)] else []
    ensures LinksFor(key, [c]) == if c.key == key && c.href.Some? && c.href.value != "" then [c.href.value] else []
  {
    assert [c][..0] == [];
    assert TextsFor(render, key, []) == [] && LinksFor(key, []) == [];
  }

  lemma {:induction false} MarkedOutputs(unescape: string -> string, f: Forest, key: string)
    requires LeavesPlainText(unescape) && NoAmpersand(f)
    ensures SplitAll(TextsFor(Normalized(unescape), key, MarkedElements(f))) == MarkedWords(f, key)
    ensures LinksFor(key, MarkedElements(f)) == MarkedLinks(f, key)
    decreases f
  {
    hide Normalized, Split, Words, TextsFor, LinksFor, ElementCapture, MarkedAs, OwnLink;
    var render := Normalized(unescape);
    match f
    case Nil => NoOutputs(render, key);
    case Cons(Characters(_), tail) => MarkedOutputs(unescape, tail, key);
    case Cons(Element(tag, attrs, children), tail) =>
      MarkedOutputs(unescape, children, key);
      MarkedOutputs(unescape, tail, key);
      OwnOutputs(unescape, tag, attrs, children, key);
      var inside, own := MarkedElements(children), ElementCapture(attrs, children);
      OutputsConcat(render, key, inside, own);
      OutputsConcat(render, key, inside + own, MarkedElements(tail));
  }

  lemma NoOutputs(render: Render, key: string)
    ensures TextsFor(render, key, []) == [] && LinksFor(key, []) == []
  {
  }

  lemma {:induction false} TextsAreNormal(unescape: string -> string, key: string, done: seq<Capture>)
    ensures forall i | 0 <= i < |TextsFor(Normalized(unescape), key, done)| ::
              var text := TextsFor(Normalized(unescape), key, done)[i]; text == Join(Split(text)) != ""
  {
    hide Split, Join, CollapseAndStrip;
    if done != [] {
      TextsAreNormal(unescape, key, done[..|done| - 1]);
      var raw := unescape(JoinWith(" ", done[|done| - 1].textParts));
      NormalizersAgree(raw);
      NormalizerIsIdempotent(raw);
    }
  }

  /**
   Reading a whole document: for every key, the published texts are the words of the marked elements, one space
   apart, and the published links their first ones.
   */
  lemma DocumentWords(unescape: string -> string, f: Forest, key: string)
    requires LeavesPlainText(unescape) && NoAmpersand(f)
    ensures var r := Run(Normalized(unescape), INITIAL, Events(f));
      && SplitAll(Lookup(r.texts, key)) == MarkedWords(f, key)
      && (forall i | 0 <= i < |Lookup(r.texts, key)| ::
            Lookup(r.texts, key)[i] == Join(Split(Lookup(r.texts, key)[i])))
      && Lookup(r.hrefs, key) == MarkedLinks(f, key)
  {
    hide Run, Split, Join, SplitAll, MarkedWords, MarkedLinks;
    DocumentTexts(Normalized(unescape), f, key);
    MarkedOutputs(unescape, f, key);
    TextsAreNormal(unescape, key, MarkedElements(f));
  }

  // ---------- Scripts ----------

  predicate OnlyCharacters(f: Forest) {
    match f
    case Nil => true
    case Cons(head, tail) => head.Characters? && OnlyCharacters(tail)
  }

  /** Script elements hold character data only, as the tokenizer guarantees. */
  predicate ScriptsAreLeaves(f: Forest) {
    match f
    case Nil => true
    case Cons(Characters(_), tail) => ScriptsAreLeaves(tail)
    case Cons(Element(tag, _, children), tail) =>
      (if IsScript(tag) then OnlyCharacters(children) else ScriptsAreLeaves(children)) && ScriptsAreLeaves(tail)
  }

  /** The character data of a forest. */
  function CharacterData(f: Forest): string {
    match f
    case Nil => ""
    case Cons(Characters(data), tail) => data + CharacterData(tail)
    case Cons(Element(_, _, children), tail) => CharacterData(children) + CharacterData(tail)
  }

  lemma {:induction false} GluedConcat(a: seq<string>, b: seq<string>)
    ensures Glued(a + b) == Glued(a) + Glued(b)
    decreases |b|
  {
    if b == [] {
      assert a + b == a;
    } else {
      assert (a + b)[..|a + b| - 1] == a + b[..|b| - 1];
      GluedConcat(a, b[..|b| - 1]);
    }
  }

  lemma {:induction false} GluedParts(f: Forest)
    ensures Glued(TextParts(f)) == CharacterData(f)
  {
    match f
    case Nil =>
    case Cons(Characters(data), tail) =>
      GluedConcat([data], TextParts(tail));
      GluedParts(tail);
      assert [data][..0] == [] && Glued([data]) == "" + data;
    case Cons(Element(_, _, children), tail) =>
      GluedConcat(TextParts(children), TextParts(tail));
      GluedParts(children);
      GluedParts(tail);
  }

  lemma ScriptText(f: Forest)
    ensures JoinWith("", TextParts(f)) == CharacterData(f)
  {
    JoinIsGlue(TextParts(f));
    GluedParts(f);
  }

  /** The JSON-LD scripts in document order. */
  function JsonLdScripts(f: Forest): seq<string> {
    match f
    case Nil => []
    case Cons(Characters(_), tail) => JsonLdScripts(tail)
    case Cons(Element(tag, attrs, children), tail) =>
      (if OpensJsonLd(tag, attrs) then [CharacterData(children)] else JsonLdScripts(children)) +
      JsonLdScripts(tail)
  }

  lemma RunOneScript(t: ScriptState, e: Event)
    ensures RunScripts(t, [e]) == ScriptStep(t, e)
  {
    assert [e][..0] == [];
  }

  lemma {:induction false} ScriptsOfCharacters(t: ScriptState, f: Forest)
    requires OnlyCharacters(f)
    ensures RunScripts(t, Events(f)) ==
            if t.parts.Some? then t.(parts := Some(t.parts.value + TextParts(f))) else t
    ensures JsonLdScripts(f) == []
    decreases f
  {
    match f {
      case Nil =>
        assert t.parts.Some? ==> t.parts.value + [] == t.parts.value;
      case Cons(Characters(data), tail) =>
        var m := ScriptStep(t, Data(data));
        RunOneScript(t, Data(data));
        RunScriptsConcat(t, [Data(data)], Events(tail));
        ScriptsOfCharacters(m, tail);
        assert t.parts.Some? ==> t.parts.value + [data] + TextParts(tail) == t.parts.value + ([data] + TextParts(tail));
    }
  }

  lemma ScriptsOfElement(t: ScriptState, tag: string, attrs: Attrs, children: Forest, tail: Forest)
    ensures
      var inner := RunScripts(ScriptStep(t, StartTag(tag, attrs)), Events(children));
      RunScripts(t, Events(Cons(Element(tag, attrs, children), tail))) ==
      RunScripts(ScriptStep(inner, EndTag(tag)), Events(tail))
  {
    var start, end := [StartTag(tag, attrs)], [EndTag(tag)];
    RunOneScript(t, start[0]);
    RunScriptsConcat(t, start, Events(children));
    var inner := RunScripts(ScriptStep(t, start[0]), Events(children));
    RunOneScript(inner, end[0]);
    RunScriptsConcat(t, start + Events(children), end);
    RunScriptsConcat(t, start + Events(children) + end, Events(tail));
  }

  lemma ScriptsOfScript(t: ScriptState, tag: string, attrs: Attrs, children: Forest)
    requires t.parts == None && IsScript(tag) && OnlyCharacters(children)
    ensures ScriptStep(RunScripts(ScriptStep(t, StartTag(tag, attrs)), Events(children)), EndTag(tag)) ==
            ScriptState(t.scripts + (if OpensJsonLd(tag, attrs) then [CharacterData(children)] else []), None)
    ensures JsonLdScripts(children) == []
  {
    ScriptsOfCharacters(ScriptStep(t, StartTag(tag, attrs)), children);
    ScriptText(children);
    assert [] + TextParts(children) == TextParts(children);
    assert t.scripts + [] == t.scripts;
  }

  lemma ScriptsOfCharacter(t: ScriptState, data: string, tail: Forest)
    requires t.parts == None
    ensures RunScripts(t, Events(Cons(Characters(data), tail))) == RunScripts(t, Events(tail))
  {
    RunOneScript(t, Data(data));
    RunScriptsConcat(t, [Data(data)], Events(tail));
  }

  /** Start and end tags of anything but a script pass. */
  lemma TagsPass(t: ScriptState, tag: string, attrs: Attrs)
    requires !IsScript(tag)
    ensures ScriptStep(t, StartTag(tag, attrs)) == t && ScriptStep(t, EndTag(tag)) == t && !OpensJsonLd(tag, attrs)
  {
    hide IsJsonLd, IsScript;
  }

  lemma {:induction false} ScriptsOfForest(t: ScriptState, f: Forest)
    requires t.parts == None && ScriptsAreLeaves(f)
    ensures RunScripts(t, Events(f)) == ScriptState(t.scripts + JsonLdScripts(f), None)
    decreases f
  {
    hide IsScript, OpensJsonLd, RunScripts, Events, ScriptStep;
    match f {
      case Nil =>
        NoScripts(t);
        assert t.scripts + [] == t.scripts;
      case Cons(Characters(data), tail) =>
        ScriptsOfCharacter(t, data, tail);
        ScriptsOfForest(t, tail);
      case Cons(Element(tag, attrs, children), tail) =>
        ScriptsOfElement(t, tag, attrs, children, tail);
        if IsScript(tag) {
          ScriptsOfScript(t, tag, attrs, children);
        } else {
          TagsPass(t, tag, attrs);
          ScriptsOfForest(t, children);
          TagsPass(ScriptState(t.scripts + JsonLdScripts(children), None), tag, attrs);
        }
        var own := if OpensJsonLd(tag, attrs) then [CharacterData(children)] else JsonLdScripts(children);
        ScriptsOfForest(ScriptState(t.scripts + own, None), tail);
        assert t.scripts + own + JsonLdScripts(tail) == t.scripts + (own + JsonLdScripts(tail));
    }
  }

  lemma NoScripts(t: ScriptState)
    ensures RunScripts(t, Events(Nil)) == t
  {
  }

  /** Outside a script, a document adds exactly the text of its JSON-LD scripts, in document order. */
  lemma MachineReadsScripts(render: Render, s: ParserState, f: Forest)
    requires IsStack(s.captures) && s.scriptParts == None && ScriptsAreLeaves(f)
    ensures var r := Run(render, s, Events(f));
      r.scripts == s.scripts + JsonLdScripts(f) && r.scriptParts == None
  {
    RunProjects(render, s, Events(f));
    ScriptsOfForest(ScriptsOf(s), f);
  }
}
