/**
 The event machine behind the hh.ru HTML fallback: a stack of captures that is deepened by every start
 tag, raised by every end tag, and fed with every piece of text. `ParserState` and `OnEvent` say what
 one event does; `VacancyHtmlParser` does it in place, on mutable capture objects.
 */
module HtmlCapture {
  import opened Wrappers
  import opened Text

  const DATA_QA_FIELDS: set<string> := {"vacancy-title", "vacancy-company-name", "vacancy-description"}

  type Attrs = seq<(string, Option<string>)>

  datatype Event =
    | StartTag(tag: string, attrs: Attrs)
    | EndTag(tag: string)
    | Data(data: string)

  datatype Capture = Capture(key: string, depth: int, textParts: seq<string>, href: Option<string>)

  datatype ParserState = ParserState(
    texts: map<string, seq<string>>,
    hrefs: map<string, seq<string>>,
    scripts: seq<string>,
    meta: map<string, string>,
    captures: seq<Capture>,
    scriptParts: Option<seq<string>>)

  const INITIAL := ParserState(map[], map[], [], map[], [], None)

  // ---------- Attributes of a start tag ----------

  /** Names in lower case, a missing value is empty, a later duplicate wins. */
  function AttrsByName(attrs: Attrs): map<string, string> {
    if attrs == [] then map[] else
      var (name, value) := attrs[|attrs| - 1];
      AttrsByName(attrs[..|attrs| - 1])[Lower(name) := if value.Some? then value.value else ""]
  }

  /** `attrs.get(name) or None`: absent and empty are the same. */
  function NonEmpty(attrs: map<string, string>, name: string): Option<string> {
    if name in attrs && attrs[name] != "" then Some(attrs[name]) else None
  }

  function Href(attrs: Attrs): Option<string> {
    NonEmpty(AttrsByName(attrs), "href")
  }

  function DataQa(attrs: Attrs): Option<string> {
    var byName := AttrsByName(attrs);
    if "data-qa" in byName && byName["data-qa"] in DATA_QA_FIELDS then Some(byName["data-qa"]) else None
  }

  predicate IsScript(tag: string) {
    Lower(tag) == "script"
  }

  predicate IsJsonLd(attrs: map<string, string>) {
    "type" in attrs && Lower(attrs["type"]) == "application/ld+json"
  }

  predicate OpensJsonLd(tag: string, attrs: Attrs) {
    IsScript(tag) && IsJsonLd(AttrsByName(attrs))
  }

  function CaptureMeta(meta: map<string, string>, attrs: map<string, string>): map<string, string> {
    var property := NonEmpty(attrs, "property");
    var key := if property.Some? then property else NonEmpty(attrs, "name");
    var content := NonEmpty(attrs, "content");
    if key.Some? && content.Some? then meta[Lower(key.value) := content.value] else meta
  }

  // ---------- One event ----------

  function OrElse<T>(first: Option<T>, second: Option<T>): Option<T> {
    if first.Some? then first else second
  }

  function Deepen(c: Capture, href: Option<string>): Capture {
    c.(depth := c.depth + 1, href := OrElse(c.href, href))
  }

  function Raise(c: Capture): Capture {
    c.(depth := c.depth - 1)
  }

  function AddText(c: Capture, data: string): Capture {
    c.(textParts := c.textParts + [data])
  }

  function DeepenAll(cs: seq<Capture>, href: Option<string>): (r: seq<Capture>)
    ensures |r| == |cs| && forall i | 0 <= i < |cs| :: r[i] == Deepen(cs[i], href)
  {
    seq(|cs|, i requires 0 <= i < |cs| => Deepen(cs[i], href))
  }

  function RaiseAll(cs: seq<Capture>): (r: seq<Capture>)
    ensures |r| == |cs| && forall i | 0 <= i < |cs| :: r[i] == Raise(cs[i])
  {
    seq(|cs|, i requires 0 <= i < |cs| => Raise(cs[i]))
  }

  function AddTextAll(cs: seq<Capture>, data: string): (r: seq<Capture>)
    ensures |r| == |cs| && forall i | 0 <= i < |cs| :: r[i] == AddText(cs[i], data)
  {
    seq(|cs|, i requires 0 <= i < |cs| => AddText(cs[i], data))
  }

  function OnStart(s: ParserState, tag: string, attrs: Attrs): ParserState {
    s.(
      meta := if Lower(tag) == "meta" then CaptureMeta(s.meta, AttrsByName(attrs)) else s.meta,
      scriptParts := if OpensJsonLd(tag, attrs) then Some([]) else s.scriptParts,
      captures := OpenCapture(s.captures, DataQa(attrs), Href(attrs)))
  }

  /** A start tag deepens every open capture; a marked one opens a capture of its own. */
  function OpenCapture(cs: seq<Capture>, key: Option<string>, href: Option<string>): seq<Capture> {
    DeepenAll(cs, href) + if key.Some? then [Capture(key.value, 1, [], href)] else []
  }

  function OnData(s: ParserState, data: string): ParserState {
    s.(
      scriptParts := if s.scriptParts.Some? then Some(s.scriptParts.value + [data]) else None,
      captures := AddTextAll(s.captures, data))
  }

  function JoinWith(separator: string, parts: seq<string>): string {
    if parts == [] then ""
    else if |parts| == 1 then parts[0]
    else parts[0] + separator + JoinWith(separator, parts[1..])
  }

  /** `values.setdefault(key, []).append(value)`. */
  function Append(values: map<string, seq<string>>, key: string, value: string): map<string, seq<string>> {
    values[key := Lookup(values, key) + [value]]
  }

  function Lookup(values: map<string, seq<string>>, key: string): seq<string> {
    if key in values then values[key] else []
  }

  /** How the pieces of text of a completed capture become one text. */
  type Render = seq<string> -> string

  /** The source's rendering, `normalize_text(" ".join(parts))`, over its way to resolve character references. */
  function Normalized(unescape: string -> string): Render {
    parts => CollapseAndStrip(unescape(JoinWith(" ", parts)))
  }

  function TextOf(render: Render, c: Capture): string {
    render(c.textParts)
  }

  /** What a completed capture leaves behind. */
  function Emit(render: Render, s: ParserState, c: Capture): ParserState {
    var text := TextOf(render, c);
    s.(
      texts := if text != "" then Append(s.texts, c.key, text) else s.texts,
      hrefs := if c.href.Some? && c.href.value != "" then Append(s.hrefs, c.key, c.href.value) else s.hrefs)
  }

  /** `list.remove`: drops the first element that is equal field by field. */
  function RemoveFirst(cs: seq<Capture>, c: Capture): seq<Capture> {
    if cs == [] then []
    else if cs[0] == c then cs[1..]
    else [cs[0]] + RemoveFirst(cs[1..], c)
  }

  function Complete(render: Render, s: ParserState, c: Capture): ParserState {
    Emit(render, s.(captures := RemoveFirst(s.captures, c)), c)
  }

  function CompleteAll(render: Render, s: ParserState, done: seq<Capture>): ParserState
    decreases |done|
  {
    if done == [] then s else CompleteAll(render, Complete(render, s, done[0]), done[1..])
  }

  function AtDepthZero(cs: seq<Capture>): seq<Capture> {
    if cs == [] then []
    else AtDepthZero(cs[..|cs| - 1]) + if cs[|cs| - 1].depth == 0 then [cs[|cs| - 1]] else []
  }

  function CloseScript(s: ParserState, tag: string): ParserState {
    if IsScript(tag) && s.scriptParts.Some? then
      s.(scripts := s.scripts + [JoinWith("", s.scriptParts.value)], scriptParts := None)
    else s
  }

  function OnEnd(render: Render, s: ParserState, tag: string): ParserState {
    var raised := RaiseAll(s.captures);
    CompleteAll(render, CloseScript(s, tag).(captures := raised), AtDepthZero(raised))
  }

  function OnEvent(render: Render, s: ParserState, e: Event): ParserState {
    match e
    case StartTag(tag, attrs) => OnStart(s, tag, attrs)
    case EndTag(tag) => OnEnd(render, s, tag)
    case Data(data) => OnData(s, data)
  }

  function Run(render: Render, s: ParserState, es: seq<Event>): ParserState
    decreases |es|
  {
    if es == [] then s
    else OnEvent(render, Run(render, s, es[..|es| - 1]), es[|es| - 1])
  }

  // ---------- What the attributes of a tag mean ----------

  /** The value of the last attribute of that name, whatever its case; empty if there is none or it has no value. */
  function LastValue(attrs: Attrs, name: string): string {
    if attrs == [] then "" else
      var last := attrs[|attrs| - 1];
      if Lower(last.0) != name then LastValue(attrs[..|attrs| - 1], name)
      else if last.1.Some? then last.1.value else ""
  }

  lemma {:induction false} LastValueWins(attrs: Attrs, name: string)
    ensures LastValue(attrs, name) == if name in AttrsByName(attrs) then AttrsByName(attrs)[name] else ""
  {
    if attrs != [] {
      LastValueWins(attrs[..|attrs| - 1], name);
    }
  }

  /** What makes an element marked, which link a tag carries, and which scripts are collected. */
  lemma TagMeaning(tag: string, attrs: Attrs)
    ensures var key := LastValue(attrs, "data-qa");
      DataQa(attrs) ==
      if key in {"vacancy-title", "vacancy-company-name", "vacancy-description"} then Some(key) else None
    ensures var link := LastValue(attrs, "href"); Href(attrs) == if link != "" then Some(link) else None
    ensures OpensJsonLd(tag, attrs) <==>
            Lower(tag) == "script" && Lower(LastValue(attrs, "type")) == "application/ld+json"
  {
    LastValueWins(attrs, "data-qa");
    LastValueWins(attrs, "href");
    LastValueWins(attrs, "type");
  }

  // ---------- Pieces of text put together ----------

  lemma JoinOne(separator: string, part: string)
    ensures JoinWith(separator, []) == "" && JoinWith(separator, [part]) == part
  {
  }

  /** The separator stands between two lists that have pieces, once. */
  lemma {:induction false} JoinConcat(separator: string, a: seq<string>, b: seq<string>)
    requires a != [] && b != []
    ensures JoinWith(separator, a + b) == JoinWith(separator, a) + separator + JoinWith(separator, b)
  {
    assert (a + b)[1..] == a[1..] + b;
    if |a| > 1 {
      JoinConcat(separator, a[1..], b);
    }
  }

  /** The pieces one behind the other. */
  function Glued(parts: seq<string>): string {
    if parts == [] then "" else Glued(parts[..|parts| - 1]) + parts[|parts| - 1]
  }

  lemma {:induction false} JoinIsGlue(parts: seq<string>)
    ensures JoinWith("", parts) == Glued(parts)
  {
    if |parts| > 1 {
      var init, last := parts[..|parts| - 1], parts[|parts| - 1];
      JoinIsGlue(init);
      JoinConcat("", init, [last]);
      assert init + [last] == parts;
      assert JoinWith("", init) + "" == JoinWith("", init);
    } else if |parts| == 1 {
      assert parts[..0] == [] && "" + parts[0] == parts[0];
    }
  }

  /** The words of the pieces, in order. */
  function WordsOf(parts: seq<string>): seq<string> {
    if parts == [] then [] else WordsOf(parts[..|parts| - 1]) + Split(parts[|parts| - 1])
  }

  lemma {:induction false} SplitOfPieces(parts: seq<string>)
    ensures Split(JoinWith(" ", parts)) == WordsOf(parts)
  {
    if |parts| > 1 {
      var init, last := parts[..|parts| - 1], parts[|parts| - 1];
      SplitOfPieces(init);
      JoinConcat(" ", init, [last]);
      assert init + [last] == parts;
      SplitCut(JoinWith(" ", init), ' ', last);
    } else if |parts| == 1 {
      assert WordsOf(parts[..0]) == [];
    }
  }

  lemma {:induction false} JoinHasNoOther(separator: string, parts: seq<string>, c: char)
    requires c !in separator && forall i | 0 <= i < |parts| :: c !in parts[i]
    ensures c !in JoinWith(separator, parts)
  {
    if |parts| > 1 {
      JoinHasNoOther(separator, parts[1..], c);
    }
  }

  /** What `html.unescape` does to text without an ampersand. */
  ghost predicate LeavesPlainText(unescape: string -> string) {
    forall text :: '&' !in text ==> unescape(text) == text
  }

  /** A published text is the words of its pieces, one space apart; no piece is lost, and their order is kept. */
  lemma PublishedWords(unescape: string -> string, parts: seq<string>)
    requires LeavesPlainText(unescape) && forall i | 0 <= i < |parts| :: '&' !in parts[i]
    ensures Normalized(unescape)(parts) == Join(WordsOf(parts))
    ensures Split(Normalized(unescape)(parts)) == WordsOf(parts)
  {
    var text := JoinWith(" ", parts);
    JoinHasNoOther(" ", parts, '&');
    assert unescape(text) == text;
    SplitOfPieces(parts);
    NormalizersAgree(text);
    NormalizerIsIdempotent(text);
  }

  // ---------- The capture stack, for every event stream ----------

  /** Open captures have positive, strictly decreasing depths. */
  ghost predicate IsStack(cs: seq<Capture>) {
    && (forall i | 0 <= i < |cs| :: cs[i].depth >= 1)
    && (forall i, j | 0 <= i < j < |cs| :: cs[i].depth > cs[j].depth)
  }

  /** The captures that survive an end tag. */
  function Survivors(cs: seq<Capture>): seq<Capture> {
    var raised := RaiseAll(cs);
    if raised != [] && raised[|raised| - 1].depth == 0 then raised[..|raised| - 1] else raised
  }

  /** At most one capture reaches depth zero, and it is the last one. */
  lemma {:induction false} OnlyLastAtDepthZero(cs: seq<Capture>)
    requires forall i | 0 <= i < |cs| :: cs[i].depth >= 0
    requires forall i, j | 0 <= i < j < |cs| :: cs[i].depth > cs[j].depth
    ensures AtDepthZero(cs) == if cs != [] && cs[|cs| - 1].depth == 0 then [cs[|cs| - 1]] else []
  {
    if cs != [] {
      OnlyLastAtDepthZero(cs[..|cs| - 1]);
    }
  }

  lemma {:induction false} RemoveLast(cs: seq<Capture>)
    requires cs != []
    requires forall i | 0 <= i < |cs| - 1 :: cs[i] != cs[|cs| - 1]
    ensures RemoveFirst(cs, cs[|cs| - 1]) == cs[..|cs| - 1]
  {
    if |cs| > 1 {
      assert cs[0] != cs[|cs| - 1];
      RemoveLast(cs[1..]);
      assert [cs[0]] + cs[1..][..|cs[1..]| - 1] == cs[..|cs| - 1];
    }
  }

  lemma CompleteOne(render: Render, s: ParserState, c: Capture)
    ensures CompleteAll(render, s, []) == s
    ensures CompleteAll(render, s, [c]) == Complete(render, s, c)
  {
    assert [c][1..] == [];
  }

  /** The depths after an end tag: still strictly decreasing, the last one possibly zero. */
  lemma SurvivorsStack(cs: seq<Capture>)
    requires IsStack(cs)
    ensures IsStack(Survivors(cs))
  {
  }

  lemma RaisedStack(cs: seq<Capture>)
    requires IsStack(cs)
    ensures AtDepthZero(RaiseAll(cs)) ==
            if cs != [] && cs[|cs| - 1].depth == 1 then [RaiseAll(cs)[|cs| - 1]] else []
    ensures cs != [] ==> RemoveFirst(RaiseAll(cs), RaiseAll(cs)[|cs| - 1]) == RaiseAll(cs)[..|cs| - 1]
  {
    var raised := RaiseAll(cs);
    OnlyLastAtDepthZero(raised);
    if cs != [] {
      RemoveLast(raised);
    }
  }

  /**
   An end tag completes at most one capture, the innermost; removal by field equality removes exactly
   that one, and only its text and link are emitted.
   */
  lemma EndTagPopsInnermost(render: Render, s: ParserState, tag: string)
    requires IsStack(s.captures)
    ensures
      var n := |s.captures|;
      var closed := CloseScript(s, tag).(captures := Survivors(s.captures));
      OnEnd(render, s, tag) ==
      if n > 0 && s.captures[n - 1].depth == 1 then Emit(render, closed, Raise(s.captures[n - 1])) else closed
  {
    RaisedStack(s.captures);
    var n := |s.captures|;
    var raised := RaiseAll(s.captures);
    var mid := CloseScript(s, tag).(captures := raised);
    if n > 0 && s.captures[n - 1].depth == 1 {
      CompleteOne(render, mid, raised[n - 1]);
    } else {
      assert CompleteAll(render, mid, []) == mid;
    }
  }

  lemma OpenKeepsStack(cs: seq<Capture>, key: Option<string>, href: Option<string>)
    requires IsStack(cs)
    ensures IsStack(OpenCapture(cs, key, href))
  {
  }

  lemma EndKeepsStack(render: Render, s: ParserState, tag: string)
    requires IsStack(s.captures)
    ensures IsStack(OnEnd(render, s, tag).captures)
  {
    EndTagPopsInnermost(render, s, tag);
    SurvivorsStack(s.captures);
  }

  lemma EventKeepsStack(render: Render, s: ParserState, e: Event)
    requires IsStack(s.captures)
    ensures IsStack(OnEvent(render, s, e).captures)
  {
    match e
    case StartTag(tag, attrs) =>
      OpenKeepsStack(s.captures, DataQa(attrs), Href(attrs));
    case EndTag(tag) =>
      EndKeepsStack(render, s, tag);
    case Data(data) =>
  }

  /** The stack discipline holds after every event stream, balanced or not. */
  lemma {:induction false} RunKeepsStack(render: Render, s: ParserState, es: seq<Event>)
    requires IsStack(s.captures)
    ensures IsStack(Run(render, s, es).captures)
    decreases |es|
  {
    if es != [] {
      RunKeepsStack(render, s, es[..|es| - 1]);
      EventKeepsStack(render, Run(render, s, es[..|es| - 1]), es[|es| - 1]);
    }
  }

  lemma {:induction false} RunConcat(render: Render, s: ParserState, es: seq<Event>, more: seq<Event>)
    ensures Run(render, s, es + more) == Run(render, Run(render, s, es), more)
    decreases |more|
  {
    if more == [] {
      assert es + more == es;
    } else {
      var last := |more| - 1;
      assert (es + more)[..|es + more| - 1] == es + more[..last];
      RunConcat(render, s, es, more[..last]);
    }
  }
}

/** The parser object of the source, updating its captures in place. */
module HtmlParser {
  import opened Wrappers
  import opened Text
  import opened HtmlCapture

  class CaptureCell {
    const key: string
    var depth: int
    var textParts: seq<string>
    var href: Option<string>

    constructor (key: string, href: Option<string>)
      ensures View() == Capture(key, 1, [], href)
    {
      this.key, this.depth, this.textParts, this.href := key, 1, [], href;
    }

    function View(): Capture
      reads this
    {
      Capture(key, depth, textParts, href)
    }
  }

  ghost predicate Distinct(cells: seq<CaptureCell>) {
    forall i, j | 0 <= i < j < |cells| :: cells[i] != cells[j]
  }

  ghost predicate Represents(cells: seq<CaptureCell>, views: seq<Capture>)
    reads cells
  {
    |cells| == |views| && forall i | 0 <= i < |cells| :: cells[i].View() == views[i]
  }

  /** Where `list.remove` finds the first field-equal element. */
  method IndexOfEqual(cells: seq<CaptureCell>, c: CaptureCell) returns (k: nat)
    requires c in cells
    ensures k < |cells| && cells[k].View() == c.View()
    ensures forall i | 0 <= i < k :: cells[i].View() != c.View()
  {
    k := 0;
    while cells[k].View() != c.View()
      invariant k < |cells|
      invariant c in cells[k..]
      invariant forall i | 0 <= i < k :: cells[i].View() != c.View()
      decreases |cells| - k
    {
      k := k + 1;
    }
  }

  lemma {:induction false} RemoveFirstAt(views: seq<Capture>, k: nat)
    requires k < |views|
    requires forall i | 0 <= i < k :: views[i] != views[k]
    ensures RemoveFirst(views, views[k]) == views[..k] + views[k + 1..]
  {
    if k > 0 {
      assert views[0] != views[k];
      assert views[1..][k - 1] == views[k];
      RemoveFirstAt(views[1..], k - 1);
      assert [views[0]] + (views[1..][..k - 1] + views[1..][k..]) == views[..k] + views[k + 1..];
    }
  }

  /** One level deeper for every open capture, and the link for those that have none. */
  method DeepenCells(cells: seq<CaptureCell>, href: Option<string>, ghost views: seq<Capture>)
    requires Distinct(cells) && Represents(cells, views)
    modifies cells
    ensures Represents(cells, DeepenAll(views, href))
  {
    for i := 0 to |cells|
      invariant forall j | 0 <= j < i :: cells[j].View() == Deepen(views[j], href)
      invariant forall j | i <= j < |cells| :: cells[j].View() == views[j]
    {
      var capture := cells[i];
      capture.depth := capture.depth + 1;
      if capture.href.None? && href.Some? {
        capture.href := href;
      }
    }
  }

  method FeedCells(cells: seq<CaptureCell>, data: string, ghost views: seq<Capture>)
    requires Distinct(cells) && Represents(cells, views)
    modifies cells
    ensures Represents(cells, AddTextAll(views, data))
  {
    for i := 0 to |cells|
      invariant forall j | 0 <= j < i :: cells[j].View() == AddText(views[j], data)
      invariant forall j | i <= j < |cells| :: cells[j].View() == views[j]
    {
      cells[i].textParts := cells[i].textParts + [data];
    }
  }

  lemma AtDepthZeroStep(cs: seq<Capture>, i: nat)
    requires i < |cs|
    ensures AtDepthZero(cs[..i + 1]) == AtDepthZero(cs[..i]) + if cs[i].depth == 0 then [cs[i]] else []
  {
    assert cs[..i + 1][..i] == cs[..i];
  }

  lemma NoneAtDepthZero(cs: seq<Capture>)
    ensures AtDepthZero(cs[..0]) == [] && cs[..|cs|] == cs
  {
  }

  /** One level up for every open capture, collecting those that reach depth zero. */
  method RaiseCells(cells: seq<CaptureCell>, ghost views: seq<Capture>) returns (completed: seq<CaptureCell>)
    requires Distinct(cells) && Represents(cells, views)
    modifies cells
    ensures Represents(cells, RaiseAll(views))
    ensures Represents(completed, AtDepthZero(RaiseAll(views)))
    ensures forall c | c in completed :: c in cells
  {
    hide AtDepthZero;
    completed := [];
    ghost var raised := RaiseAll(views);
    NoneAtDepthZero(raised);
    for i := 0 to |cells|
      invariant forall j | 0 <= j < i :: cells[j].View() == raised[j]
      invariant forall j | i <= j < |cells| :: cells[j].View() == views[j]
      invariant forall c | c in completed :: c in cells[..i]
      invariant Represents(completed, AtDepthZero(raised[..i]))
    {
      assert cells[i] !in cells[..i];
      AtDepthZeroStep(raised, i);
      cells[i].depth := cells[i].depth - 1;
      if cells[i].depth == 0 {
        completed := completed + [cells[i]];
      }
    }
  }

  class VacancyHtmlParser {
    const unescape: string -> string
    var dataQaTexts: map<string, seq<string>>
    var dataQaHrefs: map<string, seq<string>>
    var jsonLdScripts: seq<string>
    var metaValues: map<string, string>
    var captures: seq<CaptureCell>
    var scriptParts: Option<seq<string>>
    /** The values of the captures. */
    ghost var stack: seq<Capture>
    ghost var repr: set<CaptureCell>

    ghost function State(): ParserState
      reads this
    {
      ParserState(dataQaTexts, dataQaHrefs, jsonLdScripts, metaValues, stack, scriptParts)
    }

    ghost predicate Valid()
      reads this, repr
    {
      Consistent() && IsStack(stack)
    }

    ghost predicate Consistent()
      reads this, repr
    {
      && (forall i | 0 <= i < |captures| :: captures[i] in repr)
      && Distinct(captures)
      && Represents(captures, stack)
    }

    constructor (unescape: string -> string)
      ensures Valid() && State() == INITIAL && this.unescape == unescape && fresh(repr)
    {
      this.unescape := unescape;
      dataQaTexts, dataQaHrefs, jsonLdScripts, metaValues := map[], map[], [], map[];
      captures, scriptParts := [], None;
      stack, repr := [], {};
    }

    method DeepenCaptures(href: Option<string>)
      requires Consistent()
      modifies this`stack, repr
      ensures Consistent() && stack == DeepenAll(old(stack), href)
    {
      DeepenCells(captures, href, stack);
      stack := DeepenAll(stack, href);
    }

    method AddCapture(key: string, href: Option<string>)
      requires Consistent()
      modifies this`captures, this`stack, this`repr
      ensures Consistent() && stack == old(stack) + [Capture(key, 1, [], href)]
      ensures fresh(repr - old(repr))
    {
      var capture := new CaptureCell(key, href);
      captures, repr := captures + [capture], repr + {capture};
      stack := stack + [Capture(key, 1, [], href)];
    }

    method OpenCaptures(key: Option<string>, href: Option<string>)
      requires Valid()
      modifies this`captures, this`stack, this`repr, repr
      ensures Valid() && stack == OpenCapture(old(stack), key, href)
      ensures fresh(repr - old(repr))
    {
      hide IsStack, DeepenAll;
      ghost var before := stack;
      DeepenCaptures(href);
      if key.Some? {
        AddCapture(key.value, href);
      }
      OpenKeepsStack(before, key, href);
      assert stack == OpenCapture(before, key, href);
    }

    method HandleStartTag(tag: string, attrs: Attrs)
      requires Valid()
      modifies this, repr
      ensures Valid() && State() == OnStart(old(State()), tag, attrs)
      ensures fresh(repr - old(repr))
    {
      var byName := AttrsByName(attrs);
      if Lower(tag) == "meta" {
        metaValues := CaptureMeta(metaValues, byName);
      }
      if OpensJsonLd(tag, attrs) {
        scriptParts := Some([]);
      }
      OpenCaptures(DataQa(attrs), NonEmpty(byName, "href"));
    }

    method FeedCaptures(data: string)
      requires Consistent()
      modifies this`stack, repr
      ensures Consistent() && stack == AddTextAll(old(stack), data)
    {
      FeedCells(captures, data, stack);
      stack := AddTextAll(stack, data);
    }

    method HandleData(data: string)
      requires Valid()
      modifies this, repr
      ensures Valid() && State() == OnData(old(State()), data)
      ensures repr == old(repr)
    {
      if scriptParts.Some? {
        scriptParts := Some(scriptParts.value + [data]);
      }
      FeedCaptures(data);
    }

    method RaiseCaptures() returns (completed: seq<CaptureCell>)
      requires Consistent()
      modifies this`stack, repr
      ensures Consistent() && stack == RaiseAll(old(stack))
      ensures Represents(completed, AtDepthZero(stack))
      ensures forall c | c in completed :: c in captures
    {
      completed := RaiseCells(captures, stack);
      stack := RaiseAll(stack);
    }

    method RemoveCapture(capture: CaptureCell)
      requires capture in captures && Consistent()
      modifies this`captures, this`stack
      ensures stack == RemoveFirst(old(stack), capture.View())
      ensures Consistent()
    {
      hide RemoveFirst;
      var k := IndexOfEqual(captures, capture);
      RemoveFirstAt(stack, k);
      captures, stack := captures[..k] + captures[k + 1..], stack[..k] + stack[k + 1..];
    }

    /** Drops a completed capture and publishes its text and link. */
    method CompleteCapture(capture: CaptureCell)
      requires capture in captures && Consistent()
      modifies this`captures, this`stack, this`dataQaTexts, this`dataQaHrefs
      ensures State() == Complete(Normalized(unescape), old(State()), capture.View())
      ensures Consistent()
    {
      RemoveCapture(capture);
      var text := CollapseAndStrip(unescape(JoinWith(" ", capture.textParts)));
      if text != "" {
        dataQaTexts := Append(dataQaTexts, capture.key, text);
      }
      if capture.href.Some? && capture.href.value != "" {
        dataQaHrefs := Append(dataQaHrefs, capture.key, capture.href.value);
      }
    }

    /** The second loop of an end tag; the stack discipline leaves it at most one capture. */
    method CompleteCaptures(completed: seq<CaptureCell>, ghost done: seq<Capture>)
      requires Consistent() && Represents(completed, done)
      requires |completed| <= 1 && forall c | c in completed :: c in captures
      modifies this`captures, this`stack, this`dataQaTexts, this`dataQaHrefs
      ensures State() == CompleteAll(Normalized(unescape), old(State()), done)
      ensures Consistent()
    {
      for i := 0 to |completed|
        invariant Consistent()
        invariant i == 0 ==> captures == old(captures)
        invariant CompleteAll(Normalized(unescape), State(), done[i..]) ==
            CompleteAll(Normalized(unescape), old(State()), done)
      {
        assert done[i..][1..] == done[i + 1..];
        CompleteCapture(completed[i]);
      }
    }

    method CloseJsonLd(tag: string)
      modifies this`jsonLdScripts, this`scriptParts
      ensures State() == CloseScript(old(State()), tag)
    {
      if IsScript(tag) && scriptParts.Some? {
        jsonLdScripts := jsonLdScripts + [JoinWith("", scriptParts.value)];
        scriptParts := None;
      }
    }

    method HandleEndTag(tag: string)
      requires Valid()
      modifies this, repr
      ensures Valid() && State() == OnEnd(Normalized(unescape), old(State()), tag)
      ensures repr == old(repr)
    {
      hide AtDepthZero, RaiseAll, CompleteAll, RemoveFirst, CloseScript;
      ghost var entry := State();
      CloseJsonLd(tag);
      var completed := RaiseCaptures();
      assert |AtDepthZero(stack)| <= 1 by {
        RaisedStack(entry.captures);
      }
      CompleteCaptures(completed, AtDepthZero(stack));
      EndKeepsStack(Normalized(unescape), entry, tag);
    }

    /** Feeding a stream of tokenizer events. */
    method Feed(es: seq<Event>)
      requires Valid()
      modifies this, repr
      ensures Valid() && State() == Run(Normalized(unescape), old(State()), es)
    {
      for i := 0 to |es|
        invariant Valid() && State() == Run(Normalized(unescape), old(State()), es[..i])
        invariant fresh(repr - old(repr))
      {
        assert es[..i + 1][..i] == es[..i];
        match es[i] {
          case StartTag(tag, attrs) => HandleStartTag(tag, attrs);
          case EndTag(tag) => HandleEndTag(tag);
          case Data(data) => HandleData(data);
        }
      }
      assert es[..|es|] == es;
    }
  }
}
