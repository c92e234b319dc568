/**
 What the capture machine computes on an arbitrary event stream, balanced or not, told without any stack:
 a marked start tag at position `i` is open as long as the end tags after it never outnumber the start
 tags after it, it closes at the first event where they do, and it collects the text and the first link
 in between.
 */
module HtmlStream {
  import opened Wrappers
  import opened Text
  import opened HtmlCapture

  function Delta(e: Event): int {
    match e
    case StartTag(_, _) => 1
    case EndTag(_) => -1
    case Data(_) => 0
  }

  /** Start tags minus end tags among the events `i`, ..., `n - 1`. */
  function Balance(es: seq<Event>, i: nat, n: nat): int
    requires n <= |es|
  {
    if n <= i then 0 else Balance(es, i, n - 1) + Delta(es[n - 1])
  }

  /** The depth a capture opened by event `i` would have after `n` events. */
  function Depth(es: seq<Event>, i: nat, n: nat): int
    requires n <= |es|
  {
    1 + Balance(es, i + 1, n)
  }

  predicate Marked(e: Event) {
    e.StartTag? && DataQa(e.attrs).Some?
  }

  /** Event `i` opened a capture and the first `n` events have not closed it. */
  ghost predicate Open(es: seq<Event>, i: nat, n: nat)
    requires n <= |es|
  {
    i < n && Marked(es[i]) && forall k | i < k <= n :: Depth(es, i, k) >= 1
  }

  /** Event `n - 1` is the first one to bring the balance after the marked event `i` to minus one. */
  ghost predicate Closes(es: seq<Event>, i: nat, n: nat)
    requires n <= |es|
  {
    i + 1 < n && Open(es, i, n - 1) && Depth(es, i, n) == 0
  }

  function TextBetween(es: seq<Event>, i: nat, n: nat): seq<string>
    requires n <= |es|
  {
    if n <= i then []
    else TextBetween(es, i, n - 1) + if es[n - 1].Data? then [es[n - 1].data] else []
  }

  /** The first non-empty link among the start tags `i`, ..., `n - 1`. */
  function LinkBetween(es: seq<Event>, i: nat, n: nat): Option<string>
    requires n <= |es|
  {
    if n <= i then None
    else OrElse(LinkBetween(es, i, n - 1), if es[n - 1].StartTag? then Href(es[n - 1].attrs) else None)
  }

  /** The capture that event `i` opened, as it stands after `n` events. */
  function CaptureAt(es: seq<Event>, i: nat, n: nat): Capture
    requires i < n <= |es| && Marked(es[i])
  {
    Capture(DataQa(es[i].attrs).value, Depth(es, i, n), TextBetween(es, i + 1, n), LinkBetween(es, i, n))
  }

  /** The captures opened among the first `i` events that are open after `n` events, oldest first. */
  ghost function Live(es: seq<Event>, i: nat, n: nat): seq<Capture>
    requires i <= n <= |es|
  {
    if i == 0 then []
    else Live(es, i - 1, n) + if Open(es, i - 1, n) then [CaptureAt(es, i - 1, n)] else []
  }

  /** The captures opened among the first `i` events that event `n - 1` closes. */
  ghost function ClosedBy(es: seq<Event>, i: nat, n: nat): seq<Capture>
    requires i <= n <= |es|
  {
    if i == 0 then []
    else ClosedBy(es, i - 1, n) + if Closes(es, i - 1, n) then [CaptureAt(es, i - 1, n)] else []
  }

  /** All captures closed by the first `n` events, in the order of their closing. */
  ghost function Completed(es: seq<Event>, n: nat): seq<Capture>
    requires n <= |es|
  {
    if n == 0 then [] else Completed(es, n - 1) + ClosedBy(es, n, n)
  }

  function TextsFor(render: Render, key: string, done: seq<Capture>): seq<string> {
    if done == [] then [] else
      var c := done[|done| - 1];
      TextsFor(render, key, done[..|done| - 1]) +
      if c.key == key && TextOf(render, c) != "" then [TextOf(render, c)] else []
  }

  function LinksFor(key: string, done: seq<Capture>): seq<string> {
    if done == [] then [] else
      var c := done[|done| - 1];
      LinksFor(key, done[..|done| - 1]) +
      if c.key == key && c.href.Some? && c.href.value != "" then [c.href.value] else []
  }

  /** The JSON-LD script start tag that is still waiting for a script end tag. */
  function ScriptOpener(es: seq<Event>, n: nat): (r: Option<nat>)
    requires n <= |es|
    ensures r.Some? ==> r.value < n
  {
    if n == 0 then None
    else match es[n - 1]
      case StartTag(tag, attrs) => if OpensJsonLd(tag, attrs) then Some(n - 1) else ScriptOpener(es, n - 1)
      case EndTag(tag) => if IsScript(tag) then None else ScriptOpener(es, n - 1)
      case Data(_) => ScriptOpener(es, n - 1)
  }

  /** The character data among the events `i`, ..., `n - 1`. */
  function DataBetween(es: seq<Event>, i: nat, n: nat): string
    requires n <= |es|
  {
    if n <= i then "" else DataBetween(es, i, n - 1) + if es[n - 1].Data? then es[n - 1].data else ""
  }

  function Scripts(es: seq<Event>, n: nat): seq<string>
    requires n <= |es|
  {
    if n == 0 then [] else
      var opener := ScriptOpener(es, n - 1);
      Scripts(es, n - 1) +
      if es[n - 1].EndTag? && IsScript(es[n - 1].tag) && opener.Some?
      then [DataBetween(es, opener.value + 1, n - 1)] else []
  }

  // ---------- One more event, seen from the reference definitions ----------

  function KeepPositive(cs: seq<Capture>): seq<Capture> {
    if cs == [] then []
    else KeepPositive(cs[..|cs| - 1]) + if cs[|cs| - 1].depth >= 1 then [cs[|cs| - 1]] else []
  }

  /** Whether a candidate stays open, told by the depth of its capture. */
  lemma OpenAfter(es: seq<Event>, i: nat, n: nat)
    requires i < n < |es|
    ensures Open(es, i, n + 1) <==> Open(es, i, n) && (es[n].EndTag? ==> CaptureAt(es, i, n).depth >= 2)
    ensures Closes(es, i, n + 1) <==> Open(es, i, n) && es[n].EndTag? && CaptureAt(es, i, n).depth == 1
  {
    assert Depth(es, i, n + 1) == Depth(es, i, n) + Delta(es[n]);
    if Open(es, i, n) {
      assert Depth(es, i, n) >= 1;
    }
  }

  lemma RaiseSplit(cs: seq<Capture>, c: Capture)
    ensures var raised := RaiseAll(cs + [c]);
      && KeepPositive(raised) == KeepPositive(RaiseAll(cs)) + (if c.depth >= 2 then [Raise(c)] else [])
      && AtDepthZero(raised) == AtDepthZero(RaiseAll(cs)) + (if c.depth == 1 then [Raise(c)] else [])
  {
    assert (cs + [c])[..|cs|] == cs;
    var raised := RaiseAll(cs + [c]);
    assert raised[..|cs|] == RaiseAll(cs);
  }

  /** What one event does to a single open capture. */
  lemma CaptureAfter(es: seq<Event>, i: nat, n: nat)
    requires i < n < |es| && Marked(es[i])
    ensures match es[n]
      case StartTag(_, attrs) => CaptureAt(es, i, n + 1) == Deepen(CaptureAt(es, i, n), Href(attrs))
      case EndTag(_) => CaptureAt(es, i, n + 1) == Raise(CaptureAt(es, i, n))
      case Data(data) => CaptureAt(es, i, n + 1) == AddText(CaptureAt(es, i, n), data)
  {
  }

  lemma MapSplit(cs: seq<Capture>, c: Capture, href: Option<string>, data: string)
    ensures DeepenAll(cs + [c], href) == DeepenAll(cs, href) + [Deepen(c, href)]
    ensures AddTextAll(cs + [c], data) == AddTextAll(cs, data) + [AddText(c, data)]
  {
    assert (cs + [c])[..|cs|] == cs;
  }

  /** The last candidate is live or not. */
  lemma LiveSplit(es: seq<Event>, i: nat, n: nat)
    requires 0 < i <= n <= |es|
    ensures Open(es, i - 1, n) ==> Live(es, i, n) == Live(es, i - 1, n) + [CaptureAt(es, i - 1, n)]
    ensures !Open(es, i - 1, n) ==> Live(es, i, n) == Live(es, i - 1, n)
    ensures Closes(es, i - 1, n) ==> ClosedBy(es, i, n) == ClosedBy(es, i - 1, n) + [CaptureAt(es, i - 1, n)]
    ensures !Closes(es, i - 1, n) ==> ClosedBy(es, i, n) == ClosedBy(es, i - 1, n)
  {
  }

  lemma NoneLive(es: seq<Event>, n: nat)
    requires n <= |es|
    ensures Live(es, 0, n) == [] && ClosedBy(es, 0, n) == []
  {
  }

  lemma {:induction false} LiveAfterStart(es: seq<Event>, i: nat, n: nat)
    requires i <= n < |es| && es[n].StartTag?
    ensures Live(es, i, n + 1) == DeepenAll(Live(es, i, n), Href(es[n].attrs))
    ensures ClosedBy(es, i, n + 1) == []
  {
    hide Open, Closes, CaptureAt, Href, Marked, DeepenAll, AddTextAll, RaiseAll, Live, ClosedBy;
    NoneLive(es, n);
    NoneLive(es, n + 1);
    if i > 0 {
      LiveAfterStart(es, i - 1, n);
      OpenAfter(es, i - 1, n);
      LiveSplit(es, i, n);
      LiveSplit(es, i, n + 1);
      if Open(es, i - 1, n) {
        OpenIsMarked(es, i - 1, n);
        CaptureAfter(es, i - 1, n);
        MapSplit(Live(es, i - 1, n), CaptureAt(es, i - 1, n), Href(es[n].attrs), "");
      }
    }
  }

  lemma OpenIsMarked(es: seq<Event>, i: nat, n: nat)
    requires n <= |es| && Open(es, i, n)
    ensures i < n && Marked(es[i])
  {
  }

  lemma {:induction false} LiveAfterData(es: seq<Event>, i: nat, n: nat)
    requires i <= n < |es| && es[n].Data?
    ensures Live(es, i, n + 1) == AddTextAll(Live(es, i, n), es[n].data)
    ensures ClosedBy(es, i, n + 1) == []
  {
    hide Open, Closes, CaptureAt, Href, Marked, DeepenAll, AddTextAll, RaiseAll, Live, ClosedBy;
    NoneLive(es, n);
    NoneLive(es, n + 1);
    if i > 0 {
      LiveAfterData(es, i - 1, n);
      OpenAfter(es, i - 1, n);
      LiveSplit(es, i, n);
      LiveSplit(es, i, n + 1);
      if Open(es, i - 1, n) {
        OpenIsMarked(es, i - 1, n);
        CaptureAfter(es, i - 1, n);
        MapSplit(Live(es, i - 1, n), CaptureAt(es, i - 1, n), None, es[n].data);
      }
    }
  }

  lemma {:induction false} LiveAfterEnd(es: seq<Event>, i: nat, n: nat)
    requires i <= n < |es| && es[n].EndTag?
    ensures Live(es, i, n + 1) == KeepPositive(RaiseAll(Live(es, i, n)))
  {
    hide Open, Closes, CaptureAt, Href, Marked, DeepenAll, AddTextAll, RaiseAll, Live, ClosedBy;
    NoneLive(es, n);
    NoneLive(es, n + 1);
    if i > 0 {
      LiveAfterEnd(es, i - 1, n);
      OpenAfter(es, i - 1, n);
      LiveSplit(es, i, n);
      LiveSplit(es, i, n + 1);
      if Open(es, i - 1, n) {
        OpenIsMarked(es, i - 1, n);
        CaptureAfter(es, i - 1, n);
        RaiseSplit(Live(es, i - 1, n), CaptureAt(es, i - 1, n));
      }
    }
  }

  lemma {:induction false} ClosedAfterEnd(es: seq<Event>, i: nat, n: nat)
    requires i <= n < |es| && es[n].EndTag?
    ensures ClosedBy(es, i, n + 1) == AtDepthZero(RaiseAll(Live(es, i, n)))
  {
    hide Open, Closes, CaptureAt, Href, Marked, DeepenAll, AddTextAll, RaiseAll, Live, ClosedBy;
    NoneLive(es, n);
    NoneLive(es, n + 1);
    if i > 0 {
      ClosedAfterEnd(es, i - 1, n);
      OpenAfter(es, i - 1, n);
      LiveSplit(es, i, n);
      LiveSplit(es, i, n + 1);
      if Open(es, i - 1, n) {
        OpenIsMarked(es, i - 1, n);
        CaptureAfter(es, i - 1, n);
        RaiseSplit(Live(es, i - 1, n), CaptureAt(es, i - 1, n));
      }
    }
  }

  /** The event itself is the newest candidate. */
  lemma LiveAtSelf(es: seq<Event>, n: nat)
    requires n < |es|
    ensures Live(es, n + 1, n + 1) == Live(es, n, n + 1) +
            if Marked(es[n]) then [Capture(DataQa(es[n].attrs).value, 1, [], Href(es[n].attrs))] else []
    ensures ClosedBy(es, n + 1, n + 1) == ClosedBy(es, n, n + 1)
  {
    hide Live, ClosedBy, Open, Closes, CaptureAt, Marked, Href;
    LiveSplit(es, n + 1, n + 1);
    OpensItself(es, n);
    if Marked(es[n]) {
      CaptureOfItself(es, n);
    }
  }

  lemma OpensItself(es: seq<Event>, n: nat)
    requires n < |es|
    ensures Open(es, n, n + 1) <==> Marked(es[n])
    ensures !Closes(es, n, n + 1)
  {
    hide Marked;
    assert Balance(es, n + 1, n + 1) == 0;
  }

  lemma CaptureOfItself(es: seq<Event>, n: nat)
    requires n < |es| && Marked(es[n])
    ensures CaptureAt(es, n, n + 1) == Capture(DataQa(es[n].attrs).value, 1, [], Href(es[n].attrs))
  {
    hide DataQa, Href;
    assert Balance(es, n + 1, n + 1) == 0;
    assert LinkBetween(es, n, n) == None;
  }

  lemma {:induction false} AllPositive(cs: seq<Capture>)
    requires forall i | 0 <= i < |cs| :: cs[i].depth >= 1
    ensures KeepPositive(cs) == cs
  {
    if cs != [] {
      AllPositive(cs[..|cs| - 1]);
    }
  }

  lemma SurvivorsAreThePositive(cs: seq<Capture>)
    requires IsStack(cs)
    ensures KeepPositive(RaiseAll(cs)) == Survivors(cs)
  {
    if cs != [] {
      var init, c := cs[..|cs| - 1], cs[|cs| - 1];
      RaiseSplit(init, c);
      assert cs == init + [c];
      DeepStack(cs);
      AllPositive(RaiseAll(init));
    }
  }

  lemma DeepStack(cs: seq<Capture>)
    requires IsStack(cs) && cs != []
    ensures forall i | 0 <= i < |cs| - 1 :: cs[i].depth >= 2
  {
    forall i | 0 <= i < |cs| - 1 ensures cs[i].depth >= 2 {
      assert cs[i].depth > cs[|cs| - 1].depth;
    }
  }

  lemma EmitAppends(render: Render, s: ParserState, c: Capture, key: string)
    ensures Lookup(Emit(render, s, c).texts, key) == Lookup(s.texts, key) + TextsFor(render, key, [c])
    ensures Lookup(Emit(render, s, c).hrefs, key) == Lookup(s.hrefs, key) + LinksFor(key, [c])
  {
    assert [c][..0] == [];
    assert TextsFor(render, key, []) == [] && LinksFor(key, []) == [];
  }

  // ---------- The machine computes the reference definitions ----------

  ghost predicate StackMatches(s: ParserState, es: seq<Event>, n: nat)
    requires n <= |es|
  {
    s.captures == Live(es, n, n) && IsStack(s.captures)
  }

  ghost predicate OutputMatches(render: Render, s: ParserState, es: seq<Event>, n: nat, key: string)
    requires n <= |es|
  {
    && Lookup(s.texts, key) == TextsFor(render, key, Completed(es, n))
    && Lookup(s.hrefs, key) == LinksFor(key, Completed(es, n))
  }

  /** What an end tag closes is the innermost open capture, if its depth is one. */
  lemma EndCloses(s: ParserState, es: seq<Event>, n: nat)
    requires n < |es| && StackMatches(s, es, n) && es[n].EndTag?
    ensures Live(es, n + 1, n + 1) == Survivors(s.captures)
    ensures var m := |s.captures|;
      ClosedBy(es, n + 1, n + 1) == if m > 0 && s.captures[m - 1].depth == 1 then [Raise(s.captures[m - 1])] else []
  {
    LiveAtSelf(es, n);
    LiveAfterEnd(es, n, n);
    ClosedAfterEnd(es, n, n);
    SurvivorsAreThePositive(s.captures);
    RaisedStack(s.captures);
  }

  /** The reference output after one more event. */
  lemma CompletedAfter(s: ParserState, es: seq<Event>, n: nat)
    requires n < |es| && StackMatches(s, es, n)
    ensures var m := |s.captures|;
      Completed(es, n + 1) == Completed(es, n) +
      if es[n].EndTag? && m > 0 && s.captures[m - 1].depth == 1 then [Raise(s.captures[m - 1])] else []
    ensures |ClosedBy(es, n + 1, n + 1)| <= 1
  {
    LiveAtSelf(es, n);
    match es[n] {
      case StartTag(_, _) => LiveAfterStart(es, n, n);
      case Data(_) => LiveAfterData(es, n, n);
      case EndTag(_) => EndCloses(s, es, n);
    }
  }

  lemma StepMatchesStack(render: Render, s: ParserState, es: seq<Event>, n: nat)
    requires n < |es| && StackMatches(s, es, n)
    ensures StackMatches(OnEvent(render, s, es[n]), es, n + 1)
  {
    LiveAtSelf(es, n);
    EventKeepsStack(render, s, es[n]);
    match es[n] {
      case StartTag(tag, attrs) => LiveAfterStart(es, n, n);
      case Data(data) => LiveAfterData(es, n, n);
      case EndTag(tag) =>
        EndCloses(s, es, n);
        EndTagPopsInnermost(render, s, tag);
    }
  }

  lemma StepMatchesOutput(render: Render, s: ParserState, es: seq<Event>, n: nat, key: string)
    requires n < |es| && StackMatches(s, es, n) && OutputMatches(render, s, es, n, key)
    ensures OutputMatches(render, OnEvent(render, s, es[n]), es, n + 1, key)
  {
    CompletedAfter(s, es, n);
    if es[n].EndTag? {
      EndPublishes(render, s, es[n].tag, Completed(es, n), key);
    } else {
      assert Completed(es, n + 1) == Completed(es, n);
    }
  }

  lemma EndPublishes(render: Render, s: ParserState, tag: string, done: seq<Capture>, key: string)
    requires IsStack(s.captures)
    requires Lookup(s.texts, key) == TextsFor(render, key, done) && Lookup(s.hrefs, key) == LinksFor(key, done)
    ensures var m := |s.captures|;
      var r := OnEnd(render, s, tag);
      var all := done + if m > 0 && s.captures[m - 1].depth == 1 then [Raise(s.captures[m - 1])] else [];
      Lookup(r.texts, key) == TextsFor(render, key, all) && Lookup(r.hrefs, key) == LinksFor(key, all)
  {
    EndTagPopsInnermost(render, s, tag);
    var m := |s.captures|;
    if m > 0 && s.captures[m - 1].depth == 1 {
      var c := Raise(s.captures[m - 1]);
      EmitAppends(render, CloseScript(s, tag).(captures := Survivors(s.captures)), c, key);
      OutputsSplit(render, done, c, key);
    } else {
      assert done + [] == done;
    }
  }

  lemma OutputsSplit(render: Render, done: seq<Capture>, c: Capture, key: string)
    ensures TextsFor(render, key, done + [c]) == TextsFor(render, key, done) + TextsFor(render, key, [c])
    ensures LinksFor(key, done + [c]) == LinksFor(key, done) + LinksFor(key, [c])
  {
    assert (done + [c])[..|done|] == done;
    assert [c][..0] == [];
  }

  /**
   After any prefix of any event stream, the open captures, and for every key the published texts and
   links, are those of the reference definitions.
   */
  lemma {:induction false} MachineComputesStream(render: Render, es: seq<Event>, n: nat, key: string)
    requires n <= |es|
    ensures StackMatches(Run(render, INITIAL, es[..n]), es, n)
    ensures OutputMatches(render, Run(render, INITIAL, es[..n]), es, n, key)
  {
    if n > 0 {
      MachineComputesStream(render, es, n - 1, key);
      assert es[..n][..n - 1] == es[..n - 1];
      var s := Run(render, INITIAL, es[..n - 1]);
      StepMatchesStack(render, s, es, n - 1);
      StepMatchesOutput(render, s, es, n - 1, key);
    }
  }

  /** Every end tag closes at most one capture, whatever the stream. */
  lemma AtMostOneClosed(es: seq<Event>, n: nat)
    requires 0 < n <= |es|
    ensures |ClosedBy(es, n, n)| <= 1
  {
    var render: Render := parts => "";
    MachineComputesStream(render, es, n - 1, "");
    CompletedAfter(Run(render, INITIAL, es[..n - 1]), es, n - 1);
  }

  // ---------- JSON-LD scripts ----------

  /** The script buffer on its own: no event lets it depend on the captures. */
  datatype ScriptState = ScriptState(scripts: seq<string>, parts: Option<seq<string>>)

  function ScriptStep(t: ScriptState, e: Event): ScriptState {
    match e
    case StartTag(tag, attrs) => if OpensJsonLd(tag, attrs) then t.(parts := Some([])) else t
    case Data(data) => if t.parts.Some? then t.(parts := Some(t.parts.value + [data])) else t
    case EndTag(tag) => if IsScript(tag) then EndScript(t) else t
  }

  function EndScript(t: ScriptState): ScriptState {
    if t.parts.Some? then ScriptState(t.scripts + [JoinWith("", t.parts.value)], None) else t
  }

  function RunScripts(t: ScriptState, es: seq<Event>): ScriptState
    decreases |es|
  {
    if es == [] then t else ScriptStep(RunScripts(t, es[..|es| - 1]), es[|es| - 1])
  }

  function ScriptsOf(s: ParserState): ScriptState {
    ScriptState(s.scripts, s.scriptParts)
  }

  lemma StepProjects(render: Render, s: ParserState, e: Event)
    requires IsStack(s.captures)
    ensures ScriptsOf(OnEvent(render, s, e)) == ScriptStep(ScriptsOf(s), e)
  {
    if e.EndTag? {
      EndTagPopsInnermost(render, s, e.tag);
    }
  }

  lemma {:induction false} RunProjects(render: Render, s: ParserState, es: seq<Event>)
    requires IsStack(s.captures)
    ensures ScriptsOf(Run(render, s, es)) == RunScripts(ScriptsOf(s), es)
    decreases |es|
  {
    if es != [] {
      RunProjects(render, s, es[..|es| - 1]);
      RunKeepsStack(render, s, es[..|es| - 1]);
      StepProjects(render, Run(render, s, es[..|es| - 1]), es[|es| - 1]);
    }
  }

  lemma {:induction false} RunScriptsConcat(t: ScriptState, es: seq<Event>, more: seq<Event>)
    ensures RunScripts(t, es + more) == RunScripts(RunScripts(t, es), more)
    decreases |more|
  {
    if more == [] {
      assert es + more == es;
    } else {
      assert (es + more)[..|es + more| - 1] == es + more[..|more| - 1];
      RunScriptsConcat(t, es, more[..|more| - 1]);
    }
  }

  /** JSON-LD scripts: the text between the last JSON-LD start tag and the next script end tag. */
  lemma {:induction false} MachineComputesScripts(render: Render, es: seq<Event>, n: nat)
    requires n <= |es|
    ensures var s := Run(render, INITIAL, es[..n]);
      && s.scripts == Scripts(es, n)
      && s.scriptParts == PendingScript(es, n)
  {
    RunProjects(render, INITIAL, es[..n]);
    ScriptsComputed(es, n);
  }

  function PendingScript(es: seq<Event>, n: nat): Option<seq<string>>
    requires n <= |es|
  {
    var opener := ScriptOpener(es, n);
    if opener.None? then None else Some(TextBetween(es, opener.value + 1, n))
  }

  lemma RunScriptsStep(t: ScriptState, es: seq<Event>, n: nat)
    requires n < |es|
    ensures RunScripts(t, es[..n + 1]) == ScriptStep(RunScripts(t, es[..n]), es[n])
  {
    hide ScriptStep;
    assert es[..n + 1][..n] == es[..n];
  }

  lemma TextStep(es: seq<Event>, i: nat, n: nat)
    requires n < |es|
    ensures TextBetween(es, i, n + 1) ==
            if n < i then [] else if es[n].Data? then TextBetween(es, i, n) + [es[n].data] else TextBetween(es, i, n)
  {
    assert TextBetween(es, i, n) + [] == TextBetween(es, i, n);
  }

  lemma {:induction false} GluedText(es: seq<Event>, i: nat, n: nat)
    requires n <= |es|
    ensures JoinWith("", TextBetween(es, i, n)) == DataBetween(es, i, n)
  {
    JoinIsGlue(TextBetween(es, i, n));
    if i < n {
      GluedText(es, i, n - 1);
      JoinIsGlue(TextBetween(es, i, n - 1));
      var before := TextBetween(es, i, n - 1);
      if es[n - 1].Data? {
        assert (before + [es[n - 1].data])[..|before|] == before;
      } else {
        assert before + [] == before && Glued(before) + "" == Glued(before);
      }
    }
  }

  /** One more event, seen from the reference definitions. */
  lemma PendingStep(es: seq<Event>, n: nat)
    requires n < |es|
    ensures var t := ScriptState(Scripts(es, n), PendingScript(es, n));
      ScriptStep(t, es[n]) == ScriptState(Scripts(es, n + 1), PendingScript(es, n + 1))
  {
    hide OpensJsonLd, IsScript, JoinWith, TextBetween, DataBetween;
    var opener := ScriptOpener(es, n);
    if opener.Some? {
      TextStep(es, opener.value + 1, n);
      GluedText(es, opener.value + 1, n);
    }
    TextStep(es, n + 1, n);
    assert Scripts(es, n) + [] == Scripts(es, n);
  }

  lemma {:induction false} ScriptsComputed(es: seq<Event>, n: nat)
    requires n <= |es|
    ensures RunScripts(ScriptState([], None), es[..n]) == ScriptState(Scripts(es, n), PendingScript(es, n))
  {
    if n > 0 {
      hide RunScripts, Scripts, PendingScript, ScriptStep;
      ScriptsComputed(es, n - 1);
      RunScriptsStep(ScriptState([], None), es, n - 1);
      PendingStep(es, n - 1);
    }
  }

  // ---------- Meta values ----------

  /** What a meta tag says: its property or else its name, in lower case, and its content; all of them non-empty. */
  function MetaEntry(e: Event): Option<(string, string)> {
    if !e.StartTag? || Lower(e.tag) != "meta" then None
    else
      var property, content := LastValue(e.attrs, "property"), LastValue(e.attrs, "content");
      var key := if property != "" then property else LastValue(e.attrs, "name");
      if key == "" || content == "" then None else Some((Lower(key), content))
  }

  /** The last word of the first `n` events about a key. */
  function MetaValue(es: seq<Event>, n: nat, key: string): Option<string>
    requires n <= |es|
  {
    if n == 0 then None else
      var entry := MetaEntry(es[n - 1]);
      if entry.Some? && entry.value.0 == key then Some(entry.value.1) else MetaValue(es, n - 1, key)
  }

  lemma MetaStep(render: Render, s: ParserState, e: Event, key: string)
    requires IsStack(s.captures)
    ensures var entry, after := MetaEntry(e), OnEvent(render, s, e).meta;
      && (entry.Some? && entry.value.0 == key ==> key in after && after[key] == entry.value.1)
      && (entry.None? || entry.value.0 != key ==>
            (key in after <==> key in s.meta) && (key in after ==> after[key] == s.meta[key]))
  {
    match e
    case StartTag(tag, attrs) =>
      LastValueWins(attrs, "property");
      LastValueWins(attrs, "name");
      LastValueWins(attrs, "content");
    case EndTag(tag) => EndTagPopsInnermost(render, s, tag);
    case Data(_) =>
  }

  /** On every stream, each key has the content of the last meta tag that names it. */
  lemma {:induction false} MachineComputesMeta(render: Render, es: seq<Event>, n: nat, key: string)
    requires n <= |es|
    ensures var meta := Run(render, INITIAL, es[..n]).meta;
      MetaValue(es, n, key) == if key in meta then Some(meta[key]) else None
  {
    if n > 0 {
      MachineComputesMeta(render, es, n - 1, key);
      assert es[..n][..n - 1] == es[..n - 1];
      RunKeepsStack(render, INITIAL, es[..n - 1]);
      MetaStep(render, Run(render, INITIAL, es[..n - 1]), es[n - 1], key);
    }
  }
}
