/** Small datatypes shared by every module. */
module Wrappers {
  datatype Option<+T> = None | Some(value: T)

  /** The source's `return` and `raise`. */
  datatype Outcome<+T, +E> = Returned(value: T) | Raised(error: E)
}

/**
 Python string handling used by the clients and services: whitespace as `str.isspace`, the two
 whitespace normalisers (one through `re.sub` and `strip`, one through `split` and `join`), and truncation.
 */
module Text {

  const ELLIPSIS: string := "..."

  /** `str.isspace`, which is also what `\s` matches in a Python `str` pattern. */
  predicate IsSpace(c: char) {
    || c == ' '
    || '\U{09}' <= c <= '\U{0d}'
    || '\U{1c}' <= c <= '\U{1f}'
    || c == '\U{85}' || c == '\U{a0}' || c == '\U{1680}'
    || '\U{2000}' <= c <= '\U{200a}'
    || c == '\U{2028}' || c == '\U{2029}' || c == '\U{202f}' || c == '\U{205f}' || c == '\U{3000}'
  }

  /** `str.lower`, on the ASCII letters. */
  function LowerChar(c: char): char {
    if 'A' <= c <= 'Z' then c - 'A' + 'a' else c
  }

  function Lower(s: string): (r: string)
    ensures |r| == |s|
  {
    seq(|s|, i requires 0 <= i < |s| => LowerChar(s[i]))
  }

  function StripLeft(s: string): string {
    if s != [] && IsSpace(s[0]) then StripLeft(s[1..]) else s
  }

  function StripRight(s: string): string {
    if s != [] && IsSpace(s[|s| - 1]) then StripRight(s[..|s| - 1]) else s
  }

  function Strip(s: string): string {
    StripRight(StripLeft(s))
  }

  /** `re.sub(r"\s+", " ", s)`. */
  function Collapse(s: string): string
    decreases |s|
  {
    if s == [] then []
    else if IsSpace(s[0]) then
      StripLeftShrinks(s[1..]);
      " " + Collapse(StripLeft(s[1..]))
    else [s[0]] + Collapse(s[1..])
  }

  /** The normaliser of the hh.ru client, applied to text without character references. */
  function CollapseAndStrip(s: string): string {
    Strip(Collapse(s))
  }

  /** The longest prefix without whitespace. */
  function Word(s: string): (w: string)
    ensures |w| <= |s| && w == s[..|w|]
    ensures forall i | 0 <= i < |w| :: !IsSpace(w[i])
    ensures |w| < |s| ==> IsSpace(s[|w|])
  {
    if s == [] || IsSpace(s[0]) then [] else [s[0]] + Word(s[1..])
  }

  /** `str.split()`: the maximal runs of non-whitespace. */
  function Split(s: string): seq<string>
    decreases |s|
  {
    StripLeftShrinks(s);
    var t := StripLeft(s);
    if t == [] then [] else
      StripLeftStops(s);
      [Word(t)] + Split(t[|Word(t)|..])
  }

  /** `" ".join(words)`. */
  function Join(words: seq<string>): string {
    if words == [] then []
    else if |words| == 1 then words[0]
    else words[0] + " " + Join(words[1..])
  }

  /** The normaliser of the prompt builder. */
  function SplitAndJoin(s: string): string {
    Join(Split(s))
  }

  /** `value[:k]`, where a negative bound counts from the end. */
  function SliceTo(s: string, k: int): string {
    if k >= |s| then s
    else if k >= 0 then s[..k]
    else if |s| + k >= 0 then s[..|s| + k]
    else []
  }

  function Truncate(value: string, maxLength: int): string {
    if |value| <= maxLength then value
    else StripRight(SliceTo(value, maxLength - 1)) + ELLIPSIS
  }

  // ---------- Characters ----------

  const UPPER: string := "ABCDEFGHIJKLMNOPQRSTUVWXYZ"
  const LOWER: string := "abcdefghijklmnopqrstuvwxyz"

  /** The whitespace of `str.isspace`, one by one. */
  lemma SpacesListed(c: char)
    ensures IsSpace(c) <==> c in {
      ' ', '\U{09}', '\U{0a}', '\U{0b}', '\U{0c}', '\U{0d}', '\U{1c}', '\U{1d}', '\U{1e}', '\U{1f}', '\U{85}',
      '\U{a0}', '\U{1680}', '\U{2000}', '\U{2001}', '\U{2002}', '\U{2003}', '\U{2004}', '\U{2005}', '\U{2006}',
      '\U{2007}', '\U{2008}', '\U{2009}', '\U{200a}', '\U{2028}', '\U{2029}', '\U{202f}', '\U{205f}', '\U{3000}'}
  {
  }

  /** Lowering pairs the two alphabets and leaves everything else alone. */
  lemma LowerIs(s: string, i: nat, k: nat)
    requires i < |s| && k < |UPPER|
    ensures |UPPER| == |LOWER| == 26
    ensures s[i] == UPPER[k] ==> Lower(s)[i] == LOWER[k]
    ensures !('A' <= s[i] <= 'Z') ==> Lower(s)[i] == s[i]
  {
    assert UPPER[k] == 'A' + k as char && LOWER[k] == 'a' + k as char;
  }

  // ---------- Lemmas ----------

  lemma StripLeftShrinks(s: string)
    ensures |StripLeft(s)| <= |s|
  {
  }

  lemma StripLeftStops(s: string)
    ensures StripLeft(s) != [] ==> !IsSpace(StripLeft(s)[0])
  {
  }

  lemma StripRightIsPrefix(s: string)
    ensures StripRight(s) <= s
    ensures StripRight(s) != [] ==> !IsSpace(StripRight(s)[|StripRight(s)| - 1])
  {
  }

  lemma {:induction false} StripRightDropsSpaces(s: string)
    ensures |StripRight(s)| <= |s|
    ensures forall j | |StripRight(s)| <= j < |s| :: IsSpace(s[j])
  {
    hide IsSpace;
    if s != [] && IsSpace(s[|s| - 1]) {
      StripRightDropsSpaces(s[..|s| - 1]);
    }
  }

  lemma {:induction false} StripLeftDropsSpaces(s: string)
    ensures |StripLeft(s)| <= |s| && StripLeft(s) == s[|s| - |StripLeft(s)|..]
    ensures forall j | 0 <= j < |s| - |StripLeft(s)| :: IsSpace(s[j])
  {
    hide IsSpace;
    if s != [] && IsSpace(s[0]) {
      StripLeftDropsSpaces(s[1..]);
      var n := |s| - |StripLeft(s)|;
      assert s[1..][n - 1..] == s[n..];
      forall j | 0 <= j < n ensures IsSpace(s[j]) {
        assert j > 0 ==> s[1..][j - 1] == s[j];
      }
    }
  }

  /** The text between `a` and `b`, which are whitespace; it neither starts nor ends with whitespace. */
  ghost predicate Trimmed(s: string, a: string, t: string, b: string) {
    && s == a + t + b
    && (forall i | 0 <= i < |a| :: IsSpace(a[i]))
    && (forall i | 0 <= i < |b| :: IsSpace(b[i]))
    && (t != "" ==> !IsSpace(t[0]) && !IsSpace(t[|t| - 1]))
  }

  /** `str.strip`: the one piece of a text that is trimmed. */
  lemma StripTrims(s: string)
    ensures exists a, b :: Trimmed(s, a, Strip(s), b)
  {
    hide IsSpace, StripLeft, StripRight;
    var left := StripLeft(s);
    StripLeftDropsSpaces(s);
    StripLeftStops(s);
    StripRightIsPrefix(left);
    StripRightDropsSpaces(left);
    var a, b := s[..|s| - |left|], left[|Strip(s)|..];
    assert left == Strip(s) + b;
    assert Trimmed(s, a, Strip(s), b);
  }

  /** Nothing is left of a text exactly if it is nothing but whitespace. */
  lemma NothingLeftIff(s: string)
    ensures Strip(s) == "" <==> forall i | 0 <= i < |s| :: IsSpace(s[i])
  {
    hide Strip, IsSpace;
    StripTrims(s);
    var a, b :| Trimmed(s, a, Strip(s), b);
    if Strip(s) == "" {
      assert forall i | 0 <= i < |s| :: s[i] == if i < |a| then a[i] else b[i - |a|];
    } else {
      assert s[|a|] == Strip(s)[0];
    }
  }

  ghost predicate WordLike(w: string) {
    w != [] && forall i | 0 <= i < |w| :: !IsSpace(w[i])
  }

  ghost predicate AllWords(words: seq<string>) {
    forall i | 0 <= i < |words| :: WordLike(words[i])
  }

  lemma {:induction false} SplitYieldsWords(s: string)
    ensures AllWords(Split(s))
    decreases |s|
  {
    StripLeftShrinks(s);
    StripLeftStops(s);
    var t := StripLeft(s);
    if t != [] {
      SplitYieldsWords(t[|Word(t)|..]);
    }
  }

  lemma {:induction false} WordOf(w: string, rest: string)
    requires forall i | 0 <= i < |w| :: !IsSpace(w[i])
    requires rest == [] || IsSpace(rest[0])
    ensures Word(w + rest) == w
  {
    if w == [] {
      assert w + rest == rest;
    } else {
      assert (w + rest)[1..] == w[1..] + rest;
      WordOf(w[1..], rest);
    }
  }

  /** Splitting a joined list of words gives the words back. */
  lemma {:induction false} SplitOfJoin(words: seq<string>)
    requires AllWords(words)
    ensures Split(Join(words)) == words
  {
    if words == [] {
    } else if |words| == 1 {
      var w := words[0];
      assert WordLike(w);
      assert w + [] == w;
      WordOf(w, []);
      assert w[|w|..] == [];
    } else {
      var w, rest := words[0], " " + Join(words[1..]);
      assert WordLike(w);
      var s := Join(words);
      assert s == w + rest;
      WordOf(w, rest);
      assert StripLeft(s) == s;
      assert s[|w|..] == rest;
      assert forall i | 0 <= i < |words[1..]| :: words[1..][i] == words[i + 1];
      SplitOfJoin(words[1..]);
      assert rest[1..] == Join(words[1..]);
      assert Split(rest) == Split(rest[1..]);
    }
  }

  lemma {:induction false} StripLeftOfConcat(a: string, b: string)
    ensures StripLeft(a + b) == if StripLeft(a) == [] then StripLeft(b) else StripLeft(a) + b
  {
    if a == [] {
      assert a + b == b;
    } else if IsSpace(a[0]) {
      assert (a + b)[1..] == a[1..] + b;
      StripLeftOfConcat(a[1..], b);
    }
  }

  /** Whitespace cuts a text in two parts with words of their own. */
  lemma {:induction false} SplitCut(a: string, gap: char, b: string)
    requires IsSpace(gap)
    ensures Split(a + [gap] + b) == Split(a) + Split(b)
    decreases |a|
  {
    hide IsSpace;
    var t, rest := StripLeft(a), [gap] + b;
    assert a + [gap] + b == a + rest;
    StripLeftShrinks(a);
    StripLeftOfConcat(a, rest);
    assert StripLeft(rest) == StripLeft(b) by {
      assert rest[1..] == b;
    }
    if t == [] {
      SplitOfStripped(a + rest, b);
    } else {
      StripLeftStops(a);
      var w := Word(t);
      var tail := t[|w|..];
      assert t == w + tail && t + rest == w + (tail + rest);
      WordOf(w, tail + rest);
      assert (t + rest)[|w|..] == tail + [gap] + b;
      SplitCut(tail, gap, b);
      assert [w] + (Split(tail) + Split(b)) == Split(a) + Split(b);
    }
  }

  /** Words depend on what is left after the leading whitespace. */
  lemma SplitOfStripped(s: string, t: string)
    requires StripLeft(s) == StripLeft(t)
    ensures Split(s) == Split(t)
  {
  }

  /** A word is its own list of words, and the empty text has none. */
  lemma SplitOfWord(w: string)
    ensures WordLike(w) ==> Split(w) == [w]
    ensures Split("") == []
  {
    if WordLike(w) {
      assert Join([w]) == w && AllWords([w]);
      SplitOfJoin([w]);
    }
  }

  lemma {:induction false} CollapseOfWord(w: string, rest: string)
    requires forall i | 0 <= i < |w| :: !IsSpace(w[i])
    ensures Collapse(w + rest) == w + Collapse(rest)
  {
    if w == [] {
      assert w + rest == rest;
    } else {
      assert (w + rest)[1..] == w[1..] + rest;
      CollapseOfWord(w[1..], rest);
      assert [w[0]] + (w[1..] + Collapse(rest)) == w + Collapse(rest);
    }
  }

  lemma {:induction false} StripRightOfWord(s: string, w: string)
    requires w != [] && !IsSpace(w[|w| - 1])
    ensures StripRight(s + w) == s + w
  {
    assert (s + w)[|s + w| - 1] == w[|w| - 1];
  }

  /** One word, then what is left after the whitespace behind it. */
  lemma SplitStep(t: string)
    requires t != [] && !IsSpace(t[0])
    ensures Word(t) != []
    ensures Split(t) == [Word(t)] + Split(StripLeft(t[|Word(t)|..]))
    ensures Collapse(t) == Word(t) + Collapse(t[|Word(t)|..])
  {
    var w := Word(t);
    var rest := t[|w|..];
    assert t == w + rest;
    CollapseOfWord(w, rest);
    StripLeftStops(rest);
    assert StripLeft(StripLeft(rest)) == StripLeft(rest);
  }

  /** Collapsing text that starts with a word, then trimming the right, is joining the words. */
  lemma {:induction false} CollapseIsJoin(t: string)
    requires t != [] && !IsSpace(t[0])
    ensures StripRight(Collapse(t)) == Join(Split(t)) != []
    decreases |t|
  {
    var w := Word(t);
    var rest := t[|w|..];
    var tail := StripLeft(rest);
    hide IsSpace;
    SplitStep(t);
    StripLeftShrinks(rest);
    StripLeftStops(rest);
    StripRightOfWord([], w);
    assert [] + w == w;
    if rest == [] {
      assert Collapse(t) == w;
    } else {
      assert Collapse(rest) == " " + Collapse(tail);
      assert Collapse(t) == (w + " ") + Collapse(tail);
      if tail == [] {
        StripSpace(w);
      } else {
        CollapseIsJoin(tail);
        StripRightOfConcat(w + " ", Collapse(tail));
        JoinCons(w, Split(tail));
      }
    }
  }

  lemma StripSpace(w: string)
    ensures StripRight(w + " " + []) == StripRight(w)
  {
    assert w + " " + [] == w + " ";
    assert (w + " ")[..|w + " "| - 1] == w;
  }

  lemma JoinCons(w: string, words: seq<string>)
    requires words != []
    ensures Join([w] + words) == w + " " + Join(words)
  {
    assert ([w] + words)[1..] == words;
  }

  lemma {:induction false} StripRightOfConcat(a: string, b: string)
    requires StripRight(b) != []
    ensures StripRight(a + b) == a + StripRight(b)
    decreases |b|
  {
    assert (a + b)[|a + b| - 1] == b[|b| - 1];
    if IsSpace(b[|b| - 1]) {
      assert (a + b)[..|a + b| - 1] == a + b[..|b| - 1];
      StripRightOfConcat(a, b[..|b| - 1]);
    }
  }

  /** The two whitespace normalisers of the repository compute the same string. */
  lemma NormalizersAgree(s: string)
    ensures CollapseAndStrip(s) == SplitAndJoin(s)
  {
    var t := StripLeft(s);
    StripLeftShrinks(s);
    StripLeftStops(s);
    assert Split(s) == Split(t) by {
      assert StripLeft(t) == t;
    }
    assert StripLeft(Collapse(s)) == Collapse(t) by {
      if s != [] && IsSpace(s[0]) {
        assert t == StripLeft(s[1..]);
        assert Collapse(s)[1..] == Collapse(t);
      }
      if t != [] {
        assert Collapse(t)[0] == t[0];
      }
    }
    if t != [] {
      CollapseIsJoin(t);
    }
  }

  /** A normalised text is a fixpoint and keeps its words. */
  lemma NormalizerIsIdempotent(s: string)
    ensures Split(SplitAndJoin(s)) == Split(s)
    ensures SplitAndJoin(SplitAndJoin(s)) == SplitAndJoin(s)
    ensures CollapseAndStrip(CollapseAndStrip(s)) == CollapseAndStrip(s)
  {
    SplitYieldsWords(s);
    SplitOfJoin(Split(s));
    NormalizersAgree(s);
    NormalizersAgree(CollapseAndStrip(s));
  }

  /** What a truncated text promises: the text, or the longest right-trimmed prefix that fits and an ellipsis. */
  ghost predicate Truncated(value: string, maxLength: int, r: string) {
    || (r == value && |value| <= maxLength)
    || (exists k ::
         && 0 <= k < |value|
         && r == value[..k] + "..."
         && |r| <= maxLength + 2
         && (k > 0 ==> !IsSpace(value[k - 1]))
         && (forall j | k <= j < |value| && j < maxLength - 1 :: IsSpace(value[j])))
  }

  lemma TruncatedPrefix(value: string, maxLength: int)
    requires 1 <= maxLength
    ensures Truncated(value, maxLength, Truncate(value, maxLength))
  {
    hide IsSpace, StripRight;
    if |value| > maxLength {
      var cut := SliceTo(value, maxLength - 1);
      assert cut == value[..maxLength - 1];
      StripRightIsPrefix(cut);
      StripRightDropsSpaces(cut);
      var k := |StripRight(cut)|;
      assert value[..k] == StripRight(cut);
      forall j | k <= j < maxLength - 1 ensures IsSpace(value[j]) {
        assert cut[j] == value[j];
      }
    }
  }

  /** The length bound holds for every text exactly when the limit is at least one. */
  lemma TruncateBoundIff(maxLength: int)
    ensures (forall value :: Truncated(value, maxLength, Truncate(value, maxLength))) <==> 1 <= maxLength
  {
    if 1 <= maxLength {
      forall value ensures Truncated(value, maxLength, Truncate(value, maxLength)) {
        TruncatedPrefix(value, maxLength);
      }
    } else {
      var value := seq(2 - maxLength, _ => 'x');
      assert SliceTo(value, maxLength - 1) == ['x'];
      assert StripRight(['x']) == ['x'];
      assert |Truncate(value, maxLength)| == 4;
      assert !Truncated(value, maxLength, Truncate(value, maxLength));
    }
  }
}
