/** Text handling shared by the transcript scheduler: splitting streamed text
    into words, trimming, joining for display and the rolling display window. */
module Words {

  /** The characters matched by the JavaScript `\s` class, which are also the
      characters `String.prototype.trim` strips. */
  predicate IsSpace(c: char) {
    c == ' ' || c == '\t' || c == '\n' || c == '\r' || c == '\U{B}' || c == '\U{C}'
    || c == '\U{A0}' || c == '\U{1680}' || ('\U{2000}' <= c <= '\U{200A}')
    || c == '\U{2028}' || c == '\U{2029}' || c == '\U{202F}' || c == '\U{205F}'
    || c == '\U{3000}' || c == '\U{FEFF}'
  }

  predicate NoSpace(s: string) {
    forall i :: 0 <= i < |s| ==> !IsSpace(s[i])
  }

  /** A word as `split(/\s+/).filter(Boolean)` produces it. */
  predicate IsWord(w: string) {
    |w| > 0 && NoSpace(w)
  }

  /** The longest prefix of `s` that holds no whitespace. */
  function WordPrefix(s: string): (w: string)
    ensures w <= s && NoSpace(w)
    ensures |w| < |s| ==> IsSpace(s[|w|])
  {
    if s == [] || IsSpace(s[0]) then [] else [s[0]] + WordPrefix(s[1..])
  }

  /** `text.split(/\s+/).filter(Boolean)`: the maximal runs of non-space
      characters, in order. */
  function Split(s: string): (ws: seq<string>)
    ensures forall k :: 0 <= k < |ws| ==> IsWord(ws[k])
    decreases |s|
  {
    if s == [] then []
    else if IsSpace(s[0]) then Split(s[1..])
    else
      var w := WordPrefix(s);
      [w] + Split(s[|w|..])
  }

  /** `words.join(' ')`. */
  function Join(ws: seq<string>): string {
    if ws == [] then ""
    else if |ws| == 1 then ws[0]
    else ws[0] + " " + Join(ws[1..])
  }

  function TrimStart(s: string): (r: string)
    ensures r == [] || !IsSpace(r[0])
    ensures exists k :: 0 <= k <= |s| && r == s[k..] && forall i :: 0 <= i < k ==> IsSpace(s[i])
  {
    if s != [] && IsSpace(s[0]) then
      var r := TrimStart(s[1..]);
      assert forall k :: 0 <= k <= |s| - 1 ==> s[1..][k..] == s[k + 1..];
      r
    else
      assert s == s[0..];
      s
  }

  function TrimEnd(s: string): (r: string)
    ensures r == [] || !IsSpace(r[|r| - 1])
    ensures r <= s && forall i :: |r| <= i < |s| ==> IsSpace(s[i])
  {
    if s != [] && IsSpace(s[|s| - 1]) then TrimEnd(s[..|s| - 1]) else s
  }

  /** `String.prototype.trim`: whitespace removed from both ends. */
  function Trim(s: string): (r: string)
    ensures r == [] || (!IsSpace(r[0]) && !IsSpace(r[|r| - 1]))
  {
    TrimEnd(TrimStart(s))
  }

  lemma {:induction false} WordPrefixBeforeSpace(a: string, c: char, b: string)
    requires IsSpace(c)
    ensures WordPrefix(a + [c] + b) == WordPrefix(a)
  {
    if a == [] {
    } else if IsSpace(a[0]) {
    } else {
      assert (a + [c] + b)[1..] == a[1..] + [c] + b;
      WordPrefixBeforeSpace(a[1..], c, b);
    }
  }

  /** Splitting text that holds a whitespace character splits the two sides
      independently: no word spans the separator. */
  lemma {:induction false} SplitSeparated(a: string, c: char, b: string)
    requires IsSpace(c)
    ensures Split(a + [c] + b) == Split(a) + Split(b)
    decreases |a|
  {
    var s := a + [c] + b;
    if a == [] {
      assert s[1..] == b;
    } else if IsSpace(a[0]) {
      assert s[1..] == a[1..] + [c] + b;
      SplitSeparated(a[1..], c, b);
    } else {
      var w := WordPrefix(a);
      WordPrefixBeforeSpace(a, c, b);
      assert WordPrefix(s) == w;
      assert s[|w|..] == a[|w|..] + [c] + b;
      SplitSeparated(a[|w|..], c, b);
    }
  }

  lemma {:induction false} WordPrefixOfWord(w: string)
    requires NoSpace(w)
    ensures WordPrefix(w) == w
  {
    if w != [] {
      WordPrefixOfWord(w[1..]);
    }
  }

  /** Joining words with single spaces and splitting again gives the words back. */
  lemma {:induction false} SplitJoin(ws: seq<string>)
    requires forall k :: 0 <= k < |ws| ==> IsWord(ws[k])
    ensures Split(Join(ws)) == ws
  {
    if ws == [] {
    } else {
      WordPrefixOfWord(ws[0]);
      assert ws[0][|ws[0]|..] == [];
      assert Split(ws[0]) == [ws[0]];
      if |ws| > 1 {
        SplitSeparated(ws[0], ' ', Join(ws[1..]));
        SplitJoin(ws[1..]);
        assert ws == [ws[0]] + ws[1..];
      }
    }
  }

  lemma {:induction false} SplitTrimStart(s: string)
    ensures Split(TrimStart(s)) == Split(s)
  {
    if s != [] && IsSpace(s[0]) {
      SplitTrimStart(s[1..]);
    }
  }

  lemma {:induction false} SplitTrimEnd(s: string)
    ensures Split(TrimEnd(s)) == Split(s)
    decreases |s|
  {
    if s != [] && IsSpace(s[|s| - 1]) {
      var a := s[..|s| - 1];
      SplitSeparated(a, s[|s| - 1], []);
      assert a + [s[|s| - 1]] + [] == s;
      SplitTrimEnd(a);
    }
  }

  /** Trimming never changes the words of a text. */
  lemma SplitTrim(s: string)
    ensures Split(Trim(s)) == Split(s)
  {
    SplitTrimEnd(TrimStart(s));
    SplitTrimStart(s);
  }

  /** A single space between two texts separates their words. */
  lemma SplitAroundSpace(a: string, b: string)
    ensures Split(a + " " + b) == Split(a) + Split(b)
  {
    SplitSeparated(a, ' ', b);
    assert a + " " + b == a + [' '] + b;
  }

  /** Text that ends in a space has the words of the text before the space,
      and anything appended to it starts a new word. */
  lemma SplitAfterSpace(a: string, b: string)
    requires a != [] && a[|a| - 1] == ' '
    ensures Split(a + b) == Split(a) + Split(b)
  {
    var c := a[..|a| - 1];
    LastApart(a, b);
    SplitSeparated(c, ' ', []);
    SplitSeparated(c, ' ', b);
  }

  /** A non-empty text is its front followed by its last character. */
  lemma LastApart(a: string, b: string)
    requires a != []
    ensures a[..|a| - 1] + [a[|a| - 1]] + [] == a
    ensures a[..|a| - 1] + [a[|a| - 1]] + b == a + b
  {
    assert a[..|a| - 1] + [a[|a| - 1]] == a;
  }

  /** A word splits into itself. */
  lemma SplitWord(w: string)
    requires IsWord(w)
    ensures Split(w) == [w]
  {
    WordPrefixOfWord(w);
    assert w[|w|..] == [];
  }

  /** `array.slice(-n)` for a positive `n`: the last `n` elements, or all of
      them when there are fewer. */
  function Window<T>(s: seq<T>, n: nat): (r: seq<T>)
    requires n > 0
    ensures |r| == if |s| < n then |s| else n
    ensures r == s[|s| - |r|..]
  {
    if |s| <= n then s else s[|s| - n..]
  }

  /** `array.slice(0, n)`: the first `n` elements, or all of them when there
      are fewer. */
  function Prefix<T>(s: seq<T>, n: nat): (r: seq<T>)
    ensures |r| == if |s| < n then |s| else n
    ensures r <= s
  {
    if |s| <= n then s else s[..n]
  }

  /** A word of the rolling transcript with its stable display id. */
  datatype StreamedWord = StreamedWord(word: string, id: int)

  /** The ids of `ws` are `first`, `first + 1`, ... in order. */
  predicate IdsFrom(ws: seq<StreamedWord>, first: int) {
    forall k :: 0 <= k < |ws| ==> ws[k].id == first + k
  }

  /** The words each taking the next id from a counter that starts at `first`. */
  function Numbered(words: seq<string>, first: int): (r: seq<StreamedWord>)
    ensures |r| == |words| && IdsFrom(r, first)
    ensures forall k :: 0 <= k < |r| ==> r[k].word == words[k]
  {
    seq(|words|, k requires 0 <= k < |words| => StreamedWord(words[k], first + k))
  }

  /** The texts of a list of streamed words, `ws.map(w => w.word)`. */
  function Texts(ws: seq<StreamedWord>): (r: seq<string>)
    ensures |r| == |ws| && forall k :: 0 <= k < |ws| ==> r[k] == ws[k].word
  {
    seq(|ws|, k requires 0 <= k < |ws| => ws[k].word)
  }

  lemma TextsAppend(a: seq<StreamedWord>, b: seq<StreamedWord>)
    ensures Texts(a + b) == Texts(a) + Texts(b)
  {
  }

  /** The texts of a word list are those of its two parts at any cut. */
  lemma TextsCut(ws: seq<StreamedWord>, k: nat)
    requires k <= |ws|
    ensures Texts(ws) == Texts(ws[..k]) + Texts(ws[k..])
  {
    assert ws == ws[..k] + ws[k..];
    TextsAppend(ws[..k], ws[k..]);
  }

  /** A sequence is its two parts at any cut. */
  lemma Cut<T>(xs: seq<T>, k: nat)
    requires k <= |xs|
    ensures xs == xs[..k] + xs[k..]
  {
  }

  lemma NumberedSnoc(words: seq<string>, first: int, j: nat)
    requires j < |words|
    ensures Numbered(words[..j + 1], first) == Numbered(words[..j], first) + [StreamedWord(words[j], first + j)]
  {
  }

  /** Numbering words on from a list keeps the list and adds exactly the words. */
  lemma TextsAppendNumbered(ws: seq<StreamedWord>, words: seq<string>, first: int)
    ensures Texts(ws + Numbered(words, first)) == Texts(ws) + words
    ensures (ws + Numbered(words, first))[..|ws|] == ws
  {
    TextsAppend(ws, Numbered(words, first));
    assert Texts(Numbered(words, first)) == words;
  }

  /** Any run of a list numbered consecutively is itself numbered consecutively. */
  lemma IdsFromSlice(ws: seq<StreamedWord>, first: int, i: nat, j: nat)
    requires IdsFrom(ws, first) && i <= j <= |ws|
    ensures IdsFrom(ws[i..j], first + i)
  {
  }
}
