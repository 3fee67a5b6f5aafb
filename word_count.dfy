/**
 * The word count of the page's body text. The engine replaces every whitespace
 * run by one space, trims, splits on whitespace runs, drops empty pieces and
 * counts what is left; this module models each stage of that pipeline, then proves that the
 * pipeline yields exactly the maximal runs of non-whitespace characters that a
 * direct tokenizer (`Words`) reads off the original text.
 */
module WordCount {
  import opened JsString

  /** A token as the tokenizer produces it: non-empty and free of whitespace. */
  predicate IsWord(w: string) {
    w != [] && forall i :: 0 <= i < |w| ==> !IsWhitespace(w[i])
  }

  /** Length of the leading whitespace run of `s`. */
  function LeadingWhitespace(s: string): (n: nat)
    ensures n <= |s|
    ensures forall i :: 0 <= i < n ==> IsWhitespace(s[i])
    ensures n == |s| || !IsWhitespace(s[n])
  {
    if s != [] && IsWhitespace(s[0]) then 1 + LeadingWhitespace(s[1..]) else 0
  }

  /** Length of the leading non-whitespace run of `s`. */
  function LeadingWord(s: string): (n: nat)
    ensures n <= |s|
    ensures forall i :: 0 <= i < n ==> !IsWhitespace(s[i])
    ensures n == |s| || IsWhitespace(s[n])
  {
    if s != [] && !IsWhitespace(s[0]) then 1 + LeadingWord(s[1..]) else 0
  }

  /** The three facts that `LeadingWord` ensures determine it. */
  lemma {:induction false} LeadingWordUnique(s: string, n: nat)
    requires n <= |s|
    requires forall i :: 0 <= i < n ==> !IsWhitespace(s[i])
    requires n == |s| || IsWhitespace(s[n])
    ensures LeadingWord(s) == n
    decreases n
  {
    if n > 0 {
      LeadingWordUnique(s[1..], n - 1);
    }
  }

  /** The tokenizer: the maximal non-whitespace runs of `s`, in order. */
  function Words(s: string): (ws: seq<string>)
    ensures forall k :: 0 <= k < |ws| ==> IsWord(ws[k])
    decreases |s|
  {
    if s == [] then []
    else if IsWhitespace(s[0]) then Words(s[1..])
    else
      var n := LeadingWord(s);
      [s[..n]] + Words(s[n..])
  }

  /** `s.replace(/\s+/g, ' ')`: every whitespace run becomes one space. */
  function CollapseWhitespace(s: string): string
    decreases |s|
  {
    if s == [] then []
    else if IsWhitespace(s[0]) then [' '] + CollapseWhitespace(s[LeadingWhitespace(s)..])
    else [s[0]] + CollapseWhitespace(s[1..])
  }

  /**
   * `s.split(/\s+/)`: the pieces between whitespace runs, including the empty
   * piece before a leading run and after a trailing one; `""` splits into `[""]`.
   */
  function SplitOnWhitespace(s: string): (pieces: seq<string>)
    ensures |pieces| >= 1
    decreases |s|
  {
    var n := LeadingWord(s);
    if n == |s| then [s]
    else [s[..n]] + SplitOnWhitespace(s[n + LeadingWhitespace(s[n..])..])
  }

  /** `.filter(word => word.length > 0)`. */
  function NonEmpty(pieces: seq<string>): seq<string> {
    if pieces == [] then []
    else (if pieces[0] == [] then [] else [pieces[0]]) + NonEmpty(pieces[1..])
  }

  /** The count the engine computes from the body text, stage by stage as the source writes it. */
  function WordCount(text: string): nat {
    |NonEmpty(SplitOnWhitespace(Trim(CollapseWhitespace(text))))|
  }

  /** Leading whitespace contributes no word. */
  lemma {:induction false} WordsSkipWhitespace(s: string, j: nat)
    requires j <= |s| && forall i :: 0 <= i < j ==> IsWhitespace(s[i])
    ensures Words(s[j..]) == Words(s)
    decreases j
  {
    if j > 0 {
      WordsSkipWhitespace(s[1..], j - 1);
      assert s[1..][j - 1..] == s[j..];
    }
  }

  /** Trailing whitespace contributes no word. */
  lemma {:induction false} WordsDropTrailingWhitespace(s: string, m: nat)
    requires m <= |s| && forall i :: m <= i < |s| ==> IsWhitespace(s[i])
    ensures Words(s[..m]) == Words(s)
    decreases |s|, 1
  {
    if m == 0 {
      WordsSkipWhitespace(s, |s|);
      assert s[|s|..] == [];
    } else if IsWhitespace(s[0]) {
      WordsDropTrailingWhitespace(s[1..], m - 1);
      assert s[..m][1..] == s[1..][..m - 1];
    } else {
      WordsDropTrailingAfterWord(s, m);
    }
  }

  /** The case of `WordsDropTrailingWhitespace` where `s` starts with a word. */
  lemma {:induction false} WordsDropTrailingAfterWord(s: string, m: nat)
    requires 0 < m <= |s| && forall i :: m <= i < |s| ==> IsWhitespace(s[i])
    requires !IsWhitespace(s[0])
    ensures Words(s[..m]) == Words(s)
    decreases |s|, 0
  {
    var n := LeadingWord(s);
    var p := s[..m];
    assert m < |s| ==> IsWhitespace(s[m]);
    assert n <= m;
    LeadingWordUnique(p, n);
    assert p[..n] == s[..n];
    assert p[n..] == s[n..][..m - n];
    forall i | m - n <= i < |s[n..]|
      ensures IsWhitespace(s[n..][i])
    {
      assert s[n..][i] == s[n + i];
    }
    WordsDropTrailingWhitespace(s[n..], m - n);
    assert Words(p) == [p[..n]] + Words(p[n..]);
  }

  /** Filtering a list that starts with `piece`. */
  lemma NonEmptyCons(piece: string, rest: seq<string>)
    ensures NonEmpty([piece] + rest) == (if piece == [] then [] else [piece]) + NonEmpty(rest)
  {
    assert ([piece] + rest)[1..] == rest;
  }

  /** The pieces of the split, without the empty ones, are the tokenizer's words. */
  lemma {:induction false} SplitYieldsWords(s: string)
    ensures NonEmpty(SplitOnWhitespace(s)) == Words(s)
    decreases |s|
  {
    var n := LeadingWord(s);
    if n == |s| {
      if s != [] {
        assert s[..n] == s && s[n..] == [];
        NonEmptyCons(s, []);
      }
    } else {
      var k := LeadingWhitespace(s[n..]);
      var rest := s[n + k..];
      assert s[n..][k..] == rest;
      NonEmptyCons(s[..n], SplitOnWhitespace(rest));
      SplitYieldsWords(rest);
      WordsSkipWhitespace(s[n..], k);
      if n == 0 {
        assert s[n..] == s;
      } else {
        assert Words(s) == [s[..n]] + Words(s[n..]);
      }
    }
  }

  /** Collapsing copies a whitespace-free prefix unchanged. */
  lemma {:induction false} CollapseKeepsPrefix(s: string, j: nat)
    requires j <= |s| && forall i :: 0 <= i < j ==> !IsWhitespace(s[i])
    ensures CollapseWhitespace(s) == s[..j] + CollapseWhitespace(s[j..])
    decreases j
  {
    if j > 0 {
      CollapseKeepsPrefix(s[1..], j - 1);
      assert s[1..][j - 1..] == s[j..];
      assert [s[0]] + s[1..][..j - 1] == s[..j];
    }
  }

  /** Collapsing turns a leading whitespace run into one space and keeps a non-whitespace start. */
  lemma CollapseStart(s: string)
    requires s != []
    ensures CollapseWhitespace(s) != []
    ensures IsWhitespace(CollapseWhitespace(s)[0]) == IsWhitespace(s[0])
  {
  }

  /** Collapsing whitespace runs changes no word. */
  lemma {:induction false} CollapsePreservesWords(s: string)
    ensures Words(CollapseWhitespace(s)) == Words(s)
    decreases |s|
  {
    if s == [] {
    } else if IsWhitespace(s[0]) {
      var k := LeadingWhitespace(s);
      var c := CollapseWhitespace(s[k..]);
      CollapsePreservesWords(s[k..]);
      WordsSkipWhitespace(s, k);
      assert ([' '] + c)[1..] == c;
    } else {
      var n := LeadingWord(s);
      var c := CollapseWhitespace(s);
      var tail := CollapseWhitespace(s[n..]);
      CollapseKeepsPrefix(s, n);
      assert c == s[..n] + tail;
      if n < |s| {
        CollapseStart(s[n..]);
      }
      LeadingWordUnique(c, n);
      assert c[..n] == s[..n];
      assert c[n..] == tail;
      CollapsePreservesWords(s[n..]);
    }
  }

  /** Trimming changes no word. */
  lemma TrimPreservesWords(s: string)
    ensures Words(Trim(s)) == Words(s)
  {
    var t := TrimStart(s);
    WordsSkipWhitespace(s, |s| - |t|);
    WordsDropTrailingWhitespace(t, |TrimEnd(t)|);
  }

  /** The engine's pipeline produces exactly the tokenizer's words, so its count is their number. */
  lemma WordCountIsTokenCount(text: string)
    ensures NonEmpty(SplitOnWhitespace(Trim(CollapseWhitespace(text)))) == Words(text)
    ensures WordCount(text) == |Words(text)|
  {
    var c := CollapseWhitespace(text);
    SplitYieldsWords(Trim(c));
    TrimPreservesWords(c);
    CollapsePreservesWords(text);
  }

  /** Text made only of whitespace, the empty text included, counts zero words. */
  lemma BlankTextHasNoWords(text: string)
    requires forall i :: 0 <= i < |text| ==> IsWhitespace(text[i])
    ensures WordCount(text) == 0
  {
    WordCountIsTokenCount(text);
    WordsSkipWhitespace(text, |text|);
    assert text[|text|..] == [];
  }
}
