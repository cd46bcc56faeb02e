/**
 * The analyzer's `_extract_common_keywords`: the words of every non-empty title (lower-cased
 * runs of three or more ASCII letters standing between word boundaries), without stop words,
 * counted, and the `top_n` most frequent listed with their counts.
 */
module Keywords {
  import opened Strings
  import opened Sequences
  import opened Counting

  const StopWords: set<string> := {
    "for", "and", "the", "with", "to", "of", "in", "on", "at", "by", "is", "are",
    "new", "hot", "free", "shipping", "sale", "best", "high", "quality"}

  /**
   * `\w` of Python's `re` for one character: ASCII letters and digits and `_`; whether a
   * character beyond ASCII is a Unicode letter or digit is `unicodeWord`'s answer.
   */
  predicate IsWordChar(unicodeWord: char -> bool, c: char)
  {
    IsAsciiLetter(c) || IsDigit(c) || c == '_' || (c as int >= 128 && unicodeWord(c))
  }

  /** End of the maximal run of ASCII letters that starts at `i`. */
  function LetterRunEnd(s: string, i: nat): (j: nat)
    requires i <= |s|
    ensures i <= j <= |s|
    ensures forall k :: i <= k < j ==> IsAsciiLetter(s[k])
    ensures j == |s| || !IsAsciiLetter(s[j])
    decreases |s| - i
  {
    if i < |s| && IsAsciiLetter(s[i]) then LetterRunEnd(s, i + 1) else i
  }

  /**
   * The matches of `\b[a-zA-Z]{3,}\b` at or after `i`, where `i` is not inside a run of letters:
   * a match is a whole run of at least three letters with no word character on either side
   * (a shorter piece of a run never ends at a boundary, so a run is taken whole or not at all).
   */
  function WordsFrom(unicodeWord: char -> bool, s: string, i: nat): seq<string>
    requires i <= |s|
    decreases |s| - i
  {
    if i == |s| then []
    else if !IsAsciiLetter(s[i]) then WordsFrom(unicodeWord, s, i + 1)
    else
      var j := LetterRunEnd(s, i);
      (if j - i >= 3 && (i == 0 || !IsWordChar(unicodeWord, s[i - 1])) && (j == |s| || !IsWordChar(unicodeWord, s[j]))
       then [s[i..j]] else [])
      + WordsFrom(unicodeWord, s, j)
  }

  /** `re.findall(r'\b[a-zA-Z]{3,}\b', s)`. */
  function Words(unicodeWord: char -> bool, s: string): seq<string>
  {
    WordsFrom(unicodeWord, s, 0)
  }

  /** `t` stands at position `p` of `s` with no word character right before or right after it. */
  predicate StandsAlone(unicodeWord: char -> bool, s: string, p: nat, t: string)
  {
    && p + |t| <= |s| && s[p..p + |t|] == t
    && (p == 0 || !IsWordChar(unicodeWord, s[p - 1]))
    && (p + |t| == |s| || !IsWordChar(unicodeWord, s[p + |t|]))
  }

  predicate LetterWord(t: string)
  {
    |t| >= 3 && forall k :: 0 <= k < |t| ==> IsAsciiLetter(t[k])
  }

  /** Every match is three or more letters standing alone in the text. */
  lemma {:induction false} WordsSound(unicodeWord: char -> bool, s: string, i: nat)
    requires i <= |s|
    ensures forall t :: t in WordsFrom(unicodeWord, s, i) ==>
      LetterWord(t) && exists p :: i <= p && StandsAlone(unicodeWord, s, p, t)
    decreases |s| - i
  {
    if i < |s| {
      if !IsAsciiLetter(s[i]) {
        WordsSound(unicodeWord, s, i + 1);
      } else {
        var j := LetterRunEnd(s, i);
        WordsSound(unicodeWord, s, j);
        if j - i >= 3 && (i == 0 || !IsWordChar(unicodeWord, s[i - 1])) && (j == |s| || !IsWordChar(unicodeWord, s[j])) {
          var t := s[i..j];
          assert |t| == j - i && i + |t| == j;
          assert StandsAlone(unicodeWord, s, i, t);
          assert LetterWord(t) by {
            forall k | 0 <= k < |t|
              ensures IsAsciiLetter(t[k])
            {
              assert t[k] == s[i + k];
            }
          }
        }
      }
    }
  }

  /** Every run of three or more letters standing alone in the text is a match. */
  lemma WordsComplete(unicodeWord: char -> bool, s: string, p: nat, w: string)
    requires LetterWord(w) && StandsAlone(unicodeWord, s, p, w)
    ensures w in Words(unicodeWord, s)
  {
    WordsReach(unicodeWord, s, 0, p, w);
  }

  lemma {:induction false} WordsReach(unicodeWord: char -> bool, s: string, i: nat, p: nat, w: string)
    requires LetterWord(w) && StandsAlone(unicodeWord, s, p, w)
    requires i <= p
    requires i == 0 || !IsAsciiLetter(s[i - 1]) || !IsAsciiLetter(s[i])
    ensures w in WordsFrom(unicodeWord, s, i)
    decreases p - i
  {
    forall k | p <= k < p + |w|
      ensures IsAsciiLetter(s[k])
    {
      assert s[k] == w[k - p];
    }
    if i == p {
      LetterRunCovers(s, p, |w|);
      var j := LetterRunEnd(s, i);
      assert j == p + |w|;
      assert s[i..j] == w;
    } else if !IsAsciiLetter(s[i]) {
      WordsReach(unicodeWord, s, i + 1, p, w);
    } else {
      var j := LetterRunEnd(s, i);
      assert !IsAsciiLetter(s[p - 1]);
      assert j < p;
      WordsReach(unicodeWord, s, j, p, w);
    }
  }

  /** A run of letters starting at `i` reaches at least as far as any stretch of letters from `i`. */
  lemma {:induction false} LetterRunCovers(s: string, i: nat, n: nat)
    requires i + n <= |s|
    requires forall k :: i <= k < i + n ==> IsAsciiLetter(s[k])
    ensures LetterRunEnd(s, i) >= i + n
    decreases n
  {
    if n > 0 {
      LetterRunCovers(s, i + 1, n - 1);
    }
  }

  /** A digit or underscore right after a run of letters keeps it from being a word: `"abc1"` has none. */
  lemma DigitAdjacentIsNoWord(unicodeWord: char -> bool)
    ensures Words(unicodeWord, "abc1") == []
  {
    var s := "abc1";
    assert LetterRunEnd(s, 3) == 3;
    assert LetterRunEnd(s, 0) == 3;
    assert WordsFrom(unicodeWord, s, 4) == [];
    assert WordsFrom(unicodeWord, s, 3) == [];
  }

  // ---------------------------------------------------------------------------------------------
  // Counting the words of the titles

  function NotStopWord(): string -> bool
  {
    w => w !in StopWords
  }

  /** The words one title contributes: those of its lower-cased text that are not stop words. */
  function TitleWords(unicodeWord: char -> bool, title: string): seq<string>
  {
    Filter(Words(unicodeWord, Lower(title)), NotStopWord())
  }

  /** `all_words` after the loop: the words of every non-empty title, in order. */
  function AllWords(unicodeWord: char -> bool, titles: seq<string>): seq<string>
  {
    if titles == [] then []
    else
      var last := titles[|titles| - 1];
      AllWords(unicodeWord, titles[..|titles| - 1]) + (if last != [] then TitleWords(unicodeWord, last) else [])
  }

  method CollectWords(unicodeWord: char -> bool, titles: seq<string>) returns (allWords: seq<string>)
    ensures allWords == AllWords(unicodeWord, titles)
  {
    allWords := [];
    for i := 0 to |titles|
      invariant allWords == AllWords(unicodeWord, titles[..i])
    {
      assert titles[..i + 1][..i] == titles[..i];
      var title := titles[i];
      if title != [] {
        var words := Words(unicodeWord, Lower(title));
        allWords := allWords + Filter(words, NotStopWord());
      }
    }
    assert titles[..|titles|] == titles;
  }

  /** `_extract_common_keywords(titles, top_n)`: the most common words with their counts, as an ordered dict. */
  function CommonKeywords(unicodeWord: char -> bool, titles: seq<string>, topN: nat): seq<(string, nat)>
  {
    MostCommon(AllWords(unicodeWord, titles), topN)
  }

  method ExtractCommonKeywords(unicodeWord: char -> bool, titles: seq<string>, topN: nat) returns (keywords: seq<(string, nat)>)
    ensures keywords == CommonKeywords(unicodeWord, titles, topN)
  {
    var allWords := CollectWords(unicodeWord, titles);
    keywords := MostCommon(allWords, topN);
  }

  /** A word of a title is three or more lower-case ASCII letters, and not a stop word. */
  predicate Keyword(w: string)
  {
    |w| >= 3 && (forall k :: 0 <= k < |w| ==> 'a' <= w[k] <= 'z') && w !in StopWords
  }

  lemma TitleWordsAreKeywords(unicodeWord: char -> bool, title: string)
    ensures forall w :: w in TitleWords(unicodeWord, title) ==> Keyword(w)
  {
    var s := Lower(title);
    FilterMembers(Words(unicodeWord, s), NotStopWord());
    WordsSound(unicodeWord, s, 0);
    forall w | w in TitleWords(unicodeWord, title)
      ensures Keyword(w)
    {
      var p :| 0 <= p && StandsAlone(unicodeWord, s, p, w);
      forall k | 0 <= k < |w|
        ensures 'a' <= w[k] <= 'z'
      {
        assert w[k] == s[p + k];
        assert IsAsciiLetter(s[p + k]);
      }
    }
  }

  lemma {:induction false} AllWordsAreKeywords(unicodeWord: char -> bool, titles: seq<string>)
    ensures forall w :: w in AllWords(unicodeWord, titles) ==> Keyword(w)
  {
    if titles != [] {
      AllWordsAreKeywords(unicodeWord, titles[..|titles| - 1]);
      TitleWordsAreKeywords(unicodeWord, titles[|titles| - 1]);
    }
  }

  /**
   * At most `top_n` keywords are listed, each a lower-case word of three or more letters that is
   * not a stop word, with the number of times it occurs in the titles; none is listed twice, and
   * a word left out occurs no more often than any word listed.
   */
  lemma KeywordsSpec(unicodeWord: char -> bool, titles: seq<string>, topN: nat)
    ensures |CommonKeywords(unicodeWord, titles, topN)| <= topN
    ensures forall k :: 0 <= k < |CommonKeywords(unicodeWord, titles, topN)| ==>
      && Keyword(CommonKeywords(unicodeWord, titles, topN)[k].0)
      && CommonKeywords(unicodeWord, titles, topN)[k].1 ==
         Occurrences(AllWords(unicodeWord, titles), CommonKeywords(unicodeWord, titles, topN)[k].0)
    ensures forall a, b :: 0 <= a < b < |CommonKeywords(unicodeWord, titles, topN)| ==>
      CommonKeywords(unicodeWord, titles, topN)[a].0 != CommonKeywords(unicodeWord, titles, topN)[b].0
  {
    MostCommonEntries(AllWords(unicodeWord, titles), topN);
    AllWordsAreKeywords(unicodeWord, titles);
  }

  /** A word of the titles that is not listed occurs no more often than any listed word. */
  lemma KeywordsTop(unicodeWord: char -> bool, titles: seq<string>, topN: nat, w: string)
    requires w in AllWords(unicodeWord, titles)
    requires forall j :: 0 <= j < |CommonKeywords(unicodeWord, titles, topN)| ==> CommonKeywords(unicodeWord, titles, topN)[j].0 != w
    ensures forall k :: 0 <= k < |CommonKeywords(unicodeWord, titles, topN)| ==>
      Occurrences(AllWords(unicodeWord, titles), w) <= CommonKeywords(unicodeWord, titles, topN)[k].1
  {
    assert CommonKeywords(unicodeWord, titles, topN) == MostCommon(AllWords(unicodeWord, titles), topN);
    MostCommonTop(AllWords(unicodeWord, titles), topN, w);
  }
}
