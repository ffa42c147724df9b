/**
 * ASCII character classes, case folding and whole-word search over strings.
 * `containsWordIgnoreCase` (from the project's StringUtil, which is not part of this model)
 * is modelled as: split the sentence on spaces into maximal non-empty words, and report
 * whether one of them equals the keyword when both are folded to ASCII lower case.
 */
module StringUtil {

  /** `\p{Alnum}` of java.util.regex without UNICODE_CHARACTER_CLASS: ASCII letters and digits. */
  predicate IsAsciiAlnum(c: char) {
    ('a' <= c <= 'z') || ('A' <= c <= 'Z') || ('0' <= c <= '9')
  }

  /** ASCII lower-casing of one character; every other character is left alone. */
  function ToLowerChar(c: char): (r: char)
    ensures r == ' ' <==> c == ' '
  {
    if 'A' <= c <= 'Z' then (c as int + 32) as char else c
  }

  function ToLower(s: string): (r: string)
    ensures |r| == |s|
    ensures forall i :: 0 <= i < |s| ==> r[i] == ToLowerChar(s[i])
  {
    seq(|s|, i requires 0 <= i < |s| => ToLowerChar(s[i]))
  }

  /** `String.equalsIgnoreCase`, restricted to ASCII case folding. */
  predicate EqualsIgnoreCase(a: string, b: string) {
    ToLower(a) == ToLower(b)
  }

  /** Length of the leading run of non-space characters of `s`. */
  function WordLength(s: string): (n: nat)
    ensures n <= |s|
    ensures forall k :: 0 <= k < n ==> s[k] != ' '
    ensures n == |s| || s[n] == ' '
  {
    if s == [] || s[0] == ' ' then 0 else 1 + WordLength(s[1..])
  }

  /** The words of `s`: its maximal runs of non-space characters, in order. */
  function Words(s: string): (ws: seq<string>)
    ensures forall i :: 0 <= i < |ws| ==> ws[i] != [] && ' ' !in ws[i]
    decreases |s|
  {
    if s == [] then []
    else if s[0] == ' ' then Words(s[1..])
    else
      var n := WordLength(s);
      [s[..n]] + Words(s[n..])
  }

  /** `s[i..j]` is a whole word of `s`: non-empty, free of spaces and bounded by spaces or the ends. */
  ghost predicate IsWordAt(s: string, i: int, j: int) {
    && 0 <= i < j <= |s|
    && (i == 0 || s[i - 1] == ' ')
    && (j == |s| || s[j] == ' ')
    && forall k :: i <= k < j ==> s[k] != ' '
  }

  /** A whole word of a suffix `s[d..]` is one of `s` unless it starts the suffix right after a non-space. */
  lemma WholeWordOfSuffix(s: string, d: nat, i: int, j: int)
    requires d <= |s| && IsWordAt(s[d..], i, j)
    requires i != 0 || (0 < d && s[d - 1] == ' ')
    ensures IsWordAt(s, i + d, j + d) && s[i + d..j + d] == s[d..][i..j]
  {
    var t := s[d..];
    forall k | i + d <= k < j + d ensures s[k] != ' ' {
      assert s[k] == t[k - d];
    }
  }

  /** A whole word of `s` that starts at or after position `d` is a whole word of `s[d..]`. */
  lemma WholeWordInSuffix(s: string, d: nat, i: int, j: int)
    requires IsWordAt(s, i, j) && d <= i
    ensures IsWordAt(s[d..], i - d, j - d) && s[d..][i - d..j - d] == s[i..j]
  {
    var t := s[d..];
    forall k | i - d <= k < j - d ensures t[k] != ' ' {
      assert t[k] == s[k + d];
    }
  }

  lemma {:induction false} WordsAreWholeWords(s: string, w: string)
    requires w in Words(s)
    ensures exists i, j :: IsWordAt(s, i, j) && s[i..j] == w
    decreases |s|
  {
    if s[0] == ' ' {
      var t := s[1..];
      WordsAreWholeWords(t, w);
      var i, j :| IsWordAt(t, i, j) && t[i..j] == w;
      WholeWordOfSuffix(s, 1, i, j);
    } else {
      var n := WordLength(s);
      if w == s[..n] {
        assert IsWordAt(s, 0, n);
        assert s[0..n] == w;
      } else {
        var t := s[n..];
        assert w in Words(t);
        WordsAreWholeWords(t, w);
        var i, j :| IsWordAt(t, i, j) && t[i..j] == w;
        assert t[0] == ' ';
        assert i != 0;
        WholeWordOfSuffix(s, n, i, j);
      }
    }
  }

  /** A whole word starting at 0 is the leading run; one starting later lies beyond it. */
  lemma WholeWordAgainstLeadingRun(s: string, i: int, j: int)
    requires IsWordAt(s, i, j)
    ensures i == 0 ==> j == WordLength(s)
    ensures i != 0 ==> WordLength(s) < i
  {
  }

  lemma {:induction false} WholeWordsAreWords(s: string, i: int, j: int)
    requires IsWordAt(s, i, j)
    ensures s[i..j] in Words(s)
    decreases |s|
  {
    if s[0] == ' ' {
      assert i != 0;
      WholeWordInSuffix(s, 1, i, j);
      WholeWordsAreWords(s[1..], i - 1, j - 1);
    } else {
      var n := WordLength(s);
      WholeWordAgainstLeadingRun(s, i, j);
      if i != 0 {
        WholeWordInSuffix(s, n, i, j);
        WholeWordsAreWords(s[n..], i - n, j - n);
      }
    }
  }

  /** `StringUtil.containsWordIgnoreCase(sentence, word)`. */
  predicate ContainsWordIgnoreCase(sentence: string, word: string) {
    var ws := Words(sentence);
    exists i :: 0 <= i < |ws| && EqualsIgnoreCase(ws[i], word)
  }

  /** The search matches exactly the whole words of the sentence, never a part of one. */
  lemma WholeWordMatch(sentence: string, word: string)
    ensures ContainsWordIgnoreCase(sentence, word) <==>
            exists i, j :: IsWordAt(sentence, i, j) && EqualsIgnoreCase(sentence[i..j], word)
  {
    var ws := Words(sentence);
    if ContainsWordIgnoreCase(sentence, word) {
      var k :| 0 <= k < |ws| && EqualsIgnoreCase(ws[k], word);
      WordsAreWholeWords(sentence, ws[k]);
    }
    if exists i, j :: IsWordAt(sentence, i, j) && EqualsIgnoreCase(sentence[i..j], word) {
      var i, j :| IsWordAt(sentence, i, j) && EqualsIgnoreCase(sentence[i..j], word);
      WholeWordsAreWords(sentence, i, j);
    }
  }

  /** Lower-casing every word. */
  function LowerAll(ws: seq<string>): (r: seq<string>)
    ensures |r| == |ws|
    ensures forall i :: 0 <= i < |ws| ==> r[i] == ToLower(ws[i])
  {
    seq(|ws|, i requires 0 <= i < |ws| => ToLower(ws[i]))
  }

  lemma {:induction false} WordLengthOfLower(s: string)
    ensures WordLength(ToLower(s)) == WordLength(s)
    decreases |s|
  {
    if s != [] && s[0] != ' ' {
      assert ToLower(s)[1..] == ToLower(s[1..]);
      WordLengthOfLower(s[1..]);
    }
  }

  /** Case folding commutes with splitting, because it maps spaces, and only spaces, to spaces. */
  lemma {:induction false} WordsOfLower(s: string)
    ensures Words(ToLower(s)) == LowerAll(Words(s))
    decreases |s|
  {
    var l := ToLower(s);
    if s == [] {
    } else if s[0] == ' ' {
      assert l[1..] == ToLower(s[1..]);
      WordsOfLower(s[1..]);
    } else {
      var n := WordLength(s);
      WordLengthOfLower(s);
      assert l[..n] == ToLower(s[..n]);
      assert l[n..] == ToLower(s[n..]);
      WordsOfLower(s[n..]);
    }
  }

  /** Changing the case of the sentence or of the word never changes the answer. */
  lemma ContainsWordIgnoresCase(s1: string, s2: string, w1: string, w2: string)
    requires ToLower(s1) == ToLower(s2) && ToLower(w1) == ToLower(w2)
    ensures ContainsWordIgnoreCase(s1, w1) == ContainsWordIgnoreCase(s2, w2)
  {
    WordsOfLower(s1);
    WordsOfLower(s2);
    var ws1, ws2 := Words(s1), Words(s2);
    assert LowerAll(ws1) == LowerAll(ws2);
    assert forall i :: 0 <= i < |ws1| ==> ToLower(ws1[i]) == LowerAll(ws1)[i];
  }
}
