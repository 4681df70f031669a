/** Python's whitespace handling on `str`: `str.isspace`, `str.split()`
    with no separator, and `" ".join`. */
module Text {

  /** The code points for which `str.isspace()` holds (and which `\s`
      matches in a `str` regular expression). */
  predicate IsSpace(c: char)
  {
    || c == ' ' || c == '\t' || c == '\n' || c == '\r' || c == '\U{0B}' || c == '\U{0C}'
    || ('\U{1C}' <= c <= '\U{1F}') || c == '\U{85}' || c == '\U{A0}' || c == '\U{1680}'
    || ('\U{2000}' <= c <= '\U{200A}') || c == '\U{2028}' || c == '\U{2029}' || c == '\U{202F}'
    || c == '\U{205F}' || c == '\U{3000}'
  }

  /** A word of `str.split()`: non-empty and free of whitespace. */
  predicate IsWord(w: string)
  {
    |w| > 0 && forall i :: 0 <= i < |w| ==> !IsSpace(w[i])
  }

  /** Length of the leading run of non-whitespace characters. */
  function WordLen(s: string): (k: nat)
    ensures k <= |s|
    ensures forall i :: 0 <= i < k ==> !IsSpace(s[i])
    ensures k < |s| ==> IsSpace(s[k])
  {
    if s == [] || IsSpace(s[0]) then 0 else 1 + WordLen(s[1..])
  }

  /** `s.split()`: the maximal runs of non-whitespace characters, in order. */
  function Words(s: string): seq<string>
    decreases |s|
  {
    if s == [] then []
    else if IsSpace(s[0]) then Words(s[1..])
    else
      var k := WordLen(s);
      [s[..k]] + Words(s[k..])
  }

  /** Every piece of `s.split()` is a word. */
  lemma {:induction false} WordsAreWords(s: string)
    ensures forall i :: 0 <= i < |Words(s)| ==> IsWord(Words(s)[i])
    decreases |s|
  {
    if s != [] {
      if IsSpace(s[0]) {
        WordsAreWords(s[1..]);
      } else {
        var k := WordLen(s);
        WordsAreWords(s[k..]);
        assert Words(s) == [s[..k]] + Words(s[k..]);
      }
    }
  }

  /** `" ".join(ws)` */
  function JoinSpace(ws: seq<string>): string
  {
    if ws == [] then "" else if |ws| == 1 then ws[0] else ws[0] + " " + JoinSpace(ws[1..])
  }

  /** Joining words with single spaces and splitting again gives the words
      back. */
  lemma {:induction false} WordsOfJoin(ws: seq<string>)
    requires forall i :: 0 <= i < |ws| ==> IsWord(ws[i])
    ensures Words(JoinSpace(ws)) == ws
  {
    if |ws| == 1 {
      WordsOfWord(ws[0], "");
      assert ws[0] + "" == ws[0];
    } else if |ws| > 1 {
      var rest := " " + JoinSpace(ws[1..]);
      assert JoinSpace(ws) == ws[0] + rest;
      WordsOfWord(ws[0], rest);
      assert rest[1..] == JoinSpace(ws[1..]);
      WordsOfJoin(ws[1..]);
      assert Words(rest) == Words(JoinSpace(ws[1..]));
    }
  }

  /** A non-empty run of the words of a text, joined by single spaces, is
      a non-empty string that splits back into that run. */
  lemma JoinSpaceRun(s: string, lo: nat, hi: nat)
    requires lo < hi <= |Words(s)|
    ensures |JoinSpace(Words(s)[lo..hi])| > 0
    ensures Words(JoinSpace(Words(s)[lo..hi])) == Words(s)[lo..hi]
  {
    var run := Words(s)[lo..hi];
    WordsAreWords(s);
    assert forall i :: 0 <= i < |run| ==> run[i] == Words(s)[lo + i];
    WordsOfJoin(run);
    JoinSpaceEnds(run);
  }

  /** A word followed by nothing or by whitespace splits off as one word. */
  lemma WordsOfWord(w: string, rest: string)
    requires IsWord(w)
    requires rest == [] || IsSpace(rest[0])
    ensures Words(w + rest) == [w] + Words(rest)
  {
    WordLenOfWord(w, rest);
    assert (w + rest)[..|w|] == w;
    assert (w + rest)[|w|..] == rest;
  }

  lemma {:induction false} WordLenOfWord(w: string, rest: string)
    requires forall i :: 0 <= i < |w| ==> !IsSpace(w[i])
    requires rest == [] || IsSpace(rest[0])
    ensures WordLen(w + rest) == |w|
  {
    if w != [] {
      assert (w + rest)[1..] == w[1..] + rest;
      WordLenOfWord(w[1..], rest);
    } else {
      assert w + rest == rest;
    }
  }

  /** A non-empty join of words starts and ends with a non-whitespace
      character. */
  lemma {:induction false} JoinSpaceEnds(ws: seq<string>)
    requires |ws| > 0 && forall i :: 0 <= i < |ws| ==> IsWord(ws[i])
    ensures |JoinSpace(ws)| > 0
    ensures !IsSpace(JoinSpace(ws)[0]) && !IsSpace(JoinSpace(ws)[|JoinSpace(ws)| - 1])
  {
    if |ws| > 1 {
      JoinSpaceEnds(ws[1..]);
      var tail := JoinSpace(ws[1..]);
      assert JoinSpace(ws) == ws[0] + " " + tail;
      assert JoinSpace(ws)[|JoinSpace(ws)| - 1] == tail[|tail| - 1];
    }
  }

  /** The output of `" ".join` over words holds no two whitespace characters
      in a row, and its only whitespace is the plain space. */
  lemma {:induction false} JoinSpaceSingleSpaced(ws: seq<string>)
    requires forall i :: 0 <= i < |ws| ==> IsWord(ws[i])
    ensures forall i :: 0 <= i < |JoinSpace(ws)| && IsSpace(JoinSpace(ws)[i]) ==> JoinSpace(ws)[i] == ' '
    ensures forall i :: 0 <= i < |JoinSpace(ws)| - 1 ==> !(IsSpace(JoinSpace(ws)[i]) && IsSpace(JoinSpace(ws)[i + 1]))
  {
    if |ws| > 1 {
      JoinSpaceSingleSpaced(ws[1..]);
      JoinSpaceEnds(ws[1..]);
      var w := ws[0];
      var tail := JoinSpace(ws[1..]);
      var s := w + " " + tail;
      assert JoinSpace(ws) == s;
      forall i | 0 <= i < |s| && IsSpace(s[i]) ensures s[i] == ' ' {
        if i > |w| { assert s[i] == tail[i - |w| - 1]; }
      }
      forall i | 0 <= i < |s| - 1 ensures !(IsSpace(s[i]) && IsSpace(s[i + 1])) {
        if i < |w| - 1 {
        } else if i == |w| - 1 {
        } else if i == |w| {
          assert s[i + 1] == tail[0];
        } else {
          assert s[i] == tail[i - |w| - 1] && s[i + 1] == tail[i - |w|];
        }
      }
    }
  }
}
