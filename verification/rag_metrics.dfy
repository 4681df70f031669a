/** The quality and retrieval metrics of the RAG evaluation: answer
    normalisation, token F1, title recall/precision and span
    recall/precision against gold character spans. */
module RagMetrics {
  import opened Common
  import opened Text
  import opened Chunking

  // ---------------------------------------------------------------------
  // `_norm`
  // ---------------------------------------------------------------------

  /** `c.lower()` as far as it can produce a letter in [a-z]: ASCII
      capitals, and the two code points whose Unicode lower case is ASCII
      (KELVIN SIGN, and CAPITAL I WITH DOT ABOVE, which lowers to `i`
      followed by a combining dot). Other capitals, such as 'É', are kept
      as they are; `_norm` blanks them and their lower case alike. */
  function LowerChar(c: char): string
  {
    if 'A' <= c <= 'Z' then [(c as int + 32) as char]
    else if c == 'K' then "k"
    else if c == 'İ' then "i̇"
    else [c]
  }

  /** `s.lower()`, character by character, as far as `LowerChar` goes. */
  function Lower(s: string): string
  {
    if s == [] then [] else LowerChar(s[0]) + Lower(s[1..])
  }

  predicate IsAlnum(c: char)
  {
    'a' <= c <= 'z' || '0' <= c <= '9'
  }

  /** `re.sub(r"[^a-z0-9\s]", " ", s)`: every character outside lower-case
      ASCII letters, digits and whitespace becomes a space. */
  function Scrub(s: string): (r: string)
    ensures |r| == |s|
  {
    seq(|s|, i requires 0 <= i < |s| => if IsAlnum(s[i]) || IsSpace(s[i]) then s[i] else ' ')
  }

  /** Length of the leading run of whitespace. */
  function SpaceLen(s: string): (k: nat)
    ensures k <= |s|
    ensures forall i :: 0 <= i < k ==> IsSpace(s[i])
    ensures k < |s| ==> !IsSpace(s[k])
  {
    if s == [] || !IsSpace(s[0]) then 0 else 1 + SpaceLen(s[1..])
  }

  /** `re.sub(r"\s+", " ", s)`: every maximal run of whitespace becomes one
      space. */
  function Squeeze(s: string): string
    decreases |s|
  {
    if s == [] then []
    else if IsSpace(s[0]) then " " + Squeeze(s[SpaceLen(s)..])
    else var k := WordLen(s); s[..k] + Squeeze(s[k..])
  }

  function StripLeft(s: string): string
  {
    if s != [] && IsSpace(s[0]) then StripLeft(s[1..]) else s
  }

  function StripRight(s: string): string
  {
    if s != [] && IsSpace(s[|s| - 1]) then StripRight(s[..|s| - 1]) else s
  }

  /** `s.strip()` */
  function Strip(s: string): string
  {
    StripRight(StripLeft(s))
  }

  /** `_norm(s)`: lower-case, scrub, squeeze and strip. */
  function Norm(s: string): string
  {
    Strip(Squeeze(Scrub(Lower(s))))
  }

  /** Squeezing the whitespace runs and stripping the ends is splitting on
      whitespace and joining with single spaces. */
  lemma SqueezeStrip(s: string)
    ensures Strip(Squeeze(s)) == JoinSpace(Words(s))
  {
    if s != [] && IsSpace(s[0]) {
      var k := SpaceLen(s);
      WordsSkipSpaces(s, k);
      StripLeftSpace(Squeeze(s[k..]));
      if k < |s| {
        SqueezeStripWord(s[k..]);
      }
    } else {
      SqueezeStripWord(s);
    }
  }

  /** Leading whitespace contributes no word. */
  lemma {:induction false} WordsSkipSpaces(s: string, k: nat)
    requires k <= |s| && forall i :: 0 <= i < k ==> IsSpace(s[i])
    ensures Words(s) == Words(s[k..])
  {
    if k > 0 {
      WordsSkipSpaces(s[1..], k - 1);
      assert s[1..][k - 1..] == s[k..];
    }
  }

  lemma StripLeftSpace(t: string)
    ensures StripLeft(" " + t) == StripLeft(t)
  {
    assert (" " + t)[1..] == t;
  }

  /** For a text that starts with a word (or is empty), squeezing leaves no
      leading whitespace, and stripping the trailing space gives the
      single-spaced words. */
  lemma SqueezeStripWord(s: string)
    requires s == [] || !IsSpace(s[0])
    ensures StripLeft(Squeeze(s)) == Squeeze(s)
    ensures StripRight(Squeeze(s)) == JoinSpace(Words(s))
  {
    if s != [] {
      var k := WordLen(s);
      assert Squeeze(s) == s[..k] + Squeeze(s[k..]);
      assert Squeeze(s)[0] == s[0];
      SqueezeStripRight(s);
    }
  }

  lemma {:induction false} SqueezeStripRight(s: string)
    requires s == [] || !IsSpace(s[0])
    ensures StripRight(Squeeze(s)) == JoinSpace(Words(s))
    decreases |s|
  {
    if s != [] {
      var w, rest := SqueezeWord(s);
      if rest != [] {
        var rest2 := SqueezeSpaces(rest);
        if rest2 != [] {
          SqueezeStripRight(rest2);
        }
        SqueezeStripStep(w, Squeeze(rest), Squeeze(rest2), rest2);
      }
    }
  }

  /** A word, then whitespace, then a text that starts with a word (or
      nothing): stripping the right end of the squeezed text gives the
      single-spaced words. */
  lemma SqueezeStripStep(w: string, t: string, t2: string, rest2: string)
    requires IsWord(w) && t == " " + t2
    requires rest2 == [] ==> t2 == []
    requires rest2 != [] ==> !IsSpace(rest2[0]) && StripRight(t2) == JoinSpace(Words(rest2))
    ensures StripRight(w + t) == JoinSpace([w] + Words(rest2))
  {
    assert w + t == (w + " ") + t2;
    if rest2 == [] {
      assert (w + " ")[..|w + " "| - 1] == w;
    } else {
      SqueezeWordThenMore(w, t2, rest2);
    }
  }

  /** A text that starts with a word: the word, then the rest. */
  lemma SqueezeWord(s: string) returns (w: string, rest: string)
    requires s != [] && !IsSpace(s[0])
    ensures IsWord(w) && |rest| < |s| && (rest == [] || IsSpace(rest[0]))
    ensures Squeeze(s) == w + Squeeze(rest) && Words(s) == [w] + Words(rest)
  {
    var k := WordLen(s);
    w, rest := s[..k], s[k..];
  }

  /** A text that starts with whitespace: one space, then the rest. */
  lemma SqueezeSpaces(s: string) returns (rest: string)
    requires s != [] && IsSpace(s[0])
    ensures |rest| < |s| && (rest == [] || !IsSpace(rest[0]))
    ensures Squeeze(s) == " " + Squeeze(rest) && Words(s) == Words(rest)
  {
    var m := SpaceLen(s);
    rest := s[m..];
    WordsSkipSpaces(s, m);
  }

  /** One step of `SqueezeStripRight`: a word, a space, then the squeezed
      remainder that strips to its single-spaced words. */
  lemma SqueezeWordThenMore(w: string, t: string, rest2: string)
    requires IsWord(w) && rest2 != [] && !IsSpace(rest2[0])
    requires StripRight(t) == JoinSpace(Words(rest2))
    ensures StripRight((w + " ") + t) == JoinSpace([w] + Words(rest2))
  {
    WordsAreWords(rest2);
    assert Words(rest2) == [rest2[..WordLen(rest2)]] + Words(rest2[WordLen(rest2)..]);
    JoinSpaceEnds(Words(rest2));
    StripRightKeep(w + " ", t);
    assert ([w] + Words(rest2))[1..] == Words(rest2);
  }

  /** Stripping the right end of `a + b` touches only `b` when `b` does
      not strip to nothing. */
  lemma {:induction false} StripRightKeep(a: string, b: string)
    requires StripRight(b) != []
    ensures StripRight(a + b) == a + StripRight(b)
    decreases |b|
  {
    if IsSpace(b[|b| - 1]) {
      StripRightKeep(a, b[..|b| - 1]);
      assert (a + b)[..|a + b| - 1] == a + b[..|b| - 1];
    }
  }

  /** `_norm(s)` is `" ".join(s2.split())` for the lower-cased, scrubbed
      text `s2`: its tokens are the words of that text. */
  lemma NormIsJoinedWords(s: string)
    ensures Norm(s) == JoinSpace(Words(Scrub(Lower(s))))
    ensures Words(Norm(s)) == Words(Scrub(Lower(s)))
  {
    SqueezeStrip(Scrub(Lower(s)));
    WordsAreWords(Scrub(Lower(s)));
    WordsOfJoin(Words(Scrub(Lower(s))));
  }

  /** The normal form holds only lower-case ASCII letters, digits and
      single spaces, with no space at either end. */
  lemma NormShape(s: string)
    ensures forall i :: 0 <= i < |Norm(s)| ==> IsAlnum(Norm(s)[i]) || Norm(s)[i] == ' '
    ensures |Norm(s)| > 0 ==> Norm(s)[0] != ' ' && Norm(s)[|Norm(s)| - 1] != ' '
    ensures forall i :: 0 <= i < |Norm(s)| - 1 ==> !(Norm(s)[i] == ' ' && Norm(s)[i + 1] == ' ')
  {
    var t := Scrub(Lower(s));
    var ws := Words(t);
    NormIsJoinedWords(s);
    WordsAreWords(t);
    JoinSpaceSingleSpaced(ws);
    if ws != [] {
      JoinSpaceEnds(ws);
    }
    forall i | 0 <= i < |Norm(s)| ensures IsAlnum(Norm(s)[i]) || Norm(s)[i] == ' ' {
      JoinWordsChars(t, i);
    }
  }

  /** Every character of the joined words is a character of the text or
      a space. */
  lemma JoinWordsChars(t: string, i: nat)
    requires forall j :: 0 <= j < |t| ==> IsAlnum(t[j]) || IsSpace(t[j])
    requires i < |JoinSpace(Words(t))|
    ensures IsAlnum(JoinSpace(Words(t))[i]) || JoinSpace(Words(t))[i] == ' '
  {
    WordsAreWords(t);
    JoinSpaceSingleSpaced(Words(t));
    WordsChars(t);
    JoinChars(Words(t), i);
  }

  /** ... because every character of a word is a character of the text. */
  lemma {:induction false} WordsChars(t: string)
    ensures forall k, j :: 0 <= k < |Words(t)| && 0 <= j < |Words(t)[k]| ==> Words(t)[k][j] in t
    decreases |t|
  {
    if t != [] {
      if IsSpace(t[0]) {
        WordsChars(t[1..]);
      } else {
        var n := WordLen(t);
        WordsChars(t[n..]);
        assert Words(t) == [t[..n]] + Words(t[n..]);
        forall k, j | 0 <= k < |Words(t)| && 0 <= j < |Words(t)[k]| ensures Words(t)[k][j] in t {
          if k == 0 {
            assert Words(t)[k][j] == t[j];
          } else {
            assert Words(t)[k] == Words(t[n..])[k - 1];
            assert Words(t)[k][j] in t[n..];
          }
        }
      }
    }
  }

  /** ... and every character of a join is a character of a piece or a space. */
  lemma {:induction false} JoinChars(ws: seq<string>, i: nat)
    requires i < |JoinSpace(ws)|
    ensures JoinSpace(ws)[i] == ' ' || exists k, j :: 0 <= k < |ws| && 0 <= j < |ws[k]| && JoinSpace(ws)[i] == ws[k][j]
    decreases |ws|
  {
    if |ws| == 1 {
      assert JoinSpace(ws)[i] == ws[0][i];
    } else {
      var tail := JoinSpace(ws[1..]);
      assert JoinSpace(ws) == ws[0] + " " + tail;
      if i < |ws[0]| {
        assert JoinSpace(ws)[i] == ws[0][i];
      } else if i > |ws[0]| {
        var i' := i - |ws[0]| - 1;
        assert JoinSpace(ws)[i] == tail[i'];
        JoinChars(ws[1..], i');
        if tail[i'] != ' ' {
          var k, j :| 0 <= k < |ws[1..]| && 0 <= j < |ws[1..][k]| && tail[i'] == ws[1..][k][j];
          assert ws[1..][k] == ws[k + 1];
        }
      }
    }
  }

  /** Text that is already lower-case ASCII is left alone by `lower`. */
  lemma {:induction false} LowerKeeps(t: string)
    requires forall i :: 0 <= i < |t| ==> IsAlnum(t[i]) || t[i] == ' '
    ensures Lower(t) == t
  {
    if t != [] {
      LowerKeeps(t[1..]);
      assert t == [t[0]] + t[1..];
    }
  }

  /** `_norm` is idempotent: a normalised text is its own normal form. */
  lemma NormIdempotent(s: string)
    ensures Norm(Norm(s)) == Norm(s)
  {
    var t := Norm(s);
    NormShape(s);
    LowerKeeps(t);
    assert Scrub(t) == t;
    NormIsJoinedWords(t);
    NormIsJoinedWords(s);
    WordsAreWords(Scrub(Lower(s)));
    WordsOfJoin(Words(Scrub(Lower(s))));
  }

  // ---------------------------------------------------------------------
  // `token_f1`
  // ---------------------------------------------------------------------

  /** The tokens of an answer: `_norm(s).split()`. */
  function Tokens(s: string): seq<string>
  {
    Words(Norm(s))
  }

  /** The number of tokens two answers share, counted with multiplicity:
      the size of the multiset intersection. */
  function Shared(p: seq<string>, g: seq<string>): nat
  {
    |multiset(p) * multiset(g)|
  }

  /** Token F1 of two token lists, as `token_f1` defines it. */
  function F1(p: seq<string>, g: seq<string>): real
  {
    if |p| == 0 && |g| == 0 then 1.0
    else if |p| == 0 || |g| == 0 then 0.0
    else
      var common := Shared(p, g);
      if common == 0 then 0.0 else HarmonicF1(common, |p|, |g|)
  }

  /** `prec = common/len(p); rec = common/len(g); 2*prec*rec/(prec+rec)` */
  function HarmonicF1(common: nat, np: nat, ng: nat): real
    requires common > 0 && np > 0 && ng > 0
  {
    var prec := common as real / np as real;
    var rec := common as real / ng as real;
    assert prec > 0.0 && rec > 0.0;
    2.0 * prec * rec / (prec + rec)
  }

  /** `for t in ts: c[t] = c.get(t, 0) + 1`: the count of every token. */
  method CountTokens(ts: seq<string>) returns (c: OrderedMap<string, nat>)
    ensures c.Valid()
    ensures forall t :: t in c.entries <==> t in ts
    ensures forall t :: GetOr(c.entries, t, 0) == multiset(ts)[t]
  {
    c := EmptyOrderedMap();
    for i := 0 to |ts|
      invariant c.Valid()
      invariant forall t :: t in c.entries <==> t in ts[..i]
      invariant forall t :: GetOr(c.entries, t, 0) == multiset(ts[..i])[t]
    {
      assert ts[..i + 1] == ts[..i] + [ts[i]];
      c := c.Put(ts[i], GetOr(c.entries, ts[i], 0) + 1);
    }
    assert ts[..|ts|] == ts;
  }

  /** `sum(min(pc[t], gc.get(t, 0)) for t in keys)` over multiplicities. */
  ghost function SumMin(keys: seq<string>, a: multiset<string>, b: multiset<string>): nat
  {
    if keys == [] then 0
    else SumMin(keys[..|keys| - 1], a, b) + MinInt(a[keys[|keys| - 1]], b[keys[|keys| - 1]])
  }

  /** `token_f1(pred, gold)` */
  method TokenF1(pred: string, gold: string) returns (f: real)
    ensures f == F1(Tokens(pred), Tokens(gold))
  {
    f := TokenListF1(Tokens(pred), Tokens(gold));
  }

  /** The body of `token_f1` once both answers are split into tokens. */
  method TokenListF1(p: seq<string>, g: seq<string>) returns (f: real)
    ensures f == F1(p, g)
  {
    if |p| == 0 && |g| == 0 {
      return 1.0;
    }
    if |p| == 0 || |g| == 0 {
      return 0.0;
    }
    var pc := CountTokens(p);
    var gc := CountTokens(g);
    var common := 0;
    for k := 0 to |pc.keys|
      invariant common == SumMin(pc.keys[..k], multiset(p), multiset(g))
    {
      var t := pc.keys[k];
      assert t in pc.entries;
      assert pc.keys[..k + 1][..k] == pc.keys[..k];
      common := common + MinInt(pc.entries[t], GetOr(gc.entries, t, 0));
    }
    assert pc.keys[..|pc.keys|] == pc.keys;
    SumMinShared(pc.keys, multiset(p), multiset(g));
    if common == 0 {
      return 0.0;
    }
    f := HarmonicF1(common, |p|, |g|);
  }

  /** Summing the smaller multiplicity over every distinct token of `a`
      gives the size of the multiset intersection. */
  lemma {:induction false} SumMinShared(keys: seq<string>, a: multiset<string>, b: multiset<string>)
    requires Distinct(keys)
    requires forall x :: x in a ==> x in keys
    ensures SumMin(keys, a, b) == |a * b|
    decreases |keys|
  {
    if keys == [] {
      assert a * b == multiset{};
    } else {
      var n := |keys|;
      var k := keys[n - 1];
      var front := keys[..n - 1];
      var a' := a[k := 0];
      var m := MinInt(a[k], b[k]);
      forall x | x in a' ensures x in front {
        assert x in keys && x != k;
      }
      SumMinShared(front, a', b);
      SumMinAgree(front, a, a', b);
      assert a * b == a' * b + Copies(k, m);
      CopiesSize(k, m);
    }
  }

  /** `n` copies of `x`. */
  function Copies(x: string, n: nat): (m: multiset<string>)
    ensures m[x] == n && forall y :: y != x ==> m[y] == 0
  {
    multiset{}[x := n]
  }

  lemma {:induction false} CopiesSize(x: string, n: nat)
    ensures |Copies(x, n)| == n
  {
    if n > 0 {
      CopiesSize(x, n - 1);
      assert Copies(x, n) == Copies(x, n - 1) + multiset{x};
    }
  }

  lemma {:induction false} SumMinAgree(keys: seq<string>, a: multiset<string>, a': multiset<string>, b: multiset<string>)
    requires forall i :: 0 <= i < |keys| ==> a[keys[i]] == a'[keys[i]]
    ensures SumMin(keys, a, b) == SumMin(keys, a', b)
    decreases |keys|
  {
    if keys != [] {
      SumMinAgree(keys[..|keys| - 1], a, a', b);
    }
  }

  /** The harmonic mean of precision and recall is `2*common/(len(p)+len(g))`. */
  lemma HarmonicF1Closed(common: nat, np: nat, ng: nat)
    requires common > 0 && np > 0 && ng > 0
    ensures HarmonicF1(common, np, ng) == 2.0 * common as real / (np + ng) as real
  {
    var c, x, y := common as real, np as real, ng as real;
    var prec, rec := c / x, c / y;
    assert prec * x == c && rec * y == c;
    calc {
      2.0 * prec * rec / (prec + rec);
      { assert (prec + rec) * (x * y) == c * (x + y); }
      (2.0 * prec * rec * (x * y)) / (c * (x + y));
      { assert 2.0 * prec * rec * (x * y) == 2.0 * c * c; }
      (2.0 * c * c) / (c * (x + y));
      2.0 * c / (x + y);
    }
  }

  /** A multiset splits into what it shares with `b` and what it does not. */
  lemma SharedPart(a: multiset<string>, b: multiset<string>)
    ensures |a * b| + |a - b| == |a|
  {
    assert a == a * b + (a - b);
  }

  /** Token F1 lies in [0, 1]. */
  lemma F1Bounds(p: seq<string>, g: seq<string>)
    ensures 0.0 <= F1(p, g) <= 1.0
  {
    if |p| > 0 && |g| > 0 && Shared(p, g) > 0 {
      F1Closed(p, g);
      UnitRatio(2.0 * Shared(p, g) as real, (|p| + |g|) as real);
    }
  }

  /** With shared tokens, F1 is twice the shared count over the total
      count, and the shared count is at most either length. */
  lemma F1Closed(p: seq<string>, g: seq<string>)
    requires |p| > 0 && |g| > 0 && Shared(p, g) > 0
    ensures F1(p, g) == 2.0 * Shared(p, g) as real / (|p| + |g|) as real
    ensures Shared(p, g) <= |p| && Shared(p, g) <= |g|
  {
    HarmonicF1Closed(Shared(p, g), |p|, |g|);
    SharedPart(multiset(p), multiset(g));
    SharedPart(multiset(g), multiset(p));
    assert multiset(g) * multiset(p) == multiset(p) * multiset(g);
  }

  /** Token F1 does not care which side is the prediction. */
  lemma F1Symmetric(p: seq<string>, g: seq<string>)
    ensures F1(p, g) == F1(g, p)
  {
    assert multiset(g) * multiset(p) == multiset(p) * multiset(g);
    if |p| > 0 && |g| > 0 && Shared(p, g) > 0 {
      F1Closed(p, g);
      F1Closed(g, p);
    }
  }

  /** Two multisets that share all of both are equal. */
  lemma SharedAll(a: multiset<string>, b: multiset<string>)
    requires |a * b| == |a| && |a * b| == |b|
    ensures a == b
  {
    SharedPart(a, b);
    SharedPart(b, a);
    assert b * a == a * b;
    assert a - b == multiset{} && b - a == multiset{};
    assert a == a * b + (a - b);
    assert b == b * a + (b - a);
  }

  /** Token F1 is 1 exactly when the two answers hold the same tokens, each
      as often, in any order (both empty included). */
  lemma F1Perfect(p: seq<string>, g: seq<string>)
    ensures F1(p, g) == 1.0 <==> multiset(p) == multiset(g)
  {
    if multiset(p) == multiset(g) {
      F1SameTokens(p, g);
    } else if |p| > 0 && |g| > 0 && Shared(p, g) > 0 && F1(p, g) == 1.0 {
      F1OnlySameTokens(p, g);
    }
  }

  lemma F1SameTokens(p: seq<string>, g: seq<string>)
    requires multiset(p) == multiset(g)
    ensures F1(p, g) == 1.0
  {
    var a := multiset(p);
    assert a * a == a;
    assert |p| == |a| == |g|;
    if |p| > 0 {
      F1Closed(p, g);
      assert F1(p, g) == 2.0 * |p| as real / (|p| + |p|) as real;
    }
  }

  lemma F1OnlySameTokens(p: seq<string>, g: seq<string>)
    requires |p| > 0 && |g| > 0 && Shared(p, g) > 0
    requires F1(p, g) == 1.0
    ensures multiset(p) == multiset(g)
  {
    F1Closed(p, g);
    UnitRatio(2.0 * Shared(p, g) as real, (|p| + |g|) as real);
    SharedAll(multiset(p), multiset(g));
  }

  /** Answers that share no token score 0 unless both are empty. */
  lemma F1Disjoint(p: seq<string>, g: seq<string>)
    requires |p| > 0 || |g| > 0
    requires forall t :: t in p ==> t !in g
    ensures F1(p, g) == 0.0
  {
    forall t ensures (multiset(p) * multiset(g))[t] == 0 {
      if t in p {
        assert multiset(g)[t] == 0;
      }
    }
    assert multiset(p) * multiset(g) == multiset{};
  }

  lemma TokensOfWord(w: string)
    requires forall i :: 0 <= i < |w| ==> 'a' <= w[i] <= 'z'
    requires |w| > 0
    ensures Tokens(w) == [w]
  {
    NormIsJoinedWords(w);
    LowerKeeps(w);
    assert Scrub(w) == w;
    WordsOfWord(w, "");
    assert w + "" == w;
  }

  /** Two different single words score 0, as "latency" against "cost"
      does in the repository's unit test; an answer identical to the gold
      one scores 1 by `F1Perfect`. */
  lemma F1DifferentWords(w1: string, w2: string)
    requires |w1| > 0 && forall i :: 0 <= i < |w1| ==> 'a' <= w1[i] <= 'z'
    requires |w2| > 0 && forall i :: 0 <= i < |w2| ==> 'a' <= w2[i] <= 'z'
    requires w1 != w2
    ensures F1(Tokens(w1), Tokens(w2)) == 0.0
  {
    TokensOfWord(w1);
    TokensOfWord(w2);
    F1Disjoint([w1], [w2]);
  }

  // ---------------------------------------------------------------------
  // `retrieval_title_recall_precision`
  // ---------------------------------------------------------------------

  /** A retrieved item: its score and its chunk. */
  type Hit = (real, Chunk)

  /** `set(_norm(t) for t in ts)` */
  function NormSet(ts: seq<string>): set<string>
  {
    set i | 0 <= i < |ts| :: Norm(ts[i])
  }

  function GoldTitleSet(goldTitles: seq<string>): set<string>
  {
    NormSet(goldTitles)
  }

  /** The titles of the retrieved chunks, in order. */
  function Titles(retrieved: seq<Hit>): (ts: seq<string>)
    ensures |ts| == |retrieved| && forall i :: 0 <= i < |ts| ==> ts[i] == retrieved[i].1.title
  {
    seq(|retrieved|, i requires 0 <= i < |retrieved| => retrieved[i].1.title)
  }

  function RetrievedTitleSet(retrieved: seq<Hit>): set<string>
  {
    NormSet(Titles(retrieved))
  }

  /** `tp / max(1, n)` */
  function Ratio(tp: nat, n: nat): real
  {
    tp as real / MaxInt(1, n) as real
  }

  /** `retrieval_title_recall_precision(retrieved, gold_titles)`: (0, 0)
      without gold titles; otherwise the share of the normalised gold
      titles that were retrieved, and the share of the normalised retrieved
      titles that are gold. */
  function TitleRecallPrecision(retrieved: seq<Hit>, goldTitles: seq<string>): (r: (real, real))
    ensures goldTitles == [] ==> r == (0.0, 0.0)
    ensures 0.0 <= r.0 <= 1.0 && 0.0 <= r.1 <= 1.0
  {
    if goldTitles == [] then (0.0, 0.0)
    else
      var gt := GoldTitleSet(goldTitles);
      var got := RetrievedTitleSet(retrieved);
      var tp := |gt * got|;
      SetSharedPart(gt, got);
      SetSharedPart(got, gt);
      assert got * gt == gt * got;
      UnitRatio(tp as real, MaxInt(1, |gt|) as real);
      UnitRatio(tp as real, MaxInt(1, |got|) as real);
      (Ratio(tp, |gt|), Ratio(tp, |got|))
  }

  lemma SetSharedPart(a: set<string>, b: set<string>)
    ensures |a * b| + |a - b| == |a|
  {
    assert a == (a * b) + (a - b);
    assert (a * b) * (a - b) == {};
  }

  /** The share of `a` found in `b` is 1 exactly when all of `a` is in `b`. */
  lemma ShareAll(a: set<string>, b: set<string>)
    requires |a| > 0
    ensures Ratio(|a * b|, |a|) == 1.0 <==> a <= b
  {
    SetSharedPart(a, b);
    UnitRatio(|a * b| as real, |a| as real);
    if a <= b {
      assert a * b == a;
    } else {
      var x :| x in a && x !in b;
      assert x in a - b;
    }
  }

  /** Title recall is 1 exactly when every gold title was retrieved (up to
      normalisation). */
  lemma TitleRecallFull(retrieved: seq<Hit>, goldTitles: seq<string>)
    requires goldTitles != []
    ensures TitleRecallPrecision(retrieved, goldTitles).0 == 1.0
            <==> GoldTitleSet(goldTitles) <= RetrievedTitleSet(retrieved)
  {
    NormSetEmpty(goldTitles);
    ShareAll(GoldTitleSet(goldTitles), RetrievedTitleSet(retrieved));
  }

  /** Title precision is 1 exactly when something was retrieved and every
      retrieved title is a gold title. */
  lemma TitlePrecisionFull(retrieved: seq<Hit>, goldTitles: seq<string>)
    requires goldTitles != []
    ensures TitleRecallPrecision(retrieved, goldTitles).1 == 1.0
            <==> retrieved != [] && RetrievedTitleSet(retrieved) <= GoldTitleSet(goldTitles)
  {
    NormSetEmpty(Titles(retrieved));
    ShareAllOrNothing(RetrievedTitleSet(retrieved), GoldTitleSet(goldTitles), |retrieved|);
  }

  /** The share of `a` found in `b`, where `a` is empty exactly when
      `n` is 0, is 1 exactly when `n > 0` and all of `a` is in `b`. */
  lemma ShareAllOrNothing(a: set<string>, b: set<string>, n: nat)
    requires |a| == 0 <==> n == 0
    ensures Ratio(|b * a|, |a|) == 1.0 <==> n > 0 && a <= b
  {
    assert b * a == a * b;
    if n > 0 {
      ShareAll(a, b);
    }
  }

  lemma NormSetEmpty(ts: seq<string>)
    ensures |NormSet(ts)| == 0 <==> ts == []
  {
    if ts != [] {
      assert Norm(ts[0]) in NormSet(ts);
    }
  }

  // ---------------------------------------------------------------------
  // `_overlap` and `retrieval_span_recall_precision`
  // ---------------------------------------------------------------------

  /** `_overlap(a0, a1, b0, b1)`: the length of the common part of the
      half-open ranges [a0, a1) and [b0, b1), or 0. */
  function Overlap(a0: int, a1: int, b0: int, b1: int): (r: nat)
    ensures r <= MaxInt(0, a1 - a0) && r <= MaxInt(0, b1 - b0)
  {
    MaxInt(0, MinInt(a1, b1) - MaxInt(a0, b0))
  }

  lemma OverlapSymmetric(a0: int, a1: int, b0: int, b1: int)
    ensures Overlap(a0, a1, b0, b1) == Overlap(b0, b1, a0, a1)
  {
  }

  /** Two ranges overlap exactly when some position lies in both, so
      disjoint and merely touching ranges do not. */
  lemma OverlapPositive(a0: int, a1: int, b0: int, b1: int)
    ensures Overlap(a0, a1, b0, b1) > 0 <==> exists x :: InRange(x, a0, a1) && InRange(x, b0, b1)
  {
    if Overlap(a0, a1, b0, b1) > 0 {
      var x := MaxInt(a0, b0);
      assert InRange(x, a0, a1) && InRange(x, b0, b1);
    }
  }

  predicate InRange(x: int, lo: int, hi: int)
  {
    lo <= x < hi
  }

  /** A gold span: a character range of a source file. */
  datatype GoldSpan = GoldSpan(sourcePath: string, start: int, end: int)

  /** A chunk covers a gold span when it comes from the same file, carries
      character offsets, and its range overlaps the span. */
  predicate Covers(c: Chunk, gs: GoldSpan)
  {
    && c.sourcePath == Some(gs.sourcePath)
    && c.charStart.Some? && c.charEnd.Some?
    && Overlap(c.charStart.value, c.charEnd.value, gs.start, gs.end) > 0
  }

  predicate SpanFound(retrieved: seq<Hit>, gs: GoldSpan)
  {
    exists j :: 0 <= j < |retrieved| && Covers(retrieved[j].1, gs)
  }

  predicate ChunkRelevant(c: Chunk, goldSpans: seq<GoldSpan>)
  {
    exists i :: 0 <= i < |goldSpans| && Covers(c, goldSpans[i])
  }

  /** How many gold spans some retrieved chunk covers. */
  function FoundCount(retrieved: seq<Hit>, goldSpans: seq<GoldSpan>): (n: nat)
    ensures n <= |goldSpans|
  {
    if goldSpans == [] then 0
    else FoundCount(retrieved, goldSpans[..|goldSpans| - 1])
         + (if SpanFound(retrieved, goldSpans[|goldSpans| - 1]) then 1 else 0)
  }

  /** How many retrieved chunks cover some gold span. */
  function RelevantCount(retrieved: seq<Hit>, goldSpans: seq<GoldSpan>): (n: nat)
    ensures n <= |retrieved|
  {
    if retrieved == [] then 0
    else RelevantCount(retrieved[..|retrieved| - 1], goldSpans)
         + (if ChunkRelevant(retrieved[|retrieved| - 1].1, goldSpans) then 1 else 0)
  }

  /** Span recall and precision: (0, 0) without gold spans; otherwise the
      share of gold spans found and the share of retrieved chunks that
      cover a gold span. */
  function SpanScores(retrieved: seq<Hit>, goldSpans: seq<GoldSpan>): (r: (real, real))
    ensures goldSpans == [] ==> r == (0.0, 0.0)
    ensures 0.0 <= r.0 <= 1.0 && 0.0 <= r.1 <= 1.0
  {
    if goldSpans == [] then (0.0, 0.0)
    else
      var found := FoundCount(retrieved, goldSpans);
      var relevant := RelevantCount(retrieved, goldSpans);
      UnitRatio(found as real, MaxInt(1, |goldSpans|) as real);
      UnitRatio(relevant as real, MaxInt(1, |retrieved|) as real);
      (Ratio(found, |goldSpans|), Ratio(relevant, |retrieved|))
  }

  /** `retrieval_span_recall_precision(retrieved, gold_spans)` */
  method SpanRecallPrecision(retrieved: seq<Hit>, goldSpans: seq<GoldSpan>) returns (recall: real, prec: real)
    ensures (recall, prec) == SpanScores(retrieved, goldSpans)
  {
    if goldSpans == [] {
      return 0.0, 0.0;
    }
    var hits := 0;
    for i := 0 to |goldSpans|
      invariant hits == FoundCount(retrieved, goldSpans[..i])
    {
      var gs := goldSpans[i];
      var ok := false;
      for j := 0 to |retrieved|
        invariant !ok ==> forall j' :: 0 <= j' < j ==> !Covers(retrieved[j'].1, gs)
        invariant ok ==> SpanFound(retrieved, gs)
      {
        var c := retrieved[j].1;
        if c.sourcePath != Some(gs.sourcePath) {
          continue;
        }
        if c.charStart.None? || c.charEnd.None? {
          continue;
        }
        if Overlap(c.charStart.value, c.charEnd.value, gs.start, gs.end) > 0 {
          ok := true;
          break;
        }
      }
      assert goldSpans[..i + 1][..i] == goldSpans[..i];
      if ok {
        hits := hits + 1;
      }
    }
    assert goldSpans[..|goldSpans|] == goldSpans;
    recall := Ratio(hits, |goldSpans|);
    var good := 0;
    for k := 0 to |retrieved|
      invariant good == RelevantCount(retrieved[..k], goldSpans)
    {
      var c := retrieved[k].1;
      assert retrieved[..k + 1][..k] == retrieved[..k];
      if c.charStart.None? || c.charEnd.None? {
        continue;
      }
      var cpath := c.sourcePath;
      for i := 0 to |goldSpans|
        invariant forall i' :: 0 <= i' < i ==> !Covers(c, goldSpans[i'])
      {
        var gs := goldSpans[i];
        if Some(gs.sourcePath) != cpath {
          continue;
        }
        if Overlap(c.charStart.value, c.charEnd.value, gs.start, gs.end) > 0 {
          good := good + 1;
          break;
        }
      }
    }
    assert retrieved[..|retrieved|] == retrieved;
    prec := Ratio(good, |retrieved|);
  }

  lemma {:induction false} FoundCountAll(retrieved: seq<Hit>, goldSpans: seq<GoldSpan>)
    ensures FoundCount(retrieved, goldSpans) == |goldSpans|
            <==> forall i :: 0 <= i < |goldSpans| ==> SpanFound(retrieved, goldSpans[i])
    ensures FoundCount(retrieved, goldSpans) == 0
            <==> forall i :: 0 <= i < |goldSpans| ==> !SpanFound(retrieved, goldSpans[i])
    decreases |goldSpans|
  {
    if goldSpans != [] {
      var front := goldSpans[..|goldSpans| - 1];
      FoundCountAll(retrieved, front);
      assert forall i :: 0 <= i < |front| ==> front[i] == goldSpans[i];
    }
  }

  lemma {:induction false} RelevantCountAll(retrieved: seq<Hit>, goldSpans: seq<GoldSpan>)
    ensures RelevantCount(retrieved, goldSpans) == |retrieved|
            <==> forall k :: 0 <= k < |retrieved| ==> ChunkRelevant(retrieved[k].1, goldSpans)
    ensures RelevantCount(retrieved, goldSpans) == 0
            <==> forall k :: 0 <= k < |retrieved| ==> !ChunkRelevant(retrieved[k].1, goldSpans)
    decreases |retrieved|
  {
    if retrieved != [] {
      var front := retrieved[..|retrieved| - 1];
      RelevantCountAll(front, goldSpans);
      assert forall k :: 0 <= k < |front| ==> front[k] == retrieved[k];
    }
  }

  /** Span recall is 1 exactly when every gold span is covered by some
      retrieved chunk. */
  lemma SpanRecallFull(retrieved: seq<Hit>, goldSpans: seq<GoldSpan>)
    requires goldSpans != []
    ensures SpanScores(retrieved, goldSpans).0 == 1.0
            <==> forall i :: 0 <= i < |goldSpans| ==> SpanFound(retrieved, goldSpans[i])
  {
    FoundCountAll(retrieved, goldSpans);
    UnitRatio(FoundCount(retrieved, goldSpans) as real, |goldSpans| as real);
  }

  /** Span precision is 1 exactly when something was retrieved and every
      retrieved chunk covers some gold span. */
  lemma SpanPrecisionFull(retrieved: seq<Hit>, goldSpans: seq<GoldSpan>)
    requires goldSpans != []
    ensures SpanScores(retrieved, goldSpans).1 == 1.0
            <==> retrieved != [] && forall k :: 0 <= k < |retrieved| ==> ChunkRelevant(retrieved[k].1, goldSpans)
  {
    RelevantCountAll(retrieved, goldSpans);
    if retrieved != [] {
      UnitRatio(RelevantCount(retrieved, goldSpans) as real, |retrieved| as real);
    }
  }

  /** Chunks without character offsets never earn span credit: if no
      retrieved chunk carries both offsets (as with words-mode chunks),
      span recall and precision are both 0. */
  lemma SpanNeedsOffsets(retrieved: seq<Hit>, goldSpans: seq<GoldSpan>)
    requires forall k :: 0 <= k < |retrieved| ==> retrieved[k].1.charStart.None? || retrieved[k].1.charEnd.None?
    ensures SpanScores(retrieved, goldSpans) == (0.0, 0.0)
  {
    FoundCountAll(retrieved, goldSpans);
    RelevantCountAll(retrieved, goldSpans);
  }

  lemma NormCapital(c: char)
    requires 'A' <= c <= 'Z'
    ensures Norm([c]) == [(c as int + 32) as char]
  {
    var t := [(c as int + 32) as char];
    assert Lower([c]) == t;
    assert Scrub(t) == t;
    NormIsJoinedWords([c]);
    WordsOfWord(t, "");
    assert t + "" == t;
  }

  /** The title case of the repository's unit test, for any titles of
      that shape: retrieved titles "A" and "B" against gold titles "A" and
      "C" (distinct after normalisation, see `NormCapital`) give recall 0.5
      and precision 0.5. */
  lemma TitleHalfAndHalf(s1: real, c1: Chunk, s2: real, c2: Chunk, g1: string, g2: string)
    requires Norm(c1.title) == Norm(g1)
    requires Norm(c2.title) != Norm(g1) && Norm(c2.title) != Norm(g2) && Norm(g1) != Norm(g2)
    ensures TitleRecallPrecision([(s1, c1), (s2, c2)], [g1, g2]) == (0.5, 0.5)
  {
    TitleSetsOfTwo(s1, c1, s2, c2, g1, g2);
    HalfShared(Norm(g1), Norm(c2.title), Norm(g2));
  }

  lemma TitleSetsOfTwo(s1: real, c1: Chunk, s2: real, c2: Chunk, g1: string, g2: string)
    ensures GoldTitleSet([g1, g2]) == {Norm(g1), Norm(g2)}
    ensures RetrievedTitleSet([(s1, c1), (s2, c2)]) == {Norm(c1.title), Norm(c2.title)}
  {
    NormSetOfTwo(g1, g2);
    assert Titles([(s1, c1), (s2, c2)]) == [c1.title, c2.title];
    NormSetOfTwo(c1.title, c2.title);
  }

  lemma NormSetOfTwo(a: string, b: string)
    ensures NormSet([a, b]) == {Norm(a), Norm(b)}
  {
    var ts := [a, b];
    forall t | t in NormSet(ts) ensures t == Norm(a) || t == Norm(b) {
      var i :| 0 <= i < 2 && t == Norm(ts[i]);
    }
    assert Norm(ts[0]) == Norm(a) && Norm(ts[1]) == Norm(b);
  }

  lemma HalfShared(x: string, y: string, z: string)
    requires x != y && x != z && y != z
    ensures Ratio(|{x, z} * {x, y}|, |{x, z}|) == 0.5
    ensures Ratio(|{x, z} * {x, y}|, |{x, y}|) == 0.5
  {
    assert {x, z} * {x, y} == {x};
  }
}
