/** `expand(grid)`: one configuration per element of the Cartesian product
    of the grid's value lists, in `itertools.product` order. */
module Sweep {
  import opened Common

  /** The number of combinations: the product of the list lengths. */
  function ProdLen<V>(vals: seq<seq<V>>): nat
  {
    if vals == [] then 1 else |vals[0]| * ProdLen(vals[1..])
  }

  /** Every combination of `cs`, first behind `xs[0]`, then behind
      `xs[1]`, and so on. */
  function Prefixed<V>(xs: seq<V>, cs: seq<seq<V>>): seq<seq<V>>
  {
    if xs == [] then []
    else seq(|cs|, i requires 0 <= i < |cs| => [xs[0]] + cs[i]) + Prefixed(xs[1..], cs)
  }

  /** `itertools.product(*vals)`: the first list varies slowest, the last
      fastest. */
  function Product<V>(vals: seq<seq<V>>): seq<seq<V>>
  {
    if vals == [] then [[]] else Prefixed(vals[0], Product(vals[1..]))
  }

  /** The combination at position `a * |cs| + b` puts `xs[a]` in front of
      `cs[b]`. */
  lemma {:induction false} PrefixedIndex<V>(xs: seq<V>, cs: seq<seq<V>>, a: nat, b: nat)
    requires a < |xs| && b < |cs|
    ensures a * |cs| + b < |Prefixed(xs, cs)|
    ensures Prefixed(xs, cs)[a * |cs| + b] == [xs[a]] + cs[b]
  {
    var front := seq(|cs|, i requires 0 <= i < |cs| => [xs[0]] + cs[i]);
    assert Prefixed(xs, cs) == front + Prefixed(xs[1..], cs);
    if a == 0 {
      assert a * |cs| == 0;
    } else {
      PrefixedIndex(xs[1..], cs, a - 1, b);
      MulSucc(a - 1, |cs|);
      assert xs[1..][a - 1] == xs[a];
    }
  }

  /** `(a + 1) * c == a * c + c` */
  lemma MulSucc(a: nat, c: nat)
    ensures (a + 1) * c == a * c + c
  {
  }

  lemma MulAssoc(x: nat, p: nat, q: nat)
    ensures x * (p * q) == (x * p) * q
  {
  }

  /** `a <= b` gives `a * c <= b * c`. */
  lemma MulMono(a: nat, b: nat, c: nat)
    requires a <= b
    ensures a * c <= b * c
  {
  }

  /** A position below `m * l` splits into a block `a < m` and an offset
      `b < l`. */
  lemma SplitIndex(idx: nat, l: nat, m: nat) returns (a: nat, b: nat)
    requires idx < m * l
    ensures a < m && b < l && idx == a * l + b
  {
    a, b := idx / l, idx % l;
    if a >= m {
      MulMono(m, a, l);
    }
  }

  lemma {:induction false} PrefixedLength<V>(xs: seq<V>, cs: seq<seq<V>>)
    ensures |Prefixed(xs, cs)| == |xs| * |cs|
  {
    if xs != [] {
      PrefixedLength(xs[1..], cs);
      assert |xs| * |cs| == |cs| + (|xs| - 1) * |cs|;
    }
  }

  /** As many combinations as the product of the list lengths. */
  lemma {:induction false} ProductLength<V>(vals: seq<seq<V>>)
    ensures |Product(vals)| == ProdLen(vals)
  {
    if vals != [] {
      ProductLength(vals[1..]);
      PrefixedLength(vals[0], Product(vals[1..]));
    }
  }

  /** `c` takes one value from each list, in order. */
  predicate Choice<V(==)>(vals: seq<seq<V>>, c: seq<V>)
  {
    |c| == |vals| && forall i :: 0 <= i < |c| ==> c[i] in vals[i]
  }

  /** The combinations are exactly the choices of one value per list. */
  lemma {:induction false} ProductMembers<V>(vals: seq<seq<V>>, c: seq<V>)
    ensures c in Product(vals) <==> Choice(vals, c)
  {
    if vals == [] {
      assert Product(vals) == [[]];
    } else {
      var rest := Product(vals[1..]);
      PrefixedMembers(vals[0], rest, c);
      if c != [] {
        ProductMembers(vals[1..], c[1..]);
        ChoiceCons(vals, c);
      }
    }
  }

  /** A combination behind a prefix: the prefix is one of `xs` and the
      remainder one of `cs`. */
  lemma {:induction false} PrefixedMembers<V>(xs: seq<V>, cs: seq<seq<V>>, y: seq<V>)
    ensures y in Prefixed(xs, cs) <==> y != [] && y[0] in xs && y[1..] in cs
  {
    if xs != [] {
      var front := seq(|cs|, i requires 0 <= i < |cs| => [xs[0]] + cs[i]);
      assert Prefixed(xs, cs) == front + Prefixed(xs[1..], cs);
      PrefixedMembers(xs[1..], cs, y);
      if y in front {
        var i :| 0 <= i < |cs| && front[i] == y;
        assert y[1..] == cs[i];
      }
      if y != [] && y[0] == xs[0] && y[1..] in cs {
        var i :| 0 <= i < |cs| && cs[i] == y[1..];
        assert front[i] == y;
      }
      assert y != [] && y[0] in xs ==> y[0] == xs[0] || y[0] in xs[1..];
    }
  }

  /** A choice from all lists is a value of the first list in front of a
      choice from the others. */
  lemma ChoiceCons<V>(vals: seq<seq<V>>, c: seq<V>)
    requires vals != [] && c != []
    ensures Choice(vals, c) <==> c[0] in vals[0] && Choice(vals[1..], c[1..])
  {
    if c[0] in vals[0] && Choice(vals[1..], c[1..]) {
      forall i | 0 <= i < |c| ensures c[i] in vals[i] {
        if i > 0 {
          assert c[i] == c[1..][i - 1] && vals[1..][i - 1] == vals[i];
        }
      }
    }
    if Choice(vals, c) {
      forall i | 0 <= i < |c| - 1 ensures c[1..][i] in vals[1..][i] {
        assert c[1..][i] == c[i + 1];
      }
    }
  }

  /** Any empty list leaves no combination at all. */
  lemma {:induction false} ProductEmptyList<V>(vals: seq<seq<V>>, i: nat)
    requires i < |vals| && vals[i] == []
    ensures Product(vals) == []
  {
    ProductLength(vals);
    ProdLenZero(vals, i);
  }

  lemma {:induction false} ProdLenZero<V>(vals: seq<seq<V>>, i: nat)
    requires i < |vals| && vals[i] == []
    ensures ProdLen(vals) == 0
  {
    if i > 0 {
      ProdLenZero(vals[1..], i - 1);
    }
  }

  /** The number of combinations of the lists from `i` on splits off the
      length of list `i`. */
  lemma {:induction false} ProdLenSplit<V>(vals: seq<seq<V>>, j: nat)
    requires j <= |vals|
    ensures ProdLen(vals) == ProdLen(vals[..j]) * ProdLen(vals[j..])
  {
    if j > 0 {
      var rest := vals[1..];
      ProdLenSplit(rest, j - 1);
      assert vals[..j][0] == vals[0] && vals[..j][1..] == rest[..j - 1];
      assert rest[j - 1..] == vals[j..];
      MulAssoc(|vals[0]|, ProdLen(rest[..j - 1]), ProdLen(vals[j..]));
    } else {
      assert vals[j..] == vals;
    }
  }

  /** Adding whole multiples of `r` moves the quotient by `r` and keeps
      the remainder. */
  lemma DivAdd(x: nat, y: nat, r: nat)
    requires r > 0
    ensures (x * r + y) / r == x + y / r
    ensures (x * r + y) % r == y % r
  {
    var q, s := y / r, y % r;
    var xr, qr := x * r, q * r;
    assert (x + q) * r == xr + qr;
    DivUnique(x * r + y, r, x + q, s);
  }

  /** Quotient and remainder are unique. */
  lemma DivUnique(n: nat, r: nat, q: nat, s: nat)
    requires r > 0 && s < r && n == q * r + s
    ensures n / r == q && n % r == s
  {
    var q', s' := n / r, n % r;
    if q' < q {
      MulMono(q' + 1, q, r);
      MulSucc(q', r);
    } else if q' > q {
      MulMono(q + 1, q', r);
      MulSucc(q, r);
    }
  }

  /** Digit `i` of `a * (q * (m * r)) + b` is the digit of `b`. */
  lemma DigitShift(a: nat, q: nat, m: nat, r: nat, b: nat)
    requires m > 0 && r > 0
    ensures ((a * (q * (m * r)) + b) / r) % m == (b / r) % m
  {
    var x := a * q * m;
    assert a * (q * (m * r)) == x * r;
    DivAdd(x, b, r);
    assert x == (a * q) * m;
    DivAdd(a * q, b / r, m);
  }

  /** Digit `i` of position `idx` when positions are written in the mixed
      radix of the list lengths: the index, in list `i`, of the value the
      combination at `idx` takes. */
  function Digit<V>(vals: seq<seq<V>>, idx: nat, i: nat): nat
    requires i < |vals| && |vals[i]| > 0 && ProdLen(vals[i + 1..]) > 0
  {
    (idx / ProdLen(vals[i + 1..])) % |vals[i]|
  }

  /** The combination at `idx` takes, from each list `i`, the value at
      digit `i` of `idx`: positions count up in the mixed radix of the
      list lengths, the last list varying fastest. */
  lemma {:induction false} ProductDigits<V>(vals: seq<seq<V>>, idx: nat, i: nat)
    requires idx < ProdLen(vals) && i < |vals|
    ensures |vals[i]| > 0 && ProdLen(vals[i + 1..]) > 0
    ensures |Product(vals)| == ProdLen(vals)
    ensures |Product(vals)[idx]| == |vals| && Product(vals)[idx][i] == vals[i][Digit(vals, idx, i)]
  {
    ProductLength(vals);
    ProductShape(vals, idx);
    var rest := Product(vals[1..]);
    var l := ProdLen(vals[1..]);
    ProductLength(vals[1..]);
    var a, b := SplitIndex(idx, l, |vals[0]|);
    PrefixedIndex(vals[0], rest, a, b);
    assert Product(vals)[idx] == [vals[0][a]] + rest[b];
    if i == 0 {
      DivUnique(idx, l, a, b);
      DivUnique(a, |vals[0]|, 0, a);
    } else {
      ProductDigits(vals[1..], b, i - 1);
      assert vals[1..][i - 1] == vals[i] && vals[1..][i - 1 + 1..] == vals[i + 1..];
      var m, r := |vals[i]|, ProdLen(vals[i + 1..]);
      var q := ProdLen(vals[1..][..i - 1]);
      ProdLenSplit(vals[1..], i - 1);
      assert vals[1..][i - 1..] == [vals[i]] + vals[i + 1..];
      assert l == q * (m * r);
      DigitShift(a, q, m, r, b);
    }
  }

  /** Every combination takes one value per list. */
  lemma ProductShape<V>(vals: seq<seq<V>>, idx: nat)
    requires idx < |Product(vals)|
    ensures |Product(vals)[idx]| == |vals|
  {
    assert Product(vals)[idx] in Product(vals);
    ProductMembers(vals, Product(vals)[idx]);
  }

  /** The value lists of a grid, in key order. */
  function GridValues<V>(grid: OrderedMap<string, seq<V>>): (vals: seq<seq<V>>)
    requires grid.Valid()
    ensures |vals| == |grid.keys|
  {
    seq(|grid.keys|, i requires 0 <= i < |grid.keys| => grid.entries[grid.keys[i]])
  }

  /** `dict(zip(keys, combo))` */
  function Zip<V>(keys: seq<string>, combo: seq<V>): OrderedMap<string, V>
    requires Distinct(keys) && |combo| == |keys|
  {
    OrderedMap(keys, map i | 0 <= i < |keys| :: keys[i] := combo[i])
  }

  /** `list(expand(grid))` */
  function Expand<V(==)>(grid: OrderedMap<string, seq<V>>): seq<OrderedMap<string, V>>
    requires grid.Valid()
  {
    var combos := Product(GridValues(grid));
    seq(|combos|, n requires 0 <= n < |combos| =>
      ProductShape(GridValues(grid), n);
      Zip(grid.keys, combos[n]))
  }

  /** `expand` yields as many configurations as the product of the list
      lengths; an empty grid yields one empty configuration, and an empty
      list yields none. */
  lemma ExpandCount<V>(grid: OrderedMap<string, seq<V>>)
    requires grid.Valid()
    ensures |Expand(grid)| == ProdLen(GridValues(grid))
    ensures grid.keys == [] ==> |Expand(grid)| == 1 && Expand(grid)[0].keys == [] && Expand(grid)[0].entries == map[]
    ensures (exists k :: k in grid.entries && grid.entries[k] == []) ==> Expand(grid) == []
  {
    ProductLength(GridValues(grid));
    if k :| k in grid.entries && grid.entries[k] == [] {
      assert k in grid.keys;
      var i :| 0 <= i < |grid.keys| && grid.keys[i] == k;
      ProductEmptyList(GridValues(grid), i);
    }
  }

  /** `dict(zip(keys, combo))` has the keys in order, each with its value. */
  lemma ZipEntries<V>(keys: seq<string>, combo: seq<V>)
    requires Distinct(keys) && |combo| == |keys|
    ensures Zip(keys, combo).keys == keys
    ensures forall k :: k in Zip(keys, combo).entries <==> k in keys
    ensures forall i :: 0 <= i < |keys| ==> Zip(keys, combo).entries[keys[i]] == combo[i]
  {
    forall k | k in keys ensures k in Zip(keys, combo).entries {
      var i :| 0 <= i < |keys| && keys[i] == k;
    }
  }

  /** A configuration that `expand` yields. */
  predicate Configuration<V(==)>(grid: OrderedMap<string, seq<V>>, cfg: OrderedMap<string, V>)
  {
    && cfg.keys == grid.keys && cfg.entries.Keys == grid.entries.Keys
    && forall k :: k in cfg.entries ==> cfg.entries[k] in grid.entries[k]
  }

  /** Every configuration has exactly the grid's keys, in the grid's order,
      each mapped to a value from that key's list. */
  lemma ExpandSound<V>(grid: OrderedMap<string, seq<V>>, n: nat)
    requires grid.Valid() && n < |Expand(grid)|
    ensures Configuration(grid, Expand(grid)[n])
  {
    var vals := GridValues(grid);
    var c := Product(vals)[n];
    ProductShape(vals, n);
    ProductMembers(vals, c);
    ZipEntries(grid.keys, c);
    var cfg := Expand(grid)[n];
    forall k | k in cfg.entries ensures cfg.entries[k] in grid.entries[k] {
      var i :| 0 <= i < |grid.keys| && grid.keys[i] == k;
      assert cfg.entries[k] == c[i];
    }
  }

  /** Every such configuration is yielded. */
  lemma ExpandComplete<V>(grid: OrderedMap<string, seq<V>>, cfg: OrderedMap<string, V>)
    requires grid.Valid() && Configuration(grid, cfg)
    ensures cfg in Expand(grid)
  {
    var vals := GridValues(grid);
    var c := ConfigValues(grid, cfg);
    ConfigChoice(grid, cfg);
    ConfigZip(grid, cfg);
    ProductMembers(vals, c);
    var n :| 0 <= n < |Product(vals)| && Product(vals)[n] == c;
    assert Expand(grid)[n] == Zip(grid.keys, c);
  }

  /** The values of a configuration, in key order. */
  function ConfigValues<V(==)>(grid: OrderedMap<string, seq<V>>, cfg: OrderedMap<string, V>): (c: seq<V>)
    requires grid.Valid() && Configuration(grid, cfg)
    ensures |c| == |grid.keys|
  {
    seq(|grid.keys|, i requires 0 <= i < |grid.keys| => cfg.entries[grid.keys[i]])
  }

  lemma ConfigChoice<V>(grid: OrderedMap<string, seq<V>>, cfg: OrderedMap<string, V>)
    requires grid.Valid() && Configuration(grid, cfg)
    ensures Choice(GridValues(grid), ConfigValues(grid, cfg))
  {
  }

  lemma ConfigZip<V>(grid: OrderedMap<string, seq<V>>, cfg: OrderedMap<string, V>)
    requires grid.Valid() && Configuration(grid, cfg)
    ensures Zip(grid.keys, ConfigValues(grid, cfg)) == cfg
  {
    var z := Zip(grid.keys, ConfigValues(grid, cfg));
    ConfigZipEntries(grid, cfg);
    assert z.entries == cfg.entries;
  }

  lemma ConfigZipEntries<V>(grid: OrderedMap<string, seq<V>>, cfg: OrderedMap<string, V>)
    requires grid.Valid() && Configuration(grid, cfg)
    ensures Zip(grid.keys, ConfigValues(grid, cfg)).keys == cfg.keys
    ensures Zip(grid.keys, ConfigValues(grid, cfg)).entries.Keys == cfg.entries.Keys
    ensures forall k :: k in cfg.entries ==> Zip(grid.keys, ConfigValues(grid, cfg)).entries[k] == cfg.entries[k]
  {
    var keys := grid.keys;
    var c := ConfigValues(grid, cfg);
    ZipEntries(keys, c);
    forall k | k in cfg.entries ensures Zip(keys, c).entries[k] == cfg.entries[k] {
      var i :| 0 <= i < |keys| && keys[i] == k;
    }
  }

  /** The configuration at position `n` takes, for key `i`, the value at
      digit `i` of `n` in the mixed radix of the list lengths: the order of
      `itertools.product`, the last key varying fastest. */
  lemma ExpandOrder<V>(grid: OrderedMap<string, seq<V>>, n: nat, i: nat)
    requires grid.Valid() && n < |Expand(grid)| && i < |grid.keys|
    ensures var vals := GridValues(grid);
      && |vals[i]| > 0 && ProdLen(vals[i + 1..]) > 0
      && Expand(grid)[n].entries[grid.keys[i]] == vals[i][Digit(vals, n, i)]
  {
    var vals := GridValues(grid);
    ProductLength(vals);
    ProductDigits(vals, n, i);
  }
}
