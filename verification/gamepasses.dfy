/**
 * The gamepass catalogue and `buildGamepasses`: the greedy breakdown of a
 * Robux total into gamepasses, largest first.
 */
module Gamepasses {

  import opened Numerals

  /** One purchasable gamepass: its size in Robux and the link to buy it. */
  datatype Gamepass = Gamepass(robux: nat, url: string)

  /** The twelve gamepasses on sale, in the order they are listed. */
  const Catalogue: seq<Gamepass> := [
    Gamepass(50, "https://www.roblox.com/game-pass/678549030/"),
    Gamepass(100, "https://www.roblox.com/game-pass/678099847/"),
    Gamepass(150, "https://www.roblox.com/game-pass/1647150838/150"),
    Gamepass(200, "https://www.roblox.com/game-pass/1535869478/"),
    Gamepass(300, "https://www.roblox.com/game-pass/1536936054/"),
    Gamepass(400, "https://www.roblox.com/game-pass/1537173869/"),
    Gamepass(500, "https://www.roblox.com/game-pass/678482231/"),
    Gamepass(600, "https://www.roblox.com/game-pass/1536758039/"),
    Gamepass(700, "https://www.roblox.com/game-pass/1535869486/"),
    Gamepass(800, "https://www.roblox.com/game-pass/1535265655/"),
    Gamepass(900, "https://www.roblox.com/game-pass/1537281898/"),
    Gamepass(1000, "https://www.roblox.com/game-pass/678189829/")
  ]

  /** The smallest gamepass, which is also the step of every Robux quote. */
  const MinUnit: nat := 50

  predicate NonIncreasing(s: seq<Gamepass>) {
    forall i, j :: 0 <= i < j < |s| ==> s[i].robux >= s[j].robux
  }

  /** Every gamepass has a positive size that is a multiple of the smallest one. */
  predicate WholeUnits(s: seq<Gamepass>) {
    forall i :: 0 <= i < |s| ==> s[i].robux >= MinUnit && s[i].robux % MinUnit == 0
  }

  lemma CatalogueWholeUnits()
    ensures WholeUnits(Catalogue) && Catalogue[0].robux == MinUnit
  {
  }

  /** Insertion of `x` into a list sorted by descending size, ahead of the entries of equal size. */
  function Insert(x: Gamepass, s: seq<Gamepass>): (r: seq<Gamepass>)
    ensures |r| == |s| + 1
  {
    if s == [] || x.robux >= s[0].robux then [x] + s else [s[0]] + Insert(x, s[1..])
  }


  /** Insertion adds exactly `x`. */
  lemma {:induction false} InsertPermutes(x: Gamepass, s: seq<Gamepass>)
    ensures multiset(Insert(x, s)) == multiset(s) + multiset{x}
  {
    if s != [] && x.robux < s[0].robux {
      InsertPermutes(x, s[1..]);
      assert s == [s[0]] + s[1..];
    }
  }

  /** Insertion keeps every size under a bound that `x` and the list respect. */
  lemma {:induction false} InsertBounded(x: Gamepass, s: seq<Gamepass>, bound: nat)
    requires x.robux <= bound
    requires forall j :: 0 <= j < |s| ==> s[j].robux <= bound
    ensures forall j :: 0 <= j < |Insert(x, s)| ==> Insert(x, s)[j].robux <= bound
  {
    if s != [] && x.robux < s[0].robux {
      InsertBounded(x, s[1..], bound);
    }
  }

  /** Insertion into a list sorted by descending size keeps it sorted. */
  lemma {:induction false} InsertSorted(x: Gamepass, s: seq<Gamepass>)
    requires NonIncreasing(s)
    ensures NonIncreasing(Insert(x, s))
  {
    if s != [] && x.robux < s[0].robux {
      var head, rest := s[0], s[1..];
      var tail := Insert(x, rest);
      InsertSorted(x, rest);
      InsertBounded(x, rest, head.robux);
      var r := [head] + tail;
      assert Insert(x, s) == r;
      forall i, j | 0 <= i < j < |r| ensures r[i].robux >= r[j].robux {
        assert r[j] == tail[j - 1];
        if i > 0 {
          assert r[i] == tail[i - 1];
        }
      }
    }
  }

  /**
   * `[...gamepasses].sort((a, b) => b.robux - a.robux)`: a stable sort by
   * descending size (a stable sort's result is determined by the comparator).
   * It keeps the number of entries; `SortSorted` proves order and permutation.
   */
  function SortByRobuxDescending(s: seq<Gamepass>): (r: seq<Gamepass>)
    ensures |r| == |s|
  {
    if s == [] then []
    else
      Insert(s[0], SortByRobuxDescending(s[1..]))
  }

  /** The sort orders by descending size and is a permutation of its input. */
  lemma {:induction false} SortSorted(s: seq<Gamepass>)
    ensures NonIncreasing(SortByRobuxDescending(s))
    ensures multiset(SortByRobuxDescending(s)) == multiset(s)
  {
    if s != [] {
      SortSorted(s[1..]);
      InsertSorted(s[0], SortByRobuxDescending(s[1..]));
      InsertPermutes(s[0], SortByRobuxDescending(s[1..]));
      assert s == [s[0]] + s[1..];
    }
  }

  /** The total number of Robux in a list of gamepasses. */
  function SumRobux(s: seq<Gamepass>): nat {
    if s == [] then 0 else s[0].robux + SumRobux(s[1..])
  }

  /**
   * The gamepasses the loops of `buildGamepasses` take from `remaining`:
   * the first size while it still fits, then the next size, and so on.
   */
  function Greedy(remaining: nat, passes: seq<Gamepass>): (r: seq<Gamepass>)
    requires WholeUnits(passes)
    ensures forall x :: x in r ==> x in passes
    decreases |passes|, remaining
  {
    if passes == [] then []
    else if remaining >= passes[0].robux then [passes[0]] + Greedy(remaining - passes[0].robux, passes)
    else Greedy(remaining, passes[1..])
  }

  /**
   * What the greedy loops leave over: less than the last size tried, and
   * congruent to the start modulo the smallest unit.
   */
  lemma {:induction false} GreedyRemainder(remaining: nat, passes: seq<Gamepass>)
    requires WholeUnits(passes) && passes != []
    ensures SumRobux(Greedy(remaining, passes)) <= remaining
    ensures remaining - SumRobux(Greedy(remaining, passes)) < passes[|passes| - 1].robux
    ensures (remaining - SumRobux(Greedy(remaining, passes))) % MinUnit == remaining % MinUnit
    decreases |passes|, remaining
  {
    var p := passes[0].robux;
    var g := Greedy(remaining, passes);
    if remaining >= p {
      var rest := Greedy(remaining - p, passes);
      assert g == [passes[0]] + rest;
      assert g[1..] == rest;
      GreedyRemainder(remaining - p, passes);
      assert remaining - SumRobux(g) == (remaining - p) - SumRobux(rest);
      assert (remaining - p) % MinUnit == remaining % MinUnit;
    } else if |passes| > 1 {
      GreedyRemainder(remaining, passes[1..]);
    }
  }

  /** The greedy breakdown keeps the order of its sizes and uses only listed gamepasses. */
  lemma {:induction false} GreedyOrdered(remaining: nat, passes: seq<Gamepass>)
    requires WholeUnits(passes) && NonIncreasing(passes)
    ensures NonIncreasing(Greedy(remaining, passes))
    decreases |passes|, remaining
  {
    if passes != [] {
      if remaining >= passes[0].robux {
        var rest := Greedy(remaining - passes[0].robux, passes);
        GreedyOrdered(remaining - passes[0].robux, passes);
        var g := [passes[0]] + rest;
        forall i, j | 0 <= i < j < |g| ensures g[i].robux >= g[j].robux {
          if i > 0 {
            assert g[i] == rest[i - 1] && g[j] == rest[j - 1];
          } else {
            assert g[j] == rest[j - 1] && g[j] in passes;
          }
        }
      } else {
        GreedyOrdered(remaining, passes[1..]);
      }
    }
  }

  /** In a list sorted by descending size the last entry is the smallest. */
  lemma LastIsSmallest(s: seq<Gamepass>, k: nat)
    requires NonIncreasing(s) && k < |s|
    ensures s[|s| - 1].robux <= s[k].robux
  {
  }

  /**
   * Sorting a list of whole units whose first entry is the smallest unit
   * gives whole units, largest first, of the same length, ending with that unit.
   */
  lemma SortedCopy(c: seq<Gamepass>)
    requires WholeUnits(c) && c != [] && c[0].robux == MinUnit
    ensures var s := SortByRobuxDescending(c);
      NonIncreasing(s) && WholeUnits(s) && |s| == |c| && s[|s| - 1].robux == MinUnit
    ensures forall x :: x in SortByRobuxDescending(c) <==> x in c
  {
    var s := SortByRobuxDescending(c);
    SortSorted(c);
    assert |s| == |multiset(s)| == |c|;
    forall i | 0 <= i < |s| ensures s[i].robux >= MinUnit && s[i].robux % MinUnit == 0 {
      assert s[i] in multiset(c);
      var k :| 0 <= k < |c| && c[k] == s[i];
    }
    assert c[0] in multiset(s);
    var k :| 0 <= k < |s| && s[k] == c[0];
    LastIsSmallest(s, k);
    forall x ensures x in s <==> x in c {
      assert x in s <==> x in multiset(s);
    }
  }

  /** The catalogue sorted by descending size, as `buildGamepasses` walks it. */
  function SortedCatalogue(): (s: seq<Gamepass>)
    ensures NonIncreasing(s) && WholeUnits(s) && |s| == |Catalogue|
    ensures s[|s| - 1].robux == MinUnit
    ensures forall x :: x in s <==> x in Catalogue
  {
    CatalogueWholeUnits();
    SortedCopy(Catalogue);
    SortByRobuxDescending(Catalogue)
  }

  /**
   * The greedy breakdown of a total over sizes listed largest first, all
   * multiples of 50 and ending with 50: it sums to the total less its
   * remainder modulo 50, comes out largest first, and is empty exactly when
   * the total is below 50.
   */
  lemma GreedyBreakdown(total: nat, sorted: seq<Gamepass>)
    requires NonIncreasing(sorted) && WholeUnits(sorted)
    requires sorted != [] && sorted[|sorted| - 1].robux == MinUnit
    ensures SumRobux(Greedy(total, sorted)) == total - total % MinUnit
    ensures NonIncreasing(Greedy(total, sorted))
    ensures Greedy(total, sorted) == [] <==> total < MinUnit
  {
    var g := Greedy(total, sorted);
    GreedyRemainder(total, sorted);
    GreedyOrdered(total, sorted);
    if g != [] {
      assert g[0] in sorted;
      assert SumRobux(g) >= g[0].robux >= MinUnit;
    }
  }

  /**
   * The loops of `buildGamepasses`: for each size in turn, take a gamepass of
   * that size while the remaining total still covers it.
   */
  method TakeGreedily(total: nat, sorted: seq<Gamepass>) returns (lines: seq<Gamepass>)
    requires WholeUnits(sorted)
    ensures lines == Greedy(total, sorted)
  {
    var remaining: nat := total;
    lines := [];
    for i := 0 to |sorted|
      invariant lines + Greedy(remaining, sorted[i..]) == Greedy(total, sorted)
    {
      var gp := sorted[i];
      while remaining >= gp.robux
        invariant lines + Greedy(remaining, sorted[i..]) == Greedy(total, sorted)
      {
        assert Greedy(remaining, sorted[i..]) == [gp] + Greedy(remaining - gp.robux, sorted[i..]);
        lines := lines + [gp];
        remaining := remaining - gp.robux;
      }
      assert sorted[i..][1..] == sorted[i + 1..];
    }
    assert sorted[|sorted|..] == [];
  }

  /**
   * `buildGamepasses(total)`: the gamepasses listed for a Robux total, one
   * entry per gamepass bought, taken greedily from the largest size down.
   */
  method BuildGamepasses(total: nat) returns (lines: seq<Gamepass>)
    ensures lines == Greedy(total, SortedCatalogue())
    ensures SumRobux(lines) == total - total % MinUnit
    ensures NonIncreasing(lines)
    ensures lines == [] <==> total < MinUnit
    ensures forall x :: x in lines ==> x in Catalogue
  {
    var sorted := SortedCatalogue();
    lines := TakeGreedily(total, sorted);
    GreedyBreakdown(total, sorted);
  }

  /** A Robux quote is a multiple of 50, so its breakdown leaves nothing over. */
  lemma QuoteBreaksDownExactly(robux: nat)
    requires robux % MinUnit == 0
    ensures SumRobux(Greedy(robux, SortedCatalogue())) == robux
  {
    GreedyBreakdown(robux, SortedCatalogue());
  }

  /**
   * The text of one listed gamepass: `• <robux> Robux – <url>`. The size
   * reads back from the digits after the bullet, and the line ends with the
   * gamepass's link.
   */
  function LineText(gp: Gamepass): (r: string)
    ensures |r| >= 2 + |Decimal(gp.robux)| + |gp.url| && r[..2] == "• "
    ensures AllDigits(r[2..2 + |Decimal(gp.robux)|]) && DigitsValue(r[2..2 + |Decimal(gp.robux)|]) == gp.robux
    ensures r[|r| - |gp.url|..] == gp.url
  {
    var d := Decimal(gp.robux);
    var r := "• " + d + " Robux – " + gp.url;
    DecimalRoundTrip(gp.robux);
    assert r[2..2 + |d|] == d;
    r
  }
}
