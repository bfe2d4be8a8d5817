/**
 Running means and squared deviations (src/stat.c, src/put.c), over the reals.

 The program keeps a mean and a square term and updates both with each value. How many values there were
 it takes from a counter that also goes down, when the times of an operation are dropped.
 */
module Welford {
  // --- what the running values stand for ---

  function Sum(xs: seq<real>): real {
    if xs == [] then 0.0 else Sum(xs[..|xs| - 1]) + xs[|xs| - 1]
  }

  function Square(x: real): real {
    x * x
  }

  function SumSquares(xs: seq<real>): real {
    if xs == [] then 0.0 else SumSquares(xs[..|xs| - 1]) + Square(xs[|xs| - 1])
  }

  // The squared deviations from m, added up
  function Deviations(xs: seq<real>, m: real): real {
    if xs == [] then 0.0 else Deviations(xs[..|xs| - 1], m) + Square(xs[|xs| - 1] - m)
  }

  function Mean(xs: seq<real>): real
    requires xs != []
  {
    Sum(xs) / |xs| as real
  }

  // What textbooks call the sample variance
  function SampleVariance(xs: seq<real>): real
    requires |xs| >= 2
  {
    Deviations(xs, Mean(xs)) / (|xs| - 1) as real
  }

  // The squared deviations from m of n values, by their sum and the sum of their squares
  function Expanded(n: real, m: real, sum: real, squares: real): real {
    squares - 2.0 * m * sum + n * m * m
  }

  lemma ExpandStep(n: real, m: real, x: real, sum: real, squares: real)
    ensures Expanded(n, m, sum, squares) + Square(x - m) == Expanded(n + 1.0, m, sum + x, squares + Square(x))
  {
    assert (x - m) * (x - m) == x * x - 2.0 * m * x + m * m;
    assert 2.0 * m * (sum + x) == 2.0 * m * sum + 2.0 * m * x;
    assert (n + 1.0) * m * m == n * m * m + m * m;
  }

  lemma {:induction false} DeviationsExpand(xs: seq<real>, m: real)
    ensures Deviations(xs, m) == Expanded(|xs| as real, m, Sum(xs), SumSquares(xs))
  {
    if xs == [] {
      assert 2.0 * m * 0.0 == 0.0 && 0.0 * m * m == 0.0;
    } else {
      var front, x := xs[..|xs| - 1], xs[|xs| - 1];
      Unfold(front, x, xs, m);
      hide Deviations, SumSquares, Sum, Square, Expanded;
      DeviationsExpand(front, m);
      ExpandStep(|front| as real, m, x, Sum(front), SumSquares(front));
    }
  }

  lemma Unfold(front: seq<real>, x: real, xs: seq<real>, m: real)
    requires xs != [] && front == xs[..|xs| - 1] && x == xs[|xs| - 1]
    ensures Deviations(xs, m) == Deviations(front, m) + Square(x - m)
    ensures SumSquares(xs) == SumSquares(front) + Square(x) && Sum(xs) == Sum(front) + x
    ensures |xs| as real == |front| as real + 1.0
  {
    hide Square;
  }

  // The mean after one more value
  function NextMean(mean: real, x: real, n: nat): real
    requires n != 0
  {
    mean + (x - mean) / n as real
  }

  // Its square term
  function NextSquare(sq: real, mean: real, x: real, next: real): real {
    sq + (x - mean) * (x - next)
  }

  lemma Append(xs: seq<real>, x: real)
    ensures Sum(xs + [x]) == Sum(xs) + x && SumSquares(xs + [x]) == SumSquares(xs) + Square(x)
  {
    assert (xs + [x])[..|xs|] == xs;
  }

  lemma MeanTimes(xs: seq<real>)
    requires xs != []
    ensures |xs| as real * Mean(xs) == Sum(xs)
  {
  }

  lemma NextMeanTimes(mean: real, x: real, n: nat)
    requires n != 0
    ensures n as real * NextMean(mean, x, n) == (n - 1) as real * mean + x
  {
    var d := (x - mean) / n as real;
    assert n as real * d == x - mean;
    assert n as real * (mean + d) == n as real * mean + n as real * d;
    assert (n - 1) as real * mean == n as real * mean - mean;
  }

  lemma Divides(a: real, b: real, c: real)
    requires b != 0.0 && b * a == c
    ensures a == c / b
  {
  }

  lemma MeanNext(xs: seq<real>, x: real)
    requires xs != []
    ensures Mean(xs + [x]) == NextMean(Mean(xs), x, |xs| + 1)
  {
    Append(xs, x);
    MeanTimes(xs);
    NextMeanTimes(Mean(xs), x, |xs| + 1);
    Divides(NextMean(Mean(xs), x, |xs| + 1), (|xs| + 1) as real, Sum(xs) + x);
  }

  // n m' = (n - 1) m + x turns the one form of the squared deviations into the other.
  lemma Algebra(n: real, m: real, m': real, x: real, q: real)
    requires (n + 1.0) * m' == n * m + x
    ensures q + Square(x) - (n + 1.0) * m' * m' == q - n * m * m + (x - m) * (x - m')
  {
    assert (n + 1.0) * m' * m' == (n * m + x) * m';
    assert (n * m + x) * m' == n * m * m' + x * m';
    assert m * ((n + 1.0) * m') == m * (n * m + x);
    assert m * ((n + 1.0) * m') == n * m * m' + m * m';
    assert m * (n * m + x) == n * m * m + m * x;
    assert (x - m) * (x - m') == x * x - x * m' - m * x + m * m';
  }

  lemma AroundAlgebra(n: real, m: real, sum: real, squares: real)
    requires n * m == sum
    ensures Expanded(n, m, sum, squares) == squares - n * m * m
  {
    assert 2.0 * m * sum == 2.0 * (n * m * m);
  }

  lemma AroundMean(xs: seq<real>)
    requires xs != []
    ensures Deviations(xs, Mean(xs)) == SumSquares(xs) - |xs| as real * Mean(xs) * Mean(xs)
  {
    hide Deviations, Mean, SumSquares, Sum, Expanded;
    DeviationsExpand(xs, Mean(xs));
    MeanTimes(xs);
    AroundAlgebra(|xs| as real, Mean(xs), Sum(xs), SumSquares(xs));
  }

  // Welford: the squared deviations from the new mean
  lemma DeviationsNext(xs: seq<real>, x: real)
    requires xs != []
    ensures Deviations(xs + [x], Mean(xs + [x]))
         == NextSquare(Deviations(xs, Mean(xs)), Mean(xs), x, Mean(xs + [x]))
  {
    hide Deviations, Mean, SumSquares, Sum;
    var m, m' := Mean(xs), Mean(xs + [x]);
    AroundMean(xs);
    AroundMean(xs + [x]);
    Append(xs, x);
    MeanTimes(xs);
    MeanTimes(xs + [x]);
    assert |xs + [x]| as real == |xs| as real + 1.0;
    Algebra(|xs| as real, m, m', x, SumSquares(xs));
  }

  lemma One(x: real)
    ensures Sum([x]) == x && Mean([x]) == x && Deviations([x], x) == 0.0
  {
    assert [x][..0] == [];
    assert Sum([x]) == Sum([]) + x;
    assert Deviations([x], x) == Deviations([], x) + Square(x - x);
  }

  // A running mean and its square term tell the truth about the values so far.
  ghost predicate Tells(mean: real, sq: real, xs: seq<real>) {
    xs != [] ==> mean == Mean(xs) && sq == Deviations(xs, Mean(xs))
  }

  lemma TellsNext(mean: real, sq: real, xs: seq<real>, x: real)
    requires xs != [] && Tells(mean, sq, xs)
    ensures var m' := NextMean(mean, x, |xs| + 1); Tells(m', NextSquare(sq, mean, x, m'), xs + [x])
  {
    MeanNext(xs, x);
    DeviationsNext(xs, x);
    hide Deviations, Mean, NextMean, NextSquare;
  }

  lemma TellsFirst(x: real)
    ensures Tells(x, 0.0, [x])
  {
    One(x);
  }

  lemma TellsIs(mean: real, sq: real, xs: seq<real>)
    requires xs != [] && Tells(mean, sq, xs)
    ensures mean == Mean(xs)
  {
  }

  lemma {:induction false} SumFront(a: real, xs: seq<real>)
    ensures Sum([a] + xs) == a + Sum(xs)
  {
    if xs == [] {
      assert [a] + xs == [a] && [a][..0] == [];
    } else {
      var n := |xs| - 1;
      assert ([a] + xs)[..n + 1] == [a] + xs[..n];
      SumFront(a, xs[..n]);
    }
  }

  lemma FirstReplaced(xs: seq<real>, a: real)
    requires xs != []
    ensures Mean([a] + xs[1..]) == Mean(xs) <==> xs[0] == a
  {
    SumFront(a, xs[1..]);
    SumFront(xs[0], xs[1..]);
    assert xs == [xs[0]] + xs[1..];
    MeanTimes(xs);
    MeanTimes([a] + xs[1..]);
  }

  // --- runs with drops ---

  // kop_ok after a run: the operations whose times were not dropped
  function Count(kept: seq<bool>): (n: nat)
    ensures n <= |kept|
    ensures n == |kept| <==> false !in kept
  {
    if kept == [] then 0 else Count(kept[..|kept| - 1]) + if kept[|kept| - 1] then 1 else 0
  }

  // The mean the program holds after a run; the counter is only lowered after the sizes are done.
  function MeanAfter(xs: seq<real>, kept: seq<bool>): real
    requires |xs| == |kept|
  {
    if xs == [] then 0.0
    else
      var n := |xs| - 1;
      var c := Count(kept[..n]) + 1;
      if c == 1 then xs[n] else NextMean(MeanAfter(xs[..n], kept[..n]), xs[n], c)
  }

  function SquareAfter(xs: seq<real>, kept: seq<bool>): real
    requires |xs| == |kept|
  {
    if xs == [] then 0.0
    else
      var n := |xs| - 1;
      if Count(kept[..n]) == 0 then 0.0
      else NextSquare(SquareAfter(xs[..n], kept[..n]), MeanAfter(xs[..n], kept[..n]), xs[n], MeanAfter(xs, kept))
  }

  lemma AfterOne(xs: seq<real>, kept: seq<bool>, x: real, b: bool)
    requires |xs| == |kept|
    ensures var c := Count(kept) + 1;
      && MeanAfter(xs + [x], kept + [b]) == (if c == 1 then x else NextMean(MeanAfter(xs, kept), x, c))
      && SquareAfter(xs + [x], kept + [b])
         == (if c == 1 then 0.0
             else NextSquare(SquareAfter(xs, kept), MeanAfter(xs, kept), x, MeanAfter(xs + [x], kept + [b])))
    ensures Count(kept + [b]) == Count(kept) + if b then 1 else 0
  {
    CountOne(kept, b);
    MeanOne(xs, kept, x, b);
    SquareOne(xs, kept, x, b);
    hide Count, MeanAfter, SquareAfter, NextMean, NextSquare;
  }

  lemma CountOne(kept: seq<bool>, b: bool)
    ensures Count(kept + [b]) == Count(kept) + if b then 1 else 0
  {
    assert (kept + [b])[..|kept|] == kept;
  }

  lemma MeanOne(xs: seq<real>, kept: seq<bool>, x: real, b: bool)
    requires |xs| == |kept|
    ensures var c := Count(kept) + 1;
      MeanAfter(xs + [x], kept + [b]) == if c == 1 then x else NextMean(MeanAfter(xs, kept), x, c)
  {
    hide NextMean, NextSquare, SquareAfter;
    assert (xs + [x])[..|xs|] == xs && (kept + [b])[..|kept|] == kept;
  }

  lemma SquareOne(xs: seq<real>, kept: seq<bool>, x: real, b: bool)
    requires |xs| == |kept|
    ensures SquareAfter(xs + [x], kept + [b]) ==
      if Count(kept) == 0 then 0.0
      else NextSquare(SquareAfter(xs, kept), MeanAfter(xs, kept), x, MeanAfter(xs + [x], kept + [b]))
  {
    hide NextMean, NextSquare, MeanAfter, Count;
    assert (xs + [x])[..|xs|] == xs && (kept + [b])[..|kept|] == kept;
  }

  // The mean and the square term are right after every operation of the run.
  ghost predicate RightThroughout(xs: seq<real>, kept: seq<bool>)
    requires |xs| == |kept|
  {
    forall k :: 1 <= k <= |xs| ==> RightAt(xs, kept, k)
  }

  ghost predicate RightAt(xs: seq<real>, kept: seq<bool>, k: nat)
    requires k <= |xs| == |kept|
  {
    Tells(MeanAfter(xs[..k], kept[..k]), SquareAfter(xs[..k], kept[..k]), xs[..k])
  }

  // From the first drop on, every value is the mean of those before it.
  ghost predicate SteadyAfterDrop(xs: seq<real>, kept: seq<bool>)
    requires |xs| == |kept|
  {
    forall k :: 0 < k < |xs| ==> SteadyAt(xs, kept, k)
  }

  ghost predicate SteadyAt(xs: seq<real>, kept: seq<bool>, k: nat)
    requires 0 < k < |xs| == |kept|
  {
    false in kept[..k] ==> xs[k] == Mean(xs[..k])
  }

  lemma QuotientsDiffer(d: real, a: real, b: real)
    requires a != 0.0 && b != 0.0 && a != b && d / a == d / b
    ensures d == 0.0
  {
    var q := d / a;
    assert a * q == d && b * q == d;
    assert (a - b) * q == 0.0;
  }

  // Two different counts give the same next mean only when the value is the mean itself.
  lemma SameNextMeanIff(m: real, x: real, a: nat, b: nat)
    requires a != 0 && b != 0 && a != b
    ensures NextMean(m, x, a) == NextMean(m, x, b) <==> x == m
  {
    if NextMean(m, x, a) == NextMean(m, x, b) {
      QuotientsDiffer(x - m, a as real, b as real);
    }
  }

  lemma NextOfMean(m: real, sq: real, n: nat)
    requires n != 0
    ensures NextMean(m, m, n) == m && NextSquare(sq, m, m, m) == sq
  {
  }

  // One more value equal to the mean changes neither.
  lemma MeanAgain(xs: seq<real>)
    requires xs != []
    ensures var m := Mean(xs);
      Mean(xs + [m]) == m && Deviations(xs + [m], m) == Deviations(xs, m)
  {
    var m := Mean(xs);
    MeanNext(xs, m);
    DeviationsNext(xs, m);
    NextOfMean(m, 0.0, |xs| + 1);
    hide Mean, Deviations, NextMean;
  }

  lemma FirstNextMean(m: real, x: real)
    ensures NextMean(m, x, 1) == x
  {
  }

  // After a run with a drop that left the mean right, one more operation leaves it right exactly when its
  // value is that mean: the counter is too small, and it does not matter by how much.
  lemma DropForgets(xs: seq<real>, kept: seq<bool>, x: real, b: bool)
    requires |xs| == |kept| && xs != [] && false in kept && MeanAfter(xs, kept) == Mean(xs)
    ensures MeanAfter(xs + [x], kept + [b]) == Mean(xs + [x]) <==> x == Mean(xs)
  {
    assert Count(kept) < |kept|;
    hide Mean, NextMean, MeanAfter, SquareAfter, NextSquare, Count;
    AfterOne(xs, kept, x, b);
    MeanNext(xs, x);
    FirstNextMean(Mean(xs), x);
    SameNextMeanIff(Mean(xs), x, Count(kept) + 1, |xs| + 1);
  }

  // The square term goes along with the mean.
  lemma DropKeepsSquare(xs: seq<real>, kept: seq<bool>, b: bool)
    requires |xs| == |kept| && xs != [] && false in kept
    requires Tells(MeanAfter(xs, kept), SquareAfter(xs, kept), xs) && SteadyAfterDrop(xs, kept)
    ensures Tells(MeanAfter(xs + [Mean(xs)], kept + [b]), SquareAfter(xs + [Mean(xs)], kept + [b]), xs + [Mean(xs)])
  {
    var m := Mean(xs);
    var sq := SquareAfter(xs, kept);
    AfterOne(xs, kept, m, b);
    MeanAgain(xs);
    NextOfMean(m, sq, Count(kept) + 1);
    if Count(kept) == 0 {
      AllDropped(xs, kept);
    }
    hide Mean, Deviations, NextMean, NextSquare, MeanAfter, SquareAfter, SteadyAfterDrop, Count;
  }

  lemma {:induction false} AllDropped(xs: seq<real>, kept: seq<bool>)
    requires |xs| == |kept| && xs != [] && Count(kept) == 0 && SteadyAfterDrop(xs, kept)
    ensures Deviations(xs, Mean(xs)) == 0.0
  {
    var n := |xs| - 1;
    assert xs == xs[..n] + [xs[n]];
    if n == 0 {
      One(xs[0]);
    } else {
      SteadyFront(xs, kept);
      AllDropped(xs[..n], kept[..n]);
      assert !kept[..n][n - 1];
      assert false in kept[..n] && SteadyAt(xs, kept, n);
      MeanAgain(xs[..n]);
      hide Mean, Deviations;
    }
  }

  lemma SteadyFront(xs: seq<real>, kept: seq<bool>)
    requires |xs| == |kept| && xs != []
    ensures var n := |xs| - 1;
      SteadyAfterDrop(xs, kept) <==> SteadyAfterDrop(xs[..n], kept[..n]) && (n > 0 ==> SteadyAt(xs, kept, n))
  {
    hide Mean;
    var n := |xs| - 1;
    forall k | 0 < k < n ensures SteadyAt(xs[..n], kept[..n], k) <==> SteadyAt(xs, kept, k) {
      assert xs[..n][..k] == xs[..k] && kept[..n][..k] == kept[..k];
    }
  }

  lemma RightFront(xs: seq<real>, kept: seq<bool>)
    requires |xs| == |kept| && xs != []
    ensures var n := |xs| - 1;
      RightThroughout(xs, kept)
      <==> RightThroughout(xs[..n], kept[..n]) && Tells(MeanAfter(xs, kept), SquareAfter(xs, kept), xs)
  {
    hide Tells, MeanAfter, SquareAfter;
    var n := |xs| - 1;
    assert xs[..|xs|] == xs && kept[..|xs|] == kept;
    assert RightAt(xs, kept, |xs|) <==> Tells(MeanAfter(xs, kept), SquareAfter(xs, kept), xs);
    forall k | 1 <= k <= n ensures RightAt(xs[..n], kept[..n], k) <==> RightAt(xs, kept, k) {
      assert xs[..n][..k] == xs[..k] && kept[..n][..k] == kept[..k];
    }
  }

  // Whatever was dropped when: the statistics of the sizes are right throughout a run exactly when, from
  // the first drop on, every operation has the mean size of those before it.
  lemma {:induction false} RightThroughoutIff(xs: seq<real>, kept: seq<bool>)
    requires |xs| == |kept|
    ensures RightThroughout(xs, kept) <==> SteadyAfterDrop(xs, kept)
  {
    if xs != [] {
      var n := |xs| - 1;
      RightThroughoutIff(xs[..n], kept[..n]);
      RightFront(xs, kept);
      SteadyFront(xs, kept);
      if RightThroughout(xs[..n], kept[..n]) {
        LastIsRightIff(xs, kept);
      }
      hide RightThroughout, SteadyAfterDrop, Tells, MeanAfter, SquareAfter, SteadyAt;
    }
  }

  lemma LastIsRightIff(xs: seq<real>, kept: seq<bool>)
    requires |xs| == |kept| && xs != []
    requires var n := |xs| - 1; RightThroughout(xs[..n], kept[..n]) && SteadyAfterDrop(xs[..n], kept[..n])
    ensures Tells(MeanAfter(xs, kept), SquareAfter(xs, kept), xs) <==> (|xs| > 1 ==> SteadyAt(xs, kept, |xs| - 1))
  {
    var n := |xs| - 1;
    var front, before, x := xs[..n], kept[..n], xs[n];
    assert xs == front + [x] && kept == before + [kept[n]];
    if n == 0 {
      TellsFirst(x);
      assert xs == [x];
    } else {
      FrontIsRight(front, before);
      if false in before {
        DropForgets(front, before, x, kept[n]);
        if x == Mean(front) {
          DropKeepsSquare(front, before, kept[n]);
        }
      } else {
        AfterOne(front, before, x, kept[n]);
        TellsNext(MeanAfter(front, before), SquareAfter(front, before), front, x);
      }
      hide Mean, Deviations, NextMean, NextSquare, MeanAfter, SquareAfter, SteadyAfterDrop;
    }
  }

  lemma FrontIsRight(xs: seq<real>, kept: seq<bool>)
    requires |xs| == |kept| && xs != [] && RightThroughout(xs, kept)
    ensures Tells(MeanAfter(xs, kept), SquareAfter(xs, kept), xs) && MeanAfter(xs, kept) == Mean(xs)
  {
    assert RightAt(xs, kept, |xs|);
    assert xs[..|xs|] == xs && kept[..|xs|] == kept;
    hide Mean, Deviations, MeanAfter, SquareAfter;
  }

  // So without drops they are right.
  lemma NoDropsIsRight(xs: seq<real>, kept: seq<bool>)
    requires |xs| == |kept| && false !in kept
    ensures Tells(MeanAfter(xs, kept), SquareAfter(xs, kept), xs)
  {
    hide Mean, Deviations, MeanAfter, SquareAfter;
    RightThroughoutIff(xs, kept);
    if xs != [] {
      FrontIsRight(xs, kept);
    }
  }
}
