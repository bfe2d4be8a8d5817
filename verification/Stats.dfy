/**
 The running statistics of an operation (src/stat.c, src/put.c, src/del.c): means and the squared
 deviations from them, updated one completed operation at a time. Arithmetic is over the reals.
 */
module Stats {
  import opened Welford

  // --- intervals ---

  const BILLION := 1_000_000_000
  const KOP_MAXINTV := 1_000_000

  // struct timespec
  datatype Time = Time(sec: int, nsec: int)

  predicate Proper(t: Time) {
    0 <= t.nsec < BILLION
  }

  function Nanos(t: Time): int {
    t.sec * 1_000_000_000 + t.nsec
  }

  // ts_sub: the interval in microseconds, 0 if it makes no sense, and the minuend as the macro leaves it,
  // with a second borrowed. A negative interval is divided as an unsigned number, which makes it huge.
  function TsSub(me: Time, se: Time): (r: (int, Time)) {
    var borrow := me.nsec < se.nsec;
    var me' := if borrow then me.(sec := me.sec - 1) else me;
    var d := me.nsec - se.nsec + (if borrow then BILLION else 0) + (me'.sec - se.sec) * BILLION;
    var us := (if d < 0 then d + 0x1_0000_0000_0000_0000 else d) / 1000;
    (if us > KOP_MAXINTV || us <= 0 then 0 else us, me')
  }

  predicate Sensible(ns: int) {
    1000 <= ns < 1_000_001_000
  }

  predicate Representable(me: Time, se: Time) {
    -0x4000_0000_0000_0000 <= Nanos(me) - Nanos(se) < 0x4000_0000_0000_0000
  }

  // The interval is right whenever it is one that counts, with or without a borrowed second.
  lemma TsSubIs(me: Time, se: Time)
    requires Proper(me) && Proper(se) && Representable(me, se)
    ensures var ns := Nanos(me) - Nanos(se);
      TsSub(me, se).0 == if Sensible(ns) then ns / 1000 else 0
  {
    var ns := Nanos(me) - Nanos(se);
    var d := me.nsec - se.nsec + (if me.nsec < se.nsec then BILLION else 0)
             + (TsSub(me, se).1.sec - se.sec) * BILLION;
    assert d == ns;
  }

  datatype Stamps = Stamps(start: Time, sent: Time, recvs: Time, comp: Time)

  // The three intervals of s_stats_addts; the third works on a completion time the first may have changed.
  function Intervals(s: Stamps): (int, int, int) {
    var tt := TsSub(s.comp, s.start);
    (tt.0, TsSub(s.sent, s.start).0, TsSub(tt.1, s.recvs).0)
  }

  predicate Temporal(s: Stamps) {
    && Proper(s.start) && Proper(s.sent) && Proper(s.recvs) && Proper(s.comp)
    && Nanos(s.start) <= Nanos(s.sent) && Nanos(s.start) <= Nanos(s.recvs)
    && Nanos(s.sent) <= Nanos(s.comp) && Nanos(s.recvs) <= Nanos(s.comp)
    && Nanos(s.comp) - Nanos(s.start) < 0x4000_0000_0000_0000
  }

  predicate Kept(s: Stamps) {
    var i := Intervals(s);
    i.0 != 0 && i.1 != 0 && i.2 != 0
  }

  // A sample in temporal order is kept exactly when each of its intervals makes sense and its completion
  // lies no earlier in its second than its start in its own: otherwise the second borrowed for the whole
  // interval is missing from the receive interval, and a good sample is dropped.
  lemma KeptIff(s: Stamps)
    requires Temporal(s)
    ensures Kept(s) <==>
        && Sensible(Nanos(s.comp) - Nanos(s.start)) && Sensible(Nanos(s.sent) - Nanos(s.start))
        && Sensible(Nanos(s.comp) - Nanos(s.recvs)) && s.start.nsec <= s.comp.nsec
  {
    TsSubIs(s.comp, s.start);
    TsSubIs(s.sent, s.start);
    var comp' := TsSub(s.comp, s.start).1;
    assert Nanos(comp') == Nanos(s.comp) - if s.comp.nsec < s.start.nsec then BILLION else 0;
    TsSubIs(comp', s.recvs);
  }

  lemma KeptAreTrue(s: Stamps)
    requires Temporal(s) && Kept(s)
    ensures Intervals(s) == ((Nanos(s.comp) - Nanos(s.start)) / 1000, (Nanos(s.sent) - Nanos(s.start)) / 1000,
                             (Nanos(s.comp) - Nanos(s.recvs)) / 1000)
  {
    KeptIff(s);
    TsSubIs(s.comp, s.start);
    TsSubIs(s.sent, s.start);
    TsSubIs(s.comp, s.recvs);
  }

  // --- the statistics of one kind of operation ---

  const KOP_TTOTAL := 0
  const KOP_TMEAN := 1
  const KOP_TMEANSQ := 2
  const KOP_TVAR := 3
  const KOP_TMAX := 5

  ghost predicate TellsTimes(tsa: seq<real>, xs: seq<real>) {
    && |tsa| == KOP_TMAX
    && (xs != [] ==> tsa[KOP_TTOTAL] == Sum(xs)) && Tells(tsa[KOP_TMEAN], tsa[KOP_TMEANSQ], xs)
  }

  // tsa_first and tsa_next
  method AddTime(tsa: array<real>, t: real, n: nat, ghost xs: seq<real>)
    requires n == |xs| + 1 && TellsTimes(tsa[..], xs)
    modifies tsa
    ensures TellsTimes(tsa[..], xs + [t])
  {
    Append(xs, t);
    One(t);
    hide Sum, Tells, NextMean, NextSquare;
    if n == 1 {
      TellsFirst(t);
      assert xs + [t] == [t];
      tsa[KOP_TTOTAL], tsa[KOP_TMEAN], tsa[KOP_TMEANSQ] := t, t, 0.0;
    } else {
      TellsNext(tsa[KOP_TMEAN], tsa[KOP_TMEANSQ], xs, t);
      var nmn := NextMean(tsa[KOP_TMEAN], t, n);
      var nsq := NextSquare(tsa[KOP_TMEANSQ], tsa[KOP_TMEAN], t, nmn);
      tsa[KOP_TTOTAL] := tsa[KOP_TTOTAL] + t;
      tsa[KOP_TMEAN], tsa[KOP_TMEANSQ] := nmn, nsq;
    }
  }

  ghost predicate Counted(ok: nat, dropped: nat, kept: seq<bool>) {
    ok == Count(kept) && ok + dropped == |kept|
  }

  ghost predicate Follows(mean: real, sq: real, xs: seq<real>, kept: seq<bool>)
    requires |xs| == |kept|
  {
    mean == MeanAfter(xs, kept) && sq == SquareAfter(xs, kept)
  }

  ghost predicate FollowsMean(mean: real, xs: seq<real>, kept: seq<bool>)
    requires |xs| == |kept|
  {
    mean == MeanAfter(xs, kept)
  }

  method SetVariance(tsa: array<real>, n: nat, ghost xs: seq<real>)
    requires TellsTimes(tsa[..], xs) && n == |xs| >= 2
    modifies tsa
    ensures TellsTimes(tsa[..], xs) && tsa[KOP_TVAR] == SampleVariance(xs)
  {
    hide Sum, Mean, Deviations;
    tsa[KOP_TVAR] := tsa[KOP_TMEANSQ] / (n - 1) as real;
  }

  lemma SizesRight(sq: real, mean: real, xs: seq<real>, kept: seq<bool>, n: nat)
    requires |xs| == |kept| && Follows(mean, sq, xs, kept) && Counted(n, 0, kept) && n >= 2
    ensures n == |xs| && sq / (n - 1) as real == SampleVariance(xs)
  {
    NoDropsIsRight(xs, kept);
    hide MeanAfter, SquareAfter, Mean, Deviations;
  }

  // With the mean and the square term right, dividing by a lowered count gives the variance exactly when
  // there is none.
  lemma LoweredCountIff(sq: real, mean: real, xs: seq<real>, n: nat)
    requires Tells(mean, sq, xs) && 2 <= n <= |xs|
    ensures sq / (n - 1) as real == SampleVariance(xs) <==> n == |xs| || Deviations(xs, Mean(xs)) == 0.0
  {
    hide Mean, Deviations;
    if n != |xs| && sq / (n - 1) as real == SampleVariance(xs) {
      QuotientsDiffer(sq, (n - 1) as real, (|xs| - 1) as real);
    }
  }

  // kop_ssize, kop_smsq, kop_rsize, kop_klen and kop_vlen
  datatype Sizes = Sizes(ssize: real, smsq: real, rsize: real, klen: real, vlen: real)

  // Every completed operation: its sizes, and whether its sample was kept
  datatype History = History(sl: seq<real>, rl: seq<real>, kl: seq<real>, vl: seq<real>, kept: seq<bool>)

  function Logged(h: History, s: real, r: real, k: real, v: real, kept: bool): History {
    History(h.sl + [s], h.rl + [r], h.kl + [k], h.vl + [v], h.kept + [kept])
  }

  ghost predicate AllFollow(z: Sizes, h: History) {
    && |h.rl| == |h.kl| == |h.vl| == |h.sl| == |h.kept| && Follows(z.ssize, z.smsq, h.sl, h.kept)
    && FollowsMean(z.rsize, h.rl, h.kept) && FollowsMean(z.klen, h.kl, h.kept) && FollowsMean(z.vlen, h.vl, h.kept)
  }

  // One more operation, the n-th that counts
  function NextSizes(z: Sizes, s: real, r: real, k: real, v: real, n: nat): Sizes
    requires n != 0
  {
    if n == 1 then Sizes(s, 0.0, r, k, v)
    else
      var nmn := NextMean(z.ssize, s, n);
      Sizes(nmn, NextSquare(z.smsq, z.ssize, s, nmn), NextMean(z.rsize, r, n), NextMean(z.klen, k, n),
            NextMean(z.vlen, v, n))
  }

  lemma AllFollowNext(z: Sizes, h: History, s: real, r: real, k: real, v: real, n: nat)
    requires AllFollow(z, h) && n == Count(h.kept) + 1
    ensures AllFollow(NextSizes(z, s, r, k, v, n), Logged(h, s, r, k, v, true))
  {
    hide Follows, FollowsMean, NextMean, NextSquare, Count;
    FollowsNext(z.ssize, z.smsq, h.sl, h.kept, s, n);
    FollowsMeanNext(z.rsize, h.rl, h.kept, r, n);
    FollowsMeanNext(z.klen, h.kl, h.kept, k, n);
    FollowsMeanNext(z.vlen, h.vl, h.kept, v, n);
  }

  lemma AllFollowDropped(z: Sizes, h: History, s: real, r: real, k: real, v: real)
    requires AllFollow(z, Logged(h, s, r, k, v, true))
    ensures AllFollow(z, Logged(h, s, r, k, v, false))
  {
    hide Follows, FollowsMean;
    LastIsFree(z.ssize, z.smsq, h.sl + [s], h.kept);
    LastMeanIsFree(z.rsize, h.rl + [r], h.kept);
    LastMeanIsFree(z.klen, h.kl + [k], h.kept);
    LastMeanIsFree(z.vlen, h.vl + [v], h.kept);
  }

  class KopStat {
    var ok: nat
    var dropped: nat
    var ssize: real
    var smsq: real
    var rsize: real
    var klen: real
    var vlen: real
    const tot: array<real>
    const req: array<real>
    const resp: array<real>
    const timed: bool       // KOPF_TSTAT
    // every completed operation, and the times of those that were kept
    ghost var log: History
    ghost var tt: seq<real>
    ghost var st: seq<real>
    ghost var rt: seq<real>

    ghost predicate Apart() {
      tot != req && tot != resp && req != resp
    }

    // The sizes are what the run has made of them.
    ghost predicate SizesFollow()
      reads this
    {
      && Counted(ok, dropped, log.kept)
      && AllFollow(Sizes(ssize, smsq, rsize, klen, vlen), log)
    }

    // The times tell the truth about all samples that were kept.
    ghost predicate TimesTell()
      reads this, tot, req, resp
    {
      |tt| == |st| == |rt| && TellsTimes(tot[..], tt) && TellsTimes(req[..], st) && TellsTimes(resp[..], rt)
    }

    ghost predicate Valid()
      reads this, tot, req, resp
    {
      Apart() && SizesFollow() && (timed ==> TimesTell() && ok == |tt|) && (!timed ==> dropped == 0)
    }

    constructor (timed: bool)
      ensures fresh(tot) && fresh(req) && fresh(resp)
      ensures Valid() && this.timed == timed && ok == 0 && dropped == 0
      ensures log == History([], [], [], [], []) && tt == st == rt == []
    {
      this.timed := timed;
      ok, dropped := 0, 0;
      ssize, smsq, rsize, klen, vlen := 0.0, 0.0, 0.0, 0.0, 0.0;
      tot, req, resp := new real[KOP_TMAX](_ => 0.0), new real[KOP_TMAX](_ => 0.0), new real[KOP_TMAX](_ => 0.0);
      log, tt, st, rt := History([], [], [], [], []), [], [], [];
    }

    // The size statistics of a completed put or delete
    method AddSizes(s: real, r: real, k: real, v: real)
      requires SizesFollow()
      modifies this`ok, this`ssize, this`smsq, this`rsize, this`klen, this`vlen, this`log
      ensures SizesFollow() && ok == old(ok) + 1
      ensures log == Logged(old(log), s, r, k, v, true)
    {
      hide AllFollow, NextMean, NextSquare, Counted, Count;
      MoreSizes(ok, dropped, log.kept);
      AllFollowNext(Sizes(ssize, smsq, rsize, klen, vlen), log, s, r, k, v, ok + 1);
      ok := ok + 1;
      if ok == 1 {
        ssize, smsq := s, 0.0;
        rsize, klen, vlen := r, k, v;
      } else {
        var nmn := NextMean(ssize, s, ok);
        var nmsq := NextSquare(smsq, ssize, s, nmn);
        ssize, smsq := nmn, nmsq;
        rsize, klen, vlen := NextMean(rsize, r, ok), NextMean(klen, k, ok), NextMean(vlen, v, ok);
      }
      log := Logged(log, s, r, k, v, true);
    }

    // s_stats_addts
    method AddStamps(s: Stamps) returns (rc: int)
      requires Apart() && timed && ok > 0 && ok - 1 == |tt| && TimesTell()
      modifies this`ok, this`dropped, this`tt, this`st, this`rt, tot, req, resp
      ensures var i := Intervals(s);
        if !Kept(s) then
          && rc == -1 && ok == old(ok) - 1 && dropped == old(dropped) + 1
          && tt == old(tt) && st == old(st) && rt == old(rt)
        else
          && rc == 0 && ok == old(ok) && dropped == old(dropped)
          && tt == old(tt) + [i.0 as real] && st == old(st) + [i.1 as real] && rt == old(rt) + [i.2 as real]
      ensures ok == |tt| && TimesTell()
    {
      hide TellsTimes, Intervals;
      var i := Intervals(s);
      if i.0 == 0 || i.1 == 0 || i.2 == 0 {
        ok, dropped := ok - 1, dropped + 1;
        return -1;
      }
      AddTime(tot, i.0 as real, ok, tt);
      AddTime(req, i.1 as real, ok, st);
      AddTime(resp, i.2 as real, ok, rt);
      tt, st, rt := tt + [i.0 as real], st + [i.1 as real], rt + [i.2 as real];
      rc := 0;
    }

    // A successful completion
    method Complete(s: real, r: real, k: real, v: real, stamps: Stamps)
      requires Valid()
      modifies this, tot, req, resp
      ensures Valid()
      ensures log == Logged(old(log), s, r, k, v, !timed || Kept(stamps))
    {
      hide TellsTimes, Intervals, AllFollow, Counted;
      ghost var before := log;
      AddSizes(s, r, k, v);
      if timed {
        MoreSizes(old(ok), dropped, before.kept);
        var rc := AddStamps(stamps);
        if rc == -1 {
          AllFollowDropped(Sizes(ssize, smsq, rsize, klen, vlen), before, s, r, k, v);
          log := Logged(before, s, r, k, v, false);
        }
      }
    }

    // s_stat_updatekop: the variances; with fewer than two samples the division has no value. That of the
    // sizes is divided by the lowered count.
    method UpdateKop() returns (size: real)
      requires Valid() && timed && ok >= 2
      modifies tot, req, resp
      ensures Valid()
      ensures dropped == 0 ==> size == SampleVariance(log.sl)
      ensures Tells(ssize, smsq, log.sl) ==>
        (size == SampleVariance(log.sl) <==> dropped == 0 || Deviations(log.sl, Mean(log.sl)) == 0.0)
      ensures tot[KOP_TVAR] == SampleVariance(tt)
      ensures req[KOP_TVAR] == SampleVariance(st) && resp[KOP_TVAR] == SampleVariance(rt)
    {
      size := smsq / (ok - 1) as real;
      if dropped == 0 {
        SizesRight(smsq, ssize, log.sl, log.kept, ok);
      }
      if Tells(ssize, smsq, log.sl) {
        LoweredCountIff(smsq, ssize, log.sl, ok);
      }
      hide TellsTimes, Follows, FollowsMean, Counted, SampleVariance, Tells, Deviations, Mean;
      SetVariance(tot, ok, tt);
      SetVariance(req, ok, st);
      SetVariance(resp, ok, rt);
    }
  }

  lemma MoreSizes(ok: nat, dropped: nat, kept: seq<bool>)
    requires Counted(ok, dropped, kept)
    ensures ok == Count(kept)
    ensures Counted(ok + 1, dropped, kept + [true]) && Counted(ok, dropped + 1, kept + [false])
  {
    assert (kept + [true])[..|kept|] == kept && (kept + [false])[..|kept|] == kept;
  }

  lemma FollowsMeanNext(mean: real, xs: seq<real>, kept: seq<bool>, x: real, c: nat)
    requires |xs| == |kept| && FollowsMean(mean, xs, kept) && c == Count(kept) + 1
    ensures FollowsMean(if c == 1 then x else NextMean(mean, x, c), xs + [x], kept + [true])
  {
    hide NextMean, NextSquare, MeanAfter, SquareAfter;
    AfterOne(xs, kept, x, true);
  }

  lemma FollowsNext(mean: real, sq: real, xs: seq<real>, kept: seq<bool>, x: real, c: nat)
    requires |xs| == |kept| && Follows(mean, sq, xs, kept) && c == Count(kept) + 1
    ensures var m' := if c == 1 then x else NextMean(mean, x, c);
      Follows(m', if c == 1 then 0.0 else NextSquare(sq, mean, x, m'), xs + [x], kept + [true])
  {
    hide NextMean, NextSquare, MeanAfter, SquareAfter;
    AfterOne(xs, kept, x, true);
  }

  // Whether the last operation is kept has no part in what it does to the sizes.
  lemma LastMeanIsFree(mean: real, xs: seq<real>, before: seq<bool>)
    requires |xs| == |before| + 1 && FollowsMean(mean, xs, before + [true])
    ensures FollowsMean(mean, xs, before + [false])
  {
    hide NextMean, NextSquare, MeanAfter, SquareAfter;
    var n := |before|;
    assert xs == xs[..n] + [xs[n]];
    AfterOne(xs[..n], before, xs[n], true);
    AfterOne(xs[..n], before, xs[n], false);
  }

  lemma LastIsFree(mean: real, sq: real, xs: seq<real>, before: seq<bool>)
    requires |xs| == |before| + 1 && Follows(mean, sq, xs, before + [true])
    ensures Follows(mean, sq, xs, before + [false])
  {
    hide NextMean, NextSquare, MeanAfter, SquareAfter;
    var n := |before|;
    assert xs == xs[..n] + [xs[n]];
    AfterOne(xs[..n], before, xs[n], true);
    AfterOne(xs[..n], before, xs[n], false);
  }

  // ki_get's statistics skip the first value: they are those of a run whose first value was 0.
  method GetSizes(xs: seq<real>) returns (mean: real, sq: real)
    ensures xs != [] ==> Tells(mean, sq, [0.0] + xs[1..])
    ensures xs != [] ==> (mean == Mean(xs) <==> xs[0] == 0.0)
  {
    hide Tells, Mean, NextMean, NextSquare;
    mean, sq := 0.0, 0.0;
    for i := 0 to |xs|
      invariant i == 0 ==> mean == 0.0
      invariant i > 0 ==> Tells(mean, sq, [0.0] + xs[1..i])
    {
      if i == 0 {
        sq := 0.0;
        TellsFirst(0.0);
        assert [0.0] + xs[1..1] == [0.0];
      } else {
        TellsNext(mean, sq, [0.0] + xs[1..i], xs[i]);
        assert [0.0] + xs[1..i] + [xs[i]] == [0.0] + xs[1..i + 1];
        var nmn := NextMean(mean, xs[i], i + 1);
        sq := NextSquare(sq, mean, xs[i], nmn);
        mean := nmn;
      }
    }
    if xs != [] {
      assert xs[1..|xs|] == xs[1..];
      FirstReplaced(xs, 0.0);
      TellsIs(mean, sq, [0.0] + xs[1..]);
    }
  }
}
