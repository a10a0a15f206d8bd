/** Walks of a uniformized chain, and the probability that one of them satisfies an until formula. */
module Walks {
  import opened SourceChain

  datatype Arrow<S> = Arrow(to: S, rate: real)

  /** A chain with the two sides of an until property. */
  datatype Chain<!S> = Chain(arrows: S -> seq<Arrow<S>>, left: S -> bool, right: S -> bool)

  // In one step of the uniformized chain it takes an arrow, or stays where it is
  datatype Choice = Stay | Jump(arrow: nat)

  type Walk = seq<Choice>

  function Out<S>(arrows: seq<Arrow<S>>): real {
    if arrows == [] then 0.0 else Out(arrows[..|arrows| - 1]) + arrows[|arrows| - 1].rate
  }

  predicate Possible<S>(ch: Chain<S>, s: S, c: Choice) {
    c.Jump? ==> c.arrow < |ch.arrows(s)|
  }

  function Next<S>(ch: Chain<S>, s: S, c: Choice): S
    requires Possible(ch, s, c)
  {
    if c.Stay? then s else ch.arrows(s)[c.arrow].to
  }

  /** An arrow is taken with probability rate / q, and with what is left the chain stays. */
  function Chance<S>(ch: Chain<S>, q: PosReal, s: S, c: Choice): real
    requires Possible(ch, s, c)
  {
    if c.Stay? then 1.0 - Out(ch.arrows(s)) / q else ch.arrows(s)[c.arrow].rate / q
  }

  predicate IsWalk<S>(ch: Chain<S>, s: S, w: Walk) {
    w == [] || (Possible(ch, s, w[0]) && IsWalk(ch, Next(ch, s, w[0]), w[1..]))
  }

  function Probability<S>(ch: Chain<S>, q: PosReal, s: S, w: Walk): real
    requires IsWalk(ch, s, w)
  {
    if w == [] then 1.0 else Times(Chance(ch, q, s, w[0]), Probability(ch, q, Next(ch, s, w[0]), w[1..]))
  }

  // Where a walk is after its first steps
  function StateAt<S>(ch: Chain<S>, s: S, w: Walk, i: nat): S
    requires IsWalk(ch, s, w) && i <= |w|
    decreases i
  {
    if i == 0 then s else StateAt(ch, Next(ch, s, w[0]), w[1..], i - 1)
  }

  /** A walk wins if it gets to a state that satisfies the right side, through states that satisfy the
      left one. */
  ghost predicate Wins<S(!new)>(ch: Chain<S>, s: S, w: Walk)
    requires IsWalk(ch, s, w)
  {
    exists i :: 0 <= i <= |w| && ch.right(StateAt(ch, s, w, i)) && LeftUntil(ch, s, w, i)
  }

  ghost predicate LeftUntil<S(!new)>(ch: Chain<S>, s: S, w: Walk, i: nat)
    requires IsWalk(ch, s, w) && i <= |w|
  {
    forall j :: 0 <= j < i ==> ch.left(StateAt(ch, s, w, j))
  }

  // ----- All walks of one length ----------------------------------------------------------------------------

  // c and then any of the walks
  function Prefixed(c: Choice, ws: seq<Walk>): (r: seq<Walk>)
    ensures |r| == |ws| && forall k :: 0 <= k < |ws| ==> r[k] == [c] + ws[k]
  {
    if ws == [] then [] else Prefixed(c, ws[..|ws| - 1]) + [[c] + ws[|ws| - 1]]
  }

  // The walks that begin with one of the first arrows
  function WalksByArrows<S>(ch: Chain<S>, k: nat, s: S, n: nat): seq<Walk>
    requires n <= |ch.arrows(s)|
    decreases k, 1, n
  {
    if n == 0 then []
    else WalksByArrows(ch, k, s, n - 1) + Prefixed(Jump(n - 1), AllWalks(ch, k, ch.arrows(s)[n - 1].to))
  }

  /** The walks of k steps from s. */
  function AllWalks<S>(ch: Chain<S>, k: nat, s: S): seq<Walk>
    decreases k, 0, 0
  {
    if k == 0 then [[]]
    else Prefixed(Stay, AllWalks(ch, k - 1, s)) + WalksByArrows(ch, k - 1, s, |ch.arrows(s)|)
  }

  ghost predicate AreWalks<S(!new)>(ch: Chain<S>, s: S, ws: seq<Walk>) {
    forall k :: 0 <= k < |ws| ==> IsWalk(ch, s, ws[k])
  }

  lemma PrefixedAreWalks<S(!new)>(ch: Chain<S>, s: S, c: Choice, ws: seq<Walk>)
    requires Possible(ch, s, c) && AreWalks(ch, Next(ch, s, c), ws)
    ensures AreWalks(ch, s, Prefixed(c, ws))
  {
    forall k | 0 <= k < |ws| ensures IsWalk(ch, s, Prefixed(c, ws)[k]) {
      assert ([c] + ws[k])[1..] == ws[k];
      assert IsWalk(ch, Next(ch, s, c), ws[k]);
    }
  }

  lemma ConcatAreWalks<S(!new)>(ch: Chain<S>, s: S, a: seq<Walk>, b: seq<Walk>)
    requires AreWalks(ch, s, a) && AreWalks(ch, s, b)
    ensures AreWalks(ch, s, a + b)
  {
  }

  lemma {:induction false} ArrowsAreWalks<S(!new)>(ch: Chain<S>, k: nat, s: S, n: nat)
    requires n <= |ch.arrows(s)|
    ensures AreWalks(ch, s, WalksByArrows(ch, k, s, n))
    decreases k, 1, n
  {
    if n > 0 {
      ArrowsAreWalks(ch, k, s, n - 1);
      AllAreWalks(ch, k, ch.arrows(s)[n - 1].to);
      PrefixedAreWalks(ch, s, Jump(n - 1), AllWalks(ch, k, ch.arrows(s)[n - 1].to));
      ConcatAreWalks(ch, s, WalksByArrows(ch, k, s, n - 1),
                     Prefixed(Jump(n - 1), AllWalks(ch, k, ch.arrows(s)[n - 1].to)));
    }
  }

  lemma {:induction false} AllAreWalks<S(!new)>(ch: Chain<S>, k: nat, s: S)
    ensures AreWalks(ch, s, AllWalks(ch, k, s))
    decreases k, 0, 0
  {
    if k > 0 {
      AllAreWalks(ch, k - 1, s);
      PrefixedAreWalks(ch, s, Stay, AllWalks(ch, k - 1, s));
      ArrowsAreWalks(ch, k - 1, s, |ch.arrows(s)|);
      ConcatAreWalks(ch, s, Prefixed(Stay, AllWalks(ch, k - 1, s)), WalksByArrows(ch, k - 1, s, |ch.arrows(s)|));
    }
  }

  // ----- Each walk is counted once --------------------------------------------------------------------------

  ghost predicate Has(ws: seq<Walk>, w: Walk) {
    exists k :: 0 <= k < |ws| && ws[k] == w
  }

  ghost predicate Distinct(ws: seq<Walk>) {
    forall j, k :: 0 <= j < k < |ws| ==> ws[j] != ws[k]
  }

  lemma PrefixedHas(c: Choice, ws: seq<Walk>, w: Walk)
    ensures Has(Prefixed(c, ws), w) <==> w != [] && w[0] == c && Has(ws, w[1..])
    ensures Distinct(ws) ==> Distinct(Prefixed(c, ws))
  {
    var r := Prefixed(c, ws);
    forall k | 0 <= k < |ws| ensures r[k][0] == c && r[k][1..] == ws[k] {
    }
    if w != [] && w[0] == c && Has(ws, w[1..]) {
      var k :| 0 <= k < |ws| && ws[k] == w[1..];
      assert r[k] == w;
    }
    if Distinct(ws) {
      forall j, k | 0 <= j < k < |r| ensures r[j] != r[k] {
        assert r[j][1..] == ws[j] && r[k][1..] == ws[k];
      }
    }
  }

  lemma ConcatHas(a: seq<Walk>, b: seq<Walk>, w: Walk)
    ensures Has(a + b, w) <==> Has(a, w) || Has(b, w)
  {
    if Has(a, w) {
      var k :| 0 <= k < |a| && a[k] == w;
      assert (a + b)[k] == w;
    }
    if Has(b, w) {
      var k :| 0 <= k < |b| && b[k] == w;
      assert (a + b)[|a| + k] == w;
    }
  }

  lemma HasNothing(w: Walk)
    ensures !Has([], w)
  {
  }

  ghost predicate InBoth(a: seq<Walk>, b: seq<Walk>, w: Walk) {
    Has(a, w) && Has(b, w)
  }

  lemma ConcatDistinct(a: seq<Walk>, b: seq<Walk>)
    requires Distinct(a) && Distinct(b) && forall w :: !InBoth(a, b, w)
    ensures Distinct(a + b)
  {
    forall j, k | 0 <= j < k < |a + b| ensures (a + b)[j] != (a + b)[k] {
      if j < |a| && |a| <= k {
        assert !InBoth(a, b, a[j]);
        assert Has(a, a[j]) && Has(b, b[k - |a|]);
      }
    }
  }

  lemma {:induction false} ArrowsHave<S>(ch: Chain<S>, k: nat, s: S, n: nat, w: Walk)
    requires n <= |ch.arrows(s)|
    ensures Has(WalksByArrows(ch, k, s, n), w)
            <==> w != [] && w[0].Jump? && w[0].arrow < n && |w| == k + 1 && IsWalk(ch, s, w)
    decreases k, 1, n
  {
    hide AllWalks, Prefixed, Has;
    if n == 0 {
      HasNothing(w);
    } else {
      var ws := AllWalks(ch, k, ch.arrows(s)[n - 1].to);
      ArrowsHave(ch, k, s, n - 1, w);
      ConcatHas(WalksByArrows(ch, k, s, n - 1), Prefixed(Jump(n - 1), ws), w);
      PrefixedHas(Jump(n - 1), ws, w);
      if w != [] && w[0] == Jump(n - 1) {
        WalksAreAll(ch, k, ch.arrows(s)[n - 1].to, w[1..]);
      }
    }
  }

  /** Exactly the walks of k steps are listed. */
  lemma {:induction false} WalksAreAll<S>(ch: Chain<S>, k: nat, s: S, w: Walk)
    ensures Has(AllWalks(ch, k, s), w) <==> |w| == k && IsWalk(ch, s, w)
    decreases k, 0, 0
  {
    if k == 0 {
      if w == [] {
        assert AllWalks(ch, 0, s)[0] == w;
      }
    } else {
      var stays, n := AllWalks(ch, k - 1, s), |ch.arrows(s)|;
      ConcatHas(Prefixed(Stay, stays), WalksByArrows(ch, k - 1, s, n), w);
      PrefixedHas(Stay, stays, w);
      ArrowsHave(ch, k - 1, s, n, w);
      if w != [] && w[0] == Stay {
        WalksAreAll(ch, k - 1, s, w[1..]);
      }
    }
  }

  lemma ByArrowsUnfold<S>(ch: Chain<S>, k: nat, s: S, n: nat)
    requires 0 < n <= |ch.arrows(s)|
    ensures WalksByArrows(ch, k, s, n)
            == WalksByArrows(ch, k, s, n - 1) + Prefixed(Jump(n - 1), AllWalks(ch, k, ch.arrows(s)[n - 1].to))
  {
  }

  lemma OtherArrow<S>(ch: Chain<S>, k: nat, s: S, n: nat, w: Walk)
    requires 0 < n <= |ch.arrows(s)|
    ensures !InBoth(WalksByArrows(ch, k, s, n - 1), Prefixed(Jump(n - 1), AllWalks(ch, k, ch.arrows(s)[n - 1].to)), w)
  {
    hide AllWalks, WalksByArrows, Prefixed, IsWalk, Has;
    ArrowsHave(ch, k, s, n - 1, w);
    PrefixedHas(Jump(n - 1), AllWalks(ch, k, ch.arrows(s)[n - 1].to), w);
  }

  lemma {:induction false} ArrowsAreDistinct<S>(ch: Chain<S>, k: nat, s: S, n: nat)
    requires n <= |ch.arrows(s)|
    ensures Distinct(WalksByArrows(ch, k, s, n))
    decreases k, 1, n
  {
    if n > 0 {
      ArrowsAreDistinct(ch, k, s, n - 1);
      WalksAreDistinct(ch, k, ch.arrows(s)[n - 1].to);
      MoreAreDistinct(ch, k, s, n);
    }
  }

  lemma MoreAreDistinct<S>(ch: Chain<S>, k: nat, s: S, n: nat)
    requires 0 < n <= |ch.arrows(s)| && Distinct(WalksByArrows(ch, k, s, n - 1))
    requires Distinct(AllWalks(ch, k, ch.arrows(s)[n - 1].to))
    ensures Distinct(WalksByArrows(ch, k, s, n))
  {
    hide AllWalks, WalksByArrows, Distinct, Prefixed, Has, InBoth;
    var ws := AllWalks(ch, k, ch.arrows(s)[n - 1].to);
    var a, b := WalksByArrows(ch, k, s, n - 1), Prefixed(Jump(n - 1), ws);
    PrefixedHas(Jump(n - 1), ws, []);
    ByArrowsUnfold(ch, k, s, n);
    forall w ensures !InBoth(a, b, w) {
      OtherArrow(ch, k, s, n, w);
    }
    ConcatDistinct(a, b);
  }

  lemma AllWalksUnfold<S>(ch: Chain<S>, k: nat, s: S)
    requires k > 0
    ensures AllWalks(ch, k, s)
            == Prefixed(Stay, AllWalks(ch, k - 1, s)) + WalksByArrows(ch, k - 1, s, |ch.arrows(s)|)
  {
  }

  lemma NoneInBoth<S>(ch: Chain<S>, k: nat, s: S, w: Walk)
    ensures !InBoth(Prefixed(Stay, AllWalks(ch, k, s)), WalksByArrows(ch, k, s, |ch.arrows(s)|), w)
  {
    hide AllWalks, WalksByArrows, Prefixed, IsWalk, Has;
    PrefixedHas(Stay, AllWalks(ch, k, s), w);
    ArrowsHave(ch, k, s, |ch.arrows(s)|, w);
  }

  lemma LongerAreDistinct<S>(ch: Chain<S>, k: nat, s: S)
    requires k > 0 && Distinct(AllWalks(ch, k - 1, s))
    ensures Distinct(AllWalks(ch, k, s))
    decreases k - 1, 2, 0
  {
    hide AllWalks, WalksByArrows, Distinct, Prefixed, IsWalk, Has, InBoth;
    var stays, n := AllWalks(ch, k - 1, s), |ch.arrows(s)|;
    PrefixedHas(Stay, stays, []);
    ArrowsAreDistinct(ch, k - 1, s, n);
    AllWalksUnfold(ch, k, s);
    var a, b := Prefixed(Stay, stays), WalksByArrows(ch, k - 1, s, n);
    forall w ensures !InBoth(a, b, w) {
      NoneInBoth(ch, k - 1, s, w);
    }
    ConcatDistinct(a, b);
  }

  /** And each of them once. */
  lemma {:induction false} WalksAreDistinct<S>(ch: Chain<S>, k: nat, s: S)
    ensures Distinct(AllWalks(ch, k, s))
    decreases k, 0, 0
  {
    if k > 0 {
      WalksAreDistinct(ch, k - 1, s);
      LongerAreDistinct(ch, k, s);
    }
  }

  // ----- Sums over walks ----------------------------------------------------------------------------------------

  /** The probability of the walks among ws that win. */
  ghost function WinSum<S(!new)>(ch: Chain<S>, q: PosReal, s: S, ws: seq<Walk>): real
    requires AreWalks(ch, s, ws)
  {
    if ws == [] then 0.0
    else
      var w := ws[|ws| - 1];
      assert IsWalk(ch, s, w);
      WinSum(ch, q, s, ws[..|ws| - 1]) + (if Wins(ch, s, w) then Probability(ch, q, s, w) else 0.0)
  }

  /** The probability of all of them. */
  ghost function AllSum<S(!new)>(ch: Chain<S>, q: PosReal, s: S, ws: seq<Walk>): real
    requires AreWalks(ch, s, ws)
  {
    if ws == [] then 0.0
    else
      var w := ws[|ws| - 1];
      assert IsWalk(ch, s, w);
      AllSum(ch, q, s, ws[..|ws| - 1]) + Probability(ch, q, s, w)
  }

  /** The probability that a walk of k steps from s wins. */
  ghost function WalkValue<S(!new)>(ch: Chain<S>, q: PosReal, k: nat, s: S): real {
    AllAreWalks(ch, k, s);
    WinSum(ch, q, s, AllWalks(ch, k, s))
  }

  lemma WinsAtOnce<S(!new)>(ch: Chain<S>, s: S, w: Walk)
    requires IsWalk(ch, s, w) && ch.right(s)
    ensures Wins(ch, s, w)
  {
    assert StateAt(ch, s, w, 0) == s && LeftUntil(ch, s, w, 0);
  }

  lemma LeftUntilLater<S(!new)>(ch: Chain<S>, s: S, w: Walk, i: nat)
    requires w != [] && IsWalk(ch, s, w) && 1 <= i <= |w|
    ensures LeftUntil(ch, s, w, i) <==> ch.left(s) && LeftUntil(ch, Next(ch, s, w[0]), w[1..], i - 1)
  {
    var t, v := Next(ch, s, w[0]), w[1..];
    assert StateAt(ch, s, w, 0) == s;
    if LeftUntil(ch, s, w, i) {
      forall j | 0 <= j < i - 1 ensures ch.left(StateAt(ch, t, v, j)) {
        assert StateAt(ch, s, w, j + 1) == StateAt(ch, t, v, j);
      }
    }
    if ch.left(s) && LeftUntil(ch, t, v, i - 1) {
      forall j | 0 <= j < i ensures ch.left(StateAt(ch, s, w, j)) {
        if j > 0 {
          assert StateAt(ch, s, w, j) == StateAt(ch, t, v, j - 1);
        }
      }
    }
  }

  lemma WinsLater<S(!new)>(ch: Chain<S>, s: S, w: Walk)
    requires IsWalk(ch, s, w) && !ch.right(s)
    ensures Wins(ch, s, w) <==> w != [] && ch.left(s) && Wins(ch, Next(ch, s, w[0]), w[1..])
  {
    assert StateAt(ch, s, w, 0) == s;
    if Wins(ch, s, w) {
      var i :| 0 <= i <= |w| && ch.right(StateAt(ch, s, w, i)) && LeftUntil(ch, s, w, i);
      assert i > 0;
      LeftUntilLater(ch, s, w, i);
      assert StateAt(ch, s, w, i) == StateAt(ch, Next(ch, s, w[0]), w[1..], i - 1);
    }
    if w != [] && ch.left(s) && Wins(ch, Next(ch, s, w[0]), w[1..]) {
      var t, v := Next(ch, s, w[0]), w[1..];
      var i :| 0 <= i <= |v| && ch.right(StateAt(ch, t, v, i)) && LeftUntil(ch, t, v, i);
      LeftUntilLater(ch, s, w, i + 1);
      assert StateAt(ch, s, w, i + 1) == StateAt(ch, t, v, i);
    }
  }

  // ----- The first choice -----------------------------------------------------------------------------------------

  lemma {:induction false} SumsOfConcat<S(!new)>(ch: Chain<S>, q: PosReal, s: S, a: seq<Walk>, b: seq<Walk>)
    requires AreWalks(ch, s, a) && AreWalks(ch, s, b)
    ensures AreWalks(ch, s, a + b)
    ensures WinSum(ch, q, s, a + b) == WinSum(ch, q, s, a) + WinSum(ch, q, s, b)
    ensures AllSum(ch, q, s, a + b) == AllSum(ch, q, s, a) + AllSum(ch, q, s, b)
  {
    hide Wins, Probability;
    ConcatAreWalks(ch, s, a, b);
    if b == [] {
      assert a + b == a;
    } else {
      var rest := b[..|b| - 1];
      assert AreWalks(ch, s, rest);
      SumsOfConcat(ch, q, s, a, rest);
      assert (a + b)[..|a + b| - 1] == a + rest;
    }
  }

  lemma PrefixedProbability<S(!new)>(ch: Chain<S>, q: PosReal, s: S, c: Choice, w: Walk)
    requires Possible(ch, s, c) && IsWalk(ch, Next(ch, s, c), w)
    ensures IsWalk(ch, s, [c] + w)
    ensures Probability(ch, q, s, [c] + w) == Times(Chance(ch, q, s, c), Probability(ch, q, Next(ch, s, c), w))
    ensures !ch.right(s) ==> (Wins(ch, s, [c] + w) <==> ch.left(s) && Wins(ch, Next(ch, s, c), w))
  {
    hide Wins;
    assert ([c] + w)[1..] == w;
    if !ch.right(s) {
      WinsLater(ch, s, [c] + w);
    }
  }

  /** What the walks that begin with one choice contribute. */
  lemma {:induction false} SumsOfPrefixed<S(!new)>(ch: Chain<S>, q: PosReal, s: S, c: Choice, ws: seq<Walk>)
    requires Possible(ch, s, c) && AreWalks(ch, Next(ch, s, c), ws)
    ensures AreWalks(ch, s, Prefixed(c, ws))
    ensures AllSum(ch, q, s, Prefixed(c, ws)) == Times(Chance(ch, q, s, c), AllSum(ch, q, Next(ch, s, c), ws))
    ensures !ch.right(s) ==>
              WinSum(ch, q, s, Prefixed(c, ws))
              == if ch.left(s) then Times(Chance(ch, q, s, c), WinSum(ch, q, Next(ch, s, c), ws)) else 0.0
  {
    hide Wins, Probability, Times, Chance;
    var t := Next(ch, s, c);
    PrefixedAreWalks(ch, s, c, ws);
    if ws == [] {
      TimesAdds(Chance(ch, q, s, c), 0.0, 0.0);
    } else {
      var rest, w := ws[..|ws| - 1], ws[|ws| - 1];
      assert IsWalk(ch, t, w);
      SumsOfPrefixed(ch, q, s, c, rest);
      PrefixedProbability(ch, q, s, c, w);
      TimesAdds(Chance(ch, q, s, c), AllSum(ch, q, t, rest), Probability(ch, q, t, w));
      TimesAdds(Chance(ch, q, s, c), WinSum(ch, q, t, rest), if Wins(ch, t, w) then Probability(ch, q, t, w) else 0.0);
      assert Prefixed(c, ws)[..|ws| - 1] == Prefixed(c, rest);
    }
  }

  // The sum over the first arrows of chance times value behind the arrow
  ghost function ArrowSum<S(!new)>(ch: Chain<S>, q: PosReal, k: nat, s: S, n: nat): real
    requires n <= |ch.arrows(s)|
  {
    if n == 0 then 0.0
    else ArrowSum(ch, q, k, s, n - 1) + Times(ch.arrows(s)[n - 1].rate / q, WalkValue(ch, q, k, ch.arrows(s)[n - 1].to))
  }

  // The chance of the first arrows
  function ArrowChance<S>(ch: Chain<S>, q: PosReal, s: S, n: nat): real
    requires n <= |ch.arrows(s)|
  {
    if n == 0 then 0.0 else ArrowChance(ch, q, s, n - 1) + ch.arrows(s)[n - 1].rate / q
  }

  // Whatever the state, the walks of k steps from it have probability 1 together
  ghost predicate AddUpToOne<S(!new)>(ch: Chain<S>, q: PosReal, k: nat) {
    forall t :: AreWalks(ch, t, AllWalks(ch, k, t)) && AllSum(ch, q, t, AllWalks(ch, k, t)) == 1.0
  }

  lemma {:induction false} SumsOfArrows<S(!new)>(ch: Chain<S>, q: PosReal, k: nat, s: S, n: nat)
    requires n <= |ch.arrows(s)|
    requires AddUpToOne(ch, q, k)
    ensures AreWalks(ch, s, WalksByArrows(ch, k, s, n))
    ensures AllSum(ch, q, s, WalksByArrows(ch, k, s, n)) == ArrowChance(ch, q, s, n)
    ensures !ch.right(s) ==>
              WinSum(ch, q, s, WalksByArrows(ch, k, s, n)) == if ch.left(s) then ArrowSum(ch, q, k, s, n) else 0.0
    decreases n
  {
    hide Times, AllWalks;
    ArrowsAreWalks(ch, k, s, n);
    if n > 0 {
      var c, t := Jump(n - 1), ch.arrows(s)[n - 1].to;
      assert AreWalks(ch, t, AllWalks(ch, k, t)) && AllSum(ch, q, t, AllWalks(ch, k, t)) == 1.0;
      SumsOfArrows(ch, q, k, s, n - 1);
      SumsOfPrefixed(ch, q, s, c, AllWalks(ch, k, t));
      SumsOfConcat(ch, q, s, WalksByArrows(ch, k, s, n - 1), Prefixed(c, AllWalks(ch, k, t)));
      TimesOne(Chance(ch, q, s, c));
    }
  }

  lemma {:induction false} ArrowChances<S>(ch: Chain<S>, q: PosReal, s: S, n: nat)
    requires n <= |ch.arrows(s)|
    ensures ArrowChance(ch, q, s, n) == Out(ch.arrows(s)[..n]) / q
  {
    if n > 0 {
      ArrowChances(ch, q, s, n - 1);
      assert ch.arrows(s)[..n][..n - 1] == ch.arrows(s)[..n - 1];
      DivideAdds(Out(ch.arrows(s)[..n - 1]), ch.arrows(s)[n - 1].rate, q);
    }
  }

  lemma DivideAdds(x: real, y: real, q: PosReal)
    ensures (x + y) / q == x / q + y / q
  {
    var a, b := x / q, y / q;
    assert (a + b) * q == x + y;
  }

  lemma ChancesAddUp<S>(ch: Chain<S>, q: PosReal, s: S)
    ensures Chance(ch, q, s, Stay) + ArrowChance(ch, q, s, |ch.arrows(s)|) == 1.0
  {
    ArrowChances(ch, q, s, |ch.arrows(s)|);
    assert ch.arrows(s)[..|ch.arrows(s)|] == ch.arrows(s);
  }

  /** The probabilities of all walks of one length add up to 1. */
  lemma {:induction false} WalksAreExhaustive<S(!new)>(ch: Chain<S>, q: PosReal, k: nat)
    ensures AddUpToOne(ch, q, k)
    decreases k
  {
    hide Chance, ArrowChance, Times, Prefixed, WalksByArrows;
    if k > 0 {
      WalksAreExhaustive(ch, q, k - 1);
    }
    forall t ensures AreWalks(ch, t, AllWalks(ch, k, t)) && AllSum(ch, q, t, AllWalks(ch, k, t)) == 1.0 {
      AllAreWalks(ch, k, t);
      if k == 0 {
        var one: seq<Walk> := [[]];
        assert AllWalks(ch, k, t) == one && one[..0] == [];
      } else {
        FirstChoiceSums(ch, q, k, t);
        assert AllSum(ch, q, t, AllWalks(ch, k - 1, t)) == 1.0;
        TimesOne(Chance(ch, q, t, Stay));
        ChancesAddUp(ch, q, t);
      }
    }
  }

  lemma FirstChoiceSums<S(!new)>(ch: Chain<S>, q: PosReal, k: nat, s: S)
    requires k > 0
    requires AddUpToOne(ch, q, k - 1)
    ensures AreWalks(ch, s, AllWalks(ch, k, s))
    ensures AllSum(ch, q, s, AllWalks(ch, k, s))
            == Times(Chance(ch, q, s, Stay), AllSum(ch, q, s, AllWalks(ch, k - 1, s)))
               + ArrowChance(ch, q, s, |ch.arrows(s)|)
    ensures !ch.right(s) ==>
              WalkValue(ch, q, k, s)
              == if ch.left(s)
                 then Times(Chance(ch, q, s, Stay), WalkValue(ch, q, k - 1, s))
                      + ArrowSum(ch, q, k - 1, s, |ch.arrows(s)|)
                 else 0.0
  {
    hide Chance, ArrowChance, ArrowSum, Times, Prefixed, WalksByArrows, WinSum, AllSum, AllWalks;
    var stays, n := AllWalks(ch, k - 1, s), |ch.arrows(s)|;
    AllAreWalks(ch, k, s);
    assert AreWalks(ch, s, stays);
    AllWalksUnfold(ch, k, s);
    SumsOfPrefixed(ch, q, s, Stay, stays);
    SumsOfArrows(ch, q, k - 1, s, n);
    SumsOfConcat(ch, q, s, Prefixed(Stay, stays), WalksByArrows(ch, k - 1, s, n));
  }

  lemma {:induction false} AllWin<S(!new)>(ch: Chain<S>, q: PosReal, s: S, ws: seq<Walk>)
    requires AreWalks(ch, s, ws) && ch.right(s)
    ensures WinSum(ch, q, s, ws) == AllSum(ch, q, s, ws)
  {
    hide Wins, Probability;
    if ws != [] {
      assert AreWalks(ch, s, ws[..|ws| - 1]) && IsWalk(ch, s, ws[|ws| - 1]);
      AllWin(ch, q, s, ws[..|ws| - 1]);
      WinsAtOnce(ch, s, ws[|ws| - 1]);
    }
  }

  lemma NoStepWins<S(!new)>(ch: Chain<S>, q: PosReal, s: S)
    requires !ch.right(s)
    ensures WalkValue(ch, q, 0, s) == 0.0
  {
    hide Wins;
    var none: Walk, one: seq<Walk> := [], [[]];
    AllAreWalks(ch, 0, s);
    assert AllWalks(ch, 0, s) == one && one[..0] == [] && one[0] == none;
    WinsLater(ch, s, none);
    assert WinSum(ch, q, s, one[..0]) == 0.0;
  }

  /** The value of a state, by its first step. */
  lemma WalkRecursion<S(!new)>(ch: Chain<S>, q: PosReal, k: nat, s: S)
    ensures ch.right(s) ==> WalkValue(ch, q, k, s) == 1.0
    ensures !ch.right(s) && (k == 0 || !ch.left(s)) ==> WalkValue(ch, q, k, s) == 0.0
    ensures !ch.right(s) && k > 0 && ch.left(s) ==>
              WalkValue(ch, q, k, s)
              == Times(1.0 - Out(ch.arrows(s)) / q, WalkValue(ch, q, k - 1, s))
                 + ArrowSum(ch, q, k - 1, s, |ch.arrows(s)|)
  {
    hide Times, ArrowSum, ArrowChance, Wins, Out, AllWalks, WinSum, AllSum;
    AllAreWalks(ch, k, s);
    WalksAreExhaustive(ch, q, k);
    if ch.right(s) {
      AllWin(ch, q, s, AllWalks(ch, k, s));
    } else if k == 0 {
      NoStepWins(ch, q, s);
    } else {
      WalksAreExhaustive(ch, q, k - 1);
      FirstChoiceSums(ch, q, k, s);
    }
  }
}
