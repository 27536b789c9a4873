/**
 Casting lines with three coins. The random generator is modelled as the
 sequence of its fair coin draws (one boolean per draw); every operation
 takes the draws still to come and hands back the ones it did not use.
 */
module Thrower {
  import opened Lines

  /** The value of one coin: 2 for a true draw, 3 for a false one. */
  function Coin(draw: bool): (c: u8)
    ensures c == 2 || c == 3
    ensures c == 2 <==> draw
  {
    if draw then 2 else 3
  }

  /** The total of the three coins drawn at positions k, k+1 and k+2. */
  function CoinTotal(draws: seq<bool>, k: nat): int
    requires k + 3 <= |draws|
  {
    Coin(draws[k]) as int + Coin(draws[k + 1]) as int + Coin(draws[k + 2]) as int
  }

  /** Three coin values always add up to one of 6, 7, 8, 9, so the
      classification of their total never takes its panicking arm. */
  lemma ThrowNeverPanics(a: bool, b: bool, c: bool)
    ensures 6 <= Coin(a) + Coin(b) + Coin(c) <= 9
    ensures Classify(Coin(a) + Coin(b) + Coin(c)).Some?
  {
  }

  /** Throws three coins: the line whose number is their total, and the
      draws after the three it used. */
  function Throw(draws: seq<bool>): (r: (Line, seq<bool>))
    requires |draws| >= 3
    ensures Code(r.0) as int == CoinTotal(draws, 0)
    ensures r.1 == draws[3..]
  {
    var rest := draws[3..];
    match Classify(Coin(draws[0]) + Coin(draws[1]) + Coin(draws[2]))
    case Some(l) => (l, rest)
    case None => assert false; (StaticYang, rest)
  }

  /** The line three coin draws produce, for counting outcomes. */
  function LineOf(a: bool, b: bool, c: bool): Line
  {
    Throw([a, b, c]).0
  }

  /** All three-coin outcomes that produce line `l`. */
  function Outcomes(l: Line): set<(bool, bool, bool)>
  {
    set a: bool, b: bool, c: bool | LineOf(a, b, c) == l :: (a, b, c)
  }

  /** The line of each of the eight coin outcomes, by the number of true
      (two-valued) draws among them. */
  lemma LineOfTable(a: bool, b: bool, c: bool)
    ensures LineOf(a, b, c) == ChangingYin <==> a && b && c
    ensures LineOf(a, b, c) == ChangingYang <==> !a && !b && !c
    ensures LineOf(a, b, c) == StaticYang <==> (a && b && !c) || (a && !b && c) || (!a && b && c)
    ensures LineOf(a, b, c) == StaticYin <==> (a && !b && !c) || (!a && b && !c) || (!a && !b && c)
  {
    var l := LineOf(a, b, c);
    assert Code(l) as int == CoinTotal([a, b, c], 0);
  }

  /** The outcomes of line `l` are exactly the members of `expected`. */
  lemma {:induction false} OutcomesAre(l: Line, expected: set<(bool, bool, bool)>)
    requires forall a: bool, b: bool, c: bool :: LineOf(a, b, c) == l <==> (a, b, c) in expected
    ensures Outcomes(l) == expected
  {
    forall t | t in Outcomes(l)
      ensures t in expected
    {
      var (a, b, c) := t;
      assert LineOf(a, b, c) == l;
    }
    forall t | t in expected
      ensures t in Outcomes(l)
    {
      var (a, b, c) := t;
      assert LineOf(a, b, c) == l;
    }
  }

  /** The outcomes of line `l` are those listed in `expected`, checked
      against the table of every triple. */
  lemma {:induction false} OutcomesFromTable(l: Line, expected: set<(bool, bool, bool)>)
    requires forall a: bool, b: bool, c: bool ::
      (a, b, c) in expected <==>
        || (l == ChangingYin && a && b && c)
        || (l == ChangingYang && !a && !b && !c)
        || (l == StaticYang && ((a && b && !c) || (a && !b && c) || (!a && b && c)))
        || (l == StaticYin && ((a && !b && !c) || (!a && b && !c) || (!a && !b && c)))
    ensures Outcomes(l) == expected
  {
    forall a: bool, b: bool, c: bool
      ensures LineOf(a, b, c) == l <==> (a, b, c) in expected
    {
      LineOfTable(a, b, c);
    }
    OutcomesAre(l, expected);
  }

  /** The single outcome of a changing yin: three true draws. */
  lemma OutcomesChangingYin()
    ensures Outcomes(ChangingYin) == {(true, true, true)}
    ensures |Outcomes(ChangingYin)| == 1
  {
    OutcomesFromTable(ChangingYin, {(true, true, true)});
  }

  /** The three outcomes of a static yang: exactly two true draws. */
  lemma OutcomesStaticYang()
    ensures Outcomes(StaticYang) == {(true, true, false), (true, false, true), (false, true, true)}
    ensures |Outcomes(StaticYang)| == 3
  {
    OutcomesFromTable(StaticYang, {(true, true, false), (true, false, true), (false, true, true)});
  }

  /** The three outcomes of a static yin: exactly one true draw. */
  lemma OutcomesStaticYin()
    ensures Outcomes(StaticYin) == {(true, false, false), (false, true, false), (false, false, true)}
    ensures |Outcomes(StaticYin)| == 3
  {
    OutcomesFromTable(StaticYin, {(true, false, false), (false, true, false), (false, false, true)});
  }

  /** The single outcome of a changing yang: no true draw. */
  lemma OutcomesChangingYang()
    ensures Outcomes(ChangingYang) == {(false, false, false)}
    ensures |Outcomes(ChangingYang)| == 1
  {
    OutcomesFromTable(ChangingYang, {(false, false, false)});
  }

  /** Of the eight equally likely outcomes of three fair coins, one gives a
      changing yin, three a static yang, three a static yin and one a
      changing yang: probabilities 1/8, 3/8, 3/8, 1/8. */
  lemma Weighting()
    ensures |Outcomes(ChangingYin)| == 1 && |Outcomes(StaticYang)| == 3
    ensures |Outcomes(StaticYin)| == 3 && |Outcomes(ChangingYang)| == 1
  {
    OutcomesChangingYin();
    OutcomesStaticYang();
    OutcomesStaticYin();
    OutcomesChangingYang();
  }

  /** Throws `n` lines one after another: line `i` is made from draws
      3i, 3i+1 and 3i+2, and exactly the first 3n draws are used. */
  function Throws(draws: seq<bool>, n: nat): (r: (seq<Line>, seq<bool>))
    requires 3 * n <= |draws|
    ensures |r.0| == n
    ensures forall i :: 0 <= i < n ==> Code(r.0[i]) as int == CoinTotal(draws, 3 * i)
    ensures r.1 == draws[3 * n..]
    decreases n
  {
    if n == 0 then ([], draws)
    else
      var (l, rest) := Throw(draws);
      var (ls, rest') := Throws(rest, n - 1);
      assert forall i :: 0 < i < n ==> CoinTotal(rest, 3 * (i - 1)) == CoinTotal(draws, 3 * i);
      ([l] + ls, rest')
  }

  /** Dropping the first `k` draws shifts every coin total by `k`. */
  lemma CoinTotalShift(draws: seq<bool>, k: nat, j: nat)
    requires k + j + 3 <= |draws|
    ensures CoinTotal(draws[k..], j) == CoinTotal(draws, k + j)
  {
    assert draws[k..][j] == draws[k + j];
    assert draws[k..][j + 1] == draws[k + j + 1];
    assert draws[k..][j + 2] == draws[k + j + 2];
  }

  /** The lines of `n` throws are the only lines with the coin totals of
      the first 3n draws, position by position. */
  lemma ThrowsUnique(draws: seq<bool>, n: nat, ls: seq<Line>)
    requires 3 * n <= |draws|
    requires |ls| == n
    requires forall i :: 0 <= i < n ==> Code(ls[i]) as int == CoinTotal(draws, 3 * i)
    ensures ls == Throws(draws, n).0
  {
    var ts := Throws(draws, n).0;
    forall i | 0 <= i < n
      ensures ls[i] == ts[i]
    {
      CodeInjective(ls[i], ts[i]);
    }
  }

  /** Throwing `m` lines and then `n` more from what is left is throwing
      `m + n` lines: one thrower can be used for any number of throws before
      a hexagram, and each throw picks up where the previous one stopped. */
  lemma ThrowsCompose(draws: seq<bool>, m: nat, n: nat)
    requires 3 * (m + n) <= |draws|
    ensures Throws(draws, m + n).0 == Throws(draws, m).0 + Throws(Throws(draws, m).1, n).0
    ensures Throws(draws, m + n).1 == Throws(Throws(draws, m).1, n).1
  {
    var rest := draws[3 * m..];
    ThrowsAppend(draws, m, Throws(draws, m).0, Throws(rest, n).0);
    assert rest[3 * n..] == draws[3 * (m + n)..];
  }

  /** Lines for the first m triples of draws followed by lines for the
      next ones are the lines for all of them. */
  lemma ThrowsAppend(draws: seq<bool>, m: nat, first: seq<Line>, second: seq<Line>)
    requires 3 * (m + |second|) <= |draws|
    requires |first| == m
    requires forall i :: 0 <= i < m ==> Code(first[i]) as int == CoinTotal(draws, 3 * i)
    requires forall i :: 0 <= i < |second| ==> Code(second[i]) as int == CoinTotal(draws[3 * m..], 3 * i)
    ensures first + second == Throws(draws, m + |second|).0
  {
    var both := first + second;
    forall i | 0 <= i < |both|
      ensures Code(both[i]) as int == CoinTotal(draws, 3 * i)
    {
      if i >= m {
        assert both[i] == second[i - m];
        CoinTotalShift(draws, 3 * m, 3 * (i - m));
      }
    }
    ThrowsUnique(draws, |both|, both);
  }

  /** The six lines of a hexagram, drawn in order into a hexagram that
      starts out as six static yang placeholders: every slot is overwritten,
      line `i` comes from draws 3i..3i+2, and exactly 18 draws are used. */
  method DrawHexagram(draws: seq<bool>) returns (h: Hexagram, rest: seq<bool>)
    requires |draws| >= 18
    ensures forall i :: 0 <= i < 6 ==> Code(h[i]) as int == CoinTotal(draws, 3 * i)
    ensures rest == draws[18..]
    ensures (h, rest) == Throws(draws, 6)
  {
    var throws: seq<Line> := [StaticYang, StaticYang, StaticYang, StaticYang, StaticYang, StaticYang];
    rest := draws;
    for idx := 0 to 6
      invariant |throws| == 6
      invariant rest == draws[3 * idx..]
      invariant forall i :: 0 <= i < idx ==> Code(throws[i]) as int == CoinTotal(draws, 3 * i)
    {
      var (line, next) := Throw(rest);
      throws := throws[idx := line];
      rest := next;
    }
    h := throws;
    ThrowsUnique(draws, 6, h);
  }
}
