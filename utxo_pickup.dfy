// Greedy coin selection (core/utxo_pickup.go): pick the smallest single utxo
// above the wanted amount, or else the smallest ascending run of the utxos
// below it that reaches the amount.

module UtxoPickup {
  import opened Common

  /** A spendable output as the selector sees it (UtxoInterface): something
      with an amount; id stands for the identity of the underlying value. */
  datatype Utxo = Utxo(id: nat, amount: nat)

  /** Go's uint64 amounts. */
  predicate AmountsFit(us: seq<Utxo>)
  {
    forall i :: 0 <= i < |us| ==> us[i].amount < U64
  }

  /** Utxos.Swap: exchanges two entries of the slice in place. It is the swap
      of the sort.Interface that sort.Sort drives; the sort itself is modelled
      on values by SortByAmount below, so no member here calls it. */
  method Swap(c: array<Utxo>, i: nat, j: nat)
    requires i < c.Length && j < c.Length
    modifies c
    ensures c[..] == old(c[..])[i := old(c[j])][j := old(c[i])]
    ensures multiset(c[..]) == multiset(old(c[..]))
  {
    c[i], c[j] := c[j], c[i];
  }

  // ---------------------------------------------------------------------------
  // find_min

  /** The first utxo of least amount, as find_min's scan keeps it. */
  function MinOf(us: seq<Utxo>): (m: Utxo)
    requires |us| > 0
    ensures m in us
  {
    if |us| == 1 then us[0]
    else
      var m := MinOf(us[..|us| - 1]);
      if us[|us| - 1].amount < m.amount then us[|us| - 1] else m
  }

  /** MinOf is the first element whose amount is least. */
  lemma {:induction false} MinOfFirstMinimal(us: seq<Utxo>)
    requires |us| > 0
    ensures MinOf(us) in us
    ensures forall k :: 0 <= k < |us| ==> MinOf(us).amount <= us[k].amount
    ensures exists i :: 0 <= i < |us| && us[i] == MinOf(us) && forall k :: 0 <= k < i ==> us[k].amount > MinOf(us).amount
  {
    if |us| > 1 {
      var p := us[..|us| - 1];
      MinOfFirstMinimal(p);
      assert forall k :: 0 <= k < |p| ==> p[k] == us[k];
      var i :| 0 <= i < |p| && p[i] == MinOf(p) && forall k :: 0 <= k < i ==> p[k].amount > MinOf(p).amount;
      if us[|us| - 1].amount < MinOf(p).amount {
        assert us[|us| - 1] == MinOf(us);
      } else {
        assert us[i] == MinOf(us);
      }
    }
  }

  /** find_min: the source reads utxos[0], so the list must not be empty. */
  method FindMin(utxos: seq<Utxo>) returns (minUtxo: Utxo)
    requires |utxos| > 0
    ensures minUtxo == MinOf(utxos)
  {
    var amount := utxos[0].amount;
    minUtxo := utxos[0];
    for i := 0 to |utxos|
      invariant i == 0 ==> minUtxo == utxos[0]
      invariant i > 0 ==> minUtxo == MinOf(utxos[..i])
      invariant amount == minUtxo.amount
    {
      assert i > 0 ==> utxos[..i + 1][..i] == utxos[..i];
      if utxos[i].amount < amount {
        minUtxo := utxos[i];
        amount := minUtxo.amount;
      }
    }
    assert utxos[..|utxos|] == utxos;
  }

  // ---------------------------------------------------------------------------
  // The two buckets

  /** The utxos above the amount, in input order. */
  function Greaters(us: seq<Utxo>, amount: nat): (r: seq<Utxo>)
    ensures forall u :: u in r ==> u.amount > amount
  {
    if |us| == 0 then []
    else Greaters(us[..|us| - 1], amount) + (if us[|us| - 1].amount > amount then [us[|us| - 1]] else [])
  }

  /** The utxos below the amount, in input order. */
  function Lessers(us: seq<Utxo>, amount: nat): (r: seq<Utxo>)
    ensures forall u :: u in r ==> u.amount < amount
  {
    if |us| == 0 then []
    else Lessers(us[..|us| - 1], amount) + (if us[|us| - 1].amount < amount then [us[|us| - 1]] else [])
  }

  /** Each bucket holds exactly the utxos on its side of the amount, and both
      are drawn from the input. */
  lemma {:induction false} BucketsExact(us: seq<Utxo>, amount: nat)
    ensures forall u :: u in Greaters(us, amount) <==> u in us && u.amount > amount
    ensures forall u :: u in Lessers(us, amount) <==> u in us && u.amount < amount
    ensures multiset(Greaters(us, amount)) <= multiset(us)
    ensures multiset(Lessers(us, amount)) <= multiset(us)
  {
    if |us| > 0 {
      var p := us[..|us| - 1];
      BucketsExact(p, amount);
      Unsnoc(us);
    }
  }

  // ---------------------------------------------------------------------------
  // Sorting the lessers (sort.Sort by Less, which is by amount)

  predicate Ascending(s: seq<Utxo>)
  {
    forall i, j :: 0 <= i < j < |s| ==> s[i].amount <= s[j].amount
  }

  function Insert(x: Utxo, s: seq<Utxo>): seq<Utxo>
  {
    if |s| == 0 then [x]
    else if x.amount <= s[0].amount then [x] + s
    else [s[0]] + Insert(x, s[1..])
  }

  lemma {:induction false} InsertAscending(x: Utxo, s: seq<Utxo>)
    requires Ascending(s)
    ensures Ascending(Insert(x, s))
    ensures |Insert(x, s)| > 0 && (Insert(x, s)[0] == x || (|s| > 0 && Insert(x, s)[0] == s[0]))
  {
    if |s| > 0 && x.amount > s[0].amount {
      var t := s[1..];
      assert Ascending(t);
      InsertAscending(x, t);
      var r := Insert(x, t);
      assert s[0].amount <= r[0].amount;
      assert Insert(x, s) == [s[0]] + r;
    }
  }

  lemma {:induction false} InsertMultiset(x: Utxo, s: seq<Utxo>)
    ensures multiset(Insert(x, s)) == multiset(s) + multiset{x}
  {
    if |s| > 0 && x.amount > s[0].amount {
      InsertMultiset(x, s[1..]);
      assert s == [s[0]] + s[1..];
    }
  }

  /** The order the model gives sort.Sort's result (an insertion sort). */
  function SortByAmount(s: seq<Utxo>): seq<Utxo>
  {
    if |s| == 0 then [] else Insert(s[0], SortByAmount(s[1..]))
  }

  lemma {:induction false} SortByAmountSorts(s: seq<Utxo>)
    ensures Ascending(SortByAmount(s))
    ensures multiset(SortByAmount(s)) == multiset(s)
  {
    if |s| > 0 {
      SortByAmountSorts(s[1..]);
      InsertAscending(s[0], SortByAmount(s[1..]));
      InsertMultiset(s[0], SortByAmount(s[1..]));
      Uncons(s);
    }
  }

  // ---------------------------------------------------------------------------
  // Accumulating the sorted lessers

  function Sum(s: seq<Utxo>): nat
  {
    if |s| == 0 then 0 else Sum(s[..|s| - 1]) + s[|s| - 1].amount
  }

  lemma {:induction false} SumAppend(a: seq<Utxo>, b: seq<Utxo>)
    ensures Sum(a + b) == Sum(a) + Sum(b)
  {
    if |b| > 0 {
      SumAppend(a, b[..|b| - 1]);
      assert (a + b)[..|a + b| - 1] == a + b[..|b| - 1];
    } else {
      assert a + b == a;
    }
  }

  lemma {:induction false} SumPrefixBelow(s: seq<Utxo>, m: nat)
    requires m <= |s|
    ensures Sum(s[..m]) <= Sum(s)
  {
    SumAppend(s[..m], s[m..]);
    assert s[..m] + s[m..] == s;
  }

  /** Taking the last element off a and the same element off b keeps the two
      permutations of each other. */
  lemma RemoveMatching(a: seq<Utxo>, b: seq<Utxo>, j: nat)
    requires multiset(a) == multiset(b) && |a| > 0 && j < |b| && b[j] == a[|a| - 1]
    ensures multiset(a[..|a| - 1]) == multiset(b[..j] + b[j + 1..])
  {
    var x := a[|a| - 1];
    assert a == a[..|a| - 1] + [x];
    Pivot(b, j);
    assert multiset(b[..j] + b[j + 1..]) == multiset(b) - multiset{x};
    assert multiset(a[..|a| - 1]) == multiset(a) - multiset{x};
  }

  /** The sum is the sum without element j plus that element's amount. */
  lemma SumRemoveAt(b: seq<Utxo>, j: nat)
    requires j < |b|
    ensures Sum(b) == Sum(b[..j] + b[j + 1..]) + b[j].amount
  {
    var l, r, x := b[..j], b[j + 1..], b[j];
    calc {
      Sum(b);
    == { Pivot(b, j); }
      Sum(l + [x] + r);
    == { SumAppend(l + [x], r); }
      Sum(l + [x]) + Sum(r);
    == { SumAppend(l, [x]); assert [x][..0] == []; }
      Sum(l) + x.amount + Sum(r);
    == { SumAppend(l, r); }
      Sum(l + r) + x.amount;
    }
  }

  /** The sum does not depend on the order. */
  lemma {:induction false} SumPermutation(a: seq<Utxo>, b: seq<Utxo>)
    requires multiset(a) == multiset(b)
    ensures Sum(a) == Sum(b)
    decreases |a|
  {
    if |a| > 0 {
      var x := a[|a| - 1];
      assert x in multiset(b);
      var j :| 0 <= j < |b| && b[j] == x;
      RemoveMatching(a, b, j);
      SumPermutation(a[..|a| - 1], b[..j] + b[j + 1..]);
      SumRemoveAt(b, j);
    } else {
      assert multiset(b) == multiset{};
    }
  }

  /** The shortest prefix (of at least n + 1 elements) whose sum reaches the
      amount, if there is one: where the accumulation loop breaks. */
  function CutFrom(s: seq<Utxo>, amount: nat, n: nat): (r: Option<nat>)
    requires n <= |s|
    ensures r.Some? ==> n < r.value <= |s| && Sum(s[..r.value]) >= amount
    decreases |s| - n
  {
    if n == |s| then None
    else if Sum(s[..n + 1]) >= amount then Some(n + 1)
    else CutFrom(s, amount, n + 1)
  }

  function Cut(s: seq<Utxo>, amount: nat): (r: Option<nat>)
    ensures r.Some? ==> 0 < r.value <= |s| && Sum(s[..r.value]) >= amount
  {
    CutFrom(s, amount, 0)
  }

  lemma {:induction false} CutFromShortest(s: seq<Utxo>, amount: nat, n: nat)
    requires n <= |s|
    ensures CutFrom(s, amount, n).Some? ==>
              var m := CutFrom(s, amount, n).value;
              n < m <= |s| && Sum(s[..m]) >= amount && forall k :: n < k < m ==> Sum(s[..k]) < amount
    ensures CutFrom(s, amount, n).None? <==> forall k :: n < k <= |s| ==> Sum(s[..k]) < amount
    decreases |s| - n
  {
    if n < |s| && Sum(s[..n + 1]) < amount {
      CutFromShortest(s, amount, n + 1);
    }
  }

  /** The loop stops at the shortest prefix that reaches the amount, and finds
      none exactly when the sum of all of them falls short (or there are none). */
  lemma CutShortest(s: seq<Utxo>, amount: nat)
    ensures Cut(s, amount).Some? ==>
              var m := Cut(s, amount).value;
              1 <= m <= |s| && Sum(s[..m]) >= amount && forall k :: 1 <= k < m ==> Sum(s[..k]) < amount
    ensures Cut(s, amount).None? <==> |s| == 0 || Sum(s) < amount
  {
    CutFromShortest(s, amount, 0);
    if |s| > 0 {
      assert s[..|s|] == s;
      if Sum(s) < amount {
        forall k | 0 < k <= |s| ensures Sum(s[..k]) < amount {
          SumPrefixBelow(s, k);
        }
      }
    }
  }

  // ---------------------------------------------------------------------------
  // Select_utxo_Greedy

  /** The selection and its change, or "Amount Not Enough to pay". */
  datatype Picked = Picked(taken: seq<Utxo>, change: nat) | NotEnough

  /** The outcome for a given ascending order of the lessers. */
  function GreedyOutcome(us: seq<Utxo>, amount: nat, sorted: seq<Utxo>): Picked
  {
    var greaters := Greaters(us, amount);
    if |greaters| > 0 then
      Picked([MinOf(greaters)], MinOf(greaters).amount - amount)
    else if |Lessers(us, amount)| > 0 then
      match Cut(sorted, amount)
      case None => NotEnough
      case Some(n) => Picked(sorted[..n], Sum(sorted[..n]) - amount)
    else Picked([], 0)
  }

  /** The first loop of Select_utxo_Greedy: the two buckets; a utxo equal to
      the amount goes in neither. */
  method Partition(utxos: seq<Utxo>, amount: nat) returns (greaters: seq<Utxo>, lessers: seq<Utxo>)
    ensures greaters == Greaters(utxos, amount) && lessers == Lessers(utxos, amount)
  {
    greaters := [];
    lessers := [];
    for i := 0 to |utxos|
      invariant greaters == Greaters(utxos[..i], amount)
      invariant lessers == Lessers(utxos[..i], amount)
    {
      assert utxos[..i + 1][..i] == utxos[..i];
      if utxos[i].amount > amount {
        greaters := greaters + [utxos[i]];
      }
      if utxos[i].amount < amount {
        lessers := lessers + [utxos[i]];
      }
    }
    assert utxos[..|utxos|] == utxos;
  }

  /** The accumulation loop as written, over the sorted lessers: the taken
      prefix and the change where the uint64 running sum reaches the amount,
      or "Amount Not Enough to pay". */
  function AccumulatedWrapped(sorted: seq<Utxo>, amount: nat): Picked
  {
    match CutWrapped(sorted, amount, 0, 0)
    case None => NotEnough
    case Some((n, change)) => Picked(sorted[..n], change)
  }

  /** Select_utxo_Greedy as written, for a given ascending order of the
      lessers: GreedyOutcome with the uint64 accumulator in its second branch. */
  function GreedyWrapped(us: seq<Utxo>, amount: nat, sorted: seq<Utxo>): Picked
  {
    if |Greaters(us, amount)| == 0 && |Lessers(us, amount)| > 0 then AccumulatedWrapped(sorted, amount)
    else GreedyOutcome(us, amount, sorted)
  }

  /** The accumulation loop over the sorted lessers, with the change. */
  method Accumulate(sorted: seq<Utxo>, amount: nat) returns (r: Picked)
    requires amount > 0
    ensures r == AccumulatedWrapped(sorted, amount)
  {
    var taken: seq<Utxo> := [];
    var accum: nat := 0;
    var change: nat := 0;
    var i := 0;
    while i < |sorted|
      invariant 0 <= i <= |sorted|
      invariant taken == sorted[..i] && accum < amount
      invariant CutWrapped(sorted, amount, 0, 0) == CutWrapped(sorted, amount, i, accum)
    {
      assert sorted[..i + 1] == sorted[..i] + [sorted[i]];
      accum := (accum + sorted[i].amount) % U64;
      taken := taken + [sorted[i]];
      i := i + 1;
      if accum >= amount {
        change := accum - amount;
        break;
      }
    }
    if accum < amount {
      return NotEnough;
    }
    return Picked(taken, change);
  }

  method SelectUtxoGreedy(utxos: seq<Utxo>, amount: nat) returns (r: Picked)
    ensures r == GreedyWrapped(utxos, amount, SortByAmount(Lessers(utxos, amount)))
  {
    var greaters, lessers := Partition(utxos, amount);
    if |greaters| > 0 {
      var minGreater := FindMin(greaters);
      return Picked([minGreater], minGreater.amount - amount);
    } else if |lessers| > 0 {
      assert lessers[0] in lessers;
      var sorted := SortByAmount(lessers);
      r := Accumulate(sorted, amount);
      return r;
    }
    return Picked([], 0);
  }

  /** Where the exact running sum from n first reaches the amount, and the
      change there. */
  function ExactCut(s: seq<Utxo>, amount: nat, n: nat): Option<(nat, nat)>
    requires n <= |s|
  {
    match CutFrom(s, amount, n)
    case None => None
    case Some(m) => var change: nat := Sum(s[..m]) - amount; Some((m, change))
  }

  /** While the running sum cannot wrap, the loop as written stops where the
      exact sum first reaches the amount, with the same change. */
  lemma {:induction false} CutWrappedExact(s: seq<Utxo>, amount: nat, n: nat, accum: nat)
    requires n <= |s| && Sum(s) < U64 && accum == Sum(s[..n])
    ensures CutWrapped(s, amount, n, accum) == ExactCut(s, amount, n)
    decreases |s| - n
  {
    if n < |s| {
      CutStep(s, amount, n, accum);
      if accum + s[n].amount < amount {
        CutWrappedExact(s, amount, n + 1, accum + s[n].amount);
      }
    } else {
      assert CutFrom(s, amount, n) == None;
    }
  }

  /** One element of both loops: the wrapped and the exact running sums agree,
      so both stop at n + 1 or both go on. */
  lemma CutStep(s: seq<Utxo>, amount: nat, n: nat, accum: nat)
    requires n < |s| && Sum(s) < U64 && accum == Sum(s[..n])
    ensures accum + s[n].amount == Sum(s[..n + 1])
    ensures accum + s[n].amount >= amount ==> CutWrapped(s, amount, n, accum) == ExactCut(s, amount, n)
    ensures accum + s[n].amount < amount ==>
              CutWrapped(s, amount, n, accum) == CutWrapped(s, amount, n + 1, accum + s[n].amount)
              && ExactCut(s, amount, n) == ExactCut(s, amount, n + 1)
  {
    SumStep(s, n);
    SumPrefixBelow(s, n + 1);
    CutWrappedNoWrap(s, amount, n, accum);
  }

  /** One step of the loop as written when the running sum does not wrap. */
  lemma CutWrappedNoWrap(s: seq<Utxo>, amount: nat, n: nat, accum: nat)
    requires n < |s| && accum + s[n].amount < U64
    ensures var a := accum + s[n].amount;
            CutWrapped(s, amount, n, accum) == if a >= amount then Some((n + 1, a - amount)) else CutWrapped(s, amount, n + 1, a)
  {
    NoWrap(accum + s[n].amount);
  }

  /** The prefix sum one element further. */
  lemma SumStep(s: seq<Utxo>, n: nat)
    requires n < |s|
    ensures Sum(s[..n + 1]) == Sum(s[..n]) + s[n].amount
  {
    assert s[..n + 1][..n] == s[..n];
  }

  /** A sum below 2^64 is its own uint64 value. */
  lemma NoWrap(a: nat)
    requires a < U64
    ensures a % U64 == a
  {
  }

  /** For lessers summing below 2^64 the selection as written is the greedy
      outcome, so what the next lemmas prove about GreedyOutcome holds for it. */
  lemma GreedyWrappedExact(us: seq<Utxo>, amount: nat, sorted: seq<Utxo>)
    requires Sum(sorted) < U64
    ensures GreedyWrapped(us, amount, sorted) == GreedyOutcome(us, amount, sorted)
  {
    assert sorted[..0] == [];
    CutWrappedExact(sorted, amount, 0, 0);
  }

  /** The same for Select_utxo_Greedy's own order of the lessers. */
  lemma SelectionExactWhenFits(us: seq<Utxo>, amount: nat)
    requires Sum(Lessers(us, amount)) < U64
    ensures var sorted := SortByAmount(Lessers(us, amount));
            GreedyWrapped(us, amount, sorted) == GreedyOutcome(us, amount, sorted)
  {
    var sorted := SortByAmount(Lessers(us, amount));
    SortByAmountSorts(Lessers(us, amount));
    SumPermutation(sorted, Lessers(us, amount));
    GreedyWrappedExact(us, amount, sorted);
  }

  // ---------------------------------------------------------------------------
  // What the selection promises, for any ascending order of the lessers

  /** When some utxo exceeds the amount, exactly the first smallest such utxo is
      taken, with the excess as change. */
  lemma GreedyPicksSmallestGreater(us: seq<Utxo>, amount: nat, sorted: seq<Utxo>)
    requires exists u :: u in us && u.amount > amount
    ensures var r := GreedyOutcome(us, amount, sorted);
            r.Picked? && |r.taken| == 1 && r.taken[0] in us && r.taken[0].amount > amount
            && r.change == r.taken[0].amount - amount
            && forall u :: u in us && u.amount > amount ==> r.taken[0].amount <= u.amount
  {
    BucketsExact(us, amount);
    var g := Greaters(us, amount);
    var u :| u in us && u.amount > amount;
    assert u in g;
    MinOfFirstMinimal(g);
    forall v | v in us && v.amount > amount ensures MinOf(g).amount <= v.amount {
      assert v in g;
      var k :| 0 <= k < |g| && g[k] == v;
    }
  }

  /** With none above the amount, the taken utxos are the shortest ascending
      prefix of the lessers that reaches the amount, and the change is the
      excess. */
  lemma GreedyTakesShortestPrefix(us: seq<Utxo>, amount: nat, sorted: seq<Utxo>)
    requires forall u :: u in us ==> u.amount <= amount
    ensures var r := GreedyOutcome(us, amount, sorted);
            r.Picked? && |r.taken| > 0 ==>
              |r.taken| <= |sorted| && r.taken == sorted[..|r.taken|]
              && Sum(r.taken) == amount + r.change
              && Sum(r.taken[..|r.taken| - 1]) < amount
  {
    NoGreaters(us, amount);
    var r := GreedyOutcome(us, amount, sorted);
    if r.Picked? && |r.taken| > 0 {
      assert |Lessers(us, amount)| > 0 && Cut(sorted, amount).Some?;
      assert Lessers(us, amount)[0] in Lessers(us, amount);
      CutTaken(sorted, amount);
    }
  }

  /** The prefix the accumulation loop takes reaches the amount, and the same
      prefix without its last element does not. */
  lemma CutTaken(s: seq<Utxo>, amount: nat)
    requires amount > 0 && Cut(s, amount).Some?
    ensures var t := s[..Cut(s, amount).value];
            0 < |t| <= |s| && t == s[..|t|] && Sum(t) >= amount && Sum(t[..|t| - 1]) < amount
  {
    var n := Cut(s, amount).value;
    CutShortest(s, amount);
    TakeTake(s, n, n - 1);
  }

  /** With none above the amount but some below, the selection fails exactly
      when all the lessers together fall short. */
  lemma GreedyNotEnough(us: seq<Utxo>, amount: nat, sorted: seq<Utxo>)
    requires forall u :: u in us ==> u.amount <= amount
    requires exists u :: u in us && u.amount < amount
    requires multiset(sorted) == multiset(Lessers(us, amount))
    ensures GreedyOutcome(us, amount, sorted).NotEnough? <==> Sum(Lessers(us, amount)) < amount
  {
    NoGreaters(us, amount);
    BucketsExact(us, amount);
    var u :| u in us && u.amount < amount;
    assert u in Lessers(us, amount);
    assert u in multiset(sorted);
    SumPermutation(sorted, Lessers(us, amount));
    CutShortest(sorted, amount);
  }

  lemma NoGreaters(us: seq<Utxo>, amount: nat)
    requires forall u :: u in us ==> u.amount <= amount
    ensures Greaters(us, amount) == []
  {
    BucketsExact(us, amount);
  }

  lemma NoLessers(us: seq<Utxo>, amount: nat)
    requires forall u :: u in us ==> u.amount >= amount
    ensures Lessers(us, amount) == []
  {
    BucketsExact(us, amount);
  }

  /** Utxos equal to the amount are in neither bucket: with only such utxos (or
      none) nothing is taken, the change is 0 and there is no error. */
  lemma GreedyIgnoresEqual(us: seq<Utxo>, amount: nat, sorted: seq<Utxo>)
    requires forall u :: u in us ==> u.amount == amount
    ensures GreedyOutcome(us, amount, sorted) == Picked([], 0)
  {
    NoGreaters(us, amount);
    NoLessers(us, amount);
  }

  /** The selection is always drawn from the input. */
  lemma GreedySubMultiset(us: seq<Utxo>, amount: nat, sorted: seq<Utxo>)
    requires multiset(sorted) == multiset(Lessers(us, amount))
    ensures GreedyOutcome(us, amount, sorted).Picked? ==> multiset(GreedyOutcome(us, amount, sorted).taken) <= multiset(us)
  {
    BucketsExact(us, amount);
    var g := Greaters(us, amount);
    if |g| > 0 {
      assert MinOf(g) in multiset(g);
    } else if |Lessers(us, amount)| > 0 && Cut(sorted, amount).Some? {
      var n := Cut(sorted, amount).value;
      PrefixSubMultiset(sorted, n);
    }
  }

  lemma PrefixSubMultiset(s: seq<Utxo>, n: nat)
    requires n <= |s|
    ensures multiset(s[..n]) <= multiset(s)
  {
    assert s == s[..n] + s[n..];
  }

  /** The model's sort satisfies the lemmas' hypotheses. */
  lemma SelectionSortIsPermutation(us: seq<Utxo>, amount: nat)
    ensures Ascending(SortByAmount(Lessers(us, amount)))
    ensures multiset(SortByAmount(Lessers(us, amount))) == multiset(Lessers(us, amount))
  {
    SortByAmountSorts(Lessers(us, amount));
  }

  // ---------------------------------------------------------------------------
  // The accumulator as written: a uint64 that wraps

  /** The loop with accum a uint64: the break position and the change, or None
      when the loop runs out. */
  function CutWrapped(s: seq<Utxo>, amount: nat, n: nat, accum: nat): (r: Option<(nat, nat)>)
    requires n <= |s|
    ensures r.Some? ==> n < r.value.0 <= |s|
    decreases |s| - n
  {
    if n == |s| then None
    else
      var a := (accum + s[n].amount) % U64;
      if a >= amount then Some((n + 1, a - amount)) else CutWrapped(s, amount, n + 1, a)
  }

  /** Two lessers of 2^64 - 2 each, wanted 2^64 - 1: together they cover it,
      but the uint64 sum wraps to 2^64 - 4 and the loop reports that the amount
      is not enough. */
  lemma WrappedAccumulatorFails()
    ensures var s := [Utxo(0, U64 - 2), Utxo(1, U64 - 2)];
            AmountsFit(s) && Ascending(s)
            && CutWrapped(s, U64 - 1, 0, 0).None? && Cut(s, U64 - 1) == Some(2)
            && GreedyWrapped(s, U64 - 1, s) == NotEnough && GreedyOutcome(s, U64 - 1, s) == Picked(s, U64 - 3)
  {
    var s := [Utxo(0, U64 - 2), Utxo(1, U64 - 2)];
    assert (0 + s[0].amount) % U64 == U64 - 2;
    assert ((U64 - 2) + s[1].amount) % U64 == U64 - 4;
    assert CutWrapped(s, U64 - 1, 2, U64 - 4).None?;
    assert CutWrapped(s, U64 - 1, 1, U64 - 2).None?;
    assert s[..1] == [s[0]] && s[..1][..0] == [];
    assert s[..2] == s && s[..2][..1] == s[..1];
    assert Sum(s[..1]) == U64 - 2;
    assert Sum(s[..2]) == 2 * U64 - 4;
    assert CutFrom(s, U64 - 1, 1) == Some(2);
    assert s[..1] == [s[0]] && Greaters(s[..1], U64 - 1) == [] && Lessers(s[..1], U64 - 1) == s[..1];
    assert Greaters(s, U64 - 1) == [] && Lessers(s, U64 - 1) == s;
  }
}
