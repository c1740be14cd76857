/**
 * The pricing, credit and aggregation engine of rust/src/statement_data.rs.
 *
 * An `EnrichedPerformance` is an invoice performance together with the
 * catalog it is priced against; `StatementData` is the customer's name and
 * the enriched performances in invoice order. Charges and credits are
 * computed on demand and may fail (see `Types.Error`).
 */
module StatementData {
  import opened Types
  import opened Pricing

  datatype EnrichedPerformance = EnrichedPerformance(perf: Performance, plays: Plays)

  datatype StatementData = StatementData(customer: string, performances: seq<EnrichedPerformance>)

  /** The catalog entry of the performance's play; a missing key aborts. */
  function PlayOf(e: EnrichedPerformance): (r: Result<Play>)
    ensures r.Success? <==> e.perf.playId in e.plays
    ensures r.Success? ==> r.value == e.plays[e.perf.playId]
    ensures r.Failure? ==> r.error == UnknownPlay(e.perf.playId)
  {
    if e.perf.playId in e.plays then Success(e.plays[e.perf.playId])
    else Failure(UnknownPlay(e.perf.playId))
  }

  function Audience(e: EnrichedPerformance): nat
  {
    e.perf.audience
  }

  /** The charge in cents, by the play's type; an unknown type aborts. */
  function Amount(e: EnrichedPerformance): (r: Result<nat>)
    ensures r.Success? <==> e.perf.playId in e.plays && GenreOf(e.plays[e.perf.playId].pType).Some?
    ensures r.Success? ==> r.value == GenreAmount(GenreOf(e.plays[e.perf.playId].pType).value, Audience(e))
    ensures e.perf.playId !in e.plays ==> r == Failure(UnknownPlay(e.perf.playId))
    ensures e.perf.playId in e.plays && GenreOf(e.plays[e.perf.playId].pType).None? ==>
              r == Failure(UnknownType(e.plays[e.perf.playId].pType))
  {
    var play :- PlayOf(e);
    if play.pType == "tragedy" then
      var result := 40000;
      Success(if Audience(e) > 30 then result + 1000 * (Audience(e) - 30) else result)
    else if play.pType == "comedy" then
      var result := 30000;
      var result' := if Audience(e) > 20 then result + 10000 + 500 * (Audience(e) - 20) else result;
      Success(result' + 300 * Audience(e))
    else
      Failure(UnknownType(play.pType))
  }

  /**
   * The loyalty credits. The base `audience - 30` is an unsigned subtraction
   * that aborts below 30 seats, before the clamp at zero can apply; the play
   * is looked up only after it.
   */
  function VolumeCredits(e: EnrichedPerformance): (r: Result<nat>)
    ensures r.Success? <==> Audience(e) >= 30 && e.perf.playId in e.plays
    ensures r.Success? ==> r.value == GenreCredits(GenreOf(e.plays[e.perf.playId].pType), Audience(e))
    ensures Audience(e) < 30 ==> r == Failure(CreditUnderflow(Audience(e)))
    ensures Audience(e) >= 30 && e.perf.playId !in e.plays ==> r == Failure(UnknownPlay(e.perf.playId))
  {
    if Audience(e) < 30 then Failure(CreditUnderflow(Audience(e)))
    else
      var result: nat := Audience(e) - 30;
      var play :- PlayOf(e);
      Success(if play.pType == "comedy" then result + Audience(e) / 5 else result)
  }

  /** Every performance of `s` can be priced and credited. */
  predicate Billable(s: seq<EnrichedPerformance>)
  {
    AllSucceed(s, Amount) && AllSucceed(s, VolumeCredits)
  }

  /** Every performance of `s` is accepted by `f`. */
  predicate AllSucceed<T>(s: seq<EnrichedPerformance>, f: EnrichedPerformance -> Result<T>)
  {
    forall i :: 0 <= i < |s| ==> f(s[i]).Success?
  }

  /**
   * `f` applied to each performance in order, collecting the values; the
   * first performance (in order) that `f` rejects decides the error.
   */
  function Collect<T>(s: seq<EnrichedPerformance>, f: EnrichedPerformance -> Result<T>): (r: Result<seq<T>>)
    ensures r.Success? <==> AllSucceed(s, f)
    ensures r.Success? ==> |r.value| == |s|
  {
    if s == [] then Success([])
    else
      AllSucceedSplitLast(s, f);
      var init :- Collect(s[..|s| - 1], f);
      var last :- f(s[|s| - 1]);
      Success(init + [last])
  }

  /** A successful collection holds `f`'s value of each performance at its position. */
  lemma {:induction false} CollectValues<T>(s: seq<EnrichedPerformance>, f: EnrichedPerformance -> Result<T>)
    requires Collect(s, f).Success?
    ensures forall i :: 0 <= i < |s| ==> f(s[i]) == Success(Collect(s, f).value[i])
    decreases |s|
  {
    if s != [] {
      var n := |s| - 1;
      CollectValues(s[..n], f);
      forall i | 0 <= i < |s| ensures f(s[i]) == Success(Collect(s, f).value[i]) {
        if i < n { assert s[..n][i] == s[i]; }
      }
    }
  }

  function Sum(xs: seq<nat>): nat
  {
    if xs == [] then 0 else Sum(xs[..|xs| - 1]) + xs[|xs| - 1]
  }

  /** The sum of `f` over `s`, failing like `Collect`. */
  function Total(s: seq<EnrichedPerformance>, f: EnrichedPerformance -> Result<nat>): (r: Result<nat>)
    ensures r.Success? <==> AllSucceed(s, f)
  {
    var values :- Collect(s, f);
    Success(Sum(values))
  }

  /** Extending a sequence by one element extends the collection by its value, or fails with its error. */
  lemma CollectSnoc<T>(s: seq<EnrichedPerformance>, x: EnrichedPerformance, f: EnrichedPerformance -> Result<T>)
    requires Collect(s, f).Success?
    ensures f(x).Success? ==> Collect(s + [x], f) == Success(Collect(s, f).value + [f(x).value])
    ensures f(x).Failure? ==> Collect(s + [x], f) == Failure(f(x).error)
  {
    assert (s + [x])[..|s|] == s;
  }

  /** The first performance that `f` rejects decides the error of the whole collection. */
  lemma {:induction false} CollectFirstFailure<T>(s: seq<EnrichedPerformance>, k: nat, f: EnrichedPerformance -> Result<T>)
    requires k < |s| && f(s[k]).Failure?
    requires forall j :: 0 <= j < k ==> f(s[j]).Success?
    ensures Collect(s, f) == Failure(f(s[k]).error)
  {
    if k == |s| - 1 {
      assert AllSucceed(s[..k], f) by {
        forall j | 0 <= j < k ensures f(s[..k][j]).Success? { assert s[..k][j] == s[j]; }
      }
    } else {
      CollectFirstFailure(s[..|s| - 1], k, f);
    }
  }

  /** Once a prefix is accepted, the next rejected performance decides the error. */
  lemma CollectFailsAfter<T>(s: seq<EnrichedPerformance>, k: nat, f: EnrichedPerformance -> Result<T>)
    requires k < |s| && Collect(s[..k], f).Success? && f(s[k]).Failure?
    ensures Collect(s, f) == Failure(f(s[k]).error)
  {
    forall j | 0 <= j < k ensures f(s[j]).Success? { assert s[..k][j] == s[j]; }
    CollectFirstFailure(s, k, f);
  }

  /** Sums split over concatenation. */
  lemma {:induction false} SumAppend(xs: seq<nat>, ys: seq<nat>)
    ensures Sum(xs + ys) == Sum(xs) + Sum(ys)
    decreases |ys|
  {
    if ys != [] {
      assert (xs + ys)[..|xs + ys| - 1] == xs + ys[..|ys| - 1];
      SumAppend(xs, ys[..|ys| - 1]);
    } else {
      assert xs + ys == xs;
    }
  }

  /** A total over a concatenation is the sum of the two totals. */
  lemma {:induction false} TotalAppend(s: seq<EnrichedPerformance>, t: seq<EnrichedPerformance>, f: EnrichedPerformance -> Result<nat>)
    requires AllSucceed(s, f) && AllSucceed(t, f)
    ensures AllSucceed(s + t, f)
    ensures Total(s + t, f) == Success(Total(s, f).value + Total(t, f).value)
  {
    assert AllSucceed(s + t, f) by {
      forall i | 0 <= i < |s + t| ensures f((s + t)[i]).Success? {
        if i < |s| { assert (s + t)[i] == s[i]; } else { assert (s + t)[i] == t[i - |s|]; }
      }
    }
    var vs, vt, v := Collect(s, f).value, Collect(t, f).value, Collect(s + t, f).value;
    CollectValues(s, f);
    CollectValues(t, f);
    CollectValues(s + t, f);
    assert v == vs + vt by {
      forall i | 0 <= i < |v| ensures v[i] == (vs + vt)[i] {
        if i < |s| {
          assert (s + t)[i] == s[i];
        } else {
          assert (s + t)[i] == t[i - |s|];
        }
      }
    }
    SumAppend(vs, vt);
  }

  /** Extending a sequence by one element adds its value to the total, or fails with its error. */
  lemma TotalSnoc(s: seq<EnrichedPerformance>, x: EnrichedPerformance, f: EnrichedPerformance -> Result<nat>)
    requires Total(s, f).Success?
    ensures f(x).Success? ==> Total(s + [x], f) == Success(Total(s, f).value + f(x).value)
    ensures f(x).Failure? ==> Total(s + [x], f) == Failure(f(x).error)
  {
    CollectSnoc(s, x, f);
    if f(x).Success? {
      var v := Collect(s, f).value;
      assert (v + [f(x).value])[..|v|] == v;
    }
  }

  /** One step of a summing loop: performance `i` either aborts the total or adds its value. */
  lemma TotalStep(s: seq<EnrichedPerformance>, i: nat, f: EnrichedPerformance -> Result<nat>)
    requires i < |s| && Total(s[..i], f).Success?
    ensures f(s[i]).Success? ==> Total(s[..i + 1], f) == Success(Total(s[..i], f).value + f(s[i]).value)
    ensures f(s[i]).Failure? ==> Total(s, f) == Failure(f(s[i]).error)
  {
    assert s[..i + 1] == s[..i] + [s[i]];
    TotalSnoc(s[..i], s[i], f);
    if f(s[i]).Failure? {
      CollectFailsAfter(s, i, f);
    }
  }

  lemma TotalSingleton(x: EnrichedPerformance, f: EnrichedPerformance -> Result<nat>)
    requires f(x).Success?
    ensures Total([x], f) == Success(f(x).value)
  {
    var c := Collect([x], f);
    CollectValues([x], f);
    assert c.Success? && |c.value| == 1 && c.value[0] == f(x).value;
    assert c.value == [f(x).value];
    assert [f(x).value][..0] == [];
    assert Sum(c.value) == f(x).value;
    assert Total([x], f) == Success(Sum(c.value));
  }

  /** Any slice of a sequence that `f` accepts throughout is accepted throughout. */
  lemma AllSucceedSlice<T>(s: seq<EnrichedPerformance>, lo: nat, hi: nat, f: EnrichedPerformance -> Result<T>)
    requires lo <= hi <= |s| && AllSucceed(s, f)
    ensures AllSucceed(s[lo..hi], f)
  {
    forall j | 0 <= j < hi - lo ensures f(s[lo..hi][j]).Success? { assert s[lo..hi][j] == s[lo + j]; }
  }

  /** Taking one performance out of a sequence takes its value out of the total. */
  lemma TotalRemove(t: seq<EnrichedPerformance>, i: nat, f: EnrichedPerformance -> Result<nat>)
    requires i < |t| && AllSucceed(t, f)
    ensures AllSucceed(t[..i] + t[i + 1..], f)
    ensures Total(t, f) == Success(Total(t[..i] + t[i + 1..], f).value + f(t[i]).value)
  {
    var left, x, right := t[..i], t[i], t[i + 1..];
    var front := t[..i + 1];
    assert front == left + [x];
    assert t == front + right;
    AllSucceedSlice(t, 0, i, f);
    AllSucceedSlice(t, i + 1, |t|, f);
    assert t[0..i] == left && t[i + 1..|t|] == right;
    TotalSnoc(left, x, f);
    assert Collect(front, f).Success?;
    TotalAppend(front, right, f);
    TotalAppend(left, right, f);
  }

  /** `f` accepts a non-empty sequence exactly when it accepts all but the last element and the last. */
  lemma AllSucceedSplitLast<T>(s: seq<EnrichedPerformance>, f: EnrichedPerformance -> Result<T>)
    requires s != []
    ensures AllSucceed(s, f) <==> AllSucceed(s[..|s| - 1], f) && f(s[|s| - 1]).Success?
  {
    var n := |s| - 1;
    if AllSucceed(s[..n], f) && f(s[n]).Success? {
      forall j | 0 <= j < |s| ensures f(s[j]).Success? {
        if j < n { assert s[..n][j] == s[j]; }
      }
    }
    if AllSucceed(s, f) {
      forall j | 0 <= j < n ensures f(s[..n][j]).Success? { assert s[..n][j] == s[j]; }
    }
  }

  /** Permuting a sequence keeps every performance that `f` accepts. */
  lemma AllSucceedPermutation<T>(s: seq<EnrichedPerformance>, t: seq<EnrichedPerformance>, f: EnrichedPerformance -> Result<T>)
    requires multiset(s) == multiset(t) && AllSucceed(s, f)
    ensures AllSucceed(t, f)
  {
    forall j | 0 <= j < |t| ensures f(t[j]).Success? {
      assert t[j] in multiset(s);
      var i :| 0 <= i < |s| && s[i] == t[j];
    }
  }

  lemma MultisetRemove(s: seq<EnrichedPerformance>, x: EnrichedPerformance, t: seq<EnrichedPerformance>, i: nat)
    requires i < |t| && t[i] == x && multiset(s + [x]) == multiset(t)
    ensures multiset(s) == multiset(t[..i] + t[i + 1..])
  {
    assert t == t[..i] + [x] + t[i + 1..];
    calc {
      multiset(s);
      multiset(s + [x]) - multiset{x};
      multiset(t[..i] + [x] + t[i + 1..]) - multiset{x};
      multiset(t[..i] + t[i + 1..]);
    }
  }

  /** The totals do not depend on the order of the performances. */
  lemma {:induction false} TotalPermutation(s: seq<EnrichedPerformance>, t: seq<EnrichedPerformance>, f: EnrichedPerformance -> Result<nat>)
    requires multiset(s) == multiset(t)
    requires AllSucceed(s, f)
    ensures AllSucceed(t, f)
    ensures Total(s, f) == Total(t, f)
    decreases |s|
  {
    AllSucceedPermutation(s, t, f);
    if s != [] {
      var n := |s| - 1;
      var x, s' := s[n], s[..n];
      assert s == s' + [x];
      assert x in multiset(t);
      var i :| 0 <= i < |t| && t[i] == x;
      MultisetRemove(s', x, t, i);
      AllSucceedSlice(s, 0, n, f);
      TotalPermutation(s', t[..i] + t[i + 1..], f);
      TotalRemove(t, i, f);
      TotalSnoc(s', x, f);
    }
  }

  /** Order-preserving enrichment of raw performances against one catalog. */
  function EnrichAll(perfs: seq<Performance>, plays: Plays): (r: seq<EnrichedPerformance>)
    ensures |r| == |perfs|
    ensures forall i :: 0 <= i < |perfs| ==> r[i].perf == perfs[i] && r[i].plays == plays
  {
    if perfs == [] then [] else [EnrichedPerformance(perfs[0], plays)] + EnrichAll(perfs[1..], plays)
  }

  /** Builds the statement data of an invoice: the customer's name and the enriched performances. */
  function CreateStatementData(invoice: Invoice, plays: Plays): (data: StatementData)
    ensures data.customer == invoice.customer
    ensures |data.performances| == |invoice.performances|
    ensures forall i :: 0 <= i < |invoice.performances| ==>
              data.performances[i].perf.playId == invoice.performances[i].playId &&
              Audience(data.performances[i]) == invoice.performances[i].audience &&
              data.performances[i].plays == plays
  {
    StatementData(invoice.customer, EnrichAll(invoice.performances, plays))
  }

  /** The raw performances behind a sequence of enriched ones. */
  function Raw(s: seq<EnrichedPerformance>): seq<Performance>
  {
    if s == [] then [] else [s[0].perf] + Raw(s[1..])
  }

  /** Enrichment loses nothing: projecting back gives the invoice's performances, in order. */
  lemma {:induction false} RawEnrichAll(perfs: seq<Performance>, plays: Plays)
    ensures Raw(EnrichAll(perfs, plays)) == perfs
  {
    if perfs != [] {
      RawEnrichAll(perfs[1..], plays);
    }
  }

  lemma CreateStatementDataRoundTrip(invoice: Invoice, plays: Plays)
    ensures Raw(CreateStatementData(invoice, plays).performances) == invoice.performances
  {
    RawEnrichAll(invoice.performances, plays);
  }

  /** `total_amount`: the charges of all performances, accumulated in order. */
  method TotalAmount(data: StatementData) returns (r: Result<nat>)
    ensures r == Total(data.performances, Amount)
  {
    var result: nat := 0;
    for i := 0 to |data.performances|
      invariant Total(data.performances[..i], Amount) == Success(result)
    {
      TotalStep(data.performances, i, Amount);
      var perf := data.performances[i];
      var amount := Amount(perf);
      if amount.Failure? {
        return Failure(amount.error);
      }
      result := result + amount.value;
    }
    assert data.performances[..|data.performances|] == data.performances;
    return Success(result);
  }

  /** `total_volume_credits`: the credits of all performances, accumulated in order. */
  method TotalVolumeCredits(data: StatementData) returns (r: Result<nat>)
    ensures r == Total(data.performances, VolumeCredits)
  {
    var result: nat := 0;
    for i := 0 to |data.performances|
      invariant Total(data.performances[..i], VolumeCredits) == Success(result)
    {
      TotalStep(data.performances, i, VolumeCredits);
      var perf := data.performances[i];
      var credits := VolumeCredits(perf);
      if credits.Failure? {
        return Failure(credits.error);
      }
      result := result + credits.value;
    }
    assert data.performances[..|data.performances|] == data.performances;
    return Success(result);
  }

  /**
   * A total is 0 for no performances, succeeds exactly when every performance
   * does, and is then the first performance's value plus the total of the rest.
   */
  lemma {:induction false} TotalIsSum(s: seq<EnrichedPerformance>, f: EnrichedPerformance -> Result<nat>)
    ensures s == [] ==> Total(s, f) == Success(0)
    ensures Total(s, f).Success? <==> AllSucceed(s, f)
    ensures s != [] && AllSucceed(s, f) ==> Total(s, f).value == f(s[0]).value + Total(s[1..], f).value
  {
    if s != [] && AllSucceed(s, f) {
      assert AllSucceed(s[1..], f) by {
        forall j | 0 <= j < |s| - 1 ensures f(s[1..][j]).Success? { assert s[1..][j] == s[j + 1]; }
      }
      assert AllSucceed([s[0]], f);
      TotalAppend([s[0]], s[1..], f);
      assert [s[0]] + s[1..] == s;
      TotalSingleton(s[0], f);
    }
  }
}
