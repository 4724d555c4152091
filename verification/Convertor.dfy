/**
 * Conversion between currencies through the base currency, with the rates averaged over a period, one amount at a
 * time or a whole batch summed per key.
 */
module Convertor {
  import opened Prelude
  import opened Decimal
  import opened Calendar

  /** Units of a currency per unit of the base currency, over some period. */
  datatype Rate = Rate(currency: Id, rate: int)

  datatype Item = Item(periodStart: Time, periodEnd: Time, from: Id, to: Id, amount: int)

  datatype Range = Range(start: Time, end: Time)

  /** What the rate store answers: the averaged rates of a period, the base currency, a currency's fraction digits. */
  datatype RateProvider = RateProvider(average: Range -> seq<Rate>, base: Id, digits: Id -> int)

  function FirstRate(rates: seq<Rate>, currency: Id): Option<int> {
    if rates == [] then None
    else if rates[0].currency == currency then Some(rates[0].rate)
    else FirstRate(rates[1..], currency)
  }

  ghost predicate PositiveRates(rates: seq<Rate>) {
    forall r :: r in rates ==> r.rate > 0
  }

  lemma {:induction false} FirstRateMember(rates: seq<Rate>, currency: Id)
    ensures FirstRate(rates, currency).Some? ==> Rate(currency, FirstRate(rates, currency).value) in rates
    ensures FirstRate(rates, currency).None? ==> forall r :: r in rates ==> r.currency != currency
  {
    if rates != [] && rates[0].currency != currency {
      FirstRateMember(rates[1..], currency);
    }
  }

  /** The rate a hop uses: the loaded one, or 1 for the base currency and for a currency with no rate. */
  function EffectiveRate(rates: seq<Rate>, base: Id, currency: Id): int {
    if currency == base then SCALE else match FirstRate(rates, currency) case Some(r) => r case None => SCALE
  }

  /** The currency's first rate in the list is the i-th. */
  predicate FirstAt(rates: seq<Rate>, i: int, currency: Id) {
    && 0 <= i < |rates| && rates[i].currency == currency
    && forall j :: 0 <= j < i ==> rates[j].currency != currency
  }

  /** A hop uses the first rate listed for its currency; 1 for the base, and for a currency that is not listed. */
  lemma {:induction false} RateUsed(rates: seq<Rate>, base: Id, currency: Id)
    ensures currency == base || (forall i :: 0 <= i < |rates| ==> rates[i].currency != currency) ==>
              EffectiveRate(rates, base, currency) == 100_000_000
    ensures currency != base ==>
              forall i :: FirstAt(rates, i, currency) ==> EffectiveRate(rates, base, currency) == rates[i].rate
  {
    if rates != [] && currency != base && rates[0].currency != currency {
      RateUsed(rates[1..], base, currency);
      forall i | FirstAt(rates, i, currency) ensures EffectiveRate(rates, base, currency) == rates[i].rate {
        assert FirstAt(rates[1..], i - 1, currency);
      }
    }
  }

  lemma EffectiveRatePositive(rates: seq<Rate>, base: Id, currency: Id)
    requires PositiveRates(rates)
    ensures EffectiveRate(rates, base, currency) > 0
  {
    FirstRateMember(rates, currency);
  }

  function Converted(rates: seq<Rate>, base: Id, digits: int, from: Id, to: Id, amount: int): int
    requires PositiveRates(rates)
  {
    if from == to then amount
    else
      EffectiveRatePositive(rates, base, from);
      var inBase := Div(amount, EffectiveRate(rates, base, from));
      Round(Mul(inBase, EffectiveRate(rates, base, to)), digits)
  }

  /** A hop at rate 1 leaves the amount as it is, so skipping it changes nothing. */
  lemma RateOneIsNeutral(amount: int)
    ensures Div(amount, SCALE) == amount
    ensures Mul(amount, SCALE) == amount
  {
  }

  /**
   * The conversion over any rates at all: it fails, the division panicking, exactly when the first hop's rate is zero.
   */
  function Outcome(rates: seq<Rate>, base: Id, digits: int, from: Id, to: Id, amount: int): Option<int> {
    if from == to then Some(amount)
    else
      var rate := EffectiveRate(rates, base, from);
      if rate == 0 then None else Some(Round(Mul(Div(amount, rate), EffectiveRate(rates, base, to)), digits))
  }

  /** The two-hop conversion: scan for each currency's rate, divide into the base, multiply out of it, round. */
  method Convert(rates: seq<Rate>, base: Id, digits: int, from: Id, to: Id, amount: int) returns (outcome: Option<int>)
    ensures outcome == Outcome(rates, base, digits, from, to, amount)
    ensures outcome.None? <==> from != to && from != base && FirstRate(rates, from) == Some(0)
    ensures PositiveRates(rates) ==> outcome == Some(Converted(rates, base, digits, from, to, amount))
  {
    if from == to {
      return Some(amount);
    }
    var result := amount;
    RateOneIsNeutral(amount);
    hide Div, Mul, Round;
    if from != base {
      var i := 0;
      while i < |rates|
        invariant 0 <= i <= |rates|
        invariant result == amount
        invariant FirstRate(rates, from) == FirstRate(rates[i..], from)
      {
        if rates[i].currency == from {
          if rates[i].rate == 0 {
            return None;
          }
          result := Div(result, rates[i].rate);
          break;
        }
        i := i + 1;
      }
    }
    assert result == Div(amount, EffectiveRate(rates, base, from));
    ghost var inBase := result;
    RateOneIsNeutral(inBase);
    if to != base {
      var i := 0;
      while i < |rates|
        invariant 0 <= i <= |rates|
        invariant result == inBase
        invariant FirstRate(rates, to) == FirstRate(rates[i..], to)
      {
        if rates[i].currency == to {
          result := Mul(result, rates[i].rate);
          break;
        }
        i := i + 1;
      }
    }
    outcome := Some(Round(result, digits));
  }

  lemma ConvertedOdd(rates: seq<Rate>, base: Id, digits: int, from: Id, to: Id, amount: int)
    requires PositiveRates(rates)
    ensures Converted(rates, base, digits, from, to, -amount) == -Converted(rates, base, digits, from, to, amount)
  {
    hide Quo, Round;
    EffectiveRatePositive(rates, base, from);
    var rf, rt := EffectiveRate(rates, base, from), EffectiveRate(rates, base, to);
    QuoOdd(amount * SCALE, rf);
    assert (-amount) * SCALE == -(amount * SCALE);
    var x := Div(amount, rf);
    QuoOdd(x * rt, SCALE);
    assert (-x) * rt == -(x * rt);
    RoundOdd(Mul(x, rt), digits);
  }

  lemma ConvertedMonotone(rates: seq<Rate>, base: Id, digits: int, from: Id, to: Id, a: int, b: int)
    requires PositiveRates(rates)
    requires a <= b
    ensures Converted(rates, base, digits, from, to, a) <= Converted(rates, base, digits, from, to, b)
  {
    hide Quo, Round;
    EffectiveRatePositive(rates, base, from);
    EffectiveRatePositive(rates, base, to);
    var rf, rt := EffectiveRate(rates, base, from), EffectiveRate(rates, base, to);
    QuoMonotone(a * SCALE, b * SCALE, rf);
    var x, y := Div(a, rf), Div(b, rf);
    assert 0 <= (y - x) * rt == y * rt - x * rt;
    QuoMonotone(x * rt, y * rt, SCALE);
    RoundMonotone(Mul(x, rt), Mul(y, rt), digits);
  }

  lemma QuoError(a: int, b: int)
    requires b > 0
    ensures Abs(Quo(a, b) * b - a) < b
  {
    QuoRemainder(a, b);
  }

  /** Scaling a bounded error scales its bound. */
  lemma ScaleError(e: int, bound: int, k: int)
    requires k >= 0 && Abs(e) <= bound
    ensures Abs(k * e) <= k * bound
  {
    assert k * (bound - e) >= 0 && k * (bound + e) >= 0;
  }

  /**
   * The result stays within half a unit of the target's digits, plus 10^-8 * (rate_to + 1), of the exact quotient
   * amount * rate_to / rate_from. Everything is multiplied out by 2 * SCALE * rate_from to stay in the integers.
   */
  lemma ConvertedError(rates: seq<Rate>, base: Id, digits: int, from: Id, to: Id, amount: int)
    requires PositiveRates(rates)
    requires from != to
    ensures var rf, rt := EffectiveRate(rates, base, from), EffectiveRate(rates, base, to);
      2 * SCALE * Abs(Converted(rates, base, digits, from, to, amount) * rf - amount * rt)
      <= rf * (SCALE * Unit(digits) + 2 * rt + 2 * SCALE)
  {
    hide Quo, Round, Unit;
    EffectiveRatePositive(rates, base, from);
    EffectiveRatePositive(rates, base, to);
    var rf, rt := EffectiveRate(rates, base, from), EffectiveRate(rates, base, to);
    var x := Div(amount, rf);
    var y := Mul(x, rt);
    QuoError(amount * SCALE, rf);
    QuoError(x * rt, SCALE);
    RoundHalfUnit(y, digits);
    CompoundError(amount, rf, rt, x, y, Round(y, digits), Unit(digits));
  }

  /** The errors of the two truncations and of the rounding, carried to the result. */
  lemma CompoundError(a: int, rf: int, rt: int, x: int, y: int, z: int, u: int)
    requires rf > 0 && rt > 0
    requires Abs(x * rf - a * SCALE) < rf && Abs(y * SCALE - x * rt) < SCALE && 2 * Abs(z - y) <= u
    ensures 2 * SCALE * Abs(z * rf - a * rt) <= rf * (SCALE * u + 2 * rt + 2 * SCALE)
  {
    hide Abs;
    var e1, e2, e3 := x * rf - a * SCALE, y * SCALE - x * rt, z - y;
    ErrorIdentity(a, rf, rt, x, y, z);
    ScaleError(e1, rf, rt);
    ScaleError(e2, SCALE, rf);
    DoubledError(e3, u, rf);
    CombineErrors(z * rf - a * rt, rf * e3, rf * e2, rt * e1, rf * u, rf * SCALE, rt * rf);
    Distribute(rf, rt, u);
  }

  lemma DoubledError(e: int, u: int, k: int)
    requires k >= 0 && 2 * Abs(e) <= u
    ensures 2 * Abs(k * e) <= k * u
  {
    assert k * (u - 2 * e) >= 0 && k * (u + 2 * e) >= 0;
  }

  lemma Distribute(rf: int, rt: int, u: int)
    ensures rf * (SCALE * u + 2 * rt + 2 * SCALE) == SCALE * (rf * u) + 2 * (rt * rf) + 2 * (rf * SCALE)
  {
    assert rf * (SCALE * u) == SCALE * (rf * u);
  }

  lemma ErrorIdentity(a: int, rf: int, rt: int, x: int, y: int, z: int)
    ensures SCALE * (z * rf - a * rt) == SCALE * (rf * (z - y)) + rf * (y * SCALE - x * rt) + rt * (x * rf - a * SCALE)
  {
    assert rf * (z - y) == z * rf - y * rf;
    assert rf * (y * SCALE - x * rt) == SCALE * (y * rf) - (x * rf) * rt by {
      assert rf * (y * SCALE) == SCALE * (y * rf);
      assert rf * (x * rt) == (x * rf) * rt;
    }
    assert rt * (x * rf - a * SCALE) == (x * rf) * rt - SCALE * (a * rt) by {
      assert rt * (a * SCALE) == SCALE * (a * rt);
    }
  }

  lemma CombineErrors(d: int, p: int, q: int, r: int, bp: int, bq: int, br: int)
    requires SCALE * d == SCALE * p + q + r
    requires 2 * Abs(p) <= bp && Abs(q) <= bq && Abs(r) <= br
    ensures 2 * SCALE * Abs(d) <= SCALE * bp + 2 * bq + 2 * br
  {
  }

  /** Items that convert as one: same currencies and same period days. */
  datatype Group = Group(from: Id, to: Id, startDay: int, endDay: int)

  function GroupOf(it: Item): Group {
    Group(it.from, it.to, DayOf(it.periodStart), DayOf(it.periodEnd))
  }

  ghost function Groups(items: seq<Item>): set<Group> {
    set it | it in items :: GroupOf(it)
  }

  /** The amount of a group. */
  function GroupSum(items: seq<Item>, g: Group): int {
    if items == [] then 0
    else (if GroupOf(items[0]) == g then items[0].amount else 0) + GroupSum(items[1..], g)
  }

  lemma {:induction false} GroupSumConcat(a: seq<Item>, b: seq<Item>, g: Group)
    ensures GroupSum(a + b, g) == GroupSum(a, g) + GroupSum(b, g)
  {
    if a == [] {
      assert a + b == b;
    } else {
      assert (a + b)[1..] == a[1..] + b;
      GroupSumConcat(a[1..], b, g);
    }
  }

  lemma {:induction false} GroupSumPermuted(a: seq<Item>, b: seq<Item>, g: Group)
    requires multiset(a) == multiset(b)
    ensures GroupSum(a, g) == GroupSum(b, g)
    decreases |a|
  {
    if a == [] {
      assert |b| == |multiset(b)| == 0;
    } else {
      var x := a[0];
      assert a == [x] + a[1..];
      assert x in multiset(b);
      var i :| 0 <= i < |b| && b[i] == x;
      var rest := b[..i] + b[i + 1..];
      assert b == b[..i] + ([x] + b[i + 1..]);
      assert multiset(a) == multiset{x} + multiset(a[1..]);
      assert multiset(b) == multiset(b[..i]) + multiset{x} + multiset(b[i + 1..]);
      assert multiset(rest) == multiset(b[..i]) + multiset(b[i + 1..]);
      assert multiset(rest) == multiset(b) - multiset{x};
      assert multiset(a[1..]) == multiset(a) - multiset{x};
      GroupSumPermuted(a[1..], rest, g);
      GroupSumConcat(b[..i], [x] + b[i + 1..], g);
      GroupSumConcat([x], b[i + 1..], g);
      GroupSumConcat(b[..i], b[i + 1..], g);
    }
  }

  /** Every entry holds its group's sum over the first n items. */
  ghost predicate Tallied(items: seq<Item>, n: int, out: seq<Item>)
    requires 0 <= n <= |items|
  {
    forall i :: 0 <= i < |out| ==> out[i].amount == GroupSum(items[..n], GroupOf(out[i]))
  }

  lemma GroupSumNext(items: seq<Item>, n: int, g: Group)
    requires 0 <= n < |items|
    ensures GroupSum(items[..n + 1], g) == GroupSum(items[..n], g) + if g
            == GroupOf(items[n]) then items[n].amount else 0
  {
    assert items[..n + 1] == items[..n] + [items[n]];
    GroupSumConcat(items[..n], [items[n]], g);
  }

  lemma TallyExisting(items: seq<Item>, n: int, out: seq<Item>, i: int)
    requires 0 <= n < |items| && 0 <= i < |out| && Tallied(items, n, out)
    requires forall j :: 0 <= j < |out| ==> (GroupOf(out[j]) == GroupOf(items[n]) <==> j == i)
    ensures Tallied(items, n + 1, out[i := out[i].(amount := out[i].amount + items[n].amount)])
  {
    hide GroupSum;
    var more := out[i := out[i].(amount := out[i].amount + items[n].amount)];
    forall j | 0 <= j < |more|
      ensures more[j].amount == GroupSum(items[..n + 1], GroupOf(more[j]))
    {
      assert GroupOf(more[j]) == GroupOf(out[j]);
      GroupSumNext(items, n, GroupOf(more[j]));
    }
  }

  lemma TallyNew(items: seq<Item>, n: int, out: seq<Item>)
    requires 0 <= n < |items| && Tallied(items, n, out)
    requires GroupOf(items[n]) !in Groups(items[..n])
    requires forall j :: 0 <= j < |out| ==> GroupOf(out[j]) != GroupOf(items[n])
    ensures Tallied(items, n + 1, out + [items[n]])
  {
    GroupSumAbsent(items[..n], GroupOf(items[n]));
    hide GroupSum, GroupOf, Groups;
    var more := out + [items[n]];
    forall j | 0 <= j < |more|
      ensures more[j].amount == GroupSum(items[..n + 1], GroupOf(more[j]))
    {
      GroupSumNext(items, n, GroupOf(more[j]));
    }
  }

  /** The index holds the place of every group in the output. */
  ghost predicate Placed(idx: map<Group, nat>, out: seq<Item>) {
    && (forall g :: g in idx ==> idx[g] < |out| && GroupOf(out[idx[g]]) == g)
    && (forall i :: 0 <= i < |out| ==> GroupOf(out[i]) in idx && idx[GroupOf(out[i])] == i)
  }

  lemma PlaceKept(idx: map<Group, nat>, out: seq<Item>, k: Group, amount: int)
    requires Placed(idx, out) && k in idx
    ensures idx[k] < |out| && Placed(idx, out[idx[k] := out[idx[k]].(amount := out[idx[k]].amount + amount)])
    ensures forall j :: 0 <= j < |out| ==> (GroupOf(out[j]) == k <==> j == idx[k])
  {
    var more := out[idx[k] := out[idx[k]].(amount := out[idx[k]].amount + amount)];
    assert forall j :: 0 <= j < |out| ==> GroupOf(more[j]) == GroupOf(out[j]);
    hide GroupOf;
  }

  lemma PlaceNew(idx: map<Group, nat>, out: seq<Item>, it: Item)
    requires Placed(idx, out) && GroupOf(it) !in idx
    ensures Placed(idx[GroupOf(it) := |out|], out + [it])
    ensures forall j :: 0 <= j < |out| ==> GroupOf(out[j]) != GroupOf(it)
  {
    hide GroupOf;
  }

  lemma GroupsNext(items: seq<Item>, n: int)
    requires 0 <= n < |items|
    ensures Groups(items[..n + 1]) == Groups(items[..n]) + {GroupOf(items[n])}
  {
    assert items[..n + 1] == items[..n] + [items[n]];
  }

  /** Items collapsed by group, each group once and at its first item's place. */
  ghost predicate Summarized(items: seq<Item>, out: seq<Item>) {
    && (forall i, j :: 0 <= i < j < |out| ==> GroupOf(out[i]) != GroupOf(out[j]))
    && Groups(out) == Groups(items)
    && (forall i :: 0 <= i < |out| ==> out[i].amount == GroupSum(items, GroupOf(out[i])))
  }

  method Summarize(items: seq<Item>) returns (out: seq<Item>)
    ensures Summarized(items, out)
  {
    var idx: map<Group, nat> := map[];
    out := [];
    var n := 0;
    while n < |items|
      invariant 0 <= n <= |items|
      invariant Placed(idx, out)
      invariant idx.Keys == Groups(items[..n])
      invariant Tallied(items, n, out)
    {
      hide GroupSum, Groups, Tallied, GroupOf, Placed;
      var it := items[n];
      var k := GroupOf(it);
      GroupsNext(items, n);
      if k in idx {
        PlaceKept(idx, out, k, it.amount);
        var i := idx[k];
        TallyExisting(items, n, out, i);
        out := out[i := out[i].(amount := out[i].amount + it.amount)];
      } else {
        PlaceNew(idx, out, it);
        TallyNew(items, n, out);
        idx := idx[k := |out|];
        out := out + [it];
      }
      n := n + 1;
    }
    assert items[..n] == items;
    assert Groups(out) == idx.Keys;
  }

  lemma {:induction false} GroupSumAbsent(items: seq<Item>, g: Group)
    requires g !in Groups(items)
    ensures GroupSum(items, g) == 0
  {
    if items != [] {
      assert GroupOf(items[0]) in Groups(items);
      assert forall x :: x in Groups(items[1..]) ==> x in Groups(items);
      GroupSumAbsent(items[1..], g);
    }
  }

  /** The month whose rates an item asks for. */
  function MonthKey(t: Time): int {
    MonthOf(DayOf(t))
  }

  /** What a group contributes, given the rates loaded per month and the month to fall back on. */
  ghost function GroupValue(items: seq<Item>, loaded: map<int, Range>, current: int, p: RateProvider, g: Group): int
    requires Sound(p) && current in loaded
  {
    var month := MonthOf(g.startDay);
    var range := loaded[if month in loaded then month else current];
    Converted(p.average(range), p.base, p.digits(g.to), g.from, g.to, GroupSum(items, g))
  }

  ghost predicate Sound(p: RateProvider) {
    forall r :: PositiveRates(p.average(r))
  }

  /** A key's converted total: the conversion of each group's sum, added up. */
  ghost function Total(items: seq<Item>, loaded: map<int, Range>, current: int, p: RateProvider): int
    requires Sound(p) && current in loaded
  {
    SumSet(Groups(items), Valuer(items, loaded, current, p))
  }

  ghost function Valuer(items: seq<Item>, loaded: map<int, Range>, current: int, p: RateProvider): Group -> int
    requires Sound(p) && current in loaded
  {
    g => GroupValue(items, loaded, current, p, g)
  }

  /** Converting the item takes the rates of a month, averaged over a range. */
  ghost predicate Crosses(it: Item, month: int, range: Range) {
    it.from != it.to && MonthKey(it.periodStart) == month && Range(it.periodStart, it.periodEnd) == range
  }

  /** Some cross-currency item of the batch asks for the month's rates over the range. */
  ghost predicate Asked<K(!new)>(items: map<K, seq<Item>>, month: int, range: Range) {
    exists k, it :: k in items && it in items[k] && Crosses(it, month, range)
  }

  /** The rate ranges a batch loads: its own for its month, some item's own for every other month an item starts in. */
  ghost predicate Needed<K(!new)>(own: Range, items: map<K, seq<Item>>, loaded: map<int, Range>) {
    var current := MonthKey(own.start);
    && current in loaded && loaded[current] == own
    && (forall m :: m in loaded && m != current ==> Asked(items, m, loaded[m]))
    && (forall m, r :: Asked(items, m, r) ==> m in loaded)
  }

  /** Items starting in the same month share one period range. */
  ghost predicate OneRangePerMonth<K(!new)>(items: map<K, seq<Item>>) {
    forall m, r, r' :: Asked(items, m, r) && Asked(items, m, r') ==> r == r'
  }

  /** One key's items, summed by group and converted group by group. */
  method ConvertKey(items: seq<Item>, loaded: map<int, Range>, current: int, p: RateProvider) returns (acc: int)
    requires Sound(p) && current in loaded
    ensures acc == Total(items, loaded, current, p)
  {
    hide *;
    var groups := Summarize(items);
    acc := 0;
    var i := 0;
    ghost var value := Valuer(items, loaded, current, p);
    SumSetEmpty(groups, value);
    while i < |groups|
      invariant 0 <= i <= |groups|
      invariant acc == SumSet(Groups(groups[..i]), value)
    {
      var converted := ConvertGroup(items, groups, i, loaded, current, p);
      AddGroup(items, groups, i, value);
      acc := acc + converted;
      i := i + 1;
    }
    AllGroups(items, groups, loaded, current, p);
    assert groups[..i] == groups;
  }

  lemma SumSetEmpty(groups: seq<Item>, value: Group -> int)
    ensures SumSet(Groups(groups[..0]), value) == 0
  {
  }

  lemma AllGroups(items: seq<Item>, groups: seq<Item>, loaded: map<int, Range>, current: int, p: RateProvider)
    requires Sound(p) && current in loaded
    requires Summarized(items, groups)
    ensures Total(items, loaded, current, p) == SumSet(Groups(groups), Valuer(items, loaded, current, p))
  {
  }

  lemma AddGroup(items: seq<Item>, groups: seq<Item>, i: nat, value: Group -> int)
    requires Summarized(items, groups) && i < |groups|
    ensures SumSet(Groups(groups[..i + 1]), value) == SumSet(Groups(groups[..i]), value) + value(GroupOf(groups[i]))
  {
    hide GroupSum, SumSet;
    assert groups[..i + 1] == groups[..i] + [groups[i]];
    assert Groups(groups[..i + 1]) == Groups(groups[..i]) + {GroupOf(groups[i])};
    SumSetAdd(Groups(groups[..i]), value, GroupOf(groups[i]));
  }

  method ConvertGroup(ghost items: seq<Item>, groups: seq<Item>, i: nat, loaded: map<int, Range>, current: int,
                      p: RateProvider)
    returns (converted: int)
    requires Sound(p) && current in loaded
    requires Summarized(items, groups) && i < |groups|
    ensures converted == Valuer(items, loaded, current, p)(GroupOf(groups[i]))
  {
    hide MonthOf, Converted, GroupSum, Groups;
    var it := groups[i];
    var month := MonthKey(it.periodStart);
    var rates := p.average(loaded[if month in loaded then month else current]);
    var outcome := Convert(rates, p.base, p.digits(it.to), it.from, it.to, it.amount);
    converted := outcome.value;
  }

  method BulkConvert<K(!new)>(own: Range, items: map<K, seq<Item>>, p: RateProvider)
    returns (result: map<K, int>, loaded: map<int, Range>)
    requires Sound(p)
    ensures Needed(own, items, loaded)
    ensures result.Keys == items.Keys
    ensures forall k :: k in items ==> result[k] == Total(items[k], loaded, MonthKey(own.start), p)
  {
    hide MonthKey, Total;
    loaded := LoadedRanges(own, items);
    result := map[];
    var keys := items.Keys;
    while keys != {}
      invariant keys <= items.Keys
      invariant result.Keys == items.Keys - keys
      invariant forall k :: k in result ==> result[k] == Total(items[k], loaded, MonthKey(own.start), p)
      decreases keys
    {
      var k :| k in keys;
      keys := keys - {k};
      var acc := ConvertKey(items[k], loaded, MonthKey(own.start), p);
      result := result[k := acc];
    }
  }

  /** The items from the i-th on of one key, and those of the keys still to walk, may yet ask for a month. */
  ghost predicate Covered<K(!new)>(items: map<K, seq<Item>>, walked: set<K>, needed: map<int, Range>) {
    forall k, it :: k in items && k in walked && it in items[k] && it.from != it.to ==>
             MonthKey(it.periodStart) in needed
  }

  /** Which rate ranges to load: first come, first kept, in whatever order the batch is walked. */
  method LoadedRanges<K(!new)>(own: Range, items: map<K, seq<Item>>) returns (needed: map<int, Range>)
    ensures Needed(own, items, needed)
  {
    hide MonthKey;
    var current := MonthKey(own.start);
    needed := map[current := own];
    var keys := items.Keys;
    while keys != {}
      invariant keys <= items.Keys
      invariant current in needed && needed[current] == own
      invariant forall m :: m in needed && m != current ==> Asked(items, m, needed[m])
      invariant Covered(items, items.Keys - keys, needed)
      decreases keys
    {
      var k :| k in keys;
      keys := keys - {k};
      var i := 0;
      while i < |items[k]|
        invariant 0 <= i <= |items[k]|
        invariant current in needed && needed[current] == own
        invariant forall m :: m in needed && m != current ==> Asked(items, m, needed[m])
        invariant Covered(items, items.Keys - keys - {k}, needed)
        invariant forall j :: 0 <= j < i && items[k][j].from != items[k][j].to ==>
                    MonthKey(items[k][j].periodStart) in needed
      {
        var it := items[k][i];
        var month := MonthKey(it.periodStart);
        if it.from != it.to && month !in needed {
          assert Crosses(it, month, Range(it.periodStart, it.periodEnd));
          needed := needed[month := Range(it.periodStart, it.periodEnd)];
        }
        i := i + 1;
      }
    }
  }

  /** However the batch is walked, the month's rates are those of the range. */
  ghost predicate AlwaysLoads<K(!new)>(own: Range, items: map<K, seq<Item>>, month: int, range: Range) {
    forall l :: Needed(own, items, l) && month in l ==> l[month] == range
  }

  ghost predicate OnlyAsks<K(!new)>(items: map<K, seq<Item>>, month: int, range: Range) {
    forall r :: Asked(items, month, r) ==> r == range
  }

  /** A month gets one range, in whatever order the batch is walked, if and only if its items ask for no other. */
  lemma OneRangeExactly<K(!new)>(own: Range, items: map<K, seq<Item>>, loaded: map<int, Range>, month: int,
                                 range: Range)
    requires Needed(own, items, loaded) && month != MonthKey(own.start)
    ensures AlwaysLoads(own, items, month, range) <==> OnlyAsks(items, month, range)
  {
    hide MonthKey, Asked;
    if !OnlyAsks(items, month, range) {
      var r :| Asked(items, month, r) && r != range;
      assert Needed(own, items, loaded[month := r]);
    }
  }

  /** With one range per month the ranges loaded do not depend on the order the batch is walked in. */
  lemma NeededUnique<K(!new)>(own: Range, items: map<K, seq<Item>>, a: map<int, Range>, b: map<int, Range>)
    requires Needed(own, items, a) && Needed(own, items, b)
    requires OneRangePerMonth(items)
    ensures a == b
  {
    hide MonthKey, Asked;
    forall m | m in a
      ensures m in b && a[m] == b[m]
    {
      assert m != MonthKey(own.start) ==> Asked(items, m, a[m]) && Asked(items, m, b[m]);
    }
    forall m | m in b
      ensures m in a
    {
      assert m != MonthKey(own.start) ==> Asked(items, m, b[m]);
    }
  }

  /** One list of items is another permuted, or with one item split in two. */
  ghost predicate SameMoney(a: seq<Item>, b: seq<Item>) {
    || multiset(a) == multiset(b)
    || exists i, part :: SplitAt(a, b, i, part)
  }

  ghost predicate SplitAt(a: seq<Item>, b: seq<Item>, i: int, part: int) {
    && 0 <= i < |a|
    && b == a[..i] + [a[i].(amount := part), a[i].(amount := a[i].amount - part)] + a[i + 1..]
  }

  /** Every item of a has one in b that differs in the amount at most. */
  ghost predicate Mirrored(a: seq<Item>, b: seq<Item>) {
    forall x :: x in a ==> HasTwin(x, b)
  }

  ghost predicate HasTwin(x: Item, b: seq<Item>) {
    exists y :: y in b && y == x.(amount := y.amount)
  }

  lemma PermutedMirrored(a: seq<Item>, b: seq<Item>)
    requires multiset(a) == multiset(b)
    ensures Mirrored(a, b)
  {
    forall x | x in a ensures HasTwin(x, b) {
      assert x in multiset(a);
      assert x in b;
    }
  }

  lemma SplitMirrored(a: seq<Item>, b: seq<Item>, i: int, part: int)
    requires SplitAt(a, b, i, part)
    ensures Mirrored(a, b) && Mirrored(b, a)
  {
    SplitIndices(a, b, i, part);
    hide SplitAt;
    forall x | x in a ensures HasTwin(x, b) {
      var j :| 0 <= j < |a| && a[j] == x;
      var y := b[if j <= i then j else j + 1];
      assert y in b && y == x.(amount := y.amount);
    }
    forall y | y in b ensures HasTwin(y, a) {
      var j :| 0 <= j < |b| && b[j] == y;
      var x := a[if j <= i then j else j - 1];
      assert x in a && x == y.(amount := x.amount);
    }
  }

  lemma SplitIndices(a: seq<Item>, b: seq<Item>, i: int, part: int)
    requires SplitAt(a, b, i, part)
    ensures 0 <= i < |a| && |b| == |a| + 1
    ensures forall j :: 0 <= j < |a| ==> var y := b[if j <= i then j else j + 1]; y == a[j].(amount := y.amount)
    ensures forall j :: 0 <= j < |b| ==> var x := a[if j <= i then j else j - 1]; x == b[j].(amount := x.amount)
  {
  }

  lemma SplitGroupSum(a: seq<Item>, b: seq<Item>, i: int, part: int, g: Group)
    requires SplitAt(a, b, i, part)
    ensures GroupSum(a, g) == GroupSum(b, g)
  {
    var it := a[i];
    var half, rest := it.(amount := part), it.(amount := it.amount - part);
    assert a == a[..i] + ([it] + a[i + 1..]);
    assert b == a[..i] + ([half] + ([rest] + a[i + 1..]));
    GroupSumConcat(a[..i], [it] + a[i + 1..], g);
    GroupSumConcat([it], a[i + 1..], g);
    GroupSumConcat(a[..i], [half] + ([rest] + a[i + 1..]), g);
    GroupSumConcat([half], [rest] + a[i + 1..], g);
    GroupSumConcat([rest], a[i + 1..], g);
    assert GroupSum([it], g) == GroupSum([half], g) + GroupSum([rest], g);
  }

  /** Reordered or split items form the same groups with the same sums. */
  lemma SameMoneySameGroups(a: seq<Item>, b: seq<Item>)
    requires SameMoney(a, b)
    ensures Mirrored(a, b) && Mirrored(b, a)
    ensures Groups(a) == Groups(b)
    ensures forall g :: GroupSum(a, g) == GroupSum(b, g)
  {
    hide GroupSum, Mirrored, Groups, SplitAt;
    if multiset(a) == multiset(b) {
      PermutedMirrored(a, b);
      PermutedMirrored(b, a);
      forall g ensures GroupSum(a, g) == GroupSum(b, g) {
        GroupSumPermuted(a, b, g);
      }
    } else {
      var i, part :| SplitAt(a, b, i, part);
      SplitMirrored(a, b, i, part);
      forall g ensures GroupSum(a, g) == GroupSum(b, g) {
        SplitGroupSum(a, b, i, part, g);
      }
    }
    GroupsFromItems(a, b);
    GroupsFromItems(b, a);
  }

  lemma GroupsFromItems(a: seq<Item>, b: seq<Item>)
    requires Mirrored(a, b)
    ensures Groups(a) <= Groups(b)
  {
    forall g | g in Groups(a) ensures g in Groups(b) {
      var x :| x in a && GroupOf(x) == g;
      var y :| y in b && y == x.(amount := y.amount);
      assert GroupOf(y) == g;
    }
  }

  lemma TotalSame(a: seq<Item>, b: seq<Item>, loaded: map<int, Range>, current: int, p: RateProvider)
    requires Sound(p) && current in loaded
    requires Groups(a) == Groups(b)
    requires forall g :: GroupSum(a, g) == GroupSum(b, g)
    ensures Total(a, loaded, current, p) == Total(b, loaded, current, p)
  {
    hide Converted;
    SumSetAgree(Groups(a), g => GroupValue(a, loaded, current, p, g), g => GroupValue(b, loaded, current, p, g));
  }

  /**
   * A batch's totals do not depend on the order of a key's items, nor on an item being split in two, as long as the
   * items starting in one month share one period range.
   */
  lemma BulkConvertInvariant<K(!new)>(own: Range, a: map<K, seq<Item>>, b: map<K, seq<Item>>, p: RateProvider,
                                      loadedA: map<int, Range>, loadedB: map<int, Range>, k: K)
    requires Sound(p)
    requires OneRangePerMonth(a)
    requires a.Keys == b.Keys && (forall x :: x in a ==> SameMoney(a[x], b[x]))
    requires Needed(own, a, loadedA) && Needed(own, b, loadedB)
    requires k in a
    ensures Total(a[k], loadedA, MonthKey(own.start), p) == Total(b[k], loadedB, MonthKey(own.start), p)
  {
    hide MonthKey, Total;
    AskedSame(a, b);
    AskedSame(b, a);
    NeededUnique(own, a, loadedA, loadedB);
    SameMoneySameGroups(a[k], b[k]);
    TotalSame(a[k], b[k], loadedA, MonthKey(own.start), p);
  }

  lemma AskedSame<K(!new)>(a: map<K, seq<Item>>, b: map<K, seq<Item>>)
    requires a.Keys == b.Keys
    requires forall x :: x in a ==> SameMoney(a[x], b[x]) || SameMoney(b[x], a[x])
    ensures forall m, r :: Asked(a, m, r) ==> Asked(b, m, r)
  {
    hide MonthKey;
    forall m, r | Asked(a, m, r)
      ensures Asked(b, m, r)
    {
      var k, x :| k in a && x in a[k] && Crosses(x, m, r);
      if SameMoney(a[k], b[k]) { SameMoneySameGroups(a[k], b[k]); } else { SameMoneySameGroups(b[k], a[k]); }
      assert HasTwin(x, b[k]);
      var y :| y in b[k] && y == x.(amount := y.amount);
      assert Crosses(y, m, r);
    }
  }
}
