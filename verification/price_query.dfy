/** The query `findTopPrice`: among the rows of PRICES, those of the requested
    product and brand whose window `[startDate, endDate]` contains the date
    (`BETWEEN`, both ends inclusive), highest priority first, at most one row. */
module PriceQuery {
  import opened Values
  import opened Prices
  import opened PriceEntities

  /** The WHERE clause under SQL's three-valued logic: a comparison with a
      NULL on either side is never true, so a row or a parameter that is null
      in any compared column never matches. */
  predicate Matches(e: PriceEntity, k: Key) {
    && k.productId.Some? && e.productId == k.productId
    && k.brandId.Some? && e.brandId == k.brandId
    && k.date.Some? && e.startDate.Some? && e.endDate.Some?
    && e.startDate.value <= k.date.value <= e.endDate.value
  }

  /** `a` sorts no later than `b` under `ORDER BY priority DESC`, with a NULL
      priority sorting after every non-null one. */
  predicate RanksAtLeast(a: Option<Int32>, b: Option<Int32>) {
    b.None? || (a.Some? && a.value >= b.value)
  }

  /** `e` is a row the query may return: it matches, and no matching row
      ranks above it. */
  ghost predicate IsTop(rules: seq<PriceEntity>, k: Key, e: PriceEntity) {
    && e in rules
    && Matches(e, k)
    && forall x :: x in rules && Matches(x, k) ==> RanksAtLeast(e.priority, x.priority)
  }

  /** The query's result. The query fixes no order among rows of equal
      priority; this model returns the earliest such row of the table. */
  function FindTopPrice(rules: seq<PriceEntity>, k: Key): (r: Option<PriceEntity>)
    ensures r.Some? ==> IsTop(rules, k, r.value)
    ensures r.None? <==> forall x :: x in rules ==> !Matches(x, k)
  {
    if |rules| == 0 then None
    else
      var rest := FindTopPrice(rules[1..], k);
      assert forall x :: x in rules <==> x == rules[0] || x in rules[1..];
      if Matches(rules[0], k) && (rest.None? || RanksAtLeast(rules[0].priority, rest.value.priority))
      then Some(rules[0])
      else rest
  }

  /** The rows that pass the WHERE clause, in table order. */
  function Relevant(rules: seq<PriceEntity>, k: Key): (r: seq<PriceEntity>)
    ensures forall x :: x in r <==> x in rules && Matches(x, k)
  {
    if |rules| == 0 then []
    else
      assert forall x :: x in rules <==> x == rules[0] || x in rules[1..];
      (if Matches(rules[0], k) then [rules[0]] else []) + Relevant(rules[1..], k)
  }

  /** Rows of other products or brands, and rows whose window misses the
      date, have no influence at all: the query over the relevant rows alone
      returns the same row. */
  lemma {:induction false} IrrelevantRowsIgnored(rules: seq<PriceEntity>, k: Key)
    ensures FindTopPrice(Relevant(rules, k), k) == FindTopPrice(rules, k)
  {
    if |rules| > 0 {
      IrrelevantRowsIgnored(rules[1..], k);
      if Matches(rules[0], k) {
        assert Relevant(rules, k) == [rules[0]] + Relevant(rules[1..], k);
        assert Relevant(rules, k)[1..] == Relevant(rules[1..], k);
      } else {
        assert Relevant(rules, k) == Relevant(rules[1..], k);
      }
    }
  }

  /** Whatever row among equals the query picks, its priority is determined:
      any row that could be returned has the priority of the one returned. */
  lemma TopPriorityDetermined(rules: seq<PriceEntity>, k: Key, e: PriceEntity)
    requires IsTop(rules, k, e)
    ensures FindTopPrice(rules, k).Some?
    ensures FindTopPrice(rules, k).value.priority == e.priority
  {
  }

  /** The order of the table does not matter to the outcome: two tables with
      the same rows give results of equal priority, or both nothing. */
  lemma OrderIrrelevantToPriority(rules1: seq<PriceEntity>, rules2: seq<PriceEntity>, k: Key)
    requires forall x :: x in rules1 <==> x in rules2
    ensures FindTopPrice(rules1, k).None? <==> FindTopPrice(rules2, k).None?
    ensures FindTopPrice(rules1, k).Some? ==>
              FindTopPrice(rules1, k).value.priority == FindTopPrice(rules2, k).value.priority
  {
    var r1 := FindTopPrice(rules1, k);
    if r1.Some? {
      TopPriorityDetermined(rules2, k, r1.value);
    }
  }

  /** Of two overlapping windows that both contain the date, the rule of
      higher priority wins, whatever the table order. */
  lemma HigherPriorityWins(rules: seq<PriceEntity>, k: Key, lo: PriceEntity, hi: PriceEntity)
    requires lo in rules && hi in rules
    requires Matches(lo, k) && Matches(hi, k)
    requires lo.priority.Some? && hi.priority.Some? && lo.priority.value < hi.priority.value
    ensures FindTopPrice(rules, k).Some? && FindTopPrice(rules, k).value != lo
  {
  }

  /** The example of product 35455, brand 1: a priority-1 rule for 09:00-11:00
      and a priority-2 rule for 10:00-12:00; at exactly 10:00, the lower bound
      of the second window, the priority-2 rule at 25.45 applies. */
  lemma OverlapExample()
    ensures var hour := 3600 * 1_000_000_000;
            var low := PriceEntity(Some(1), Some(1), Some(9 * hour), Some(11 * hour), Some(1),
                                   Some(35455), Some(1), Some(Decimal(3550, 2)), Some("EUR"));
            var high := PriceEntity(Some(2), Some(1), Some(10 * hour), Some(12 * hour), Some(2),
                                    Some(35455), Some(2), Some(Decimal(2545, 2)), Some("EUR"));
            && FindTopPrice([low, high], Key(Some(10 * hour), Some(35455), Some(1))) == Some(high)
            && FindTopPrice([low, high], Key(Some(10 * hour), Some(99999), Some(1))) == None
  {
  }
}
