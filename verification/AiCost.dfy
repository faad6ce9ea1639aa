/**
 Pricing of AI invocations and the grouped cost report (shared/ai_cost.py).

 The price lookup of the source (table, aliases, configured fallback) is a function of the
 provider and the model; it is a parameter here, so every result holds for every price table.
 */
module AiCost {
  import opened Wrappers
  import opened Sums
  import opened Grouping

  const CHARS_PER_TOKEN: int := 4

  type Money = r: real | 0.0 <= r
  datatype Rate = Rate(input: Money, output: Money)
  type Pricing = (string, string) -> Option<Rate>

  datatype Status = RESERVED | SUCCESS | ERROR
  datatype ErrorType = NoError | BudgetUnpriced | BudgetConfiguration | ReservationExpired | OtherError(name: string)

  datatype Row = Row(
    id: string, feature: string, provider: string, model: string, status: Status,
    inputChars: int, outputChars: int, inputTokens: Option<int>, outputTokens: Option<int>,
    errorType: ErrorType, createdAt: int)

  function NonNegative(n: int): nat {
    if n < 0 then 0 else n
  }

  /** The least token count whose characters cover ``chars``. */
  function EstimatedTokens(chars: int): (tokens: nat)
    ensures chars <= CHARS_PER_TOKEN * tokens
    ensures tokens > 0 ==> CHARS_PER_TOKEN * (tokens - 1) < chars
  {
    (NonNegative(chars) + CHARS_PER_TOKEN - 1) / CHARS_PER_TOKEN
  }

  function TokensFor(actual: Option<int>, chars: int): nat {
    match actual
    case Some(n) => NonNegative(n)
    case None => EstimatedTokens(chars)
  }

  function InputTokens(row: Row): nat { TokensFor(row.inputTokens, row.inputChars) }

  function OutputTokens(row: Row): nat { TokensFor(row.outputTokens, row.outputChars) }

  function Priced(rate: Rate, inputTokens: real, outputTokens: real): real {
    (inputTokens * rate.input + outputTokens * rate.output) / 1000000.0
  }

  /** What one call will cost, judged from character counts before it is made. */
  function EstimateCost(pricing: Pricing, provider: string, model: string, inputChars: int,
      outputChars: int): Option<real> {
    match pricing(provider, model)
    case None => None
    case Some(rate) =>
      Some(Priced(rate, EstimatedTokens(inputChars) as real, EstimatedTokens(outputChars) as real))
  }

  /** The cost of a recorded row: real usage where the provider supplied it. */
  function RowCost(pricing: Pricing, row: Row): Option<real> {
    match pricing(row.provider, row.model)
    case None => None
    case Some(rate) => Some(Priced(rate, InputTokens(row) as real, OutputTokens(row) as real))
  }

  function CostOrZero(pricing: Pricing, row: Row): (cost: real)
    ensures 0.0 <= cost
  {
    match RowCost(pricing, row)
    case None => 0.0
    case Some(cost) => PricedIsNonNegative(pricing, row); cost
  }

  /**
   A million times the cost is input tokens at the input rate plus output tokens at the output rate: the
   tokens the provider reported, or else the least count whose characters cover the text.
   */
  lemma RowCostMeans(pricing: Pricing, row: Row, rate: Rate) returns (input: nat, output: nat)
    requires pricing(row.provider, row.model) == Some(rate)
    ensures RowCost(pricing, row).Some?
    ensures 1000000.0 * RowCost(pricing, row).value == input as real * rate.input + output as real * rate.output
    ensures CountsTokens(input, row.inputTokens, row.inputChars)
    ensures CountsTokens(output, row.outputTokens, row.outputChars)
  {
    input, output := InputTokens(row), OutputTokens(row);
  }

  ghost predicate CountsTokens(tokens: nat, reported: Option<int>, chars: int) {
    match reported
    case Some(n) => tokens == if n < 0 then 0 else n
    case None => if chars <= 0 then tokens == 0 else 4 * (tokens - 1) < chars <= 4 * tokens
  }

  lemma PricedIsNonNegative(pricing: Pricing, row: Row)
    ensures var cost := RowCost(pricing, row); cost.Some? ==> 0.0 <= cost.value
  {
    match pricing(row.provider, row.model)
    case None =>
    case Some(rate) =>
      ProductIsNonNegative(InputTokens(row) as real, rate.input);
      ProductIsNonNegative(OutputTokens(row) as real, rate.output);
  }

  lemma ProductIsNonNegative(a: Money, b: Money)
    ensures a * b >= 0.0
  {
  }

  // ----- The grouped report -----

  type GroupKey = (string, string, string)

  function KeyOf(row: Row): GroupKey { (row.feature, row.provider, row.model) }

  /** Two calls are reported in one line when they agree on feature, provider and model. */
  lemma SameGroupIff(a: Row, b: Row)
    ensures KeyOf(a) == KeyOf(b) <==> a.feature == b.feature && a.provider == b.provider && a.model == b.model
  {
  }

  ghost function CostWeight(pricing: Pricing): Row -> real { (row: Row) => CostOrZero(pricing, row) }
  ghost function InputWeight(): Row -> real { (row: Row) => InputTokens(row) as real }
  ghost function OutputWeight(): Row -> real { (row: Row) => OutputTokens(row) as real }

  datatype Group = Group(key: GroupKey, calls: nat, inputTokens: int, outputTokens: int, cost: Option<real>)
  datatype Report = Report(groups: seq<Group>, totalCost: real, pricedGroups: nat, unpricedGroups: nat)

  function Since(rows: seq<Row>, cutoff: int): seq<Row> {
    if rows == [] then []
    else
      var row := rows[|rows| - 1];
      Since(rows[..|rows| - 1], cutoff) + if row.createdAt >= cutoff then [row] else []
  }

  /** Pricing the summed tokens of one group is summing the prices of its rows. */
  lemma {:induction false} GroupCostIsSumOfRowCosts(pricing: Pricing, items: seq<Row>, k: GroupKey, rate: Rate)
    requires forall row :: row in items ==> KeyOf(row) == k
    requires pricing(k.1, k.2) == Some(rate)
    ensures Priced(rate, Sum(items, InputWeight()), Sum(items, OutputWeight())) == Sum(items, CostWeight(pricing))
  {
    if items != [] {
      var n := |items| - 1;
      var row := items[n];
      assert row in items;
      GroupCostIsSumOfRowCosts(pricing, items[..n], k, rate);
      PricedAdds(rate, Sum(items[..n], InputWeight()), Sum(items[..n], OutputWeight()),
                 InputTokens(row) as real, OutputTokens(row) as real);
    }
  }

  lemma PricedAdds(rate: Rate, a: real, b: real, c: real, d: real)
    ensures Priced(rate, a + c, b + d) == Priced(rate, a, b) + Priced(rate, c, d)
  {
    assert (a + c) * rate.input == a * rate.input + c * rate.input;
    assert (b + d) * rate.output == b * rate.output + d * rate.output;
  }

  lemma {:induction false} UnpricedGroupCostsNothing(pricing: Pricing, items: seq<Row>, k: GroupKey)
    requires forall row :: row in items ==> KeyOf(row) == k
    requires pricing(k.1, k.2) == None
    ensures Sum(items, CostWeight(pricing)) == 0.0
  {
    if items != [] {
      assert items[|items| - 1] in items;
      UnpricedGroupCostsNothing(pricing, items[..|items| - 1], k);
    }
  }

  method SumTokens(items: seq<Row>) returns (input: int, output: int)
    ensures input as real == Sum(items, InputWeight())
    ensures output as real == Sum(items, OutputWeight())
  {
    input, output := 0, 0;
    for i := 0 to |items|
      invariant input as real == Sum(items[..i], InputWeight())
      invariant output as real == Sum(items[..i], OutputWeight())
    {
      SumPrefix(items, i, InputWeight());
      SumPrefix(items, i, OutputWeight());
      input := input + InputTokens(items[i]);
      output := output + OutputTokens(items[i]);
    }
    assert items[..|items|] == items;
  }

  /** One line of the report is right about its rows. */
  ghost predicate Describes(pricing: Pricing, recent: seq<Row>, group: Group) {
    var items := Select(recent, KeyOf, group.key);
    && items != []
    && group.calls == |items|
    && group.inputTokens as real == Sum(items, InputWeight())
    && group.outputTokens as real == Sum(items, OutputWeight())
    && (group.cost == None <==> forall row :: row in items ==> RowCost(pricing, row) == None)
    && (group.cost.Some? ==> group.cost.value == Sum(items, CostWeight(pricing)))
  }

  method DescribeGroup(pricing: Pricing, recent: seq<Row>, k: GroupKey) returns (group: Group)
    requires k in KeysOf(recent, KeyOf)
    ensures group.key == k && Describes(pricing, recent, group)
    ensures GroupTotal(recent, KeyOf, CostWeight(pricing))(k) == if group.cost.Some? then group.cost.value else 0.0
  {
    var items := Select(recent, KeyOf, k);
    SelectMembers(recent, KeyOf, k);
    var i :| 0 <= i < |recent| && KeyOf(recent[i]) == k;
    assert recent[i] in items;
    var input, output := SumTokens(items);
    var cost: Option<real>;
    match pricing(k.1, k.2) {
      case None =>
        UnpricedGroupCostsNothing(pricing, items, k);
        cost := None;
      case Some(rate) =>
        GroupCostIsSumOfRowCosts(pricing, items, k, rate);
        cost := Some(Priced(rate, input as real, output as real));
        assert RowCost(pricing, recent[i]).Some?;
    }
    group := Group(k, |items|, input, output, cost);
  }

  /** The group totals add up to the cost of all rows, so none is missed or counted twice. */
  lemma GroupCostsAddUp(pricing: Pricing, recent: seq<Row>)
    ensures Sum(KeysOf(recent, KeyOf), GroupTotal(recent, KeyOf, CostWeight(pricing)))
      == Sum(recent, CostWeight(pricing))
  {
    forall row | row in recent ensures KeyOf(row) in KeysOf(recent, KeyOf) {
      var i :| 0 <= i < |recent| && recent[i] == row;
      assert KeyOf(recent[i]) == KeyOf(row);
    }
    GroupTotalsAddUp(KeysOf(recent, KeyOf), recent, KeyOf, CostWeight(pricing));
  }

  /** The lines of the report so far, one for each of the first keys. */
  ghost predicate Lists(pricing: Pricing, recent: seq<Row>, ks: seq<GroupKey>, groups: seq<Group>) {
    && |groups| <= |ks|
    && forall j :: 0 <= j < |groups| ==> groups[j].key == ks[j] && Describes(pricing, recent, groups[j])
  }

  lemma ListsSnoc(pricing: Pricing, recent: seq<Row>, ks: seq<GroupKey>, groups: seq<Group>, group: Group)
    requires Lists(pricing, recent, ks, groups) && |groups| < |ks|
    requires group.key == ks[|groups|] && Describes(pricing, recent, group)
    ensures Lists(pricing, recent, ks, groups + [group])
  {
  }

  function HasCost(): Group -> bool { (group: Group) => group.cost.Some? }

  method DescribeGroups(pricing: Pricing, recent: seq<Row>, ks: seq<GroupKey>)
    returns (groups: seq<Group>, total: real, priced: nat, unpriced: nat)
    requires forall i :: 0 <= i < |ks| ==> ks[i] in KeysOf(recent, KeyOf)
    ensures Lists(pricing, recent, ks, groups) && |groups| == |ks| == priced + unpriced
    ensures priced == Count(groups, HasCost())
    ensures total == Sum(ks, GroupTotal(recent, KeyOf, CostWeight(pricing)))
  {
    ghost var weight := GroupTotal(recent, KeyOf, CostWeight(pricing));
    groups, total, priced, unpriced := [], 0.0, 0, 0;
    for i := 0 to |ks|
      invariant |groups| == i == priced + unpriced && priced == Count(groups, HasCost())
      invariant Lists(pricing, recent, ks, groups)
      invariant total == Sum(ks[..i], weight)
    {
      var group := DescribeGroup(pricing, recent, ks[i]);
      SumPrefix(ks, i, weight);
      ListsSnoc(pricing, recent, ks, groups, group);
      assert (groups + [group])[..i] == groups;
      groups := groups + [group];
      if group.cost.Some? {
        total, priced := total + group.cost.value, priced + 1;
      } else {
        unpriced := unpriced + 1;
      }
    }
    assert ks[..|ks|] == ks;
  }

  /** The report: one line per group, each group once, and a total that misses and doubles nothing. */
  method Summary(pricing: Pricing, rows: seq<Row>, cutoff: int) returns (report: Report)
    ensures report.totalCost == Sum(Since(rows, cutoff), CostWeight(pricing))
    ensures |report.groups| == |KeysOf(Since(rows, cutoff), KeyOf)| == report.pricedGroups + report.unpricedGroups
    ensures report.pricedGroups == Count(report.groups, HasCost())
    ensures Lists(pricing, Since(rows, cutoff), KeysOf(Since(rows, cutoff), KeyOf), report.groups)
  {
    var recent := Since(rows, cutoff);
    var groups, total, priced, unpriced := DescribeGroups(pricing, recent, KeysOf(recent, KeyOf));
    GroupCostsAddUp(pricing, recent);
    report := Report(groups, total, priced, unpriced);
  }
}
