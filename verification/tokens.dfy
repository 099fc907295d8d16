/** `TokenUsageDatabase` (chat_gpt/tokens.py): a ledger of token usage keyed by
    timestamp, priced from a per-thousand-token price table. The sqlite table is held
    in memory as a sequence of rows with distinct timestamps; prices and costs are
    exact reals. A model name is `Option<string>`, `None` standing for Python's `None`. */
module TokenUsage {
  import opened Wrappers

  /** A price or a cost for each direction of a request. */
  datatype Prices = Prices(input: real, output: real)

  /** `PRICE_PER_THOUSAND_TOKENS`, in the order the dictionary lists it. */
  const PricePerThousandTokens: seq<(Option<string>, Prices)> := [
    (Some("gpt-3.5-turbo"), Prices(0.0015, 0.002)),
    (Some("gpt-4"), Prices(0.03, 0.06)),
    (Some("text-embedding-ada-002"), Prices(0.0001, 0.0)),
    (None, Prices(0.0, 0.0))
  ]

  /** A dictionary literal lists each key once. */
  predicate DistinctModels(table: seq<(Option<string>, Prices)>) {
    forall i, j :: 0 <= i < j < |table| ==> table[i].0 != table[j].0
  }

  /** The price of one token, from the price of a thousand. */
  function PerToken(p: Prices): (r: Prices)
    ensures r.input * 1000.0 == p.input && r.output * 1000.0 == p.output
  {
    Prices(p.input / 1000.0, p.output / 1000.0)
  }

  /** The loop of `__init__` that fills `token_price`. */
  method BuildTokenPrice(table: seq<(Option<string>, Prices)>) returns (price: map<Option<string>, Prices>)
    requires DistinctModels(table)
    ensures forall m :: m in price <==> exists k :: 0 <= k < |table| && table[k].0 == m
    ensures forall k :: 0 <= k < |table| ==> price[table[k].0] == PerToken(table[k].1)
  {
    price := map[];
    for i := 0 to |table|
      invariant forall m :: m in price <==> exists k :: 0 <= k < i && table[k].0 == m
      invariant forall k :: 0 <= k < i ==> price[table[k].0] == PerToken(table[k].1)
    {
      price := price[table[i].0 := PerToken(table[i].1)];
    }
  }

  /** A row of `token_costs`. */
  datatype Row = Row(
    timestamp: real,
    model: Option<string>,
    nInputTokens: int,
    nOutputTokens: int,
    costInputTokens: real,
    costOutputTokens: real)

  /** `timestamp` is the primary key. */
  predicate DistinctTimestamps(rows: seq<Row>) {
    forall i, j :: 0 <= i < j < |rows| ==> rows[i].timestamp != rows[j].timestamp
  }

  /** The rows whose timestamp differs from `t`, in order. */
  function WithoutTimestamp(rows: seq<Row>, t: real): (r: seq<Row>)
    ensures |r| <= |rows|
    ensures forall k :: 0 <= k < |r| ==> r[k].timestamp != t && r[k] in rows
    ensures forall x :: x in rows && x.timestamp != t ==> x in r
  {
    if rows == [] then []
    else
      var last := rows[|rows| - 1];
      WithoutTimestamp(rows[..|rows| - 1], t) + (if last.timestamp != t then [last] else [])
  }

  /** `INSERT OR REPLACE`: a row with the same timestamp is replaced. */
  function Upsert(rows: seq<Row>, row: Row): seq<Row> {
    WithoutTimestamp(rows, row.timestamp) + [row]
  }

  lemma {:induction false} WithoutTimestampDistinct(rows: seq<Row>, t: real)
    requires DistinctTimestamps(rows)
    ensures DistinctTimestamps(WithoutTimestamp(rows, t))
  {
    if rows != [] {
      var init := rows[..|rows| - 1];
      var last := rows[|rows| - 1];
      WithoutTimestampDistinct(init, t);
      var w := WithoutTimestamp(init, t);
      if last.timestamp != t {
        forall k | 0 <= k < |w| ensures w[k].timestamp != last.timestamp {
          assert w[k] in init;
        }
        AppendDistinct(w, last);
      }
    }
  }

  /** A row whose timestamp no row has can be appended without breaking the key. */
  lemma AppendDistinct(rows: seq<Row>, row: Row)
    requires DistinctTimestamps(rows)
    requires forall k :: 0 <= k < |rows| ==> rows[k].timestamp != row.timestamp
    ensures DistinctTimestamps(rows + [row])
  {
    forall i, j | 0 <= i < j < |rows| + 1
      ensures (rows + [row])[i].timestamp != (rows + [row])[j].timestamp
    {
      if j == |rows| {
        assert (rows + [row])[j] == row;
      }
    }
  }

  /** Under a unique key, removing an existing timestamp removes exactly one row. */
  lemma {:induction false} WithoutTimestampPresent(rows: seq<Row>, t: real, k: nat)
    requires DistinctTimestamps(rows) && k < |rows| && rows[k].timestamp == t
    ensures |WithoutTimestamp(rows, t)| == |rows| - 1
  {
    var init := rows[..|rows| - 1];
    DistinctInit(rows);
    if k < |init| {
      assert init[k] == rows[k];
      WithoutTimestampPresent(init, t, k);
    } else {
      WithoutTimestampAbsent(init, t);
    }
  }

  /** Under a unique key, the rows before the last keep the key, and none of them has
      the last row's timestamp. */
  lemma DistinctInit(rows: seq<Row>)
    requires DistinctTimestamps(rows) && rows != []
    ensures var init := rows[..|rows| - 1];
      DistinctTimestamps(init)
      && forall j :: 0 <= j < |init| ==> init[j].timestamp != rows[|rows| - 1].timestamp
  {
    var init := rows[..|rows| - 1];
    assert forall j :: 0 <= j < |init| ==> init[j] == rows[j];
  }

  /** Removing a timestamp no row has changes nothing. */
  lemma {:induction false} WithoutTimestampAbsent(rows: seq<Row>, t: real)
    requires forall k :: 0 <= k < |rows| ==> rows[k].timestamp != t
    ensures WithoutTimestamp(rows, t) == rows
  {
    if rows != [] {
      WithoutTimestampAbsent(rows[..|rows| - 1], t);
      assert rows == rows[..|rows| - 1] + [rows[|rows| - 1]];
    }
  }

  /** After an upsert the key stays unique, the new row is there, every row with another
      timestamp is kept, and the table grows by one row only when the timestamp is new. */
  lemma UpsertKeepsKey(rows: seq<Row>, row: Row)
    requires DistinctTimestamps(rows)
    ensures DistinctTimestamps(Upsert(rows, row))
    ensures row in Upsert(rows, row)
    ensures forall x :: x in Upsert(rows, row) && x.timestamp == row.timestamp ==> x == row
    ensures forall x :: x in rows && x.timestamp != row.timestamp ==> x in Upsert(rows, row)
    ensures |Upsert(rows, row)| == if exists k :: 0 <= k < |rows| && rows[k].timestamp == row.timestamp
                                   then |rows| else |rows| + 1
  {
    WithoutTimestampDistinct(rows, row.timestamp);
    var w := WithoutTimestamp(rows, row.timestamp);
    AppendDistinct(w, row);
    if exists k :: 0 <= k < |rows| && rows[k].timestamp == row.timestamp {
      var k :| 0 <= k < |rows| && rows[k].timestamp == row.timestamp;
      WithoutTimestampPresent(rows, row.timestamp, k);
    } else {
      WithoutTimestampAbsent(rows, row.timestamp);
    }
  }

  /** What `insert_data` does: nothing for the `None` model, a `KeyError` for a model
      missing from the price table, otherwise the priced row. */
  datatype InsertOutcome = Skipped | UnknownModel(key: string) | Inserted(row: Row)

  function PlanInsert(tokenPrice: map<Option<string>, Prices>, model: Option<string>,
                      nInputTokens: int, nOutputTokens: int, now: real): (o: InsertOutcome)
    ensures o.Skipped? <==> model.None?
    ensures o.UnknownModel? <==> model.Some? && model !in tokenPrice
    ensures o.UnknownModel? ==> o.key == model.value
    ensures o.Inserted? ==>
      o.row.timestamp == now && o.row.model == model && model in tokenPrice
      && o.row.nInputTokens == nInputTokens && o.row.nOutputTokens == nOutputTokens
      && o.row.costInputTokens == nInputTokens as real * tokenPrice[model].input
      && o.row.costOutputTokens == nOutputTokens as real * tokenPrice[model].output
  {
    if model.None? then Skipped
    else if model !in tokenPrice then UnknownModel(model.value)
    else
      var price := tokenPrice[model];
      Inserted(Row(now, model, nInputTokens, nOutputTokens,
                   nInputTokens as real * price.input, nOutputTokens as real * price.output))
  }

  /** Aggregates of a group of rows, or the field-wise totals of several groups. */
  datatype Sums = Sums(
    earliestTimestamp: real,
    nInputTokens: int,
    nOutputTokens: int,
    costInputTokens: real,
    costOutputTokens: real)

  /** One result row of `GROUP BY model`. */
  datatype ModelSums = ModelSums(model: Option<string>, sums: Sums)

  function SumInputTokens(rows: seq<Row>): int {
    if rows == [] then 0 else SumInputTokens(rows[..|rows| - 1]) + rows[|rows| - 1].nInputTokens
  }

  function SumOutputTokens(rows: seq<Row>): int {
    if rows == [] then 0 else SumOutputTokens(rows[..|rows| - 1]) + rows[|rows| - 1].nOutputTokens
  }

  function SumCostInput(rows: seq<Row>): real {
    if rows == [] then 0.0 else SumCostInput(rows[..|rows| - 1]) + rows[|rows| - 1].costInputTokens
  }

  function SumCostOutput(rows: seq<Row>): real {
    if rows == [] then 0.0 else SumCostOutput(rows[..|rows| - 1]) + rows[|rows| - 1].costOutputTokens
  }

  /** `MIN(timestamp)`: a timestamp of one of the rows, no larger than any of them. */
  function MinTimestamp(rows: seq<Row>): (t: real)
    requires rows != []
    ensures exists k :: 0 <= k < |rows| && rows[k].timestamp == t
    ensures forall k :: 0 <= k < |rows| ==> t <= rows[k].timestamp
  {
    if |rows| == 1 then rows[0].timestamp
    else
      var t := MinTimestamp(rows[..|rows| - 1]);
      var last := rows[|rows| - 1].timestamp;
      if last < t then last else t
  }

  /** The aggregate columns the query selects, for the rows of one model. */
  function Aggregate(rows: seq<Row>): Sums
    requires rows != []
  {
    Sums(MinTimestamp(rows), SumInputTokens(rows), SumOutputTokens(rows),
         SumCostInput(rows), SumCostOutput(rows))
  }

  /** The rows of one model, in order. */
  function RowsOf(rows: seq<Row>, model: Option<string>): (r: seq<Row>)
    ensures forall k :: 0 <= k < |r| ==> r[k].model == model
  {
    if rows == [] then []
    else
      var last := rows[|rows| - 1];
      RowsOf(rows[..|rows| - 1], model) + (if last.model == model then [last] else [])
  }

  /** Where the group of `model` sits among the groups, or `|groups|` when it has none. */
  function FindModel(groups: seq<ModelSums>, model: Option<string>): (i: nat)
    ensures i <= |groups|
    ensures i < |groups| ==> groups[i].model == model
    ensures i == |groups| ==> forall k :: 0 <= k < |groups| ==> groups[k].model != model
  {
    if groups == [] then 0
    else if groups[0].model == model then 0
    else 1 + FindModel(groups[1..], model)
  }

  /** The group of a model after one more of its rows. */
  function Merge(s: Sums, r: Row): Sums {
    Sums(if r.timestamp < s.earliestTimestamp then r.timestamp else s.earliestTimestamp,
         s.nInputTokens + r.nInputTokens, s.nOutputTokens + r.nOutputTokens,
         s.costInputTokens + r.costInputTokens, s.costOutputTokens + r.costOutputTokens)
  }

  function FromRow(r: Row): Sums {
    Sums(r.timestamp, r.nInputTokens, r.nOutputTokens, r.costInputTokens, r.costOutputTokens)
  }

  /** Groups the rows by model, in the order each model first appears. */
  function SumsByModel(rows: seq<Row>): seq<ModelSums> {
    if rows == [] then []
    else
      var groups := SumsByModel(rows[..|rows| - 1]);
      var r := rows[|rows| - 1];
      var i := FindModel(groups, r.model);
      if i < |groups| then groups[i := ModelSums(r.model, Merge(groups[i].sums, r))]
      else groups + [ModelSums(r.model, FromRow(r))]
  }

  predicate DistinctGroups(groups: seq<ModelSums>) {
    forall i, j :: 0 <= i < j < |groups| ==> groups[i].model != groups[j].model
  }

  lemma AggregateAppend(rows: seq<Row>, r: Row)
    requires rows != []
    ensures Aggregate(rows + [r]) == Merge(Aggregate(rows), r)
  {
    assert (rows + [r])[..|rows|] == rows;
  }

  lemma AggregateSingle(r: Row)
    ensures Aggregate([r]) == FromRow(r)
  {
    assert [r][..0] == [];
    assert SumInputTokens([r]) == r.nInputTokens;
    assert SumOutputTokens([r]) == r.nOutputTokens;
    assert SumCostInput([r]) == r.costInputTokens;
    assert SumCostOutput([r]) == r.costOutputTokens;
  }

  /** `retrieve_sums_by_model` has one entry per model: no model twice ... */
  lemma {:induction false} SumsByModelDistinct(rows: seq<Row>)
    ensures DistinctGroups(SumsByModel(rows))
  {
    if rows != [] {
      var init := rows[..|rows| - 1];
      var r := rows[|rows| - 1];
      SumsByModelDistinct(init);
      var groups := SumsByModel(init);
      var i := FindModel(groups, r.model);
      var groups' := SumsByModel(rows);
      if i < |groups| {
        assert forall k :: 0 <= k < |groups| ==> groups'[k].model == groups[k].model;
      } else {
        assert forall k :: 0 <= k < |groups| ==> groups'[k] == groups[k];
      }
    }
  }

  /** ... and every model of the table has its entry. */
  lemma {:induction false} SumsByModelCovers(rows: seq<Row>)
    ensures forall k :: 0 <= k < |rows| ==> FindModel(SumsByModel(rows), rows[k].model) < |SumsByModel(rows)|
  {
    if rows != [] {
      var init := rows[..|rows| - 1];
      var r := rows[|rows| - 1];
      SumsByModelCovers(init);
      var groups := SumsByModel(init);
      var i := FindModel(groups, r.model);
      var groups' := SumsByModel(rows);
      forall k | 0 <= k < |rows|
        ensures FindModel(groups', rows[k].model) < |groups'|
      {
        if k < |init| {
          assert rows[k] == init[k];
          var j := FindModel(groups, init[k].model);
          assert groups'[j].model == init[k].model;
        } else if i < |groups| {
          assert groups'[i].model == r.model;
        } else {
          assert groups'[|groups|].model == r.model;
        }
      }
    }
  }

  /** Each entry holds the earliest timestamp and the sums of that model's rows. */
  predicate GroupsAggregate(groups: seq<ModelSums>, rows: seq<Row>) {
    forall k :: 0 <= k < |groups| ==>
      RowsOf(rows, groups[k].model) != [] && groups[k].sums == Aggregate(RowsOf(rows, groups[k].model))
  }

  lemma {:induction false} SumsByModelAggregates(rows: seq<Row>)
    ensures GroupsAggregate(SumsByModel(rows), rows)
  {
    if rows != [] {
      var init := rows[..|rows| - 1];
      var r := rows[|rows| - 1];
      SumsByModelAggregates(init);
      var groups := SumsByModel(init);
      var i := FindModel(groups, r.model);
      var groups' := SumsByModel(rows);
      forall k | 0 <= k < |groups'|
        ensures RowsOf(rows, groups'[k].model) != []
        ensures groups'[k].sums == Aggregate(RowsOf(rows, groups'[k].model))
      {
        var m := groups'[k].model;
        if m == r.model {
          assert RowsOf(rows, m) == RowsOf(init, m) + [r];
          if i < |groups| {
            SumsByModelDistinct(init);
            assert k == i;
            assert groups[i].model == m;
            assert GroupsAggregate(groups, init);
            assert RowsOf(init, groups[i].model) != [];
            AggregateAppend(RowsOf(init, m), r);
          } else {
            SumsByModelCovers(init);
            RowsOfAbsent(init, m);
            AggregateSingle(r);
          }
        } else {
          assert RowsOf(rows, m) == RowsOf(init, m);
          assert k < |groups| && groups'[k] == groups[k];
          assert GroupsAggregate(groups, init);
        }
      }
    }
  }

  /** A model that no row has has no rows. */
  lemma {:induction false} RowsOfAbsent(rows: seq<Row>, model: Option<string>)
    requires forall k :: 0 <= k < |rows| ==> rows[k].model != model
    ensures RowsOf(rows, model) == []
  {
    if rows != [] {
      RowsOfAbsent(rows[..|rows| - 1], model);
    }
  }

  function Plus(a: Sums, b: Sums): Sums {
    Sums(a.earliestTimestamp + b.earliestTimestamp, a.nInputTokens + b.nInputTokens,
         a.nOutputTokens + b.nOutputTokens, a.costInputTokens + b.costInputTokens,
         a.costOutputTokens + b.costOutputTokens)
  }

  /** What a fresh `defaultdict(int)` reads for every key. */
  const Zero: Sums := Sums(0.0, 0, 0, 0.0, 0.0)

  /** Every field of every group added up, in the order of the groups. */
  function TotalOfGroups(groups: seq<ModelSums>): Sums {
    if groups == [] then Zero else Plus(TotalOfGroups(groups[..|groups| - 1]), groups[|groups| - 1].sums)
  }

  /** Replacing one group changes the total by the difference of the two groups. */
  lemma {:induction false} TotalOfGroupsUpdate(groups: seq<ModelSums>, i: nat, g: ModelSums)
    requires i < |groups|
    ensures Plus(TotalOfGroups(groups[i := g]), groups[i].sums) == Plus(TotalOfGroups(groups), g.sums)
  {
    var n := |groups|;
    if i < n - 1 {
      assert groups[i := g][..n - 1] == groups[..n - 1][i := g];
      TotalOfGroupsUpdate(groups[..n - 1], i, g);
    } else {
      assert groups[i := g][..n - 1] == groups[..n - 1];
    }
  }

  /** The token and cost totals over the groups are the totals over the whole table. */
  lemma {:induction false} TotalOfGroupsIsTableTotal(rows: seq<Row>)
    ensures var t := TotalOfGroups(SumsByModel(rows));
      t.nInputTokens == SumInputTokens(rows) && t.nOutputTokens == SumOutputTokens(rows)
      && t.costInputTokens == SumCostInput(rows) && t.costOutputTokens == SumCostOutput(rows)
  {
    if rows != [] {
      var init := rows[..|rows| - 1];
      var r := rows[|rows| - 1];
      TotalOfGroupsIsTableTotal(init);
      var groups := SumsByModel(init);
      var i := FindModel(groups, r.model);
      if i < |groups| {
        TotalOfGroupsUpdate(groups, i, ModelSums(r.model, Merge(groups[i].sums, r)));
      } else {
        assert (groups + [ModelSums(r.model, FromRow(r))])[..|groups|] == groups;
      }
    }
  }

  /** One row of the accumulated-usage table. */
  datatype UsageRow = UsageRow(
    model: string,
    tokensInput: int, tokensOutput: int, tokensTotal: int,
    costInput: real, costOutput: real, costTotal: real)

  function UsageRowOf(model: string, s: Sums): (u: UsageRow)
    ensures u.tokensTotal == u.tokensInput + u.tokensOutput && u.costTotal == u.costInput + u.costOutput
    ensures u.model == model && u.tokensInput == s.nInputTokens && u.tokensOutput == s.nOutputTokens
    ensures u.costInput == s.costInputTokens && u.costOutput == s.costOutputTokens
  {
    UsageRow(model, s.nInputTokens, s.nOutputTokens, s.nInputTokens + s.nOutputTokens,
             s.costInputTokens, s.costOutputTokens, s.costInputTokens + s.costOutputTokens)
  }

  /** The accumulated-usage rows: one per group whose model is not `None`, in order. */
  function UsageRows(groups: seq<ModelSums>): (us: seq<UsageRow>)
    ensures forall k :: 0 <= k < |us| ==>
      us[k].tokensTotal == us[k].tokensInput + us[k].tokensOutput && us[k].costTotal == us[k].costInput + us[k].costOutput
  {
    if groups == [] then []
    else
      var g := groups[|groups| - 1];
      UsageRows(groups[..|groups| - 1]) + (if g.model.Some? then [UsageRowOf(g.model.value, g.sums)] else [])
  }

  /** Each usage row comes from a group with the same model and sums; the `None` model
      never gets a row. */
  lemma {:induction false} UsageRowsFromGroups(groups: seq<ModelSums>)
    ensures var us := UsageRows(groups);
      |us| <= |groups|
      && forall k :: 0 <= k < |us| ==>
           exists j :: 0 <= j < |groups| && groups[j].model == Some(us[k].model)
                       && us[k] == UsageRowOf(us[k].model, groups[j].sums)
  {
    if groups != [] {
      var init := groups[..|groups| - 1];
      UsageRowsFromGroups(init);
      var us := UsageRows(groups);
      var a := UsageRows(init);
      forall k | 0 <= k < |us|
        ensures exists j :: 0 <= j < |groups| && groups[j].model == Some(us[k].model)
                            && us[k] == UsageRowOf(us[k].model, groups[j].sums)
      {
        if k < |a| {
          assert us[k] == a[k];
          var j :| 0 <= j < |init| && init[j].model == Some(a[k].model) && a[k] == UsageRowOf(a[k].model, init[j].sums);
          assert groups[j] == init[j];
        } else {
          assert groups[|groups| - 1].model == Some(us[k].model);
        }
      }
    }
  }

  /** How many groups have a model that is not `None`. */
  function NamedGroupCount(groups: seq<ModelSums>): nat {
    if groups == [] then 0
    else NamedGroupCount(groups[..|groups| - 1]) + (if groups[|groups| - 1].model.Some? then 1 else 0)
  }

  /** Every group with a named model gets its row, and there is one row per such group. */
  lemma {:induction false} UsageRowsCoverGroups(groups: seq<ModelSums>)
    ensures var us := UsageRows(groups);
      |us| == NamedGroupCount(groups)
      && forall j :: 0 <= j < |groups| && groups[j].model.Some? ==>
           UsageRowOf(groups[j].model.value, groups[j].sums) in us
  {
    if groups != [] {
      var init := groups[..|groups| - 1];
      UsageRowsCoverGroups(init);
      var us := UsageRows(groups);
      var a := UsageRows(init);
      var g := groups[|groups| - 1];
      assert us == a + (if g.model.Some? then [UsageRowOf(g.model.value, g.sums)] else []);
      forall j | 0 <= j < |groups| && groups[j].model.Some?
        ensures UsageRowOf(groups[j].model.value, groups[j].sums) in us
      {
        if j < |init| {
          assert groups[j] == init[j];
          assert UsageRowOf(init[j].model.value, init[j].sums) in a;
        } else {
          assert us[|us| - 1] == UsageRowOf(g.model.value, g.sums);
        }
      }
    }
  }

  /** Tokens counted in the current chat, per direction. */
  datatype TokenCount = TokenCount(input: int, output: int)

  /** One row of the current-chat table: costs are tokens times per-token price. */
  function ChatUsageRowOf(model: string, usage: TokenCount, price: Prices): (u: UsageRow)
    ensures u.costInput == usage.input as real * price.input
    ensures u.costOutput == usage.output as real * price.output
    ensures u.tokensTotal == usage.input + usage.output && u.costTotal == u.costInput + u.costOutput
  {
    var costIn := usage.input as real * price.input;
    var costOut := usage.output as real * price.output;
    UsageRow(model, usage.input, usage.output, usage.input + usage.output, costIn, costOut, costIn + costOut)
  }

  /** A `KeyError` for a model missing from `token_price`. */
  datatype KeyError = KeyError(key: string)

  /** The current-chat rows, or the `KeyError` of the first model without a price. */
  function ChatUsageRows(tokenPrice: map<Option<string>, Prices>, usage: seq<(Option<string>, TokenCount)>)
    : Result<seq<UsageRow>, KeyError>
  {
    if usage == [] then Success([])
    else
      match ChatUsageRows(tokenPrice, usage[..|usage| - 1])
      case Failure(e) => Failure(e)
      case Success(us) =>
        var (model, count) := usage[|usage| - 1];
        if model.None? then Success(us)
        else if model !in tokenPrice then Failure(KeyError(model.value))
        else Success(us + [ChatUsageRowOf(model.value, count, tokenPrice[model])])
  }

  /** The current-chat table fails exactly when a named model has no price, and then
      names the first such model. */
  lemma {:induction false} ChatUsageRowsFails(tokenPrice: map<Option<string>, Prices>, usage: seq<(Option<string>, TokenCount)>)
    ensures ChatUsageRows(tokenPrice, usage).Failure? <==>
      exists k :: 0 <= k < |usage| && usage[k].0.Some? && usage[k].0 !in tokenPrice
    ensures ChatUsageRows(tokenPrice, usage).Failure? ==>
      exists k :: 0 <= k < |usage| && usage[k].0 == Some(ChatUsageRows(tokenPrice, usage).error.key)
        && usage[k].0 !in tokenPrice
        && forall j :: 0 <= j < k ==> usage[j].0.None? || usage[j].0 in tokenPrice
  {
    if usage != [] {
      var init := usage[..|usage| - 1];
      ChatUsageRowsFails(tokenPrice, init);
      assert forall k :: 0 <= k < |init| ==> init[k] == usage[k];
    }
  }

  class TokenUsageDatabase {
    var tokenPrice: map<Option<string>, Prices>
    var rows: seq<Row>

    predicate Valid()
      reads this
    {
      DistinctTimestamps(rows)
    }

    /** Opens the ledger over the rows the database file already holds. */
    constructor(stored: seq<Row>)
      requires DistinctTimestamps(stored)
      ensures Valid() && rows == stored
      ensures forall m :: m in tokenPrice <==> exists k :: 0 <= k < |PricePerThousandTokens| && PricePerThousandTokens[k].0 == m
      ensures forall k :: 0 <= k < |PricePerThousandTokens| ==>
        tokenPrice[PricePerThousandTokens[k].0] == PerToken(PricePerThousandTokens[k].1)
    {
      var price := BuildTokenPrice(PricePerThousandTokens);
      tokenPrice := price;
      rows := stored;
    }

    /** `insert_data`, at the time `now`. */
    method InsertData(model: Option<string>, nInputTokens: int, nOutputTokens: int, now: real)
      returns (outcome: InsertOutcome)
      requires Valid()
      modifies this`rows
      ensures Valid()
      ensures outcome == PlanInsert(tokenPrice, model, nInputTokens, nOutputTokens, now)
      ensures outcome.Inserted? ==> rows == Upsert(old(rows), outcome.row)
      ensures !outcome.Inserted? ==> rows == old(rows)
    {
      outcome := PlanInsert(tokenPrice, model, nInputTokens, nOutputTokens, now);
      if outcome.Inserted? {
        UpsertKeepsKey(rows, outcome.row);
        rows := Upsert(rows, outcome.row);
      }
    }

    /** `retrieve_sums_by_model`: one entry per model of the table, none twice, each with
        the earliest timestamp and the sums of that model's rows. */
    method RetrieveSumsByModel() returns (groups: seq<ModelSums>)
      ensures DistinctGroups(groups) && GroupsAggregate(groups, rows)
      ensures forall k :: 0 <= k < |rows| ==> FindModel(groups, rows[k].model) < |groups|
    {
      groups := SumsByModel(rows);
      SumsByModelDistinct(rows);
      SumsByModelCovers(rows);
      SumsByModelAggregates(rows);
    }

    /** `retrieve_sums`: every field of every group is added into a `defaultdict(int)`. */
    method RetrieveSums() returns (sums: Sums)
      ensures sums == TotalOfGroups(SumsByModel(rows))
      ensures sums.nInputTokens == SumInputTokens(rows) && sums.nOutputTokens == SumOutputTokens(rows)
      ensures sums.costInputTokens == SumCostInput(rows) && sums.costOutputTokens == SumCostOutput(rows)
    {
      var groups := SumsByModel(rows);
      sums := Zero;
      for i := 0 to |groups|
        invariant sums == TotalOfGroups(groups[..i])
      {
        assert groups[..i + 1][..i] == groups[..i];
        sums := Plus(sums, groups[i].sums);
      }
      assert groups[..|groups|] == groups;
      TotalOfGroupsIsTableTotal(rows);
    }

    /** The rows `get_usage_balance_dataframe` builds, before pandas formatting. */
    method UsageBalanceRows() returns (usageRows: seq<UsageRow>)
      ensures usageRows == UsageRows(SumsByModel(rows))
      ensures forall k :: 0 <= k < |usageRows| ==>
        usageRows[k].tokensTotal == usageRows[k].tokensInput + usageRows[k].tokensOutput
        && usageRows[k].costTotal == usageRows[k].costInput + usageRows[k].costOutput
    {
      var groups := SumsByModel(rows);
      usageRows := [];
      for i := 0 to |groups|
        invariant usageRows == UsageRows(groups[..i])
      {
        assert groups[..i + 1][..i] == groups[..i];
        var g := groups[i];
        if g.model.Some? {
          usageRows := usageRows + [UsageRowOf(g.model.value, g.sums)];
        }
      }
      assert groups[..|groups|] == groups;
    }

    /** The rows `get_current_chat_usage_dataframe` builds, before pandas formatting. */
    method CurrentChatUsageRows(usage: seq<(Option<string>, TokenCount)>)
      returns (result: Result<seq<UsageRow>, KeyError>)
      ensures result == ChatUsageRows(tokenPrice, usage)
    {
      var usageRows: seq<UsageRow> := [];
      for i := 0 to |usage|
        invariant ChatUsageRows(tokenPrice, usage[..i]) == Success(usageRows)
      {
        assert usage[..i + 1][..i] == usage[..i];
        var (model, count) := usage[i];
        if model.None? {
          continue;
        }
        if model !in tokenPrice {
          FailureIsFinal(tokenPrice, usage, i + 1);
          return Failure(KeyError(model.value));
        }
        usageRows := usageRows + [ChatUsageRowOf(model.value, count, tokenPrice[model])];
      }
      assert usage[..|usage|] == usage;
      result := Success(usageRows);
    }
  }

  /** Once a prefix of the usage fails, the whole of it fails with the same error. */
  lemma {:induction false} FailureIsFinal(tokenPrice: map<Option<string>, Prices>,
                                          usage: seq<(Option<string>, TokenCount)>, i: nat)
    requires i <= |usage| && ChatUsageRows(tokenPrice, usage[..i]).Failure?
    ensures ChatUsageRows(tokenPrice, usage) == ChatUsageRows(tokenPrice, usage[..i])
    decreases |usage| - i
  {
    if i < |usage| {
      var n := |usage|;
      if i < n - 1 {
        assert usage[..n - 1][..i] == usage[..i];
        FailureIsFinal(tokenPrice, usage[..n - 1], i);
      } else {
        assert usage[..i] == usage[..n - 1];
      }
    } else {
      assert usage[..i] == usage;
    }
  }
}
