/** Query sets: conditions with operators, and execution by index or by scan
    (btpay/orm/query.py). Conditions are `Engine.Condition`s whose column is the keyword. */
module Query {
  import opened Engine
  import opened Indexing
  import opened Values
  import opened Wrappers

  /** What Python's operators make of values: the sign of a comparison, membership, `str`
      and `lower`; None where they raise. */
  datatype Operators = Operators(
    order: (Value, Value) -> Option<int>,
    member: (Value, Value) -> Option<bool>,
    str: Value -> string,
    lower: string -> string)

  predicate DoubleUnderscoreAt(key: string, i: nat) {
    i + 2 <= |key| && key[i] == '_' && key[i + 1] == '_'
  }

  /** Where `rsplit('__', 1)` splits, if anywhere: the last double underscore. */
  function SplitAt(key: string, below: nat): (i: Option<nat>)
    ensures i.Some? ==> i.value < below && DoubleUnderscoreAt(key, i.value)
                        && forall j: nat :: i.value < j < below ==> !DoubleUnderscoreAt(key, j)
    ensures i.None? ==> forall j: nat :: j < below ==> !DoubleUnderscoreAt(key, j)
  {
    if below == 0 then None
    else if DoubleUnderscoreAt(key, below - 1) then Some(below - 1)
    else SplitAt(key, below - 1)
  }

  /** The column and the operator of a keyword. */
  function Parsed(key: string): (string, string) {
    match SplitAt(key, |key|)
    case None => (key, "exact")
    case Some(i) => (key[..i], key[i + 2..])
  }

  predicate Simple(filter: seq<Condition>) {
    forall i :: 0 <= i < |filter| ==> SplitAt(filter[i].column, |filter[i].column|) == None
  }

  // ---- Matching -------------------------------------------------------------

  /** A comparison that None never meets. */
  function Compared(ops: Operators, rowVal: Value, value: Value, accept: int -> bool): Result<bool> {
    if rowVal == Null then Ok(false)
    else (match ops.order(rowVal, value) case None => Error case Some(sign) => Ok(accept(sign)))
  }

  function Membership(ops: Operators, item: Value, container: Value): Result<bool> {
    match ops.member(item, container) case None => Error case Some(b) => Ok(b)
  }

  function TextOf(ops: Operators, v: Value): string {
    if v.Text? then v.text else ops.str(v)
  }

  function StartsWith(s: string, prefix: string): bool {
    prefix <= s
  }

  /** One branch of `_match_conditions`. */
  function Meets(ops: Operators, rowVal: Value, op: string, value: Value): Result<bool> {
    if op == "exact" then Ok(rowVal == value)
    else if op == "gt" then Compared(ops, rowVal, value, s => s > 0)
    else if op == "gte" then Compared(ops, rowVal, value, s => s >= 0)
    else if op == "lt" then Compared(ops, rowVal, value, s => s < 0)
    else if op == "lte" then Compared(ops, rowVal, value, s => s <= 0)
    else if op == "in" then Membership(ops, rowVal, value)
    else if op == "contains" then
      if rowVal.Tags? || rowVal.List? || rowVal.Text? then Membership(ops, value, rowVal) else Ok(false)
    else if op == "iexact" then Ok(rowVal.Text? && ops.lower(rowVal.text) == ops.lower(TextOf(ops, value)))
    else if op == "startswith" then Ok(rowVal.Text? && StartsWith(rowVal.text, TextOf(ops, value)))
    else if op == "ne" then Ok(rowVal != value)
    else Error
  }

  function MeetsCondition(ops: Operators, row: Row, c: Condition): Result<bool> {
    var (column, op) := Parsed(c.column);
    Meets(ops, Get(row, column), op, c.value)
  }

  /** `_match_conditions`: the first condition that fails or raises decides. */
  function MatchesAll(ops: Operators, row: Row, conditions: seq<Condition>): Result<bool> {
    if conditions == [] then Ok(true)
    else
      match MeetsCondition(ops, row, conditions[0])
      case Error => Error
      case Ok(met) => if met then MatchesAll(ops, row, conditions[1..]) else Ok(false)
  }

  /** `_match_row`. */
  function MatchesRow(ops: Operators, row: Row, filters: seq<seq<Condition>>,
        excludes: seq<seq<Condition>>): Result<bool> {
    if filters != [] then
      match MatchesAll(ops, row, filters[0])
      case Error => Error
      case Ok(matched) => if matched then MatchesRow(ops, row, filters[1..], excludes) else Ok(false)
    else if excludes != [] then
      match MatchesAll(ops, row, excludes[0])
      case Error => Error
      case Ok(matched) => if matched then Ok(false) else MatchesRow(ops, row, filters, excludes[1..])
    else Ok(true)
  }

  method MatchConditions(ops: Operators, row: Row, conditions: seq<Condition>) returns (r: Result<bool>)
    ensures r == MatchesAll(ops, row, conditions)
  {
    hide Meets;
    for i := 0 to |conditions|
      invariant MatchesAll(ops, row, conditions) == MatchesAll(ops, row, conditions[i..])
    {
      assert conditions[i..][0] == conditions[i] && conditions[i..][1..] == conditions[i + 1..];
      var (column, op) := Parsed(conditions[i].column);
      var met := Meets(ops, Get(row, column), op, conditions[i].value);
      if met.Error? || !met.value {
        return met;
      }
    }
    return Ok(true);
  }

  method MatchRow(ops: Operators, row: Row, filters: seq<seq<Condition>>,
        excludes: seq<seq<Condition>>) returns (r: Result<bool>)
    ensures r == MatchesRow(ops, row, filters, excludes)
  {
    hide MatchesAll;
    for i := 0 to |filters|
      invariant MatchesRow(ops, row, filters, excludes) == MatchesRow(ops, row, filters[i..], excludes)
    {
      assert filters[i..][0] == filters[i] && filters[i..][1..] == filters[i + 1..];
      var matched := MatchConditions(ops, row, filters[i]);
      if matched.Error? || !matched.value {
        return matched;
      }
    }
    for i := 0 to |excludes|
      invariant MatchesRow(ops, row, filters, excludes) == MatchesRow(ops, row, [], excludes[i..])
    {
      assert excludes[i..][0] == excludes[i] && excludes[i..][1..] == excludes[i + 1..];
      var matched := MatchConditions(ops, row, excludes[i]);
      if matched.Error? {
        return Error;
      }
      if matched.value {
        return Ok(false);
      }
    }
    return Ok(true);
  }

  /** A keyword is a column, or a column and an operator joined by a double underscore. */
  lemma ParsedExactly(column: string, op: string)
    requires op != "" && op[0] != '_' && forall j: nat :: !DoubleUnderscoreAt(op, j)
    ensures Parsed(column + "__" + op) == (column, op)
    ensures (forall j: nat :: !DoubleUnderscoreAt(column, j)) ==> Parsed(column) == (column, "exact")
  {
    var key, n := column + "__" + op, |column|;
    assert DoubleUnderscoreAt(key, n);
    forall j: nat | n < j
      ensures !DoubleUnderscoreAt(key, j)
    {
      if j >= n + 2 {
        assert !DoubleUnderscoreAt(op, j - n - 2);
        assert j + 2 <= |key| ==> key[j] == op[j - n - 2] && key[j + 1] == op[j - n - 1];
      }
    }
    assert key[..n] == column && key[n + 2..] == op;
    hide DoubleUnderscoreAt;
  }

  /** None is neither more nor less than anything; of values that compare, `gt` and `lte`, and
      `lt` and `gte`, are opposites, and only equals are both `gte` and `lte`. Values that do
      not compare raise. `ne` is the opposite of `exact`. */
  lemma OrderOperators(ops: Operators, rowVal: Value, value: Value)
    ensures Meets(ops, rowVal, "exact", value) == Ok(rowVal == value)
    ensures Meets(ops, rowVal, "ne", value) == Ok(rowVal != value)
    ensures forall op :: op in {"gt", "gte", "lt", "lte"} ==>
      if rowVal == Null then Meets(ops, rowVal, op, value) == Ok(false)
      else Meets(ops, rowVal, op, value) == Error <==> ops.order(rowVal, value) == None
    ensures rowVal != Null && ops.order(rowVal, value).Some? ==>
      var sign := ops.order(rowVal, value).value;
      && Meets(ops, rowVal, "gt", value).value == !Meets(ops, rowVal, "lte", value).value
      && Meets(ops, rowVal, "lt", value).value == !Meets(ops, rowVal, "gte", value).value
      && (Meets(ops, rowVal, "gt", value).value <==> sign > 0)
      && (Meets(ops, rowVal, "gte", value).value && Meets(ops, rowVal, "lte", value).value <==> sign == 0)
  {
  }

  /** `in` asks the value of the condition for the one of the row, `contains` the other way
      round, and only of containers and texts. A text starts with a prefix if something
      completes it. An operator of another name raises. */
  lemma OtherOperators(ops: Operators, rowVal: Value, op: string, value: Value)
    ensures ops.member(rowVal, value).Some? ==>
      Meets(ops, rowVal, "in", value) == Ok(ops.member(rowVal, value).value)
    ensures (rowVal.Tags? || rowVal.List? || rowVal.Text?) && ops.member(value, rowVal).Some? ==>
      Meets(ops, rowVal, "contains", value) == Ok(ops.member(value, rowVal).value)
    ensures !(rowVal.Tags? || rowVal.List? || rowVal.Text?) ==> Meets(ops, rowVal, "contains", value) == Ok(false)
    ensures rowVal.Text? && value.Text? ==>
      && (Meets(ops, rowVal, "iexact", value) == Ok(ops.lower(rowVal.text) == ops.lower(value.text)))
      && (Meets(ops, rowVal, "startswith", value) == Ok(true) <==> exists rest :: rowVal.text == value.text + rest)
    ensures !rowVal.Text? ==>
      Meets(ops, rowVal, "iexact", value) == Meets(ops, rowVal, "startswith", value) == Ok(false)
    ensures op !in {"exact", "gt", "gte", "lt", "lte", "in", "contains", "iexact", "startswith", "ne"} ==>
      Meets(ops, rowVal, op, value) == Error
  {
    if rowVal.Text? && value.Text? && value.text <= rowVal.text {
      assert rowVal.text == value.text + rowVal.text[|value.text|..];
    }
  }

  /** All conditions of a filter have to be met. */
  lemma {:induction false} MatchesAllExactly(ops: Operators, row: Row, conditions: seq<Condition>)
    ensures MatchesAll(ops, row, conditions) == Ok(true) <==>
      forall i :: 0 <= i < |conditions| ==> MeetsCondition(ops, row, conditions[i]) == Ok(true)
    ensures MatchesAll(ops, row, conditions) == Error <==>
      exists i :: 0 <= i < |conditions| && MeetsCondition(ops, row, conditions[i]) == Error
        && forall j :: 0 <= j < i ==> MeetsCondition(ops, row, conditions[j]) == Ok(true)
  {
    hide MeetsCondition;
    if conditions != [] {
      var rest := conditions[1..];
      MatchesAllExactly(ops, row, rest);
      assert forall i :: 0 <= i < |rest| ==> rest[i] == conditions[i + 1];
      assert forall i :: 0 < i < |conditions| ==> conditions[i] == rest[i - 1];
    }
  }

  /** A row is taken if it matches every filter and no exclude. */
  lemma {:induction false} MatchesRowExactly(ops: Operators, row: Row, filters: seq<seq<Condition>>,
        excludes: seq<seq<Condition>>)
    ensures MatchesRow(ops, row, filters, excludes) == Ok(true) <==>
      && (forall i :: 0 <= i < |filters| ==> MatchesAll(ops, row, filters[i]) == Ok(true))
      && (forall i :: 0 <= i < |excludes| ==> MatchesAll(ops, row, excludes[i]) == Ok(false))
    decreases |filters|, |excludes|
  {
    hide MatchesAll;
    if filters != [] {
      MatchesRowExactly(ops, row, filters[1..], excludes);
      assert forall i :: 0 < i < |filters| ==> filters[i] == filters[1..][i - 1];
    } else if excludes != [] {
      MatchesRowExactly(ops, row, filters, excludes[1..]);
      assert forall i :: 0 < i < |excludes| ==> excludes[i] == excludes[1..][i - 1];
    }
  }

  // ---- Execution ------------------------------------------------------------

  /** The fallback of `_execute`: every row is matched, and one that raises ends it. */
  function Scanned(ops: Operators, rows: Table, filters: seq<seq<Condition>>,
        excludes: seq<seq<Condition>>): Result<Table> {
    if exists pk :: pk in rows && MatchesRow(ops, rows[pk], filters, excludes) == Error then Error
    else Ok(Matching(ops, rows, filters, excludes))
  }

  function Matching(ops: Operators, rows: Table, filters: seq<seq<Condition>>, excludes: seq<seq<Condition>>): Table {
    map pk | pk in rows && MatchesRow(ops, rows[pk], filters, excludes) == Ok(true) :: rows[pk]
  }

  /** `_execute`. */
  function Executed(ops: Operators, m: Model, filters: seq<seq<Condition>>,
        excludes: seq<seq<Condition>>): Result<Table> {
    if |filters| == 1 && |excludes| == 0 && Simple(filters[0]) then Ok(Filtered(m, filters[0]))
    else Scanned(ops, m.rows, filters, excludes)
  }

  method Execute(ops: Operators, store: MemoryStore, model: string, filters: seq<seq<Condition>>,
        excludes: seq<seq<Condition>>)
    returns (r: Result<Table>)
    requires store.Valid() && model in store.tables
    ensures r == Executed(ops, store.State(model), filters, excludes)
  {
    hide Simple, Filtered, MatchesRow;
    if |filters| == 1 && |excludes| == 0 {
      var simple := IsSimple(filters[0]);
      if simple {
        var found := store.Filter(model, filters[0]);
        return Ok(found);
      }
    }
    r := ScanRows(ops, store.tables[model], filters, excludes);
  }

  method IsSimple(filter: seq<Condition>) returns (simple: bool)
    ensures simple == Simple(filter)
  {
    for i := 0 to |filter|
      invariant forall j :: 0 <= j < i ==> SplitAt(filter[j].column, |filter[j].column|) == None
    {
      if SplitAt(filter[i].column, |filter[i].column|) != None {
        return false;
      }
    }
    return true;
  }

  method ScanRows(ops: Operators, rows: Table, filters: seq<seq<Condition>>,
        excludes: seq<seq<Condition>>) returns (r: Result<Table>)
    ensures r == Scanned(ops, rows, filters, excludes)
  {
    hide MatchesRow;
    var results: Table := map[];
    var rest := rows.Keys;
    while rest != {}
      invariant rest <= rows.Keys
      invariant forall pk :: pk in rows && pk !in rest ==> MatchesRow(ops, rows[pk], filters, excludes).Ok?
      invariant results == map pk | pk in rows && pk !in rest && MatchesRow(ops, rows[pk], filters, excludes)
          == Ok(true) :: rows[pk]
      decreases |rest|
    {
      Inhabited(rest);
      var pk :| pk in rest;
      var matched := MatchRow(ops, rows[pk], filters, excludes);
      if matched.Error? {
        return Error;
      }
      rest := rest - {pk};
      if matched.value {
        results := results[pk := rows[pk]];
      }
    }
    assert results == Matching(ops, rows, filters, excludes);
    return Ok(results);
  }

  // ---- The two paths agree --------------------------------------------------

  lemma {:induction false} SimpleMatches(ops: Operators, row: Row, filter: seq<Condition>)
    requires Simple(filter)
    ensures MatchesAll(ops, row, filter) == Ok(Accepts(filter, row))
  {
    hide Get;
    if filter != [] {
      assert forall i :: 0 <= i < |filter[1..]| ==> filter[1..][i] == filter[i + 1];
      SimpleMatches(ops, row, filter[1..]);
      assert Parsed(filter[0].column) == (filter[0].column, "exact");
      assert Accepts(filter, row) <==> Get(row, filter[0].column) == filter[0].value && Accepts(filter[1..], row) by {
        assert forall i :: 0 < i < |filter| ==> filter[i] == filter[1..][i - 1];
      }
    }
  }

  /** A simple query scans to the rows `filter` scans for. */
  lemma SimpleScan(ops: Operators, rows: Table, filter: seq<Condition>)
    requires Simple(filter)
    ensures Scanned(ops, rows, [filter], []) == Ok(Scan(rows, filter))
  {
    hide MatchesAll, Accepts, Simple;
    forall pk | pk in rows ensures MatchesRow(ops, rows[pk], [filter], []) == Ok(Accepts(filter, rows[pk])) {
      SimpleMatches(ops, rows[pk], filter);
      OneFilter(ops, rows[pk], filter);
    }
    assert Matching(ops, rows, [filter], []) == Scan(rows, filter);
  }

  lemma OneFilter(ops: Operators, row: Row, filter: seq<Condition>)
    ensures MatchesRow(ops, row, [filter], []) == MatchesAll(ops, row, filter)
  {
    hide MatchesAll;
    assert [filter][1..] == [];
  }

  /** The fast path of `_execute` gives what its fallback would, exactly unless the index it
      picks is asked for None and some row would match. */
  lemma FastPathIsFallback(ops: Operators, m: Model, filters: seq<seq<Condition>>, excludes: seq<seq<Condition>>)
    requires AllCoherent(m)
    ensures Executed(ops, m, filters, excludes) == Scanned(ops, m.rows, filters, excludes) <==>
      (|filters| == 1 && |excludes| == 0 && Simple(filters[0])) ==>
        var k := Chosen(m.indexes, filters[0]);
        k == |filters[0]| || filters[0][k].value != Null || Scan(m.rows, filters[0]) == map[]
  {
    hide AllCoherent, Scanned, Filtered, Scan, Simple, Chosen;
    if |filters| == 1 && |excludes| == 0 && Simple(filters[0]) {
      assert filters == [filters[0]] && excludes == [];
      SimpleScan(ops, m.rows, filters[0]);
      FilterIsScan(m, filters[0]);
    }
  }

  lemma {:induction false} MatchesBoth(ops: Operators, row: Row, first: seq<Condition>, second: seq<Condition>)
    ensures MatchesAll(ops, row, first + second)
         == if MatchesAll(ops, row, first)
             == Ok(true) then MatchesAll(ops, row, second) else MatchesAll(ops, row, first)
  {
    hide MeetsCondition;
    if first == [] {
      assert first + second == second;
    } else {
      assert (first + second)[0] == first[0] && (first + second)[1..] == first[1..] + second;
      MatchesBoth(ops, row, first[1..], second);
    }
  }

  /** Chaining two `filter` calls scans for the rows that one call with all the conditions
      scans for. */
  lemma ChainedFilters(ops: Operators, rows: Table, first: seq<Condition>, second: seq<Condition>)
    ensures Scanned(ops, rows, [first, second], []) == Scanned(ops, rows, [first + second], [])
  {
    hide MatchesAll;
    forall pk | pk in rows
      ensures MatchesRow(ops, rows[pk], [first, second], []) == MatchesRow(ops, rows[pk], [first + second], [])
    {
      MatchesBoth(ops, rows[pk], first, second);
      OneFilter(ops, rows[pk], first + second);
      OneFilter(ops, rows[pk], second);
      assert [first, second][1..] == [second];
    }
    assert Matching(ops, rows, [first, second], []) == Matching(ops, rows, [first + second], []);
  }
}
