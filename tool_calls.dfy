/**
 * What a sequence of completed tool calls does to the store.
 *
 * Each call of either tool holds the store for its whole run, so calls from
 * different agents interleave only at call granularity: the store's history is
 * a sequence of whole calls, each applied at once.
 */
module ToolCalls {
  import opened Records
  import opened Project

  /** One completed tool call with its decoded arguments. */
  datatype ToolCall =
    | FoodPrefCall(foodArgs: StoreFoodPrefArgs)
    | DietTypeCall(dietArgs: StoreDietTypeArgs)

  /** The effect of one call on the store's contents. */
  function Apply(s: Snapshot, c: ToolCall): Snapshot
  {
    match c
    case FoodPrefCall(args) => Snapshot(s.foodPrefs + args.dishes, s.diets)
    case DietTypeCall(args) => Snapshot(s.foodPrefs, s.diets + args.diets)
  }

  /** The contents after the calls, in order, starting from `s`. */
  function Replay(s: Snapshot, calls: seq<ToolCall>): Snapshot
    decreases |calls|
  {
    if calls == [] then s else Replay(Apply(s, calls[0]), calls[1..])
  }

  /** The food preferences the calls submit, call after call, each in input order. */
  function FoodsOf(calls: seq<ToolCall>): seq<StoreFoodPrefArgsAux>
  {
    if calls == [] then []
    else (if calls[0].FoodPrefCall? then calls[0].foodArgs.dishes else []) + FoodsOf(calls[1..])
  }

  /** The diets the calls submit, call after call, each in input order. */
  function DietsOf(calls: seq<ToolCall>): seq<StoreDietTypeArgsAux>
  {
    if calls == [] then []
    else (if calls[0].DietTypeCall? then calls[0].dietArgs.diets else []) + DietsOf(calls[1..])
  }

  /** The number of records one call submits. */
  function RecordCount(c: ToolCall): nat
  {
    match c
    case FoodPrefCall(args) => |args.dishes|
    case DietTypeCall(args) => |args.diets|
  }

  /** The number of records the calls submit altogether. */
  function TotalRecords(calls: seq<ToolCall>): nat
  {
    if calls == [] then 0 else RecordCount(calls[0]) + TotalRecords(calls[1..])
  }

  /**
   * Each sequence ends up as what it held plus exactly the records its own
   * tool's calls submitted, in call order and input order; calls of the other
   * tool have no effect on it.
   */
  lemma {:induction false} ReplayContents(s: Snapshot, calls: seq<ToolCall>)
    ensures Replay(s, calls) == Snapshot(s.foodPrefs + FoodsOf(calls), s.diets + DietsOf(calls))
    decreases |calls|
  {
    if calls != [] {
      var c, rest := calls[0], calls[1..];
      var s' := Apply(s, c);
      assert Replay(s, calls) == Replay(s', rest);
      ReplayContents(s', rest);
      var foods := if c.FoodPrefCall? then c.foodArgs.dishes else [];
      var diets := if c.DietTypeCall? then c.dietArgs.diets else [];
      assert s'.foodPrefs == s.foodPrefs + foods && s'.diets == s.diets + diets;
      assert FoodsOf(calls) == foods + FoodsOf(rest) && DietsOf(calls) == diets + DietsOf(rest);
      assert s.foodPrefs + foods + FoodsOf(rest) == s.foodPrefs + (foods + FoodsOf(rest));
      assert s.diets + diets + DietsOf(rest) == s.diets + (diets + DietsOf(rest));
    }
  }

  /** Running two histories one after the other is running their concatenation. */
  lemma {:induction false} ReplayConcat(s: Snapshot, first: seq<ToolCall>, second: seq<ToolCall>)
    ensures Replay(s, first + second) == Replay(Replay(s, first), second)
    decreases |first|
  {
    if first == [] {
      assert first + second == second;
    } else {
      assert (first + second)[1..] == first[1..] + second;
      ReplayConcat(Apply(s, first[0]), first[1..], second);
    }
  }

  lemma {:induction false} SubmittedRecords(calls: seq<ToolCall>)
    ensures |FoodsOf(calls)| + |DietsOf(calls)| == TotalRecords(calls)
    decreases |calls|
  {
    if calls != [] {
      SubmittedRecords(calls[1..]);
    }
  }

  /**
   * A snapshot of a fresh store taken after any completed calls holds exactly
   * as many records as those calls submitted.
   */
  lemma ReplayTotal(calls: seq<ToolCall>)
    ensures |Replay(Empty, calls).foodPrefs| + |Replay(Empty, calls).diets| == TotalRecords(calls)
  {
    ReplayContents(Empty, calls);
    SubmittedRecords(calls);
  }

  /** Calls of the two tools commute: neither touches the other's sequence. */
  lemma CategoriesCommute(s: Snapshot, food: StoreFoodPrefArgs, diet: StoreDietTypeArgs)
    ensures Apply(Apply(s, FoodPrefCall(food)), DietTypeCall(diet)) ==
            Apply(Apply(s, DietTypeCall(diet)), FoodPrefCall(food))
  {
  }

  /** Replaying a single call applies it. */
  lemma ReplayOne(s: Snapshot, c: ToolCall)
    ensures Replay(s, [c]) == Apply(s, c)
  {
  }

  /**
   * Two food-preference calls in a row have the effect of one call with the
   * concatenated list; likewise for diets.
   */
  lemma BatchesCompose(s: Snapshot, a: StoreFoodPrefArgs, b: StoreFoodPrefArgs, c: StoreDietTypeArgs, d: StoreDietTypeArgs)
    ensures Replay(s, [FoodPrefCall(a), FoodPrefCall(b)]) == Apply(s, FoodPrefCall(StoreFoodPrefArgs(a.dishes + b.dishes)))
    ensures Replay(s, [DietTypeCall(c), DietTypeCall(d)]) == Apply(s, DietTypeCall(StoreDietTypeArgs(c.diets + d.diets)))
  {
    assert [FoodPrefCall(a), FoodPrefCall(b)] == [FoodPrefCall(a)] + [FoodPrefCall(b)];
    ReplayConcat(s, [FoodPrefCall(a)], [FoodPrefCall(b)]);
    ReplayOne(s, FoodPrefCall(a));
    ReplayOne(Apply(s, FoodPrefCall(a)), FoodPrefCall(b));
    assert s.foodPrefs + a.dishes + b.dishes == s.foodPrefs + (a.dishes + b.dishes);
    assert [DietTypeCall(c), DietTypeCall(d)] == [DietTypeCall(c)] + [DietTypeCall(d)];
    ReplayConcat(s, [DietTypeCall(c)], [DietTypeCall(d)]);
    ReplayOne(s, DietTypeCall(c));
    ReplayOne(Apply(s, DietTypeCall(c)), DietTypeCall(d));
    assert s.diets + c.diets + d.diets == s.diets + (c.diets + d.diets);
  }

  /** A call with an empty list leaves the store as it was. */
  lemma EmptyCallIsNoOp(s: Snapshot)
    ensures Apply(s, FoodPrefCall(StoreFoodPrefArgs([]))) == s
    ensures Apply(s, DietTypeCall(StoreDietTypeArgs([]))) == s
  {
  }
}
