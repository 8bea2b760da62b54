/**
 * The driver's use of the store (src/main.rs:233-245): extraction agents call
 * the tools on the process's store, which started empty, and the synthesis
 * step then reads both sequences. The completion service, which decides what
 * each agent passes to the tools, is replaced by the calls themselves.
 */
module Session {
  import opened Wrappers
  import opened Records
  import opened Project
  import opened ToolCalls
  import StoreFoodPref
  import StoreDietType

  /**
   * Start from a new store, perform the calls in order with the two tools, then
   * read both sequences: each is exactly the records its tool was given, in order,
   * and together they hold every submitted record.
   */
  method Run(calls: seq<ToolCall>) returns (snap: Snapshot)
    ensures snap == Replay(Empty, calls)
    ensures snap.foodPrefs == FoodsOf(calls) && snap.diets == DietsOf(calls)
    ensures |snap.foodPrefs| + |snap.diets| == TotalRecords(calls)
  {
    var store := new MockProjectUntitled();
    for i := 0 to |calls|
      invariant store.State() == Replay(Empty, calls[..i])
    {
      ghost var before := store.State();
      var r: Result<bool, ToolError>;
      match calls[i] {
        case FoodPrefCall(args) => r := StoreFoodPref.Call(store, args);
        case DietTypeCall(args) => r := StoreDietType.Call(store, args);
      }
      assert store.State() == Apply(before, calls[i]);
      ReplayConcat(Empty, calls[..i], [calls[i]]);
      ReplayOne(before, calls[i]);
      assert calls[..i + 1] == calls[..i] + [calls[i]];
    }
    assert calls[..|calls|] == calls;
    var diets := store.GetDiets();
    var foodPrefs := store.GetFoodPrefs();
    snap := Snapshot(foodPrefs, diets);
    ReplayContents(Empty, calls);
    ReplayTotal(calls);
  }

  /**
   * The order the driver uses: the food agent's call, then the diet agent's
   * call, then the read. The read returns exactly the two inputs.
   */
  method FoodThenDiet(food: StoreFoodPrefArgs, diet: StoreDietTypeArgs)
    returns (diets: seq<StoreDietTypeArgsAux>, foodPrefs: seq<StoreFoodPrefArgsAux>)
    ensures foodPrefs == food.dishes && diets == diet.diets
    ensures |foodPrefs| + |diets| == |food.dishes| + |diet.diets|
  {
    var store := new MockProjectUntitled();
    var r1 := StoreFoodPref.Call(store, food);
    var r2 := StoreDietType.Call(store, diet);
    assert r1 == Ok(true) && r2 == Ok(true);
    diets := store.GetDiets();
    foodPrefs := store.GetFoodPrefs();
  }
}
