/**
 * The append-only fact store (`MockProjectUntitled`, src/main.rs:5-33).
 *
 * The source keeps one process-wide instance behind a lazily created mutex;
 * here the store is an ordinary object that its users receive explicitly.
 */
module Project {
  import opened Records

  /** The contents of a store at one moment: both sequences, in insertion order. */
  datatype Snapshot = Snapshot(foodPrefs: seq<StoreFoodPrefArgsAux>, diets: seq<StoreDietTypeArgsAux>)

  /** The contents of a freshly constructed store. */
  const Empty := Snapshot([], [])

  class MockProjectUntitled {
    var foodPrefs: seq<StoreFoodPrefArgsAux>
    var diets: seq<StoreDietTypeArgsAux>

    /** Both sequences of this store as one value. */
    function State(): Snapshot
      reads this
    {
      Snapshot(foodPrefs, diets)
    }

    /** `new`: a store with no food preferences and no diets. */
    constructor ()
      ensures foodPrefs == [] && diets == []
      ensures State() == Empty
    {
      foodPrefs := [];
      diets := [];
    }

    /** `add_food_pref`: push one record at the end of `foodPrefs`. */
    method AddFoodPref(foodPref: StoreFoodPrefArgsAux)
      modifies this`foodPrefs
      ensures foodPrefs == old(foodPrefs) + [foodPref]
      ensures diets == old(diets)
    {
      foodPrefs := foodPrefs + [foodPref];
    }

    /** `add_diet`: push one record at the end of `diets`. */
    method AddDiet(diet: StoreDietTypeArgsAux)
      modifies this`diets
      ensures diets == old(diets) + [diet]
      ensures foodPrefs == old(foodPrefs)
    {
      diets := diets + [diet];
    }

    /** `get_food_prefs`: the current food preferences; nothing changes. */
    method GetFoodPrefs() returns (r: seq<StoreFoodPrefArgsAux>)
      ensures r == foodPrefs
    {
      r := foodPrefs;
    }

    /** `get_diets`: the current diets; nothing changes. */
    method GetDiets() returns (r: seq<StoreDietTypeArgsAux>)
      ensures r == diets
    {
      r := diets;
    }
  }
}
