/**
 * The argument records of the two tools, as they stand once decoded
 * (src/main.rs:39-63), and the tools' error type (src/main.rs:65-67).
 *
 * The fields `kind` and `dietType` are plain strings: the enumerations the
 * tool schemas advertise are not part of these types, and nothing checks them.
 */
module Records {

  /** One food preference: a dish and the kind of preference (`StoreFoodPrefArgsAux`). */
  datatype StoreFoodPrefArgsAux = StoreFoodPrefArgsAux(dish: string, kind: string)

  /** The arguments of the food-preference tool: zero or more dishes (`StoreFoodPrefArgs`). */
  datatype StoreFoodPrefArgs = StoreFoodPrefArgs(dishes: seq<StoreFoodPrefArgsAux>)

  /** One diet declaration: a diet type and whether the user follows it (`StoreDietTypeArgsAux`). */
  datatype StoreDietTypeArgsAux = StoreDietTypeArgsAux(dietType: string, follows: bool)

  /** The arguments of the diet tool: zero or more diets (`StoreDietTypeArgs`). */
  datatype StoreDietTypeArgs = StoreDietTypeArgs(diets: seq<StoreDietTypeArgsAux>)

  /** The error type both tools declare; no code path produces it. */
  datatype ToolError = FoodPrefError
}
