# Food-preference fact store

A model of the fact store behind a small food-preference agent demo. Two
extraction agents talk to a completion service and, through two tools, record
what they learn about a user: `StoreFoodPref` records (dish, kind) pairs and
`StoreDietType` records (diet type, follows) pairs. Both tools append to one
store, `MockProjectUntitled`, that holds two ordered sequences. A synthesis
agent later reads both sequences.

The project models:

- the argument records, as already-decoded values (`Records`);
- the store as a class whose two `seq` fields its methods extend in place (`Project`);
- each tool's constant definition, a tool name plus a JSON-schema parameter
  description, and how that schema relates to the argument records (`ToolSchema`,
  `StoreFoodPref`, `StoreDietType`);
- each tool's `call`, a loop that pushes every record in input order onto the
  store and always returns `Ok(true)` (`StoreFoodPref.Call`, `StoreDietType.Call`);
- the store's contents after any sequence of whole tool calls, as pure functions
  with lemmas (`ToolCalls`);
- the driver's use of the store: calls on a fresh store followed by a read of both
  sequences (`Session`).

The source keeps the store as one process-wide value behind a mutex. Each
`call` takes that lock once and holds it for its whole loop, so here the store
is an object passed to each tool, and each call is one method on it. A
snapshot of its contents is the datatype `Project.Snapshot`.

The tool schemas advertise enumerations for `kind` and `diet_type`. The record
fields are plain strings, though, and nothing checks them. The model keeps them
as `string`, and `Call` accepts any value. `ArgsConformIff` states the exact
relationship: the JSON form of an argument record conforms to the advertised
schema if and only if every `kind` (or `diet_type`) is in the enumeration.

## Model

| member | source | states |
|---|---|---|
| `Project.MockProjectUntitled.constructor` | src/main.rs:11-16 | a new store has no food preferences and no diets |
| `Project.MockProjectUntitled.AddFoodPref` | src/main.rs:18-20 | `foodPrefs` becomes the old sequence with the record appended at the end; `diets` is unchanged |
| `Project.MockProjectUntitled.AddDiet` | src/main.rs:22-24 | `diets` becomes the old sequence with the record appended at the end; `foodPrefs` is unchanged |
| `Project.MockProjectUntitled.GetFoodPrefs` | src/main.rs:26-28 | returns exactly the current food preferences and modifies nothing |
| `Project.MockProjectUntitled.GetDiets` | src/main.rs:30-32 | returns exactly the current diets and modifies nothing |
| `StoreFoodPref.Definition` | src/main.rs:82-113 | the definition's name is `NAME` ("StoreFoodPref"); the parameters require `dishes`, an array whose items require `dish` (a string with no enumeration) and `kind` (a string restricted to the six advertised kinds) |
| `StoreFoodPref.AuxConforms` | src/main.rs:93-107 | the JSON object of one `StoreFoodPrefArgsAux` conforms to the item schema if and only if its `kind` is one of the six advertised kinds |
| `StoreFoodPref.ArgsConformIff` | src/main.rs:86-111 | the JSON object of any `StoreFoodPrefArgs` conforms to the tool's parameter schema if and only if every `kind` in it is one of the six advertised kinds; the record type does not enforce the enumeration |
| `StoreFoodPref.Call` | src/main.rs:115-122 | `foodPrefs` becomes the old sequence followed by every input dish in input order, so an empty list changes nothing; `diets` is unchanged; the result is always `Ok(true)`, never `FoodPrefError` |
| `StoreDietType.Definition` | src/main.rs:132-163 | the definition's name is `NAME` ("StoreDietType"); the parameters require `diets`, an array whose items require `diet_type` (a string restricted to the six advertised diet types) and `follows` (a boolean) |
| `StoreDietType.AuxConforms` | src/main.rs:143-157 | the JSON object of one `StoreDietTypeArgsAux` conforms to the item schema if and only if its `diet_type` is one of the six advertised diet types |
| `StoreDietType.ArgsConformIff` | src/main.rs:136-161 | the JSON object of any `StoreDietTypeArgs` conforms to the tool's parameter schema if and only if every `diet_type` in it is one of the six advertised diet types |
| `StoreDietType.Call` | src/main.rs:165-173 | `diets` becomes the old sequence followed by every input diet in input order, so an empty list changes nothing; `foodPrefs` is unchanged; the result is always `Ok(true)` |
| `ToolCalls.ReplayContents` | src/main.rs:115-173 | after any sequence of whole tool calls, each store sequence is its old contents followed by exactly the records its own tool's calls submitted, in call order and input order; the other tool's calls do not affect it |
| `ToolCalls.ReplayConcat` | src/main.rs:115-173 | performing two histories of calls one after the other gives the same contents as performing their concatenation |
| `ToolCalls.ReplayTotal` | src/main.rs:233-245 | a read of a fresh store after any completed calls holds exactly as many records as those calls submitted |
| `ToolCalls.CategoriesCommute` | src/main.rs:115-173 | a food-preference call and a diet call give the same contents in either order |
| `ToolCalls.BatchesCompose` | src/main.rs:117-120 | two calls of the same tool in a row have the effect of one call with the concatenated list |
| `ToolCalls.EmptyCallIsNoOp` | src/main.rs:118-121 | a call of either tool with an empty list leaves the contents as they were |
| `Session.Run` | src/main.rs:233-245 | performing any calls with the two tools on a fresh store and then reading both sequences gives exactly the submitted food preferences and diets, in order, with total length equal to the number of submitted records |
| `Session.FoodThenDiet` | src/main.rs:233-245 | the food-preference call, then the diet call, then the read on a fresh store returns exactly the two inputs, with total length equal to the sum of their lengths |

## Left out

- `main` (src/main.rs:176-299) is not modelled: the client, the three agents, the prompts sent to the completion service, the conversation text, the ingredient list and all console output. This is I/O and network code; `Session` keeps only the order of store operations it uses.
- The agents' tool-call loop, dispatch of a tool call by name, round limits and unknown-tool handling live in the agent library, not in this repository. `Session.Run` stands in for them with an explicit list of calls.
- Decoding of the argument JSON into the records is done by a serialization library and is not modelled. The records are inputs that were already decoded. `ArgsJson` only gives the JSON shape of a record, with one member per struct field, to relate the records to the schemas.
- The mutex and the lazily created global store are not modelled. The store is an object passed to each tool. Holding the lock for a whole `call` is modelled by making each call one method, so concurrent interleavings are at call granularity by construction.
- The `async` nature of every store method and tool method is not modelled; each runs to completion.
- The `println!` in each `call` and the debug formatting of the snapshot into the synthesis prompt are not modelled, because they depend on library formatting.
- The tool descriptions and field descriptions are carried as constant strings, but nothing is stated about them. The display text of `FoodPrefError` is not modelled.
- Only the parts of JSON Schema the two definitions use are modelled: objects with properties and required lists, arrays, strings with an optional enumeration, and booleans.
