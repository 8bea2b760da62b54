/**
 * The diet tool (`StoreDietType`, src/main.rs:72-73, 125-174). It declares the
 * same error type as the food-preference tool.
 */
module StoreDietType {
  import opened Wrappers
  import opened Records
  import opened ToolSchema
  import opened Project

  /** The tool's dispatch name (`StoreDietType::NAME`). */
  const NAME := "StoreDietType"

  /** The values the schema advertises for `diet_type`, in the order written. */
  const DIET_TYPES := ["vegetarian", "vegan", "gluten-free", "pescatarian", "keto", "paleo"]

  const DietTypeSchema := StringSchema("The type of diet", Some(DIET_TYPES))
  const FollowsSchema := BooleanSchema("Whether the user follows this diet")
  const ItemSchema := ObjectSchema([Property("diet_type", DietTypeSchema), Property("follows", FollowsSchema)], ["diet_type", "follows"])
  const DietsSchema := ArraySchema("A list of zero or more diet types and whether the user follows them", ItemSchema)

  /**
   * `definition`: the same constant definition whatever the prompt. Its
   * parameters require `diets`, an array of objects that require `diet_type`
   * (one of the six DIET_TYPES) and `follows` (a boolean).
   */
  function Definition(prompt: string): (d: ToolDefinition)
    ensures d.name == NAME
    ensures Required(d.parameters) == ["diets"]
    ensures Prop(d.parameters, "diets").Some? && Prop(d.parameters, "diets").value.ArraySchema?
    ensures var items := Prop(d.parameters, "diets").value.items;
      Required(items) == ["diet_type", "follows"] &&
      Prop(items, "diet_type").Some? && Prop(items, "diet_type").value.StringSchema? &&
      EnumOf(Prop(items, "diet_type").value) == Some(DIET_TYPES) && |DIET_TYPES| == 6 &&
      Prop(items, "follows").Some? && Prop(items, "follows").value.BooleanSchema?
  {
    assert "follows"[0] != "diet_type"[0];
    assert ItemSchema.properties[1..] == [Property("follows", FollowsSchema)];
    assert PropertySchema(ItemSchema.properties, "follows") == Some(FollowsSchema);
    ToolDefinition(NAME, "Store diet types", ObjectSchema([Property("diets", DietsSchema)], ["diets"]))
  }

  /** The JSON object of one record: one member per struct field, named as the field. */
  function AuxJson(d: StoreDietTypeArgsAux): Json
  {
    JObject([Member("diet_type", JString(d.dietType)), Member("follows", JBool(d.follows))])
  }

  /** The JSON object of the tool's arguments, the shape the argument decoder reads. */
  function ArgsJson(args: StoreDietTypeArgs): Json
  {
    JObject([Member("diets", JArray(seq(|args.diets|, i requires 0 <= i < |args.diets| => AuxJson(args.diets[i]))))])
  }

  lemma AuxConforms(d: StoreDietTypeArgsAux)
    ensures Conforms(ItemSchema, AuxJson(d)) <==> d.dietType in DIET_TYPES
  {
    var j := AuxJson(d);
    assert "follows"[0] != "diet_type"[0];
    assert ItemSchema.properties[1..] == [Property("follows", FollowsSchema)];
    assert j.members[1..] == [Member("follows", JBool(d.follows))];
    assert Field(j.members, "diet_type").Some? && Field(j.members, "follows").Some?;
    assert PropertySchema(ItemSchema.properties, "diet_type") == Some(DietTypeSchema);
    assert PropertySchema(ItemSchema.properties, "follows") == Some(FollowsSchema);
    assert Conforms(DietTypeSchema, JString(d.dietType)) <==> d.dietType in DIET_TYPES;
    assert j.members[1] in j.members;
  }

  /**
   * The JSON form of any argument record matches the tool's advertised schema
   * exactly when every `diet_type` is one of the six DIET_TYPES: the record
   * type itself admits any string there.
   */
  lemma ArgsConformIff(prompt: string, args: StoreDietTypeArgs)
    ensures Conforms(Definition(prompt).parameters, ArgsJson(args)) <==>
            forall d <- args.diets :: d.dietType in DIET_TYPES
  {
    var j := ArgsJson(args);
    var arr := j.members[0].value;
    assert Field(j.members, "diets").Some?;
    assert j.members[0] in j.members;
    assert PropertySchema(Definition(prompt).parameters.properties, "diets") == Some(DietsSchema);
    forall i | 0 <= i < |args.diets|
      ensures Conforms(ItemSchema, arr.elems[i]) <==> args.diets[i].dietType in DIET_TYPES
    {
      AuxConforms(args.diets[i]);
    }
    if Conforms(Definition(prompt).parameters, j) {
      assert Conforms(DietsSchema, arr);
      forall d <- args.diets ensures d.dietType in DIET_TYPES {
        var i :| 0 <= i < |args.diets| && args.diets[i] == d;
        assert arr.elems[i] in arr.elems;
      }
    }
  }

  /**
   * `call`: with the store held for the whole call, push every diet in input
   * order; the food preferences are untouched and the result is always `Ok(true)`.
   */
  method Call(store: MockProjectUntitled, args: StoreDietTypeArgs) returns (r: Result<bool, ToolError>)
    modifies store
    ensures store.diets == old(store.diets) + args.diets
    ensures store.foodPrefs == old(store.foodPrefs)
    ensures r == Ok(true)
  {
    for i := 0 to |args.diets|
      invariant store.diets == old(store.diets) + args.diets[..i]
      invariant store.foodPrefs == old(store.foodPrefs)
    {
      store.AddDiet(args.diets[i]);
      assert args.diets[..i + 1] == args.diets[..i] + [args.diets[i]];
    }
    assert args.diets[..|args.diets|] == args.diets;
    r := Ok(true);
  }
}
