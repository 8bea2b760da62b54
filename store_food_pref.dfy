/**
 * The food-preference tool (`StoreFoodPref`, src/main.rs:69-70, 75-123).
 */
module StoreFoodPref {
  import opened Wrappers
  import opened Records
  import opened ToolSchema
  import opened Project

  /** The tool's dispatch name (`StoreFoodPref::NAME`). */
  const NAME := "StoreFoodPref"

  /** The values the schema advertises for `kind`, in the order written. */
  const KINDS := ["allergy", "intolerance", "dislike", "not_sure", "like", "love"]

  const DishSchema := StringSchema("The name of the dish or food for which we are learning about a preference", None)
  const KindSchema := StringSchema("The kind of food preference that this is", Some(KINDS))
  const ItemSchema := ObjectSchema([Property("dish", DishSchema), Property("kind", KindSchema)], ["dish", "kind"])
  const DishesSchema := ArraySchema("A list of zero or more dishes and kinds to store", ItemSchema)

  /**
   * `definition`: the same constant definition whatever the prompt. Its
   * parameters require `dishes`, an array of objects that require `dish`
   * (a free string) and `kind` (one of the six KINDS).
   */
  function Definition(prompt: string): (d: ToolDefinition)
    ensures d.name == NAME
    ensures Required(d.parameters) == ["dishes"]
    ensures Prop(d.parameters, "dishes").Some? && Prop(d.parameters, "dishes").value.ArraySchema?
    ensures var items := Prop(d.parameters, "dishes").value.items;
      Required(items) == ["dish", "kind"] &&
      Prop(items, "dish").Some? && Prop(items, "dish").value.StringSchema? &&
      EnumOf(Prop(items, "dish").value) == None &&
      Prop(items, "kind").Some? && Prop(items, "kind").value.StringSchema? &&
      EnumOf(Prop(items, "kind").value) == Some(KINDS) && |KINDS| == 6
  {
    assert "kind"[0] != "dish"[0];
    assert ItemSchema.properties[1..] == [Property("kind", KindSchema)];
    assert PropertySchema(ItemSchema.properties, "kind") == Some(KindSchema);
    ToolDefinition(NAME, "Store food preferences", ObjectSchema([Property("dishes", DishesSchema)], ["dishes"]))
  }

  /** The JSON object of one record: one member per struct field, named as the field. */
  function AuxJson(p: StoreFoodPrefArgsAux): Json
  {
    JObject([Member("dish", JString(p.dish)), Member("kind", JString(p.kind))])
  }

  /** The JSON object of the tool's arguments, the shape the argument decoder reads. */
  function ArgsJson(args: StoreFoodPrefArgs): Json
  {
    JObject([Member("dishes", JArray(seq(|args.dishes|, i requires 0 <= i < |args.dishes| => AuxJson(args.dishes[i]))))])
  }

  lemma AuxConforms(p: StoreFoodPrefArgsAux)
    ensures Conforms(ItemSchema, AuxJson(p)) <==> p.kind in KINDS
  {
    var j := AuxJson(p);
    assert "kind"[0] != "dish"[0];
    assert ItemSchema.properties[1..] == [Property("kind", KindSchema)];
    assert j.members[1..] == [Member("kind", JString(p.kind))];
    assert Field(j.members, "dish").Some? && Field(j.members, "kind").Some?;
    assert PropertySchema(ItemSchema.properties, "dish") == Some(DishSchema);
    assert PropertySchema(ItemSchema.properties, "kind") == Some(KindSchema);
    assert Conforms(KindSchema, JString(p.kind)) <==> p.kind in KINDS;
    assert j.members[1] in j.members;
  }

  /**
   * The JSON form of any argument record matches the tool's advertised schema
   * exactly when every `kind` is one of the six KINDS: the record type itself
   * admits any string there.
   */
  lemma ArgsConformIff(prompt: string, args: StoreFoodPrefArgs)
    ensures Conforms(Definition(prompt).parameters, ArgsJson(args)) <==>
            forall p <- args.dishes :: p.kind in KINDS
  {
    var j := ArgsJson(args);
    var arr := j.members[0].value;
    assert Field(j.members, "dishes").Some?;
    assert j.members[0] in j.members;
    assert PropertySchema(Definition(prompt).parameters.properties, "dishes") == Some(DishesSchema);
    forall i | 0 <= i < |args.dishes|
      ensures Conforms(ItemSchema, arr.elems[i]) <==> args.dishes[i].kind in KINDS
    {
      AuxConforms(args.dishes[i]);
    }
    if Conforms(Definition(prompt).parameters, j) {
      assert Conforms(DishesSchema, arr);
      forall p <- args.dishes ensures p.kind in KINDS {
        var i :| 0 <= i < |args.dishes| && args.dishes[i] == p;
        assert arr.elems[i] in arr.elems;
      }
    }
  }

  /**
   * `call`: with the store held for the whole call, push every dish in input
   * order; the diets are untouched and the result is always `Ok(true)`.
   */
  method Call(store: MockProjectUntitled, args: StoreFoodPrefArgs) returns (r: Result<bool, ToolError>)
    modifies store
    ensures store.foodPrefs == old(store.foodPrefs) + args.dishes
    ensures store.diets == old(store.diets)
    ensures r == Ok(true)
  {
    for i := 0 to |args.dishes|
      invariant store.foodPrefs == old(store.foodPrefs) + args.dishes[..i]
      invariant store.diets == old(store.diets)
    {
      store.AddFoodPref(args.dishes[i]);
      assert args.dishes[..i + 1] == args.dishes[..i] + [args.dishes[i]];
    }
    assert args.dishes[..|args.dishes|] == args.dishes;
    r := Ok(true);
  }
}
