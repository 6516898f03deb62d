/**
 * The request body `registerUser` builds from the sign-up form before posting
 * it to `/register`: the password confirmation is dropped, the flat
 * `state`/`city`/`district` fields are nested under `address` with `state`
 * upper-cased, and every other field is passed through.
 */
module Registration {
  import opened Outcomes
  import opened JsValues

  /** The fields the destructuring pulls out of the form before the rest is spread. */
  const PULLED: set<string> := {"confirm_password", "state", "district", "city"}

  /** The object literal `{ state: state.toUpperCase(), city, district }`. */
  function Address(state: string, city: Value, district: Value): Value {
    Obj(map["state" := Str(AsciiUpper(state)), "city" := city, "district" := district])
  }

  /**
   * The payload `{ address: {...}, ...restData }`. `Err` is the `TypeError`
   * thrown when `state` is not a string (`undefined.toUpperCase()`), in which
   * case nothing is posted. Because `restData` is spread after `address`, a
   * form field named `address` replaces the built one.
   */
  function Normalize(data: Record): (r: Outcome<Record>)
    ensures r.Ok? <==> "state" in data && data["state"].Str?
    ensures r.Ok? ==> r.value.Keys == data.Keys - PULLED + {"address"}
    ensures r.Ok? ==> forall k :: k in data && k !in PULLED && k != "address" ==> r.value[k] == data[k]
    ensures r.Ok? && "address" in data ==> r.value["address"] == data["address"]
    ensures r.Ok? && "address" !in data ==>
      r.value["address"] == Address(data["state"].s, Field(data, "city"), Field(data, "district"))
  {
    var state := Field(data, "state");
    if !state.Str? then Err
    else
      var rest := data - PULLED;
      Ok(map["address" := Address(state.s, Field(data, "city"), Field(data, "district"))] + rest)
  }

  /**
   * Flattens a payload back into a form: the nested address fields return to
   * the top level and the given confirmation is put back.
   */
  function Flatten(payload: Record, confirm: Value): (form: Record)
    requires "address" in payload && payload["address"].Obj?
    requires {"state", "city", "district"} <= payload["address"].fields.Keys
  {
    var address := payload["address"].fields;
    (payload - {"address"})["confirm_password" := confirm]
      ["state" := address["state"]]["city" := address["city"]]["district" := address["district"]]
  }

  /**
   * A complete form with an upper-case state and no field of its own named
   * `address` is recovered exactly from its payload and its confirmation.
   */
  lemma FlattenNormalize(data: Record)
    requires PULLED <= data.Keys && "address" !in data
    requires data["state"].Str? && NoLower(data["state"].s)
    ensures Normalize(data).Ok?
    ensures Flatten(Normalize(data).value, data["confirm_password"]) == data
  {
    var s := data["state"].s;
    AsciiUpperFixedPoint(s);
    var form := Flatten(Normalize(data).value, data["confirm_password"]);
    assert form.Keys == data.Keys;
    forall k | k in data ensures form[k] == data[k] {
    }
  }

  /** Whatever the form held, a built address carries a state without lower-case letters. */
  lemma NormalizedStateIsUpper(data: Record)
    requires Normalize(data).Ok? && "address" !in data
    ensures Normalize(data).value["address"].Obj?
    ensures var address := Normalize(data).value["address"].fields;
      "state" in address && address["state"].Str? && NoLower(address["state"].s)
      && |address["state"].s| == |data["state"].s|
  {
    AsciiUpperHasNoLower(data["state"].s);
  }

  /** An example form and the exact body it produces. */
  lemma RegistrationExample()
    ensures Normalize(map["name" := Str("Ana"), "email" := Str("a@b.com"), "password" := Str("x"),
                          "confirm_password" := Str("x"), "state" := Str("sp"),
                          "city" := Str("c"), "district" := Str("d")])
         == Ok(map["address" := Obj(map["state" := Str("SP"), "city" := Str("c"), "district" := Str("d")]),
                   "name" := Str("Ana"), "email" := Str("a@b.com"), "password" := Str("x")])
  {
    var data := map["name" := Str("Ana"), "email" := Str("a@b.com"), "password" := Str("x"),
                     "confirm_password" := Str("x"), "state" := Str("sp"),
                     "city" := Str("c"), "district" := Str("d")];
    assert AsciiUpper("sp") == "SP";
    var expected := map["address" := Obj(map["state" := Str("SP"), "city" := Str("c"), "district" := Str("d")]),
                         "name" := Str("Ana"), "email" := Str("a@b.com"), "password" := Str("x")];
    var r := Normalize(data).value;
    assert r.Keys == expected.Keys;
    assert r["address"] == expected["address"];
    forall k | k in expected ensures r[k] == expected[k] {
    }
    assert r == expected;
    assert Normalize(data) == Ok(expected);
  }
}
