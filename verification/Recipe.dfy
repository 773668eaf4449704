/**
 Signed recipes (internal/iogrid/recipe.go): the body is canonicalised, the canonical
 text is signed, and verification recomputes it. Signatures are ideal: a compact JWS is
 the key that produced it together with its recipe_jcs claim. A document is what the
 YAML decoder yields.
 */
module Recipe {
  import opened Common
  import opened CanonicalJson

  datatype ResourceBudget = ResourceBudget(
    cpuRequest: string, cpuLimit: string, memoryRequest: string, memoryLimit: string)

  datatype RecipeBody = RecipeBody(
    id: string, version: string, publisher: string, agentSlug: string, image: string,
    defaultArgs: seq<string>, requiredEnv: seq<string>,
    resources: Option<ResourceBudget>, allowedHosts: Option<seq<string>>, notes: string)

  type Key = nat

  datatype Signature =
    | NoSignature
    | Malformed
    | Jws(signer: Key, recipeJcs: Option<string>)

  datatype SignedRecipe = SignedRecipe(recipe: RecipeBody, signature: Signature)

  datatype RecipeError =
    | NilKey | EmptyID | EmptyPublisher | BadYaml | MissingSignature | BadJws | Tampered

  // ------------------------------------------------- the JSON form of a body

  /** One struct field as json.Marshal sees it: None when omitempty leaves it out. */
  datatype Field = Field(key: string, value: Option<Json>)

  function Always(key: string, v: string): (f: Field)
  {
    Field(key, Some(Str(v)))
  }

  function OmitEmpty(key: string, v: string): (f: Field)
  {
    Field(key, if v == "" then None else Some(Str(v)))
  }

  function Strings(xs: seq<string>): (j: Json)
  {
    Arr(seq(|xs|, i requires 0 <= i < |xs| => Str(xs[i])))
  }

  function OmitEmptyList(key: string, xs: seq<string>): (f: Field)
  {
    Field(key, if xs == [] then None else Some(Strings(xs)))
  }

  function Collect(fs: seq<Field>): (m: map<string, Json>)
  {
    if fs == [] then map[]
    else
      var last := fs[|fs| - 1];
      var m := Collect(fs[..|fs| - 1]);
      if last.value.Some? then m[last.key := last.value.value] else m
  }

  function BudgetFields(b: ResourceBudget): (fs: seq<Field>)
  {
    [OmitEmpty("cpuRequest", b.cpuRequest), OmitEmpty("cpuLimit", b.cpuLimit),
     OmitEmpty("memoryRequest", b.memoryRequest), OmitEmpty("memoryLimit", b.memoryLimit)]
  }

  function RecipeFields(r: RecipeBody): (fs: seq<Field>)
  {
    [Always("id", r.id), Always("version", r.version), Always("publisher", r.publisher),
     Always("agentSlug", r.agentSlug), OmitEmpty("image", r.image),
     OmitEmptyList("defaultArgs", r.defaultArgs), OmitEmptyList("requiredEnv", r.requiredEnv),
     Field("resources",
           if r.resources.None? then None else Some(Obj(Collect(BudgetFields(r.resources.value))))),
     Field("networkPolicy",
           if r.allowedHosts.None? then None
           else Some(Obj(Collect([OmitEmptyList("allowedHosts", r.allowedHosts.value)])))),
     OmitEmpty("notes", r.notes)]
  }

  function RecipeJson(r: RecipeBody): (j: Json)
  {
    Obj(Collect(RecipeFields(r)))
  }

  predicate DistinctKeys(fs: seq<Field>)
  {
    forall i, j :: 0 <= i < j < |fs| ==> fs[i].key != fs[j].key
  }

  lemma {:induction false} CollectLookup(fs: seq<Field>, i: nat)
    requires DistinctKeys(fs) && i < |fs|
    ensures var m := Collect(fs); var f := fs[i];
      if f.value.Some? then f.key in m && m[f.key] == f.value.value else f.key !in m
    decreases |fs|
  {
    var n := |fs| - 1;
    CollectKeys(fs[..n]);
    if i < n {
      CollectLookup(fs[..n], i);
    }
  }

  lemma {:induction false} CollectKeys(fs: seq<Field>)
    ensures forall k :: k in Collect(fs) ==> exists i :: 0 <= i < |fs| && fs[i].key == k
  {
    if fs != [] {
      var n := |fs| - 1;
      CollectKeys(fs[..n]);
      forall k | k in Collect(fs) ensures exists i :: 0 <= i < |fs| && fs[i].key == k {
        if k in Collect(fs[..n]) {
          var i :| 0 <= i < n && fs[..n][i].key == k;
          assert fs[i].key == k;
        } else {
          assert fs[n].key == k;
        }
      }
    }
  }

  /** Structs of one shape with the same JSON object have the same fields. */
  lemma {:induction false} CollectInjective(fs: seq<Field>, gs: seq<Field>)
    requires DistinctKeys(fs) && |fs| == |gs|
    requires forall i :: 0 <= i < |fs| ==> fs[i].key == gs[i].key
    requires Collect(fs) == Collect(gs)
    ensures fs == gs
  {
    forall i | 0 <= i < |fs| ensures fs[i] == gs[i] {
      CollectLookup(fs, i);
      CollectLookup(gs, i);
    }
  }

  lemma {:induction false} CollectWellFormed(fs: seq<Field>)
    requires forall i :: 0 <= i < |fs| ==> fs[i].value.Some? ==> WellFormed(fs[i].value.value)
    ensures WellFormed(Obj(Collect(fs)))
  {
    if fs != [] {
      CollectWellFormed(fs[..|fs| - 1]);
    }
  }

  lemma {:induction false} StringsInjective(xs: seq<string>, ys: seq<string>)
    requires Strings(xs) == Strings(ys)
    ensures xs == ys
  {
    var a, b := Strings(xs).items, Strings(ys).items;
    assert |xs| == |a| == |b| == |ys|;
    forall i | 0 <= i < |xs| ensures xs[i] == ys[i] {
      assert a[i] == b[i];
    }
  }

  lemma OmitEmptyListInjective(key: string, xs: seq<string>, ys: seq<string>)
    requires OmitEmptyList(key, xs) == OmitEmptyList(key, ys)
    ensures xs == ys
  {
    if xs != [] {
      StringsInjective(xs, ys);
    }
  }

  lemma {:induction false} BudgetInjective(a: ResourceBudget, b: ResourceBudget)
    requires Collect(BudgetFields(a)) == Collect(BudgetFields(b))
    ensures a == b
  {
    var fs, gs := BudgetFields(a), BudgetFields(b);
    CollectInjective(fs, gs);
    assert fs[0] == gs[0] && fs[1] == gs[1] && fs[2] == gs[2] && fs[3] == gs[3];
  }

  lemma RecipeKeysDistinct(r: RecipeBody)
    ensures DistinctKeys(RecipeFields(r))
  {
    var fs := RecipeFields(r);
    assert |fs[0].key| == 2 && |fs[9].key| == 5 && |fs[4].key| == 5 && |fs[1].key| == 7;
    assert |fs[2].key| == 9 && |fs[3].key| == 9 && |fs[7].key| == 9;
    assert |fs[5].key| == 11 && |fs[6].key| == 11 && |fs[8].key| == 13;
    assert fs[9].key[0] == 'n' && fs[4].key[0] == 'i';
    assert fs[2].key[0] == 'p' && fs[3].key[0] == 'a' && fs[7].key[0] == 'r';
    assert fs[5].key[0] == 'd' && fs[6].key[0] == 'r';
  }

  /** Two bodies have the same JSON only if they are the same body. */
  lemma {:induction false} RecipeJsonInjective(a: RecipeBody, b: RecipeBody)
    requires RecipeJson(a) == RecipeJson(b)
    ensures a == b
  {
    var fs, gs := RecipeFields(a), RecipeFields(b);
    RecipeKeysDistinct(a);
    CollectInjective(fs, gs);
    assert fs[0] == gs[0] && fs[1] == gs[1] && fs[2] == gs[2] && fs[3] == gs[3] && fs[4] == gs[4];
    assert fs[5] == gs[5] && fs[6] == gs[6] && fs[7] == gs[7] && fs[8] == gs[8] && fs[9] == gs[9];
    OmitEmptyListInjective("defaultArgs", a.defaultArgs, b.defaultArgs);
    OmitEmptyListInjective("requiredEnv", a.requiredEnv, b.requiredEnv);
    if a.resources.Some? {
      BudgetInjective(a.resources.value, b.resources.value);
    }
    if a.allowedHosts.Some? {
      var f := [OmitEmptyList("allowedHosts", a.allowedHosts.value)];
      var g := [OmitEmptyList("allowedHosts", b.allowedHosts.value)];
      CollectInjective(f, g);
      assert f[0] == g[0];
      OmitEmptyListInjective("allowedHosts", a.allowedHosts.value, b.allowedHosts.value);
    }
  }

  lemma StringsWellFormed(xs: seq<string>)
    ensures WellFormed(Strings(xs))
  {
  }

  lemma RecipeJsonWellFormed(r: RecipeBody)
    ensures WellFormed(RecipeJson(r))
  {
    StringsWellFormed(r.defaultArgs);
    StringsWellFormed(r.requiredEnv);
    if r.resources.Some? {
      CollectWellFormed(BudgetFields(r.resources.value));
    }
    if r.allowedHosts.Some? {
      StringsWellFormed(r.allowedHosts.value);
      CollectWellFormed([OmitEmptyList("allowedHosts", r.allowedHosts.value)]);
    }
    CollectWellFormed(RecipeFields(r));
  }

  // ------------------------------------------------------- sign and verify

  ghost function SignOutcome(r: RecipeBody, priv: Option<Key>): (out: Result<SignedRecipe, RecipeError>)
  {
    if priv.None? then Err(NilKey)
    else if r.id == "" then Err(EmptyID)
    else if r.publisher == "" then Err(EmptyPublisher)
    else Ok(SignedRecipe(r, Jws(priv.value, Some(Canon(RecipeJson(r))))))
  }

  method SignRecipe(r: RecipeBody, priv: Option<Key>) returns (out: Result<SignedRecipe, RecipeError>)
    ensures out == SignOutcome(r, priv)
  {
    if priv.None? {
      return Err(NilKey);
    }
    if r.id == "" {
      return Err(EmptyID);
    }
    if r.publisher == "" {
      return Err(EmptyPublisher);
    }
    var canonical := CanonicalJSON(RecipeJson(r));
    return Ok(SignedRecipe(r, Jws(priv.value, Some(canonical))));
  }

  /** The documented verdict: the body comes back only when the key's signature covers
      the canonical form of exactly that body. */
  ghost predicate Accepts(doc: SignedRecipe, pub: Key)
  {
    && doc.recipe.id != ""
    && doc.signature == Jws(pub, Some(Canon(RecipeJson(doc.recipe))))
  }

  method VerifyRecipe(yaml: Option<SignedRecipe>, pub: Option<Key>)
    returns (out: Result<RecipeBody, RecipeError>)
    ensures out.Ok? <==> pub.Some? && yaml.Some? && Accepts(yaml.value, pub.value)
    ensures out.Ok? ==> out.value == yaml.value.recipe
    ensures out == Err(NilKey) <==> pub.None?
    ensures out == Err(Tampered) <==>
      && pub.Some? && yaml.Some? && yaml.value.recipe.id != ""
      && yaml.value.signature.Jws? && yaml.value.signature.signer == pub.value
      && yaml.value.signature.recipeJcs != Some(Canon(RecipeJson(yaml.value.recipe)))
  {
    if pub.None? {
      return Err(NilKey);
    }
    if yaml.None? {
      return Err(BadYaml);
    }
    var doc := yaml.value;
    if doc.recipe.id == "" {
      return Err(EmptyID);
    }
    if doc.signature.NoSignature? {
      return Err(MissingSignature);
    }
    if doc.signature.Malformed? || doc.signature.signer != pub.value {
      return Err(BadJws);
    }
    var gotCanon := if doc.signature.recipeJcs.Some? then doc.signature.recipeJcs.value else "";
    var wantCanon := CanonicalJSON(RecipeJson(doc.recipe));
    assert wantCanon[0] == '{';
    if gotCanon != wantCanon {
      return Err(Tampered);
    }
    return Ok(doc.recipe);
  }

  /** Tamper evidence: put any body and any key beside the signature of `r`; the result
      verifies exactly when it is the signed body under the signing key. */
  lemma {:induction false} SignatureBindsBody(r: RecipeBody, key: Key, other: RecipeBody, pub: Key)
    requires SignOutcome(r, Some(key)).Ok?
    ensures Accepts(SignOutcome(r, Some(key)).value.(recipe := other), pub) <==> other == r && pub == key
  {
    RecipeJsonWellFormed(r);
    RecipeJsonWellFormed(other);
    CanonDecidesEquality(RecipeJson(other), RecipeJson(r));
    if RecipeJson(other) == RecipeJson(r) {
      RecipeJsonInjective(other, r);
    }
  }
}
