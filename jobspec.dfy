/**
 * The job spec the template engine receives: the loaded job specification,
 * with a missing or nil `properties` entry replaced by an empty Hash.
 */
module JobSpec {
  import opened Values

  /** `job_spec['properties'] = {} if job_spec['properties'].nil?` on a loaded job spec. */
  function NormalizeJobSpec(jobSpec: Value): (r: Result<Value>)
    ensures r.Ok? <==> jobSpec.Hash? || (jobSpec.Str? && Includes(jobSpec.s, "properties"))
    ensures r.Ok? ==> r.value.Hash? == jobSpec.Hash?
    ensures jobSpec.Hash? && Get(jobSpec.entries, "properties") != Nil ==> r.value == jobSpec
    ensures jobSpec.Str? ==> r == if Includes(jobSpec.s, "properties") then Ok(jobSpec) else Err(IndexError)
    ensures jobSpec.Int? || jobSpec.List? ==> r == Err(TypeError)
    ensures jobSpec.Nil? || jobSpec.Bool? ==> r == Err(NoMethodError("[]"))
  {
    var properties :- Fetch(jobSpec, "properties");
    if properties != Nil then Ok(jobSpec)
    else if jobSpec.Hash? then Ok(Hash(Store(jobSpec.entries, "properties", Hash([]))))
    else Err(IndexError)  // `String#[]=` with a substring the String does not contain
  }

  /**
   * On a Hash job spec, `properties` afterwards reads `{}` where it read nil,
   * and as before otherwise; every other key reads as before; and the keys keep
   * their order, with `properties` appended when it was missing.
   */
  lemma NormalizedHash(jobSpec: Value)
    requires jobSpec.Hash?
    ensures var r := NormalizeJobSpec(jobSpec).value;
      && Get(r.entries, "properties") ==
           (if Get(jobSpec.entries, "properties") == Nil then Hash([]) else Get(jobSpec.entries, "properties"))
      && (forall key :: key != "properties" ==> Lookup(r.entries, key) == Lookup(jobSpec.entries, key))
      && (Keys(r.entries) == if "properties" in Keys(jobSpec.entries) then Keys(jobSpec.entries)
                             else Keys(jobSpec.entries) + ["properties"])
  {
    if Get(jobSpec.entries, "properties") == Nil {
      StoreLookup(jobSpec.entries, "properties", Hash([]));
      StoreKeys(jobSpec.entries, "properties", Hash([]));
    }
  }

  /** Normalizing a normalized job spec changes nothing. */
  lemma NormalizeIdempotent(jobSpec: Value)
    requires NormalizeJobSpec(jobSpec).Ok?
    ensures NormalizeJobSpec(NormalizeJobSpec(jobSpec).value) == NormalizeJobSpec(jobSpec)
  {
    if jobSpec.Hash? {
      NormalizedHash(jobSpec);
    }
  }
}
