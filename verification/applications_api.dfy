/** The key mapping of src/api/applicationsAPI.js: `transformApplicationData`
    renames seven camelCase keys to snake_case and copies everything else, and
    `getAll` applies the same mapping to its filters before building the query. */
module ApplicationsApi {
  import opened JsValue
  import opened JsObject

  const CamelKeys: seq<string> :=
    ["serviceType", "expectedBudget", "contactFullName", "contactEmail", "contactPhone", "companyName", "budgetRange"]
  const SnakeKeys: seq<string> :=
    ["service_type", "expected_budget", "contact_full_name", "contact_email", "contact_phone", "company_name", "budget_range"]

  /** The `switch (key)` of the loop: the seven renamed keys, and `priority`
      and every other key copied as it is. */
  function SnakeKey(key: string): string
  {
    match key
    case "serviceType" => "service_type"
    case "expectedBudget" => "expected_budget"
    case "contactFullName" => "contact_full_name"
    case "contactEmail" => "contact_email"
    case "contactPhone" => "contact_phone"
    case "companyName" => "company_name"
    case "budgetRange" => "budget_range"
    case "priority" => "priority"
    case _ => key
  }

  /** A renamed key becomes one of the snake_case names, every other key is
      kept, and no key is ever mapped to a renamed camelCase one. */
  lemma {:induction false} SnakeKeyRange(key: string)
    ensures key in CamelKeys ==> SnakeKey(key) in SnakeKeys
    ensures key !in CamelKeys ==> SnakeKey(key) == key
    ensures SnakeKey(key) !in CamelKeys
  {
  }

  /** The object the loop has built after the entries `data`: each entry
      written under its mapped key, in order. */
  function Transformed<V>(data: Entries<V>): (r: Entries<V>)
    ensures UniqueKeys(r)
  {
    if data == [] then []
    else
      var last := data[|data| - 1];
      Put(Transformed(data[..|data| - 1]), SnakeKey(last.0), last.1)
  }

  /** `transformApplicationData(data)`: a fresh object filled entry by entry. */
  method TransformApplicationData<V>(data: Entries<V>) returns (transformed: Entries<V>)
    ensures transformed == Transformed(data)
    ensures forall k :: Get(transformed, k) == LastMappedTo(data, k)
    ensures forall k :: k in CamelKeys ==> !Has(transformed, k)
  {
    transformed := [];
    var i := 0;
    while i < |data|
      invariant 0 <= i <= |data|
      invariant transformed == Transformed(data[..i])
    {
      var (key, value) := data[i];
      assert data[..i + 1][..i] == data[..i];
      transformed := Put(transformed, SnakeKey(key), value);
      i := i + 1;
    }
    assert data[..i] == data;
    forall k ensures Get(transformed, k) == LastMappedTo(data, k) {
      TransformedGet(data, k);
    }
    forall k | k in CamelKeys ensures !Has(transformed, k) {
      TransformedGet(data, k);
      NothingMapsToCamel(data, k);
    }
  }

  /** `getAll(filters)`: the filters go through the same mapping before they
      become query parameters; the request itself is not part of this model. */
  method GetAllFilters<V>(filters: Entries<V>) returns (params: Entries<V>)
    ensures params == Transformed(filters)
    ensures forall k :: k in CamelKeys ==> !Has(params, k)
  {
    params := TransformApplicationData(filters);
  }

  /** The value of the last entry whose key maps to `k`: the reference for what
      the transformed object holds under `k`. */
  function LastMappedTo<V>(data: Entries<V>, k: string): (r: Option<V>)
    ensures r.Some? ==> exists i :: 0 <= i < |data| && SnakeKey(data[i].0) == k && data[i].1 == r.value
    ensures r.None? ==> forall i :: 0 <= i < |data| ==> SnakeKey(data[i].0) != k
  {
    if data == [] then None
    else
      var front, last := data[..|data| - 1], data[|data| - 1];
      if SnakeKey(last.0) == k then Some(last.1)
      else
        var r := LastMappedTo(front, k);
        assert forall i :: 0 <= i < |front| ==> front[i] == data[i];
        r
  }

  /** Values are never altered, and when several keys map to `k` (say both
      `contactPhone` and `contact_phone`), the one iterated later wins. */
  lemma {:induction false} TransformedGet<V>(data: Entries<V>, k: string)
    ensures Get(Transformed(data), k) == LastMappedTo(data, k)
  {
    if data != [] {
      TransformedGet(data[..|data| - 1], k);
    }
  }

  lemma {:induction false} NothingMapsToCamel<V>(data: Entries<V>, k: string)
    requires k in CamelKeys
    ensures LastMappedTo(data, k) == None
  {
    forall i | 0 <= i < |data| ensures SnakeKey(data[i].0) != k {
      SnakeKeyRange(data[i].0);
    }
  }

  /** A key some entry maps to is never a renamed camelCase one. */
  lemma {:induction false} MappedKeyIsNotCamel<V>(data: Entries<V>, k: string)
    requires LastMappedTo(data, k).Some?
    ensures k !in CamelKeys
  {
    var j :| 0 <= j < |data| && SnakeKey(data[j].0) == k;
    SnakeKeyRange(data[j].0);
  }

  /** An object whose keys are all left alone by the mapping comes back as it
      is, order included. */
  lemma {:induction false} TransformedFixesMappedKeys<V>(o: Entries<V>)
    requires UniqueKeys(o)
    requires forall i :: 0 <= i < |o| ==> SnakeKey(o[i].0) == o[i].0
    ensures Transformed(o) == o
  {
    if o != [] {
      var front := o[..|o| - 1];
      var last := o[|o| - 1];
      assert o == front + [last];
      TransformedFixesMappedKeys(front);
      assert !Has(front, last.0) by {
        assert forall j :: 0 <= j < |front| ==> front[j].0 == o[j].0 != o[|o| - 1].0;
      }
    }
  }

  /** Input that already uses only snake_case names (and no renamed camelCase
      key) is sent unchanged. */
  lemma {:induction false} SnakeCaseInputUnchanged<V>(o: Entries<V>)
    requires UniqueKeys(o)
    requires forall i :: 0 <= i < |o| ==> o[i].0 !in CamelKeys
    ensures Transformed(o) == o
  {
    TransformedFixesMappedKeys(o);
  }

  /** Transforming twice is transforming once. */
  lemma {:induction false} TransformIdempotent<V>(data: Entries<V>)
    ensures Transformed(Transformed(data)) == Transformed(data)
  {
    var t := Transformed(data);
    forall i | 0 <= i < |t| ensures SnakeKey(t[i].0) == t[i].0 {
      var key := t[i].0;
      assert Has(t, key);
      TransformedGet(data, key);
      MappedKeyIsNotCamel(data, key);
      SnakeKeyRange(key);
    }
    TransformedFixesMappedKeys(t);
  }
}
