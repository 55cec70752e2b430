/** The crop-detail knowledge table: its entries, how the generators fold a
    list of crop labels into it, how the server loads it with a guaranteed
    `default` entry, and the case-insensitive lookup. */
module CropDetails {
  import opened Wrappers
  import opened Ascii

  /** One knowledge-table entry. Both generators write `name`; only the
      second one writes `temp_range` and `soil_requirements`; the server's
      synthesized default carries neither. */
  datatype CropDetail = CropDetail(
    name: Option<string>,
    desc: string,
    fertilizerLink: string,
    tips: seq<string>,
    tempRange: Option<string>,
    soilRequirements: Option<string>)

  type KnowledgeTable = map<string, CropDetail>

  const DEFAULT_KEY: string := "default"

  /** The entry the server adds when the loaded table has no `default`. */
  const DEFAULT_DETAIL: CropDetail := CropDetail(
    None,
    "No extended info available for this crop.",
    "https://www.google.com/search?q=fertilizer+guide",
    ["Maintain proper irrigation and nutrient levels."],
    None,
    None)

  /** The generators' loop `for crop in crops: output[crop.lower()] = entry(crop)`. */
  function BuildTable(crops: seq<string>, entry: string -> CropDetail): (t: KnowledgeTable)
    ensures t.Keys == set c | c in crops :: Lower(c)
    ensures forall k :: k in t ==> exists c :: c in crops && Lower(c) == k && t[k] == entry(c)
    decreases |crops|
  {
    if |crops| == 0 then map[]
    else
      var init := crops[..|crops| - 1];
      var crop := crops[|crops| - 1];
      assert forall c :: c in crops <==> c in init || c == crop;
      BuildTable(init, entry)[Lower(crop) := entry(crop)]
  }

  /** Crop `i` is the last crop in the list with its lower-cased key. */
  ghost predicate LastWithKey(crops: seq<string>, i: int)
    requires 0 <= i < |crops|
  {
    forall j :: i < j < |crops| ==> Lower(crops[j]) != Lower(crops[i])
  }

  /** Labels that differ only in case collapse to one key, and the entry of
      the later crop overwrites the earlier one. */
  lemma {:induction false} BuildTableLastWins(crops: seq<string>, entry: string -> CropDetail, i: int)
    requires 0 <= i < |crops| && LastWithKey(crops, i)
    ensures BuildTable(crops, entry)[Lower(crops[i])] == entry(crops[i])
    decreases |crops|
  {
    var init := crops[..|crops| - 1];
    if i < |crops| - 1 {
      assert init[i] == crops[i];
      assert LastWithKey(init, i);
      BuildTableLastWins(init, entry, i);
    }
  }

  /** Every key the generators write is lower case. */
  lemma BuildTableKeysLowerCase(crops: seq<string>, entry: string -> CropDetail)
    ensures forall k :: k in BuildTable(crops, entry) ==> IsLowerCase(k)
  {
    forall k | k in BuildTable(crops, entry)
      ensures IsLowerCase(k)
    {
      var c :| c in crops && k == Lower(c);
      LowerIsLowerCase(c);
    }
  }

  /** The table the server holds after start-up; `loaded` is the parsed
      JSON file, or None when the file is absent or fails to load. */
  function LoadTable(loaded: Option<KnowledgeTable>): (t: KnowledgeTable)
    ensures DEFAULT_KEY in t
    ensures loaded.Some? ==> t.Keys == loaded.value.Keys + {DEFAULT_KEY}
    ensures loaded.Some? ==> forall k :: k in loaded.value ==> t[k] == loaded.value[k]
    ensures loaded.None? ==> t == map[DEFAULT_KEY := DEFAULT_DETAIL]
    ensures (loaded.None? || DEFAULT_KEY !in loaded.value) ==> t[DEFAULT_KEY] == DEFAULT_DETAIL
  {
    var start := if loaded.Some? then loaded.value else map[];
    if DEFAULT_KEY in start then start else start[DEFAULT_KEY := DEFAULT_DETAIL]
  }

  /** `CROP_DETAILS.get(crop.lower(), CROP_DETAILS.get("default", {}))`;
      None stands for the empty-dict fallback. */
  function Lookup(t: KnowledgeTable, crop: string): (r: Option<CropDetail>)
    ensures Lower(crop) in t ==> r == Some(t[Lower(crop)])
    ensures Lower(crop) !in t && DEFAULT_KEY in t ==> r == Some(t[DEFAULT_KEY])
    ensures r.None? <==> Lower(crop) !in t && DEFAULT_KEY !in t
  {
    var key := Lower(crop);
    if key in t then Some(t[key])
    else if DEFAULT_KEY in t then Some(t[DEFAULT_KEY])
    else None
  }

  /** On a loaded table lookup is total: the empty-dict fallback is never reached. */
  lemma LookupLoadedIsTotal(loaded: Option<KnowledgeTable>, crop: string)
    ensures Lookup(LoadTable(loaded), crop).Some?
  {
  }

  /** Labels that differ only in case get the same detail. */
  lemma LookupCaseInsensitive(t: KnowledgeTable, a: string, b: string)
    requires Lower(a) == Lower(b)
    ensures Lookup(t, a) == Lookup(t, b)
  {
  }

  /** A crop unknown to the loaded table gets the default entry. */
  lemma LookupUnknownIsDefault(loaded: Option<KnowledgeTable>, crop: string)
    requires loaded.None? || Lower(crop) !in loaded.value
    ensures Lookup(LoadTable(loaded), crop) == Some(LoadTable(loaded)[DEFAULT_KEY])
  {
  }
}
