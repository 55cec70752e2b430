/** The second knowledge-base generator (generate_crop_details_v2.py):
    crop-type climate and soil rules, the description sentence, the link,
    and the loop that turns crop labels into knowledge-table entries. */
module KnowledgeBaseV2 {
  import opened Wrappers
  import opened Ascii
  import opened UrlEncoding
  import opened PyDict
  import opened CropDetails
  import KnowledgeBase

  /** `CROP_TYPE_RULES`: keyword to (temperature range, soil requirements),
      in the order written. */
  const CROP_TYPE_RULES: Table<string, (string, string)> := [
    ("rice", ("Warm humid (20–30 °C)", "Clay/loam soil, high water, pH 5.5–7")),
    ("maize", ("Warm (18–27 °C)", "Well-drained loam, pH 5.5–7")),
    ("wheat", ("Cool (10–25 °C)", "Loam/clay loam, pH 6–7.5")),
    ("barley", ("Cool (12–25 °C)", "Well-drained loam, pH 6–7.5")),
    ("cotton", ("Warm (20–30 °C)", "Black soil/sandy loam, pH 5.5–7.5")),
    ("sugarcane", ("Hot humid (20–35 °C)", "Deep loam soil, pH 6–7.5")),
    ("millet", ("Dry warm (20–30 °C)", "Poor sandy soil, drought-tolerant")),
    ("sorghum", ("Dry warm (20–32 °C)", "Loam, sandy loam, drought tolerant")),
    ("soy", ("Warm (20–30 °C)", "Loam soil, pH 6–7")),
    ("groundnut", ("Warm (20–30 °C)", "Sandy loam, pH 6–7")),
    ("potato", ("Cool (12–25 °C)", "Light loam soil, pH 5–6.5")),
    ("tomato", ("Warm (20–28 °C)", "Well-drained loam, pH 6–7")),
    ("onion", ("Cool–warm (13–25 °C)", "Loose, sandy loam, pH 6–7")),
    ("peas", ("Cool (10–20 °C)", "Loamy soil, pH 6–7.5")),
    ("chili", ("Warm (20–30 °C)", "Loam, well-drained, pH 6–7")),
    ("apple", ("Cool temperate (5–20 °C)", "Well-drained loam, pH 6–7")),
    ("mango", ("Warm (24–30 °C)", "Deep loam soil, pH 5.5–7.5")),
    ("banana", ("Warm humid (20–35 °C)", "Rich loam, high organic matter, pH 6–7")),
    ("papaya", ("Warm (22–30 °C)", "Well-drained loam, pH 6–7")),
    ("orange", ("Subtropical (12–30 °C)", "Sandy loam, pH 5.5–7")),
    ("grape", ("Warm dry (15–30 °C)", "Well-drained loam, pH 6–7.5")),
    ("coconut", ("Tropical (22–32 °C)", "Sandy loam, pH 5.5–7")),
    ("tea", ("Cool humid (15–25 °C)", "Acidic soil, pH 4.5–5.5")),
    ("coffee", ("Warm highland (15–25 °C)", "Loam soil, pH 5–6.5")),
    ("sunflower", ("Warm (20–28 °C)", "Well-drained loam, pH 6–7.5"))
  ]

  /** The first twelve rules repeat no key. */
  lemma EarlyRulesDistinct()
    ensures DistinctKeys(CROP_TYPE_RULES[..12])
  {
  }

  /** Rules 12 to 18 repeat no key. */
  lemma MiddleRulesDistinct()
    ensures DistinctKeys(CROP_TYPE_RULES[12..19])
  {
  }

  /** Rules 19 to 24 repeat no key. */
  lemma TailRulesDistinct()
    ensures DistinctKeys(CROP_TYPE_RULES[19..])
  {
  }

  /** No key of rules 12 to 18 is among rules 19 to 24. */
  lemma MiddleRulesApartFromTail()
    ensures forall i, j :: 12 <= i < 19 && 19 <= j < 25 ==> CROP_TYPE_RULES[i].0 != CROP_TYPE_RULES[j].0
  {
  }

  /** The last thirteen rules repeat no key. */
  lemma LateRulesDistinct()
    ensures DistinctKeys(CROP_TYPE_RULES[12..])
  {
    var middle, tail := CROP_TYPE_RULES[12..19], CROP_TYPE_RULES[19..];
    MiddleRulesDistinct();
    TailRulesDistinct();
    MiddleRulesApartFromTail();
    assert forall i, j :: 0 <= i < |middle| && 0 <= j < |tail| ==> middle[i].0 != tail[j].0 by {
      forall i, j | 0 <= i < |middle| && 0 <= j < |tail|
        ensures middle[i].0 != tail[j].0
      {
        assert middle[i] == CROP_TYPE_RULES[12 + i] && tail[j] == CROP_TYPE_RULES[19 + j];
      }
    }
    DistinctKeysAppend(middle, tail);
    assert middle + tail == CROP_TYPE_RULES[12..];
  }

  /** No key of the first twelve rules is among rules 12 to 18. */
  lemma EarlyRulesApartFromMiddle()
    ensures forall i, j :: 0 <= i < 12 && 12 <= j < 19 ==> CROP_TYPE_RULES[i].0 != CROP_TYPE_RULES[j].0
  {
  }

  /** No key of the first twelve rules is among rules 19 to 24. */
  lemma EarlyRulesApartFromTail()
    ensures forall i, j :: 0 <= i < 12 && 19 <= j < 25 ==> CROP_TYPE_RULES[i].0 != CROP_TYPE_RULES[j].0
  {
  }

  /** The rules literal repeats no key, so the dict it evaluates to is the
      table as written. */
  lemma CropTypeRulesIsDict()
    ensures DictOf(CROP_TYPE_RULES) == CROP_TYPE_RULES
  {
    var early, late := CROP_TYPE_RULES[..12], CROP_TYPE_RULES[12..];
    EarlyRulesDistinct();
    LateRulesDistinct();
    EarlyRulesApartFromMiddle();
    EarlyRulesApartFromTail();
    assert forall i, j :: 0 <= i < |early| && 0 <= j < |late| ==> early[i].0 != late[j].0 by {
      forall i, j | 0 <= i < |early| && 0 <= j < |late|
        ensures early[i].0 != late[j].0
      {
        assert early[i] == CROP_TYPE_RULES[i] && late[j] == CROP_TYPE_RULES[12 + j];
      }
    }
    DistinctKeysAppend(early, late);
    assert early + late == CROP_TYPE_RULES;
    DictOfDistinct(CROP_TYPE_RULES);
  }

  const DEFAULT_TEMP: string := "Moderate (18–28 °C)"

  const DEFAULT_SOIL: string := "Well-drained loam, pH 6–7"

  const DEFAULT_TIPS: seq<string> := [
    "Use balanced fertilization based on soil tests.",
    "Ensure proper irrigation scheduling.",
    "Monitor pests and diseases regularly.",
    "Follow recommended spacing and planting guidelines."
  ]

  const DESCRIPTION_TAIL: string :=
    " is suitable for cultivation under recommended climate and soil conditions."

  /** `make_link(crop)` */
  function MakeLink(crop: string): (link: string)
    ensures forall i :: 0 <= i < |link| ==> link[i] != ' '
  {
    "https://www.google.com/search?q=" + QuotePlus(crop + " fertilizer guide")
  }

  /** Both generators build the same link for every crop. */
  lemma MakeLinkAgreesWithFirstGenerator(crop: string)
    ensures MakeLink(crop) == KnowledgeBase.MakeFertilizerLink(crop)
  {
  }

  /** `auto_description(crop)` */
  function AutoDescription(crop: string): (d: string)
    ensures |d| == |crop| + |DESCRIPTION_TAIL|
    ensures d[..|crop|] == Capitalize(crop) && d[|crop|..] == DESCRIPTION_TAIL
  {
    Capitalize(crop) + DESCRIPTION_TAIL
  }

  /** The description names the crop: only the case of its letters changes,
      the first letter is upper case and the rest lower case. */
  lemma AutoDescriptionNamesCrop(crop: string)
    requires |crop| > 0
    ensures var d := AutoDescription(crop);
      && Lower(d[..|crop|]) == Lower(crop)
      && (IsLower(crop[0]) || IsUpper(crop[0]) ==> IsUpper(d[0]))
      && IsLowerCase(d[1..|crop|])
  {
    var d := AutoDescription(crop);
    CapitalizeKeepsLetters(crop);
    assert d[1..|crop|] == Capitalize(crop)[1..] == Lower(crop[1..]);
    LowerIsLowerCase(crop[1..]);
  }

  /** `detect_conditions(crop_name)`: the (temperature, soil) pair of the
      first rule whose keyword occurs in the lower-cased name, else the
      defaults. */
  function DetectConditions(crop: string): (r: (string, string))
    ensures forall i :: IsFirstMatch(CROP_TYPE_RULES, Lower(crop), i) ==> r == CROP_TYPE_RULES[i].1
    ensures NoKeyOccurs(CROP_TYPE_RULES, Lower(crop)) ==> r == (DEFAULT_TEMP, DEFAULT_SOIL)
  {
    FirstMatchValue(CROP_TYPE_RULES, Lower(crop), (DEFAULT_TEMP, DEFAULT_SOIL))
  }

  /** The rule choice ignores case. */
  lemma DetectConditionsCaseInsensitive(crop: string)
    ensures DetectConditions(crop) == DetectConditions(Lower(crop))
  {
    LowerIdempotent(crop);
  }

  /** The knowledge-table entry written for one crop label. */
  function Entry(crop: string): CropDetail {
    var (temp, soil) := DetectConditions(crop);
    CropDetail(Some(crop), AutoDescription(crop), MakeLink(crop), DEFAULT_TIPS, Some(temp), Some(soil))
  }

  /** The output of `main`'s loop over the dataset's crop labels. */
  function BuildKnowledgeBase(crops: seq<string>): (t: KnowledgeTable)
    ensures t.Keys == set c | c in crops :: Lower(c)
  {
    BuildTable(crops, Entry)
  }

  /** The entry under a crop's key is built from the last label with that
      key: its name, four default tips, and the detected conditions. */
  lemma BuildKnowledgeBaseEntry(crops: seq<string>, i: int)
    requires 0 <= i < |crops| && LastWithKey(crops, i)
    ensures var e := BuildKnowledgeBase(crops)[Lower(crops[i])];
      && e.name == Some(crops[i])
      && e.desc == AutoDescription(crops[i])
      && e.fertilizerLink == MakeLink(crops[i])
      && e.tips == DEFAULT_TIPS && |e.tips| == 4
      && e.tempRange == Some(DetectConditions(crops[i]).0)
      && e.soilRequirements == Some(DetectConditions(crops[i]).1)
  {
    BuildTableLastWins(crops, Entry, i);
  }

  /** Every entry this script writes is enriched. */
  lemma EntryEnriched(crop: string)
    ensures KnowledgeBase.Enriched(Entry(crop))
  {
    MakeLinkAgreesWithFirstGenerator(crop);
  }

  /** Generator to server: with the table this script writes loaded at
      start-up, every label the classifier can return gets enriched
      details, whether its key was written or it falls back to `default`. */
  lemma LoadedKnowledgeBaseIsEnriched(crops: seq<string>, crop: string)
    ensures var r := Lookup(LoadTable(Some(BuildKnowledgeBase(crops))), crop);
      r.Some? && KnowledgeBase.Enriched(r.value)
  {
    var built := BuildKnowledgeBase(crops);
    var t := LoadTable(Some(built));
    var key := Lower(crop);
    if key in built {
      var c :| c in crops && Lower(c) == key && built[key] == Entry(c);
      EntryEnriched(c);
      assert t[key] == Entry(c);
    } else if DEFAULT_KEY in built {
      var c :| c in crops && Lower(c) == DEFAULT_KEY && built[DEFAULT_KEY] == Entry(c);
      EntryEnriched(c);
      assert t[DEFAULT_KEY] == Entry(c);
    } else {
      KnowledgeBase.DefaultDetailEnriched();
    }
  }
}
