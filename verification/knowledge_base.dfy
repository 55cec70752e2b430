/** The first knowledge-base generator (generate_crop_details.py): keyword
    templates, the fertilizer-guide link, template choice and the loop that
    turns the dataset's crop labels into knowledge-table entries. */
module KnowledgeBase {
  import opened Wrappers
  import opened Ascii
  import opened UrlEncoding
  import opened PyDict
  import opened CropDetails

  /** A description with its agronomic tips. */
  datatype Template = Template(desc: string, tips: seq<string>)

  const RICE_TEMPLATE: Template := Template(
    "Rice thrives in flooded or saturated soils with good nitrogen availability.",
    ["Maintain shallow flooding during early growth stages.",
     "Split nitrogen application: basal + top-dressing after tillering.",
     "Control weeds during the first 30 days for better yields.",
     "Monitor and manage pests and diseases in wet conditions."])

  const MAIZE_TEMPLATE: Template := Template(
    "Maize (corn) prefers well-drained soils and balanced NPK fertilization.",
    ["Use starter fertilizer at sowing and side-dress nitrogen during active growth.",
     "Plant at recommended spacing to improve airflow and reduce disease.",
     "Irrigate during tasseling and grain fill for best yields.",
     "Rotate with legumes to help maintain soil nitrogen."])

  const WHEAT_TEMPLATE: Template := Template(
    "Wheat grows best in well-drained loamy soils with moderate moisture.",
    ["Apply nitrogen in split doses: at sowing and during tillering.",
     "Sow at recommended seeding rates and depth for your region.",
     "Monitor for rusts and fungal diseases and treat promptly.",
     "Use crop rotation to reduce soil-borne disease pressure."])

  const SUGARCANE_TEMPLATE: Template := Template(
    "Sugarcane is a heavy feeder that needs regular nutrients and water.",
    ["Apply organic matter and balanced NPK; top-dress as crop grows.",
     "Ensure uniform irrigation and good drainage.",
     "Use disease-free setts at planting.",
     "Keep fields weed-free especially during the early months."])

  const COTTON_TEMPLATE: Template := Template(
    "Cotton prefers well-drained soils and benefits from balanced nutrients.",
    ["Ensure proper spacing and timely irrigation.",
     "Apply phosphorus at planting and side-dress nitrogen carefully.",
     "Scout regularly for bollworms and aphids.",
     "Use integrated pest management to reduce pesticide use."])

  const SOY_TEMPLATE: Template := Template(
    "Soybean (soy) fixes nitrogen and grows well in warm conditions.",
    ["Inoculate seed with rhizobia if soil lacks soybean history.",
     "Ensure even planting and maintain good soil moisture during flowering.",
     "Rotate with non-legume crops to break pest cycles.",
     "Apply potassium and phosphorus based on soil test."])

  const GROUNDNUT_TEMPLATE: Template := Template(
    "Groundnut (peanut) prefers sandy loam and warm conditions.",
    ["Avoid waterlogging; ensure good drainage.",
     "Apply calcium and potassium for pod development.",
     "Use proper row spacing and timely weeding.",
     "Harvest when pods reach maturity to avoid quality loss."])

  const POTATO_TEMPLATE: Template := Template(
    "Potato prefers cool climate and well-drained soils rich in organic matter.",
    ["Use certified seed tubers to avoid diseases.",
     "Maintain soil moisture especially during tuber formation.",
     "Hill up soil around stems to protect tubers.",
     "Apply balanced NPK with focus on potassium for tuber quality."])

  const TOMATO_TEMPLATE: Template := Template(
    "Tomato grows well in fertile, well-drained soil with regular watering.",
    ["Provide staking or cages to support plants and reduce disease.",
     "Regularly remove lower leaves and monitor for blight.",
     "Feed with balanced fertilizer and additional potassium during fruiting.",
     "Ensure consistent irrigation to avoid blossom end rot."])

  const ONION_TEMPLATE: Template := Template(
    "Onion prefers well-drained soil and consistent moisture early on.",
    ["Avoid overwatering as bulbs form to prevent rot.",
     "Apply nitrogen during early growth, reduce towards bulb formation.",
     "Use raised beds for better drainage.",
     "Harvest when tops begin to fall and cure bulbs properly."])

  const ORANGE_TEMPLATE: Template := Template(
    "Orange (citrus) needs well-drained soil and steady irrigation.",
    ["Mulch to conserve soil moisture and suppress weeds.",
     "Apply micronutrients (Zn, Mn) when deficiency appears.",
     "Use drip irrigation for consistent water supply.",
     "Thin fruits if trees are overloaded to improve size."])

  const BANANA_TEMPLATE: Template := Template(
    "Banana needs high humidity, rich soil and regular feeding.",
    ["Apply high potassium fertilizers during fruit development.",
     "Use mulch and maintain consistent soil moisture.",
     "Provide wind protection for bunches.",
     "Remove suckers to manage planting density."])

  const PAPAYA_TEMPLATE: Template := Template(
    "Papaya requires warm climate, well-drained soil and regular watering.",
    ["Protect young plants from strong winds.",
     "Feed regularly with balanced NPK during fruiting.",
     "Maintain even soil moisture to avoid fruit drop.",
     "Prune damaged or diseased branches promptly."])

  const BANANA_TEMPLATE_LATE: Template := Template(
    "Banana needs high humidity and rich soil.",
    ["Maintain high K levels for fruit quality.",
     "Ensure regular irrigation and mulching.",
     "Control nematodes and fungal diseases.",
     "Plant disease-free suckers."])

  const GRAPE_TEMPLATE: Template := Template(
    "Grapes prefer well-drained soils and sunshine for ripening.",
    ["Train vines for good airflow and sunlight penetration.",
     "Control fungal disease with timely sprays.",
     "Register pruning time to balance growth and fruiting.",
     "Monitor soil fertility and apply potassium for sugar accumulation."])

  const MANGO_TEMPLATE: Template := Template(
    "Mango prefers tropical/subtropical climate and deep well-drained soils.",
    ["Protect flowers from heavy rain and strong winds.",
     "Apply balanced fertilizer and micronutrients annually.",
     "Thin fruits if crop load is very heavy.",
     "Use mulch to conserve moisture in dry seasons."])

  const APPLE_TEMPLATE: Template := Template(
    "Apple grows best in temperate climates with chilling hours.",
    ["Ensure correct rootstock-scion compatibility.",
     "Prune annually to maintain shape and light penetration.",
     "Manage pests like codling moth and diseases like scab.",
     "Apply potassium during fruit enlargement."])

  const COCONUT_TEMPLATE: Template := Template(
    "Coconut thrives in coastal tropics with deep, well-drained soils.",
    ["Maintain regular irrigation in dry seasons.",
     "Apply balanced fertilization and mulch.",
     "Control pests like rhinoceros beetle and coconut mite.",
     "Intercrop with compatible short-duration crops."])

  const TEA_TEMPLATE: Template := Template(
    "Tea prefers acidic soils and high humidity, usually grown in hilly regions.",
    ["Maintain soil acidity (pH 4.5–5.5) for best growth.",
     "Regular pruning and plucking maintain yield.",
     "Use organic matter and mulching to protect roots.",
     "Control pests and diseases using integrated management."])

  const COFFEE_TEMPLATE: Template := Template(
    "Coffee prefers shaded, well-drained soils in tropical highlands.",
    ["Provide shade for young plants and maintain humidity.",
     "Apply fertilizer based on soil tests.",
     "Prune regularly to maintain production canopy.",
     "Monitor for coffee berry borer and other pests."])

  const SUNFLOWER_TEMPLATE: Template := Template(
    "Sunflower prefers full sun and well-drained soils.",
    ["Plant in full sunlight and good spacing.",
     "Manage weeds early to reduce competition.",
     "Ensure adequate phosphorus for root development.",
     "Harvest at the correct moisture level for seeds."])

  const MILLET_TEMPLATE: Template := Template(
    "Millets are hardy cereals suited to dry conditions and low fertility soils.",
    ["Use recommended spacing and timely weed control.",
     "Apply phosphorus at sowing for better establishment.",
     "Millets usually need less water—avoid over-irrigation.",
     "Rotate with legumes to improve soil fertility."])

  /** The `TEMPLATES` dict literal, pair by pair as written; "banana" is
      written twice. */
  const TEMPLATE_LITERAL: seq<(string, Template)> := [
    ("rice", RICE_TEMPLATE),
    ("maize", MAIZE_TEMPLATE),
    ("wheat", WHEAT_TEMPLATE),
    ("sugarcane", SUGARCANE_TEMPLATE),
    ("cotton", COTTON_TEMPLATE),
    ("soy", SOY_TEMPLATE),
    ("groundnut", GROUNDNUT_TEMPLATE),
    ("potato", POTATO_TEMPLATE),
    ("tomato", TOMATO_TEMPLATE),
    ("onion", ONION_TEMPLATE),
    ("orange", ORANGE_TEMPLATE),
    ("banana", BANANA_TEMPLATE),
    ("papaya", PAPAYA_TEMPLATE),
    ("banana", BANANA_TEMPLATE_LATE),
    ("grape", GRAPE_TEMPLATE),
    ("mango", MANGO_TEMPLATE),
    ("apple", APPLE_TEMPLATE),
    ("coconut", COCONUT_TEMPLATE),
    ("tea", TEA_TEMPLATE),
    ("coffee", COFFEE_TEMPLATE),
    ("sunflower", SUNFLOWER_TEMPLATE),
    ("millet", MILLET_TEMPLATE)
  ]

  /** Position of the second "banana" pair in the literal. */
  const LATE_BANANA: nat := 13

  /** The dict the literal evaluates to. */
  const TEMPLATES: Table<string, Template> := DictOf(TEMPLATE_LITERAL)

  const DEFAULT_TEMPLATE: Template := Template(
    "A recommended crop. Follow local extension service guidance for best practices.",
    ["Use balanced fertilization based on soil test results.",
     "Ensure proper irrigation scheduling appropriate to the crop.",
     "Monitor pests and diseases and act early.",
     "Follow local recommended spacing and planting dates."])

  /** The thirteen pairs up to the first "banana" and "papaya" repeat no key. */
  lemma EarlyKeysDistinct()
    ensures DistinctKeys(TEMPLATE_LITERAL[..13])
  {
  }

  /** The pairs after the second "banana" repeat no key, and none of their
      keys appears earlier. */
  lemma LateKeysFresh()
    ensures DistinctKeys(TEMPLATE_LITERAL[14..])
    ensures forall i, j :: 0 <= i < 13 && 0 <= j < |TEMPLATE_LITERAL[14..]| ==>
      TEMPLATE_LITERAL[i].0 != TEMPLATE_LITERAL[14..][j].0
  {
  }

  /** Up to and including the second "banana", the literal evaluates to the
      first thirteen pairs with the second "banana" value at position 11. */
  lemma EarlyTemplates()
    ensures DictOf(TEMPLATE_LITERAL[..14]) == TEMPLATE_LITERAL[..13][11 := TEMPLATE_LITERAL[LATE_BANANA]]
  {
    var early := TEMPLATE_LITERAL[..13];
    EarlyKeysDistinct();
    DictOfDistinct(early);
    assert TEMPLATE_LITERAL[..14][..13] == early;
    assert IndexOf(early, "banana") == Some(11);
  }

  /** The evaluated `TEMPLATES`: 21 keys, and the second "banana" value
      sits at the position of the first "banana" key. */
  lemma TemplatesShape()
    ensures TEMPLATES == TEMPLATE_LITERAL[..11] + [TEMPLATE_LITERAL[LATE_BANANA], TEMPLATE_LITERAL[12]]
                         + TEMPLATE_LITERAL[14..]
  {
    var withBanana := TEMPLATE_LITERAL[..14];
    var rest := TEMPLATE_LITERAL[14..];
    EarlyTemplates();
    LateKeysFresh();
    var t := TEMPLATE_LITERAL[..13][11 := TEMPLATE_LITERAL[LATE_BANANA]];
    assert forall i :: 0 <= i < |t| ==> t[i].0 == TEMPLATE_LITERAL[i].0;
    DictOfExtend(withBanana, rest);
    assert withBanana + rest == TEMPLATE_LITERAL;
  }

  /** Every template, and the default, carries exactly four tips. */
  lemma TemplatesHaveFourTips()
    ensures forall i :: 0 <= i < |TEMPLATES| ==> |TEMPLATES[i].1.tips| == 4
    ensures |DEFAULT_TEMPLATE.tips| == 4
  {
    DictOfLastValueWins(TEMPLATE_LITERAL);
    forall i | 0 <= i < |TEMPLATES|
      ensures |TEMPLATES[i].1.tips| == 4
    {
      assert FromLastPair(TEMPLATE_LITERAL, TEMPLATES[i]);
    }
  }

  /** Every template, and the default, has a non-empty description. */
  lemma TemplateDescsNonEmpty()
    ensures forall i :: 0 <= i < |TEMPLATES| ==> |TEMPLATES[i].1.desc| > 0
    ensures |DEFAULT_TEMPLATE.desc| > 0
  {
    DictOfLastValueWins(TEMPLATE_LITERAL);
    forall i | 0 <= i < |TEMPLATES|
      ensures |TEMPLATES[i].1.desc| > 0
    {
      assert FromLastPair(TEMPLATE_LITERAL, TEMPLATES[i]);
    }
  }

  const LINK_PREFIX: string := "https://www.google.com/search?q="

  /** What the server promises of the details it returns: a description, at
      least one tip, and a link to a web search. */
  predicate Enriched(d: CropDetail) {
    && |d.desc| > 0
    && |d.tips| >= 1
    && |LINK_PREFIX| <= |d.fertilizerLink| && d.fertilizerLink[..|LINK_PREFIX|] == LINK_PREFIX
  }

  /** The server's built-in `default` entry is enriched. */
  lemma DefaultDetailEnriched()
    ensures Enriched(DEFAULT_DETAIL)
  {
  }

  const LINK_QUERY_SUFFIX: string := " fertilizer guide"

  /** `make_fertilizer_link(crop_name)` */
  function MakeFertilizerLink(crop: string): (link: string)
    ensures |LINK_PREFIX| <= |link| && link[..|LINK_PREFIX|] == LINK_PREFIX
    ensures forall i :: 0 <= i < |link| ==> link[i] != ' '
  {
    LINK_PREFIX + QuotePlus(crop + LINK_QUERY_SUFFIX)
  }

  /** The query of the link decodes to the UTF-8 bytes of
      `crop + " fertilizer guide"`. */
  lemma FertilizerLinkDecodes(crop: string)
    ensures UnquotePlus(MakeFertilizerLink(crop)[|LINK_PREFIX|..]) == Some(Utf8(crop + LINK_QUERY_SUFFIX))
  {
    assert MakeFertilizerLink(crop)[|LINK_PREFIX|..] == QuotePlus(crop + LINK_QUERY_SUFFIX);
    QuotePlusRoundTrip(crop + LINK_QUERY_SUFFIX);
  }

  /** Nothing of the crop name is lost: different names get different
      links. */
  lemma FertilizerLinkInjective(a: string, b: string)
    requires MakeFertilizerLink(a) == MakeFertilizerLink(b)
    ensures a == b
  {
    FertilizerLinkDecodes(a);
    FertilizerLinkDecodes(b);
    Utf8Injective(a + LINK_QUERY_SUFFIX, b + LINK_QUERY_SUFFIX);
    assert a == (a + LINK_QUERY_SUFFIX)[..|a|];
    assert b == (b + LINK_QUERY_SUFFIX)[..|b|];
  }

  /** A name of letters and digits followed by two space-separated words
      encodes with `+` for each space. */
  lemma QuoteNameAndWords(c: string, a: string, b: string)
    requires forall i :: 0 <= i < |c| ==> IsAlnum(c[i])
    requires forall i :: 0 <= i < |a| ==> IsAlnum(a[i])
    requires forall i :: 0 <= i < |b| ==> IsAlnum(b[i])
    ensures QuotePlus(c + (" " + a + " " + b)) == c + ("+" + a + "+" + b)
  {
    QuotePlusSpace();
    QuotePlusAlnum(c);
    QuotePlusAlnum(a);
    QuotePlusAlnum(b);
    QuotePlusAppend(" ", a);
    QuotePlusAppend(" " + a, " ");
    QuotePlusAppend(" " + a + " ", b);
    QuotePlusAppend(c, " " + a + " " + b);
  }

  /** For a name of ASCII letters and digits the link is the name verbatim
      followed by the encoded suffix. */
  lemma FertilizerLinkAlnum(crop: string)
    requires forall i :: 0 <= i < |crop| ==> IsAlnum(crop[i])
    ensures MakeFertilizerLink(crop) == LINK_PREFIX + crop + "+fertilizer+guide"
  {
    var a, b := "fertilizer", "guide";
    assert LINK_QUERY_SUFFIX == " " + a + " " + b;
    assert "+fertilizer+guide" == "+" + a + "+" + b;
    QuoteNameAndWords(crop, a, b);
  }

  /** `choose_template_for(crop_name)`: the template of the first key that
      occurs in the lower-cased name, else the default template. */
  function ChooseTemplate(crop: string): (r: Template)
    ensures |r.tips| == 4 && |r.desc| > 0
    ensures forall i :: IsFirstMatch(TEMPLATES, Lower(crop), i) ==> r == TEMPLATES[i].1
    ensures NoKeyOccurs(TEMPLATES, Lower(crop)) ==> r == DEFAULT_TEMPLATE
  {
    TemplatesHaveFourTips();
    TemplateDescsNonEmpty();
    FirstMatchValue(TEMPLATES, Lower(crop), DEFAULT_TEMPLATE)
  }

  /** The choice ignores case. */
  lemma ChooseTemplateCaseInsensitive(crop: string)
    ensures ChooseTemplate(crop) == ChooseTemplate(Lower(crop))
  {
    LowerIdempotent(crop);
  }

  /** None of the eleven keys before "banana" occurs in "banana": each
      starts with a letter that "banana" does not contain. */
  lemma NoEarlierKeyInBanana(j: int)
    requires 0 <= j < 11
    ensures !Contains("banana", TEMPLATE_LITERAL[j].0)
  {
    var keys := ["rice", "maize", "wheat", "sugarcane", "cotton", "soy",
                 "groundnut", "potato", "tomato", "onion", "orange"];
    var key := TEMPLATE_LITERAL[j].0;
    assert key == keys[j];
    assert |key| > 0 && key[0] != 'b' && key[0] != 'a' && key[0] != 'n';
    NotContainsFirstChar("banana", key);
  }

  /** A banana crop gets the value of the second "banana" pair. */
  lemma ChooseTemplateBanana(crop: string)
    requires Lower(crop) == "banana"
    ensures ChooseTemplate(crop) == TEMPLATE_LITERAL[LATE_BANANA].1
    ensures ChooseTemplate(crop).desc == "Banana needs high humidity and rich soil."
  {
    TemplatesShape();
    var lower := Lower(crop);
    assert IsSubstring("banana", lower) by { assert OccursAt("banana", lower, 0); }
    forall j | 0 <= j < 11
      ensures !IsSubstring(TEMPLATES[j].0, lower)
    {
      assert TEMPLATES[j] == TEMPLATE_LITERAL[j];
      ContainsIsSubstring(lower, TEMPLATES[j].0);
      NoEarlierKeyInBanana(j);
    }
    assert IsFirstMatch(TEMPLATES, lower, 11);
  }

  /** The knowledge-table entry written for one crop label. */
  function Entry(crop: string): CropDetail {
    var tpl := ChooseTemplate(crop);
    CropDetail(Some(crop), tpl.desc, MakeFertilizerLink(crop), tpl.tips, None, None)
  }

  /** The output of `main`'s loop over the dataset's crop labels. */
  function BuildKnowledgeBase(crops: seq<string>): (t: KnowledgeTable)
    ensures t.Keys == set c | c in crops :: Lower(c)
  {
    BuildTable(crops, Entry)
  }

  /** Every entry written carries four tips and a fertilizer-guide link. */
  lemma BuildKnowledgeBaseEntriesComplete(crops: seq<string>)
    ensures forall k :: k in BuildKnowledgeBase(crops) ==>
      var e := BuildKnowledgeBase(crops)[k];
      |e.tips| == 4 && |LINK_PREFIX| <= |e.fertilizerLink| && e.fertilizerLink[..|LINK_PREFIX|] == LINK_PREFIX
  {
    var t := BuildKnowledgeBase(crops);
    forall k | k in t
      ensures |t[k].tips| == 4 && |LINK_PREFIX| <= |t[k].fertilizerLink|
      ensures t[k].fertilizerLink[..|LINK_PREFIX|] == LINK_PREFIX
    {
      var c :| c in crops && Lower(c) == k && t[k] == Entry(c);
      var tpl := ChooseTemplate(c);
      var link := MakeFertilizerLink(c);
      assert t[k] == CropDetail(Some(c), tpl.desc, link, tpl.tips, None, None);
    }
  }

  /** The entry under a crop's key is built from the last label with that
      key: its name, the chosen template, the fertilizer link. */
  lemma BuildKnowledgeBaseEntry(crops: seq<string>, i: int)
    requires 0 <= i < |crops| && LastWithKey(crops, i)
    ensures var e := BuildKnowledgeBase(crops)[Lower(crops[i])];
      && e.name == Some(crops[i])
      && e.desc == ChooseTemplate(crops[i]).desc
      && e.tips == ChooseTemplate(crops[i]).tips
      && e.fertilizerLink == MakeFertilizerLink(crops[i])
  {
    BuildTableLastWins(crops, Entry, i);
  }

  /** Generator to server: with the table this script writes loaded at
      start-up, every label the classifier can return gets enriched
      details, whether its key was written or it falls back to `default`. */
  lemma LoadedKnowledgeBaseIsEnriched(crops: seq<string>, crop: string)
    ensures var r := Lookup(LoadTable(Some(BuildKnowledgeBase(crops))), crop);
      r.Some? && Enriched(r.value)
  {
  }
}
