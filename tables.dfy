/** The three constant vocabularies of the card normalizer, each a list of
    (canonical name, variants) pairs in declaration order
    (normalizer.py:63-197). */
module Tables {

  type Table = seq<(string, seq<string>)>

  /** A canonical name can stand as a segment of a canonical key: it is not
      empty and holds no `|`. */
  predicate SegmentSafe(s: string) {
    s != [] && '|' !in s
  }

  predicate NamesSegmentSafe(t: Table) {
    forall a :: 0 <= a < |t| ==> SegmentSafe(t[a].0)
  }

  lemma NamesSegmentSafeAppend(t: Table, u: Table)
    requires NamesSegmentSafe(t) && NamesSegmentSafe(u)
    ensures NamesSegmentSafe(t + u)
  {
    forall a | 0 <= a < |t + u| ensures SegmentSafe((t + u)[a].0) {
      if a >= |t| { assert (t + u)[a] == u[a - |t|]; }
    }
  }

  /** Known card sets (normalizer.py:63-176), listed series by series. */
  const PokemonSets: Table :=
    WizardsSets + ExSets + DiamondPearlSets + HeartGoldSets + BlackWhiteSets
    + XYSets + SunMoonSets + SwordShieldSets + ScarletVioletSets

  const WizardsSets: Table := [
    ("base set", ["base", "base set", "base set unlimited"]),
    ("base set 1st edition", ["base set 1st edition", "1st edition base set", "base 1st"]),
    ("jungle", ["jungle", "jungle unlimited"]),
    ("fossil", ["fossil", "fossil unlimited"]),
    ("team rocket", ["team rocket", "team rocket unlimited"]),
    ("gym heroes", ["gym heroes", "gym heroes unlimited"]),
    ("gym challenge", ["gym challenge", "gym challenge unlimited"]),
    ("neo genesis", ["neo genesis", "neo genesis unlimited"]),
    ("neo discovery", ["neo discovery", "neo discovery unlimited"]),
    ("neo revelation", ["neo revelation", "neo revelation unlimited"]),
    ("neo destiny", ["neo destiny", "neo destiny unlimited"]),
    ("legendary collection", ["legendary collection", "lc"]),
    ("expedition base set", ["expedition base set", "expedition"]),
    ("aquapolis", ["aquapolis"]),
    ("skyridge", ["skyridge"])
  ]

  const ExSets: Table := [
    ("ex ruby & sapphire", ["ex ruby & sapphire", "ex ruby and sapphire", "ex rs"]),
    ("ex sandstorm", ["ex sandstorm"]),
    ("ex dragon", ["ex dragon"]),
    ("ex team magma vs team aqua", ["ex team magma vs team aqua", "ex tmta"]),
    ("ex hidden legends", ["ex hidden legends"]),
    ("ex fire red & leaf green", ["ex fire red & leaf green", "ex frlg"]),
    ("ex team rocket returns", ["ex team rocket returns", "ex trr"]),
    ("ex deoxys", ["ex deoxys"]),
    ("ex emerald", ["ex emerald"]),
    ("ex unseen forces", ["ex unseen forces"]),
    ("ex delta species", ["ex delta species"]),
    ("ex legend maker", ["ex legend maker"]),
    ("ex holon phantoms", ["ex holon phantoms"]),
    ("ex crystal guardians", ["ex crystal guardians"]),
    ("ex dragon frontiers", ["ex dragon frontiers"]),
    ("ex power keepers", ["ex power keepers"])
  ]

  const DiamondPearlSets: Table := [
    ("diamond & pearl", ["diamond & pearl", "diamond and pearl", "dp"]),
    ("mysterious treasures", ["mysterious treasures"]),
    ("secret wonders", ["secret wonders"]),
    ("great encounters", ["great encounters"]),
    ("majestic dawn", ["majestic dawn"]),
    ("legends awakened", ["legends awakened"]),
    ("stormfront", ["stormfront"]),
    ("platinum", ["platinum"]),
    ("rising rivals", ["rising rivals"]),
    ("supreme victors", ["supreme victors"]),
    ("arceus", ["arceus"])
  ]

  const HeartGoldSets: Table := [
    ("heartgold & soulsilver", ["heartgold & soulsilver", "hgss"]),
    ("unleashed", ["unleashed"]),
    ("undaunted", ["undaunted"]),
    ("triumphant", ["triumphant"]),
    ("call of legends", ["call of legends"])
  ]

  const BlackWhiteSets: Table := [
    ("black & white", ["black & white", "bw"]),
    ("emerging powers", ["emerging powers"]),
    ("noble victories", ["noble victories"]),
    ("next destinies", ["next destinies"]),
    ("dark explorers", ["dark explorers"]),
    ("dragons exalted", ["dragons exalted"]),
    ("boundaries crossed", ["boundaries crossed"]),
    ("plasma storm", ["plasma storm"]),
    ("plasma freeze", ["plasma freeze"]),
    ("plasma blast", ["plasma blast"]),
    ("legendary treasures", ["legendary treasures"])
  ]

  const XYSets: Table := [
    ("xy", ["xy"]),
    ("flashfire", ["flashfire"]),
    ("furious fists", ["furious fists"]),
    ("phantom forces", ["phantom forces"]),
    ("primal clash", ["primal clash"]),
    ("roaring skies", ["roaring skies"]),
    ("ancient origins", ["ancient origins"]),
    ("breakthrough", ["breakthrough"]),
    ("breakpoint", ["breakpoint"]),
    ("generations", ["generations"]),
    ("fates collide", ["fates collide"]),
    ("steam siege", ["steam siege"]),
    ("evolutions", ["evolutions"])
  ]

  const SunMoonSets: Table := [
    ("sun & moon", ["sun & moon", "sm"]),
    ("guardians rising", ["guardians rising"]),
    ("burning shadows", ["burning shadows"]),
    ("shining legends", ["shining legends"]),
    ("crimson invasion", ["crimson invasion"]),
    ("ultra prism", ["ultra prism"]),
    ("forbidden light", ["forbidden light"]),
    ("celestial storm", ["celestial storm"]),
    ("dragon majesty", ["dragon majesty"]),
    ("lost thunder", ["lost thunder"]),
    ("team up", ["team up"]),
    ("detective pikachu", ["detective pikachu"]),
    ("unbroken bonds", ["unbroken bonds"]),
    ("unified minds", ["unified minds"]),
    ("hidden fates", ["hidden fates"]),
    ("cosmic eclipse", ["cosmic eclipse"])
  ]

  const SwordShieldSets: Table := [
    ("sword & shield", ["sword & shield", "ss"]),
    ("rebel clash", ["rebel clash"]),
    ("darkness ablaze", ["darkness ablaze"]),
    ("champions path", ["champions path"]),
    ("vivid voltage", ["vivid voltage"]),
    ("shining fates", ["shining fates"]),
    ("battle styles", ["battle styles"]),
    ("chilling reign", ["chilling reign"]),
    ("evolving skies", ["evolving skies"]),
    ("celebrations", ["celebrations"]),
    ("fusion strike", ["fusion strike"]),
    ("brilliant stars", ["brilliant stars"]),
    ("astral radiance", ["astral radiance"]),
    ("lost origin", ["lost origin"]),
    ("silver tempest", ["silver tempest"]),
    ("crown zenith", ["crown zenith"])
  ]

  const ScarletVioletSets: Table := [
    ("scarlet & violet", ["scarlet & violet", "sv"]),
    ("paldea evolved", ["paldea evolved"]),
    ("obsidian flames", ["obsidian flames"]),
    ("151", ["151"]),
    ("paradigm rift", ["paradigm rift"]),
    ("temporal forces", ["temporal forces"]),
    ("twilight masquerade", ["twilight masquerade"]),
    ("ancient roar", ["ancient roar"]),
    ("future flash", ["future flash"])
  ]

  /** Grading companies (normalizer.py:179-187). */
  const GradingCompanies: Table := [
    ("psa", ["psa", "professional sports authenticator"]),
    ("bgs", ["bgs", "beckett grading services", "beckett"]),
    ("cgc", ["cgc", "certified guarantee company"]),
    ("sgc", ["sgc", "sportscard guarantee"]),
    ("hga", ["hga", "hybrid grading approach"]),
    ("ace", ["ace", "ace grading"]),
    ("gma", ["gma", "gem mint authentication"])
  ]

  /** Editions and print variants (normalizer.py:190-197); "holographic" is
      listed twice under "holo", as in the source. */
  const Editions: Table := [
    ("1st edition", ["1st edition", "1st ed", "first edition", "first ed"]),
    ("unlimited", ["unlimited", "unl", "unltd"]),
    ("shadowless", ["shadowless", "shadow less"]),
    ("reverse holo", ["reverse holo", "reverse holographic", "rev holo"]),
    ("holo", ["holo", "holographic", "holographic"]),
    ("non-holo", ["non-holo", "non holo", "non-holographic"])
  ]

  // One check per constant, so that each stays small.
  lemma WizardsSetsSafe() ensures NamesSegmentSafe(WizardsSets) {}
  lemma ExSetsSafe() ensures NamesSegmentSafe(ExSets) {}
  lemma DiamondPearlSetsSafe() ensures NamesSegmentSafe(DiamondPearlSets) {}
  lemma HeartGoldSetsSafe() ensures NamesSegmentSafe(HeartGoldSets) {}
  lemma BlackWhiteSetsSafe() ensures NamesSegmentSafe(BlackWhiteSets) {}
  lemma XYSetsSafe() ensures NamesSegmentSafe(XYSets) {}
  lemma SunMoonSetsSafe() ensures NamesSegmentSafe(SunMoonSets) {}
  lemma SwordShieldSetsSafe() ensures NamesSegmentSafe(SwordShieldSets) {}
  lemma ScarletVioletSetsSafe() ensures NamesSegmentSafe(ScarletVioletSets) {}
  lemma GradingCompaniesSafe() ensures NamesSegmentSafe(GradingCompanies) {}
  lemma EditionsSafe() ensures NamesSegmentSafe(Editions) {}

  /** Every canonical name of the three tables is a safe key segment. */
  lemma TablesSegmentSafe()
    ensures NamesSegmentSafe(PokemonSets)
    ensures NamesSegmentSafe(GradingCompanies)
    ensures NamesSegmentSafe(Editions)
  {
    WizardsSetsSafe();
    ExSetsSafe();
    DiamondPearlSetsSafe();
    HeartGoldSetsSafe();
    BlackWhiteSetsSafe();
    XYSetsSafe();
    SunMoonSetsSafe();
    SwordShieldSetsSafe();
    ScarletVioletSetsSafe();
    GradingCompaniesSafe();
    EditionsSafe();
    NamesSegmentSafeAppend(WizardsSets, ExSets);
    NamesSegmentSafeAppend(WizardsSets + ExSets, DiamondPearlSets);
    NamesSegmentSafeAppend(WizardsSets + ExSets + DiamondPearlSets, HeartGoldSets);
    NamesSegmentSafeAppend(WizardsSets + ExSets + DiamondPearlSets + HeartGoldSets, BlackWhiteSets);
    NamesSegmentSafeAppend(WizardsSets + ExSets + DiamondPearlSets + HeartGoldSets + BlackWhiteSets, XYSets);
    NamesSegmentSafeAppend(WizardsSets + ExSets + DiamondPearlSets + HeartGoldSets + BlackWhiteSets + XYSets, SunMoonSets);
    NamesSegmentSafeAppend(WizardsSets + ExSets + DiamondPearlSets + HeartGoldSets + BlackWhiteSets + XYSets + SunMoonSets, SwordShieldSets);
    NamesSegmentSafeAppend(WizardsSets + ExSets + DiamondPearlSets + HeartGoldSets + BlackWhiteSets + XYSets + SunMoonSets + SwordShieldSets, ScarletVioletSets);
  }
}
