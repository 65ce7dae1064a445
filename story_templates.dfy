/** The template catalog: fixed phrases per genre and per theme that the
    prompt builder interpolates. */
module StoryTemplates {

  datatype GenreProfile = GenreProfile(elements: seq<string>, conflicts: seq<string>, moods: seq<string>)

  datatype ThemeProfile = ThemeProfile(elements: seq<string>)

  /** A catalog of genres and themes, keyed by name. */
  datatype Catalog = Catalog(genres: map<string, GenreProfile>, themes: map<string, ThemeProfile>)

  const Genres: map<string, GenreProfile> := map[
    "Fantasy" := GenreProfile(
      ["ancient magic", "mystical creatures", "enchanted forests", "powerful artifacts"],
      ["a dark sorcerer", "an ancient curse", "forbidden magic"],
      ["mysterious", "magical", "wondrous"]),
    "Sci-Fi" := GenreProfile(
      ["advanced technology", "alien civilizations", "space exploration", "AI systems"],
      ["rogue AI", "alien invasion", "temporal paradox"],
      ["futuristic", "technological", "cosmic"]),
    "Mystery" := GenreProfile(
      ["hidden clues", "secret passages", "suspicious characters", "red herrings"],
      ["murder mystery", "missing artifact", "conspiracy"],
      ["suspicious", "intriguing", "tense"]),
    "Adventure" := GenreProfile(
      ["uncharted territories", "ancient ruins", "treasure", "dangerous journeys"],
      ["treacherous terrain", "rival explorers", "natural disasters"],
      ["exciting", "thrilling", "daring"]),
    "Horror" := GenreProfile(
      ["eerie atmosphere", "supernatural forces", "psychological terror", "darkness"],
      ["malevolent entity", "cursed location", "unexplained phenomena"],
      ["terrifying", "ominous", "chilling"]),
    "Romance" := GenreProfile(
      ["emotional connections", "heartfelt moments", "relationship development"],
      ["misunderstandings", "obstacles to love", "personal growth"],
      ["passionate", "tender", "emotional"]),
    "Thriller" := GenreProfile(
      ["suspense", "danger", "conspiracies", "high stakes"],
      ["deadly pursuit", "time pressure", "betrayal"],
      ["intense", "gripping", "nerve-wracking"])
  ]

  const Themes: map<string, ThemeProfile> := map[
    "Adventure" := ThemeProfile(["courage", "exploration", "discovery", "perseverance"]),
    "Redemption" := ThemeProfile(["second chances", "forgiveness", "transformation", "atonement"]),
    "Coming of Age" := ThemeProfile(["self-discovery", "growth", "independence", "maturity"]),
    "Good vs Evil" := ThemeProfile(["moral choices", "heroism", "sacrifice", "justice"]),
    "Survival" := ThemeProfile(["resilience", "adaptation", "resourcefulness", "determination"]),
    "Love" := ThemeProfile(["connection", "devotion", "vulnerability", "passion"]),
    "Identity" := ThemeProfile(["self-reflection", "belonging", "purpose", "authenticity"]),
    "Power" := ThemeProfile(["ambition", "corruption", "responsibility", "control"])
  ]

  /** The catalog the application ships with. */
  const Shipped: Catalog := Catalog(Genres, Themes)

  /** `GENRES.get(name, {}).get('elements', [])`: an unknown genre has no
      elements rather than being an error. */
  function GenreElements(cat: Catalog, name: string): seq<string> {
    if name in cat.genres then cat.genres[name].elements else []
  }

  /** `THEMES.get(name, {}).get('elements', [])`, lenient in the same way. */
  function ThemeElements(cat: Catalog, name: string): seq<string> {
    if name in cat.themes then cat.themes[name].elements else []
  }

  predicate NoEmptyPhrase(phrases: seq<string>) {
    forall i :: 0 <= i < |phrases| ==> phrases[i] != ""
  }

  /** A genre record with phrases on every axis, none of them empty. */
  predicate WellFormedGenre(g: GenreProfile) {
    && g.elements != [] && g.conflicts != [] && g.moods != []
    && NoEmptyPhrase(g.elements) && NoEmptyPhrase(g.conflicts) && NoEmptyPhrase(g.moods)
  }

  /** The shipped genres are exactly these seven. */
  lemma ShippedGenreNames()
    ensures Shipped.genres.Keys ==
      {"Fantasy", "Sci-Fi", "Mystery", "Adventure", "Horror", "Romance", "Thriller"}
  {
  }

  /** Every shipped genre has phrases on every axis, none of them empty. */
  lemma ShippedGenresWellFormed()
    ensures forall name :: name in Shipped.genres ==> WellFormedGenre(Shipped.genres[name])
  {
  }

  /** The shipped themes are exactly these eight. */
  lemma ShippedThemeNames()
    ensures Shipped.themes.Keys ==
      {"Adventure", "Redemption", "Coming of Age", "Good vs Evil", "Survival", "Love", "Identity", "Power"}
  {
  }

  /** Every shipped theme has four non-empty phrases. */
  lemma ShippedThemesWellFormed()
    ensures forall name :: name in Shipped.themes ==>
      |Shipped.themes[name].elements| == 4 && NoEmptyPhrase(Shipped.themes[name].elements)
  {
  }
}
