/**
 * `generateSingleFallback` (app/actions.ts): the nine canned recommendations,
 * the table `singleRecommendations` that holds them by category and sub-genre
 * key, the keyword routing that picks the key from the lower-cased input, and
 * the selector that puts the three together.
 */
module Fallback {
  import opened Wrappers
  import opened Text

  /** RecommendationData: four required fields and three optional ones. */
  datatype Recommendation = Recommendation(
    title: string,
    genre: string,
    description: string,
    rating: string,
    year: Option<string>,
    platform: Option<string>,
    poster: Option<string>)

  /** What `streamRecommendations` throws: the selector's TypeError and, in
      the Stream module, the missing-key error raised before any request. */
  datatype Error =
    | ConfigurationError  // no API key in the environment
    | TypeError           // a property read on `undefined`

  // ---------------------------------------------------------------------------
  // The nine fallback literals
  // ---------------------------------------------------------------------------

  /** The address every fallback poster starts with; the records add `&text=`
      and the title. */
  const PosterBase: string := "/placeholder.svg?" + "height=400&width=300"

  const DemonSlayer: Recommendation := Recommendation(
    title := "Demon Slayer: Kimetsu " + "no Yaiba",
    genre := "Action, Supernatural, " + "Historical",
    year := Some("2019"),
    platform := None,
    rating := "9/10",
    description :=
      "A visually stunning "
      + "anime with "
      + "breathtaking "
      + "animation and "
      + "compelling "
      + "characters. Follows "
      + "Tanjiro's journey to "
      + "save his demon-turned "
      + "sister while fighting "
      + "other demons. The "
      + "fight scenes are "
      + "absolutely incredible "
      + "and the emotional "
      + "depth makes every "
      + "battle meaningful. "
      + "Perfect for fans of "
      + "action-packed stories "
      + "with heart.",
    poster := Some(PosterBase + "&text=Demon+Slayer+" + "Poster"))

  const YourName: Recommendation := Recommendation(
    title := "Your Name",
    genre := "Romance, " + "Supernatural, Drama",
    year := Some("2016"),
    platform := None,
    rating := "9/10",
    description :=
      "A beautiful and "
      + "emotionally powerful "
      + "film about two "
      + "teenagers who "
      + "mysteriously swap "
      + "bodies. The animation "
      + "is gorgeous and the "
      + "story is deeply "
      + "moving, exploring "
      + "themes of connection, "
      + "fate, and love across "
      + "time and space. This "
      + "masterpiece will "
      + "leave you emotionally "
      + "invested and thinking "
      + "about it long after "
      + "the credits roll.",
    poster := Some(PosterBase + "&text=Your+Name+Poster"))

  const AttackOnTitan: Recommendation := Recommendation(
    title := "Attack on Titan",
    genre := "Action, Drama, Dark " + "Fantasy",
    year := Some("2013"),
    platform := None,
    rating := "9.5/10",
    description :=
      "A gripping and "
      + "intense series that "
      + "keeps you on the edge "
      + "of your seat. The "
      + "story evolves "
      + "dramatically with "
      + "each season, "
      + "featuring complex "
      + "characters and "
      + "shocking plot twists "
      + "that will leave you "
      + "questioning "
      + "everything. Known for "
      + "its mature themes, "
      + "incredible "
      + "world-building, and "
      + "one of the most "
      + "satisfying "
      + "conclusions in anime "
      + "history.",
    poster := Some(PosterBase + "&text=Attack+on+Titan+" + "Poster"))

  const EverythingEverywhere: Recommendation := Recommendation(
    title := "Everything Everywhere " + "All at Once",
    genre := "Sci-Fi, Comedy, Drama",
    year := Some("2022"),
    platform := None,
    rating := "9.5/10",
    description :=
      "A mind-bending "
      + "multiverse adventure "
      + "that perfectly "
      + "balances absurd humor "
      + "with genuine emotion. "
      + "It's creative, "
      + "heartfelt, and "
      + "visually spectacular, "
      + "exploring themes of "
      + "family, identity, and "
      + "infinite "
      + "possibilities. This "
      + "film manages to be "
      + "both the most "
      + "ridiculous and most "
      + "touching movie you'll "
      + "ever see, with "
      + "incredible "
      + "performances and "
      + "groundbreaking visual "
      + "effects.",
    poster := Some(PosterBase + "&text=Everything+" + "Everywhere+All+at+" + "Once+Poster"))

  const Parasite: Recommendation := Recommendation(
    title := "Parasite",
    genre := "Thriller, Drama, Dark " + "Comedy",
    year := Some("2019"),
    platform := None,
    rating := "9.5/10",
    description :=
      "A masterful social "
      + "thriller that "
      + "examines class "
      + "inequality with sharp "
      + "wit and unexpected "
      + "turns. Bong Joon-ho's "
      + "direction is "
      + "flawless, creating a "
      + "film that's both "
      + "entertaining and "
      + "deeply "
      + "thought-provoking. "
      + "The movie builds "
      + "tension masterfully "
      + "while delivering "
      + "biting social "
      + "commentary, making it "
      + "both a thrilling "
      + "watch and an "
      + "important cultural "
      + "statement.",
    poster := Some(PosterBase + "&text=Parasite+Poster"))

  const Inception: Recommendation := Recommendation(
    title := "Inception",
    genre := "Sci-Fi, Action, " + "Thriller",
    year := Some("2010"),
    platform := None,
    rating := "9/10",
    description :=
      "Christopher Nolan's "
      + "complex and visually "
      + "stunning exploration "
      + "of dreams within "
      + "dreams. The action "
      + "sequences and concept "
      + "are equally "
      + "impressive, creating "
      + "a unique cinematic "
      + "experience that "
      + "rewards multiple "
      + "viewings. With its "
      + "intricate plot, "
      + "stunning practical "
      + "effects, and Hans "
      + "Zimmer's iconic "
      + "score, this film "
      + "redefined what "
      + "blockbuster cinema "
      + "could achieve.",
    poster := Some(PosterBase + "&text=Inception+Poster"))

  const CrashLandingOnYou: Recommendation := Recommendation(
    title := "Crash Landing on You",
    genre := "Romance, Drama, Comedy",
    year := Some("2019"),
    platform := Some("Netflix"),
    rating := "9.5/10",
    description :=
      "One of the best "
      + "K-dramas ever made, "
      + "telling the unlikely "
      + "love story between a "
      + "South Korean heiress "
      + "and North Korean "
      + "officer. Perfect mix "
      + "of romance, comedy, "
      + "and cultural "
      + "exploration with "
      + "outstanding "
      + "performances. The "
      + "show beautifully "
      + "balances humor and "
      + "heart while providing "
      + "insight into Korean "
      + "culture and the "
      + "divide between North "
      + "and South Korea.",
    poster := Some(PosterBase + "&text=Crash+Landing+" + "on+You+Poster"))

  const StrangerThings: Recommendation := Recommendation(
    title := "Stranger Things",
    genre := "Sci-Fi, Horror, Drama",
    year := Some("2016"),
    platform := Some("Netflix"),
    rating := "9/10",
    description :=
      "A perfect blend of "
      + "80s nostalgia, "
      + "supernatural horror, "
      + "and heartfelt "
      + "friendship. The "
      + "characters are "
      + "lovable and the "
      + "mysteries are "
      + "compelling, creating "
      + "an addictive viewing "
      + "experience. With its "
      + "perfect mix of "
      + "horror, humor, and "
      + "heart, plus "
      + "incredible "
      + "performances from "
      + "both adult and child "
      + "actors, this series "
      + "captures the magic of "
      + "childhood adventure "
      + "stories.",
    poster := Some(PosterBase + "&text=Stranger+Things+" + "Poster"))

  const QueensGambit: Recommendation := Recommendation(
    title := "The Queen's Gambit",
    genre := "Drama, Coming-of-age",
    year := Some("2020"),
    platform := Some("Netflix"),
    rating := "9.5/10",
    description :=
      "A beautifully crafted "
      + "series about a chess "
      + "prodigy's rise to "
      + "fame while battling "
      + "addiction. Anya "
      + "Taylor-Joy's "
      + "performance is "
      + "exceptional, and the "
      + "show makes chess "
      + "surprisingly "
      + "thrilling. The series "
      + "combines stunning "
      + "period details with "
      + "compelling character "
      + "development, creating "
      + "a story that's both "
      + "visually gorgeous and "
      + "emotionally resonant.",
    poster := Some(PosterBase + "&text=The+Queens+" + "Gambit+Poster"))

  // ---------------------------------------------------------------------------
  // The table `singleRecommendations`
  // ---------------------------------------------------------------------------

  /** The three entries of `singleRecommendations`. */
  datatype Category = Anime | Movies | WebSeries

  /** The property name of each entry; `categoryPrompts` uses the same three. */
  function CategoryName(c: Category): string {
    match c
    case Anime => "anime"
    case Movies => "movies"
    case WebSeries => "web-series"
  }

  /** `singleRecommendations[category]`: the entry whose name is `category`,
      `undefined` (None) when no entry has that name. */
  function CategoryRecs(category: string): (r: Option<Category>)
    ensures r.Some? ==> CategoryName(r.value) == category
    ensures r.None? ==> forall c: Category :: CategoryName(c) != category
  {
    if category == CategoryName(Anime) then Some(Anime)
    else if category == CategoryName(Movies) then Some(Movies)
    else if category == CategoryName(WebSeries) then Some(WebSeries)
    else None
  }

  /** Looking up an entry's own name finds that entry. */
  lemma CategoryRecsOfName(c: Category)
    ensures CategoryRecs(CategoryName(c)) == Some(c)
  {
  }

  /** The category names the tables know. */
  predicate Known(category: string) {
    CategoryRecs(category).Some?
  }

  /** `singleRecommendations.anime[key]`. */
  function AnimeTable(key: string): Option<Recommendation> {
    if key == "action" then Some(DemonSlayer)
    else if key == "romance" then Some(YourName)
    else if key == "default" then Some(AttackOnTitan)
    else None
  }

  /** `singleRecommendations.movies[key]`. */
  function MoviesTable(key: string): Option<Recommendation> {
    if key == "scifi" then Some(EverythingEverywhere)
    else if key == "thriller" then Some(Parasite)
    else if key == "default" then Some(Inception)
    else None
  }

  /** `singleRecommendations["web-series"][key]`. */
  function WebSeriesTable(key: string): Option<Recommendation> {
    if key == "kdrama" then Some(CrashLandingOnYou)
    else if key == "mystery" then Some(StrangerThings)
    else if key == "default" then Some(QueensGambit)
    else None
  }

  /** `categoryRecs[key]` once `categoryRecs` is known to be defined. */
  function Table(recs: Category, key: string): Option<Recommendation> {
    match recs
    case Anime => AnimeTable(key)
    case Movies => MoviesTable(key)
    case WebSeries => WebSeriesTable(key)
  }

  /** The three literals of an entry. */
  function Entries(recs: Category): set<Recommendation> {
    match recs
    case Anime => {DemonSlayer, YourName, AttackOnTitan}
    case Movies => {EverythingEverywhere, Parasite, Inception}
    case WebSeries => {CrashLandingOnYou, StrangerThings, QueensGambit}
  }

  /** The three literals a known category can produce; none for any other string. */
  function Choices(category: string): set<Recommendation> {
    match CategoryRecs(category)
    case Some(recs) => Entries(recs)
    case None => {}
  }

  // ---------------------------------------------------------------------------
  // generateSingleFallback
  // ---------------------------------------------------------------------------

  /** The sub-genre key the if/else chain of `generateSingleFallback` reads from
      `categoryRecs`, given the lower-cased input. Every category other than
      "anime" and "movies" takes the web-series branch. The chain reads the key
      of the first rule of `Rules(category)` whose keyword occurs, or "default". */
  function SubGenre(lowerInput: string, category: string): (key: string)
    ensures key == FirstMatch(Rules(category), lowerInput)
  {
    TwoRules(Rules(category), lowerInput);
    if category == "anime" then
      if Includes(lowerInput, "action") || Includes(lowerInput, "fight") then "action"
      else if Includes(lowerInput, "romance") || Includes(lowerInput, "love") then "romance"
      else "default"
    else if category == "movies" then
      if Includes(lowerInput, "sci-fi") || Includes(lowerInput, "science") then "scifi"
      else if Includes(lowerInput, "thriller") || Includes(lowerInput, "suspense") then "thriller"
      else "default"
    else
      if Includes(lowerInput, "k-drama") || Includes(lowerInput, "korean") then "kdrama"
      else if Includes(lowerInput, "mystery") || Includes(lowerInput, "thriller") then "mystery"
      else "default"
  }

  /** `categoryRecs.<key>`, then the `.title` read of the returned value: reading a
      property of `undefined` throws, whether `categoryRecs` or the entry is. */
  function Property(categoryRecs: Option<Category>, key: string): (r: Result<Recommendation, Error>)
    ensures r.Success? <==> categoryRecs.Some? && Table(categoryRecs.value, key).Some?
    ensures r.Success? ==> r.value in Entries(categoryRecs.value)
    ensures r.Failure? ==> r.error == TypeError
  {
    match categoryRecs
    case None => Failure(TypeError)
    case Some(recs) =>
      match Table(recs, key)
      case Some(d) => Success(d)
      case None => Failure(TypeError)
  }

  /** `generateSingleFallback(userInput, category)`, with the throw its caller
      hits when the result is `undefined` folded into an error result. */
  function GenerateSingleFallback(userInput: string, category: string): (r: Result<Recommendation, Error>)
    ensures r.Success? <==> Known(category)
    ensures r.Success? ==> r.value in Choices(category)
    ensures r.Failure? ==> r.error == TypeError
  {
    var categoryRecs := CategoryRecs(category);
    var lowerInput := Lower(userInput);
    Property(categoryRecs, SubGenre(lowerInput, category))
  }

  // ---------------------------------------------------------------------------
  // Routing as an ordered rule list
  // ---------------------------------------------------------------------------

  /** A routing rule: when any keyword occurs in the lower-cased input, `key` is read. */
  datatype Rule = Rule(keywords: seq<string>, key: string)

  /** The rules of each branch in the order they are tried; the web-series
      branch is also the one every unknown category takes. */
  function Rules(category: string): seq<Rule> {
    if category == "anime" then
      [Rule(["action", "fight"], "action"), Rule(["romance", "love"], "romance")]
    else if category == "movies" then
      [Rule(["sci-fi", "science"], "scifi"), Rule(["thriller", "suspense"], "thriller")]
    else
      [Rule(["k-drama", "korean"], "kdrama"), Rule(["mystery", "thriller"], "mystery")]
  }

  ghost predicate Fires(rule: Rule, text: string) {
    exists k :: k in rule.keywords && Includes(text, k)
  }

  /** The key of the first rule that fires, or "default". */
  ghost function FirstMatch(rules: seq<Rule>, text: string): string {
    if rules == [] then "default"
    else if Fires(rules[0], text) then rules[0].key
    else FirstMatch(rules[1..], text)
  }

  /** The first rule that fires decides, whatever later rules would say. */
  lemma {:induction false} FirstMatchIsFirst(rules: seq<Rule>, text: string, k: nat)
    requires k < |rules| && Fires(rules[k], text)
    requires forall j :: 0 <= j < k ==> !Fires(rules[j], text)
    ensures FirstMatch(rules, text) == rules[k].key
  {
    if k > 0 {
      assert !Fires(rules[0], text);
      FirstMatchIsFirst(rules[1..], text, k - 1);
    }
  }

  /** When no rule fires the default key is read. */
  lemma {:induction false} FirstMatchNone(rules: seq<Rule>, text: string)
    requires forall j :: 0 <= j < |rules| ==> !Fires(rules[j], text)
    ensures FirstMatch(rules, text) == "default"
  {
    if rules != [] {
      assert !Fires(rules[0], text);
      FirstMatchNone(rules[1..], text);
    }
  }

  /** A rule with two keywords fires when either keyword occurs. */
  lemma FiresPair(rule: Rule, text: string)
    requires |rule.keywords| == 2
    ensures Fires(rule, text) <==> Includes(text, rule.keywords[0]) || Includes(text, rule.keywords[1])
  {
    if Includes(text, rule.keywords[0]) {
      assert rule.keywords[0] in rule.keywords;
    } else if Includes(text, rule.keywords[1]) {
      assert rule.keywords[1] in rule.keywords;
    }
  }

  /** Two rules of two keywords each decide like the if/else chain of a branch. */
  lemma TwoRules(rules: seq<Rule>, text: string)
    requires |rules| == 2 && |rules[0].keywords| == 2 && |rules[1].keywords| == 2
    ensures FirstMatch(rules, text)
         == if Includes(text, rules[0].keywords[0]) || Includes(text, rules[0].keywords[1]) then rules[0].key
            else if Includes(text, rules[1].keywords[0]) || Includes(text, rules[1].keywords[1]) then rules[1].key
            else "default"
  {
    FiresPair(rules[0], text);
    FiresPair(rules[1], text);
    if Fires(rules[0], text) {
      FirstMatchIsFirst(rules, text, 0);
    } else if Fires(rules[1], text) {
      FirstMatchIsFirst(rules, text, 1);
    } else {
      FirstMatchNone(rules, text);
    }
  }

  /** Keyword priority: when keywords of both rules of a branch occur, the first
      rule's key is read ("action" over "love", "sci-fi" over "thriller",
      "korean" over "mystery"). */
  lemma FirstRuleWins(lowerInput: string, category: string)
    requires Fires(Rules(category)[0], lowerInput)
    ensures SubGenre(lowerInput, category) == Rules(category)[0].key
  {
    FirstMatchIsFirst(Rules(category), lowerInput, 0);
  }

  // ---------------------------------------------------------------------------
  // Properties of the selector
  // ---------------------------------------------------------------------------

  /** Routing ignores case: upper-casing or lower-casing the input does not
      change the choice. */
  lemma FallbackIgnoresCase(userInput: string, category: string)
    ensures GenerateSingleFallback(Upper(userInput), category) == GenerateSingleFallback(userInput, category)
    ensures GenerateSingleFallback(Lower(userInput), category) == GenerateSingleFallback(userInput, category)
  {
    LowerOfUpper(userInput);
    LowerIdempotent(userInput);
  }

  /** A chosen literal carries a platform exactly when the category is "web-series". */
  lemma PlatformOnlyForWebSeries(userInput: string, category: string)
    requires GenerateSingleFallback(userInput, category).Success?
    ensures GenerateSingleFallback(userInput, category).value.platform.Some? <==> category == "web-series"
  {
  }

  /** "I love action anime" holds keywords of both anime rules; the first rule wins. */
  lemma LoveActionAnimeRoute(userInput: string)
    requires userInput == "I love action anime"
    ensures Includes(Lower(userInput), "love")
    ensures Includes(Lower(userInput), "action")
    ensures SubGenre(Lower(userInput), "anime") == "action"
  {
    var lower := Lower(userInput);
    assert |lower| == 19;
    assert lower[2..6] == "love";
    IncludesAt(lower, "love", 2);
    assert lower[7..13] == "action";
    IncludesAt(lower, "action", 7);
  }

  /** ... so the record is Demon Slayer, rated 9/10, without a platform. */
  lemma LoveActionAnime()
    ensures GenerateSingleFallback("I love action anime", "anime") == Success(DemonSlayer)
    ensures DemonSlayer.title == "Demon Slayer: Kimetsu no Yaiba" && DemonSlayer.rating == "9/10"
    ensures DemonSlayer.platform == None
  {
    LoveActionAnimeRoute("I love action anime");
  }

  /** "recommend korean drama" fires the K-drama rule of the web-series branch. */
  lemma KoreanDramaRoute(userInput: string)
    requires userInput == "recommend korean drama"
    ensures Includes(Lower(userInput), "korean")
    ensures SubGenre(Lower(userInput), "web-series") == "kdrama"
  {
    var lower := Lower(userInput);
    assert |lower| == 22;
    assert lower[10..16] == "korean";
    IncludesAt(lower, "korean", 10);
  }

  /** ... so the record is Crash Landing on You, on Netflix. */
  lemma KoreanDrama()
    ensures GenerateSingleFallback("recommend korean drama", "web-series") == Success(CrashLandingOnYou)
    ensures CrashLandingOnYou.title == "Crash Landing on You"
    ensures CrashLandingOnYou.platform == Some("Netflix")
  {
    KoreanDramaRoute("recommend korean drama");
  }
}
