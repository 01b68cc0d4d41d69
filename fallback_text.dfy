/**
 * The text the fallback path of `streamRecommendations` returns
 * (app/actions.ts): one `KEY: value` line per field in a fixed key order,
 * optional fields only when present, and no newline after POSTER.
 */
module FallbackText {
  import opened Wrappers
  import opened Text
  import opened Fallback

  /** JavaScript truthiness of an optional string field: present and non-empty. */
  predicate Truthy(field: Option<string>) {
    field.Some? && field.value != ""
  }

  /** The keys of the recommendation text format. */
  datatype Key = TITLE | GENRE | YEAR | PLATFORM | RATING | DESCRIPTION | POSTER

  /** The start of a line for a key: its name, a colon and a space. */
  function Label(k: Key): string {
    match k
    case TITLE => "TITLE: "
    case GENRE => "GENRE: "
    case YEAR => "YEAR: "
    case PLATFORM => "PLATFORM: "
    case RATING => "RATING: "
    case DESCRIPTION => "DESCRIPTION: "
    case POSTER => "POSTER: "
  }

  /** The order in which keys appear in recommendation text. */
  const KeyOrder: seq<Key> := [TITLE, GENRE, YEAR, PLATFORM, RATING, DESCRIPTION, POSTER]

  /** The value written for a key: required fields always, optional ones when truthy. */
  function Emitted(d: Recommendation, k: Key): Option<string> {
    match k
    case TITLE => Some(d.title)
    case GENRE => Some(d.genre)
    case RATING => Some(d.rating)
    case DESCRIPTION => Some(d.description)
    case YEAR => if Truthy(d.year) then d.year else None
    case PLATFORM => if Truthy(d.platform) then d.platform else None
    case POSTER => if Truthy(d.poster) then d.poster else None
  }

  /** The keys among `keys` that have a value to write, in order. */
  function EmittedKeys(d: Recommendation, keys: seq<Key>): seq<Key> {
    if keys == [] then []
    else (if Emitted(d, keys[0]).Some? then [keys[0]] else []) + EmittedKeys(d, keys[1..])
  }

  /** The line written for one key: none, or its label followed by its value. */
  function LineOf(d: Recommendation, k: Key): seq<string> {
    match Emitted(d, k)
    case Some(v) => [Label(k) + v]
    case None => []
  }

  /** The `KEY: value` lines for `keys`, in order, skipping keys with nothing to write. */
  function Lines(d: Recommendation, keys: seq<Key>): seq<string> {
    if keys == [] then [] else LineOf(d, keys[0]) + Lines(d, keys[1..])
  }

  /** Line `i` is the label of the `i`-th emitted key followed by its value. */
  lemma {:induction false} LinesShape(d: Recommendation, keys: seq<Key>)
    ensures |Lines(d, keys)| == |EmittedKeys(d, keys)|
    ensures forall i :: 0 <= i < |Lines(d, keys)| ==>
      var k := EmittedKeys(d, keys)[i];
      Emitted(d, k).Some? && Lines(d, keys)[i] == Label(k) + Emitted(d, k).value
  {
    if keys != [] {
      LinesShape(d, keys[1..]);
    }
  }

  lemma {:induction false} LinesSnoc(d: Recommendation, keys: seq<Key>, k: Key)
    ensures Lines(d, keys + [k]) == Lines(d, keys) + LineOf(d, k)
  {
    if keys == [] {
      assert keys + [k] == [k];
      assert [k][1..] == [];
    } else {
      assert (keys + [k])[1..] == keys[1..] + [k];
      LinesSnoc(d, keys[1..], k);
    }
  }

  /** One `response +=` step of the catch block: the key's line and a line
      break when the key has a value (required fields always, YEAR and
      PLATFORM when truthy), nothing otherwise. */
  function Written(text: string, d: Recommendation, k: Key): (r: string)
    ensures text <= r
    ensures r[|text|..] == Terminated(LineOf(d, k), '\n')
  {
    match Emitted(d, k)
    case Some(v) => text + Label(k) + v + "\n"
    case None => text
  }

  /** One step keeps the text equal to its lines, each ended by a line break. */
  lemma WrittenStep(d: Recommendation, keys: seq<Key>, k: Key, text: string)
    requires text == Terminated(Lines(d, keys), '\n')
    ensures Written(text, d, k) == Terminated(Lines(d, keys + [k]), '\n')
  {
    LinesSnoc(d, keys, k);
    if Emitted(d, k).Some? {
      TerminatedSnoc(Lines(d, keys), Label(k) + Emitted(d, k).value, '\n');
    } else {
      assert Lines(d, keys) + LineOf(d, k) == Lines(d, keys);
    }
  }

  /** The keys written before POSTER, each line ended by a line break. */
  const BodyKeys: seq<Key> := [TITLE, GENRE, YEAR, PLATFORM, RATING, DESCRIPTION]

  /** The POSTER line, unterminated, or nothing. */
  function PosterTail(d: Recommendation): (tail: string)
    ensures Emitted(d, POSTER).Some? ==> tail == Label(POSTER) + Emitted(d, POSTER).value
    ensures Emitted(d, POSTER).None? ==> tail == ""
  {
    if Truthy(d.poster) then "POSTER: " + d.poster.value else ""
  }

  /** The catch block's `response +=` sequence: one step per key in
      `BodyKeys`, then the POSTER line without a line break. The text is the
      `KEY: value` lines of the keys before POSTER that have a value, each ended
      by a line break, then the POSTER line or nothing. */
  function Serialize(d: Recommendation): (text: string)
    ensures text == Terminated(Lines(d, BodyKeys), '\n') + PosterTail(d)
  {
    var afterTitle := Written("", d, TITLE);
    WrittenStep(d, [], TITLE, "");
    assert [] + [TITLE] == [TITLE];
    var afterGenre := Written(afterTitle, d, GENRE);
    WrittenStep(d, [TITLE], GENRE, afterTitle);
    assert [TITLE] + [GENRE] == [TITLE, GENRE];
    var afterYear := Written(afterGenre, d, YEAR);
    WrittenStep(d, [TITLE, GENRE], YEAR, afterGenre);
    assert [TITLE, GENRE] + [YEAR] == [TITLE, GENRE, YEAR];
    var afterPlatform := Written(afterYear, d, PLATFORM);
    WrittenStep(d, [TITLE, GENRE, YEAR], PLATFORM, afterYear);
    assert [TITLE, GENRE, YEAR] + [PLATFORM] == [TITLE, GENRE, YEAR, PLATFORM];
    var afterRating := Written(afterPlatform, d, RATING);
    WrittenStep(d, [TITLE, GENRE, YEAR, PLATFORM], RATING, afterPlatform);
    assert [TITLE, GENRE, YEAR, PLATFORM] + [RATING] == [TITLE, GENRE, YEAR, PLATFORM, RATING];
    var afterDescription := Written(afterRating, d, DESCRIPTION);
    WrittenStep(d, [TITLE, GENRE, YEAR, PLATFORM, RATING], DESCRIPTION, afterRating);
    assert [TITLE, GENRE, YEAR, PLATFORM, RATING] + [DESCRIPTION] == BodyKeys;
    afterDescription + PosterTail(d)
  }

  /** No field value contains a line break. */
  predicate NoNewlines(d: Recommendation) {
    && '\n' !in d.title && '\n' !in d.genre && '\n' !in d.rating && '\n' !in d.description
    && (d.year.Some? ==> '\n' !in d.year.value)
    && (d.platform.Some? ==> '\n' !in d.platform.value)
    && (d.poster.Some? ==> '\n' !in d.poster.value)
  }

  /** Every line of `Lines` is free of line breaks when the record's values are. */
  lemma {:induction false} LinesSingleLine(d: Recommendation, keys: seq<Key>)
    requires NoNewlines(d)
    ensures forall l :: l in Lines(d, keys) ==> '\n' !in l
  {
    if keys != [] {
      LinesSingleLine(d, keys[1..]);
      match keys[0]
      case TITLE => assert '\n' !in Label(TITLE);
      case GENRE => assert '\n' !in Label(GENRE);
      case YEAR => assert '\n' !in Label(YEAR);
      case PLATFORM => assert '\n' !in Label(PLATFORM);
      case RATING => assert '\n' !in Label(RATING);
      case DESCRIPTION => assert '\n' !in Label(DESCRIPTION);
      case POSTER => assert '\n' !in Label(POSTER);
    }
  }

  /** Splitting the fallback text at line breaks gives exactly the `KEY: value`
      lines in key order; when there is no poster the text ends with a line
      break, so one empty piece follows. */
  lemma SerializeLines(d: Recommendation)
    requires NoNewlines(d)
    ensures Split(Serialize(d), '\n')
         == Lines(d, KeyOrder) + (if Truthy(d.poster) then [] else [""])
  {
    var body := Lines(d, BodyKeys);
    var tail := PosterTail(d);
    LinesSingleLine(d, BodyKeys);
    SplitTerminated(body, '\n', tail);
    assert KeyOrder == BodyKeys + [POSTER];
    LinesSnoc(d, BodyKeys, POSTER);
    if Truthy(d.poster) {
      assert '\n' !in Label(POSTER);
      SplitWhole(tail, '\n');
    } else {
      assert Split(tail, '\n') == [""];
    }
  }
  // ---------------------------------------------------------------------------
  // The nine literals as text
  // ---------------------------------------------------------------------------

  /** The four fields the text format requires are non-empty. */
  predicate Complete(d: Recommendation) {
    d.title != "" && d.genre != "" && d.rating != "" && d.description != ""
  }

  /** What every fallback literal satisfies: its required fields are filled and
      it has a year and a poster. */
  predicate WellFormedLiteral(d: Recommendation) {
    Complete(d) && Truthy(d.year) && Truthy(d.poster)
  }

  /** Every record the selector can return is a well-formed literal, and it has
      a platform exactly when it is one of the web-series literals. */
  lemma LiteralsWellFormed(category: string, d: Recommendation)
    requires d in Choices(category)
    ensures WellFormedLiteral(d)
    ensures Truthy(d.platform) <==> category == "web-series"
  {
    match CategoryRecs(category)
    case Some(Anime) => AnimeLiterals(d);
    case Some(Movies) => MovieLiterals(d);
    case Some(WebSeries) => WebSeriesLiterals(d);
  }

  lemma AnimeLiterals(d: Recommendation)
    requires d in Entries(Anime)
    ensures WellFormedLiteral(d) && !Truthy(d.platform)
  {
  }

  lemma MovieLiterals(d: Recommendation)
    requires d in Entries(Movies)
    ensures WellFormedLiteral(d) && !Truthy(d.platform)
  {
  }

  lemma WebSeriesLiterals(d: Recommendation)
    requires d in Entries(WebSeries)
    ensures WellFormedLiteral(d) && Truthy(d.platform)
  {
  }

  /** `EmittedKeys` of a list with one more key in front. */
  lemma EmittedKeysCons(d: Recommendation, k: Key, keys: seq<Key>)
    ensures EmittedKeys(d, [k] + keys)
         == (if Emitted(d, k).Some? then [k] else []) + EmittedKeys(d, keys)
  {
    assert ([k] + keys)[1..] == keys;
  }

  /** A record with a year and a poster writes all seven keys, or all but
      PLATFORM when it has no platform. */
  lemma EmittedKeysWithYearAndPoster(d: Recommendation)
    requires Truthy(d.year) && Truthy(d.poster)
    ensures EmittedKeys(d, KeyOrder)
         == if Truthy(d.platform) then KeyOrder
            else [TITLE, GENRE, YEAR, RATING, DESCRIPTION, POSTER]
  {
    EmittedKeysCons(d, POSTER, []);
    assert [POSTER] + [] == [POSTER];
    EmittedKeysCons(d, DESCRIPTION, [POSTER]);
    EmittedKeysCons(d, RATING, [DESCRIPTION, POSTER]);
    var tail := [RATING, DESCRIPTION, POSTER];
    assert [RATING] + [DESCRIPTION, POSTER] == tail;
    assert EmittedKeys(d, tail) == tail;
    EmittedKeysCons(d, PLATFORM, tail);
    var withPlatform := EmittedKeys(d, [PLATFORM] + tail);
    EmittedKeysCons(d, YEAR, [PLATFORM] + tail);
    EmittedKeysCons(d, GENRE, [YEAR] + ([PLATFORM] + tail));
    EmittedKeysCons(d, TITLE, [GENRE] + ([YEAR] + ([PLATFORM] + tail)));
    assert KeyOrder == [TITLE] + ([GENRE] + ([YEAR] + ([PLATFORM] + tail)));
    assert EmittedKeys(d, KeyOrder) == [TITLE, GENRE, YEAR] + withPlatform;
  }

  /** The keys a fallback literal writes: all seven for the web-series
      literals, all but PLATFORM for the others. */
  lemma LiteralKeys(category: string, d: Recommendation)
    requires d in Choices(category)
    ensures EmittedKeys(d, KeyOrder)
         == if category == "web-series" then KeyOrder
            else [TITLE, GENRE, YEAR, RATING, DESCRIPTION, POSTER]
  {
    LiteralsWellFormed(category, d);
    EmittedKeysWithYearAndPoster(d);
  }

  /** The Demon Slayer text has six lines and no PLATFORM line. */
  lemma DemonSlayerLines()
    ensures Lines(DemonSlayer, KeyOrder)
         == ["TITLE: " + DemonSlayer.title, "GENRE: " + DemonSlayer.genre,
             "YEAR: " + DemonSlayer.year.value, "RATING: " + DemonSlayer.rating,
             "DESCRIPTION: " + DemonSlayer.description, "POSTER: " + DemonSlayer.poster.value]
  {
    AnimeLiterals(DemonSlayer);
    EmittedKeysWithYearAndPoster(DemonSlayer);
    LinesShape(DemonSlayer, KeyOrder);
  }

  /** The Crash Landing on You text has seven lines, the fourth its platform. */
  lemma CrashLandingOnYouLines()
    ensures Lines(CrashLandingOnYou, KeyOrder)
         == ["TITLE: " + CrashLandingOnYou.title, "GENRE: " + CrashLandingOnYou.genre,
             "YEAR: " + CrashLandingOnYou.year.value, "PLATFORM: " + CrashLandingOnYou.platform.value,
             "RATING: " + CrashLandingOnYou.rating,
             "DESCRIPTION: " + CrashLandingOnYou.description,
             "POSTER: " + CrashLandingOnYou.poster.value]
  {
    WebSeriesLiterals(CrashLandingOnYou);
    EmittedKeysWithYearAndPoster(CrashLandingOnYou);
    LinesShape(CrashLandingOnYou, KeyOrder);
  }
}
