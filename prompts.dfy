/**
 * The prompt `streamRecommendations` sends (app/actions.ts): one template per
 * category, each an instruction, the `KEY: [placeholder]` lines the reply must
 * use, the user's text and a closing request; and the choice of template,
 * which falls back to the movies one for a category the table lacks.
 */
module Prompts {
  import opened Wrappers
  import opened Text
  import opened Fallback
  import opened FallbackText

  /** One line of the requested format: a key and the placeholder after its label. */
  datatype Field = Field(key: Key, placeholder: string)

  /** A prompt template: its opening instruction and the format lines it asks for. */
  datatype Template = Template(intro: string, fields: seq<Field>)

  /** The format lines, `KEY: [placeholder]`, in order. */
  function FormatLines(fields: seq<Field>): (lines: seq<string>)
    ensures |lines| == |fields|
    ensures forall i :: 0 <= i < |fields| ==> lines[i] == Label(fields[i].key) + fields[i].placeholder
  {
    if fields == [] then [] else [Label(fields[0].key) + fields[0].placeholder] + FormatLines(fields[1..])
  }

  /** The keys a template asks for, in order. */
  function AskedKeys(fields: seq<Field>): (keys: seq<Key>)
    ensures |keys| == |fields|
    ensures forall i :: 0 <= i < |fields| ==> keys[i] == fields[i].key
  {
    if fields == [] then [] else [fields[0].key] + AskedKeys(fields[1..])
  }

  const Closing: string :=
    "Provide only ONE recommendation that best "
    + "matches their request. Make sure to include "
    + "all fields exactly as shown above."

  /** What precedes the preference line: the instruction, a blank line and the
      format lines, each ended by a line break, and one more line break. */
  function Preamble(t: Template): string {
    t.intro + "\n\n" + Terminated(FormatLines(t.fields), '\n') + "\n"
  }

  /** What follows the preference line: a blank line and the closing request. */
  const Postamble: string := "\n\n" + Closing

  /** The template text with the user's preference substituted: it opens with
      the instruction and quotes the user's text verbatim on the preference line
      after the format lines. It is never empty, so `||` only falls back on a
      missing key. */
  function Render(t: Template, userInput: string): (prompt: string)
    ensures |prompt| >= |t.intro| + 2 && prompt[..|t.intro|] == t.intro
    ensures |Preamble(t)| <= |prompt| && prompt[..|Preamble(t)|] == Preamble(t)
    ensures OccursAt(prompt, "User preference: " + userInput, |Preamble(t)|)
    ensures OccursAt(prompt, userInput, |Preamble(t)| + 17)
  {
    var preamble := Preamble(t);
    var prompt := preamble + "User preference: " + userInput + Postamble;
    ConcatSlices(preamble, "User preference: " + userInput, Postamble);
    ConcatSlices(preamble, "User preference: ", userInput);
    assert preamble[..|t.intro|] == t.intro;
    prompt
  }

  const DescriptionPlaceholder: string :=
    "[Detailed description explaining why it "
    + "matches their taste, what makes it special, "
    + "and what to expect. Make this 3-4 sentences "
    + "long.]"

  /** The format lines shared by the three templates around the title line. */
  function Format(titlePlaceholder: string, withPlatform: bool): seq<Field> {
    [Field(TITLE, titlePlaceholder), Field(GENRE, "[Genres]"), Field(YEAR, "[Release Year]")]
    + (if withPlatform then [Field(PLATFORM, "[Where to watch]")] else [])
    + [Field(RATING, "[Rating/10]"), Field(DESCRIPTION, DescriptionPlaceholder)]
  }

  const AnimeTemplate: Template := Template(
    "You are an anime recommendation expert. "
    + "Based on the user's preferences, provide "
    + "exactly ONE specific anime recommendation "
    + "with detailed explanation. Format your "
    + "response EXACTLY as follows:",
    Format("[Anime Name]", false))

  const MoviesTemplate: Template := Template(
    "You are a movie recommendation expert. Based "
    + "on the user's preferences, provide exactly "
    + "ONE specific movie recommendation with "
    + "detailed explanation. Format your response "
    + "EXACTLY as follows:",
    Format("[Movie Name]", false))

  const WebSeriesTemplate: Template := Template(
    "You are a web series and K-drama "
    + "recommendation expert. Based on the user's "
    + "preferences, provide exactly ONE specific "
    + "recommendation with detailed explanation. "
    + "Format your response EXACTLY as follows:",
    Format("[Series Name]", true))

  /** The template of each entry of `categoryPrompts`. */
  function TemplateOf(c: Category): Template {
    match c
    case Anime => AnimeTemplate
    case Movies => MoviesTemplate
    case WebSeries => WebSeriesTemplate
  }

  /** `categoryPrompts[category]`: the template of the entry named `category`,
      `undefined` (None) for any other string. */
  function PromptFor(category: string): (t: Option<Template>)
    ensures t.Some? <==> Known(category)
  {
    match CategoryRecs(category)
    case Some(c) => Some(TemplateOf(c))
    case None => None
  }

  /** The template each category is answered with: its own for the three known
      categories, the movies one for every other string. */
  function TemplateFor(category: string): Template {
    PromptFor(category).GetOr(MoviesTemplate)
  }

  /** `categoryPrompts[category] || categoryPrompts.movies`: the category's own
      prompt when it is defined and non-empty, the movies prompt otherwise. As a
      rendered prompt is never empty, this is the category's own template for
      "anime", "movies" and "web-series" and the movies template for any other
      string. */
  function ChoosePrompt(userInput: string, category: string): (prompt: string)
    ensures prompt == Render(TemplateFor(category), userInput)
    ensures !Known(category) ==> prompt == Render(MoviesTemplate, userInput)
  {
    var own := match PromptFor(category)
      case Some(t) => Some(Render(t, userInput))
      case None => None;
    if own.Some? && own.value != "" then own.value else Render(MoviesTemplate, userInput)
  }

  /** Whatever the category, the prompt sent contains the user's text. */
  lemma PromptQuotesInput(userInput: string, category: string)
    ensures Includes(ChoosePrompt(userInput, category), userInput)
  {
    var t := TemplateFor(category);
    IncludesAt(Render(t, userInput), userInput, |Preamble(t)| + 17);
  }

  /** The format lines of the shared format, as the three templates spell them. */
  lemma FormatText(titlePlaceholder: string, withPlatform: bool)
    ensures FormatLines(Format(titlePlaceholder, withPlatform))
         == ["TITLE: " + titlePlaceholder, "GENRE: " + "[Genres]", "YEAR: " + "[Release Year]"]
            + (if withPlatform then ["PLATFORM: " + "[Where to watch]"] else [])
            + ["RATING: " + "[Rating/10]", "DESCRIPTION: " + DescriptionPlaceholder]
  {
    var fields := Format(titlePlaceholder, withPlatform);
    var lines := FormatLines(fields);
    var head := ["TITLE: " + titlePlaceholder, "GENRE: " + "[Genres]", "YEAR: " + "[Release Year]"];
    var tail := ["RATING: " + "[Rating/10]", "DESCRIPTION: " + DescriptionPlaceholder];
    if withPlatform {
      assert fields == [Field(TITLE, titlePlaceholder), Field(GENRE, "[Genres]"), Field(YEAR, "[Release Year]"),
                        Field(PLATFORM, "[Where to watch]"), Field(RATING, "[Rating/10]"),
                        Field(DESCRIPTION, DescriptionPlaceholder)];
      assert lines == head + ["PLATFORM: " + "[Where to watch]"] + tail;
    } else {
      assert fields == [Field(TITLE, titlePlaceholder), Field(GENRE, "[Genres]"), Field(YEAR, "[Release Year]"),
                        Field(RATING, "[Rating/10]"), Field(DESCRIPTION, DescriptionPlaceholder)];
      assert lines == head + tail;
    }
  }

  /** The keys each known template asks for, followed by the POSTER key no
      template asks for. */
  lemma TemplateKeys(category: string)
    requires Known(category)
    ensures AskedKeys(TemplateFor(category).fields) + [POSTER]
         == if category == "web-series" then KeyOrder
            else [TITLE, GENRE, YEAR, RATING, DESCRIPTION, POSTER]
  {
    match CategoryRecs(category)
    case Some(Anime) => FormatKeys("[Anime Name]", false);
    case Some(Movies) => FormatKeys("[Movie Name]", false);
    case Some(WebSeries) => FormatKeys("[Series Name]", true);
  }

  /** The keys of the shared format: PLATFORM only when asked for. */
  lemma FormatKeys(titlePlaceholder: string, withPlatform: bool)
    ensures AskedKeys(Format(titlePlaceholder, withPlatform)) + [POSTER]
         == if withPlatform then KeyOrder
            else [TITLE, GENRE, YEAR, RATING, DESCRIPTION, POSTER]
  {
    var fields := Format(titlePlaceholder, withPlatform);
    var keys := AskedKeys(fields);
    assert |keys| == |fields|;
    assert forall i :: 0 <= i < |fields| ==> keys[i] == fields[i].key;
  }

  /** Only the web-series template asks for a PLATFORM line. */
  lemma OnlyWebSeriesAsksPlatform(category: string)
    requires Known(category)
    ensures PLATFORM in AskedKeys(TemplateFor(category).fields) <==> category == "web-series"
  {
    TemplateKeys(category);
    var keys := AskedKeys(TemplateFor(category).fields);
    assert keys == (keys + [POSTER])[..|keys|];
  }

  /** The fallback text of a known category writes exactly the keys that
      category's template asks for, then POSTER. */
  lemma FallbackMatchesTemplate(category: string, d: Recommendation)
    requires d in Choices(category)
    ensures Known(category)
    ensures EmittedKeys(d, KeyOrder) == AskedKeys(TemplateFor(category).fields) + [POSTER]
  {
    LiteralKeys(category, d);
    TemplateKeys(category);
  }
}
