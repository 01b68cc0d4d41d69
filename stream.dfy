/**
 * `streamRecommendations` (app/actions.ts): refuse to run without an API key,
 * send the chosen prompt to the completion service, return its reply as it
 * came, and answer with the serialized fallback record when the call fails.
 * The service is a parameter: what it answers for a prompt is outside the model.
 */
module Stream {
  import opened Wrappers
  import opened Text
  import opened Fallback
  import opened FallbackText
  import opened Prompts

  /** What the completion call comes back with: a reply whose first choice
      carries a message content, or any failure (network error, a status that is
      not ok, a body without that content). */
  datatype ApiReply = Reply(content: string) | Unavailable

  /** The live reply is used when it exists and its content is truthy (non-empty). */
  predicate Usable(reply: ApiReply) {
    reply.Reply? && reply.content != ""
  }

  /** `streamRecommendations(userInput, category)` with the environment's
      `GROQ_API_KEY` as `apiKey` and the completion service as `service`. A
      missing or empty key raises before any request; a usable reply is returned
      verbatim; otherwise the fallback record is serialized, and the selector's
      failure on an unknown category propagates: with the reply unusable, the
      call succeeds exactly for the three known categories, with the text of
      the record the selector picks. */
  function StreamRecommendations(apiKey: Option<string>, userInput: string, category: string,
                                 service: string -> ApiReply): (r: Result<string, Error>)
    ensures !Truthy(apiKey) ==> r == Failure(ConfigurationError)
    ensures Truthy(apiKey) && Usable(service(ChoosePrompt(userInput, category)))
        ==> r == Success(service(ChoosePrompt(userInput, category)).content)
    ensures Truthy(apiKey) && !Usable(service(ChoosePrompt(userInput, category)))
        ==> (r.Success? <==> Known(category))
    ensures Truthy(apiKey) && !Usable(service(ChoosePrompt(userInput, category))) && Known(category)
        ==> r == Success(Serialize(GenerateSingleFallback(userInput, category).value))
    ensures Truthy(apiKey) && r.Failure? ==> r.error == TypeError
  {
    if !Truthy(apiKey) then Failure(ConfigurationError)
    else
      var reply := service(ChoosePrompt(userInput, category));
      if Usable(reply) then Success(reply.content)
      else
        var fallback := GenerateSingleFallback(userInput, category);
        if fallback.Success? then Success(Serialize(fallback.value)) else Failure(fallback.error)
  }

  /** The only thing sent is the chosen prompt: two services that answer it
      alike give the same result. */
  lemma OnlyChosenPromptIsSent(apiKey: Option<string>, userInput: string, category: string,
                               service1: string -> ApiReply, service2: string -> ApiReply)
    requires service1(ChoosePrompt(userInput, category)) == service2(ChoosePrompt(userInput, category))
    ensures StreamRecommendations(apiKey, userInput, category, service1)
         == StreamRecommendations(apiKey, userInput, category, service2)
  {
  }

  /** A usable reply is returned exactly as received, for any category. */
  lemma ReplyReturnedVerbatim(apiKey: Option<string>, userInput: string, category: string,
                              service: string -> ApiReply)
    requires Truthy(apiKey)
    requires Usable(service(ChoosePrompt(userInput, category)))
    ensures StreamRecommendations(apiKey, userInput, category, service)
         == Success(service(ChoosePrompt(userInput, category)).content)
  {
  }

  /** When the call fails for a known category, the result is the serialized
      text of the record the selector picks for the input, one of that
      category's three literals. */
  lemma FallbackAnswer(apiKey: Option<string>, userInput: string, category: string,
                       service: string -> ApiReply)
    requires Truthy(apiKey)
    requires !Usable(service(ChoosePrompt(userInput, category)))
    requires Known(category)
    ensures GenerateSingleFallback(userInput, category).Success?
    ensures GenerateSingleFallback(userInput, category).value in Choices(category)
    ensures StreamRecommendations(apiKey, userInput, category, service)
         == Success(Serialize(GenerateSingleFallback(userInput, category).value))
  {
  }

  /** An unknown category is asked with the movies prompt, yet when the call
      fails the fallback raises instead of answering with a movie. */
  lemma UnknownCategory(apiKey: Option<string>, userInput: string, category: string,
                        service: string -> ApiReply)
    requires Truthy(apiKey)
    requires !Known(category)
    ensures ChoosePrompt(userInput, category) == Render(MoviesTemplate, userInput)
    ensures !Usable(service(ChoosePrompt(userInput, category)))
        ==> StreamRecommendations(apiKey, userInput, category, service) == Failure(TypeError)
  {
  }

  /** "I love action anime" with the service down: the Demon Slayer text. */
  lemma LoveActionAnimeOffline(apiKey: Option<string>, service: string -> ApiReply)
    requires Truthy(apiKey)
    requires !Usable(service(ChoosePrompt("I love action anime", "anime")))
    ensures StreamRecommendations(apiKey, "I love action anime", "anime", service)
         == Success(Serialize(DemonSlayer))
  {
    LoveActionAnime();
  }

  /** "recommend korean drama" with the service down: the Crash Landing on You text. */
  lemma KoreanDramaOffline(apiKey: Option<string>, service: string -> ApiReply)
    requires Truthy(apiKey)
    requires !Usable(service(ChoosePrompt("recommend korean drama", "web-series")))
    ensures StreamRecommendations(apiKey, "recommend korean drama", "web-series", service)
         == Success(Serialize(CrashLandingOnYou))
  {
    KoreanDrama();
  }
}
