/**
 * The nine fallback records of app/actions.ts hold no line break, so the text
 * the fallback path returns has exactly one line per key it writes. Each piece
 * of the records' text is checked on its own (the verifier handles short
 * string literals cheaply and long ones poorly); a record's lemma only puts
 * its pieces together.
 */
module LiteralLines {
  import opened Wrappers
  import opened Text
  import opened Fallback
  import opened FallbackText

  // ---------------------------------------------------------------------------
  // One lemma per distinct piece of literal text
  // ---------------------------------------------------------------------------

  lemma Piece0() ensures '\n' !in "/placeholder.svg?" { }
  lemma Piece1() ensures '\n' !in "height=400&width=300" { }
  lemma Piece2() ensures '\n' !in "Demon Slayer: Kimetsu " { }
  lemma Piece3() ensures '\n' !in "no Yaiba" { }
  lemma Piece4() ensures '\n' !in "Action, Supernatural, " { }
  lemma Piece5() ensures '\n' !in "Historical" { }
  lemma Piece6() ensures '\n' !in "A visually stunning " { }
  lemma Piece7() ensures '\n' !in "anime with " { }
  lemma Piece8() ensures '\n' !in "breathtaking " { }
  lemma Piece9() ensures '\n' !in "animation and " { }
  lemma Piece10() ensures '\n' !in "compelling " { }
  lemma Piece11() ensures '\n' !in "characters. Follows " { }
  lemma Piece12() ensures '\n' !in "Tanjiro's journey to " { }
  lemma Piece13() ensures '\n' !in "save his demon-turned " { }
  lemma Piece14() ensures '\n' !in "sister while fighting " { }
  lemma Piece15() ensures '\n' !in "other demons. The " { }
  lemma Piece16() ensures '\n' !in "fight scenes are " { }
  lemma Piece17() ensures '\n' !in "absolutely incredible " { }
  lemma Piece18() ensures '\n' !in "and the emotional " { }
  lemma Piece19() ensures '\n' !in "depth makes every " { }
  lemma Piece20() ensures '\n' !in "battle meaningful. " { }
  lemma Piece21() ensures '\n' !in "Perfect for fans of " { }
  lemma Piece22() ensures '\n' !in "action-packed stories " { }
  lemma Piece23() ensures '\n' !in "with heart." { }
  lemma Piece24() ensures '\n' !in "&text=Demon+Slayer+" { }
  lemma Piece25() ensures '\n' !in "Poster" { }
  lemma Piece26() ensures '\n' !in "2019" { }
  lemma Piece27() ensures '\n' !in "9/10" { }
  lemma Piece28() ensures '\n' !in "Your Name" { }
  lemma Piece29() ensures '\n' !in "Romance, " { }
  lemma Piece30() ensures '\n' !in "Supernatural, Drama" { }
  lemma Piece31() ensures '\n' !in "A beautiful and " { }
  lemma Piece32() ensures '\n' !in "emotionally powerful " { }
  lemma Piece33() ensures '\n' !in "film about two " { }
  lemma Piece34() ensures '\n' !in "teenagers who " { }
  lemma Piece35() ensures '\n' !in "mysteriously swap " { }
  lemma Piece36() ensures '\n' !in "bodies. The animation " { }
  lemma Piece37() ensures '\n' !in "is gorgeous and the " { }
  lemma Piece38() ensures '\n' !in "story is deeply " { }
  lemma Piece39() ensures '\n' !in "moving, exploring " { }
  lemma Piece40() ensures '\n' !in "themes of connection, " { }
  lemma Piece41() ensures '\n' !in "fate, and love across " { }
  lemma Piece42() ensures '\n' !in "time and space. This " { }
  lemma Piece43() ensures '\n' !in "masterpiece will " { }
  lemma Piece44() ensures '\n' !in "leave you emotionally " { }
  lemma Piece45() ensures '\n' !in "invested and thinking " { }
  lemma Piece46() ensures '\n' !in "about it long after " { }
  lemma Piece47() ensures '\n' !in "the credits roll." { }
  lemma Piece48() ensures '\n' !in "&text=Your+Name+Poster" { }
  lemma Piece49() ensures '\n' !in "2016" { }
  lemma Piece50() ensures '\n' !in "Attack on Titan" { }
  lemma Piece51() ensures '\n' !in "Action, Drama, Dark " { }
  lemma Piece52() ensures '\n' !in "Fantasy" { }
  lemma Piece53() ensures '\n' !in "A gripping and " { }
  lemma Piece54() ensures '\n' !in "intense series that " { }
  lemma Piece55() ensures '\n' !in "keeps you on the edge " { }
  lemma Piece56() ensures '\n' !in "of your seat. The " { }
  lemma Piece57() ensures '\n' !in "story evolves " { }
  lemma Piece58() ensures '\n' !in "dramatically with " { }
  lemma Piece59() ensures '\n' !in "each season, " { }
  lemma Piece60() ensures '\n' !in "featuring complex " { }
  lemma Piece61() ensures '\n' !in "characters and " { }
  lemma Piece62() ensures '\n' !in "shocking plot twists " { }
  lemma Piece63() ensures '\n' !in "that will leave you " { }
  lemma Piece64() ensures '\n' !in "questioning " { }
  lemma Piece65() ensures '\n' !in "everything. Known for " { }
  lemma Piece66() ensures '\n' !in "its mature themes, " { }
  lemma Piece67() ensures '\n' !in "incredible " { }
  lemma Piece68() ensures '\n' !in "world-building, and " { }
  lemma Piece69() ensures '\n' !in "one of the most " { }
  lemma Piece70() ensures '\n' !in "satisfying " { }
  lemma Piece71() ensures '\n' !in "conclusions in anime " { }
  lemma Piece72() ensures '\n' !in "history." { }
  lemma Piece73() ensures '\n' !in "&text=Attack+on+Titan+" { }
  lemma Piece74() ensures '\n' !in "2013" { }
  lemma Piece75() ensures '\n' !in "9.5/10" { }
  lemma Piece76() ensures '\n' !in "Everything Everywhere " { }
  lemma Piece77() ensures '\n' !in "All at Once" { }
  lemma Piece78() ensures '\n' !in "Sci-Fi, Comedy, Drama" { }
  lemma Piece79() ensures '\n' !in "A mind-bending " { }
  lemma Piece80() ensures '\n' !in "multiverse adventure " { }
  lemma Piece81() ensures '\n' !in "that perfectly " { }
  lemma Piece82() ensures '\n' !in "balances absurd humor " { }
  lemma Piece83() ensures '\n' !in "with genuine emotion. " { }
  lemma Piece84() ensures '\n' !in "It's creative, " { }
  lemma Piece85() ensures '\n' !in "heartfelt, and " { }
  lemma Piece86() ensures '\n' !in "visually spectacular, " { }
  lemma Piece87() ensures '\n' !in "exploring themes of " { }
  lemma Piece88() ensures '\n' !in "family, identity, and " { }
  lemma Piece89() ensures '\n' !in "infinite " { }
  lemma Piece90() ensures '\n' !in "possibilities. This " { }
  lemma Piece91() ensures '\n' !in "film manages to be " { }
  lemma Piece92() ensures '\n' !in "both the most " { }
  lemma Piece93() ensures '\n' !in "ridiculous and most " { }
  lemma Piece94() ensures '\n' !in "touching movie you'll " { }
  lemma Piece95() ensures '\n' !in "ever see, with " { }
  lemma Piece96() ensures '\n' !in "performances and " { }
  lemma Piece97() ensures '\n' !in "groundbreaking visual " { }
  lemma Piece98() ensures '\n' !in "effects." { }
  lemma Piece99() ensures '\n' !in "&text=Everything+" { }
  lemma Piece100() ensures '\n' !in "Everywhere+All+at+" { }
  lemma Piece101() ensures '\n' !in "Once+Poster" { }
  lemma Piece102() ensures '\n' !in "2022" { }
  lemma Piece103() ensures '\n' !in "Parasite" { }
  lemma Piece104() ensures '\n' !in "Thriller, Drama, Dark " { }
  lemma Piece105() ensures '\n' !in "Comedy" { }
  lemma Piece106() ensures '\n' !in "A masterful social " { }
  lemma Piece107() ensures '\n' !in "thriller that " { }
  lemma Piece108() ensures '\n' !in "examines class " { }
  lemma Piece109() ensures '\n' !in "inequality with sharp " { }
  lemma Piece110() ensures '\n' !in "wit and unexpected " { }
  lemma Piece111() ensures '\n' !in "turns. Bong Joon-ho's " { }
  lemma Piece112() ensures '\n' !in "direction is " { }
  lemma Piece113() ensures '\n' !in "flawless, creating a " { }
  lemma Piece114() ensures '\n' !in "film that's both " { }
  lemma Piece115() ensures '\n' !in "entertaining and " { }
  lemma Piece116() ensures '\n' !in "deeply " { }
  lemma Piece117() ensures '\n' !in "thought-provoking. " { }
  lemma Piece118() ensures '\n' !in "The movie builds " { }
  lemma Piece119() ensures '\n' !in "tension masterfully " { }
  lemma Piece120() ensures '\n' !in "while delivering " { }
  lemma Piece121() ensures '\n' !in "biting social " { }
  lemma Piece122() ensures '\n' !in "commentary, making it " { }
  lemma Piece123() ensures '\n' !in "both a thrilling " { }
  lemma Piece124() ensures '\n' !in "watch and an " { }
  lemma Piece125() ensures '\n' !in "important cultural " { }
  lemma Piece126() ensures '\n' !in "statement." { }
  lemma Piece127() ensures '\n' !in "&text=Parasite+Poster" { }
  lemma Piece128() ensures '\n' !in "Inception" { }
  lemma Piece129() ensures '\n' !in "Sci-Fi, Action, " { }
  lemma Piece130() ensures '\n' !in "Thriller" { }
  lemma Piece131() ensures '\n' !in "Christopher Nolan's " { }
  lemma Piece132() ensures '\n' !in "complex and visually " { }
  lemma Piece133() ensures '\n' !in "stunning exploration " { }
  lemma Piece134() ensures '\n' !in "of dreams within " { }
  lemma Piece135() ensures '\n' !in "dreams. The action " { }
  lemma Piece136() ensures '\n' !in "sequences and concept " { }
  lemma Piece137() ensures '\n' !in "are equally " { }
  lemma Piece138() ensures '\n' !in "impressive, creating " { }
  lemma Piece139() ensures '\n' !in "a unique cinematic " { }
  lemma Piece140() ensures '\n' !in "experience that " { }
  lemma Piece141() ensures '\n' !in "rewards multiple " { }
  lemma Piece142() ensures '\n' !in "viewings. With its " { }
  lemma Piece143() ensures '\n' !in "intricate plot, " { }
  lemma Piece144() ensures '\n' !in "stunning practical " { }
  lemma Piece145() ensures '\n' !in "effects, and Hans " { }
  lemma Piece146() ensures '\n' !in "Zimmer's iconic " { }
  lemma Piece147() ensures '\n' !in "score, this film " { }
  lemma Piece148() ensures '\n' !in "redefined what " { }
  lemma Piece149() ensures '\n' !in "blockbuster cinema " { }
  lemma Piece150() ensures '\n' !in "could achieve." { }
  lemma Piece151() ensures '\n' !in "&text=Inception+Poster" { }
  lemma Piece152() ensures '\n' !in "2010" { }
  lemma Piece153() ensures '\n' !in "Crash Landing on You" { }
  lemma Piece154() ensures '\n' !in "Romance, Drama, Comedy" { }
  lemma Piece155() ensures '\n' !in "One of the best " { }
  lemma Piece156() ensures '\n' !in "K-dramas ever made, " { }
  lemma Piece157() ensures '\n' !in "telling the unlikely " { }
  lemma Piece158() ensures '\n' !in "love story between a " { }
  lemma Piece159() ensures '\n' !in "South Korean heiress " { }
  lemma Piece160() ensures '\n' !in "and North Korean " { }
  lemma Piece161() ensures '\n' !in "officer. Perfect mix " { }
  lemma Piece162() ensures '\n' !in "of romance, comedy, " { }
  lemma Piece163() ensures '\n' !in "and cultural " { }
  lemma Piece164() ensures '\n' !in "exploration with " { }
  lemma Piece165() ensures '\n' !in "outstanding " { }
  lemma Piece166() ensures '\n' !in "performances. The " { }
  lemma Piece167() ensures '\n' !in "show beautifully " { }
  lemma Piece168() ensures '\n' !in "balances humor and " { }
  lemma Piece169() ensures '\n' !in "heart while providing " { }
  lemma Piece170() ensures '\n' !in "insight into Korean " { }
  lemma Piece171() ensures '\n' !in "culture and the " { }
  lemma Piece172() ensures '\n' !in "divide between North " { }
  lemma Piece173() ensures '\n' !in "and South Korea." { }
  lemma Piece174() ensures '\n' !in "&text=Crash+Landing+" { }
  lemma Piece175() ensures '\n' !in "on+You+Poster" { }
  lemma Piece176() ensures '\n' !in "Netflix" { }
  lemma Piece177() ensures '\n' !in "Stranger Things" { }
  lemma Piece178() ensures '\n' !in "Sci-Fi, Horror, Drama" { }
  lemma Piece179() ensures '\n' !in "A perfect blend of " { }
  lemma Piece180() ensures '\n' !in "80s nostalgia, " { }
  lemma Piece181() ensures '\n' !in "supernatural horror, " { }
  lemma Piece182() ensures '\n' !in "and heartfelt " { }
  lemma Piece183() ensures '\n' !in "friendship. The " { }
  lemma Piece184() ensures '\n' !in "characters are " { }
  lemma Piece185() ensures '\n' !in "lovable and the " { }
  lemma Piece186() ensures '\n' !in "mysteries are " { }
  lemma Piece187() ensures '\n' !in "compelling, creating " { }
  lemma Piece188() ensures '\n' !in "an addictive viewing " { }
  lemma Piece189() ensures '\n' !in "experience. With its " { }
  lemma Piece190() ensures '\n' !in "perfect mix of " { }
  lemma Piece191() ensures '\n' !in "horror, humor, and " { }
  lemma Piece192() ensures '\n' !in "heart, plus " { }
  lemma Piece193() ensures '\n' !in "performances from " { }
  lemma Piece194() ensures '\n' !in "both adult and child " { }
  lemma Piece195() ensures '\n' !in "actors, this series " { }
  lemma Piece196() ensures '\n' !in "captures the magic of " { }
  lemma Piece197() ensures '\n' !in "childhood adventure " { }
  lemma Piece198() ensures '\n' !in "stories." { }
  lemma Piece199() ensures '\n' !in "&text=Stranger+Things+" { }
  lemma Piece200() ensures '\n' !in "The Queen's Gambit" { }
  lemma Piece201() ensures '\n' !in "Drama, Coming-of-age" { }
  lemma Piece202() ensures '\n' !in "A beautifully crafted " { }
  lemma Piece203() ensures '\n' !in "series about a chess " { }
  lemma Piece204() ensures '\n' !in "prodigy's rise to " { }
  lemma Piece205() ensures '\n' !in "fame while battling " { }
  lemma Piece206() ensures '\n' !in "addiction. Anya " { }
  lemma Piece207() ensures '\n' !in "Taylor-Joy's " { }
  lemma Piece208() ensures '\n' !in "performance is " { }
  lemma Piece209() ensures '\n' !in "exceptional, and the " { }
  lemma Piece210() ensures '\n' !in "show makes chess " { }
  lemma Piece211() ensures '\n' !in "surprisingly " { }
  lemma Piece212() ensures '\n' !in "thrilling. The series " { }
  lemma Piece213() ensures '\n' !in "combines stunning " { }
  lemma Piece214() ensures '\n' !in "period details with " { }
  lemma Piece215() ensures '\n' !in "compelling character " { }
  lemma Piece216() ensures '\n' !in "development, creating " { }
  lemma Piece217() ensures '\n' !in "a story that's both " { }
  lemma Piece218() ensures '\n' !in "visually gorgeous and " { }
  lemma Piece219() ensures '\n' !in "emotionally resonant." { }
  lemma Piece220() ensures '\n' !in "&text=The+Queens+" { }
  lemma Piece221() ensures '\n' !in "Gambit+Poster" { }
  lemma Piece222() ensures '\n' !in "2020" { }

  // ---------------------------------------------------------------------------
  // The records
  // ---------------------------------------------------------------------------

  /** Demon Slayer: Kimetsu no Yaiba (app/actions.ts:65-73) holds no line break. */
  lemma DemonSlayerSingleLine()
    ensures NoNewlines(DemonSlayer)
  {
    Piece0(); Piece1(); Piece2(); Piece3(); Piece4(); Piece5();
    Piece6(); Piece7(); Piece8(); Piece9(); Piece10(); Piece11();
    Piece12(); Piece13(); Piece14(); Piece15(); Piece16(); Piece17();
    Piece18(); Piece19(); Piece20(); Piece21(); Piece22(); Piece23();
    Piece24(); Piece25(); Piece26(); Piece27();
  }

  /** Your Name (app/actions.ts:74-82) holds no line break. */
  lemma YourNameSingleLine()
    ensures NoNewlines(YourName)
  {
    Piece0(); Piece1(); Piece27(); Piece28(); Piece29(); Piece30();
    Piece31(); Piece32(); Piece33(); Piece34(); Piece35(); Piece36();
    Piece37(); Piece38(); Piece39(); Piece40(); Piece41(); Piece42();
    Piece43(); Piece44(); Piece45(); Piece46(); Piece47(); Piece48();
    Piece49();
  }

  /** Attack on Titan (app/actions.ts:83-91) holds no line break. */
  lemma AttackOnTitanSingleLine()
    ensures NoNewlines(AttackOnTitan)
  {
    Piece0(); Piece1(); Piece25(); Piece50(); Piece51(); Piece52();
    Piece53(); Piece54(); Piece55(); Piece56(); Piece57(); Piece58();
    Piece59(); Piece60(); Piece61(); Piece62(); Piece63(); Piece64();
    Piece65(); Piece66(); Piece67(); Piece68(); Piece69(); Piece70();
    Piece71(); Piece72(); Piece73(); Piece74(); Piece75();
  }

  /** Everything Everywhere All at Once (app/actions.ts:94-102) holds no line break. */
  lemma EverythingEverywhereSingleLine()
    ensures NoNewlines(EverythingEverywhere)
  {
    Piece0(); Piece1(); Piece67(); Piece75(); Piece76(); Piece77();
    Piece78(); Piece79(); Piece80(); Piece81(); Piece82(); Piece83();
    Piece84(); Piece85(); Piece86(); Piece87(); Piece88(); Piece89();
    Piece90(); Piece91(); Piece92(); Piece93(); Piece94(); Piece95();
    Piece96(); Piece97(); Piece98(); Piece99(); Piece100(); Piece101();
    Piece102();
  }

  /** Parasite (app/actions.ts:103-111) holds no line break. */
  lemma ParasiteSingleLine()
    ensures NoNewlines(Parasite)
  {
    Piece0(); Piece1(); Piece26(); Piece75(); Piece103(); Piece104();
    Piece105(); Piece106(); Piece107(); Piece108(); Piece109(); Piece110();
    Piece111(); Piece112(); Piece113(); Piece114(); Piece115(); Piece116();
    Piece117(); Piece118(); Piece119(); Piece120(); Piece121(); Piece122();
    Piece123(); Piece124(); Piece125(); Piece126(); Piece127();
  }

  /** Inception (app/actions.ts:112-120) holds no line break. */
  lemma InceptionSingleLine()
    ensures NoNewlines(Inception)
  {
    Piece0(); Piece1(); Piece27(); Piece128(); Piece129(); Piece130();
    Piece131(); Piece132(); Piece133(); Piece134(); Piece135(); Piece136();
    Piece137(); Piece138(); Piece139(); Piece140(); Piece141(); Piece142();
    Piece143(); Piece144(); Piece145(); Piece146(); Piece147(); Piece148();
    Piece149(); Piece150(); Piece151(); Piece152();
  }

  /** Crash Landing on You (app/actions.ts:123-132) holds no line break. */
  lemma CrashLandingOnYouSingleLine()
    ensures NoNewlines(CrashLandingOnYou)
  {
    Piece0(); Piece1(); Piece26(); Piece75(); Piece153(); Piece154();
    Piece155(); Piece156(); Piece157(); Piece158(); Piece159(); Piece160();
    Piece161(); Piece162(); Piece163(); Piece164(); Piece165(); Piece166();
    Piece167(); Piece168(); Piece169(); Piece170(); Piece171(); Piece172();
    Piece173(); Piece174(); Piece175(); Piece176();
  }

  /** Stranger Things (app/actions.ts:133-142) holds no line break. */
  lemma StrangerThingsSingleLine()
    ensures NoNewlines(StrangerThings)
  {
    Piece0(); Piece1(); Piece25(); Piece27(); Piece49(); Piece67();
    Piece176(); Piece177(); Piece178(); Piece179(); Piece180(); Piece181();
    Piece182(); Piece183(); Piece184(); Piece185(); Piece186(); Piece187();
    Piece188(); Piece189(); Piece190(); Piece191(); Piece192(); Piece193();
    Piece194(); Piece195(); Piece196(); Piece197(); Piece198(); Piece199();
  }

  /** The Queen's Gambit (app/actions.ts:143-152) holds no line break. */
  lemma QueensGambitSingleLine()
    ensures NoNewlines(QueensGambit)
  {
    Piece0(); Piece1(); Piece75(); Piece176(); Piece200(); Piece201();
    Piece202(); Piece203(); Piece204(); Piece205(); Piece206(); Piece207();
    Piece208(); Piece209(); Piece210(); Piece211(); Piece212(); Piece213();
    Piece214(); Piece215(); Piece216(); Piece217(); Piece218(); Piece219();
    Piece220(); Piece221(); Piece222();
  }
  // ---------------------------------------------------------------------------
  // Every fallback record
  // ---------------------------------------------------------------------------

  /** The three anime records hold no line break. */
  lemma AnimeSingleLine(d: Recommendation)
    requires d in Entries(Anime)
    ensures NoNewlines(d)
  {
    DemonSlayerSingleLine();
    YourNameSingleLine();
    AttackOnTitanSingleLine();
  }

  /** The three movie records hold no line break. */
  lemma MoviesSingleLine(d: Recommendation)
    requires d in Entries(Movies)
    ensures NoNewlines(d)
  {
    EverythingEverywhereSingleLine();
    ParasiteSingleLine();
    InceptionSingleLine();
  }

  /** The three web-series records hold no line break. */
  lemma WebSeriesSingleLine(d: Recommendation)
    requires d in Entries(WebSeries)
    ensures NoNewlines(d)
  {
    CrashLandingOnYouSingleLine();
    StrangerThingsSingleLine();
    QueensGambitSingleLine();
  }

  /** Every record the selector can return holds no line break. */
  lemma LiteralsSingleLine(category: string, d: Recommendation)
    requires d in Choices(category)
    ensures NoNewlines(d)
  {
    match CategoryRecs(category)
    case Some(Anime) => AnimeSingleLine(d);
    case Some(Movies) => MoviesSingleLine(d);
    case Some(WebSeries) => WebSeriesSingleLine(d);
  }

  /** The text the fallback path returns splits at line breaks into exactly one
      `KEY: value` line per key it writes, in key order, with nothing after the
      POSTER line: seven lines for a web series, six otherwise. */
  lemma LiteralTextLines(category: string, d: Recommendation)
    requires d in Choices(category)
    ensures Split(Serialize(d), '\n') == Lines(d, KeyOrder)
    ensures |Split(Serialize(d), '\n')| == if category == "web-series" then 7 else 6
  {
    LiteralsSingleLine(category, d);
    LiteralsWellFormed(category, d);
    SerializeLines(d);
    LinesShape(d, KeyOrder);
    LiteralKeys(category, d);
  }
}
