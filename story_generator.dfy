/** The prompt builder: a tier's word count, one of three prompt texts chosen
    by the authoring mode, and the generator object that hands the prompt to
    the engine and counts the stories it produced. */
module Generator {
  import opened Text
  import opened StoryTemplates
  import PyJson
  import AiEngine

  /** The length tiers and their advisory word counts. */
  const WordCounts: map<string, nat> := map["Short" := 500, "Medium" := 1000, "Long" := 1500]

  /** The three tiers. */
  lemma WordCountTiers()
    ensures WordCounts.Keys == {"Short", "Medium", "Long"}
    ensures WordCounts["Short"] == 500 && WordCounts["Medium"] == 1000 && WordCounts["Long"] == 1500
  {
  }

  /** The decimal text each tier's count is written as in a prompt. */
  lemma WordCountTexts()
    ensures Decimal(WordCounts["Short"]) == "500"
    ensures Decimal(WordCounts["Medium"]) == "1000"
    ensures Decimal(WordCounts["Long"]) == "1500"
  {
    assert Decimal(500) == "500";
    assert Decimal(1000) == "1000";
    assert Decimal(1500) == "1500";
  }

  /** The label both opening-based prompts put in front of the opening. */
  const StoryBeginning: string := "STORY BEGINNING:\n"

  /** The closing instructions of the auto prompt. */
  const AutoTail: string :=
    "- Include: compelling opening, rising action, climax, and satisfying resolution\n\n"
    + "Create an engaging, well-structured story with vivid descriptions and emotional depth."

  /** The pieces of the f-string in `_build_auto_prompt`. */
  function AutoPieces(cat: Catalog, genre: string, theme: string, character: string, setting: string,
                      wordCount: nat): seq<string> {
    [ "Write a ", Decimal(wordCount), "-word ", genre, " story with a ", theme, " theme.\n\n",   // 0..6
      "Story Requirements:\n",                                                                  // 7
      "- Main character: ", character, "\n",                                                    // 8..10
      "- Setting: ", setting, "\n",                                                             // 11..13
      "- Genre elements: ", Join(", ", GenreElements(cat, genre)), "\n",                          // 14..16
      "- Theme focus: ", Join(", ", ThemeElements(cat, theme)), "\n",                             // 17..19
      AutoTail ]
  }

  /** `_build_auto_prompt`. */
  function AutoPrompt(cat: Catalog, genre: string, theme: string, character: string, setting: string,
                      wordCount: nat): string {
    Concat(AutoPieces(cat, genre, theme, character, setting, wordCount))
  }

  /** Where the interpolated values sit among the auto prompt's pieces. */
  lemma AutoPiecesMention(parts: seq<string>, count: string, genre: string, theme: string,
                          character: string, setting: string)
    requires |parts| == 21
    requires parts[1] == count && parts[3] == genre && parts[5] == theme
    requires parts[9] == character && parts[12] == setting
    ensures Contains(Concat(parts), count) && Contains(Concat(parts), genre)
    ensures Contains(Concat(parts), theme)
    ensures Contains(Concat(parts), character) && Contains(Concat(parts), setting)
  {
    ConcatPiece(parts, 1);
    ConcatPiece(parts, 3);
    ConcatPiece(parts, 5);
    ConcatPiece(parts, 9);
    ConcatPiece(parts, 12);
  }

  /** The auto prompt names the count, genre, theme, character and setting. */
  lemma AutoPromptMentions(cat: Catalog, genre: string, theme: string, character: string, setting: string,
                           wordCount: nat)
    ensures var r := AutoPrompt(cat, genre, theme, character, setting, wordCount);
      && Contains(r, Decimal(wordCount))
      && Contains(r, genre) && Contains(r, theme)
      && Contains(r, character) && Contains(r, setting)
  {
    AutoPiecesMention(AutoPieces(cat, genre, theme, character, setting, wordCount),
                      Decimal(wordCount), genre, theme, character, setting);
  }

  /** The auto prompt's "Genre elements" and "Theme focus" lines are the
      `", "`-joins of the catalog's elements for that genre and theme. */
  lemma AutoPromptCatalogLines(cat: Catalog, genre: string, theme: string, character: string, setting: string,
                               wordCount: nat)
    ensures var r := AutoPrompt(cat, genre, theme, character, setting, wordCount);
      && Contains(r, "- Genre elements: " + Join(", ", GenreElements(cat, genre)) + "\n")
      && Contains(r, "- Theme focus: " + Join(", ", ThemeElements(cat, theme)) + "\n")
  {
    var parts := AutoPieces(cat, genre, theme, character, setting, wordCount);
    var r := AutoPrompt(cat, genre, theme, character, setting, wordCount);
    assert Contains(r, "- Genre elements: " + Join(", ", GenreElements(cat, genre)) + "\n") by { ConcatTriple(parts, 14); }
    assert Contains(r, "- Theme focus: " + Join(", ", ThemeElements(cat, theme)) + "\n") by { ConcatTriple(parts, 17); }
  }

  /** The closing instructions of the continuation prompt. */
  const ContinuationTail: string :=
    " words.\n\n"
    + "Include:\n"
    + "- Natural continuation from the provided beginning\n"
    + "- Rising action with engaging plot developments\n"
    + "- A compelling climax\n"
    + "- A satisfying resolution\n\n"
    + "Maintain consistency with the established tone and style."

  /** The pieces of the f-string in `_build_continuation_prompt`. */
  function ContinuationPieces(beginning: string, genre: string, theme: string, character: string,
                              setting: string, wordCount: nat): seq<string> {
    [ "Continue this story in the ", genre, " genre with a ", theme, " theme:\n\n",              // 0..4
      StoryBeginning, beginning,                                                          // 5..6
      "\n\nContinue the story featuring ", character, " in ", setting,                         // 7..10
      ". Write approximately ", Decimal(wordCount),                                             // 11..12
      ContinuationTail ]
  }

  /** `_build_continuation_prompt`. */
  function ContinuationPrompt(beginning: string, genre: string, theme: string, character: string,
                              setting: string, wordCount: nat): string {
    Concat(ContinuationPieces(beginning, genre, theme, character, setting, wordCount))
  }

  /** Where the interpolated values sit among the continuation prompt's
      pieces. */
  lemma ContinuationPiecesMention(parts: seq<string>, beginning: string, genre: string, theme: string,
                                  character: string, setting: string, count: string)
    requires |parts| == 14
    requires parts[1] == genre && parts[3] == theme && parts[5] == StoryBeginning && parts[6] == beginning
    requires parts[8] == character && parts[10] == setting && parts[12] == count
    ensures Contains(Concat(parts), StoryBeginning + beginning) && Contains(Concat(parts), count)
    ensures Contains(Concat(parts), genre) && Contains(Concat(parts), theme)
    ensures Contains(Concat(parts), character) && Contains(Concat(parts), setting)
  {
    ConcatPiece(parts, 1);
    ConcatPiece(parts, 3);
    ConcatPair(parts, 5);
    ConcatPiece(parts, 8);
    ConcatPiece(parts, 10);
    ConcatPiece(parts, 12);
  }

  /** The continuation prompt has the opening verbatim right after the
      `STORY BEGINNING:` line, and names the genre, theme, character, setting
      and count. */
  lemma ContinuationPromptMentions(beginning: string, genre: string, theme: string, character: string,
                                   setting: string, wordCount: nat)
    ensures var r := ContinuationPrompt(beginning, genre, theme, character, setting, wordCount);
      && Contains(r, StoryBeginning + beginning)
      && Contains(r, Decimal(wordCount))
      && Contains(r, genre) && Contains(r, theme)
      && Contains(r, character) && Contains(r, setting)
  {
    ContinuationPiecesMention(ContinuationPieces(beginning, genre, theme, character, setting, wordCount),
                              beginning, genre, theme, character, setting, Decimal(wordCount));
  }

  /** The fixed texts of the analysis prompt. */
  const AnalysisHead: string :=
    "Analyze the writing style, tone, and narrative voice of this story beginning, then continue it seamlessly:\n\n"
  const AnalysisTask: string :=
    "\n\nTask:\n"
    + "1. Match the writing style, tone, and pacing of the beginning\n"
    + "2. Continue the story in "
  const AnalysisTail: string :=
    "5. Include rising action, climax, and resolution\n\n"
    + "Create a cohesive story that feels like it was written by the same author throughout."

  /** The pieces of the f-string in `_build_analysis_prompt`. */
  function AnalysisPieces(beginning: string, genre: string, theme: string, character: string,
                          setting: string, wordCount: nat): seq<string> {
    [ AnalysisHead,
      StoryBeginning, beginning,                                                          // 1..2
      AnalysisTask, genre, " genre with ", theme, " theme\n",                   // 3..7
      "3. Feature ", character, " in ", setting, "\n",                                          // 8..12
      "4. Write approximately ", Decimal(wordCount), " words total (including the beginning)\n", // 13..15
      AnalysisTail ]
  }

  /** `_build_analysis_prompt`. */
  function AnalysisPrompt(beginning: string, genre: string, theme: string, character: string,
                          setting: string, wordCount: nat): string {
    Concat(AnalysisPieces(beginning, genre, theme, character, setting, wordCount))
  }

  /** Where the interpolated values sit among the analysis prompt's pieces. */
  lemma AnalysisPiecesMention(parts: seq<string>, beginning: string, genre: string, theme: string,
                              character: string, setting: string, count: string)
    requires |parts| == 17
    requires parts[1] == StoryBeginning && parts[2] == beginning && parts[4] == genre && parts[6] == theme
    requires parts[9] == character && parts[11] == setting && parts[14] == count
    ensures Contains(Concat(parts), StoryBeginning + beginning) && Contains(Concat(parts), count)
    ensures Contains(Concat(parts), genre) && Contains(Concat(parts), theme)
    ensures Contains(Concat(parts), character) && Contains(Concat(parts), setting)
  {
    ConcatPair(parts, 1);
    ConcatPiece(parts, 4);
    ConcatPiece(parts, 6);
    ConcatPiece(parts, 9);
    ConcatPiece(parts, 11);
    ConcatPiece(parts, 14);
  }

  /** The analysis prompt, like the continuation prompt, has the opening
      verbatim after `STORY BEGINNING:` and names the genre, theme,
      character, setting and count. */
  lemma AnalysisPromptMentions(beginning: string, genre: string, theme: string, character: string,
                               setting: string, wordCount: nat)
    ensures var r := AnalysisPrompt(beginning, genre, theme, character, setting, wordCount);
      && Contains(r, StoryBeginning + beginning)
      && Contains(r, Decimal(wordCount))
      && Contains(r, genre) && Contains(r, theme)
      && Contains(r, character) && Contains(r, setting)
  {
    AnalysisPiecesMention(AnalysisPieces(beginning, genre, theme, character, setting, wordCount),
                          beginning, genre, theme, character, setting, Decimal(wordCount));
  }

  /** The mode dispatch of `generate_story_with_custom_beginning`: `continue`
      and `analyze` have their own prompts, `auto` and every other mode get
      the auto prompt. */
  function BuildPrompt(cat: Catalog, mode: string, beginning: string, genre: string, theme: string,
                       character: string, setting: string, wordCount: nat): string {
    if mode == "auto" then AutoPrompt(cat, genre, theme, character, setting, wordCount)
    else if mode == "continue" then ContinuationPrompt(beginning, genre, theme, character, setting, wordCount)
    else if mode == "analyze" then AnalysisPrompt(beginning, genre, theme, character, setting, wordCount)
    else AutoPrompt(cat, genre, theme, character, setting, wordCount)
  }

  /** Every prompt names the genre, theme, character, setting and word count;
      the two modes built on an opening carry it verbatim after the
      `STORY BEGINNING:` line. */
  lemma PromptMentionsInputs(cat: Catalog, mode: string, beginning: string, genre: string, theme: string,
                             character: string, setting: string, wordCount: nat)
    ensures var p := BuildPrompt(cat, mode, beginning, genre, theme, character, setting, wordCount);
      && Contains(p, genre) && Contains(p, theme) && Contains(p, character) && Contains(p, setting)
      && Contains(p, Decimal(wordCount))
      && (mode == "continue" || mode == "analyze" ==> Contains(p, StoryBeginning + beginning))
  {
    if mode == "continue" {
      ContinuationPromptMentions(beginning, genre, theme, character, setting, wordCount);
    } else if mode == "analyze" {
      AnalysisPromptMentions(beginning, genre, theme, character, setting, wordCount);
    } else {
      AutoPromptMentions(cat, genre, theme, character, setting, wordCount);
    }
  }

  /** `auto` and any unrecognised mode build the auto prompt, which takes no
      opening. */
  lemma AutoModeIgnoresBeginning(cat: Catalog, mode: string, beginning: string, genre: string,
                                 theme: string, character: string, setting: string, wordCount: nat)
    requires mode != "continue" && mode != "analyze"
    ensures BuildPrompt(cat, mode, beginning, genre, theme, character, setting, wordCount)
      == AutoPrompt(cat, genre, theme, character, setting, wordCount)
  {
  }

  /** So in those modes two calls that differ only in the opening build the
      same prompt. */
  lemma OpeningIrrelevantToAuto(cat: Catalog, mode: string, beginning: string, beginning': string,
                                genre: string, theme: string, character: string, setting: string,
                                wordCount: nat)
    requires mode != "continue" && mode != "analyze"
    ensures BuildPrompt(cat, mode, beginning, genre, theme, character, setting, wordCount)
      == BuildPrompt(cat, mode, beginning', genre, theme, character, setting, wordCount)
  {
    AutoModeIgnoresBeginning(cat, mode, beginning, genre, theme, character, setting, wordCount);
    AutoModeIgnoresBeginning(cat, mode, beginning', genre, theme, character, setting, wordCount);
  }

  /** The `continue` and `analyze` prompts are the same whatever the catalog
      holds. */
  lemma OpeningModesIgnoreCatalog(cat: Catalog, cat': Catalog, mode: string, beginning: string, genre: string,
                                  theme: string, character: string, setting: string, wordCount: nat)
    requires mode == "continue" || mode == "analyze"
    ensures BuildPrompt(cat, mode, beginning, genre, theme, character, setting, wordCount)
      == BuildPrompt(cat', mode, beginning, genre, theme, character, setting, wordCount)
  {
  }

  /** A genre or theme missing from the catalog leaves its line empty and the
      prompt is still built. */
  lemma UnknownKeysGiveEmptyLines(cat: Catalog, genre: string, theme: string, character: string,
                                  setting: string, wordCount: nat)
    ensures genre !in cat.genres ==>
      Contains(AutoPrompt(cat, genre, theme, character, setting, wordCount), "- Genre elements: \n")
    ensures theme !in cat.themes ==>
      Contains(AutoPrompt(cat, genre, theme, character, setting, wordCount), "- Theme focus: \n")
  {
    AutoPromptCatalogLines(cat, genre, theme, character, setting, wordCount);
    assert genre !in cat.genres ==> Join(", ", GenreElements(cat, genre)) == "";
    assert theme !in cat.themes ==> Join(", ", ThemeElements(cat, theme)) == "";
    assert "- Genre elements: " + "" + "\n" == "- Genre elements: \n";
    assert "- Theme focus: " + "" + "\n" == "- Theme focus: \n";
  }

  /** For a genre in the catalog, every one of its elements appears in the
      auto prompt. */
  lemma KnownGenreElementsAppear(cat: Catalog, genre: string, theme: string, character: string,
                                 setting: string, wordCount: nat, k: nat)
    requires genre in cat.genres && k < |cat.genres[genre].elements|
    ensures Contains(AutoPrompt(cat, genre, theme, character, setting, wordCount), cat.genres[genre].elements[k])
  {
    var els := GenreElements(cat, genre);
    LabelledJoinContains("- Genre elements: ", els, k);
    AutoPromptCatalogLines(cat, genre, theme, character, setting, wordCount);
    ContainsTransitive(AutoPrompt(cat, genre, theme, character, setting, wordCount),
                       "- Genre elements: " + Join(", ", els) + "\n", els[k]);
  }

  /** For a theme in the catalog, every one of its elements appears in the
      auto prompt. */
  lemma KnownThemeElementsAppear(cat: Catalog, genre: string, theme: string, character: string,
                                 setting: string, wordCount: nat, k: nat)
    requires theme in cat.themes && k < |cat.themes[theme].elements|
    ensures Contains(AutoPrompt(cat, genre, theme, character, setting, wordCount), cat.themes[theme].elements[k])
  {
    var els := ThemeElements(cat, theme);
    LabelledJoinContains("- Theme focus: ", els, k);
    AutoPromptCatalogLines(cat, genre, theme, character, setting, wordCount);
    ContainsTransitive(AutoPrompt(cat, genre, theme, character, setting, wordCount),
                       "- Theme focus: " + Join(", ", els) + "\n", els[k]);
  }

  class StoryGenerator {
    const engine: AiEngine.AIStoryEngine
    /** The genre and theme templates the prompts draw on. */
    const catalog: Catalog
    var storiesGenerated: nat

    /** `StoryGenerator.__init__`: an engine for the provider, no story yet. */
    constructor (aiProvider: string, config: AiEngine.Config)
      ensures engine.provider == AiEngine.ResolveProvider(PyJson.Some(aiProvider))
      ensures engine.apiKey == AiEngine.ApiKeyFor(config, engine.provider)
      ensures catalog == Shipped
      ensures storiesGenerated == 0
    {
      engine := new AiEngine.AIStoryEngine(PyJson.Some(aiProvider), config);
      catalog := Shipped;
      storiesGenerated := 0;
    }

    /** `generate_story_with_custom_beginning`: the tier must be one of the
        three (any other raises `KeyError` before anything happens). The
        prompt the mode selects goes to the engine with the default token
        budget, the engine's text is returned unchanged, and the counter goes
        up by one. */
    method GenerateStoryWithCustomBeginning(customBeginning: string, genre: string, theme: string,
                                            character: string, setting: string, length: string,
                                            continuationMode: string, net: AiEngine.Network)
      returns (story: string)
      requires length in WordCounts
      modifies this, net
      ensures storiesGenerated == old(storiesGenerated) + 1
      ensures var prompt := BuildPrompt(catalog, continuationMode, customBeginning, genre, theme,
                                        character, setting, WordCounts[length]);
        && story == AiEngine.Response(engine.provider, engine.apiKey, prompt, PyJson.None, net.respond,
                                    old(net.sent))
        && net.sent == old(net.sent)
             + AiEngine.Sent(AiEngine.Plan(engine.provider, engine.apiKey, prompt, PyJson.None))
    {
      var wordCount := WordCounts[length];
      var prompt := BuildPrompt(catalog, continuationMode, customBeginning, genre, theme,
                                character, setting, wordCount);
      story := engine.GenerateStory(prompt, PyJson.None, net);
      storiesGenerated := storiesGenerated + 1;
    }
  }
}
