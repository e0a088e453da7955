/** The three prompts the planner sends to the language model, as Python
    f-strings: fixed text with the values substituted into holes
    (cooking_planner.py:559-594, 445-467, 642-643). A substituted value is
    rendered by `str()`; the kitchen inventory, which the source renders with
    the dictionary's `repr`, is taken as an already rendered string. */
module Prompts {
  import opened Text
  import TotalTime

  /** An f-string with `|holes|` replacement fields: `pieces[0]`, then
      `holes[0]`, then `pieces[1]`, and so on, ending with the last piece. */
  function FString(pieces: seq<string>, holes: seq<string>): string
    requires |pieces| == |holes| + 1
    decreases |holes|
  {
    if holes == [] then pieces[0]
    else
      var n := |holes|;
      FString(pieces[..n], holes[..n - 1]) + holes[n - 1] + pieces[n]
  }

  /** Every substituted value appears verbatim in the rendered string,
      between the fixed text that precedes and follows its field. */
  lemma {:induction false} FStringContainsField(pieces: seq<string>, holes: seq<string>, k: nat)
    requires |pieces| == |holes| + 1 && k < |holes|
    ensures Contains(FString(pieces, holes), pieces[k] + holes[k] + pieces[k + 1])
    decreases |holes|
  {
    var n := |holes|;
    var left := FString(pieces[..n], holes[..n - 1]);
    if k == n - 1 {
      if n == 1 {
        assert left == pieces[0];
      } else {
        FStringEndsWith(pieces[..n], holes[..n - 1]);
        assert left == left[..|left| - |pieces[k]|] + pieces[k];
      }
      ContainsInfix(left[..|left| - |pieces[k]|], pieces[k] + holes[k] + pieces[k + 1], []);
      assert left[..|left| - |pieces[k]|] + (pieces[k] + holes[k] + pieces[k + 1]) + []
        == FString(pieces, holes);
    } else {
      FStringContainsField(pieces[..n], holes[..n - 1], k);
      ContainsPrefixOf(left, holes[n - 1] + pieces[n], pieces[k] + holes[k] + pieces[k + 1]);
      assert left + (holes[n - 1] + pieces[n]) == FString(pieces, holes);
    }
  }

  /** The rendered string ends with the last fixed piece. */
  lemma FStringEndsWith(pieces: seq<string>, holes: seq<string>)
    requires |pieces| == |holes| + 1
    ensures var r, last := FString(pieces, holes), pieces[|holes|];
      |last| <= |r| && r[|r| - |last|..] == last
  {
  }

  /** An f-string with three fields is its pieces and values in turn. */
  lemma FStringThreeFields(p0: string, p1: string, p2: string, p3: string,
                           h0: string, h1: string, h2: string)
    ensures var r := FString([p0, p1, p2, p3], [h0, h1, h2]);
      && r == p0 + h0 + p1 + h1 + p2 + h2 + p3
      && |p0 + h0| <= |r| && r[..|p0 + h0|] == p0 + h0
      && |h2 + p3| <= |r| && r[|r| - |h2 + p3|..] == h2 + p3
  {
    assert [p0, p1, p2, p3][..3] == [p0, p1, p2] && [h0, h1, h2][..2] == [h0, h1];
    assert [p0, p1, p2][..2] == [p0, p1] && [h0, h1][..1] == [h0];
    assert [p0, p1][..1] == [p0] && [h0][..0] == [];
    assert FString([p0], []) == p0;
    assert FString([p0, p1], [h0]) == p0 + h0 + p1;
    assert FString([p0, p1, p2], [h0, h1]) == p0 + h0 + p1 + h1 + p2;
  }

  /** Every substituted value appears verbatim in the rendered string. */
  lemma FStringContainsHole(pieces: seq<string>, holes: seq<string>, k: nat)
    requires |pieces| == |holes| + 1 && k < |holes|
    ensures Contains(FString(pieces, holes), holes[k])
  {
    FStringContainsField(pieces, holes, k);
    ContainsInfix(pieces[k], holes[k], pieces[k + 1]);
    ContainsTransitive(FString(pieces, holes), pieces[k] + holes[k] + pieces[k + 1], holes[k]);
  }

  // Line breaks followed by the indentation the source's triple-quoted
  // strings carry.
  const Break20: string := "\n" + "                    "
  const Break32: string := "\n" + "                                "

  /** The section headers the recipe prompt asks the model to produce and the
      instructions prompt refers back to. */
  const RecipesHeader: string := "**Recipes**"
  const GroceryHeader: string := "**Grocery list**"

  /** The user's saved cooking preferences, as the recipe prompt reads them. */
  datatype Preferences = Preferences(
    style: string,
    calories: nat,
    macroProtein: nat,
    macroFat: nat,
    macroCarbs: nat,
    additionalPreference: string,
    temperatureUnit: string,
    liquidUnit: string,
    massUnit: string)

  // The fixed text of the two long prompts, line by line; each source line
  // starts with a line break and the string's indentation. A long line is
  // written as several short literals joined with `+`, split at spaces: the
  // joined text is the source line unchanged (the double space in "my  needs"
  // is the source's own), and short literals keep the verifier fast.

  const RecipeIntro: string :=
      Break32 + "Please help write a meal plan and grocery list tailored to my needs."
      + "\n"
      + Break32 + "Step 1: Understand all the information that you need to write a cooking " + "plan for my  needs."
      + Break32 + "- My cooking style is "

  const RecipeBeforeCalories: string :=
      Break32 + "- My daily calories need is "

  const RecipeBeforeProtein: string :=
      " calories"
      + Break32 + "- My protein, fat, carbs percentage distribution of the daily calories " + "are respectively: "

  const RecipeBeforeFat: string :=
      "%, "

  const RecipeBeforeCarbs: string :=
      "%, "

  const RecipeBeforeNotes: string :=
      "%"
      + Break32 + "- My additional preference is "

  const RecipeBeforeTemperatureUnit: string :=
      " "
      + Break32 + "- My units for temperature unit, liquid unit, and mass unit are: "

  const RecipeBeforeLiquidUnit: string :=
      ", "

  const RecipeBeforeMassUnit: string :=
      ", "

  const RecipeBeforeDays: string :=
      Break32 + "- I want to cook for "

  const RecipeBeforeMeals: string :=
      " for the next week."
      + Break32 + "- The dishes I want to cook are "

  const RecipeBeforeIngredients: string :=
      Break32 + "- The existing ingredients that I want to incorporate into the recipes, " + "if possible, are "

  const RecipeBeforeKitchen: string :=
      "."
      + Break32 + "- For my cooking equipment, besides the basic equipment like knives, " + "spatulas, spoons, forks, mixing bowls, measuring cups, etc., the list " + "of the equipment I have is in "

  const RecipeSteps: string :=
      "\n"
      + Break32 + "Step 2: Generate the recipes for each meal given in Step 1. For each " + "meal:"
      + Break32 + "- Give the meal a name"
      + Break32 + "- State the cooking method"
      + Break32 + "- Estimate the calories for this meal for one day"
      + Break32 + "- Write the recipe. Ensure that the recipe meets the needs in Step 1 " + "and use the cooking equipment only listed in Step 1."
      + Break32 + "  -- Ingredients: List the ingredients. All ingredients must have the " + "amount needed for the recipe."
      + Break32 + "  -- Equipment: List the equipment needed for the recipe"
      + Break32 + "  -- Instructions: List the steps to cook the recipe"
      + "\n"
      + Break32 + "Step 3: Combine the ingredient lists from the three meals into one " + "list. This will be my grocery list."
      + Break32 + "- This grocery list is split into two sections:"
      + Break32 + "  -- 1. Ingredients I already have"
      + Break32 + "  -- 2. Ingredients I need to buy.  All ingredients must have the " + "amount needed for the recipes."
      + Break32 + "- For each ingredient, state the amount needed for that ingredient. If " + "two recipes share the same ingredient, list how much of that ingredient " + "is needed for each meal. For example: \"Mixed greens: 5 cups for " + "breakfast, 5 cups for dinner\"."
      + "\n"
      + Break32 + "Step 4: Export the output in the format below. Ensure that the output " + "does not include any XML tags."

  const InstructionsIntro: string :=
      Break20 + "Please help write a cooking plan, step by step, that is tailored to my " + "needs below."
      + Break20 + "Step 1: Understand all the information that you need to write a cooking " + "plan for my needs."
      + Break20 + "- I have very limited time, so I want to cook all meals for all "

  const InstructionsBeforePlanRecipes: string :=
      " days at once, then store the meals for the week. "
      + Break20 + "- The recipes I want to cook are the section "

  const InstructionsBeforeKitchen: string :=
      Break20 + "- For my cooking equipment, besides the basic equipment like knives, " + "spatulas, spoons, forks, mixing bowls, measuring cups, etc., the list " + "of the equipment I have is in "

  const InstructionsCriteria: string :=
      "\n"
      + Break20 + "Step 2: Generate the cooking plan, step by step. The goal of the " + "cooking plan is to make the cooking as efficient as possible with " + "little waiting time."
      + Break20 + "The plan should meet the following criteria:"
      + Break20 + "- Have very minimal in-cooking equipment washing time"
      + Break20 + "- Utilize all the equipment as much as possible to prepare or cook " + "multiple ingredients simultaneously. "
      + Break20 + "- Include the steps and time for washing produce and washing equipment, " + "if any."
      + Break20 + "- Estimate the time taken for each step. "
      + Break20 + "- Sum up the time from all the steps to get the estimated total time."
      + Break20 + "- Because the food is cooked and stored for the week ahead, include the " + "storing and packing step. "
      + Break20 + "The cooking plan should start from the minute 0 as the starting point " + "of the cooking timeline, then add each step with the step's duration. "
      + Break20
      + Break20 + "Step 3: Export the output in the format below. Ensure that the output " + "does not include any XML tags. "

  // The requested output format of the recipe prompt, after its title line.
  const MealLine: string :=
    Break32 + "(Meal name generated in step 2): (recipe for the meal)\n" + Break32
  const GroceryLine: string := Break32 + "(summarized list of ingredients in step 3)"
  const RecipeSections: string := Break32 + RecipesHeader + MealLine + GroceryHeader + GroceryLine

  // The requested output format of the instructions prompt, after its title line.
  const StepsLines: string :=
    "(estimated total time)" + Break20 + "**Steps**" + Break20 + "- (cooking step)" + Break20
  const InstructionsFormat: string := Break20 + TotalTime.Marker + StepsLines

  /** The fixed text of the recipe prompt, around its fourteen fields. */
  const RecipePieces: seq<string> := [
    RecipeIntro, RecipeBeforeCalories, RecipeBeforeProtein, RecipeBeforeFat,
    RecipeBeforeCarbs, RecipeBeforeNotes, RecipeBeforeTemperatureUnit,
    RecipeBeforeLiquidUnit, RecipeBeforeMassUnit, RecipeBeforeDays,
    RecipeBeforeMeals, RecipeBeforeIngredients, RecipeBeforeKitchen,
    RecipeSteps + Break32 + "Recipes for ", RecipeSections]

  function RecipeHoles(prefs: Preferences, days: nat, meals: string,
                       existingIngredients: string, kitchen: string,
                       planName: string): (holes: seq<string>)
    ensures |holes| == 14 && holes[9] == NatToString(days) && holes[10] == meals
    ensures holes[11] == existingIngredients && holes[13] == planName
  {
    [prefs.style, NatToString(prefs.calories), NatToString(prefs.macroProtein),
     NatToString(prefs.macroFat), NatToString(prefs.macroCarbs),
     prefs.additionalPreference, prefs.temperatureUnit, prefs.liquidUnit,
     prefs.massUnit, NatToString(days), meals, existingIngredients, kitchen,
     planName]
  }

  /** The recipe-and-grocery-list prompt (cooking_planner.py:559-594). */
  function RecipePrompt(prefs: Preferences, days: nat, meals: string,
                        existingIngredients: string, kitchen: string,
                        planName: string): string
  {
    FString(RecipePieces, RecipeHoles(prefs, days, meals, existingIngredients, kitchen, planName))
  }

  /** The recipe prompt carries the day count, the requested meals (so every
      line of the meals text too) and the existing ingredients verbatim. */
  lemma RecipePromptMentionsInputs(prefs: Preferences, days: nat, meals: string,
                                   existingIngredients: string, kitchen: string,
                                   planName: string)
    ensures var p := RecipePrompt(prefs, days, meals, existingIngredients, kitchen, planName);
      && Contains(p, planName)
      && Contains(p, NatToString(days))
      && Contains(p, meals)
      && (forall line :: Contains(meals, line) ==> Contains(p, line))
      && Contains(p, existingIngredients)
  {
    var holes := RecipeHoles(prefs, days, meals, existingIngredients, kitchen, planName);
    var p := FString(RecipePieces, holes);
    FStringContainsHole(RecipePieces, holes, 13);
    FStringContainsHole(RecipePieces, holes, 9);
    FStringContainsHole(RecipePieces, holes, 10);
    FStringContainsHole(RecipePieces, holes, 11);
    forall line | Contains(meals, line) ensures Contains(p, line) {
      ContainsTransitive(p, meals, line);
    }
  }

  /** The recipe prompt carries the cooking style and the calorie and
      macro figures, each as its decimal digits. */
  lemma RecipePromptMentionsTargets(prefs: Preferences, days: nat, meals: string,
                                    existingIngredients: string, kitchen: string,
                                    planName: string)
    ensures var p := RecipePrompt(prefs, days, meals, existingIngredients, kitchen, planName);
      && Contains(p, prefs.style)
      && Contains(p, NatToString(prefs.calories))
      && Contains(p, NatToString(prefs.macroProtein))
      && Contains(p, NatToString(prefs.macroFat))
      && Contains(p, NatToString(prefs.macroCarbs))
  {
    var holes := RecipeHoles(prefs, days, meals, existingIngredients, kitchen, planName);
    assert holes[0] == prefs.style && holes[1] == NatToString(prefs.calories);
    assert holes[2] == NatToString(prefs.macroProtein) && holes[3] == NatToString(prefs.macroFat);
    assert holes[4] == NatToString(prefs.macroCarbs);
    FStringContainsHole(RecipePieces, holes, 0);
    FStringContainsHole(RecipePieces, holes, 1);
    FStringContainsHole(RecipePieces, holes, 2);
    FStringContainsHole(RecipePieces, holes, 3);
    FStringContainsHole(RecipePieces, holes, 4);
  }

  /** The recipe prompt carries the additional preference, the three units
      and the kitchen equipment verbatim. */
  lemma RecipePromptMentionsSetup(prefs: Preferences, days: nat, meals: string,
                                  existingIngredients: string, kitchen: string,
                                  planName: string)
    ensures var p := RecipePrompt(prefs, days, meals, existingIngredients, kitchen, planName);
      && Contains(p, prefs.additionalPreference)
      && Contains(p, prefs.temperatureUnit)
      && Contains(p, prefs.liquidUnit)
      && Contains(p, prefs.massUnit)
      && Contains(p, kitchen)
  {
    var holes := RecipeHoles(prefs, days, meals, existingIngredients, kitchen, planName);
    assert holes[5] == prefs.additionalPreference && holes[6] == prefs.temperatureUnit;
    assert holes[7] == prefs.liquidUnit && holes[8] == prefs.massUnit && holes[12] == kitchen;
    FStringContainsHole(RecipePieces, holes, 5);
    FStringContainsHole(RecipePieces, holes, 6);
    FStringContainsHole(RecipePieces, holes, 7);
    FStringContainsHole(RecipePieces, holes, 8);
    FStringContainsHole(RecipePieces, holes, 12);
  }

  /** The recipe prompt asks for an output titled with the plan name. */
  lemma RecipePromptTitle(prefs: Preferences, days: nat, meals: string,
                          existingIngredients: string, kitchen: string, planName: string)
    ensures Contains(RecipePrompt(prefs, days, meals, existingIngredients, kitchen, planName),
                     "Recipes for " + planName)
  {
    var holes := RecipeHoles(prefs, days, meals, existingIngredients, kitchen, planName);
    var p := FString(RecipePieces, holes);
    FStringContainsField(RecipePieces, holes, 13);
    ContainsAdjacent(p, RecipeSteps + Break32, "Recipes for ", planName, RecipeSections);
  }

  /** The recipe prompt asks for the two sections the saved plan is later
      read by: `**Recipes**` and `**Grocery list**`. */
  lemma RecipePromptSections(prefs: Preferences, days: nat, meals: string,
                             existingIngredients: string, kitchen: string, planName: string)
    ensures var p := RecipePrompt(prefs, days, meals, existingIngredients, kitchen, planName);
      Contains(p, RecipesHeader) && Contains(p, GroceryHeader)
  {
    var holes := RecipeHoles(prefs, days, meals, existingIngredients, kitchen, planName);
    var p := FString(RecipePieces, holes);
    FStringContainsField(RecipePieces, holes, 13);
    ContainsSplit(p, RecipePieces[13] + planName, RecipeSections);
    ContainsSplit(p, Break32 + RecipesHeader + MealLine + GroceryHeader, GroceryLine);
    ContainsSplit(p, Break32 + RecipesHeader + MealLine, GroceryHeader);
    ContainsSplit(p, Break32 + RecipesHeader, MealLine);
    ContainsSplit(p, Break32, RecipesHeader);
  }

  /** The fixed text of the cooking-instructions prompt, around its four fields. */
  const InstructionsPieces: seq<string> := [
    InstructionsIntro, InstructionsBeforePlanRecipes + RecipesHeader + " in ",
    InstructionsBeforeKitchen, InstructionsCriteria + Break20 + "Cooking plan for ",
    InstructionsFormat]

  /** The cooking-instructions prompt (cooking_planner.py:445-467), built from
      the days and name recorded when the plan was saved. */
  function InstructionsPrompt(days: nat, cookingPlan: string, kitchen: string,
                              planName: string): string
  {
    FString(InstructionsPieces, [NatToString(days), cookingPlan, kitchen, planName])
  }

  /** The instructions prompt carries the saved plan text and the kitchen
      equipment verbatim, the day count and the `**Recipes**` section name
      that the recipe prompt asked for. */
  lemma InstructionsPromptMentions(days: nat, cookingPlan: string, kitchen: string,
                                   planName: string)
    ensures var p := InstructionsPrompt(days, cookingPlan, kitchen, planName);
      && Contains(p, cookingPlan)
      && Contains(p, NatToString(days))
      && Contains(p, RecipesHeader)
      && Contains(p, kitchen)
  {
    var holes := [NatToString(days), cookingPlan, kitchen, planName];
    var p := FString(InstructionsPieces, holes);
    FStringContainsHole(InstructionsPieces, holes, 0);
    FStringContainsHole(InstructionsPieces, holes, 1);
    FStringContainsHole(InstructionsPieces, holes, 2);
    FStringContainsField(InstructionsPieces, holes, 1);
    ContainsSplit(p, InstructionsPieces[1] + cookingPlan, InstructionsPieces[2]);
    ContainsSplit(p, InstructionsPieces[1], cookingPlan);
    ContainsSplit(p, InstructionsBeforePlanRecipes + RecipesHeader, " in ");
    ContainsSplit(p, InstructionsBeforePlanRecipes, RecipesHeader);
  }

  /** The instructions prompt asks for an output titled with the saved plan
      name whose next line starts with exactly the marker from which the
      total time is later extracted. */
  lemma InstructionsPromptFormat(days: nat, cookingPlan: string, kitchen: string,
                                 planName: string)
    ensures var p := InstructionsPrompt(days, cookingPlan, kitchen, planName);
      && Contains(p, "Cooking plan for " + planName)
      && Contains(p, Break20 + TotalTime.Marker)
  {
    var holes := [NatToString(days), cookingPlan, kitchen, planName];
    var p := FString(InstructionsPieces, holes);
    FStringContainsField(InstructionsPieces, holes, 3);
    ContainsAdjacent(p, InstructionsCriteria + Break20, "Cooking plan for ", planName,
                     InstructionsFormat);
    ContainsSplit(p, InstructionsPieces[3] + planName, InstructionsFormat);
    ContainsSplit(p, Break20 + TotalTime.Marker, StepsLines);
  }

  const AdjustmentPieces: seq<string> := [
    "Here is my current meal plan:\n\n",
    "\n\nPlease adjust it as follows: ",
    ".\n" + "                                                        "
      + "Output format: Keep the current format of the ",
    "."]

  /** The adjustment prompt (cooking_planner.py:642-643): the current plan,
      the requested change, and the plan once more as the format to keep. */
  function AdjustmentPrompt(cookingPlan: string, request: string): string
  {
    FString(AdjustmentPieces, [cookingPlan, request, cookingPlan])
  }

  /** The adjustment prompt opens with the current plan, carries the request
      verbatim, and closes by naming the current plan as the format to keep. */
  lemma AdjustmentPromptMentions(cookingPlan: string, request: string)
    ensures var p, opening := AdjustmentPrompt(cookingPlan, request),
                              AdjustmentPieces[0] + cookingPlan;
      && |opening| <= |p| && p[..|opening|] == opening
      && Contains(p, request)
      && |cookingPlan| + 1 <= |p| && p[|p| - |cookingPlan| - 1..] == cookingPlan + "."
  {
    var pieces := AdjustmentPieces;
    FStringThreeFields(pieces[0], pieces[1], pieces[2], pieces[3], cookingPlan, request, cookingPlan);
    FStringContainsHole(pieces, [cookingPlan, request, cookingPlan], 1);
  }
}
