# Cooking planner: a verified model of the plan workflow

`cooking_planner.py` is a single-page meal-planning app. This project
models its sequential core in Dafny:

- **The plan page** (`Workflow.Planner`). The session-state flags
  `cooking_plan`, `meal_plan_generated`, `adjusting_meal_plan`,
  `meal_plan_saved`, `cooking_instructions`, `saved_meal_plan_id`,
  `generating_instructions`, `saved_meal_plan_name` and
  `saved_meal_plan_days` are fields of a class.
  - The phase a run takes (instructions, display, creation) is a function
    of those flags.
  - Every button, and the automatic instructions step, is a method that
    changes the fields.
  - The language model is a function `ask` from the prompt sent to
    `Answer(text)` or `Failure(message)`, so both outcomes are stated.
- **Total-time extraction** (`TotalTime`). The search for
  `**Total time**: ` and its rest of line, stripped, or `"Unknown"`.
- **The guest's saved plans** (`GuestPlans`).
  - Save appends a record.
  - Attaching instructions updates the first record with the saved name.
  - The plan list's search and date filter is a loop, proved against a
    filter function.
- **The three prompts** (`Prompts`). Each is an f-string: fixed text with
  holes. This is enough to prove which inputs each prompt carries verbatim.
- Support modules: `Text` models Python's substring test, `lower()`,
  `strip()` and `str()` of a non-negative int. `Base` holds `Option`.

Every transition method keeps the flag invariant `Valid()`. Each one
states its complete new state and the phase that follows.

## Model

| member | source | states |
|---|---|---|
| Workflow.Planner.constructor | cooking_planner.py:417-430 | A fresh page has every flag at its first-run value, no saved plans, and is in the creation phase. |
| Workflow.Planner.Generate | cooking_planner.py:552-610 | With an empty plan name nothing is sent and no flag changes. Otherwise exactly the recipe prompt for the inputs is sent. An answer becomes `cooking_plan` verbatim and sets `meal_plan_generated`. A failure changes nothing. The page stays in the creation phase. |
| Workflow.Planner.StartAdjustment | cooking_planner.py:618-621 | Only `adjusting_meal_plan` changes, to true. |
| Workflow.Planner.SubmitAdjustment | cooking_planner.py:631-656 | An empty request sends nothing and changes nothing. Otherwise the adjustment prompt built from the current plan is sent. An answer replaces the plan wholesale and ends the adjustment. A failure keeps the previous plan and the adjustment open. |
| Workflow.Planner.CancelAdjustment | cooking_planner.py:658-660 | Whatever request was typed, only `adjusting_meal_plan` changes, to false. The plan is unchanged. |
| Workflow.Planner.Save | cooking_planner.py:663-697 | A guest's list gains exactly one record at its end, and the earlier records stay as they were. A signed-in save records the new id. The name, days, saved flag and generating flag are set, and the next run is the instructions phase. |
| Workflow.Planner.GenerateInstructions | cooking_planner.py:436-516 | Exactly the instructions prompt for the saved days, plan and name is sent. On failure only `generating_instructions` is cleared, and the next run is the creation phase. On an answer, the text is kept and its extracted total time is stored: as a new row under a non-zero plan id for a signed-in user, or on the first guest plan of the saved name. The step ends in the display phase when the text is non-empty. |
| Workflow.Planner.StoreInstructions | cooking_planner.py:478-513 | An answer's text becomes `cooking_instructions`. The text and the given total time are stored for the account or the guest list. `generating_instructions` is cleared. |
| Workflow.Planner.AttachGuestInstructions | cooking_planner.py:505-509 | The indexed scan with `break` leaves the list equal to `AttachInstructions` of the old list. |
| Workflow.Planner.Reset | cooking_planner.py:528-537 | The seven page flags return to their first-run values. The saved name and days, and every saved plan, stay. The next run is the creation phase. |
| Workflow.GuestSaveScenario | cooking_planner.py:552-697 | On a fresh guest page, a successful generate followed by a save leaves exactly one record, carrying the generated text and no instructions, with the instructions phase next. |
| Workflow.GuestInstructionsScenario | cooking_planner.py:436-516 | After a guest's only save, an answer that opens with a total-time line attaches that text and the line's value to the saved plan, and the page shows the instructions. |
| TotalTime.LineValue | cooking_planner.py:488 | The lazy group's capture is a prefix of the text with no CR or LF in it, and it ends only at a CR, an LF or the end of the text. |
| TotalTime.ExtractTotalTime | cooking_planner.py:482-490 | Without the marker the result is `"Unknown"`. The result never starts or ends with whitespace. |
| TotalTime.ExtractHasNoLineBreak | cooking_planner.py:482-490 | The extracted total time never contains a line break. |
| TotalTime.ExtractAfterFirstMarker | cooking_planner.py:488-490 | When the marker first occurs at `i`, the result is the stripped rest of that line after position `i`. |
| TotalTime.LineValueOfLine | cooking_planner.py:488 | A line without breaks, followed by a line feed, is captured exactly. |
| TotalTime.ExtractFromLeadingMarkerLine | cooking_planner.py:482-490 | For instructions that open with the marker line, the result is that line's value whenever the value has no surrounding whitespace. |
| TotalTime.ExtractExample | cooking_planner.py:464 | The format the instructions prompt asks for yields `3 hours 15 minutes` for a sample answer. |
| GuestPlans.NewPlan | cooking_planner.py:665-671 | A freshly saved record has no instructions and no total time. |
| GuestPlans.FirstNamed | cooking_planner.py:505-506 | The result is the position of the first plan with the name, or none when no plan has it. |
| GuestPlans.AttachFirstMatchOnly | cooking_planner.py:505-509 | Attaching keeps the list's length. It changes only the first plan of the name, and only that plan's instructions and total time. With no match the list is unchanged. |
| GuestPlans.AttachToEarlierDuplicate | cooking_planner.py:505-509 | If an earlier plan has the same name, the plan a save just appended gets no instructions. |
| GuestPlans.KeptPositionsIncrease | cooking_planner.py:723-734 | The kept positions are positions of the input, in strictly increasing order. |
| GuestPlans.KeptPositionsExact | cooking_planner.py:723-734 | A position is kept if and only if its plan passes all three tests. |
| GuestPlans.FilteredAtKeptPositions | cooking_planner.py:723-734 | The k-th listed plan is the input plan at the k-th kept position. |
| GuestPlans.FilteredIsOrderedSelection | cooking_planner.py:723-734 | The filter output is an order-preserving selection of exactly the plans that pass the name test and both strict date bounds. |
| GuestPlans.FilteredMembership | cooking_planner.py:723-734 | A plan is listed if and only if it is in the input and passes the tests. |
| GuestPlans.SearchIgnoresCase | cooking_planner.py:728 | Lower-casing the search term or the plan name does not change which plans are kept. |
| GuestPlans.BoundaryDaysExcluded | cooking_planner.py:730-733 | A plan created on the start date or on the end date is not listed. |
| GuestPlans.FilterPlans | cooking_planner.py:723-734 | The loop with `continue` returns exactly the filter function's output. |
| Prompts.RecipePromptMentionsInputs | cooking_planner.py:559-594 | The recipe prompt contains the plan name, the day count, the meals text and each of its lines, and the existing ingredients, verbatim. |
| Prompts.RecipePromptMentionsTargets | cooking_planner.py:563-565 | The recipe prompt contains the cooking style verbatim, and the calorie and three macro figures as their decimal digits. |
| Prompts.RecipePromptMentionsSetup | cooking_planner.py:566-571 | The recipe prompt contains the additional preference, the three units and the kitchen equipment verbatim. |
| Prompts.RecipePromptTitle | cooking_planner.py:589 | The recipe prompt asks for output titled `Recipes for <plan name>`. |
| Prompts.RecipePromptSections | cooking_planner.py:590-594 | The recipe prompt names the `**Recipes**` and `**Grocery list**` sections. |
| Prompts.InstructionsPromptMentions | cooking_planner.py:445-467 | The instructions prompt contains the saved plan text, the kitchen equipment, the day count and the `**Recipes**` section name. |
| Prompts.InstructionsPromptFormat | cooking_planner.py:463-464 | The instructions prompt asks for `Cooking plan for <name>`, and asks for a line that starts with exactly the total-time marker. |
| Prompts.AdjustmentPromptMentions | cooking_planner.py:642-643 | The adjustment prompt opens with the current plan, contains the request verbatim, and ends with the current plan followed by a period. |
| Text.IndexOf | cooking_planner.py:488 | The first position at which a string occurs, or none when it occurs nowhere. |
| Text.StripSlice | cooking_planner.py:490 | `strip()` returns a contiguous slice of its input, and everything cut from either end is whitespace. |
| Text.StripUnchanged | cooking_planner.py:490 | `strip()` leaves a string with no surrounding whitespace unchanged. |
| Text.Lower | cooking_planner.py:728 | `lower()` keeps the length and maps each ASCII capital to its small letter. |
| Text.NatToStringRoundTrip | cooking_planner.py:448 | The decimal text of a day count reads back as that number. |
| Text.ContainsTransitive | cooking_planner.py:728 | A substring of a substring is a substring. |

## Left out

- The user interface is not modelled: rendering, widgets, spinners, `st.rerun`, the dialog and the embedded HTML. A button that is only on screen in some phase becomes a precondition of its method.
- The model client is not modelled. It becomes the `ask` function, and temperatures and system prompts are not modelled.
- Persistence is not modelled: SQLAlchemy models, sessions and queries. A signed-in save is reduced to the id the database hands out (`newId`). An instruction row becomes an `InstructionRecord` appended to `accountInstructions`.
- Workflow.Planner.GenerateInstructions: only a failed model call leads to the failure branch. An exception from the database write at lines 500-501 is not modelled.
- Google sign-in and the auth handler are not modelled. The signed-in user is the constant `user`, an id or `None`.
- `get_kitchen_data` and `get_preferences` are not modelled. The kitchen is an opaque string that stands for Python's `repr` of the equipment, and the preferences are a record passed in.
- Workflow.Planner.Generate: always sends the recipe prompt when the plan name is non-empty, because the model's `Preferences` record holds every key. In the source, a preferences dictionary that lacks a key the prompt reads makes the f-string raise `KeyError` at line 563. That is outside the `try` at line 598, so nothing is sent and no flag changes. This happens for a guest who has not saved preferences, whose defaults use the keys `marco_protein` and `marco_fat` (lines 129-130) where line 565 reads `macro_protein` and `macro_fat`. It also happens for a signed-in user without a preference row, for whom `get_preferences` returns `{}` (line 296).
- `datetime.utcnow()` is not modelled. It is the integer parameter `now`, in seconds. A creation date is the floor of that value divided by 86400.
- `lower()` and `strip()` follow ASCII only. The whitespace set is space, tab, LF, VT, FF, CR and the four separators 0x1C-0x1F.
- The plan list's newest-first sort (line 709) is not modelled. The filter takes the list in whatever order it is given, and keeps that order.
- The database branch of the plan list is not modelled. It calls `.date()` on a value that is already a date (lines 726 and 730), and it displays a stale `total_time` (line 754). The filter is modelled for guest records, whose `created_at` is a timestamp.
- Displaying the list (lines 736-759) is not modelled.
- Workflow.Planner.GenerateInstructions: a failed instructions step clears `generating_instructions` (line 516). The next run is therefore the creation phase with `meal_plan_saved` still true, not an instructions step retried.
- Workflow.Planner.StoreInstructions: a retry means saving again. That appends a second guest record with the same name, and the instructions then go to the first record with that name (see `GuestPlans.AttachToEarlierDuplicate`).
