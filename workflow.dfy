/** The plan page's workflow (cooking_planner.py:413-697): session-state
    flags that decide which of three branches a run takes, and the
    transitions the page's buttons and its automatic instruction step make.
    A call to the language model is the function `ask`, from the prompt sent
    to what came back: the text of the reply, or the error it raised. */
module Workflow {
  import opened Base
  import opened Text
  import TotalTime
  import Prompts
  import opened GuestPlans

  /** The outcome of one call to the language model. */
  datatype Reply = Answer(text: string) | Failure(message: string)

  /** The three branches a run of the page takes
      (cooking_planner.py:433, 519, 541). */
  datatype Phase = InstructionsPhase | DisplayPhase | CreationPhase

  /** The fields of a cooking-instructions row an account save writes
      (cooking_planner.py:495-499). */
  datatype InstructionRecord = InstructionRecord(mealPlanId: int, totalTime: string,
                                                 instructions: string)

  /** Python truthiness of an optional string: present and not empty. */
  predicate Truthy(s: Option<string>)
  {
    s.Some? && s.value != []
  }

  /** The page's session-state flags (cooking_planner.py:417-430, 691-692);
      `None` stands for Python's None or for a key not yet set. */
  datatype Session = Session(
    cookingPlan: Option<string>,
    mealPlanGenerated: bool,
    adjustingMealPlan: bool,
    mealPlanSaved: bool,
    cookingInstructions: Option<string>,
    savedMealPlanId: Option<int>,
    generatingInstructions: bool,
    savedMealPlanName: Option<string>,
    savedMealPlanDays: Option<nat>)

  /** The flags on the first run of a session. */
  const Initial: Session := Session(None, false, false, false, None, None, false, None, None)

  /** The branch a run takes, decided by the flags alone. */
  function PhaseOf(s: Session): Phase
  {
    if s.mealPlanSaved && s.generatingInstructions then InstructionsPhase
    else if s.mealPlanSaved && Truthy(s.cookingInstructions) then DisplayPhase
    else CreationPhase
  }

  /** The generated plan and its buttons are on screen (cooking_planner.py:613). */
  predicate PlanShown(s: Session)
  {
    s.mealPlanGenerated && Truthy(s.cookingPlan)
  }

  /** What every reachable combination of flags satisfies. */
  predicate Consistent(s: Session)
  {
    && (s.mealPlanGenerated ==> s.cookingPlan.Some?)
    && (s.adjustingMealPlan ==> s.mealPlanGenerated)
    && (s.mealPlanSaved ==> s.mealPlanGenerated)
    && (s.mealPlanSaved ==> s.savedMealPlanName.Some? && s.savedMealPlanDays.Some?)
    && (s.generatingInstructions ==> s.mealPlanSaved && !Truthy(s.cookingInstructions))
    && (s.cookingInstructions.Some? ==> s.mealPlanSaved)
  }

  /** The plan page of one browser session. */
  class Planner {
    var cookingPlan: Option<string>
    var mealPlanGenerated: bool
    var adjustingMealPlan: bool
    var mealPlanSaved: bool
    var cookingInstructions: Option<string>
    var savedMealPlanId: Option<int>
    var generatingInstructions: bool
    var savedMealPlanName: Option<string>
    var savedMealPlanDays: Option<nat>
    /** The plans a guest saved in this session (`guest_meal_plans`). */
    var guestMealPlans: seq<GuestPlan>
    /** The instruction rows written for a signed-in user, oldest first. */
    var accountInstructions: seq<InstructionRecord>
    /** The signed-in user's id, or None for a guest. */
    const user: Option<int>

    function State(): Session
      reads this
    {
      Session(cookingPlan, mealPlanGenerated, adjustingMealPlan, mealPlanSaved,
              cookingInstructions, savedMealPlanId, generatingInstructions,
              savedMealPlanName, savedMealPlanDays)
    }

    predicate Valid()
      reads this
    {
      Consistent(State())
    }

    function Phase(): Phase
      reads this
    {
      PhaseOf(State())
    }

    /** The first run of the page for a session (cooking_planner.py:137-138,
        417-430). */
    constructor (user: Option<int>)
      ensures Valid() && State() == Initial && Phase() == CreationPhase
      ensures this.user == user && guestMealPlans == [] && accountInstructions == []
    {
      this.user := user;
      cookingPlan, mealPlanGenerated, adjustingMealPlan, mealPlanSaved := None, false, false, false;
      cookingInstructions, savedMealPlanId, generatingInstructions := None, None, false;
      savedMealPlanName, savedMealPlanDays := None, None;
      guestMealPlans, accountInstructions := [], [];
    }

    /** "Generate Meal Plan" (cooking_planner.py:552-610). Without a plan name
        nothing is sent and nothing changes. Otherwise the recipe prompt is
        sent; an answer becomes the plan, exactly as returned, and a failure
        changes nothing. */
    method Generate(planName: string, days: nat, existingIngredients: string, meals: string,
                    prefs: Prompts.Preferences, kitchen: string, ask: string -> Reply)
      returns (request: Option<string>)
      requires Valid() && Phase() == CreationPhase
      requires 1 <= days <= 14
      modifies this
      ensures Valid()
      ensures planName == [] ==> request.None? && State() == old(State())
      ensures planName != [] ==>
        request == Some(Prompts.RecipePrompt(prefs, days, meals, existingIngredients, kitchen,
                                             planName))
      ensures request.Some? && ask(request.value).Answer? ==>
        State() == old(State()).(cookingPlan := Some(ask(request.value).text),
                                 mealPlanGenerated := true)
      ensures request.Some? && ask(request.value).Failure? ==> State() == old(State())
      ensures Phase() == CreationPhase
      ensures guestMealPlans == old(guestMealPlans)
      ensures accountInstructions == old(accountInstructions)
    {
      if planName == [] {
        request := None;
      } else {
        var prompt := Prompts.RecipePrompt(prefs, days, meals, existingIngredients, kitchen,
                                           planName);
        request := Some(prompt);
        match ask(prompt)
        case Answer(text) =>
          cookingPlan := Some(text);
          mealPlanGenerated := true;
        case Failure(_) =>
      }
    }

    /** "Adjust meal plan" (cooking_planner.py:618-621): only the adjusting
        flag changes. */
    method StartAdjustment()
      requires Valid() && Phase() == CreationPhase
      requires PlanShown(State()) && !adjustingMealPlan
      modifies this
      ensures Valid()
      ensures State() == old(State()).(adjustingMealPlan := true)
      ensures guestMealPlans == old(guestMealPlans)
      ensures accountInstructions == old(accountInstructions)
    {
      adjustingMealPlan := true;
    }

    /** "Submit Adjustment" (cooking_planner.py:631-656). An empty request
        sends nothing and changes nothing. Otherwise the adjustment prompt is
        sent; an answer replaces the plan wholesale and ends the adjustment,
        and a failure keeps the previous plan with the adjustment still open. */
    method SubmitAdjustment(adjustment: string, ask: string -> Reply)
      returns (request: Option<string>)
      requires Valid() && Phase() == CreationPhase
      requires PlanShown(State()) && adjustingMealPlan
      modifies this
      ensures Valid()
      ensures adjustment == [] ==> request.None? && State() == old(State())
      ensures adjustment != [] ==>
        request == Some(Prompts.AdjustmentPrompt(old(cookingPlan).value, adjustment))
      ensures request.Some? && ask(request.value).Answer? ==>
        State() == old(State()).(cookingPlan := Some(ask(request.value).text),
                                 adjustingMealPlan := false)
      ensures request.Some? && ask(request.value).Failure? ==> State() == old(State())
      ensures Phase() == CreationPhase
      ensures guestMealPlans == old(guestMealPlans)
      ensures accountInstructions == old(accountInstructions)
    {
      if adjustment == [] {
        request := None;
      } else {
        var prompt := Prompts.AdjustmentPrompt(cookingPlan.value, adjustment);
        request := Some(prompt);
        match ask(prompt)
        case Answer(text) =>
          cookingPlan := Some(text);
          adjustingMealPlan := false;
        case Failure(_) =>
      }
    }

    /** "Cancel Adjustment" (cooking_planner.py:658-660): the adjustment
        ends, whatever request had been typed, and the plan stays as it was. */
    method CancelAdjustment(adjustment: string)
      requires Valid() && Phase() == CreationPhase
      requires PlanShown(State()) && adjustingMealPlan
      modifies this
      ensures Valid()
      ensures State() == old(State()).(adjustingMealPlan := false)
      ensures guestMealPlans == old(guestMealPlans)
      ensures accountInstructions == old(accountInstructions)
    {
      adjustingMealPlan := false;
    }

    /** "Save Meal Plan & Generate Cooking Instructions"
        (cooking_planner.py:663-697). A guest's plan is appended to the
        session's list; a signed-in user's plan is stored under the id the
        database hands out (`newId`). Either way the name and day count are
        recorded and the next run is forced into the instructions phase. */
    method Save(planName: string, days: nat, existingIngredients: string, now: int, newId: int)
      requires Valid() && Phase() == CreationPhase && PlanShown(State())
      requires 1 <= days <= 14
      modifies this
      ensures Valid()
      ensures user.None? ==>
        guestMealPlans == old(guestMealPlans)
          + [NewPlan(planName, days, existingIngredients, old(cookingPlan).value, now)]
      ensures user.Some? ==> guestMealPlans == old(guestMealPlans)
      ensures State() == old(State()).(
        savedMealPlanId := if user.Some? then Some(newId) else None,
        savedMealPlanName := Some(planName),
        savedMealPlanDays := Some(days),
        mealPlanSaved := true,
        generatingInstructions := true)
      ensures Phase() == InstructionsPhase
      ensures accountInstructions == old(accountInstructions)
    {
      var mealPlanId: Option<int> := None;
      if user.Some? {
        mealPlanId := Some(newId);
      } else {
        guestMealPlans := guestMealPlans
          + [NewPlan(planName, days, existingIngredients, cookingPlan.value, now)];
      }
      savedMealPlanId := mealPlanId;
      savedMealPlanName := Some(planName);
      savedMealPlanDays := Some(days);
      mealPlanSaved := true;
      generatingInstructions := true;
    }

    /** The instructions phase (cooking_planner.py:436-516), run automatically
        after a save. The instructions prompt is built from the saved name,
        day count and plan and sent. An answer is kept, its total time
        extracted, and the pair stored: under the plan's id for a signed-in
        user, on the first guest plan of that name for a guest. Success or
        failure, the instructions step ends; a failure leaves the page in the
        creation phase with the plan still marked saved. */
    method GenerateInstructions(kitchen: string, ask: string -> Reply) returns (request: string)
      requires Valid() && Phase() == InstructionsPhase
      modifies this
      ensures Valid()
      ensures request == Prompts.InstructionsPrompt(old(savedMealPlanDays).value,
                                                    old(cookingPlan).value, kitchen,
                                                    old(savedMealPlanName).value)
      ensures ask(request).Failure? ==>
        && State() == old(State()).(generatingInstructions := false)
        && guestMealPlans == old(guestMealPlans)
        && accountInstructions == old(accountInstructions)
        && Phase() == CreationPhase
      ensures ask(request).Answer? ==>
        var text := ask(request).text;
        var totalTime := TotalTime.ExtractTotalTime(text);
        && State() == old(State()).(cookingInstructions := Some(text),
                                    generatingInstructions := false)
        && Phase() == (if text != [] then DisplayPhase else CreationPhase)
        && (if user.Some? && savedMealPlanId.Some? && savedMealPlanId.value != 0 then
              accountInstructions == old(accountInstructions)
                + [InstructionRecord(savedMealPlanId.value, totalTime, text)]
            else accountInstructions == old(accountInstructions))
        && (if user.None? then
              guestMealPlans == AttachInstructions(old(guestMealPlans),
                                                   savedMealPlanName.value, text, totalTime)
            else guestMealPlans == old(guestMealPlans))
    {
      request := Prompts.InstructionsPrompt(savedMealPlanDays.value, cookingPlan.value, kitchen,
                                            savedMealPlanName.value);
      match ask(request)
      case Answer(text) =>
        StoreInstructions(text, TotalTime.ExtractTotalTime(text));
      case Failure(_) =>
        generatingInstructions := false;
    }

    /** What the instructions phase does with an answer
        (cooking_planner.py:478-513): keep the text, store it with the
        total time read from it, and end the instructions step. */
    method StoreInstructions(text: string, totalTime: string)
      requires Valid() && Phase() == InstructionsPhase
      modifies this
      ensures Valid()
      ensures State() == old(State()).(cookingInstructions := Some(text),
                                       generatingInstructions := false)
      ensures Phase() == (if text != [] then DisplayPhase else CreationPhase)
      ensures if user.Some? && savedMealPlanId.Some? && savedMealPlanId.value != 0 then
                accountInstructions == old(accountInstructions)
                  + [InstructionRecord(savedMealPlanId.value, totalTime, text)]
              else accountInstructions == old(accountInstructions)
      ensures if user.None? then
                guestMealPlans == AttachInstructions(old(guestMealPlans),
                                                     savedMealPlanName.value, text, totalTime)
              else guestMealPlans == old(guestMealPlans)
    {
      cookingInstructions := Some(text);
      if user.Some? && savedMealPlanId.Some? && savedMealPlanId.value != 0 {
        accountInstructions := accountInstructions
          + [InstructionRecord(savedMealPlanId.value, totalTime, text)];
      } else if user.None? {
        AttachGuestInstructions(text, totalTime);
      }
      generatingInstructions := false;
    }

    /** The guest branch of storing instructions (cooking_planner.py:505-509):
        scan the list for the first plan with the saved name, set its two
        keys, and stop. */
    method AttachGuestInstructions(instructions: string, totalTime: string)
      requires savedMealPlanName.Some?
      modifies this`guestMealPlans
      ensures guestMealPlans == AttachInstructions(old(guestMealPlans), savedMealPlanName.value,
                                                   instructions, totalTime)
    {
      var name := savedMealPlanName.value;
      var i := 0;
      while i < |guestMealPlans|
        invariant 0 <= i <= |guestMealPlans|
        invariant guestMealPlans == old(guestMealPlans)
        invariant forall j :: 0 <= j < i ==> guestMealPlans[j].name != name
      {
        if guestMealPlans[i].name == name {
          guestMealPlans := guestMealPlans[i := guestMealPlans[i].(cookingInstructions := Some(instructions))];
          guestMealPlans := guestMealPlans[i := guestMealPlans[i].(totalTime := Some(totalTime))];
          assert FirstNamed(old(guestMealPlans), name) == Some(i);
          return;
        }
        i := i + 1;
      }
    }

    /** "Create a New Meal Plan" (cooking_planner.py:528-537): the seven flags
        of the page go back to their first-run values; the recorded name and
        day count of the last save, and every saved plan, stay. */
    method Reset()
      requires Valid() && Phase() == DisplayPhase
      modifies this
      ensures Valid()
      ensures State() == Initial.(savedMealPlanName := old(savedMealPlanName),
                                  savedMealPlanDays := old(savedMealPlanDays))
      ensures Phase() == CreationPhase
      ensures guestMealPlans == old(guestMealPlans)
      ensures accountInstructions == old(accountInstructions)
    {
      cookingPlan := None;
      mealPlanGenerated := false;
      adjustingMealPlan := false;
      mealPlanSaved := false;
      cookingInstructions := None;
      savedMealPlanId := None;
      generatingInstructions := false;
    }
  }

  /** A guest's first steps for a seven-day plan named "Week1": on a fresh
      page, generate and then save at time `now`. The session's list then
      holds exactly one plan, carrying the generated text, and the next run
      is the instructions phase. */
  method GuestSaveScenario(prefs: Prompts.Preferences, meals: string, kitchen: string,
                           planText: string, now: int, ask: string -> Reply)
    returns (plans: seq<GuestPlan>, phase: Phase)
    requires planText != []
    requires ask(Prompts.RecipePrompt(prefs, 7, meals, "", kitchen, "Week1")) == Answer(planText)
    ensures plans == [GuestPlan("Week1", 7, "", planText, now, None, None)]
    ensures phase == InstructionsPhase
  {
    var page := new Planner(None);
    var sent := page.Generate("Week1", 7, "", meals, prefs, kitchen, ask);
    page.Save("Week1", 7, "", now, 0);
    plans, phase := page.guestMealPlans, page.Phase();
  }

  /** The instructions step that follows a guest's only save: when the
      answer opens with a total-time line, that one plan receives the
      instructions and the line's value, and the page shows them. */
  method GuestInstructionsScenario(page: Planner, kitchen: string, value: string, rest: string,
                                   ask: string -> Reply)
    requires page.Valid() && page.Phase() == InstructionsPhase && page.user.None?
    requires |page.guestMealPlans| == 1
    requires page.guestMealPlans[0].name == page.savedMealPlanName.value
    requires forall i :: 0 <= i < |value| ==> !TotalTime.IsLineBreak(value[i])
    requires value != [] ==> !IsSpace(value[0]) && !IsSpace(value[|value| - 1])
    requires ask(Prompts.InstructionsPrompt(page.savedMealPlanDays.value, page.cookingPlan.value,
                                            kitchen, page.savedMealPlanName.value))
      == Answer(TotalTime.Marker + value + "\n" + rest)
    modifies page
    ensures page.guestMealPlans
      == [old(page.guestMealPlans[0]).(cookingInstructions := Some(TotalTime.Marker + value + "\n" + rest),
                                       totalTime := Some(value))]
    ensures page.Phase() == DisplayPhase
  {
    ghost var saved := page.guestMealPlans[0];
    ghost var text := TotalTime.Marker + value + "\n" + rest;
    assert |text| > 0;
    TotalTime.ExtractFromLeadingMarkerLine(value, rest);
    var prompt := page.GenerateInstructions(kitchen, ask);
    assert page.guestMealPlans == AttachInstructions([saved], saved.name, text, value);
  }
}
