/** The four-step profile wizard: budget, city, interest, experience. "Next" checks the
    current step's field for an empty string, then advances, or submits at the last step;
    "Back" steps back while not at the first step. */
module UserInputForm {
  import opened Common
  import opened Business

  const StepNames: seq<string> := ["Budget", "Location", "Interest", "Experience"]

  /** The index of the last step. */
  const LastStep: int := |StepNames| - 1

  /** The quick-pick budgets, in rupees. */
  const PresetBudgets: seq<string> := ["100000", "300000", "500000", "1000000"]

  const InterestValues: seq<string> := ["food", "retail", "service", "manufacturing", "education", "health"]

  const BlankProfile: UserProfile := UserProfile("", "", "", "beginner")

  /** The field a step checks is empty. Only the empty string fails: nothing is trimmed. */
  predicate Blocked(step: int, form: UserProfile)
  {
    (step == 0 && form.budget == "") || (step == 1 && form.city == "") || (step == 2 && form.interest == "")
  }

  /** The toast shown when "Next" is refused at a step. */
  function BlockedMessage(step: int): string
  {
    if step == 0 then "Please enter your budget"
    else if step == 1 then "Please enter your city"
    else "Please select an interest area"
  }

  /** What a press of "Next" did. */
  datatype NextOutcome = Refused(message: string) | Advanced | Submitted

  /** The check does not trim: a field of nothing but spaces, which trims to nothing, still
      passes its step; and the experience step is never refused. */
  lemma CheckDoesNotTrim(form: UserProfile)
    ensures form.budget != "" && (forall i :: 0 <= i < |form.budget| ==> form.budget[i] == ' ') ==>
              Trim(form.budget) == "" && !Blocked(0, form)
    ensures form.city != "" && (forall i :: 0 <= i < |form.city| ==> form.city[i] == ' ') ==>
              Trim(form.city) == "" && !Blocked(1, form)
    ensures !Blocked(3, form)
    ensures Blocked(0, BlankProfile) && Blocked(1, BlankProfile.(budget := "1")) &&
            Blocked(2, BlankProfile.(budget := "1", city := "Pune"))
  {
    TrimSpec(form.budget);
    TrimSpec(form.city);
  }

  class Wizard {
    var currentStep: int
    var isLoading: bool
    var formData: UserProfile
    /** The `userProfile` entry of session storage, written on submit. */
    var submitted: Option<UserProfile>

    /** The step is one of the four. */
    predicate Valid()
      reads this
    {
      0 <= currentStep <= LastStep
    }

    constructor ()
      ensures currentStep == 0 && !isLoading && formData == BlankProfile && submitted.None?
      ensures Valid()
    {
      currentStep := 0;
      isLoading := false;
      formData := BlankProfile;
      submitted := None;
    }

    /** `handleNext`: refused while the step's field is empty; otherwise one step on, or, at
        the last step, the profile is stored for the next page and the step stays. */
    method HandleNext() returns (outcome: NextOutcome)
      modifies this
      ensures formData == old(formData)
      ensures Blocked(old(currentStep), formData) ==>
                outcome == Refused(BlockedMessage(old(currentStep))) && currentStep == old(currentStep) &&
                submitted == old(submitted)
      ensures !Blocked(old(currentStep), formData) && old(currentStep) < LastStep ==>
                outcome == Advanced && currentStep == old(currentStep) + 1 && submitted == old(submitted)
      ensures !Blocked(old(currentStep), formData) && old(currentStep) >= LastStep ==>
                outcome == Submitted && currentStep == old(currentStep) && submitted == Some(formData)
      ensures outcome == Submitted ==> !isLoading
      ensures outcome != Submitted ==> isLoading == old(isLoading)
      ensures old(Valid()) ==> Valid()
    {
      if currentStep == 0 && formData.budget == "" {
        return Refused("Please enter your budget");
      }
      if currentStep == 1 && formData.city == "" {
        return Refused("Please enter your city");
      }
      if currentStep == 2 && formData.interest == "" {
        return Refused("Please select an interest area");
      }
      if currentStep < |StepNames| - 1 {
        currentStep := currentStep + 1;
        outcome := Advanced;
      } else {
        HandleSubmit();
        outcome := Submitted;
      }
    }

    /** `handleSubmit`: the profile is written to session storage (the simulated wait
        leaves `isLoading` false again). */
    method HandleSubmit()
      modifies this`isLoading, this`submitted
      ensures submitted == Some(formData) && !isLoading
    {
      isLoading := true;
      isLoading := false;
      submitted := Some(formData);
    }

    /** `handleBack`: one step back, except at the first step. */
    method HandleBack()
      modifies this`currentStep
      ensures old(currentStep) > 0 ==> currentStep == old(currentStep) - 1
      ensures old(currentStep) <= 0 ==> currentStep == old(currentStep)
      ensures old(Valid()) ==> Valid()
    {
      if currentStep > 0 {
        currentStep := currentStep - 1;
      }
    }

    method SetBudget(text: string)
      modifies this`formData
      ensures formData == old(formData).(budget := text)
    {
      formData := formData.(budget := text);
    }

    /** A preset button sets the budget to its exact amount string. */
    method ChoosePreset(i: nat)
      requires i < |PresetBudgets|
      modifies this`formData
      ensures formData == old(formData).(budget := PresetBudgets[i])
      ensures formData.budget in ["100000", "300000", "500000", "1000000"]
    {
      formData := formData.(budget := PresetBudgets[i]);
    }

    method SetCity(text: string)
      modifies this`formData
      ensures formData == old(formData).(city := text)
    {
      formData := formData.(city := text);
    }

    /** An interest card sets its value. */
    method ChooseInterest(i: nat)
      requires i < |InterestValues|
      modifies this`formData
      ensures formData == old(formData).(interest := InterestValues[i]) && formData.interest != ""
    {
      formData := formData.(interest := InterestValues[i]);
    }

    /** The radio group holds "beginner" or "experienced". */
    method SetExperience(experienced: bool)
      modifies this`formData
      ensures formData == old(formData).(experience := if experienced then "experienced" else "beginner")
    {
      formData := formData.(experience := if experienced then "experienced" else "beginner");
    }
  }

  /** Filling the three checked fields and pressing "Next" four times submits the profile. */
  method WalkThrough(budget: string, city: string, interestChoice: nat) returns (w: Wizard)
    requires budget != "" && city != "" && interestChoice < |InterestValues|
    ensures w.submitted == Some(UserProfile(budget, city, InterestValues[interestChoice], "beginner"))
    ensures w.currentStep == LastStep
  {
    w := new Wizard();
    w.SetBudget(budget);
    var o := w.HandleNext();
    assert o == Advanced;
    w.SetCity(city);
    o := w.HandleNext();
    w.ChooseInterest(interestChoice);
    o := w.HandleNext();
    o := w.HandleNext();
    assert o == Submitted;
  }
}
