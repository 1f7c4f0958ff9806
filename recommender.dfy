/** The product recommender form: one hair type, any number of hair concerns
    and goals, and a submit that checks the form before calling the hosted
    recommender (which is not part of this model; its answer is a parameter). */
module Recommender {
  import opened Common
  import opened Selection

  const HairTypes: seq<string> := ["Straight", "Wavy", "Curly", "Coily"]
  const HairConcerns: seq<string> := ["Dryness", "Frizz", "Split Ends", "Oily Scalp", "Dandruff", "Hair Loss", "Damage"]
  const HairGoals: seq<string> := ["Add Volume", "Increase Shine", "Define Curls", "Reduce Frizz", "Strengthen Hair", "Promote Growth"]

  /** The two checkbox groups. */
  datatype Group = Concerns | Goals

  /** The request sent to the recommender. */
  datatype Request = Request(hairType: string, hairConcerns: seq<string>, hairGoals: seq<string>)

  /** The recommender's structured answer, kept as an uninterpreted text. */
  datatype Recommendations = Recommendations(answer: string)

  /** Why a submit was refused. */
  datatype Rejection = MissingHairType | NothingSelected

  datatype Validation = Accepted(request: Request) | Rejected(reason: Rejection)

  /** The checks at the top of `handleSubmit`: a form is accepted exactly
      when it has a hair type and a concern or a goal, and then the request
      carries the form's values unchanged; a missing hair type is reported
      before an empty selection. */
  function Validate(hairType: Option<string>, concerns: seq<string>, goals: seq<string>): (v: Validation)
    ensures v.Accepted? <==> Truthy(hairType) && (concerns != [] || goals != [])
    ensures v.Accepted? ==> v.request == Request(hairType.value, concerns, goals)
    ensures !Truthy(hairType) ==> v == Rejected(MissingHairType)
    ensures Truthy(hairType) && concerns == [] && goals == [] ==> v == Rejected(NothingSelected)
  {
    if !Truthy(hairType) then Rejected(MissingHairType)
    else if |concerns| == 0 && |goals| == 0 then Rejected(NothingSelected)
    else Accepted(Request(hairType.value, concerns, goals))
  }

  /** The submit button is disabled while loading or without a hair type: it
      is enabled exactly when nothing is loading and the form would pass the
      hair-type check, leaving only the empty-selection refusal. */
  predicate SubmitDisabled(isLoading: bool, hairType: Option<string>)
    ensures !SubmitDisabled(isLoading, hairType) <==>
            !isLoading && Validate(hairType, [], []) == Rejected(NothingSelected)
  {
    isLoading || !Truthy(hairType)
  }

  /** An enabled button never meets the missing-hair-type refusal: that check
      in `handleSubmit` only guards calls from elsewhere. */
  lemma EnabledSubmitHasHairType(isLoading: bool, hairType: Option<string>, concerns: seq<string>, goals: seq<string>)
    requires !SubmitDisabled(isLoading, hairType)
    ensures Validate(hairType, concerns, goals) != Rejected(MissingHairType)
    ensures Validate(hairType, concerns, goals).Accepted? <==> concerns != [] || goals != []
  {
  }

  class RecommenderPage {
    var isLoading: bool
    var recommendations: Option<Recommendations>
    var hairType: Option<string>
    var selectedConcerns: seq<string>
    var selectedGoals: seq<string>

    /** The form only ever holds options the page offers: a hair type from
        its radio group, and concerns and goals from their checkbox lists,
        each at most once. */
    ghost predicate Valid()
      reads this
    {
      && (hairType.Some? ==> hairType.value in HairTypes)
      && (forall c :: c in selectedConcerns ==> c in HairConcerns)
      && (forall g :: g in selectedGoals ==> g in HairGoals)
      && NoDuplicates(selectedConcerns) && NoDuplicates(selectedGoals)
    }

    /** An empty form, no answer, not loading. */
    constructor ()
      ensures Valid()
      ensures !isLoading && recommendations == None && hairType == None
      ensures selectedConcerns == [] && selectedGoals == []
    {
      isLoading := false;
      recommendations := None;
      hairType := None;
      selectedConcerns := [];
      selectedGoals := [];
    }

    /** Choosing a hair type in the radio group. */
    method SelectHairType(t: string)
      requires Valid() && t in HairTypes
      modifies this`hairType
      ensures Valid() && hairType == Some(t)
    {
      hairType := Some(t);
    }

    /** `handleCheckboxChange`: toggle `value` in the chosen group; the other group is untouched. */
    method HandleCheckboxChange(group: Group, value: string)
      requires Valid()
      requires value in (if group == Concerns then HairConcerns else HairGoals)
      modifies this`selectedConcerns, this`selectedGoals
      ensures Valid()
      ensures group == Concerns ==>
                selectedConcerns == Toggle(old(selectedConcerns), value) && selectedGoals == old(selectedGoals)
      ensures group == Goals ==>
                selectedGoals == Toggle(old(selectedGoals), value) && selectedConcerns == old(selectedConcerns)
    {
      if group == Concerns {
        selectedConcerns := Toggle(selectedConcerns, value);
      } else {
        selectedGoals := Toggle(selectedGoals, value);
      }
    }

    /** The synchronous part of `handleSubmit`: a refused form changes
        nothing and no request is made; an accepted one starts loading,
        clears the previous answer and returns the request to send, made of
        offered options only. Through the enabled button, the form is refused
        exactly when nothing is checked. */
    method BeginSubmit() returns (request: Option<Request>)
      requires Valid()
      modifies this`isLoading, this`recommendations
      ensures Valid()
      ensures !SubmitDisabled(old(isLoading), old(hairType)) ==>
                (request.None? <==> old(selectedConcerns) == [] && old(selectedGoals) == [])
      ensures request.Some? ==>
                && request.value.hairType in HairTypes
                && (forall c :: c in request.value.hairConcerns ==> c in HairConcerns)
                && (forall g :: g in request.value.hairGoals ==> g in HairGoals)
      ensures var v := Validate(old(hairType), old(selectedConcerns), old(selectedGoals));
              && (v.Rejected? ==> request == None && isLoading == old(isLoading) && recommendations == old(recommendations))
              && (v.Accepted? ==> request == Some(v.request) && isLoading && recommendations == None)
    {
      var v := Validate(hairType, selectedConcerns, selectedGoals);
      if v.Rejected? {
        return None;
      }
      isLoading := true;
      recommendations := None;
      request := Some(v.request);
    }

    /** The part after the awaited call: an answer (`Some`) is shown, a
        failure (`None`) keeps the answer as it was (cleared when the request
        was made); loading stops either way. */
    method FinishSubmit(answer: Option<Recommendations>)
      requires Valid()
      modifies this`isLoading, this`recommendations
      ensures Valid()
      ensures !isLoading
      ensures recommendations == if answer.Some? then answer else old(recommendations)
    {
      if answer.Some? {
        recommendations := answer;
      }
      isLoading := false;
    }
  }
}
