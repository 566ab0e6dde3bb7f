/** The subscription screen: three plan cards, a press on a card's button selects that plan and
    opens a modal describing it, and the modal's buttons only close it. Prices are cents. */
module Subscription {
  import opened Wrappers
  import Seqs

  datatype Plan = Plan(id: string, name: string, priceCents: nat, duration: string, description: string,
                       features: seq<string>, isFeatured: bool, trialDays: Option<nat>, buttonText: string)

  function Plans(): seq<Plan> {
    [ Plan("1", "Basic", 0, "month", "Getting started on your health journey",
           [ "Basic health tracking", "Access to health records", "Schedule appointments",
             "Get medicine discounts up to 10%" ],
           false, None, "Current Plan"),
      Plan("2", "Plus", 999, "month", "Enhanced health management with premium features",
           [ "Unlimited consultations", "AI-powered health insights", "Priority doctor access",
             "Get medicine discounts up to 15%", "Free monthly lab tests", "Health reports generation" ],
           false, Some(14), "Start Free Trial"),
      Plan("3", "Premium", 1499, "month",
           "Stay on top of your health with AI-powered nutrition tracking, personalized insights, premium tools and custom settings",
           [ "Unlimited consultations", "AI-powered health insights", "Priority doctor access",
             "Get medicine discounts up to 20%", "Free monthly lab tests", "Health reports generation",
             "24/7 Emergency support", "Family plan access", "Personalized nutrition tracking" ],
           true, Some(30), "Start 30-day free trial") ]
  }

  /** `plans.find(p => p.id === id)`: a plan with that id, or nothing when none has it. */
  function FindPlan(plans: seq<Plan>, id: string): (r: Option<Plan>)
    ensures r.None? <==> forall i :: 0 <= i < |plans| ==> plans[i].id != id
    ensures r.Some? ==> r.value in plans && r.value.id == id
  {
    if plans == [] then None
    else if plans[0].id == id then Some(plans[0])
    else
      assert forall i :: 0 < i < |plans| ==> plans[i] == plans[1..][i - 1];
      FindPlan(plans[1..], id)
  }

  /** The plan found is the first with that id. */
  lemma {:induction false} FindPlanFirst(plans: seq<Plan>, id: string, i: nat)
    requires i < |plans| && plans[i].id == id
    requires forall j :: 0 <= j < i ==> plans[j].id != id
    ensures FindPlan(plans, id) == Some(plans[i])
  {
    if i > 0 {
      FindPlanFirst(plans[1..], id, i - 1);
    }
  }

  /** No two plans share an id. */
  ghost predicate UniqueIds(plans: seq<Plan>) {
    Seqs.DistinctBy(plans, (p: Plan) => p.id)
  }

  /** With unique ids, looking up a card's id finds that very plan. */
  lemma FindById(plans: seq<Plan>, i: nat)
    requires UniqueIds(plans) && i < |plans|
    ensures FindPlan(plans, plans[i].id) == Some(plans[i])
  {
    FindPlanFirst(plans, plans[i].id, i);
  }

  lemma SampleIdsUnique()
    ensures UniqueIds(Plans())
  {
  }

  /** The features a card lists: all of them on the featured card, `features.slice(0, 4)` on
      the others. */
  function CardFeatures(plan: Plan): (r: seq<string>)
    ensures r <= plan.features
    ensures |r| == if plan.isFeatured || |plan.features| < 4 then |plan.features| else 4
  {
    if plan.isFeatured then plan.features else Seqs.Take(plan.features, 4)
  }

  /** Basic and Plus list four features each, Premium all nine. */
  lemma SampleCardFeatures()
    ensures |CardFeatures(Plans()[0])| == 4 && |CardFeatures(Plans()[1])| == 4
    ensures CardFeatures(Plans()[2]) == Plans()[2].features && |CardFeatures(Plans()[2])| == 9
  {
  }

  /** `plan.trialDays && ...`, the test behind both the featured card's trial line and the
      modal's banner: it needs a trial length that is not 0. */
  function TrialLine(plan: Plan): (r: Option<nat>)
    ensures r.Some? <==> plan.trialDays.Some? && plan.trialDays.value != 0
    ensures r.Some? ==> r == plan.trialDays
  {
    match plan.trialDays
    case Some(d) => if d != 0 then Some(d) else None
    case None => None
  }

  /** The card's trial line: only the featured card has one, under the same condition. */
  function CardTrialLine(plan: Plan): (r: Option<nat>)
    ensures r.Some? <==> plan.isFeatured && plan.trialDays.Some? && plan.trialDays.value != 0
    ensures r.Some? ==> r == plan.trialDays
  {
    if plan.isFeatured then TrialLine(plan) else None
  }

  /** Of the three cards only Premium's shows a trial, although Plus has one too: it is
      announced in the modal only. */
  lemma SampleCardTrials()
    ensures CardTrialLine(Plans()[0]).None? && CardTrialLine(Plans()[1]).None?
    ensures CardTrialLine(Plans()[2]) == Some(30)
    ensures TrialLine(Plans()[1]) == Some(14)
  {
  }

  /** The modal's body, shown when `selectedPlan` is a non-empty id, describes the plan found
      under it. */
  function ModalPlan(plans: seq<Plan>, selected: Option<string>): (r: Option<Plan>)
    ensures r.Some? <==> selected.Some? && selected.value != "" && FindPlan(plans, selected.value).Some?
    ensures r.Some? ==> r == FindPlan(plans, selected.value) && r.value in plans && r.value.id == selected.value
  {
    if selected.Some? && selected.value != "" then FindPlan(plans, selected.value) else None
  }

  /** The modal's trial banner: the plan found under the selection has a trial. */
  function ModalTrial(plans: seq<Plan>, selected: Option<string>): (r: Option<nat>)
    ensures r.Some? <==> ModalPlan(plans, selected).Some? && TrialLine(ModalPlan(plans, selected).value).Some?
    ensures r.Some? ==> r == ModalPlan(plans, selected).value.trialDays && r.value != 0
  {
    var p := ModalPlan(plans, selected);
    if p.Some? then TrialLine(p.value) else None
  }

  /** Selecting a plan from its card's button shows that plan in the modal; Basic has no trial
      banner, Plus offers 14 days and Premium 30. */
  lemma SampleModals(i: nat)
    requires i < |Plans()|
    ensures ModalPlan(Plans(), Some(Plans()[i].id)) == Some(Plans()[i])
    ensures ModalTrial(Plans(), Some(Plans()[i].id)) == Plans()[i].trialDays
    ensures ModalTrial(Plans(), Some("1")).None?
    ensures ModalTrial(Plans(), Some("2")) == Some(14) && ModalTrial(Plans(), Some("3")) == Some(30)
  {
    SampleIdsUnique();
    FindById(Plans(), i);
    FindById(Plans(), 0);
    FindById(Plans(), 1);
    FindById(Plans(), 2);
  }

  /** The screen's state: the selected plan's id and the modal's visibility, over the fixed
      list of plans. */
  class SubscriptionScreen {
    const plans: seq<Plan>
    var selectedPlan: Option<string>
    var modalVisible: bool

    /** The three plans, nothing selected and the modal closed. */
    constructor ()
      ensures plans == Plans() && selectedPlan == None && !modalVisible
    {
      plans := Plans();
      selectedPlan := None;
      modalVisible := false;
    }

    /** `handleSelectPlan(planId)`: selects the plan and opens the modal. */
    method SelectPlan(planId: string)
      modifies this
      ensures selectedPlan == Some(planId) && modalVisible
    {
      selectedPlan := Some(planId);
      modalVisible := true;
    }

    /** `handleSubscribe`: the success alert, then the modal closes; the selection stays. */
    method Subscribe()
      modifies this
      ensures !modalVisible && selectedPlan == old(selectedPlan)
    {
      modalVisible := false;
    }

    /** Cancel, the close cross and the system back gesture. */
    method CloseModal()
      modifies this
      ensures !modalVisible && selectedPlan == old(selectedPlan)
    {
      modalVisible := false;
    }

    /** The trial banner of the modal as the state shows it: only for a selected plan that
        has a trial, with that plan's length. */
    function Trial(): (r: Option<nat>)
      reads this
      ensures r == ModalTrial(plans, selectedPlan)
      ensures r.Some? <==>
        (selectedPlan.Some? && selectedPlan.value != "" && FindPlan(plans, selectedPlan.value).Some? &&
         TrialLine(FindPlan(plans, selectedPlan.value).value).Some?)
      ensures r.Some? ==> r == FindPlan(plans, selectedPlan.value).value.trialDays
      ensures r.Some? ==> selectedPlan.Some? && r.value != 0
      ensures r.Some? ==>
        exists i :: 0 <= i < |plans| && plans[i].id == selectedPlan.value && plans[i].trialDays == r
    {
      ModalTrial(plans, selectedPlan)
    }
  }
}
