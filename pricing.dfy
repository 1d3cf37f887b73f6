/**
 * The pricing page (src/pages/Pricing.jsx): three plans whose monthly price depends on
 * an annual/monthly billing switch, a tooltip per plan feature shown while the pointer
 * is over it, and "Get started" buttons that remember the chosen plan before moving on
 * to sign-up.
 */
module Pricing {
  import opened Wrappers
  import opened Text

  datatype PlanFeature = PlanFeature(name: string, description: string)

  datatype Plan = Plan(name: string, price: nat, features: seq<PlanFeature>, popular: bool)

  const BasicFeatures: seq<PlanFeature> := [
    PlanFeature("Up to 5 team members", "Perfect for small teams and startups"),
    PlanFeature("Basic accounting features", "Essential tools for basic accounting needs"),
    PlanFeature("Monthly reports", "Get insights into your monthly performance"),
    PlanFeature("Email support", "24/7 email support for your queries"),
    PlanFeature("5GB storage", "Secure cloud storage for your documents"),
    PlanFeature("Basic integrations", "Connect with essential business tools")
  ]

  const ProfessionalFeatures: seq<PlanFeature> := [
    PlanFeature("Up to 15 team members", "Ideal for growing businesses"),
    PlanFeature("Advanced accounting features", "Comprehensive accounting toolkit"),
    PlanFeature("Real-time reports", "Live insights and analytics"),
    PlanFeature("Priority support", "Fast response times and dedicated support"),
    PlanFeature("15GB storage", "Expanded storage for all your needs"),
    PlanFeature("Advanced integrations", "Connect with premium business tools"),
    PlanFeature("Custom branding", "Add your brand identity"),
    PlanFeature("API access", "Build custom integrations")
  ]

  const EnterpriseFeatures: seq<PlanFeature> := [
    PlanFeature("Unlimited team members", "No limits on team size"),
    PlanFeature("Enterprise features", "Full suite of enterprise tools"),
    PlanFeature("Custom reports", "Tailored reporting solutions"),
    PlanFeature("24/7 dedicated support", "Round-the-clock premium support"),
    PlanFeature("Unlimited storage", "Store all your data without limits"),
    PlanFeature("Premium integrations", "Access to exclusive integrations"),
    PlanFeature("White labeling", "Complete brand customization"),
    PlanFeature("Custom development", "Dedicated development resources"),
    PlanFeature("SLA guarantee", "Guaranteed uptime and performance")
  ]

  /** The plans as rendered under the current billing mode, cheapest first. */
  function Plans(isAnnual: bool): (r: seq<Plan>)
    ensures |r| == 3
    ensures forall i :: 0 <= i < 3 ==> r[i].name == PlanNames[i]
  {
    [
      Plan("Basic", if isAnnual then 29 else 39, BasicFeatures, false),
      Plan("Professional", if isAnnual then 49 else 59, ProfessionalFeatures, true),
      Plan("Enterprise", if isAnnual then 99 else 119, EnterpriseFeatures, false)
    ]
  }

  /** The names of the three plans. */
  const PlanNames: seq<string> := ["Basic", "Professional", "Enterprise"]

  /** The key a hovered feature is remembered by: `${plan.name}-${featureIndex}`. */
  function TooltipKey(planName: string, index: nat): (k: string)
    ensures |k| > |planName| && k[..|planName|] == planName && k[|planName|] == '-'
    ensures k[|planName| + 1..] == Decimal(index)
  {
    planName + "-" + Decimal(index)
  }

  predicate NoDash(s: string) {
    forall i :: 0 <= i < |s| ==> s[i] != '-'
  }

  /** Two plan names without a dash never give the same key for different features. */
  lemma TooltipKeyInjective(n1: string, i1: nat, n2: string, i2: nat)
    requires NoDash(n1) && NoDash(n2)
    requires TooltipKey(n1, i1) == TooltipKey(n2, i2)
    ensures n1 == n2 && i1 == i2
  {
    var k := TooltipKey(n1, i1);
    assert |n1| == |n2| by {
      if |n1| < |n2| {
        assert false;
      } else if |n2| < |n1| {
        assert false;
      }
    }
    assert n1 == k[..|n1|] == n2;
    DecimalInjective(i1, i2);
  }

  /** Plan names contain no dash, so every feature of every plan has a key of its own. */
  lemma PlanNamesHaveNoDash()
    ensures forall n :: n in PlanNames ==> NoDash(n)
    ensures forall i :: 0 <= i < 3 ==> Plans(true)[i].name == PlanNames[i] && Plans(false)[i].name == PlanNames[i]
  {
    assert NoDash("Basic");
    assert NoDash("Professional");
    assert NoDash("Enterprise");
  }

  class PricingPage {
    var isAnnual: bool
    var hoveredFeature: Option<string>
    var selectedPlan: Option<Plan>

    constructor ()
      ensures isAnnual && hoveredFeature == None && selectedPlan == None
    {
      isAnnual := true;
      hoveredFeature := None;
      selectedPlan := None;
    }

    /** The billing switch. */
    method ToggleBilling()
      modifies this
      ensures isAnnual == !old(isAnnual)
      ensures hoveredFeature == old(hoveredFeature) && selectedPlan == old(selectedPlan)
    {
      isAnnual := !isAnnual;
    }

    /** The pointer enters feature `index` of `plan`. */
    method FeatureEnter(plan: Plan, index: nat)
      modifies this
      ensures hoveredFeature == Some(TooltipKey(plan.name, index))
      ensures isAnnual == old(isAnnual) && selectedPlan == old(selectedPlan)
    {
      hoveredFeature := Some(plan.name + "-" + Decimal(index));
    }

    /** The pointer leaves a feature, whichever feature it is. */
    method FeatureLeave()
      modifies this
      ensures hoveredFeature == None
      ensures isAnnual == old(isAnnual) && selectedPlan == old(selectedPlan)
    {
      hoveredFeature := None;
    }

    /** A plan's "Get started" button: the plan is remembered, prices and all, before moving on. */
    method HandleGetStarted(plan: Plan)
      modifies this
      ensures selectedPlan == Some(plan)
      ensures isAnnual == old(isAnnual) && hoveredFeature == old(hoveredFeature)
    {
      selectedPlan := Some(plan);
    }

    /** The closing "Start your free trial" button, which picks the second plan as currently priced. */
    method StartFreeTrial()
      modifies this
      ensures selectedPlan == Some(Plans(isAnnual)[1]) && selectedPlan.value.name == "Professional"
      ensures isAnnual == old(isAnnual) && hoveredFeature == old(hoveredFeature)
    {
      HandleGetStarted(Plans(isAnnual)[1]);
    }

    /** The tooltip of feature `index` of the plan named `planName` is open. */
    predicate TooltipShown(planName: string, index: nat)
      reads this
    {
      hoveredFeature == Some(TooltipKey(planName, index))
    }
  }

  /** At most one feature tooltip is open on the whole page. */
  lemma AtMostOneTooltip(page: PricingPage, n1: string, i1: nat, n2: string, i2: nat)
    requires n1 in PlanNames && n2 in PlanNames
    requires page.TooltipShown(n1, i1) && page.TooltipShown(n2, i2)
    ensures n1 == n2 && i1 == i2
  {
    PlanNamesHaveNoDash();
    TooltipKeyInjective(n1, i1, n2, i2);
  }

  /** The price table: Basic 29/39, Professional 49/59, Enterprise 99/119 (annual/monthly). */
  lemma PriceTable()
    ensures |Plans(true)| == |Plans(false)| == 3
    ensures Plans(true)[0].price == 29 && Plans(false)[0].price == 39
    ensures Plans(true)[1].price == 49 && Plans(false)[1].price == 59
    ensures Plans(true)[2].price == 99 && Plans(false)[2].price == 119
  {
  }

  /**
   * Switching the billing mode changes prices only, and lowers every price when annual
   * billing is chosen.
   */
  lemma AnnualIsCheaper(i: int)
    requires 0 <= i < 3
    ensures Plans(true)[i].price < Plans(false)[i].price
    ensures Plans(true)[i].(price := 0) == Plans(false)[i].(price := 0)
  {
  }

  /** In both billing modes the plans are listed in strictly increasing price. */
  lemma PricesIncrease(isAnnual: bool, i: int, j: int)
    requires 0 <= i < j < 3
    ensures Plans(isAnnual)[i].price < Plans(isAnnual)[j].price
  {
  }

  /** Exactly one plan, Professional, is marked popular. */
  lemma OnlyProfessionalPopular(isAnnual: bool, i: int)
    requires 0 <= i < 3
    ensures Plans(isAnnual)[i].popular <==> i == 1
    ensures Plans(isAnnual)[1].name == "Professional"
  {
  }
}
