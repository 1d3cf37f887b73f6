/**
 * The sign-up page (src/pages/SignUp.jsx): a five-field registration form and, when the
 * page was reached from a pricing plan's button, a line naming that plan. Submitting the
 * form only logs it.
 */
module SignUp {
  import opened Wrappers
  import opened Text
  import opened Records
  import Pricing

  /** An input's value: the text of a text input, or the state of a checkbox. */
  datatype FieldValue = TextValue(text: string) | Checked(on: bool)

  const TextFields: seq<string> := ["fullName", "email", "password", "confirmPassword"]
  const TermsField: string := "agreeToTerms"

  /** The form record before any input: four blank texts and an unticked terms box. */
  function InitialForm(): (m: map<string, FieldValue>)
    ensures m.Keys == (set k | k in TextFields) + {TermsField}
    ensures forall k :: k in TextFields ==> m[k] == TextValue("")
    ensures m[TermsField] == Checked(false)
  {
    map["fullName" := TextValue(""), "email" := TextValue(""), "password" := TextValue(""),
        "confirmPassword" := TextValue(""), "agreeToTerms" := Checked(false)]
  }

  /** What `onChange` stores for an input: `checked` for a checkbox, `value` otherwise. */
  function InputValue(inputType: string, value: string, checked: bool): (v: FieldValue)
    ensures inputType == "checkbox" <==> v.Checked?
    ensures v.Checked? ==> v.on == checked
    ensures v.TextValue? ==> v.text == value
  {
    if inputType == "checkbox" then Checked(checked) else TextValue(value)
  }

  const PlanLinePrefix: string := "Selected Plan: "
  const PlanLineSuffix: string := "/month"

  predicate EndsWith(s: string, t: string) {
    |t| <= |s| && s[|s| - |t|..] == t
  }

  /**
   * The price a plan line for plan `name` shows: the digits between the text before the
   * dollar sign and the suffix, read as a number.
   */
  function PriceOfLine(line: string, name: string): Option<nat> {
    var head := PlanLinePrefix + name + " - $";
    if |head| + |PlanLineSuffix| <= |line| && line[..|head|] == head && EndsWith(line, PlanLineSuffix)
       && (forall i :: |head| <= i < |line| - |PlanLineSuffix| ==> IsDigit(line[i]))
    then Some(DecimalValue(line[|head|..|line| - |PlanLineSuffix|]))
    else None
  }

  class SignUpPage {
    /** The plan carried in the navigation state, if the page was reached with one. */
    const selectedPlan: Option<Pricing.Plan>
    var formData: map<string, FieldValue>

    constructor (navigationPlan: Option<Pricing.Plan>)
      ensures selectedPlan == navigationPlan && formData == InitialForm()
    {
      selectedPlan := navigationPlan;
      formData := InitialForm();
    }

    /** An input's `onChange`: only the field the input names is rewritten. */
    method HandleChange(name: string, value: string, inputType: string, checked: bool)
      modifies this
      ensures formData == WithField(old(formData), name, InputValue(inputType, value, checked))
    {
      formData := formData[name := if inputType == "checkbox" then Checked(checked) else TextValue(value)];
    }

    /**
     * The form's `onSubmit`: the record is handed over (to the console) as it stands. No
     * field is checked, the two passwords are not compared, and nothing changes.
     */
    method HandleSubmit() returns (logged: map<string, FieldValue>)
      ensures logged == formData
    {
      logged := formData;
    }

    /**
     * The line under the heading: present exactly when a plan was passed, and then
     * naming that plan and its monthly price in dollars.
     */
    function SelectedPlanLine(): (r: Option<string>)
      reads this
      ensures r.Some? <==> selectedPlan.Some?
      ensures r.Some? ==> StartsWith(r.value, PlanLinePrefix + selectedPlan.value.name)
      ensures r.Some? ==> EndsWith(r.value, PlanLineSuffix)
      ensures r.Some? ==> PriceOfLine(r.value, selectedPlan.value.name) == Some(selectedPlan.value.price)
    {
      match selectedPlan
      case None => None
      case Some(plan) =>
        var line := PlanLinePrefix + plan.name + " - $" + Decimal(plan.price) + PlanLineSuffix;
        var head := PlanLinePrefix + plan.name + " - $";
        assert line[..|PlanLinePrefix + plan.name|] == PlanLinePrefix + plan.name;
        assert line[|line| - |PlanLineSuffix|..] == PlanLineSuffix;
        assert line[..|head|] == head;
        assert line[|head|..|line| - |PlanLineSuffix|] == Decimal(plan.price);
        DecimalRoundTrip(plan.price);
        Some(line)
    }
  }
}
