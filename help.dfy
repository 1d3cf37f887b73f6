/**
 * The help centre (src/pages/Help.jsx): the FAQ list filtered by a search box and a
 * category selector, and an accordion in which clicking a question opens its answer.
 * The open answer is remembered as a position in the filtered list, not as an FAQ.
 */
module Help {
  import opened Wrappers
  import opened Text
  import opened Search
  import opened Selection

  datatype Faq = Faq(question: string, answer: string, category: string)

  const Faqs: seq<Faq> := [
    Faq("How do I get started with Groww Book?",
        "Getting started is easy! Simply sign up for an account, complete your business profile, and follow our setup wizard to configure your accounting preferences.",
        "general"),
    Faq("What payment methods do you accept?",
        "We accept all major credit cards, PayPal, and bank transfers for annual subscriptions. All payments are processed securely through our payment partners.",
        "billing"),
    Faq("How secure is my financial data?",
        "We use bank-level encryption and security measures to protect your data. All information is stored in secure servers with regular backups.",
        "security"),
    Faq("Can I import data from other accounting software?",
        "Yes, Groww Book supports importing data from most major accounting software including QuickBooks, Xero, and Excel spreadsheets.",
        "technical"),
    Faq("How do I cancel my subscription?",
        "You can cancel your subscription at any time from your account settings. If you cancel, you'll continue to have access until the end of your billing period.",
        "billing"),
    Faq("Do you offer mobile apps?",
        "Yes, we have mobile apps available for both iOS and Android devices. You can download them from the respective app stores.",
        "technical")
  ]

  /** The category selector's option values. */
  const CategoryOptions: seq<string> := ["all", "general", "billing", "technical", "security"]

  /** An FAQ is searched by question and answer. */
  function FaqFields(f: Faq): Fields {
    Fields(f.question, f.answer, f.category)
  }

  class HelpPage {
    var searchTerm: string
    var selectedCategory: string
    var expandedFaq: Option<int>

    constructor ()
      ensures searchTerm == "" && selectedCategory == AllCategories && expandedFaq == None
    {
      searchTerm := "";
      selectedCategory := AllCategories;
      expandedFaq := None;
    }

    /** The search box's `onChange`; the open position is kept as it is. */
    method SetSearchTerm(value: string)
      modifies this
      ensures searchTerm == value
      ensures selectedCategory == old(selectedCategory) && expandedFaq == old(expandedFaq)
    {
      searchTerm := value;
    }

    /** The category selector's `onChange`; the open position is kept as it is. */
    method SetSelectedCategory(value: string)
      modifies this
      ensures selectedCategory == value
      ensures searchTerm == old(searchTerm) && expandedFaq == old(expandedFaq)
    {
      selectedCategory := value;
    }

    /** A click on the question at position `index` of the filtered list. */
    method ClickQuestion(index: int)
      modifies this
      ensures expandedFaq == Toggle(old(expandedFaq), index)
      ensures searchTerm == old(searchTerm) && selectedCategory == old(selectedCategory)
    {
      expandedFaq := if expandedFaq == Some(index) then None else Some(index);
    }

    /** The FAQs listed: exactly those matching the current criteria, in catalog order. */
    function FilteredFaqs(): (r: seq<Faq>)
      reads this
      ensures forall f :: f in r <==> f in Faqs && Matches(FaqFields(f), searchTerm, selectedCategory)
      ensures IsSubsequence(r, Faqs)
      ensures selectedCategory != AllCategories ==> forall f :: f in r ==> f.category == selectedCategory
    {
      FilterIsSubsequence(Faqs, FaqFields, searchTerm, selectedCategory);
      Filter(Faqs, FaqFields, searchTerm, selectedCategory)
    }

    /**
     * The FAQs whose answer is on screen: none, or the one at the open position of the
     * filtered list when that position exists.
     */
    function OpenFaqs(): (r: seq<Faq>)
      reads this
      ensures |r| <= 1
      ensures r != [] <==> expandedFaq.Some? && 0 <= expandedFaq.value < |FilteredFaqs()|
      ensures r != [] ==> r == [FilteredFaqs()[expandedFaq.value]]
    {
      OpenItems(FilteredFaqs(), expandedFaq, 0)
    }
  }

  /** Every FAQ carries one of the selector's categories, and every category offered besides "all" lists some FAQ. */
  lemma CategoryOptionsOfFaqs()
    ensures forall f :: f in Faqs ==> f.category in CategoryOptions
    ensures forall c :: c in CategoryOptions && c != AllCategories ==> exists f :: f in Faqs && f.category == c
  {
    assert Faqs[0].category == "general" && Faqs[1].category == "billing" && Faqs[2].category == "security";
    assert Faqs[3].category == "technical" && Faqs[4].category == "billing" && Faqs[5].category == "technical";
    assert CategoryOptions[1..] == [Faqs[0].category, Faqs[1].category, Faqs[3].category, Faqs[2].category];
  }

  /** Selecting "billing" with an empty search box lists the two billing questions, in order. */
  lemma BillingCategory()
    ensures Filter(Faqs, FaqFields, "", "billing") == [Faqs[1], Faqs[4]]
  {
    assert Faqs[0].category == "general" && Faqs[1].category == "billing" && Faqs[2].category == "security";
    assert Faqs[3].category == "technical" && Faqs[4].category == "billing" && Faqs[5].category == "technical";
    BillingOfSix(Faqs);
  }

  /** The same walk over any six entries whose categories are those of `Faqs`. */
  lemma BillingOfSix(faqs: seq<Faq>)
    requires |faqs| == 6
    requires faqs[0].category == "general" && faqs[1].category == "billing" && faqs[2].category == "security"
    requires faqs[3].category == "technical" && faqs[4].category == "billing" && faqs[5].category == "technical"
    ensures Filter(faqs, FaqFields, "", "billing") == [faqs[1], faqs[4]]
  {
    FilterEmptyTerm(faqs, FaqFields, "billing");
    assert faqs[6..] == [];
    assert CategoryOnly(faqs[5..], FaqFields, "billing") == [] by { assert faqs[5..][1..] == faqs[6..]; }
    assert CategoryOnly(faqs[4..], FaqFields, "billing") == [faqs[4]] by { assert faqs[4..][1..] == faqs[5..]; }
    assert CategoryOnly(faqs[3..], FaqFields, "billing") == [faqs[4]] by { assert faqs[3..][1..] == faqs[4..]; }
    assert CategoryOnly(faqs[2..], FaqFields, "billing") == [faqs[4]] by { assert faqs[2..][1..] == faqs[3..]; }
    assert CategoryOnly(faqs[1..], FaqFields, "billing") == [faqs[1], faqs[4]] by { assert faqs[1..][1..] == faqs[2..]; }
  }

  /**
   * The open answer follows the position, not the question: with the first entry open,
   * narrowing the list to "billing" shows the answer of a different question.
   */
  lemma OpenPositionNotIdentity()
    ensures OpenItems(Filter(Faqs, FaqFields, "", AllCategories), Some(0), 0) == [Faqs[0]]
    ensures OpenItems(Filter(Faqs, FaqFields, "", "billing"), Some(0), 0) == [Faqs[1]]
    ensures Faqs[0] != Faqs[1]
  {
    FilterIdentity(Faqs, FaqFields);
    BillingCategory();
  }
}
