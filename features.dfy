/**
 * The features page (src/pages/Features.jsx): a grid of feature cards for one of two
 * sections. Clicking a card toggles its details list (one card at a time), hovering
 * emphasises it, and two buttons switch the section shown.
 */
module Features {
  import opened Wrappers
  import opened Selection

  datatype Feature = Feature(id: int, title: string, description: string, details: seq<string>)

  const GeneralSection: string := "general"
  const AccountingSection: string := "accounting"

  const GeneralFeatures: seq<Feature> := [
    Feature(1, "Real-time Analytics",
            "Track your business performance in real-time with advanced analytics and insights.",
            ["Interactive dashboards", "Custom report generation", "Trend analysis", "Predictive analytics", "Export capabilities"]),
    Feature(2, "Multi-User Access",
            "Secure multi-user access with role-based permissions and activity tracking.",
            ["Role-based access control", "User activity logs", "Team collaboration", "Custom permissions", "Session management"]),
    Feature(3, "Cloud Backup",
            "Automatic cloud backup with version control and data recovery options.",
            ["Automated backups", "Version history", "Data encryption", "Quick recovery", "Storage management"]),
    Feature(4, "Mobile Access",
            "Access your accounts on-the-go with our mobile-responsive interface.",
            ["Mobile optimization", "Touch-friendly interface", "Offline capabilities", "Push notifications", "Secure login"]),
    Feature(5, "Advanced Security",
            "Enterprise-grade security with encryption and multi-factor authentication.",
            ["Two-factor authentication", "Data encryption", "IP whitelisting", "Security alerts", "Compliance tools"]),
    Feature(6, "Performance Optimization",
            "Lightning-fast performance with optimized data processing and caching.",
            ["Fast data processing", "Smart caching", "Load balancing", "Resource optimization", "Response time monitoring"])
  ]

  const AccountingFeatures: seq<Feature> := [
    Feature(7, "Double-entry Accounting",
            "Professional double-entry bookkeeping system for accurate financial records.",
            ["Automated balancing", "Error detection", "Multi-currency support", "Audit trails", "Account reconciliation"]),
    Feature(8, "Point of Sale",
            "Integrated POS system for seamless retail operations.",
            ["Real-time inventory", "Multiple payment methods", "Receipt customization", "Staff management", "Sales analytics"]),
    Feature(9, "Invoicing & Billing",
            "Professional invoicing and billing system with customizable templates.",
            ["Custom invoice templates", "Recurring billing", "Payment tracking", "Tax calculations", "Multi-currency support"]),
    Feature(10, "Payment Processing",
            "Secure payment processing with multiple gateway integrations.",
            ["Multiple payment gateways", "Secure transactions", "Payment scheduling", "Automated reconciliation", "Payment history"]),
    Feature(11, "Journal Entries",
            "Comprehensive journal entry system for detailed financial tracking.",
            ["Multiple journal types", "Automated entries", "Entry templates", "Bulk entry import", "Audit logging"]),
    Feature(12, "Financial Dashboard",
            "Real-time financial insights and performance metrics.",
            ["Key performance indicators", "Customizable widgets", "Real-time updates", "Data visualization", "Export capabilities"]),
    Feature(13, "Offline Functionality",
            "Continue working seamlessly even without internet connection.",
            ["Offline data access", "Automatic syncing", "Data conflict resolution", "Background updates", "Local storage management"]),
    Feature(14, "Financial Reports",
            "Comprehensive financial reporting suite with customizable templates.",
            ["Custom report builder", "Scheduled reports", "Multiple formats", "Comparative analysis", "Drill-down capabilities"]),
    Feature(15, "General Ledger",
            "Complete general ledger system with advanced tracking and reporting.",
            ["Account hierarchies", "Transaction tracking", "Account reconciliation", "Multi-period posting", "Closing periods"]),
    Feature(16, "Financial Statements",
            "Generate accurate P&L, Balance Sheet, and Trial Balance statements.",
            ["Profit & Loss Statement", "Balance Sheet", "Trial Balance", "Cash Flow Statement", "Comparative Statements"]),
    Feature(17, "Bank Integration",
            "Seamless integration with major banks for automatic transaction syncing.",
            ["Auto bank feeds", "Transaction matching", "Bank reconciliation", "Multi-bank support", "Secure connection"]),
    Feature(18, "E-commerce Integration",
            "Connect with popular e-commerce platforms for seamless sales tracking.",
            ["Shopify integration", "WooCommerce sync", "Amazon connection", "Inventory sync", "Order management"]),
    Feature(19, "Tax Management",
            "Comprehensive tax management with automatic calculations and filing support.",
            ["Tax calculations", "Filing preparation", "Tax reports", "Multiple tax rates", "Tax compliance"]),
    Feature(20, "API Integration",
            "Powerful API for custom integrations and third-party applications.",
            ["RESTful API", "Webhook support", "Custom endpoints", "API documentation", "Rate limiting"]),
    Feature(21, "Payroll Integration",
            "Seamless integration with popular payroll systems and services.",
            ["Automatic sync", "Payroll processing", "Tax calculations", "Employee portal", "Payment scheduling"])
  ]

  /** `allFeatures`: the cards of each section, keyed by section name. */
  function AllFeatures(): (r: map<string, seq<Feature>>)
    ensures r.Keys == {GeneralSection, AccountingSection}
  {
    map[GeneralSection := GeneralFeatures, AccountingSection := AccountingFeatures]
  }

  /** No two cards in `cards` share an id. */
  ghost predicate DistinctIds(cards: seq<Feature>) {
    forall i, j :: 0 <= i < j < |cards| ==> cards[i].id != cards[j].id
  }

  /** Numbered `first`, `first + 1`, ... in list order. */
  ghost predicate NumberedFrom(cards: seq<Feature>, first: int) {
    forall i :: 0 <= i < |cards| ==> cards[i].id == first + i
  }

  lemma GeneralNumbered()
    ensures NumberedFrom(GeneralFeatures, 1)
  {
  }

  lemma AccountingNumbered()
    ensures NumberedFrom(AccountingFeatures, 7)
  {
  }

  /** The 21 cards carry the ids 1 to 21: 1-6 in the general section, 7-21 in the accounting one. */
  lemma FeatureIds()
    ensures |GeneralFeatures| == 6 && |AccountingFeatures| == 15
    ensures NumberedFrom(GeneralFeatures + AccountingFeatures, 1)
    ensures DistinctIds(GeneralFeatures + AccountingFeatures)
  {
    GeneralNumbered();
    AccountingNumbered();
    var all := GeneralFeatures + AccountingFeatures;
    forall i | 0 <= i < |all| ensures all[i].id == 1 + i {
      if i >= |GeneralFeatures| {
        assert all[i] == AccountingFeatures[i - |GeneralFeatures|];
      }
    }
  }

  /** What a card shows of the page state: emphasis under the pointer, a ring and its details when selected. */
  datatype CardView = CardView(hovered: bool, selected: bool, details: seq<string>)

  class FeaturesPage {
    var selectedFeature: Option<int>
    var hoveredCard: Option<int>
    var activeSection: string

    /** The section shown is one that `allFeatures` has. */
    ghost predicate Valid()
      reads this
    {
      activeSection in AllFeatures()
    }

    constructor ()
      ensures Valid()
      ensures selectedFeature == None && hoveredCard == None && activeSection == GeneralSection
    {
      selectedFeature := None;
      hoveredCard := None;
      activeSection := GeneralSection;
    }

    /** A click on the card with id `id`. */
    method ClickCard(id: int)
      requires Valid()
      modifies this
      ensures Valid()
      ensures selectedFeature == Toggle(old(selectedFeature), id)
      ensures hoveredCard == old(hoveredCard) && activeSection == old(activeSection)
    {
      selectedFeature := if selectedFeature == Some(id) then None else Some(id);
    }

    /** The pointer enters the card with id `id`. */
    method HoverStart(id: int)
      requires Valid()
      modifies this
      ensures Valid()
      ensures hoveredCard == Some(id)
      ensures selectedFeature == old(selectedFeature) && activeSection == old(activeSection)
    {
      hoveredCard := Some(id);
    }

    /** The pointer leaves a card: whichever card it was, nothing is hovered afterwards. */
    method HoverEnd(id: int)
      requires Valid()
      modifies this
      ensures Valid()
      ensures hoveredCard == None
      ensures selectedFeature == old(selectedFeature) && activeSection == old(activeSection)
    {
      hoveredCard := None;
    }

    /** The "General Features" button; the selected card id is kept. */
    method ShowGeneral()
      modifies this
      ensures Valid() && activeSection == GeneralSection
      ensures selectedFeature == old(selectedFeature) && hoveredCard == old(hoveredCard)
    {
      activeSection := GeneralSection;
    }

    /** The "Accounting Features" button; the selected card id is kept. */
    method ShowAccounting()
      modifies this
      ensures Valid() && activeSection == AccountingSection
      ensures selectedFeature == old(selectedFeature) && hoveredCard == old(hoveredCard)
    {
      activeSection := AccountingSection;
    }

    /** The cards in the grid: the active section's list, in its order. */
    function Grid(): (r: seq<Feature>)
      requires Valid()
      reads this
      ensures activeSection == GeneralSection ==> r == GeneralFeatures
      ensures activeSection == AccountingSection ==> r == AccountingFeatures
      ensures activeSection == GeneralSection || activeSection == AccountingSection
    {
      AllFeatures()[activeSection]
    }

    /** The card for `f`: its details list is shown only while `f` is the selected card. */
    function Card(f: Feature): (v: CardView)
      reads this
      ensures v.selected <==> selectedFeature == Some(f.id)
      ensures v.hovered <==> hoveredCard == Some(f.id)
      ensures v.details == (if v.selected then f.details else [])
    {
      var selected := selectedFeature == Some(f.id);
      CardView(hoveredCard == Some(f.id), selected, if selected then f.details else [])
    }
  }

  /** In either section at most one card of the grid is selected, so at most one shows its details. */
  lemma AtMostOneCardSelected(page: FeaturesPage, i: int, j: int)
    requires page.Valid()
    requires 0 <= i < j < |page.Grid()|
    ensures !(page.Card(page.Grid()[i]).selected && page.Card(page.Grid()[j]).selected)
    ensures page.Card(page.Grid()[i]).details == [] || page.Card(page.Grid()[j]).details == []
  {
    FeatureIds();
    var all := GeneralFeatures + AccountingFeatures;
    if page.activeSection == GeneralSection {
      assert page.Grid()[i] == all[i] && page.Grid()[j] == all[j];
    } else {
      assert page.Grid()[i] == all[i + 6] && page.Grid()[j] == all[j + 6];
    }
  }

  /** A card selected in one section stays selected but is shown in neither card of the other section. */
  lemma SelectionHiddenInOtherSection(page: FeaturesPage, g: int, k: int)
    requires page.Valid() && page.activeSection == AccountingSection
    requires 0 <= g < |GeneralFeatures| && page.selectedFeature == Some(GeneralFeatures[g].id)
    requires 0 <= k < |page.Grid()|
    ensures !page.Card(page.Grid()[k]).selected
  {
    FeatureIds();
    var all := GeneralFeatures + AccountingFeatures;
    assert GeneralFeatures[g] == all[g];
    assert page.Grid()[k] == all[k + 6];
  }
}
