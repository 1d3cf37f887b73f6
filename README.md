# Groww Book site: the view logic, modelled and proved in Dafny

Groww Book's marketing site is a React single-page application. Underneath its markup and
animation there is a small amount of stateful view logic. This project models that logic
and proves what it guarantees:

- the search box and category selector of the blog and the help centre;
- the "one item open at a time" toggles of the FAQ accordion, the features grid and the
  contact cards;
- the features page's hover and section state;
- the contact form's send cycle (loading, then success or error, then not loading);
- the download page's per-platform button status, driven by two timer callbacks;
- the pricing page's billing switch, price table and feature tooltips;
- the sign-up form record;
- the header's scroll and mobile-menu flags.

Each page is a `class`. Its fields are the page's state cells and its methods are the
event handlers. Every method states the complete new state, so "nothing else changes" is
part of each contract. What the page renders from that state is a function or predicate
that reads the object. Pure logic is made of functions and lemmas. That covers the shared
filter, ASCII lower-casing, JavaScript's `includes`, the toggle and decimal rendering.

Work that completes later is modelled as a method of its own, for the caller to invoke
when the event happens:

- the e-mail relay's `.then`, `.catch` and `.finally`;
- the download page's `setTimeout` callbacks.

On the download page the callbacks handed to `setTimeout` and not yet run are kept in a
`pending` queue. Any pending callback may run next, because real time is not modelled.

Modules:

| module | file | models |
|---|---|---|
| `Wrappers` | wrappers.dfy | `Option`; JavaScript `null` is `None` |
| `Text` | text.dfy | ASCII `toLowerCase`, `includes`, decimal rendering of a `nat` |
| `Search` | search.dfy | the filter shared by the blog and the help centre |
| `Selection` | selection.dfy | the `active === i ? null : i` toggle, the open item of a list |
| `Records` | records.dfy | the `{...record, [name]: value}` update |
| `Blog`, `Help`, `Features`, `Contact`, `Download`, `Pricing`, `SignUp` | one file each | the pages under `src/pages/` |
| `Header` | header.dfy | `src/components/layout/Header.jsx` and the route paths of `src/App.jsx` |

The toggle is not an involution. Suppose item `j` is open and item `i` is clicked twice:
the first click opens `i`, and the second closes it, leaving nothing open.
`Selection.ToggleTwice` states the exact behaviour. The state is restored only when
nothing or `i` itself was open.

## Model

All source paths are relative to the repository root.

| member | source | states |
|---|---|---|
| Text.LowerChar | src/pages/Blog.jsx:9-10 | the result is never an ASCII capital; a capital becomes its small letter (+32); every other character is unchanged |
| Text.Lower | src/pages/Blog.jsx:9-10 | same length as the input, no capital left, and every position is its character lower-cased |
| Text.LowerOfNoUpper | src/pages/Blog.jsx:9-10 | a string without capitals is its own lower-case form |
| Text.LowerIdempotent | src/pages/Blog.jsx:9-10 | lower-casing twice is lower-casing once |
| Text.LowerAppend | src/pages/Blog.jsx:9-10 | lower-casing distributes over concatenation |
| Text.Includes | src/pages/Blog.jsx:9-10 | a string includes only terms no longer than itself; a term of the same length is included exactly when it equals the string |
| Text.IncludesIff | src/pages/Blog.jsx:9-10 | the recursive `includes` holds exactly when the term occurs at some position of the string (both directions) |
| Text.IncludesEmpty | src/pages/Blog.jsx:9-10 | every string includes the empty term |
| Text.IncludesInfix | src/pages/Blog.jsx:9-10 | `a + t + b` includes `t`, for all `a`, `t`, `b` |
| Text.LowerInfix | src/pages/Blog.jsx:9-10 | a string lower-cased includes the lower-cased form of each of its infixes |
| Text.DigitChar | src/pages/Pricing.jsx:212-213 | the character is a digit whose value is the argument |
| Text.Decimal | src/pages/Pricing.jsx:212-213 | the decimal text of a number is non-empty and made of digits only |
| Text.DecimalRoundTrip | src/pages/Pricing.jsx:212-213 | reading the decimal text back gives the number |
| Text.DecimalInjective | src/pages/Pricing.jsx:212-213 | different numbers have different decimal texts |
| Search.MatchesSearch | src/pages/Help.jsx:10-11 | the term, lower-cased, occurs in the lower-cased first or second text; an empty term matches every record, and a matched term is no longer than one of the texts |
| Search.MatchesCategory | src/pages/Help.jsx:12 | the selector `'all'` lets every record through; any other value exactly the records carrying that category |
| Search.Matches | src/pages/Blog.jsx:9-12 | the record satisfies both the text search and the category; with an empty term and `'all'` every record matches |
| Search.Filter | src/pages/Blog.jsx:8-13 | never longer than the catalog; every kept record is in the catalog and matches the term and category; every matching record in the catalog is kept |
| Search.FilterIsSubsequence | src/pages/Help.jsx:9-14 | the result is an order-preserving subsequence of the catalog |
| Search.SubsequenceOfTail | src/pages/Help.jsx:9-14 | a subsequence of a catalog's tail is a subsequence of the catalog |
| Search.SubsequenceDropHead | src/pages/Help.jsx:9-14 | dropping the first element of a subsequence leaves a subsequence |
| Search.FilterAppend | src/pages/Blog.jsx:8-13 | filtering a concatenation is the concatenation of the filtered parts |
| Search.FilterKeepsAll | src/pages/Blog.jsx:8-13 | a catalog whose records all match is returned unchanged |
| Search.FilterIdentity | src/pages/Blog.jsx:8-13 | an empty term with category `'all'` returns the catalog exactly |
| Search.FilterIdempotent | src/pages/Blog.jsx:8-13 | filtering the result again changes nothing |
| Search.FilterCaseInsensitive | src/pages/Blog.jsx:9-10 | two terms that differ only in letter case give the same result |
| Search.FilterLowerTerm | src/pages/Blog.jsx:9-10 | typing the term in lower case gives the same result |
| Search.FilterSplits | src/pages/Blog.jsx:8-13 | the filter is the text search over all categories followed by the category filter |
| Search.FilterEmptyTerm | src/pages/Help.jsx:9-14 | with an empty term the filter equals an independent category-only filter |
| Search.FilterUnusedCategory | src/pages/Blog.jsx:8-13 | a category other than `'all'` that no record carries lists nothing, whatever the term |
| Search.FilterEmptyCatalog | src/pages/Blog.jsx:8-13 | an empty catalog gives an empty result |
| Selection.Toggle | src/pages/Help.jsx:113 | nothing is open after the click exactly when the clicked item was open; otherwise the clicked item is open |
| Selection.ToggleFlips | src/pages/Features.jsx:440 | the clicked item flips between open and closed, and no other item is open afterwards |
| Selection.ToggleTwiceFromCollapsed | src/pages/Help.jsx:113 | two clicks on one item, starting with nothing open, end with nothing open |
| Selection.ToggleTwice | src/pages/Help.jsx:113 | two clicks on one item restore the state only if nothing or that item was open; otherwise they end with nothing open |
| Selection.ToggleSwitches | src/pages/Contact.jsx:106 | a click on one item and then on another leaves only the second open |
| Selection.OpenItems | src/pages/Help.jsx:103-134 | at most one item is open; one is open exactly when the open position lies in the list; it is the item at that position |
| Records.WithField | src/pages/Contact.jsx:50-55 | the named field holds the new value; every other field keeps its value; the key set gains only that name |
| Blog.PostFields | src/pages/Blog.jsx:9-11 | a post is searched by its title and excerpt and filtered by its category |
| Blog.BlogPage.constructor | src/pages/Blog.jsx:5-6 | the page starts with an empty term and category `'all'`, shows the featured post and lists every post |
| Blog.BlogPage.SetSearchTerm | src/pages/Blog.jsx:42 | the term becomes the typed value and the category is unchanged |
| Blog.BlogPage.SetSelectedCategory | src/pages/Blog.jsx:54 | the category becomes the chosen value and the term is unchanged |
| Blog.BlogPage.FilteredPosts | src/pages/Blog.jsx:8-13 | a post is listed exactly when it is in the catalog and matches; the list keeps catalog order; with a category other than `'all'` every listed post has it |
| Blog.BlogPage.ShowsFeatured | src/pages/Blog.jsx:68 | the featured block renders exactly when the category is `'all'` and the search box is empty |
| Blog.FeaturedAboveFullGrid | src/pages/Blog.jsx:68-184 | while the featured post is shown the grid lists the complete catalog; the featured post itself is never in the grid |
| Blog.CategoryOptionsOfPosts | src/pages/Blog.jsx:57-61 | every post's category is one of the selector's options; the option "business" is carried by no post, so choosing it lists nothing, whatever the term |
| Blog.TaxPostMatches | src/pages/Blog.jsx:184-219 | the first post's title matches the search term "tax" |
| Blog.TitleWithTax | src/pages/Blog.jsx:9-10 | any post with "Tax" somewhere in its title matches the search term "tax" |
| Blog.TaxSearchFindsTaxPost | src/pages/Blog.jsx:184-219 | searching "tax" in all categories lists the first post |
| Blog.TaxCategory | src/pages/Blog.jsx:184-219 | the category "tax" with an empty term lists exactly the first post |
| Blog.TaxOfThree | src/pages/Blog.jsx:8-13 | for any three posts with the catalog's categories, the category "tax" with an empty term keeps exactly the first |
| Help.FaqFields | src/pages/Help.jsx:10-12 | an FAQ is searched by its question and answer and filtered by its category |
| Help.HelpPage.constructor | src/pages/Help.jsx:5-7 | empty term, category `'all'`, no question open |
| Help.HelpPage.SetSearchTerm | src/pages/Help.jsx:42 | the term changes; the category and the open position do not |
| Help.HelpPage.SetSelectedCategory | src/pages/Help.jsx:90 | the category changes; the term and the open position do not |
| Help.HelpPage.ClickQuestion | src/pages/Help.jsx:113 | the open position is toggled at the clicked index; the term and category do not change |
| Help.HelpPage.FilteredFaqs | src/pages/Help.jsx:9-14 | an FAQ is listed exactly when it is in the catalog and matches; catalog order is kept; when a category other than `'all'` is chosen, every listed FAQ has it |
| Help.HelpPage.OpenFaqs | src/pages/Help.jsx:103-134 | at most one answer is shown: the answer of the FAQ at the open position of the filtered list, when that position exists |
| Help.CategoryOptionsOfFaqs | src/pages/Help.jsx:93-97 | every FAQ's category is one of the selector's options, and each option other than `'all'` is carried by some FAQ |
| Help.BillingCategory | src/pages/Help.jsx:186-217 | the category "billing" with an empty term lists the second and fifth FAQ, in that order |
| Help.BillingOfSix | src/pages/Help.jsx:186-217 | the same result for any six FAQs with the catalog's categories |
| Help.OpenPositionNotIdentity | src/pages/Help.jsx:113-134 | with position 0 open, changing the category from `'all'` to "billing" shows the answer of a different question |
| Features.GeneralNumbered | src/pages/Features.jsx:46-155 | the general features are numbered 1 to 6 in order |
| Features.AccountingNumbered | src/pages/Features.jsx:156-427 | the accounting features are numbered 7 to 21 in order |
| Features.FeatureIds | src/pages/Features.jsx:45-428 | the sections hold 6 and 15 features; together they are numbered 1 to 21 and no two share an id |
| Features.AllFeatures | src/pages/Features.jsx:45-428 | the sections are exactly "general" and "accounting", each mapped to its list of cards |
| Features.FeaturesPage.constructor | src/pages/Features.jsx:11-13 | no card selected, no card hovered, the general section active |
| Features.FeaturesPage.ClickCard | src/pages/Features.jsx:440 | the selection is toggled at the card's id; hover and section do not change |
| Features.FeaturesPage.HoverStart | src/pages/Features.jsx:441 | the hovered card becomes the card's id; selection and section do not change |
| Features.FeaturesPage.HoverEnd | src/pages/Features.jsx:442 | nothing is hovered, whichever card the pointer left |
| Features.FeaturesPage.ShowGeneral | src/pages/Features.jsx:544 | the general section becomes active; the selection is kept |
| Features.FeaturesPage.ShowAccounting | src/pages/Features.jsx:556 | the accounting section becomes active; the selection is kept |
| Features.FeaturesPage.Grid | src/pages/Features.jsx:577 | the active section is always one of the two, and the grid shows exactly that section's features in order |
| Features.FeaturesPage.Card | src/pages/Features.jsx:430-466 | a card is marked selected or hovered exactly when its id is; only a selected card shows its details |
| Features.AtMostOneCardSelected | src/pages/Features.jsx:432-466 | no two cards of the grid are selected together, and at most one of any two shows details |
| Features.SelectionHiddenInOtherSection | src/pages/Features.jsx:544-577 | a selected general card stays selected in state, but no card is marked selected while the accounting section is shown |
| Contact.EmptyForm | src/pages/Contact.jsx:8-13 | exactly the four form fields, all blank |
| Contact.ContactPage.constructor | src/pages/Contact.jsx:8-17 | blank form; not submitted, not loading, no error, no card open |
| Contact.ContactPage.HandleSubmit | src/pages/Contact.jsx:19-22 | loading starts and the error is cleared; the form and the submitted flag are unchanged |
| Contact.ContactPage.SendSucceeded | src/pages/Contact.jsx:31-40 | the page is submitted and all four fields are blank; loading and error are unchanged |
| Contact.ContactPage.SendFailed | src/pages/Contact.jsx:41-44 | the error is the failure text; the form and the submitted flag are unchanged |
| Contact.ContactPage.SendSettled | src/pages/Contact.jsx:45-47 | loading ends and nothing else changes |
| Contact.ContactPage.HandleChange | src/pages/Contact.jsx:50-55 | only the field the input names is rewritten |
| Contact.ContactPage.ClickContact | src/pages/Contact.jsx:106 | the open card is toggled at the clicked index; the form state does not change |
| Contact.ContactPage.View | src/pages/Contact.jsx:201-274 | the thank-you panel shows exactly when submitted; otherwise the form, with the error text, and a button that is disabled and reads "Sending..." exactly while loading; the only error text ever shown is the failure message |
| Contact.ContactPage.OpenCards | src/pages/Contact.jsx:104-116 | at most one card's extra line is shown: the card at the open index, when it exists |
| Contact.SubmitAndSettle | src/pages/Contact.jsx:19-48 | after a send, loading has ended; on success the form is blank and the thank-you panel shows; on failure the fields are kept and the failure text is shown |
| Download.StatusOf | src/pages/Download.jsx:112 | the platform's entry of the status map; a platform never clicked has no status |
| Download.SetStatus | src/pages/Download.jsx:86-89 | the named platform gets the new status and every other platform's status is unchanged |
| Download.Label | src/pages/Download.jsx:110-144 | "Downloading..." exactly for downloading, "Downloaded!" exactly for completed, "Download" exactly for no status |
| Download.Effect | src/pages/Download.jsx:95-107 | the first callback sets a status, and that status is completed; the second clears it |
| Download.Follows | src/pages/Download.jsx:95-107 | the first callback schedules exactly one more, the clearing callback for the same platform; the second schedules nothing |
| Download.DownloadPage.constructor | src/pages/Download.jsx:6-8 | nothing hovered, the stable version selected, no status for any platform, no pending callback |
| Download.DownloadPage.HandleDownload | src/pages/Download.jsx:85-96 | the clicked platform becomes downloading, every other status is unchanged, and the first callback is scheduled |
| Download.DownloadPage.DownloadNow | src/pages/Download.jsx:334 | the call to action downloads Windows, the first platform |
| Download.DownloadPage.RunTimer | src/pages/Download.jsx:95-107 | the first callback marks its platform completed and schedules the second; the second clears the status; other platforms are untouched |
| Download.DownloadPage.SelectStable | src/pages/Download.jsx:183 | the version becomes stable and stays one of stable or beta |
| Download.DownloadPage.SelectBeta | src/pages/Download.jsx:194 | the version becomes beta and stays one of stable or beta |
| Download.DownloadPage.HoverStart | src/pages/Download.jsx:216 | the hovered platform becomes the card's platform |
| Download.DownloadPage.HoverEnd | src/pages/Download.jsx:217 | nothing is hovered, whichever card the pointer left |
| Download.DownloadPage.ButtonLabel | src/pages/Download.jsx:110-144 | a platform's button label follows that platform's status, case by case, in both directions |
| Download.DownloadPage.ButtonDisabled | src/pages/Download.jsx:258 | a button is disabled exactly while it reads "Downloading..." |
| Download.DownloadPage.ShowsRequirements | src/pages/Download.jsx:231 | the requirements panel of a platform is open exactly while its card is hovered |
| Download.AtMostOneRequirementsPanel | src/pages/Download.jsx:231 | no two platforms show their requirements panel at the same time |
| Download.PlatformNamesDistinct | src/pages/Download.jsx:33-74 | the four platforms have different names, so each has its own status entry |
| Download.InitialLabels | src/pages/Download.jsx:8 | with the empty status map every button reads "Download" and is enabled |
| Download.Lifecycle | src/pages/Download.jsx:85-107 | a click and its two callbacks take the label through "Downloading..." and "Downloaded!" back to no status; other platforms are unchanged |
| Download.StaleClearScenario | src/pages/Download.jsx:95-107 | a clearing callback from an earlier click can end a later download's "Downloading..." state early, re-enabling the button while that download's own callback is still pending |
| Pricing.Plans | src/pages/Pricing.jsx:34-85 | three plans, Basic, Professional and Enterprise in that order, each priced by the billing mode (lines 37, 52, 69) |
| Pricing.TooltipKey | src/pages/Pricing.jsx:212-213 | the key is the plan name, a dash, then the decimal index |
| Pricing.TooltipKeyInjective | src/pages/Pricing.jsx:212-234 | for dash-free plan names, equal keys mean the same plan and the same feature index |
| Pricing.PlanNamesHaveNoDash | src/pages/Pricing.jsx:34-85 | no plan name contains a dash, and both billing modes list the plans under the same names |
| Pricing.PricingPage.constructor | src/pages/Pricing.jsx:7-9 | annual billing, no feature hovered, no plan selected |
| Pricing.PricingPage.ToggleBilling | src/pages/Pricing.jsx:142 | the billing mode is negated; nothing else changes |
| Pricing.PricingPage.FeatureEnter | src/pages/Pricing.jsx:212 | the hovered key becomes that of the plan and feature index |
| Pricing.PricingPage.FeatureLeave | src/pages/Pricing.jsx:213 | nothing is hovered |
| Pricing.PricingPage.HandleGetStarted | src/pages/Pricing.jsx:87-92 | the chosen plan, at its current price, is remembered |
| Pricing.PricingPage.StartFreeTrial | src/pages/Pricing.jsx:325 | the call to action selects Professional at the current price |
| Pricing.PricingPage.TooltipShown | src/pages/Pricing.jsx:234 | a feature's tooltip is open exactly when the hovered key is that feature's key |
| Pricing.AtMostOneTooltip | src/pages/Pricing.jsx:212-234 | at most one feature tooltip is open on the page |
| Pricing.PriceTable | src/pages/Pricing.jsx:34-85 | Basic 29/39, Professional 49/59, Enterprise 99/119 (annual/monthly) |
| Pricing.AnnualIsCheaper | src/pages/Pricing.jsx:34-85 | each plan is strictly cheaper when billed annually, and the billing mode changes nothing but the price |
| Pricing.PricesIncrease | src/pages/Pricing.jsx:34-85 | in either mode the prices increase strictly from Basic to Enterprise |
| Pricing.OnlyProfessionalPopular | src/pages/Pricing.jsx:48-83 | exactly one plan is marked popular, the second, Professional |
| SignUp.InitialForm | src/pages/SignUp.jsx:11-17 | four blank text fields and an unticked terms box, nothing else |
| SignUp.InputValue | src/pages/SignUp.jsx:19-25 | a checkbox stores its checked state, every other input stores its text |
| SignUp.SignUpPage.constructor | src/pages/SignUp.jsx:9-17 | the plan is the one in the navigation state, if any; the form is the initial one |
| SignUp.SignUpPage.HandleChange | src/pages/SignUp.jsx:19-25 | only the named field is rewritten, with the stored value chosen by the input type |
| SignUp.SignUpPage.HandleSubmit | src/pages/SignUp.jsx:27-31 | the handler checks nothing and compares no passwords; the record is logged as it stands and nothing changes |
| SignUp.SignUpPage.SelectedPlanLine | src/pages/SignUp.jsx:71-75 | the line is present exactly when a plan was passed; it starts with the plan's name, ends with "/month", and the price read back from it is the plan's price |
| Header.HeaderBar.constructor | src/components/layout/Header.jsx:7-8 | neither scrolled nor menu open |
| Header.HeaderBar.HandleScroll | src/components/layout/Header.jsx:13-15 | scrolled exactly when the vertical offset is positive; the menu is unchanged |
| Header.HeaderBar.ToggleMenu | src/components/layout/Header.jsx:109 | the menu flag is negated; once open, the bar is opaque |
| Header.HeaderBar.HandleGetStarted | src/components/layout/Header.jsx:49-52 | goes to the sign-up path, a served route, and closes the menu |
| Header.HeaderBar.HandleLogin | src/components/layout/Header.jsx:54-57 | goes to the login path, a served route, and closes the menu |
| Header.HeaderBar.FollowMobileLink | src/components/layout/Header.jsx:184 | goes to the link's path, a served route, and closes the menu |
| Header.HeaderBar.Opaque | src/components/layout/Header.jsx:65 | the bar uses the opaque style exactly when the page is scrolled or the mobile menu is open |
| Header.HeaderBar.MobileMenuShown | src/components/layout/Header.jsx:171 | the mobile menu renders exactly while its flag is set |
| Header.NavLinksAreRoutes | src/components/layout/Header.jsx:40-47 | every header link's path is one of the router's paths (src/App.jsx lines 45-54) |
| Header.NavPathsDistinct | src/components/layout/Header.jsx:40-47 | the header links lead to six different paths |
| Header.OpaqueStyle | src/components/layout/Header.jsx:64-66 | while the mobile menu renders (line 171) the bar is opaque |

## Left out

- Animation: all framer-motion variants, transitions and hover/tap effects. They are presentational and take floating-point parameters.
- The e-mail relay call itself (src/pages/Contact.jsx:25-30), its credentials and console logging. Only its outcome is modelled, as a success or failure event.
- `window.open` (src/pages/Download.jsx:92) and all timer durations. Callbacks run when the caller says so, in any order.
- Router plumbing: `navigate`, `Link`, `Routes` and the 500 ms delay before the pricing page moves on. The header's handlers return the path they navigate to; pricing keeps the chosen plan; sign-up takes the navigation state as a constructor argument.
- Unicode `toLowerCase`: only ASCII capitals are folded. Text outside ASCII is compared as written.
- The browser's built-in form validation. Every text input of the sign-up form (src/pages/SignUp.jsx:95,111,127,143) and every input of the contact form (src/pages/Contact.jsx:243,253) is `required`, and the e-mail inputs are `type="email"` (src/pages/SignUp.jsx:110, src/pages/Contact.jsx:366). The browser therefore blocks the submit event while one of those fields is blank or an e-mail address is malformed. The sign-up form's terms checkbox (src/pages/SignUp.jsx:153-160) is not `required`, so that form submits with it unticked and the logged record then has `agreeToTerms` false. `Contact.ContactPage.HandleSubmit` and `SignUp.SignUpPage.HandleSubmit` model only the handlers, which can be called on any form.
- The scroll listener's registration and removal. `scrollY` is modelled as a real number.
- Images, icons, avatars, gradients, the featured post's image and every other datum that only styles the page. The catalogs keep the fields the logic reads or renders as text.
- The desktop header links: they carry no handler and change no state.
- Dashboard.jsx (static chart data with floating-point amounts), Home.jsx, About.jsx (random placement), Logo.jsx, LoadingScreen.jsx (a 3-second timer), Footer.jsx and Login.jsx. They are markup and animation with no decision logic; About.jsx and LoadingScreen.jsx also use `Math.random`.
- Blog.TaxSearchFindsTaxPost: proves that searching "tax" lists the tax post, but not that it lists only that post. Excluding the other posts would mean proving that long literal strings lack a substring, and the solver cannot do that cheaply.
