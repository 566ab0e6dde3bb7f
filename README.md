# JeevaCare patient app: screen logic in Dafny

This project models the in-memory logic behind twelve screens and components of the JeevaCare
patient app, a React Native application. Rendering is stripped away. What remains is:

- the cart line list and its price summary;
- the product page's quantity stepper and stock gate;
- the order tabs and the document filter, with their colour, icon and label tables;
- the document upload form;
- the case-insensitive location and language searches;
- the six-box sign-up code entry and the sorting of the verification answer;
- the two-page registration form;
- the onboarding pager;
- the lab package discount badge;
- the collapsible doctor specialisation grid;
- the subscription plan modal.

Each core file has its own module:

- `Cart`, `ProductDetail`, `Orders`, `Reports`, `Location`, `Language`, `OtpRegister`,
  `RegisterForm`, `Onboard`, `LabTestPackages`, `DoctorCategory`, `Subscription`.

Four modules are shared:

- `Wrappers` holds `Option`.
- `Seqs` holds JavaScript's `filter` and `slice(0, n)`, subsequences and distinct keys.
- `Text` holds ASCII `toLowerCase`/`toUpperCase`, `includes` and `trim`.
- `Quantity` holds the `Math.max(1, q + change)` stepper rule.

Screens whose handlers overwrite React state are classes:

- The state variables are fields.
- Each handler is a method that states the whole new state.

Derived values are pure functions of that state, e.g. the filtered lists, the totals, the labels
and the badge tables. The properties are lemmas about those functions.

Units and encodings:

- Cart prices are integer paise: 24.68 is 2468.
- Subscription prices are integer cents.
- Lab package prices are whole rupees, as in the source.
- The six sign-up boxes are an `array<string>` of length 6, written in place.

Foreign input is passed in as plain parameters:

- whether the sign-up client is loaded;
- what the verification call returned or threw;
- whether a caller passed an optional handler;
- the slide index a scroll settled on.

## Model

| member | source | states |
|---|---|---|
| Quantity.Step | app/screens/cart.tsx:50 | the new quantity is at least 1 and at least `q + change`, and it is either 1 or exactly `q + change` (the `Math.max(1, ...)` clamp) |
| Quantity.MinusAtOneStays | app/screens/productdetail.tsx:175 | the minus button at quantity 1 leaves it at 1 |
| Quantity.PlusAddsOne | app/screens/productdetail.tsx:182 | the plus button on a quantity of at least 1 adds exactly 1 |
| Cart.QuantityChangeAt | app/screens/cart.tsx:46-54 | `updateQuantity` keeps the length; the line with the id gets the clamped quantity (at least 1) with every other field kept; every other line is untouched |
| Cart.QuantityChangeLength | app/screens/cart.tsx:48 | `items.map` keeps the list length |
| Cart.QuantityChangeUnknownId | app/screens/cart.tsx:46-54 | an id that no line has leaves the list unchanged |
| Cart.QuantityChangeKeepsPositive | app/screens/cart.tsx:50 | if every quantity is at least 1 before `updateQuantity`, it still is after |
| Cart.RemoveKeepsOthers | app/screens/cart.tsx:56-58 | `removeItem` keeps exactly the lines whose id differs, as an order-preserving subsequence |
| Cart.RemoveIdempotent | app/screens/cart.tsx:57 | removing an id twice is the same as removing it once |
| Cart.RemoveUnknownId | app/screens/cart.tsx:57 | removing an id that no line has is a no-op |
| Cart.RemoveKeepsPositive | app/screens/cart.tsx:57 | removal keeps every quantity at least 1 |
| Cart.SubtotalFromIsLineSum | app/screens/cart.tsx:60-63 | the left fold from `acc` equals `acc` plus the sum of price × quantity |
| Cart.SubtotalIsLineSum | app/screens/cart.tsx:60-63 | the subtotal is the sum of price × quantity over the lines, and 0 for an empty cart |
| Cart.LineSumAppend | app/screens/cart.tsx:60-63 | the line sum of a concatenation is the sum of the two line sums |
| Cart.SubtotalAppend | app/screens/cart.tsx:60-63 | the subtotal of a list split in two is the sum of the two subtotals |
| Cart.SubtotalNonNegative | app/screens/cart.tsx:60-63 | with positive quantities the subtotal is never negative |
| Cart.LineSumNonNegative | app/screens/cart.tsx:60-63 | with positive quantities the line sum is never negative |
| Cart.FeeLabel | app/screens/cart.tsx:162 | the fee row reads FREE exactly when the fee is 0, and otherwise shows that fee |
| Cart.TotalIsSubtotal | app/screens/cart.tsx:64-65 | total = subtotal + fee; with the constant fee 0, total = subtotal and the fee row reads FREE |
| Cart.InitialTotals | app/screens/cart.tsx:27-44 | on the starting cart, subtotal and total are both 9024 paise (90.24) |
| Cart.ActionsKeepPositive | app/screens/cart.tsx:27-58 | from quantities of at least 1, any sequence of stepper presses and removals keeps them at least 1 |
| Cart.CartScreen.constructor | app/screens/cart.tsx:27-44 | the screen starts with the two sample lines, all quantities positive |
| Cart.CartScreen.UpdateQuantity | app/screens/cart.tsx:46-54 | the new list is the mapped list, and the positive-quantity invariant is kept |
| Cart.CartScreen.RemoveItem | app/screens/cart.tsx:56-58 | the new list is the filtered list, and the positive-quantity invariant is kept |
| Cart.CartScreen.ShowsEmptyCart | app/screens/cart.tsx:123 | the empty-cart view shows exactly when there are no lines, and then subtotal and total are 0 |
| ProductDetail.StockLabel | app/screens/productdetail.tsx:127 | the label is "In Stock" iff the product is in stock, otherwise "Out of Stock" |
| ProductDetail.ProductDetailScreen.constructor | app/screens/productdetail.tsx:22-23 | the quantity starts at 1 and the heart starts unfilled |
| ProductDetail.ProductDetailScreen.UpdateQuantity | app/screens/productdetail.tsx:59-61 | the quantity becomes `Step(old, change)`, so it stays at least 1; the favourite flag is untouched |
| ProductDetail.ProductDetailScreen.ToggleFavorite | app/screens/productdetail.tsx:82 | the favourite flag flips and the quantity is unchanged |
| ProductDetail.ProductDetailScreen.AddToCartDisabled | app/screens/productdetail.tsx:190-192 | the button is disabled exactly when the product is out of stock |
| ProductDetail.ProductDetailScreen.PressAddToCart | app/screens/productdetail.tsx:53-57 | a press leads to the cart exactly when the product is in stock |
| ProductDetail.ToggleTwiceRestores | app/screens/productdetail.tsx:82 | two heart presses restore the favourite flag |
| Orders.FilterOrdersExact | app/screens/orders.tsx:91-96 | each tab lists exactly the orders its test admits, as an order-preserving subsequence |
| Orders.AllTabKeepsEverything | app/screens/orders.tsx:92 | the All tab returns the list unchanged |
| Orders.TabMembership | app/screens/orders.tsx:93-94 | Processing admits exactly processing and shipped; Delivered admits exactly delivered; a cancelled order appears only under All |
| Orders.SampleProcessingTab | app/screens/orders.tsx:24-59 | on the sample orders, the Processing tab lists orders 2 and 3 in that order |
| Orders.BadgesDistinct | app/screens/orders.tsx:65-89 | the colour table and the icon table are total and give four different values to the four statuses |
| Orders.Capitalize | app/screens/orders.tsx:112 | the result keeps the length and the tail; only the first character is upper-cased |
| Orders.StatusLabels | app/screens/orders.tsx:112 | a check on the fixed data: the four badge labels are Delivered, Shipped, Processing and Cancelled |
| Orders.ActionButtons | app/screens/orders.tsx:138-147 | no card shows both Reorder and Track Order; Track Order shows exactly on the orders the Processing tab admits, Reorder exactly on the delivered ones |
| Reports.FilterDocumentsExact | app/services/reports.tsx:94-97 | a type chip lists exactly the documents of that type, as an order-preserving subsequence |
| Reports.SampleReportFilter | app/services/reports.tsx:36-81 | on the sample documents, the Report chip lists documents 1 and 3 |
| Reports.SampleNeverEmpty | app/services/reports.tsx:264-278 | a check on the fixed data: on the sample documents, no chip leaves the list empty |
| Reports.TypeTablesDistinct | app/services/reports.tsx:99-123 | the colour and label tables are total and tell the four types apart |
| Reports.TitleAccepted | app/services/reports.tsx:127 | a title is refused exactly when every character is whitespace that `trim` removes, including the empty title |
| Reports.DocumentsScreen.constructor | app/services/reports.tsx:84-92 | the screen opens with filter All, the modal closed and the form empty with type report |
| Reports.DocumentsScreen.Shown | app/services/reports.tsx:94-97 | the list is the document list filtered by the selected chip, so a type chip keeps exactly that type's documents, in order; under All it is the whole list |
| Reports.DocumentsScreen.ShowsEmptyState | app/services/reports.tsx:264-278 | "No documents found" shows exactly when the filtered list is empty, which on the sample never happens |
| Reports.DocumentsScreen.SelectFilter | app/services/reports.tsx:245 | only the filter changes |
| Reports.DocumentsScreen.OpenModal | app/services/reports.tsx:286 | only the modal opens |
| Reports.DocumentsScreen.CloseModal | app/services/reports.tsx:296-304 | only the modal closes; the form keeps what was typed |
| Reports.DocumentsScreen.EditTitle | app/services/reports.tsx:319 | only the form's title changes |
| Reports.DocumentsScreen.ChooseType | app/services/reports.tsx:338 | only the form's type changes |
| Reports.DocumentsScreen.EditDoctorName | app/services/reports.tsx:363 | only the form's doctor name changes |
| Reports.DocumentsScreen.UploadDocument | app/services/reports.tsx:126-134 | a title that trims to nothing gives the error and changes nothing; otherwise the modal closes and the form is reset |
| Text.Lower | app/screens/location.tsx:110 | lower-casing keeps the length |
| Text.LowerAt | app/screens/location.tsx:110 | lower-casing acts character by character |
| Text.LowerIdempotent | app/screens/location.tsx:110 | lower-casing twice is lower-casing once |
| Text.LowerOfUpper | app/screens/location.tsx:110-111 | lower-casing an upper-cased string gives the lower-cased original |
| Text.ContainsIffOccurs | app/screens/location.tsx:110 | `includes` is true exactly when the needle occurs at some position of the haystack |
| Text.ContainsEmpty | app/screens/location.tsx:110 | every string includes the empty string |
| Text.TrimEmptyIffBlank | app/services/reports.tsx:127 | `trim()` is empty exactly when every character is JavaScript whitespace or a line terminator |
| Location.MatchesIffOccurs | app/screens/location.tsx:109-112 | a location is kept exactly when the lower-cased query occurs in its lower-cased name or lower-cased address |
| Location.FilterPlacesExact | app/screens/location.tsx:109-112 | the result holds exactly the matching locations, as an order-preserving subsequence |
| Location.EmptyQueryKeepsAll | app/screens/location.tsx:109-117 | an empty query keeps the whole list |
| Location.QueryCaseBlind | app/screens/location.tsx:110-111 | queries that lower-case alike give the same result |
| Location.UpperCaseQuery | app/screens/location.tsx:110-111 | typing the query in upper case changes nothing |
| Location.SamePredicateOnBothLists | app/screens/location.tsx:109-117 | filtering the nearby list and then the recent list is filtering their concatenation with the same test |
| Location.NoResultsIff | app/screens/location.tsx:254 | "No locations found" shows exactly when the query is non-empty and no location of either list matches |
| Location.ClearRestoresLists | app/screens/location.tsx:188-191 | after the clear cross sets the query to "", the cross is hidden, the banner cannot show, and both lists are whole again |
| Language.MatchesIffOccurs | app/screens/language.tsx:42-44 | a language is kept exactly when the lower-cased query occurs in its lower-cased name |
| Language.FilterLanguagesExact | app/screens/language.tsx:42-44 | the result holds exactly the matching languages, as an order-preserving subsequence |
| Language.EmptyQueryListsAll | app/screens/language.tsx:21-35 | an empty query lists all 13 languages in order |
| Language.SampleIdsUnique | app/screens/language.tsx:21-35 | the 13 language ids are pairwise distinct |
| Language.Rows | app/screens/language.tsx:127-133 | one row per listed language, in order; a row's radio is filled exactly when its id is the selected id |
| Language.Render | app/screens/language.tsx:96-133 | the card shows the selection; the rows are the filtered languages, one each, in order, with the radio filled exactly when the id equals the selected id |
| Language.AtMostOneRowSelected | app/screens/language.tsx:131 | whatever the query, at most one row is marked selected |
| Language.CardIgnoresFilter | app/screens/language.tsx:96-107 | the card shows the selection whatever the query, and the selected language has a row exactly when its name matches the query |
| Language.LanguageScreen.constructor | app/screens/language.tsx:39-40 | the initial selection is the first entry, English, and the query is empty |
| Language.LanguageScreen.SelectLanguage | app/screens/language.tsx:46-48 | the selection becomes exactly the pressed language and the query is unchanged |
| Language.LanguageScreen.EditQuery | app/screens/language.tsx:120-121 | only the query changes |
| Language.LanguageScreen.Current | app/screens/language.tsx:96-133 | the screen shows the view rendered from the current selection and query: the card shows the selection, the rows are the languages the query keeps, and a row is marked selected exactly when its id equals the selected id |
| OtpRegister.JoinLength | app/onboardnauth/otpregister.tsx:43 | when every box is "" or one digit, the joined code is as long as the number of filled boxes |
| OtpRegister.FilledCountFull | app/onboardnauth/otpregister.tsx:43 | every box is filled exactly when the filled count equals the number of boxes |
| OtpRegister.JoinDigits | app/onboardnauth/otpregister.tsx:25-28 | the joined code consists only of digits |
| OtpRegister.CodeCompleteIffFilled | app/onboardnauth/otpregister.tsx:43-54 | the six-character length gate passes exactly when all six boxes are filled |
| OtpRegister.Classify | app/onboardnauth/otpregister.tsx:89-155 | the answer goes on to the form exactly for status complete or missing_requirements, or for an error whose message includes "already been verified", and only that error gives the already-verified outcome; any other status is incomplete; a session is activated only for complete with a non-empty session id; a failure carries the error's message, or the default text when it is missing or empty |
| OtpRegister.FailedMessageNonEmpty | app/onboardnauth/otpregister.tsx:151-155 | only a thrown error fails, and its message is never empty |
| OtpRegister.OtpEntry.constructor | app/onboardnauth/otpregister.tsx:19-20 | the buffer starts as six empty boxes, and loading is off |
| OtpRegister.OtpEntry.HandleChange | app/onboardnauth/otpregister.tsx:24-34 | refused input leaves the buffer unchanged; accepted input writes only box `index`; focus moves to `index + 1` exactly for a digit typed before the last box |
| OtpRegister.OtpEntry.BackspaceFocus | app/onboardnauth/otpregister.tsx:36-40 | focus moves to `index - 1` exactly when `index > 0` and box `index` is empty |
| OtpRegister.OtpEntry.Code | app/onboardnauth/otpregister.tsx:43 | the loop builds the joined code, which is six characters exactly when every box is filled |
| OtpRegister.OtpEntry.PressVerify | app/onboardnauth/otpregister.tsx:42-66 | a press while loading is ignored; otherwise an incomplete code is refused before readiness is checked, and a complete code with a loaded client is sent with loading set |
| OtpRegister.OtpEntry.Settle | app/onboardnauth/otpregister.tsx:156-158 | loading is off after the answer, and the outcome is the classified answer |
| RegisterForm.Set | app/onboardnauth/registerform.tsx:197-291 | a field edit sets that field and leaves every other field as it was |
| RegisterForm.EmptyFormIsEmpty | app/onboardnauth/registerform.tsx:38-49 | every field of the starting form is empty |
| RegisterForm.CompletenessByField | app/onboardnauth/registerform.tsx:51-79 | page 1 passes exactly when every personal field is non-empty; page 2 passes exactly when every address field is |
| RegisterForm.ChecksIndependent | app/onboardnauth/registerform.tsx:65-71 | editing a field of one page never changes whether the other page passes, so completion ignores the personal fields |
| RegisterForm.BlankFieldsPass | app/onboardnauth/registerform.tsx:52-57 | a check on one concrete form: nothing is trimmed, so fields holding only a space pass both checks |
| RegisterForm.FooterFor | app/onboardnauth/registerform.tsx:308 | the footer runs next-page exactly on page 1 |
| RegisterForm.FooterLabel | app/onboardnauth/registerform.tsx:312 | the label is "Next" exactly when the footer runs next-page, and "Complete Registration" otherwise |
| RegisterForm.RegisterScreen.constructor | app/onboardnauth/registerform.tsx:36-49 | the form starts on page 1 with all ten fields empty |
| RegisterForm.RegisterScreen.Edit | app/onboardnauth/registerform.tsx:197-291 | only that field of the form changes; the page stays |
| RegisterForm.RegisterScreen.NextPage | app/onboardnauth/registerform.tsx:51-63 | the page becomes 2 exactly when every personal field is non-empty; otherwise the page and the form stay |
| RegisterForm.RegisterScreen.CompleteRegistration | app/onboardnauth/registerform.tsx:65-79 | registration succeeds exactly when every address field is non-empty |
| RegisterForm.RegisterScreen.PressFooter | app/onboardnauth/registerform.tsx:308 | on page 1 the press runs next-page: it moves to page 2 exactly when the personal fields are all non-empty and otherwise stays on page 1; on page 2 it runs completion and stays on page 2, so the page never goes back |
| Onboard.NextFor | app/onboardnauth/onboard.tsx:60-68 | before the last slide, Next scrolls to `currentIndex + 1`, never past the last slide; otherwise it opens the subscription screen |
| Onboard.NextLabel | app/onboardnauth/onboard.tsx:128-132 | the label is "Get Started" exactly on the last slide, otherwise "Next" |
| Onboard.LabelAnnouncesAction | app/onboardnauth/onboard.tsx:60-68 | on a slide of the pager, the label reads "Get Started" exactly when Next leaves for the subscription screen |
| Onboard.Dots | app/onboardnauth/onboard.tsx:112-120 | one dot per slide; dot `k` is active exactly when `k` is the current index |
| Onboard.ExactlyOneDot | app/onboardnauth/onboard.tsx:112-120 | with the index on a slide exactly one dot is active; off the slides none is |
| Onboard.WalkThrough | app/onboardnauth/onboard.tsx:25-68 | a check on the fixed data: on the three slides: Next scrolls to 1, then to 2, then opens the subscription screen, with the labels Next, Next, Get Started |
| Onboard.OnboardScreen.constructor | app/onboardnauth/onboard.tsx:49 | `currentIndex` starts at 0 |
| Onboard.OnboardScreen.ScrollSettled | app/onboardnauth/onboard.tsx:51-58 | the index becomes the slide the pager settled on |
| Onboard.OnboardScreen.PressNext | app/onboardnauth/onboard.tsx:60-68 | Next scrolls one slide on, staying within the three slides, exactly when not on the last slide |
| Onboard.OnboardScreen.Label | app/onboardnauth/onboard.tsx:128-132 | the label is "Get Started" exactly on the last slide and "Next" exactly on every other slide |
| LabTestPackages.DiscountPercent | components/labtestpackages.tsx:92-94 | for a positive original price the badge is the integer `n` with `n <= 100(o-d)/o + 1/2 < n + 1`, i.e. `Math.round`; a zero original price gives NaN when the discounted price is 0 and -Infinity otherwise |
| LabTestPackages.RoundingUnique | components/labtestpackages.tsx:92-94 | only one integer meets the rounding bounds |
| LabTestPackages.PercentInRange | components/labtestpackages.tsx:92-94 | with `0 <= disc <= orig` and `orig > 0`, the percentage lies in [0, 100] |
| LabTestPackages.EndPoints | components/labtestpackages.tsx:92-94 | no discount reads 0% and a free package reads 100% |
| LabTestPackages.PercentMonotone | components/labtestpackages.tsx:92-94 | a higher discounted price never shows a higher percentage |
| LabTestPackages.SamplePercents | components/labtestpackages.tsx:36-57 | 2330/699 reads 70% and 2330/1427 reads 39% |
| LabTestPackages.CardPercents | components/labtestpackages.tsx:72-77 | there is one badge per package shown, taken from the passed packages or the default ones |
| LabTestPackages.DefaultBadges | components/labtestpackages.tsx:29-70 | the four default cards read 70, 70, 39 and 39 |
| LabTestPackages.BookPress | components/labtestpackages.tsx:80-89 | the caller's handler receives the package exactly when one was given; otherwise the lab test screen opens with that package's id and title |
| DoctorCategory.Displayed | components/doctorcategory.tsx:42 | the grid shows a prefix of the categories: all of them when expanded, `min(8, n)` when collapsed |
| DoctorCategory.CollapsedIsPrefix | components/doctorcategory.tsx:42 | the collapsed list is a prefix of the expanded one, and exactly the first eight when there are at least eight |
| DoctorCategory.SampleGrid | components/doctorcategory.tsx:15-36 | a check on the fixed data: collapsed shows the first 8 of the 20 categories; expanded shows all 20 |
| DoctorCategory.HeaderLabel | components/doctorcategory.tsx:50-52 | the header reads "Show Less" exactly when expanded, otherwise "View All" |
| DoctorCategory.CardPress | components/doctorcategory.tsx:67 | a card press hands the category to the handler exactly when one was given |
| DoctorCategory.CategoryGrid.constructor | components/doctorcategory.tsx:39 | the grid starts collapsed |
| DoctorCategory.CategoryGrid.Toggle | components/doctorcategory.tsx:49 | the header press flips `showAll` |
| DoctorCategory.CategoryGrid.Shown | components/doctorcategory.tsx:42-52 | the grid shows 20 or 8 categories; it shows all of them exactly when the header reads "Show Less" |
| DoctorCategory.ToggleTwiceRestores | components/doctorcategory.tsx:49 | two header presses restore the flag and the grid |
| Subscription.FindPlan | app/screens/subscription.tsx:294 | the lookup finds nothing exactly when no plan has the id; otherwise it finds a listed plan with that id |
| Subscription.FindPlanFirst | app/screens/subscription.tsx:294 | the lookup finds the first plan with that id |
| Subscription.FindById | app/screens/subscription.tsx:294 | with unique ids, looking up a card's id finds that very plan |
| Subscription.SampleIdsUnique | app/screens/subscription.tsx:38-97 | the three plan ids are distinct |
| Subscription.CardFeatures | app/screens/subscription.tsx:150 | a card lists a prefix of the plan's features: all of them on the featured card, the first `min(4, n)` on the others |
| Subscription.SampleCardFeatures | app/screens/subscription.tsx:203 | Basic and Plus list 4 features and Premium lists all 9 |
| Subscription.TrialLine | app/screens/subscription.tsx:333 | the trial test shared by the featured card and the modal banner holds exactly when the plan has a non-zero trial length, and it shows that length |
| Subscription.CardTrialLine | app/screens/subscription.tsx:117-180 | a card shows a trial line exactly when it is the featured card and its plan has a non-zero trial length; the other cards (lines 183-235) never show one |
| Subscription.SampleCardTrials | app/screens/subscription.tsx:117-235 | a check on the sample plans: only Premium's card shows a trial (30 days); Plus has a 14-day trial that its card does not show |
| Subscription.ModalPlan | app/screens/subscription.tsx:306-331 | the modal describes a plan exactly when the selection is a non-empty id that some plan has; the plan described is a listed plan with the selected id |
| Subscription.ModalTrial | app/screens/subscription.tsx:333-344 | the modal's trial banner shows exactly when the described plan has a trial; it shows that plan's non-zero length |
| Subscription.SampleModals | app/screens/subscription.tsx:38-97 | selecting a card shows its plan in the modal; Basic has no banner, Plus offers 14 days and Premium 30 |
| Subscription.SubscriptionScreen.constructor | app/screens/subscription.tsx:101-102 | the screen works over the three plans; initially no plan is selected and the modal is closed |
| Subscription.SubscriptionScreen.SelectPlan | app/screens/subscription.tsx:104-107 | the plan becomes selected and the modal opens |
| Subscription.SubscriptionScreen.Subscribe | app/screens/subscription.tsx:109-112 | the modal closes and the selection stays |
| Subscription.SubscriptionScreen.CloseModal | app/screens/subscription.tsx:287 | Cancel, the cross and the back gesture only close the modal |
| Subscription.SubscriptionScreen.Trial | app/screens/subscription.tsx:333-344 | the banner is the modal's banner for the current selection: it shows exactly when the selection is a non-empty id, `find` locates a plan under it and that plan has a non-zero trial, and it shows the first such plan's length |
| Seqs.Filter | app/screens/cart.tsx:57 | `filter` keeps only elements that satisfy the test; keeps every input element that does; is never longer than its input |
| Seqs.FilterIsSubsequence | app/screens/orders.tsx:91 | `filter` keeps the survivors in their original relative order |
| Seqs.FilterConcat | app/screens/location.tsx:109-117 | filtering two lists one after the other is filtering their concatenation |
| Seqs.SubsequenceDistinct | app/screens/language.tsx:131 | deleting elements keeps keys distinct |
| Seqs.Take | components/doctorcategory.tsx:42 | `slice(0, n)` is a prefix of length `min(n, |s|)` |

## Left out

- Subscription.TrialLine: a `trialDays` of 0 is taken to show no trial line, as a falsy value; in the app `0 && <View/>` hands the number 0 to a `View`, which React Native rejects. None of the three plans has 0, so the case is never reached.
- Rendering, layout, styles, gradients, images and icons are not modelled. They are presentation only.
- Navigation (`router.push/back/replace`) is an abstract outcome:
  - a `Route` or `NextAction` value;
  - an `Outcome` that goes on to the form;
  - a `Booking`.
- The Skip button of the onboarding pager and the back and close buttons only navigate, so they are not modelled.
- Alerts, toasts and `console.log` are not modelled. Where an alert tells success from failure, the model returns the alert's kind.
- The sign-up client is not modelled:
  - `signOut`, `attemptEmailAddressVerification` and `setActive` are foreign asynchronous calls;
  - whether the client is loaded and what the attempt returned or threw are parameters, and only their classification is modelled;
  - `signOut` errors are swallowed by the source and are not represented;
  - `setActive` is taken to succeed;
  - a thrown value without an `errors` array is treated as an error without a message.
- The asynchronous gap between sending the code and the answer is two methods, `PressVerify` and `Settle`. Interleavings other than presses that arrive while loading are not modelled.
- The one-second redirect timers and the 200 ms back-navigation are not modelled.
- TextInput focus refs are reduced to the index that the focus is asked to move to.
- The relative order of `onKeyPress` and `onChangeText` is platform-dependent and is not modelled.
- Floating point is not modelled:
  - cart prices are integer paise and plan prices integer cents;
  - `toFixed` formatting is left out.
- LabTestPackages.DiscountPercent: is `Math.round` of the exact quotient. The source computes `(o - d) / o * 100` in binary floating point. At an exact half, the float product can land just below or above the half, so the rounding may differ there.
- Onboard.OnboardScreen.ScrollSettled: takes the settled slide index as given. `Math.round(contentOffset.x / width)` over floating point offsets is not modelled.
- `toLowerCase` and `toUpperCase` map ASCII letters only. Other characters are left as they are.
- Strings are sequences of Unicode scalar values, not UTF-16 code units. Lengths agree for the digits and ASCII text the screens test.
- `handleSelectLocation` on the location screen sets the `selectedLocation` state, which nothing reads, and navigates back after 200 ms. `handleComplete` on the language screen only navigates back. Neither is modelled. The cart's Proceed to Checkout button (app/screens/cart.tsx:171) has no press handler at all.
- The empty-state texts of the orders screen are static display and are not modelled.
