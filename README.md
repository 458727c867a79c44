# Slide deck navigation, carousels and table formatters

This project models the behaviour of a client-rendered sales presentation built from
React components. It covers the following parts.

- **The presentation page** (`app/page.tsx`):
  - which proposal sequence is active: none, the 15-slide "full" deck or the 9-slide "landing" deck;
  - which slide index is showing, and the direction hint the slides animate with;
  - the clamped next/previous handlers, the unchecked jump, the two exits and the choice of sequence;
  - routing of arrow keys and the `slideNavigation` window event;
  - the image-preload gate that holds back the page until three images have loaded or failed;
  - which slide component, nav bar and disabled buttons are rendered for a state.
- **The generic slide cursor** (`components/presentation-context.tsx`). Unlike the page, its jump is bounds-checked.
- **The two image carousels**:
  - slide 3 has three images, a cyclic index, buttons, a five-second auto-advance and dots;
  - landing slide 5 has two images, with opacity and z-order selection.
- **The two table formatters**:
  - `formatCurrency` of the budget slide (slide 12), over the `budgetData` table;
  - `formatValue` of the ROI slide (slide 13), over the `roiData` table.
  These are modelled together with the parts of `Number.prototype.toLocaleString('en-US')` and
  `parseInt` they rely on. The `parseInt` model follows section 19.2.5 of ECMA-262.

The modules are:

- `Stepping`: the clamped and the cyclic index steps, defined once and shared. It includes JavaScript's
  truncating `%` (`JsRem`).
- `Deck`: the page.
  - The pure transition functions (`NextSlideState`, …) state what each handler does to
    `(proposalType, currentSlide, slideDirection)`.
  - The class `Home` holds the page's state fields and its preload counter. Its handler methods update them in place, and each method is proved to perform exactly the matching transition.
  - `Enabled` describes which events the rendered page can produce in a state.
  - `OnDeck` is the invariant that every such event preserves.
- `Presentation`: the class `PresentationProvider` and its range invariant.
- `ImageSlider`, `LandingCarousel`: the carousel classes and the per-image view functions.
- `LocaleFormat`: decimal digits, en-US grouping in threes, `toLocaleString` of an integer or NaN, and `parseInt`.
- `Budget`, `Roi`: the two tables and their formatters.

Each timer tick, image load callback, key press and click is modelled as one explicit method call or one `Event`.

What the code does and does not do:

- No lock or cooldown appears anywhere in the code. Rapid input applies every transition.
- There is no touch-swipe handling and no swipe threshold.
- The page's `goToSlide` has no range check. A jump past the last slide is accepted and renders nothing.
- `totalSlides` is 0 when no proposal is chosen. `nextSlide` from the title slide therefore never moves.
- `nextSlide`/`prevSlide` at a boundary still set the direction, so they are not no-ops on the state.
- `handleExplore` does not check that no sequence is active.
- An exit is available exactly where the rendered slide draws its exit button. `goToFirstSlide` itself does not check the sequence.
- The `keydown` listener is installed even while the loading screen shows, so arrow keys reach the handlers then. In that state (no proposal, index 0) they can only set `slideDirection`.

## Model

| member | source | states |
|---|---|---|
| Stepping.ClampedNext | app/page.tsx:72-75 | the next index is the same or one higher, and it is higher exactly when the index is below `total-1`; it never leaves [0, total) |
| Stepping.ClampedPrev | app/page.tsx:77-80 | the previous index is the same or one lower, and it is lower exactly when the index is above 0; it never goes below 0 |
| Stepping.ClampedNextTimesSaturates | app/page.tsx:74 | k clamped next steps from i in [0, total) end at min(i+k, total-1) |
| Stepping.ClampedPrevTimesSaturates | app/page.tsx:79 | k clamped previous steps from i >= 0 end at max(i-k, 0) |
| Stepping.JsRem | components/slides/slide-3.tsx:53 | JavaScript's `%` truncates toward zero: the dividend equals the truncated quotient times n plus the remainder, which lies strictly between -n and n, has the dividend's sign, and equals the dividend when it is smaller than n in magnitude |
| Stepping.JsRemExamples | components/slides/slide-3.tsx:53 | 7 % 3 is 1 and -7 % 3 is -1 |
| Stepping.CyclicNext | components/slides/slide-3.tsx:60-62 | `(i + 1) % n` stays in [0, n), wraps the last index to 0 and otherwise adds one |
| Stepping.CyclicPrev | components/slides/slide-3.tsx:64-66 | `(i - 1 + n) % n` stays in [0, n), wraps 0 to n-1 and otherwise subtracts one |
| Stepping.CyclicNextTimes | components/slides/slide-3.tsx:51-54 | any number of auto-advance ticks keeps the index in [0, n) |
| Stepping.PrevUndoesNext | components/slides/slide-3.tsx:60-66 | prevImage after nextImage returns to the starting index |
| Stepping.NextUndoesPrev | components/slides/slide-3.tsx:60-66 | nextImage after prevImage returns to the starting index |
| Stepping.CyclicNextTimesBeforeWrap | components/slides/slide-3.tsx:61 | k forward steps that do not pass the end land on i+k |
| Stepping.CyclicNextTimesCompose | components/slides/slide-3.tsx:61 | k1 steps and then k2 steps equal k1+k2 steps |
| Stepping.FullCycleIsIdentity | components/slides/slide-3.tsx:61 | n forward steps over n images return to the starting index |
| Deck.NextSlideState | app/page.tsx:72-75 | nextSlide sets the direction to +1, keeps the proposal, and advances the index by one exactly when it is below `totalSlides-1` |
| Deck.PrevSlideState | app/page.tsx:77-80 | prevSlide sets the direction to -1, keeps the proposal, and goes back by one exactly when the index is above 0 |
| Deck.GoToSlideState | app/page.tsx:82-85 | goToSlide lands on any index with no range check; the direction is +1 exactly for a strictly later index, -1 otherwise (an equal index included) |
| Deck.FirstSlideState | app/page.tsx:88-91 | goToFirstSlide moves to index 1 with direction -1 and keeps the proposal |
| Deck.MainSlideState | app/page.tsx:94-98 | goToMainSlide yields (none, 0, -1) from any state |
| Deck.ExploreState | app/page.tsx:101-110 | 'full' gives (full, 1) and 'landing' gives (landing, 1); any other string keeps proposal and index; the direction is +1 in every case |
| Deck.KeyDownState | app/page.tsx:114-120 | ArrowRight runs nextSlide, ArrowLeft runs prevSlide, and every other key leaves the state unchanged |
| Deck.SlideNavigationState | app/page.tsx:123-127 | the event jumps with goToSlide exactly when a detail is present and its index is a number, and otherwise changes nothing |
| Deck.RenderedSlide | app/page.tsx:149-185 | Slide1 renders exactly at index 0; in 'full' Slide n renders at index n-1; in 'landing' index i in 1..9 renders LandingSlide i; Slide 2..15 render only in 'full' and LandingSlides only in 'landing'; with no proposal only index 0 renders; every index below `totalSlides` renders a component |
| Deck.ExitWiring | app/page.tsx:157-184 | the exit goes to goToMainSlide exactly on LandingSlide1; LandingSlide2, 3, 5, 6 and 9 exit to goToFirstSlide; LandingSlide4, 7 and 8 have no exit; in 'full' exactly Slide3 has one; an exit exists only on a rendered slide other than the title inside a proposal |
| Deck.Enabled | app/page.tsx:112-227 | while loading, exactly the key presses can happen; the nav buttons and dots only when a proposal is chosen and the index is not 1 |
| Deck.NavBarView | app/page.tsx:190-227 | the nav bar shows exactly when a proposal is chosen and the index is not 1; it has one dot per slide of the sequence, the active dot is the current index, prev is disabled exactly at 0 and next exactly at `totalSlides-1` |
| Deck.PageViewOf | app/page.tsx:138-144 | the loading screen shows exactly while the images are not loaded |
| Deck.KeysAtRootStayOnTitle | app/page.tsx:43-44 | with no proposal chosen (0 slides), any sequence of key presses leaves the page on the title slide with no proposal |
| Deck.ArrowRightPresses | app/page.tsx:114-116 | k ArrowRight presses inside a sequence end at min(i+k, total-1) with direction +1 and the proposal unchanged |
| Deck.FullDeckWalkthrough | app/page.tsx:101-116 | choosing 'full' gives (full, 1, +1); thirteen ArrowRight presses reach (full, 14) and a fourteenth stays there; the title exit returns to (none, 0, -1) |
| Deck.InitialOnDeck | app/page.tsx:35-40 | the page starts on the title slide with no proposal, inside the deck invariant, showing the loading screen |
| Deck.EnabledEventKeepsOnDeck | app/page.tsx:149-227 | every event the rendered page can produce (keys, enabled buttons, dots, the two choices, the wired exits, "Get Started") keeps the index on a slide of the active sequence |
| Deck.EnabledRunKeepsOnDeck | app/page.tsx:149-227 | any run of producible events keeps the page inside the deck invariant |
| Deck.OnDeckRendersOneSlide | app/page.tsx:149-185 | in a deck state a slide component renders, and it is never LandingSlide9 |
| Deck.RenderedSlideInjective | app/page.tsx:149-185 | different indices of one sequence render different components |
| Deck.FullSequenceCoversSlides | app/page.tsx:149-171 | index i of the full sequence renders Slide i+1, so all fifteen slides are reachable |
| Deck.LandingSlideNineOnlyByJump | app/page.tsx:184 | nextSlide and the nine dots never bring up LandingSlide9; a slideNavigation event carrying 9 does |
| Deck.LandingTotalMissesLastSlide | app/page.tsx:39 | as written, the index equal to the landing total (9) still renders LandingSlide9, and eight nexts from LandingSlide1 stop at index 8 |
| Deck.CorrectedTotalSlides | app/page.tsx:38-44 | the corrected total of a sequence is the number of components it renders: every index below it renders a slide, the index equal to it renders none; 'full' keeps 15 |
| Deck.CorrectedLandingReachesNine | app/page.tsx:176-184 | with the corrected landing total, eight nexts from LandingSlide1 reach LandingSlide9, and next stops there |
| Deck.NavButtonsDisabledIffNoMove | app/page.tsx:196-227 | in a deck state a nav button is disabled exactly when pressing it would not move the index |
| Deck.NextEnabledButInertPastLastLanding | app/page.tsx:227 | at landing index 9, reached only by a jump, the next button is enabled but does not move |
| Deck.ExploreIgnoresCurrentProposal | app/page.tsx:101-110 | a choice made from the title slide switches sequence whatever proposal was active before |
| Deck.SettleImage | app/page.tsx:56-67 | a load and an error both add one to the count, and the gate opens when the count reaches the number of images |
| Deck.GateOpensAtThreeSettled | app/page.tsx:47-70 | after any outcomes, the count is their number and the gate is open exactly when three have settled, loaded or failed |
| Deck.SettleAllFrom | app/page.tsx:53-69 | from any consistent counter, settling more images keeps the gate open exactly when the count is at least three |
| Deck.Home.constructor | app/page.tsx:35-40 | the page starts at (none, 0, 0) with no image settled and the gate closed |
| Deck.Home.ImageSettled | app/page.tsx:56-67 | the onload/onerror callback performs SettleImage on the counter and the flag |
| Deck.Home.NextSlide | app/page.tsx:72-75 | the state becomes NextSlideState of the old state |
| Deck.Home.PrevSlide | app/page.tsx:77-80 | the state becomes PrevSlideState of the old state |
| Deck.Home.GoToSlide | app/page.tsx:82-85 | the state becomes GoToSlideState of the old state |
| Deck.Home.GoToFirstSlide | app/page.tsx:88-91 | the state becomes FirstSlideState of the old state |
| Deck.Home.GoToMainSlide | app/page.tsx:94-98 | the state becomes MainSlideState of the old state |
| Deck.Home.HandleExplore | app/page.tsx:101-110 | the state becomes ExploreState of the old state |
| Deck.Home.HandleKeyDown | app/page.tsx:114-120 | the state becomes KeyDownState of the old state |
| Deck.Home.HandleSlideNavigation | app/page.tsx:123-127 | the state becomes SlideNavigationState of the old state |
| Presentation.CheckedJump | components/presentation-context.tsx:27-31 | goToSlide lands on the target when it is in [0, totalSlides); otherwise the index stays where it was |
| Presentation.OperationsKeepInRange | components/presentation-context.tsx:16-31 | all three operations keep the index in range; with at least one slide it stays in [0, totalSlides) |
| Presentation.NextAtLastIsNoOp | components/presentation-context.tsx:19-21 | nextSlide at the last slide changes nothing, so repeating it changes nothing either |
| Presentation.PrevAtFirstIsNoOp | components/presentation-context.tsx:23-25 | prevSlide at 0 changes nothing |
| Presentation.JumpAcceptedIffInRange | components/presentation-context.tsx:27-31 | a jump to another index is taken exactly when the target is in [0, totalSlides) |
| Presentation.PresentationProvider.constructor | components/presentation-context.tsx:16-17 | the cursor starts at 0 for the given total, inside the range invariant |
| Presentation.PresentationProvider.WithDefaultTotal | components/presentation-context.tsx:16-17 | without the prop the total is 1 and the cursor starts at 0 |
| Presentation.PresentationProvider.NextSlide | components/presentation-context.tsx:19-21 | the index becomes ClampedNext of the old index and stays in range |
| Presentation.PresentationProvider.PrevSlide | components/presentation-context.tsx:23-25 | the index becomes ClampedPrev of the old index and stays in range |
| Presentation.PresentationProvider.GoToSlide | components/presentation-context.tsx:27-31 | the index becomes CheckedJump of the old index and stays in range |
| ImageSlider.EnterDirection | components/slides/slide-3.tsx:406 | an image enters from -1 exactly when it lies before the current image, else from +1 |
| ImageSlider.OnlyCurrentImageDisplayed | components/slides/slide-3.tsx:409-412 | exactly one image is displayed and animated to the centre: the current one |
| ImageSlider.NextPrevInverse | components/slides/slide-3.tsx:60-66 | with three images, prev undoes next and next undoes prev |
| ImageSlider.ThreeNextsIsIdentity | components/slides/slide-3.tsx:61 | three forward steps return to the same image |
| ImageSlider.Slider.constructor | components/slides/slide-3.tsx:25 | the slider starts at image 0 |
| ImageSlider.Slider.NextImage | components/slides/slide-3.tsx:60-62 | the index becomes `(i+1) % 3` and stays in [0, 3) |
| ImageSlider.Slider.PrevImage | components/slides/slide-3.tsx:64-66 | the index becomes `(i-1+3) % 3` and stays in [0, 3) |
| ImageSlider.Slider.AutoAdvance | components/slides/slide-3.tsx:51-54 | one interval tick takes the same step as nextImage |
| ImageSlider.Slider.DotClick | components/slides/slide-3.tsx:444-447 | clicking dot k sets the index to exactly k |
| LandingCarousel.OnlyCurrentImageVisible | components/landing-slides/landing-slide-5.tsx:130-133 | exactly one image has opacity 1 and zIndex 1, the current one; every other image has 0 and 0 |
| LandingCarousel.NextEqualsPrev | components/landing-slides/landing-slide-5.tsx:101-107 | with two images next and prev both toggle i to 1-i |
| LandingCarousel.TwoNextsIsIdentity | components/landing-slides/landing-slide-5.tsx:102 | two forward steps are the identity |
| LandingCarousel.Carousel.constructor | components/landing-slides/landing-slide-5.tsx:25 | the carousel starts at image 0 |
| LandingCarousel.Carousel.NextImage | components/landing-slides/landing-slide-5.tsx:101-103 | the index becomes `(i+1) % 2` and stays in {0, 1} |
| LandingCarousel.Carousel.PrevImage | components/landing-slides/landing-slide-5.tsx:105-107 | the index becomes `(i-1+2) % 2` and stays in {0, 1} |
| LandingCarousel.Carousel.AutoAdvance | components/landing-slides/landing-slide-5.tsx:55-58 | one timer tick takes the same step as nextImage |
| LocaleFormat.DigitChar | components/slides/slide-12.tsx:91 | the character of a digit is a decimal digit whose value is that digit |
| LocaleFormat.Decimal | components/slides/slide-12.tsx:91 | the decimal text of a number is non-empty, all digits, and starts with '0' only for 0 |
| LocaleFormat.DecimalAppendDigit | components/slides/slide-12.tsx:91 | appending a digit to a positive number appends its character to the decimal text |
| LocaleFormat.DecimalRoundTrip | components/slides/slide-12.tsx:91 | reading the decimal text of n gives back n |
| LocaleFormat.DecimalOfCanonical | components/slides/slide-13.tsx:96 | a digit string without a leading zero is the decimal text of its own value |
| LocaleFormat.LeadingDigitPositive | components/slides/slide-13.tsx:96 | a digit string that starts with a non-zero digit has a value of at least 1 |
| LocaleFormat.StripCommas | components/slides/slide-12.tsx:91 | removing the commas leaves no comma |
| LocaleFormat.StripCommasAppend | components/slides/slide-12.tsx:91 | removing commas distributes over concatenation |
| LocaleFormat.StripCommasNoComma | components/slides/slide-12.tsx:91 | a text without commas is unchanged by removing them |
| LocaleFormat.GroupThousandsStrip | components/slides/slide-12.tsx:91 | removing the commas from grouped digits gives the digits back |
| LocaleFormat.GroupThousandsLength | components/slides/slide-12.tsx:91 | grouping d digits adds (d-1)/3 commas |
| LocaleFormat.GroupThousandsLayout | components/slides/slide-12.tsx:91 | a grouped position holds a comma exactly when it is a multiple of four from the end, so every group after the first has three digits |
| LocaleFormat.GroupThousandsStartsWithDigit | components/slides/slide-12.tsx:91 | grouped text starts with the first digit, never with a comma |
| LocaleFormat.ShortNumbersUngrouped | components/slides/slide-12.tsx:91 | up to three digits are left without a comma |
| LocaleFormat.FromInt | components/slides/slide-12.tsx:90 | an integer becomes a number with its sign and magnitude |
| LocaleFormat.ToLocaleString | components/slides/slide-12.tsx:91 | NaN prints as "NaN"; an integer prints as its sign and grouped digits, which give its plain decimal once the commas are removed |
| LocaleFormat.TrimStart | components/slides/slide-13.tsx:96 | parseInt's trimming removes a prefix made only of white space and leaves no leading white space |
| LocaleFormat.ParseInt | components/slides/slide-13.tsx:96 | an integer result is negative exactly when the trimmed text starts with '-' |
| LocaleFormat.ParseSigned | components/slides/slide-13.tsx:96 | the sign step gives a negative result exactly for a leading '-'; a leading '+' or '-' is dropped once and the rest is parsed, any other text is parsed whole as non-negative |
| LocaleFormat.ParsePrefixed | components/slides/slide-13.tsx:96 | the sign is kept; after "0x"/"0X" the result is NaN exactly when no hex digit follows and is otherwise the base-16 value of the hex digit run; without the prefix it is NaN exactly when no decimal digit comes first and is otherwise the base-10 value of the digit run |
| LocaleFormat.DigitPrefixLength | components/slides/slide-13.tsx:96 | the digit run is the longest prefix of digits: all digits, followed by a non-digit or the end |
| LocaleFormat.ParseDigits | components/slides/slide-13.tsx:96 | the result is NaN exactly when no digit comes first; otherwise it carries the given sign and the value of the longest digit run |
| LocaleFormat.DigitPrefixOfDigits | components/slides/slide-13.tsx:96 | in an all-digit string the digit run is the whole string |
| LocaleFormat.ParseIntOfDigits | components/slides/slide-13.tsx:96 | a plain digit string parses to its decimal value |
| LocaleFormat.ParseIntOfDigitRun | components/slides/slide-13.tsx:96 | blanks, an optional sign, a run of decimal digits and any rest that does not continue the run parse to the signed value of the run; a lone "0" followed by 'x' or 'X' is the excluded hex case |
| LocaleFormat.TrimStartOfBlanks | components/slides/slide-13.tsx:96 | white space before a character that is not white space is skipped, and nothing more |
| LocaleFormat.DigitPrefixOfDigitsThen | components/slides/slide-13.tsx:96 | the digit run of digits followed by a non-digit is exactly those digits |
| LocaleFormat.ParseIntWithoutLeadingDigit | components/slides/slide-13.tsx:96 | a string whose first character after blanks and sign is not a digit parses to NaN |
| LocaleFormat.ParseIntHexPrefix | components/slides/slide-13.tsx:96 | "0x1F" parses in base 16 to 31 |
| LocaleFormat.ParseIntStopsAtNonDigit | components/slides/slide-13.tsx:96 | "  -42px" parses to -42: blanks skipped, sign kept, trailing text ignored |
| Budget.FormatCurrency | components/slides/slide-12.tsx:90-92 | the amount prints as "$" and at least one more character; removing "$" and commas gives the sign and plain decimal of the value |
| Budget.FormatCurrencyOfAmount | components/slides/slide-12.tsx:91 | an amount of zero or more prints as "$" followed by its digits grouped in threes |
| Budget.FormatCurrencyLayout | components/slides/slide-12.tsx:91 | "$", then commas exactly every fourth position from the end with no comma first, so the first group has 1 to 3 digits and the rest 3; removing "$" and commas gives the plain decimal |
| Budget.DecimalBelowThousand | components/slides/slide-12.tsx:91 | amounts below 1000 have at most three digits |
| Budget.SmallAmountsHaveNoComma | components/slides/slide-12.tsx:85-86 | amounts below 1000 print as "$" and their digits with no comma |
| Budget.TotalIsSumOfWorkstreams | components/slides/slide-12.tsx:79-84 | the "Total Fixed Investment" row is the sum of the five workstream rows above it |
| Budget.TotalAmountText | components/slides/slide-12.tsx:84 | 80000 prints as "$80,000" |
| Budget.DesignAmountText | components/slides/slide-12.tsx:80 | 15000 prints as "$15,000" |
| Budget.HostingAmountText | components/slides/slide-12.tsx:183-185 | the hosting row's cell reads "$500 / mo" |
| Budget.MonthlyCell | components/slides/slide-12.tsx:183-185 | a recurring row prints its formatted amount followed by " / mo" |
| Roi.FormatValue | components/slides/slide-13.tsx:89-97 | a cell with '$' or '%', or a dash, comes back unchanged; a cell parseInt rejects prints "NaN"; for any other cell, removing the commas gives the sign and plain decimal of the parsed integer |
| Roi.IntegerTextIsNotNaN | components/slides/slide-13.tsx:96 | the en-US text of an integer is never "NaN" |
| Roi.FormatValueNaNIff | components/slides/slide-13.tsx:89-97 | formatValue prints "NaN" exactly for the cells it does not pass through and parseInt rejects |
| Roi.PassthroughIdempotent | components/slides/slide-13.tsx:90-95 | a passed-through cell is unchanged, so formatting it again changes nothing |
| Roi.FormatValueOfDigits | components/slides/slide-13.tsx:96 | a digit string without a leading zero prints as its digits grouped in threes, and removing the commas gives it back |
| Roi.FormatValueOfAllDigits | components/slides/slide-13.tsx:96 | any digit string, leading zeros included, prints as the grouped decimal of its value |
| Roi.LeadingZerosDropped | components/slides/slide-13.tsx:96 | "007" prints as "7" |
| Roi.FormatValueOfDigitRun | components/slides/slide-13.tsx:89-97 | a parsed cell made of blanks, a sign, a digit run and a rest that does not continue it prints as the en-US text of the run's signed value; the rest is dropped |
| Roi.TrailingUnitDropped | components/slides/slide-13.tsx:96 | "12 months" prints as "12" |
| Roi.ShortDigitCellsUnchanged | components/slides/slide-13.tsx:96 | a digit string without a leading zero, of up to three digits, prints exactly as written |
| Roi.DigitsAreNotPassedThrough | components/slides/slide-13.tsx:90-95 | a digit string has no '$', '%' or comma and is not a dash, so it is parsed |
| Roi.CountCellsPrintedAsWritten | components/slides/slide-13.tsx:81-82 | the lead and deal counts print exactly as written |
| Roi.CurrencyAndDashCellsPrintedAsWritten | components/slides/slide-13.tsx:83-86 | the currency cells and the dash cells print exactly as written |
| Roi.PaybackCellRendersNaN | components/slides/slide-13.tsx:86 | as written, the payback row's "< 9 months" cell prints as "NaN" |
| Roi.PaybackCellParsesToNaN | components/slides/slide-13.tsx:96 | "< 9 months" is not passed through and parseInt rejects it |
| Roi.NoCellReadsNaN | components/slides/slide-13.tsx:80-87 | no cell of the table is itself the text "NaN" |
| Roi.FormatValueCorrected | components/slides/slide-13.tsx:89-97 | the corrected formatter prints either what formatValue prints or the cell itself |
| Roi.CorrectedAgreesOrKeepsText | components/slides/slide-13.tsx:89-97 | the correction changes only the cells that printed "NaN", which it shows as written, and it prints "NaN" only for a cell that says "NaN" |
| Roi.CorrectedTableHasNoNaN | components/slides/slide-13.tsx:80-97 | with the correction no cell of the table prints "NaN", and the payback cell reads "< 9 months" |

The view functions `ImageSlider.Displayed`, `LandingCarousel.Opacity`/`LandingCarousel.ZIndex` and `Budget.EstimateCell` carry no contract of their own. What they show is stated by `ImageSlider.OnlyCurrentImageDisplayed`, `LandingCarousel.OnlyCurrentImageVisible`, `Budget.SmallAmountsHaveNoComma` and `Budget.HostingAmountText`. `LocaleFormat.GroupThousands` is described by `LocaleFormat.GroupThousandsStrip`, `LocaleFormat.GroupThousandsLength`, `LocaleFormat.GroupThousandsLayout` and `LocaleFormat.ShortNumbersUngrouped`.

## Left out

- Animation is not modelled: framer-motion variants, springs, durations, delays and the `AnimatePresence` exit order. The slide direction is kept only as the number each slide receives.
- The `isMobile` resize listeners, `window.open`, mailto/tel links and other window I/O are not modelled. They carry no navigation state.
- React effect registration and cleanup are not modelled.
  - Real `setInterval` timing is not modelled either: each five-second tick is one `AutoAdvance` call.
  - Each image `onload`/`onerror` callback is one `ImageSettled` call.
  - The `console.error` line of a failed image is output only.
- Deck.Home.HandleKeyDown: the listener registered for the `[currentSlide]` dependency list reads `proposalType`/`totalSlides` from the render that registered it. The model uses the current state. The two differ only in the window between a state update and the effect re-running.
- The `usePresentation` context-lookup throw is framework plumbing and is not modelled.
- Static slide copy, the button and exit-button components and the layout are presentational and not modelled.
- Which exit button each slide component draws is not modelled component by component. It is summarised as `Deck.ExitWiring`, taken from the slide components' `onExit` uses.
- Deck.SlideNavigationState and Presentation.PresentationProvider.GoToSlide: the page's JavaScript numbers are modelled as integers. A fractional, infinite or NaN `detail.index` is treated as "not an integer number" (`NonNumberIndex`), so no jump happens, whereas JavaScript would store that number.
- Budget.FormatCurrency: only integer amounts are modelled. Fractional amounts, and the rounding to three fraction digits that `toLocaleString` applies, are left out because every amount in the table is an integer.
- LocaleFormat.ParseInt: the value is exact. JavaScript rounds the digit run to the nearest double above 2^53. Digit runs of more than twenty digits may also be approximated under section 19.2.5 of ECMA-262.
- LocaleFormat.ToLocaleString: only the en-US format of integers and NaN is modelled. Other locales, Infinity and fraction digits are left out.

## Findings

| source | as written | input that shows it | evidently intended | confidence | as-written member | corrected member |
|---|---|---|---|---|---|---|
| components/slides/slide-13.tsx:86-96 | `formatValue` sends every cell that is not currency, a percentage or a dash through `parseInt(value).toLocaleString('en-US')` | the payback row's 12-month cell "< 9 months": parseInt returns NaN and the table shows "NaN" | a cell parseInt cannot read is shown as written, "< 9 months" | high, not executed | Roi.PaybackCellRendersNaN | Roi.CorrectedTableHasNoNaN |
| app/page.tsx:39 | `totalLandingSlides` is 9, but the landing sequence occupies indices 0 to 9: the title slide, then LandingSlide1..LandingSlide9 at indices 1 to 9 (app/page.tsx:176-184) | eight nextSlide presses from LandingSlide1 stop at index 8; the next button is disabled there and the ninth dot is index 8, so LandingSlide9 never shows | a landing total of 10, as the full total of 15 counts the title slide | high, not executed | Deck.LandingTotalMissesLastSlide | Deck.CorrectedLandingReachesNine |
