/**
  The presentation page of app/page.tsx: which proposal sequence is active, which slide
  shows, the direction hint the slides animate with, the image-preload gate, and the
  routing of keys, buttons, dots and the `slideNavigation` window event onto the
  navigation handlers.

  The pure part (DeckState and the ...State functions) states what each handler does;
  the class Home holds the page's state fields and runs the handlers in place.
 */
module Deck {
  import opened Stepping

  datatype Option<T> = None | Some(value: T)

  /** The `proposalType` state: 'none', 'full' or 'landing'. */
  datatype ProposalType = NoProposal | Full | Landing

  const TotalFullSlides: nat := 15
  const TotalLandingSlides: nat := 9
  /** Number of images the page preloads before it renders any slide. */
  const TotalImages: nat := 3

  /** `totalSlides`: 15 for 'full', 9 for 'landing' and 0 when no proposal is chosen. */
  function TotalSlides(t: ProposalType): nat
  {
    match t
    case Full => TotalFullSlides
    case Landing => TotalLandingSlides
    case NoProposal => 0
  }

  /** The navigation part of the page state. */
  datatype DeckState = DeckState(proposalType: ProposalType, currentSlide: int, slideDirection: int)

  /** The state before any interaction: title slide, no proposal, no direction. */
  const Initial := DeckState(NoProposal, 0, 0)

  // ---------------------------------------------------------------------------
  // The navigation handlers as state transitions
  // ---------------------------------------------------------------------------

  /** `nextSlide`: direction +1; the index advances only below the last slide of the sequence. */
  function NextSlideState(s: DeckState): (r: DeckState)
    ensures r.proposalType == s.proposalType && r.slideDirection == 1
    ensures r.currentSlide == s.currentSlide || r.currentSlide == s.currentSlide + 1
    ensures r.currentSlide != s.currentSlide <==> s.currentSlide < TotalSlides(s.proposalType) - 1
  {
    DeckState(s.proposalType, ClampedNext(TotalSlides(s.proposalType), s.currentSlide), 1)
  }

  /** `prevSlide`: direction -1; the index goes back only above 0. */
  function PrevSlideState(s: DeckState): (r: DeckState)
    ensures r.proposalType == s.proposalType && r.slideDirection == -1
    ensures r.currentSlide == s.currentSlide || r.currentSlide == s.currentSlide - 1
    ensures r.currentSlide != s.currentSlide <==> s.currentSlide > 0
  {
    DeckState(s.proposalType, ClampedPrev(s.currentSlide), -1)
  }

  /** `goToSlide(index)`: no range check; direction +1 only for a strictly later index. */
  function GoToSlideState(s: DeckState, index: int): (r: DeckState)
    ensures r.proposalType == s.proposalType && r.currentSlide == index
    ensures r.slideDirection == 1 <==> index > s.currentSlide
    ensures r.slideDirection == -1 <==> index <= s.currentSlide
  {
    DeckState(s.proposalType, index, if index > s.currentSlide then 1 else -1)
  }

  /** `goToFirstSlide`: back to slide index 1 of the active sequence, direction -1. */
  function FirstSlideState(s: DeckState): (r: DeckState)
    ensures r.proposalType == s.proposalType
    ensures r.currentSlide == 1 && r.slideDirection == -1
  {
    DeckState(s.proposalType, 1, -1)
  }

  /** `goToMainSlide`: back to the title slide with no proposal, direction -1. */
  function MainSlideState(s: DeckState): (r: DeckState)
    ensures r == DeckState(NoProposal, 0, -1)
  {
    DeckState(NoProposal, 0, -1)
  }

  /** `handleExplore(version)`: 'full' and 'landing' enter their sequence at index 1; direction is always +1. */
  function ExploreState(s: DeckState, version: string): (r: DeckState)
    ensures version == "full" ==> r == DeckState(Full, 1, 1)
    ensures version == "landing" ==> r == DeckState(Landing, 1, 1)
    ensures version != "full" && version != "landing" ==>
              r.proposalType == s.proposalType && r.currentSlide == s.currentSlide
    ensures r.slideDirection == 1
  {
    if version == "full" then DeckState(Full, 1, 1)
    else if version == "landing" then DeckState(Landing, 1, 1)
    else s.(slideDirection := 1)
  }

  // ---------------------------------------------------------------------------
  // Input routing
  // ---------------------------------------------------------------------------

  const ArrowRight := "ArrowRight"
  const ArrowLeft := "ArrowLeft"

  /** `handleKeyDown`: ArrowRight runs nextSlide, ArrowLeft runs prevSlide, any other key does nothing. */
  function KeyDownState(s: DeckState, key: string): (r: DeckState)
    ensures key == ArrowRight ==> r == NextSlideState(s)
    ensures key == ArrowLeft ==> r == PrevSlideState(s)
    ensures key != ArrowRight && key != ArrowLeft ==> r == s
  {
    if key == ArrowRight then NextSlideState(s)
    else if key == ArrowLeft then PrevSlideState(s)
    else s
  }

  /** The JavaScript value found in `detail.index`: an integer number, or something of another type. */
  datatype IndexValue = IntegerIndex(n: int) | NonNumberIndex

  /** The `detail` object of a `slideNavigation` event. */
  datatype SlideNavigationDetail = SlideNavigationDetail(index: IndexValue)

  /** `handleSlideNavigation`: jump only when a detail is present and its index is a number. */
  function SlideNavigationState(s: DeckState, detail: Option<SlideNavigationDetail>): (r: DeckState)
    ensures (detail.Some? && detail.value.index.IntegerIndex?) ==>
              r == GoToSlideState(s, detail.value.index.n)
    ensures !(detail.Some? && detail.value.index.IntegerIndex?) ==> r == s
  {
    match detail
    case Some(SlideNavigationDetail(IntegerIndex(n))) => GoToSlideState(s, n)
    case _ => s
  }

  /** Everything that can reach the navigation handlers of the page. */
  datatype Event =
    | KeyDown(key: string)                                // window "keydown"
    | SlideNavigation(detail: Option<SlideNavigationDetail>) // window "slideNavigation"
    | PrevButton                                          // the nav bar's left button
    | NextButton                                          // the nav bar's right button
    | DotClick(dot: int)                                  // the nav bar's dot with this index
    | ExploreChoice(version: string)                      // Slide1's onExplore
    | ExitToFirstSlide                                    // an exit button wired to goToFirstSlide
    | ExitToMainSlide                                     // an exit button wired to goToMainSlide

  /** The handler each event runs. */
  function Apply(s: DeckState, e: Event): DeckState
  {
    match e
    case KeyDown(key) => KeyDownState(s, key)
    case SlideNavigation(detail) => SlideNavigationState(s, detail)
    case PrevButton => PrevSlideState(s)
    case NextButton => NextSlideState(s)
    case DotClick(k) => GoToSlideState(s, k)
    case ExploreChoice(version) => ExploreState(s, version)
    case ExitToFirstSlide => FirstSlideState(s)
    case ExitToMainSlide => MainSlideState(s)
  }

  /** The state after handling the events in order. */
  function Run(s: DeckState, es: seq<Event>): DeckState
    decreases |es|
  {
    if es == [] then s else Run(Apply(s, es[0]), es[1..])
  }

  // ---------------------------------------------------------------------------
  // What the page renders
  // ---------------------------------------------------------------------------

  /** A slide component: Slide1..Slide15 of the full deck, or LandingSlide1..LandingSlide9. */
  datatype SlideComponent = Slide(number: nat) | LandingSlide(number: nat)

  /**
    The component rendered for a state: Slide1 at index 0 whatever the proposal,
    Slide(i+1) at index i of 'full', LandingSlide i at index i of 'landing', else nothing.
   */
  function RenderedSlide(t: ProposalType, i: int): (r: Option<SlideComponent>)
    ensures r == Some(Slide(1)) <==> i == 0
    ensures r.Some? && r.value.Slide? ==> 1 <= r.value.number <= TotalFullSlides && r.value.number == i + 1
    ensures r.Some? && r.value.LandingSlide? ==> t == Landing && 1 <= i <= 9 && r.value.number == i
    ensures t == Landing && 1 <= i <= 9 ==> r == Some(LandingSlide(i))
    ensures r.Some? && r.value.Slide? && r.value.number >= 2 ==> t == Full
    ensures t == NoProposal ==> (r.Some? <==> i == 0)
    ensures t != NoProposal && 0 <= i < TotalSlides(t) ==> r.Some?
  {
    if i == 0 then Some(Slide(1))
    else if t == Full && 1 <= i <= 14 then Some(Slide(i + 1))
    else if t == Landing && 1 <= i <= 9 then Some(LandingSlide(i))
    else None
  }

  /** The handler the rendered slide's exit button is wired to. */
  datatype ExitTarget = ToFirstSlide | ToMainSlide

  /**
    Slide3 gets goToFirstSlide, LandingSlide1 gets goToMainSlide and LandingSlide2..9 get
    goToFirstSlide; of the latter, LandingSlide4, 7 and 8 never draw the exit button.
   */
  function ExitWiring(t: ProposalType, i: int): (r: Option<ExitTarget>)
    ensures r == Some(ToMainSlide) <==> t == Landing && i == 1
    ensures r.Some? ==> t != NoProposal && RenderedSlide(t, i).Some? && RenderedSlide(t, i) != Some(Slide(1))
    ensures t == Full ==> (r.Some? <==> RenderedSlide(t, i) == Some(Slide(3)))
    ensures t == Landing && i in {4, 7, 8} ==> r.None?
    ensures t == Landing && i in {2, 3, 5, 6, 9} ==> r == Some(ToFirstSlide)
  {
    if t == Full && i == 2 then Some(ToFirstSlide)
    else if t == Landing && i == 1 then Some(ToMainSlide)
    else if t == Landing && i in {2, 3, 5, 6, 9} then Some(ToFirstSlide)
    else None
  }

  /** The navigation bar: previous/next buttons and one dot per slide of the sequence. */
  datatype NavBar = NavBar(prevDisabled: bool, nextDisabled: bool, dotCount: nat, activeDot: int)

  /** The bar shows once a proposal is chosen, except on slide index 1. */
  function NavBarView(s: DeckState): (r: Option<NavBar>)
    ensures r.Some? <==> s.proposalType != NoProposal && s.currentSlide != 1
    ensures r.Some? ==> r.value.dotCount == TotalSlides(s.proposalType)
    ensures r.Some? ==> r.value.activeDot == s.currentSlide
    ensures r.Some? ==> (r.value.prevDisabled <==> s.currentSlide == 0)
    ensures r.Some? ==> (r.value.nextDisabled <==> s.currentSlide == TotalSlides(s.proposalType) - 1)
  {
    if s.proposalType != NoProposal && s.currentSlide != 1 then
      Some(NavBar(s.currentSlide == 0,
                  s.currentSlide == TotalSlides(s.proposalType) - 1,
                  TotalSlides(s.proposalType),
                  s.currentSlide))
    else None
  }

  /** The whole page: a loading screen until the preload gate opens. */
  datatype PageView =
    | Loading
    | Presenting(slide: Option<SlideComponent>, direction: int, navBar: Option<NavBar>)

  function PageViewOf(imagesLoaded: bool, s: DeckState): (v: PageView)
    ensures v.Loading? <==> !imagesLoaded
  {
    if !imagesLoaded then Loading
    else Presenting(RenderedSlide(s.proposalType, s.currentSlide), s.slideDirection, NavBarView(s))
  }

  /**
    The events the page can produce in a state. Keys reach the handlers even during loading;
    everything else comes from rendered elements: enabled nav buttons, the dots, Slide1's two
    choices, the exit buttons, and LandingSlide1's "Get Started" button, which dispatches
    `slideNavigation` with index 2.
   */
  predicate Enabled(imagesLoaded: bool, s: DeckState, e: Event)
    ensures !imagesLoaded ==> (Enabled(imagesLoaded, s, e) <==> e.KeyDown?)
    ensures Enabled(imagesLoaded, s, e) && (e.PrevButton? || e.NextButton? || e.DotClick?) ==>
              s.proposalType != NoProposal && s.currentSlide != 1
  {
    match e
    case KeyDown(_) => true
    case PrevButton =>
      imagesLoaded && NavBarView(s).Some? && !NavBarView(s).value.prevDisabled
    case NextButton =>
      imagesLoaded && NavBarView(s).Some? && !NavBarView(s).value.nextDisabled
    case DotClick(k) =>
      imagesLoaded && NavBarView(s).Some? && 0 <= k < TotalSlides(s.proposalType)
    case ExploreChoice(version) =>
      imagesLoaded && RenderedSlide(s.proposalType, s.currentSlide) == Some(Slide(1))
      && version in {"full", "landing"}
    case ExitToFirstSlide =>
      imagesLoaded && ExitWiring(s.proposalType, s.currentSlide) == Some(ToFirstSlide)
    case ExitToMainSlide =>
      imagesLoaded && ExitWiring(s.proposalType, s.currentSlide) == Some(ToMainSlide)
    case SlideNavigation(detail) =>
      imagesLoaded && RenderedSlide(s.proposalType, s.currentSlide) == Some(LandingSlide(1))
      && detail == Some(SlideNavigationDetail(IntegerIndex(2)))
  }

  /** Every event of the sequence is one the page can produce at the moment it happens. */
  predicate EnabledRun(imagesLoaded: bool, s: DeckState, es: seq<Event>)
    decreases |es|
  {
    es == [] || (Enabled(imagesLoaded, s, es[0]) && EnabledRun(imagesLoaded, Apply(s, es[0]), es[1..]))
  }

  /** The states the page can be in: the title slide, or a valid index of the chosen sequence. */
  predicate OnDeck(s: DeckState)
  {
    && -1 <= s.slideDirection <= 1
    && (if s.proposalType == NoProposal then s.currentSlide == 0
        else 0 <= s.currentSlide < TotalSlides(s.proposalType))
  }

  // ---------------------------------------------------------------------------
  // Properties
  // ---------------------------------------------------------------------------

  /** Before a proposal is chosen, neither arrow key moves the deck off the title slide. */
  lemma {:induction false} KeysAtRootStayOnTitle(s: DeckState, keys: seq<string>)
    requires s.proposalType == NoProposal && s.currentSlide == 0
    ensures Run(s, KeyEvents(keys)).proposalType == NoProposal
    ensures Run(s, KeyEvents(keys)).currentSlide == 0
    decreases |keys|
  {
    if keys != [] {
      assert KeyEvents(keys)[1..] == KeyEvents(keys[1..]);
      KeysAtRootStayOnTitle(KeyDownState(s, keys[0]), keys[1..]);
    }
  }

  function KeyEvents(keys: seq<string>): (es: seq<Event>)
    ensures |es| == |keys|
    ensures forall j :: 0 <= j < |keys| ==> es[j] == KeyDown(keys[j])
  {
    seq(|keys|, j requires 0 <= j < |keys| => KeyDown(keys[j]))
  }

  /** k presses of ArrowRight: the index climbs one slide per press and stops at the last slide. */
  lemma {:induction false} ArrowRightPresses(s: DeckState, k: nat)
    requires s.proposalType != NoProposal
    requires 0 <= s.currentSlide < TotalSlides(s.proposalType)
    ensures Run(s, KeyEvents(seq(k, _ => ArrowRight))).currentSlide
              == Min(s.currentSlide + k, TotalSlides(s.proposalType) - 1)
    ensures Run(s, KeyEvents(seq(k, _ => ArrowRight))).proposalType == s.proposalType
    ensures k > 0 ==> Run(s, KeyEvents(seq(k, _ => ArrowRight))).slideDirection == 1
    decreases k
  {
    var es := KeyEvents(seq(k, _ => ArrowRight));
    if k > 0 {
      var s' := NextSlideState(s);
      assert Apply(s, es[0]) == s';
      assert es[1..] == KeyEvents(seq(k - 1, _ => ArrowRight));
      ArrowRightPresses(s', k - 1);
      if k - 1 == 0 {
        assert Run(s', es[1..]) == s';
      }
    }
  }

  /**
    Choosing the full proposal and pressing ArrowRight fourteen times ends on the last
    slide, index 14; the thirteenth press already got there and the fourteenth is clamped.
    The title exit then returns to the title with no proposal.
   */
  lemma FullDeckWalkthrough()
    ensures Run(Initial, [ExploreChoice("full")]) == DeckState(Full, 1, 1)
    ensures Run(DeckState(Full, 1, 1), KeyEvents(seq(13, _ => ArrowRight))) == DeckState(Full, 14, 1)
    ensures Run(DeckState(Full, 1, 1), KeyEvents(seq(14, _ => ArrowRight))) == DeckState(Full, 14, 1)
    ensures Apply(DeckState(Full, 14, 1), ExitToMainSlide) == DeckState(NoProposal, 0, -1)
  {
    assert Run(Initial, [ExploreChoice("full")]) == Run(DeckState(Full, 1, 1), []);
    ArrowRightPresses(DeckState(Full, 1, 1), 13);
    ArrowRightPresses(DeckState(Full, 1, 1), 14);
  }

  /** The page starts in a deck state. */
  lemma InitialOnDeck()
    ensures OnDeck(Initial)
    ensures PageViewOf(false, Initial) == Loading
  {
  }

  /** Every event the page can produce keeps it in a deck state. */
  lemma EnabledEventKeepsOnDeck(imagesLoaded: bool, s: DeckState, e: Event)
    requires OnDeck(s) && Enabled(imagesLoaded, s, e)
    ensures OnDeck(Apply(s, e))
  {
    match e
    case KeyDown(key) =>
    case SlideNavigation(detail) =>
    case PrevButton =>
    case NextButton =>
    case DotClick(k) =>
    case ExploreChoice(version) =>
    case ExitToFirstSlide =>
    case ExitToMainSlide =>
  }

  /** Any run of producible events keeps the page in a deck state. */
  lemma {:induction false} EnabledRunKeepsOnDeck(imagesLoaded: bool, s: DeckState, es: seq<Event>)
    requires OnDeck(s) && EnabledRun(imagesLoaded, s, es)
    ensures OnDeck(Run(s, es))
    decreases |es|
  {
    if es != [] {
      EnabledEventKeepsOnDeck(imagesLoaded, s, es[0]);
      EnabledRunKeepsOnDeck(imagesLoaded, Apply(s, es[0]), es[1..]);
    }
  }

  /** In a deck state exactly one slide component renders, and it is never LandingSlide9. */
  lemma OnDeckRendersOneSlide(s: DeckState)
    requires OnDeck(s)
    ensures RenderedSlide(s.proposalType, s.currentSlide).Some?
    ensures RenderedSlide(s.proposalType, s.currentSlide) != Some(LandingSlide(9))
  {
  }

  /** Different indices of one sequence render different components. */
  lemma RenderedSlideInjective(t: ProposalType, i: int, j: int)
    requires RenderedSlide(t, i).Some? && RenderedSlide(t, i) == RenderedSlide(t, j)
    ensures i == j
  {
  }

  /** Index i of the full sequence renders Slide(i+1): all fifteen components are in range of the dots. */
  lemma FullSequenceCoversSlides(i: int)
    requires 0 <= i < TotalSlides(Full)
    ensures RenderedSlide(Full, i) == Some(Slide(i + 1))
  {
  }

  /**
    LandingSlide9 sits at index 9, past the last index (8) that nextSlide and the dots reach;
    only a `slideNavigation` event carrying 9 brings it up.
   */
  lemma LandingSlideNineOnlyByJump(s: DeckState)
    requires s.proposalType == Landing && 0 <= s.currentSlide < TotalSlides(Landing)
    ensures RenderedSlide(Landing, NextSlideState(s).currentSlide) != Some(LandingSlide(9))
    ensures forall k :: 0 <= k < TotalSlides(Landing) ==> RenderedSlide(Landing, k) != Some(LandingSlide(9))
    ensures RenderedSlide(Landing,
              SlideNavigationState(s, Some(SlideNavigationDetail(IntegerIndex(9)))).currentSlide)
            == Some(LandingSlide(9))
  {
  }

  /**
    As written, the landing total is one short of the components the page renders: the index
    equal to the total still renders LandingSlide9.
   */
  lemma LandingTotalMissesLastSlide()
    ensures RenderedSlide(Landing, TotalLandingSlides) == Some(LandingSlide(9))
    ensures ClampedNextTimes(TotalSlides(Landing), 1, 8) == 8
  {
    ClampedNextTimesSaturates(TotalSlides(Landing), 1, 8);
  }

  /**
    `totalSlides` as evidently intended: the number of components each sequence renders,
    the title slide included (ten for 'landing').
   */
  function CorrectedTotalSlides(t: ProposalType): (r: nat)
    ensures t != NoProposal ==> forall k :: 0 <= k < r ==> RenderedSlide(t, k).Some?
    ensures t != NoProposal ==> RenderedSlide(t, r).None?
    ensures t != Landing ==> r == TotalSlides(t)
  {
    if t == Landing then TotalLandingSlides + 1 else TotalSlides(t)
  }

  /** With the corrected total, eight presses of "next" from LandingSlide1 reach LandingSlide9, and "next" stops there. */
  lemma CorrectedLandingReachesNine()
    ensures ClampedNextTimes(CorrectedTotalSlides(Landing), 1, 8) == 9
    ensures RenderedSlide(Landing, ClampedNextTimes(CorrectedTotalSlides(Landing), 1, 8)) == Some(LandingSlide(9))
    ensures ClampedNext(CorrectedTotalSlides(Landing), 9) == 9
  {
    ClampedNextTimesSaturates(CorrectedTotalSlides(Landing), 1, 8);
  }

  /** In a deck state, a nav button is disabled exactly when pressing it would not move the index. */
  lemma NavButtonsDisabledIffNoMove(s: DeckState)
    requires OnDeck(s) && NavBarView(s).Some?
    ensures NavBarView(s).value.prevDisabled <==> PrevSlideState(s).currentSlide == s.currentSlide
    ensures NavBarView(s).value.nextDisabled <==> NextSlideState(s).currentSlide == s.currentSlide
  {
  }

  /** Off the deck states that correspondence fails: at landing index 9 "next" is enabled but does nothing. */
  lemma NextEnabledButInertPastLastLanding()
    ensures NavBarView(DeckState(Landing, 9, 1)) == Some(NavBar(false, false, 9, 9))
    ensures NextSlideState(DeckState(Landing, 9, 1)).currentSlide == 9
  {
  }

  /** handleExplore never looks at the current proposal: from a title slide shown inside 'landing', 'full' still switches. */
  lemma ExploreIgnoresCurrentProposal(d: int)
    ensures ExploreState(DeckState(Landing, 0, d), "full") == DeckState(Full, 1, 1)
    ensures ExploreState(DeckState(Full, 0, d), "landing") == DeckState(Landing, 1, 1)
  {
  }

  // ---------------------------------------------------------------------------
  // The image-preload gate
  // ---------------------------------------------------------------------------

  /** How one preloaded image settled: `onload` or `onerror`. */
  datatype ImageOutcome = Loaded | Failed

  /** The preload counter and the `imagesLoaded` flag. */
  datatype Preload = Preload(loadedCount: nat, imagesLoaded: bool)

  /** Both callbacks: count the image, open the gate when the count equals the number of images. */
  function SettleImage(p: Preload, outcome: ImageOutcome): (r: Preload)
    ensures r.loadedCount == p.loadedCount + 1
    ensures r.imagesLoaded <==> p.imagesLoaded || r.loadedCount == TotalImages
  {
    var count := p.loadedCount + 1;
    Preload(count, p.imagesLoaded || count == TotalImages)
  }

  function SettleAll(p: Preload, outcomes: seq<ImageOutcome>): Preload
    decreases |outcomes|
  {
    if outcomes == [] then p else SettleAll(SettleImage(p, outcomes[0]), outcomes[1..])
  }

  /** The gate opens exactly once three images have settled, whether they loaded or failed. */
  lemma {:induction false} GateOpensAtThreeSettled(outcomes: seq<ImageOutcome>)
    ensures SettleAll(Preload(0, false), outcomes) == Preload(|outcomes|, |outcomes| >= TotalImages)
  {
    SettleAllFrom(Preload(0, false), outcomes);
  }

  lemma {:induction false} SettleAllFrom(p: Preload, outcomes: seq<ImageOutcome>)
    requires p.imagesLoaded <==> p.loadedCount >= TotalImages
    ensures SettleAll(p, outcomes)
              == Preload(p.loadedCount + |outcomes|, p.loadedCount + |outcomes| >= TotalImages)
    decreases |outcomes|
  {
    if outcomes != [] {
      SettleAllFrom(SettleImage(p, outcomes[0]), outcomes[1..]);
    }
  }

  // ---------------------------------------------------------------------------
  // The page component with its state fields
  // ---------------------------------------------------------------------------

  class Home {
    var currentSlide: int
    var slideDirection: int
    var proposalType: ProposalType
    var imagesLoaded: bool
    /** The preload effect's `loadedCount`. */
    var loadedCount: nat

    function State(): DeckState
      reads this
    {
      DeckState(proposalType, currentSlide, slideDirection)
    }

    function Gate(): Preload
      reads this
    {
      Preload(loadedCount, imagesLoaded)
    }

    /** What the page shows now. */
    function View(): PageView
      reads this
    {
      PageViewOf(imagesLoaded, State())
    }

    ghost predicate Valid()
      reads this
    {
      -1 <= slideDirection <= 1 && (imagesLoaded <==> loadedCount >= TotalImages)
    }

    constructor ()
      ensures Valid() && State() == Initial && Gate() == Preload(0, false)
    {
      currentSlide := 0;
      slideDirection := 0;
      proposalType := NoProposal;
      imagesLoaded := false;
      loadedCount := 0;
    }

    /** An image's `onload` or `onerror` callback. */
    method ImageSettled(outcome: ImageOutcome)
      requires Valid()
      modifies this`loadedCount, this`imagesLoaded
      ensures Valid()
      ensures Gate() == SettleImage(old(Gate()), outcome)
    {
      loadedCount := loadedCount + 1;
      if loadedCount == TotalImages {
        imagesLoaded := true;
      }
    }

    method NextSlide()
      requires Valid()
      modifies this`currentSlide, this`slideDirection
      ensures Valid()
      ensures State() == NextSlideState(old(State()))
    {
      slideDirection := 1;
      currentSlide := if currentSlide < TotalSlides(proposalType) - 1 then currentSlide + 1 else currentSlide;
    }

    method PrevSlide()
      requires Valid()
      modifies this`currentSlide, this`slideDirection
      ensures Valid()
      ensures State() == PrevSlideState(old(State()))
    {
      slideDirection := -1;
      currentSlide := if currentSlide > 0 then currentSlide - 1 else currentSlide;
    }

    method GoToSlide(index: int)
      requires Valid()
      modifies this`currentSlide, this`slideDirection
      ensures Valid()
      ensures State() == GoToSlideState(old(State()), index)
    {
      slideDirection := if index > currentSlide then 1 else -1;
      currentSlide := index;
    }

    method GoToFirstSlide()
      requires Valid()
      modifies this`currentSlide, this`slideDirection
      ensures Valid()
      ensures State() == FirstSlideState(old(State()))
    {
      slideDirection := -1;
      currentSlide := 1;
    }

    method GoToMainSlide()
      requires Valid()
      modifies this`currentSlide, this`slideDirection, this`proposalType
      ensures Valid()
      ensures State() == MainSlideState(old(State()))
    {
      slideDirection := -1;
      proposalType := NoProposal;
      currentSlide := 0;
    }

    method HandleExplore(version: string)
      requires Valid()
      modifies this`currentSlide, this`slideDirection, this`proposalType
      ensures Valid()
      ensures State() == ExploreState(old(State()), version)
    {
      if version == "full" {
        proposalType := Full;
        currentSlide := 1;
      } else if version == "landing" {
        proposalType := Landing;
        currentSlide := 1;
      }
      slideDirection := 1;
    }

    method HandleKeyDown(key: string)
      requires Valid()
      modifies this`currentSlide, this`slideDirection
      ensures Valid()
      ensures State() == KeyDownState(old(State()), key)
    {
      if key == ArrowRight {
        NextSlide();
      } else if key == ArrowLeft {
        PrevSlide();
      }
    }

    method HandleSlideNavigation(detail: Option<SlideNavigationDetail>)
      requires Valid()
      modifies this`currentSlide, this`slideDirection
      ensures Valid()
      ensures State() == SlideNavigationState(old(State()), detail)
    {
      if detail.Some? && detail.value.index.IntegerIndex? {
        GoToSlide(detail.value.index.n);
      }
    }
  }
}
