/** The quote session (`calculatorState` and the handlers that write it): which screen
    is showing, the chosen room type, the last wall lengths read, the last estimate,
    and whether the continue button is enabled. Screen changes happen at once; the
    fade delay and the DOM work around them are left to the page. */
module Session {
  import opened Pricing
  import opened ContactValidation

  datatype Option<T> = None | Some(value: T)

  /** The four screens of the page. */
  datatype ScreenId = Landing | Calculator | Contact | ThankYou

  /** `calculatorState.calculatedPrice`. */
  datatype CalculatedPrice = CalculatedPrice(min: int, max: int, totalLinearFeet: real, totalSquareFeet: real)

  const NoDimensions: Dimensions := Dimensions(0.0, 0.0, 0.0)
  const NoPrice: CalculatedPrice := CalculatedPrice(0, 0, 0.0, 0.0)

  /** The continue button's rule: every wall, on its own, is longer than zero. */
  predicate AllWallsPositive(d: Dimensions) {
    d.wall1 > 0.0 && d.wall2 > 0.0 && d.wall3 > 0.0
  }

  /** The continue rule is stricter than the estimate's: three positive walls make a
      positive total, but a positive total does not need three positive walls. */
  lemma ContinueStricterThanEstimate(d: Dimensions)
    ensures AllWallsPositive(d) ==> LinearFeet(d) > 0.0
    ensures LinearFeet(Dimensions(5.0, 0.0, 5.0)) > 0.0 && !AllWallsPositive(Dimensions(5.0, 0.0, 5.0))
  {
  }

  /** A price range that is either the initial empty one or a rounded, ordered quote. */
  predicate QuotedOrEmpty(p: CalculatedPrice) {
    || (p.min == 0 && p.max == 0)
    || (p.min % 100 == 0 && p.max % 100 == 0 && 0 < p.min <= p.max)
  }

  /** What `calculatePrice` stores for a chosen tier: both totals for the walls given,
      and the tier's estimate when they add up to a positive length; otherwise the
      previous range stays (only the display is reset). */
  function RecalculatedPrice(room: RoomType, d: Dimensions, previous: CalculatedPrice): (p: CalculatedPrice)
    requires QuotedOrEmpty(previous)
    ensures p.totalLinearFeet == LinearFeet(d) && p.totalSquareFeet == SquareFeet(d)
    ensures QuotedOrEmpty(p)
    ensures LinearFeet(d) > 0.0 ==> Catalog(room).minTotal <= p.min && Catalog(room).maxTotal <= p.max
    ensures !(LinearFeet(d) > 0.0) ==> p.min == previous.min && p.max == previous.max
  {
    var linearFeet := LinearFeet(d);
    if linearFeet > 0.0 then
      var range := Estimate(Catalog(room), Area(linearFeet));
      EstimateBounds(Catalog(room), Area(linearFeet));
      CalculatedPrice(range.min, range.max, linearFeet, Area(linearFeet))
    else
      CalculatedPrice(previous.min, previous.max, linearFeet, Area(linearFeet))
  }

  /** Recomputing with the same tier and walls changes nothing further. */
  lemma RecalculationIdempotent(room: RoomType, d: Dimensions, previous: CalculatedPrice)
    requires QuotedOrEmpty(previous)
    ensures RecalculatedPrice(room, d, RecalculatedPrice(room, d, previous)) == RecalculatedPrice(room, d, previous)
  {
  }

  class QuoteSession {
    var currentScreen: ScreenId
    var selectedRoom: Option<RoomType>
    var roomTypeName: string
    var dimensions: Dimensions
    var calculatedPrice: CalculatedPrice
    /** The continue button (`continue-btn`): enabled or not. */
    var continueEnabled: bool

    /** What holds between any two handlers, whatever the tier currently chosen. */
    ghost predicate Consistent()
      reads this
    {
      && (selectedRoom.None? ==>
            roomTypeName == "" && dimensions == NoDimensions && calculatedPrice == NoPrice && !continueEnabled)
      && calculatedPrice.totalLinearFeet == LinearFeet(dimensions)
      && calculatedPrice.totalSquareFeet == Area(calculatedPrice.totalLinearFeet)
      && QuotedOrEmpty(calculatedPrice)
      && continueEnabled == AllWallsPositive(dimensions)
    }

    /** The session invariant: besides consistency, the name shown is the chosen tier's,
        and whenever the walls add up to a positive length the range shown is the
        estimate for the chosen tier and those walls. */
    ghost predicate Valid()
      reads this
    {
      && Consistent()
      && (selectedRoom.Some? ==> roomTypeName == Catalog(selectedRoom.value).name)
      && (selectedRoom.Some? && calculatedPrice.totalLinearFeet > 0.0 ==>
            var r := Estimate(Catalog(selectedRoom.value), calculatedPrice.totalSquareFeet);
            calculatedPrice.min == r.min && calculatedPrice.max == r.max)
    }

    /** The initial `calculatorState`: landing screen, nothing chosen, all zero. */
    constructor ()
      ensures Valid()
      ensures currentScreen == Landing && selectedRoom == None && roomTypeName == ""
      ensures dimensions == NoDimensions && calculatedPrice == NoPrice && !continueEnabled
    {
      currentScreen := Landing;
      selectedRoom := None;
      roomTypeName := "";
      dimensions := NoDimensions;
      calculatedPrice := NoPrice;
      continueEnabled := false;
    }

    /** `showScreen`: the screen changes and nothing else does. */
    method ShowScreen(screen: ScreenId)
      requires Valid()
      modifies this`currentScreen
      ensures Valid()
      ensures currentScreen == screen
    {
      currentScreen := screen;
    }

    /** `showRoomSelection`: unconditional. */
    method ShowRoomSelection()
      requires Valid()
      modifies this`currentScreen
      ensures Valid()
      ensures currentScreen == Calculator
    {
      ShowScreen(Calculator);
    }

    /** `showLanding`: unconditional; keeps the choice and the walls. */
    method ShowLanding()
      requires Valid()
      modifies this`currentScreen
      ensures Valid()
      ensures currentScreen == Landing
    {
      ShowScreen(Landing);
    }

    /** `showCalculator`: unconditional; keeps the choice and the walls. */
    method ShowCalculator()
      requires Valid()
      modifies this`currentScreen
      ensures Valid()
      ensures currentScreen == Calculator
    {
      ShowScreen(Calculator);
    }

    /** `showContactForm`: the contact screen opens only while the stored low price is
        positive; otherwise the user is alerted and the screen stays. The test is on
        the stored price, which a zero-length recalculation leaves in place. */
    method ShowContactForm()
      requires Valid()
      modifies this`currentScreen
      ensures Valid()
      ensures currentScreen == (if calculatedPrice.min > 0 then Contact else old(currentScreen))
    {
      if calculatedPrice.min > 0 {
        ShowScreen(Contact);
      }
    }

    /** `calculatePrice`, given the three wall fields already parsed. Without a chosen
        tier nothing happens. Otherwise the walls and both totals are stored; a
        positive total stores the tier's estimate, and a total of zero or less keeps
        the previous range. The continue button follows the three walls. */
    method CalculatePrice(wall1: real, wall2: real, wall3: real)
      requires Consistent()
      requires selectedRoom.Some? ==> roomTypeName == Catalog(selectedRoom.value).name
      modifies this`dimensions, this`calculatedPrice, this`continueEnabled
      ensures Valid()
      ensures selectedRoom.None? ==>
        dimensions == old(dimensions) && calculatedPrice == old(calculatedPrice) && continueEnabled == old(continueEnabled)
      ensures selectedRoom.Some? ==> dimensions == Dimensions(wall1, wall2, wall3)
      ensures selectedRoom.Some? ==> calculatedPrice == RecalculatedPrice(selectedRoom.value, dimensions, old(calculatedPrice))
      ensures selectedRoom.Some? ==> continueEnabled == AllWallsPositive(dimensions)
    {
      if selectedRoom.None? {
        return;
      }
      var room := selectedRoom.value;
      dimensions := Dimensions(wall1, wall2, wall3);
      var totalLinearFeet := LinearFeet(dimensions);
      var totalSquareFeet := Area(totalLinearFeet);
      calculatedPrice := calculatedPrice.(totalLinearFeet := totalLinearFeet, totalSquareFeet := totalSquareFeet);
      if totalLinearFeet > 0.0 {
        var range := Estimate(Catalog(room), totalSquareFeet);
        calculatedPrice := calculatedPrice.(min := range.min, max := range.max);
        // updatePriceDisplay: the continue button needs every wall positive
        continueEnabled := wall1 > 0.0 && wall2 > 0.0 && wall3 > 0.0;
      } else {
        // resetPriceDisplay: the display is hidden and the button disabled, the range is kept
        continueEnabled := false;
      }
    }

    /** `selectRoomType`: the tier and its display name are recorded, then the estimate
        is recomputed from the wall fields as they stand. */
    method SelectRoomType(room: RoomType, wall1: real, wall2: real, wall3: real)
      requires Valid()
      modifies this`selectedRoom, this`roomTypeName, this`dimensions, this`calculatedPrice, this`continueEnabled
      ensures Valid()
      ensures selectedRoom == Some(room) && roomTypeName == Catalog(room).name
      ensures dimensions == Dimensions(wall1, wall2, wall3)
      ensures calculatedPrice == RecalculatedPrice(room, dimensions, old(calculatedPrice))
      ensures continueEnabled == AllWallsPositive(dimensions)
    {
      selectedRoom := Some(room);
      roomTypeName := Catalog(room).name;
      CalculatePrice(wall1, wall2, wall3);
    }

    /** `submitForm` without the payload: a valid form moves the session to the thank
        you screen; an invalid one leaves it where it is. */
    method SubmitForm(form: ContactForm) returns (accepted: bool)
      requires Valid()
      modifies this`currentScreen
      ensures Valid()
      ensures accepted <==> AcceptableForm(form)
      ensures currentScreen == (if accepted then ThankYou else old(currentScreen))
    {
      var errors;
      accepted, errors := ValidateContactForm(form);
      if accepted {
        ShowScreen(ThankYou);
      }
    }
  }

  /** What the contact gate (`calculatedPrice.min > 0`) tells about a valid session:
      a tier has been chosen and the stored range is ordered. */
  lemma ContactGateMeansQuoted(session: QuoteSession)
    requires session.Valid()
    ensures session.calculatedPrice.min > 0 ==>
      session.selectedRoom.Some? && session.calculatedPrice.min <= session.calculatedPrice.max
  {
  }

  /** Walls adding up to a positive length always open the contact gate, with at
      least the chosen tier's floor as the low price. */
  lemma PositiveWallsOpenContact(session: QuoteSession)
    requires session.Valid()
    requires session.selectedRoom.Some? && session.calculatedPrice.totalLinearFeet > 0.0
    ensures 0 < Catalog(session.selectedRoom.value).minTotal <= session.calculatedPrice.min
  {
    var tier := Catalog(session.selectedRoom.value);
    var price := session.calculatedPrice;
    assert price.min == Estimate(tier, price.totalSquareFeet).min;
    EstimateBounds(tier, price.totalSquareFeet);
  }

  /** The estimate a positive wall entry leaves behind outlives the walls: after the
      walls are cleared, the continue button is disabled, yet the gate of
      `showContactForm`, which reads only the stored range, still opens the contact
      screen. */
  method StaleEstimateOpensContact() returns (screen: ScreenId, linearFeet: real, min: int, max: int, continueEnabled: bool)
    ensures screen == Contact && linearFeet == 0.0
    ensures min == 8400 && max == 12000
    ensures !continueEnabled
  {
    var session := new QuoteSession();
    session.ShowRoomSelection();
    ScreenRoomByRate();
    session.SelectRoomType(Screen, 10.0, 10.0, 10.0);
    session.CalculatePrice(0.0, 0.0, 0.0);
    continueEnabled := session.continueEnabled;
    session.ShowContactForm();
    screen, linearFeet := session.currentScreen, session.calculatedPrice.totalLinearFeet;
    min, max := session.calculatedPrice.min, session.calculatedPrice.max;
  }

  /** Before any positive wall entry the contact screen stays closed. */
  method EmptyEstimateKeepsCalculator() returns (screen: ScreenId)
    ensures screen == Calculator
  {
    var session := new QuoteSession();
    session.ShowRoomSelection();
    session.SelectRoomType(Glass, 0.0, 0.0, 0.0);
    session.ShowContactForm();
    screen := session.currentScreen;
  }

  /** A glass room on walls of 2 feet each is priced at the glass floors, and the
      contact screen opens. */
  method GlassFloorOpensContact() returns (screen: ScreenId, min: int, max: int)
    ensures screen == Contact && min == 12000 && max == 20000
  {
    var session := new QuoteSession();
    session.ShowRoomSelection();
    GlassRoomAtFloor();
    session.SelectRoomType(Glass, 2.0, 2.0, 2.0);
    session.ShowContactForm();
    screen, min, max := session.currentScreen, session.calculatedPrice.min, session.calculatedPrice.max;
  }
}
