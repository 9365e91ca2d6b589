/** The application shell: the landing page until an application is started, then the booking
    wizard until the user goes back home. */
module SkylaneApp {
  import opened Base
  import opened Catalogue

  /** What the shell renders. */
  datatype Screen = Landing | Booking(params: ApplicationParams)

  class App {
    var showBooking: bool
    var applicationParams: Option<ApplicationParams>

    /** The state on first render: the landing page, no parameters. */
    predicate IsInitial()
      reads this
    {
      !showBooking && applicationParams == None
    }

    /** Booking is rendered iff `showBooking` holds and parameters are present; otherwise the
        landing page is. */
    function CurrentScreen(): (s: Screen)
      reads this
      ensures s.Booking? <==> showBooking && applicationParams.Some?
      ensures s.Booking? ==> applicationParams == Some(s.params)
      ensures IsInitial() ==> s == Landing
    {
      if showBooking && applicationParams.Some? then Booking(applicationParams.value) else Landing
    }

    constructor ()
      ensures IsInitial() && CurrentScreen() == Landing
    {
      showBooking := false;
      applicationParams := None;
    }

    /** `handleStartApplication`: store exactly the given parameters and show the wizard. */
    method StartApplication(params: ApplicationParams)
      modifies this
      ensures applicationParams == Some(params) && showBooking
      ensures CurrentScreen() == Booking(params)
    {
      applicationParams := Some(params);
      showBooking := true;
    }

    /** `handleBackToHome`: back to the initial state, whatever the state was, so a start
        followed by going home is the identity on the shell's state. */
    method BackToHome()
      modifies this
      ensures IsInitial() && CurrentScreen() == Landing
    {
      showBooking := false;
      applicationParams := None;
    }
  }

  /** A start followed by going home leaves the shell as it was first rendered. */
  method StartThenHome(params: ApplicationParams) returns (screen: Screen, afterStart: Screen)
    ensures afterStart == Booking(params)
    ensures screen == Landing
  {
    var app := new App();
    app.StartApplication(params);
    afterStart := app.CurrentScreen();
    app.BackToHome();
    assert app.IsInitial();
    screen := app.CurrentScreen();
  }
}
