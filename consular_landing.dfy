/** The landing page: three country pickers, the simulated service fetch they trigger, the
    active-service list and its grouping, and the two ways of starting an application. */
module ConsularLanding {
  import opened Base
  import opened Lists
  import opened Catalogue

  /** The simulated API's answer: nine services, all active (six visas, three OCI services). */
  const MockApiResponse: seq<Service> := [
    Service("student-visa-duration-up-to-five-years-entries-single-multiple", "Student Visa", Visa, true),
    Service("business-visa-duration-up-to-one-year-entries-single-multiple", "Business Visa", Visa, true),
    Service("tourist-visa-duration-up-to-one-year-entries-multiple", "Tourist Visa", Visa, true),
    Service("transit-visa-duration-up-to-fifteen-days-entries-single-double", "Transit Visa", Visa, true),
    Service("employment-visa-duration-up-to-six-months-entries-single-multiple", "Employment Visa", Visa, true),
    Service("medical-visa-6mo-single-multiple", "Medical Visa", Visa, true),
    Service("oci-transfer-to-new-passport", "OCI Transfer to New Passport", Oci, true),
    Service("apply-oci-card", "Apply for OCI Card", Oci, true),
    Service("replacement-oci-card", "Replacement OCI Card in lieu of lost, damaged or stolen OCI Card", Oci, true)
  ]

  /** Every service of the simulated answer is active, so the filter keeps all nine of them. */
  lemma MockResponseAllActive()
    ensures ActiveServices(MockApiResponse) == MockApiResponse
    ensures |ActiveServices(MockApiResponse)| == 9
  {
    assert forall s :: s in MockApiResponse ==> IsActiveService(s);
    FilterKeepsAll(MockApiResponse, IsActiveService);
  }

  class Landing {
    var citizenship: string
    var residence: string
    var destination: string
    var services: seq<Service>
    var loading: bool
    /** Fetches started whose simulated response has not arrived yet. */
    var pendingFetches: nat

    /** All three countries are chosen (the guard of `fetchServices`). */
    predicate CountriesChosen()
      reads this
    {
      citizenship != "" && residence != "" && destination != ""
    }

    /** First render: destination India, the other pickers empty, no services. The mount-time
        fetch returns at once because citizenship is empty. */
    constructor ()
      ensures citizenship == "" && residence == "" && destination == "IN"
      ensures services == [] && !loading && pendingFetches == 0
    {
      citizenship := "";
      residence := "";
      destination := "IN";
      services := [];
      loading := false;
      pendingFetches := 0;
    }

    /** `fetchServices`: nothing unless all three countries are chosen; otherwise loading starts
        and one simulated response is scheduled. */
    method FetchServices()
      modifies this
      ensures CountriesChosen() == old(CountriesChosen())
      ensures citizenship == old(citizenship) && residence == old(residence)
      ensures destination == old(destination) && services == old(services)
      ensures !old(CountriesChosen()) ==> loading == old(loading) && pendingFetches == old(pendingFetches)
      ensures old(CountriesChosen()) ==> loading && pendingFetches == old(pendingFetches) + 1
    {
      if citizenship == "" || residence == "" || destination == "" {
        return;
      }
      loading := true;
      pendingFetches := pendingFetches + 1;
    }

    /** The scheduled response: the services become the simulated answer and loading ends. */
    method CompleteFetch()
      requires pendingFetches > 0
      modifies this
      ensures services == MockApiResponse && !loading
      ensures pendingFetches == old(pendingFetches) - 1
      ensures citizenship == old(citizenship) && residence == old(residence)
      ensures destination == old(destination)
    {
      services := MockApiResponse;
      loading := false;
      pendingFetches := pendingFetches - 1;
    }

    /** Picking a citizenship; the effect on the three countries refetches when it changed. */
    method SetCitizenship(value: string)
      modifies this
      ensures citizenship == value && residence == old(residence) && destination == old(destination)
      ensures services == old(services)
      ensures value != old(citizenship) && CountriesChosen() ==>
        loading && pendingFetches == old(pendingFetches) + 1
      ensures value == old(citizenship) || !CountriesChosen() ==>
        loading == old(loading) && pendingFetches == old(pendingFetches)
    {
      var changed := value != citizenship;
      citizenship := value;
      if changed {
        FetchServices();
      }
    }

    method SetResidence(value: string)
      modifies this
      ensures residence == value && citizenship == old(citizenship) && destination == old(destination)
      ensures services == old(services)
      ensures value != old(residence) && CountriesChosen() ==>
        loading && pendingFetches == old(pendingFetches) + 1
      ensures value == old(residence) || !CountriesChosen() ==>
        loading == old(loading) && pendingFetches == old(pendingFetches)
    {
      var changed := value != residence;
      residence := value;
      if changed {
        FetchServices();
      }
    }

    method SetDestination(value: string)
      modifies this
      ensures destination == value && citizenship == old(citizenship) && residence == old(residence)
      ensures services == old(services)
      ensures value != old(destination) && CountriesChosen() ==>
        loading && pendingFetches == old(pendingFetches) + 1
      ensures value == old(destination) || !CountriesChosen() ==>
        loading == old(loading) && pendingFetches == old(pendingFetches)
    {
      var changed := value != destination;
      destination := value;
      if changed {
        FetchServices();
      }
    }

    /** `canProceed`: all three countries are chosen and some service is active, that is, the
        active list is non-empty. */
    function CanProceed(): (ok: bool)
      reads this
      ensures ok <==> CountriesChosen() && exists i :: 0 <= i < |services| && services[i].isActive
      ensures ok <==> CountriesChosen() && ActiveServices(services) != []
    {
      ActiveServicesSpec(services);
      citizenship != "" && residence != "" && destination != ""
        && exists i :: 0 <= i < |services| && services[i].isActive
    }

    /** The start button is enabled iff the application can proceed and nothing is loading. */
    function StartEnabled(): (enabled: bool)
      reads this
      ensures enabled <==> CanProceed() && !loading
    {
      CanProceed() && !loading
    }

    /** The service grid is shown once services are loaded and at least one is active. */
    function ShowsServices(): (shown: bool)
      reads this
      ensures shown <==> ActiveServices(services) != [] && !loading
    {
      |ActiveServices(services)| > 0 && !loading
    }

    /** `groupedServices`, computed from the current services. */
    method GroupedServices() returns (groups: map<Category, seq<Service>>)
      ensures groups == Grouped(ActiveServices(services))
      ensures forall s :: s in services && s.isActive ==> s.category in groups && s in groups[s.category]
      ensures forall c, s :: c in groups && s in groups[c] ==> s in services && s.isActive && s.category == c
    {
      groups := GroupServices(ActiveServices(services));
      GroupedPartition(ActiveServices(services));
      ActiveServicesSpec(services);
    }

    /** `handleStartApplication`: a card's own button emits exactly that service; the main
        button emits the active services when the application can proceed, and nothing
        otherwise. */
    method StartApplication(selected: Option<Service>) returns (emitted: Option<ApplicationParams>)
      ensures selected.Some? ==>
        emitted == Some(ApplicationParams(citizenship, residence, destination, [selected.value]))
      ensures selected.None? && CanProceed() ==>
        emitted == Some(ApplicationParams(citizenship, residence, destination, ActiveServices(services)))
      ensures selected.None? && !CanProceed() ==> emitted == None
      ensures selected.None? && emitted.Some? ==>
        emitted.value.services != [] && forall s :: s in emitted.value.services ==> s.isActive && s in services
    {
      if selected.Some? {
        emitted := Some(ApplicationParams(citizenship, residence, destination, [selected.value]));
      } else if CanProceed() {
        ActiveServicesSpec(services);
        emitted := Some(ApplicationParams(citizenship, residence, destination, ActiveServices(services)));
      } else {
        emitted := None;
      }
    }

    /** A click on the main start button: it emits the active services only while the button
        is enabled, so nothing is emitted while services are loading. */
    method ClickStart() returns (emitted: Option<ApplicationParams>)
      ensures emitted.Some? <==> StartEnabled()
      ensures emitted.Some? ==>
        emitted == Some(ApplicationParams(citizenship, residence, destination, ActiveServices(services)))
    {
      if StartEnabled() {
        emitted := StartApplication(None);
      } else {
        emitted := None;
      }
    }

    /** A click on the card of the `k`-th active service: the cards exist only while the
        service grid is shown, and each emits exactly its own service. */
    method ClickServiceCard(k: nat) returns (emitted: Option<ApplicationParams>)
      ensures emitted.Some? <==> ShowsServices() && k < |ActiveServices(services)|
      ensures emitted.Some? ==>
        emitted.value == ApplicationParams(citizenship, residence, destination, [ActiveServices(services)[k]])
      ensures emitted.Some? ==> emitted.value.services[0].isActive
    {
      if ShowsServices() && k < |ActiveServices(services)| {
        emitted := StartApplication(Some(ActiveServices(services)[k]));
      } else {
        emitted := None;
      }
    }
  }

  /** Choosing the two missing countries on a fresh page, then receiving the response, lets the
      application proceed with all nine services. */
  method ChooseCountriesAndLoad(citizenship: string, residence: string) returns (emitted: Option<ApplicationParams>)
    requires citizenship != "" && residence != ""
    ensures emitted == Some(ApplicationParams(citizenship, residence, "IN", MockApiResponse))
  {
    var page := new Landing();
    page.SetCitizenship(citizenship);
    page.SetResidence(residence);
    assert page.pendingFetches == 1;
    page.CompleteFetch();
    MockResponseAllActive();
    assert page.services[0].isActive;
    emitted := page.StartApplication(None);
  }

  /** Once the countries are chosen the fetch starts, and the start button emits nothing until
      its response arrives. */
  method StartRefusedWhileLoading(citizenship: string, residence: string) returns (emitted: Option<ApplicationParams>)
    requires citizenship != "" && residence != ""
    ensures emitted == None
  {
    var page := new Landing();
    page.SetCitizenship(citizenship);
    page.SetResidence(residence);
    emitted := page.ClickStart();
  }
}
