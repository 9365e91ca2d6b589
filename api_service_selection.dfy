/** The service-selection step of the booking wizard: the active services grouped by category,
    the selected service, the empty-state card and the continue gate. */
module ApiServiceSelection {
  import opened Lists
  import opened Catalogue

  /** The "No Services Available" card is shown iff no service is active. */
  function ShowsEmptyState(services: seq<Service>): (shown: bool)
    ensures shown <==> forall i :: 0 <= i < |services| ==> !services[i].isActive
    ensures !shown ==> exists s :: s in services && s.isActive
  {
    ActiveServicesSpec(services);
    var active := ActiveServices(services);
    assert active != [] ==> active[0] in active;
    |active| == 0
  }

  /** A service card is highlighted iff its id is the selected one. */
  predicate IsSelected(selected: string, s: Service)
  {
    selected == s.id
  }

  /** Continue is disabled iff no service is selected. */
  function ContinueEnabled(selected: string): (enabled: bool)
    ensures enabled <==> selected != ""
    ensures !enabled ==> forall s: Service :: s.id != "" ==> !IsSelected(selected, s)
  {
    selected != ""
  }

  /** The grouping the step renders: every active service once, under its own category, and the
      group sizes add up to the number of active services. */
  method GroupActiveServices(services: seq<Service>) returns (groups: map<Category, seq<Service>>)
    ensures groups == Grouped(ActiveServices(services))
    ensures forall s :: s in services && s.isActive ==> s.category in groups && s in groups[s.category]
    ensures forall c, s :: c in groups && s in groups[c] ==> s in services && s.isActive && s.category == c
    ensures GroupSize(groups, Visa) + GroupSize(groups, Oci) + GroupSize(groups, Passport)
      == |ActiveServices(services)|
  {
    var active := ActiveServices(services);
    groups := GroupServices(active);
    GroupedPartition(active);
    ActiveServicesSpec(services);
  }

  class Panel {
    /** The wizard's `bookingData.service`, which a card click replaces. */
    var selectedService: string
    var nextRequests: nat

    constructor (selected: string)
      ensures selectedService == selected && nextRequests == 0
    {
      selectedService := selected;
      nextRequests := 0;
    }

    /** A click on a card: `onServiceSelect(service.id)`. */
    method SelectService(s: Service)
      modifies this
      ensures selectedService == s.id && IsSelected(selectedService, s)
      ensures nextRequests == old(nextRequests)
    {
      selectedService := s.id;
    }

    /** A click on Continue: the wizard is asked to advance only when the button is enabled. */
    method Continue()
      modifies this
      ensures ContinueEnabled(selectedService) ==> nextRequests == old(nextRequests) + 1
      ensures !ContinueEnabled(selectedService) ==> nextRequests == old(nextRequests)
      ensures selectedService == old(selectedService)
    {
      if selectedService != "" {
        nextRequests := nextRequests + 1;
      }
    }
  }
}
