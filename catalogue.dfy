/** The consular service catalogue: services, the `isActive` filter and the grouping of active
    services by category, shared by the landing page and the service-selection step. */
module Catalogue {
  import opened Lists

  datatype Category = Visa | Oci | Passport

  datatype Service = Service(id: string, name: string, category: Category, isActive: bool)

  /** What the landing page hands to the booking wizard. */
  datatype ApplicationParams = ApplicationParams(
    citizenship: string, residence: string, destination: string, services: seq<Service>)

  predicate IsActiveService(s: Service) { s.isActive }

  /** `services.filter(service => service.isActive)`. */
  function ActiveServices(services: seq<Service>): seq<Service>
  {
    Filter(services, IsActiveService)
  }

  /** The active services are exactly the services with `isActive`, in their original order. */
  lemma ActiveServicesSpec(services: seq<Service>)
    ensures forall s :: s in ActiveServices(services) <==> s in services && s.isActive
    ensures IsSubsequence(ActiveServices(services), services)
    ensures (ActiveServices(services) == []) <==> (forall i :: 0 <= i < |services| ==> !services[i].isActive)
  {
    var a := ActiveServices(services);
    if a == [] {
      forall i | 0 <= i < |services| ensures !services[i].isActive {
        assert services[i] in services;
      }
    } else {
      assert a[0] in services;
    }
  }

  /** The filter is a homomorphism: filtering a catalogue piecewise and concatenating gives the
      filter of the whole, so no service changes place relative to another. */
  lemma ActiveServicesAppend(a: seq<Service>, b: seq<Service>)
    ensures ActiveServices(a + b) == ActiveServices(a) + ActiveServices(b)
  {
    FilterAppend(a, b, IsActiveService);
  }

  function InCategory(c: Category): Service -> bool
  {
    (s: Service) => s.category == c
  }

  /** The services of `services` in category `c`, in order. */
  function OfCategory(services: seq<Service>, c: Category): seq<Service>
  {
    Filter(services, InCategory(c))
  }

  function Categories(services: seq<Service>): set<Category>
  {
    set i | 0 <= i < |services| :: services[i].category
  }

  /** The specification of `groupedServices`: one key per category that occurs, mapped to that
      category's services in order. */
  function Grouped(services: seq<Service>): map<Category, seq<Service>>
  {
    map c | c in Categories(services) :: OfCategory(services, c)
  }

  function GroupSize(groups: map<Category, seq<Service>>, c: Category): nat
  {
    if c in groups then |groups[c]| else 0
  }

  /** A category has a key in the grouping exactly when one of the services belongs to it. */
  lemma CategoriesSpec(services: seq<Service>, c: Category)
    ensures c in Categories(services) <==> OfCategory(services, c) != []
  {
    if c in Categories(services) {
      var i :| 0 <= i < |services| && services[i].category == c;
      assert services[i] in OfCategory(services, c);
    }
  }

  /** Adding one service to the end of the input only touches its own category's group. */
  lemma GroupedSnoc(services: seq<Service>, s: Service)
    ensures Grouped(services + [s]) ==
      Grouped(services)[s.category := GroupOrEmpty(Grouped(services), s.category) + [s]]
  {
    var ext := services + [s];
    var lhs := Grouped(ext);
    var rhs := Grouped(services)[s.category := GroupOrEmpty(Grouped(services), s.category) + [s]];
    forall c
      ensures c in lhs <==> c in rhs
      ensures c in lhs ==> lhs[c] == rhs[c]
    {
      OfCategorySnoc(services, s, c);
      CategoriesSpec(ext, c);
      CategoriesSpec(services, c);
    }
    assert lhs.Keys == rhs.Keys;
  }

  lemma OfCategorySnoc(services: seq<Service>, s: Service, c: Category)
    ensures OfCategory(services + [s], c) == OfCategory(services, c) + (if s.category == c then [s] else [])
  {
    FilterAppend(services, [s], InCategory(c));
  }

  function GroupOrEmpty(groups: map<Category, seq<Service>>, c: Category): seq<Service>
  {
    if c in groups then groups[c] else []
  }

  /** `groupedServices`: the `reduce` that pushes each active service onto its category's array,
      creating the array on first use. */
  method GroupServices(active: seq<Service>) returns (groups: map<Category, seq<Service>>)
    ensures groups == Grouped(active)
  {
    groups := map[];
    var i := 0;
    while i < |active|
      invariant 0 <= i <= |active|
      invariant groups == Grouped(active[..i])
    {
      var s := active[i];
      ghost var before := groups;
      if s.category !in groups {
        groups := groups[s.category := []];
      }
      assert groups[s.category] == GroupOrEmpty(before, s.category);
      groups := groups[s.category := groups[s.category] + [s]];
      assert groups == before[s.category := GroupOrEmpty(before, s.category) + [s]];
      GroupedSnoc(active[..i], s);
      assert active[..i + 1] == active[..i] + [s];
      i := i + 1;
    }
    assert active[..|active|] == active;
  }

  /** Every service of the input is in exactly one group, the one keyed by its own category, and
      the group sizes add up to the number of services. */
  lemma GroupedPartition(services: seq<Service>)
    ensures forall s :: s in services ==>
      s.category in Grouped(services) && s in Grouped(services)[s.category]
    ensures forall s, c :: c in Grouped(services) && s in Grouped(services)[c] ==> s.category == c
    ensures GroupSize(Grouped(services), Visa) + GroupSize(Grouped(services), Oci)
          + GroupSize(Grouped(services), Passport) == |services|
  {
    forall s | s in services ensures s.category in Categories(services) {
      var i :| 0 <= i < |services| && services[i] == s;
    }
    CategorySizes(services);
    forall c ensures GroupSize(Grouped(services), c) == |OfCategory(services, c)| {
      CategoriesSpec(services, c);
    }
  }

  lemma {:induction false} CategorySizes(services: seq<Service>)
    ensures |OfCategory(services, Visa)| + |OfCategory(services, Oci)| + |OfCategory(services, Passport)| == |services|
  {
    if services != [] {
      CategorySizes(services[1..]);
    }
  }
}
