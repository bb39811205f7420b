/** The derivations at the top of the partner-organization dashboard
    (src/components/OrganizationsDashboard.tsx). The dashboard shows the
    first organization of the store, so every derivation needs one. */
module OrganizationsDashboard {
  import opened Wrappers
  import opened Sequences
  import opened MockData
  import opened Scoping

  /** `mockOrganizations[0]`; reading it from an empty array fails in the source. */
  function CurrentOrganization(store: Store): Organization
    requires |store.organizations| > 0
  {
    store.organizations[0]
  }

  /** orgBeneficiaries: the current organization's beneficiaries, in store order. */
  function OrgBeneficiaries(store: Store): (r: seq<Beneficiary>)
    requires |store.organizations| > 0
    ensures SelectedBy(r, store.beneficiaries, InOrganization(store.organizations[0].id))
    ensures forall b :: b in r <==> b in store.beneficiaries && b.organizationId == Some(store.organizations[0].id)
  {
    BeneficiariesByOrganization(store, CurrentOrganization(store).id)
  }

  /** orgPackages: the packages owned by the current organization, in store order. */
  function OrgPackages(store: Store): (r: seq<Package>)
    requires |store.organizations| > 0
    ensures SelectedBy(r, store.packages, ForOrganization(store.organizations[0].id))
    ensures forall p :: p in r <==> p in store.packages && p.organizationId == Some(store.organizations[0].id)
  {
    FilterSelects(store.packages, ForOrganization(CurrentOrganization(store).id));
    Filter(store.packages, ForOrganization(CurrentOrganization(store).id))
  }

  /** orgTasks: a task is shown iff the first package with its package id
      exists and belongs to the current organization. */
  function OrgTasks(store: Store): (r: seq<Task>)
    requires |store.organizations| > 0
    ensures SelectedBy(r, store.tasks, ThroughPackage(store.packages, ForOrganization(store.organizations[0].id)))
    ensures forall t :: t in r <==>
              t in store.tasks &&
              match PackageOfTask(store.packages, t)
              case Some(pkg) => pkg.organizationId == Some(store.organizations[0].id)
              case None => false
  {
    TasksThroughPackage(store, ForOrganization(CurrentOrganization(store).id))
  }

  /** filteredBeneficiaries: the organization's beneficiaries the search term
      lets through, in order. */
  function FilteredBeneficiaries(store: Store, searchTerm: string): (r: seq<Beneficiary>)
    requires |store.organizations| > 0
    ensures SelectedBy(r, OrgBeneficiaries(store), MatchingSearch(searchTerm))
    ensures SubsequenceOf(r, OrgBeneficiaries(store))
    ensures forall b :: b in r <==> b in OrgBeneficiaries(store) && MatchesSearch(b, searchTerm)
  {
    SearchFilter(OrgBeneficiaries(store), searchTerm)
  }

  lemma EmptySearchShowsAll(store: Store)
    requires |store.organizations| > 0
    ensures FilteredBeneficiaries(store, "") == OrgBeneficiaries(store)
  {
    EmptySearchKeepsAll(OrgBeneficiaries(store));
  }

  /** The delivered-packages tile. */
  function DeliveredTile(store: Store): (n: nat)
    requires |store.organizations| > 0
    ensures n == CountWhere(OrgPackages(store), IsDelivered)
    ensures n <= |OrgPackages(store)|
  {
    FilterCount(OrgPackages(store), IsDelivered);
    |Filter(OrgPackages(store), IsDelivered)|
  }

  /** The active-tasks tile: pending, assigned or in progress. */
  function ActiveTasksTile(store: Store): (n: nat)
    requires |store.organizations| > 0
    ensures n == CountWhere(OrgTasks(store), IsActiveTask)
    ensures n <= |OrgTasks(store)|
  {
    FilterCount(OrgTasks(store), IsActiveTask);
    |Filter(OrgTasks(store), IsActiveTask)|
  }

  /** The organization's delivered tile never exceeds the store-wide count
      that calculateStats reports. */
  lemma DeliveredTileWithinStats(store: Store)
    requires |store.organizations| > 0
    ensures DeliveredTile(store) <= CalculateStats(store).deliveredPackages
  {
    var owned := ForOrganization(CurrentOrganization(store).id);
    var both := (p: Package) => owned(p) && IsDelivered(p);
    FilterFilter(store.packages, owned, IsDelivered, both);
    FilterFilter(store.packages, IsDelivered, owned, both);
    FilterCount(store.packages, IsDelivered);
  }
}
