/** The derivations at the top of the family/aid-giver dashboard
    (src/components/FamiliesDashboard.tsx). The dashboard shows the first
    family of the store, so every derivation needs one. */
module FamiliesDashboard {
  import opened Wrappers
  import opened Sequences
  import opened MockData
  import opened Scoping

  /** `mockFamilies[0]`; reading it from an empty array fails in the source. */
  function CurrentFamily(store: Store): Family
    requires |store.families| > 0
  {
    store.families[0]
  }

  /** familyMembers: the current family's beneficiaries, in store order. */
  function FamilyMembers(store: Store): (r: seq<Beneficiary>)
    requires |store.families| > 0
    ensures SelectedBy(r, store.beneficiaries, InFamily(store.families[0].id))
    ensures forall b :: b in r <==> b in store.beneficiaries && b.familyId == Some(store.families[0].id)
  {
    BeneficiariesByFamily(store, CurrentFamily(store).id)
  }

  /** familyPackages: the packages owned by the current family, in store order. */
  function FamilyPackages(store: Store): (r: seq<Package>)
    requires |store.families| > 0
    ensures SelectedBy(r, store.packages, ForFamily(store.families[0].id))
    ensures forall p :: p in r <==> p in store.packages && p.familyId == Some(store.families[0].id)
  {
    FilterSelects(store.packages, ForFamily(CurrentFamily(store).id));
    Filter(store.packages, ForFamily(CurrentFamily(store).id))
  }

  /** familyTasks: a task is shown iff the first package with its package id
      exists and belongs to the current family. */
  function FamilyTasks(store: Store): (r: seq<Task>)
    requires |store.families| > 0
    ensures SelectedBy(r, store.tasks, ThroughPackage(store.packages, ForFamily(store.families[0].id)))
    ensures forall t :: t in r <==>
              t in store.tasks &&
              match PackageOfTask(store.packages, t)
              case Some(pkg) => pkg.familyId == Some(store.families[0].id)
              case None => false
  {
    TasksThroughPackage(store, ForFamily(CurrentFamily(store).id))
  }

  /** filteredMembers: the family members the search term lets through, in order. */
  function FilteredMembers(store: Store, searchTerm: string): (r: seq<Beneficiary>)
    requires |store.families| > 0
    ensures SelectedBy(r, FamilyMembers(store), MatchingSearch(searchTerm))
    ensures SubsequenceOf(r, FamilyMembers(store))
    ensures forall b :: b in r <==> b in FamilyMembers(store) && MatchesSearch(b, searchTerm)
  {
    SearchFilter(FamilyMembers(store), searchTerm)
  }

  lemma EmptySearchShowsAllMembers(store: Store)
    requires |store.families| > 0
    ensures FilteredMembers(store, "") == FamilyMembers(store)
  {
    EmptySearchKeepsAll(FamilyMembers(store));
  }

  /** The "distributed" tile: `Math.floor(packagesDistributed * completionRate / 100)`.
      Division by the positive constant 100 rounds down, as `Math.floor` does. */
  function DistributedTile(family: Family): (n: int)
    ensures 100 * n <= family.packagesDistributed * family.completionRate < 100 * n + 100
  {
    family.packagesDistributed * family.completionRate / 100
  }

  /** The "pending" tile: what the distributed tile leaves of `packagesDistributed`. */
  function PendingTile(family: Family): (n: int)
    ensures n + DistributedTile(family) == family.packagesDistributed
  {
    family.packagesDistributed - DistributedTile(family)
  }

  /** With a completion rate between 0 and 100, both tiles lie between 0 and
      `packagesDistributed`. */
  lemma TilesWithinDistributed(family: Family)
    requires family.packagesDistributed >= 0
    requires 0 <= family.completionRate <= 100
    ensures 0 <= DistributedTile(family) <= family.packagesDistributed
    ensures 0 <= PendingTile(family) <= family.packagesDistributed
  {
    var pd, cr := family.packagesDistributed, family.completionRate;
    assert 0 <= pd * cr <= pd * 100 by {
      assert pd * cr <= pd * 100 by {
        assert pd * (100 - cr) >= 0;
      }
    }
  }
}
