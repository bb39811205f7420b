/** Derivations shared by the dashboards and the beneficiary modal: scoping
    tasks through the package they carry, and the beneficiary search box. */
module Scoping {
  import opened Wrappers
  import opened Sequences
  import opened Text
  import opened MockData

  function HasPackageId(id: string): Package -> bool {
    (p: Package) => p.id == id
  }

  /** `mockPackages.find(p => p.id === t.packageId)`: the first package
      carrying the task's package id, or nothing for a dangling id. */
  function PackageOfTask(packages: seq<Package>, t: Task): (r: Option<Package>)
    ensures r.None? <==> forall i :: 0 <= i < |packages| ==> packages[i].id != t.packageId
    ensures r.Some? ==> r.value.id == t.packageId && r.value in packages
    ensures forall i :: 0 <= i < |packages| && packages[i].id == t.packageId &&
                        (forall j :: 0 <= j < i ==> packages[j].id != t.packageId)
                        ==> r == Some(packages[i])
  {
    FindReturnsFirst(packages, HasPackageId(t.packageId));
    Find(packages, HasPackageId(t.packageId))
  }

  /** `pkg?.<owner field> === <owner id>`: false when the package is missing. */
  function ThroughPackage(packages: seq<Package>, owner: Package -> bool): Task -> bool {
    (t: Task) => match PackageOfTask(packages, t)
                 case Some(pkg) => owner(pkg)
                 case None => false
  }

  /** The tasks whose package (found by id) satisfies `owner`, in store order. */
  function TasksThroughPackage(store: Store, owner: Package -> bool): (r: seq<Task>)
    ensures SelectedBy(r, store.tasks, ThroughPackage(store.packages, owner))
    ensures forall t :: t in r <==>
              t in store.tasks && PackageOfTask(store.packages, t).Some?
              && owner(PackageOfTask(store.packages, t).value)
  {
    FilterSelects(store.tasks, ThroughPackage(store.packages, owner));
    Filter(store.tasks, ThroughPackage(store.packages, owner))
  }

  function ForOrganization(organizationId: string): Package -> bool {
    (p: Package) => p.organizationId == Some(organizationId)
  }

  function ForFamily(familyId: string): Package -> bool {
    (p: Package) => p.familyId == Some(familyId)
  }

  /** The search box test: the lower-cased name contains the lower-cased
      term, or the national id contains the term as typed. */
  predicate MatchesSearch(b: Beneficiary, term: string) {
    Contains(Lower(b.name), Lower(term)) || Contains(b.nationalId, term)
  }

  function MatchingSearch(term: string): Beneficiary -> bool {
    (b: Beneficiary) => MatchesSearch(b, term)
  }

  /** The beneficiaries of `members` the search term lets through, in order. */
  function SearchFilter(members: seq<Beneficiary>, term: string): (r: seq<Beneficiary>)
    ensures SelectedBy(r, members, MatchingSearch(term))
    ensures SubsequenceOf(r, members)
    ensures forall b :: b in r <==> b in members && MatchesSearch(b, term)
  {
    FilterSelects(members, MatchingSearch(term));
    SelectedIsSubsequence(Filter(members, MatchingSearch(term)), members, MatchingSearch(term));
    Filter(members, MatchingSearch(term))
  }

  /** An empty search box hides nobody. */
  lemma EmptySearchKeepsAll(members: seq<Beneficiary>)
    ensures SearchFilter(members, "") == members
  {
    LowerEmpty();
    forall k | 0 <= k < |members| ensures MatchesSearch(members[k], "") {
      ContainsEmpty(Lower(members[k].name));
    }
    FilterKeepsAll(members, MatchingSearch(""));
  }

  /** The national-id test is not case-folded: a term that differs from the
      id only in letter case matches through the id only when the name
      matches it. */
  /** The name test ignores ASCII case: a term typed in any case matches a
      name that holds it in some other case. */
  lemma NameSearchIsCaseBlind(b: Beneficiary, written: string, typed: string)
    requires Contains(b.name, written)
    requires Lower(written) == Lower(typed)
    ensures MatchesSearch(b, typed)
  {
    ContainsLower(b.name, written);
  }

  /** Folding the term first changes nothing about the name test. */
  lemma NameSearchLowersTerm(b: Beneficiary, term: string)
    ensures Contains(Lower(b.name), Lower(term)) == Contains(Lower(b.name), Lower(Lower(term)))
  {
    LowerIdempotent(term);
  }

  /** The counterpart of the national-id example below: the name "AB12" is
      found by the term "ab12". */
  lemma NameIsCaseInsensitive(b: Beneficiary)
    requires b.name == "AB12"
    ensures MatchesSearch(b, "ab12")
  {
    assert Lower("AB12") == Lower("ab12");
    NameSearchIsCaseBlind(b, "AB12", "ab12");
  }

  lemma NationalIdIsCaseSensitive(b: Beneficiary)
    requires b.name == "" && b.nationalId == "AB12"
    ensures !MatchesSearch(b, "ab12")
  {
    assert Lower("") == "";
    assert !Contains([], Lower("ab12"));
    ContainsIffOccurs(b.nationalId, "ab12");
    assert !OccursAt(b.nationalId, "ab12", 0) by {
      assert b.nationalId[0] != "ab12"[0];
    }
  }
}
