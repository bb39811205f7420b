/** The fixture store of the aid tracker and the queries and statistics
    computed over it (src/data/mockData.ts). The store is a value passed in;
    nothing here changes it. */
module MockData {
  import opened Wrappers
  import opened Sequences

  // ---------------------------------------------------------------------
  // Entities. String-literal unions become enumerations; optional fields
  // become Option. Display-only fields are not carried.
  // ---------------------------------------------------------------------

  /** 'active' | 'pending' | 'suspended', shared by organizations and beneficiaries. */
  datatype RecordStatus = Active | Pending | Suspended

  datatype Organization = Organization(
    id: string,
    name: string,
    kind: string,
    beneficiariesCount: int,
    packagesCount: int,
    completionRate: int,
    status: RecordStatus)

  datatype Family = Family(
    id: string,
    name: string,
    headOfFamily: string,
    membersCount: int,
    packagesDistributed: int,
    completionRate: int)

  datatype EligibilityCategory = Poor | Widow | Orphan | Disabled | Emergency | Other

  datatype EligibilityStatus = Eligible | UnderReview | Rejected | Suspended

  datatype IdentityStatus = Verified | Pending | Rejected

  datatype Beneficiary = Beneficiary(
    id: string,
    name: string,
    fullName: string,
    nationalId: string,
    organizationId: Option<string>,
    familyId: Option<string>,
    relationToFamily: Option<string>,
    eligibilityCategory: EligibilityCategory,
    eligibilityStatus: EligibilityStatus,
    identityStatus: IdentityStatus,
    status: RecordStatus,
    totalPackages: int)

  datatype PackageStatus = Pending | Assigned | InDelivery | Delivered | Failed

  datatype Package = Package(
    id: string,
    name: string,
    kind: string,
    organizationId: Option<string>,
    familyId: Option<string>,
    beneficiaryId: Option<string>,
    status: PackageStatus)

  datatype TaskStatus = Pending | Assigned | InProgress | Delivered | Failed | Rescheduled

  datatype Task = Task(
    id: string,
    packageId: string,
    beneficiaryId: string,
    courierId: Option<string>,
    status: TaskStatus)

  datatype ActivityType = Create | Verify | Approve | Update | Deliver | Review

  datatype ActivityLog = ActivityLog(id: string, kind: ActivityType)

  datatype AlertType = Delayed | Failed | Expired | Urgent

  datatype RelatedType = Package | Beneficiary | Task

  datatype Priority = Low | Medium | High | Critical

  datatype Alert = Alert(
    id: string,
    kind: AlertType,
    title: string,
    relatedId: string,
    relatedType: RelatedType,
    priority: Priority,
    isRead: bool)

  /** The six fixture arrays the queries read, in their declared order. */
  datatype Store = Store(
    organizations: seq<Organization>,
    families: seq<Family>,
    beneficiaries: seq<Beneficiary>,
    packages: seq<Package>,
    tasks: seq<Task>,
    alerts: seq<Alert>)

  // ---------------------------------------------------------------------
  // Test functions handed to filter and find.
  // ---------------------------------------------------------------------

  function HasOrganizationId(id: string): Organization -> bool {
    (o: Organization) => o.id == id
  }

  function HasFamilyId(id: string): Family -> bool {
    (f: Family) => f.id == id
  }

  /** `b.organizationId === organizationId`: never true of an absent field. */
  function InOrganization(organizationId: string): Beneficiary -> bool {
    (b: Beneficiary) => b.organizationId == Some(organizationId)
  }

  function InFamily(familyId: string): Beneficiary -> bool {
    (b: Beneficiary) => b.familyId == Some(familyId)
  }

  function ForBeneficiary(beneficiaryId: string): Package -> bool {
    (p: Package) => p.beneficiaryId == Some(beneficiaryId)
  }

  function HasTaskStatus(status: TaskStatus): Task -> bool {
    (t: Task) => t.status == status
  }

  predicate IsUnread(a: Alert) {
    !a.isRead
  }

  predicate IsCriticalUnread(a: Alert) {
    a.priority == Priority.Critical && !a.isRead
  }

  predicate IsCriticalPriority(a: Alert) {
    a.priority == Priority.Critical
  }

  predicate IsDelivered(p: Package) {
    p.status == PackageStatus.Delivered
  }

  /** `['pending', 'assigned', 'in_progress'].includes(t.status)`. */
  predicate IsActiveTask(t: Task) {
    t.status in {TaskStatus.Pending, TaskStatus.Assigned, TaskStatus.InProgress}
  }

  // ---------------------------------------------------------------------
  // Queries.
  // ---------------------------------------------------------------------

  /** getOrganizationById: the first organization with that id, or nothing. */
  function OrganizationById(store: Store, id: string): (r: Option<Organization>)
    ensures r.None? <==> forall i :: 0 <= i < |store.organizations| ==> store.organizations[i].id != id
    ensures r.Some? ==> r.value.id == id && r.value in store.organizations
    ensures forall i :: 0 <= i < |store.organizations| && store.organizations[i].id == id &&
                        (forall j :: 0 <= j < i ==> store.organizations[j].id != id)
                        ==> r == Some(store.organizations[i])
  {
    FindReturnsFirst(store.organizations, HasOrganizationId(id));
    Find(store.organizations, HasOrganizationId(id))
  }

  /** getFamilyById: the first family with that id, or nothing. */
  function FamilyById(store: Store, id: string): (r: Option<Family>)
    ensures r.None? <==> forall i :: 0 <= i < |store.families| ==> store.families[i].id != id
    ensures r.Some? ==> r.value.id == id && r.value in store.families
    ensures forall i :: 0 <= i < |store.families| && store.families[i].id == id &&
                        (forall j :: 0 <= j < i ==> store.families[j].id != id)
                        ==> r == Some(store.families[i])
  {
    FindReturnsFirst(store.families, HasFamilyId(id));
    Find(store.families, HasFamilyId(id))
  }

  /** getBeneficiariesByOrganization: exactly the beneficiaries of that
      organization, in store order. */
  function BeneficiariesByOrganization(store: Store, organizationId: string): (r: seq<Beneficiary>)
    ensures SelectedBy(r, store.beneficiaries, InOrganization(organizationId))
    ensures forall b :: b in r <==> b in store.beneficiaries && b.organizationId == Some(organizationId)
  {
    FilterSelects(store.beneficiaries, InOrganization(organizationId));
    Filter(store.beneficiaries, InOrganization(organizationId))
  }

  /** getBeneficiariesByFamily: exactly the members of that family, in store order. */
  function BeneficiariesByFamily(store: Store, familyId: string): (r: seq<Beneficiary>)
    ensures SelectedBy(r, store.beneficiaries, InFamily(familyId))
    ensures forall b :: b in r <==> b in store.beneficiaries && b.familyId == Some(familyId)
  {
    FilterSelects(store.beneficiaries, InFamily(familyId));
    Filter(store.beneficiaries, InFamily(familyId))
  }

  /** getPackagesByBeneficiary: exactly the packages addressed to that
      beneficiary, in store order. */
  function PackagesByBeneficiary(store: Store, beneficiaryId: string): (r: seq<Package>)
    ensures SelectedBy(r, store.packages, ForBeneficiary(beneficiaryId))
    ensures forall p :: p in r <==> p in store.packages && p.beneficiaryId == Some(beneficiaryId)
  {
    FilterSelects(store.packages, ForBeneficiary(beneficiaryId));
    Filter(store.packages, ForBeneficiary(beneficiaryId))
  }

  /** getTasksByStatus: exactly the tasks in that state, in store order. */
  function TasksByStatus(store: Store, status: TaskStatus): (r: seq<Task>)
    ensures SelectedBy(r, store.tasks, HasTaskStatus(status))
    ensures forall t :: t in r <==> t in store.tasks && t.status == status
  {
    FilterSelects(store.tasks, HasTaskStatus(status));
    Filter(store.tasks, HasTaskStatus(status))
  }

  /** getUnreadAlerts: exactly the unread alerts, in store order. */
  function UnreadAlerts(store: Store): (r: seq<Alert>)
    ensures SelectedBy(r, store.alerts, IsUnread)
    ensures forall a :: a in r <==> a in store.alerts && !a.isRead
  {
    FilterSelects(store.alerts, IsUnread);
    Filter(store.alerts, IsUnread)
  }

  /** getCriticalAlerts: exactly the unread alerts of critical priority, in store order. */
  function CriticalAlerts(store: Store): (r: seq<Alert>)
    ensures SelectedBy(r, store.alerts, IsCriticalUnread)
    ensures forall a :: a in r <==> a in store.alerts && a.priority == Priority.Critical && !a.isRead
  {
    FilterSelects(store.alerts, IsCriticalUnread);
    Filter(store.alerts, IsCriticalUnread)
  }

  /** The critical list is the unread list narrowed to critical priority, so
      it is an order-preserving subsequence of the unread list. */
  lemma CriticalWithinUnread(store: Store)
    ensures CriticalAlerts(store) == Filter(UnreadAlerts(store), IsCriticalPriority)
    ensures SubsequenceOf(CriticalAlerts(store), UnreadAlerts(store))
    ensures |CriticalAlerts(store)| <= |UnreadAlerts(store)|
  {
    FilterFilter(store.alerts, IsUnread, IsCriticalPriority, IsCriticalUnread);
    FilterSelects(UnreadAlerts(store), IsCriticalPriority);
    SelectedIsSubsequence(CriticalAlerts(store), UnreadAlerts(store), IsCriticalPriority);
  }

  // ---------------------------------------------------------------------
  // Statistics.
  // ---------------------------------------------------------------------

  /** `Math.round(part / whole * 100)` on exact rationals: the integer
      nearest to 100 * part / whole, halves rounded up. */
  function RoundedPercent(part: nat, whole: nat): (r: int)
    requires whole > 0
    ensures 2 * whole * r - whole <= 200 * part < 2 * whole * r + whole
    ensures part <= whole ==> 0 <= r <= 100
  {
    DivisionBounds(200 * part + whole, 2 * whole);
    PercentAtMostHundred(part, whole);
    (200 * part + whole) / (2 * whole)
  }

  lemma DivisionBounds(n: int, d: int)
    requires d > 0
    ensures d * (n / d) <= n < d * (n / d) + d
  {
    var q, m := n / d, n % d;
    assert n == d * q + m;
  }

  lemma PercentAtMostHundred(part: nat, whole: nat)
    requires whole > 0
    ensures part <= whole ==> 0 <= (200 * part + whole) / (2 * whole) <= 100
  {
    if part <= whole {
      QuotientBelow(200 * part + whole, 2 * whole, 101);
    }
  }

  /** A numerator below `d * c` has a quotient below `c`. */
  lemma QuotientBelow(n: nat, d: int, c: int)
    requires d > 0 && n < d * c
    ensures 0 <= n / d < c
  {
    DivisionBounds(n, d);
    var q := n / d;
    if q >= c {
      MultiplyMonotone(d, q, c);
    }
  }

  lemma MultiplyMonotone(d: int, a: int, b: int)
    requires d > 0 && a >= b
    ensures d * a >= d * b
  {
    assert d * a - d * b == d * (a - b);
  }

  datatype Stats = Stats(
    totalBeneficiaries: nat,
    totalPackages: nat,
    deliveredPackages: nat,
    activeTasks: nat,
    criticalAlerts: nat,
    deliveryRate: nat)

  /** The active-task count splits by state: pending, assigned and in
      progress tasks are counted once each. */
  lemma {:induction false} ActiveTasksSplit(tasks: seq<Task>)
    ensures |Filter(tasks, IsActiveTask)|
         == |Filter(tasks, HasTaskStatus(TaskStatus.Pending))|
          + |Filter(tasks, HasTaskStatus(TaskStatus.Assigned))|
          + |Filter(tasks, HasTaskStatus(TaskStatus.InProgress))|
  {
    if tasks != [] {
      ActiveTasksSplit(tasks[1..]);
    }
  }

  /** calculateStats. */
  function CalculateStats(store: Store): (st: Stats)
    ensures st.totalBeneficiaries == |store.beneficiaries|
    ensures st.totalPackages == |store.packages|
    ensures st.deliveredPackages == CountWhere(store.packages, IsDelivered) <= st.totalPackages
    ensures st.activeTasks == CountWhere(store.tasks, IsActiveTask)
    ensures st.activeTasks == |TasksByStatus(store, TaskStatus.Pending)|
                            + |TasksByStatus(store, TaskStatus.Assigned)|
                            + |TasksByStatus(store, TaskStatus.InProgress)|
    ensures st.activeTasks <= |store.tasks|
    ensures st.criticalAlerts == |CriticalAlerts(store)| <= |UnreadAlerts(store)|
    ensures st.totalPackages == 0 ==> st.deliveryRate == 0
    ensures st.totalPackages > 0 ==>
              2 * st.totalPackages * st.deliveryRate - st.totalPackages
              <= 200 * st.deliveredPackages
              < 2 * st.totalPackages * st.deliveryRate + st.totalPackages
    ensures st.deliveryRate <= 100
  {
    var totalBeneficiaries := |store.beneficiaries|;
    var totalPackages := |store.packages|;
    var deliveredPackages := |Filter(store.packages, IsDelivered)|;
    ActiveTasksSplit(store.tasks);
    var activeTasks := |Filter(store.tasks, IsActiveTask)|;
    CriticalWithinUnread(store);
    FilterCount(store.packages, IsDelivered);
    FilterCount(store.tasks, IsActiveTask);
    var criticalAlerts := |CriticalAlerts(store)|;
    Stats(
      totalBeneficiaries,
      totalPackages,
      deliveredPackages,
      activeTasks,
      criticalAlerts,
      if totalPackages > 0 then RoundedPercent(deliveredPackages, totalPackages) else 0)
  }
}
