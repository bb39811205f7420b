/** The derivations of the beneficiary details modal
    (src/components/BeneficiaryDetailsModal.tsx): the beneficiary's packages
    and tasks, the status labels and badge colours, and the counters of the
    delivery and activity panels. */
module BeneficiaryDetailsModal {
  import opened Wrappers
  import opened Sequences
  import opened MockData
  import opened Scoping

  /** beneficiaryPackages: the packages addressed to this beneficiary, the
      same list getPackagesByBeneficiary gives for its id. */
  function BeneficiaryPackages(store: Store, beneficiary: Beneficiary): (r: seq<Package>)
    ensures r == PackagesByBeneficiary(store, beneficiary.id)
    ensures forall p :: p in r <==> p in store.packages && p.beneficiaryId == Some(beneficiary.id)
  {
    Filter(store.packages, ForBeneficiary(beneficiary.id))
  }

  /** beneficiaryTasks: a task is shown iff the first package with its
      package id exists and is addressed to this beneficiary. The task's own
      beneficiaryId is not consulted. */
  function BeneficiaryTasks(store: Store, beneficiary: Beneficiary): (r: seq<Task>)
    ensures SelectedBy(r, store.tasks, ThroughPackage(store.packages, ForBeneficiary(beneficiary.id)))
    ensures forall t :: t in r <==>
              t in store.tasks &&
              match PackageOfTask(store.packages, t)
              case Some(pkg) => pkg.beneficiaryId == Some(beneficiary.id)
              case None => false
  {
    TasksThroughPackage(store, ForBeneficiary(beneficiary.id))
  }

  /** Whether a task is listed does not depend on the task's own
      beneficiaryId: rewriting that field never changes the outcome. */
  lemma TaskOwnBeneficiaryIgnored(store: Store, beneficiary: Beneficiary, t: Task, other: string)
    ensures ThroughPackage(store.packages, ForBeneficiary(beneficiary.id))(t)
         == ThroughPackage(store.packages, ForBeneficiary(beneficiary.id))(t.(beneficiaryId := other))
  {
    assert PackageOfTask(store.packages, t) == PackageOfTask(store.packages, t.(beneficiaryId := other));
  }

  const GreenBadge := "bg-green-100 text-green-800"
  const YellowBadge := "bg-yellow-100 text-yellow-800"
  const RedBadge := "bg-red-100 text-red-800"
  const GrayBadge := "bg-gray-100 text-gray-800"

  /** getStatusColor: one colour per identity/document status, gray for any
      other string. */
  function StatusColor(status: string): (colour: string)
    ensures colour == GreenBadge <==> status == "verified"
    ensures colour == YellowBadge <==> status == "pending"
    ensures colour == RedBadge <==> status == "rejected"
    ensures colour == GrayBadge <==> status !in {"verified", "pending", "rejected"}
  {
    match status
    case "verified" => GreenBadge
    case "pending" => YellowBadge
    case "rejected" => RedBadge
    case _ => GrayBadge
  }

  const EligibleLabel := "مؤهل"
  const UnderReviewLabel := "قيد المراجعة"
  const RejectedLabel := "مرفوض"

  /** The eligibility badge text: eligible and under review have their own
      label; every other status, suspended included, reads as rejected. */
  function EligibilityLabel(status: EligibilityStatus): (caption: string)
    ensures caption == EligibleLabel <==> status == EligibilityStatus.Eligible
    ensures caption == UnderReviewLabel <==> status == EligibilityStatus.UnderReview
    ensures caption == RejectedLabel <==> status.Rejected? || status.Suspended?
  {
    if status == EligibilityStatus.Eligible then EligibleLabel
    else if status == EligibilityStatus.UnderReview then UnderReviewLabel
    else RejectedLabel
  }

  /** An entry of the modal's delivery-locations list, as far as the
      counters read it. */
  datatype Delivery = Delivery(id: string, status: string)

  predicate IsSuccessful(d: Delivery) {
    d.status == "delivered"
  }

  /** The successful-deliveries counter, next to the total `deliveries.length`. */
  function SuccessfulDeliveries(deliveries: seq<Delivery>): (n: nat)
    ensures n == CountWhere(deliveries, IsSuccessful)
    ensures n <= |deliveries|
  {
    FilterCount(deliveries, IsSuccessful);
    |Filter(deliveries, IsSuccessful)|
  }

  function OfKind(kind: ActivityType): ActivityLog -> bool {
    (a: ActivityLog) => a.kind == kind
  }

  predicate IsApproval(a: ActivityLog) {
    a.kind == ActivityType.Verify || a.kind == ActivityType.Approve
  }

  /** The four tiles of the activity summary. */
  datatype ActivitySummary = ActivitySummary(creations: nat, approvals: nat, deliveries: nat, updates: nat)

  /** Every log entry is counted by exactly one tile, except review entries,
      which no tile counts; the approvals tile counts verify and approve
      entries together. */
  lemma {:induction false} SummaryPartition(log: seq<ActivityLog>)
    ensures |Filter(log, OfKind(ActivityType.Create))| + |Filter(log, IsApproval)|
          + |Filter(log, OfKind(ActivityType.Deliver))| + |Filter(log, OfKind(ActivityType.Update))|
          + |Filter(log, OfKind(ActivityType.Review))| == |log|
    ensures |Filter(log, IsApproval)|
         == |Filter(log, OfKind(ActivityType.Verify))| + |Filter(log, OfKind(ActivityType.Approve))|
  {
    if log != [] {
      SummaryPartition(log[1..]);
    }
  }

  function Summarise(log: seq<ActivityLog>): (s: ActivitySummary)
    ensures s.creations == CountWhere(log, OfKind(ActivityType.Create))
    ensures s.approvals == CountWhere(log, OfKind(ActivityType.Verify)) + CountWhere(log, OfKind(ActivityType.Approve))
    ensures s.deliveries == CountWhere(log, OfKind(ActivityType.Deliver))
    ensures s.updates == CountWhere(log, OfKind(ActivityType.Update))
    ensures s.creations + s.approvals + s.deliveries + s.updates
          == |log| - CountWhere(log, OfKind(ActivityType.Review))
    ensures s.creations + s.approvals + s.deliveries + s.updates <= |log|
  {
    SummaryPartition(log);
    FilterCount(log, OfKind(ActivityType.Create));
    FilterCount(log, OfKind(ActivityType.Verify));
    FilterCount(log, OfKind(ActivityType.Approve));
    FilterCount(log, OfKind(ActivityType.Deliver));
    FilterCount(log, OfKind(ActivityType.Update));
    FilterCount(log, OfKind(ActivityType.Review));
    ActivitySummary(
      |Filter(log, OfKind(ActivityType.Create))|,
      |Filter(log, IsApproval)|,
      |Filter(log, OfKind(ActivityType.Deliver))|,
      |Filter(log, OfKind(ActivityType.Update))|)
  }
}
