/**
 * The two entities of the shared document, the document itself, the body a
 * PATCH request may carry, and the object-spread merge of two reports.
 */
module Records {
  import opened Nullish

  // Values of `status` the source compares against.
  const PENDING: string := "Pending"
  const APPROVED: string := "Approved"
  const REJECTED: string := "Rejected"

  // Values of `missionStatus` the source compares against.
  const ACTIVE: string := "Active"
  const COMPLETED: string := "Completed"

  /** One incident report. Every key may be missing from a stored object. */
  datatype Report = Report(
    id: Option<string>,
    category: Option<string>,          // the JSON key `type`
    description: Option<string>,
    location: Option<string>,
    image: Option<string>,
    isEmergencySOS: Option<bool>,
    status: Option<string>,
    severity: Option<string>,
    rejectionReason: Option<string>,
    missionStatus: Option<string>,
    time: Option<string>,
    approvedAt: Option<string>,
    rejectedAt: Option<string>,
    acceptedAt: Option<string>,
    completedAt: Option<string>)

  /** The object literal `{}`. */
  const Empty: Report :=
    Report(None, None, None, None, None, None, None, None, None, None, None, None, None, None, None)

  /** One emergency contact. */
  datatype Contact = Contact(
    id: Option<string>,
    name: Option<string>,
    phone: Option<string>,
    relation: Option<string>,
    isEmergency: Option<bool>)

  /** The eight keys a PATCH handler destructures from its request body. */
  datatype PatchBody = PatchBody(
    status: Option<string>,
    severity: Option<string>,
    rejectionReason: Option<string>,
    approvedAt: Option<string>,
    rejectedAt: Option<string>,
    missionStatus: Option<string>,
    acceptedAt: Option<string>,
    completedAt: Option<string>)

  /** The persisted document: exactly two top-level arrays. */
  datatype Store = Store(reports: seq<Report>, contacts: seq<Contact>)

  /** `{...under, ...over}` on two reports, key by key. */
  function Merge(under: Report, over: Report): Report
  {
    Report(
      Spread(under.id, over.id),
      Spread(under.category, over.category),
      Spread(under.description, over.description),
      Spread(under.location, over.location),
      Spread(under.image, over.image),
      Spread(under.isEmergencySOS, over.isEmergencySOS),
      Spread(under.status, over.status),
      Spread(under.severity, over.severity),
      Spread(under.rejectionReason, over.rejectionReason),
      Spread(under.missionStatus, over.missionStatus),
      Spread(under.time, over.time),
      Spread(under.approvedAt, over.approvedAt),
      Spread(under.rejectedAt, over.rejectedAt),
      Spread(under.acceptedAt, over.acceptedAt),
      Spread(under.completedAt, over.completedAt))
  }

  /** Every key present in `under` is present in `over`. */
  predicate Extends(over: Report, under: Report)
  {
    && Covers(over.id, under.id)
    && Covers(over.category, under.category)
    && Covers(over.description, under.description)
    && Covers(over.location, under.location)
    && Covers(over.image, under.image)
    && Covers(over.isEmergencySOS, under.isEmergencySOS)
    && Covers(over.status, under.status)
    && Covers(over.severity, under.severity)
    && Covers(over.rejectionReason, under.rejectionReason)
    && Covers(over.missionStatus, under.missionStatus)
    && Covers(over.time, under.time)
    && Covers(over.approvedAt, under.approvedAt)
    && Covers(over.rejectedAt, under.rejectedAt)
    && Covers(over.acceptedAt, under.acceptedAt)
    && Covers(over.completedAt, under.completedAt)
  }

  /**
   * Spreading a report over one whose keys it all carries yields exactly
   * the later report, and only then: a key of `under` that `over` lacks
   * survives the spread.
   */
  lemma MergeYieldsOver(under: Report, over: Report)
    ensures Extends(over, under) <==> Merge(under, over) == over
  {
    if Merge(under, over) == over {
      assert Extends(over, under);
    }
  }

  /** No two reports of the sequence share an id. */
  ghost predicate UniqueIds(rs: seq<Report>)
  {
    forall i, j :: 0 <= i < |rs| && 0 <= j < |rs| && i != j ==> rs[i].id != rs[j].id
  }

  /** Some report of the sequence has id `id`. */
  predicate HasId(rs: seq<Report>, id: string)
  {
    exists i :: 0 <= i < |rs| && rs[i].id == Some(id)
  }
}
