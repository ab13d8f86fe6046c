/**
 * The client context's cache of reports and contacts
 * (src/context/DisasterContext.js) and how each action changes it once the
 * server's answer is in. `fetch` becomes the `Http` outcome handed in, and
 * each `new Date().toISOString()` on the client becomes a parameter.
 */
module Client {
  import opened Nullish
  import opened Records
  import opened Views

  const CLIENT_DEFAULT_SEVERITY: string := "High"
  const CLIENT_DEFAULT_REASON: string := "Insufficient information"

  /**
   * The outcome of one `fetch`: a response with or without `ok`, whose body
   * parsed as JSON (`Some`) or not (`None`), or a request that threw.
   */
  datatype Http<T> = Ok(body: Option<T>) | NotOk(body: Option<T>) | Thrown

  /** The JSON body `{message, report}` of a PATCH reply; `report` may be missing. */
  datatype UpdateBody = UpdateBody(report: Option<Report>)

  /** The client's copy of the two collections. */
  datatype Cache = Cache(reports: seq<Report>, contacts: seq<Contact>)

  /**
   * `addReport`: only an OK response whose body parses puts the saved report
   * at the front; anything else leaves the cache as it was.
   */
  function AddReport(c: Cache, reply: Http<Report>): (c': Cache)
    ensures c'.contacts == c.contacts
    ensures reply.Ok? && reply.body.Some? ==>
              |c'.reports| == |c.reports| + 1 && c'.reports[0] == reply.body.value && c'.reports[1..] == c.reports
    ensures !(reply.Ok? && reply.body.Some?) ==> c' == c
  {
    match reply
    case Ok(Some(saved)) => c.(reports := [saved] + c.reports)
    case _ => c
  }

  /** `prev.map(report => report.id === id ? {...report, ...update} : report)`. */
  function MergeById(rs: seq<Report>, id: string, update: Report): (out: seq<Report>)
    ensures |out| == |rs|
    ensures forall i :: 0 <= i < |rs| && rs[i].id != Some(id) ==> out[i] == rs[i]
    ensures forall i :: 0 <= i < |rs| && rs[i].id == Some(id) ==> out[i] == Merge(rs[i], update)
  {
    if |rs| == 0 then []
    else
      var head := if rs[0].id == Some(id) then Merge(rs[0], update) else rs[0];
      [head] + MergeById(rs[1..], id, update)
  }

  /** The reply body parsed and has a `report` key. */
  predicate Carries(body: Option<UpdateBody>)
  {
    body.Some? && body.value.report.Some?
  }

  /** `result?.report || fallback`. */
  function Chosen(body: Option<UpdateBody>, fallback: Report): Report
  {
    if Carries(body) then body.value.report.value else fallback
  }

  /**
   * The common tail of the four transitions: on an OK response the entries
   * with this id are merged with the returned report, or with the locally
   * built fallback when there is none; otherwise nothing changes.
   */
  function Reconcile(c: Cache, id: string, reply: Http<UpdateBody>, fallback: Report): (c': Cache)
    ensures c'.contacts == c.contacts
    ensures !reply.Ok? ==> c' == c
    ensures |c'.reports| == |c.reports|
    ensures forall i :: 0 <= i < |c.reports| && c.reports[i].id != Some(id) ==> c'.reports[i] == c.reports[i]
    ensures reply.Ok? ==> forall i :: 0 <= i < |c.reports| && c.reports[i].id == Some(id) ==>
              c'.reports[i] == Merge(c.reports[i], Chosen(reply.body, fallback))
  {
    if reply.Ok? then c.(reports := MergeById(c.reports, id, Chosen(reply.body, fallback)))
    else c
  }

  /**
   * The PATCH body `approveReport` sends; `None` is an omitted `severity`,
   * for which the default parameter applies.
   */
  function ApproveRequest(severity: Option<string>, sentAt: string): (b: PatchBody)
    ensures b.status == Some(APPROVED) && b.severity == Some(severity.Or(CLIENT_DEFAULT_SEVERITY))
    ensures b.approvedAt == Some(sentAt) && b.missionStatus.None?
  {
    PatchBody(Some(APPROVED), Some(severity.Or(CLIENT_DEFAULT_SEVERITY)), None, Some(sentAt), None, None, None, None)
  }

  /**
   * The PATCH body `rejectReport` sends; `None` is an omitted `reason`,
   * for which the default parameter applies.
   */
  function RejectRequest(reason: Option<string>, sentAt: string): (b: PatchBody)
    ensures b.status == Some(REJECTED) && b.rejectionReason == Some(reason.Or(CLIENT_DEFAULT_REASON))
    ensures b.rejectedAt == Some(sentAt) && b.missionStatus.None?
  {
    PatchBody(Some(REJECTED), None, Some(reason.Or(CLIENT_DEFAULT_REASON)), None, Some(sentAt), None, None, None)
  }

  /** The PATCH body `acceptMission` sends. */
  function AcceptRequest(sentAt: string): (b: PatchBody)
    ensures b.missionStatus == Some(ACTIVE) && b.acceptedAt == Some(sentAt) && b.status.None?
  {
    PatchBody(None, None, None, None, None, Some(ACTIVE), Some(sentAt), None)
  }

  /** The PATCH body `completeMission` sends. */
  function CompleteRequest(sentAt: string): (b: PatchBody)
    ensures b.missionStatus == Some(COMPLETED) && b.completedAt == Some(sentAt) && b.status.None?
  {
    PatchBody(None, None, None, None, None, Some(COMPLETED), None, Some(sentAt))
  }

  /**
   * `approveReport`. Without a report in the reply, the entry gets the
   * approval keys from the client's own second clock reading `at`.
   */
  function ApproveReport(c: Cache, id: string, severity: Option<string>, at: string, reply: Http<UpdateBody>): (c': Cache)
    ensures !reply.Ok? ==> c' == c
    ensures |c'.reports| == |c.reports|
    ensures c'.contacts == c.contacts
    ensures forall i :: 0 <= i < |c.reports| && c.reports[i].id != Some(id) ==> c'.reports[i] == c.reports[i]
    ensures reply.Ok? && Carries(reply.body) ==>
              forall i :: 0 <= i < |c.reports| && c.reports[i].id == Some(id) ==>
                c'.reports[i] == Merge(c.reports[i], reply.body.value.report.value)
    ensures reply.Ok? && !Carries(reply.body) ==>
              forall i :: 0 <= i < |c.reports| && c.reports[i].id == Some(id) ==>
                c'.reports[i] == c.reports[i].(status := Some(APPROVED),
                                               severity := Some(severity.Or(CLIENT_DEFAULT_SEVERITY)),
                                               approvedAt := Some(at))
  {
    var fallback := Empty.(id := Some(id), status := Some(APPROVED),
                           severity := Some(severity.Or(CLIENT_DEFAULT_SEVERITY)), approvedAt := Some(at));
    Reconcile(c, id, reply, fallback)
  }

  /** `rejectReport`, whose default reason differs from the server's. */
  function RejectReport(c: Cache, id: string, reason: Option<string>, at: string, reply: Http<UpdateBody>): (c': Cache)
    ensures !reply.Ok? ==> c' == c
    ensures |c'.reports| == |c.reports|
    ensures c'.contacts == c.contacts
    ensures forall i :: 0 <= i < |c.reports| && c.reports[i].id != Some(id) ==> c'.reports[i] == c.reports[i]
    ensures reply.Ok? && Carries(reply.body) ==>
              forall i :: 0 <= i < |c.reports| && c.reports[i].id == Some(id) ==>
                c'.reports[i] == Merge(c.reports[i], reply.body.value.report.value)
    ensures reply.Ok? && !Carries(reply.body) ==>
              forall i :: 0 <= i < |c.reports| && c.reports[i].id == Some(id) ==>
                c'.reports[i] == c.reports[i].(status := Some(REJECTED),
                                               rejectionReason := Some(reason.Or(CLIENT_DEFAULT_REASON)),
                                               rejectedAt := Some(at))
  {
    var fallback := Empty.(id := Some(id), status := Some(REJECTED),
                           rejectionReason := Some(reason.Or(CLIENT_DEFAULT_REASON)), rejectedAt := Some(at));
    Reconcile(c, id, reply, fallback)
  }

  /** `acceptMission`. */
  function AcceptMission(c: Cache, id: string, at: string, reply: Http<UpdateBody>): (c': Cache)
    ensures !reply.Ok? ==> c' == c
    ensures |c'.reports| == |c.reports|
    ensures c'.contacts == c.contacts
    ensures forall i :: 0 <= i < |c.reports| && c.reports[i].id != Some(id) ==> c'.reports[i] == c.reports[i]
    ensures reply.Ok? && Carries(reply.body) ==>
              forall i :: 0 <= i < |c.reports| && c.reports[i].id == Some(id) ==>
                c'.reports[i] == Merge(c.reports[i], reply.body.value.report.value)
    ensures reply.Ok? && !Carries(reply.body) ==>
              forall i :: 0 <= i < |c.reports| && c.reports[i].id == Some(id) ==>
                c'.reports[i] == c.reports[i].(missionStatus := Some(ACTIVE), acceptedAt := Some(at))
  {
    var fallback := Empty.(id := Some(id), missionStatus := Some(ACTIVE), acceptedAt := Some(at));
    Reconcile(c, id, reply, fallback)
  }

  /** `completeMission`. */
  function CompleteMission(c: Cache, id: string, at: string, reply: Http<UpdateBody>): (c': Cache)
    ensures !reply.Ok? ==> c' == c
    ensures |c'.reports| == |c.reports|
    ensures c'.contacts == c.contacts
    ensures forall i :: 0 <= i < |c.reports| && c.reports[i].id != Some(id) ==> c'.reports[i] == c.reports[i]
    ensures reply.Ok? && Carries(reply.body) ==>
              forall i :: 0 <= i < |c.reports| && c.reports[i].id == Some(id) ==>
                c'.reports[i] == Merge(c.reports[i], reply.body.value.report.value)
    ensures reply.Ok? && !Carries(reply.body) ==>
              forall i :: 0 <= i < |c.reports| && c.reports[i].id == Some(id) ==>
                c'.reports[i] == c.reports[i].(missionStatus := Some(COMPLETED), completedAt := Some(at))
  {
    var fallback := Empty.(id := Some(id), missionStatus := Some(COMPLETED), completedAt := Some(at));
    Reconcile(c, id, reply, fallback)
  }

  /**
   * Whenever the merged report says the mission is completed, which the
   * fallback always does, a successful `completeMission` moves the entry
   * into the completed view and out of the active and approved views.
   */
  lemma CompletionMovesToCompleted(c: Cache, id: string, at: string, reply: Http<UpdateBody>)
    requires reply.Ok?
    requires !Carries(reply.body) || reply.body.value.report.value.missionStatus == Some(COMPLETED)
    ensures var c' := CompleteMission(c, id, at, reply);
      forall i :: 0 <= i < |c.reports| && c.reports[i].id == Some(id) ==>
        && c'.reports[i] in ViewOf(c'.reports, CompletedView)
        && c'.reports[i] !in ViewOf(c'.reports, ActiveView)
        && c'.reports[i] !in ViewOf(c'.reports, ApprovedView)
  {
    var c' := CompleteMission(c, id, at, reply);
    ViewMembers(c'.reports, CompletedView);
    ViewMembers(c'.reports, ActiveView);
    ViewMembers(c'.reports, ApprovedView);
  }

  /** The body `addContact` sends. */
  function ContactRequest(name: string, phone: string, relation: string): (b: Contact)
    ensures b.name == Some(name) && b.phone == Some(phone) && b.relation == Some(relation)
    ensures b.id.None? && b.isEmergency.None?
  {
    Contact(None, Some(name), Some(phone), Some(relation), None)
  }

  /**
   * `addContact` appends whatever JSON came back. It never looks at `ok`, so
   * an error body that parses is appended too; only a throw (network
   * failure, or a body that is not JSON) leaves the cache unchanged.
   */
  function AddContact(c: Cache, reply: Http<Contact>): (c': Cache)
    ensures c'.reports == c.reports
    ensures !reply.Thrown? && reply.body.Some? ==>
              |c'.contacts| == |c.contacts| + 1 && c'.contacts[|c.contacts|] == reply.body.value
              && c'.contacts[..|c.contacts|] == c.contacts
    ensures reply.Thrown? || reply.body.None? ==> c' == c
  {
    match reply
    case Thrown => c
    case Ok(body) => if body.Some? then c.(contacts := c.contacts + [body.value]) else c
    case NotOk(body) => if body.Some? then c.(contacts := c.contacts + [body.value]) else c
  }
}
