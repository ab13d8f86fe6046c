/**
 * The request handlers of backend/server.js that change the document:
 * submitting a report, patching a report by id, and adding a contact.
 * Each handler is "load the document, change it in memory, save it"; here a
 * handler is a function from the loaded document to the saved one. The
 * fresh id (`Date.now().toString()`), the creation time
 * (`toLocaleTimeString()`) and "now" (`toISOString()`) are parameters.
 */
module Server {
  import opened Nullish
  import opened Records

  const DEFAULT_SEVERITY: string := "High"
  const DEFAULT_REJECTION_REASON: string := "No reason provided"

  /** A created record and the document that now holds it (HTTP 201). */
  datatype Posted<T> = Posted(store: Store, created: T)

  /** The reply of PATCH: 200 with the updated report, or 404. */
  datatype PatchReply = Updated(report: Report) | NotFound

  /** The document after a PATCH request, and the reply sent. */
  datatype Handled = Handled(store: Store, reply: PatchReply)

  /**
   * `{...req.body, id, status: 'Pending', time}`: the server-assigned keys
   * override whatever the client sent, and every other key is passed
   * through verbatim (including a client-sent `missionStatus`).
   */
  function CreateReport(body: Report, freshId: string, time: string): (r: Report)
    ensures r.id == Some(freshId) && r.status == Some(PENDING) && r.time == Some(time)
    ensures r.(id := body.id, status := body.status, time := body.time) == body
  {
    body.(id := Some(freshId), status := Some(PENDING), time := Some(time))
  }

  /** POST /api/reports: the new report goes to the front of the list. */
  function SubmitReport(s: Store, body: Report, freshId: string, time: string): (p: Posted<Report>)
    ensures p.created == CreateReport(body, freshId, time)
    ensures |p.store.reports| == |s.reports| + 1
    ensures p.store.reports[0] == p.created && p.store.reports[1..] == s.reports
    ensures p.store.contacts == s.contacts
  {
    var created := CreateReport(body, freshId, time);
    Posted(s.(reports := [created] + s.reports), created)
  }

  /**
   * The update of one matching report by PATCH /api/reports/:id. No check
   * of the report's current state is made: any requested status or mission
   * status is written, and keys the request does not touch survive.
   */
  function ApplyPatch(r: Report, b: PatchBody, now: string): (u: Report)
    // keys the handler never writes
    ensures u.id == r.id && u.category == r.category && u.description == r.description
    ensures u.location == r.location && u.image == r.image
    ensures u.isEmergencySOS == r.isEmergencySOS && u.time == r.time
    // both axes: the requested value, or the existing one when omitted
    ensures u.status == (if b.status.Some? then b.status else r.status)
    ensures u.missionStatus == (if b.missionStatus.Some? then b.missionStatus else r.missionStatus)
    // approving always (re)writes severity and approvedAt
    ensures b.status == Some(APPROVED) ==>
              u.severity == Some(b.severity.Or(DEFAULT_SEVERITY)) && u.approvedAt == Some(b.approvedAt.Or(now))
    ensures b.status != Some(APPROVED) ==> u.severity == r.severity && u.approvedAt == r.approvedAt
    // rejecting always (re)writes the reason and rejectedAt
    ensures b.status == Some(REJECTED) ==>
              u.rejectionReason == Some(b.rejectionReason.Or(DEFAULT_REJECTION_REASON))
              && u.rejectedAt == Some(b.rejectedAt.Or(now))
    ensures b.status != Some(REJECTED) ==> u.rejectionReason == r.rejectionReason && u.rejectedAt == r.rejectedAt
    // accepting and completing a mission stamp their own time
    ensures b.missionStatus == Some(ACTIVE) ==> u.acceptedAt == Some(b.acceptedAt.Or(now))
    ensures b.missionStatus != Some(ACTIVE) ==> u.acceptedAt == r.acceptedAt
    ensures b.missionStatus == Some(COMPLETED) ==> u.completedAt == Some(b.completedAt.Or(now))
    ensures b.missionStatus != Some(COMPLETED) ==> u.completedAt == r.completedAt
  {
    var spread := r.(status := Spread(r.status, b.status),
                     missionStatus := Spread(r.missionStatus, b.missionStatus));
    var approved :=
      if b.status == Some(APPROVED) then
        spread.(severity := Some(b.severity.Or(DEFAULT_SEVERITY)), approvedAt := Some(b.approvedAt.Or(now)))
      else spread;
    var rejected :=
      if b.status == Some(REJECTED) then
        approved.(rejectionReason := Some(b.rejectionReason.Or(DEFAULT_REJECTION_REASON)),
                  rejectedAt := Some(b.rejectedAt.Or(now)))
      else approved;
    var accepted :=
      if b.missionStatus == Some(ACTIVE) then
        rejected.(missionStatus := Some(ACTIVE), acceptedAt := Some(b.acceptedAt.Or(now)))
      else rejected;
    if b.missionStatus == Some(COMPLETED) then
      accepted.(missionStatus := Some(COMPLETED), completedAt := Some(b.completedAt.Or(now)))
    else accepted
  }

  /** `reports.map(...)`: every report whose id matches is patched. */
  function PatchAll(rs: seq<Report>, id: string, b: PatchBody, now: string): (out: seq<Report>)
    ensures |out| == |rs|
    ensures forall i :: 0 <= i < |rs| && rs[i].id != Some(id) ==> out[i] == rs[i]
    ensures forall i :: 0 <= i < |rs| && rs[i].id == Some(id) ==> out[i] == ApplyPatch(rs[i], b, now)
  {
    if |rs| == 0 then []
    else
      var head := if rs[0].id == Some(id) then ApplyPatch(rs[0], b, now) else rs[0];
      [head] + PatchAll(rs[1..], id, b, now)
  }

  /** Index `k` holds the first report of `rs` with id `id`. */
  predicate FirstWithId(rs: seq<Report>, id: string, k: nat)
  {
    k < |rs| && rs[k].id == Some(id) && forall j :: 0 <= j < k ==> rs[j].id != Some(id)
  }

  /** `reports.find(r => r.id === id)`, as an index. */
  function IndexOfId(rs: seq<Report>, id: string): (k: Option<nat>)
    ensures k.None? <==> !HasId(rs, id)
    ensures k.Some? ==> FirstWithId(rs, id, k.value)
  {
    if |rs| == 0 then None
    else if rs[0].id == Some(id) then Some(0)
    else
      match IndexOfId(rs[1..], id)
      case None =>
        assert forall i :: 1 <= i < |rs| ==> rs[i] == rs[1..][i - 1];
        None
      case Some(k) =>
        assert forall j :: 1 <= j < k + 1 ==> rs[j] == rs[1..][j - 1];
        Some(k + 1)
  }

  /**
   * PATCH /api/reports/:id. An unknown id gives 404 and the document is not
   * written; otherwise every matching report is patched, the rest keep their
   * place and value, and the reply carries the first matching report.
   */
  function PatchReport(s: Store, id: string, b: PatchBody, now: string): (h: Handled)
    ensures h.reply.NotFound? <==> !HasId(s.reports, id)
    ensures h.reply.NotFound? ==> h.store == s
    ensures h.store.contacts == s.contacts
    ensures |h.store.reports| == |s.reports|
    ensures forall i :: 0 <= i < |s.reports| && s.reports[i].id != Some(id) ==> h.store.reports[i] == s.reports[i]
    ensures forall i :: 0 <= i < |s.reports| && s.reports[i].id == Some(id) ==>
              h.store.reports[i] == ApplyPatch(s.reports[i], b, now)
    ensures h.reply.Updated? ==>
              IndexOfId(s.reports, id).Some?
              && h.reply.report == ApplyPatch(s.reports[IndexOfId(s.reports, id).value], b, now)
  {
    var reports := PatchAll(s.reports, id, b, now);
    if IndexOfId(s.reports, id).None? then Handled(s, NotFound)
    else
      var k := IndexOfId(s.reports, id).value;
      assert FirstWithId(reports, id, k);
      var found := IndexOfId(reports, id).value;
      assert found == k;
      Handled(s.(reports := reports), Updated(reports[found]))
  }

  /**
   * `{...req.body, id, isEmergency: false}` appended by POST /api/contacts:
   * user-added contacts are never emergency contacts.
   */
  function AddContact(s: Store, body: Contact, freshId: string): (p: Posted<Contact>)
    ensures p.created.id == Some(freshId) && p.created.isEmergency == Some(false)
    ensures p.created.(id := body.id, isEmergency := body.isEmergency) == body
    ensures |p.store.contacts| == |s.contacts| + 1
    ensures p.store.contacts[|s.contacts|] == p.created && p.store.contacts[..|s.contacts|] == s.contacts
    ensures p.store.reports == s.reports
  {
    var created := body.(id := Some(freshId), isEmergency := Some(false));
    Posted(s.(contacts := s.contacts + [created]), created)
  }

  /** Re-sending the same PATCH body with the same "now" changes nothing more. */
  lemma PatchIdempotent(r: Report, b: PatchBody, now: string)
    ensures ApplyPatch(ApplyPatch(r, b, now), b, now) == ApplyPatch(r, b, now)
  {
  }

  /** The same, for the whole document and the reply. */
  lemma {:induction false} PatchReportIdempotent(s: Store, id: string, b: PatchBody, now: string)
    ensures PatchReport(PatchReport(s, id, b, now).store, id, b, now) == PatchReport(s, id, b, now)
  {
    var h1 := PatchReport(s, id, b, now);
    var h2 := PatchReport(h1.store, id, b, now);
    if h1.reply.Updated? {
      PatchAllIdempotent(s.reports, id, b, now);
      assert h2.store == h1.store;
      var k := IndexOfId(s.reports, id).value;
      SameIdsSameIndex(s.reports, h1.store.reports, id);
      assert h1.store.reports[k] == ApplyPatch(s.reports[k], b, now);
      PatchIdempotent(s.reports[k], b, now);
      assert h2.reply == Updated(ApplyPatch(h1.store.reports[k], b, now));
    }
  }

  /** Patching every matching report twice equals patching once. */
  lemma {:induction false} PatchAllIdempotent(rs: seq<Report>, id: string, b: PatchBody, now: string)
    ensures PatchAll(PatchAll(rs, id, b, now), id, b, now) == PatchAll(rs, id, b, now)
  {
    var once := PatchAll(rs, id, b, now);
    forall i | 0 <= i < |rs|
      ensures PatchAll(once, id, b, now)[i] == once[i]
    {
      if rs[i].id == Some(id) {
        PatchIdempotent(rs[i], b, now);
      }
    }
  }

  /** The first index with a given id depends on the ids alone. */
  lemma SameIdsSameIndex(a: seq<Report>, c: seq<Report>, id: string)
    requires |a| == |c| && forall i :: 0 <= i < |a| ==> a[i].id == c[i].id
    ensures IndexOfId(a, id) == IndexOfId(c, id)
  {
    var ka, kc := IndexOfId(a, id), IndexOfId(c, id);
    if ka.Some? {
      assert c[ka.value].id == Some(id);
    }
  }

  /**
   * The timestamps are not write-once: approving again without a timestamp
   * replaces an existing `approvedAt` with the new "now".
   */
  lemma ReapprovalOverwritesApprovedAt(r: Report, b: PatchBody, now: string)
    requires r.approvedAt.Some? && r.approvedAt != Some(now)
    requires b.status == Some(APPROVED) && b.approvedAt.None?
    ensures ApplyPatch(r, b, now).approvedAt == Some(now) != r.approvedAt
  {
  }

  /** A fresh id keeps report ids unique; a PATCH never changes an id. */
  lemma HandlersKeepIdsUnique(s: Store, body: Report, freshId: string, time: string,
                              id: string, b: PatchBody, now: string)
    requires UniqueIds(s.reports) && !HasId(s.reports, freshId)
    ensures UniqueIds(SubmitReport(s, body, freshId, time).store.reports)
    ensures UniqueIds(PatchReport(s, id, b, now).store.reports)
  {
    var rs := SubmitReport(s, body, freshId, time).store.reports;
    forall i, j | 0 <= i < |rs| && 0 <= j < |rs| && i != j
      ensures rs[i].id != rs[j].id
    {
      if i > 0 && j > 0 {
        assert rs[i] == s.reports[i - 1] && rs[j] == s.reports[j - 1];
      } else if i == 0 {
        assert rs[j] == s.reports[j - 1];
      } else {
        assert rs[i] == s.reports[i - 1];
      }
    }
  }
}
