/**
 * The report lifecycle across both halves: the four named transitions as
 * the client requests them, the intended state machine (which the server
 * does not enforce), and what a client cache that agreed with
 * the server's document looks like after one request/response round trip.
 * No other writer runs between the server's read and write here; the
 * read-modify-write race between concurrent requests is not modelled.
 */
module Lifecycle {
  import opened Nullish
  import opened Records
  import opened Server
  import opened Views
  import opened Client

  /** A transition an actor asks for, with the arguments the client passes. */
  datatype Action =
    | Approve(severity: Option<string>)
    | Reject(reason: Option<string>)
    | Accept
    | Complete

  /** The PATCH body the client sends for an action, stamped with `sentAt`. */
  function Request(a: Action, sentAt: string): PatchBody
  {
    match a
    case Approve(severity) => ApproveRequest(severity, sentAt)
    case Reject(reason) => RejectRequest(reason, sentAt)
    case Accept => AcceptRequest(sentAt)
    case Complete => CompleteRequest(sentAt)
  }

  /** The client action that handles the reply, with fallback time `at`. */
  function Perform(c: Cache, id: string, a: Action, at: string, reply: Http<UpdateBody>): (c': Cache)
    ensures |c'.reports| == |c.reports|
  {
    match a
    case Approve(severity) => ApproveReport(c, id, severity, at, reply)
    case Reject(reason) => RejectReport(c, id, reason, at, reply)
    case Accept => AcceptMission(c, id, at, reply)
    case Complete => CompleteMission(c, id, at, reply)
  }

  /**
   * The intended transition table: approve and reject a pending report,
   * accept a mission on an approved report without one, complete an active
   * mission.
   */
  predicate Permitted(r: Report, a: Action)
  {
    match a
    case Approve(_) => r.status == Some(PENDING)
    case Reject(_) => r.status == Some(PENDING)
    case Accept =>
      r.status == Some(APPROVED) && r.missionStatus != Some(ACTIVE) && r.missionStatus != Some(COMPLETED)
    case Complete => r.status == Some(APPROVED) && r.missionStatus == Some(ACTIVE)
  }

  /**
   * The server applies every client transition whatever the report's
   * current state, and records the client's timestamp rather than its own
   * "now"; the status axis moves only for approve and reject, the mission
   * axis only for accept and complete.
   */
  lemma TransitionsIgnoreState(r: Report, a: Action, sentAt: string, now: string)
    ensures var u := ApplyPatch(r, Request(a, sentAt), now);
      match a
      case Approve(severity) =>
        && u.status == Some(APPROVED) && u.severity == Some(severity.Or(CLIENT_DEFAULT_SEVERITY))
        && u.approvedAt == Some(sentAt) && u.missionStatus == r.missionStatus
      case Reject(reason) =>
        && u.status == Some(REJECTED) && u.rejectionReason == Some(reason.Or(CLIENT_DEFAULT_REASON))
        && u.rejectedAt == Some(sentAt) && u.missionStatus == r.missionStatus
      case Accept =>
        u.missionStatus == Some(ACTIVE) && u.acceptedAt == Some(sentAt) && u.status == r.status
      case Complete =>
        u.missionStatus == Some(COMPLETED) && u.completedAt == Some(sentAt) && u.status == r.status
  {
  }

  /**
   * For a caller that omits the reason or passes a string, a rejection
   * requested by the client always carries a reason, so the server's
   * default reason is never stored for it unless the caller chose that very
   * text; the two defaults differ.
   */
  lemma ClientRejectionReasonWins(r: Report, reason: Option<string>, sentAt: string, now: string)
    ensures CLIENT_DEFAULT_REASON != DEFAULT_REJECTION_REASON
    ensures ApplyPatch(r, RejectRequest(reason, sentAt), now).rejectionReason
            == Some(reason.Or(CLIENT_DEFAULT_REASON))
    ensures ApplyPatch(r, RejectRequest(reason, sentAt), now).rejectionReason == Some(DEFAULT_REJECTION_REASON)
            <==> reason == Some(DEFAULT_REJECTION_REASON)
  {
    assert CLIENT_DEFAULT_REASON[0] != DEFAULT_REJECTION_REASON[0];
  }

  /** Transitions the state machine permits keep a report well formed. */
  lemma PermittedKeepsWellFormed(r: Report, a: Action, sentAt: string, now: string)
    requires WellFormed(r) && Permitted(r, a)
    ensures WellFormed(ApplyPatch(r, Request(a, sentAt), now))
  {
  }

  /**
   * The server's permissiveness breaks the partition of the views: accepting
   * or completing a mission on a pending or rejected report, which the
   * server allows, puts the report in two views at once.
   */
  lemma UnpermittedMissionCountedTwice(r: Report, a: Action, sentAt: string, now: string)
    requires r.status == Some(PENDING) || r.status == Some(REJECTED)
    requires a == Accept || a == Complete
    ensures !Permitted(r, a)
    ensures Membership(ApplyPatch(r, Request(a, sentAt), now)) == 2
  {
    MembershipCases(ApplyPatch(r, Request(a, sentAt), now));
  }

  /**
   * A submitted report is well formed exactly when the client did not send
   * a mission status of its own: the server forces `Pending` but passes any
   * `missionStatus` through.
   */
  lemma SubmittedWellFormed(body: Report, freshId: string, time: string)
    ensures WellFormed(CreateReport(body, freshId, time))
            <==> body.missionStatus != Some(ACTIVE) && body.missionStatus != Some(COMPLETED)
  {
  }

  /** A patch only ever adds or rewrites keys, it never drops one. */
  lemma PatchExtends(r: Report, b: PatchBody, now: string)
    ensures Extends(ApplyPatch(r, b, now), r)
  {
    var u := ApplyPatch(r, b, now);
    assert Covers(u.severity, r.severity) && Covers(u.approvedAt, r.approvedAt);
    assert Covers(u.rejectionReason, r.rejectionReason) && Covers(u.rejectedAt, r.rejectedAt);
    assert Covers(u.acceptedAt, r.acceptedAt) && Covers(u.completedAt, r.completedAt);
  }

  /**
   * Submitting through the client into a cache that agreed with the
   * document keeps them equal; the new report heads the list, and the
   * pending view becomes the new report followed by the old pending view.
   */
  lemma SubmitRoundTrip(s: Store, c: Cache, body: Report, freshId: string, time: string)
    requires c.reports == s.reports
    ensures var p := SubmitReport(s, body, freshId, time);
      var c' := AddReport(c, Ok(Some(p.created)));
      && c'.reports == p.store.reports
      && c'.reports[0].id == Some(freshId) && c'.reports[0].status == Some(PENDING)
      && ViewOf(c'.reports, PendingView) == [p.created] + ViewOf(s.reports, PendingView)
  {
    var p := SubmitReport(s, body, freshId, time);
    assert p.store.reports == [p.created] + s.reports;
    ViewOfAppend([p.created], s.reports, PendingView);
    ViewOfHead([p.created], PendingView);
    assert [p.created][1..] == [];
  }

  /** The reply a PATCH handler sends, as the client receives it. */
  function Reply(h: Handled): Http<UpdateBody>
  {
    match h.reply
    case Updated(report) => Ok(Some(UpdateBody(Some(report))))
    case NotFound => NotOk(Some(UpdateBody(None)))
  }

  /**
   * A transition requested by a client whose cache agreed with the document
   * leaves the two equal again, provided report ids are unique: on 200 the
   * merge by id reproduces the server's update, on 404 neither side changes.
   */
  lemma {:induction false} TransitionRoundTrip(s: Store, c: Cache, id: string, a: Action,
                                               sentAt: string, now: string, at: string)
    requires c.reports == s.reports && UniqueIds(s.reports)
    ensures var h := PatchReport(s, id, Request(a, sentAt), now);
      && Perform(c, id, a, at, Reply(h)).reports == h.store.reports
      && (h.reply.NotFound? ==> h.store == s && Perform(c, id, a, at, Reply(h)) == c)
  {
    var b := Request(a, sentAt);
    var h := PatchReport(s, id, b, now);
    var c' := Perform(c, id, a, at, Reply(h));
    if h.reply.Updated? {
      var k := IndexOfId(s.reports, id).value;
      assert Reply(h) == Ok(Some(UpdateBody(Some(h.reply.report))));
      forall i | 0 <= i < |s.reports|
        ensures c'.reports[i] == h.store.reports[i]
      {
        if s.reports[i].id == Some(id) {
          assert i == k;
          PatchExtends(s.reports[k], b, now);
          UpdatedEntry(c, id, a, at, h.reply.report, k);
        } else {
          UntouchedEntry(c, id, a, at, Reply(h), i);
        }
      }
      assert c'.reports == h.store.reports;
    }
  }

  /** An OK reply carrying a report that keeps every key of the entry replaces the entry by it. */
  lemma UpdatedEntry(c: Cache, id: string, a: Action, at: string, u: Report, i: nat)
    requires i < |c.reports| && c.reports[i].id == Some(id) && Extends(u, c.reports[i])
    ensures Perform(c, id, a, at, Ok(Some(UpdateBody(Some(u))))).reports[i] == u
  {
    MergeYieldsOver(c.reports[i], u);
  }

  /** Entries with another id are never touched by a transition. */
  lemma UntouchedEntry(c: Cache, id: string, a: Action, at: string, reply: Http<UpdateBody>, i: nat)
    requires i < |c.reports| && c.reports[i].id != Some(id)
    ensures Perform(c, id, a, at, reply).reports[i] == c.reports[i]
  {
  }

  /** A report with the timestamp key of action `a` set to `at`. */
  function Stamp(r: Report, a: Action, at: string): Report
  {
    match a
    case Approve(_) => r.(approvedAt := Some(at))
    case Reject(_) => r.(rejectedAt := Some(at))
    case Accept => r.(acceptedAt := Some(at))
    case Complete => r.(completedAt := Some(at))
  }

  /**
   * When an OK reply carries no report, the client's fallback merge agrees
   * with what the server stored on every key but the transition's own
   * timestamp, which comes from the client's second clock reading `at`
   * instead of the `sentAt` the server stored.
   */
  lemma {:induction false} FallbackMatchesServer(s: Store, c: Cache, id: string, a: Action,
                                                 sentAt: string, now: string, at: string)
    requires c.reports == s.reports
    ensures var h := PatchReport(s, id, Request(a, sentAt), now);
      var c' := Perform(c, id, a, at, Ok(None));
      forall i :: 0 <= i < |s.reports| ==>
        && (s.reports[i].id == Some(id) ==> c'.reports[i] == Stamp(h.store.reports[i], a, at))
        && (s.reports[i].id != Some(id) ==> c'.reports[i] == h.store.reports[i])
  {
    var h := PatchReport(s, id, Request(a, sentAt), now);
    forall i | 0 <= i < |s.reports| && s.reports[i].id == Some(id)
      ensures Perform(c, id, a, at, Ok(None)).reports[i] == Stamp(h.store.reports[i], a, at)
    {
      FallbackEntry(c, id, a, sentAt, now, at, i);
    }
  }

  /** The fallback merge of one matching entry, action by action. */
  lemma FallbackEntry(c: Cache, id: string, a: Action, sentAt: string, now: string, at: string, i: nat)
    requires i < |c.reports| && c.reports[i].id == Some(id)
    ensures Perform(c, id, a, at, Ok(None)).reports[i]
            == Stamp(ApplyPatch(c.reports[i], Request(a, sentAt), now), a, at)
  {
    TransitionsIgnoreState(c.reports[i], a, sentAt, now);
  }

  /**
   * Adding a contact through the client into a cache that agreed with the
   * document keeps them equal; the stored contact is never an emergency one.
   */
  lemma ContactRoundTrip(s: Store, c: Cache, name: string, phone: string, relation: string, freshId: string)
    requires c.contacts == s.contacts
    ensures var p := Server.AddContact(s, ContactRequest(name, phone, relation), freshId);
      var c' := Client.AddContact(c, Ok(Some(p.created)));
      && c'.contacts == p.store.contacts
      && c'.contacts[|c.contacts|].isEmergency == Some(false)
      && c'.contacts[|c.contacts|].name == Some(name)
  {
    var p := Server.AddContact(s, ContactRequest(name, phone, relation), freshId);
    assert p.store.contacts == s.contacts + [p.created];
  }
}
