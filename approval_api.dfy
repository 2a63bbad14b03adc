/**
 * The approval endpoints: the HTTP layer around the approval manager. Every
 * endpoint acts on behalf of the session named by the caller's token; a
 * request of another session is refused before anything changes, and the
 * manager's `KeyError` and `ValueError` become 400 responses.
 *
 * Authentication and rate limiting are not part of this model: the session
 * id is a parameter.
 */
module ApprovalApi {
  import opened Wrappers
  import opened Hitl

  /** An `HTTPException`: a status code and its detail text. */
  datatype HttpError = HttpError(status: int, detail: string)

  /** `ApprovalActionRequest`: the optional body of approve and reject. */
  datatype ActionBody = ActionBody(comment: Option<string>)

  /** `ApprovalListResponse`. */
  datatype ApprovalList = ApprovalList(requests: seq<ApprovalRequest>, total: int)

  const NotFoundDetail := "Approval request not found"
  const AccessDenied := "Access denied"

  /** `comment = body.comment if body else None`. */
  function CommentOf(body: Option<ActionBody>): (c: Option<string>)
    ensures body.None? ==> c.None?
    ensures body.Some? ==> c == body.value.comment
  {
    match body
    case None => None
    case Some(b) => b.comment
  }

  /**
   * The checks every single-request endpoint makes first: 404 for an
   * unknown id, then 403 for a request of another session.
   */
  function Authorize(m: ApprovalManager, requestId: string, sessionId: string): (r: Result<ApprovalRequest, HttpError>)
    reads m
    ensures requestId !in m.requests <==> r == Err(HttpError(404, NotFoundDetail))
    ensures r == Err(HttpError(403, AccessDenied)) <==>
      requestId in m.requests && m.requests[requestId].sessionId != sessionId
    ensures r.Ok? <==> requestId in m.requests && m.requests[requestId].sessionId == sessionId
    ensures r.Ok? ==> r.value == m.requests[requestId]
  {
    match m.GetRequest(requestId)
    case None => Err(HttpError(404, NotFoundDetail))
    case Some(req) =>
      if req.sessionId != sessionId then Err(HttpError(403, AccessDenied)) else Ok(req)
  }

  /** `GET /{request_id}`: the request, when it exists and belongs to the caller's session. */
  function GetApprovalRequest(m: ApprovalManager, requestId: string, sessionId: string): (r: Result<ApprovalRequest, HttpError>)
    reads m
    ensures r.Ok? ==> requestId in m.requests && r.value == m.requests[requestId] && r.value.sessionId == sessionId
    ensures r.Err? ==> r.error.status == 404 || r.error.status == 403
  {
    Authorize(m, requestId, sessionId)
  }

  /** The 400 a manager error is mapped to: its `str()` as the detail. */
  function BadRequest(e: ManagerError): (r: HttpError)
    ensures r.status == 400 && r.detail == e.Message()
  {
    HttpError(400, e.Message())
  }

  /**
   * `POST /{request_id}/approve` (with `status` Approved) and
   * `POST /{request_id}/reject` (with Rejected): after the 404 and 403
   * checks, which leave the manager untouched, the manager resolves the
   * request with the body's comment; its errors become 400.
   */
  method ActOnRequest(m: ApprovalManager, requestId: string, sessionId: string, body: Option<ActionBody>,
                      now: int, status: ApprovalStatus)
    returns (r: Result<ApprovalRequest, HttpError>)
    requires m.Valid() && (status == Approved || status == Rejected)
    modifies m
    ensures m.Valid() && m.order == old(m.order)
    ensures requestId !in old(m.requests) ==> r == Err(HttpError(404, NotFoundDetail))
    ensures requestId in old(m.requests) && old(m.requests)[requestId].sessionId != sessionId ==>
      r == Err(HttpError(403, AccessDenied))
    ensures r.Err? && r.error.status != 400 ==> m.requests == old(m.requests) && m.signalled == old(m.signalled)
    ensures requestId in old(m.requests) && old(m.requests)[requestId].sessionId == sessionId ==>
      var before := old(m.requests)[requestId];
      if before.status != Pending then
        r == Err(HttpError(400, NotPending(requestId, before.status).Message())) && m.requests == old(m.requests)
      else
        r == Ok(before.(status := status, resolvedAt := Some(now), reviewerComment := CommentOf(body))) &&
        m.requests == old(m.requests)[requestId := r.value]
    ensures forall k :: k in old(m.requests) && old(m.requests)[k].sessionId != sessionId ==>
      k in m.requests && m.requests[k] == old(m.requests)[k]
  {
    var auth := Authorize(m, requestId, sessionId);
    if auth.Err? {
      return Err(auth.error);
    }
    var updated := m.Resolve(requestId, CommentOf(body), now, status);
    match updated {
      case Ok(req) => r := Ok(req);
      case Err(e) => r := Err(BadRequest(e));
    }
  }

  /**
   * `GET /pending`: the caller's pending requests (an empty session id
   * filters nothing), with `total` their number; overdue requests are
   * expired on the way.
   */
  method ListPendingApprovals(m: ApprovalManager, sessionId: string, now: int) returns (r: ApprovalList)
    requires m.Valid()
    modifies m
    ensures m.Valid() && m.order == old(m.order) && m.signalled == old(m.signalled)
    ensures m.requests == ExpireOverdue(old(m.requests), m.order, now)
    ensures r.requests == PendingFor(old(m.requests), m.order, Some(sessionId), now)
    ensures r.total == |r.requests|
  {
    var pending := m.GetPendingRequests(Some(sessionId), now);
    r := ApprovalList(pending, |pending|);
  }

  /**
   * The list answers for the caller's session only: a reported request is
   * pending, not overdue, and (for a non-empty session id) of that session,
   * and every such request is reported.
   */
  lemma ListIsScoped(reqs: map<string, ApprovalRequest>, order: seq<string>, sessionId: string, now: int, q: ApprovalRequest)
    requires forall k :: k in order ==> k in reqs
    requires sessionId != ""
    ensures q in PendingFor(reqs, order, Some(sessionId), now) <==>
      q.sessionId == sessionId && q.status == Pending && !(q.expiresAt < now) &&
      exists k :: k in order && reqs[k] == q
  {
    PendingForExact(reqs, order, Some(sessionId), now, q);
  }
}
