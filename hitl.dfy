/**
 * Human-in-the-loop approval: an agent action that needs a person's consent
 * becomes an approval request that starts PENDING and ends APPROVED,
 * REJECTED or EXPIRED, never to leave that state again. The manager keeps
 * the requests in memory, wakes the coroutine waiting on a request when it
 * is resolved, and expires overdue requests lazily while listing and
 * eagerly in a sweep.
 *
 * The clock is the parameter `now` (an integer timestamp), request ids are
 * parameters standing for fresh UUIDs, and the waiter's event is the set
 * `signalled` of ids whose event has been set.
 */
module Hitl {
  import opened Wrappers
  import opened Json
  import PyRepr

  datatype ApprovalStatus = Pending | Approved | Rejected | Expired
  {
    /** The enum's string value. */
    function Value(): string
    {
      match this
      case Pending => "pending"
      case Approved => "approved"
      case Rejected => "rejected"
      case Expired => "expired"
    }
  }

  datatype ApprovalRequest = ApprovalRequest(
    id: string,
    sessionId: string,
    userId: Option<string>,
    actionType: string,
    actionDescription: string,
    actionData: map<string, Json>,
    status: ApprovalStatus,
    createdAt: int,
    resolvedAt: Option<int>,
    reviewerComment: Option<string>,
    expiresAt: int)

  /** Why a manager operation raised. */
  datatype ManagerError =
    | NotFound(requestId: string)                     // KeyError
    | NotPending(requestId: string, status: ApprovalStatus)  // ValueError
    | TimedOut(requestId: string)                     // TimeoutError
  {
    /** `str(e)` of the raised exception; a `KeyError` shows the `repr` of its message. */
    function Message(): string
    {
      match this
      case NotFound(id) => PyRepr.Repr(NotFoundText(id))
      case NotPending(id, st) => "Request '" + id + "' is already " + st.Value()
      case TimedOut(id) => "Approval request '" + id + "' expired"
    }
  }

  const NotFoundHead := "Approval request "
  const NotFoundTail := " not found"

  /** The message a missing request's `KeyError` carries. */
  function NotFoundText(id: string): string
  {
    NotFoundHead + "'" + id + "'" + NotFoundTail
  }

  /** The not-found text shown by `str` reads back, between its quotes, as the raised message. */
  lemma NotFoundReadsBack(id: string)
    ensures var m := NotFound(id).Message();
      |m| >= 2 && PyRepr.Unescape(m[1..|m| - 1]) == Some(NotFoundText(id))
  {
    var t := NotFoundText(id);
    PyRepr.UnescapeBody(t, PyRepr.Quote(t));
  }

  /** The fixed parts of the not-found text need no escape under either quote. */
  lemma NotFoundPartsPlain(q: char)
    requires q == '\'' || q == '"'
    ensures PyRepr.AllPlain(NotFoundHead, q) && PyRepr.AllPlain(NotFoundTail, q)
    ensures '"' !in NotFoundHead && '"' !in NotFoundTail
  {
  }

  /**
   * An id with nothing to escape and no `"` is shown between double quotes,
   * as the message holds `'`.
   */
  lemma NotFoundDoubleQuoted(id: string)
    requires PyRepr.AllPlain(id, '"')
    ensures NotFound(id).Message() == "\"" + NotFoundText(id) + "\""
  {
    NotFoundPartsPlain('"');
    assert '"' !in id;
    PyRepr.QuoteOfQuoted(NotFoundHead, id, NotFoundTail);
    PyRepr.BodyQuoted(NotFoundHead, id, NotFoundTail, '"');
  }

  /**
   * An id holding `"` (and nothing else to escape) makes `repr` fall back
   * to single quotes, escaping the message's own `'`.
   */
  lemma NotFoundSingleQuoted(id: string)
    requires '"' in id && PyRepr.AllPlain(id, '\'')
    ensures NotFound(id).Message() == "'" + (NotFoundHead + "\\'" + id + "\\'" + NotFoundTail) + "'"
  {
    var t := NotFoundText(id);
    NotFoundPartsPlain('\'');
    PyRepr.QuoteOfQuoted(NotFoundHead, id, NotFoundTail);
    assert PyRepr.Quote(t) == '\'';
    PyRepr.BodyQuoted(NotFoundHead, id, NotFoundTail, '\'');
    assert PyRepr.EscapeChar('\'', '\'') == "\\'";
    assert PyRepr.Body(t, '\'') == NotFoundHead + "\\'" + id + "\\'" + NotFoundTail;
    assert "'" == ['\''];
  }

  // ---------------------------------------------------------------- expiry and listing, on values

  /** A pending request whose deadline lies before `now`. */
  predicate Overdue(r: ApprovalRequest, now: int)
  {
    r.status == Pending && r.expiresAt < now
  }

  function Expire(r: ApprovalRequest, now: int): ApprovalRequest
  {
    r.(status := Expired, resolvedAt := Some(now))
  }

  /** The requests after every overdue one among `ids` has been expired at `now`, visiting `ids` in order. */
  function ExpireOverdue(reqs: map<string, ApprovalRequest>, ids: seq<string>, now: int): (r: map<string, ApprovalRequest>)
    requires forall k :: k in ids ==> k in reqs
    ensures r.Keys == reqs.Keys
  {
    if ids == [] then reqs
    else
      var m := ExpireOverdue(reqs, ids[..|ids| - 1], now);
      var k := ids[|ids| - 1];
      if Overdue(m[k], now) then m[k := Expire(m[k], now)] else m
  }

  /** The status moves only out of PENDING: a resolved request keeps its status. */
  ghost predicate KeepsResolved(before: map<string, ApprovalRequest>, after: map<string, ApprovalRequest>)
  {
    forall k :: k in before && before[k].status != Pending ==> k in after && after[k].status == before[k].status
  }

  /** `if session_id and req.session_id != session_id: continue`: an empty filter filters nothing. */
  predicate InSession(r: ApprovalRequest, session: Option<string>)
  {
    session.None? || session.value == "" || r.sessionId == session.value
  }

  /** A request `get_pending_requests` reports. */
  predicate Listed(r: ApprovalRequest, session: Option<string>, now: int)
  {
    r.status == Pending && !(r.expiresAt < now) && InSession(r, session)
  }

  /** The requests reported for `ids`, in that order. */
  function PendingFor(reqs: map<string, ApprovalRequest>, ids: seq<string>, session: Option<string>, now: int): (r: seq<ApprovalRequest>)
    requires forall k :: k in ids ==> k in reqs
    ensures |r| <= |ids|
  {
    if ids == [] then []
    else
      var k := ids[|ids| - 1];
      PendingFor(reqs, ids[..|ids| - 1], session, now) + (if Listed(reqs[k], session, now) then [reqs[k]] else [])
  }

  /** The ids an eager sweep expires, in order. */
  function OverdueIds(reqs: map<string, ApprovalRequest>, ids: seq<string>, now: int): (r: seq<string>)
    requires forall k :: k in ids ==> k in reqs
    ensures |r| <= |ids|
  {
    if ids == [] then []
    else
      var k := ids[|ids| - 1];
      OverdueIds(reqs, ids[..|ids| - 1], now) + (if Overdue(reqs[k], now) then [k] else [])
  }

  /** Exactly the listed requests are reported, and only once each. */
  lemma {:induction false} PendingForExact(reqs: map<string, ApprovalRequest>, ids: seq<string>, session: Option<string>, now: int, r: ApprovalRequest)
    requires forall k :: k in ids ==> k in reqs
    ensures r in PendingFor(reqs, ids, session, now) <==>
      Listed(r, session, now) && exists k :: k in ids && reqs[k] == r
  {
    if ids != [] {
      var n := |ids| - 1;
      PendingForExact(reqs, ids[..n], session, now, r);
      if exists k :: k in ids && reqs[k] == r {
        var k :| k in ids && reqs[k] == r;
        if k != ids[n] {
          assert k in ids[..n];
        }
      }
    }
  }

  /** The sweep counts each overdue request once: its ids are the overdue ones, without repeats. */
  lemma {:induction false} OverdueIdsExact(reqs: map<string, ApprovalRequest>, ids: seq<string>, now: int)
    requires forall k :: k in ids ==> k in reqs
    requires forall i, j :: 0 <= i < j < |ids| ==> ids[i] != ids[j]
    ensures forall k :: k in OverdueIds(reqs, ids, now) <==> k in ids && Overdue(reqs[k], now)
    ensures forall i, j :: 0 <= i < j < |OverdueIds(reqs, ids, now)| ==> OverdueIds(reqs, ids, now)[i] != OverdueIds(reqs, ids, now)[j]
  {
    if ids != [] {
      var n := |ids| - 1;
      OverdueIdsExact(reqs, ids[..n], now);
      assert ids[n] !in ids[..n];
      forall k | k in ids
        ensures k == ids[n] || k in ids[..n]
      {
        var i :| 0 <= i < |ids| && ids[i] == k;
        if i < n {
          assert ids[..n][i] == k;
        }
      }
    }
  }

  /**
   * Expiry changes exactly the overdue requests among `ids`: each becomes
   * EXPIRED, resolved at `now`; every other request is left as it was.
   */
  lemma {:induction false} ExpireOverdueAt(reqs: map<string, ApprovalRequest>, ids: seq<string>, now: int, k: string)
    requires forall j :: j in ids ==> j in reqs
    requires k in reqs
    ensures ExpireOverdue(reqs, ids, now)[k] == if k in ids && Overdue(reqs[k], now) then Expire(reqs[k], now) else reqs[k]
  {
    if ids != [] {
      var n := |ids| - 1;
      ExpireOverdueAt(reqs, ids[..n], now, k);
      assert k in ids <==> k in ids[..n] || k == ids[n] by {
        assert ids == ids[..n] + [ids[n]];
      }
    }
  }

  /** After expiry no request among `ids` is overdue, and resolved requests keep their status. */
  lemma ExpireOverdueEffect(reqs: map<string, ApprovalRequest>, ids: seq<string>, now: int)
    requires forall j :: j in ids ==> j in reqs
    ensures forall k :: k in ids ==> !Overdue(ExpireOverdue(reqs, ids, now)[k], now)
    ensures KeepsResolved(reqs, ExpireOverdue(reqs, ids, now))
  {
    forall k | k in reqs
      ensures ExpireOverdue(reqs, ids, now)[k] == if k in ids && Overdue(reqs[k], now) then Expire(reqs[k], now) else reqs[k]
    {
      ExpireOverdueAt(reqs, ids, now, k);
    }
  }

  /** One visit of either sweep: what the next id adds to each specification. */
  lemma SweepStep(reqs: map<string, ApprovalRequest>, ids: seq<string>, i: nat, session: Option<string>, now: int)
    requires forall k :: k in ids ==> k in reqs
    requires forall a, b :: 0 <= a < b < |ids| ==> ids[a] != ids[b]
    requires i < |ids|
    ensures ExpireOverdue(reqs, ids[..i], now)[ids[i]] == reqs[ids[i]]
    ensures ExpireOverdue(reqs, ids[..i + 1], now) ==
      var m := ExpireOverdue(reqs, ids[..i], now);
      if Overdue(m[ids[i]], now) then m[ids[i] := Expire(m[ids[i]], now)] else m
    ensures PendingFor(reqs, ids[..i + 1], session, now) ==
      PendingFor(reqs, ids[..i], session, now) + (if Listed(reqs[ids[i]], session, now) then [reqs[ids[i]]] else [])
    ensures OverdueIds(reqs, ids[..i + 1], now) ==
      OverdueIds(reqs, ids[..i], now) + (if Overdue(reqs[ids[i]], now) then [ids[i]] else [])
  {
    var k := ids[i];
    assert ids[..i + 1][..i] == ids[..i];
    assert k !in ids[..i];
    ExpireOverdueAt(reqs, ids[..i], now, k);
  }

  /**
   * The manager's bookkeeping: `order` lists each request once, every
   * request has an event, each is filed under its own id, and an approved
   * or rejected request has had its event set.
   */
  ghost predicate ManagerInv(requests: map<string, ApprovalRequest>, order: seq<string>, events: set<string>, signalled: set<string>)
  {
    (forall k :: k in requests <==> k in order) &&
    (forall i, j :: 0 <= i < j < |order| ==> order[i] != order[j]) &&
    events == requests.Keys && signalled <= events &&
    (forall k :: k in requests ==> requests[k].id == k) &&
    (forall k :: k in requests && requests[k].status in {Approved, Rejected} ==> k in signalled)
  }

  /** Expiring overdue requests, and setting more events, keeps the bookkeeping. */
  lemma ExpireKeepsInv(requests: map<string, ApprovalRequest>, order: seq<string>, events: set<string>,
                       signalled: set<string>, signalled': set<string>, now: int)
    requires ManagerInv(requests, order, events, signalled)
    requires signalled <= signalled' <= events
    ensures ManagerInv(ExpireOverdue(requests, order, now), order, events, signalled')
  {
    forall k | k in requests
      ensures ExpireOverdue(requests, order, now)[k] == if k in order && Overdue(requests[k], now) then Expire(requests[k], now) else requests[k]
    {
      ExpireOverdueAt(requests, order, now, k);
    }
  }

  // ---------------------------------------------------------------- the manager

  class ApprovalManager {
    var requests: map<string, ApprovalRequest>
    /** The insertion order of `requests`, which is the order Python iterates it in. */
    var order: seq<string>
    /** The ids that have an event. */
    var events: set<string>
    /** The ids whose event is set. */
    var signalled: set<string>

    ghost predicate Valid()
      reads this
    {
      ManagerInv(requests, order, events, signalled)
    }

    constructor ()
      ensures Valid() && requests == map[] && order == [] && signalled == {}
    {
      requests := map[];
      order := [];
      events := {};
      signalled := {};
    }

    /**
     * `create_request`: files a new PENDING request under the fresh id, with
     * no action data meaning `{}`, expiring `timeout` after `now`, and gives
     * it an unset event.
     */
    method CreateRequest(id: string, sessionId: string, actionType: string, actionDescription: string,
                         actionData: Option<map<string, Json>>, userId: Option<string>, timeout: int, now: int)
      returns (r: ApprovalRequest)
      requires Valid() && id !in requests
      modifies this
      ensures Valid()
      ensures r == ApprovalRequest(id, sessionId, userId, actionType, actionDescription, actionData.GetOr(map[]),
                                   Pending, now, None, None, now + timeout)
      ensures requests == old(requests)[id := r] && order == old(order) + [id] && signalled == old(signalled)
    {
      r := ApprovalRequest(id, sessionId, userId, actionType, actionDescription, actionData.GetOr(map[]),
                           Pending, now, None, None, now + timeout);
      requests := requests[id := r];
      order := order + [id];
      events := events + {id};
    }

    /** `get_request`. */
    function GetRequest(id: string): (r: Option<ApprovalRequest>)
      reads this
      ensures r.Some? <==> id in requests
      ensures r.Some? ==> r.value == requests[id]
    {
      if id in requests then Some(requests[id]) else None
    }

    /**
     * `approve` (with `status` Approved) and `reject` (with Rejected): an
     * unknown id and a request that is no longer pending raise and change
     * nothing; otherwise the request is resolved at `now` with the comment
     * and its waiter is woken.
     */
    method Resolve(id: string, comment: Option<string>, now: int, status: ApprovalStatus) returns (r: Result<ApprovalRequest, ManagerError>)
      requires Valid() && (status == Approved || status == Rejected)
      modifies this
      ensures Valid() && KeepsResolved(old(requests), requests) && order == old(order)
      ensures id !in old(requests) ==> r == Err(NotFound(id))
      ensures id in old(requests) && old(requests)[id].status != Pending ==> r == Err(NotPending(id, old(requests)[id].status))
      ensures r.Err? ==> requests == old(requests) && signalled == old(signalled)
      ensures id in old(requests) && old(requests)[id].status == Pending ==>
        r == Ok(old(requests)[id].(status := status, resolvedAt := Some(now), reviewerComment := comment)) &&
        requests == old(requests)[id := r.value] && signalled == old(signalled) + {id}
    {
      if id !in requests {
        return Err(NotFound(id));
      }
      var request := requests[id];
      if request.status != Pending {
        return Err(NotPending(id, request.status));
      }
      request := request.(status := status, resolvedAt := Some(now), reviewerComment := comment);
      requests := requests[id := request];
      if id in events {
        signalled := signalled + {id};
      }
      r := Ok(request);
    }

    /**
     * `wait_for_approval`, at the moment the wait ends: an id without an
     * event raises; if the event has been set the stored request is
     * returned; otherwise the wait timed out, the request is marked expired
     * at `now`, and the call raises.
     */
    method WaitForApproval(id: string, now: int) returns (r: Result<ApprovalRequest, ManagerError>)
      requires Valid()
      modifies this
      ensures Valid() && KeepsResolved(old(requests), requests) && order == old(order) && signalled == old(signalled)
      ensures id !in old(events) ==> r == Err(NotFound(id)) && requests == old(requests)
      ensures id in old(signalled) ==> r == Ok(old(requests)[id]) && requests == old(requests)
      ensures id in old(events) && id !in old(signalled) ==>
        r == Err(TimedOut(id)) && requests == old(requests)[id := Expire(old(requests)[id], now)]
    {
      if id !in events {
        return Err(NotFound(id));
      }
      if id in signalled {
        return Ok(requests[id]);
      }
      requests := requests[id := Expire(requests[id], now)];
      r := Err(TimedOut(id));
    }

    /**
     * `get_pending_requests`: walks the requests in insertion order,
     * expiring the overdue pending ones and reporting the other pending ones
     * of the session.
     */
    method GetPendingRequests(session: Option<string>, now: int) returns (pending: seq<ApprovalRequest>)
      requires Valid()
      modifies this
      ensures Valid() && order == old(order) && signalled == old(signalled)
      ensures requests == ExpireOverdue(old(requests), order, now)
      ensures pending == PendingFor(old(requests), order, session, now)
    {
      var after;
      after, pending := SweepPending(requests, order, session, now);
      ExpireKeepsInv(requests, order, events, signalled, signalled, now);
      requests := after;
    }

    /**
     * `cleanup_expired`: expires every overdue pending request at `now`,
     * wakes their waiters, and returns how many there were.
     */
    method CleanupExpired(now: int) returns (count: nat)
      requires Valid()
      modifies this
      ensures Valid() && order == old(order)
      ensures requests == ExpireOverdue(old(requests), order, now)
      ensures count == |OverdueIds(old(requests), order, now)|
      ensures signalled == old(signalled) + set k | k in OverdueIds(old(requests), order, now)
    {
      var after, expiredIds := SweepOverdue(requests, order, now);
      OverdueIdsExact(requests, order, now);
      var signalled' := SignalAll(signalled, events, expiredIds);
      ExpireKeepsInv(requests, order, events, signalled, signalled', now);
      requests, signalled := after, signalled';
      count := |expiredIds|;
    }
  }

  /** The loop of `get_pending_requests`, over the requests as values. */
  method SweepPending(reqs: map<string, ApprovalRequest>, ids: seq<string>, session: Option<string>, now: int)
    returns (after: map<string, ApprovalRequest>, pending: seq<ApprovalRequest>)
    requires forall k :: k in ids ==> k in reqs
    requires forall i, j :: 0 <= i < j < |ids| ==> ids[i] != ids[j]
    ensures after == ExpireOverdue(reqs, ids, now)
    ensures pending == PendingFor(reqs, ids, session, now)
  {
    after, pending := reqs, [];
    var i := 0;
    while i < |ids|
      invariant 0 <= i <= |ids|
      invariant after == ExpireOverdue(reqs, ids[..i], now)
      invariant pending == PendingFor(reqs, ids[..i], session, now)
    {
      var k := ids[i];
      SweepStep(reqs, ids, i, session, now);
      var req := after[k];
      if req.status == Pending {
        if req.expiresAt < now {
          after := after[k := Expire(req, now)];
        } else if session.None? || session.value == "" || req.sessionId == session.value {
          pending := pending + [req];
        }
      }
      i := i + 1;
    }
    assert ids[..i] == ids;
  }

  /** The first loop of `cleanup_expired`, over the requests as values. */
  method SweepOverdue(reqs: map<string, ApprovalRequest>, ids: seq<string>, now: int)
    returns (after: map<string, ApprovalRequest>, expiredIds: seq<string>)
    requires forall k :: k in ids ==> k in reqs
    requires forall i, j :: 0 <= i < j < |ids| ==> ids[i] != ids[j]
    ensures after == ExpireOverdue(reqs, ids, now)
    ensures expiredIds == OverdueIds(reqs, ids, now)
  {
    after, expiredIds := reqs, [];
    var i := 0;
    while i < |ids|
      invariant 0 <= i <= |ids|
      invariant after == ExpireOverdue(reqs, ids[..i], now)
      invariant expiredIds == OverdueIds(reqs, ids[..i], now)
    {
      var k := ids[i];
      SweepStep(reqs, ids, i, None, now);
      var req := after[k];
      if req.status == Pending && req.expiresAt < now {
        after := after[k := Expire(req, now)];
        expiredIds := expiredIds + [k];
      }
      i := i + 1;
    }
    assert ids[..i] == ids;
  }

  /** The second loop of `cleanup_expired`: sets the event of each id that has one. */
  method SignalAll(signalled: set<string>, events: set<string>, ids: seq<string>) returns (r: set<string>)
    ensures r == signalled + set k | k in ids && k in events
  {
    r := signalled;
    var j := 0;
    while j < |ids|
      invariant 0 <= j <= |ids|
      invariant r == signalled + set k | k in ids[..j] && k in events
    {
      assert ids[..j + 1] == ids[..j] + [ids[j]];
      if ids[j] in events {
        r := r + {ids[j]};
      }
      j := j + 1;
    }
    assert ids[..j] == ids;
  }
}
