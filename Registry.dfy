/**
 The relay's session registry: the table from push token to the last record
 stored for it, the two endpoints that change it, the health count, and one
 pass of the periodic broadcast over it.
 */
module Registry {
  import opened TrainState
  import opened Apns

  datatype Option<T> = None | Some(value: T)

  /** A request that changes the registry: an update or an end of a live activity. */
  datatype Request = UpdateRequest(u: TrainUpdate) | EndRequest(u: TrainUpdate)

  /** One send attempt of a broadcast pass: where it went, what it carried, what came back. */
  datatype Attempt = Attempt(token: string, payload: Payload, response: Response)

  /** The health report. */
  datatype Health = Health(status: string, timestamp: string, activeActivities: nat)

  /** The effect of one request on the table. */
  function Apply(m: map<string, Record>, req: Request): (r: map<string, Record>)
    ensures r.Keys == if req.UpdateRequest? then m.Keys + {req.u.pushToken} else m.Keys - {req.u.pushToken}
    ensures req.UpdateRequest? ==> r[req.u.pushToken] == StoredRecord(req.u)
    ensures forall t :: t in m && t != req.u.pushToken ==> r[t] == m[t]
  {
    match req
    case UpdateRequest(u) => m[u.pushToken := StoredRecord(u)]
    case EndRequest(u) => if u.pushToken in m then m - {u.pushToken} else m
  }

  /** The table after a history of requests, starting from the empty one. */
  function Replay(reqs: seq<Request>): map<string, Record>
  {
    if reqs == [] then map[] else Apply(Replay(reqs[..|reqs| - 1]), reqs[|reqs| - 1])
  }

  /** The position of the last request in the history that names token `t`. */
  function LastRequestFor(reqs: seq<Request>, t: string): (r: Option<nat>)
    ensures r.Some? ==> r.value < |reqs| && reqs[r.value].u.pushToken == t
    ensures r.Some? ==> forall j :: r.value < j < |reqs| ==> reqs[j].u.pushToken != t
    ensures r.None? ==> forall j :: 0 <= j < |reqs| ==> reqs[j].u.pushToken != t
  {
    if reqs == [] then None
    else if reqs[|reqs| - 1].u.pushToken == t then Some(|reqs| - 1)
    else LastRequestFor(reqs[..|reqs| - 1], t)
  }

  /** Token `t` is live when the last request naming it was an update. */
  predicate IsLive(reqs: seq<Request>, t: string)
  {
    var last := LastRequestFor(reqs, t);
    last.Some? && reqs[last.value].UpdateRequest?
  }

  /** The tokens whose last request was an update. */
  function LiveTokens(reqs: seq<Request>): set<string>
  {
    set i | 0 <= i < |reqs| && IsLive(reqs, reqs[i].u.pushToken) :: reqs[i].u.pushToken
  }

  /** Membership and value of one token after one request. */
  lemma ApplyAt(m: map<string, Record>, req: Request, t: string)
    ensures t in Apply(m, req) <==>
              if req.u.pushToken == t then req.UpdateRequest? else t in m
    ensures t in Apply(m, req) && req.u.pushToken == t ==> Apply(m, req)[t] == StoredRecord(req.u)
    ensures t in Apply(m, req) && req.u.pushToken != t ==> Apply(m, req)[t] == m[t]
  {
  }

  /**
   Last write wins: a token is in the table exactly when the last request
   naming it was an update, and then it maps to that update's stored record.
   */
  lemma {:induction false} ReplayLastWriteWins(reqs: seq<Request>, t: string)
    ensures t in Replay(reqs) <==> IsLive(reqs, t)
    ensures t in Replay(reqs) ==> Replay(reqs)[t] == StoredRecord(reqs[LastRequestFor(reqs, t).value].u)
  {
    if reqs != [] {
      var init := reqs[..|reqs| - 1];
      ReplayLastWriteWins(init, t);
      ApplyAt(Replay(init), reqs[|reqs| - 1], t);
      if reqs[|reqs| - 1].u.pushToken != t {
        assert LastRequestFor(reqs, t) == LastRequestFor(init, t);
        if LastRequestFor(init, t).Some? {
          assert reqs[LastRequestFor(init, t).value] == init[LastRequestFor(init, t).value];
        }
      }
    }
  }

  /** The health count equals the number of tokens whose last request was an update. */
  lemma {:induction false} ReplayCountsLiveTokens(reqs: seq<Request>)
    ensures Replay(reqs).Keys == LiveTokens(reqs)
    ensures |Replay(reqs)| == |LiveTokens(reqs)|
  {
    forall t | t in Replay(reqs) ensures t in LiveTokens(reqs) {
      ReplayLastWriteWins(reqs, t);
      var i := LastRequestFor(reqs, t).value;
      assert reqs[i].u.pushToken == t;
    }
    forall t | t in LiveTokens(reqs) ensures t in Replay(reqs) {
      ReplayLastWriteWins(reqs, t);
    }
  }

  /** The relay's state: the table of active live activities. */
  class Server {
    /** Push token to the record last stored for it. */
    var activities: map<string, Record>
    /** The requests that shaped the table, oldest first. */
    ghost var history: seq<Request>

    ghost predicate Valid()
      reads this
    {
      activities == Replay(history)
    }

    constructor ()
      ensures Valid() && history == [] && activities == map[]
    {
      activities := map[];
      history := [];
    }

    /**
     Stores the request's converted record under its push token, then tries
     to push it. The record stays stored whatever the push's outcome.
     */
    method UpdateTrainActivity(u: TrainUpdate, now: int, send: (string, Payload) -> ApnsOutcome)
      returns (sent: Payload, response: Response)
      requires Valid()
      modifies this
      ensures Valid() && history == old(history) + [UpdateRequest(u)]
      ensures activities == old(activities)[u.pushToken := StoredRecord(u)]
      ensures forall t :: t != u.pushToken ==>
                (t in activities <==> t in old(activities)) &&
                (t in activities ==> activities[t] == old(activities)[t])
      ensures sent == UpdatePayload(StoredRecord(u), now)
      ensures response == SendResult(send(u.pushToken, sent))
    {
      var state := NormaliseTimestamps(ContentState(u));
      assert state == StoredRecord(u);
      activities := activities[u.pushToken := state];
      history := history + [UpdateRequest(u)];
      assert history[..|history| - 1] == old(history);
      assert activities == Apply(old(activities), UpdateRequest(u));
      sent := UpdatePayload(state, now);
      response := SendResult(send(u.pushToken, sent));
    }

    /**
     Removes the request's push token if it is registered, then pushes an
     "end" event carrying the record as received.
     */
    method EndTrainActivity(u: TrainUpdate, now: int, send: (string, Payload) -> ApnsOutcome)
      returns (sent: Payload, response: Response)
      requires Valid()
      modifies this
      ensures Valid() && history == old(history) + [EndRequest(u)]
      ensures activities == old(activities) - {u.pushToken}
      ensures u.pushToken !in old(activities) ==> activities == old(activities)
      ensures forall t :: t != u.pushToken ==>
                (t in activities <==> t in old(activities)) &&
                (t in activities ==> activities[t] == old(activities)[t])
      ensures sent == EndPayload(u, now)
      ensures response == SendResult(send(u.pushToken, sent))
    {
      if u.pushToken in activities {
        activities := activities - {u.pushToken};
      } else {
        assert activities - {u.pushToken} == activities;
      }
      history := history + [EndRequest(u)];
      assert history[..|history| - 1] == old(history);
      assert activities == Apply(old(activities), EndRequest(u));
      sent := EndPayload(u, now);
      response := SendResult(send(u.pushToken, sent));
    }

    /** The health report: always "healthy", with the number of registered tokens. */
    method HealthCheck(now: string) returns (h: Health)
      requires Valid()
      ensures h.status == "healthy" && h.timestamp == now
      ensures h.activeActivities == |activities| == |LiveTokens(history)|
    {
      ReplayCountsLiveTokens(history);
      h := Health("healthy", now, |activities|);
    }

    /**
     One pass of the periodic broadcast: one "update" push per registered
     token, every payload stamped with the same time and carrying that
     token's stored record. A failed push is recorded and the pass goes on.
     */
    method BroadcastCycle(now: int, send: (string, Payload) -> ApnsOutcome) returns (attempts: seq<Attempt>)
      ensures |attempts| == |activities|
      ensures forall i :: 0 <= i < |attempts| ==>
                attempts[i].token in activities &&
                attempts[i].payload == UpdatePayload(activities[attempts[i].token], now) &&
                attempts[i].response == SendResult(send(attempts[i].token, attempts[i].payload))
      ensures forall i, j :: 0 <= i < j < |attempts| ==> attempts[i].token != attempts[j].token
      ensures forall t :: t in activities ==> exists i :: 0 <= i < |attempts| && attempts[i].token == t
    {
      var remaining := activities.Keys;
      attempts := [];
      while remaining != {}
        invariant remaining <= activities.Keys
        invariant |attempts| + |remaining| == |activities|
        invariant forall i :: 0 <= i < |attempts| ==>
                    attempts[i].token in activities && attempts[i].token !in remaining &&
                    attempts[i].payload == UpdatePayload(activities[attempts[i].token], now) &&
                    attempts[i].response == SendResult(send(attempts[i].token, attempts[i].payload))
        invariant forall i, j :: 0 <= i < j < |attempts| ==> attempts[i].token != attempts[j].token
        invariant forall t :: t in activities && t !in remaining ==>
                    exists i :: 0 <= i < |attempts| && attempts[i].token == t
        decreases remaining
      {
        var token :| token in remaining;
        var payload := UpdatePayload(activities[token], now);
        var response := SendResult(send(token, payload));
        ghost var before := attempts;
        attempts := attempts + [Attempt(token, payload, response)];
        forall t | t in activities && t !in remaining - {token}
          ensures exists i :: 0 <= i < |attempts| && attempts[i].token == t
        {
          if t == token {
            assert attempts[|attempts| - 1].token == t;
          } else {
            var i :| 0 <= i < |before| && before[i].token == t;
            assert attempts[i].token == t;
          }
        }
        remaining := remaining - {token};
      }
    }
  }

  /**
   Once a token has been ended, the next broadcast pass makes no attempt
   on it, while every other registered token still gets one.
   */
  method EndThenBroadcast(s: Server, u: TrainUpdate, now: int, send: (string, Payload) -> ApnsOutcome)
    returns (attempts: seq<Attempt>)
    requires s.Valid()
    modifies s
    ensures s.Valid()
    ensures forall i :: 0 <= i < |attempts| ==> attempts[i].token != u.pushToken
    ensures forall t :: t in old(s.activities) && t != u.pushToken ==>
              exists i :: 0 <= i < |attempts| && attempts[i].token == t
  {
    var _, _ := s.EndTrainActivity(u, now, send);
    attempts := s.BroadcastCycle(now, send);
  }
}
