/**
 The envelope the relay posts to the push gateway for a live activity, and
 what a handler answers once the gateway has been tried. The HTTP exchange
 itself is not modelled: its outcome is given.
 */
module Apns {
  import opened TrainState

  const UpdateEvent: string := "update"
  const EndEvent: string := "end"

  /** The payload `{"aps": {"timestamp": ..., "event": ..., "content-state": ...}}`. */
  datatype Payload = Aps(timestamp: int, event: string, contentState: Record)

  /** What became of one POST to the gateway: the status it answered, or a transport error. */
  datatype ApnsOutcome = HttpStatus(code: int) | RequestFailed

  /** What a caller of the push sees: success, or an HTTP error with its status code. */
  datatype Response = Success | HttpError(status: int)

  /**
   The result of a push. Only status 200 succeeds; every other status and
   every transport error reaches the caller as status 500, because the error
   raised for a non-200 status is itself caught and replaced by a 500.
   */
  function SendResult(o: ApnsOutcome): (r: Response)
    ensures r == Success <==> o == HttpStatus(200)
    ensures r != Success ==> r == HttpError(500)
  {
    match o
    case HttpStatus(code) => if code == 200 then Success else HttpError(500)
    case RequestFailed => HttpError(500)
  }

  /** An "update" envelope around a stored record, stamped with the given time in seconds. */
  function UpdatePayload(state: Record, now: int): (p: Payload)
    ensures p.event == UpdateEvent && p.timestamp == now
    ensures p.contentState == state
  {
    Aps(now, UpdateEvent, state)
  }

  /** An "end" envelope around the request's record as received, timestamps unconverted. */
  function EndPayload(u: TrainUpdate, now: int): (p: Payload)
    ensures p.event == EndEvent && p.timestamp == now
    ensures p.contentState == ContentState(u) && PushTokenKey !in p.contentState
  {
    Aps(now, EndEvent, ContentState(u))
  }

  /**
   The two events are told apart by their event name; the update carries the
   converted record and the end the raw one, so the two content states agree
   on every field but the timestamps, which agree only when 0 or -1.
   */
  lemma UpdateAndEndPayloads(u: TrainUpdate, now: int)
    ensures UpdatePayload(StoredRecord(u), now).event == "update"
    ensures EndPayload(u, now).event == "end"
    ensures UpdatePayload(StoredRecord(u), now).timestamp == EndPayload(u, now).timestamp == now
    ensures PushTokenKey !in UpdatePayload(StoredRecord(u), now).contentState
    ensures PushTokenKey !in EndPayload(u, now).contentState
    ensures UpdatePayload(StoredRecord(u), now).contentState.Keys == EndPayload(u, now).contentState.Keys
    ensures forall k :: k in EndPayload(u, now).contentState && k !in TimestampKeys ==>
              UpdatePayload(StoredRecord(u), now).contentState[k] == EndPayload(u, now).contentState[k]
    ensures UpdatePayload(StoredRecord(u), now).contentState == EndPayload(u, now).contentState <==>
              (u.orarioUltimoRilevamento == 0 || u.orarioUltimoRilevamento == -1) &&
              (u.orarioPartenza == 0 || u.orarioPartenza == -1) &&
              (u.orarioArrivo == 0 || u.orarioArrivo == -1)
  {
    StoredRecordFields(u);
    StoredEqualsRawIff(u);
  }
}
