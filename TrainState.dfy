/**
 The train-state record a client posts to the relay, the dictionary the relay
 builds from it, and the conversion of its three millisecond timestamps to
 seconds before the record is stored.
 */
module TrainState {

  /** A scalar value of the record's dictionary form (its JSON value). */
  datatype Value = IntVal(i: int) | StrVal(s: string) | BoolVal(b: bool)

  /** The dictionary form of a record: field name to value. */
  type Record = map<string, Value>

  /** The request body of both endpoints, one constructor argument per field. */
  datatype TrainUpdate = TrainUpdate(
    pushToken: string,
    ritardo: int,
    problemi: string,
    programmato: bool,
    tracciato: bool,
    prossimaStazione: string,
    prossimoBinario: string,
    tempoProssimaStazione: int,
    stazioneUltimoRilevamento: string,
    orarioUltimoRilevamento: int,
    stazionePartenza: string,
    orarioPartenza: int,
    stazioneArrivo: string,
    orarioArrivo: int)

  const PushTokenKey: string := "push_token"

  /** The fields holding milliseconds since the epoch, in the order they are converted. */
  const TimestampKeys: seq<string> := ["orarioUltimoRilevamento", "orarioPartenza", "orarioArrivo"]

  /** Every field name of a TrainUpdate. */
  const FieldKeys: set<string> := {
    "push_token", "ritardo", "problemi", "programmato", "tracciato",
    "prossimaStazione", "prossimoBinario", "tempoProssimaStazione",
    "stazioneUltimoRilevamento", "orarioUltimoRilevamento",
    "stazionePartenza", "orarioPartenza", "stazioneArrivo", "orarioArrivo"
  }

  /** Python truthiness of a scalar: non-zero, non-empty, or true. */
  predicate Truthy(v: Value)
    ensures !Truthy(v) <==> v == IntVal(0) || v == StrVal("") || v == BoolVal(false)
  {
    match v
    case IntVal(i) => i != 0
    case StrVal(s) => s != ""
    case BoolVal(b) => b
  }

  /** The record's dictionary, every field included. */
  function AsDict(u: TrainUpdate): (d: Record)
    ensures d.Keys == FieldKeys
    ensures d[PushTokenKey] == StrVal(u.pushToken)
  {
    map[
      "push_token" := StrVal(u.pushToken),
      "ritardo" := IntVal(u.ritardo),
      "problemi" := StrVal(u.problemi),
      "programmato" := BoolVal(u.programmato),
      "tracciato" := BoolVal(u.tracciato),
      "prossimaStazione" := StrVal(u.prossimaStazione),
      "prossimoBinario" := StrVal(u.prossimoBinario),
      "tempoProssimaStazione" := IntVal(u.tempoProssimaStazione),
      "stazioneUltimoRilevamento" := StrVal(u.stazioneUltimoRilevamento),
      "orarioUltimoRilevamento" := IntVal(u.orarioUltimoRilevamento),
      "stazionePartenza" := StrVal(u.stazionePartenza),
      "orarioPartenza" := IntVal(u.orarioPartenza),
      "stazioneArrivo" := StrVal(u.stazioneArrivo),
      "orarioArrivo" := IntVal(u.orarioArrivo)
    ]
  }

  /** The content state sent to the device: the dictionary without the push token. */
  function ContentState(u: TrainUpdate): (r: Record)
    ensures r.Keys == FieldKeys - {PushTokenKey}
    ensures forall k :: k in r ==> r[k] == AsDict(u)[k]
  {
    AsDict(u) - {PushTokenKey}
  }

  /** The timestamp keys of a record, where present, hold integers. */
  predicate TimestampsAreInts(d: Record)
  {
    forall k :: k in d && k in TimestampKeys ==> d[k].IntVal?
  }

  /**
   Python's `ms // 1000` for a timestamp that is converted: the seconds `s`
   with `1000 * s <= ms < 1000 * s + 1000`, rounding towards minus infinity.
   */
  function FloorSeconds(ms: int): (s: int)
    ensures 1000 * s <= ms < 1000 * s + 1000
  {
    ms / 1000
  }

  /** One integer timestamp after conversion: a truthy one is floor-divided, a zero kept. */
  function NormaliseValue(v: Value): (r: Value)
    requires v.IntVal?
    ensures r.IntVal?
    ensures v.i != 0 ==> r.i == FloorSeconds(v.i)
    ensures v.i == 0 ==> r == v
  {
    if Truthy(v) then IntVal(FloorSeconds(v.i)) else v
  }

  /** The record with its timestamp keys converted and every other key copied. */
  function Normalised(d: Record): (r: Record)
    requires TimestampsAreInts(d)
    ensures r.Keys == d.Keys
    ensures forall k :: k in d && k !in TimestampKeys ==> r[k] == d[k]
    ensures TimestampsAreInts(r)
  {
    map k | k in d :: if k in TimestampKeys then NormaliseValue(d[k]) else d[k]
  }

  /**
   The conversion loop: each timestamp key that is present and truthy is
   replaced, in place, by its value floor-divided by 1000.
   */
  method NormaliseTimestamps(d: Record) returns (r: Record)
    requires TimestampsAreInts(d)
    ensures r.Keys == d.Keys
    ensures forall k :: k in d && k !in TimestampKeys ==> r[k] == d[k]
    ensures forall k :: k in d && k in TimestampKeys && d[k] == IntVal(0) ==> r[k] == IntVal(0)
    ensures forall k :: k in d && k in TimestampKeys && d[k] != IntVal(0) ==>
              r[k].IntVal? && 1000 * r[k].i <= d[k].i < 1000 * r[k].i + 1000
    ensures r == Normalised(d)
  {
    r := d;
    for n := 0 to |TimestampKeys|
      invariant r.Keys == d.Keys
      invariant forall k :: k in d ==> r[k] == if k in TimestampKeys[..n] then NormaliseValue(d[k]) else d[k]
    {
      var key := TimestampKeys[n];
      assert key !in TimestampKeys[..n];
      if key in r && Truthy(r[key]) {
        r := r[key := IntVal(FloorSeconds(r[key].i))];
      }
    }
    assert TimestampKeys[..|TimestampKeys|] == TimestampKeys;
  }

  /** A record as stored in the registry and sent on updates. */
  function StoredRecord(u: TrainUpdate): (r: Record)
    ensures r.Keys == FieldKeys - {PushTokenKey}
  {
    Normalised(ContentState(u))
  }

  /**
   What an update stores, field by field: the timestamps in seconds, every
   other field of the content state copied.
   */
  lemma StoredRecordFields(u: TrainUpdate)
    ensures forall k :: k in StoredRecord(u) && k !in TimestampKeys ==> StoredRecord(u)[k] == ContentState(u)[k]
    ensures StoredRecord(u)["orarioUltimoRilevamento"] == IntVal(FloorSeconds(u.orarioUltimoRilevamento))
    ensures StoredRecord(u)["orarioPartenza"] == IntVal(FloorSeconds(u.orarioPartenza))
    ensures StoredRecord(u)["orarioArrivo"] == IntVal(FloorSeconds(u.orarioArrivo))
  {
  }

  /** A timestamp is left as it is exactly when it is 0 or -1. */
  lemma FloorSecondsFixedPoints(ms: int)
    ensures FloorSeconds(ms) == ms <==> ms == 0 || ms == -1
  {
  }

  /**
   What the end event sends (the raw record) equals what an update stores
   exactly when every timestamp is 0 or -1.
   */
  lemma StoredEqualsRawIff(u: TrainUpdate)
    ensures StoredRecord(u) == ContentState(u) <==>
              (u.orarioUltimoRilevamento == 0 || u.orarioUltimoRilevamento == -1) &&
              (u.orarioPartenza == 0 || u.orarioPartenza == -1) &&
              (u.orarioArrivo == 0 || u.orarioArrivo == -1)
  {
    FloorSecondsFixedPoints(u.orarioUltimoRilevamento);
    FloorSecondsFixedPoints(u.orarioPartenza);
    FloorSecondsFixedPoints(u.orarioArrivo);
    var s, c := StoredRecord(u), ContentState(u);
    if (u.orarioUltimoRilevamento == 0 || u.orarioUltimoRilevamento == -1) &&
       (u.orarioPartenza == 0 || u.orarioPartenza == -1) &&
       (u.orarioArrivo == 0 || u.orarioArrivo == -1)
    {
      forall k | k in s ensures s[k] == c[k] {
      }
      assert s == c;
    } else {
      assert s["orarioUltimoRilevamento"] != c["orarioUltimoRilevamento"] ||
             s["orarioPartenza"] != c["orarioPartenza"] ||
             s["orarioArrivo"] != c["orarioArrivo"];
    }
  }
}
