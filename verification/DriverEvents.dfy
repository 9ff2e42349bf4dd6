/** Driver stream events as they arrive, with their untyped JSON payloads. */
module DriverEvents {
  import opened Wrappers

  datatype Json =
    | JNull
    | JBool(flag: bool)
    | JNum(num: real)
    | JStr(text: string)
    | JArr(items: seq<Json>)
    | JObj(fields: map<string, Json>)

  /** Timestamps are totally ordered; 0 stands for the empty string, which sorts first. */
  type Timestamp = nat

  datatype DriverStreamEvent = DriverStreamEvent(
    event_type: string,
    payload: Option<Json>,
    task_id: Option<string>,
    run_id: Option<string>,
    role_id: Option<string>,
    session_id: Option<string>,
    sequence: Option<int>,
    created_at: Option<Timestamp>)

  /** The value when it is a record, as `asRecord` and `recordValue` read it. */
  function AsRecord(value: Option<Json>): Option<map<string, Json>> {
    match value
    case Some(JObj(fields)) => Some(fields)
    case _ => None
  }

  /** `record?.key` */
  function Get(record: Option<map<string, Json>>, key: string): Option<Json> {
    match record
    case None => None
    case Some(fields) => if key in fields then Some(fields[key]) else None
  }

  function NonemptyString(value: Option<Json>): (r: Option<string>)
    ensures r.Some? ==> r.value != ""
  {
    match value
    case Some(JStr(text)) => if text != "" then Some(text) else None
    case _ => None
  }

  function FiniteNonnegative(value: Option<Json>): (r: Option<real>)
    ensures r.Some? ==> r.value >= 0.0
  {
    match value
    case Some(JNum(num)) => if num >= 0.0 then Some(num) else None
    case _ => None
  }

  /** A non-empty envelope string. */
  function Nonempty(value: Option<string>): (r: Option<string>)
    ensures r.Some? ==> r.value != ""
  {
    if value.Some? && value.value != "" then value else None
  }

  // ----- places in a value -----

  /** The value at the end of a path of object keys. */
  function Along(value: Option<Json>, path: seq<string>): Option<Json>
    decreases |path|
  {
    if path == [] then value
    else match value
      case Some(JObj(fields)) =>
        Along(if path[0] in fields then Some(fields[path[0]]) else None, path[1..])
      case _ => None
  }

  lemma Along1(value: Option<Json>, a: string)
    ensures Along(value, [a]) == Get(AsRecord(value), a)
  {
    var path := [a];
    assert path[1..] == [];
  }

  lemma Along2(value: Option<Json>, a: string, b: string)
    ensures Along(value, [a, b]) == Get(AsRecord(Get(AsRecord(value), a)), b)
  {
    var path := [a, b];
    assert path[1..] == [b];
    Along1(Get(AsRecord(value), a), b);
  }

  lemma Along3(value: Option<Json>, a: string, b: string, c: string)
    ensures Along(value, [a, b, c]) == Get(AsRecord(Get(AsRecord(Get(AsRecord(value), a)), b)), c)
  {
    var path := [a, b, c];
    assert path[1..] == [b, c];
    Along2(Get(AsRecord(value), a), b, c);
  }

  lemma Along4(value: Option<Json>, a: string, b: string, c: string, d: string)
    ensures Along(value, [a, b, c, d])
         == Get(AsRecord(Get(AsRecord(Get(AsRecord(Get(AsRecord(value), a)), b)), c)), d)
  {
    var path, two := [a, b, c, d], Get(AsRecord(Get(AsRecord(value), a)), b);
    assert path[1..] == [b, c, d] && path[1..][1..] == [c, d];
    Along2(two, c, d);
    assert Along(value, path) == Along(Get(AsRecord(value), a), [b, c, d]) == Along(two, [c, d]);
  }
}
