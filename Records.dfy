/**
 * The values a log call carries: the message as PHP hands it to json_encode,
 * and the seven-field record that Logger::log builds and passes to the handler.
 */
module Records {
  import opened Wrappers

  /** A PHP value as json_encode sees it. Floats, objects and resources are not modelled. */
  datatype Value =
    | Null
    | Bool(b: bool)
    | Int(i: int)
    | Str(s: string)
    | List(items: seq<Value>)
    | Dict(entries: seq<(string, Value)>)

  /** The record built once per admitted log call. */
  datatype Record = Record(
    time: string,
    level: string,
    host: string,
    reqid: string,
    serverIp: string,
    clientIp: string,
    message: string)

  /** The keys of the record array, in the order the source writes them. */
  const RECORD_KEYS: seq<string> := ["time", "level", "host", "reqid", "server_ip", "client_ip", "message"]

  /** The value stored under `key` in an ordered PHP array (the first entry with that key). */
  function Lookup(entries: seq<(string, Value)>, key: string): (v: Option<Value>)
  {
    if entries == [] then None
    else if entries[0].0 == key then Some(entries[0].1)
    else Lookup(entries[1..], key)
  }

  /** When no earlier entry has the i-th key, looking that key up gives the i-th value. */
  lemma {:induction false} LookupAt(entries: seq<(string, Value)>, i: nat)
    requires i < |entries|
    requires forall j | 0 <= j < i :: entries[j].0 != entries[i].0
    ensures Lookup(entries, entries[i].0) == Some(entries[i].1)
  {
    if i > 0 {
      assert entries[0].0 != entries[i].0;
      assert entries[1..][i - 1] == entries[i];
      LookupAt(entries[1..], i - 1);
    }
  }

  /** The keys of an ordered PHP array, in order. */
  function KeysOf(entries: seq<(string, Value)>): (ks: seq<string>)
    ensures |ks| == |entries|
    ensures forall i | 0 <= i < |entries| :: ks[i] == entries[i].0
  {
    if entries == [] then [] else [entries[0].0] + KeysOf(entries[1..])
  }

  /** The associative array `$log` handed to the handler's write. */
  function ToArray(r: Record): (a: Value)
    ensures a.Dict? && KeysOf(a.entries) == RECORD_KEYS
    ensures Lookup(a.entries, "time") == Some(Str(r.time))
    ensures Lookup(a.entries, "level") == Some(Str(r.level))
    ensures Lookup(a.entries, "host") == Some(Str(r.host))
    ensures Lookup(a.entries, "reqid") == Some(Str(r.reqid))
    ensures Lookup(a.entries, "server_ip") == Some(Str(r.serverIp))
    ensures Lookup(a.entries, "client_ip") == Some(Str(r.clientIp))
    ensures Lookup(a.entries, "message") == Some(Str(r.message))
  {
    var entries := [
      ("time", Str(r.time)),
      ("level", Str(r.level)),
      ("host", Str(r.host)),
      ("reqid", Str(r.reqid)),
      ("server_ip", Str(r.serverIp)),
      ("client_ip", Str(r.clientIp)),
      ("message", Str(r.message))];
    LookupAt(entries, 2); LookupAt(entries, 3); LookupAt(entries, 4);
    LookupAt(entries, 5); LookupAt(entries, 6);
    Dict(entries)
  }

  /** Distinct records give distinct arrays: the array loses no field of the record. */
  lemma ToArrayInjective(r1: Record, r2: Record)
    requires ToArray(r1) == ToArray(r2)
    ensures r1 == r2
  {
  }
}
