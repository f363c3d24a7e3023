/**
 * The JSON documents that the task service writes to and reads from Redis.
 * `json.dumps` and `json.loads` are modelled as an abstract encode/decode
 * pair on a document tree: what the store holds is either a dumped document
 * or some other byte string that is not JSON at all.
 */
module Json {
  import opened Wrappers

  datatype Json =
    | JNull
    | JBool(b: bool)
    | JNum(n: int)
    | JStr(s: string)
    | JArr(items: seq<Json>)
    | JObj(members: seq<(string, Json)>)

  /** A non-empty byte string (the empty one is valid UTF-8, hence `Text([])`). */
  type NonEmptyBytes = s: seq<bv8> | |s| > 0 witness [0xFF]

  /** A value held under a Redis key; the empty byte string is `Text([])`. */
  datatype Blob =
    | Dumped(doc: Json)              // the text `json.dumps(doc)` produced
    | Text(text: string)             // UTF-8 text that does not parse as a JSON document
    | Undecodable(raw: NonEmptyBytes) // bytes that are not UTF-8 text at all

  /** Why loading a value fails. */
  datatype LoadError = JsonDecodeError | UnicodeDecodeError

  /**
   * The text of a JSON document is never the empty byte string, so a value
   * the service wrote never takes the "no data" branch of a read.
   */
  function Dumps(doc: Json): (b: Blob)
    ensures !Empty(b)
  {
    Dumped(doc)
  }

  /**
   * `json.loads` on the stored bytes: text that is not JSON raises a
   * decode error, bytes that are not UTF-8 raise a Unicode error instead.
   */
  function Loads(b: Blob): (r: Result<Json, LoadError>)
    ensures r.Success? <==> b.Dumped?
    ensures b.Text? ==> r == Failure(JsonDecodeError)
    ensures b.Undecodable? ==> r == Failure(UnicodeDecodeError)
  {
    match b
    case Dumped(doc) => Success(doc)
    case Text(_) => Failure(JsonDecodeError)
    case Undecodable(_) => Failure(UnicodeDecodeError)
  }

  /** Python truthiness of the bytes: only the empty byte string is false. */
  predicate Empty(b: Blob) {
    b == Text([])
  }

  lemma LoadsDumps(doc: Json)
    ensures Loads(Dumps(doc)) == Success(doc)
  {
  }

  /**
   * The value of key `k` in an object's member list as `json.loads` builds
   * the dict: when a key repeats, the last occurrence wins.
   */
  function Field(members: seq<(string, Json)>, k: string): (r: Option<Json>)
    ensures r.Some? <==> exists i :: 0 <= i < |members| && members[i].0 == k
    ensures r.Some? ==> exists i :: 0 <= i < |members| && members[i] == (k, r.value)
                                    && forall j :: i < j < |members| ==> members[j].0 != k
  {
    if members == [] then None
    else if members[|members| - 1].0 == k then Some(members[|members| - 1].1)
    else Field(members[..|members| - 1], k)
  }

  /** A key that occurs nowhere later in the member list is read back with its own value. */
  lemma FieldLastOccurrence(members: seq<(string, Json)>, i: nat)
    requires i < |members|
    requires forall j :: i < j < |members| ==> members[j].0 != members[i].0
    ensures Field(members, members[i].0) == Some(members[i].1)
  {
  }
}
