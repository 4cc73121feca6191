/**
 * The values that travel through the catalog: JSON values, the typed documents
 * of a bluesky run file (one `[kind, body]` record per line), and the errors
 * the catalog raises.
 */
module Documents {

  /** A JSON value. Only integral numbers are modelled. */
  datatype Json =
    | Null
    | Bool(b: bool)
    | Num(n: int)
    | Str(s: string)
    | Arr(items: seq<Json>)
    | Obj(fields: map<string, Json>)

  /** A document body: a JSON object. */
  type Body = map<string, Json>

  /** Python truthiness of a JSON value (`x or {}`, `if x:`). */
  predicate Truthy(j: Json)
  {
    match j
    case Null => false
    case Bool(b) => b
    case Num(n) => n != 0
    case Str(s) => s != ""
    case Arr(items) => items != []
    case Obj(fields) => fields != map[]
  }

  /** The document name written in the first element of a line. */
  datatype Kind = Start | Descriptor | Event | Resource | Datum | Stop | Other(name: string)

  /** One parsed line of a run file. */
  datatype Doc = Doc(kind: Kind, body: Body)

  type Path = string

  /** The exceptions raised by the catalog, one constructor per kind the callers can tell apart. */
  datatype Error =
    | FileNotFound(path: Path)       // open() of a path that does not exist
    | EmptyFile                      // a file without a first line: json.loads('') fails
    | IndexError                     // `[-1]` or `[0]` of an empty list
    | TypeError                      // a JSON value of the wrong type where an object is needed
    | InvalidRunFile(path: Path)     // first line is not a start document
    | KeyError                       // a missing dictionary key
    | NotFound                       // resource uid or datum_id absent from the run
    | NotImplemented                 // positional (integer) entry access
    | IncludeExcludeConflict         // include and exclude given together
    | NegativeSlice                  // islice with a negative start

  datatype Result<T> = Ok(value: T) | Err(error: Error)

  datatype Option<T> = None | Some(value: T)

  /** `doc.pop('_id', None)` applied to a body. */
  function WithoutId(b: Body): (r: Body)
    ensures "_id" !in r
    ensures forall k :: k in b && k != "_id" ==> k in r && r[k] == b[k]
    ensures r.Keys <= b.Keys
  {
    b - {"_id"}
  }

  /** Tags every body in `bs` with the same kind, in order. */
  function Tagged(kind: Kind, bs: seq<Body>): (r: seq<Doc>)
    ensures |r| == |bs|
  {
    seq(|bs|, k requires 0 <= k < |bs| => Doc(kind, bs[k]))
  }
}
