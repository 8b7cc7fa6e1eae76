/**
 * The `ogrenciler` (students) collection, read-only from the handler's side,
 * as an in-memory sequence of records, and the two reads the handler makes
 * of it: a full scan and a "field value in set" query.
 */
module Directory {

  datatype Option<T> = None | Some(value: T)

  /** A student record: its document id, its class (`sinif`) and its push token. */
  datatype User = User(id: string, sinif: Option<string>, fcmToken: Option<string>)

  /** The handler's `if (t)` test: a token that is present and not the empty string. */
  predicate HasToken(u: User)
  {
    u.fcmToken.Some? && u.fcmToken.value != ""
  }

  /** The fields the handler filters on: the document id and `sinif`. */
  datatype Field = DocumentId | Sinif

  function FieldValue(u: User, f: Field): Option<string>
  {
    match f
    case DocumentId => Some(u.id)
    case Sinif => u.sinif
  }

  /** `f in vals` holds of `u`; a record without the field never matches. */
  predicate Matches(u: User, f: Field, vals: seq<string>)
  {
    FieldValue(u, f).Some? && FieldValue(u, f).value in vals
  }

  /** The largest value list the backend accepts in one "in" filter. */
  const InQueryLimit: nat := 10

  /**
   * `collection.where(f, "in", vals).get()`: the records whose field `f`
   * holds one of `vals`, in directory order. The backend refuses an empty
   * list or one longer than the limit.
   */
  function WhereIn(users: seq<User>, f: Field, vals: seq<string>): (r: seq<User>)
    requires 0 < |vals| <= InQueryLimit
    ensures forall u :: u in r <==> u in users && Matches(u, f, vals)
    ensures |r| <= |users|
    decreases |users|
  {
    if users == [] then []
    else (if Matches(users[0], f, vals) then [users[0]] else []) + WhereIn(users[1..], f, vals)
  }
}
