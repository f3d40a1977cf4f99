/** Shared vocabulary: optional values, results, the errors the HTTP layer sees,
    the delete-by-id every table offers, and the few string helpers the
    services rely on. */
module Common {

  datatype Option<T> = None | Some(value: T)

  /** Where a failure comes from. `AppError` is what the service code throws itself
      (it carries an HTTP status); the other kinds are raised by collaborators
      (the body schemas, the database client, the token library, the payment gateway, a plain
      `Error` or a runtime type error) and reach the global error handler as they are. */
  datatype Error =
    | AppError(status: int, message: string)
    | PlainError(message: string)
    | ValidationError
    | StoreError(reason: string)
    | TokenError
    | GatewayError
    | RuntimeError(reason: string)

  datatype Result<T> = Ok(value: T) | Err(error: Error)

  const BAD_REQUEST := 400
  const UNAUTHORIZED := 401
  const FORBIDDEN := 403
  const NOT_FOUND := 404

  /** A record the database client could not find for an update or delete. */
  const RecordNotFound := StoreError("record to update or delete not found")

  /** `delete({ where: { id } })` on a table keyed by id: the deleted record and
      the table without it, or record-not-found with the table unchanged. */
  ghost function DeleteRow<T>(rows: map<string, T>, id: string): (r: (Result<T>, map<string, T>))
    ensures id !in rows ==> r == (Err(RecordNotFound), rows)
    ensures id in rows ==> r.0 == Ok(rows[id]) && r.1.Keys == rows.Keys - {id}
    ensures forall other | other in rows && other != id :: other in r.1 && r.1[other] == rows[other]
  {
    if id !in rows then (Err(RecordNotFound), rows) else (Ok(rows[id]), rows - {id})
  }

  /** Deleting the same record twice fails the second time. */
  lemma DeleteTwiceFails<T>(rows: map<string, T>, id: string)
    requires id in rows
    ensures DeleteRow(DeleteRow(rows, id).1, id).0 == Err(RecordNotFound)
  {
  }

  predicate StartsWith(s: string, prefix: string) {
    |prefix| <= |s| && s[..|prefix|] == prefix
  }

  /** JavaScript truthiness of an optional string: present and non-empty. */
  predicate Truthy(s: Option<string>) {
    s.Some? && s.value != ""
  }

  /** ASCII lower-casing of one character. */
  function LowerChar(c: char): (d: char)
    ensures 'A' <= c <= 'Z' ==> 'a' <= d <= 'z'
    ensures !('A' <= c <= 'Z') ==> d == c
  {
    if 'A' <= c <= 'Z' then (c as int - 'A' as int + 'a' as int) as char else c
  }

  function Lower(s: string): (t: string)
    ensures |t| == |s|
    ensures forall i :: 0 <= i < |s| ==> t[i] == LowerChar(s[i])
  {
    seq(|s|, i requires 0 <= i < |s| => LowerChar(s[i]))
  }

  /** A string with no upper-case ASCII letter is its own lower-casing. */
  lemma LowerCaseFixed(s: string)
    requires forall i | 0 <= i < |s| :: !('A' <= s[i] <= 'Z')
    ensures Lower(s) == s
  {
  }

  /** The two strings are equal once ASCII letters are lower-cased. */
  predicate EqualsIgnoringCase(a: string, b: string)
    ensures EqualsIgnoringCase(a, b) <==> Lower(a) == Lower(b)
  {
    |a| == |b| && forall i | 0 <= i < |a| :: LowerChar(a[i]) == LowerChar(b[i])
  }

  /** `needle` occurs in `hay` as a contiguous piece. */
  predicate Occurs(needle: string, hay: string) {
    exists k :: 0 <= k <= |hay| && OccursAt(needle, hay, k)
  }

  predicate OccursAt(needle: string, hay: string, k: int) {
    0 <= k && k + |needle| <= |hay| && hay[k..k + |needle|] == needle
  }

  /** The database's case-insensitive `contains`, read as ASCII lower-casing of both sides. */
  predicate ContainsInsensitive(hay: string, needle: string) {
    Occurs(Lower(needle), Lower(hay))
  }

  /** `items.join(sep)` */
  function Join(items: seq<string>, sep: string): string {
    if |items| == 0 then ""
    else if |items| == 1 then items[0]
    else items[0] + sep + Join(items[1..], sep)
  }
}
