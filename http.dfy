/** The HTTP statuses the controllers answer with, and a reply carrying an optional body. */
module Http {
  import opened Common

  datatype Status = Ok | NoContent | BadRequest | Unauthorized | NotFound | Gone | InternalServerError

  function Code(s: Status): (c: nat)
    ensures 200 <= c < 600
  {
    match s
    case Ok => 200
    case NoContent => 204
    case BadRequest => 400
    case Unauthorized => 401
    case NotFound => 404
    case Gone => 410
    case InternalServerError => 500
  }

  /** A `ResponseEntity`, or the `ResponseStatusException` a controller throws (status, no body). */
  datatype Reply<+T> = Reply(status: Status, body: Option<T>)

  function Answer<T>(body: T): Reply<T> { Reply(Ok, Some(body)) }

  function Refuse<T>(status: Status): Reply<T> { Reply(status, None) }

  /** `ResponseEntity.noContent()`: success without a body. */
  function Done<T>(): Reply<T> { Reply(NoContent, None) }
}
