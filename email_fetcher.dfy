/**
 * Choosing the e-mail address from Bitbucket's list of a user's addresses
 * (`{"values": [{"email": .., "is_primary": .., "is_confirmed": ..}, ..]}`).
 */
module EmailFetcher {
  import opened Common
  import opened JsonTree

  /** Both flags read as true (`asBoolean(false)`: absent or unreadable counts as false). */
  predicate IsPrimaryConfirmed(entry: Json)
  {
    AsBoolean(Path(Some(entry), "is_primary")) && AsBoolean(Path(Some(entry), "is_confirmed"))
  }

  /** `entry.path("email").asText(null)`. */
  function EmailOf(entry: Json): Option<string>
  {
    AsTextOrNull(Path(Some(entry), "email"))
  }

  /** The position of the first primary and confirmed entry. */
  function FirstPrimaryConfirmed(values: seq<Json>): (r: Option<nat>)
    ensures r.Some? ==> (r.value < |values| && IsPrimaryConfirmed(values[r.value])
      && forall j :: 0 <= j < r.value ==> !IsPrimaryConfirmed(values[j]))
    ensures r.None? ==> forall j :: 0 <= j < |values| ==> !IsPrimaryConfirmed(values[j])
  {
    if values == [] then None
    else if IsPrimaryConfirmed(values[0]) then Some(0)
    else
      match FirstPrimaryConfirmed(values[1..])
      case None => None
      case Some(k) => Some(k + 1)
  }

  /**
   * The loop with its early return: `Some(e)` when a primary and confirmed entry is met,
   * `e` being its address (possibly null); `None` when the loop runs out.
   */
  function PrimaryEmail(values: seq<Json>): (r: Option<Option<string>>)
    ensures r.None? <==> FirstPrimaryConfirmed(values).None?
    ensures r.Some? ==> r.value == EmailOf(values[FirstPrimaryConfirmed(values).value])
  {
    if values == [] then None
    else if IsPrimaryConfirmed(values[0]) then Some(EmailOf(values[0]))
    else PrimaryEmail(values[1..])
  }

  /** The `values` array of the response body; anything else (or no body) gives none. */
  function EmailList(body: Option<Json>): (r: Option<seq<Json>>)
    ensures r.Some? <==> Path(body, "values").Some? && Path(body, "values").value.JArr?
  {
    match Path(body, "values")
    case Some(JArr(items)) => Some(items)
    case _ => None
  }

  /**
   * `fetchPrimaryEmail`. `body` is the decoded response body, `None` when the exchange
   * failed or gave no body (both end in the catch and give null). The first primary and
   * confirmed entry decides, even when its address is null; without one the first
   * entry's address is used.
   */
  function FetchPrimaryEmail(body: Option<Json>): (r: Option<string>)
    ensures EmailList(body).None? || EmailList(body).value == [] ==> r.None?
    ensures EmailList(body).Some? && FirstPrimaryConfirmed(EmailList(body).value).Some? ==>
      r == EmailOf(EmailList(body).value[FirstPrimaryConfirmed(EmailList(body).value).value])
    ensures EmailList(body).Some? && EmailList(body).value != [] && FirstPrimaryConfirmed(EmailList(body).value).None? ==>
      r == EmailOf(EmailList(body).value[0])
  {
    match EmailList(body)
    case None => None
    case Some(values) =>
      match PrimaryEmail(values)
      case Some(email) => email
      case None => if values != [] then EmailOf(values[0]) else None
  }
}
