/** The logout hook that switches off the user's active webhook token. */
module Logout {
  import opened Common
  import opened JsonTree
  import opened Entities
  import opened Repositories

  /** What the security context holds at logout. */
  datatype Authentication = NoAuthentication | OtherPrincipal | OAuth2Principal(attrs: Attributes)

  /** The user whose token logout switches off: an OAuth2 principal with a username that names a stored user. */
  function LogoutUser(auth: Authentication, users: map<string, User>): (r: Option<string>)
    ensures r.Some? <==> auth.OAuth2Principal? && StringAttribute(auth.attrs, "username").Some?
                         && StringAttribute(auth.attrs, "username").value in users
    ensures r.Some? ==> r == StringAttribute(auth.attrs, "username")
  {
    if !auth.OAuth2Principal? then None
    else match StringAttribute(auth.attrs, "username")
      case None => None
      case Some(name) => if name in users then Some(name) else None
  }

  /**
   * `logout`: without an OAuth2 principal, without a username, or for an unknown user,
   * nothing changes (the failure is only logged); otherwise the user's active token, if
   * any, becomes inactive and every other token stays as it was. It never fails.
   */
  method Logout(db: Db, auth: Authentication)
    requires db.Valid()
    modifies db
    ensures db.Valid()
    ensures db.users == old(db.users) && db.teams == old(db.teams)
    ensures db.aiModels == old(db.aiModels) && db.roles == old(db.roles)
    ensures LogoutUser(auth, old(db.users)).None? ==> db.tokens == old(db.tokens)
    ensures LogoutUser(auth, old(db.users)).Some? ==>
      db.tokens == DeactivateActive(old(db.tokens), LogoutUser(auth, old(db.users)).value)
  {
    if !auth.OAuth2Principal? {
      return;
    }
    var username := StringAttribute(auth.attrs, "username");
    if username.None? {
      return;
    }
    if username.value !in db.users {
      return;
    }
    var name := username.value;
    DeactivateActiveSpec(db.tokens, name);
    var current := ActiveTokenOf(db.tokens, name);
    if current.Some? {
      var i := current.value;
      db.tokens := db.tokens[i := db.tokens[i].(active := false)];
    }
  }

  /** After logout the user has no active token, and no other user's token has changed. */
  lemma LogoutLeavesNoActiveToken(tokens: seq<WebhookToken>, name: string)
    requires TokensWellFormed(tokens)
    ensures ActiveTokenOf(DeactivateActive(tokens, name), name).None?
    ensures forall i :: 0 <= i < |tokens| && tokens[i].owner != name ==> DeactivateActive(tokens, name)[i] == tokens[i]
  {
    DeactivateActiveSpec(tokens, name);
  }
}
