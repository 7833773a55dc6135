/**
 * The older OAuth2 user service: every login fetches the address and creates or
 * updates the user, with no separate signup.
 */
module LegacyOAuthUsers {
  import opened Common
  import opened JsonTree
  import opened Entities
  import opened Repositories
  import opened OAuthUsers

  /**
   * `loadUser`: no username fails; a missing ROLE_USER fails even for a known user; a
   * known user's address is overwritten with the fetched one (possibly null) and its
   * roles kept; an unknown user is created. The authorities are the stored roles.
   */
  method LoadUser(db: Db, attributes: Attributes, emailsBody: Option<Json>) returns (r: Result<OAuth2User, AuthError>)
    requires db.Valid()
    modifies db
    ensures db.Valid()
    ensures db.teams == old(db.teams) && db.tokens == old(db.tokens)
    ensures db.aiModels == old(db.aiModels) && db.roles == old(db.roles)
    ensures r.Failure? ==> db.users == old(db.users)
    ensures StringAttribute(attributes, "username").None? ==>
      r == Failure(OAuth2AuthenticationError("Username attribute not found in OAuth2 user info"))
    ensures StringAttribute(attributes, "username").Some? && RoleUser !in db.roles ==>
      r == Failure(IllegalState("ROLE_USER not found"))
    ensures StringAttribute(attributes, "username").Some? && RoleUser in db.roles ==>
      var username := StringAttribute(attributes, "username").value;
      var email := SignupEmail(emailsBody);
      db.users == old(db.users)[username :=
        if username in old(db.users) then old(db.users)[username].(email := email) else NewUser(username, email)]
      && r == Success(BuildOAuth2User(db.users[username], attributes))
  {
    var name := StringAttribute(attributes, "username");
    if name.None? {
      return Failure(OAuth2AuthenticationError("Username attribute not found in OAuth2 user info"));
    }
    var username := name.value;
    var email := SelectSignupEmail(emailsBody);
    if RoleUser !in db.roles {
      return Failure(IllegalState("ROLE_USER not found"));
    }
    var user;
    if username in db.users {
      user := db.users[username].(email := email);
    } else {
      user := NewUser(username, email);
    }
    db.users := db.users[username := user];
    r := Success(BuildOAuth2User(user, attributes));
  }
}
