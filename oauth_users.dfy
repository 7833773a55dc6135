/**
 * The OAuth2 user service: signing up through the "bitbucket-signup" registration
 * creates a user, every other registration logs an existing user in.
 */
module OAuthUsers {
  import opened Common
  import opened JsonTree
  import opened Entities
  import opened Repositories
  import opened EmailFetcher

  /** The exceptions `loadUser` can throw, with their messages. */
  datatype AuthError =
    | OAuth2AuthenticationError(message: string)
    | UserAlreadyExists(message: string)
    | UserNotFound(message: string)
    | IllegalState(message: string)

  /** A `DefaultOAuth2User`: the granted authorities, the attributes and the name attribute's key. */
  datatype OAuth2User = OAuth2User(authorities: set<string>, attributes: Attributes, nameAttributeKey: string)

  const SignupRegistration: string := "bitbucket-signup"

  /** `buildOAuth2User`: one authority per stored role, the attributes passed through. */
  function BuildOAuth2User(user: User, attributes: Attributes): (r: OAuth2User)
    ensures forall role :: role in r.authorities <==> role in user.roles
    ensures r.attributes == attributes && r.nameAttributeKey == "username"
  {
    OAuth2User(set role | role in user.roles :: role, attributes, "username")
  }

  /** A new account: enabled, with ROLE_USER only, and no Bitbucket id, name, model or aspects yet. */
  function NewUser(username: string, email: Option<string>): User
  {
    User(username, None, email, None, true, {RoleUser}, None, None)
  }

  /**
   * The address a new account gets: the first primary and confirmed entry's address,
   * but when there is none or it is null, the first entry's address.
   */
  function SignupEmail(body: Option<Json>): Option<string>
  {
    match EmailList(body)
    case None => None
    case Some(values) =>
      var chosen := match PrimaryEmail(values) case Some(e) => e case None => None;
      if chosen.None? && values != [] then EmailOf(values[0]) else chosen
  }

  /** The email loop of `createNewUser`, with its `break`. */
  method SelectSignupEmail(body: Option<Json>) returns (email: Option<string>)
    ensures email == SignupEmail(body)
  {
    email := None;
    var list := EmailList(body);
    if list.None? {
      return;
    }
    var values := list.value;
    var i := 0;
    while i < |values|
      invariant 0 <= i <= |values|
      invariant email.None?
      invariant PrimaryEmail(values) == PrimaryEmail(values[i..])
    {
      var node := values[i];
      if IsPrimaryConfirmed(node) {
        email := EmailOf(node);
        break;
      }
      assert values[i..][1..] == values[i + 1..];
      i := i + 1;
    }
    if email.None? && values != [] {
      email := EmailOf(values[0]);
    }
  }

  /**
   * The fetcher and the signup disagree exactly when the first primary and confirmed
   * entry has no address while the first entry has one: the fetcher then answers null
   * and the signup the first entry's address.
   */
  lemma SignupAndFetcherDiffer(body: Option<Json>)
    ensures SignupEmail(body) != FetchPrimaryEmail(body) <==>
      EmailList(body).Some?
      && FirstPrimaryConfirmed(EmailList(body).value).Some?
      && EmailOf(EmailList(body).value[FirstPrimaryConfirmed(EmailList(body).value).value]).None?
      && EmailOf(EmailList(body).value[0]).Some?
    ensures SignupEmail(body) != FetchPrimaryEmail(body) ==> FetchPrimaryEmail(body).None?
  {
  }

  /** `createNewUser`: a missing ROLE_USER fails before anything is saved. */
  method CreateNewUser(db: Db, attributes: Attributes, username: string, emailsBody: Option<Json>)
    returns (r: Result<OAuth2User, AuthError>)
    requires db.Valid() && username !in db.users
    modifies db
    ensures db.Valid()
    ensures db.teams == old(db.teams) && db.tokens == old(db.tokens)
    ensures db.aiModels == old(db.aiModels) && db.roles == old(db.roles)
    ensures RoleUser !in db.roles ==> r == Failure(IllegalState("ROLE_USER not found")) && db.users == old(db.users)
    ensures RoleUser in db.roles ==>
      db.users == old(db.users)[username := NewUser(username, SignupEmail(emailsBody))]
      && r == Success(BuildOAuth2User(db.users[username], attributes))
  {
    var email := SelectSignupEmail(emailsBody);
    if RoleUser !in db.roles {
      return Failure(IllegalState("ROLE_USER not found"));
    }
    var user := NewUser(username, email);
    db.users := db.users[username := user];
    r := Success(BuildOAuth2User(user, attributes));
  }

  /**
   * `loadUser`: no username fails; a signup for a known user fails; a signup for a new
   * user creates it; a login for an unknown user fails; a login answers the stored
   * roles and changes nothing.
   */
  method LoadUser(db: Db, registrationId: string, attributes: Attributes, emailsBody: Option<Json>)
    returns (r: Result<OAuth2User, AuthError>)
    requires db.Valid()
    modifies db
    ensures db.Valid()
    ensures db.teams == old(db.teams) && db.tokens == old(db.tokens)
    ensures db.aiModels == old(db.aiModels) && db.roles == old(db.roles)
    ensures r.Failure? ==> db.users == old(db.users)
    ensures StringAttribute(attributes, "username").None? ==> r == Failure(OAuth2AuthenticationError("Username not found"))
    ensures StringAttribute(attributes, "username").Some? ==>
      var username := StringAttribute(attributes, "username").value;
      if registrationId == SignupRegistration then
        if username in old(db.users) then r == Failure(UserAlreadyExists("User already exists"))
        else if RoleUser !in db.roles then r == Failure(IllegalState("ROLE_USER not found"))
        else db.users == old(db.users)[username := NewUser(username, SignupEmail(emailsBody))]
             && r == Success(BuildOAuth2User(db.users[username], attributes))
      else
        if username !in old(db.users) then r == Failure(UserNotFound("User not found"))
        else db.users == old(db.users) && r == Success(BuildOAuth2User(db.users[username], attributes))
  {
    var name := StringAttribute(attributes, "username");
    if name.None? {
      return Failure(OAuth2AuthenticationError("Username not found"));
    }
    var username := name.value;
    var isSignup := registrationId == SignupRegistration;
    var userExists := username in db.users;
    if isSignup {
      if userExists {
        return Failure(UserAlreadyExists("User already exists"));
      }
      r := CreateNewUser(db, attributes, username, emailsBody);
    } else {
      if !userExists {
        return Failure(UserNotFound("User not found"));
      }
      r := Success(BuildOAuth2User(db.users[username], attributes));
    }
  }
}
