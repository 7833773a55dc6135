/**
 * The user endpoints: profile information, the preferred AI model, the webhook token
 * (enable, disable, get) and the review aspects. The authenticated principal is given as
 * its OAuth2 attributes, `None` when no OAuth2 user is authenticated; the random token
 * value and the current time are parameters.
 */
module UserApi {
  import opened Common
  import opened Text
  import opened JsonTree
  import opened Http
  import opened Entities
  import opened Repositories

  type Principal = Option<Attributes>

  /** `plusDays(1)`, with timestamps counted in seconds. */
  const Day: int := 86400

  /** The aspects handed out when a user has none stored, in this order. */
  const DefaultAspects: seq<string> := [
    "Summary",
    "Syntax & Style",
    "Correctness & Logic",
    "Potential Bugs",
    "Security Considerations",
    "Performance & Scalability",
    "Maintainability & Readability",
    "Documentation & Comments",
    "Best practices & Design Principles",
    "Recommendations"
  ]

  // ---------------------------------------------------------------------------
  // Who is asking

  /**
   * The checks every token endpoint makes, in this order: an authenticated principal,
   * then a username attribute, then a stored user of that name.
   */
  function Authenticate(principal: Principal, users: map<string, User>): (r: Result<string, Status>)
    ensures principal.None? <==> r == Failure(Unauthorized)
    ensures principal.Some? && StringAttribute(principal.value, "username").None? <==> r == Failure(BadRequest)
    ensures r == Failure(NotFound) <==>
      principal.Some? && StringAttribute(principal.value, "username").Some?
      && StringAttribute(principal.value, "username").value !in users
    ensures r.Success? ==> principal.Some? && StringAttribute(principal.value, "username") == Some(r.value) && r.value in users
  {
    if principal.None? then Failure(Unauthorized)
    else match StringAttribute(principal.value, "username")
      case None => Failure(BadRequest)
      case Some(username) => if username in users then Success(username) else Failure(NotFound)
  }

  // ---------------------------------------------------------------------------
  // Profile

  datatype UserDto = UserDto(
    username: string,
    displayName: string,
    email: Option<string>,
    avatarUrl: Option<string>,
    aiModel: Option<AiModel>,
    roles: set<string>,
    teams: set<string>)

  /** `links.avatar.href` of the attributes, when both levels are objects and the link is text. */
  function AvatarUrl(attrs: Attributes): Option<string>
  {
    if "links" in attrs && attrs["links"].JObj? && "avatar" in attrs["links"].fields then
      var avatar := attrs["links"].fields["avatar"];
      if avatar.JObj? && "href" in avatar.fields && avatar.fields["href"].JStr? then Some(avatar.fields["href"].s) else None
    else None
  }

  /** The names of the teams the user is a member of. */
  function TeamNamesOf(teams: map<nat, Team>, username: string): set<string>
  {
    set id | id in teams && username in teams[id].members :: teams[id].name
  }

  /** `getUserInfo`. */
  function GetUserInfo(principal: Principal, users: map<string, User>, teams: map<nat, Team>): (r: Reply<UserDto>)
    ensures principal.None? ==> r == Refuse(Unauthorized)
    ensures principal.Some? && StringAttribute(principal.value, "username").None? ==> r == Refuse(BadRequest)
    ensures (principal.Some? && StringAttribute(principal.value, "username").Some?
             && StringAttribute(principal.value, "username").value !in users) ==> r == Refuse(NotFound)
    ensures r.status == Ok <==>
      principal.Some? && StringAttribute(principal.value, "username").Some?
      && StringAttribute(principal.value, "username").value in users
    ensures r.status == Ok ==> (
      && r.body.Some?
      && var attrs := principal.value;
      var name := StringAttribute(attrs, "username").value;
      && r.body.value.username == name
      && r.body.value.displayName == (if StringAttribute(attrs, "display_name").Some? then StringAttribute(attrs, "display_name").value else name)
      && r.body.value.email == users[name].email
      && (var href := Path(Path(Path(Some(JObj(attrs)), "links"), "avatar"), "href");
          r.body.value.avatarUrl == (if href.Some? && href.value.JStr? then Some(href.value.s) else None))
      && r.body.value.aiModel == users[name].aiModel
      && r.body.value.roles == users[name].roles
      && (forall t :: t in r.body.value.teams <==> exists id :: id in teams && name in teams[id].members && teams[id].name == t))
  {
    if principal.None? then Refuse(Unauthorized)
    else
      var attrs := principal.value;
      match StringAttribute(attrs, "username")
      case None => Refuse(BadRequest)
      case Some(username) =>
        var displayName := match StringAttribute(attrs, "display_name")
          case None => username
          case Some(d) => d;
        if username !in users then Refuse(NotFound)
        else
          var user := users[username];
          Answer(UserDto(username, displayName, user.email, AvatarUrl(attrs), user.aiModel, user.roles, TeamNamesOf(teams, username)))
  }

  // ---------------------------------------------------------------------------
  // Preferred AI model

  predicate MatchesModel(m: AiModel, ai: string, model: string)
  {
    EqualsIgnoreCase(m.ai, ai) && EqualsIgnoreCase(m.model, model)
  }

  /** `findByAiIgnoreCaseAndModelIgnoreCase`: the first catalogue row matching both names, ignoring case. */
  function FindAiModel(catalogue: seq<AiModel>, ai: string, model: string): (r: Option<AiModel>)
    ensures r.Some? ==> r.value in catalogue && MatchesModel(r.value, ai, model)
    ensures r.None? ==> forall i :: 0 <= i < |catalogue| ==> !MatchesModel(catalogue[i], ai, model)
  {
    if catalogue == [] then None
    else if MatchesModel(catalogue[0], ai, model) then Some(catalogue[0])
    else FindAiModel(catalogue[1..], ai, model)
  }

  /**
   * `setAiPreference`: the user's model becomes the catalogue row matching `ai` and
   * `model`; without a match the answer is BAD_REQUEST and nothing changes. A missing
   * principal is dereferenced unchecked, which ends in INTERNAL_SERVER_ERROR.
   */
  method SetAiPreference(db: Db, principal: Principal, ai: string, model: string) returns (reply: Reply<string>)
    requires db.Valid()
    modifies db
    ensures db.Valid()
    ensures db.teams == old(db.teams) && db.tokens == old(db.tokens)
    ensures db.aiModels == old(db.aiModels) && db.roles == old(db.roles)
    ensures principal.None? ==> reply == Refuse(InternalServerError) && db.users == old(db.users)
    ensures principal.Some? && StringAttribute(principal.value, "username").None? ==>
      reply == Refuse(BadRequest) && db.users == old(db.users)
    ensures principal.Some? && StringAttribute(principal.value, "username").Some? ==>
      var name := StringAttribute(principal.value, "username").value;
      var found := FindAiModel(old(db.aiModels), ai, model);
      (name !in old(db.users) ==> reply == Refuse(NotFound) && db.users == old(db.users))
      && (name in old(db.users) && found.None? ==> reply == Refuse(BadRequest) && db.users == old(db.users))
      && (name in old(db.users) && found.Some? ==>
            reply.status == Ok && db.users == old(db.users)[name := old(db.users)[name].(aiModel := found)])
  {
    if principal.None? {
      return Refuse(InternalServerError);
    }
    var username := StringAttribute(principal.value, "username");
    if username.None? {
      return Refuse(BadRequest);
    }
    var name := username.value;
    if name !in db.users {
      return Refuse(NotFound);
    }
    var user := db.users[name];
    var found := FindAiModel(db.aiModels, ai, model);
    if found.None? {
      return Refuse(BadRequest);
    }
    user := user.(aiModel := found);
    db.users := db.users[name := user];
    reply := Answer("Preferința AI setată la " + ai + " cu modelul " + model + " pentru utilizatorul " + name + ".");
  }

  // ---------------------------------------------------------------------------
  // Webhook token

  /**
   * `enableWebhookToken`: after the checks of `Authenticate`, the user's active token is
   * turned off and saved, then a new active token `newToken` expiring a day after `now` is
   * stored. A `newToken` value already in the table breaks the unique column: the answer is
   * INTERNAL_SERVER_ERROR and only the deactivation, saved before, remains.
   */
  method EnableWebhookToken(db: Db, principal: Principal, newToken: string, now: int) returns (reply: Reply<string>)
    requires db.Valid()
    modifies db
    ensures db.Valid()
    ensures db.users == old(db.users) && db.teams == old(db.teams)
    ensures db.aiModels == old(db.aiModels) && db.roles == old(db.roles)
    ensures Authenticate(principal, old(db.users)).Failure? ==>
      reply == Refuse(Authenticate(principal, old(db.users)).error) && db.tokens == old(db.tokens)
    ensures Authenticate(principal, old(db.users)).Success? ==>
      var name := Authenticate(principal, old(db.users)).value;
      var off := DeactivateActive(old(db.tokens), name);
      if TokenTaken(off, newToken) then reply == Refuse(InternalServerError) && db.tokens == off
      else (reply == Answer(newToken) && db.tokens == off + [WebhookToken(newToken, name, true, Some(now + Day))]
            && ActiveTokenOf(db.tokens, name) == Some(|db.tokens| - 1))
  {
    var auth := Authenticate(principal, db.users);
    if auth.Failure? {
      return Refuse(auth.error);
    }
    var name := auth.value;
    DeactivateActiveSpec(db.tokens, name);
    var current := ActiveTokenOf(db.tokens, name);
    if current.Some? {
      var i := current.value;
      db.tokens := db.tokens[i := db.tokens[i].(active := false)];
    }
    if TokenTaken(db.tokens, newToken) {
      return Refuse(InternalServerError);
    }
    var before := db.tokens;
    IssueAfterDeactivate(old(db.tokens), name, newToken, Some(now + Day));
    db.tokens := db.tokens + [WebhookToken(newToken, name, true, Some(now + Day))];
    assert ActiveTokenOf(db.tokens, name) == Some(|before|);
    reply := Answer(newToken);
  }

  /** `disableWebhookToken`: after the checks, the user's active token, if any, is turned off; nothing is created. */
  method DisableWebhookToken(db: Db, principal: Principal) returns (reply: Reply<()>)
    requires db.Valid()
    modifies db
    ensures db.Valid()
    ensures db.users == old(db.users) && db.teams == old(db.teams)
    ensures db.aiModels == old(db.aiModels) && db.roles == old(db.roles)
    ensures Authenticate(principal, old(db.users)).Failure? ==>
      reply == Refuse(Authenticate(principal, old(db.users)).error) && db.tokens == old(db.tokens)
    ensures Authenticate(principal, old(db.users)).Success? ==>
      reply == Done()
      && db.tokens == DeactivateActive(old(db.tokens), Authenticate(principal, old(db.users)).value)
  {
    var auth := Authenticate(principal, db.users);
    if auth.Failure? {
      return Refuse(auth.error);
    }
    DeactivateActiveSpec(db.tokens, auth.value);
    var current := ActiveTokenOf(db.tokens, auth.value);
    if current.Some? {
      var i := current.value;
      db.tokens := db.tokens[i := db.tokens[i].(active := false)];
    }
    reply := Done();
  }

  /** `getWebhookToken`: after the checks, the user's active token, or NOT_FOUND when none is active. */
  function GetWebhookToken(principal: Principal, users: map<string, User>, tokens: seq<WebhookToken>): (r: Reply<string>)
    ensures Authenticate(principal, users).Failure? ==> r == Refuse(Authenticate(principal, users).error)
    ensures Authenticate(principal, users).Success? ==>
      var name := Authenticate(principal, users).value;
      (r.status == Ok <==> exists i :: 0 <= i < |tokens| && IsActiveOf(tokens[i], name))
      && (r.status == Ok ==> exists i :: 0 <= i < |tokens| && IsActiveOf(tokens[i], name) && r.body == Some(tokens[i].token))
      && (r.status != Ok ==> r == Refuse(NotFound))
  {
    match Authenticate(principal, users)
    case Failure(status) => Refuse(status)
    case Success(name) =>
      match ActiveTokenOf(tokens, name)
      case None => Refuse(NotFound)
      case Some(i) => Answer(tokens[i].token)
  }

  /** Enabling and then asking for the token hands back the token just issued. */
  lemma EnableThenGet(principal: Principal, users: map<string, User>, tokens: seq<WebhookToken>, newToken: string, now: int)
    requires TokensWellFormed(tokens)
    requires Authenticate(principal, users).Success?
    requires !TokenTaken(DeactivateActive(tokens, Authenticate(principal, users).value), newToken)
    ensures var name := Authenticate(principal, users).value;
      GetWebhookToken(principal, users,
        DeactivateActive(tokens, name) + [WebhookToken(newToken, name, true, Some(now + Day))]) == Answer(newToken)
  {
    IssueAfterDeactivate(tokens, Authenticate(principal, users).value, newToken, Some(now + Day));
  }

  /** After disabling, asking for the token gives NOT_FOUND. */
  lemma DisableThenGet(principal: Principal, users: map<string, User>, tokens: seq<WebhookToken>)
    requires TokensWellFormed(tokens)
    requires Authenticate(principal, users).Success?
    ensures GetWebhookToken(principal, users, DeactivateActive(tokens, Authenticate(principal, users).value)) == Refuse(NotFound)
  {
    DeactivateActiveSpec(tokens, Authenticate(principal, users).value);
  }

  // ---------------------------------------------------------------------------
  // Review aspects

  /**
   * `getReviewAspects`: the stored aspects, or the ten defaults when none are stored.
   * A user row without the column dereferences null: INTERNAL_SERVER_ERROR.
   */
  function GetReviewAspects(users: map<string, User>, username: string): (r: Reply<seq<string>>)
    ensures username !in users ==> r == Refuse(NotFound)
    ensures username in users && users[username].reviewAspects.None? ==> r == Refuse(InternalServerError)
    ensures r.status == Ok ==> r.body.Some? && r.body.value != []
    ensures username in users && users[username].reviewAspects.Some? ==>
      var stored := ReviewAspectsList(users[username].reviewAspects.value);
      r == Answer(if stored == [] then DefaultAspects else stored)
  {
    if username !in users then Refuse(NotFound)
    else match users[username].reviewAspects
      case None => Refuse(InternalServerError)
      case Some(text) =>
        var aspects := ReviewAspectsList(text);
        Answer(if aspects == [] then DefaultAspects else aspects)
  }

  /** The defaults are well-formed aspects, so every successful read hands out only such aspects. */
  lemma DefaultAspectsWellFormed()
    ensures forall i :: 0 <= i < |DefaultAspects| ==> IsAspect(DefaultAspects[i])
  {
    FirstDefaults();
    MiddleDefaults();
    LaterDefaults();
    LastDefaults();
    assert |DefaultAspects| == 10;
    forall i | 0 <= i < 10 ensures IsAspect(DefaultAspects[i]) {
    }
  }

  lemma FirstDefaults()
    ensures IsAspect(DefaultAspects[0]) && IsAspect(DefaultAspects[1]) && IsAspect(DefaultAspects[2])
  {
  }

  lemma MiddleDefaults()
    ensures IsAspect(DefaultAspects[3]) && IsAspect(DefaultAspects[4]) && IsAspect(DefaultAspects[5])
  {
  }

  lemma LaterDefaults()
    ensures IsAspect(DefaultAspects[6]) && IsAspect(DefaultAspects[7])
  {
  }

  lemma LastDefaults()
    ensures IsAspect(DefaultAspects[8]) && IsAspect(DefaultAspects[9])
  {
  }

  /** `updateReviewAspects`: a missing or empty list keeps what is stored; any other list replaces it. */
  method UpdateReviewAspects(db: Db, username: string, aspects: Option<seq<string>>) returns (reply: Reply<()>)
    requires db.Valid()
    modifies db
    ensures db.Valid()
    ensures db.teams == old(db.teams) && db.tokens == old(db.tokens)
    ensures db.aiModels == old(db.aiModels) && db.roles == old(db.roles)
    ensures username !in old(db.users) ==> reply == Refuse(NotFound) && db.users == old(db.users)
    ensures username in old(db.users) ==> reply == Done()
    ensures username in old(db.users) && (aspects.None? || aspects.value == []) ==> db.users == old(db.users)
    ensures username in old(db.users) && aspects.Some? && aspects.value != [] ==>
      db.users == old(db.users)[username := old(db.users)[username].(reviewAspects := Some(StoredAspects(aspects.value)))]
  {
    if username !in db.users {
      return Refuse(NotFound);
    }
    if aspects.Some? && aspects.value != [] {
      var user := db.users[username].(reviewAspects := Some(StoredAspects(aspects.value)));
      db.users := db.users[username := user];
    }
    reply := Done();
  }

  /** A non-empty list of well-formed aspects, once stored, is what the next read returns. */
  lemma UpdateThenGet(users: map<string, User>, username: string, aspects: seq<string>)
    requires username in users && aspects != []
    requires forall i :: 0 <= i < |aspects| ==> IsAspect(aspects[i])
    ensures GetReviewAspects(users[username := users[username].(reviewAspects := Some(StoredAspects(aspects)))], username)
      == Answer(aspects)
  {
    AspectsRoundTrip(aspects);
  }

  /** A list made only of blank entries is stored, and the next read returns the defaults. */
  lemma BlankUpdateReadsDefaults(users: map<string, User>, username: string, blank: string)
    requires username in users && ',' !in blank && Trim(blank) == []
    ensures GetReviewAspects(users[username := users[username].(reviewAspects := Some(StoredAspects([blank])))], username)
      == Answer(DefaultAspects)
  {
    BlankPiecesVanish(blank);
  }
}
