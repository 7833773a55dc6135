/**
 * The first steps of `receiveWebhook`: the token gate, the author lookup and the choice
 * of AI, model and aspects for the review that follows.
 */
module WebhookIntake {
  import opened Common
  import opened Text
  import opened Http
  import opened Entities
  import opened Repositories

  /**
   * The gate: an unknown or inactive token gives NOT_FOUND, an active token whose expiry
   * lies before `now` gives GONE, anything else lets the request through.
   */
  function TokenGate(tokens: seq<WebhookToken>, token: string, now: int): (r: Result<WebhookToken, Status>)
    ensures r.Failure? ==> r.error == NotFound || r.error == Gone
    ensures r == Failure(NotFound) <==> forall i :: 0 <= i < |tokens| ==> !(tokens[i].active && tokens[i].token == token)
    ensures r == Failure(Gone) ==>
      exists i :: 0 <= i < |tokens| && tokens[i].active && tokens[i].token == token
                  && tokens[i].expiresAt.Some? && tokens[i].expiresAt.value < now
    ensures r.Success? ==> r.value in tokens && r.value.active && r.value.token == token
                           && (r.value.expiresAt.None? || now <= r.value.expiresAt.value)
  {
    match ActiveTokenNamed(tokens, token)
    case None => Failure(NotFound)
    case Some(i) =>
      var t := tokens[i];
      if t.expiresAt.Some? && t.expiresAt.value < now then Failure(Gone) else Success(t)
  }

  /** With the token column unique, an active token is let through exactly while it has not expired. */
  lemma GateDecidedByExpiry(tokens: seq<WebhookToken>, token: string, now: int, i: nat)
    requires TokensUnique(tokens)
    requires i < |tokens| && tokens[i].active && tokens[i].token == token
    ensures TokenGate(tokens, token, now).Success? <==> tokens[i].expiresAt.None? || now <= tokens[i].expiresAt.value
    ensures TokenGate(tokens, token, now).Failure? ==> TokenGate(tokens, token, now) == Failure(Gone)
  {
    SameTokenSamePosition(tokens, ActiveTokenNamed(tokens, token).value, i);
  }

  lemma SameTokenSamePosition(tokens: seq<WebhookToken>, i: nat, j: nat)
    requires TokensUnique(tokens)
    requires i < |tokens| && j < |tokens| && tokens[i].token == tokens[j].token
    ensures i == j
  {
  }

  /** What the review of a pull request will be asked for. */
  datatype ReviewPlan = ReviewPlan(username: string, ai: string, model: string, aspects: seq<string>)

  /** The provider name: the user's model's provider in lower case, "ChatGPT" when no model is chosen. */
  function PreferredAi(user: User): string
  {
    match user.aiModel
    case None => "ChatGPT"
    case Some(m) => Lower(m.ai)
  }

  /** The model name: the user's model, "gpt-4o" when none is chosen. */
  function PreferredModel(user: User): string
  {
    match user.aiModel
    case None => "gpt-4o"
    case Some(m) => m.model
  }

  /**
   * `receiveWebhook` up to the review: the token gate first, then the user whose
   * Bitbucket id is the pull request author's (NOT_FOUND without one), then the AI,
   * model and aspects. A user whose aspect column is null fails with INTERNAL_SERVER_ERROR
   * when the aspects are read; the changed files have already been requested from
   * Bitbucket by then (that call is not modelled), but nothing is reviewed.
   */
  method ReceiveWebhook(db: Db, token: string, authorUuid: string, now: int) returns (r: Result<ReviewPlan, Status>)
    requires db.Valid()
    ensures TokenGate(db.tokens, token, now).Failure? ==> r == Failure(TokenGate(db.tokens, token, now).error)
    ensures TokenGate(db.tokens, token, now).Success? && (forall u :: u in db.users ==> db.users[u].bitbucketUuid != Some(authorUuid))
            ==> r == Failure(NotFound)
    ensures r.Failure? ==> r.error == NotFound || r.error == Gone || r.error == InternalServerError
    ensures TokenGate(db.tokens, token, now).Success? && (exists u :: u in db.users && db.users[u].bitbucketUuid == Some(authorUuid))
            ==> r.Success? || r == Failure(InternalServerError)
    ensures r == Failure(InternalServerError) ==>
      exists u :: u in db.users && db.users[u].bitbucketUuid == Some(authorUuid) && db.users[u].reviewAspects.None?
    ensures TokenGate(db.tokens, token, now).Success? && (exists u :: u in db.users && db.users[u].bitbucketUuid == Some(authorUuid))
            && (forall u :: u in db.users && db.users[u].bitbucketUuid == Some(authorUuid) ==> db.users[u].reviewAspects.Some?)
            ==> r.Success?
    ensures r.Success? ==>
      TokenGate(db.tokens, token, now).Success?
      && r.value.username in db.users
      && var user := db.users[r.value.username];
      && user.bitbucketUuid == Some(authorUuid)
      && r.value.ai == PreferredAi(user)
      && r.value.model == PreferredModel(user)
      && user.reviewAspects.Some? && r.value.aspects == ReviewAspectsList(user.reviewAspects.value)
  {
    var gate := TokenGate(db.tokens, token, now);
    if gate.Failure? {
      return Failure(gate.error);
    }
    if forall u :: u in db.users ==> db.users[u].bitbucketUuid != Some(authorUuid) {
      return Failure(NotFound);
    }
    var name :| name in db.users && db.users[name].bitbucketUuid == Some(authorUuid);
    var user := db.users[name];
    if user.reviewAspects.None? {
      return Failure(InternalServerError);
    }
    r := Success(ReviewPlan(name, PreferredAi(user), PreferredModel(user), ReviewAspectsList(user.reviewAspects.value)));
  }
}
