/**
 * The database behind the repositories, held in memory: users keyed by username,
 * teams keyed by id, the webhook-token table, the AI model catalogue and the role table.
 * The derived queries the services call (`findByUserAndActiveTrue`,
 * `findByTokenAndActiveTrue`, `findAllByCreatedBy`, ...) are functions over it.
 */
module Repositories {
  import opened Common
  import opened Text
  import opened Entities

  // ---------------------------------------------------------------------------
  // What every stored state satisfies

  /** Each user is stored under its own username. */
  predicate UsersKeyed(users: map<string, User>)
  {
    forall u :: u in users ==> users[u].username == u
  }

  /**
   * Each team is stored under its id, its creator is one of its members, its members are
   * known users, and no two teams share a name.
   */
  predicate TeamsWellFormed(teams: map<nat, Team>, users: map<string, User>)
  {
    (forall id :: id in teams ==>
      teams[id].id == id && teams[id].createdBy in teams[id].members && teams[id].members <= users.Keys)
    && (forall a, b :: a in teams && b in teams && teams[a].name == teams[b].name ==> a == b)
  }

  /** The token column is unique. */
  predicate TokensUnique(tokens: seq<WebhookToken>)
  {
    forall i, j :: 0 <= i < j < |tokens| ==> tokens[i].token != tokens[j].token
  }

  /** No user has two active tokens. */
  predicate AtMostOneActive(tokens: seq<WebhookToken>)
  {
    forall i, j :: 0 <= i < j < |tokens| && tokens[i].active && tokens[j].active ==> tokens[i].owner != tokens[j].owner
  }

  predicate TokensWellFormed(tokens: seq<WebhookToken>)
  {
    TokensUnique(tokens) && AtMostOneActive(tokens)
  }

  // ---------------------------------------------------------------------------
  // Queries

  predicate IsActiveOf(t: WebhookToken, owner: string) { t.active && t.owner == owner }

  /** `findByUserAndActiveTrue`: the position of the user's active token. */
  function ActiveTokenOf(tokens: seq<WebhookToken>, owner: string): (r: Option<nat>)
    ensures r.Some? ==> r.value < |tokens| && IsActiveOf(tokens[r.value], owner)
    ensures r.None? ==> forall i :: 0 <= i < |tokens| ==> !IsActiveOf(tokens[i], owner)
  {
    if tokens == [] then None
    else if IsActiveOf(tokens[|tokens| - 1], owner) then Some(|tokens| - 1)
    else ActiveTokenOf(tokens[..|tokens| - 1], owner)
  }

  /** `findByTokenAndActiveTrue`: the position of the active token with this value. */
  function ActiveTokenNamed(tokens: seq<WebhookToken>, token: string): (r: Option<nat>)
    ensures r.Some? ==> r.value < |tokens| && tokens[r.value].active && tokens[r.value].token == token
    ensures r.None? ==> forall i :: 0 <= i < |tokens| ==> !(tokens[i].active && tokens[i].token == token)
  {
    if tokens == [] then None
    else if tokens[|tokens| - 1].active && tokens[|tokens| - 1].token == token then Some(|tokens| - 1)
    else ActiveTokenNamed(tokens[..|tokens| - 1], token)
  }

  predicate TokenTaken(tokens: seq<WebhookToken>, token: string)
  {
    exists i :: 0 <= i < |tokens| && tokens[i].token == token
  }

  /** `findAllByCreatedBy(user)` holds a team other than `excludeId`. */
  predicate HasOtherCreatedTeams(teams: map<nat, Team>, username: string, excludeId: nat)
  {
    exists id :: id in teams && id != excludeId && teams[id].createdBy == username
  }

  /** `findByName`. */
  predicate TeamNameTaken(teams: map<nat, Team>, name: string)
  {
    exists id :: id in teams && teams[id].name == name
  }

  // ---------------------------------------------------------------------------
  // Turning a user's active token off

  /** The token table after the user's active token, if any, has been set inactive and saved. */
  function DeactivateActive(tokens: seq<WebhookToken>, owner: string): seq<WebhookToken>
  {
    match ActiveTokenOf(tokens, owner)
    case None => tokens
    case Some(i) => tokens[i := tokens[i].(active := false)]
  }

  /** With at most one active token per user, the query finds the only one. */
  lemma ActiveTokenIsOnly(tokens: seq<WebhookToken>, owner: string, j: nat)
    requires AtMostOneActive(tokens)
    requires j < |tokens| && IsActiveOf(tokens[j], owner)
    ensures ActiveTokenOf(tokens, owner) == Some(j)
  {
    SameOwnerSameToken(tokens, owner, ActiveTokenOf(tokens, owner).value, j);
  }

  lemma SameOwnerSameToken(tokens: seq<WebhookToken>, owner: string, i: nat, j: nat)
    requires AtMostOneActive(tokens)
    requires i < |tokens| && IsActiveOf(tokens[i], owner)
    requires j < |tokens| && IsActiveOf(tokens[j], owner)
    ensures i == j
  {
  }

  /**
   * Deactivation leaves the user with no active token, changes nothing but that one
   * flag, and keeps the table well formed.
   */
  lemma DeactivateActiveSpec(tokens: seq<WebhookToken>, owner: string)
    requires TokensWellFormed(tokens)
    ensures var r := DeactivateActive(tokens, owner);
      |r| == |tokens|
      && TokensWellFormed(r)
      && ActiveTokenOf(r, owner).None?
      && (forall i :: 0 <= i < |tokens| ==> r[i] == tokens[i] || r[i] == tokens[i].(active := false))
      && (forall i :: 0 <= i < |tokens| && !IsActiveOf(tokens[i], owner) ==> r[i] == tokens[i])
  {
    var r := DeactivateActive(tokens, owner);
    match ActiveTokenOf(tokens, owner)
    case None =>
    case Some(k) =>
      forall i | 0 <= i < |tokens| && IsActiveOf(tokens[i], owner) ensures i == k {
        SameOwnerSameToken(tokens, owner, i, k);
      }
  }

  /** A fresh active token appended after deactivation is the user's only active one. */
  lemma IssueAfterDeactivate(tokens: seq<WebhookToken>, owner: string, token: string, expiresAt: Option<int>)
    requires TokensWellFormed(tokens)
    requires !TokenTaken(DeactivateActive(tokens, owner), token)
    ensures var r := DeactivateActive(tokens, owner) + [WebhookToken(token, owner, true, expiresAt)];
      TokensWellFormed(r) && ActiveTokenOf(r, owner) == Some(|tokens|)
  {
    DeactivateActiveSpec(tokens, owner);
    var d := DeactivateActive(tokens, owner);
    var r := d + [WebhookToken(token, owner, true, expiresAt)];
    forall i, j | 0 <= i < j < |r| ensures r[i].token != r[j].token {
      if j == |d| {
        assert r[i] == d[i];
      }
    }
    forall i, j | 0 <= i < j < |r| && r[i].active && r[j].active ensures r[i].owner != r[j].owner {
      if j == |d| {
        assert !IsActiveOf(d[i], owner);
      }
    }
  }

  // ---------------------------------------------------------------------------
  // The database

  class Db {
    var users: map<string, User>
    var teams: map<nat, Team>
    var tokens: seq<WebhookToken>
    var aiModels: seq<AiModel>
    var roles: set<string>

    ghost predicate Valid()
      reads this
    {
      UsersKeyed(users) && TeamsWellFormed(teams, users) && TokensWellFormed(tokens)
    }

    /** An empty database whose role table holds `roles` and whose catalogue holds `aiModels`. */
    constructor (roles: set<string>, aiModels: seq<AiModel>)
      ensures Valid()
      ensures this.users == map[] && this.teams == map[] && this.tokens == []
      ensures this.roles == roles && this.aiModels == aiModels
    {
      this.users := map[];
      this.teams := map[];
      this.tokens := [];
      this.roles := roles;
      this.aiModels := aiModels;
    }
  }
}
