/**
 * The team service: creating, joining, leaving and deleting teams, with the
 * ROLE_TEAM_ADMIN role following team ownership. Each operation runs in one transaction,
 * so a failing call leaves the database as it was.
 */
module Teams {
  import opened Common
  import opened Text
  import opened Entities
  import opened Repositories

  /** The exceptions the service throws, with their messages. */
  datatype TeamError =
    | TeamAlreadyExists(message: string)
    | ResourceNotFound(message: string)
    | WrongTeamPassword
    | AlreadyMember(message: string)
    | AccessDenied(message: string)

  function UserNotFound(username: string): TeamError
  {
    ResourceNotFound("User not found: " + username)
  }

  function TeamNotFound(id: nat): TeamError
  {
    ResourceNotFound("Team not found: " + NatToString(id))
  }

  // ---------------------------------------------------------------------------
  // Queries

  /** `findById`. */
  function FindById(teams: map<nat, Team>, id: nat): (r: Result<Team, TeamError>)
    ensures r.Success? <==> id in teams
    ensures r.Success? ==> r.value == teams[id]
    ensures r.Failure? ==> r.error == TeamNotFound(id)
  {
    if id in teams then Success(teams[id]) else Failure(TeamNotFound(id))
  }

  /** `isTeamAdmin`: whether the user created the team. */
  function IsTeamAdmin(teams: map<nat, Team>, id: nat, username: string): (r: Result<bool, TeamError>)
    ensures r.Failure? <==> id !in teams
    ensures r.Failure? ==> r.error == TeamNotFound(id)
    ensures r.Success? ==> (r.value <==> teams[id].createdBy == username)
  {
    match FindById(teams, id)
    case Failure(e) => Failure(e)
    case Success(team) => Success(team.createdBy == username)
  }

  /** `isTeamMember`: whether some member has this username. */
  function IsTeamMember(teams: map<nat, Team>, id: nat, username: string): (r: Result<bool, TeamError>)
    ensures r.Failure? <==> id !in teams
    ensures r.Failure? ==> r.error == TeamNotFound(id)
    ensures r.Success? ==> (r.value <==> exists m :: m in teams[id].members && m == username)
  {
    match FindById(teams, id)
    case Failure(e) => Failure(e)
    case Success(team) => Success(username in team.members)
  }

  /** In every stored state the admin of a team is one of its members. */
  lemma AdminIsMember(teams: map<nat, Team>, users: map<string, User>, id: nat, username: string)
    requires TeamsWellFormed(teams, users)
    requires IsTeamAdmin(teams, id, username) == Success(true)
    ensures IsTeamMember(teams, id, username) == Success(true)
  {
    assert teams[id].createdBy == username;
  }

  /** `removeTeamAdminRole`: the user loses ROLE_TEAM_ADMIN and keeps every other role and field. */
  function RemoveTeamAdminRole(user: User): (r: User)
    ensures RoleTeamAdmin !in r.roles
    ensures forall role :: role != RoleTeamAdmin ==> (role in r.roles <==> role in user.roles)
    ensures r.(roles := user.roles) == user
  {
    user.(roles := user.roles - {RoleTeamAdmin})
  }

  /**
   * The users after an owner gives up team `id`: the owner loses ROLE_TEAM_ADMIN unless
   * they created another team.
   */
  function RevokeAdminUnlessOwner(users: map<string, User>, teams: map<nat, Team>, username: string, id: nat): (r: map<string, User>)
    requires username in users
    ensures r.Keys == users.Keys
    ensures forall u :: u in users && u != username ==> r[u] == users[u]
    ensures r[username].(roles := users[username].roles) == users[username]
    ensures RoleTeamAdmin in r[username].roles <==>
      RoleTeamAdmin in users[username].roles && HasOtherCreatedTeams(teams, username, id)
  {
    if HasOtherCreatedTeams(teams, username, id) then users
    else users[username := RemoveTeamAdminRole(users[username])]
  }

  lemma RevokeKeepsUsersKeyed(users: map<string, User>, teams: map<nat, Team>, username: string, id: nat)
    requires username in users && UsersKeyed(users)
    ensures UsersKeyed(RevokeAdminUnlessOwner(users, teams, username, id))
  {
    var r := RevokeAdminUnlessOwner(users, teams, username, id);
    assert r[username].username == users[username].username;
  }

  // ---------------------------------------------------------------------------
  // Operations

  /**
   * `createTeam`: a taken name is refused (whatever the password), then an unknown creator,
   * then a missing ROLE_TEAM_ADMIN role; otherwise the team is stored under `newId` with the
   * creator as owner and only member, and the creator gains ROLE_TEAM_ADMIN.
   */
  method CreateTeam(db: Db, name: string, password: string, creator: string, newId: nat) returns (r: Result<Team, TeamError>)
    requires db.Valid()
    requires newId !in db.teams
    modifies db
    ensures db.Valid()
    ensures db.tokens == old(db.tokens) && db.aiModels == old(db.aiModels) && db.roles == old(db.roles)
    ensures TeamNameTaken(old(db.teams), name) ==>
      r == Failure(TeamAlreadyExists("A team with this name and password already exists."))
    ensures !TeamNameTaken(old(db.teams), name) && creator !in old(db.users) ==> r == Failure(UserNotFound(creator))
    ensures !TeamNameTaken(old(db.teams), name) && creator in old(db.users) && RoleTeamAdmin !in db.roles ==>
      r == Failure(ResourceNotFound("Role not found: ROLE_TEAM_ADMIN"))
    ensures r.Failure? ==> db.teams == old(db.teams) && db.users == old(db.users)
    ensures r.Success? ==>
      r.value == Team(newId, name, password, creator, {creator})
      && db.teams == old(db.teams)[newId := r.value]
      && creator in old(db.users)
      && db.users == old(db.users)[creator := old(db.users)[creator].(roles := old(db.users)[creator].roles + {RoleTeamAdmin})]
  {
    if TeamNameTaken(db.teams, name) {
      return Failure(TeamAlreadyExists("A team with this name and password already exists."));
    }
    if creator !in db.users {
      return Failure(UserNotFound(creator));
    }
    var team := Team(newId, name, password, creator, {creator});
    // The team is saved before the role lookup; a missing role rolls the save back.
    if RoleTeamAdmin !in db.roles {
      return Failure(ResourceNotFound("Role not found: ROLE_TEAM_ADMIN"));
    }
    db.teams := db.teams[newId := team];
    var user := db.users[creator];
    db.users := db.users[creator := user.(roles := user.roles + {RoleTeamAdmin})];
    r := Success(team);
  }

  /**
   * `joinTeam`: an unknown user, then an unknown team, then a wrong password, then an
   * existing membership are refused; otherwise exactly this user is added to the members.
   */
  method JoinTeam(db: Db, id: nat, username: string, password: string) returns (r: Result<(), TeamError>)
    requires db.Valid()
    modifies db
    ensures db.Valid()
    ensures db.users == old(db.users) && db.tokens == old(db.tokens)
    ensures db.aiModels == old(db.aiModels) && db.roles == old(db.roles)
    ensures username !in db.users ==> r == Failure(UserNotFound(username))
    ensures username in db.users && id !in old(db.teams) ==> r == Failure(TeamNotFound(id))
    ensures username in db.users && id in old(db.teams) && old(db.teams)[id].password != password ==>
      r == Failure(WrongTeamPassword)
    ensures username in db.users && id in old(db.teams) && old(db.teams)[id].password == password
            && username in old(db.teams)[id].members ==>
      r == Failure(AlreadyMember("You are already a member of team " + NatToString(id)))
    ensures r.Failure? ==> db.teams == old(db.teams)
    ensures r.Success? ==>
      id in old(db.teams) && username !in old(db.teams)[id].members
      && db.teams == old(db.teams)[id := old(db.teams)[id].(members := old(db.teams)[id].members + {username})]
  {
    if username !in db.users {
      return Failure(UserNotFound(username));
    }
    var found := FindById(db.teams, id);
    if found.Failure? {
      return Failure(found.error);
    }
    var team := found.value;
    if team.password != password {
      return Failure(WrongTeamPassword);
    }
    if username in team.members {
      return Failure(AlreadyMember("You are already a member of team " + NatToString(id)));
    }
    db.teams := db.teams[id := team.(members := team.members + {username})];
    r := Success(());
  }

  /**
   * `leaveTeam`: an unknown user, an unknown team and a non-member are refused. A member
   * who did not create the team is removed from it. When the creator leaves, the team is
   * deleted if nobody remains and otherwise passes to some remaining member (who gains
   * no role); either way the creator loses ROLE_TEAM_ADMIN unless they created another team.
   */
  method LeaveTeam(db: Db, id: nat, username: string) returns (r: Result<(), TeamError>)
    requires db.Valid()
    modifies db
    ensures db.Valid()
    ensures db.tokens == old(db.tokens) && db.aiModels == old(db.aiModels) && db.roles == old(db.roles)
    ensures username !in old(db.users) ==> r == Failure(UserNotFound(username))
    ensures username in old(db.users) && id !in old(db.teams) ==> r == Failure(TeamNotFound(id))
    ensures username in old(db.users) && id in old(db.teams) && username !in old(db.teams)[id].members ==>
      r == Failure(ResourceNotFound("User " + username + " is not a member of team " + NatToString(id)))
    ensures r.Failure? ==> db.teams == old(db.teams) && db.users == old(db.users)
    ensures r.Success? ==> username in old(db.users) && id in old(db.teams) && username in old(db.teams)[id].members
    ensures r.Success? && old(db.teams)[id].createdBy != username ==>
      db.users == old(db.users)
      && db.teams == old(db.teams)[id := old(db.teams)[id].(members := old(db.teams)[id].members - {username})]
    ensures r.Success? && old(db.teams)[id].createdBy == username ==>
      db.users == RevokeAdminUnlessOwner(old(db.users), old(db.teams), username, id)
    ensures r.Success? && old(db.teams)[id].createdBy == username && old(db.teams)[id].members == {username} ==>
      db.teams == old(db.teams) - {id}
    ensures r.Success? && old(db.teams)[id].createdBy == username && old(db.teams)[id].members != {username} ==>
      id in db.teams
      && db.teams[id].createdBy in old(db.teams)[id].members - {username}
      && db.teams == old(db.teams)[id := old(db.teams)[id].(members := old(db.teams)[id].members - {username},
                                                           createdBy := db.teams[id].createdBy)]
  {
    if username !in db.users {
      return Failure(UserNotFound(username));
    }
    var found := FindById(db.teams, id);
    if found.Failure? {
      return Failure(found.error);
    }
    var team := found.value;
    if username !in team.members {
      return Failure(ResourceNotFound("User " + username + " is not a member of team " + NatToString(id)));
    }
    var isCreator := team.createdBy == username;
    var rest := team.members - {username};
    if isCreator {
      RevokeKeepsUsersKeyed(db.users, db.teams, username, id);
      var users := RevokeAdminUnlessOwner(db.users, db.teams, username, id);
      if rest == {} {
        db.teams := db.teams - {id};
        db.users := users;
        return Success(());
      }
      var newOwner :| newOwner in rest;
      db.teams := db.teams[id := team.(members := rest, createdBy := newOwner)];
      db.users := users;
    } else {
      db.teams := db.teams[id := team.(members := rest)];
    }
    r := Success(());
  }

  /**
   * `deleteTeam`: an unknown team, then an unknown user, then a user who is not the
   * creator are refused. Otherwise every member is visited, the creator losing
   * ROLE_TEAM_ADMIN unless they created another team, and the team is deleted (so it
   * leaves every member's set of teams).
   */
  method DeleteTeam(db: Db, id: nat, username: string) returns (r: Result<(), TeamError>)
    requires db.Valid()
    modifies db
    ensures db.Valid()
    ensures db.tokens == old(db.tokens) && db.aiModels == old(db.aiModels) && db.roles == old(db.roles)
    ensures id !in old(db.teams) ==> r == Failure(TeamNotFound(id))
    ensures id in old(db.teams) && username !in old(db.users) ==> r == Failure(UserNotFound(username))
    ensures id in old(db.teams) && username in old(db.users) && old(db.teams)[id].createdBy != username ==>
      r == Failure(AccessDenied("You are not the admin of the team: " + username))
    ensures r.Failure? ==> db.teams == old(db.teams) && db.users == old(db.users)
    ensures r.Success? ==>
      id in old(db.teams) && username in old(db.users) && old(db.teams)[id].createdBy == username
      && db.teams == old(db.teams) - {id}
      && db.users == RevokeAdminUnlessOwner(old(db.users), old(db.teams), username, id)
  {
    var found := FindById(db.teams, id);
    if found.Failure? {
      return Failure(found.error);
    }
    var team := found.value;
    if username !in db.users {
      return Failure(UserNotFound(username));
    }
    if team.createdBy != username {
      return Failure(AccessDenied("You are not the admin of the team: " + username));
    }
    var revoked := RevokeAdminUnlessOwner(db.users, db.teams, username, id);
    RevokeKeepsUsersKeyed(db.users, db.teams, username, id);
    var remaining := team.members;
    while remaining != {}
      invariant remaining <= team.members
      invariant db.teams == old(db.teams) && db.tokens == old(db.tokens)
      invariant db.aiModels == old(db.aiModels) && db.roles == old(db.roles)
      invariant db.users == if username in team.members - remaining then revoked else old(db.users)
      decreases remaining
    {
      var member :| member in remaining;
      if member in db.users {
        if member == username && !HasOtherCreatedTeams(db.teams, username, id) {
          db.users := db.users[member := RemoveTeamAdminRole(db.users[member])];
        }
      }
      remaining := remaining - {member};
    }
    db.teams := db.teams - {id};
    r := Success(());
  }
}
