/**
 * The team rosters filled when the scene is set up, and the two lookups tanks use to find
 * their team mates and their enemies.
 */
module Teams {
  import opened Messaging

  /** TeamOne and TeamTwo: the UIDs of each team's tanks, in creation order. */
  datatype Rosters = Rosters(teamOne: seq<UID>, teamTwo: seq<UID>)

  /** Team 0 is TeamOne; every other team number means TeamTwo. */
  function GetTeamTankUID(r: Rosters, teamID: int): (team: seq<UID>)
    ensures teamID == 0 ==> team == r.teamOne
    ensures teamID != 0 ==> team == r.teamTwo
  {
    if teamID == 0 then r.teamOne else r.teamTwo
  }

  /** The roster that GetTeamTankUID does not return. */
  function GetEnemyTankUID(r: Rosters, teamID: int): (enemies: seq<UID>)
    ensures teamID == 0 ==> enemies == r.teamTwo
    ensures teamID != 0 ==> enemies == r.teamOne
  {
    if teamID == 0 then r.teamTwo else r.teamOne
  }

  /**
   * For the two team numbers in use, the enemies of one team are the team of the other,
   * and team and enemies together are the two rosters.
   */
  lemma EnemiesAreTheOtherTeam(r: Rosters, teamID: int)
    requires teamID == 0 || teamID == 1
    ensures GetEnemyTankUID(r, teamID) == GetTeamTankUID(r, 1 - teamID)
    ensures {GetTeamTankUID(r, teamID), GetEnemyTankUID(r, teamID)} == {r.teamOne, r.teamTwo}
  {
  }
}
