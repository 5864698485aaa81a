/** The command gate: every command passes it before it runs. */
module Permissions {
  import opened VoiceTypes

  /** Whether some role of the member is named `djRoleName`. */
  function HasDjRole(roles: seq<string>, djRoleName: string): (r: bool)
    ensures r <==> exists i :: 0 <= i < |roles| && roles[i] == djRoleName
  {
    if roles == [] then false
    else if roles[0] == djRoleName then true
    else
      var rest := HasDjRole(roles[1..], djRoleName);
      assert forall i :: 1 <= i < |roles| ==> roles[i] == roles[1..][i - 1];
      rest
  }

  /** The global check: the blocked user is always refused, anyone else needs
      the DJ role. */
  function CommandAllowed(config: Config, author: UserId, roles: seq<string>): (r: bool)
    ensures author == config.blockedUser ==> !r
    ensures author != config.blockedUser ==>
      (r <==> exists i :: 0 <= i < |roles| && roles[i] == config.djRoleName)
  {
    if author == config.blockedUser then false
    else if HasDjRole(roles, config.djRoleName) then true
    else false
  }
}
