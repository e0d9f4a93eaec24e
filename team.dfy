/** A team resource: its layout of roles, peer groups and management groups,
    its members, and the lookups agents make over them.

    The layout's dictionaries keep insertion order, and the peer and manager
    queries depend on that order, so each dictionary is a sequence of
    (key, value) pairs whose keys are distinct. */
module Team {
  import opened Wrappers

  /** Keys are distinct, as in a dictionary. */
  predicate DistinctKeys<V>(m: seq<(string, V)>) {
    forall i, j :: 0 <= i < j < |m| ==> m[i].0 != m[j].0
  }

  /** An insertion-ordered dictionary keyed by strings. */
  type Dict<V> = m: seq<(string, V)> | DistinctKeys(m) witness []

  function Keys<V>(m: seq<(string, V)>): set<string> {
    set i | 0 <= i < |m| :: m[i].0
  }

  /** `dict.get`: the value stored under `k`, or None when `k` is absent. */
  function Lookup<V(!new)>(m: Dict<V>, k: string): (r: Option<V>)
    ensures r.Some? <==> k in Keys(m)
    ensures forall v :: r == Some(v) <==> (k, v) in m
  {
    if |m| == 0 then None
    else if m[0].0 == k then Some(m[0].1)
    else
      assert Keys(m) == {m[0].0} + Keys(m[1..]);
      Lookup(m[1..], k)
  }

  /** Every role that appears in some peer group of `groups` alongside
      `role`, group by group in dictionary order, duplicates kept. */
  function PeersIn(groups: seq<(string, seq<string>)>, role: string): seq<string> {
    if |groups| == 0 then []
    else
      var last := groups[|groups| - 1].1;
      PeersIn(groups[..|groups| - 1], role) + (if role in last then last else [])
  }

  /** Some group of `groups` contains both roles. */
  predicate InSameGroup(groups: seq<(string, seq<string>)>, a: string, b: string) {
    exists i :: 0 <= i < |groups| && a in groups[i].1 && b in groups[i].1
  }

  /** The peers of a concatenation of groups are the peers in the first part
      followed by the peers in the second. */
  lemma {:induction false} PeersInAppend(g1: seq<(string, seq<string>)>, g2: seq<(string, seq<string>)>, role: string)
    ensures PeersIn(g1 + g2, role) == PeersIn(g1, role) + PeersIn(g2, role)
  {
    if |g2| == 0 {
      assert g1 + g2 == g1;
    } else {
      var front := g2[..|g2| - 1];
      assert (g1 + g2)[..|g1 + g2| - 1] == g1 + front;
      PeersInAppend(g1, front, role);
    }
  }

  /** `x` is a peer of `role` exactly when some group holds them both. */
  lemma {:induction false} PeersInMembership(groups: seq<(string, seq<string>)>, role: string, x: string)
    ensures x in PeersIn(groups, role) <==> InSameGroup(groups, role, x)
  {
    if |groups| > 0 {
      var front := groups[..|groups| - 1];
      PeersInMembership(front, role, x);
      if InSameGroup(front, role, x) {
        var i :| 0 <= i < |front| && role in front[i].1 && x in front[i].1;
        assert groups[i] == front[i];
      }
    }
  }

  /** A role has no peers exactly when no group contains it. */
  lemma {:induction false} PeersInEmpty(groups: seq<(string, seq<string>)>, role: string)
    ensures PeersIn(groups, role) == [] <==> forall i :: 0 <= i < |groups| ==> role !in groups[i].1
  {
    if |groups| > 0 {
      var front := groups[..|groups| - 1];
      PeersInEmpty(front, role);
      assert forall i :: 0 <= i < |front| ==> front[i] == groups[i];
    }
  }

  /** A role that belongs to some peer group is its own peer. */
  lemma {:induction false} SelfIsPeer(groups: seq<(string, seq<string>)>, role: string)
    requires exists i :: 0 <= i < |groups| && role in groups[i].1
    ensures role in PeersIn(groups, role)
  {
    PeersInMembership(groups, role, role);
  }

  /** Sharing a peer group is symmetric. */
  lemma {:induction false} PeersSymmetric(groups: seq<(string, seq<string>)>, a: string, b: string)
    ensures b in PeersIn(groups, a) <==> a in PeersIn(groups, b)
  {
    PeersInMembership(groups, a, b);
    PeersInMembership(groups, b, a);
  }

  /** The first manager, in dictionary order, whose managed roles include
      `role`; None when no manager manages it. */
  function FirstManager(groups: seq<(string, seq<string>)>, role: string): (r: Option<string>)
    ensures r.None? <==> forall i :: 0 <= i < |groups| ==> role !in groups[i].1
    ensures r.Some? ==> exists i :: 0 <= i < |groups| && groups[i].0 == r.value && role in groups[i].1 &&
                                    forall j :: 0 <= j < i ==> role !in groups[j].1
  {
    if |groups| == 0 then None
    else if role in groups[0].1 then Some(groups[0].0)
    else
      var r := FirstManager(groups[1..], role);
      assert r.Some? ==> exists i :: 1 <= i < |groups| && groups[i].0 == r.value && role in groups[i].1 &&
                                     forall j :: 0 <= j < i ==> role !in groups[j].1 by {
        if r.Some? {
          var k :| 0 <= k < |groups| - 1 && groups[1..][k].0 == r.value && role in groups[1..][k].1 &&
                   forall j :: 0 <= j < k ==> role !in groups[1..][j].1;
          assert forall j :: 0 <= j < k + 1 ==> role !in groups[j].1 by {
            forall j | 0 <= j < k + 1 ensures role !in groups[j].1 {
              if j > 0 { assert groups[j] == groups[1..][j - 1]; }
            }
          }
        }
      }
      assert r.None? ==> forall i :: 0 <= i < |groups| ==> role !in groups[i].1 by {
        if r.None? {
          forall i | 0 <= i < |groups| ensures role !in groups[i].1 {
            if i > 0 { assert groups[i] == groups[1..][i - 1]; }
          }
        }
      }
      r
  }

  datatype Role = Role(description: string)

  datatype Member = Member(identity: string, agent: string)

  datatype Layout = Layout(
    roles: Dict<Role>,
    peerGroups: Dict<seq<string>>,
    managementGroups: Dict<seq<string>>)
  {
    /** Roles that do not head a management group. */
    function NonManagerRoles(): (r: set<string>)
      ensures forall k :: k in r <==> Lookup(roles, k).Some? && Lookup(managementGroups, k).None?
    {
      Keys(roles) - Keys(managementGroups)
    }
  }

  datatype TeamSpec = TeamSpec(name: string, layout: Layout, members: Dict<Member>)
  {
    function GetRole(roleName: string): (r: Option<Role>)
      ensures forall role :: r == Some(role) <==> (roleName, role) in layout.roles
    {
      Lookup(layout.roles, roleName)
    }

    /** Concatenates, in peer-group order, every peer group holding `roleName`. */
    method GetRolePeers(roleName: string) returns (peers: seq<string>)
      ensures peers == PeersIn(layout.peerGroups, roleName)
    {
      var groups := layout.peerGroups;
      peers := [];
      var i := 0;
      while i < |groups|
        invariant 0 <= i <= |groups|
        invariant peers == PeersIn(groups[..i], roleName)
      {
        assert groups[..i + 1][..i] == groups[..i];
        if roleName in groups[i].1 {
          peers := peers + groups[i].1;
        }
        i := i + 1;
      }
      assert groups[..|groups|] == groups;
    }

    /** The first manager, in management-group order, that manages `roleName`. */
    method GetRoleManager(roleName: string) returns (manager: Option<string>)
      ensures manager == FirstManager(layout.managementGroups, roleName)
    {
      var groups := layout.managementGroups;
      var i := 0;
      while i < |groups|
        invariant 0 <= i <= |groups|
        invariant FirstManager(groups[i..], roleName) == FirstManager(groups, roleName)
      {
        assert groups[i..][1..] == groups[i + 1..];
        if roleName in groups[i].1 {
          return Some(groups[i].0);
        }
        i := i + 1;
      }
      return None;
    }
  }

  datatype TeamStatus = TeamStatus(name: string, status: string)

  /** The status a team starts in. */
  const DefaultTeamStatus: string := "active"

  datatype TeamResource = TeamResource(
    kind: string,
    metadata: Dict<string>,
    spec: TeamSpec,
    status: TeamStatus)
  {
    /** A new resource for `spec`: its status carries the team's name and
        the default status. */
    static function InitialState(spec: TeamSpec): (r: TeamResource)
      ensures r.kind == "Team" && r.metadata == [] && r.spec == spec
      ensures r.status.name == r.spec.name && r.status.status == DefaultTeamStatus
    {
      TeamResource("Team", [], spec, TeamStatus(spec.name, DefaultTeamStatus))
    }

    function GetRole(name: string): (r: Option<Role>)
      ensures forall role :: r == Some(role) <==> (name, role) in spec.layout.roles
    {
      spec.GetRole(name)
    }

    method GetRoleManager(name: string) returns (manager: Option<string>)
      ensures manager == FirstManager(spec.layout.managementGroups, name)
    {
      manager := spec.GetRoleManager(name);
    }

    /** The member filling `role`, or None. */
    function GetMemberByRole(role: string): (r: Option<Member>)
      ensures forall member :: r == Some(member) <==> (role, member) in spec.members
    {
      Lookup(spec.members, role)
    }

    method GetRolePeers(role: string) returns (peers: seq<string>)
      ensures peers == PeersIn(spec.layout.peerGroups, role)
    {
      peers := spec.GetRolePeers(role);
    }

    /** Whether `roleTwo` is among the peers of `roleOne`, i.e. some peer
        group contains both. */
    method RolesSharePeerGroup(roleOne: string, roleTwo: string) returns (shared: bool)
      ensures shared <==> InSameGroup(spec.layout.peerGroups, roleOne, roleTwo)
    {
      var peers := spec.GetRolePeers(roleOne);
      PeersInMembership(spec.layout.peerGroups, roleOne, roleTwo);
      var i := 0;
      while i < |peers|
        invariant 0 <= i <= |peers|
        invariant roleTwo !in peers[..i]
      {
        if peers[i] == roleTwo {
          return true;
        }
        assert peers[..i + 1] == peers[..i] + [peers[i]];
        i := i + 1;
      }
      assert peers[..|peers|] == peers;
      return false;
    }
  }
}
