/** Workspace memberships (services/api/src/identity-repository.ts:217-317, 434-458). A transaction locks the
    workspace's rows, so it is one step. */
module Memberships {
  import opened Ids
  import opened Numbers
  import opened Wrappers

  datatype Role = Owner | Admin | Member

  datatype Refusal = ActorNotAuthorized | OwnerRequired | LastWorkspaceOwner

  type Rows = map<(WorkspaceId, UserId), Role>

  function RoleOf(rows: Rows, w: WorkspaceId, u: UserId): Option<Role> {
    if (w, u) in rows then Some(rows[(w, u)]) else None
  }

  function Owners(rows: Rows, w: WorkspaceId): set<UserId> {
    set k | k in rows && k.0 == w && rows[k] == Owner :: k.1
  }

  /** `role` is `None` for a deletion. */
  datatype Mutation = Mutation(workspace: WorkspaceId, actor: UserId, target: UserId, role: Option<Role>)

  function Refused(rows: Rows, m: Mutation): Option<Refusal> {
    var actor, target := RoleOf(rows, m.workspace, m.actor), RoleOf(rows, m.workspace, m.target);
    if actor != Some(Owner) && actor != Some(Admin) then Some(ActorNotAuthorized)
    else if (target == Some(Owner) || m.role == Some(Owner)) && actor != Some(Owner) then Some(OwnerRequired)
    else if target == Some(Owner) && m.role != Some(Owner) && |Owners(rows, m.workspace)| <= 1
    then Some(LastWorkspaceOwner)
    else None
  }

  function Apply(rows: Rows, m: Mutation): Rows {
    if Refused(rows, m).Some? then rows
    else if m.role.None? then rows - {(m.workspace, m.target)}
    else rows[(m.workspace, m.target) := m.role.value]
  }

  class PgIdentityRepository {
    var rows: Rows

    constructor (rows: Rows)
      ensures this.rows == rows
    {
      this.rows := rows;
    }

    method CountOwners(w: WorkspaceId) returns (count: nat)
      ensures count == |Owners(rows, w)|
    {
      count := 0;
      var rest := rows.Keys;
      ghost var seen: set<UserId> := {};
      while rest != {}
        invariant rest <= rows.Keys
        invariant seen == set k | k in rows && k !in rest && k.0 == w && rows[k] == Owner :: k.1
        invariant count == |seen|
        decreases |rest|
      {
        var key :| key in rest;
        rest := rest - {key};
        if key.0 == w && rows[key] == Owner {
          assert key == (w, key.1);
          count, seen := count + 1, seen + {key.1};
        }
      }
      assert seen == Owners(rows, w);
    }

    method CheckMutation(m: Mutation) returns (refusal: Option<Refusal>)
      ensures refusal == Refused(rows, m)
    {
      var actor, target := RoleOf(rows, m.workspace, m.actor), RoleOf(rows, m.workspace, m.target);
      if actor != Some(Owner) && actor != Some(Admin) {
        return Some(ActorNotAuthorized);
      }
      if (target == Some(Owner) || m.role == Some(Owner)) && actor != Some(Owner) {
        return Some(OwnerRequired);
      }
      if target == Some(Owner) && m.role != Some(Owner) {
        var owners := CountOwners(m.workspace);
        if owners <= 1 {
          return Some(LastWorkspaceOwner);
        }
      }
      return None;
    }

    method UpsertWorkspaceMembership(w: WorkspaceId, actor: UserId, target: UserId, role: Role)
      returns (refusal: Option<Refusal>)
      modifies this
      ensures refusal == Refused(old(rows), Mutation(w, actor, target, Some(role)))
      ensures rows == Apply(old(rows), Mutation(w, actor, target, Some(role)))
    {
      refusal := CheckMutation(Mutation(w, actor, target, Some(role)));
      if refusal.None? {
        rows := rows[(w, target) := role];
      }
    }

    method DeleteWorkspaceMembership(w: WorkspaceId, actor: UserId, target: UserId)
      returns (refusal: Option<Refusal>, deleted: bool)
      modifies this
      ensures refusal == Refused(old(rows), Mutation(w, actor, target, None))
      ensures rows == Apply(old(rows), Mutation(w, actor, target, None))
      ensures deleted <==> refusal.None? && (w, target) in old(rows)
    {
      deleted := false;
      refusal := CheckMutation(Mutation(w, actor, target, None));
      if refusal.None? {
        deleted := (w, target) in rows;
        rows := rows - {(w, target)};
      }
    }
  }

  lemma OwnerIsInOwners(rows: Rows, w: WorkspaceId, u: UserId)
    ensures u in Owners(rows, w) <==> RoleOf(rows, w, u) == Some(Owner)
  {
    if (w, u) in rows && rows[(w, u)] == Owner {
      var k := (w, u);
      assert k in rows && k.0 == w && rows[k] == Owner;
    }
  }

  lemma OneOfTwoRemains(owners: set<UserId>, gone: UserId) returns (kept: UserId)
    requires |owners| >= 2
    ensures kept in owners && kept != gone
  {
    var rest := owners - {gone};
    if rest == {} {
      assert owners <= {gone};
      SubsetIsNoLarger(owners, {gone});
    }
    kept :| kept in rest;
  }

  lemma OnlyOne(owners: set<UserId>, u: UserId, v: UserId)
    requires |owners| <= 1 && u in owners && v in owners
    ensures u == v
  {
    SubsetIsNoLarger({u, v}, owners);
  }

  lemma StepKeepsAnOwner(rows: Rows, m: Mutation, w: WorkspaceId)
    requires Owners(rows, w) != {}
    ensures Owners(Apply(rows, m), w) != {}
  {
    var u :| u in Owners(rows, w);
    OwnerIsInOwners(rows, w, u);
    if m.workspace == w && Refused(rows, m).None? && RoleOf(rows, w, m.target) == Some(Owner) && m.role != Some(Owner) {
      u := OneOfTwoRemains(Owners(rows, w), m.target);
      OwnerIsInOwners(rows, w, u);
    } else if m.workspace == w && u == m.target && m.role == Some(Owner) {
      OwnerIsInOwners(Apply(rows, m), w, m.target);
    }
    OwnerIsInOwners(Apply(rows, m), w, u);
  }

  function ApplyAll(rows: Rows, mutations: seq<Mutation>): Rows {
    if mutations == [] then rows
    else Apply(ApplyAll(rows, mutations[..|mutations| - 1]), mutations[|mutations| - 1])
  }

  /** A workspace that has an owner keeps one, whatever is attempted by whom; one without an owner never gets one. */
  lemma {:induction false} OwnedIffStaysOwned(rows: Rows, mutations: seq<Mutation>, w: WorkspaceId)
    ensures Owners(ApplyAll(rows, mutations), w) != {} <==> Owners(rows, w) != {}
  {
    if mutations != [] {
      var before, m := mutations[..|mutations| - 1], mutations[|mutations| - 1];
      OwnedIffStaysOwned(rows, before, w);
      var mid := ApplyAll(rows, before);
      if Owners(mid, w) != {} {
        StepKeepsAnOwner(mid, m, w);
      } else {
        NoOwnerMakesNone(mid, m, w);
      }
    }
  }

  lemma NoOwnerMakesNone(rows: Rows, m: Mutation, w: WorkspaceId)
    requires Owners(rows, w) == {}
    ensures Owners(Apply(rows, m), w) == {}
  {
    OwnerIsInOwners(rows, w, m.actor);
    forall u
      ensures u !in Owners(Apply(rows, m), w)
    {
      OwnerIsInOwners(rows, w, u);
      OwnerIsInOwners(Apply(rows, m), w, u);
    }
  }

  /** The last-owner refusal is given exactly to a sole owner who gives up the role or leaves. */
  lemma LastOwnerRefusalIff(rows: Rows, m: Mutation)
    ensures Refused(rows, m) == Some(LastWorkspaceOwner)
       <==> Owners(rows, m.workspace) == {m.actor} && m.target == m.actor && m.role != Some(Owner)
  {
    OwnerIsInOwners(rows, m.workspace, m.actor);
    OwnerIsInOwners(rows, m.workspace, m.target);
    var owners := Owners(rows, m.workspace);
    if Refused(rows, m) == Some(LastWorkspaceOwner) {
      forall u | u in owners
        ensures u == m.actor
      {
        OnlyOne(owners, u, m.actor);
      }
      OnlyOne(owners, m.target, m.actor);
    }
  }

  /** An owner may change anyone, an admin may change those who neither are nor become owners, and nobody may leave the
      workspace without an owner. */
  predicate MayChange(rows: Rows, m: Mutation) {
    var owners := Owners(rows, m.workspace);
    && (m.actor in owners
        || (RoleOf(rows, m.workspace, m.actor) == Some(Admin) && m.target !in owners && m.role != Some(Owner)))
    && !(owners == {m.target} && m.role != Some(Owner))
  }

  /** A change is made exactly if it may be; then the target has the role that was asked for, or none, and nobody else's
      role changes, in this workspace or another. */
  lemma ChangeIsMadeIff(rows: Rows, m: Mutation)
    ensures Refused(rows, m).None? <==> MayChange(rows, m)
    ensures forall w, u ::
      RoleOf(Apply(rows, m), w, u)
      == if MayChange(rows, m) && w == m.workspace && u == m.target then m.role else RoleOf(rows, w, u)
  {
    OwnerIsInOwners(rows, m.workspace, m.actor);
    OwnerIsInOwners(rows, m.workspace, m.target);
    var owners := Owners(rows, m.workspace);
    if |owners| <= 1 && m.target in owners {
      forall u | u in owners
        ensures u == m.target
      {
        OnlyOne(owners, u, m.target);
      }
    }
  }

  /** Who is refused is told why: a plain member or an outsider, an admin who reaches for ownership. */
  lemma RefusalTellsWhy(rows: Rows, m: Mutation)
    ensures Refused(rows, m) == Some(ActorNotAuthorized)
       <==> RoleOf(rows, m.workspace, m.actor) == None || RoleOf(rows, m.workspace, m.actor) == Some(Member)
    ensures Refused(rows, m) == Some(OwnerRequired)
       <==> RoleOf(rows, m.workspace, m.actor) == Some(Admin)
            && (RoleOf(rows, m.workspace, m.target) == Some(Owner) || m.role == Some(Owner))
  {
    assert forall role: Option<Role> :: role.None? || role.value.Owner? || role.value.Admin? || role.value.Member?;
  }

  /** The role that the last permitted change gave to the user. */
  function LastGiven(rows: Rows, mutations: seq<Mutation>, w: WorkspaceId, u: UserId): Option<Role> {
    if mutations == [] then RoleOf(rows, w, u)
    else
      var before, m := mutations[..|mutations| - 1], mutations[|mutations| - 1];
      if m.workspace == w && m.target == u && MayChange(ApplyAll(rows, before), m) then m.role
      else LastGiven(rows, before, w, u)
  }

  /** Over any sequence of attempts by anyone, a role is the one last given by a permitted change. */
  lemma {:induction false} RoleIsLastGiven(rows: Rows, mutations: seq<Mutation>, w: WorkspaceId, u: UserId)
    ensures RoleOf(ApplyAll(rows, mutations), w, u) == LastGiven(rows, mutations, w, u)
  {
    if mutations != [] {
      var before, m := mutations[..|mutations| - 1], mutations[|mutations| - 1];
      RoleIsLastGiven(rows, before, w, u);
      ChangeIsMadeIff(ApplyAll(rows, before), m);
    }
  }

  /** Who becomes or stops being an owner does so by an act of an owner of that workspace at that time. */
  lemma {:induction false} OwnershipChangesByOwners(rows: Rows, mutations: seq<Mutation>, w: WorkspaceId, u: UserId)
    returns (k: nat)
    requires (RoleOf(rows, w, u) == Some(Owner)) != (RoleOf(ApplyAll(rows, mutations), w, u) == Some(Owner))
    ensures k < |mutations| && mutations[k].workspace == w && mutations[k].target == u
    ensures RoleOf(ApplyAll(rows, mutations[..k]), w, mutations[k].actor) == Some(Owner)
  {
    var n := |mutations| - 1;
    var before := ApplyAll(rows, mutations[..n]);
    if (RoleOf(rows, w, u) == Some(Owner)) != (RoleOf(before, w, u) == Some(Owner)) {
      k := OwnershipChangesByOwners(rows, mutations[..n], w, u);
      assert mutations[..n][..k] == mutations[..k];
    } else {
      k := n;
    }
  }

  /** A user who is neither owner nor admin, acting alone, changes nothing at all. */
  lemma {:induction false} PlainMembersChangeNothing(rows: Rows, mutations: seq<Mutation>)
    requires forall i :: 0 <= i < |mutations| ==>
      RoleOf(rows, mutations[i].workspace, mutations[i].actor) in {Some(Member), None}
    ensures ApplyAll(rows, mutations) == rows
  {
    if mutations != [] {
      PlainMembersChangeNothing(rows, mutations[..|mutations| - 1]);
    }
  }
}
