/** IAM policies: role bindings on a broker resource, and granting a role to a member. */
module Iam {
  import opened Wrappers

  /** One role and the members it is granted to. */
  datatype Binding = Binding(role: string, members: seq<string>)

  const PublisherRole := "roles/pubsub.publisher"
  const SubscriberRole := "roles/pubsub.subscriber"

  /** The position of the first binding for `role`, as `FirstOrDefault` finds it. */
  function FirstBinding(bindings: seq<Binding>, role: string): (r: Option<nat>)
    ensures r.Some? ==> r.value < |bindings| && bindings[r.value].role == role
                        && forall j :: 0 <= j < r.value ==> bindings[j].role != role
    ensures r.None? ==> forall j :: 0 <= j < |bindings| ==> bindings[j].role != role
  {
    if |bindings| == 0 then None
    else if bindings[0].role == role then Some(0)
    else
      match FirstBinding(bindings[1..], role)
      case None => None
      case Some(i) => Some(i + 1)
  }

  /** The role is granted to the member by the first binding for that role. */
  predicate Grants(bindings: seq<Binding>, role: string, member: string) {
    var i := FirstBinding(bindings, role);
    i.Some? && member in bindings[i.value].members
  }

  /** The bindings after `AppendRole(role, member)`. */
  function WithRole(bindings: seq<Binding>, role: string, member: string): seq<Binding> {
    match FirstBinding(bindings, role)
    case None => bindings + [Binding(role, [member])]
    case Some(i) =>
      if member in bindings[i].members then bindings
      else bindings[i := Binding(role, bindings[i].members + [member])]
  }

  /** A policy fetched from the broker, updated in place and written back when it changed. */
  class Policy {
    var bindings: seq<Binding>

    constructor (bindings: seq<Binding>)
      ensures this.bindings == bindings
    {
      this.bindings := bindings;
    }

    /**
     * `AppendRole`: finds the first binding for `role`, adding an empty one at the end when there
     * is none, then adds `member` to it unless it is already there; reports whether it added it.
     */
    method AppendRole(role: string, member: string) returns (added: bool)
      modifies this
      ensures added <==> !Grants(old(bindings), role, member)
      ensures bindings == WithRole(old(bindings), role, member)
    {
      var found := FirstBinding(bindings, role);
      var index: nat;
      if found.None? {
        bindings := bindings + [Binding(role, [])];
        index := |bindings| - 1;
        assert bindings[index].members == [];
        assert bindings[index].members + [member] == [member];
      } else {
        index := found.value;
      }
      if member !in bindings[index].members {
        bindings := bindings[index := bindings[index].(members := bindings[index].members + [member])];
        added := true;
      } else {
        added := false;
      }
    }
  }

  /** The first binding for a role is the one before which no binding has that role. */
  lemma FirstBindingIs(bindings: seq<Binding>, role: string, i: nat)
    requires i < |bindings| && bindings[i].role == role
    requires forall j :: 0 <= j < i ==> bindings[j].role != role
    ensures FirstBinding(bindings, role) == Some(i)
  {
  }

  /** After `AppendRole` the member holds the role. */
  lemma {:induction false} AppendRoleGrants(bindings: seq<Binding>, role: string, member: string)
    ensures Grants(WithRole(bindings, role, member), role, member)
  {
    var after := WithRole(bindings, role, member);
    match FirstBinding(bindings, role)
    case None =>
      FirstBindingIs(after, role, |bindings|);
    case Some(i) =>
      FirstBindingIs(after, role, i);
  }

  /** `AppendRole` changes the policy exactly when the member did not yet hold the role. */
  lemma {:induction false} AppendRoleChangesIffAbsent(bindings: seq<Binding>, role: string, member: string)
    ensures WithRole(bindings, role, member) == bindings <==> Grants(bindings, role, member)
  {
    match FirstBinding(bindings, role)
    case None =>
      assert |WithRole(bindings, role, member)| != |bindings|;
    case Some(i) =>
      if member !in bindings[i].members {
        assert member in WithRole(bindings, role, member)[i].members;
      }
  }

  /** A second identical `AppendRole` adds nothing and leaves the policy as it is. */
  lemma {:induction false} AppendRoleIdempotent(bindings: seq<Binding>, role: string, member: string)
    ensures var once := WithRole(bindings, role, member);
            Grants(once, role, member) && WithRole(once, role, member) == once
  {
    AppendRoleGrants(bindings, role, member);
    AppendRoleChangesIffAbsent(WithRole(bindings, role, member), role, member);
  }

  /**
   * `AppendRole` touches only the first binding for the role (or appends one binding when there is
   * none), keeps that binding's members in order, and revokes nothing.
   */
  lemma {:induction false} AppendRoleChangesOnlyFirstMatch(bindings: seq<Binding>, role: string, member: string)
    ensures var after := WithRole(bindings, role, member);
            && |after| == |bindings| + (if FirstBinding(bindings, role).None? then 1 else 0)
            && (forall j :: 0 <= j < |bindings| && Some(j) != FirstBinding(bindings, role) ==> after[j] == bindings[j])
            && (FirstBinding(bindings, role).Some? ==>
                  var i := FirstBinding(bindings, role).value;
                  after[i].role == role && after[i].members[..|bindings[i].members|] == bindings[i].members)
  {
  }

  /** Every grant that held before `AppendRole` still holds after it. */
  lemma {:induction false} AppendRoleKeepsGrants(bindings: seq<Binding>, role: string, member: string,
                                                 otherRole: string, otherMember: string)
    requires Grants(bindings, otherRole, otherMember)
    ensures Grants(WithRole(bindings, role, member), otherRole, otherMember)
  {
    var after := WithRole(bindings, role, member);
    var k := FirstBinding(bindings, otherRole).value;
    AppendRoleChangesOnlyFirstMatch(bindings, role, member);
    forall j | 0 <= j < k
      ensures after[j].role != otherRole
    {
      assert after[j].role == bindings[j].role;
    }
    assert after[k].role == otherRole;
    FirstBindingIs(after, otherRole, k);
    assert otherMember in after[k].members by {
      if Some(k) == FirstBinding(bindings, role) {
        var m := bindings[k].members;
        var i :| 0 <= i < |m| && m[i] == otherMember;
        assert after[k].members[i] == otherMember;
      }
    }
  }
}
