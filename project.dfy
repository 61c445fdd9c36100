/** `Project`: a name, a description and two independent sets, the members
    and the project plan, changed in place. Unlike `Team`, a project requests
    no change notifications. */
module Projects {

  import opened Lang

  // Exception messages.
  const NameMessage: string := "A empty name for projects is not allowed"
  const EmptyMembersMessage: string := "An empty list of person is not allowed to add"
  const NullMemberMessage: string := "An empty person is not allowed to add"
  const EmptyPlanMessage: string := "An empty list of IPlan is not allowed"
  const NullPlanMessage: string := "An empty new IPlan is not allowed"

  /** The elements of a Java list, as a set. */
  function Elements<T>(l: seq<T>): set<T>
  {
    set x | x in l
  }

  /** `new ArrayList<>(set)`: the elements of a hash set in the order the set
      yields them, which is not specified. Each element appears once. */
  method ToList<T(==)>(s: set<T>) returns (r: seq<T>)
    ensures forall x :: x in r <==> x in s
    ensures Distinct(r)
    ensures |r| == |s|
  {
    r := [];
    var rest := s;
    while rest != {}
      invariant rest <= s
      invariant forall x :: x in r <==> x in s && x !in rest
      invariant Distinct(r)
      invariant |r| + |rest| == |s|
      decreases |rest|
    {
      var x :| x in rest;
      r := r + [x];
      rest := rest - {x};
    }
  }

  /** The elements of two lists one after the other are the elements of
      each. */
  lemma ElementsOfConcat<T>(a: seq<T>, b: seq<T>)
    ensures Elements(a + b) == Elements(a) + Elements(b)
  {
  }

  /** A project. Its getters for name and description are its fields;
      `GetMembers` and `GetProjectPlan` return lists. `P` stands for
      `Person` and `L` for `IPlan`; `None` is `null`, which the bulk setters
      can put into a set. */
  class Project<P(==), L(==)> {
    var name: JString
    var description: JString
    var members: set<Option<P>>
    var projectPlan: set<Option<L>>

    ghost predicate Valid()
      reads this
    {
      !IsBlank(name)
    }

    /** The fields before the constructor's body has set the name. */
    constructor Empty()
      ensures name == None && description == None && members == {} && projectPlan == {}
    {
      name, description := None, None;
      members, projectPlan := {}, {};
    }

    /** `new Project(name, description)`: the name goes through `setName`,
        the description is stored unchecked, and both sets start empty. */
    static method Create(name: JString, description: JString) returns (r: Result<Project<P, L>>)
      ensures r.Ok? <==> !IsBlank(name)
      ensures r.Err? ==> r.error == IllegalArgument(NameMessage)
      ensures r.Ok? ==> fresh(r.value) && r.value.Valid()
      ensures r.Ok? ==> r.value.name == name && r.value.description == description
      ensures r.Ok? ==> r.value.members == {} && r.value.projectPlan == {}
    {
      var p := new Project.Empty();
      var o := p.SetName(name);
      if o.Fail? {
        return Err(o.error);
      }
      p.SetDescription(description);
      r := Ok(p);
    }

    /** `new Project()`: name and description "Default". */
    static method CreateDefault() returns (p: Project<P, L>)
      ensures fresh(p) && p.Valid()
      ensures p.name == Some("Default") && p.description == Some("Default")
      ensures p.members == {} && p.projectPlan == {}
    {
      assert !IsWhitespace("Default"[0]);
      var r := Create(Some("Default"), Some("Default"));
      p := r.value;
    }

    /** `setName`: refuses a blank name and keeps the old one; otherwise
        stores it. */
    method SetName(newName: JString) returns (r: Outcome)
      modifies this`name
      ensures r.Pass? <==> !IsBlank(newName)
      ensures r.Fail? ==> r.error == IllegalArgument(NameMessage)
      ensures name == if r.Pass? then newName else old(name)
      ensures r.Pass? ==> Valid()
    {
      if !IsBlank(newName) {
        name := newName;
        r := Pass;
      } else {
        r := Fail(IllegalArgument(NameMessage));
      }
    }

    /** `setDescription`: any value, `null` and empty included. */
    method SetDescription(newDescription: JString)
      modifies this`description
      ensures description == newDescription
    {
      description := newDescription;
    }

    /** `getMembers`: the members as a list, each exactly once. */
    method GetMembers() returns (r: seq<Option<P>>)
      ensures forall x :: x in r <==> x in members
      ensures Distinct(r) && |r| == |members|
    {
      r := ToList(members);
    }

    /** `setMembers`: refuses a `null` or empty list; otherwise adds its
        elements to the members already there. */
    method SetMembers(list: Option<seq<Option<P>>>) returns (r: Outcome)
      modifies this`members
      ensures r.Pass? <==> list.Some? && |list.value| > 0
      ensures r.Fail? ==> r.error == IllegalArgument(EmptyMembersMessage)
      ensures members == if r.Pass? then old(members) + Elements(list.value) else old(members)
      ensures r.Pass? ==> forall x :: x in members <==> x in old(members) || x in list.value
    {
      if list.Some? && |list.value| > 0 {
        members := members + Elements(list.value);
        r := Pass;
      } else {
        r := Fail(IllegalArgument(EmptyMembersMessage));
      }
    }

    /** `addMember`: refuses `null`; otherwise adds the person, which a set
        holds at most once. */
    method AddMember(newMember: Option<P>) returns (r: Outcome)
      modifies this`members
      ensures r.Pass? <==> newMember.Some?
      ensures r.Fail? ==> r.error == IllegalArgument(NullMemberMessage)
      ensures members == if r.Pass? then old(members) + {newMember} else old(members)
    {
      if newMember.Some? {
        members := members + {newMember};
        r := Pass;
      } else {
        r := Fail(IllegalArgument(NullMemberMessage));
      }
    }

    /** `removeMember`: `null` returns false and removes nothing (not even a
        `null` a bulk add put in); otherwise removes the person and returns
        whether it was there. */
    method RemoveMember(removeMember: Option<P>) returns (removed: bool)
      modifies this`members
      ensures removed <==> removeMember.Some? && removeMember in old(members)
      ensures members == if removeMember.Some? then old(members) - {removeMember} else old(members)
    {
      if removeMember.Some? {
        removed := removeMember in members;
        members := members - {removeMember};
        return;
      }
      removed := false;
    }

    /** `clearMembers`: no members left. */
    method ClearMembers()
      modifies this`members
      ensures members == {}
    {
      members := {};
    }

    /** `getProjectPlan`: the plans as a list, each exactly once. */
    method GetProjectPlan() returns (r: seq<Option<L>>)
      ensures forall x :: x in r <==> x in projectPlan
      ensures Distinct(r) && |r| == |projectPlan|
    {
      r := ToList(projectPlan);
    }

    /** `setProjectPlan`: refuses a `null` or empty list; otherwise adds its
        elements to the plans already there. */
    method SetProjectPlan(list: Option<seq<Option<L>>>) returns (r: Outcome)
      modifies this`projectPlan
      ensures r.Pass? <==> list.Some? && |list.value| > 0
      ensures r.Fail? ==> r.error == IllegalArgument(EmptyPlanMessage)
      ensures projectPlan == if r.Pass? then old(projectPlan) + Elements(list.value) else old(projectPlan)
      ensures r.Pass? ==> forall x :: x in projectPlan <==> x in old(projectPlan) || x in list.value
    {
      if list.Some? && |list.value| > 0 {
        projectPlan := projectPlan + Elements(list.value);
        r := Pass;
      } else {
        r := Fail(IllegalArgument(EmptyPlanMessage));
      }
    }

    /** `addProjectPlan`: refuses `null`; otherwise adds the plan. */
    method AddProjectPlan(newPlan: Option<L>) returns (r: Outcome)
      modifies this`projectPlan
      ensures r.Pass? <==> newPlan.Some?
      ensures r.Fail? ==> r.error == IllegalArgument(NullPlanMessage)
      ensures projectPlan == if r.Pass? then old(projectPlan) + {newPlan} else old(projectPlan)
    {
      if newPlan.Some? {
        projectPlan := projectPlan + {newPlan};
        r := Pass;
      } else {
        r := Fail(IllegalArgument(NullPlanMessage));
      }
    }

    /** `removeProjectPlan`: `null` returns false; otherwise removes the plan
        and returns whether it was there. */
    method RemoveProjectPlan(removePlan: Option<L>) returns (removed: bool)
      modifies this`projectPlan
      ensures removed <==> removePlan.Some? && removePlan in old(projectPlan)
      ensures projectPlan == if removePlan.Some? then old(projectPlan) - {removePlan} else old(projectPlan)
    {
      if removePlan.Some? {
        removed := removePlan in projectPlan;
        projectPlan := projectPlan - {removePlan};
        return;
      }
      removed := false;
    }

    /** `clearProjectPlan`: no plans left. */
    method ClearProjectPlan()
      modifies this`projectPlan
      ensures projectPlan == {}
    {
      projectPlan := {};
    }
  }

  /** `setMembers` accumulates: two bulk additions put in the elements of
      both lists, the members already there stay, and nothing else changes. */
  method BulkAddsAccumulate<P(==), L(==)>(p: Project<P, L>, a: seq<Option<P>>, b: seq<Option<P>>)
    requires |a| > 0 && |b| > 0
    modifies p
    ensures p.members == old(p.members) + Elements(a + b)
    ensures old(p.members) <= p.members
    ensures p.name == old(p.name) && p.description == old(p.description) && p.projectPlan == old(p.projectPlan)
    ensures old(p.Valid()) ==> p.Valid()
  {
    var r1 := p.SetMembers(Some(a));
    var r2 := p.SetMembers(Some(b));
    ElementsOfConcat(a, b);
  }

  /** `addMember` is idempotent: adding the same person twice leaves the
      members as adding it once, and both calls succeed. */
  method AddMemberTwice<P(==), L(==)>(p: Project<P, L>, person: P) returns (r1: Outcome, r2: Outcome)
    modifies p
    ensures r1 == Pass && r2 == Pass
    ensures p.members == old(p.members) + {Some(person)}
    ensures p.name == old(p.name) && p.description == old(p.description) && p.projectPlan == old(p.projectPlan)
    ensures old(p.Valid()) ==> p.Valid()
  {
    r1 := p.AddMember(Some(person));
    r2 := p.AddMember(Some(person));
  }

  /** `removeMember` undoes `addMember` of a person who was not a member:
      the removal reports the person as found and the members are as before. */
  method AddThenRemoveMember<P(==), L(==)>(p: Project<P, L>, person: P) returns (removed: bool)
    requires Some(person) !in p.members
    modifies p
    ensures removed
    ensures p.members == old(p.members)
    ensures p.name == old(p.name) && p.description == old(p.description) && p.projectPlan == old(p.projectPlan)
  {
    var r := p.AddMember(Some(person));
    removed := p.RemoveMember(Some(person));
  }
}
