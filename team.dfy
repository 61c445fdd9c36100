/** `Team`: a name and an ordered list of members, changed in place, each
    change requesting a notification. */
module Teams {

  import opened Lang

  // Property names carried by the change notifications.
  const NameProperty: string := "name"
  const MembersProperty: string := "members"

  // Exception messages.
  const NameMessage: string := "an empty-String is not allowed"
  const NullPersonMessage: string := "null-person is not allowed!"

  /** A value a notification carries: the name, or the member list. */
  datatype TeamValue<P> = NameValue(name: JString) | MembersValue(members: seq<P>)

  /** A requested change notification: property name, former value, new value. */
  datatype TeamChange<P> = TeamChange(property: string, former: TeamValue<P>, current: TeamValue<P>)

  /** `List.indexOf`: the position of the first element equal to `x`. */
  function IndexOf<P(==)>(s: seq<P>, x: P): (i: nat)
    requires x in s
    ensures i < |s| && s[i] == x && x !in s[..i]
  {
    if s[0] == x then 0
    else
      var j := IndexOf(s[1..], x);
      assert s[..j + 1] == [s[0]] + s[1..][..j];
      j + 1
  }

  /** `List.remove(Object)`: the list without its first element equal to
      `x`, or the list itself when there is none. */
  function RemoveFirst<P(==)>(s: seq<P>, x: P): (r: seq<P>)
    ensures x in s ==> |r| == |s| - 1
    ensures x !in s ==> r == s
  {
    if s == [] then []
    else if s[0] == x then
      assert s == [s[0]] + s[1..];
      s[1..]
    else
      assert s == [s[0]] + s[1..];
      [s[0]] + RemoveFirst(s[1..], x)
  }

  /** Exactly one occurrence of `x` goes, and nothing else. */
  lemma {:induction false} RemoveFirstDropsOneOccurrence<P>(s: seq<P>, x: P)
    requires x in s
    ensures multiset(RemoveFirst(s, x)) == multiset(s) - multiset{x}
  {
    assert s == [s[0]] + s[1..];
    if s[0] != x {
      RemoveFirstDropsOneOccurrence(s[1..], x);
    }
  }

  /** Removing the first occurrence is cutting the list at `indexOf`: the
      elements before it and after it keep their order. */
  lemma RemoveFirstCutsAtIndexOf<P>(s: seq<P>, x: P)
    requires x in s
    ensures RemoveFirst(s, x) == s[..IndexOf(s, x)] + s[IndexOf(s, x) + 1..]
  {
    var i := IndexOf(s, x);
    forall k | 0 <= k < i ensures s[k] != x {
      assert s[k] == s[..i][k];
    }
    RemoveFirstCutsAt(s, x, i);
  }

  /** The cut at any position holding the first occurrence of `x`. */
  lemma {:induction false} RemoveFirstCutsAt<P>(s: seq<P>, x: P, i: nat)
    requires i < |s| && s[i] == x
    requires forall k :: 0 <= k < i ==> s[k] != x
    ensures RemoveFirst(s, x) == s[..i] + s[i + 1..]
  {
    if i == 0 {
      assert s[..0] + s[1..] == s[1..];
    } else {
      var t := s[1..];
      RemoveFirstCutsAt(t, x, i - 1);
      assert s[..i] == [s[0]] + t[..i - 1];
      assert s[i + 1..] == t[i..];
    }
  }

  /** Appending a person and then removing that person gives back the list
      when the person was not in it. */
  lemma {:induction false} RemoveUndoesAppend<P>(s: seq<P>, p: P)
    requires p !in s
    ensures RemoveFirst(s + [p], p) == s
  {
    if s != [] {
      assert (s + [p])[0] == s[0] && (s + [p])[1..] == s[1..] + [p];
      RemoveUndoesAppend(s[1..], p);
      assert s == [s[0]] + s[1..];
    }
  }

  /** When the person is already a member, removing after appending keeps the
      same multiset of members, with the duplicate now at the end. */
  lemma RemoveAfterAppendKeepsMembers<P>(s: seq<P>, p: P)
    ensures multiset(RemoveFirst(s + [p], p)) == multiset(s)
  {
    RemoveFirstDropsOneOccurrence(s + [p], p);
  }

  /** A team. Its getters are its fields; `GetMembers` returns a copy. */
  class Team<P(==)> {
    var name: JString
    var members: seq<P>

    /** The notifications requested so far (their delivery is not modelled). */
    ghost var Changes: seq<TeamChange<P>>

    /** `new Team(name)`: stores the name as given, unchecked, and starts
        with no members. */
    constructor (name: JString)
      ensures this.name == name && members == [] && Changes == []
    {
      this.name := name;
      members := [];
      Changes := [];
    }

    /** `new Team()`: the name "Default" and no members. */
    constructor Default()
      ensures name == Some("Default") && members == [] && Changes == []
    {
      name := Some("Default");
      members := [];
      Changes := [];
    }

    /** `setName`: refuses a blank name; otherwise stores it and notifies. */
    method SetName(newName: JString) returns (r: Outcome)
      modifies this`name, this`Changes
      ensures r.Pass? <==> !IsBlank(newName)
      ensures r.Fail? ==> r.error == IllegalArgument(NameMessage)
      ensures name == if r.Pass? then newName else old(name)
      ensures Changes == if r.Pass? then old(Changes) + [TeamChange(NameProperty, NameValue(old(name)), NameValue(newName))]
                         else old(Changes)
    {
      var check := CheckStringNotBlank(newName, NameMessage);
      if check.Fail? {
        return Fail(check.error);
      }
      var formerName := name;
      name := newName;
      Changes := Changes + [TeamChange(NameProperty, NameValue(formerName), NameValue(name))];
      r := Pass;
    }

    /** `addMember`: refuses `null`; otherwise appends, duplicates kept.
        The notification's former and new values are the same list object
        in the source, so both carry the list after the change. */
    method AddMember(person: Option<P>) returns (r: Outcome)
      modifies this`members, this`Changes
      ensures r.Pass? <==> person.Some?
      ensures r.Fail? ==> r.error == IllegalArgument(NullPersonMessage)
      ensures members == if r.Pass? then old(members) + [person.value] else old(members)
      ensures r.Pass? ==> |members| == |old(members)| + 1 && multiset(members) == multiset(old(members)) + multiset{person.value}
      ensures Changes == if r.Pass? then old(Changes) + [TeamChange(MembersProperty, MembersValue(members), MembersValue(members))]
                         else old(Changes)
    {
      var check := CheckObjectNotNull(person, NullPersonMessage);
      if check.Fail? {
        return Fail(check.error);
      }
      members := members + [person.value];
      Changes := Changes + [TeamChange(MembersProperty, MembersValue(members), MembersValue(members))];
      r := Pass;
    }

    /** `removeMember`: `null` returns false and does nothing; otherwise
        removes the first equal member, returns whether there was one, and
        notifies either way. */
    method RemoveMember(person: Option<P>) returns (removed: bool)
      modifies this`members, this`Changes
      ensures removed <==> person.Some? && person.value in old(members)
      ensures members == if person.Some? then RemoveFirst(old(members), person.value) else old(members)
      ensures !removed ==> members == old(members)
      ensures Changes == if person.Some? then old(Changes) + [TeamChange(MembersProperty, MembersValue(members), MembersValue(members))]
                         else old(Changes)
    {
      if person.Some? {
        removed := person.value in members;
        members := RemoveFirst(members, person.value);
        Changes := Changes + [TeamChange(MembersProperty, MembersValue(members), MembersValue(members))];
        return;
      }
      removed := false;
    }

    /** `getMembers`: a copy of the list, element by element. */
    method GetMembers() returns (r: seq<P>)
      ensures |r| == |members| && forall i :: 0 <= i < |r| ==> r[i] == members[i]
    {
      r := members;
    }

    /** `clearMembers`: empties the list and notifies. */
    method ClearMembers()
      modifies this`members, this`Changes
      ensures members == []
      ensures Changes == old(Changes) + [TeamChange(MembersProperty, MembersValue([]), MembersValue([]))]
    {
      members := [];
      Changes := Changes + [TeamChange(MembersProperty, MembersValue(members), MembersValue(members))];
    }

    /** `equals`: another team with the same name (both possibly `null`) and
        the same members in the same order. */
    function Equals(other: Team?<P>): (b: bool)
      reads this, other
      ensures b <==> other != null && name == other.name &&
                     |members| == |other.members| && forall i :: 0 <= i < |members| ==> members[i] == other.members[i]
    {
      other != null && name == other.name && members == other.members
    }
  }

  /** Team equality is an equivalence: reflexive, symmetric and transitive. */
  lemma TeamEqualsIsEquivalence<P>(a: Team<P>, b: Team<P>, c: Team<P>)
    ensures a.Equals(a)
    ensures a.Equals(b) <==> b.Equals(a)
    ensures a.Equals(b) && b.Equals(c) ==> a.Equals(c)
  {
  }
}
