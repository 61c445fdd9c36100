/** The `Priority` enum of a requirement: three constants and nothing else. */
module Priorities {

  import opened Lang

  /** MINOR, MAJOR and BLOCKER, in declaration order. */
  datatype Priority = Minor | Major | Blocker

  /** `Enum.values()`: the constants in declaration order. */
  const Values: seq<Priority> := [Minor, Major, Blocker]

  /** `Enum.ordinal()`: the position of the constant in its declaration. */
  function Ordinal(p: Priority): (n: nat)
    ensures n < |Values| && Values[n] == p
  {
    match p
    case Minor => 0
    case Major => 1
    case Blocker => 2
  }

  /** `Enum.name()`: the identifier the constant is declared with. */
  function Name(p: Priority): (s: string)
    ensures |s| > 0
  {
    match p
    case Minor => "MINOR"
    case Major => "MAJOR"
    case Blocker => "BLOCKER"
  }

  /** `Enum.valueOf(String)`: the constant of that name, or `None` where Java
      throws `IllegalArgumentException`. */
  function ValueOf(name: string): (r: Option<Priority>)
    ensures r.Some? ==> Name(r.value) == name
    ensures r.None? ==> forall p :: Name(p) != name
  {
    if name == "MINOR" then Some(Minor)
    else if name == "MAJOR" then Some(Major)
    else if name == "BLOCKER" then Some(Blocker)
    else None
  }

  /** `Enum.compareTo`: the difference of the ordinals. */
  function CompareTo(a: Priority, b: Priority): (c: int)
    ensures c < 0 <==> Ordinal(a) < Ordinal(b)
    ensures c == 0 <==> a == b
  {
    Ordinal(a) - Ordinal(b)
  }

  /** There are exactly three priorities, each listed once in `Values`. */
  lemma ExactlyThree()
    ensures |Values| == 3
    ensures forall p: Priority :: p in Values
    ensures forall i, j :: 0 <= i < j < |Values| ==> Values[i] != Values[j]
  {
    forall p: Priority ensures p in Values {
      assert Values[Ordinal(p)] == p;
    }
  }

  /** Declaration order fixes MINOR = 0, MAJOR = 1, BLOCKER = 2, so
      MINOR < MAJOR < BLOCKER in `compareTo`. */
  lemma DeclarationOrder()
    ensures Ordinal(Minor) == 0 && Ordinal(Major) == 1 && Ordinal(Blocker) == 2
    ensures CompareTo(Minor, Major) < 0 && CompareTo(Major, Blocker) < 0
  {
  }

  /** The constants carry no state: two priorities are equal exactly when
      they have the same ordinal, and the same name. */
  lemma IdentityIsOrdinal(a: Priority, b: Priority)
    ensures a == b <==> Ordinal(a) == Ordinal(b)
    ensures a == b <==> Name(a) == Name(b)
  {
  }

  /** `valueOf` inverts `name`. */
  lemma NameRoundTrip(p: Priority)
    ensures ValueOf(Name(p)) == Some(p)
  {
  }
}
