# Jgility core entities in Dafny

This project models the domain entities of the Jgility agile-planning core:

- `ProductStory`, a requirement record;
- `Team`, a named, ordered list of persons;
- `Project`, a name, a description and two sets (members and project plan);
- `Priority`, the three-valued enum a story carries.

Every mutator is a guard followed by one state change. The model keeps that
shape. Each entity is a Dafny class whose fields are updated in place. Each
setter returns `Pass`/`Fail(IllegalArgument(message))` where the Java code
returns or throws. Each setter's postcondition states when it succeeds,
what the new state is, and what stays unchanged.

The story's setters are also stated as a pure step function on a `Story`
value (`ProductStories.Step`). Each class method is proved to take exactly
that step. Lemmas over arbitrary sequences of calls then prove the story's
lifetime rules:

- a non-zero id is frozen;
- a well-formed story stays well-formed;
- a failed call changes nothing;
- the constructor succeeds exactly on valid arguments and echoes them back.

Notifications are modelled as a ghost log of requested `(property, former,
current)` changes on `ProductStory` and `Team`. `Project` requests none,
as in the source.

Modules: `Lang` (nullable references as `Option`, `int32`, the exception,
the blank and null checks), `Priorities`, `ProductStories`, `Teams`,
`Projects`.

## Model

| member | source | states |
|---|---|---|
| `Lang.IsWhitespace` | src/com/github/jgility/core/project/Project.java:93 | the characters `Character.isWhitespace` accepts (Java 9 and later): TAB to CR, FS to US, SPACE and the Unicode separators other than the non-breaking spaces |
| `Lang.IsBlank` | src/com/github/jgility/core/project/Project.java:93 | blank is the negation of `StringUtils.isNotBlank`: null, or every character is whitespace (the empty string included) |
| `Lang.BlankExamples` | src/com/github/jgility/core/project/Project.java:93 | null, "" and whitespace-only strings are blank; a string with one other character is not, and neither is a lone non-breaking space or U+180E |
| `Lang.CheckStringNotBlank` | src/com/github/jgility/core/requirement/ProductStory.java:204 | `BeanCheckUtils.checkStringNotBlank`, as `setTitle` calls it (also `setRequester` at line 292 and `Team.setName` at Team.java line 101): passes exactly when the string is not blank; otherwise fails with the caller's message |
| `Lang.CheckObjectNotNull` | src/com/github/jgility/core/requirement/ProductStory.java:229 | passes exactly when the reference is not null; otherwise fails with the given message |
| `Priorities.Ordinal` | src/com/github/jgility/core/requirement/Priority.java:23-27 | the ordinal is the constant's position in declaration order (`Values[Ordinal(p)] == p`) |
| `Priorities.Name` | src/com/github/jgility/core/requirement/Priority.java:23-27 | each constant has a non-empty name |
| `Priorities.ValueOf` | src/com/github/jgility/core/requirement/Priority.java:20-28 | returns the constant with that name, or none when no constant has it |
| `Priorities.CompareTo` | src/com/github/jgility/core/requirement/Priority.java:23-27 | negative exactly when the first ordinal is smaller; zero exactly for the same constant |
| `Priorities.ExactlyThree` | src/com/github/jgility/core/requirement/Priority.java:20-28 | there are exactly three priorities; every priority is listed in `Values`, and each only once |
| `Priorities.DeclarationOrder` | src/com/github/jgility/core/requirement/Priority.java:23-27 | MINOR = 0, MAJOR = 1, BLOCKER = 2, so MINOR < MAJOR < BLOCKER |
| `Priorities.IdentityIsOrdinal` | src/com/github/jgility/core/requirement/Priority.java:20-28 | two priorities are equal iff their ordinals are equal, and iff their names are equal |
| `Priorities.NameRoundTrip` | src/com/github/jgility/core/requirement/Priority.java:20-28 | `valueOf(name(p)) == p` |
| `ProductStories.PropertyNamesAreXmlElements` | src/com/github/jgility/core/requirement/ProductStory.java:40-80 | every notified property name is an element of the XML form, and different fields have different property names |
| `ProductStories.Step` | src/com/github/jgility/core/requirement/ProductStory.java:163-369 | a setter call is accepted exactly when its guard holds: id while 0 and only non-negative; title and requester not blank; description, priority and kind not null; estimate not negative |
| `ProductStories.StepChangesOnlyItsField` | src/com/github/jgility/core/requirement/ProductStory.java:204-208 | an accepted call stores its argument exactly and leaves every other field and `createDate` unchanged. It requests one notification carrying its property name, the former value and the new value |
| `ProductStories.IdStateMachine` | src/com/github/jgility/core/requirement/ProductStory.java:166-183 | once the id is non-zero, `setID` fails with the "change of id" message for every value, including the same value. While the id is 0, a negative id fails with the "negative id" message |
| `ProductStories.ZeroIdStaysAssignable` | src/com/github/jgility/core/requirement/ProductStory.java:166-172 | `setID(0)` on id 0 succeeds, leaves the id 0, and a later non-negative `setID` still succeeds |
| `ProductStories.StepKeepsWellFormed` | src/com/github/jgility/core/requirement/ProductStory.java:163-369 | an accepted setter call keeps a well-formed story well-formed |
| `ProductStories.IdFrozenAlongTrace` | src/com/github/jgility/core/requirement/ProductStory.java:179-183 | along any sequence of setter calls, a non-zero id never changes |
| `ProductStories.IdChangesOnlyFromZero` | src/com/github/jgility/core/requirement/ProductStory.java:166-183 | if any sequence of calls changes the id at all, the id was 0 before |
| `ProductStories.TraceKeepsWellFormed` | src/com/github/jgility/core/requirement/ProductStory.java:163-369 | any sequence of calls keeps a story well-formed and never changes `createDate`. Each call adds at most one notification, appended after the earlier ones |
| `ProductStories.RejectedCallsChangeNothing` | src/com/github/jgility/core/requirement/ProductStory.java:163-369 | calls that all fail leave the story and the notification log as they were |
| `ProductStories.ConstructorStages` | src/com/github/jgility/core/requirement/ProductStory.java:134-146 | the constructor checks id, description, estimate and priority in that order, each failure giving its own message, before the remaining setters run |
| `ProductStories.ConstructorEchoes` | src/com/github/jgility/core/requirement/ProductStory.java:134-146 | the constructor succeeds iff every argument is valid. It then holds exactly the arguments and the clock reading, is well-formed, and has requested seven notifications. A negative id is the first thing rejected |
| `ProductStories.DefaultStory` | src/com/github/jgility/core/requirement/ProductStory.java:117-120 | the default constructor succeeds with id 0, "Default", "Default", 0, MINOR, "Nobody", USER_STORY |
| `ProductStories.ProductStory.Create` | src/com/github/jgility/core/requirement/ProductStory.java:134-146 | the object constructor: succeeds iff the arguments are valid; the fresh object is well-formed and its getters echo the arguments; result and error equal those of `Construct` |
| `ProductStories.ProductStory.CreateDefault` | src/com/github/jgility/core/requirement/ProductStory.java:117-120 | a fresh, well-formed story holding the documented defaults |
| `ProductStories.ProductStory.SetID` | src/com/github/jgility/core/requirement/ProductStory.java:163-184 | succeeds iff the current id is 0 and the argument is non-negative, then id = argument; otherwise id unchanged; takes exactly `Step`'s transition |
| `ProductStories.ProductStory.SetTitle` | src/com/github/jgility/core/requirement/ProductStory.java:201-209 | succeeds iff the title is not blank, then stores it exactly; otherwise nothing changes; takes `Step`'s transition |
| `ProductStories.ProductStory.SetDescription` | src/com/github/jgility/core/requirement/ProductStory.java:226-235 | fails only for null (blank text accepted); stores the argument; takes `Step`'s transition |
| `ProductStories.ProductStory.SetPriority` | src/com/github/jgility/core/requirement/ProductStory.java:264-272 | fails only for null; stores the argument; takes `Step`'s transition |
| `ProductStories.ProductStory.SetRequester` | src/com/github/jgility/core/requirement/ProductStory.java:289-298 | succeeds iff the requester is not blank, then stores it exactly; takes `Step`'s transition |
| `ProductStories.ProductStory.SetRequirementKind` | src/com/github/jgility/core/requirement/ProductStory.java:317-327 | fails only for null; stores the argument; takes `Step`'s transition |
| `ProductStories.ProductStory.SetEstimated` | src/com/github/jgility/core/requirement/ProductStory.java:354-369 | succeeds iff the estimate is not negative (0 accepted), then stores it; takes `Step`'s transition |
| `ProductStories.ProductStory.GetEffective` | src/com/github/jgility/core/requirement/ProductStory.java:344-347 | always 0, whatever the state |
| `ProductStories.ProductStory.Equals` | src/com/github/jgility/core/requirement/ProductStory.java:405-423 | true exactly for a non-null story agreeing on all eight fields: id, title, description, creation date, estimate, priority, requester and kind; the notification log plays no part |
| `ProductStories.StoryEqualsIsEquivalence` | src/com/github/jgility/core/requirement/ProductStory.java:405-423 | story equality is reflexive, symmetric and transitive |
| `ProductStories.SameArgumentsGiveEqualStories` | src/com/github/jgility/core/requirement/ProductStory.java:405-423 | two constructions with the same arguments and the same instant both succeed or fail alike; on success they are distinct objects that are equal |
| `Teams.IndexOf` | src/com/github/jgility/core/project/Team.java:135 | the first position holding the person: it holds the person and no earlier position does |
| `Teams.RemoveFirst` | src/com/github/jgility/core/project/Team.java:135 | removes one element when the person is present (length minus one); the list is unchanged when absent |
| `Teams.RemoveFirstDropsOneOccurrence` | src/com/github/jgility/core/project/Team.java:135 | the removed element is one copy of the person and nothing else (multiset minus one copy) |
| `Teams.RemoveFirstCutsAtIndexOf` | src/com/github/jgility/core/project/Team.java:135 | the removal cuts out the first occurrence and keeps the order of the other elements |
| `Teams.RemoveUndoesAppend` | src/com/github/jgility/core/project/Team.java:118-119 | appending a non-member and then removing it gives back the original list |
| `Teams.RemoveAfterAppendKeepsMembers` | src/com/github/jgility/core/project/Team.java:118-119 | appending then removing a person always keeps the same multiset of members |
| `Teams.Team.constructor` | src/com/github/jgility/core/project/Team.java:78-82 | stores the name as given, without validation, and starts with no members |
| `Teams.Team.Default` | src/com/github/jgility/core/project/Team.java:68-71 | name "Default", no members |
| `Teams.Team.SetName` | src/com/github/jgility/core/project/Team.java:99-106 | fails on a blank name and leaves it unchanged; otherwise stores it and requests a `name` notification with the former and new name |
| `Teams.Team.AddMember` | src/com/github/jgility/core/project/Team.java:113-121 | fails on null with the list unchanged. Otherwise the list becomes old list + [p], so duplicates are kept and the length grows by one. A `members` notification is requested |
| `Teams.Team.RemoveMember` | src/com/github/jgility/core/project/Team.java:129-140 | null returns false with no change and no notification. Otherwise it removes the first equal element and returns whether there was one. A false result leaves the list unchanged. A notification is requested either way |
| `Teams.Team.GetMembers` | src/com/github/jgility/core/project/Team.java:147-150 | a copy equal, element by element, to the member list |
| `Teams.Team.ClearMembers` | src/com/github/jgility/core/project/Team.java:157-162 | empties the list, keeps the name, requests a notification |
| `Teams.Team.Equals` | src/com/github/jgility/core/project/Team.java:174-185 | true exactly for a non-null team with the same name and the same members in the same order |
| `Teams.TeamEqualsIsEquivalence` | src/com/github/jgility/core/project/Team.java:174-185 | team equality is reflexive, symmetric and transitive |
| `Projects.ToList` | src/com/github/jgility/core/project/Project.java:128-132 | the list holds exactly the set's elements, each once, in unspecified order |
| `Projects.BulkAddsAccumulate` | src/com/github/jgility/core/project/Project.java:141-152 | two `setMembers` calls with non-empty lists add the elements of both lists to the old members, which stay; name, description and plan are untouched and validity is kept |
| `Projects.AddMemberTwice` | src/com/github/jgility/core/project/Project.java:161-172 | adding the same person twice gives the members of adding it once; nothing else changes and validity is kept |
| `Projects.AddThenRemoveMember` | src/com/github/jgility/core/project/Project.java:161-188 | removing a person just added who was not a member reports it found and restores the members; nothing else changes |
| `Projects.Project.Create` | src/com/github/jgility/core/project/Project.java:63-71 | fails iff the name is blank; otherwise the description is stored unchecked and both sets are empty |
| `Projects.Project.CreateDefault` | src/com/github/jgility/core/project/Project.java:50-53 | name and description "Default", both sets empty |
| `Projects.Project.SetName` | src/com/github/jgility/core/project/Project.java:90-101 | fails on a null, empty or whitespace-only name, with the name unchanged; otherwise stores it |
| `Projects.Project.SetDescription` | src/com/github/jgility/core/project/Project.java:118-121 | stores any value, null and empty included |
| `Projects.Project.GetMembers` | src/com/github/jgility/core/project/Project.java:128-132 | a list whose elements are exactly the members, without duplicates |
| `Projects.Project.SetMembers` | src/com/github/jgility/core/project/Project.java:141-152 | fails on a null or empty list; otherwise members becomes old members ∪ elements of the list |
| `Projects.Project.AddMember` | src/com/github/jgility/core/project/Project.java:161-172 | fails on null; otherwise members becomes members ∪ {p} |
| `Projects.Project.RemoveMember` | src/com/github/jgility/core/project/Project.java:181-188 | null returns false and changes nothing. Otherwise it returns whether the person was a member and removes it |
| `Projects.Project.ClearMembers` | src/com/github/jgility/core/project/Project.java:193-196 | no members remain; the plan, the name and the description are untouched |
| `Projects.Project.GetProjectPlan` | src/com/github/jgility/core/project/Project.java:203-207 | a list whose elements are exactly the plans, without duplicates |
| `Projects.Project.SetProjectPlan` | src/com/github/jgility/core/project/Project.java:216-227 | fails on a null or empty list; otherwise plans becomes old plans ∪ elements of the list |
| `Projects.Project.AddProjectPlan` | src/com/github/jgility/core/project/Project.java:236-247 | fails on null; otherwise plans becomes plans ∪ {p} |
| `Projects.Project.RemoveProjectPlan` | src/com/github/jgility/core/project/Project.java:256-263 | null returns false and changes nothing. Otherwise it returns whether the plan was present and removes it |
| `Projects.Project.ClearProjectPlan` | src/com/github/jgility/core/project/Project.java:268-271 | no plans remain; members, name and description are untouched |

Each `Project` method's `modifies` clause names only the field it
changes. So member operations provably leave `projectPlan`, `name` and
`description` alone, and plan operations leave `members` alone. The same
holds for `Team`: member operations never change `name`.

## Behaviour of the code worth knowing

- `Team(name)` stores its name unchecked, so a team's name can be null
  or blank; only `setName` checks it. The model therefore keeps no name
  invariant for `Team`.
- `setID` accepts a new id exactly while the current id is 0. So
  `setID(0)` on a fresh story succeeds, and the id stays assignable
  afterwards (`ZeroIdStaysAssignable`).
- `Project.setMembers` and `setProjectPlan` add every element of the list,
  null included (`HashSet.addAll`), while `addMember`/`removeMember` refuse
  null. So the sets hold `Option` values. A null that got in this way is
  removed only by `clearMembers` or `clearProjectPlan`.
- `Team`'s member notifications pass the same list object as the former
  and the new value. The modelled log therefore carries the list after the
  change in both places.

## Left out

- Notification delivery. `changes` is declared in a superclass that is
  not part of this model. Only the request is logged (ghost `Changes`).
  If it is `java.beans.PropertyChangeSupport`, a request whose old and new
  values are equal and non-null is not delivered. That would silence every
  `Team` member notification. This suppression is not modelled.
- XML binding (JAXB annotations, `AbstractXmlProductStroy`,
  `AbstractXmlTeam`): these are reflection-based and not part of this
  model. Only the element order of a story is recorded (`XmlPropOrder`).
- `hashCode` and `toString` of all three classes: they are built by
  commons-lang builders and `CalendarUtils`, which are not part of this
  model.
- `Project.equals`: it compares the `HashSet` fields with the lists
  returned by `getMembers()`/`getProjectPlan()`, which a `Set` never equals,
  so no equality property of projects is stated.
- `ProductStories.ProductStory.Equals`: compares `estimated` as a real.
  `EqualsBuilder` compares floats by their bits, so there `0.0f` and
  `-0.0f` differ (both pass `setEstimated`) and NaN equals NaN; these are
  not modelled. A non-`ProductStory` argument, for which `equals` returns
  false, is excluded by the argument's type.
- `Team.equals` for an argument that is not a `Team`: the model's
  argument type admits only teams, and `null`.
- `createDate`: the clock reading is a parameter (`now`) set at
  construction. The source reads the clock after the setters have run;
  no setter touches the date, so the order does not matter.
- `getCreateDate` returns the story's own mutable `Calendar`, not a copy,
  so a caller can change the stored date in place (`add`, `set`,
  `setTimeInMillis`) and with it what `equals` and `hashCode` return. The
  model's date is an immutable value and does not capture such changes:
  "never changes `createDate`" (`TraceKeepsWellFormed`,
  `StepChangesOnlyItsField`) and `SameArgumentsGiveEqualStories` hold for
  the setters only.
- Dates are compared by their milliseconds only (`Instant`);
  `Calendar.equals` also compares the time zone and the calendar
  parameters, which are not modelled.
- `estimated` is a `float` in the source and a `real` here: rounding, NaN
  and the infinities are not modelled (`0.0f <= estimated` accepts
  positive infinity, which a `real` cannot hold, and rejects NaN).
- `BeanCheckUtils` is not part of this model. "Blank" follows
  `StringUtils.isNotBlank` as used at Project.java:93: null, empty, or only
  characters for which `Character.isWhitespace` holds.
- `RequirementKind` is not part of this model beyond its default
  `USER_STORY`; other kinds are told apart by name. `Person`, `IPerson`
  and `IPlan` are type parameters whose `equals` is value equality.
- The getters are the classes' fields, read directly (`getID` is `id`,
  and so on). Only the copying getters and `getEffective` are methods or
  functions.
- Concurrency: the classes are not synchronised, and the model is
  sequential.
