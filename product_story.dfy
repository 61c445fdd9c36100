/** `ProductStory`: a requirement record whose setters each validate one
    field before assigning it and then request a change notification.

    The first half states the record as a value and every setter as a pure
    step on it; the class in the second half keeps the fields in place and
    each of its methods is proved to take exactly that step. */
module ProductStories {

  import opened Lang
  import opened Priorities

  /** The kind of a requirement. The full enum is not part of this model;
      only its default constant is named, the others are told apart by name. */
  datatype RequirementKind = UserStory | OtherKind(name: string)

  /** The `Calendar` value read from the clock once, at construction. */
  datatype Instant = Instant(millis: int)

  // Property names carried by the change notifications.
  const IdProperty: string := "id"
  const TitleProperty: string := "title"
  const DescriptionProperty: string := "description"
  const PriorityProperty: string := "priority"
  const RequesterProperty: string := "requester"
  const RequirementKindProperty: string := "requirementKind"
  const EstimatedProperty: string := "estimated"

  /** Order of the elements in the XML form of a story. */
  const XmlPropOrder: seq<string> :=
    ["id", "title", "description", "createDate", "estimated", "priority", "requester", "requirementKind"]

  // Exception messages of the setters.
  const NegativeIdMessage: string := "neative id is not allowed"
  const IdChangeMessage: string := "change of initialize requirements-id is not allowed"
  const TitleMessage: string := "title has to be not blank!"
  const DescriptionMessage: string := "description has to be not null!"
  const PriorityMessage: string := "priority has to be not null!"
  const RequesterMessage: string := "requester has to be not blank!"
  const RequirementKindMessage: string := "kind of requirement has to be not null!"
  const EstimateMessage: string := "negativ estimate is not allowed!"

  /** The eight fields of a story. `estimated` is a Java `float`, here a
      real number. */
  datatype Story = Story(
    id: int32,
    title: JString,
    description: JString,
    createDate: Instant,
    estimated: real,
    priority: Option<Priority>,
    requester: JString,
    requirementKind: Option<RequirementKind>)

  /** What a fully constructed story satisfies. */
  predicate WellFormed(s: Story)
  {
    0 <= s.id && !IsBlank(s.title) && s.description.Some? && 0.0 <= s.estimated &&
    s.priority.Some? && !IsBlank(s.requester) && s.requirementKind.Some?
  }

  /** The fields a setter exists for (`createDate` has none). */
  datatype Field =
    | IdField | TitleField | DescriptionField | EstimatedField
    | PriorityField | RequesterField | RequirementKindField

  /** A field's value, as a notification carries it. */
  datatype FieldValue =
    | IntValue(i: int32)
    | TextValue(text: JString)
    | FloatValue(f: real)
    | PriorityValue(p: Option<Priority>)
    | KindValue(k: Option<RequirementKind>)

  function Get(s: Story, f: Field): FieldValue
  {
    match f
    case IdField => IntValue(s.id)
    case TitleField => TextValue(s.title)
    case DescriptionField => TextValue(s.description)
    case EstimatedField => FloatValue(s.estimated)
    case PriorityField => PriorityValue(s.priority)
    case RequesterField => TextValue(s.requester)
    case RequirementKindField => KindValue(s.requirementKind)
  }

  function PropertyName(f: Field): string
  {
    match f
    case IdField => IdProperty
    case TitleField => TitleProperty
    case DescriptionField => DescriptionProperty
    case EstimatedField => EstimatedProperty
    case PriorityField => PriorityProperty
    case RequesterField => RequesterProperty
    case RequirementKindField => RequirementKindProperty
  }

  /** Every notified property is an element of the XML form, and the
      property names tell the fields apart. */
  lemma PropertyNamesAreXmlElements()
    ensures forall f: Field :: PropertyName(f) in XmlPropOrder
    ensures forall f, g: Field :: PropertyName(f) == PropertyName(g) ==> f == g
  {
    forall f: Field ensures PropertyName(f) in XmlPropOrder {
      match f
      case IdField => assert XmlPropOrder[0] == PropertyName(f);
      case TitleField => assert XmlPropOrder[1] == PropertyName(f);
      case DescriptionField => assert XmlPropOrder[2] == PropertyName(f);
      case EstimatedField => assert XmlPropOrder[4] == PropertyName(f);
      case PriorityField => assert XmlPropOrder[5] == PropertyName(f);
      case RequesterField => assert XmlPropOrder[6] == PropertyName(f);
      case RequirementKindField => assert XmlPropOrder[7] == PropertyName(f);
    }
  }

  /** A requested change notification: property name, former value, new value. */
  datatype Change = Change(property: string, former: FieldValue, current: FieldValue)

  /** One call of a setter, with its argument. */
  datatype StoryOp =
    | AssignId(id: int32)
    | AssignTitle(title: JString)
    | AssignDescription(description: JString)
    | AssignEstimated(estimated: real)
    | AssignPriority(priority: Option<Priority>)
    | AssignRequester(requester: JString)
    | AssignRequirementKind(kind: Option<RequirementKind>)

  /** The field a setter writes. */
  function Target(op: StoryOp): Field
  {
    match op
    case AssignId(_) => IdField
    case AssignTitle(_) => TitleField
    case AssignDescription(_) => DescriptionField
    case AssignEstimated(_) => EstimatedField
    case AssignPriority(_) => PriorityField
    case AssignRequester(_) => RequesterField
    case AssignRequirementKind(_) => RequirementKindField
  }

  /** The argument of a setter, as the value its field takes. */
  function Argument(op: StoryOp): FieldValue
  {
    match op
    case AssignId(x) => IntValue(x)
    case AssignTitle(t) => TextValue(t)
    case AssignDescription(d) => TextValue(d)
    case AssignEstimated(e) => FloatValue(e)
    case AssignPriority(p) => PriorityValue(p)
    case AssignRequester(r) => TextValue(r)
    case AssignRequirementKind(k) => KindValue(k)
  }

  /** When a setter accepts its argument: the id only while it is still 0 and
      only a non-negative one; title and requester when not blank;
      description, priority and kind when not null (a blank description is
      fine); an estimate when not negative. */
  predicate Accepts(s: Story, op: StoryOp)
  {
    match op
    case AssignId(x) => s.id == 0 && 0 <= x
    case AssignTitle(t) => !IsBlank(t)
    case AssignDescription(d) => d.Some?
    case AssignEstimated(e) => 0.0 <= e
    case AssignPriority(p) => p.Some?
    case AssignRequester(r) => !IsBlank(r)
    case AssignRequirementKind(k) => k.Some?
  }

  /** What a setter call does: the new story and the notification it
      requests, or the exception it throws. */
  datatype Transition = Accepted(next: Story, change: Change) | Rejected(error: Error)

  /** A setter call on a story: validate, then assign, then notify. */
  function Step(s: Story, op: StoryOp): (t: Transition)
    ensures t.Accepted? <==> Accepts(s, op)
  {
    match op
    case AssignId(x) =>
      if s.id == 0 then
        if 0 <= x then Accepted(s.(id := x), Change(IdProperty, IntValue(s.id), IntValue(x)))
        else Rejected(IllegalArgument(NegativeIdMessage))
      else Rejected(IllegalArgument(IdChangeMessage))
    case AssignTitle(t) =>
      var check := CheckStringNotBlank(t, TitleMessage);
      if check.Fail? then Rejected(check.error)
      else Accepted(s.(title := t), Change(TitleProperty, TextValue(s.title), TextValue(t)))
    case AssignDescription(d) =>
      var check := CheckObjectNotNull(d, DescriptionMessage);
      if check.Fail? then Rejected(check.error)
      else Accepted(s.(description := d), Change(DescriptionProperty, TextValue(s.description), TextValue(d)))
    case AssignEstimated(e) =>
      if 0.0 <= e then Accepted(s.(estimated := e), Change(EstimatedProperty, FloatValue(s.estimated), FloatValue(e)))
      else Rejected(IllegalArgument(EstimateMessage))
    case AssignPriority(p) =>
      var check := CheckObjectNotNull(p, PriorityMessage);
      if check.Fail? then Rejected(check.error)
      else Accepted(s.(priority := p), Change(PriorityProperty, PriorityValue(s.priority), PriorityValue(p)))
    case AssignRequester(r) =>
      var check := CheckStringNotBlank(r, RequesterMessage);
      if check.Fail? then Rejected(check.error)
      else Accepted(s.(requester := r), Change(RequesterProperty, TextValue(s.requester), TextValue(r)))
    case AssignRequirementKind(k) =>
      var check := CheckObjectNotNull(k, RequirementKindMessage);
      if check.Fail? then Rejected(check.error)
      else Accepted(s.(requirementKind := k), Change(RequirementKindProperty, KindValue(s.requirementKind), KindValue(k)))
  }

  /** A setter that accepts writes its argument to its own field, leaves
      every other field and `createDate` as they were, and requests one
      notification naming its property with the former and the new value. */
  lemma StepChangesOnlyItsField(s: Story, op: StoryOp)
    requires Step(s, op).Accepted?
    ensures Get(Step(s, op).next, Target(op)) == Argument(op)
    ensures forall f :: f != Target(op) ==> Get(Step(s, op).next, f) == Get(s, f)
    ensures Step(s, op).next.createDate == s.createDate
    ensures Step(s, op).change == Change(PropertyName(Target(op)), Get(s, Target(op)), Argument(op))
  {
  }

  /** `setID` is a small state machine: it fails once the id is non-zero,
      even for the same value, and fails for a negative id while it is 0. */
  lemma IdStateMachine(s: Story, x: int32)
    ensures s.id != 0 ==> Step(s, AssignId(x)) == Rejected(IllegalArgument(IdChangeMessage))
    ensures s.id == 0 && x < 0 ==> Step(s, AssignId(x)) == Rejected(IllegalArgument(NegativeIdMessage))
    ensures s.id != 0 ==> Step(s, AssignId(s.id)).Rejected?
  {
  }

  /** Because the guard tests the current value and not a "was set" flag,
      `setID(0)` on a fresh story succeeds and leaves the id assignable. */
  lemma ZeroIdStaysAssignable(s: Story, x: int32)
    requires s.id == 0 && 0 <= x
    ensures Step(s, AssignId(0)).Accepted?
    ensures Step(s, AssignId(0)).next.id == 0
    ensures Step(Step(s, AssignId(0)).next, AssignId(x)).Accepted?
  {
  }

  /** Every accepted setter call keeps a well-formed story well-formed. */
  lemma StepKeepsWellFormed(s: Story, op: StoryOp)
    requires WellFormed(s) && Step(s, op).Accepted?
    ensures WellFormed(Step(s, op).next)
  {
    StepChangesOnlyItsField(s, op);
  }

  /** A story and the notifications requested so far. */
  datatype Run = Run(story: Story, log: seq<Change>)

  /** A client's sequence of setter calls, where a call that throws is caught
      and leaves the story as it was. */
  function Trace(s: Story, log: seq<Change>, ops: seq<StoryOp>): Run
    decreases |ops|
  {
    if ops == [] then Run(s, log)
    else
      match Step(s, ops[0])
      case Rejected(_) => Trace(s, log, ops[1..])
      case Accepted(n, c) => Trace(n, log + [c], ops[1..])
  }

  /** Whatever setters a client calls, a non-zero id never changes: no
      setter but `setID` writes it and `setID` refuses once it is non-zero. */
  lemma {:induction false} IdFrozenAlongTrace(s: Story, log: seq<Change>, ops: seq<StoryOp>)
    requires s.id != 0
    ensures Trace(s, log, ops).story.id == s.id
    decreases |ops|
  {
    if ops != [] {
      match Step(s, ops[0])
      case Rejected(_) =>
        IdFrozenAlongTrace(s, log, ops[1..]);
      case Accepted(n, c) =>
        StepChangesOnlyItsField(s, ops[0]);
        assert Get(n, IdField) == Get(s, IdField);
        IdFrozenAlongTrace(n, log + [c], ops[1..]);
    }
  }

  /** If a sequence of calls ends with an id different from the one it
      started with, the id was 0 at the start. */
  lemma IdChangesOnlyFromZero(s: Story, log: seq<Change>, ops: seq<StoryOp>)
    ensures Trace(s, log, ops).story.id != s.id ==> s.id == 0
  {
    if s.id != 0 {
      IdFrozenAlongTrace(s, log, ops);
    }
  }

  /** Setter calls keep a story well-formed, never touch `createDate`, and
      each requests at most one notification, appended to the log. */
  lemma {:induction false} TraceKeepsWellFormed(s: Story, log: seq<Change>, ops: seq<StoryOp>)
    requires WellFormed(s)
    ensures WellFormed(Trace(s, log, ops).story)
    ensures Trace(s, log, ops).story.createDate == s.createDate
    ensures |log| <= |Trace(s, log, ops).log| <= |log| + |ops|
    ensures Trace(s, log, ops).log[..|log|] == log
    decreases |ops|
  {
    if ops != [] {
      match Step(s, ops[0])
      case Rejected(_) =>
        TraceKeepsWellFormed(s, log, ops[1..]);
      case Accepted(n, c) =>
        StepKeepsWellFormed(s, ops[0]);
        TraceKeepsWellFormed(n, log + [c], ops[1..]);
        var t := Trace(n, log + [c], ops[1..]).log;
        assert t[..|log|] == (t[..|log + [c]|])[..|log|];
    }
  }

  /** A sequence of calls that all throw changes nothing and notifies nothing. */
  lemma {:induction false} RejectedCallsChangeNothing(s: Story, log: seq<Change>, ops: seq<StoryOp>)
    requires forall i :: 0 <= i < |ops| ==> !Accepts(s, ops[i])
    ensures Trace(s, log, ops) == Run(s, log)
    decreases |ops|
  {
    if ops != [] {
      assert !Accepts(s, ops[0]);
      RejectedCallsChangeNothing(s, log, ops[1..]);
    }
  }

  /** The calls of a constructor, where the first exception aborts. */
  function Chain(s: Story, log: seq<Change>, ops: seq<StoryOp>): Result<Run>
    decreases |ops|
  {
    if ops == [] then Ok(Run(s, log))
    else
      match Step(s, ops[0])
      case Rejected(e) => Err(e)
      case Accepted(n, c) => Chain(n, log + [c], ops[1..])
  }

  /** Java's field defaults, in force when the constructor body starts. */
  function Defaults(now: Instant): Story
  {
    Story(0, None, None, now, 0.0, None, None, None)
  }

  /** The setter calls of the full constructor, in the order it makes them. */
  function ConstructorCalls(
    id: int32, title: JString, description: JString, estimated: real,
    priority: Option<Priority>, requester: JString, kind: Option<RequirementKind>): seq<StoryOp>
  {
    [AssignId(id), AssignDescription(description), AssignEstimated(estimated), AssignPriority(priority)] +
    TailCalls(requester, kind, title)
  }

  /** The last three of them. */
  function TailCalls(requester: JString, kind: Option<RequirementKind>, title: JString): seq<StoryOp>
  {
    [AssignRequester(requester), AssignRequirementKind(kind), AssignTitle(title)]
  }

  /** The full constructor: the setters from Java's defaults, then the clock. */
  function Construct(
    id: int32, title: JString, description: JString, estimated: real,
    priority: Option<Priority>, requester: JString, kind: Option<RequirementKind>,
    now: Instant): Result<Run>
  {
    Chain(Defaults(now), [], ConstructorCalls(id, title, description, estimated, priority, requester, kind))
  }

  /** One step of an aborting chain. */
  lemma ChainStep(s: Story, log: seq<Change>, op: StoryOp, rest: seq<StoryOp>)
    ensures Chain(s, log, [op] + rest) ==
      if Step(s, op).Rejected? then Err(Step(s, op).error)
      else Chain(Step(s, op).next, log + [Step(s, op).change], rest)
  {
    assert ([op] + rest)[0] == op && ([op] + rest)[1..] == rest;
  }

  /** The last three calls of the constructor. */
  lemma ConstructorTail(
    s: Story, log: seq<Change>, requester: JString, kind: Option<RequirementKind>, title: JString)
    ensures Chain(s, log, TailCalls(requester, kind, title)) ==
      if IsBlank(requester) then Err(IllegalArgument(RequesterMessage))
      else if kind.None? then Err(IllegalArgument(RequirementKindMessage))
      else if IsBlank(title) then Err(IllegalArgument(TitleMessage))
      else Ok(Run(s.(requester := requester, requirementKind := kind, title := title), log + [
          Change(RequesterProperty, TextValue(s.requester), TextValue(requester)),
          Change(RequirementKindProperty, KindValue(s.requirementKind), KindValue(kind)),
          Change(TitleProperty, TextValue(s.title), TextValue(title))]))
  {
    var ops := TailCalls(requester, kind, title);
    ChainStep(s, log, ops[0], ops[1..]);
    assert ops == [ops[0]] + ops[1..];
    if !IsBlank(requester) {
      var s1 := s.(requester := requester);
      var l1 := log + [Change(RequesterProperty, TextValue(s.requester), TextValue(requester))];
      ChainStep(s1, l1, ops[1], ops[2..]);
      assert ops[1..] == [ops[1]] + ops[2..];
      if kind.Some? {
        var s2 := s1.(requirementKind := kind);
        var l2 := l1 + [Change(RequirementKindProperty, KindValue(s.requirementKind), KindValue(kind))];
        ChainStep(s2, l2, ops[2], []);
        assert ops[2..] == [ops[2]] + [];
        assert l2 + [Change(TitleProperty, TextValue(s.title), TextValue(title))] == log + [
          Change(RequesterProperty, TextValue(s.requester), TextValue(requester)),
          Change(RequirementKindProperty, KindValue(s.requirementKind), KindValue(kind)),
          Change(TitleProperty, TextValue(s.title), TextValue(title))];
      }
    }
  }

  /** The first two calls of the constructor, on Java's defaults. */
  lemma ConstructorStart(now: Instant, id: int32, description: JString, rest: seq<StoryOp>)
    ensures Chain(Defaults(now), [], [AssignId(id), AssignDescription(description)] + rest) ==
      if id < 0 then Err(IllegalArgument(NegativeIdMessage))
      else if description.None? then Err(IllegalArgument(DescriptionMessage))
      else Chain(Defaults(now).(id := id, description := description),
                 [Change(IdProperty, IntValue(0), IntValue(id)),
                  Change(DescriptionProperty, TextValue(None), TextValue(description))],
                 rest)
  {
    var s0 := Defaults(now);
    assert [AssignId(id), AssignDescription(description)] + rest ==
      [AssignId(id)] + ([AssignDescription(description)] + rest);
    ChainStep(s0, [], AssignId(id), [AssignDescription(description)] + rest);
    if 0 <= id {
      var l1 := [Change(IdProperty, IntValue(0), IntValue(id))];
      assert [] + l1 == l1;
      ChainStep(s0.(id := id), l1, AssignDescription(description), rest);
      assert l1 + [Change(DescriptionProperty, TextValue(None), TextValue(description))] ==
        [Change(IdProperty, IntValue(0), IntValue(id)),
         Change(DescriptionProperty, TextValue(None), TextValue(description))];
    }
  }

  /** The third and fourth calls of the constructor. */
  lemma ConstructorMiddle(s: Story, log: seq<Change>, estimated: real, priority: Option<Priority>, rest: seq<StoryOp>)
    ensures Chain(s, log, [AssignEstimated(estimated), AssignPriority(priority)] + rest) ==
      if estimated < 0.0 then Err(IllegalArgument(EstimateMessage))
      else if priority.None? then Err(IllegalArgument(PriorityMessage))
      else Chain(s.(estimated := estimated, priority := priority),
                 log + [Change(EstimatedProperty, FloatValue(s.estimated), FloatValue(estimated)),
                        Change(PriorityProperty, PriorityValue(s.priority), PriorityValue(priority))],
                 rest)
  {
    assert [AssignEstimated(estimated), AssignPriority(priority)] + rest ==
      [AssignEstimated(estimated)] + ([AssignPriority(priority)] + rest);
    ChainStep(s, log, AssignEstimated(estimated), [AssignPriority(priority)] + rest);
    if 0.0 <= estimated {
      var l1 := log + [Change(EstimatedProperty, FloatValue(s.estimated), FloatValue(estimated))];
      ChainStep(s.(estimated := estimated), l1, AssignPriority(priority), rest);
      assert l1 + [Change(PriorityProperty, PriorityValue(s.priority), PriorityValue(priority))] ==
        log + [Change(EstimatedProperty, FloatValue(s.estimated), FloatValue(estimated)),
               Change(PriorityProperty, PriorityValue(s.priority), PriorityValue(priority))];
    }
  }

  /** The constructor as its three stages. */
  lemma ConstructorStages(
    id: int32, title: JString, description: JString, estimated: real,
    priority: Option<Priority>, requester: JString, kind: Option<RequirementKind>,
    now: Instant)
    ensures Construct(id, title, description, estimated, priority, requester, kind, now) ==
      if id < 0 then Err(IllegalArgument(NegativeIdMessage))
      else if description.None? then Err(IllegalArgument(DescriptionMessage))
      else if estimated < 0.0 then Err(IllegalArgument(EstimateMessage))
      else if priority.None? then Err(IllegalArgument(PriorityMessage))
      else Chain(Defaults(now).(id := id, description := description, estimated := estimated, priority := priority),
                 [Change(IdProperty, IntValue(0), IntValue(id)),
                  Change(DescriptionProperty, TextValue(None), TextValue(description)),
                  Change(EstimatedProperty, FloatValue(0.0), FloatValue(estimated)),
                  Change(PriorityProperty, PriorityValue(None), PriorityValue(priority))],
                 TailCalls(requester, kind, title))
  {
    var tail := TailCalls(requester, kind, title);
    assert ConstructorCalls(id, title, description, estimated, priority, requester, kind) ==
      [AssignId(id), AssignDescription(description)] + ([AssignEstimated(estimated), AssignPriority(priority)] + tail);
    ConstructorStart(now, id, description, [AssignEstimated(estimated), AssignPriority(priority)] + tail);
    if 0 <= id && description.Some? {
      var l2 := [Change(IdProperty, IntValue(0), IntValue(id)),
                 Change(DescriptionProperty, TextValue(None), TextValue(description))];
      ConstructorMiddle(Defaults(now).(id := id, description := description), l2, estimated, priority, tail);
      assert l2 + [Change(EstimatedProperty, FloatValue(0.0), FloatValue(estimated)),
                   Change(PriorityProperty, PriorityValue(None), PriorityValue(priority))] ==
        [Change(IdProperty, IntValue(0), IntValue(id)),
         Change(DescriptionProperty, TextValue(None), TextValue(description)),
         Change(EstimatedProperty, FloatValue(0.0), FloatValue(estimated)),
         Change(PriorityProperty, PriorityValue(None), PriorityValue(priority))];
    }
  }

  /** The constructor succeeds exactly when every argument is valid; then the
      story holds exactly the arguments and the clock reading, is well-formed,
      and seven notifications were requested. A negative id is the first
      thing it rejects. */
  lemma ConstructorEchoes(
    id: int32, title: JString, description: JString, estimated: real,
    priority: Option<Priority>, requester: JString, kind: Option<RequirementKind>,
    now: Instant)
    ensures Construct(id, title, description, estimated, priority, requester, kind, now).Ok? <==>
      0 <= id && !IsBlank(title) && description.Some? && 0.0 <= estimated &&
      priority.Some? && !IsBlank(requester) && kind.Some?
    ensures Construct(id, title, description, estimated, priority, requester, kind, now).Ok? ==>
      Construct(id, title, description, estimated, priority, requester, kind, now).value.story ==
        Story(id, title, description, now, estimated, priority, requester, kind)
    ensures Construct(id, title, description, estimated, priority, requester, kind, now).Ok? ==>
      WellFormed(Construct(id, title, description, estimated, priority, requester, kind, now).value.story) &&
      |Construct(id, title, description, estimated, priority, requester, kind, now).value.log| == 7
    ensures id < 0 ==>
      Construct(id, title, description, estimated, priority, requester, kind, now) == Err(IllegalArgument(NegativeIdMessage))
  {
    ConstructorStages(id, title, description, estimated, priority, requester, kind, now);
    if 0 <= id && description.Some? && 0.0 <= estimated && priority.Some? {
      ConstructorTail(Defaults(now).(id := id, description := description, estimated := estimated, priority := priority),
                      [Change(IdProperty, IntValue(0), IntValue(id)),
                       Change(DescriptionProperty, TextValue(None), TextValue(description)),
                       Change(EstimatedProperty, FloatValue(0.0), FloatValue(estimated)),
                       Change(PriorityProperty, PriorityValue(None), PriorityValue(priority))],
                      requester, kind, title);
    }
  }

  /** The default constructor yields the documented defaults. */
  lemma DefaultStory(now: Instant)
    ensures Construct(0, Some("Default"), Some("Default"), 0.0, Some(Minor), Some("Nobody"), Some(UserStory), now).Ok?
    ensures Construct(0, Some("Default"), Some("Default"), 0.0, Some(Minor), Some("Nobody"), Some(UserStory), now).value.story ==
      Story(0, Some("Default"), Some("Default"), now, 0.0, Some(Minor), Some("Nobody"), Some(UserStory))
  {
    assert !IsWhitespace("Default"[0]) && !IsWhitespace("Nobody"[0]);
    ConstructorEchoes(0, Some("Default"), Some("Default"), 0.0, Some(Minor), Some("Nobody"), Some(UserStory), now);
  }

  /** A story object. Its getters are its fields; `State()` gathers them. */
  class ProductStory {
    var id: int32
    var title: JString
    var description: JString
    const createDate: Instant
    var estimated: real
    var priority: Option<Priority>
    var requester: JString
    var requirementKind: Option<RequirementKind>

    /** The notifications requested so far (their delivery is not modelled). */
    ghost var Changes: seq<Change>

    function State(): Story
      reads this
    {
      Story(id, title, description, createDate, estimated, priority, requester, requirementKind)
    }

    ghost predicate Valid()
      reads this
    {
      WellFormed(State())
    }

    /** The setter call `op` returned `r`, moving the story from `before` and
        the log from `log` to their present values, as `Step` says. */
    ghost predicate Took(before: Story, log: seq<Change>, op: StoryOp, r: Outcome)
      reads this
    {
      match Step(before, op)
      case Accepted(n, c) => r == Pass && State() == n && Changes == log + [c]
      case Rejected(e) => r == Fail(e) && State() == before && Changes == log
    }

    /** An object whose fields still hold Java's defaults. */
    constructor Blank(now: Instant)
      ensures State() == Defaults(now) && Changes == []
    {
      id, title, description, createDate := 0, None, None, now;
      estimated, priority, requester, requirementKind := 0.0, None, None, None;
      Changes := [];
    }

    /** `new ProductStory(id, title, description, estimated, priority,
        requester, requirementKind)`, the clock reading passed in as `now`. */
    static method Create(
      id: int32, title: JString, description: JString, estimated: real,
      priority: Option<Priority>, requester: JString, kind: Option<RequirementKind>,
      now: Instant) returns (r: Result<ProductStory>)
      ensures r.Ok? <==> 0 <= id && !IsBlank(title) && description.Some? && 0.0 <= estimated &&
                         priority.Some? && !IsBlank(requester) && kind.Some?
      ensures r.Ok? ==> fresh(r.value) && r.value.Valid()
      ensures r.Ok? ==> r.value.State() == Story(id, title, description, now, estimated, priority, requester, kind)
      ensures r.Ok? ==> Construct(id, title, description, estimated, priority, requester, kind, now) ==
                          Ok(Run(r.value.State(), r.value.Changes))
      ensures r.Err? ==> Construct(id, title, description, estimated, priority, requester, kind, now) == Err(r.error)
    {
      ConstructorEchoes(id, title, description, estimated, priority, requester, kind, now);
      ConstructorStages(id, title, description, estimated, priority, requester, kind, now);
      var s := new ProductStory.Blank(now);
      var o := s.SetID(id);
      if o.Fail? { return Err(o.error); }
      o := s.SetDescription(description);
      if o.Fail? { return Err(o.error); }
      o := s.SetEstimated(estimated);
      if o.Fail? { return Err(o.error); }
      o := s.SetPriority(priority);
      if o.Fail? { return Err(o.error); }
      assert s.State() == Defaults(now).(id := id, description := description, estimated := estimated, priority := priority);
      assert s.Changes == [Change(IdProperty, IntValue(0), IntValue(id)),
                           Change(DescriptionProperty, TextValue(None), TextValue(description)),
                           Change(EstimatedProperty, FloatValue(0.0), FloatValue(estimated)),
                           Change(PriorityProperty, PriorityValue(None), PriorityValue(priority))];
      ghost var log4 := s.Changes;
      ConstructorTail(s.State(), s.Changes, requester, kind, title);
      assert Construct(id, title, description, estimated, priority, requester, kind, now) ==
        Chain(s.State(), s.Changes, TailCalls(requester, kind, title));
      o := s.SetRequester(requester);
      if o.Fail? { return Err(o.error); }
      o := s.SetRequirementKind(kind);
      if o.Fail? { return Err(o.error); }
      o := s.SetTitle(title);
      if o.Fail? {
        assert IsBlank(title);
        return Err(o.error);
      }
      assert s.Changes == log4 + [
        Change(RequesterProperty, TextValue(None), TextValue(requester)),
        Change(RequirementKindProperty, KindValue(None), KindValue(kind)),
        Change(TitleProperty, TextValue(None), TextValue(title))];
      r := Ok(s);
    }

    /** `new ProductStory()`: id 0, title and description "Default",
        estimate 0, MINOR, requester "Nobody", USER_STORY. */
    static method CreateDefault(now: Instant) returns (s: ProductStory)
      ensures fresh(s) && s.Valid()
      ensures s.State() == Story(0, Some("Default"), Some("Default"), now, 0.0, Some(Minor), Some("Nobody"), Some(UserStory))
    {
      assert !IsWhitespace("Default"[0]) && !IsWhitespace("Nobody"[0]);
      var r := Create(0, Some("Default"), Some("Default"), 0.0, Some(Minor), Some("Nobody"), Some(UserStory), now);
      s := r.value;
    }

    /** `setID`: only while the id is 0, and only to a non-negative value. */
    method SetID(newId: int32) returns (r: Outcome)
      modifies this
      ensures Took(old(State()), old(Changes), AssignId(newId), r)
      ensures r.Pass? <==> old(id) == 0 && 0 <= newId
      ensures id == if r.Pass? then newId else old(id)
      ensures old(Valid()) ==> Valid()
    {
      if 0 == id {
        if 0 <= newId {
          var formerId := id;
          id := newId;
          Changes := Changes + [Change(IdProperty, IntValue(formerId), IntValue(id))];
          r := Pass;
        } else {
          r := Fail(IllegalArgument(NegativeIdMessage));
        }
      } else {
        r := Fail(IllegalArgument(IdChangeMessage));
      }
    }

    /** `setTitle`: refuses a blank title, stores any other exactly. */
    method SetTitle(newTitle: JString) returns (r: Outcome)
      modifies this
      ensures Took(old(State()), old(Changes), AssignTitle(newTitle), r)
      ensures r.Pass? <==> !IsBlank(newTitle)
      ensures title == if r.Pass? then newTitle else old(title)
      ensures old(Valid()) ==> Valid()
    {
      var check := CheckStringNotBlank(newTitle, TitleMessage);
      if check.Fail? {
        return Fail(check.error);
      }
      var formerTitle := title;
      title := newTitle;
      Changes := Changes + [Change(TitleProperty, TextValue(formerTitle), TextValue(newTitle))];
      r := Pass;
    }

    /** `setDescription`: refuses only `null`; blank text is accepted. */
    method SetDescription(newDescription: JString) returns (r: Outcome)
      modifies this
      ensures Took(old(State()), old(Changes), AssignDescription(newDescription), r)
      ensures r.Pass? <==> newDescription.Some?
      ensures description == if r.Pass? then newDescription else old(description)
      ensures old(Valid()) ==> Valid()
    {
      var check := CheckObjectNotNull(newDescription, DescriptionMessage);
      if check.Fail? {
        return Fail(check.error);
      }
      var formerDescription := description;
      description := newDescription;
      Changes := Changes + [Change(DescriptionProperty, TextValue(formerDescription), TextValue(description))];
      r := Pass;
    }

    /** `setPriority`: refuses only `null`. */
    method SetPriority(newPriority: Option<Priority>) returns (r: Outcome)
      modifies this
      ensures Took(old(State()), old(Changes), AssignPriority(newPriority), r)
      ensures r.Pass? <==> newPriority.Some?
      ensures priority == if r.Pass? then newPriority else old(priority)
      ensures old(Valid()) ==> Valid()
    {
      var check := CheckObjectNotNull(newPriority, PriorityMessage);
      if check.Fail? {
        return Fail(check.error);
      }
      var formerPriority := priority;
      priority := newPriority;
      Changes := Changes + [Change(PriorityProperty, PriorityValue(formerPriority), PriorityValue(priority))];
      r := Pass;
    }

    /** `setRequester`: refuses a blank requester, stores any other exactly. */
    method SetRequester(newRequester: JString) returns (r: Outcome)
      modifies this
      ensures Took(old(State()), old(Changes), AssignRequester(newRequester), r)
      ensures r.Pass? <==> !IsBlank(newRequester)
      ensures requester == if r.Pass? then newRequester else old(requester)
      ensures old(Valid()) ==> Valid()
    {
      var check := CheckStringNotBlank(newRequester, RequesterMessage);
      if check.Fail? {
        return Fail(check.error);
      }
      var formerRequester := requester;
      requester := newRequester;
      Changes := Changes + [Change(RequesterProperty, TextValue(formerRequester), TextValue(requester))];
      r := Pass;
    }

    /** `setRequirementKind`: refuses only `null`. */
    method SetRequirementKind(newKind: Option<RequirementKind>) returns (r: Outcome)
      modifies this
      ensures Took(old(State()), old(Changes), AssignRequirementKind(newKind), r)
      ensures r.Pass? <==> newKind.Some?
      ensures requirementKind == if r.Pass? then newKind else old(requirementKind)
      ensures old(Valid()) ==> Valid()
    {
      var check := CheckObjectNotNull(newKind, RequirementKindMessage);
      if check.Fail? {
        return Fail(check.error);
      }
      var formerKind := requirementKind;
      requirementKind := newKind;
      Changes := Changes + [Change(RequirementKindProperty, KindValue(formerKind), KindValue(requirementKind))];
      r := Pass;
    }

    /** `setEstimated`: refuses a negative estimate; 0 is accepted. */
    method SetEstimated(newEstimated: real) returns (r: Outcome)
      modifies this
      ensures Took(old(State()), old(Changes), AssignEstimated(newEstimated), r)
      ensures r.Pass? <==> 0.0 <= newEstimated
      ensures estimated == if r.Pass? then newEstimated else old(estimated)
      ensures old(Valid()) ==> Valid()
    {
      if 0.0 <= newEstimated {
        var formerEstimated := estimated;
        estimated := newEstimated;
        Changes := Changes + [Change(EstimatedProperty, FloatValue(formerEstimated), FloatValue(estimated))];
        r := Pass;
      } else {
        r := Fail(IllegalArgument(EstimateMessage));
      }
    }

    /** `getEffective`: effort actually spent is not tracked and always 0. */
    function GetEffective(): (e: real)
      reads this
      ensures e == 0.0
    {
      0.0
    }

    /** `equals`: another story with the same id, title, description,
        creation date, estimate, priority, requester and kind. The
        notification log plays no part. */
    function Equals(other: ProductStory?): (b: bool)
      reads this, other
      ensures b <==> other != null &&
                     id == other.id && title == other.title && description == other.description &&
                     createDate == other.createDate && estimated == other.estimated &&
                     priority == other.priority && requester == other.requester &&
                     requirementKind == other.requirementKind
    {
      other != null && State() == other.State()
    }
  }

  /** Story equality is an equivalence on stories. */
  lemma StoryEqualsIsEquivalence(a: ProductStory, b: ProductStory, c: ProductStory)
    ensures a.Equals(a)
    ensures a.Equals(b) <==> b.Equals(a)
    ensures a.Equals(b) && b.Equals(c) ==> a.Equals(c)
  {
  }

  /** Two stories constructed from the same arguments at the same instant are
      equal, although they are distinct objects. */
  method SameArgumentsGiveEqualStories(
    id: int32, title: JString, description: JString, estimated: real,
    priority: Option<Priority>, requester: JString, kind: Option<RequirementKind>,
    now: Instant) returns (r1: Result<ProductStory>, r2: Result<ProductStory>)
    ensures r1.Ok? <==> r2.Ok?
    ensures r1.Err? ==> r1 == r2
    ensures r1.Ok? ==> r1.value != r2.value && r1.value.Equals(r2.value)
  {
    r1 := ProductStory.Create(id, title, description, estimated, priority, requester, kind, now);
    r2 := ProductStory.Create(id, title, description, estimated, priority, requester, kind, now);
  }
}
