/** The wizard sequencer of the picture-profile questionnaire: the fixed order of its
    seven steps, the record of answers, the derived `canProceed` gate and step number,
    and the provider whose two state slots (the current step and the answers) the
    navigation and answer operations update. */
module Wizard {
  import opened ArrayOps

  /** An answer that is `null` until the user picks a value. */
  datatype Option<T> = None | Some(value: T)

  datatype ContentType = Movies | Sports | Gaming | General
  datatype ViewingTime = Daytime | Nighttime | Both
  datatype ColorPreference = Vivid | Natural
  datatype MotionPreference = Smooth | Cinematic
  datatype BrightnessPreference = Bright | Comfortable

  /** The answers collected so far; `contentTypes` is a multi-select list. */
  datatype Answers = Answers(
    contentTypes: seq<ContentType>,
    viewingTime: Option<ViewingTime>,
    colorPreference: Option<ColorPreference>,
    motionPreference: Option<MotionPreference>,
    brightnessPreference: Option<BrightnessPreference>)

  /** The five fields of `Answers`, as the keys `setAnswer` accepts. */
  datatype Field =
    | ContentTypesField
    | ViewingTimeField
    | ColorPreferenceField
    | MotionPreferenceField
    | BrightnessPreferenceField

  datatype Step =
    | Welcome
    | ContentTypeStep
    | ViewingTimeStep
    | ColorPreferenceStep
    | MotionPreferenceStep
    | BrightnessStep
    | Results

  /** The order in which the wizard visits its steps. */
  const StepOrder: seq<Step> := [
    Welcome,
    ContentTypeStep,
    ViewingTimeStep,
    ColorPreferenceStep,
    MotionPreferenceStep,
    BrightnessStep,
    Results
  ]

  const TotalQuestions: nat := 5

  /** The answers of a fresh wizard: nothing selected, nothing set. */
  const DefaultAnswers: Answers := Answers([], None, None, None, None)

  /** `stepNumber`: the position of `s` in the step order, which is 0 at the welcome
      screen, 1 to 5 at the questions and 6 at the results. */
  function StepNumber(s: Step): (n: int)
    ensures 0 <= n < |StepOrder| && StepOrder[n] == s
    ensures n == 0 <==> s == Welcome
    ensures n == TotalQuestions + 1 <==> s == Results
  {
    match s
    case Welcome => 0
    case ContentTypeStep => 1
    case ViewingTimeStep => 2
    case ColorPreferenceStep => 3
    case MotionPreferenceStep => 4
    case BrightnessStep => 5
    case Results => 6
  }

  /** The step number is what `STEP_ORDER.indexOf` computes for the step. */
  lemma StepNumberIsIndexOf(s: Step)
    ensures StepNumber(s) == IndexOf(StepOrder, s)
  {
    var n := StepNumber(s);
    assert forall j, k :: 0 <= j < k < |StepOrder| ==> StepOrder[j] != StepOrder[k];
    assert s !in StepOrder[..n];
    IndexOfFirst(StepOrder, s, n);
  }

  /** Every step is listed in the step order. */
  lemma StepInOrder(s: Step)
    ensures s in StepOrder
  {
    assert StepOrder[StepNumber(s)] == s;
  }

  /** No step occurs twice in the step order, so a step and its number determine each other. */
  lemma StepNumberOf(i: int)
    requires 0 <= i < |StepOrder|
    ensures StepNumber(StepOrder[i]) == i
  {
    assert forall j, k :: 0 <= j < k < |StepOrder| ==> StepOrder[j] != StepOrder[k];
  }

  /** The step `goToNext` moves to: the next entry of the step order, or the same step at the end. */
  function NextStep(s: Step): (r: Step)
    ensures StepNumber(s) < TotalQuestions + 1 ==> StepNumber(r) == StepNumber(s) + 1
    ensures s == Results ==> r == s
  {
    var nextIndex := StepNumber(s) + 1;
    if nextIndex < |StepOrder| then
      StepNumberOf(nextIndex);
      StepOrder[nextIndex]
    else s
  }

  /** The step `goBack` moves to: the previous entry of the step order, or the same step at the start. */
  function PrevStep(s: Step): (r: Step)
    ensures 0 < StepNumber(s) ==> StepNumber(r) == StepNumber(s) - 1
    ensures s == Welcome ==> r == s
  {
    var prevIndex := StepNumber(s) - 1;
    if prevIndex >= 0 then
      StepNumberOf(prevIndex);
      StepOrder[prevIndex]
    else s
  }

  /** The answer field a question step collects; the welcome and results screens collect none. */
  function Asks(s: Step): Option<Field>
  {
    match s
    case Welcome => None
    case ContentTypeStep => Some(ContentTypesField)
    case ViewingTimeStep => Some(ViewingTimeField)
    case ColorPreferenceStep => Some(ColorPreferenceField)
    case MotionPreferenceStep => Some(MotionPreferenceField)
    case BrightnessStep => Some(BrightnessPreferenceField)
    case Results => None
  }

  /** Field `f` has been answered: a non-empty selection, or a non-null value. */
  predicate IsSet(a: Answers, f: Field)
  {
    match f
    case ContentTypesField => |a.contentTypes| > 0
    case ViewingTimeField => a.viewingTime.Some?
    case ColorPreferenceField => a.colorPreference.Some?
    case MotionPreferenceField => a.motionPreference.Some?
    case BrightnessPreferenceField => a.brightnessPreference.Some?
  }

  /** `canProceed`: whether the screen at step `s` lets the user continue. */
  function CanProceed(s: Step, a: Answers): (r: bool)
    ensures r <==> Asks(s) == None || IsSet(a, Asks(s).value)
    ensures s == Welcome || s == Results ==> r
  {
    match s
    case Welcome => true
    case ContentTypeStep => |a.contentTypes| > 0
    case ViewingTimeStep => a.viewingTime != None
    case ColorPreferenceStep => a.colorPreference != None
    case MotionPreferenceStep => a.motionPreference != None
    case BrightnessStep => a.brightnessPreference != None
    case Results => true
  }

  /** A `setAnswer(key, value)` call: a key together with a value of that key's type. */
  datatype AnswerUpdate =
    | SetContentTypes(types: seq<ContentType>)
    | SetViewingTime(time: Option<ViewingTime>)
    | SetColorPreference(color: Option<ColorPreference>)
    | SetMotionPreference(motion: Option<MotionPreference>)
    | SetBrightnessPreference(brightness: Option<BrightnessPreference>)

  function Key(u: AnswerUpdate): Field
  {
    match u
    case SetContentTypes(_) => ContentTypesField
    case SetViewingTime(_) => ViewingTimeField
    case SetColorPreference(_) => ColorPreferenceField
    case SetMotionPreference(_) => MotionPreferenceField
    case SetBrightnessPreference(_) => BrightnessPreferenceField
  }

  /** `a` holds the value that `u` writes. */
  predicate Holds(a: Answers, u: AnswerUpdate)
  {
    match u
    case SetContentTypes(v) => a.contentTypes == v
    case SetViewingTime(v) => a.viewingTime == v
    case SetColorPreference(v) => a.colorPreference == v
    case SetMotionPreference(v) => a.motionPreference == v
    case SetBrightnessPreference(v) => a.brightnessPreference == v
  }

  /** `a` and `b` agree on field `f`. */
  predicate Agree(a: Answers, b: Answers, f: Field)
  {
    match f
    case ContentTypesField => a.contentTypes == b.contentTypes
    case ViewingTimeField => a.viewingTime == b.viewingTime
    case ColorPreferenceField => a.colorPreference == b.colorPreference
    case MotionPreferenceField => a.motionPreference == b.motionPreference
    case BrightnessPreferenceField => a.brightnessPreference == b.brightnessPreference
  }

  /** The updater `setAnswer` installs: the previous answers with one field overwritten. */
  function Assign(a: Answers, u: AnswerUpdate): (r: Answers)
    ensures Holds(r, u)
    ensures forall f :: f != Key(u) ==> Agree(r, a, f)
  {
    match u
    case SetContentTypes(v) => a.(contentTypes := v)
    case SetViewingTime(v) => a.(viewingTime := v)
    case SetColorPreference(v) => a.(colorPreference := v)
    case SetMotionPreference(v) => a.(motionPreference := v)
    case SetBrightnessPreference(v) => a.(brightnessPreference := v)
  }

  /** Writes to two different fields commute. */
  lemma AssignCommutes(a: Answers, u: AnswerUpdate, w: AnswerUpdate)
    requires Key(u) != Key(w)
    ensures Assign(Assign(a, u), w) == Assign(Assign(a, w), u)
  {
  }

  /** A second write to the same field replaces the first. */
  lemma AssignOverwrites(a: Answers, u: AnswerUpdate, w: AnswerUpdate)
    requires Key(u) == Key(w)
    ensures Assign(Assign(a, u), w) == Assign(a, w)
  {
  }

  /** Answering the question on screen with a non-empty selection or a non-null value opens
      the gate of that screen. */
  lemma AssignOpensGate(s: Step, a: Answers, u: AnswerUpdate)
    requires Asks(s) == Some(Key(u))
    requires u.SetContentTypes? ==> |u.types| > 0
    requires u.SetViewingTime? ==> u.time.Some?
    requires u.SetColorPreference? ==> u.color.Some?
    requires u.SetMotionPreference? ==> u.motion.Some?
    requires u.SetBrightnessPreference? ==> u.brightness.Some?
    ensures CanProceed(s, Assign(a, u))
  {
  }

  /** Writing a field the screen does not ask for leaves its gate as it was. */
  lemma AssignKeepsOtherGates(s: Step, a: Answers, u: AnswerUpdate)
    requires Asks(s) != Some(Key(u))
    ensures CanProceed(s, Assign(a, u)) == CanProceed(s, a)
  {
    if Asks(s).Some? {
      assert Agree(Assign(a, u), a, Asks(s).value);
    }
  }

  /** The updater `toggleContentType(t)` installs on the selection: drop every `t` when
      present, append `t` when absent. Membership flips for `t` and for nothing else. */
  function Toggled(s: seq<ContentType>, t: ContentType): (r: seq<ContentType>)
    ensures forall x :: x in r <==> (x in s <==> x != t)
    ensures t !in s ==> |r| == |s| + 1 && r[..|s|] == s && r[|s|] == t
    ensures t in s ==> |r| < |s|
  {
    if t in s then RemoveAll(s, t) else s + [t]
  }

  /** Toggling keeps the selection free of duplicates. */
  lemma ToggledNoDup(s: seq<ContentType>, t: ContentType)
    requires NoDup(s)
    ensures NoDup(Toggled(s, t))
  {
    if t in s {
      RemoveAllNoDup(s, t);
    } else {
      AppendNoDup(s, t);
    }
  }

  /** On a duplicate-free selection, toggling a present type removes exactly one entry. */
  lemma ToggledRemovesOne(s: seq<ContentType>, t: ContentType)
    requires NoDup(s) && t in s
    ensures |Toggled(s, t)| == |s| - 1
  {
    NoDupOccursOnce(s, t);
    RemoveAllMultiset(s, t);
    assert |multiset(RemoveAll(s, t))| == |multiset(s)| - 1;
  }

  /** Toggling an absent type twice gives back exactly the original list. */
  lemma ToggleTwiceAbsent(s: seq<ContentType>, t: ContentType)
    requires t !in s
    ensures Toggled(Toggled(s, t), t) == s
  {
    RemoveAllAppend(s, [t], t);
    RemoveAllAbsent(s, t);
  }

  /** Toggling a present type twice drops every copy of it and appends one at the end. */
  lemma ToggleTwiceMovesToEnd(s: seq<ContentType>, t: ContentType)
    requires t in s
    ensures Toggled(Toggled(s, t), t) == RemoveAll(s, t) + [t]
  {
  }

  /** On a duplicate-free list, toggling a present type twice keeps the same entries,
      with `t` moved to the end. */
  lemma ToggleTwicePresent(s: seq<ContentType>, t: ContentType)
    requires NoDup(s) && t in s
    ensures multiset(Toggled(Toggled(s, t), t)) == multiset(s)
  {
    NoDupOccursOnce(s, t);
    RemoveAllMultiset(s, t);
    ToggleTwiceMovesToEnd(s, t);
    var once := RemoveAll(s, t);
    assert multiset(once + [t]) == multiset(once) + multiset{t};
  }

  /** From a fresh wizard, every question screen holds the user back until answered. */
  lemma FreshWizardGates(s: Step)
    ensures CanProceed(s, DefaultAnswers) <==> Asks(s) == None
  {
  }

  /** `goToNext` ignores the gate: on an unanswered content-type screen it still advances. */
  lemma NextIgnoresGate()
    ensures !CanProceed(ContentTypeStep, DefaultAnswers)
    ensures NextStep(ContentTypeStep) == ViewingTimeStep
  {
    StepNumberOf(2);
  }

  /** The step reached from `s` by `k` calls of `goToNext`. */
  function Advance(s: Step, k: nat): Step
    decreases k
  {
    if k == 0 then s else Advance(NextStep(s), k - 1)
  }

  /** `k` calls of `goToNext` move `k` steps forward, stopping at the results screen. */
  lemma {:induction false} AdvanceNumber(s: Step, k: nat)
    decreases k
    ensures StepNumber(Advance(s, k)) ==
      if StepNumber(s) + k <= TotalQuestions + 1 then StepNumber(s) + k else TotalQuestions + 1
  {
    if k > 0 {
      var n, next := StepNumber(s), NextStep(s);
      assert Advance(s, k) == Advance(next, k - 1);
      AdvanceNumber(next, k - 1);
      if n == TotalQuestions + 1 {
        assert next == s;
      } else {
        assert StepNumber(next) == n + 1;
      }
    }
  }

  /** `goBack` undoes `goToNext` everywhere but at the results screen, and vice versa. */
  lemma BackUndoesNext(s: Step)
    ensures s != Results ==> PrevStep(NextStep(s)) == s
    ensures s != Welcome ==> NextStep(PrevStep(s)) == s
  {
    var n := StepNumber(s);
    StepNumberOf(n);
  }

  /** The provider's state: the step on screen and the answers collected so far. */
  class WizardProvider {
    var currentStep: Step
    var answers: Answers

    /** The selection never lists a content type twice. */
    ghost predicate Valid()
      reads this
    {
      NoDup(answers.contentTypes)
    }

    constructor ()
      ensures Valid()
      ensures currentStep == Welcome && answers == DefaultAnswers
    {
      currentStep := Welcome;
      answers := DefaultAnswers;
    }

    method GoToNext()
      modifies this
      ensures currentStep == NextStep(old(currentStep))
      ensures answers == old(answers)
    {
      var currentIndex := IndexOf(StepOrder, currentStep);
      StepNumberIsIndexOf(currentStep);
      var nextIndex := currentIndex + 1;
      if nextIndex < |StepOrder| {
        StepNumberOf(nextIndex);
        currentStep := StepOrder[nextIndex];
      }
    }

    method GoBack()
      modifies this
      ensures currentStep == PrevStep(old(currentStep))
      ensures answers == old(answers)
    {
      var currentIndex := IndexOf(StepOrder, currentStep);
      StepNumberIsIndexOf(currentStep);
      var prevIndex := currentIndex - 1;
      if prevIndex >= 0 {
        StepNumberOf(prevIndex);
        currentStep := StepOrder[prevIndex];
      }
    }

    method SetAnswer(u: AnswerUpdate)
      modifies this
      ensures answers == Assign(old(answers), u)
      ensures currentStep == old(currentStep)
      ensures old(Valid()) && (u.SetContentTypes? ==> NoDup(u.types)) ==> Valid()
    {
      answers := Assign(answers, u);
    }

    method ToggleContentType(t: ContentType)
      modifies this
      ensures answers == old(answers).(contentTypes := Toggled(old(answers.contentTypes), t))
      ensures currentStep == old(currentStep)
      ensures old(Valid()) ==> Valid()
      ensures old(Valid()) && t in old(answers.contentTypes) ==>
        |answers.contentTypes| == |old(answers.contentTypes)| - 1
    {
      var current := answers.contentTypes;
      ghost var wasValid := NoDup(current);
      if wasValid {
        ToggledNoDup(current, t);
        if t in current {
          ToggledRemovesOne(current, t);
        }
      }
      answers := answers.(contentTypes := Toggled(current, t));
    }

    method ResetWizard()
      modifies this
      ensures Valid()
      ensures currentStep == Welcome && answers == DefaultAnswers
    {
      currentStep := Welcome;
      answers := DefaultAnswers;
    }
  }
}
