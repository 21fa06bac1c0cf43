/**
 * Strategy selection for one challenge slot of the solver in agent.js.
 *
 * The browser is replaced by an observation of the page: for each of the four
 * locators the result of its visibility probe (which may throw), whether the
 * settling delay throws, whether the chosen interaction throws, and the
 * duration the clock reports for the slot.
 */
module Cascade {

  /** Result of `locator.isVisible()`; a probe that throws is a value of its own. */
  datatype Visibility = Visible | Hidden | ProbeThrew

  /** `isVisible().catch(() => false)`: a probe that throws reads as "not visible". */
  predicate Shown(v: Visibility) {
    v == Visible
  }

  /**
   * What the page offers in one slot.  `button` is the first enabled button,
   * `textInput` the first text input, `checkbox` the first checkbox and
   * `select` the first select element.
   */
  datatype Slot = Slot(
    delayThrows: bool,
    button: Visibility,
    textInput: Visibility,
    checkbox: Visibility,
    select: Visibility,
    actionThrows: bool,
    duration: int)

  /** The `strategy` label of a slot; `NoStrategy` is the initial 'none'. */
  datatype Strategy = NoStrategy | Button | TextInput | Checkbox | Select | KeyPress

  /** A page interaction issued by a strategy. */
  datatype Action = Click | FillAndSubmit(text: string) | Check | SelectIndex(index: nat) | PressEnter

  /** The fixed order in which the strategies are tried. */
  const Priority: seq<Strategy> := [Button, TextInput, Checkbox, Select, KeyPress]

  /** Option index chosen by the select strategy. */
  const SelectOptionIndex: nat := 1

  /** Prefix of the text typed by the text-input strategy. */
  const FillPrefix: string := "test-"

  /** Whether strategy `s` may act on the page described by `obs`. */
  predicate Applicable(obs: Slot, s: Strategy) {
    match s
    case NoStrategy => false
    case Button => Shown(obs.button)
    case TextInput => Shown(obs.textInput)
    case Checkbox => Shown(obs.checkbox)
    case Select => Shown(obs.select)
    case KeyPress => true
  }

  /** Index in `Priority`, from `k` on, of the first strategy that applies. */
  function FirstApplicable(obs: Slot, k: nat): (j: nat)
    requires k < |Priority|
    ensures k <= j < |Priority|
    ensures Applicable(obs, Priority[j])
    ensures forall m :: k <= m < j ==> !Applicable(obs, Priority[m])
    decreases |Priority| - k
  {
    if Applicable(obs, Priority[k]) then k else FirstApplicable(obs, k + 1)
  }

  /** The strategy a slot acts with: the first applicable one in priority order. */
  function Chosen(obs: Slot): Strategy {
    Priority[FirstApplicable(obs, 0)]
  }

  /** Decimal notation of `n`, as a template literal renders an integer. */
  function Decimal(n: nat): (r: string)
    ensures |r| >= 1
    ensures IsDigits(r)
    ensures r[0] == '0' ==> n == 0
    decreases n
  {
    if n < 10 then [DigitChar(n)] else Decimal(n / 10) + [DigitChar(n % 10)]
  }

  function DigitChar(d: nat): char
    requires d < 10
  {
    ('0' as int + d) as char
  }

  predicate IsDigits(s: string) {
    forall k :: 0 <= k < |s| ==> '0' <= s[k] <= '9'
  }

  /** The number a string of decimal digits denotes. */
  function DigitsValue(s: string): nat
    requires IsDigits(s)
  {
    if s == [] then 0
    else DigitsValue(s[..|s| - 1]) * 10 + (s[|s| - 1] as int - '0' as int)
  }

  /** The interaction strategy `s` issues in slot `i`. */
  function Interaction(s: Strategy, i: nat): (r: Action)
    requires s != NoStrategy
    ensures r == Click <==> s == Button
    ensures r.FillAndSubmit? <==> s == TextInput
    ensures r == Check <==> s == Checkbox
    ensures r.FillAndSubmit? ==> |r.text| > |FillPrefix| && r.text[..|FillPrefix|] == FillPrefix && IsDigits(r.text[|FillPrefix|..])
    ensures r.SelectIndex? <==> s == Select
    ensures r.SelectIndex? ==> r.index == 1
    ensures r == PressEnter <==> s == KeyPress
  {
    match s
    case Button => Click
    case TextInput => FillAndSubmit(FillPrefix + Decimal(i))
    case Checkbox => Check
    case Select => SelectIndex(SelectOptionIndex)
    case KeyPress => PressEnter
  }

  /** How the body of the `try` block ends for one slot. */
  datatype Attempt = Raised | Completed(strategy: Strategy, success: bool, duration: int)

  /** Specification of one slot: it raises when the delay or the chosen action throws. */
  function AttemptOf(obs: Slot): (r: Attempt)
    ensures r.Completed? ==> r.success && r.strategy != NoStrategy && Applicable(obs, r.strategy)
    ensures r.Completed? ==> r.duration == obs.duration
  {
    if obs.delayThrows || obs.actionThrows then Raised
    else Completed(Chosen(obs), true, obs.duration)
  }

  /** The interactions issued in slot `i`: none when the delay throws, else the chosen one. */
  function ActionsOf(obs: Slot, i: nat): seq<Action> {
    if obs.delayThrows then [] else [Interaction(Chosen(obs), i)]
  }

  /**
   * The `try` body of one slot: the settling delay, then the cascade of
   * `!success && visible` guards, each strategy acting at most once.
   * `acts` lists the interactions invoked, the one that throws included.
   */
  method ResolveSlot(i: nat, obs: Slot) returns (attempt: Attempt, acts: seq<Action>)
    ensures attempt == AttemptOf(obs)
    ensures acts == ActionsOf(obs, i)
    ensures |acts| <= 1
    ensures attempt.Completed? ==> attempt.success && Applicable(obs, attempt.strategy)
  {
    acts := [];
    if obs.delayThrows {
      return Raised, acts;
    }
    var strategy := NoStrategy;
    var success := false;

    if !success && Shown(obs.button) {
      acts := acts + [Click];
      if obs.actionThrows {
        return Raised, acts;
      }
      strategy := Button;
      success := true;
    }

    if !success && Shown(obs.textInput) {
      acts := acts + [FillAndSubmit(FillPrefix + Decimal(i))];
      if obs.actionThrows {
        return Raised, acts;
      }
      strategy := TextInput;
      success := true;
    }

    if !success && Shown(obs.checkbox) {
      acts := acts + [Check];
      if obs.actionThrows {
        return Raised, acts;
      }
      strategy := Checkbox;
      success := true;
    }

    if !success && Shown(obs.select) {
      acts := acts + [SelectIndex(SelectOptionIndex)];
      if obs.actionThrows {
        return Raised, acts;
      }
      strategy := Select;
      success := true;
    }

    if !success {
      acts := acts + [PressEnter];
      if obs.actionThrows {
        return Raised, acts;
      }
      strategy := KeyPress;
      success := true;
    }

    attempt := Completed(strategy, success, obs.duration);
  }

  /** `Chosen` is exactly the first strategy of `Priority` that applies. */
  lemma ChosenIsFirstApplicable(obs: Slot, j: nat)
    requires j < |Priority|
    ensures Chosen(obs) == Priority[j] <==>
              Applicable(obs, Priority[j]) && forall m :: 0 <= m < j ==> !Applicable(obs, Priority[m])
  {
    var f := FirstApplicable(obs, 0);
    if Chosen(obs) == Priority[j] {
      assert f == j;
    }
  }

  /** A strategy later in the order never acts while an earlier one applies. */
  lemma EarlierStrategyWins(obs: Slot, a: nat, b: nat)
    requires a < b < |Priority|
    requires Applicable(obs, Priority[a])
    ensures Chosen(obs) != Priority[b]
  {
    ChosenIsFirstApplicable(obs, b);
  }

  /** Only the key-press fallback acts when nothing is visible, and it always applies. */
  lemma FallbackWhenNothingShown(obs: Slot)
    ensures Chosen(obs) == KeyPress <==>
              !Shown(obs.button) && !Shown(obs.textInput) && !Shown(obs.checkbox) && !Shown(obs.select)
  {
    ChosenIsFirstApplicable(obs, 4);
  }

  /** A probe that throws selects exactly what a probe reporting "hidden" selects. */
  lemma ProbeFailureIsHidden(obs: Slot, obs': Slot)
    requires obs'.button == (if obs.button == ProbeThrew then Hidden else obs.button)
    requires obs'.textInput == (if obs.textInput == ProbeThrew then Hidden else obs.textInput)
    requires obs'.checkbox == (if obs.checkbox == ProbeThrew then Hidden else obs.checkbox)
    requires obs'.select == (if obs.select == ProbeThrew then Hidden else obs.select)
    requires obs'.delayThrows == obs.delayThrows && obs'.actionThrows == obs.actionThrows
    requires obs'.duration == obs.duration
    ensures Chosen(obs') == Chosen(obs)
    ensures AttemptOf(obs') == AttemptOf(obs)
  {
    forall s | s in Priority
      ensures Applicable(obs', s) == Applicable(obs, s)
    {
    }
    SameApplicabilitySameChoice(obs, obs', 0);
  }

  lemma {:induction false} SameApplicabilitySameChoice(obs: Slot, obs': Slot, k: nat)
    requires k < |Priority|
    requires forall s :: s in Priority ==> Applicable(obs', s) == Applicable(obs, s)
    ensures FirstApplicable(obs', k) == FirstApplicable(obs, k)
    decreases |Priority| - k
  {
    assert Priority[k] in Priority;
    if !Applicable(obs, Priority[k]) {
      SameApplicabilitySameChoice(obs, obs', k + 1);
    }
  }

  /** The text typed in slot `i` is "test-" followed by `i` in decimal, which reads back as `i`. */
  lemma FillTextNamesOrdinal(i: nat)
    ensures Interaction(TextInput, i).text[..|FillPrefix|] == FillPrefix
    ensures DigitsValue(Interaction(TextInput, i).text[|FillPrefix|..]) == i
  {
    var t := Interaction(TextInput, i).text;
    assert t[|FillPrefix|..] == Decimal(i);
    DecimalRoundTrip(i);
  }

  /** Reading back the decimal notation gives the number. */
  lemma {:induction false} DecimalRoundTrip(n: nat)
    ensures DigitsValue(Decimal(n)) == n
    decreases n
  {
    var r := Decimal(n);
    if n >= 10 {
      DecimalRoundTrip(n / 10);
      assert r[..|r| - 1] == Decimal(n / 10);
    }
  }
}
