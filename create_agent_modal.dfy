/**
 * The create-agent wizard of components/create-agent-modal.tsx: a three-step
 * form whose state is a step counter and a form record, with list toggles
 * for protocols and watched tokens, the enable rules of its buttons and the
 * reset after submission.
 */
module CreateAgentModal {

  // ---------------------------------------------------------------------
  // The list toggles (pure list transforms)
  // ---------------------------------------------------------------------

  /** `xs.filter(y => y !== x)`: every occurrence of `x` removed, order kept. */
  function Without(xs: seq<string>, x: string): (r: seq<string>)
    ensures x !in r
    ensures forall y :: y != x ==> (y in r <==> y in xs)
    ensures |r| <= |xs|
  {
    if xs == [] then []
    else (if xs[0] == x then [] else [xs[0]]) + Without(xs[1..], x)
  }

  /**
   * `toggleProtocol` / `toggleToken`: remove the item if the list holds it,
   * otherwise append it.
   */
  function Toggle(xs: seq<string>, x: string): (r: seq<string>)
    ensures x in r <==> x !in xs
    ensures forall y :: y != x ==> (y in r <==> y in xs)
  {
    if x in xs then Without(xs, x) else xs + [x]
  }

  /** A list in which no element occurs twice. */
  predicate NoDuplicates(xs: seq<string>) {
    xs == [] || (xs[0] !in xs[1..] && NoDuplicates(xs[1..]))
  }

  /** Filtering distributes over concatenation: relative order is kept. */
  lemma {:induction false} WithoutAppend(a: seq<string>, b: seq<string>, x: string)
    ensures Without(a + b, x) == Without(a, x) + Without(b, x)
  {
    if a == [] {
      assert a + b == b;
    } else {
      assert (a + b)[1..] == a[1..] + b;
      WithoutAppend(a[1..], b, x);
    }
  }

  /** Filtering out an absent item changes nothing. */
  lemma {:induction false} WithoutAbsent(xs: seq<string>, x: string)
    requires x !in xs
    ensures Without(xs, x) == xs
  {
    if xs != [] {
      WithoutAbsent(xs[1..], x);
      assert xs == [xs[0]] + xs[1..];
    }
  }

  /** Filtering removes every occurrence of the item and keeps every other one. */
  lemma {:induction false} WithoutCounts(xs: seq<string>, x: string)
    ensures multiset(Without(xs, x)) == multiset(xs)[x := 0]
  {
    if xs != [] {
      WithoutCounts(xs[1..], x);
      assert xs == [xs[0]] + xs[1..];
    }
  }

  /** Filtering keeps a duplicate-free list duplicate-free. */
  lemma {:induction false} WithoutNoDuplicates(xs: seq<string>, x: string)
    requires NoDuplicates(xs)
    ensures NoDuplicates(Without(xs, x))
  {
    if xs != [] {
      WithoutNoDuplicates(xs[1..], x);
      if xs[0] != x {
        assert Without(xs, x) == [xs[0]] + Without(xs[1..], x);
        assert Without(xs, x)[1..] == Without(xs[1..], x);
        assert xs[0] !in Without(xs[1..], x);
      } else {
        assert Without(xs, x) == Without(xs[1..], x);
      }
    }
  }

  /** Appending an absent item keeps a list duplicate-free. */
  lemma {:induction false} AppendNoDuplicates(xs: seq<string>, x: string)
    requires NoDuplicates(xs) && x !in xs
    ensures NoDuplicates(xs + [x])
  {
    if xs != [] {
      assert (xs + [x])[1..] == xs[1..] + [x];
      AppendNoDuplicates(xs[1..], x);
    }
  }

  /** A toggle keeps a duplicate-free list duplicate-free. */
  lemma ToggleNoDuplicates(xs: seq<string>, x: string)
    requires NoDuplicates(xs)
    ensures NoDuplicates(Toggle(xs, x))
  {
    if x in xs {
      WithoutNoDuplicates(xs, x);
    } else {
      AppendNoDuplicates(xs, x);
    }
  }

  /**
   * Toggling an item that occurs once takes it out where it stands: the
   * elements before and after it keep their order.
   */
  lemma ToggleRemovesInPlace(before: seq<string>, x: string, after: seq<string>)
    requires x !in before && x !in after
    ensures Toggle(before + [x] + after, x) == before + after
  {
    var xs := before + [x] + after;
    assert xs[|before|] == x;
    calc {
      Toggle(xs, x);
      Without(xs, x);
      { WithoutAppend(before + [x], after, x); }
      Without(before + [x], x) + Without(after, x);
      { WithoutAppend(before, [x], x); }
      Without(before, x) + Without([x], x) + Without(after, x);
      { WithoutAbsent(before, x); WithoutAbsent(after, x); assert Without([x], x) == []; }
      before + [] + after;
    }
    assert before + [] + after == before + after;
  }

  /** Toggling an absent item twice gives back the original list. */
  lemma ToggleTwiceAbsent(xs: seq<string>, x: string)
    requires x !in xs
    ensures Toggle(Toggle(xs, x), x) == xs
  {
    WithoutAppend(xs, [x], x);
    WithoutAbsent(xs, x);
    assert Without([x], x) == [];
  }

  /** Toggling a present item twice moves it to the end of the list. */
  lemma ToggleTwicePresent(xs: seq<string>, x: string)
    requires x in xs
    ensures Toggle(Toggle(xs, x), x) == Without(xs, x) + [x]
  {
  }

  // ---------------------------------------------------------------------
  // The form and its tables
  // ---------------------------------------------------------------------

  /** `formData`. The three numeric fields are JavaScript numbers. */
  datatype FormData = FormData(
    name: string,
    description: string,
    strategyType: string,
    riskLevel: string,
    protocols: seq<string>,
    watchedTokens: seq<string>,
    maxInvestment: real,
    minProfitThreshold: real,
    stopLossPercent: real,
    isPublic: bool)

  /** The form's initial value, to which a submission also resets it. */
  const DefaultForm: FormData :=
    FormData("", "", "", "medium", [], [], 1000.0, 0.01, 0.1, false)

  /** The ids of `strategyTypes`, the risk values of `riskLevels`, and the two pick lists. */
  const StrategyIds: seq<string> := ["yield_farming", "arbitrage", "lending"]
  const RiskValues: seq<string> := ["low", "medium", "high"]
  const Protocols: seq<string> := ["jupiter", "raydium", "orca", "marginfi", "solend", "kamino"]
  const Tokens: seq<string> := ["SOL", "USDC", "USDT", "RAY", "ORCA", "MNGO", "SRM", "FTT"]

  /** The calls the wizard makes on its parent's callbacks. */
  datatype ParentCall = SubmitAgent(form: FormData) | CloseModal

  /** The rule on Next's `disabled`: only at step 1, without name or strategy. */
  function NextDisabled(step: int, form: FormData): (r: bool)
    ensures r ==> step == 1
    ensures step == 1 ==> (r <==> form.name == "" || form.strategyType == "")
  {
    step == 1 && (form.name == "" || form.strategyType == "")
  }

  /** The rule on Create Agent's `disabled`: name or strategy missing. */
  function SubmitDisabled(form: FormData): (r: bool)
    ensures form.name == "" || form.strategyType == "" ==> r
    ensures form.name != "" && form.strategyType != "" ==> !r
  {
    form.name == "" || form.strategyType == ""
  }

  /** Next is never disabled at step 2; at step 1 it is disabled as Create Agent is. */
  lemma NextRuleMatchesSubmitRule(form: FormData)
    ensures !NextDisabled(2, form)
    ensures NextDisabled(1, form) == SubmitDisabled(form)
  {
  }

  /** Only the two step-1 fields decide whether Create Agent is enabled. */
  lemma SubmitIgnoresLaterFields(form: FormData, other: FormData)
    requires form.name == other.name && form.strategyType == other.strategyType
    ensures SubmitDisabled(form) == SubmitDisabled(other)
  {
  }

  /** The default form cannot be submitted and does not let step 1 proceed. */
  lemma DefaultFormIsIncomplete()
    ensures SubmitDisabled(DefaultForm) && NextDisabled(1, DefaultForm)
  {
  }

  // ---------------------------------------------------------------------
  // The wizard's state
  // ---------------------------------------------------------------------

  class Wizard {
    var step: int
    var form: FormData

    /**
     * The step stays within 1..3, and the wizard is only past step 1 with a
     * name and a strategy (step 1's fields are rendered at step 1 alone).
     */
    ghost predicate Valid()
      reads this
    {
      1 <= step <= 3 && (step > 1 ==> !SubmitDisabled(form))
    }

    constructor ()
      ensures Valid() && step == 1 && form == DefaultForm
    {
      step := 1;
      form := DefaultForm;
    }

    /** At the last step the Create Agent button is always enabled. */
    lemma SubmitEnabledAtLastStep()
      requires Valid() && step == 3
      ensures !SubmitDisabled(form)
    {
    }

    /** Previous, shown only when step > 1. */
    method Previous()
      requires Valid() && step > 1
      modifies this`step
      ensures Valid() && step == old(step) - 1
    {
      step := step - 1;
    }

    /** Next, shown only when step < 3 and clickable only when not disabled. */
    method Next()
      requires Valid() && step < 3 && !NextDisabled(step, form)
      modifies this`step
      ensures Valid() && step == old(step) + 1
    {
      step := step + 1;
    }

    /** Cancel calls `onClose` and nothing else. */
    method Cancel() returns (calls: seq<ParentCall>)
      ensures calls == [CloseModal]
    {
      calls := [CloseModal];
    }

    /**
     * `handleSubmit`: hands the current form to `onSubmit`, closes, then
     * resets the form and the step.
     */
    method HandleSubmit() returns (calls: seq<ParentCall>)
      requires Valid()
      modifies this
      ensures Valid()
      ensures calls == [SubmitAgent(old(form)), CloseModal]
      ensures form == DefaultForm && step == 1
    {
      calls := [SubmitAgent(form), CloseModal];
      form := DefaultForm;
      step := 1;
    }

    /** The name input of step 1. */
    method SetName(name: string)
      requires Valid() && step == 1
      modifies this`form
      ensures Valid() && form == old(form).(name := name)
    {
      form := form.(name := name);
    }

    /** The description textarea of step 1. */
    method SetDescription(description: string)
      requires Valid() && step == 1
      modifies this`form
      ensures Valid() && form == old(form).(description := description)
    {
      form := form.(description := description);
    }

    /** A strategy card of step 1. */
    method ChooseStrategy(id: string)
      requires Valid() && step == 1 && id in StrategyIds
      modifies this`form
      ensures Valid() && form == old(form).(strategyType := id)
    {
      form := form.(strategyType := id);
    }

    /** A risk level button of step 2. */
    method ChooseRisk(level: string)
      requires Valid() && step == 2 && level in RiskValues
      modifies this`form
      ensures Valid() && form == old(form).(riskLevel := level)
    {
      form := form.(riskLevel := level);
    }

    /** A protocol button of step 3: `toggleProtocol`. */
    method ToggleProtocol(protocol: string)
      requires Valid() && step == 3 && protocol in Protocols
      modifies this`form
      ensures Valid()
      ensures form == old(form).(protocols := Toggle(old(form).protocols, protocol))
    {
      form := form.(protocols := Toggle(form.protocols, protocol));
    }

    /** A token button of step 3: `toggleToken`. */
    method ToggleToken(token: string)
      requires Valid() && step == 3 && token in Tokens
      modifies this`form
      ensures Valid()
      ensures form == old(form).(watchedTokens := Toggle(old(form).watchedTokens, token))
    {
      form := form.(watchedTokens := Toggle(form.watchedTokens, token));
    }
  }
}
