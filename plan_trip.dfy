/**
  The trip-planning wizard: a destination and duration (step 1), a set of
  vibes (step 2), a budget and a simulated generation (step 3), and the
  resulting plan (step 4).
 */
module PlanTrip {

  datatype TripForm = TripForm(destination: string, duration: string, budget: string, vibe: seq<string>)

  const InitialForm: TripForm := TripForm("", "3 Days", "Medium", [])

  const DurationOptions: seq<string> := ["Weekend", "3-5 Days", "Week+"]

  const BudgetOptions: seq<string> :=
    ["Economy (Focus on Experience)", "Balanced (Comfort + Fun)", "Luxury (Treat Yourself)"]

  /** The initial duration and budget are none of the offered choices, so no
      duration or budget button starts out marked. */
  lemma InitialChoicesNotOffered()
    ensures InitialForm.duration !in DurationOptions
    ensures InitialForm.budget !in BudgetOptions
  {
  }

  /** The list without any occurrence of `id`; every other id keeps its membership. */
  function Without(s: seq<string>, id: string): (r: seq<string>)
    ensures id !in r
    ensures forall x :: x != id ==> (x in r <==> x in s)
    ensures |r| <= |s|
    ensures id in s ==> |r| < |s|
  {
    if s == [] then []
    else if s[0] == id then Without(s[1..], id)
    else [s[0]] + Without(s[1..], id)
  }

  /** A vibe already chosen is removed (every occurrence of it); another is
      appended. Only the membership of `id` changes. */
  function ToggleVibe(form: TripForm, id: string): (r: TripForm)
    ensures r.destination == form.destination && r.duration == form.duration && r.budget == form.budget
    ensures id in r.vibe <==> id !in form.vibe
    ensures forall x :: x != id ==> (x in r.vibe <==> x in form.vibe)
    ensures id !in form.vibe ==>
      |r.vibe| == |form.vibe| + 1 && r.vibe[..|form.vibe|] == form.vibe && r.vibe[|form.vibe|] == id
    ensures id in form.vibe ==> |r.vibe| < |form.vibe|
  {
    form.(vibe := if id in form.vibe then Without(form.vibe, id) else form.vibe + [id])
  }

  predicate Distinct(s: seq<string>) {
    forall i, j :: 0 <= i < j < |s| ==> s[i] != s[j]
  }

  lemma {:induction false} WithoutAppended(s: seq<string>, id: string)
    requires id !in s
    ensures Without(s + [id], id) == s
  {
    if s == [] {
      assert [id][1..] == [];
    } else {
      assert (s + [id])[1..] == s[1..] + [id];
      WithoutAppended(s[1..], id);
    }
  }

  lemma {:induction false} WithoutKeepsDistinct(s: seq<string>, id: string)
    requires Distinct(s)
    ensures Distinct(Without(s, id))
  {
    if s != [] {
      WithoutKeepsDistinct(s[1..], id);
      if s[0] != id {
        assert s[0] !in s[1..];
      }
    }
  }

  /** Toggling an absent vibe twice gives back the form it started from. */
  lemma ToggleTwiceRestores(form: TripForm, id: string)
    requires id !in form.vibe
    ensures ToggleVibe(ToggleVibe(form, id), id) == form
  {
    WithoutAppended(form.vibe, id);
  }

  /** A list without repeats stays without repeats. */
  lemma ToggleKeepsDistinct(form: TripForm, id: string)
    requires Distinct(form.vibe)
    ensures Distinct(ToggleVibe(form, id).vibe)
  {
    if id in form.vibe {
      WithoutKeepsDistinct(form.vibe, id);
    }
  }

  /** The wizard's state: the current step, whether generation is running,
      and the form. */
  class TripWizard {
    var step: int
    var loading: bool
    var form: TripForm

    /** The step is one of the four screens; generation runs only on step 3. */
    ghost predicate Valid()
      reads this
    {
      1 <= step <= 4 && (loading ==> step == 3)
    }

    constructor ()
      ensures Valid()
      ensures step == 1 && !loading && form == InitialForm
    {
      step := 1;
      loading := false;
      form := InitialForm;
    }

    /** The "next" buttons of steps 1 to 3 (hidden while generating): the first
        two steps advance; on step 3 the generation starts. */
    method Next()
      requires Valid() && 1 <= step <= 3 && !loading
      modifies this`step, this`loading
      ensures Valid()
      ensures old(step) < 3 ==> step == old(step) + 1 && !loading
      ensures old(step) == 3 ==> step == 3 && loading
    {
      if step < 3 {
        step := step + 1;
      } else {
        loading := true;
      }
    }

    /** The generation timer firing: the plan screen is shown. */
    method GenerationDone()
      requires Valid() && loading
      modifies this`step, this`loading
      ensures Valid()
      ensures step == 4 && !loading
    {
      loading := false;
      step := 4;
    }

    /** The restart button of the plan screen: back to step 1, the form kept. */
    method Restart()
      requires Valid() && step == 4
      modifies this`step
      ensures Valid()
      ensures step == 1
    {
      step := 1;
    }

    method SetDestination(text: string)
      requires Valid()
      modifies this`form
      ensures Valid()
      ensures form == old(form).(destination := text)
    {
      form := form.(destination := text);
    }

    method SetDuration(option: string)
      requires Valid()
      requires option in DurationOptions
      modifies this`form
      ensures Valid()
      ensures form == old(form).(duration := option)
    {
      form := form.(duration := option);
    }

    /** A click on a vibe card. */
    method ClickVibe(id: string)
      requires Valid()
      modifies this`form
      ensures Valid()
      ensures form == ToggleVibe(old(form), id)
    {
      form := ToggleVibe(form, id);
    }

    /** A click on a budget option records it and moves on as "next" does,
        which on step 3 starts the generation. */
    method ChooseBudget(option: string)
      requires Valid() && step == 3 && !loading
      requires option in BudgetOptions
      modifies this`form, this`step, this`loading
      ensures Valid()
      ensures form == old(form).(budget := option)
      ensures step == 3 && loading
    {
      form := form.(budget := option);
      Next();
    }
  }
}
