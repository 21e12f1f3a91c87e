/**
 * The registration wizard of screens/RegistrationScreen.tsx: a three-step
 * form that collects a DogProfile, with a photo gate on step 2, and hands
 * the profile to the chat screen when "Finish" is pressed on step 3.
 *
 * The pure functions give the meaning of each handler; the class Wizard
 * holds the screen's two pieces of state (`step`, `dogProfile`) and updates
 * them in place.
 */
module Registration {
  import opened Wrappers
  import opened Profile
  import opened ImagePicker

  // ---------------------------------------------------------------------
  // Personality traits: the list computation of togglePersonality
  // ---------------------------------------------------------------------

  predicate Distinct(xs: seq<string>)
  {
    forall i, j :: 0 <= i < j < |xs| ==> xs[i] != xs[j]
  }

  function Elements(xs: seq<string>): set<string>
  {
    set x | x in xs
  }

  /** `xs.filter(x => x !== t)`: every occurrence of `t` is gone and every
      other element keeps its multiplicity. */
  function RemoveAll(xs: seq<string>, t: string): (r: seq<string>)
    ensures t !in r
    ensures multiset(r) == multiset(xs)[t := 0]
    ensures |r| <= |xs|
  {
    if xs == [] then []
    else
      assert xs == [xs[0]] + xs[1..];
      if xs[0] == t then RemoveAll(xs[1..], t) else [xs[0]] + RemoveAll(xs[1..], t)
  }

  /** The new list that togglePersonality stores: an absent trait is added
      at the end, a present one is filtered out, every copy of it, with the
      other traits left in order and with their multiplicity. On the set of
      traits this is the symmetric difference with {t}. */
  function ToggleTrait(xs: seq<string>, t: string): (r: seq<string>)
    ensures t in r <==> t !in xs
    ensures Elements(r) == if t in xs then Elements(xs) - {t} else Elements(xs) + {t}
    ensures t !in xs ==> r == xs + [t]
    ensures t in xs ==> r == RemoveAll(xs, t) && multiset(r) == multiset(xs)[t := 0]
  {
    if t in xs then
      var r := RemoveAll(xs, t);
      assert forall x :: x in r <==> x in multiset(r);
      r
    else xs + [t]
  }

  /** Filtering distributes over concatenation. */
  lemma {:induction false} RemoveAllConcat(a: seq<string>, b: seq<string>, t: string)
    ensures RemoveAll(a + b, t) == RemoveAll(a, t) + RemoveAll(b, t)
  {
    if a == [] {
      assert a + b == b;
    } else {
      assert (a + b)[1..] == a[1..] + b;
      RemoveAllConcat(a[1..], b, t);
    }
  }

  /** Filtering out an element that is not there changes nothing. */
  lemma {:induction false} RemoveAllAbsent(xs: seq<string>, t: string)
    requires t !in xs
    ensures RemoveAll(xs, t) == xs
  {
    if xs != [] {
      RemoveAllAbsent(xs[1..], t);
    }
  }

  /** Filtering keeps a list duplicate-free. */
  lemma {:induction false} RemoveAllDistinct(xs: seq<string>, t: string)
    requires Distinct(xs)
    ensures Distinct(RemoveAll(xs, t))
  {
    if xs != [] {
      RemoveAllDistinct(xs[1..], t);
      if xs[0] != t {
        var rest := RemoveAll(xs[1..], t);
        assert xs[0] !in multiset(xs[1..]);
        assert xs[0] !in rest by {
          assert xs[0] !in multiset(rest);
        }
      }
    }
  }

  /** Toggling keeps "personality has no duplicates". */
  lemma ToggleKeepsDistinct(xs: seq<string>, t: string)
    requires Distinct(xs)
    ensures Distinct(ToggleTrait(xs, t))
  {
    if t in xs {
      RemoveAllDistinct(xs, t);
    }
  }

  /** Toggling an absent trait twice gives back the original list. */
  lemma ToggleTwiceRestores(xs: seq<string>, t: string)
    requires t !in xs
    ensures ToggleTrait(ToggleTrait(xs, t), t) == xs
  {
    RemoveAllConcat(xs, [t], t);
    RemoveAllAbsent(xs, t);
  }

  /** Toggling a present trait twice keeps the other traits, in order, and
      moves the trait to the end. */
  lemma ToggleTwiceMovesToEnd(xs: seq<string>, t: string)
    requires t in xs
    ensures ToggleTrait(ToggleTrait(xs, t), t) == RemoveAll(xs, t) + [t]
  {
  }

  /** In a duplicate-free list, toggling a present trait removes exactly
      one element. */
  lemma ToggleShrinksByOne(xs: seq<string>, t: string)
    requires Distinct(xs) && t in xs
    ensures |ToggleTrait(xs, t)| == |xs| - 1
  {
    var r := RemoveAll(xs, t);
    assert multiset(xs)[t] == 1 by {
      var i :| 0 <= i < |xs| && xs[i] == t;
      assert xs == xs[..i] + [t] + xs[i + 1..];
      assert t !in xs[..i] && t !in xs[i + 1..];
      assert multiset(xs) == multiset(xs[..i]) + multiset{t} + multiset(xs[i + 1..]);
    }
    assert |multiset(r)| == |multiset(xs)| - 1 by {
      assert multiset(xs) == multiset(r) + multiset{t};
    }
  }

  // ---------------------------------------------------------------------
  // Field edits: the inline onChange handlers of the three steps
  // ---------------------------------------------------------------------

  /** One `setDogProfile({...dogProfile, field: value})` from an input. The
      date picker reports `None` when it is dismissed without a date. */
  datatype Edit =
    | SetName(name: string)
    | SetBreed(breed: string)
    | SetAge(age: string)
    | SetGender(gender: Gender)
    | SetWeight(weight: string)
    | SetBirthday(selected: Option<string>)
    | SetFavoriteActivity(activity: string)
    | SetFavoriteTreat(treat: string)
    | SetHasAllergies(hasAllergies: bool)
    | SetAllergies(allergies: string)

  /** Each input sets its own field to the new value and leaves every
      other field as it was; in particular the field edits never touch the
      traits or the photos. A date picker dismissed without a date changes
      nothing. */
  function ApplyEdit(p: DogProfile, e: Edit): (r: DogProfile)
    ensures r.personality == p.personality && r.photos == p.photos
    ensures e.SetName? ==> r.name == e.name && r.(name := p.name) == p
    ensures e.SetBreed? ==> r.breed == e.breed && r.(breed := p.breed) == p
    ensures e.SetAge? ==> r.age == e.age && r.(age := p.age) == p
    ensures e.SetGender? ==> r.gender == e.gender && r.(gender := p.gender) == p
    ensures e.SetWeight? ==> r.weight == e.weight && r.(weight := p.weight) == p
    ensures e.SetBirthday? && e.selected.Some? ==>
              r.birthday == e.selected.value && r.(birthday := p.birthday) == p
    ensures e.SetBirthday? && e.selected.None? ==> r == p
    ensures e.SetFavoriteActivity? ==>
              r.favoriteActivity == e.activity && r.(favoriteActivity := p.favoriteActivity) == p
    ensures e.SetFavoriteTreat? ==>
              r.favoriteTreat == e.treat && r.(favoriteTreat := p.favoriteTreat) == p
    ensures e.SetHasAllergies? ==>
              r.hasAllergies == e.hasAllergies && r.(hasAllergies := p.hasAllergies) == p
    ensures e.SetAllergies? ==> r.allergies == e.allergies && r.(allergies := p.allergies) == p
  {
    match e
    case SetName(v) => p.(name := v)
    case SetBreed(v) => p.(breed := v)
    case SetAge(v) => p.(age := v)
    case SetGender(v) => p.(gender := v)
    case SetWeight(v) => p.(weight := v)
    case SetBirthday(d) => if d.Some? then p.(birthday := d.value) else p
    case SetFavoriteActivity(v) => p.(favoriteActivity := v)
    case SetFavoriteTreat(v) => p.(favoriteTreat := v)
    case SetHasAllergies(v) => p.(hasAllergies := v)
    case SetAllergies(v) => p.(allergies := v)
  }

  // ---------------------------------------------------------------------
  // The wizard as states and steps
  // ---------------------------------------------------------------------

  datatype WizardState = WizardState(step: int, profile: DogProfile)

  /** The profile the form starts from; `today` stands for `new Date()`. */
  function InitialProfile(today: string): DogProfile
  {
    DogProfile("", "", "", Male, "", today, [], "", "", false, "", [])
  }

  function InitialWizard(today: string): WizardState
  {
    WizardState(1, InitialProfile(today))
  }

  /** The "Next"/"Finish" button's `disabled` expression. */
  predicate NextDisabled(s: WizardState)
  {
    s.step == 2 && |s.profile.photos| < 3
  }

  /** The wizard's invariant: the step is 1, 2 or 3, and step 3 is only
      ever reached with at least three photos. */
  ghost predicate WizardValid(s: WizardState)
  {
    1 <= s.step <= 3 && (s.step == 3 ==> |s.profile.photos| >= 3)
  }

  /** A press of the button: nothing while it is disabled; otherwise
      handleNext, which advances below step 3 and at step 3 hands the
      current profile to the chat screen. */
  function PressNextStep(s: WizardState): (r: (WizardState, Option<DogProfile>))
    ensures r.0.profile == s.profile
    ensures r.1.Some? <==> s.step >= 3
    ensures r.1.Some? ==> r.1.value == s.profile && r.0 == s
    ensures r.0.step == if s.step < 3 && !NextDisabled(s) then s.step + 1 else s.step
  {
    if NextDisabled(s) then (s, None)
    else if s.step < 3 then (s.(step := s.step + 1), None)
    else (s, Some(s.profile))
  }

  /** pickImage: a successful pick appends the first asset's URI. */
  function PickImageStep(s: WizardState, result: PickerResult): (r: WizardState)
    ensures r.step == s.step
    ensures r.profile == s.profile.(photos := r.profile.photos)
    ensures r.profile.photos == if Picked(result)
                                then s.profile.photos + [FirstAsset(result).uri]
                                else s.profile.photos
  {
    if Picked(result) then
      s.(profile := s.profile.(photos := s.profile.photos + [FirstAsset(result).uri]))
    else s
  }

  /** togglePersonality: only `personality` changes. */
  function ToggleStep(s: WizardState, t: string): (r: WizardState)
    ensures r.step == s.step
    ensures r.profile == s.profile.(personality := r.profile.personality)
    ensures Elements(r.profile.personality)
         == if t in s.profile.personality then Elements(s.profile.personality) - {t}
            else Elements(s.profile.personality) + {t}
    ensures t !in s.profile.personality ==> r.profile.personality == s.profile.personality + [t]
    ensures t in s.profile.personality ==>
              && r.profile.personality == RemoveAll(s.profile.personality, t)
              && multiset(r.profile.personality) == multiset(s.profile.personality)[t := 0]
  {
    s.(profile := s.profile.(personality := ToggleTrait(s.profile.personality, t)))
  }

  datatype WizardEvent = Next | PickPhoto(result: PickerResult) | Toggle(t: string) | EditField(e: Edit)

  function WizardStep(s: WizardState, e: WizardEvent): WizardState
  {
    match e
    case Next => PressNextStep(s).0
    case PickPhoto(res) => PickImageStep(s, res)
    case Toggle(t) => ToggleStep(s, t)
    case EditField(ed) => s.(profile := ApplyEdit(s.profile, ed))
  }

  /** The profile handed to the chat screen by an event, if any. */
  function Handoff(s: WizardState, e: WizardEvent): Option<DogProfile>
  {
    if e.Next? then PressNextStep(s).1 else None
  }

  function RunWizard(s: WizardState, evs: seq<WizardEvent>): WizardState
    decreases |evs|
  {
    if evs == [] then s else RunWizard(WizardStep(s, evs[0]), evs[1..])
  }

  /** Every event keeps the invariant; the step never goes back and the
      photo list only grows at its end. */
  lemma StepKeepsValid(s: WizardState, e: WizardEvent)
    requires WizardValid(s)
    ensures WizardValid(WizardStep(s, e))
    ensures s.step <= WizardStep(s, e).step
    ensures s.profile.photos <= WizardStep(s, e).profile.photos
  {
  }

  /** From the initial form, any sequence of events keeps the step in
      {1, 2, 3}, never decreases it, never loses a photo, and reaches step 3
      only with at least three photos. */
  lemma {:induction false} RunKeepsValid(s: WizardState, evs: seq<WizardEvent>)
    requires WizardValid(s)
    ensures WizardValid(RunWizard(s, evs))
    ensures s.step <= RunWizard(s, evs).step
    ensures s.profile.photos <= RunWizard(s, evs).profile.photos
    decreases |evs|
  {
    if evs != [] {
      StepKeepsValid(s, evs[0]);
      RunKeepsValid(WizardStep(s, evs[0]), evs[1..]);
    }
  }

  lemma InitialIsValid(today: string)
    ensures WizardValid(InitialWizard(today))
  {
  }

  /** Whatever the user does from the initial form, a profile handed to the
      chat screen is the current one and has at least three photos. */
  lemma HandoffHasThreePhotos(today: string, evs: seq<WizardEvent>, e: WizardEvent)
    requires Handoff(RunWizard(InitialWizard(today), evs), e).Some?
    ensures var s := RunWizard(InitialWizard(today), evs);
            s.step == 3 && Handoff(s, e) == Some(s.profile) && |s.profile.photos| >= 3
  {
    RunKeepsValid(InitialWizard(today), evs);
  }

  /** The gate: from step 2 the button advances exactly when there are at
      least three photos; on steps 1 and 3 it is never disabled. */
  lemma PhotoGate(s: WizardState)
    requires s.step in {1, 2, 3}
    ensures s.step == 2 ==> (PressNextStep(s).0.step == 3 <==> |s.profile.photos| >= 3)
    ensures s.step != 2 ==> !NextDisabled(s)
  {
  }

  /** Three successful picks on step 2 open the gate to step 3. */
  lemma ThreePicksReachStepThree(today: string, r1: PickerResult, r2: PickerResult, r3: PickerResult)
    requires Picked(r1) && Picked(r2) && Picked(r3)
    ensures var s := RunWizard(InitialWizard(today), [Next, PickPhoto(r1), PickPhoto(r2), PickPhoto(r3), Next]);
            s.step == 3 && s.profile.photos == [FirstAsset(r1).uri, FirstAsset(r2).uri, FirstAsset(r3).uri]
  {
    var s0 := InitialWizard(today);
    var s1 := WizardStep(s0, Next);
    var s2 := WizardStep(s1, PickPhoto(r1));
    var s3 := WizardStep(s2, PickPhoto(r2));
    var s4 := WizardStep(s3, PickPhoto(r3));
    var evs := [Next, PickPhoto(r1), PickPhoto(r2), PickPhoto(r3), Next];
    assert RunWizard(s4, evs[4..]) == WizardStep(s4, Next);
    assert RunWizard(s0, evs) == RunWizard(s4, evs[4..]) by {
      assert RunWizard(s0, evs) == RunWizard(s1, evs[1..]);
      assert RunWizard(s1, evs[1..]) == RunWizard(s2, evs[2..]);
      assert RunWizard(s2, evs[2..]) == RunWizard(s3, evs[3..]);
    }
  }

  // ---------------------------------------------------------------------
  // The screen's state, updated in place
  // ---------------------------------------------------------------------

  class Wizard {
    var step: int
    var dogProfile: DogProfile

    function State(): WizardState
      reads this
    {
      WizardState(step, dogProfile)
    }

    ghost predicate Valid()
      reads this
    {
      WizardValid(State())
    }

    /** `useState(1)` and the initial `useState<DogProfile>({...})`. */
    constructor (today: string)
      ensures Valid() && State() == InitialWizard(today)
      ensures step == 1
      ensures dogProfile.name == "" && dogProfile.breed == "" && dogProfile.age == ""
      ensures dogProfile.gender == Male && dogProfile.weight == "" && dogProfile.birthday == today
      ensures dogProfile.personality == [] && dogProfile.favoriteActivity == ""
      ensures dogProfile.favoriteTreat == "" && !dogProfile.hasAllergies
      ensures dogProfile.allergies == "" && dogProfile.photos == []
    {
      step := 1;
      dogProfile := InitialProfile(today);
    }

    /** The "Next"/"Finish" button, with its `disabled` gate, then
        handleNext. `handoff` is the profile passed to the Chat route. */
    method PressNext() returns (handoff: Option<DogProfile>)
      requires Valid()
      modifies this
      ensures Valid()
      ensures (State(), handoff) == PressNextStep(old(State()))
      ensures handoff.Some? ==> |handoff.value.photos| >= 3
    {
      handoff := None;
      if step == 2 && |dogProfile.photos| < 3 {
        return;
      }
      if step < 3 {
        step := step + 1;
      } else {
        handoff := Some(dogProfile);
      }
    }

    method PickImage(result: PickerResult)
      requires Valid()
      modifies this
      ensures Valid()
      ensures State() == PickImageStep(old(State()), result)
      ensures old(dogProfile.photos) <= dogProfile.photos
    {
      if !result.canceled && result.assets.Some? && |result.assets.value| > 0 {
        dogProfile := dogProfile.(photos := dogProfile.photos + [result.assets.value[0].uri]);
      }
    }

    method TogglePersonality(t: string)
      requires Valid()
      modifies this
      ensures Valid()
      ensures State() == ToggleStep(old(State()), t)
    {
      var traits := dogProfile.personality;
      if t in traits {
        traits := RemoveAll(traits, t);
      } else {
        traits := traits + [t];
      }
      dogProfile := dogProfile.(personality := traits);
    }

    method EditField(e: Edit)
      requires Valid()
      modifies this
      ensures Valid()
      ensures State() == WizardStep(old(State()), WizardEvent.EditField(e))
    {
      dogProfile := ApplyEdit(dogProfile, e);
    }
  }
}
