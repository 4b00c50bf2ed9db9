/** The verification wizard page (client/src/pages/VerificationDashboard.tsx):
    the chosen role, the current step and the step panel's `isVerified` flag,
    the progress figure derived from them, and the handlers that change them.
    `Next` is the specification of one user action; the `Wizard` class holds
    the component state and its handlers follow `Next`. */
module VerificationDashboard {
  import opened Common
  import opened Schema

  datatype WizardRole = TenantRole | LandlordRole

  /** The role preselected from the signed-in user's `userType`: landlord only
      for a landlord, tenant otherwise (including "both" and no user). */
  function DefaultRole(userType: Option<UserType>): (r: WizardRole)
    ensures r == LandlordRole <==> userType == Some(Landlord)
  {
    if userType == Some(Landlord) then LandlordRole else TenantRole
  }

  const TenantSteps := ["Email", "Phone", "ID", "Selfie"]
  const LandlordSteps := ["Email", "Phone", "ID", "Company", "Property"]

  function Steps(role: WizardRole): seq<string> {
    if role == TenantRole then TenantSteps else LandlordSteps
  }

  function StepCount(role: WizardRole): (n: nat)
    ensures n == |Steps(role)|
    ensures role == TenantRole ==> n == 4
    ensures role == LandlordRole ==> n == 5
  {
    |Steps(role)|
  }

  /** `Math.min(verificationStep, steps.length)`. */
  function CompletedSteps(role: WizardRole, step: nat): (c: nat)
    ensures c <= step && c <= StepCount(role)
    ensures c == step || c == StepCount(role)
  {
    if step < StepCount(role) then step else StepCount(role)
  }

  function ProgressPercentage(role: WizardRole, step: nat): (p: real)
    ensures 0.0 <= p <= 100.0
    ensures p == 100.0 <==> step >= StepCount(role)
  {
    (CompletedSteps(role, step) as real / StepCount(role) as real) * 100.0
  }

  /** Step `index` is drawn as completed. */
  predicate IsCompleted(role: WizardRole, step: nat, index: nat) {
    index < CompletedSteps(role, step)
  }

  /** The step panel offers a verify, upload or selfie button on steps 0 to 4
      and nothing on any other step. */
  predicate HasActionButton(step: nat) {
    step <= 4
  }

  datatype WizardState = WizardState(role: WizardRole, step: nat, isVerified: bool)

  function Initial(userType: Option<UserType>): WizardState {
    WizardState(DefaultRole(userType), 0, false)
  }

  datatype Action =
    | ChooseRole(role: WizardRole)
    | ClickStep(index: nat)
    | PressStepButton
    | Continue

  /** The control for the action is on screen: step buttons exist for the
      current role's steps, and "Continue to Next Step" only once the panel
      is verified. */
  predicate Enabled(s: WizardState, a: Action) {
    match a
    case ChooseRole(_) => true
    case ClickStep(i) => i < StepCount(s.role)
    case PressStepButton => HasActionButton(s.step)
    case Continue => s.isVerified
  }

  function Next(s: WizardState, a: Action): (t: WizardState)
    requires Enabled(s, a)
    ensures a.ChooseRole? ==> t == s.(role := a.role)
    ensures a.ClickStep? ==> t == s.(step := a.index)
    ensures a.PressStepButton? ==> t == s.(isVerified := true)
    ensures a.Continue? ==> t.role == s.role && t.isVerified == s.isVerified
    ensures a.Continue? && s.step + 1 < StepCount(s.role) ==> t.step == s.step + 1
    ensures a.Continue? && s.step + 1 >= StepCount(s.role) ==> t.step == s.step
  {
    match a
    case ChooseRole(r) => s.(role := r)
    case ClickStep(i) => s.(step := i)
    case PressStepButton => s.(isVerified := true)
    case Continue => if s.step < StepCount(s.role) - 1 then s.(step := s.step + 1) else s
  }

  predicate EnabledRun(s: WizardState, actions: seq<Action>)
    decreases |actions|
  {
    actions == [] || (Enabled(s, actions[0]) && EnabledRun(Next(s, actions[0]), actions[1..]))
  }

  function Run(s: WizardState, actions: seq<Action>): WizardState
    requires EnabledRun(s, actions)
    decreases |actions|
  {
    if actions == [] then s else Run(Next(s, actions[0]), actions[1..])
  }

  predicate KeepsRole(actions: seq<Action>, role: WizardRole) {
    forall i :: 0 <= i < |actions| && actions[i].ChooseRole? ==> actions[i].role == role
  }

  /** With the role never changed, the step stays within the role's list, so
      progress stays below 100% and the "Verified!" panel never shows. */
  lemma {:induction false} FixedRoleNeverVerified(s: WizardState, actions: seq<Action>)
    requires s.step < StepCount(s.role)
    requires EnabledRun(s, actions) && KeepsRole(actions, s.role)
    ensures Run(s, actions).role == s.role
    ensures Run(s, actions).step < StepCount(s.role)
    ensures ProgressPercentage(Run(s, actions).role, Run(s, actions).step) < 100.0
    decreases |actions|
  {
    if actions != [] {
      assert actions[0].ChooseRole? ==> actions[0].role == s.role;
      var rest := actions[1..];
      assert KeepsRole(rest, s.role) by {
        forall i | 0 <= i < |rest| && rest[i].ChooseRole?
          ensures rest[i].role == s.role
        {
          assert rest[i] == actions[i + 1];
        }
      }
      FixedRoleNeverVerified(Next(s, actions[0]), rest);
    }
  }

  /** From a fresh page, whatever the user does without switching role,
      the wizard never reports verification complete. */
  lemma FromStartNeverVerified(userType: Option<UserType>, actions: seq<Action>)
    requires EnabledRun(Initial(userType), actions) && KeepsRole(actions, DefaultRole(userType))
    ensures ProgressPercentage(Run(Initial(userType), actions).role, Run(Initial(userType), actions).step) < 100.0
  {
    FixedRoleNeverVerified(Initial(userType), actions);
  }

  /** Once any step button is pressed the panel stays verified: no action
      clears `isVerified`. */
  lemma {:induction false} VerifiedIsNeverReset(s: WizardState, actions: seq<Action>)
    requires s.isVerified && EnabledRun(s, actions)
    ensures Run(s, actions).isVerified
    decreases |actions|
  {
    if actions != [] {
      VerifiedIsNeverReset(Next(s, actions[0]), actions[1..]);
    }
  }

  /** The one route to 100%: as a landlord, press one button and continue
      to step 4, then switch to tenant. */
  lemma LandlordThenTenantShowsVerified()
    ensures var actions := [ChooseRole(LandlordRole), PressStepButton, Continue, Continue, Continue, Continue,
                            ChooseRole(TenantRole)];
      EnabledRun(Initial(None), actions)
      && Run(Initial(None), actions) == WizardState(TenantRole, 4, true)
      && ProgressPercentage(TenantRole, 4) == 100.0
  {
    var actions := [ChooseRole(LandlordRole), PressStepButton, Continue, Continue, Continue, Continue,
                    ChooseRole(TenantRole)];
    var s0 := Initial(None);
    var s1 := WizardState(LandlordRole, 0, false);
    var s2 := WizardState(LandlordRole, 0, true);
    assert Next(s0, actions[0]) == s1;
    assert Next(s1, actions[1]) == s2;
    assert Next(s2, Continue) == s2.(step := 1);
    assert Next(s2.(step := 1), Continue) == s2.(step := 2);
    assert Next(s2.(step := 2), Continue) == s2.(step := 3);
    assert Next(s2.(step := 3), Continue) == s2.(step := 4);
    assert actions[1..] == [PressStepButton, Continue, Continue, Continue, Continue, ChooseRole(TenantRole)];
    assert actions[2..] == [Continue, Continue, Continue, Continue, ChooseRole(TenantRole)];
    assert actions[3..] == [Continue, Continue, Continue, ChooseRole(TenantRole)];
    assert actions[4..] == [Continue, Continue, ChooseRole(TenantRole)];
    assert actions[5..] == [Continue, ChooseRole(TenantRole)];
    assert actions[6..] == [ChooseRole(TenantRole)];
    assert actions[7..] == [];
  }

  /** "Continue" at the last step of the role's list does nothing. */
  lemma ContinueStopsAtLastStep(s: WizardState)
    requires s.isVerified && s.step == StepCount(s.role) - 1
    ensures Next(s, Continue) == s
  {
  }

  /** The `VerificationDashboard` component with its nested step panel. */
  class Wizard {
    var role: WizardRole
    var step: nat
    var isVerified: bool
    /** The code typed into the step panel; it is never checked. */
    var input: string

    function State(): WizardState
      reads this
    {
      WizardState(role, step, isVerified)
    }

    constructor (userType: Option<UserType>)
      ensures State() == Initial(userType) && input == ""
    {
      role := DefaultRole(userType);
      step := 0;
      isVerified := false;
      input := "";
    }

    /** The tenant and landlord cards. */
    method SelectRole(r: WizardRole)
      modifies this`role
      ensures State() == Next(old(State()), ChooseRole(r))
    {
      role := r;
    }

    /** A click on the step list's entry `index`. */
    method SelectStep(index: nat)
      requires index < StepCount(role)
      modifies this`step
      ensures State() == Next(old(State()), ClickStep(index))
    {
      step := index;
    }

    /** Typing in the code field; the field holds at most 6 characters. */
    method EnterCode(text: string)
      requires |text| <= 6
      modifies this`input
      ensures input == text
    {
      input := text;
    }

    /** "Verify Code", "Upload & Continue" or "Take Selfie & Continue". */
    method PressStepButton()
      requires HasActionButton(step)
      modifies this`isVerified
      ensures State() == Next(old(State()), Action.PressStepButton)
    {
      isVerified := true;
    }

    /** "Continue to Next Step", i.e. `onComplete`. */
    method OnComplete()
      requires isVerified
      modifies this`step
      ensures State() == Next(old(State()), Continue)
    {
      if step < StepCount(role) - 1 {
        step := step + 1;
      }
    }

    /** The trust-badge panel reads "Verified!". */
    predicate ShowsVerified()
      reads this
    {
      ProgressPercentage(role, step) == 100.0
    }
  }
}
