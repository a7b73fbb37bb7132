/**
 * The four-step onboarding wizard: the step counter, the final submission
 * to the webhook followed by navigation to the dashboard, the button and
 * progress-dot rendering, and the profile updates its inputs make.
 */
module Onboarding {
  import opened JsValues
  import opened ProfileContext

  /** personal, company, chatbot, details. */
  const StepCount: nat := 4
  const LastStep: nat := StepCount - 1
  const DashboardPath := "/dashboard"

  /** The wizard's state, the profiles it has sent to the webhook, and where it navigated. */
  class OnboardingPage {
    var currentStep: nat
    var isSubmitting: bool
    var submitted: seq<UserProfile>
    var navigatedTo: Option<string>

    ghost predicate Valid()
      reads this
    {
      currentStep <= LastStep
    }

    constructor ()
      ensures Valid() && currentStep == 0 && !isSubmitting && submitted == [] && navigatedTo == None
    {
      currentStep, isSubmitting, submitted, navigatedTo := 0, false, [], None;
    }

    /**
     * The primary button: below the last step move on by one; on the last
     * step start sending the current profile (the reply arrives through
     * `SubmissionSettled`).
     */
    method HandleNext(profile: UserProfile)
      requires Valid()
      modifies this
      ensures Valid() && navigatedTo == old(navigatedTo)
      ensures old(currentStep) < LastStep ==>
        currentStep == old(currentStep) + 1 && isSubmitting == old(isSubmitting) && submitted == old(submitted)
      ensures old(currentStep) == LastStep ==>
        currentStep == LastStep && isSubmitting && submitted == old(submitted) + [profile]
    {
      if currentStep < StepCount - 1 {
        currentStep := currentStep + 1;
      } else {
        isSubmitting := true;
        submitted := submitted + [profile];
      }
    }

    /** The webhook call has returned: stop submitting and go to the dashboard, whether or not it succeeded. */
    method SubmissionSettled(success: bool)
      requires Valid()
      modifies this
      ensures Valid() && !isSubmitting && navigatedTo == Some(DashboardPath)
      ensures currentStep == old(currentStep) && submitted == old(submitted)
    {
      isSubmitting := false;
      navigatedTo := Some(DashboardPath);
    }

    /** The Back button: one step back, nothing at the first step. */
    method HandleBack()
      requires Valid()
      modifies this
      ensures Valid()
      ensures currentStep == if old(currentStep) == 0 then 0 else old(currentStep) - 1
      ensures isSubmitting == old(isSubmitting) && submitted == old(submitted) && navigatedTo == old(navigatedTo)
    {
      if currentStep > 0 {
        currentStep := currentStep - 1;
      }
    }
  }

  const SendingLabel := "Sending..."
  const CompleteLabel := "Complete"
  const NextLabel := "Next"

  /** The primary button's label. */
  function PrimaryLabel(step: nat, isSubmitting: bool): (caption: string)
    ensures caption == SendingLabel <==> isSubmitting
    ensures caption == CompleteLabel <==> !isSubmitting && step == LastStep
    ensures caption == NextLabel <==> !isSubmitting && step != LastStep
  {
    assert |SendingLabel| == 10 && |CompleteLabel| == 8 && |NextLabel| == 4;
    if isSubmitting then SendingLabel
    else if step == LastStep then CompleteLabel
    else NextLabel
  }

  /** What the button row shows: whether Back is there, and whether the buttons are disabled. */
  datatype ButtonRow = ButtonRow(showBack: bool, disabled: bool)

  function Buttons(step: nat, isSubmitting: bool): (b: ButtonRow)
    ensures b.showBack <==> step > 0
    ensures b.disabled <==> isSubmitting
  {
    ButtonRow(step > 0, isSubmitting)
  }

  /** Progress dot `idx` is lit for the current step and every step before it. */
  function DotHighlighted(idx: nat, step: nat): (lit: bool)
    ensures lit <==> idx <= step
  {
    idx <= step
  }

  /** Moving on one step lights exactly one more dot: the new step's. */
  lemma NextLightsOneMoreDot(step: nat, idx: nat)
    requires step < LastStep
    ensures DotHighlighted(idx, step + 1) != DotHighlighted(idx, step) <==> idx == step + 1
  {
  }

  /** A text input's change: `updateProfile({ field: value })`. */
  function FieldPatch(f: TextField, value: string): (d: ProfilePatch)
    ensures d.text.Keys == {f} && d.text[f] == value
    ensures d.qrScanCount.None? && d.chatbotSettings.None?
  {
    ProfilePatch(map[f := value], None, None)
  }

  /** Typing into one input changes that field and nothing else. */
  lemma FieldPatchChangesOnlyField(p: UserProfile, f: TextField, value: string)
    ensures ApplyPatch(p, FieldPatch(f, value)) == p.(text := p.text[f := value])
  {
    var r := ApplyPatch(p, FieldPatch(f, value));
    assert r.text == p.text[f := value] by {
      forall g ensures Get(r.text, g) == Get(p.text[f := value], g) { }
    }
  }

  /** A chatbot option button: `updateProfile({ chatbotSettings: { ...settings, key: option } })`. */
  function ChooseOption(settings: map<SettingKey, string>, key: SettingKey, option: string): (d: ProfilePatch)
    ensures d.text == map[] && d.qrScanCount.None?
    ensures d.chatbotSettings == Some(settings[key := option])
  {
    ProfilePatch(map[], None, Some(settings[key := option]))
  }

  /** Choosing an option on the rendered profile replaces exactly that one setting. */
  lemma ChooseOptionChangesOnlyKey(p: UserProfile, key: SettingKey, option: string)
    ensures ApplyPatch(p, ChooseOption(p.chatbotSettings, key, option))
         == p.(chatbotSettings := p.chatbotSettings[key := option])
  {
    var r := ApplyPatch(p, ChooseOption(p.chatbotSettings, key, option));
    assert r.text == p.text by {
      forall g ensures Get(r.text, g) == Get(p.text, g) { }
    }
    assert r.chatbotSettings == p.chatbotSettings[key := option] by {
      forall k ensures Get(r.chatbotSettings, k) == Get(p.chatbotSettings[key := option], k) { }
    }
  }
}
