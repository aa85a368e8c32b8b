/**
  The browser side of the lead form: the modal dialog (`openModal`,
  `closeModal`, the Escape key and clicks on the backdrop) and the submit handler
  (`handleSubmit`), which validates the two fields, sends them once, and puts the
  button and the form back whatever the server answered.

  The page is modelled by the few things these handlers touch: the modal's
  inline `display`, the body's inline `overflow`, which panel the modal's
  content shows, the two input values, the submit button's `disabled` flag and
  label, and two logs, of the alerts shown and of the requests sent. The reply
  of `fetch` is an input.
*/
module SiteScript {
  import opened Text
  import opened Numerals

  // ---------------------------------------------------------------------------
  // Validation

  /** One character of the class `[\d\s\-\+\(\)]`. */
  predicate IsPhoneChar(c: char) {
    IsDigit(c) || IsSpace(c) || c == '-' || c == '+' || c == '(' || c == ')'
  }

  /** `/^[\d\s\-\+\(\)]+$/.test(s)`: one or more characters, every one of the class. */
  function PhonePatternTest(s: string): (r: bool)
    ensures r <==> s != [] && forall k :: 0 <= k < |s| ==> IsPhoneChar(s[k])
  {
    if s == [] then false
    else if |s| == 1 then IsPhoneChar(s[0])
    else IsPhoneChar(s[0]) && PhonePatternTest(s[1..])
  }

  datatype FormCheck =
    | MissingField                          // alert "fill in all fields"
    | BadPhone                              // alert "enter a correct phone number"
    | Accepted(name: string, phone: string)

  /**
    The two checks of `handleSubmit`, in order: both trimmed values non-empty,
    then the trimmed phone matches the pattern. An accepted form carries the
    trimmed values.
  */
  function CheckForm(rawName: string, rawPhone: string): (c: FormCheck)
    ensures c == MissingField <==> AllSpace(rawName) || AllSpace(rawPhone)
    ensures c == BadPhone <==>
      !AllSpace(rawName) && !AllSpace(rawPhone) &&
      exists k :: 0 <= k < |Trim(rawPhone)| && !IsPhoneChar(Trim(rawPhone)[k])
    ensures c.Accepted? ==>
      c.name == Trim(rawName) && c.phone == Trim(rawPhone) && c.name != [] && c.phone != [] &&
      forall k :: 0 <= k < |c.phone| ==> IsPhoneChar(c.phone[k])
  {
    var name := Trim(rawName);
    var phone := Trim(rawPhone);
    if name == [] || phone == [] then MissingField
    else if !PhonePatternTest(phone) then BadPhone
    else Accepted(name, phone)
  }

  // ---------------------------------------------------------------------------
  // The page

  /** The modal's inline `style.display`; unset until a handler first writes it. */
  datatype Display = DisplayUnset | Block | DisplayNone

  /** The body's inline `style.overflow`. */
  datatype Overflow = OverflowUnset | Hidden | Auto

  /** What `.modal-content` shows: the original form, or the markup one of the two submit paths wrote. */
  datatype Panel = FormPanel | ThanksPanel | WarningPanel

  datatype Alert = FillAllFields | BadPhoneNumber

  /** The JSON body `{name, phone}` of one POST to the lead endpoint. */
  datatype LeadRequest = LeadRequest(name: string, phone: string)

  /** What `await fetch(...)` and `await response.json()` gave. */
  datatype FetchOutcome =
    | Threw                          // network error, or a body that is not JSON
    | Answered(successTruthy: bool)  // JavaScript's truth value of `data.success`

  /** The target of a click on the window. */
  datatype ClickTarget = ModalElement | OtherElement

  datatype PageState = PageState(
    display: Display, overflow: Overflow, panel: Panel,
    nameValue: string, phoneValue: string,
    buttonDisabled: bool, buttonText: string,
    alerts: seq<Alert>, requests: seq<LeadRequest>)

  const SendingLabel := "Отправка..."
  const EscapeKey := "Escape"

  /** The modal is shown. */
  predicate ModalOpen(s: PageState) {
    s.display == Block && s.overflow == Hidden
  }

  /** The modal is hidden and the page scrolls again. */
  predicate ModalClosed(s: PageState) {
    s.display == DisplayNone && s.overflow == Auto
  }

  // ---------------------------------------------------------------------------
  // The handlers as state transitions

  function Opened(s: PageState): (t: PageState)
    ensures ModalOpen(t)
    ensures t.(display := s.display, overflow := s.overflow) == s
  {
    s.(display := Block, overflow := Hidden)
  }

  function Closed(s: PageState): (t: PageState)
    ensures ModalClosed(t)
    ensures t.(display := s.display, overflow := s.overflow) == s
  {
    s.(display := DisplayNone, overflow := Auto)
  }

  function AfterKeyDown(s: PageState, key: string): (t: PageState)
    ensures key == EscapeKey ==> t == Closed(s)
    ensures key != EscapeKey ==> t == s
  {
    if key == EscapeKey then Closed(s) else s
  }

  function AfterWindowClick(s: PageState, target: ClickTarget): (t: PageState)
    ensures target == ModalElement ==> t == Closed(s)
    ensures target != ModalElement ==> t == s
  {
    if target == ModalElement then Closed(s) else s
  }

  /** `form.reset()`: both inputs back to their default values, nothing else touched. */
  function Reset(s: PageState, nameDefault: string, phoneDefault: string): (t: PageState)
    ensures t.nameValue == nameDefault && t.phoneValue == phoneDefault
    ensures t.(nameValue := s.nameValue, phoneValue := s.phoneValue) == s
  {
    s.(nameValue := nameDefault, phoneValue := phoneDefault)
  }

  /**
    The page after `handleSubmit` has run to its end. A rejected form only adds
    its alert. An accepted one sends one request with the trimmed values, shows
    the thanks panel when `data.success` was truthy and the warning panel
    otherwise (a falsy `success` is thrown and caught like a network error),
    resets the form on both paths and leaves the button enabled with its
    original label.
  */
  function AfterSubmit(s: PageState, nameDefault: string, phoneDefault: string, outcome: FetchOutcome): (t: PageState)
    ensures t.display == s.display && t.overflow == s.overflow
  {
    match CheckForm(s.nameValue, s.phoneValue)
    case MissingField => s.(alerts := s.alerts + [FillAllFields])
    case BadPhone => s.(alerts := s.alerts + [BadPhoneNumber])
    case Accepted(name, phone) =>
      var shown := if outcome == Answered(true) then ThanksPanel else WarningPanel;
      Reset(s, nameDefault, phoneDefault).(
        panel := shown,
        buttonDisabled := false,
        requests := s.requests + [LeadRequest(name, phone)])
  }

  // ---------------------------------------------------------------------------
  // Properties of the transitions

  /** `closeModal` twice is `closeModal` once, from any state. */
  lemma CloseIdempotent(s: PageState)
    ensures Closed(Closed(s)) == Closed(s)
  {
  }

  /** Opening then closing is closing: `openModal` leaves nothing behind that `closeModal` keeps. */
  lemma CloseAfterOpen(s: PageState)
    ensures Closed(Opened(s)) == Closed(s)
  {
  }

  /** Escape always closes the modal; any click whose target is not the modal changes nothing. */
  lemma EscapeAndClicks(s: PageState)
    ensures ModalClosed(AfterKeyDown(s, EscapeKey))
    ensures AfterWindowClick(s, OtherElement) == s
    ensures ModalClosed(AfterWindowClick(s, ModalElement))
  {
  }

  /** A blank field is reported first, even when the phone also has a bad character. */
  lemma BlankBeforeBadPhone(s: PageState, nameDefault: string, phoneDefault: string, outcome: FetchOutcome)
    requires AllSpace(s.nameValue) || AllSpace(s.phoneValue)
    ensures AfterSubmit(s, nameDefault, phoneDefault, outcome) == s.(alerts := s.alerts + [FillAllFields])
  {
  }

  /**
    A rejected form sends nothing and leaves the button, the inputs and the panel
    as they were; the only change is the one alert that names the reason.
  */
  lemma RejectedLeavesPage(s: PageState, nameDefault: string, phoneDefault: string, outcome: FetchOutcome)
    requires !CheckForm(s.nameValue, s.phoneValue).Accepted?
    ensures var t := AfterSubmit(s, nameDefault, phoneDefault, outcome);
      t.requests == s.requests && t.buttonDisabled == s.buttonDisabled && t.buttonText == s.buttonText &&
      t.nameValue == s.nameValue && t.phoneValue == s.phoneValue && t.panel == s.panel &&
      |t.alerts| == |s.alerts| + 1
    ensures CheckForm(s.nameValue, s.phoneValue) == MissingField ==>
      AfterSubmit(s, nameDefault, phoneDefault, outcome) == s.(alerts := s.alerts + [FillAllFields])
    ensures CheckForm(s.nameValue, s.phoneValue) == BadPhone ==>
      AfterSubmit(s, nameDefault, phoneDefault, outcome) == s.(alerts := s.alerts + [BadPhoneNumber])
  {
  }

  /**
    An accepted form is sent once with exactly the trimmed values; afterwards the
    button is enabled with its original label and the form is reset, on the
    success path and the error path alike.
  */
  lemma AcceptedRestoresPage(s: PageState, nameDefault: string, phoneDefault: string, outcome: FetchOutcome)
    requires CheckForm(s.nameValue, s.phoneValue).Accepted?
    ensures var t := AfterSubmit(s, nameDefault, phoneDefault, outcome);
      t.requests == s.requests + [LeadRequest(Trim(s.nameValue), Trim(s.phoneValue))] &&
      !t.buttonDisabled && t.buttonText == s.buttonText &&
      t.nameValue == nameDefault && t.phoneValue == phoneDefault &&
      t.alerts == s.alerts &&
      t.panel == (if outcome == Answered(true) then ThanksPanel else WarningPanel)
  {
  }

  /** A reply whose `success` is falsy ends exactly like a network error. */
  lemma FalsySuccessLikeError(s: PageState, nameDefault: string, phoneDefault: string)
    ensures AfterSubmit(s, nameDefault, phoneDefault, Answered(false)) ==
      AfterSubmit(s, nameDefault, phoneDefault, Threw)
  {
  }

  // ---------------------------------------------------------------------------
  // The page as an object whose fields the handlers assign

  class Page {
    var display: Display
    var overflow: Overflow
    var panel: Panel
    var nameValue: string
    var phoneValue: string
    var buttonDisabled: bool
    var buttonText: string
    var alerts: seq<Alert>
    var requests: seq<LeadRequest>
    /** The inputs' default values, which `form.reset()` restores. */
    const nameDefault: string
    const phoneDefault: string

    function State(): PageState
      reads this
    {
      PageState(display, overflow, panel, nameValue, phoneValue, buttonDisabled, buttonText, alerts, requests)
    }

    /** The page as loaded: no inline styles, the form in the modal, the inputs at their defaults. */
    constructor (nameDefault: string, phoneDefault: string, buttonText: string)
      ensures this.nameDefault == nameDefault && this.phoneDefault == phoneDefault
      ensures State() == PageState(DisplayUnset, OverflowUnset, FormPanel, nameDefault, phoneDefault,
                                   false, buttonText, [], [])
    {
      this.nameDefault := nameDefault;
      this.phoneDefault := phoneDefault;
      display := DisplayUnset;
      overflow := OverflowUnset;
      panel := FormPanel;
      nameValue := nameDefault;
      phoneValue := phoneDefault;
      buttonDisabled := false;
      this.buttonText := buttonText;
      alerts := [];
      requests := [];
    }

    method OpenModal()
      modifies this
      ensures State() == Opened(old(State()))
    {
      display := Block;
      overflow := Hidden;
    }

    method CloseModal()
      modifies this
      ensures State() == Closed(old(State()))
    {
      display := DisplayNone;
      overflow := Auto;
    }

    /** The `keydown` listener on the document. */
    method OnKeyDown(key: string)
      modifies this
      ensures State() == AfterKeyDown(old(State()), key)
    {
      if key == EscapeKey {
        CloseModal();
      }
    }

    /** `window.onclick`. */
    method OnWindowClick(target: ClickTarget)
      modifies this
      ensures State() == AfterWindowClick(old(State()), target)
    {
      if target == ModalElement {
        CloseModal();
      }
    }

    method ResetForm()
      modifies this
      ensures State() == Reset(old(State()), nameDefault, phoneDefault)
    {
      nameValue := nameDefault;
      phoneValue := phoneDefault;
    }

    /** `handleSubmit`, run to completion with `outcome` as what the two awaits gave. */
    method HandleSubmit(outcome: FetchOutcome)
      modifies this
      ensures State() == AfterSubmit(old(State()), nameDefault, phoneDefault, outcome)
    {
      var check := CheckForm(nameValue, phoneValue);
      if check == MissingField {
        alerts := alerts + [FillAllFields];
        return;
      }
      if check == BadPhone {
        alerts := alerts + [BadPhoneNumber];
        return;
      }
      SendLead(check.name, check.phone, outcome);
    }

    /** The part of `handleSubmit` after validation: the button, the POST, the two paths, `finally`. */
    method SendLead(name: string, phone: string, outcome: FetchOutcome)
      modifies this
      ensures State() == Reset(old(State()), nameDefault, phoneDefault).(
        panel := if outcome == Answered(true) then ThanksPanel else WarningPanel,
        buttonDisabled := false,
        requests := old(requests) + [LeadRequest(name, phone)])
    {
      var originalButtonText := buttonText;
      BeginSend(name, phone);
      FinishSend(outcome, originalButtonText);
    }

    /**
      Up to the first `await`: the button is disabled and relabelled while the
      POST carrying the trimmed values is in flight; nothing else changes.
    */
    method BeginSend(name: string, phone: string)
      modifies this
      ensures State() == old(State()).(
        buttonDisabled := true,
        buttonText := SendingLabel,
        requests := old(requests) + [LeadRequest(name, phone)])
    {
      buttonDisabled := true;
      buttonText := SendingLabel;
      requests := requests + [LeadRequest(name, phone)];
    }

    /**
      After the awaits: the thank-you or the warning replaces the form, the form
      is reset, and `finally` re-enables the button with its original label.
    */
    method FinishSend(outcome: FetchOutcome, originalButtonText: string)
      modifies this
      ensures State() == Reset(old(State()), nameDefault, phoneDefault).(
        panel := if outcome == Answered(true) then ThanksPanel else WarningPanel,
        buttonDisabled := false,
        buttonText := originalButtonText)
    {
      if outcome == Answered(true) {
        panel := ThanksPanel;
        ResetForm();
      } else {
        panel := WarningPanel;
        ResetForm();
      }
      buttonDisabled := false;
      buttonText := originalButtonText;
    }
  }
}
