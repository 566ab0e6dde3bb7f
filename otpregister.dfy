/** The sign-up code screen: six one-character boxes held in a fixed buffer, focus moves between
    them as digits are typed and erased, and the verify button sends the joined code only when
    all six boxes hold a digit, then sorts the authentication service's answer into going on to
    the registration form or an error. */
module OtpRegister {
  import opened Wrappers
  import Text

  /** The number of boxes. */
  const Slots: nat := 6

  /** `/^\d?$/.test(text)`: the empty string or one ASCII digit. */
  predicate AcceptsInput(text: string) {
    text == "" || (|text| == 1 && '0' <= text[0] <= '9')
  }

  /** `otp.join("")`, built from the left as the join does. */
  function Join(slots: seq<string>): string {
    if slots == [] then "" else Join(slots[..|slots| - 1]) + slots[|slots| - 1]
  }

  /** The number of boxes holding something. */
  function FilledCount(slots: seq<string>): (n: nat)
    ensures n <= |slots|
  {
    if slots == [] then 0
    else FilledCount(slots[..|slots| - 1]) + (if slots[|slots| - 1] != "" then 1 else 0)
  }

  /** Every box is "" or one digit, so the code is as long as the number of filled boxes. */
  lemma {:induction false} JoinLength(slots: seq<string>)
    requires forall i :: 0 <= i < |slots| ==> AcceptsInput(slots[i])
    ensures |Join(slots)| == FilledCount(slots)
  {
    if slots != [] {
      JoinLength(slots[..|slots| - 1]);
    }
  }

  /** Every box is filled exactly when the count of filled boxes is the number of boxes. */
  lemma {:induction false} FilledCountFull(slots: seq<string>)
    ensures FilledCount(slots) == |slots| <==> forall i :: 0 <= i < |slots| ==> slots[i] != ""
  {
    if slots != [] {
      var init := slots[..|slots| - 1];
      FilledCountFull(init);
      assert forall i :: 0 <= i < |init| ==> init[i] == slots[i];
    }
  }

  /** The joined code holds only digits. */
  lemma {:induction false} JoinDigits(slots: seq<string>)
    requires forall i :: 0 <= i < |slots| ==> AcceptsInput(slots[i])
    ensures forall k :: 0 <= k < |Join(slots)| ==> '0' <= Join(slots)[k] <= '9'
  {
    if slots != [] {
      JoinDigits(slots[..|slots| - 1]);
    }
  }

  /** The length gate of `handleVerify`: a code of six characters is exactly six filled boxes. */
  lemma CodeCompleteIffFilled(slots: seq<string>)
    requires |slots| == Slots
    requires forall i :: 0 <= i < |slots| ==> AcceptsInput(slots[i])
    ensures |Join(slots)| == Slots <==> forall i :: 0 <= i < |slots| ==> slots[i] != ""
  {
    JoinLength(slots);
    FilledCountFull(slots);
  }

  /** What `attemptEmailAddressVerification` did: it returned a result, possibly without a
      status or a session, or it threw an error whose first entry may carry a message. */
  datatype Attempt =
    | Returned(status: Option<string>, createdSessionId: Option<string>)
    | Threw(firstMessage: Option<string>)

  /** How the attempt ends on screen. */
  datatype Outcome =
    | EmailVerified(activatedSession: Option<string>)  // on to the registration form
    | AlreadyVerified                                  // on to the registration form
    | Incomplete                                       // "Verification Incomplete"
    | Failed(message: string)                          // "Verification Failed" with this text

  /** The text shown when the error carries no usable message. */
  const DefaultFailure: string := "Invalid code. Please try again."

  /** The outcomes that lead to the registration form. */
  predicate Proceeds(o: Outcome) {
    o.EmailVerified? || o.AlreadyVerified?
  }

  /** `if (err.errors?.[0]?.message?.includes("already been verified"))`. */
  predicate SaysAlreadyVerified(firstMessage: Option<string>) {
    firstMessage.Some? && Text.Contains(firstMessage.value, "already been verified")
  }

  /** The branches of `handleVerify` after the call: `complete` activates the session when one
      was created (a non-empty id), `missing_requirements` goes on without activating, any other
      status is incomplete; a thrown error goes on when it says the address is already verified
      and otherwise fails with its message or the default text. */
  function Classify(a: Attempt): (o: Outcome)
    ensures Proceeds(o) <==>
      (a.Returned? && (a.status == Some("complete") || a.status == Some("missing_requirements")))
      || (a.Threw? && SaysAlreadyVerified(a.firstMessage))
    ensures o.AlreadyVerified? <==> a.Threw? && SaysAlreadyVerified(a.firstMessage)
    ensures o.Incomplete? <==>
      a.Returned? && a.status != Some("complete") && a.status != Some("missing_requirements")
    ensures o.EmailVerified? && o.activatedSession.Some? <==>
      a.Returned? && a.status == Some("complete") && a.createdSessionId.Some? && a.createdSessionId.value != ""
    ensures o.EmailVerified? && o.activatedSession.Some? ==> o.activatedSession == a.createdSessionId
    ensures o.Failed? ==>
      o.message == (if a.firstMessage.Some? && a.firstMessage.value != "" then a.firstMessage.value else DefaultFailure)
  {
    match a
    case Returned(status, session) =>
      if status == Some("complete") then
        EmailVerified(if session.Some? && session.value != "" then session else None)
      else if status == Some("missing_requirements") then EmailVerified(None)
      else Incomplete
    case Threw(message) =>
      if SaysAlreadyVerified(message) then AlreadyVerified
      else Failed(if message.Some? && message.value != "" then message.value else DefaultFailure)
  }

  /** A failure always has something to say, and only a thrown error fails. */
  lemma FailedMessageNonEmpty(a: Attempt)
    ensures Classify(a).Failed? ==> a.Threw? && Classify(a).message != ""
  {
  }

  /** What a press on Verify & Continue does before the call. */
  datatype Press =
    | Ignored             // the button is disabled while loading
    | InvalidOtp          // "Please enter all 6 digits"
    | NotReady            // "Sign up not ready"
    | Submitted(code: string)

  /** The screen's state: the six boxes and the loading flag. */
  class OtpEntry {
    /** The `otp` state array. */
    const otp: array<string>
    var loading: bool

    /** Six boxes, each "" or one digit. */
    ghost predicate Valid()
      reads this, otp
    {
      otp.Length == Slots && forall i :: 0 <= i < Slots ==> AcceptsInput(otp[i])
    }

    /** The screen opens with six empty boxes and the button enabled. */
    constructor ()
      ensures Valid() && fresh(otp) && otp[..] == ["", "", "", "", "", ""] && !loading
    {
      otp := new string[6](_ => "");
      loading := false;
    }

    /** `handleChange(text, index)` of box `index`: text the pattern refuses changes nothing;
        accepted text replaces that box alone, and a digit typed before the last box asks for
        the focus to move to the next one. */
    method HandleChange(text: string, index: nat) returns (focusTo: Option<nat>)
      requires Valid() && index < Slots
      modifies otp
      ensures Valid()
      ensures AcceptsInput(text) ==> otp[..] == old(otp[..])[index := text]
      ensures !AcceptsInput(text) ==> otp[..] == old(otp[..])
      ensures focusTo.Some? <==> AcceptsInput(text) && text != "" && index < Slots - 1
      ensures focusTo.Some? ==> focusTo.value == index + 1
    {
      if !AcceptsInput(text) {
        return None;
      }
      otp[index] := text;
      if text != "" && index < Slots - 1 {
        focusTo := Some(index + 1);
      } else {
        focusTo := None;
      }
    }

    /** `handleBackspace(index)`: the focus moves back only from an empty box that is not the
        first. Nothing else changes. */
    function BackspaceFocus(index: nat): (r: Option<nat>)
      requires Valid() && index < Slots
      reads this, otp
      ensures r.Some? <==> index > 0 && otp[index] == ""
      ensures r.Some? ==> r.value == index - 1
    {
      if index > 0 && otp[index] == "" then Some(index - 1) else None
    }

    /** `otp.join("")`: the code is the six boxes in order; it is six characters long exactly
        when every box holds a digit. */
    method Code() returns (code: string)
      requires Valid()
      ensures code == Join(otp[..])
      ensures |code| == Slots <==> forall i :: 0 <= i < Slots ==> otp[i] != ""
    {
      code := "";
      var i := 0;
      while i < Slots
        invariant 0 <= i <= Slots
        invariant code == Join(otp[..i])
      {
        assert otp[..i + 1][..i] == otp[..i];
        code := code + otp[i];
        i := i + 1;
      }
      assert otp[..Slots] == otp[..];
      CodeCompleteIffFilled(otp[..]);
    }

    /** A press on Verify & Continue: ignored while loading; otherwise an incomplete code is
        refused before readiness is checked, and a complete code is sent with `loading` set. */
    method PressVerify(isLoaded: bool) returns (r: Press)
      requires Valid()
      modifies this
      ensures old(loading) ==> r == Ignored && loading
      ensures !old(loading) ==>
        && (r == InvalidOtp <==> exists i :: 0 <= i < Slots && otp[i] == "")
        && (r == NotReady <==> (forall i :: 0 <= i < Slots ==> otp[i] != "") && !isLoaded)
        && (r.Submitted? <==> (forall i :: 0 <= i < Slots ==> otp[i] != "") && isLoaded)
        && (r.Submitted? ==> r.code == Join(otp[..]) && |r.code| == Slots)
        && (loading <==> r.Submitted?)
    {
      if loading {
        return Ignored;
      }
      var code := Code();
      if |code| != Slots {
        return InvalidOtp;
      }
      if !isLoaded {
        return NotReady;
      }
      loading := true;
      r := Submitted(code);
    }

    /** The answer arrives: `finally` clears `loading`, and the answer is classified. */
    method Settle(a: Attempt) returns (o: Outcome)
      requires loading
      modifies this
      ensures !loading && o == Classify(a)
    {
      o := Classify(a);
      loading := false;
    }
  }
}
