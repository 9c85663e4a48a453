/** The new-password screen of the exercises2 frontend
    (`exercises2/frontend/components/NewPasswordForm.tsx`): three password-policy checks in a
    fixed order, then the call that completes the Cognito challenge. */
module NewPasswordScreen {
  import opened Strings

  const MismatchMessage: string := "パスワードが一致しません"
  const TooShortMessage: string := "パスワードは8文字以上である必要があります"
  const WeakMessage: string := "パスワードには大文字、小文字、数字を含める必要があります"
  const SubmitFailedMessage: string := "パスワード設定中にエラーが発生しました"

  /** The least length Cognito's default policy accepts. */
  const MinLength: nat := 8

  /** The characters JavaScript's `.` does not match (LineTerminator). */
  const LineTerminators: set<char> := {'\n', '\r', '\U{2028}', '\U{2029}'}

  /** From position `p`, the lookahead `(?=.*[class])` succeeds: a character of the class
      follows at or after `p` with no line terminator in between. */
  predicate ReachesOnLine(s: string, p: int, cls: char -> bool)
  {
    exists j :: 0 <= p <= j < |s| && cls(s[j]) && forall k :: p <= k < j ==> s[k] !in LineTerminators
  }

  /** `/(?=.*[a-z])(?=.*[A-Z])(?=.*\d)/.test(s)`: the pattern is unanchored, so it holds when
      some start position reaches a lower-case letter, an upper-case letter and a digit, each
      without crossing a line terminator. */
  predicate StrongEnough(s: string)
  {
    exists p :: 0 <= p <= |s|
      && ReachesOnLine(s, p, IsAsciiLower) && ReachesOnLine(s, p, IsAsciiUpper)
      && ReachesOnLine(s, p, IsAsciiDigit)
  }

  predicate HasLower(s: string) { exists i :: 0 <= i < |s| && IsAsciiLower(s[i]) }
  predicate HasUpper(s: string) { exists i :: 0 <= i < |s| && IsAsciiUpper(s[i]) }
  predicate HasDigit(s: string) { exists i :: 0 <= i < |s| && IsAsciiDigit(s[i]) }

  /** On a single-line password (an `<input>` value has no line breaks) the strength test
      means exactly: some lower-case letter, some upper-case letter and some digit. */
  lemma StrongEnoughIff(s: string)
    requires forall i :: 0 <= i < |s| ==> s[i] !in LineTerminators
    ensures StrongEnough(s) <==> HasLower(s) && HasUpper(s) && HasDigit(s)
  {
    if HasLower(s) && HasUpper(s) && HasDigit(s) {
      var a :| 0 <= a < |s| && IsAsciiLower(s[a]);
      var b :| 0 <= b < |s| && IsAsciiUpper(s[b]);
      var c :| 0 <= c < |s| && IsAsciiDigit(s[c]);
      assert ReachesOnLine(s, 0, IsAsciiLower) by { assert IsAsciiLower(s[a]); }
      assert ReachesOnLine(s, 0, IsAsciiUpper) by { assert IsAsciiUpper(s[b]); }
      assert ReachesOnLine(s, 0, IsAsciiDigit) by { assert IsAsciiDigit(s[c]); }
    }
    if StrongEnough(s) {
      var p :| 0 <= p <= |s| && ReachesOnLine(s, p, IsAsciiLower) && ReachesOnLine(s, p, IsAsciiUpper)
               && ReachesOnLine(s, p, IsAsciiDigit);
      var a :| p <= a < |s| && IsAsciiLower(s[a]) && forall k :: p <= k < a ==> s[k] !in LineTerminators;
      var b :| p <= b < |s| && IsAsciiUpper(s[b]) && forall k :: p <= k < b ==> s[k] !in LineTerminators;
      var c :| p <= c < |s| && IsAsciiDigit(s[c]) && forall k :: p <= k < c ==> s[k] !in LineTerminators;
      assert IsAsciiLower(s[a]) && IsAsciiUpper(s[b]) && IsAsciiDigit(s[c]);
    }
  }

  /** The three letter classes on two different lines do not pass the strength test. */
  lemma SplitAcrossLinesIsWeak()
    ensures !StrongEnough("abcdefgh\nXY12")
  {
    var s := "abcdefgh\nXY12";
    assert |s| == 13 && s[8] == '\n';
    assert forall j :: 0 <= j < 9 ==> !IsAsciiUpper(s[j]);
    assert forall j :: 9 <= j < |s| ==> !IsAsciiLower(s[j]);
    forall p | 0 <= p <= 8
      ensures !ReachesOnLine(s, p, IsAsciiUpper)
    {
      forall j | 0 <= p <= j < |s| && IsAsciiUpper(s[j])
        ensures exists k :: p <= k < j && s[k] in LineTerminators
      {
        assert p <= 8 < j && s[8] in LineTerminators;
      }
    }
  }

  /** The first check that fails, in the order the form runs them, or "" when all pass. */
  function PolicyError(password: string, confirmation: string): (e: string)
    ensures e == "" <==> password == confirmation && |password| >= MinLength && StrongEnough(password)
    ensures password != confirmation ==> e == MismatchMessage
  {
    if password != confirmation then MismatchMessage
    else if |password| < MinLength then TooShortMessage
    else if !StrongEnough(password) then WeakMessage
    else ""
  }

  /** What `completeNewPassword` resolved to, or that the call or `onSuccess` threw. */
  datatype Outcome = Resolved(success: bool, message: string) | Rejected

  /** The error the screen shows after a submission that reached the provider. */
  function ProviderError(outcome: Outcome, onSuccessThrows: bool): (e: string)
    ensures outcome.Resolved? && !outcome.success ==> e == outcome.message
    ensures outcome.Rejected? ==> e == SubmitFailedMessage
  {
    match outcome
    case Rejected => SubmitFailedMessage
    case Resolved(success, message) =>
      if !success then message else if onSuccessThrows then SubmitFailedMessage else ""
  }

  /** The state of the form component: the two password fields, the busy flag and the
      error line. */
  class NewPasswordForm {
    var newPassword: string
    var confirmPassword: string
    var loading: bool
    var error: string

    /** `useState` initial values: both fields empty, not busy, no error. */
    constructor()
      ensures newPassword == "" && confirmPassword == "" && !loading && error == ""
    {
      newPassword := "";
      confirmPassword := "";
      loading := false;
      error := "";
    }

    /** `handleSubmit`: clear the error, run the checks in order and stop at the first that
        fails; only when all pass is the provider called, and its failure message is shown as
        it is. `loading` is false again on every way out. */
    method HandleSubmit(outcome: Outcome, onSuccessThrows: bool) returns (providerCalled: bool)
      modifies this
      ensures newPassword == old(newPassword) && confirmPassword == old(confirmPassword)
      ensures !loading
      ensures providerCalled <==> PolicyError(newPassword, confirmPassword) == ""
      ensures !providerCalled ==> error == PolicyError(newPassword, confirmPassword)
      ensures providerCalled ==> error == ProviderError(outcome, onSuccessThrows)
    {
      loading := true;
      error := "";
      if newPassword != confirmPassword {
        error := MismatchMessage;
        loading := false;
        return false;
      }
      if |newPassword| < MinLength {
        error := TooShortMessage;
        loading := false;
        return false;
      }
      if !StrongEnough(newPassword) {
        error := WeakMessage;
        loading := false;
        return false;
      }
      providerCalled := true;
      match outcome {
        case Rejected =>
          error := SubmitFailedMessage;
        case Resolved(success, message) =>
          if success {
            if onSuccessThrows {
              error := SubmitFailedMessage;
            }
          } else {
            error := message;
          }
      }
      loading := false;
    }
  }
}
