/** The page a scanned QR link opens (`src/pages/ValidatePage.tsx`): it reads `code` from the
    query, sends an unauthenticated visitor to the login page with the way back, and otherwise
    asks the API to validate the code, moving its status from idle through loading to success or
    error. Navigations, toasts and requests are recorded; the API's answer is a parameter. */
module ValidatePage {
  import opened Wrappers
  import Text

  datatype Status = Idle | Loading | Succeeded | Errored

  /** A `navigate` call: the target, and the `from` of its state when it carries one. */
  datatype Navigation = Navigation(path: string, from: Option<string>)

  /** `GET /api/validate/<code>` with the bearer token. */
  datatype Request = Validate(code: string, token: string)

  datatype Toast = Toast(title: string, destructive: bool)

  /** How the validation request ended: an ok response whose body parsed (the result), a
      response that was not ok, or a thrown error. */
  datatype Outcome = Answered(result: string) | NotOk(body: string) | Threw

  const HistoryPath := "/validations#validation-history"
  const AfterValidationPath := "/validations?from_validation=true#validation-history"
  const LoginPath := "/login"
  const ReturnPrefix := "/validate?code="

  /** The way back the login page is given: the page's own address with the code. */
  function ReturnPath(code: string): (r: string)
    ensures Text.StartsWith(r, ReturnPrefix) && r[|ReturnPrefix|..] == code
  {
    var r := ReturnPrefix + code;
    assert r[..|ReturnPrefix|] == ReturnPrefix;
    r
  }

  /** Two codes give the same way back only when they are equal. */
  lemma ReturnPathInjective(a: string, b: string)
    ensures ReturnPath(a) == ReturnPath(b) <==> a == b
  {
    if ReturnPath(a) == ReturnPath(b) {
      assert a == ReturnPath(a)[|ReturnPrefix|..];
    }
  }

  /** A text that is present and non-empty, as JavaScript's truthiness tests it. */
  predicate Present(s: Option<string>) {
    s.Some? && s.value != ""
  }

  class ValidatePage {
    /** `searchParams.get('code')`, `isAuthenticated` and the stored token, fixed while the
        page is shown. */
    const code: Option<string>
    const isAuthenticated: bool
    const token: Option<string>
    var status: Status
    var validationResult: Option<string>
    var navigations: seq<Navigation>
    var toasts: seq<Toast>
    var requests: seq<Request>

    /** A request goes out only with both a code and a token, and the status leaves idle only
        once one has. */
    ghost predicate Valid()
      reads this
    {
      (requests != [] ==> Present(code) && Present(token)
                          && forall i :: 0 <= i < |requests| ==> requests[i] == Validate(code.value, token.value))
      && (status != Idle ==> requests != [])
      && (status == Succeeded ==> validationResult.Some?)
      && (validationResult.Some? ==> requests != [])
    }

    constructor(code: Option<string>, isAuthenticated: bool, token: Option<string>)
      ensures Valid()
      ensures this.code == code && this.isAuthenticated == isAuthenticated && this.token == token
      ensures status == Idle && validationResult == None
      ensures navigations == [] && toasts == [] && requests == []
    {
      this.code := code;
      this.isAuthenticated := isAuthenticated;
      this.token := token;
      status := Idle;
      validationResult := None;
      navigations := [];
      toasts := [];
      requests := [];
    }

    /** The start of `validateCode`, up to the request: without a code or a token nothing
        happens; otherwise the status is loading and the request is sent. */
    method StartValidation()
      requires Valid()
      modifies this
      ensures Valid()
      ensures !(Present(code) && Present(token)) ==>
        status == old(status) && requests == old(requests)
      ensures Present(code) && Present(token) ==>
        status == Loading && requests == old(requests) + [Validate(code.value, token.value)]
      ensures validationResult == old(validationResult)
      ensures navigations == old(navigations) && toasts == old(toasts)
    {
      if !Present(code) || !Present(token) {
        return;
      }
      status := Loading;
      requests := requests + [Validate(code.value, token.value)];
    }

    /** The entry effect. Without a code: an error toast and a move to the history. Without a
        session or a token: a move to the login page carrying the way back, and a toast.
        Otherwise the validation starts. */
    method EntryEffect()
      requires Valid()
      modifies this
      ensures Valid()
      ensures !Present(code) ==>
        navigations == old(navigations) + [Navigation(HistoryPath, None)]
        && toasts == old(toasts) + [Toast("Invalid QR Code", true)]
        && requests == old(requests) && status == old(status)
      ensures Present(code) && (!isAuthenticated || !Present(token)) ==>
        navigations == old(navigations) + [Navigation(LoginPath, Some(ReturnPath(code.value)))]
        && toasts == old(toasts) + [Toast("Authentication Required", true)]
        && requests == old(requests) && status == old(status)
      ensures Present(code) && isAuthenticated && Present(token) ==>
        navigations == old(navigations) && toasts == old(toasts)
        && status == Loading && requests == old(requests) + [Validate(code.value, token.value)]
    {
      if !Present(code) {
        toasts := toasts + [Toast("Invalid QR Code", true)];
        navigations := navigations + [Navigation(HistoryPath, None)];
        return;
      }
      if !isAuthenticated || !Present(token) {
        navigations := navigations + [Navigation(LoginPath, Some(ReturnPath(code.value)))];
        toasts := toasts + [Toast("Authentication Required", true)];
        return;
      }
      StartValidation();
    }

    /** The end of `validateCode`: an ok answer stores the result and succeeds; a response that
        is not ok or a thrown error fails. Either way the page moves to the history marked as
        coming from a validation. */
    method FinishValidation(outcome: Outcome)
      requires Valid() && status == Loading
      modifies this
      ensures Valid()
      ensures outcome.Answered? ==>
        status == Succeeded && validationResult == Some(outcome.result)
        && toasts == old(toasts) + [Toast("Validation Successful", false)]
      ensures !outcome.Answered? ==>
        status == Errored && validationResult == old(validationResult)
        && toasts == old(toasts) + [Toast("Validation Failed", true)]
      ensures navigations == old(navigations) + [Navigation(AfterValidationPath, None)]
      ensures requests == old(requests)
    {
      if outcome.Answered? {
        validationResult := Some(outcome.result);
        status := Succeeded;
        navigations := navigations + [Navigation(AfterValidationPath, None)];
        toasts := toasts + [Toast("Validation Successful", false)];
      } else {
        status := Errored;
        navigations := navigations + [Navigation(AfterValidationPath, None)];
        toasts := toasts + [Toast("Validation Failed", true)];
      }
    }

    /** The button of the failure view. */
    method ViewHistory()
      requires status == Errored
      modifies this
      ensures navigations == old(navigations) + [Navigation(HistoryPath, None)]
      ensures status == old(status) && validationResult == old(validationResult)
      ensures toasts == old(toasts) && requests == old(requests)
    {
      navigations := navigations + [Navigation(HistoryPath, None)];
    }
  }
}
