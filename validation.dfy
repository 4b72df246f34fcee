/** The shape of a form-schema check as the forms use it: every failed rule
    adds one issue (the field path and the message), in the order the rules
    are declared, and a form is accepted when no issue is raised. */
module Validation {
  import opened Text

  datatype Issue = Issue(path: string, message: string)

  /** `z.string().min(n, { message })` on one field. */
  function MinLength(path: string, value: string, n: nat, message: string): (issues: seq<Issue>)
    ensures issues == [] <==> JsLength(value) >= n
    ensures issues != [] ==> issues == [Issue(path, message)]
  {
    if JsLength(value) < n then [Issue(path, message)] else []
  }

  /** `z.string().email({ message })`; the address check itself is a parameter. */
  function EmailRule(path: string, value: string, isEmail: string -> bool, message: string): (issues: seq<Issue>)
    ensures issues == [] <==> isEmail(value)
    ensures issues != [] ==> issues == [Issue(path, message)]
  {
    if isEmail(value) then [] else [Issue(path, message)]
  }

  /** The browser's own check of an `<input type="email">` that is not `required`, which runs
      before any submit handler: an empty value passes, and any other value must be an address
      by the browser's rule (a parameter, distinct from the schema's). */
  predicate BrowserEmailOk(value: string, browserEmail: string -> bool) {
    value == "" || browserEmail(value)
  }

  predicate IsUpper(c: char) {
    'A' <= c <= 'Z'
  }

  predicate IsDigit(c: char) {
    '0' <= c <= '9'
  }

  /** The regular expression `/[A-Z]/` finds a match. */
  predicate HasUpper(s: string) {
    exists i :: 0 <= i < |s| && IsUpper(s[i])
  }

  /** The regular expression `/[0-9]/` finds a match. */
  predicate HasDigit(s: string) {
    exists i :: 0 <= i < |s| && IsDigit(s[i])
  }

  const PasswordLengthMessage := "Password must be at least 8 characters"
  const PasswordUpperMessage := "Must contain at least one uppercase letter"
  const PasswordDigitMessage := "Must contain at least one number"

  /** The password chain shared by the signup and login schemas: min 8, then `/[A-Z]/`, then `/[0-9]/`. */
  function PasswordIssues(p: string): (issues: seq<Issue>)
    ensures |issues| <= 3
    ensures forall k :: 0 <= k < |issues| ==> issues[k].path == "password"
  {
    MinLength("password", p, 8, PasswordLengthMessage)
    + (if HasUpper(p) then [] else [Issue("password", PasswordUpperMessage)])
    + (if HasDigit(p) then [] else [Issue("password", PasswordDigitMessage)])
  }

  predicate PasswordOk(p: string) {
    PasswordIssues(p) == []
  }

  /** A password is accepted exactly when it is at least 8 long and holds an upper-case letter and a digit. */
  lemma PasswordRule(p: string)
    ensures PasswordOk(p) <==> JsLength(p) >= 8 && HasUpper(p) && HasDigit(p)
    ensures Issue("password", PasswordLengthMessage) in PasswordIssues(p) <==> JsLength(p) < 8
    ensures Issue("password", PasswordUpperMessage) in PasswordIssues(p) <==> !HasUpper(p)
    ensures Issue("password", PasswordDigitMessage) in PasswordIssues(p) <==> !HasDigit(p)
  {
  }

  lemma {:induction false} JsLengthAppend(a: string, b: string)
    ensures JsLength(a + b) == JsLength(a) + JsLength(b)
  {
    if a != [] {
      assert (a + b)[1..] == a[1..] + b;
      JsLengthAppend(a[1..], b);
    } else {
      assert a + b == b;
    }
  }

  /** No other rule applies: appending any text, lower-case letters and symbols included, keeps an accepted password accepted. */
  lemma PasswordExtends(p: string, extra: string)
    requires PasswordOk(p)
    ensures PasswordOk(p + extra)
  {
    PasswordRule(p);
    JsLengthAppend(p, extra);
    var i :| 0 <= i < |p| && IsUpper(p[i]);
    var j :| 0 <= j < |p| && IsDigit(p[j]);
    assert (p + extra)[i] == p[i] && (p + extra)[j] == p[j];
    PasswordRule(p + extra);
  }

  /** Lower-case letters and symbols are not required: capitals and digits alone are accepted. */
  lemma CapitalsAndDigitsAccepted()
    ensures PasswordOk("PASSWORD1")
  {
    assert IsUpper("PASSWORD1"[0]) && IsDigit("PASSWORD1"[8]);
  }

  /** A long lower-case password with a digit is refused for the missing capital alone. */
  lemma LowercaseOnlyRefused()
    ensures PasswordIssues("password1") == [Issue("password", PasswordUpperMessage)]
  {
    assert IsDigit("password1"[8]);
    assert !HasUpper("password1");
  }
}
