/** The sign-up form (src/pages/public/SignUp.jsx): the per-field validation, the form state and
    its error map, and the rule that enables the submit button. */
module SignUp {

  import opened Common
  import AuthSlice

  const FirstName: string := "first_name"
  const LastName: string := "last_name"
  const Email: string := "email"
  const Password: string := "password"
  const TermsAgreement: string := "terms_agreement"

  const NoSpacing: string := "No spacing allowed"
  const TooShort: string := "8 characters min!"
  const InvalidEmail: string := "Invalid email!"
  const MinPasswordLength: nat := 8
  const OtpPath: string := "/verify-activation-otp"

  // ---------------------------------------------------------------------------------------
  // The email pattern `^[^\s@]+@[^\s@]+\.[^\s@]+$`

  /** `[^\s@]`. */
  predicate Plain(c: char)
  {
    c != '@' && !IsSpace(c)
  }

  predicate AllPlain(t: string)
  {
    forall i :: 0 <= i < |t| ==> Plain(t[i])
  }

  predicate NoSpace(t: string)
  {
    forall i :: 0 <= i < |t| ==> !IsSpace(t[i])
  }

  /** The index of the first `@`, if any. */
  function FirstAt(s: string): (r: Option<nat>)
    ensures r.Some? ==> r.value < |s| && s[r.value] == '@' && forall i :: 0 <= i < r.value ==> s[i] != '@'
    ensures r.None? ==> forall i :: 0 <= i < |s| ==> s[i] != '@'
  {
    if s == [] then None
    else if s[0] == '@' then Some(0)
    else match FirstAt(s[1..]) {
      case None => None
      case Some(k) => Some(k + 1)
    }
  }

  /** A `.` that is neither the first nor the last character. */
  predicate HasInnerDot(t: string)
  {
    exists k :: 0 < k < |t| - 1 && t[k] == '.'
  }

  /** The check the form performs: one `@` preceded by a non-empty run without whitespace,
      followed by a domain without whitespace or `@` that has an inner dot. */
  predicate ValidEmail(s: string)
  {
    match FirstAt(s)
    case None => false
    case Some(a) => 0 < a && NoSpace(s[..a]) && AllPlain(s[a + 1..]) && HasInnerDot(s[a + 1..])
  }

  /** The regular expression read literally: three non-empty runs of `[^\s@]` separated by `@`
      and `.`. */
  ghost predicate MatchesEmailPattern(s: string)
  {
    exists l: string, d1: string, d2: string :: EmailParts(s, l, d1, d2)
  }

  /** `s` is `l@d1.d2` with three non-empty runs of `[^\s@]`. */
  predicate EmailParts(s: string, l: string, d1: string, d2: string)
  {
    s == l + ['@'] + d1 + ['.'] + d2 && |l| > 0 && |d1| > 0 && |d2| > 0 &&
    AllPlain(l) && AllPlain(d1) && AllPlain(d2)
  }

  lemma EmailPatternIff(s: string)
    ensures ValidEmail(s) <==> MatchesEmailPattern(s)
  {
    if ValidEmail(s) {
      ValidEmailMatches(s);
    }
    if MatchesEmailPattern(s) {
      var l: string, d1: string, d2: string :| EmailParts(s, l, d1, d2);
      PatternIsValid(s, l, d1, d2);
    }
  }

  lemma ValidEmailMatches(s: string)
    requires ValidEmail(s)
    ensures MatchesEmailPattern(s)
  {
    var a := FirstAt(s).value;
    var rest := s[a + 1..];
    var k :| 0 < k < |rest| - 1 && rest[k] == '.';
    var l, d1, d2 := s[..a], rest[..k], rest[k + 1..];
    LocalPartPlain(s, a);
    PlainSlice(rest, 0, k);
    PlainSlice(rest, k + 1, |rest|);
    SplitAt(s, a, k);
    assert EmailParts(s, l, d1, d2);
  }

  /** Before the first `@`, a run without whitespace is a run of `[^\s@]`. */
  lemma LocalPartPlain(s: string, a: nat)
    requires a <= |s| && NoSpace(s[..a])
    requires forall i :: 0 <= i < a ==> s[i] != '@'
    ensures AllPlain(s[..a])
  {
    forall i | 0 <= i < a
      ensures Plain(s[..a][i])
    {
      assert s[..a][i] == s[i];
    }
  }

  /** Cutting `s` at the `@` at `a` and at the `.` at `k` of the rest. */
  lemma SplitAt(s: string, a: nat, k: nat)
    requires a < |s| && s[a] == '@' && k < |s[a + 1..]| && s[a + 1..][k] == '.'
    ensures s == s[..a] + ['@'] + s[a + 1..][..k] + ['.'] + s[a + 1..][k + 1..]
  {
    var rest := s[a + 1..];
    assert rest == rest[..k] + ['.'] + rest[k + 1..];
    assert s == s[..a] + ['@'] + rest;
  }

  lemma PlainSlice(t: string, i: int, j: int)
    requires AllPlain(t) && 0 <= i <= j <= |t|
    ensures AllPlain(t[i..j])
  {
    assert forall n :: 0 <= n < j - i ==> t[i..j][n] == t[i + n];
  }

  lemma PatternIsValid(s: string, l: string, d1: string, d2: string)
    requires s == l + ['@'] + d1 + ['.'] + d2 && |l| > 0 && |d1| > 0 && |d2| > 0
    requires AllPlain(l) && AllPlain(d1) && AllPlain(d2)
    ensures ValidEmail(s)
  {
    var rest := d1 + ['.'] + d2;
    assert s == l + ['@'] + rest;
    assert s[|l|] == '@';
    assert forall i :: 0 <= i < |l| ==> s[i] == l[i];
    assert FirstAt(s) == Some(|l|);
    assert s[|l| + 1..] == rest;
    assert s[..|l|] == l;
    assert rest[|d1|] == '.';
    assert AllPlain(rest) by {
      forall i | 0 <= i < |rest|
        ensures Plain(rest[i])
      {
        if i < |d1| {
          assert rest[i] == d1[i];
        } else if i > |d1| {
          assert rest[i] == d2[i - |d1| - 1];
        }
      }
    }
  }

  // ---------------------------------------------------------------------------------------
  // Field rules

  /** `value.length`: the number of UTF-16 code units, two for each character beyond U+FFFF
      and one for every other. */
  function Utf16Length(s: string): (n: nat)
    ensures |s| <= n <= 2 * |s|
    ensures n == |s| <==> forall i :: 0 <= i < |s| ==> s[i] as int <= 0xFFFF
  {
    if s == [] then 0 else (if s[0] as int > 0xFFFF then 2 else 1) + Utf16Length(s[1..])
  }

  /** What makes a value invalid for a field that is validated. */
  ghost predicate Invalid(name: string, value: string)
  {
    if name == FirstName || name == LastName then exists i :: 0 <= i < |value| && value[i] == ' '
    else if name == Password then Utf16Length(value) < MinPasswordLength
    else !MatchesEmailPattern(value)
  }

  predicate Validated(name: string)
  {
    name == FirstName || name == LastName || name == Password || name == Email
  }

  /** `simpleValidation`: the new error text for a validated field (empty when the value is
      fine), nothing for any other field. */
  function FieldError(name: string, value: string): (e: Option<string>)
    ensures e.Some? <==> Validated(name)
    ensures e.Some? ==> (e.value != "" <==> Invalid(name, value))
    ensures e.Some? && e.value != "" ==>
              e.value == (if name == Password then TooShort else if name == Email then InvalidEmail else NoSpacing)
  {
    if name == FirstName || name == LastName then Some(if ' ' in value then NoSpacing else "")
    else if name == Password then Some(if Utf16Length(value) < MinPasswordLength then TooShort else "")
    else if name == Email then EmailPatternIff(value); Some(if !ValidEmail(value) then InvalidEmail else "")
    else None
  }

  /** `{ ...errors, [name]: error }` for a validated field. */
  function ErrorsAfter(errors: map<string, string>, name: string, value: string): map<string, string>
  {
    match FieldError(name, value)
    case None => errors
    case Some(e) => errors[name := e]
  }

  /** `Object.values(errors).every((value) => value === '')`. */
  predicate AllClear(errors: map<string, string>)
  {
    forall k :: k in errors ==> errors[k] == ""
  }

  /** Only the edited field's entry can change. */
  lemma ErrorsAfterFrame(errors: map<string, string>, name: string, value: string)
    ensures forall k :: k != name ==> Lookup(ErrorsAfter(errors, name, value), k) == Lookup(errors, k)
    ensures !Validated(name) ==> ErrorsAfter(errors, name, value) == errors
  {
  }

  /** After an edit the button is enabled exactly when the edited field is fine (or not
      validated) and every other entry is already clear. */
  lemma {:induction false} AllClearAfter(errors: map<string, string>, name: string, value: string)
    ensures AllClear(ErrorsAfter(errors, name, value)) <==>
            (if Validated(name) then !Invalid(name, value) && (forall k :: k in errors && k != name ==> errors[k] == "")
             else AllClear(errors))
  {
    var after := ErrorsAfter(errors, name, value);
    if Validated(name) {
      assert name in after && after[name] == FieldError(name, value).value;
      assert forall k :: k in errors && k != name ==> k in after && after[k] == errors[k];
    }
  }

  // ---------------------------------------------------------------------------------------
  // The form

  class SignUpForm {
    var userData: map<string, FormValue>
    var errors: map<string, string>

    constructor ()
      ensures userData == map[FirstName := Text(""), LastName := Text(""), Email := Text(""),
                              Password := Text(""), TermsAgreement := Flag(false)]
      ensures errors == map[]
    {
      userData := map[FirstName := Text(""), LastName := Text(""), Email := Text(""),
                      Password := Text(""), TermsAgreement := Flag(false)];
      errors := map[];
    }

    /** `!Object.values(errors).every(...) && { isDisabled: true }`. */
    predicate SubmitDisabled()
      reads this
    {
      !AllClear(errors)
    }

    /** `handleChange`: the checkbox stores its `checked` flag, any other input its text, and
        the edited field is validated. */
    method HandleChange(name: string, value: string, checked: bool)
      modifies this
      ensures userData == old(userData)[name := if name == TermsAgreement then Flag(checked) else Text(value)]
      ensures errors == ErrorsAfter(old(errors), name, value)
    {
      if name == TermsAgreement {
        userData := userData[name := Flag(checked)];
      } else {
        userData := userData[name := Text(value)];
      }
      var e := FieldError(name, value);
      if e.Some? {
        errors := errors[name := e.value];
      }
    }

    /** The effect on an auth-store change: a failed registration replaces the errors with the
        server's field errors, a successful one leads to the OTP page, and `reset` is dispatched
        every time. */
    method OnAuthChange(store: AuthSlice.AuthStore, serverErrors: map<string, string>) returns (navigateTo: Option<string>)
      modifies this, store
      ensures errors == (if old(store.isError) then serverErrors else old(errors))
      ensures userData == old(userData)
      ensures navigateTo == (if old(store.isSuccess) then Some(OtpPath) else None)
      ensures Some(store.State()) == AuthSlice.Reduce(old(store.State()), AuthSlice.Reset, store.decode)
    {
      if store.isError {
        errors := serverErrors;
      }
      navigateTo := if store.isSuccess then Some(OtpPath) else None;
      var _ := store.Dispatch(AuthSlice.Reset);
    }
  }
}
