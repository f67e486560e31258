/**
 * The login page of the frontend: the form's fields and its own error
 * message, the client-side validation chain run on submit, the hand-off to
 * the provider's `login`, and which error the page shows.
 */
module LoginForm {
  import opened Common
  import opened Auth

  /** The values the form starts with (frontend/src/components/Login.js:6-8). */
  const InitialEmail := "user@example.com"
  const InitialPassword := "password123"

  const EmailRequired := "Email is required"
  const PasswordRequired := "Password is required"
  const InvalidEmail := "Please enter a valid email address"
  const PasswordTooShort := "Password must be at least 6 characters long"
  const MinPasswordLength := 6

  /**
   * What `String.prototype.trim` removes: the ECMAScript white space
   * characters (tab, vertical tab, form feed, space, no-break space, the byte
   * order mark and the other space separators) and the line terminators.
   */
  predicate IsJsWhitespace(c: char)
  {
    var n := c as int;
    n == 0x09 || n == 0x0A || n == 0x0B || n == 0x0C || n == 0x0D || n == 0x20 ||
    n == 0xA0 || n == 0x1680 || (0x2000 <= n <= 0x200A) || n == 0x2028 || n == 0x2029 ||
    n == 0x202F || n == 0x205F || n == 0x3000 || n == 0xFEFF
  }

  /** Every character of `s` is white space (the empty string included). */
  predicate Blank(s: string)
  {
    forall k :: 0 <= k < |s| ==> IsJsWhitespace(s[k])
  }

  /** `s` without its leading white space. */
  function TrimStart(s: string): (r: string)
    ensures |r| <= |s| && r == s[|s| - |r|..]
    ensures forall k :: 0 <= k < |s| - |r| ==> IsJsWhitespace(s[k])
    ensures r != [] ==> !IsJsWhitespace(r[0])
  {
    if s == [] || !IsJsWhitespace(s[0]) then s else TrimStart(s[1..])
  }

  /** `s` without its trailing white space. */
  function TrimEnd(s: string): (r: string)
    ensures |r| <= |s| && r == s[..|r|]
    ensures forall k :: |r| <= k < |s| ==> IsJsWhitespace(s[k])
    ensures r != [] ==> !IsJsWhitespace(r[|r| - 1])
  {
    if s == [] || !IsJsWhitespace(s[|s| - 1]) then s else TrimEnd(s[..|s| - 1])
  }

  /** `s.trim()`: `s` without its leading and its trailing white space. */
  function Trim(s: string): (r: string)
    ensures r != [] ==> !IsJsWhitespace(r[0]) && !IsJsWhitespace(r[|r| - 1])
  {
    var t := TrimStart(s);
    var r := TrimEnd(t);
    assert r != [] ==> r[0] == t[0];
    r
  }

  /**
   * `s.trim()` is the slice of `s` that starts after its leading white space
   * and ends before its trailing white space.
   */
  lemma TrimSlice(s: string)
    ensures var r := Trim(s); var i := |s| - |TrimStart(s)|;
      && i + |r| <= |s|
      && r == s[i..i + |r|]
      && (forall k :: 0 <= k < i ==> IsJsWhitespace(s[k]))
      && (forall k :: i + |r| <= k < |s| ==> IsJsWhitespace(s[k]))
  {
    var t := TrimStart(s);
    var r := TrimEnd(t);
    var i := |s| - |t|;
    assert t == s[i..];
    assert r == t[..|r|];
    forall k | i + |r| <= k < |s| ensures IsJsWhitespace(s[k]) {
      assert s[k] == t[k - i];
    }
  }

  /** `!s.trim()` holds exactly for the strings made only of white space. */
  lemma TrimEmptyIffBlank(s: string)
    ensures Trim(s) == "" <==> Blank(s)
  {
    var t := TrimStart(s);
    if Trim(s) == "" {
      // A non-empty `t` would start with a character `TrimEnd` keeps.
      assert t == "";
    } else {
      var r := Trim(s);
      assert !IsJsWhitespace(r[0]);
      assert r[0] == t[0] == s[|s| - |t|];
    }
  }

  /** `s.length`: the number of UTF-16 code units, two for a character beyond the basic plane. */
  function Utf16Length(s: string): (n: nat)
    ensures |s| <= n <= 2 * |s|
    ensures (forall k :: 0 <= k < |s| ==> s[k] as int < 0x10000) ==> n == |s|
  {
    if s == [] then 0 else (if s[0] as int < 0x10000 then 1 else 2) + Utf16Length(s[1..])
  }

  /**
   * The checks of `handleSubmit` (frontend/src/components/Login.js:22-40),
   * in order: the first that fails gives the message, none failing gives
   * `None`. The two emptiness checks look at the trimmed fields; the `@`
   * check and the length check look at the fields as typed.
   */
  function Validate(email: string, password: string): (r: Option<string>)
    ensures r == Some(EmailRequired) <==> Blank(email)
    ensures r == Some(PasswordRequired) <==> !Blank(email) && Blank(password)
    ensures r == Some(InvalidEmail) <==> !Blank(email) && !Blank(password) && '@' !in email
    ensures r == Some(PasswordTooShort) <==>
      !Blank(email) && !Blank(password) && '@' in email && Utf16Length(password) < MinPasswordLength
    ensures r == None <==>
      !Blank(email) && !Blank(password) && '@' in email && Utf16Length(password) >= MinPasswordLength
  {
    TrimEmptyIffBlank(email);
    TrimEmptyIffBlank(password);
    if Trim(email) == "" then Some(EmailRequired)
    else if Trim(password) == "" then Some(PasswordRequired)
    else if '@' !in email then Some(InvalidEmail)
    else if Utf16Length(password) < MinPasswordLength then Some(PasswordTooShort)
    else None
  }

  /** The values the form starts with pass every check. */
  lemma InitialValuesPass()
    ensures Validate(InitialEmail, InitialPassword) == None
  {
    assert InitialEmail[4] == '@';
    assert !IsJsWhitespace(InitialEmail[0]) && !IsJsWhitespace(InitialPassword[0]);
  }

  /**
   * The length check counts the padding the emptiness check ignores: a
   * password of one letter padded to six characters passes, while six
   * spaces alone are "required".
   */
  lemma PaddingCountsTowardsLength()
    ensures Validate("a@b", "x     ") == None
    ensures Validate("a@b", "      ") == Some(PasswordRequired)
  {
    assert "a@b"[1] == '@' && !IsJsWhitespace("a@b"[0]);
    assert !IsJsWhitespace("x     "[0]);
  }

  /** The page's own state. */
  class LoginPage {
    var email: string
    var password: string
    var localError: string

    constructor ()
      ensures email == InitialEmail && password == InitialPassword && localError == ""
    {
      email, password, localError := InitialEmail, InitialPassword, "";
    }

    /** `localError || error` (frontend/src/components/Login.js:50): the page's own message wins when there is one. */
    function DisplayError(auth: AuthProvider): (r: Option<string>)
      reads this, auth
      ensures localError != "" ==> r == Some(localError)
      ensures localError == "" ==> r == auth.error
    {
      if localError != "" then Some(localError) else auth.error
    }

    /**
     * `handleSubmit` (frontend/src/components/Login.js:18-48): a failed
     * check sets the page's message and never reaches the provider;
     * otherwise the message is cleared and `login` is called with the fields
     * as typed, and `navigated` is whether the page then went to "/".
     */
    method HandleSubmit(auth: AuthProvider, api: (string, string) -> LoginResponse) returns (navigated: bool)
      modifies this, auth
      ensures email == old(email) && password == old(password)
      ensures var v := Validate(old(email), old(password));
        v.Some? ==> localError == v.value && auth.State() == old(auth.State()) && !navigated
      ensures var v := Validate(old(email), old(password));
        v.None? ==> localError == "" && (auth.State(), navigated) == AfterLogin(old(auth.State()), api(email, password))
      ensures DisplayError(auth) ==
        if Validate(old(email), old(password)).Some? then Validate(old(email), old(password)) else auth.error
    {
      var failure := Validate(email, password);
      if failure.Some? {
        localError := failure.value;
        return false;
      }
      localError := "";
      var success := auth.Login(email, password, api);
      navigated := success;
    }
  }
}
