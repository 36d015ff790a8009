/** LoginModal.jsx: the sign-in form. Submitting checks the email for being
    blank and then against `^[^\s@]+@[^\s@]+\.[^\s@]+$`, and hands the
    trimmed email to the `onLogin` callback. */
module Login {
  import opened Js

  const BlankEmail := "Please enter your email address"
  const MalformedEmail := "Please enter a valid email address"
  const LoginFailed := "Login failed. Please try again."

  /** Every character is in the class `[^\s@]`. */
  predicate Plain(s: string) {
    forall k :: 0 <= k < |s| ==> !IsSpace(s[k]) && s[k] != '@'
  }

  /** The regular expression `^[^\s@]+@[^\s@]+\.[^\s@]+$` read as a language:
      the text splits as local part, '@', host, '.', suffix, where all three
      parts are non-empty and free of whitespace and '@'. */
  ghost predicate MatchesEmailRegex(s: string) {
    exists at, dot ::
      && 0 < at && at + 1 < dot && dot + 1 < |s|
      && s[at] == '@' && s[dot] == '.'
      && Plain(s[..at]) && Plain(s[at + 1..dot]) && Plain(s[dot + 1..])
  }

  /** The executable check: one '@' with a non-empty plain local part, and a
      plain domain holding a '.' with at least one character on each side. */
  predicate IsEmail(s: string) {
    var at := IndexOf(s, '@');
    && 0 < at < |s|
    && Plain(s[..at]) && Plain(s[at + 1..])
    && at + 2 < |s| - 1 && '.' in s[at + 2..|s| - 1]
  }

  /** Whatever the check accepts, the regular expression matches. */
  lemma EmailCheckSound(s: string)
    requires IsEmail(s)
    ensures MatchesEmailRegex(s)
  {
    var at := IndexOf(s, '@');
    var mid := s[at + 2..|s| - 1];
    var i :| 0 <= i < |mid| && mid[i] == '.';
    var dot := at + 2 + i;
    assert s[dot] == '.';
    var domain := s[at + 1..];
    assert Plain(domain);
    assert s[at + 1..dot] == domain[..dot - at - 1];
    assert s[dot + 1..] == domain[dot - at..];
  }

  /** Whatever the regular expression matches, the check accepts. */
  lemma EmailCheckComplete(s: string)
    requires MatchesEmailRegex(s)
    ensures IsEmail(s)
  {
    var at, dot :| && 0 < at && at + 1 < dot && dot + 1 < |s|
                   && s[at] == '@' && s[dot] == '.'
                   && Plain(s[..at]) && Plain(s[at + 1..dot]) && Plain(s[dot + 1..]);
    EmailFromParts(s, at, dot);
  }

  /** The check accepts a local part, '@', host, '.', suffix split. */
  lemma EmailFromParts(s: string, at: nat, dot: nat)
    requires 0 < at && at + 1 < dot && dot + 1 < |s|
    requires s[at] == '@' && s[dot] == '.'
    requires Plain(s[..at]) && Plain(s[at + 1..dot]) && Plain(s[dot + 1..])
    ensures IsEmail(s)
  {
    FirstAt(s, at);
    var domain := s[at + 1..];
    assert domain == s[at + 1..dot] + [s[dot]] + s[dot + 1..];
    PlainAround(s[at + 1..dot], s[dot], s[dot + 1..]);
    assert Plain(domain);
    var mid := s[at + 2..|s| - 1];
    assert mid[dot - at - 2] == '.';
  }

  /** The '@' that ends a plain local part is the first one. */
  lemma FirstAt(s: string, at: nat)
    requires at < |s| && s[at] == '@' && Plain(s[..at])
    ensures IndexOf(s, '@') == at
  {
    assert forall k :: 0 <= k < at ==> s[..at][k] == s[k];
  }

  /** Two plain texts around a plain character make a plain text. */
  lemma PlainAround(x: string, c: char, y: string)
    requires Plain(x) && Plain(y) && !IsSpace(c) && c != '@'
    ensures Plain(x + [c] + y)
  {
    var z := x + [c] + y;
    forall k | 0 <= k < |z| ensures !IsSpace(z[k]) && z[k] != '@' {
      if k < |x| {
        assert z[k] == x[k];
      } else if k > |x| {
        assert z[k] == y[k - |x| - 1];
      }
    }
  }

  /** The check accepts exactly the strings the regular expression matches. */
  lemma EmailCheckIsRegex(s: string)
    ensures IsEmail(s) <==> MatchesEmailRegex(s)
  {
    if IsEmail(s) {
      EmailCheckSound(s);
    }
    if MatchesEmailRegex(s) {
      EmailCheckComplete(s);
    }
  }

  /** The outcome of the two checks of `handleSubmit`. */
  datatype Verdict = Accept(email: string) | Reject(message: string)

  /** Blank text is rejected as missing, text whose trimmed form does not
      match the pattern as malformed; otherwise the trimmed text is accepted.
      An accepted email is never blank and always matches the pattern. */
  function CheckEmail(email: string): (v: Verdict)
    ensures v.Accept? <==> !IsBlank(email) && MatchesEmailRegex(Trim(email))
    ensures v.Accept? ==> v.email == Trim(email) && !IsBlank(v.email) && MatchesEmailRegex(v.email)
    ensures v.Reject? ==> v.message == (if IsBlank(email) then BlankEmail else MalformedEmail)
  {
    EmailCheckIsRegex(Trim(email));
    TrimIdempotent(email);
    if Trim(email) == "" then Reject(BlankEmail)
    else if !IsEmail(Trim(email)) then Reject(MalformedEmail)
    else Accept(Trim(email))
  }

  /** A text without '@' such as "not-an-email" is refused as malformed. */
  lemma NotAnEmailRejected()
    ensures CheckEmail("not-an-email") == Reject(MalformedEmail)
  {
    var s := "not-an-email";
    TrimNoSpace(s);
    assert '@' !in s;
  }

  class LoginModal {
    var email: string
    var isSubmitting: bool
    var error: string

    constructor ()
      ensures email == "" && !isSubmitting && error == ""
    {
      email, isSubmitting, error := "", false, "";
    }

    /** Typing in the email field. */
    method SetEmail(text: string)
      modifies this
      ensures email == text && isSubmitting == old(isSubmitting) && error == old(error)
    {
      email := text;
    }

    /** `handleSubmit`: `login` is what `onLogin` receives, if it is called;
        `callbackThrows` says whether the awaited login step throws. */
    method HandleSubmit(callbackThrows: bool) returns (login: Option<string>)
      modifies this
      ensures email == old(email)
      ensures CheckEmail(email).Reject? ==>
                login == None && error == CheckEmail(email).message && isSubmitting == old(isSubmitting)
      ensures CheckEmail(email).Accept? ==>
                && login == Some(Trim(email)) && !isSubmitting
                && error == (if callbackThrows then LoginFailed else "")
    {
      if Trim(email) == "" {
        error := BlankEmail;
        return None;
      }
      if !IsEmail(Trim(email)) {
        error := MalformedEmail;
        return None;
      }
      isSubmitting := true;
      error := "";
      login := Some(Trim(email));
      if callbackThrows {
        error := LoginFailed;
      }
      isSubmitting := false;
    }

    /** The sign-in button is disabled while submitting or while the email
        is blank; an enabled button never leads to the "missing email"
        error. */
    function SubmitDisabled(): (disabled: bool)
      reads this
      ensures disabled <==> isSubmitting || AllSpace(email)
      ensures !disabled ==> CheckEmail(email) != Reject(BlankEmail)
    {
      isSubmitting || Trim(email) == ""
    }
  }
}
