/** The input rules of the login screen (app/login.tsx): the blank check, the username-to-email
    rule, and the state changes of the login handler. */
module Login {

  datatype Option<T> = None | Some(value: T)

  /** The code points that JavaScript's `String.prototype.trim` removes: the ECMAScript
      WhiteSpace and LineTerminator characters. */
  predicate IsWhiteSpace(c: char) {
    c == '\t' || c == '\n' || c == '\U{000B}' || c == '\U{000C}' || c == '\r' || c == ' '
    || c == '\U{00A0}' || c == '\U{1680}' || ('\U{2000}' <= c <= '\U{200A}')
    || c == '\U{2028}' || c == '\U{2029}' || c == '\U{202F}' || c == '\U{205F}'
    || c == '\U{3000}' || c == '\U{FEFF}'
  }

  predicate AllWhiteSpace(s: string) {
    forall k :: 0 <= k < |s| ==> IsWhiteSpace(s[k])
  }

  /** `r` sits at offset `lo` of `s`, and everything of `s` before and after it is whitespace. */
  predicate Pads(s: string, lo: nat, r: string) {
    && lo + |r| <= |s|
    && s[lo..lo + |r|] == r
    && (forall k :: 0 <= k < lo ==> IsWhiteSpace(s[k]))
    && (forall k :: lo + |r| <= k < |s| ==> IsWhiteSpace(s[k]))
  }

  /** The number of whitespace characters at the front of `s`. */
  function LeadingSpace(s: string): (n: nat)
    ensures n <= |s|
    ensures forall k :: 0 <= k < n ==> IsWhiteSpace(s[k])
    ensures n < |s| ==> !IsWhiteSpace(s[n])
    decreases |s|
  {
    if s == [] || !IsWhiteSpace(s[0]) then 0 else 1 + LeadingSpace(s[1..])
  }

  /** The number of whitespace characters at the back of `s`. */
  function TrailingSpace(s: string): (n: nat)
    ensures n <= |s|
    ensures forall k :: |s| - n <= k < |s| ==> IsWhiteSpace(s[k])
    ensures n < |s| ==> !IsWhiteSpace(s[|s| - 1 - n])
    decreases |s|
  {
    if s == [] || !IsWhiteSpace(s[|s| - 1]) then 0 else 1 + TrailingSpace(s[..|s| - 1])
  }

  /** `s.trim()`: the longest stretch of `s` that neither starts nor ends with whitespace, once
      the whitespace on both sides is removed; empty when `s` is all whitespace. */
  function Trim(s: string): (r: string)
    ensures r == [] <==> AllWhiteSpace(s)
    ensures r != [] ==> !IsWhiteSpace(r[0]) && !IsWhiteSpace(r[|r| - 1])
    ensures exists lo: nat :: Pads(s, lo, r)
  {
    var lead := LeadingSpace(s);
    if lead == |s| then
      assert Pads(s, 0, []);
      []
    else
      var trail := TrailingSpace(s);
      assert lead < |s| - trail;
      var r := s[lead..|s| - trail];
      assert Pads(s, lead, r);
      r
  }

  /** Trimming drops whitespace only: a character that is not whitespace occurs in `trim(s)`
      exactly when it occurs in `s`. */
  lemma TrimKeepsNonWhiteSpace(s: string, c: char)
    requires !IsWhiteSpace(c)
    ensures c in Trim(s) <==> c in s
  {
    var r := Trim(s);
    var lo: nat :| Pads(s, lo, r);
    if c in s {
      var k :| 0 <= k < |s| && s[k] == c;
      assert lo <= k < lo + |r|;
      assert r[k - lo] == c;
    }
    if c in r {
      var j :| 0 <= j < |r| && r[j] == c;
      assert s[lo + j] == c;
    }
  }

  /** A string that neither starts nor ends with whitespace is its own trim. */
  lemma TrimOfUnpadded(t: string)
    requires t == [] || (!IsWhiteSpace(t[0]) && !IsWhiteSpace(t[|t| - 1]))
    ensures Trim(t) == t
  {
    if t != [] {
      assert LeadingSpace(t) == 0;
      assert TrailingSpace(t) == 0;
      assert t[0..|t|] == t;
    }
  }

  /** Trimming twice is trimming once. */
  lemma TrimIdempotent(s: string)
    ensures Trim(Trim(s)) == Trim(s)
  {
    TrimOfUnpadded(Trim(s));
  }

  const EmailDomain: string := "@pavitram.app"

  /** The email a username stands for: the trimmed username when it already holds an `@`,
      otherwise the trimmed username followed by the app's domain. The `@` test is made on the
      untrimmed username; trimming never adds or removes an `@`. */
  function DeriveEmail(username: string): (email: string)
    ensures '@' in email
    ensures |Trim(username)| <= |email| && email[..|Trim(username)|] == Trim(username)
    ensures '@' in username <==> '@' in Trim(username)
    ensures '@' in username ==> email == Trim(username)
    ensures '@' !in username ==> email[|Trim(username)|..] == EmailDomain
  {
    TrimKeepsNonWhiteSpace(username, '@');
    if '@' in username then Trim(username)
    else
      var email := Trim(username) + EmailDomain;
      assert email[|Trim(username)|] == '@';
      email
  }

  /** The derived email carries no surrounding whitespace. */
  lemma DerivedEmailIsTrimmed(username: string)
    ensures Trim(DeriveEmail(username)) == DeriveEmail(username)
  {
    var t := Trim(username);
    if '@' in username {
      TrimIdempotent(username);
    } else {
      var email := t + EmailDomain;
      assert email[|email| - 1] == 'p';
      assert email[0] == if t == [] then '@' else t[0];
      TrimOfUnpadded(email);
    }
  }

  /** Deriving the email of a derived email changes nothing. */
  lemma DeriveEmailIdempotent(username: string)
    ensures DeriveEmail(DeriveEmail(username)) == DeriveEmail(username)
  {
    DerivedEmailIsTrimmed(username);
  }

  const BlankInputMessage: string := "Please enter username and password."
  const LoginFailedMessage: string := "Invalid username or password."

  /** The blank check: an error exactly when the username or the password is empty once trimmed. */
  function ValidateInput(username: string, password: string): (error: Option<string>)
    ensures error.Some? <==> AllWhiteSpace(username) || AllWhiteSpace(password)
    ensures error.Some? ==> error.value == BlankInputMessage
  {
    if Trim(username) == [] || Trim(password) == [] then Some(BlankInputMessage) else None
  }

  datatype Credentials = Credentials(email: string, password: string)

  /** The handler's `if (loginError)` test on a `string | null`: only a non-empty error message is
      truthy, so neither null nor the empty string counts as a failed sign-in. */
  predicate IsLoginFailure(loginError: Option<string>) {
    loginError.Some? && loginError.value != ""
  }

  /** The part of the login screen's state that the login handler reads and writes. */
  class LoginScreen {
    var username: string
    var password: string
    var error: string
    var loading: bool
    var atHome: bool

    constructor ()
      ensures username == "" && password == "" && error == "" && !loading && !atHome
    {
      username, password, error, loading, atHome := "", "", "", false, false;
    }

    /** `handleLogin`. `signIn` stands for the identity provider's sign-in call: it maps the
        credentials sent to an error message, or to None (null) when sign-in succeeds. The result is the
        credentials that were sent, or None when the blank check stopped the attempt. */
    method HandleLogin(signIn: Credentials -> Option<string>) returns (attempt: Option<Credentials>)
      modifies this
      ensures username == old(username) && password == old(password)
      ensures ValidateInput(username, password).Some? ==>
        && attempt == None
        && error == BlankInputMessage
        && loading == old(loading) && atHome == old(atHome)
      ensures ValidateInput(username, password).None? ==>
        && attempt == Some(Credentials(DeriveEmail(username), password))
        && !loading
        && (IsLoginFailure(signIn(attempt.value)) ==> error == LoginFailedMessage && atHome == old(atHome))
        && (!IsLoginFailure(signIn(attempt.value)) ==> error == "" && atHome)
    {
      error := "";
      var blank := ValidateInput(username, password);
      if blank.Some? {
        error := blank.value;
        return None;
      }
      loading := true;
      var email := DeriveEmail(username);
      var credentials := Credentials(email, password);
      var loginError := signIn(credentials);
      loading := false;
      if IsLoginFailure(loginError) {
        error := LoginFailedMessage;
      } else {
        atHome := true;
      }
      attempt := Some(credentials);
    }
  }
}
