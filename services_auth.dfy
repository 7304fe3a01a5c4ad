/** The authentication service (`AuthService` in src/services/auth.ts): the e-mail and
    password validators, the error-code table, the registry of auth-state listeners
    with its unsubscribe, the delivery of a state change to every listener, and the
    single shared instance. The provider's calls are not part of this model; a
    listener is known by an identity, and a delivery is recorded in a log. */
module AuthService {

  import opened Common
  import opened Text

  // ---------------------------------------------------------------------------
  // Password strength

  const TooShort: string := "Password must be at least 6 characters long"
  const NeedsLower: string := "Password must contain at least one lowercase letter"
  const NeedsUpper: string := "Password must contain at least one uppercase letter"
  const NeedsNumber: string := "Password must contain at least one number"
  const MinPasswordLength: nat := 6

  datatype PasswordCheck = PasswordCheck(valid: bool, message: Option<string>)

  predicate IsLowerAscii(c: char) { 'a' <= c <= 'z' }
  predicate IsUpperAscii(c: char) { 'A' <= c <= 'Z' }

  /** `/(?=.*[a-z])/.test(s)` and the two like it: some character of the class occurs. */
  predicate HasLower(s: string) { exists i :: 0 <= i < |s| && IsLowerAscii(s[i]) }
  predicate HasUpper(s: string) { exists i :: 0 <= i < |s| && IsUpperAscii(s[i]) }
  predicate HasDigit(s: string) { exists i :: 0 <= i < |s| && IsDigit(s[i]) }

  /** Whether some character satisfies the class, found by a scan from the left. */
  function Contains(s: string, lower: char, upper: char): (b: bool)
    ensures b <==> exists i :: 0 <= i < |s| && lower <= s[i] <= upper
  {
    if |s| == 0 then false
    else if lower <= s[0] <= upper then true
    else
      var b := Contains(s[1..], lower, upper);
      assert b ==> exists i :: 0 <= i < |s| && lower <= s[i] <= upper by {
        if b {
          var i :| 0 <= i < |s[1..]| && lower <= s[1..][i] <= upper;
          assert s[i + 1] == s[1..][i];
        }
      }
      assert (exists i :: 0 <= i < |s| && lower <= s[i] <= upper) ==> b by {
        if exists i :: 0 <= i < |s| && lower <= s[i] <= upper {
          var i :| 0 <= i < |s| && lower <= s[i] <= upper;
          assert i > 0 && s[1..][i - 1] == s[i];
        }
      }
      b
  }

  /** `isValidPassword(password)`: the checks run in order, length first, and the
      first that fails gives the message. */
  function IsValidPassword(password: string): (r: PasswordCheck)
    ensures r.valid <==> |password| >= MinPasswordLength && HasLower(password) && HasUpper(password) && HasDigit(password)
    ensures r.valid <==> r.message.None?
    ensures |password| < MinPasswordLength ==> r.message == Some(TooShort)
    ensures |password| >= MinPasswordLength && !HasLower(password) ==> r.message == Some(NeedsLower)
    ensures |password| >= MinPasswordLength && HasLower(password) && !HasUpper(password) ==> r.message == Some(NeedsUpper)
    ensures |password| >= MinPasswordLength && HasLower(password) && HasUpper(password) && !HasDigit(password) ==>
              r.message == Some(NeedsNumber)
  {
    if |password| < MinPasswordLength then PasswordCheck(false, Some(TooShort))
    else if !Contains(password, 'a', 'z') then PasswordCheck(false, Some(NeedsLower))
    else if !Contains(password, 'A', 'Z') then PasswordCheck(false, Some(NeedsUpper))
    else if !Contains(password, '0', '9') then PasswordCheck(false, Some(NeedsNumber))
    else PasswordCheck(true, None)
  }

  /** Adding characters never makes a valid password invalid. */
  lemma ValidPasswordExtends(password: string, more: string)
    requires IsValidPassword(password).valid
    ensures IsValidPassword(password + more).valid
  {
    var i :| 0 <= i < |password| && IsLowerAscii(password[i]);
    var j :| 0 <= j < |password| && IsUpperAscii(password[j]);
    var k :| 0 <= k < |password| && IsDigit(password[k]);
    var s := password + more;
    assert s[i] == password[i] && s[j] == password[j] && s[k] == password[k];
  }

  // ---------------------------------------------------------------------------
  // E-mail shape

  /** `[^\s@]+`: a non-empty run without white space or `@`. */
  predicate Part(t: string) {
    |t| > 0 && forall i :: 0 <= i < |t| ==> !IsSpace(t[i]) && t[i] != '@'
  }

  /** `^[^\s@]+@[^\s@]+\.[^\s@]+$`, read as the regular expression states it: a part,
      an `@`, a part, a dot and a part, covering the whole string. */
  ghost predicate MatchesEmailPattern(s: string) {
    exists a, b :: 0 <= a < b < |s| && s[a] == '@' && s[b] == '.' &&
                   Part(s[..a]) && Part(s[a + 1..b]) && Part(s[b + 1..])
  }

  /** Index of the first occurrence of `c`, or `|s|`. */
  function IndexOf(s: string, c: char): (i: nat)
    ensures i <= |s|
    ensures i < |s| ==> s[i] == c
    ensures forall j :: 0 <= j < i ==> s[j] != c
  {
    if |s| == 0 then 0
    else if s[0] == c then 0
    else 1 + IndexOf(s[1..], c)
  }

  /** No white space and no `@` anywhere. */
  predicate Plain(t: string) {
    forall i :: 0 <= i < |t| ==> !IsSpace(t[i]) && t[i] != '@'
  }

  /** `isValidEmail(email)`, computed directly: one `@` with a non-empty plain text in
      front, and after it a plain domain holding a dot that is neither its first nor
      its last character. */
  function IsValidEmail(email: string): (b: bool) {
    var at := IndexOf(email, '@');
    if at == 0 || at >= |email| then false
    else
      var domain := email[at + 1..];
      Plain(email[..at]) && Plain(domain) && |domain| >= 3 && IndexOf(domain[1..|domain| - 1], '.') < |domain| - 2
  }

  /** Every string the direct computation accepts matches the regular expression. */
  lemma ValidEmailMatches(email: string)
    requires IsValidEmail(email)
    ensures MatchesEmailPattern(email)
  {
    var at := IndexOf(email, '@');
    var domain := email[at + 1..];
    var inner := domain[1..|domain| - 1];
    var k := IndexOf(inner, '.');
    var b := at + 2 + k;
    assert email[b] == inner[k];
    assert email[at + 1..b] == domain[..k + 1];
    assert email[b + 1..] == domain[k + 2..];
    assert Part(email[..at]);
    assert Part(email[at + 1..b]);
    assert Part(email[b + 1..]);
  }

  /** Every string the regular expression matches is accepted. */
  lemma MatchIsValidEmail(email: string, a: nat, b: nat)
    requires a < b < |email| && email[a] == '@' && email[b] == '.'
    requires Part(email[..a]) && Part(email[a + 1..b]) && Part(email[b + 1..])
    ensures IsValidEmail(email)
  {
    assert forall j :: 0 <= j < a ==> email[j] == email[..a][j];
    var at := IndexOf(email, '@');
    assert at == a;
    var domain := email[at + 1..];
    forall j | 0 <= j < |domain|
      ensures !IsSpace(domain[j]) && domain[j] != '@'
    {
      if j < b - a - 1 {
        assert domain[j] == email[a + 1..b][j];
      } else if j > b - a - 1 {
        assert domain[j] == email[b + 1..][j - (b - a)];
      }
    }
    var inner := domain[1..|domain| - 1];
    assert inner[b - a - 2] == '.';
  }

  /** The direct computation accepts exactly the strings the regular expression matches. */
  lemma IsValidEmailMatchesPattern(email: string)
    ensures IsValidEmail(email) <==> MatchesEmailPattern(email)
  {
    if IsValidEmail(email) {
      ValidEmailMatches(email);
    }
    if MatchesEmailPattern(email) {
      var a, b :| 0 <= a < b < |email| && email[a] == '@' && email[b] == '.' &&
                  Part(email[..a]) && Part(email[a + 1..b]) && Part(email[b + 1..]);
      MatchIsValidEmail(email, a, b);
    }
  }

  // ---------------------------------------------------------------------------
  // Error codes

  const UnexpectedError: string := "An unexpected error occurred"

  /** `errorMessages[code]`: the table's message for a provider error code. */
  function AuthErrorText(code: string): Option<string> {
    if code == "auth/email-already-in-use" then Some("This email is already registered. Please use a different email or try logging in.")
    else if code == "auth/weak-password" then Some("Password is too weak. Please use at least 6 characters.")
    else if code == "auth/invalid-email" then Some("Please enter a valid email address.")
    else if code == "auth/user-not-found" then Some("No account found with this email. Please check your email or create a new account.")
    else if code == "auth/wrong-password" then Some("Incorrect password. Please try again or reset your password.")
    else if code == "auth/too-many-requests" then Some("Too many failed attempts. Please try again later.")
    else if code == "auth/network-request-failed" then Some("Network error. Please check your connection and try again.")
    else if code == "auth/user-disabled" then Some("This account has been disabled. Please contact support.")
    else if code == "auth/invalid-credential" then Some("Invalid credentials. Please check your email and password.")
    else if code == "auth/operation-not-allowed" then Some("This operation is not allowed. Please contact support.")
    else if code == "auth/requires-recent-login" then Some("Please log in again to perform this action.")
    else None
  }

  /** `handleAuthError(error)`: the message of the error it rethrows, the table's
      entry for the code, else the error's own message, else a generic one; each
      alternative is taken only when it is a non-empty string. */
  function HandleAuthError(code: Option<string>, message: Option<string>): (r: string)
    ensures r != ""
    ensures code.Some? && Truthy(AuthErrorText(code.value)) ==> r == AuthErrorText(code.value).value
    ensures (code.None? || !Truthy(AuthErrorText(code.value))) ==> r == OrElse(message, UnexpectedError)
    ensures !Truthy(message) && (code.None? || AuthErrorText(code.value).None?) ==> r == UnexpectedError
  {
    var entry := if code.Some? then AuthErrorText(code.value) else None;
    OrElse(entry, OrElse(message, UnexpectedError))
  }

  // ---------------------------------------------------------------------------
  // Listener registry

  /** A listener callback, known by its identity (callbacks compare by reference). */
  type Callback = nat

  datatype User = User(uid: string, email: Option<string>, displayName: Option<string>,
                       photoUrl: Option<string>, emailVerified: bool, createdAt: Option<string>)

  /** One call of a listener with the user it was given. */
  datatype Delivery = Delivery(listener: Callback, user: Option<User>)

  /** `indexOf` then `splice(index, 1)`: drops the first occurrence, if any. */
  function RemoveFirst(s: seq<Callback>, x: Callback): (r: seq<Callback>)
    ensures x !in s ==> r == s
    ensures x in s ==> |r| == |s| - 1
    ensures multiset(r) == multiset(s) - multiset{x}
  {
    if |s| == 0 then []
    else if s[0] == x then
      assert s == [s[0]] + s[1..];
      s[1..]
    else
      assert s == [s[0]] + s[1..];
      [s[0]] + RemoveFirst(s[1..], x)
  }

  /** Unsubscribing right after subscribing a new callback restores the registry. */
  lemma {:induction false} SubscribeThenUnsubscribe(s: seq<Callback>, x: Callback)
    requires x !in s
    ensures RemoveFirst(s + [x], x) == s
  {
    if |s| == 0 {
      assert s + [x] == [x];
    } else {
      assert (s + [x])[0] == s[0];
      assert (s + [x])[1..] == s[1..] + [x];
      SubscribeThenUnsubscribe(s[1..], x);
      assert s == [s[0]] + s[1..];
    }
  }

  /** A callback registered once is gone after one unsubscribe, so calling the same
      unsubscribe again changes nothing. */
  lemma UnsubscribeTwice(s: seq<Callback>, x: Callback)
    requires multiset(s)[x] == 1
    ensures x !in RemoveFirst(s, x)
    ensures RemoveFirst(RemoveFirst(s, x), x) == RemoveFirst(s, x)
  {
    assert multiset(RemoveFirst(s, x))[x] == 0;
  }

  /** Unsubscribing leaves the other callbacks in their order: all before the first
      occurrence, and all after it. */
  lemma {:induction false} RemoveFirstKeepsOrder(s: seq<Callback>, x: Callback, i: nat)
    requires i < |s| && s[i] == x && x !in s[..i]
    ensures RemoveFirst(s, x) == s[..i] + s[i + 1..]
  {
    if i > 0 {
      assert s[1..][..i - 1] == s[..i][1..];
      RemoveFirstKeepsOrder(s[1..], x, i - 1);
      assert s[..i] == [s[0]] + s[1..][..i - 1];
      assert s[i + 1..] == s[1..][i..];
    }
  }

  class AuthService {
    var listeners: seq<Callback>

    constructor ()
      ensures listeners == []
    {
      listeners := [];
    }

    /** `onAuthStateChange(callback)`: registers the callback at the end; the
        unsubscribe it returns is `Unsubscribe(callback)`. */
    method OnAuthStateChange(callback: Callback)
      modifies this
      ensures listeners == old(listeners) + [callback]
    {
      listeners := listeners + [callback];
    }

    /** The unsubscribe function returned for `callback`. */
    method Unsubscribe(callback: Callback)
      modifies this
      ensures listeners == RemoveFirst(old(listeners), callback)
    {
      var index := IndexOfCallback(listeners, callback);
      if index > -1 {
        RemoveFirstKeepsOrder(listeners, callback, index);
        listeners := listeners[..index] + listeners[index + 1..];
      }
    }

    /** The provider's state-change handler: every registered listener is called with
        the user, in registration order. */
    method NotifyAll(user: Option<User>) returns (log: seq<Delivery>)
      ensures |log| == |listeners|
      ensures forall i :: 0 <= i < |log| ==> log[i] == Delivery(listeners[i], user)
    {
      log := [];
      for i := 0 to |listeners|
        invariant |log| == i
        invariant forall j :: 0 <= j < i ==> log[j] == Delivery(listeners[j], user)
      {
        log := log + [Delivery(listeners[i], user)];
      }
    }
  }

  /** `indexOf(callback)`: the first position, or -1. */
  function IndexOfCallback(s: seq<Callback>, x: Callback): (i: int)
    ensures -1 <= i < |s|
    ensures i >= 0 ==> s[i] == x && x !in s[..i]
    ensures i == -1 ==> x !in s
  {
    if |s| == 0 then -1
    else if s[0] == x then 0
    else
      var k := IndexOfCallback(s[1..], x);
      if k == -1 then -1
      else
        assert s[..k + 1] == [s[0]] + s[1..][..k];
        k + 1
  }

  /** The holder of the single shared instance (`AuthService.instance`). */
  class Singleton {
    var instance: AuthService?

    constructor ()
      ensures instance == null
    {
      instance := null;
    }

    /** `getInstance()`: creates the instance on the first call and returns the same
        one on every later call. */
    method GetInstance() returns (service: AuthService)
      modifies this
      ensures instance == service
      ensures old(instance) != null ==> service == old(instance)
      ensures old(instance) == null ==> fresh(service) && service.listeners == []
    {
      if instance == null {
        instance := new AuthService();
      }
      service := instance;
    }
  }
}
