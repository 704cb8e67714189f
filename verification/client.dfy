/**
 * The pure checks of the browser script (static/script.js): the email
 * pattern, password scoring and strength band, the name check, the order of
 * the signup form's checks, and the trim guard before a chat message is sent.
 * JavaScript lengths count UTF-16 code units, so `Utf16Length` stands for
 * `.length` throughout.
 */
module Client {
  import opened Maybe
  import opened Text
  import opened Accounts
  import opened Replies

  /** The characters of the class `[!@#$%^&*(),.?":{}|<>]`. */
  const SpecialChars: string := "!@#$%^&*(),.?\":{}|<>"

  const MinPasswordUnits: nat := 8
  const MinUsernameUnits: nat := 3
  const MinNameUnits: nat := 2

  predicate IsSpecial(c: char) {
    c in SpecialChars
  }

  /** A character `[^\s@]` matches. */
  predicate IsEmailChar(c: char) {
    !IsJsSpace(c) && c != '@'
  }

  /**
   * `/^[^\s@]+@[^\s@]+\.[^\s@]+$/` read as a shape: one '@' at `at` with a
   * non-empty part before it, a '.' at `dot` with non-empty parts on both sides
   * of it after the '@', and no other '@' or white space anywhere.
   */
  ghost predicate MatchesEmailPattern(s: string) {
    exists at, dot ::
      && 0 < at && at + 1 < dot && dot + 1 < |s|
      && s[at] == '@' && s[dot] == '.'
      && forall k :: 0 <= k < |s| && k != at ==> IsEmailChar(s[k])
  }

  /** The position of the first `c` in `s`. */
  function IndexOf(s: string, c: char): (r: Option<nat>)
    ensures r.Some? ==> r.value < |s| && s[r.value] == c && forall k :: 0 <= k < r.value ==> s[k] != c
    ensures r.None? ==> forall k :: 0 <= k < |s| ==> s[k] != c
  {
    if s == [] then None
    else if s[0] == c then Some(0)
    else match IndexOf(s[1..], c)
      case None => None
      case Some(k) => Some(k + 1)
  }

  /**
   * The pattern checked by splitting at the first '@': a non-empty local part
   * without white space, and a domain of pattern characters with a '.' that is
   * neither its first nor its last character.
   */
  predicate EmailSplits(s: string) {
    match IndexOf(s, '@')
    case None => false
    case Some(at) =>
      && at > 0
      && (forall k :: 0 <= k < at ==> !IsJsSpace(s[k]))
      && (forall k :: at < k < |s| ==> IsEmailChar(s[k]))
      && (exists d :: at + 1 < d < |s| - 1 && s[d] == '.')
  }

  /** The split at the first '@' accepts exactly the strings the pattern matches. */
  lemma EmailSplitMatchesPattern(s: string)
    ensures EmailSplits(s) <==> MatchesEmailPattern(s)
  {
    if EmailSplits(s) {
      var at := IndexOf(s, '@').value;
      var dot :| at + 1 < dot < |s| - 1 && s[dot] == '.';
      assert forall k :: 0 <= k < |s| && k != at ==> IsEmailChar(s[k]);
    }
    if MatchesEmailPattern(s) {
      var at, dot :|
        && 0 < at && at + 1 < dot && dot + 1 < |s|
        && s[at] == '@' && s[dot] == '.'
        && forall k :: 0 <= k < |s| && k != at ==> IsEmailChar(s[k]);
      var first := IndexOf(s, '@');
      assert first.Some?;
      assert s[first.value] == '@';
      assert first.value == at;
      assert at + 1 < dot < |s| - 1 && s[dot] == '.';
    }
  }

  /** validateEmail: true exactly for the strings the pattern matches. */
  function ValidateEmail(s: string): (r: bool)
    ensures r <==> MatchesEmailPattern(s)
  {
    EmailSplitMatchesPattern(s);
    EmailSplits(s)
  }

  /** 1 for a criterion that holds, 0 otherwise. */
  function Indicator(b: bool): nat {
    if b then 1 else 0
  }

  /** `flags.filter(Boolean).length`. */
  function CountTrue(flags: seq<bool>): nat {
    if flags == [] then 0 else Indicator(flags[0]) + CountTrue(flags[1..])
  }

  /** Counting five flags is adding their indicators. */
  lemma CountFive(a: bool, b: bool, c: bool, d: bool, e: bool)
    ensures CountTrue([a, b, c, d, e]) == Indicator(a) + Indicator(b) + Indicator(c) + Indicator(d) + Indicator(e)
  {
    assert [a, b, c, d, e][1..] == [b, c, d, e];
    assert [b, c, d, e][1..] == [c, d, e];
    assert [c, d, e][1..] == [d, e];
    assert [d, e][1..] == [e];
    assert [e][1..] == [];
    assert CountTrue([e]) == Indicator(e);
    assert CountTrue([d, e]) == Indicator(d) + CountTrue([e]);
    assert CountTrue([c, d, e]) == Indicator(c) + CountTrue([d, e]);
    assert CountTrue([b, c, d, e]) == Indicator(b) + CountTrue([c, d, e]);
  }

  /** Some character of `s` is in the class `cls`: what a `/[...]/.test(s)` finds. */
  predicate SomeCharIs(s: string, cls: char -> bool) {
    exists i :: 0 <= i < |s| && cls(s[i])
  }

  /** What validatePassword returns: the score and the five criteria. */
  datatype PasswordReport = PasswordReport(
    score: nat,
    minLength: bool,
    hasUpper: bool,
    hasLower: bool,
    hasNumber: bool,
    hasSpecial: bool)

  /** The five criteria of validatePassword; the score counts the ones that hold. */
  function ValidatePassword(p: string): (r: PasswordReport)
    ensures r.minLength <==> Utf16Length(p) >= MinPasswordUnits
    ensures r.hasUpper <==> SomeCharIs(p, IsAsciiUpper)
    ensures r.hasLower <==> SomeCharIs(p, IsAsciiLower)
    ensures r.hasNumber <==> SomeCharIs(p, IsAsciiDigit)
    ensures r.hasSpecial <==> SomeCharIs(p, IsSpecial)
    ensures r.score == Indicator(r.minLength) + Indicator(r.hasUpper) + Indicator(r.hasLower) + Indicator(r.hasNumber) + Indicator(r.hasSpecial)
  {
    Report(
      Utf16Length(p) >= MinPasswordUnits,
      SomeCharIs(p, IsAsciiUpper),
      SomeCharIs(p, IsAsciiLower),
      SomeCharIs(p, IsAsciiDigit),
      SomeCharIs(p, IsSpecial))
  }

  /** The report for five criteria, scored as `filter(Boolean).length` counts them. */
  function Report(minLength: bool, hasUpper: bool, hasLower: bool, hasNumber: bool, hasSpecial: bool): (r: PasswordReport)
    ensures r.minLength == minLength && r.hasUpper == hasUpper && r.hasLower == hasLower
    ensures r.hasNumber == hasNumber && r.hasSpecial == hasSpecial
    ensures r.score == Indicator(minLength) + Indicator(hasUpper) + Indicator(hasLower) + Indicator(hasNumber) + Indicator(hasSpecial)
  {
    CountFive(minLength, hasUpper, hasLower, hasNumber, hasSpecial);
    PasswordReport(CountTrue([minLength, hasUpper, hasLower, hasNumber, hasSpecial]), minLength, hasUpper, hasLower, hasNumber, hasSpecial)
  }

  /** The classes updatePasswordStrength sets: none for an empty field, then weak, medium or strong. */
  datatype Strength = Unrated | Weak | Medium | Strong

  /** updatePasswordStrength's banding: weak below 3, medium at 3 and 4, strong only when all five criteria hold. */
  function PasswordStrength(p: string): (r: Strength)
    ensures p == [] <==> r == Unrated
    ensures p != [] ==>
      var v := ValidatePassword(p);
      && (r == Weak <==> v.score < 3)
      && (r == Medium <==> 3 <= v.score < 5)
      && (r == Strong <==> v.minLength && v.hasUpper && v.hasLower && v.hasNumber && v.hasSpecial)
  {
    if p == [] then Unrated
    else
      var score := ValidatePassword(p).score;
      if score < 3 then Weak else if score < 5 then Medium else Strong
  }

  /** A character `[a-zA-Z\s]` matches. */
  predicate IsNameChar(c: char) {
    IsAsciiLetter(c) || IsJsSpace(c)
  }

  /**
   * validateName: at least two code units, all of them letters or white space.
   * Every such character is a single code unit, so this is the same as two
   * characters.
   */
  function ValidateName(name: string): (r: bool)
    ensures r <==> |name| >= MinNameUnits && forall i :: 0 <= i < |name| ==> IsNameChar(name[i])
  {
    Utf16Length(name) >= MinNameUnits && forall i :: 0 <= i < |name| ==> IsNameChar(name[i])
  }

  /** The first problem the signup form reports; each one stops the submission. */
  datatype SignupProblem = BadName | ShortUsername | BadEmail | ShortPassword | WeakPassword | Mismatch {
    function Message(): string {
      match this
      case BadName => "Please enter a valid full name (letters only, min 2 chars)"
      case ShortUsername => "Username must be at least 3 characters long"
      case BadEmail => "Please enter a valid email address"
      case ShortPassword => "Password must be at least 8 characters long"
      case WeakPassword => "Password is too weak. Include uppercase, lowercase, numbers, and special characters"
      case Mismatch => "Passwords do not match"
    }
  }

  /**
   * The checks of the signup form, in order: name, username length, email,
   * password length, password score, confirmation. `None` means the form is
   * sent to the server.
   */
  function SignupForm(fullName: string, username: string, email: string, password: string, confirm: string): (r: Option<SignupProblem>)
    ensures !ValidateName(fullName) ==> r == Some(BadName)
    ensures ValidateName(fullName) && Utf16Length(username) < MinUsernameUnits ==> r == Some(ShortUsername)
    ensures ValidateName(fullName) && Utf16Length(username) >= MinUsernameUnits ==>
      && (!ValidateEmail(email) ==> r == Some(BadEmail))
      && (ValidateEmail(email) && !ValidatePassword(password).minLength ==> r == Some(ShortPassword))
      && (ValidateEmail(email) && ValidatePassword(password).minLength && ValidatePassword(password).score < 3 ==> r == Some(WeakPassword))
      && (ValidateEmail(email) && ValidatePassword(password).minLength && ValidatePassword(password).score >= 3 && password != confirm ==> r == Some(Mismatch))
    ensures r.None? <==>
      && ValidateName(fullName) && Utf16Length(username) >= MinUsernameUnits && ValidateEmail(email)
      && ValidatePassword(password).minLength && ValidatePassword(password).score >= 3
      && password == confirm
  {
    if !ValidateName(fullName) then Some(BadName)
    else if Utf16Length(username) < MinUsernameUnits then Some(ShortUsername)
    else if !ValidateEmail(email) then Some(BadEmail)
    else if !ValidatePassword(password).minLength then Some(ShortPassword)
    else if ValidatePassword(password).score < 3 then Some(WeakPassword)
    else if password != confirm then Some(Mismatch)
    else None
  }

  /** A password the form lets through is shown as at least medium strength. */
  lemma AcceptedPasswordIsNotWeak(fullName: string, username: string, email: string, password: string, confirm: string)
    requires SignupForm(fullName, username, email, password, confirm).None?
    ensures PasswordStrength(password) in {Medium, Strong}
  {
  }

  /**
   * A form the client accepts passes every server-side signup check except
   * the duplicate-username one, provided the password has no character
   * outside the Basic Multilingual Plane (the client counts code units, the
   * server counts characters).
   */
  lemma AcceptedFormPassesServerChecks(users: Store.Directory, fullName: string, username: string, email: string, password: string, confirm: string)
    requires SignupForm(fullName, username, email, password, confirm).None?
    requires forall i :: 0 <= i < |password| ==> password[i] < '\U{10000}'
    ensures SignupCheck(users, username, Some(email), password, Some(confirm)) in {None, Some(UsernameTaken)}
  {
    assert Utf16Length(password) == |password|;
  }

  /**
   * Without that proviso the server can refuse what the client accepted: five
   * characters, two of them letters or digits and three emoji, are eight code
   * units for the client but fewer than six characters for the server.
   */
  const AstralPassword: string := "A1\U{1F600}\U{1F600}\U{1F600}"

  lemma AstralPasswordPassesClientOnly()
    ensures ValidatePassword(AstralPassword).minLength && ValidatePassword(AstralPassword).score >= 3
    ensures SignupCheck(map[], "alice", Some("a@b.co"), AstralPassword, Some(AstralPassword)) == Some(PasswordTooShort)
  {
    AstralPasswordPassesClient();
    AstralPasswordFailsServer();
  }

  /** The server's view: five characters, fewer than six. */
  lemma AstralPasswordFailsServer()
    ensures SignupCheck(map[], "alice", Some("a@b.co"), AstralPassword, Some(AstralPassword)) == Some(PasswordTooShort)
  {
  }

  /** The client's view of that password: long enough and scoring three. */
  lemma AstralPasswordPassesClient()
    ensures ValidatePassword(AstralPassword).minLength && ValidatePassword(AstralPassword).score >= 3
  {
    AstralUnits();
    assert IsAsciiUpper(AstralPassword[0]);
    assert IsAsciiDigit(AstralPassword[1]);
  }

  /** The password above is eight code units long. */
  lemma AstralUnits()
    ensures Utf16Length(AstralPassword) == 8
  {
    var p := AstralPassword;
    EmojiUnits();
    assert p[1..] == "1\U{1F600}\U{1F600}\U{1F600}";
    assert p[1..][1..] == "\U{1F600}\U{1F600}\U{1F600}";
  }

  /** Three emoji are six code units. */
  lemma EmojiUnits()
    ensures Utf16Length("\U{1F600}\U{1F600}\U{1F600}") == 6
  {
    var e := "\U{1F600}\U{1F600}\U{1F600}";
    assert e[1..] == "\U{1F600}\U{1F600}";
    assert e[1..][1..] == "\U{1F600}";
    assert e[1..][1..][1..] == "";
  }

  /** sendMessage's guard: nothing is sent for input that trims to empty; otherwise the trimmed text is sent. */
  function SendMessage(input: string): (r: Option<string>)
    ensures r.None? <==> forall i :: 0 <= i < |input| ==> IsJsSpace(input[i])
    ensures r.Some? ==> r.value == JsTrim(input) && r.value != [] && !IsJsSpace(r.value[0]) && !IsJsSpace(r.value[|r.value| - 1])
  {
    var message := JsTrim(input);
    TrimEmptyIffAllSpace(input, IsJsSpace);
    if message == [] then None else Some(message)
  }

  /**
   * A message the client sends also passes the server's blank check, unless it
   * consists only of the characters Python strips but JavaScript keeps
   * (U+001C to U+001F and U+0085).
   */
  lemma SentMessageIsNotBlankOnServer(input: string)
    requires SendMessage(input).Some?
    requires forall i :: 0 <= i < |input| ==> !('\U{1C}' <= input[i] <= '\U{1F}') && input[i] != '\U{85}'
    ensures !PyBlank(SendMessage(input).value)
  {
    var m := SendMessage(input).value;
    var lo := |input| - |TrimStart(input, IsJsSpace)|;
    assert m[0] == input[lo];
    PyBlankIffAllSpace(m);
  }

  /** The two blank checks do differ: U+001C is sent by the client and then refused by the server. */
  lemma ClientAndServerBlankDiffer()
    ensures SendMessage("\U{1C}") == Some("\U{1C}")
    ensures PyBlank("\U{1C}")
  {
    KeptCharIsSent('\U{1C}');
    PyBlankIffAllSpace("\U{1C}");
  }

  /** A single character JavaScript does not trim is sent as it is. */
  lemma KeptCharIsSent(c: char)
    requires !IsJsSpace(c)
    ensures SendMessage([c]) == Some([c])
  {
    var s := [c];
    TrimEmptyIffAllSpace(s, IsJsSpace);
    var r := JsTrim(s);
    assert r != [] && |r| <= 1;
    assert r == s[0..1];
  }
}
