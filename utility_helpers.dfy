/** The front end's string helpers: the whitespace and length rules of JavaScript strings, trimming,
    the e-mail pattern, and the e-mail, password, name and role helpers built on them. */
module UtilityHelpers {
  import opened Wrappers
  import UserModel

  /** A JavaScript value as far as the helpers look at it: a string, or anything else. */
  datatype JsValue = JsString(s: string) | JsNonString

  /** The characters JavaScript counts as white space or line terminators: what `\s` matches and
      what `trim` removes. */
  predicate IsJsSpace(c: char)
  {
    c == '\t' || c == '\n' || c == '\U{000B}' || c == '\U{000C}' || c == '\r' || c == ' '
    || c == '\U{00A0}' || c == '\U{1680}' || ('\U{2000}' <= c <= '\U{200A}')
    || c == '\U{2028}' || c == '\U{2029}' || c == '\U{202F}' || c == '\U{205F}'
    || c == '\U{3000}' || c == '\U{FEFF}'
  }

  /** The `length` of a JavaScript string: characters outside the Basic Multilingual Plane take two
      UTF-16 code units. */
  function JsLength(s: string): (n: nat)
    ensures |s| <= n <= 2 * |s|
    ensures (forall k :: 0 <= k < |s| ==> s[k] as int < 0x10000) ==> n == |s|
  {
    if s == [] then 0 else (if s[0] as int < 0x10000 then 1 else 2) + JsLength(s[1..])
  }

  /** `trimStart`: the string without its leading white space. */
  function TrimStart(s: string): (t: string)
    ensures |t| <= |s| && t == s[|s| - |t|..]
    ensures forall k :: 0 <= k < |s| - |t| ==> IsJsSpace(s[k])
    ensures t == [] || !IsJsSpace(t[0])
  {
    if s != [] && IsJsSpace(s[0]) then TrimStart(s[1..]) else s
  }

  /** `trimEnd`: the string without its trailing white space. */
  function TrimEnd(s: string): (t: string)
    ensures |t| <= |s| && t == s[..|t|]
    ensures forall k :: |t| <= k < |s| ==> IsJsSpace(s[k])
    ensures t == [] || !IsJsSpace(t[|t| - 1])
  {
    if s != [] && IsJsSpace(s[|s| - 1]) then TrimEnd(s[..|s| - 1]) else s
  }

  /** `trim`: the string without leading or trailing white space. */
  function Trim(s: string): (t: string)
    ensures t == [] || (!IsJsSpace(t[0]) && !IsJsSpace(t[|t| - 1]))
  {
    TrimEnd(TrimStart(s))
  }

  /** A string without white space at either end is its own trim. */
  lemma TrimOfTrimmed(s: string)
    requires s == [] || (!IsJsSpace(s[0]) && !IsJsSpace(s[|s| - 1]))
    ensures TrimStart(s) == s && TrimEnd(s) == s && Trim(s) == s
  {
  }

  /** Leading white space does not change what `trimStart` returns. */
  lemma {:induction false} TrimStartSkipsSpaces(s: string, n: nat)
    requires n <= |s|
    requires forall k :: 0 <= k < n ==> IsJsSpace(s[k])
    ensures TrimStart(s) == TrimStart(s[n..])
    decreases n
  {
    if n > 0 {
      assert s[1..][n - 1..] == s[n..];
      TrimStartSkipsSpaces(s[1..], n - 1);
    }
  }

  /** Trailing white space does not change what `trimEnd` returns. */
  lemma {:induction false} TrimEndSkipsSpaces(s: string, n: nat)
    requires n <= |s|
    requires forall k :: |s| - n <= k < |s| ==> IsJsSpace(s[k])
    ensures TrimEnd(s) == TrimEnd(s[..|s| - n])
    decreases n
  {
    if n > 0 {
      assert s[..|s| - 1][..|s| - n] == s[..|s| - n];
      TrimEndSkipsSpaces(s[..|s| - 1], n - 1);
    }
  }

  /** `trimStart` removes exactly a white-space prefix in front of a non-space character. */
  lemma TrimStartOfPadded(before: string, rest: string)
    requires forall k :: 0 <= k < |before| ==> IsJsSpace(before[k])
    requires rest != [] && !IsJsSpace(rest[0])
    ensures TrimStart(before + rest) == rest
  {
    assert (before + rest)[|before|..] == rest;
    TrimStartSkipsSpaces(before + rest, |before|);
  }

  /** `trimEnd` removes exactly a white-space suffix behind a non-space character. */
  lemma TrimEndOfPadded(rest: string, after: string)
    requires forall k :: 0 <= k < |after| ==> IsJsSpace(after[k])
    requires rest != [] && !IsJsSpace(rest[|rest| - 1])
    ensures TrimEnd(rest + after) == rest
  {
    var s := rest + after;
    assert forall k :: |s| - |after| <= k < |s| ==> s[k] == after[k - |rest|];
    assert s[..|s| - |after|] == rest;
    TrimEndSkipsSpaces(s, |after|);
  }

  // ---------------------------------------------------------------- e-mail pattern

  /** What `[^\s@]` matches. */
  predicate Plain(c: char)
  {
    !IsJsSpace(c) && c != '@'
  }

  predicate AllPlain(t: string)
  {
    forall k :: 0 <= k < |t| ==> Plain(t[k])
  }

  /** The pattern `^[^\s@]+@[^\s@]+\.[^\s@]+$`: some `@` and some later `.` split the string into three
      non-empty runs with neither white space nor `@`. */
  predicate MatchesEmailPattern(s: string)
  {
    exists at, dot :: 0 < at && at + 1 < dot && dot + 1 < |s| && s[at] == '@' && s[dot] == '.'
                      && AllPlain(s[..at]) && AllPlain(s[at + 1..dot]) && AllPlain(s[dot + 1..])
  }

  predicate NoSpace(s: string)
  {
    forall k :: 0 <= k < |s| ==> !IsJsSpace(s[k])
  }

  /** `at` is the position of the only `@` in `s`. */
  predicate OnlyAtSign(s: string, at: int)
  {
    0 <= at < |s| && s[at] == '@' && forall k :: 0 <= k < |s| && s[k] == '@' ==> k == at
  }

  /** A `.` inside the domain that follows position `at`, neither its first nor its last character. */
  predicate InnerDot(s: string, at: int)
  {
    exists dot :: 0 <= at && at + 1 < dot < |s| - 1 && s[dot] == '.'
  }

  /** The shape the pattern accepts, said directly: no white space, exactly one `@` and not first,
      and a `.` inside the domain that is neither its first nor its last character. */
  predicate WellFormedAddress(s: string)
  {
    NoSpace(s) && exists at :: 0 < at < |s| && OnlyAtSign(s, at) && InnerDot(s, at)
  }

  /** The pattern accepts exactly the well-formed addresses. */
  lemma EmailPatternCharacterized(s: string)
    ensures MatchesEmailPattern(s) <==> WellFormedAddress(s)
  {
    if MatchesEmailPattern(s) {
      var at, dot :| 0 < at && at + 1 < dot && dot + 1 < |s| && s[at] == '@' && s[dot] == '.'
                     && AllPlain(s[..at]) && AllPlain(s[at + 1..dot]) && AllPlain(s[dot + 1..]);
      MatchIsWellFormed(s, at, dot);
    }
    if WellFormedAddress(s) {
      var at :| 0 < at < |s| && OnlyAtSign(s, at) && InnerDot(s, at);
      var dot :| 0 <= at && at + 1 < dot < |s| - 1 && s[dot] == '.';
      WellFormedMatches(s, at, dot);
    }
  }

  /** The three runs the pattern matches leave the `@` as the only one and the `.` inside the domain. */
  lemma MatchIsWellFormed(s: string, at: int, dot: int)
    requires 0 < at && at + 1 < dot && dot + 1 < |s| && s[at] == '@' && s[dot] == '.'
    requires AllPlain(s[..at]) && AllPlain(s[at + 1..dot]) && AllPlain(s[dot + 1..])
    ensures WellFormedAddress(s)
  {
    forall k | 0 <= k < |s| && k != at && k != dot
      ensures Plain(s[k])
    {
      if k < at {
        assert s[..at][k] == s[k];
      } else if k < dot {
        assert s[at + 1..dot][k - at - 1] == s[k];
      } else {
        assert s[dot + 1..][k - dot - 1] == s[k];
      }
    }
    assert OnlyAtSign(s, at);
    assert InnerDot(s, at);
  }

  /** A well-formed address splits at its `@` and a `.` inside its domain into the pattern's runs. */
  lemma WellFormedMatches(s: string, at: int, dot: int)
    requires NoSpace(s) && 0 < at < |s| && OnlyAtSign(s, at)
    requires at + 1 < dot < |s| - 1 && s[dot] == '.'
    ensures MatchesEmailPattern(s)
  {
    assert AllPlain(s[..at]) by {
      forall k | 0 <= k < at ensures Plain(s[..at][k]) {
        assert s[..at][k] == s[k];
      }
    }
    var domain, top := s[at + 1..dot], s[dot + 1..];
    assert AllPlain(domain) by {
      forall k | 0 <= k < |domain| ensures Plain(domain[k]) {
        assert domain[k] == s[at + 1 + k];
      }
    }
    assert AllPlain(top) by {
      forall k | 0 <= k < |top| ensures Plain(top[k]) {
        assert top[k] == s[dot + 1 + k];
      }
    }
  }

  // ---------------------------------------------------------------- e-mail check

  /** `indexOf`: the first position of `c` in `s`, or -1. */
  function IndexOf(s: string, c: char): (i: int)
    ensures -1 <= i < |s|
    ensures i >= 0 ==> s[i] == c && forall k :: 0 <= k < i ==> s[k] != c
    ensures i == -1 ==> forall k :: 0 <= k < |s| ==> s[k] != c
  {
    if s == [] then -1
    else if s[0] == c then 0
    else var j := IndexOf(s[1..], c); if j == -1 then -1 else j + 1
  }

  /** The first two pieces of `split('@')`: the text before the first `@` (all of it when there is
      none) and the text between the first and second `@` (absent when there is no `@`). */
  function SplitAtSign(s: string): (pieces: (string, Option<string>))
    ensures IndexOf(s, '@') == -1 ==> pieces == (s, None)
    ensures IndexOf(s, '@') >= 0 ==> pieces.0 == s[..IndexOf(s, '@')] && pieces.1.Some?
  {
    var i := IndexOf(s, '@');
    if i == -1 then (s, None)
    else
      var rest := s[i + 1..];
      var j := IndexOf(rest, '@');
      (s[..i], Some(if j == -1 then rest else rest[..j]))
  }

  /** The test `/\.\./`: two dots in a row somewhere. */
  predicate HasDoubleDot(t: string)
  {
    exists k :: 0 <= k && k + 1 < |t| && t[k] == '.' && t[k + 1] == '.'
  }

  /** `isValidEmail`: a non-empty string whose pieces around the first `@` are non-empty, whose local
      part has no two dots in a row, and which matches the e-mail pattern. */
  function IsValidEmail(v: JsValue): (b: bool)
    ensures b ==> v.JsString? && MatchesEmailPattern(v.s)
    ensures b ==> !HasDoubleDot(SplitAtSign(v.s).0)
  {
    match v
    case JsNonString => false
    case JsString(s) =>
      if s == [] then false
      else
        var (local, domain) := SplitAtSign(s);
        if local == [] || domain.None? || domain.value == [] then false
        else if HasDoubleDot(local) then false
        else MatchesEmailPattern(s)
  }

  /** When `at` holds the only `@`, the two pieces are the text before it and all the text after it. */
  lemma SplitAtOnlyAtSign(s: string, at: int)
    requires OnlyAtSign(s, at)
    ensures SplitAtSign(s) == (s[..at], Some(s[at + 1..]))
  {
    assert IndexOf(s, '@') == at;
    var rest := s[at + 1..];
    assert forall k :: 0 <= k < |rest| ==> rest[k] == s[at + 1 + k];
    assert IndexOf(rest, '@') == -1;
  }

  /** The checks before the pattern add only one condition to it: an e-mail is valid exactly when
      it is well formed and its local part, the text before its only `@`, has no two dots in a row. */
  lemma IsValidEmailCharacterized(s: string)
    ensures IsValidEmail(JsString(s)) <==> WellFormedAddress(s) && !HasDoubleDot(SplitAtSign(s).0)
  {
    EmailPatternCharacterized(s);
    if WellFormedAddress(s) {
      var at :| 0 < at < |s| && OnlyAtSign(s, at) && InnerDot(s, at);
      var dot :| 0 <= at && at + 1 < dot < |s| - 1 && s[dot] == '.';
      SplitAtOnlyAtSign(s, at);
      assert |s[..at]| > 0 && |s[at + 1..]| > 0;
    }
  }

  /** An address of lower-case letters with one `@`, and dots only in the domain, none of them at
      either end of it, is valid. */
  lemma LetterAddressValid(s: string, at: int, dot: int)
    requires 0 < at && at + 1 < dot < |s| - 1 && s[at] == '@' && s[dot] == '.'
    requires forall k :: 0 <= k < at ==> 'a' <= s[k] <= 'z'
    requires forall k :: at < k < |s| ==> 'a' <= s[k] <= 'z' || s[k] == '.'
    ensures IsValidEmail(JsString(s))
  {
    assert NoSpace(s);
    assert OnlyAtSign(s, at);
    assert InnerDot(s, at);
    SplitAtOnlyAtSign(s, at);
    assert !HasDoubleDot(s[..at]) by {
      assert forall k :: 0 <= k < at ==> s[..at][k] != '.';
    }
    IsValidEmailCharacterized(s);
  }

  lemma ValidEmailExample(s: string)
    requires s == "test@example.com"
    ensures IsValidEmail(JsString(s))
  {
    assert s[4] == '@' && s[12] == '.';
    LetterAddressValid(s, 4, 12);
  }

  /** A domain that starts with its dot is refused. */
  lemma DotFirstInDomainRefused(a: string)
    requires a == "test@.com"
    ensures !IsValidEmail(JsString(a))
  {
    assert !WellFormedAddress(a) by {
      assert forall k :: 0 <= k < |a| && a[k] == '@' ==> k == 4;
      assert !InnerDot(a, 4);
    }
    IsValidEmailCharacterized(a);
  }

  /** An address without `@` is refused. */
  lemma MissingAtSignRefused(b: string)
    requires b == "invalid-email"
    ensures !IsValidEmail(JsString(b))
  {
    assert !WellFormedAddress(b) by {
      assert forall k :: 0 <= k < |b| ==> b[k] != '@';
    }
    IsValidEmailCharacterized(b);
  }

  /** Two dots in a row before the first `@` make an address invalid, whatever follows it. */
  lemma DoubleDotBeforeAtSignRefused(s: string, k: int, at: int)
    requires 0 <= k && k + 1 < at < |s| && s[at] == '@' && s[k] == '.' && s[k + 1] == '.'
    requires forall j :: 0 <= j <= k + 1 ==> s[j] != '@'
    ensures !IsValidEmail(JsString(s))
  {
    var first := IndexOf(s, '@');
    assert first > k + 1;
    assert SplitAtSign(s).0[k] == '.' && SplitAtSign(s).0[k + 1] == '.';
  }

  /** Two dots in a row in the local part are refused, although the pattern alone accepts them. */
  lemma DoubleDotRefused(c: string)
    requires c == "user..name@example.com"
    ensures !IsValidEmail(JsString(c))
  {
    assert c[4] == '.' && c[5] == '.' && c[10] == '@';
    DoubleDotBeforeAtSignRefused(c, 4, 10);
  }

  // ---------------------------------------------------------------- password, name, role

  /** `isStrongPassword`: a string of at least six UTF-16 code units. */
  function IsStrongPassword(v: JsValue): (b: bool)
    ensures b ==> v.JsString? && |v.s| >= 3
    ensures v.JsString? && |v.s| >= 6 ==> b
    ensures v.JsString? && JsLength(v.s) < 6 ==> !b
    ensures v.JsNonString? ==> !b
  {
    v.JsString? && JsLength(v.s) >= 6
  }

  lemma PasswordExamples()
    ensures IsStrongPassword(JsString("password123")) && IsStrongPassword(JsString("abcdef"))
    ensures !IsStrongPassword(JsString("12345")) && !IsStrongPassword(JsString(""))
  {
    assert JsLength("12345") == 5;
  }

  /** A missing name counts as empty. */
  function OrEmpty(s: Option<string>): string
  {
    if s.Some? then s.value else ""
  }

  /** `formatUserName`: the first name without trailing white space and the last name without
      leading white space, joined by one space; an empty one is dropped, and two empty ones give "". */
  function FormatUserName(firstName: Option<string>, lastName: Option<string>): (r: string)
    ensures r == "" <==> TrimEnd(OrEmpty(firstName)) == "" && TrimStart(OrEmpty(lastName)) == ""
    ensures |r| <= |OrEmpty(firstName)| + |OrEmpty(lastName)| + 1
    ensures TrimEnd(OrEmpty(firstName)) != "" ==> TrimEnd(OrEmpty(firstName)) <= r
    ensures TrimEnd(OrEmpty(firstName)) != "" && TrimStart(OrEmpty(lastName)) != ""
            ==> r == TrimEnd(OrEmpty(firstName)) + " " + TrimStart(OrEmpty(lastName))
    ensures TrimEnd(OrEmpty(firstName)) == "" ==> r == TrimStart(OrEmpty(lastName))
    ensures TrimStart(OrEmpty(lastName)) == "" ==> r == TrimEnd(OrEmpty(firstName))
  {
    var f := TrimEnd(OrEmpty(firstName));
    var l := TrimStart(OrEmpty(lastName));
    if f == "" && l == "" then ""
    else if f == "" then l
    else if l == "" then f
    else f + " " + l
  }

  /** The front end formats a user's name as the back end's full name does, whenever neither name
      is empty and neither has white space where the front end trims. */
  lemma FormatUserNameMatchesFullName(u: UserModel.User)
    requires u.firstName != "" && !IsJsSpace(u.firstName[|u.firstName| - 1])
    requires u.lastName != "" && !IsJsSpace(u.lastName[0])
    ensures FormatUserName(Some(u.firstName), Some(u.lastName)) == UserModel.FullName(u)
  {
  }

  lemma FormatUserNameExample(u: UserModel.User)
    requires u.firstName == "Jan" && u.lastName == "Kowalski"
    ensures FormatUserName(Some(u.firstName), Some(u.lastName)) == "Jan Kowalski"
  {
    assert !IsJsSpace('n') && !IsJsSpace('K');
    FormatUserNameMatchesFullName(u);
    UserModel.FullNameOfJanKowalski(u);
  }

  /** An empty name is dropped together with its separating space. */
  lemma FormatPartialNameExamples()
    ensures FormatUserName(Some("Jan"), Some("")) == "Jan"
    ensures FormatUserName(Some(""), None) == ""
    ensures FormatUserName(None, Some("Kowalski")) == "Kowalski"
  {
    TrimOfTrimmed("Jan");
    TrimOfTrimmed("Kowalski");
    TrimOfTrimmed("");
  }

  /** A user object as the front end holds it; only its role is looked at. */
  datatype JsUser = JsUser(role: Option<string>)

  /** `isAdmin`: a present user whose role is "admin". */
  function IsAdmin(user: Option<JsUser>): (b: bool)
    ensures b ==> user.Some?
    ensures user.None? || user.value.role != Some("admin") ==> !b
    ensures user.Some? && user.value.role == Some("admin") ==> b
  {
    user.Some? && user.value.role == Some("admin")
  }

  /** The role names the back end sends. */
  function RoleName(r: UserModel.Role): string
  {
    match r
    case Admin => "admin"
    case Customer => "customer"
  }

  /** The front end's check agrees with the back end's on every user the back end describes. */
  lemma IsAdminAgreesWithBackEnd(u: UserModel.User)
    ensures IsAdmin(Some(JsUser(Some(RoleName(u.role))))) == UserModel.IsAdminUser(u)
    ensures !IsAdmin(None)
  {
  }
}
