/**
 * The two regular expressions the sign-up and login forms test, as hand-written
 * predicates over ASCII text, each proved equal to a direct reading of its
 * pattern:
 *   e-mail  `^[^\s@]+@[^\s@]+\.[^\s@]+$`
 *   phone   `^[+]?[\d\s\-()]{10,}$`
 */
module FormValidation {
  import opened Wrappers
  import opened Strings

  /** A member of `[^\s@]`. */
  predicate EmailChar(c: char) {
    !IsSpace(c) && c != '@'
  }

  predicate AllEmailChars(s: string) {
    forall i | 0 <= i < |s| :: EmailChar(s[i])
  }

  /** The e-mail pattern read off directly: a non-empty run before an `@` at `i`,
      a non-empty run up to a `.` at `j`, and a non-empty run after it, no run
      holding white space or `@`. */
  ghost predicate MatchesEmailPattern(s: string) {
    exists i, j | 0 < i && i + 1 < j && j + 1 < |s| ::
      s[i] == '@' && s[j] == '.' &&
      AllEmailChars(s[..i]) && AllEmailChars(s[i + 1..j]) && AllEmailChars(s[j + 1..])
  }

  /** The first position of `c` in `s`, if any. */
  function FindChar(s: string, c: char): (r: Option<nat>)
    ensures r.Some? ==> r.value < |s| && s[r.value] == c && forall k | 0 <= k < r.value :: s[k] != c
    ensures r.None? ==> forall k | 0 <= k < |s| :: s[k] != c
  {
    if s == [] then None
    else if s[0] == c then Some(0)
    else match FindChar(s[1..], c)
      case None => None
      case Some(k) => Some(k + 1)
  }

  /** `emailRegex.test(s)`: exactly one `@`, something before it, no white space,
      and a `.` strictly inside the part after it. */
  function IsEmail(s: string): bool {
    match FindChar(s, '@')
    case None => false
    case Some(at) =>
      var domain := s[at + 1..];
      at > 0 && AllEmailChars(s[..at]) && AllEmailChars(domain) &&
      exists k | 0 < k < |domain| - 1 :: domain[k] == '.'
  }

  /** The characters of a slice are the characters of the string between its bounds. */
  lemma SliceChars(s: string, i: int, j: int)
    requires 0 <= i <= j <= |s|
    ensures AllEmailChars(s[i..j]) <==> forall k | i <= k < j :: EmailChar(s[k])
  {
    if forall k | i <= k < j :: EmailChar(s[k]) {
      forall m | 0 <= m < j - i ensures EmailChar(s[i..j][m]) {
        assert s[i..j][m] == s[i + m];
      }
    }
    if AllEmailChars(s[i..j]) {
      forall k | i <= k < j ensures EmailChar(s[k]) {
        assert s[k] == s[i..j][k - i];
      }
    }
  }

  /** What the test accepts, the pattern matches. */
  lemma IsEmailSound(s: string)
    requires IsEmail(s)
    ensures MatchesEmailPattern(s)
  {
    var at := FindChar(s, '@').value;
    var domain := s[at + 1..];
    var k :| 0 < k < |domain| - 1 && domain[k] == '.';
    var j := at + 1 + k;
    assert s[j] == domain[k];
    assert domain == s[at + 1..|s|];
    SliceChars(s, at + 1, |s|);
    SliceChars(s, at + 1, j);
    SliceChars(s, j + 1, |s|);
    assert s[j + 1..] == s[j + 1..|s|];
    assert s[..at] == s[0..at];
    assert 0 < at && at + 1 < j && j + 1 < |s| && s[at] == '@' && s[j] == '.';
  }

  /** The first `@` is at `i` when nothing before `i` is one. */
  lemma FindAtIs(s: string, i: nat)
    requires i < |s| && s[i] == '@' && AllEmailChars(s[..i])
    ensures FindChar(s, '@') == Some(i)
  {
  }

  /** Two runs of allowed characters around an allowed one make one run. */
  lemma JoinRuns(s: string, i: nat, j: nat)
    requires i <= j < |s| && AllEmailChars(s[i..j]) && EmailChar(s[j]) && AllEmailChars(s[j + 1..])
    ensures AllEmailChars(s[i..])
  {
    assert s[j + 1..] == s[j + 1..|s|];
    assert s[i..] == s[i..|s|];
    SliceChars(s, i, j);
    SliceChars(s, j + 1, |s|);
    SliceChars(s, i, |s|);
  }

  /** What the pattern matches, the test accepts. */
  lemma IsEmailComplete(s: string)
    requires MatchesEmailPattern(s)
    ensures IsEmail(s)
  {
    var i, j :| 0 < i && i + 1 < j && j + 1 < |s| && s[i] == '@' && s[j] == '.' &&
      AllEmailChars(s[..i]) && AllEmailChars(s[i + 1..j]) && AllEmailChars(s[j + 1..]);
    FindAtIs(s, i);
    JoinRuns(s, i + 1, j);
    var domain := s[i + 1..];
    assert domain[j - i - 1] == '.';
  }

  /** The hand-written test accepts exactly the strings the pattern matches. */
  lemma IsEmailIff(s: string)
    ensures IsEmail(s) <==> MatchesEmailPattern(s)
  {
    if IsEmail(s) {
      IsEmailSound(s);
    }
    if MatchesEmailPattern(s) {
      IsEmailComplete(s);
    }
  }

  /** A string the e-mail pattern matches has a character that is not white space. */
  lemma EmailNotBlank(s: string)
    requires MatchesEmailPattern(s)
    ensures !IsBlank(s)
  {
    var i, j :| 0 < i && i + 1 < j && j + 1 < |s| && s[i] == '@' && s[j] == '.' &&
      AllEmailChars(s[..i]) && AllEmailChars(s[i + 1..j]) && AllEmailChars(s[j + 1..]);
    assert s[..i][0] == s[0];
  }

  /** `emailRegex.test(s)`, evaluated once. */
  method TestEmail(s: string) returns (r: bool)
    ensures r == IsEmail(s)
    ensures r <==> MatchesEmailPattern(s)
  {
    IsEmailIff(s);
    r := IsEmail(s);
  }

  /** A member of `[\d\s\-()]`. */
  predicate PhoneChar(c: char) {
    '0' <= c <= '9' || IsSpace(c) || c == '-' || c == '(' || c == ')'
  }

  predicate AllPhoneChars(s: string) {
    forall i | 0 <= i < |s| :: PhoneChar(s[i])
  }

  /** The phone pattern read off directly: at least ten allowed characters,
      possibly after one leading `+`. */
  ghost predicate MatchesPhonePattern(s: string) {
    (|s| >= 10 && AllPhoneChars(s)) || (|s| >= 11 && s[0] == '+' && AllPhoneChars(s[1..]))
  }

  /** `phoneRegex.test(s)`. */
  function IsPhone(s: string): bool {
    var body := if s != [] && s[0] == '+' then s[1..] else s;
    |body| >= 10 && AllPhoneChars(body)
  }

  /** The hand-written test accepts exactly the strings the pattern matches. */
  lemma IsPhoneIff(s: string)
    ensures IsPhone(s) <==> MatchesPhonePattern(s)
  {
    if s != [] && s[0] == '+' {
      assert !PhoneChar(s[0]);
    }
  }

  /** `phoneRegex.test(s)`, evaluated once. */
  method TestPhone(s: string) returns (r: bool)
    ensures r == IsPhone(s)
    ensures r <==> MatchesPhonePattern(s)
  {
    IsPhoneIff(s);
    r := IsPhone(s);
  }

  /** Some strings each test accepts or refuses. */
  lemma EmailExamples()
    ensures IsEmail("a@b.co") && !IsEmail("a@b") && !IsEmail("@b.co")
  {
    assert FindChar("a@b.co", '@') == Some(1);
    assert "a@b.co"[2..][1] == '.';
    assert FindChar("a@b", '@') == Some(1);
    assert FindChar("@b.co", '@') == Some(0);
  }

  lemma PhoneExamples()
    ensures IsPhone("+91 98765-43210") && IsPhone("(555) 123-4567") && !IsPhone("12345") && !IsPhone("++1234567890")
  {
    assert "++1234567890"[1..][0] == '+';
  }
}
