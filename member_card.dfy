/**
 * The initials shown on a member's card: the first character of each
 * space-separated segment of the name, upper-cased, at most two of them.
 */
module MemberCard {
  import opened Strings

  /** `.map((n) => n[0]).join("")`: an empty segment's `n[0]` is `undefined`,
      which `join` renders as nothing. */
  function FirstChars(parts: seq<string>): (r: string)
    ensures |r| <= |parts|
  {
    if parts == [] then ""
    else (if parts[0] == "" then "" else [parts[0][0]]) + FirstChars(parts[1..])
  }

  /** The characters of `s` that begin a word, read off the text directly: not
      a space, and first or right after a space. `afterSpace` says whether the
      text before `s` ended with a space (or there was none). */
  function WordStarts(s: string, afterSpace: bool): string {
    if s == [] then ""
    else (if s[0] != ' ' && afterSpace then [s[0]] else "") + WordStarts(s[1..], s[0] == ' ')
  }

  /** `getInitials(name)`. */
  function GetInitials(name: string): (r: string)
    ensures |r| <= 2
    ensures forall i | 0 <= i < |r| :: !('a' <= r[i] <= 'z')
    ensures r <= ToUpper(WordStarts(name, true))
    ensures |r| == if |WordStarts(name, true)| < 2 then |WordStarts(name, true)| else 2
  {
    InitialsAreWordStarts(name);
    var joined := ToUpper(FirstChars(Split(name, ' ')));
    joined[..if |joined| < 2 then |joined| else 2]
  }

  /** The segments' first characters are exactly the word starts: the first
      segment begins the text, and every later one begins after a space. */
  lemma {:induction false} InitialsAreWordStarts(s: string)
    ensures FirstChars(Split(s, ' ')) == WordStarts(s, true)
    ensures FirstChars(Split(s, ' ')[1..]) == WordStarts(s, false)
    decreases |s|
  {
    if s != [] {
      var rest := Split(s[1..], ' ');
      InitialsAreWordStarts(s[1..]);
      if s[0] == ' ' {
        assert Split(s, ' ') == [""] + rest;
        assert ([""] + rest)[1..] == rest;
      } else {
        var parts := [[s[0]] + rest[0]] + rest[1..];
        assert Split(s, ' ') == parts;
        assert parts[1..] == rest[1..];
      }
    }
  }

  /** A leading or a trailing space adds no initials. */
  lemma {:induction false} SpacesAddNothing(s: string)
    ensures WordStarts(" " + s, true) == WordStarts(s, true)
    ensures WordStarts(s + " ", true) == WordStarts(s, true)
  {
    assert (" " + s)[1..] == s;
    TrailingSpace(s, true);
  }

  lemma {:induction false} TrailingSpace(s: string, afterSpace: bool)
    ensures WordStarts(s + " ", afterSpace) == WordStarts(s, afterSpace)
    decreases |s|
  {
    if s == [] {
      assert WordStarts(" ", afterSpace) == WordStarts("", true);
    } else {
      assert (s + " ")[1..] == s[1..] + " ";
      TrailingSpace(s[1..], s[0] == ' ');
    }
  }
}
