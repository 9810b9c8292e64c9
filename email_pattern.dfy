/** The one regular expression of the survey schema, `^[^\s@]+@[^\s@]+\.[^\s@]+$`,
    written out as a concrete predicate on strings. */
module EmailPattern {

  /** The pattern's source text exactly as the schema stores it. */
  const Source: string := "^[^\\s@]+@[^\\s@]+\\.[^\\s@]+$"

  /** The characters `\s` stands for in a JavaScript regular expression:
      the ECMAScript white-space and line-terminator characters. */
  predicate IsWhitespace(c: char)
  {
    || c == ' ' || c == '\t' || c == '\n' || c == '\r'
    || c == '\U{B}' || c == '\U{C}' || c == '\U{A0}' || c == '\U{1680}'
    || ('\U{2000}' <= c <= '\U{200A}')
    || c == '\U{2028}' || c == '\U{2029}' || c == '\U{202F}' || c == '\U{205F}'
    || c == '\U{3000}' || c == '\U{FEFF}'
  }

  /** One character of the class `[^\s@]`. */
  predicate IsAtom(c: char)
  {
    c != '@' && !IsWhitespace(c)
  }

  predicate AllAtoms(t: string)
  {
    forall i :: 0 <= i < |t| ==> IsAtom(t[i])
  }

  /** `d` has a `.` with at least one character on each side. */
  predicate HasInnerDot(d: string)
  {
    exists j :: 0 < j < |d| - 1 && d[j] == '.'
  }

  /** Whether the anchored pattern accepts `s`: a non-empty local part, an `@`,
      and a domain that contains an inner `.`, with no `@` and no
      white space anywhere else. */
  predicate Matches(s: string)
  {
    exists p :: 0 < p < |s| && s[p] == '@' && AllAtoms(s[..p]) && AllAtoms(s[p + 1..]) && HasInnerDot(s[p + 1..])
  }

  function Assemble(a: string, b: string, c: string): string
  {
    a + ("@" + (b + ("." + c)))
  }

  /** The pattern read term by term: `[^\s@]+`, `@`, `[^\s@]+`, `\.`, `[^\s@]+`
      between the anchors. This is the reference that `Matches` is proved against. */
  ghost predicate RegexShape(s: string)
  {
    exists a, b, c :: SplitsAs(s, a, b, c)
  }

  /** `s` is `a@b.c` with each of `a`, `b`, `c` a non-empty run of `[^\s@]`. */
  ghost predicate SplitsAs(s: string, a: string, b: string, c: string)
  {
    && s == Assemble(a, b, c)
    && |a| > 0 && |b| > 0 && |c| > 0
    && AllAtoms(a) && AllAtoms(b) && AllAtoms(c)
  }

  lemma AllAtomsSlice(t: string, i: int, j: int)
    requires AllAtoms(t) && 0 <= i <= j <= |t|
    ensures AllAtoms(t[i..j])
  {
    assert forall k :: 0 <= k < j - i ==> t[i..j][k] == t[i + k];
  }

  lemma Reassemble(s: string, p: int, j: int)
    requires 0 <= p < |s| && s[p] == '@'
    requires 0 <= j < |s| - p - 1 && s[p + 1 + j] == '.'
    ensures s == Assemble(s[..p], s[p + 1..][..j], s[p + 1..][j + 1..])
  {
    var d := s[p + 1..];
    assert d == d[..j] + ([d[j]] + d[j + 1..]);
    assert s == s[..p] + ([s[p]] + d);
  }

  lemma MatchesHasShape(s: string)
    requires Matches(s)
    ensures RegexShape(s)
  {
    var p :| 0 < p < |s| && s[p] == '@' && AllAtoms(s[..p]) && AllAtoms(s[p + 1..]) && HasInnerDot(s[p + 1..]);
    var d := s[p + 1..];
    var j :| 0 < j < |d| - 1 && d[j] == '.';
    var a, b, c := s[..p], d[..j], d[j + 1..];
    AllAtomsSlice(d, 0, j);
    AllAtomsSlice(d, j + 1, |d|);
    Reassemble(s, p, j);
    assert SplitsAs(s, a, b, c);
  }

  lemma ShapeMatches(s: string, a: string, b: string, c: string)
    requires SplitsAs(s, a, b, c)
    ensures Matches(s)
  {
    var p := |a|;
    var d := b + ("." + c);
    assert s[..p] == a;
    assert s[p] == '@';
    assert s[p + 1..] == d;
    assert d[|b|] == '.';
    forall k | 0 <= k < |d|
      ensures IsAtom(d[k])
    {
      if k < |b| {
        assert d[k] == b[k];
      } else if k > |b| {
        assert d[k] == c[k - |b| - 1];
      }
    }
  }

  /** `Matches` accepts exactly the strings the regular expression accepts. */
  lemma MatchesIffRegexShape(s: string)
    ensures Matches(s) <==> RegexShape(s)
  {
    if Matches(s) {
      MatchesHasShape(s);
    }
    if RegexShape(s) {
      var a, b, c :| SplitsAs(s, a, b, c);
      ShapeMatches(s, a, b, c);
    }
  }

  /** A matching string has no white space and exactly one `@`, which is not first. */
  lemma MatchHasOneAt(s: string)
    requires Matches(s)
    ensures forall i :: 0 <= i < |s| ==> !IsWhitespace(s[i])
    ensures exists p :: 0 < p < |s| && s[p] == '@'
    ensures forall i, k :: 0 <= i < |s| && 0 <= k < |s| && s[i] == '@' && s[k] == '@' ==> i == k
  {
    var p :| 0 < p < |s| && s[p] == '@' && AllAtoms(s[..p]) && AllAtoms(s[p + 1..]) && HasInnerDot(s[p + 1..]);
    forall i | 0 <= i < |s| && i != p
      ensures IsAtom(s[i])
    {
      if i < p {
        assert s[i] == s[..p][i];
      } else {
        assert s[i] == s[p + 1..][i - p - 1];
      }
    }
  }

  /** The address the survey's own placeholder suggests is accepted. */
  lemma SampleAddressMatches()
    ensures Matches("user@example.com")
  {
    var s := "user@example.com";
    assert s[4] == '@';
    assert s[..4] == "user";
    assert s[5..] == "example.com";
    assert "example.com"[7] == '.';
  }

  /** A string without `@` is rejected. */
  lemma NotAnEmailRejected()
    ensures !Matches("not-an-email")
  {
    var s := "not-an-email";
    forall p | 0 <= p < |s|
      ensures s[p] != '@'
    {
    }
  }
}
