/** The e-mail format both schemas check: the regular expression
    `^[^\s@]+@[^\s@]+\.[^\s@]+$`, and the plain description of the strings it
    accepts. */
module Email {

  /** JavaScript's `\s`: the ECMAScript WhiteSpace and LineTerminator code
      points. The general proofs below use only that the two separators of
      an address, `@` and `.`, are not among them; the sample address of
      `SampleAddress` also uses that its letters are not. */
  predicate IsSpace(c: char)
    ensures IsSpace(c) ==> c != '@' && c != '.'
  {
    var n := c as int;
    n == 0x09 || n == 0x0A || n == 0x0B || n == 0x0C || n == 0x0D || n == 0x20 ||
    n == 0xA0 || n == 0x1680 || (0x2000 <= n <= 0x200A) || n == 0x2028 || n == 0x2029 ||
    n == 0x202F || n == 0x205F || n == 0x3000 || n == 0xFEFF
  }

  /** The character class `[^\s@]`. */
  predicate Plain(c: char)
  {
    !IsSpace(c) && c != '@'
  }

  predicate AllPlain(s: string)
  {
    forall k :: 0 <= k < |s| ==> Plain(s[k])
  }

  /** The regular expression matches `s` by taking the `@` at `at` and the
      `.` at `dot`: three non-empty runs of `[^\s@]` around them. */
  ghost predicate RegexSplit(s: string, at: int, dot: int)
  {
    && 0 < at && at + 1 < dot && dot + 1 < |s|
    && s[at] == '@' && s[dot] == '.'
    && AllPlain(s[..at]) && AllPlain(s[at + 1..dot]) && AllPlain(s[dot + 1..])
  }

  /** What the anchored regular expression accepts: some way of placing the
      `@` and the `.` (backtracking tries them all). */
  ghost predicate MatchesEmailRegex(s: string)
    ensures MatchesEmailRegex(s) ==> |s| >= 5
  {
    exists at, dot :: RegexSplit(s, at, dot)
  }

  /** The domain has a `.` that is neither its first nor its last character. */
  predicate HasInnerDot(domain: string)
  {
    exists k :: 0 < k < |domain| - 1 && domain[k] == '.'
  }

  /** The format in plain terms: no whitespace, exactly one `@`, something
      before it, and a domain after it with an interior `.`. */
  predicate IsEmail(s: string)
    ensures IsEmail(s) ==> |s| >= 5
  {
    && (forall k :: 0 <= k < |s| ==> !IsSpace(s[k]))
    && multiset(s)['@'] == 1
    && exists at :: 0 < at < |s| && s[at] == '@' && HasInnerDot(s[at + 1..])
  }

  /** A run of `[^\s@]` holds no `@`. */
  lemma PlainHasNoAt(s: string)
    requires AllPlain(s)
    ensures multiset(s)['@'] == 0
  {
  }

  /** Two `@` at different positions make the count at least two. */
  lemma TwoAts(s: string, lo: int, hi: int)
    requires 0 <= lo < hi < |s| && s[lo] == '@' && s[hi] == '@'
    ensures multiset(s)['@'] >= 2
  {
    assert s == s[..hi] + s[hi..];
    assert s[..hi][lo] == '@';
    assert s[hi..][0] == '@';
    assert multiset(s)['@'] == multiset(s[..hi])['@'] + multiset(s[hi..])['@'];
  }

  /** With exactly one `@` in `s`, every other position holds something else. */
  lemma OnlyAt(s: string, at: int, k: int)
    requires multiset(s)['@'] == 1 && 0 <= at < |s| && s[at] == '@'
    requires 0 <= k < |s| && k != at
    ensures s[k] != '@'
  {
    if s[k] == '@' {
      if k < at { TwoAts(s, k, at); } else { TwoAts(s, at, k); }
      assert false;
    }
  }

  /** Around the two separators of a match there is no whitespace. */
  lemma RegexNoSpace(s: string, at: int, dot: int)
    requires RegexSplit(s, at, dot)
    ensures forall k :: 0 <= k < |s| ==> !IsSpace(s[k])
  {
    var a, b, c := s[..at], s[at + 1..dot], s[dot + 1..];
    forall k | 0 <= k < |s| ensures !IsSpace(s[k]) {
      if k < at {
        assert s[k] == a[k];
      } else if at < k < dot {
        assert s[k] == b[k - at - 1];
      } else if dot < k {
        assert s[k] == c[k - dot - 1];
      }
    }
  }

  /** A match holds exactly one `@`, the separator. */
  lemma RegexOneAt(s: string, at: int, dot: int)
    requires RegexSplit(s, at, dot)
    ensures multiset(s)['@'] == 1
  {
    var a, b, c := s[..at], s[at + 1..dot], s[dot + 1..];
    assert s == a + [s[at]] + b + [s[dot]] + c;
    PlainHasNoAt(a);
    PlainHasNoAt(b);
    PlainHasNoAt(c);
  }

  /** Every string the regular expression matches has the plain format. */
  lemma RegexImpliesEmail(s: string)
    requires MatchesEmailRegex(s)
    ensures IsEmail(s)
  {
    var at, dot :| RegexSplit(s, at, dot);
    RegexNoSpace(s, at, dot);
    RegexOneAt(s, at, dot);
    var domain := s[at + 1..];
    assert domain[dot - at - 1] == '.';
  }

  /** Every string of the plain format is matched by the regular expression. */
  lemma EmailImpliesRegex(s: string)
    requires IsEmail(s)
    ensures MatchesEmailRegex(s)
  {
    var at :| 0 < at < |s| && s[at] == '@' && HasInnerDot(s[at + 1..]);
    var domain := s[at + 1..];
    var k :| 0 < k < |domain| - 1 && domain[k] == '.';
    var dot := at + 1 + k;
    forall m | 0 <= m < |s| && m != at ensures Plain(s[m]) {
      OnlyAt(s, at, m);
    }
    assert AllPlain(s[..at]) by {
      forall m | 0 <= m < at ensures Plain(s[..at][m]) { assert s[..at][m] == s[m]; }
    }
    var b, c := s[at + 1..dot], s[dot + 1..];
    assert AllPlain(b) by {
      forall m | 0 <= m < |b| ensures Plain(b[m]) { assert b[m] == s[at + 1 + m]; }
    }
    assert AllPlain(c) by {
      forall m | 0 <= m < |c| ensures Plain(c[m]) { assert c[m] == s[dot + 1 + m]; }
    }
    assert RegexSplit(s, at, dot);
  }

  /** The regular expression and the plain description accept the same strings. */
  lemma EmailRegexEquiv(s: string)
    ensures MatchesEmailRegex(s) <==> IsEmail(s)
  {
    if MatchesEmailRegex(s) { RegexImpliesEmail(s); }
    if IsEmail(s) { EmailImpliesRegex(s); }
  }

  /** The rejections the format promises, each on its own. */
  lemma EmailRejects(s: string)
    ensures multiset(s)['@'] != 1 ==> !IsEmail(s)
    ensures (exists k :: 0 <= k < |s| && IsSpace(s[k])) ==> !IsEmail(s)
    ensures |s| > 0 && s[0] == '@' ==> !IsEmail(s)
    ensures (forall k :: 0 <= k < |s| ==> s[k] != '@') ==> !IsEmail(s)
    ensures (forall at :: 0 < at < |s| && s[at] == '@' ==> !HasInnerDot(s[at + 1..])) ==> !IsEmail(s)
  {
    if |s| > 0 && s[0] == '@' && IsEmail(s) {
      var at :| 0 < at < |s| && s[at] == '@' && HasInnerDot(s[at + 1..]);
      OnlyAt(s, 0, at);
    }
  }

  /** Three non-empty runs of `[^\s@]` joined by `@` and `.` form an address. */
  lemma EmailFromParts(local: string, host: string, tld: string)
    requires |local| > 0 && |host| > 0 && |tld| > 0
    requires AllPlain(local) && AllPlain(host) && AllPlain(tld)
    ensures IsEmail(local + "@" + host + "." + tld)
  {
    var s := local + "@" + host + "." + tld;
    var at, dot := |local|, |local| + 1 + |host|;
    assert s[..at] == local;
    assert s[at + 1..dot] == host;
    assert s[dot + 1..] == tld;
    assert RegexSplit(s, at, dot);
    RegexImpliesEmail(s);
  }

  /** A concrete address the format accepts. */
  lemma SampleAddress()
    ensures IsEmail("a@b.co")
  {
    var s := "a@b.co";
    assert s[..1] == "a" && s[2..3] == "b" && s[4..] == "co";
    assert RegexSplit(s, 1, 3);
    RegexImpliesEmail(s);
  }
}
