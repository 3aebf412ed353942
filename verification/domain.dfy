/** The domain-name check of the bind handler: the regular expression
    `^(?=^.{3,255}$)[a-zA-Z0-9][-a-zA-Z0-9]{0,62}(\.[a-zA-Z0-9][-a-zA-Z0-9]{0,62})+$`,
    a loose form of the label syntax of section 2.3.1 of RFC 1035 (labels
    may end in `-` here). */
module Domain {
  import opened Strings

  predicate IsAlnum(c: char) {
    ('a' <= c <= 'z') || ('A' <= c <= 'Z') || ('0' <= c <= '9')
  }

  /** A character of the class `[-a-zA-Z0-9]`. */
  predicate IsLabelChar(c: char) {
    IsAlnum(c) || c == '-'
  }

  /** The characters the `.` of the look-ahead does not match. */
  predicate IsLineTerminator(c: char) {
    c == '\n' || c == '\r' || c == '\U{2028}' || c == '\U{2029}'
  }

  /** The length of the longest prefix of `s` made of label characters. */
  function LabelRun(s: string): (n: nat)
    ensures n <= |s|
    ensures forall i :: 0 <= i < n ==> IsLabelChar(s[i])
    ensures n < |s| ==> !IsLabelChar(s[n])
  {
    if s == [] || !IsLabelChar(s[0]) then 0 else 1 + LabelRun(s[1..])
  }

  /** The regular expression after its look-ahead, read from the start of a
      label, `seen` labels having been matched before it: one label of 1 to
      63 characters starting alphanumeric, then either the end of input
      (only once at least one earlier label was matched) or a dot and the
      next label. Label characters exclude `.`, so backtracking inside
      `{0,62}` never opens another way to match. */
  function MatchLabels(s: string, seen: nat): bool
    decreases |s|
  {
    var n := LabelRun(s);
    && 1 <= n <= 63 && IsAlnum(s[0])
    && if n == |s| then seen >= 1
       else s[n] == '.' && MatchLabels(s[n + 1..], seen + 1)
  }

  /** `DOMAIN_REGEX.test(s)`: the look-ahead `(?=^.{3,255}$)` (3 to 255
      characters, none a line terminator) and the labels. */
  predicate DomainPatternTest(s: string) {
    && 3 <= |s| <= 255
    && (forall i :: 0 <= i < |s| ==> !IsLineTerminator(s[i]))
    && MatchLabels(s, 0)
  }

  // Reference definition in terms of dot-separated labels.

  predicate ValidLabel(l: string) {
    && 1 <= |l| <= 63
    && IsAlnum(l[0])
    && forall i :: 0 <= i < |l| ==> IsLabelChar(l[i])
  }

  predicate AllValidLabels(parts: seq<string>) {
    forall k :: 0 <= k < |parts| ==> ValidLabel(parts[k])
  }

  /** 3 to 255 characters, at least two dot-separated labels, each label
      1 to 63 characters of `[A-Za-z0-9-]` beginning with a letter or digit. */
  predicate IsDomainName(s: string) {
    var labels := Split(s, '.');
    && 3 <= |s| <= 255
    && |labels| >= 2
    && AllValidLabels(labels)
  }

  predicate AllLabelChars(parts: seq<string>) {
    forall k, i :: 0 <= k < |parts| && 0 <= i < |parts[k]| ==> IsLabelChar(parts[k][i])
  }

  /** When every part holds only label characters, every character of the
      split string is a dot or a label character. */
  lemma {:induction false} LabelCharsCover(s: string)
    requires AllLabelChars(Split(s, '.'))
    ensures forall i :: 0 <= i < |s| ==> s[i] == '.' || IsLabelChar(s[i])
    decreases |s|
  {
    if s == [] {
    } else if s[0] == '.' {
      var rest := Split(s[1..], '.');
      assert Split(s, '.') == [[]] + rest;
      assert forall k :: 0 <= k < |rest| ==> rest[k] == Split(s, '.')[k + 1];
      LabelCharsCover(s[1..]);
      assert forall i :: 1 <= i < |s| ==> s[i] == s[1..][i - 1];
    } else {
      var rest := Split(s[1..], '.');
      var parts := Split(s, '.');
      assert parts == [[s[0]] + rest[0]] + rest[1..];
      assert parts[0][0] == s[0];
      forall k, i | 0 <= k < |rest| && 0 <= i < |rest[k]| ensures IsLabelChar(rest[k][i]) {
        if k == 0 {
          assert rest[0][i] == parts[0][i + 1];
        } else {
          assert rest[k] == parts[k];
        }
      }
      LabelCharsCover(s[1..]);
      assert forall i :: 1 <= i < |s| ==> s[i] == s[1..][i - 1];
    }
  }

  lemma AllValidLabelsCons(a: string, tail: seq<string>)
    ensures AllValidLabels([a] + tail) <==> ValidLabel(a) && AllValidLabels(tail)
  {
    var parts := [a] + tail;
    assert parts[0] == a;
    assert forall k :: 0 <= k < |tail| ==> parts[k + 1] == tail[k];
  }

  /** The parts of `a + "." + rest` for a label run `a`: `a`, then the
      parts of `rest`. */
  lemma SplitAfterRun(s: string, n: nat)
    requires n == LabelRun(s) && n < |s| && s[n] == '.'
    ensures Split(s, '.') == [s[..n]] + Split(s[n + 1..], '.')
  {
    var a, rest := s[..n], s[n + 1..];
    assert '.' !in a by {
      forall i | 0 <= i < n ensures a[i] != '.' { assert IsLabelChar(s[i]); }
    }
    assert s == a + ['.'] + rest;
    SplitAtSep(a, '.', rest);
  }

  /** The label scanner accepts exactly the strings whose dot-separated
      parts are all valid labels, `seen` plus the number of parts being at
      least two. */
  lemma {:induction false} MatchLabelsMeansValidLabels(s: string, seen: nat)
    ensures MatchLabels(s, seen) <==>
            AllValidLabels(Split(s, '.')) && seen + |Split(s, '.')| >= 2
    decreases |s|
  {
    var n := LabelRun(s);
    if n == |s| {
      assert '.' !in s by {
        forall i | 0 <= i < |s| ensures s[i] != '.' { assert IsLabelChar(s[i]); }
      }
      SplitNoSep(s, '.');
      AllValidLabelsCons(s, []);
    } else if s[n] == '.' {
      SplitAfterRun(s, n);
      MatchLabelsMeansValidLabels(s[n + 1..], seen + 1);
      AllValidLabelsCons(s[..n], Split(s[n + 1..], '.'));
      assert ValidLabel(s[..n]) <==> 1 <= n <= 63 && IsAlnum(s[0]);
    } else {
      if AllValidLabels(Split(s, '.')) {
        LabelCharsCover(s);
        assert false;
      }
    }
  }

  /** The regular expression accepts exactly the domain names of the
      label-based definition. */
  lemma DomainPatternMeansDomainName(s: string)
    ensures DomainPatternTest(s) <==> IsDomainName(s)
  {
    MatchLabelsMeansValidLabels(s, 0);
    if IsDomainName(s) {
      LabelCharsCover(s);
      forall i | 0 <= i < |s| ensures !IsLineTerminator(s[i]) {
        assert s[i] == '.' || IsLabelChar(s[i]);
      }
    }
  }

  /** Every character of an accepted domain is a letter, digit, `-` or
      `.`: in particular it holds no `_` and no whitespace, and it has at
      least one dot. */
  lemma AcceptedDomainCharacters(s: string)
    requires DomainPatternTest(s)
    ensures forall i :: 0 <= i < |s| ==> s[i] == '.' || IsLabelChar(s[i])
    ensures '_' !in s && '.' in s
    ensures Trim(s) == s
  {
    DomainPatternMeansDomainName(s);
    LabelCharsCover(s);
    if '.' !in s {
      SplitNoSep(s, '.');
    }
    assert !IsJsWhitespace(s[0]) && !IsJsWhitespace(s[|s| - 1]);
    assert TrimStart(s) == s;
    assert TrimEnd(s) == s;
  }
}
