/** What the browser does with an `<input type="email">` before a form's submit
    handler sees it, as the HTML Living Standard defines the E-mail state
    (section 4.10.5.1.5): the value is sanitised (newlines removed, leading and
    trailing ASCII whitespace stripped), and a form whose email field holds a
    non-empty value that is not a valid e-mail address suffers from a type
    mismatch, so interactive validation stops the submit event. */
module Html {

  /** ASCII whitespace: TAB, LF, FF, CR and SPACE. */
  predicate IsAsciiWhitespace(c: char) {
    c == '\t' || c == '\n' || c == '\U{000C}' || c == '\r' || c == ' '
  }

  predicate IsNewline(c: char) {
    c == '\n' || c == '\r'
  }

  /** "Strip newlines": every LF and CR is removed, every other character kept in order. */
  function StripNewlines(s: string): (r: string)
    ensures |r| <= |s|
    ensures forall i :: 0 <= i < |r| ==> !IsNewline(r[i])
    ensures |s| == 1 ==> r == if IsNewline(s[0]) then [] else s
  {
    if s == [] then []
    else (if IsNewline(s[0]) then [] else [s[0]]) + StripNewlines(s[1..])
  }

  /** The characters left are exactly the non-newline characters of the text. */
  lemma {:induction false} StripNewlinesChars(s: string)
    ensures forall c :: c in StripNewlines(s) <==> c in s && !IsNewline(c)
  {
    if s != [] {
      StripNewlinesChars(s[1..]);
      assert s == [s[0]] + s[1..];
    }
  }

  /** Text without newlines is left as it is. */
  lemma {:induction false} StripNewlinesNoop(s: string)
    requires forall i :: 0 <= i < |s| ==> !IsNewline(s[i])
    ensures StripNewlines(s) == s
  {
    if s != [] {
      StripNewlinesNoop(s[1..]);
      assert s == [s[0]] + s[1..];
    }
  }

  /** Stripping newlines works character by character: it distributes over
      concatenation, so the kept characters keep their order and their number. */
  lemma {:induction false} StripNewlinesAppend(a: string, b: string)
    ensures StripNewlines(a + b) == StripNewlines(a) + StripNewlines(b)
    decreases |a|
  {
    if a == [] {
      assert a + b == b;
    } else {
      StripNewlinesAppend(a[1..], b);
      assert (a + b)[0] == a[0];
      assert (a + b)[1..] == a[1..] + b;
    }
  }

  /** Leading ASCII whitespace removed. */
  function StripLeading(s: string): (r: string)
    ensures |r| <= |s| && r == s[|s| - |r|..]
    ensures r != [] ==> !IsAsciiWhitespace(r[0])
    ensures forall i :: 0 <= i < |s| - |r| ==> IsAsciiWhitespace(s[i])
  {
    if s != [] && IsAsciiWhitespace(s[0]) then StripLeading(s[1..]) else s
  }

  /** Trailing ASCII whitespace removed. */
  function StripTrailing(s: string): (r: string)
    ensures |r| <= |s| && r == s[..|r|]
    ensures r != [] ==> !IsAsciiWhitespace(r[|r| - 1])
    ensures forall i :: |r| <= i < |s| ==> IsAsciiWhitespace(s[i])
  {
    if s != [] && IsAsciiWhitespace(s[|s| - 1]) then StripTrailing(s[..|s| - 1]) else s
  }

  predicate AllAsciiWhitespace(s: string) {
    forall i :: 0 <= i < |s| ==> IsAsciiWhitespace(s[i])
  }

  /** The value the E-mail state's sanitisation leaves, which is what the field's
      change event reports: no newline anywhere and no whitespace at either end. */
  function EmailValue(raw: string): (v: string)
    ensures forall i :: 0 <= i < |v| ==> !IsNewline(v[i])
    ensures v != [] ==> !IsAsciiWhitespace(v[0]) && !IsAsciiWhitespace(v[|v| - 1])
  {
    StripTrailing(StripLeading(StripNewlines(raw)))
  }

  /** v is a contiguous part of n, and everything of n before and after it is whitespace. */
  predicate IsTrimmedMiddle(v: string, n: string) {
    exists i :: 0 <= i <= |n| - |v| && v == n[i..i + |v|]
      && AllAsciiWhitespace(n[..i]) && AllAsciiWhitespace(n[i + |v|..])
  }

  /** The sanitised value is the newline-free text with only a leading and a
      trailing run of whitespace cut off. */
  lemma EmailValueTrimsOnlyEnds(raw: string)
    ensures IsTrimmedMiddle(EmailValue(raw), StripNewlines(raw))
  {
    StripBothEndsMiddle(StripNewlines(raw));
  }

  lemma StripBothEndsMiddle(n: string)
    ensures IsTrimmedMiddle(StripTrailing(StripLeading(n)), n)
  {
    var l := StripLeading(n);
    var v := StripTrailing(l);
    var i := |n| - |l|;
    assert l == n[i..] && v == l[..|v|];
    assert v == n[i..i + |v|];
    LeadingCutIsWhitespace(n);
    TrailingCutIsWhitespace(l);
    assert n[i + |v|..] == l[|v|..];
  }

  /** What StripLeading removes is all whitespace. */
  lemma LeadingCutIsWhitespace(n: string)
    ensures AllAsciiWhitespace(n[..|n| - |StripLeading(n)|])
  {
    var front := n[..|n| - |StripLeading(n)|];
    forall k | 0 <= k < |front|
      ensures IsAsciiWhitespace(front[k])
    {
      assert front[k] == n[k];
    }
  }

  /** What StripTrailing removes is all whitespace. */
  lemma TrailingCutIsWhitespace(l: string)
    ensures AllAsciiWhitespace(l[|StripTrailing(l)|..])
  {
    var rest := l[|StripTrailing(l)|..];
    forall k | 0 <= k < |rest|
      ensures IsAsciiWhitespace(rest[k])
    {
      assert rest[k] == l[|StripTrailing(l)| + k];
    }
  }

  /** The sanitised value is empty exactly when the typed text is all whitespace. */
  lemma EmailValueEmpty(raw: string)
    ensures EmailValue(raw) == [] <==> AllAsciiWhitespace(raw)
  {
    StripBothEmpty(StripNewlines(raw));
    StripNewlinesWhitespaceOnly(raw);
  }

  /** Stripping at both ends leaves nothing exactly when the text is all whitespace. */
  lemma StripBothEmpty(s: string)
    ensures StripTrailing(StripLeading(s)) == [] <==> AllAsciiWhitespace(s)
  {
    var l := StripLeading(s);
    if l != [] {
      assert !IsAsciiWhitespace(s[|s| - |l|]);
    }
  }

  /** Removing newlines, which are whitespace, keeps a text all-whitespace or not. */
  lemma StripNewlinesWhitespaceOnly(raw: string)
    ensures AllAsciiWhitespace(StripNewlines(raw)) <==> AllAsciiWhitespace(raw)
  {
    var n := StripNewlines(raw);
    StripNewlinesChars(raw);
    if AllAsciiWhitespace(n) {
      forall i | 0 <= i < |raw|
        ensures IsAsciiWhitespace(raw[i])
      {
        if !IsNewline(raw[i]) {
          assert raw[i] in n;
        }
      }
    }
    if AllAsciiWhitespace(raw) {
      forall i | 0 <= i < |n|
        ensures IsAsciiWhitespace(n[i])
      {
        assert n[i] in raw;
      }
    }
  }

  /** The position of the first `c` in s, or |s| when there is none. */
  function IndexOf(s: string, c: char): (i: nat)
    ensures i <= |s|
    ensures i < |s| ==> s[i] == c
    ensures forall k :: 0 <= k < i ==> s[k] != c
  {
    if s == [] || s[0] == c then 0 else 1 + IndexOf(s[1..], c)
  }

  predicate IsLetDig(c: char) {
    'a' <= c <= 'z' || 'A' <= c <= 'Z' || '0' <= c <= '9'
  }

  /** A character of the local part: an `atext` character of RFC 5322 or a dot. */
  predicate IsLocalChar(c: char) {
    IsLetDig(c) || c in ".!#$%&'*+/=?^_`{|}~-"
  }

  /** A domain label: 1 to 63 letters, digits and hyphens, starting and ending with
      a letter or digit. */
  predicate IsLabel(s: string) {
    && 1 <= |s| <= 63
    && IsLetDig(s[0]) && IsLetDig(s[|s| - 1])
    && forall i :: 0 <= i < |s| ==> IsLetDig(s[i]) || s[i] == '-'
  }

  /** Labels separated by single dots. A label holds no dot, so the first dot ends
      the first label. */
  predicate IsDomain(s: string)
    ensures IsDomain(s) ==> s != [] && IsLetDig(s[0]) && IsLetDig(s[|s| - 1])
    decreases |s|
  {
    var d := IndexOf(s, '.');
    IsLabel(s[..d]) && (d < |s| ==> IsDomain(s[d + 1..]))
  }

  /** A valid e-mail address: one or more local-part characters, an `@`, and a
      domain. The local part holds no `@`, so the first `@` is the separator. */
  predicate IsValidEmail(s: string)
    ensures IsValidEmail(s) ==> 3 <= |s| && '@' in s && IsLetDig(s[|s| - 1])
  {
    var at := IndexOf(s, '@');
    && 1 <= at < |s|
    && (forall k :: 0 <= k < at ==> IsLocalChar(s[k]))
    && IsDomain(s[at + 1..])
  }

  /** The E-mail state's type mismatch: a non-empty value that is not a valid address. */
  predicate TypeMismatch(value: string)
    ensures value == "" ==> !TypeMismatch(value)
    ensures value != "" && '@' !in value ==> TypeMismatch(value)
  {
    value != "" && !IsValidEmail(value)
  }

  /** A domain holds only letters, digits, hyphens and dots. */
  lemma {:induction false} DomainCharacters(s: string)
    requires IsDomain(s)
    ensures forall i :: 0 <= i < |s| ==> IsLetDig(s[i]) || s[i] == '-' || s[i] == '.'
    decreases |s|
  {
    var d := IndexOf(s, '.');
    assert IsLabel(s[..d]);
    if d < |s| {
      DomainCharacters(s[d + 1..]);
      forall i | 0 <= i < |s|
        ensures IsLetDig(s[i]) || s[i] == '-' || s[i] == '.'
      {
        if i < d {
          assert s[i] == s[..d][i];
        } else if i > d {
          assert s[i] == s[d + 1..][i - d - 1];
        }
      }
    } else {
      assert s[..d] == s;
    }
  }

  /** Text without whitespace is left as it is by sanitisation. */
  lemma NoWhitespaceIsSanitized(s: string)
    requires forall i :: 0 <= i < |s| ==> !IsAsciiWhitespace(s[i])
    ensures EmailValue(s) == s
  {
    StripNewlinesNoop(s);
    assert StripLeading(s) == s;
    assert StripTrailing(s) == s;
  }

  /** A valid address is left as it is by sanitisation: typing one reports it unchanged. */
  lemma ValidEmailIsSanitized(s: string)
    requires IsValidEmail(s)
    ensures EmailValue(s) == s
  {
    ValidEmailHasNoWhitespace(s);
    NoWhitespaceIsSanitized(s);
  }

  lemma ValidEmailHasNoWhitespace(s: string)
    requires IsValidEmail(s)
    ensures forall i :: 0 <= i < |s| ==> !IsAsciiWhitespace(s[i])
  {
    var at := IndexOf(s, '@');
    var dom := s[at + 1..];
    DomainCharacters(dom);
    forall i | 0 <= i < |s|
      ensures !IsAsciiWhitespace(s[i])
    {
      if i < at {
        assert IsLocalChar(s[i]);
      } else if i > at {
        assert s[i] == dom[i - at - 1];
      }
    }
  }

  /** Text without an `@` is never a valid address, so a non-empty one is a mismatch. */
  lemma NoAtSignMismatch(s: string)
    requires s != "" && '@' !in s
    ensures TypeMismatch(s)
  {
    assert IndexOf(s, '@') == |s|;
  }

  /** "admin" is reported as typed and, having no `@`, is stopped by the browser. */
  lemma AdminIsMismatch()
    ensures EmailValue("admin") == "admin" && TypeMismatch("admin")
  {
    var s := "admin";
    assert s == ['a', 'd', 'm', 'i', 'n'];
    assert forall i :: 0 <= i < |s| ==> 'a' <= s[i] <= 'z';
    NoWhitespaceIsSanitized(s);
    NoAtSignMismatch(s);
  }

  /** "a@b.gov" is a valid address. */
  lemma ShortAddressIsValid()
    ensures IsValidEmail("a@b.gov")
  {
    var s := "a@b.gov";
    assert IndexOf(s, '@') == 1;
    var dom := s[2..];
    assert dom == "b.gov";
    assert IndexOf(dom, '.') == 1;
    assert dom[..1] == "b";
    assert dom[2..] == "gov";
    assert IndexOf("gov", '.') == 3;
    assert "gov"[..3] == "gov";
  }
}
