/** The regular expressions of the core, each written twice: once as the
    concatenation the pattern denotes (a ghost predicate that names the split
    points of a matching string) and once as a checker that finds those split
    points by scanning.  A lemma per pattern proves the two agree, so the
    checker accepts exactly the strings the pattern matches.

    JavaScript semantics are assumed: no `u` flag, so `\w` is
    `[A-Za-z0-9_]`, and `$` without the `m` flag anchors at the very end of
    the input. */
module Patterns {
  import opened Wrappers
  import opened Seqs
  import opened Text

  // ---------------------------------------------------------------------
  // /^[a-zA-Z0-9._-]+@[a-zA-Z0-9.-]+\.[a-zA-Z]{2,4}$/
  // (the organizer email check of the OTP handler)
  // ---------------------------------------------------------------------

  /** `[a-zA-Z0-9._-]` */
  predicate IsCampLocalChar(c: char) {
    IsAsciiLetter(c) || IsDigit(c) || c == '.' || c == '_' || c == '-'
  }

  /** `[a-zA-Z0-9.-]` */
  predicate IsCampDomainChar(c: char) {
    IsAsciiLetter(c) || IsDigit(c) || c == '.' || c == '-'
  }

  /** `s` is local part, `@` at `at`, domain, `.` at `dot`, and a final run of
      two to four ASCII letters, every part in its character class. */
  predicate CampEmailSplit(s: string, at: int, dot: int) {
    && 0 < at && at + 1 < dot && dot + 3 <= |s| <= dot + 5
    && s[at] == '@' && s[dot] == '.'
    && All(s[..at], IsCampLocalChar)
    && All(s[at + 1..dot], IsCampDomainChar)
    && All(s[dot + 1..], IsAsciiLetter)
  }

  /** The set of strings the pattern matches. */
  ghost predicate CampEmailRegex(s: string) {
    exists at, dot :: CampEmailSplit(s, at, dot)
  }

  /** The checker: the local part cannot hold an `@` and the final letters
      cannot hold a `.`, so the only candidate split is at the first `@` and
      the last `.`. */
  function IsCampEmail(s: string): bool {
    match (IndexOf(s, '@'), LastIndexOf(s, '.'))
    case (Some(at), Some(dot)) => CampEmailSplit(s, at, dot)
    case _ => false
  }

  /** The checker accepts exactly the strings the pattern matches. */
  lemma CampEmailCheckerIsRegex(s: string)
    ensures IsCampEmail(s) <==> CampEmailRegex(s)
  {
    if CampEmailRegex(s) {
      var at, dot :| CampEmailSplit(s, at, dot);
      var first := IndexOf(s, '@');
      var last := LastIndexOf(s, '.');
      assert first.Some? && first.value <= at;
      assert last.Some? && last.value >= dot;
    }
  }

  // ---------------------------------------------------------------------
  // /^([\w-\.]+@([\w-]+\.)+[\w-]{2,4})?$/
  // (the donor email validator; `-` next to a class escape is literal)
  // ---------------------------------------------------------------------

  /** `[\w-\.]` */
  predicate IsDonorLocalChar(c: char) {
    IsWordChar(c) || c == '-' || c == '.'
  }

  /** `[\w-]` */
  predicate IsLabelChar(c: char) {
    IsWordChar(c) || c == '-'
  }

  /** `[\w-]{2,4}` */
  predicate IsTld(t: string) {
    2 <= |t| <= 4 && All(t, IsLabelChar)
  }

  /** `([\w-]+\.)+[\w-]{2,4}`: a label and its dot at `k`, followed either by
      the final part or by more labels. */
  ghost predicate DomainRegex(r: string)
    decreases |r|
  {
    exists k :: 0 < k < |r| && r[k] == '.' && All(r[..k], IsLabelChar)
                && (IsTld(r[k + 1..]) || DomainRegex(r[k + 1..]))
  }

  /** The set of strings the whole (optional) pattern matches. */
  ghost predicate DonorEmailRegex(s: string) {
    || s == []
    || exists at :: 0 < at < |s| && s[at] == '@' && All(s[..at], IsDonorLocalChar)
                    && DomainRegex(s[at + 1..])
  }

  /** Checker for the domain: labels cannot hold a `.`, so each one ends at
      the next `.`. */
  function DomainOk(r: string): bool
    decreases |r|
  {
    match IndexOf(r, '.')
    case None => false
    case Some(k) =>
      0 < k && All(r[..k], IsLabelChar) && (IsTld(r[k + 1..]) || DomainOk(r[k + 1..]))
  }

  /** Checker for the whole donor pattern. */
  function IsDonorEmail(s: string): bool {
    || s == []
    || match IndexOf(s, '@')
       case None => false
       case Some(at) => 0 < at && All(s[..at], IsDonorLocalChar) && DomainOk(s[at + 1..])
  }

  /** A label of label characters ends at the first `.` of `r`. */
  lemma LabelEndsAtFirstDot(r: string, k: nat)
    requires k < |r| && r[k] == '.' && All(r[..k], IsLabelChar)
    ensures IndexOf(r, '.') == Some(k)
  {
    forall j | 0 <= j < k
      ensures r[j] != '.'
    {
      assert r[..k][j] == r[j];
    }
  }

  lemma {:induction false} DomainCheckerIsRegex(r: string)
    ensures DomainOk(r) <==> DomainRegex(r)
    decreases |r|
  {
    match IndexOf(r, '.')
    case None =>
    case Some(k0) =>
      var rest := r[k0 + 1..];
      DomainCheckerIsRegex(rest);
      if DomainOk(r) {
        assert 0 < k0 < |r| && r[k0] == '.' && All(r[..k0], IsLabelChar)
               && (IsTld(rest) || DomainRegex(rest));
      }
      if DomainRegex(r) {
        var k :| 0 < k < |r| && r[k] == '.' && All(r[..k], IsLabelChar)
                 && (IsTld(r[k + 1..]) || DomainRegex(r[k + 1..]));
        LabelEndsAtFirstDot(r, k);
        assert k == k0;
      }
  }

  /** The donor checker accepts exactly the strings the pattern matches. */
  lemma DonorEmailCheckerIsRegex(s: string)
    ensures IsDonorEmail(s) <==> DonorEmailRegex(s)
  {
    if s != [] {
      match IndexOf(s, '@')
      case None =>
      case Some(at0) =>
        DomainCheckerIsRegex(s[at0 + 1..]);
        if DonorEmailRegex(s) {
          var at :| 0 < at < |s| && s[at] == '@' && All(s[..at], IsDonorLocalChar)
                    && DomainRegex(s[at + 1..]);
          forall j | 0 <= j < at
            ensures s[j] != '@'
          {
            assert s[..at][j] == s[j];
          }
          assert at == at0;
        }
    }
  }

  // ---------------------------------------------------------------------
  // /^[0-9]{10}$/  (the phone and whatsapp validators)
  // ---------------------------------------------------------------------

  predicate IsTenDigits(s: string) {
    |s| == 10 && All(s, IsDigit)
  }
}
