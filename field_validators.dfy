/** The field validators both validation scripts share: the three regular
    expressions they apply with `re.match` (email address, account name,
    organizational-unit path) and the keys an account request must carry.

    Each regular expression has the form `^X$`. `re.match` anchors at the
    start; Python's `$` (without MULTILINE) matches at the end of the string
    or just before one final newline, so `^X$` accepts `s` when `s` is in
    the language of `X` or `s` is a word of that language followed by a
    single `'\n'`. The model keeps that detail. */
module FieldValidators {
  import opened Json

  /** The character classes the patterns use. The hyphen in `[a-zA-Z0-9-_]`
      stands after the range `0-9`, so it is a literal hyphen, not a range. */
  datatype CharClass =
    | LocalPart   // [a-zA-Z0-9._%+-]
    | DomainPart  // [a-zA-Z0-9.-]
    | Letter      // [a-zA-Z]
    | NameChar    // [a-zA-Z0-9-_]
    | OuPathChar  // [a-zA-Z0-9-_/]

  predicate IsAsciiLetter(c: char) {
    'a' <= c <= 'z' || 'A' <= c <= 'Z'
  }

  predicate IsDigit(c: char) {
    '0' <= c <= '9'
  }

  predicate InClass(c: char, cls: CharClass) {
    match cls
    case LocalPart => IsAsciiLetter(c) || IsDigit(c) || c in "._%+-"
    case DomainPart => IsAsciiLetter(c) || IsDigit(c) || c == '.' || c == '-'
    case Letter => IsAsciiLetter(c)
    case NameChar => IsAsciiLetter(c) || IsDigit(c) || c == '-' || c == '_'
    case OuPathChar => IsAsciiLetter(c) || IsDigit(c) || c == '-' || c == '_' || c == '/'
  }

  predicate AllIn(s: string, cls: CharClass) {
    forall i :: 0 <= i < |s| ==> InClass(s[i], cls)
  }

  /** The three patterns the scripts match against. */
  datatype Pattern =
    | EmailAddress  // ^[a-zA-Z0-9._%+-]+@[a-zA-Z0-9.-]+\.[a-zA-Z]{2,}$
    | AccountName   // ^[a-zA-Z0-9-_]+$
    | OuPath        // ^[a-zA-Z0-9-_/]+$

  /** The position of the first `c` in `s`, or `|s|` when there is none. */
  function IndexOf(s: string, c: char): (i: nat)
    ensures i <= |s|
    ensures i < |s| ==> s[i] == c
    ensures forall j :: 0 <= j < i ==> s[j] != c
  {
    if s == [] then 0
    else if s[0] == c then 0
    else 1 + IndexOf(s[1..], c)
  }

  /** The position of the last `c` in `s`, or -1 when there is none. */
  function LastIndexOf(s: string, c: char): (i: int)
    ensures -1 <= i < |s|
    ensures i >= 0 ==> s[i] == c
    ensures forall j :: i < j < |s| ==> s[j] != c
  {
    if s == [] then -1
    else if s[|s| - 1] == c then |s| - 1
    else LastIndexOf(s[..|s| - 1], c)
  }

  /** Whether `s`, with no trailing newline, is in the language of the email
      pattern: the local part runs up to the first '@', and the top-level
      domain is what follows the last '.' after it. */
  predicate IsEmailBody(s: string) {
    var at := IndexOf(s, '@');
    && 1 <= at < |s|
    && AllIn(s[..at], LocalPart)
    && var domain := s[at + 1..];
    && AllIn(domain, DomainPart)
    && var dot := LastIndexOf(domain, '.');
    && 1 <= dot
    && |domain| - dot - 1 >= 2
    && AllIn(domain[dot + 1..], Letter)
  }

  /** Whether `s`, with no trailing newline, is in the language of `p`. */
  predicate BodyMatches(p: Pattern, s: string) {
    match p
    case EmailAddress => IsEmailBody(s)
    case AccountName => |s| >= 1 && AllIn(s, NameChar)
    case OuPath => |s| >= 1 && AllIn(s, OuPathChar)
  }

  /** `s` with one final newline removed, where `$` may match. */
  function BeforeFinalNewline(s: string): string {
    if |s| > 0 && s[|s| - 1] == '\n' then s[..|s| - 1] else s
  }

  /** `bool(re.match(pattern, s))` on a string `s`. */
  predicate Matches(p: Pattern, s: string) {
    BodyMatches(p, BeforeFinalNewline(s))
  }

  /** `re.match(pattern, subject)`: a subject that is not a string raises
      TypeError. */
  function ReMatch(p: Pattern, subject: Json): Outcome<bool> {
    if subject.JString? then Ok(Matches(p, subject.s)) else Raised(TypeError)
  }

  /** `s` splits as local + '@' + domain + '.' + tld with the '@' at `at`
      and the '.' at `dot`: the email pattern read piece by piece. */
  ghost predicate EmailSplit(s: string, at: int, dot: int) {
    && 1 <= at && at + 2 <= dot && dot + 3 <= |s|
    && s[at] == '@' && s[dot] == '.'
    && AllIn(s[..at], LocalPart)
    && AllIn(s[at + 1..dot], DomainPart)
    && AllIn(s[dot + 1..], Letter)
  }

  /** The language of the part of each pattern between `^` and `$`. */
  ghost predicate InLanguage(p: Pattern, s: string) {
    match p
    case EmailAddress => exists at, dot :: EmailSplit(s, at, dot)
    case AccountName => s != [] && forall i :: 0 <= i < |s| ==> InClass(s[i], NameChar)
    case OuPath => s != [] && forall i :: 0 <= i < |s| ==> InClass(s[i], OuPathChar)
  }

  /** The strings `re.match` with `^X$` accepts: the words of X, and the
      words of X followed by one newline. */
  ghost predicate Accepts(p: Pattern, s: string) {
    InLanguage(p, s) || (|s| > 0 && s[|s| - 1] == '\n' && InLanguage(p, s[..|s| - 1]))
  }

  /** The keys `custom_fields` must carry. */
  const RequiredCustomFields: seq<string> := ["environment", "cost_center", "project"]

  /** The keys `account_tags` must carry. */
  const RequiredTags: seq<string> := ["Environment", "CostCenter", "Project"]

  /** No word of a pattern's language contains a newline. */
  lemma NoNewlineInLanguage(p: Pattern, s: string)
    requires InLanguage(p, s)
    ensures forall i :: 0 <= i < |s| ==> s[i] != '\n'
  {
    if p.EmailAddress? {
      var at, dot :| EmailSplit(s, at, dot);
      forall i | 0 <= i < |s|
        ensures s[i] != '\n'
      {
        if i < at {
          assert s[..at][i] == s[i];
        } else if at < i < dot {
          assert s[at + 1..dot][i - at - 1] == s[i];
        } else if dot < i {
          assert s[dot + 1..][i - dot - 1] == s[i];
        }
      }
    }
  }

  /** A string the email check accepts splits at its first '@' and at the
      last '.' after it. */
  lemma EmailBodySplits(s: string)
    requires IsEmailBody(s)
    ensures EmailSplit(s, IndexOf(s, '@'), IndexOf(s, '@') + 1 + LastIndexOf(s[IndexOf(s, '@') + 1..], '.'))
  {
    var at := IndexOf(s, '@');
    var domain := s[at + 1..];
    var d := LastIndexOf(domain, '.');
    assert s[at + 1..at + 1 + d] == domain[..d];
    assert s[at + 1 + d + 1..] == domain[d + 1..];
  }

  /** In a split the pattern allows, the '@' is the first one. */
  lemma SplitAtFirstAt(s: string, a: int, t: int)
    requires EmailSplit(s, a, t)
    ensures IndexOf(s, '@') == a
  {
    forall j | 0 <= j < a
      ensures s[j] != '@'
    {
      assert s[..a][j] == s[j];
    }
  }

  /** In a split the pattern allows, everything after the '@' is in the
      domain class ('.' included). */
  lemma SplitDomainChars(s: string, a: int, t: int)
    requires EmailSplit(s, a, t)
    ensures AllIn(s[a + 1..], DomainPart)
  {
    var domain := s[a + 1..];
    forall i | 0 <= i < |domain|
      ensures InClass(domain[i], DomainPart)
    {
      if i < t - a - 1 {
        assert s[a + 1..t][i] == domain[i];
      } else if i > t - a - 1 {
        assert s[t + 1..][i - (t - a)] == domain[i];
      }
    }
  }

  /** In a split the pattern allows, the '.' is the last one. */
  lemma SplitAtLastDot(s: string, a: int, t: int)
    requires EmailSplit(s, a, t)
    ensures LastIndexOf(s[a + 1..], '.') == t - a - 1
  {
    var domain := s[a + 1..];
    assert domain[t - a - 1] == '.';
    forall j | t - a - 1 < j < |domain|
      ensures domain[j] != '.'
    {
      assert s[t + 1..][j - (t - a)] == domain[j];
    }
  }

  /** Any split the pattern allows is at the first '@' and the last '.', so
      the email check accepts the string. */
  lemma SplitIsEmailBody(s: string, a: int, t: int)
    requires EmailSplit(s, a, t)
    ensures IsEmailBody(s)
  {
    SplitAtFirstAt(s, a, t);
    SplitDomainChars(s, a, t);
    SplitAtLastDot(s, a, t);
    assert s[a + 1..][t - a..] == s[t + 1..];
  }

  /** The first '@' and the last '.' of a string in the email language are
      the ones its pattern splits at. */
  lemma EmailBodyIffSplit(s: string)
    ensures IsEmailBody(s) <==> exists at, dot :: EmailSplit(s, at, dot)
  {
    if IsEmailBody(s) {
      EmailBodySplits(s);
    }
    if exists a, t :: EmailSplit(s, a, t) {
      var a, t :| EmailSplit(s, a, t);
      SplitIsEmailBody(s, a, t);
    }
  }

  /** `re.match` with `^X$` accepts exactly the words of X and the words of X
      followed by one newline. */
  lemma MatchesIff(p: Pattern, s: string)
    ensures Matches(p, s) <==> Accepts(p, s)
  {
    if p.EmailAddress? {
      EmailBodyIffSplit(BeforeFinalNewline(s));
    }
    if InLanguage(p, s) {
      NoNewlineInLanguage(p, s);
    }
  }

  /** An email address that passes the pattern contains exactly one '@'. */
  lemma EmailHasOneAt(s: string)
    requires Matches(EmailAddress, s)
    ensures exists at :: 0 <= at < |s| && s[at] == '@' &&
              forall j :: 0 <= j < |s| && s[j] == '@' ==> j == at
  {
    var body := BeforeFinalNewline(s);
    EmailBodyIffSplit(body);
    var at, dot :| EmailSplit(body, at, dot);
    forall j | 0 <= j < |s| && j != at
      ensures s[j] != '@'
    {
      if j < at {
        assert InClass(body[..at][j], LocalPart);
      } else if at < j < dot {
        assert InClass(body[at + 1..dot][j - at - 1], DomainPart);
      } else if dot < j < |body| {
        assert InClass(body[dot + 1..][j - dot - 1], Letter);
      }
    }
    assert s[at] == '@';
  }

  /** Every valid account name is also a valid OU path. */
  lemma AccountNameIsOuPath(s: string)
    requires Matches(AccountName, s)
    ensures Matches(OuPath, s)
  {
  }

  /** A missing field defaults to `''`, which no pattern accepts. */
  lemma EmptyNeverMatches(p: Pattern)
    ensures !Matches(p, "")
  {
  }

  /** The trailing-newline detail on an example: one final newline is
      accepted, a second one is not. */
  lemma TrailingNewlineExample()
    ensures Matches(AccountName, "dev-account_1\n")
    ensures !Matches(AccountName, "dev-account_1\n\n")
  {
    var twice := "dev-account_1\n\n";
    assert BeforeFinalNewline(twice) == twice[..14];
    assert twice[..14][13] == '\n';
  }

  /** A string that does not end in a newline matches exactly when it is a
      word of the pattern's language. */
  lemma NoNewlineMatchesIff(p: Pattern, s: string)
    requires s == [] || s[|s| - 1] != '\n'
    ensures Matches(p, s) <==> BodyMatches(p, s)
  {
  }

  /** "ops@example.com" splits at its '@' and its last '.'. */
  lemma ExampleSplit()
    ensures EmailSplit("ops@example.com", 3, 11)
  {
    var e := "ops@example.com";
    assert e[..3] == "ops" && e[4..11] == "example" && e[12..] == "com";
  }

  /** A plain address passes the email pattern. */
  lemma EmailExample()
    ensures Matches(EmailAddress, "ops@example.com")
  {
    ExampleSplit();
    SplitIsEmailBody("ops@example.com", 3, 11);
    NoNewlineMatchesIff(EmailAddress, "ops@example.com");
  }

  /** The top-level domain needs at least two letters. */
  lemma ShortTopLevelDomainExample()
    ensures !Matches(EmailAddress, "ops@example.c")
  {
    OneLetterTopLevelDomain("ops@example.c");
    NoNewlineMatchesIff(EmailAddress, "ops@example.c");
  }

  /** A one-letter top-level domain never matches: when the next-to-last
      character is a '.', the last '.' after the '@' leaves at most one
      letter. */
  lemma OneLetterTopLevelDomain(s: string)
    requires |s| >= 2 && s[|s| - 2] == '.'
    ensures !IsEmailBody(s)
  {
    var at := IndexOf(s, '@');
    if 1 <= at < |s| {
      var domain := s[at + 1..];
      if at + 1 <= |s| - 2 {
        assert domain[|domain| - 2] == '.';
      }
    }
  }

}
