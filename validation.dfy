/**
 * The form validators of `ValidationUtils`. Each one is total: it returns
 * `None` (Kotlin `null`) when the input is acceptable, and otherwise the
 * message of the FIRST rule the input breaks; the rules are tried in order and
 * later rules are not looked at.
 *
 * Every `Regex.matches` of the source is modelled twice: a ghost predicate
 * that describes the language of the regular expression (how the text splits
 * into the parts the pattern names), and an executable predicate that decides
 * it; a lemma proves the two agree.
 */
module Validation {
  import opened Wrappers
  import opened Text

  const FieldRequired := "Este campo es obligatorio."
  const NameTooShort := "Debe tener al menos 2 caracteres."
  const NameTooLong := "Debe tener menos de 50 caracteres."
  const NameNotLetters := "Solo se permiten letras y espacios."

  const EmailRequired := "El correo es obligatorio."
  const EmailMissingAt := "El correo debe contener '@'."
  const EmailBadSuffix := "El correo debe terminar en '.com' o '.co'."

  const PasswordRequired := "La contrase\U{00F1}a es obligatoria."
  const PasswordTooShort := "Debe tener al menos 8 caracteres."
  const PasswordNoUpper := "Debe contener al menos una letra may\U{00FA}scula."
  const PasswordNoLower := "Debe contener al menos una letra min\U{00FA}scula."
  const PasswordNoDigit := "Debe contener al menos un n\U{00FA}mero."
  const PasswordNoSymbol := "Debe contener al menos un s\U{00ED}mbolo (!@#$%^&*)."

  const NameMessages := {FieldRequired, NameTooShort, NameTooLong, NameNotLetters}
  const EmailMessages := {EmailRequired, EmailMissingAt, EmailBadSuffix}
  const PasswordMessages := {PasswordRequired, PasswordTooShort, PasswordNoUpper,
                             PasswordNoLower, PasswordNoDigit, PasswordNoSymbol}

  // ---------------------------------------------------------------------------
  // Names: ^[a-zA-ZñÑáéíóúÁÉÍÓÚüÜ\s]+$

  /** One character of the class `[a-zA-ZñÑáéíóúÁÉÍÓÚüÜ\s]`. */
  predicate IsNameChar(c: char) {
    || IsAsciiLower(c) || IsAsciiUpper(c)
    || c in {'\U{00F1}', '\U{00D1}',                                      // ñ Ñ
             '\U{00E1}', '\U{00E9}', '\U{00ED}', '\U{00F3}', '\U{00FA}',  // á é í ó ú
             '\U{00C1}', '\U{00C9}', '\U{00CD}', '\U{00D3}', '\U{00DA}',  // Á É Í Ó Ú
             '\U{00FC}', '\U{00DC}'}                                      // ü Ü
    || IsRegexSpace(c)
  }

  /** `s.matches(Regex("^[a-zA-ZñÑáéíóúÁÉÍÓÚüÜ\\s]+$"))`. */
  predicate MatchesNamePattern(s: string) {
    |s| > 0 && forall i | 0 <= i < |s| :: IsNameChar(s[i])
  }

  /** `validateNameOrLastName`: the message of the first rule the trimmed
      input breaks (empty, shorter than 2, longer than 50, a character outside
      letters and spaces), or `None`. */
  function ValidateNameOrLastName(input: string): (r: Option<string>)
    ensures r.Some? ==> r.value in NameMessages
    ensures r == Some(FieldRequired) <==> Trim(input) == []
    ensures r == Some(NameTooShort) <==> |Trim(input)| == 1
    ensures r == Some(NameTooLong) <==> |Trim(input)| > 50
    ensures r == Some(NameNotLetters) <==>
              2 <= |Trim(input)| <= 50 && exists i | 0 <= i < |Trim(input)| :: !IsNameChar(Trim(input)[i])
    ensures r == None <==>
              2 <= |Trim(input)| <= 50 && forall i | 0 <= i < |Trim(input)| :: IsNameChar(Trim(input)[i])
  {
    var t := Trim(input);
    if |t| == 0 then Some(FieldRequired)
    else if |t| < 2 then Some(NameTooShort)
    else if |t| > 50 then Some(NameTooLong)
    else if !MatchesNamePattern(t) then Some(NameNotLetters)
    else None
  }

  // ---------------------------------------------------------------------------
  // E-mail: ^[\w._%+-]+@[\w.-]+\.(com|co)$

  /** One character of `[\w._%+-]`. */
  predicate IsLocalChar(c: char) {
    IsWordChar(c) || c == '.' || c == '_' || c == '%' || c == '+' || c == '-'
  }

  /** One character of `[\w.-]`. */
  predicate IsDomainChar(c: char) {
    IsWordChar(c) || c == '.' || c == '-'
  }

  predicate AllLocalChars(s: string) {
    forall i | 0 <= i < |s| :: IsLocalChar(s[i])
  }

  predicate AllDomainChars(s: string) {
    forall i | 0 <= i < |s| :: IsDomainChar(s[i])
  }

  /** `s` splits as `s[..at]`, `@`, `s[at + 1..dot]`, `s[dot..]` and these are,
      in order, one or more of `[\w._%+-]`, the `@`, one or more of `[\w.-]`,
      and `.com` or `.co`. */
  ghost predicate EmailSplit(s: string, at: int, dot: int) {
    && 0 < at && at + 1 < dot && dot < |s|
    && s[at] == '@'
    && AllLocalChars(s[..at])
    && AllDomainChars(s[at + 1..dot])
    && (s[dot..] == ".com" || s[dot..] == ".co")
  }

  /** The language of `^[\w._%+-]+@[\w.-]+\.(com|co)$`. */
  ghost predicate InEmailLanguage(s: string) {
    exists at, dot :: EmailSplit(s, at, dot)
  }

  /** `indexOf(c)`: the first position of `c`, or -1. */
  function IndexOf(s: string, c: char): (r: int)
    ensures r == -1 <==> c !in s
    ensures r != -1 ==> 0 <= r < |s| && s[r] == c && c !in s[..r]
  {
    if s == [] then -1
    else if s[0] == c then 0
    else
      var k := IndexOf(s[1..], c);
      if k == -1 then -1
      else
        assert s[..k + 1] == [s[0]] + s[1..][..k];
        k + 1
  }

  predicate EndsWith(s: string, suffix: string) {
    |suffix| <= |s| && s[|s| - |suffix|..] == suffix
  }

  /** Decides the e-mail pattern: neither character class contains `@`, so
      the `@` of a match is the first one in the text, and the ending decides
      whether `.com` or `.co` was matched. */
  predicate MatchesEmailPattern(s: string) {
    var at := IndexOf(s, '@');
    var tld := TldLength(s);
    && at > 0
    && tld > 0
    && at + 1 < |s| - tld
    && AllLocalChars(s[..at])
    && AllDomainChars(s[at + 1..|s| - tld])
  }

  /** The length of the ending `MatchesEmailPattern` strips: 4 for `.com`,
      3 for `.co`, 0 for anything else. */
  function TldLength(s: string): (n: int)
    ensures n == 4 <==> EndsWith(s, ".com")
    ensures n == 3 <==> !EndsWith(s, ".com") && EndsWith(s, ".co")
    ensures n == 0 <==> !EndsWith(s, ".com") && !EndsWith(s, ".co")
  {
    if EndsWith(s, ".com") then 4 else if EndsWith(s, ".co") then 3 else 0
  }

  /** In a matching split the `@` is the first one. */
  lemma EmailSplitAtIsFirst(s: string, at: int, dot: int)
    requires EmailSplit(s, at, dot)
    ensures IndexOf(s, '@') == at
  {
    assert '@' !in s[..at] by {
      forall i | 0 <= i < at ensures s[..at][i] != '@' {
        assert IsLocalChar(s[..at][i]);
      }
    }
    assert s[..at + 1] == s[..at] + [s[at]];
  }

  /** In a matching split the ending starts where `TldLength` says. */
  lemma EmailSplitDotIsEnding(s: string, at: int, dot: int)
    requires EmailSplit(s, at, dot)
    ensures dot == |s| - TldLength(s)
  {
    if s[dot..] == ".com" {
      assert EndsWith(s, ".com");
    } else {
      assert s[|s| - 1] == 'o';
      assert !EndsWith(s, ".com");
      assert EndsWith(s, ".co");
    }
  }

  /** The decision procedure accepts exactly the language of the regex. */
  lemma EmailPatternIsRegexLanguage(s: string)
    ensures MatchesEmailPattern(s) <==> InEmailLanguage(s)
  {
    var tld := TldLength(s);
    if MatchesEmailPattern(s) {
      assert s[|s| - tld..] == ".com" || s[|s| - tld..] == ".co";
      assert EmailSplit(s, IndexOf(s, '@'), |s| - tld);
    }
    if InEmailLanguage(s) {
      var a, d :| EmailSplit(s, a, d);
      EmailSplitAtIsFirst(s, a, d);
      EmailSplitDotIsEnding(s, a, d);
    }
  }

  /** `validateEmail`: empty after trimming, then no `@`, then not of the form
      `local@domain.com` / `local@domain.co`. */
  function ValidateEmail(email: string): (r: Option<string>)
    ensures r.Some? ==> r.value in EmailMessages
    ensures r == Some(EmailRequired) <==> Trim(email) == []
    ensures r == Some(EmailMissingAt) <==> Trim(email) != [] && '@' !in Trim(email)
    ensures r == Some(EmailBadSuffix) <==> '@' in Trim(email) && !InEmailLanguage(Trim(email))
    ensures r == None <==> InEmailLanguage(Trim(email))
  {
    var t := Trim(email);
    EmailPatternIsRegexLanguage(t);
    if |t| == 0 then Some(EmailRequired)
    else if '@' !in t then Some(EmailMissingAt)
    else if !MatchesEmailPattern(t) then Some(EmailBadSuffix)
    else None
  }

  // ---------------------------------------------------------------------------
  // Password: .*[A-Z].*, .*[a-z].*, .*\d.*, .*[!@#$%^&*].*

  /** The four character classes a password must contain. */
  datatype PasswordClass = Upper | Lower | Digit | Symbol

  predicate InPasswordClass(c: char, k: PasswordClass) {
    match k
    case Upper => IsAsciiUpper(c)
    case Lower => IsAsciiLower(c)
    case Digit => IsAsciiDigit(c)
    case Symbol => c in {'!', '@', '#', '$', '%', '^', '&', '*'}
  }

  /** The language of `.*[k].*`: some character of class `k`, with text on
      either side that `.` can match (no line terminator). */
  ghost predicate InDotStarLanguage(s: string, k: PasswordClass) {
    exists i | 0 <= i < |s| ::
      InPasswordClass(s[i], k) && NoLineTerminator(s[..i]) && NoLineTerminator(s[i + 1..])
  }

  /** Decides `s.matches(Regex(".*[k].*"))`. */
  predicate MatchesDotStar(s: string, k: PasswordClass) {
    NoLineTerminator(s) && exists i | 0 <= i < |s| :: InPasswordClass(s[i], k)
  }

  lemma DotStarIsRegexLanguage(s: string, k: PasswordClass)
    ensures MatchesDotStar(s, k) <==> InDotStarLanguage(s, k)
  {
    if MatchesDotStar(s, k) {
      var i :| 0 <= i < |s| && InPasswordClass(s[i], k);
      assert NoLineTerminator(s[..i]) by {
        forall j | 0 <= j < i ensures !IsLineTerminator(s[..i][j]) {
          assert s[..i][j] == s[j];
        }
      }
      assert NoLineTerminator(s[i + 1..]) by {
        var rest := s[i + 1..];
        forall j | 0 <= j < |rest| ensures !IsLineTerminator(rest[j]) {
          assert rest[j] == s[i + 1 + j];
        }
      }
    }
    if InDotStarLanguage(s, k) {
      var i :| 0 <= i < |s| && InPasswordClass(s[i], k)
               && NoLineTerminator(s[..i]) && NoLineTerminator(s[i + 1..]);
      forall j | 0 <= j < |s| ensures !IsLineTerminator(s[j]) {
        if j < i {
          assert s[j] == s[..i][j];
        } else if j > i {
          assert s[j] == s[i + 1..][j - i - 1];
        }
      }
    }
  }

  /** `validatePassword` (no trimming): empty, shorter than 8, then missing
      an upper-case letter, a lower-case letter, a digit, a symbol. */
  function ValidatePassword(password: string): (r: Option<string>)
    ensures r.Some? ==> r.value in PasswordMessages
    ensures r == Some(PasswordRequired) <==> password == []
    ensures r == Some(PasswordTooShort) <==> 0 < |password| < 8
    ensures r == Some(PasswordNoUpper) <==>
              |password| >= 8 && !InDotStarLanguage(password, Upper)
    ensures r == Some(PasswordNoLower) <==>
              |password| >= 8 && InDotStarLanguage(password, Upper) && !InDotStarLanguage(password, Lower)
    ensures r == Some(PasswordNoDigit) <==>
              && |password| >= 8
              && InDotStarLanguage(password, Upper) && InDotStarLanguage(password, Lower)
              && !InDotStarLanguage(password, Digit)
    ensures r == Some(PasswordNoSymbol) <==>
              && |password| >= 8
              && InDotStarLanguage(password, Upper) && InDotStarLanguage(password, Lower)
              && InDotStarLanguage(password, Digit) && !InDotStarLanguage(password, Symbol)
    ensures r == None <==>
              && |password| >= 8
              && InDotStarLanguage(password, Upper) && InDotStarLanguage(password, Lower)
              && InDotStarLanguage(password, Digit) && InDotStarLanguage(password, Symbol)
  {
    DotStarIsRegexLanguage(password, Upper);
    DotStarIsRegexLanguage(password, Lower);
    DotStarIsRegexLanguage(password, Digit);
    DotStarIsRegexLanguage(password, Symbol);
    if |password| == 0 then Some(PasswordRequired)
    else if |password| < 8 then Some(PasswordTooShort)
    else if !MatchesDotStar(password, Upper) then Some(PasswordNoUpper)
    else if !MatchesDotStar(password, Lower) then Some(PasswordNoLower)
    else if !MatchesDotStar(password, Digit) then Some(PasswordNoDigit)
    else if !MatchesDotStar(password, Symbol) then Some(PasswordNoSymbol)
    else None
  }

  // ---------------------------------------------------------------------------
  // Properties and examples

  /** With no line terminator in it, a password is accepted exactly when it
      has at least 8 characters and contains an upper-case letter, a
      lower-case letter, a digit and one of `!@#$%^&*`. */
  lemma PasswordAcceptedIff(password: string)
    requires NoLineTerminator(password)
    ensures ValidatePassword(password) == None <==>
              && |password| >= 8
              && (exists i | 0 <= i < |password| :: IsAsciiUpper(password[i]))
              && (exists i | 0 <= i < |password| :: IsAsciiLower(password[i]))
              && (exists i | 0 <= i < |password| :: IsAsciiDigit(password[i]))
              && (exists i | 0 <= i < |password| :: password[i] in {'!', '@', '#', '$', '%', '^', '&', '*'})
  {
    DotStarIsRegexLanguage(password, Upper);
    DotStarIsRegexLanguage(password, Lower);
    DotStarIsRegexLanguage(password, Digit);
    DotStarIsRegexLanguage(password, Symbol);
    assert forall i | 0 <= i < |password| :: IsAsciiUpper(password[i]) <==> InPasswordClass(password[i], Upper);
    assert forall i | 0 <= i < |password| :: IsAsciiLower(password[i]) <==> InPasswordClass(password[i], Lower);
    assert forall i | 0 <= i < |password| :: IsAsciiDigit(password[i]) <==> InPasswordClass(password[i], Digit);
  }

  /** The regex `.` does not match a line terminator, so a password of 8 or
      more characters that contains one is refused at the first class rule,
      with the upper-case message, whatever else it contains. */
  lemma PasswordWithLineTerminatorFailsUpperRule(password: string, k: nat)
    requires |password| >= 8 && k < |password| && IsLineTerminator(password[k])
    ensures ValidatePassword(password) == Some(PasswordNoUpper)
  {
    DotStarIsRegexLanguage(password, Upper);
    assert !NoLineTerminator(password);
  }

  /** The length rules let exactly 50 characters through, although the
      message of the last one speaks of "fewer than 50". */
  lemma NameOfFiftyLettersAccepted()
    ensures ValidateNameOrLastName(seq(50, _ => 'a')) == None
    ensures ValidateNameOrLastName(seq(51, _ => 'a')) == Some(NameTooLong)
  {
    TrimKeepsUntrimmed(seq(50, _ => 'a'));
    TrimKeepsUntrimmed(seq(51, _ => 'a'));
  }

  /** Surrounding whitespace does not count towards a name's length: a
      padded name gets the verdict of the name itself. */
  lemma PaddedNameJudgedWithoutPadding(pre: string, name: string, post: string)
    requires forall k | 0 <= k < |pre| :: IsKotlinWhitespace(pre[k])
    requires forall k | 0 <= k < |post| :: IsKotlinWhitespace(post[k])
    requires name != [] && !IsKotlinWhitespace(name[0]) && !IsKotlinWhitespace(name[|name| - 1])
    ensures ValidateNameOrLastName(pre + name + post) == ValidateNameOrLastName(name)
  {
    TrimDropsPadding(pre, name, post);
    TrimKeepsUntrimmed(name);
  }

  /** So a single letter between whitespace is too short. */
  lemma PaddedSingleLetterIsTooShort(pre: string, c: char, post: string)
    requires forall k | 0 <= k < |pre| :: IsKotlinWhitespace(pre[k])
    requires forall k | 0 <= k < |post| :: IsKotlinWhitespace(post[k])
    requires !IsKotlinWhitespace(c)
    ensures ValidateNameOrLastName(pre + [c] + post) == Some(NameTooShort)
  {
    PaddedNameJudgedWithoutPadding(pre, [c], post);
  }

  /** Every address of the form `local@domain.com` or `local@domain.co`
      with the allowed characters is accepted. */
  lemma WellFormedEmailAccepted(local: string, domain: string, tld: string)
    requires |local| > 0 && AllLocalChars(local)
    requires |domain| > 0 && AllDomainChars(domain)
    requires tld == "com" || tld == "co"
    ensures ValidateEmail(local + "@" + domain + "." + tld) == None
  {
    var s := local + "@" + domain + "." + tld;
    var at, dot := |local|, |local| + 1 + |domain|;
    assert s[0] == local[0] && IsLocalChar(local[0]);
    assert s[|s| - 1] == tld[|tld| - 1];
    TrimKeepsUntrimmed(s);
    assert s[..at] == local;
    assert s[at + 1..dot] == domain;
    assert s[dot..] == "." + tld;
    assert EmailSplit(s, at, dot);
  }

  /** An address with an `@` that ends in neither `.com` nor `.co` gets the
      ending message. */
  lemma WrongEndingRejected(email: string)
    requires '@' in Trim(email)
    requires !EndsWith(Trim(email), ".com") && !EndsWith(Trim(email), ".co")
    ensures ValidateEmail(email) == Some(EmailBadSuffix)
  {
    EmailPatternIsRegexLanguage(Trim(email));
  }

  /** "Abcdef1!" has one character of each class and is accepted. */
  lemma PasswordAccepted(p: string)
    requires p == "Abcdef1!"
    ensures ValidatePassword(p) == None
  {
    assert NoLineTerminator(p);
    PasswordAcceptedIff(p);
    assert IsAsciiUpper(p[0]) && IsAsciiLower(p[1]) && IsAsciiDigit(p[6]) && p[7] == '!';
  }

  /** "abcdefg1" has no upper-case letter and gets the upper-case message. */
  lemma PasswordWithoutUpper(p: string)
    requires p == "abcdefg1"
    ensures ValidatePassword(p) == Some(PasswordNoUpper)
  {
    assert forall i | 0 <= i < |p| :: !IsAsciiUpper(p[i]);
    DotStarIsRegexLanguage(p, Upper);
  }
}
