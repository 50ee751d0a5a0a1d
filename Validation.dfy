/** The validation patterns and configuration lists of the app's constants.
    Each regular expression is stated twice: as the shape the expression
    describes (where its parts start and end), and as a direct check a caller
    can run; a lemma shows the two accept the same strings. The regular
    expressions are read with the semantics of ECMA-262 6th edition, section
    21.2 (no flags, anchored at both ends). */
module Validation {
  import opened Types
  import opened Seqs
  import opened Strings

  // ------------------------------------------------------ character classes

  /** `\s`: the WhiteSpace and LineTerminator code points of sections 11.2
      and 11.3 of ECMA-262 6th edition (space separators as of Unicode 8). */
  predicate IsJsWhitespace(c: char) {
    || c == '\t' || c == '\n' || c == '\U{B}' || c == '\U{C}' || c == '\r' || c == ' '
    || c == '\U{A0}' || c == '\U{1680}' || ('\U{2000}' <= c <= '\U{200A}')
    || c == '\U{2028}' || c == '\U{2029}' || c == '\U{202F}' || c == '\U{205F}' || c == '\U{3000}' || c == '\U{FEFF}'
  }

  /** `[^\s@]`. */
  predicate IsEmailChar(c: char) {
    !IsJsWhitespace(c) && c != '@'
  }

  predicate AllEmailChars(s: string) {
    forall k :: 0 <= k < |s| ==> IsEmailChar(s[k])
  }

  predicate AllDigits(s: string) {
    forall k :: 0 <= k < |s| ==> IsDigit(s[k])
  }

  predicate IsAsciiLetter(c: char) {
    'A' <= c <= 'Z' || 'a' <= c <= 'z'
  }

  /** `[A-Za-z\d@$!%*#?&]`. */
  predicate IsPasswordChar(c: char) {
    IsAsciiLetter(c) || IsDigit(c) || c == '@' || c == '$' || c == '!' || c == '%' || c == '*' || c == '#' || c == '?' || c == '&'
  }

  // ------------------------------------------------------ EMAIL

  /** `^[^\s@]+@[^\s@]+\.[^\s@]+$`: a non-empty run, `@` at `i`, a non-empty
      run, `.` at `j`, a non-empty run; no run holds whitespace or `@` (a run
      may hold dots). */
  ghost predicate EmailPattern(s: string)
    ensures EmailPattern(s) ==> |s| >= 5
  {
    exists i, j :: 0 < i && i + 1 < j && j + 1 < |s| && s[i] == '@' && s[j] == '.'
      && AllEmailChars(s[..i]) && AllEmailChars(s[i + 1..j]) && AllEmailChars(s[j + 1..])
  }

  function IndexOfChar(s: string, c: char): (i: int)
    ensures -1 <= i < |s|
    ensures i >= 0 ==> s[i] == c && c !in s[..i]
    ensures i == -1 ==> c !in s
  {
    var i := FindIndex(s, (d: char) => d == c);
    assert i >= 0 ==> s[..i] == s[..i] && forall k :: 0 <= k < i ==> s[..i][k] == s[k];
    i
  }

  /** The first occurrence is found at `i` when nothing before `i` is `c`. */
  lemma IndexOfCharAt(s: string, c: char, i: int)
    requires 0 <= i < |s| && s[i] == c
    requires forall k :: 0 <= k < i ==> s[k] != c
    ensures IndexOfChar(s, c) == i
  {
  }

  /** The direct check: no whitespace, exactly one `@` and not first, and a
      dot after it that is neither right after the `@` nor last. */
  predicate IsValidEmail(s: string)
    ensures IsValidEmail(s) ==> |s| >= 5 && '@' in s
  {
    && (forall k :: 0 <= k < |s| ==> !IsJsWhitespace(s[k]))
    && var at := IndexOfChar(s, '@');
    && at > 0
    && '@' !in s[at + 1..]
    && at + 2 < |s|
    && '.' in s[at + 2..|s| - 1]
  }

  lemma EmailCheckSound(s: string)
    requires IsValidEmail(s)
    ensures EmailPattern(s)
  {
    var at := IndexOfChar(s, '@');
    var tail := s[at + 2..|s| - 1];
    var m :| 0 <= m < |tail| && tail[m] == '.';
    var j := at + 2 + m;
    assert s[j] == tail[m];
    forall k | 0 <= k < |s| && k != at ensures IsEmailChar(s[k]) {
      if k < at { assert s[..at][k] == s[k]; } else { assert s[at + 1..][k - at - 1] == s[k]; }
    }
    assert AllEmailChars(s[..at]) by {
      forall k | 0 <= k < at ensures IsEmailChar(s[..at][k]) { assert s[..at][k] == s[k]; }
    }
    assert AllEmailChars(s[at + 1..j]) by {
      var mid := s[at + 1..j];
      forall k | 0 <= k < |mid| ensures IsEmailChar(mid[k]) { assert mid[k] == s[at + 1 + k]; }
    }
    assert AllEmailChars(s[j + 1..]) by {
      var last := s[j + 1..];
      forall k | 0 <= k < |last| ensures IsEmailChar(last[k]) { assert last[k] == s[j + 1 + k]; }
    }
  }

  /** Outside the `@` the three runs leave only email characters. */
  lemma EmailRunsCover(s: string, i: int, j: int)
    requires 0 < i && i + 1 < j && j + 1 < |s| && s[j] == '.'
    requires AllEmailChars(s[..i]) && AllEmailChars(s[i + 1..j]) && AllEmailChars(s[j + 1..])
    ensures forall k :: 0 <= k < |s| && k != i ==> IsEmailChar(s[k])
  {
    forall k | 0 <= k < |s| && k != i ensures IsEmailChar(s[k]) {
      if k < i { assert s[k] == s[..i][k]; }
      else if k < j { assert s[k] == s[i + 1..j][k - i - 1]; }
      else if j < k { assert s[k] == s[j + 1..][k - j - 1]; }
    }
  }

  lemma EmailCheckComplete(s: string)
    requires EmailPattern(s)
    ensures IsValidEmail(s)
  {
    var i, j :| 0 < i && i + 1 < j && j + 1 < |s| && s[i] == '@' && s[j] == '.'
      && AllEmailChars(s[..i]) && AllEmailChars(s[i + 1..j]) && AllEmailChars(s[j + 1..]);
    EmailRunsCover(s, i, j);
    var at := IndexOfChar(s, '@');
    assert at == i;
    assert '@' !in s[at + 1..] by {
      var rest := s[at + 1..];
      forall k | 0 <= k < |rest| ensures rest[k] != '@' { assert rest[k] == s[at + 1 + k]; }
    }
    assert s[at + 2..|s| - 1][j - at - 2] == '.';
  }

  /** The check accepts exactly the strings the expression matches. */
  lemma EmailCheckMatchesPattern(s: string)
    ensures IsValidEmail(s) <==> EmailPattern(s)
  {
    if IsValidEmail(s) { EmailCheckSound(s); }
    if EmailPattern(s) { EmailCheckComplete(s); }
  }

  // ------------------------------------------------------ PHONE

  /** `^[0-9]{2,3}-[0-9]{3,4}-[0-9]{4}$`: 2 or 3 digits, `-` at `i`, 3 or 4
      digits, `-` at `j`, 4 digits. */
  ghost predicate PhonePattern(s: string)
    ensures PhonePattern(s) ==> 11 <= |s| <= 13
  {
    exists i, j :: 2 <= i <= 3 && 3 <= j - i - 1 <= 4 && |s| == j + 5 && s[i] == '-' && s[j] == '-'
      && AllDigits(s[..i]) && AllDigits(s[i + 1..j]) && AllDigits(s[j + 1..])
  }

  /** The direct check: the last four are digits after a `-`, and what is
      before that is 2 or 3 digits, `-`, 3 or 4 digits. */
  predicate IsValidPhone(s: string)
    ensures IsValidPhone(s) ==> 11 <= |s| <= 13
  {
    && |s| >= 5
    && AllDigits(s[|s| - 4..]) && s[|s| - 5] == '-'
    && var front := s[..|s| - 5];
    && var i := IndexOfChar(front, '-');
    && (i == 2 || i == 3)
    && 3 <= |front| - i - 1 <= 4
    && AllDigits(front[..i]) && AllDigits(front[i + 1..])
  }

  lemma PhoneCheckSound(s: string)
    requires IsValidPhone(s)
    ensures PhonePattern(s)
  {
    var front := s[..|s| - 5];
    var i := IndexOfChar(front, '-');
    var j := |s| - 5;
    assert s[..i] == front[..i] && s[i + 1..j] == front[i + 1..];
    assert s[i] == front[i];
    assert s[j + 1..] == s[|s| - 4..];
  }

  lemma PhoneCheckComplete(s: string)
    requires PhonePattern(s)
    ensures IsValidPhone(s)
  {
    var i, j :| 2 <= i <= 3 && 3 <= j - i - 1 <= 4 && |s| == j + 5 && s[i] == '-' && s[j] == '-'
      && AllDigits(s[..i]) && AllDigits(s[i + 1..j]) && AllDigits(s[j + 1..]);
    var front := s[..j];
    var head := s[..i];
    assert front[..i] == head && front[i + 1..] == s[i + 1..j];
    assert s[j + 1..] == s[|s| - 4..];
    forall k | 0 <= k < i ensures front[k] != '-' {
      assert front[k] == head[k];
    }
    IndexOfCharAt(front, '-', i);
    assert front == s[..|s| - 5];
    assert AllDigits(front[..i]) && AllDigits(front[i + 1..]);
  }

  /** The check accepts exactly the strings the expression matches. */
  lemma PhoneCheckMatchesPattern(s: string)
    ensures IsValidPhone(s) <==> PhonePattern(s)
  {
    if IsValidPhone(s) { PhoneCheckSound(s); }
    if PhonePattern(s) { PhoneCheckComplete(s); }
  }

  // ------------------------------------------------------ PASSWORD

  /** `^(?=.*[A-Za-z])(?=.*\d)[A-Za-z\d@$!%*#?&]{8,}$`: at least eight
      characters of the class, one of them a letter and one a digit (the
      class holds no line terminator, so the look-aheads see the whole
      string). */
  ghost predicate PasswordPattern(s: string)
    ensures PasswordPattern(s) ==> forall k :: 0 <= k < |s| ==> !IsJsWhitespace(s[k])
  {
    && |s| >= 8
    && (forall k :: 0 <= k < |s| ==> IsPasswordChar(s[k]))
    && (exists k :: 0 <= k < |s| && IsAsciiLetter(s[k]))
    && (exists k :: 0 <= k < |s| && IsDigit(s[k]))
  }

  /** What one pass over the string finds. */
  datatype PasswordScan = PasswordScan(allAllowed: bool, hasLetter: bool, hasDigit: bool)

  function ScanPassword(s: string): (r: PasswordScan)
    decreases |s|
  {
    if s == [] then PasswordScan(true, false, false)
    else
      var rest := ScanPassword(s[1..]);
      PasswordScan(IsPasswordChar(s[0]) && rest.allAllowed, IsAsciiLetter(s[0]) || rest.hasLetter, IsDigit(s[0]) || rest.hasDigit)
  }

  lemma {:induction false} ScanPasswordSpec(s: string)
    ensures ScanPassword(s).allAllowed <==> forall k :: 0 <= k < |s| ==> IsPasswordChar(s[k])
    ensures ScanPassword(s).hasLetter <==> exists k :: 0 <= k < |s| && IsAsciiLetter(s[k])
    ensures ScanPassword(s).hasDigit <==> exists k :: 0 <= k < |s| && IsDigit(s[k])
    decreases |s|
  {
    if s != [] {
      ScanPasswordSpec(s[1..]);
      assert forall k :: 1 <= k < |s| ==> s[k] == s[1..][k - 1];
      if exists k :: 0 <= k < |s| && IsAsciiLetter(s[k]) {
        var k :| 0 <= k < |s| && IsAsciiLetter(s[k]);
        if k > 0 { assert IsAsciiLetter(s[1..][k - 1]); }
      }
      if exists k :: 0 <= k < |s| && IsDigit(s[k]) {
        var k :| 0 <= k < |s| && IsDigit(s[k]);
        if k > 0 { assert IsDigit(s[1..][k - 1]); }
      }
      if exists k :: 0 <= k < |s[1..]| && IsAsciiLetter(s[1..][k]) {
        var k :| 0 <= k < |s[1..]| && IsAsciiLetter(s[1..][k]);
        assert IsAsciiLetter(s[k + 1]);
      }
      if exists k :: 0 <= k < |s[1..]| && IsDigit(s[1..][k]) {
        var k :| 0 <= k < |s[1..]| && IsDigit(s[1..][k]);
        assert IsDigit(s[k + 1]);
      }
    }
  }

  /** The direct check: long enough, and one pass finds only allowed
      characters, a letter and a digit. */
  predicate IsValidPassword(s: string)
    ensures IsValidPassword(s) ==> exists k :: 0 <= k < |s| && IsDigit(s[k])
  {
    ScanPasswordSpec(s);
    var r := ScanPassword(s);
    |s| >= 8 && r.allAllowed && r.hasLetter && r.hasDigit
  }

  lemma PasswordCheckMatchesPattern(s: string)
    ensures IsValidPassword(s) <==> PasswordPattern(s)
  {
    ScanPasswordSpec(s);
  }

  // ------------------------------------------------------ IP_ADDRESS

  /** `25[0-5]|2[0-4][0-9]|[01]?[0-9][0-9]?`, alternative by alternative. */
  predicate OctetPattern(t: string) {
    || (|t| == 3 && t[0] == '2' && t[1] == '5' && '0' <= t[2] <= '5')
    || (|t| == 3 && t[0] == '2' && '0' <= t[1] <= '4' && IsDigit(t[2]))
    || (|t| == 1 && IsDigit(t[0]))
    || (|t| == 2 && IsDigit(t[0]) && IsDigit(t[1]))
    || (|t| == 2 && (t[0] == '0' || t[0] == '1') && IsDigit(t[1]))
    || (|t| == 3 && (t[0] == '0' || t[0] == '1') && IsDigit(t[1]) && IsDigit(t[2]))
  }

  /** One to three digits with value at most 255; leading zeros allowed. */
  predicate IsOctet(t: string) {
    1 <= |t| <= 3 && AllDigits(t) && DecimalValue(t) <= 255
  }

  lemma DecimalValueOfThree(t: string)
    requires |t| == 3 && AllDigits(t)
    ensures DecimalValue(t) == 100 * (t[0] as int - '0' as int) + 10 * (t[1] as int - '0' as int) + (t[2] as int - '0' as int)
  {
    assert t[..2][..1] == t[..1];
    assert DecimalValue(t[..2]) == 10 * DecimalValue(t[..1]) + (t[1] as int - '0' as int);
    assert DecimalValue(t[..1]) == 10 * DecimalValue(t[..0]) + (t[0] as int - '0' as int);
  }

  lemma DecimalValueOfFewDigits(t: string)
    requires 1 <= |t| <= 2 && AllDigits(t)
    ensures DecimalValue(t) <= 99
  {
    if |t| == 2 {
      assert t[..1][..0] == [];
      assert DecimalValue(t[..1]) == t[0] as int - '0' as int;
    }
  }

  /** The alternatives of the octet expression accept exactly the octets. */
  lemma OctetPatternIsOctet(t: string)
    ensures OctetPattern(t) <==> IsOctet(t)
  {
    if |t| == 3 && AllDigits(t) {
      DecimalValueOfThree(t);
    } else if 1 <= |t| <= 2 && AllDigits(t) {
      DecimalValueOfFewDigits(t);
    }
  }

  /** `s.split('.')`. */
  function Split(s: string, sep: char): (parts: seq<string>)
    ensures |parts| >= 1
    ensures forall k :: 0 <= k < |parts| ==> sep !in parts[k]
    decreases |s|
  {
    var i := IndexOfChar(s, sep);
    if i < 0 then [s] else [s[..i]] + Split(s[i + 1..], sep)
  }

  /** `parts.join('.')`. */
  function Join(parts: seq<string>, sep: char): string
    requires |parts| >= 1
    decreases |parts|
  {
    if |parts| == 1 then parts[0] else parts[0] + [sep] + Join(parts[1..], sep)
  }

  /** Splitting and joining are inverse on parts free of the separator. */
  lemma {:induction false} SplitJoin(parts: seq<string>, sep: char)
    requires |parts| >= 1 && forall k :: 0 <= k < |parts| ==> sep !in parts[k]
    ensures Split(Join(parts, sep), sep) == parts
    decreases |parts|
  {
    var s := Join(parts, sep);
    if |parts| == 1 {
      assert IndexOfChar(s, sep) == -1;
    } else {
      var rest := Join(parts[1..], sep);
      assert s == parts[0] + ([sep] + rest);
      assert IndexOfChar(s, sep) == |parts[0]| by {
        assert s[|parts[0]|] == sep;
        assert s[..|parts[0]|] == parts[0];
      }
      assert s[|parts[0]| + 1..] == rest;
      SplitJoin(parts[1..], sep);
    }
  }

  lemma {:induction false} JoinSplit(s: string, sep: char)
    ensures Join(Split(s, sep), sep) == s
    decreases |s|
  {
    var i := IndexOfChar(s, sep);
    if i >= 0 {
      JoinSplit(s[i + 1..], sep);
      assert s == s[..i] + [sep] + s[i + 1..];
    }
  }

  /** Four parts joined by a separator take their lengths plus three. */
  lemma JoinFourLengths(sep: char)
    ensures forall parts: seq<string> {:trigger Join(parts, sep)} :: |parts| == 4 ==>
      |Join(parts, sep)| == |parts[0]| + |parts[1]| + |parts[2]| + |parts[3]| + 3
  {
    forall parts: seq<string> | |parts| == 4
      ensures |Join(parts, sep)| == |parts[0]| + |parts[1]| + |parts[2]| + |parts[3]| + 3
    {
      calc {
        |Join(parts, sep)|;
        |parts[0]| + 1 + |Join(parts[1..], sep)|;
        { assert parts[1..][1..] == parts[2..]; }
        |parts[0]| + |parts[1]| + 2 + |Join(parts[2..], sep)|;
        { assert parts[2..][1..] == parts[3..]; }
        |parts[0]| + |parts[1]| + |parts[2]| + 3 + |Join(parts[3..], sep)|;
      }
    }
  }

  /** `^(?:(?:OCTET)\.){3}(?:OCTET)$`: four parts matching the octet
      expression, joined by dots. */
  ghost predicate IpAddressPattern(s: string)
    ensures IpAddressPattern(s) ==> 7 <= |s| <= 15
  {
    JoinFourLengths('.');
    exists parts: seq<string> :: |parts| == 4 && Join(parts, '.') == s && forall k :: 0 <= k < 4 ==> OctetPattern(parts[k])
  }

  /** The direct check: split at the dots, four parts, each an octet. */
  predicate IsValidIpAddress(s: string)
    ensures IsValidIpAddress(s) ==> 7 <= |s| <= 15
  {
    JoinSplit(s, '.');
    JoinFourLengths('.');
    var parts := Split(s, '.');
    |parts| == 4 && forall k :: 0 <= k < 4 ==> IsOctet(parts[k])
  }

  lemma IpCheckMatchesPattern(s: string)
    ensures IsValidIpAddress(s) <==> IpAddressPattern(s)
  {
    if IsValidIpAddress(s) {
      var parts := Split(s, '.');
      JoinSplit(s, '.');
      forall k | 0 <= k < 4 ensures OctetPattern(parts[k]) {
        OctetPatternIsOctet(parts[k]);
      }
    }
    if IpAddressPattern(s) {
      var parts :| |parts| == 4 && Join(parts, '.') == s && forall k :: 0 <= k < 4 ==> OctetPattern(parts[k]);
      forall k | 0 <= k < 4 ensures '.' !in parts[k] && IsOctet(parts[k]) {
        OctetPatternIsOctet(parts[k]);
      }
      SplitJoin(parts, '.');
    }
  }

  /** Leading zeros are accepted, and 256 is not an octet. */
  lemma OctetExamples()
    ensures IsOctet("001") && IsOctet("255") && !IsOctet("256")
  {
    DecimalValueOfThree("001");
    DecimalValueOfThree("255");
    DecimalValueOfThree("256");
  }

  // ------------------------------------------------------ configuration

  const FrameConfigCategories: seq<string> := ["seasonal", "event", "special", "basic"]
  const FrameConfigSeasons: seq<string> := ["spring", "summer", "autumn", "winter"]
  const FrameConfigEvents: seq<string> := ["christmas", "easter", "thanksgiving", "baptism", "wedding", "bible_study", "youth_group"]

  /** The category, season and event lists name every value of their enum
      once, in declaration order. */
  lemma FrameConfigListsMatchEnums()
    ensures FrameConfigCategories == [FrameCategoryName(Seasonal), FrameCategoryName(EventCategory), FrameCategoryName(Special), FrameCategoryName(Basic)]
    ensures FrameConfigSeasons == [SeasonName(Spring), SeasonName(Summer), SeasonName(Autumn), SeasonName(Winter)]
    ensures FrameConfigEvents == [HubEventName(Christmas), HubEventName(Easter), HubEventName(Thanksgiving), HubEventName(Baptism),
                                  HubEventName(Wedding), HubEventName(BibleStudy), HubEventName(YouthGroup)]
    ensures forall c: FrameCategory :: FrameCategoryName(c) in FrameConfigCategories
    ensures forall s: Season :: SeasonName(s) in FrameConfigSeasons
    ensures forall e: HubEvent :: HubEventName(e) in FrameConfigEvents
  {
  }

  const DefaultPaperSize := "4x6"
  const DefaultPrintQuality := "normal"
  const DefaultCopies := 1
  const MaxCopies := 10
  const PaperSizes: seq<string> := ["4x6", "5x7", "6x8"]
  const PrintQualities: seq<string> := ["draft", "normal", "high", "premium"]

  /** The print defaults are among the listed choices, the default copy count
      is within the maximum, and the lists are the enums' values. */
  lemma PrintConfigConsistent()
    ensures DefaultPaperSize in PaperSizes && DefaultPrintQuality in PrintQualities
    ensures 1 <= DefaultCopies <= MaxCopies
    ensures PaperSizes == [PaperSizeName(FourBySix), PaperSizeName(FiveBySeven), PaperSizeName(SixByEight)]
    ensures PrintQualities == [PrintQualityName(Draft), PrintQualityName(Normal), PrintQualityName(High), PrintQualityName(Premium)]
    ensures DefaultPaperSize == PaperSizeName(FourBySix) && DefaultPrintQuality == PrintQualityName(Normal)
  {
  }
}
