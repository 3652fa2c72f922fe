/** The shared display and validation helpers: duration text, role checks, status colours and
    payment-status mapping, truncation, initials, and the e-mail and phone validators. */
module Helpers {
  import opened Wrappers
  import opened Text
  import opened Constants

  // ---------------------------------------------------------------------------
  // Duration text
  // ---------------------------------------------------------------------------

  /** JavaScript's `%`: the remainder takes the sign of the dividend. */
  function TruncMod(a: int, b: int): (r: int)
    requires b > 0
    ensures a >= 0 ==> 0 <= r < b && r == a % b
    ensures a < 0 ==> -b < r <= 0
    ensures (a - r) % b == 0
  {
    TruncModDivides(a, b);
    if a >= 0 then a % b else -((-a) % b)
  }

  /** Both branches of `TruncMod` differ from the dividend by a multiple of `b`. */
  lemma TruncModDivides(a: int, b: int)
    requires b > 0
    ensures a >= 0 ==> (a - a % b) % b == 0
    ensures a < 0 ==> (a + (-a) % b) % b == 0
  {
    if a >= 0 {
      assert a - a % b == (a / b) * b;
      MultipleMod(a / b, b);
    } else {
      assert a + (-a) % b == -((-a) / b) * b;
      MultipleMod(-((-a) / b), b);
    }
  }

  /** A multiple of `b` leaves no remainder. */
  lemma MultipleMod(k: int, b: int)
    requires b > 0
    ensures (k * b) % b == 0
  {
    var d, r := (k * b) / b, (k * b) % b;
    assert r == (k - d) * b;
    if k - d >= 1 {
      MultipleAtLeast(k - d, b);
      assert false;
    } else if k - d <= -1 {
      MultipleAtLeast(d - k, b);
      assert false;
    }
  }

  lemma MultipleAtLeast(j: int, b: int)
    requires j >= 1 && b > 0
    ensures j * b >= b
  {
    assert j * b == (j - 1) * b + b;
  }

  /** `formatDuration(minutes)`: whole hours by `Math.floor` (Dafny's division by a positive
      number rounds down as well), leftover minutes by the truncating `%`. Zero hours show the
      minutes alone, zero leftover minutes show the hours alone. */
  function FormatDuration(minutes: int): (r: string)
    ensures 0 <= minutes < 60 ==> r == NatToString(minutes) + " menit"
    ensures minutes >= 60 && minutes % 60 == 0 ==> r == NatToString(minutes / 60) + " jam"
    ensures minutes >= 60 && minutes % 60 != 0 ==>
      r == NatToString(minutes / 60) + " jam " + NatToString(minutes % 60) + " menit"
    ensures minutes < 0 && minutes % 60 == 0 ==> r == "-" + NatToString(-minutes / 60) + " jam"
    ensures minutes < 0 && minutes % 60 != 0 ==>
      r == "-" + NatToString(-(minutes / 60)) + " jam -" + NatToString(60 - minutes % 60) + " menit"
  {
    DurationParts(minutes);
    var hours := minutes / 60;
    var mins := TruncMod(minutes, 60);
    if hours == 0 then IntToString(mins) + " menit"
    else if mins == 0 then IntToString(hours) + " jam"
    else IntToString(hours) + " jam " + IntToString(mins) + " menit"
  }

  /** The hours and leftover minutes of each range of `FormatDuration`. */
  lemma DurationParts(minutes: int)
    ensures 0 <= minutes < 60 ==> minutes / 60 == 0 && TruncMod(minutes, 60) == minutes
    ensures minutes >= 60 ==> minutes / 60 >= 1 && TruncMod(minutes, 60) == minutes % 60
    ensures minutes < 0 ==> minutes / 60 <= -1 && (TruncMod(minutes, 60) == 0 <==> minutes % 60 == 0)
    ensures minutes < 0 && minutes % 60 == 0 ==> -(minutes / 60) == -minutes / 60
    ensures minutes < 0 && minutes % 60 != 0 ==> -TruncMod(minutes, 60) == 60 - minutes % 60
  {
    if minutes < 0 {
      var q, m := (-minutes) / 60, (-minutes) % 60;
      assert -minutes == 60 * q + m;
      if m == 0 {
        assert minutes == 60 * (-q);
      } else {
        assert minutes == 60 * (-q - 1) + (60 - m);
      }
    }
  }

  predicate AllDigits(s: string) {
    forall i :: 0 <= i < |s| ==> IsDigit(s[i])
  }

  /** A non-empty run of digits read as a number. */
  function ReadNumber(s: string): Option<nat> {
    if s != [] && AllDigits(s) then Some(ParseDigits(s)) else None
  }

  /** Reads a duration text back into minutes: "r menit", "h jam" or "h jam r menit". */
  function ParseDuration(text: string): Option<nat> {
    ParseWords(Split(text, ' '))
  }

  function ParseWords(words: seq<string>): Option<nat> {
    if |words| == 2 && words[1] == "menit" && ReadNumber(words[0]).Some? then
      Some(ReadNumber(words[0]).value)
    else if |words| == 2 && words[1] == "jam" && ReadNumber(words[0]).Some? then
      Some(60 * ReadNumber(words[0]).value)
    else if |words| == 4 && words[1] == "jam" && words[3] == "menit"
        && ReadNumber(words[0]).Some? && ReadNumber(words[2]).Some? then
      Some(60 * ReadNumber(words[0]).value + ReadNumber(words[2]).value)
    else None
  }

  lemma ReadNatToString(n: nat)
    ensures ReadNumber(NatToString(n)) == Some(n)
    ensures ' ' !in NatToString(n)
  {
    ParseNatToString(n);
    var s := NatToString(n);
    assert forall i :: 0 <= i < |s| ==> s[i] != ' ';
  }

  lemma ParseMinuteWords(digits: string, m: nat)
    requires ReadNumber(digits) == Some(m)
    ensures ParseWords([digits, "menit"]) == Some(m)
  {
  }

  lemma ParseHourWords(digits: string, h: nat)
    requires ReadNumber(digits) == Some(h)
    ensures ParseWords([digits, "jam"]) == Some(60 * h)
  {
    assert "jam" != "menit";
  }

  lemma ParseMinutesText(m: nat)
    ensures ParseDuration(NatToString(m) + " menit") == Some(m)
  {
    var ms := NatToString(m);
    assert Split(ms + " menit", ' ') == [ms, "menit"] by {
      ReadNatToString(m);
      assert ms + " menit" == ms + [' '] + "menit";
      SplitTwoWords(ms, "menit", ' ');
    }
    assert ReadNumber(ms) == Some(m) by {
      ReadNatToString(m);
    }
    ParseMinuteWords(ms, m);
  }

  lemma ParseHoursText(h: nat)
    ensures ParseDuration(NatToString(h) + " jam") == Some(60 * h)
  {
    var hs := NatToString(h);
    assert Split(hs + " jam", ' ') == [hs, "jam"] by {
      ReadNatToString(h);
      assert hs + " jam" == hs + [' '] + "jam";
      SplitTwoWords(hs, "jam", ' ');
    }
    assert ReadNumber(hs) == Some(h) by {
      ReadNatToString(h);
    }
    ParseHourWords(hs, h);
  }

  lemma SplitHoursMinutesText(hs: string, ms: string)
    requires ' ' !in hs && ' ' !in ms
    ensures Split(hs + " jam " + ms + " menit", ' ') == [hs, "jam", ms, "menit"]
  {
    var tail := ms + [' '] + "menit";
    assert ' ' !in "menit" && ' ' !in "jam";
    assert hs + " jam " + ms + " menit" == hs + [' '] + ("jam" + [' '] + tail);
    SplitFirstWord(hs, ' ', "jam" + [' '] + tail);
    SplitFirstWord("jam", ' ', tail);
    SplitTwoWords(ms, "menit", ' ');
  }

  lemma ParseHoursMinutesWords(hs: string, ms: string, h: nat, m: nat)
    requires ReadNumber(hs) == Some(h) && ReadNumber(ms) == Some(m)
    ensures ParseWords([hs, "jam", ms, "menit"]) == Some(60 * h + m)
  {
  }

  lemma ParseHoursMinutesText(h: nat, m: nat)
    ensures ParseDuration(NatToString(h) + " jam " + NatToString(m) + " menit") == Some(60 * h + m)
  {
    var hs, ms := NatToString(h), NatToString(m);
    assert Split(hs + " jam " + ms + " menit", ' ') == [hs, "jam", ms, "menit"] by {
      ReadNatToString(h);
      ReadNatToString(m);
      SplitHoursMinutesText(hs, ms);
    }
    assert ReadNumber(hs) == Some(h) && ReadNumber(ms) == Some(m) by {
      ReadNatToString(h);
      ReadNatToString(m);
    }
    ParseHoursMinutesWords(hs, ms, h, m);
  }

  /** The duration text of a non-negative number of minutes determines it: reading the text back
      gives the minutes, so distinct durations are never shown alike. */
  lemma ParseFormatDuration(minutes: nat)
    ensures ParseDuration(FormatDuration(minutes)) == Some(minutes)
  {
    var hours := minutes / 60;
    var mins := minutes % 60;
    assert TruncMod(minutes, 60) == mins;
    if hours == 0 {
      ParseMinutesText(mins);
    } else if mins == 0 {
      ParseHoursText(hours);
    } else {
      ParseHoursMinutesText(hours, mins);
    }
  }

  // ---------------------------------------------------------------------------
  // Roles
  // ---------------------------------------------------------------------------

  /** `allowedRoles` is either an array of roles or a single role. */
  datatype AllowedRoles = AnyOf(roles: seq<string>) | Only(role: string)

  /** `hasRole(userRole, allowedRoles)`. */
  function HasRole(userRole: string, allowed: AllowedRoles): (r: bool)
    ensures allowed.AnyOf? ==> (r <==> exists i :: 0 <= i < |allowed.roles| && allowed.roles[i] == userRole)
    ensures allowed.Only? ==> (r <==> userRole == allowed.role)
  {
    match allowed
    case AnyOf(roles) => userRole in roles
    case Only(role) => userRole == role
  }

  /** `isAdmin(role)`: holds for the two administrator roles and nothing else. */
  function IsAdminRole(role: string): (r: bool)
    ensures r <==> role in {RoleAdmin, RoleSuperAdmin}
  {
    role == RoleAdmin || role == RoleSuperAdmin
  }

  /** A single role is the same check as a one-element list of roles. */
  lemma HasRoleSingleAsList(userRole: string, role: string)
    ensures HasRole(userRole, Only(role)) == HasRole(userRole, AnyOf([role]))
  {
    if HasRole(userRole, AnyOf([role])) {
      var i :| 0 <= i < 1 && [role][i] == userRole;
    }
  }

  /** isAdmin agrees with hasRole on the list of the two administrator roles. */
  lemma IsAdminIsHasRole(role: string)
    ensures IsAdminRole(role) == HasRole(role, AnyOf([RoleAdmin, RoleSuperAdmin]))
  {
    if HasRole(role, AnyOf([RoleAdmin, RoleSuperAdmin])) {
      var i :| 0 <= i < 2 && [RoleAdmin, RoleSuperAdmin][i] == role;
    }
  }

  // ---------------------------------------------------------------------------
  // Status colours and payment status
  // ---------------------------------------------------------------------------

  const PendingColor := "bg-yellow-100 text-yellow-800"
  const GreenColor := "bg-green-100 text-green-800"
  const RedColor := "bg-red-100 text-red-800"
  const GrayColor := "bg-gray-100 text-gray-800"

  /** `getStatusColor(status)`: yellow for pending, green for confirmed and paid, red for
      cancelled and failed, gray for any other status. */
  function StatusColor(status: string): (r: string)
    ensures status == StatusPending ==> r == PendingColor
    ensures status in {StatusConfirmed, StatusPaid} ==> r == GreenColor
    ensures status in {StatusCancelled, StatusFailed} ==> r == RedColor
    ensures status !in {StatusPending, StatusConfirmed, StatusCancelled, StatusPaid, StatusFailed} ==> r == GrayColor
  {
    var colors := map[StatusPending := PendingColor, StatusConfirmed := GreenColor, StatusCancelled := RedColor,
                      StatusPaid := GreenColor, StatusFailed := RedColor];
    if status in colors then colors[status] else GrayColor
  }

  /** `getPaymentStatus(transactionStatus)`: the gateway's transaction status simplified. */
  function PaymentStatus(transactionStatus: string): (r: string)
    ensures r in {StatusPending, StatusPaid, StatusFailed}
    ensures transactionStatus in {"capture", "settlement"} ==> r == StatusPaid
    ensures transactionStatus in {"deny", "expire", "cancel"} ==> r == StatusFailed
    ensures transactionStatus !in {"capture", "settlement", "deny", "expire", "cancel"} ==> r == StatusPending
  {
    var statusMap := map["pending" := StatusPending, "capture" := StatusPaid, "settlement" := StatusPaid,
                         "deny" := StatusFailed, "expire" := StatusFailed, "cancel" := StatusFailed];
    if transactionStatus in statusMap then statusMap[transactionStatus] else StatusPending
  }

  /** A simplified payment status is coloured like the outcome it stands for. */
  lemma PaymentStatusColor(transactionStatus: string)
    ensures StatusColor(PaymentStatus(transactionStatus)) ==
      (if transactionStatus in {"capture", "settlement"} then GreenColor
       else if transactionStatus in {"deny", "expire", "cancel"} then RedColor
       else PendingColor)
  {
  }

  // ---------------------------------------------------------------------------
  // Truncation
  // ---------------------------------------------------------------------------

  /** `truncateText(text, maxLength = 100)`: empty for a missing or empty text, the text itself
      when it fits, and otherwise its first `maxLength` characters followed by "...". A negative
      `maxLength` keeps no characters, as `substring` clamps it to 0. */
  function TruncateText(text: Option<string>, maxLength: int := 100): (r: string)
    ensures text.None? || text.value == [] ==> r == []
    ensures text.Some? && text.value != [] && |text.value| <= maxLength ==> r == text.value
    ensures text.Some? && text.value != [] && |text.value| > maxLength ==>
      var keep := if maxLength < 0 then 0 else maxLength;
      |r| == keep + 3 && r[..keep] == text.value[..keep] && r[keep..] == "..."
  {
    if text.None? || text.value == [] then []
    else if |text.value| <= maxLength then text.value
    else
      var keep := if maxLength < 0 then 0 else maxLength;
      text.value[..keep] + "..."
  }

  /** A truncated text never exceeds the limit by more than the three dots, and what it keeps
      is the start of the original. */
  lemma TruncateTextBounded(text: string, maxLength: nat)
    ensures |TruncateText(Some(text), maxLength)| <= maxLength + 3
    ensures var k := if maxLength <= |text| then maxLength else |text|;
      k <= |TruncateText(Some(text), maxLength)| && TruncateText(Some(text), maxLength)[..k] == text[..k]
  {
  }

  // ---------------------------------------------------------------------------
  // Initials
  // ---------------------------------------------------------------------------

  /** `words.map(w => w[0]).join('')`: an empty word has no first character and `join`
      renders the resulting `undefined` as nothing. */
  function FirstLetters(words: seq<string>): string {
    if words == [] then []
    else (if words[0] == [] then [] else [words[0][0]]) + FirstLetters(words[1..])
  }

  /** The characters of `s` that begin a word: not a space, and first or right after a space.
      `afterSpace` says whether the character before `s` was a space (or `s` is the start). */
  function WordStarts(s: string, afterSpace: bool): string {
    if s == [] then []
    else (if s[0] != ' ' && afterSpace then [s[0]] else []) + WordStarts(s[1..], s[0] == ' ')
  }

  /** The first letters of the space-separated words are exactly the word-starting characters. */
  lemma {:induction false} FirstLettersAreWordStarts(s: string)
    ensures FirstLetters(Split(s, ' ')) == WordStarts(s, true)
    ensures FirstLetters(Split(s, ' ')[1..]) == WordStarts(s, false)
  {
    if s != [] {
      FirstLettersAreWordStarts(s[1..]);
      var rest := Split(s[1..], ' ');
      if s[0] == ' ' {
        assert Split(s, ' ') == [[]] + rest;
        assert Split(s, ' ')[1..] == rest;
      } else {
        assert Split(s, ' ') == [[s[0]] + rest[0]] + rest[1..];
        assert Split(s, ' ')[1..] == rest[1..];
        assert FirstLetters(rest) == (if rest[0] == [] then [] else [rest[0][0]]) + FirstLetters(rest[1..]);
      }
    }
  }

  /** `getInitials(name)`: nothing for a missing or empty name; otherwise the first letters of
      the space-separated words, upper-cased, at most two of them. */
  function GetInitials(name: Option<string>): (r: string)
    ensures |r| <= 2
    ensures forall i :: 0 <= i < |r| ==> !IsLowerAscii(r[i])
    ensures name.None? ==> r == []
    ensures name.Some? ==>
      var starts := Upper(WordStarts(name.value, true));
      r == starts[..if |starts| < 2 then |starts| else 2]
  {
    if name.None? || name.value == [] then []
    else
      var letters := Upper(FirstLetters(Split(name.value, ' ')));
      FirstLettersAreWordStarts(name.value);
      letters[..if |letters| < 2 then |letters| else 2]
  }

  // ---------------------------------------------------------------------------
  // Validators
  // ---------------------------------------------------------------------------

  /** JavaScript's `\s`: the white-space and line-terminator characters. */
  predicate IsSpace(c: char) {
    var n := c as int;
    n == 0x09 || n == 0x0A || n == 0x0B || n == 0x0C || n == 0x0D || n == 0x20
    || n == 0xA0 || n == 0x1680 || (0x2000 <= n <= 0x200A) || n == 0x2028 || n == 0x2029
    || n == 0x202F || n == 0x205F || n == 0x3000 || n == 0xFEFF
  }

  /** `[^\s@]+`: a non-empty run without white space and without '@'. */
  predicate IsEmailPart(s: string) {
    s != [] && forall i :: 0 <= i < |s| ==> !IsSpace(s[i]) && s[i] != '@'
  }

  /** The e-mail pattern `^[^\s@]+@[^\s@]+\.[^\s@]+$` as a statement about how the string
      decomposes. */
  ghost predicate EmailPattern(s: string) {
    exists a, b, c :: s == a + "@" + b + "." + c && IsEmailPart(a) && IsEmailPart(b) && IsEmailPart(c)
  }

  /** Position of the first '@' in `s`, or |s| when there is none. */
  function FirstAt(s: string): (k: nat)
    ensures k <= |s|
    ensures forall i :: 0 <= i < k ==> s[i] != '@'
    ensures k < |s| ==> s[k] == '@'
  {
    if s == [] || s[0] == '@' then 0 else 1 + FirstAt(s[1..])
  }

  /** Whether some '.' in `d` has at least one character on each side. */
  function HasInnerDot(d: string): (r: bool)
    ensures r <==> exists i :: 0 < i < |d| - 1 && d[i] == '.'
  {
    if |d| < 3 then false
    else if d[1] == '.' then true
    else
      var rest := HasInnerDot(d[1..]);
      assert forall i :: 0 < i < |d| - 2 && d[1..][i] == '.' ==> d[i + 1] == '.';
      assert forall i :: 1 < i < |d| - 1 && d[i] == '.' ==> d[1..][i - 1] == '.';
      rest
  }

  /** `isValidEmail(email)`: one '@' splitting the address into a local part and a domain, both
      free of white space and further '@', and a '.' strictly inside the domain. */
  function IsValidEmail(email: string): bool {
    var k := FirstAt(email);
    k < |email|
    && IsEmailPart(email[..k])
    && IsEmailPart(email[k + 1..])
    && HasInnerDot(email[k + 1..])
  }

  /** The validator accepts exactly the strings the e-mail pattern matches. */
  lemma IsValidEmailCorrect(email: string)
    ensures IsValidEmail(email) <==> EmailPattern(email)
  {
    if IsValidEmail(email) {
      ValidEmailMatches(email);
    }
    if EmailPattern(email) {
      var a, b, c :| email == a + "@" + b + "." + c && IsEmailPart(a) && IsEmailPart(b) && IsEmailPart(c);
      MatchingEmailValid(email, a, b, c);
    }
  }

  lemma EmailPartSlice(d: string, lo: int, hi: int)
    requires IsEmailPart(d) && 0 <= lo < hi <= |d|
    ensures IsEmailPart(d[lo..hi])
  {
    assert forall i :: 0 <= i < hi - lo ==> d[lo..hi][i] == d[lo + i];
  }

  /** Cutting a string around position `i`. */
  lemma CutAt(s: string, i: int)
    requires 0 <= i < |s|
    ensures s == s[..i] + [s[i]] + s[i + 1..]
  {
  }

  lemma PatternFromParts(email: string, a: string, b: string, c: string)
    requires email == a + "@" + b + "." + c
    requires IsEmailPart(a) && IsEmailPart(b) && IsEmailPart(c)
    ensures EmailPattern(email)
  {
  }

  lemma ValidEmailMatches(email: string)
    requires IsValidEmail(email)
    ensures EmailPattern(email)
  {
    var k := FirstAt(email);
    var d := email[k + 1..];
    var i :| 0 < i < |d| - 1 && d[i] == '.';
    var a, b, c := email[..k], d[..i], d[i + 1..];
    assert IsEmailPart(a);
    assert IsEmailPart(b) by {
      EmailPartSlice(d, 0, i);
      assert d[0..i] == b;
    }
    assert IsEmailPart(c) by {
      EmailPartSlice(d, i + 1, |d|);
      assert d[i + 1..|d|] == c;
    }
    assert email == a + "@" + b + "." + c by {
      CutAt(d, i);
      CutAt(email, k);
    }
    PatternFromParts(email, a, b, c);
  }

  lemma MatchingEmailValid(email: string, a: string, b: string, c: string)
    requires email == a + "@" + b + "." + c
    requires IsEmailPart(a) && IsEmailPart(b) && IsEmailPart(c)
    ensures IsValidEmail(email)
  {
    var d := b + "." + c;
    assert email == a + "@" + d;
    assert email[|a|] == '@';
    assert FirstAt(email) == |a|;
    assert email[..|a|] == a;
    assert email[|a| + 1..] == d;
    assert d[|b|] == '.';
    assert IsEmailPart(d);
  }

  /** The phone pattern `^(\+62|62|0)[0-9]{9,12}$`: a country or trunk prefix, then 9 to 12
      digits. */
  ghost predicate PhonePattern(s: string) {
    exists prefix, digits :: s == prefix + digits
      && prefix in {"+62", "62", "0"}
      && 9 <= |digits| <= 12 && AllDigits(digits)
  }

  predicate DigitRun(s: string) {
    9 <= |s| <= 12 && AllDigits(s)
  }

  /** `isValidPhone(phone)`: tries the three prefixes in the pattern's order. */
  function IsValidPhone(phone: string): bool {
    (|phone| >= 3 && phone[..3] == "+62" && DigitRun(phone[3..]))
    || (|phone| >= 2 && phone[..2] == "62" && DigitRun(phone[2..]))
    || (|phone| >= 1 && phone[..1] == "0" && DigitRun(phone[1..]))
  }

  /** The validator accepts exactly the strings the phone pattern matches. */
  lemma IsValidPhoneCorrect(phone: string)
    ensures IsValidPhone(phone) <==> PhonePattern(phone)
  {
    if PhonePattern(phone) {
      var prefix, digits :| phone == prefix + digits && prefix in {"+62", "62", "0"}
        && 9 <= |digits| <= 12 && AllDigits(digits);
      assert phone[..|prefix|] == prefix && phone[|prefix|..] == digits;
    }
    if IsValidPhone(phone) {
      if |phone| >= 3 && phone[..3] == "+62" && DigitRun(phone[3..]) {
        assert phone == phone[..3] + phone[3..];
      } else if |phone| >= 2 && phone[..2] == "62" && DigitRun(phone[2..]) {
        assert phone == phone[..2] + phone[2..];
      } else {
        assert phone == phone[..1] + phone[1..];
      }
    }
  }
}
