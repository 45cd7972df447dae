/**
 * The helpers of src/lib/utils.ts: employee ids, initials, clock and date
 * arithmetic, and the e-mail and password checks.
 */
module Utils {
  import opened Wrappers
  import opened Text
  import opened Dates
  import Seqs

  // ---------------------------------------------------------------- clock text

  /** `h.toString().padStart(2, '0') + ':' + m.toString().padStart(2, '0')`: how the app records a time of day. */
  function ClockText(h: nat, m: nat): string
  {
    PadStart(NatToDecimal(h), 2, '0') + ":" + PadStart(NatToDecimal(m), 2, '0')
  }

  /**
   * `time.split(':').map(Number)` read as hours and minutes. `Number` gives
   * 0 for the empty piece and the value of a digit string; anything else
   * (NaN), or a missing minutes piece, is `None`.
   */
  function ReadClock(time: string): Option<(nat, nat)>
  {
    var parts := Split(time, ':');
    if |parts| >= 2 && AllDigits(parts[0]) && AllDigits(parts[1])
    then Some((DecimalValue(parts[0]), DecimalValue(parts[1])))
    else None
  }

  /** Reading a recorded time of day gives back its hours and minutes. */
  lemma ClockRoundTrip(h: nat, m: nat)
    requires h < 24 && m < 60
    ensures |ClockText(h, m)| == 5
    ensures ReadClock(ClockText(h, m)) == Some((h, m))
  {
    assert Pow10(2) == 100 by { assert Pow10(1) == 10; }
    PaddedDecimal(h, 2);
    PaddedDecimal(m, 2);
    var hs := PadStart(NatToDecimal(h), 2, '0');
    var ms := PadStart(NatToDecimal(m), 2, '0');
    assert ':' !in hs && ':' !in ms by {
      assert forall i :: 0 <= i < |hs| ==> IsDigit(hs[i]);
      assert forall i :: 0 <= i < |ms| ==> IsDigit(ms[i]);
    }
    assert ClockText(h, m) == hs + [':'] + ms;
    SplitFirst(hs, ':', ms);
    SplitWhole(ms, ':');
  }

  /** The hour on a 12-hour dial, `hours % 12 || 12`, and whether it is afternoon. */
  function TwelveHour(hours: nat): (r: (nat, bool))
    ensures 1 <= r.0 <= 12
    ensures r.1 <==> hours >= 12
    ensures hours < 24 ==> hours == r.0 % 12 + (if r.1 then 12 else 0)
  {
    (if hours % 12 == 0 then 12 else hours % 12, hours >= 12)
  }

  /**
   * `formatTime`: "h:MM AM" or "h:MM PM" for two decimal numbers around a
   * colon. Every other text is `None`; the source prints "12:MM AM" for an
   * unreadable hour, "h:NaN" for unreadable minutes, reads text such as
   * " 9:30" as a number, and throws on text without a colon.
   */
  function FormatTime(time: string): (r: Option<string>)
    ensures r.Some? <==> ReadClock(time).Some?
  {
    match ReadClock(time)
    case None => None
    case Some((hours, minutes)) =>
      var (display, pm) := TwelveHour(hours);
      Some(NatToDecimal(display) + ":" + PadStart(NatToDecimal(minutes), 2, '0') + (if pm then " PM" else " AM"))
  }

  /** How a reading formats: the 12-hour hour, a colon, the minutes padded to two places and AM or PM. */
  lemma FormatOfReading(t: string, h: nat, m: nat)
    requires ReadClock(t) == Some((h, m))
    ensures FormatTime(t) == Some(NatToDecimal(TwelveHour(h).0) + ":" + PadStart(NatToDecimal(m), 2, '0') + (if h >= 12 then " PM" else " AM"))
  {
  }

  /**
   * The formatted time reads back: without its " AM"/" PM" suffix it reads
   * as the hour on the 12-hour dial and the same minutes, a minute below 100
   * takes exactly the two places after the colon, and the suffix is PM iff
   * the hour is 12 or later.
   */
  lemma FormatReadsBack(t: string, h: nat, m: nat)
    requires ReadClock(t) == Some((h, m))
    ensures var s := FormatTime(t).value;
      && |s| >= 6
      && s[|s| - 3..] == (if h >= 12 then " PM" else " AM")
      && ReadClock(s[..|s| - 3]) == Some((if h % 12 == 0 then 12 else h % 12, m))
      && (m < 100 ==> s[|s| - 6] == ':')
  {
    var d := TwelveHour(h).0;
    var hs, mdigits := NatToDecimal(d), NatToDecimal(m);
    var ms := PadStart(mdigits, 2, '0');
    var suffix := if h >= 12 then " PM" else " AM";
    assert FormatTime(t).value == hs + [':'] + ms + suffix by { FormatOfReading(t, h, m); }
    assert AllDigits(ms) && DecimalValue(ms) == m by {
      DecimalLeadingZeros(|ms| - |mdigits|, mdigits);
      DecimalRoundTrip(m);
    }
    assert DecimalValue(hs) == d by { DecimalRoundTrip(d); }
    assert m < 100 ==> |ms| == 2 by {
      if m < 100 {
        assert Pow10(2) == 100 by { assert Pow10(1) == 10; }
        PaddedDecimal(m, 2);
      }
    }
    SuffixedPair(hs, ms, suffix);
  }

  /** A digit pair followed by a three-character suffix: the suffix comes off and the pair reads back. */
  lemma SuffixedPair(hs: string, ms: string, suffix: string)
    requires AllDigits(hs) && AllDigits(ms) && |hs| >= 1 && |ms| >= 2 && |suffix| == 3
    ensures var s := hs + [':'] + ms + suffix;
      && |s| >= 6
      && s[|s| - 3..] == suffix
      && ReadClock(s[..|s| - 3]) == Some((DecimalValue(hs), DecimalValue(ms)))
      && (|ms| == 2 ==> s[|s| - 6] == ':')
  {
    var s := hs + [':'] + ms + suffix;
    assert s[..|s| - 3] == hs + [':'] + ms;
    assert s[|s| - 3..] == suffix;
    ReadDigitPair(hs, ms);
  }

  /** Two digit strings around a colon read as their two values. */
  lemma ReadDigitPair(a: string, b: string)
    requires AllDigits(a) && AllDigits(b)
    ensures ReadClock(a + [':'] + b) == Some((DecimalValue(a), DecimalValue(b)))
  {
    assert ':' !in a && ':' !in b by {
      assert forall i :: 0 <= i < |a| ==> IsDigit(a[i]);
      assert forall i :: 0 <= i < |b| ==> IsDigit(b[i]);
    }
    SplitFirst(a, ':', b);
    SplitWhole(b, ':');
  }

  /** A recorded time formats on the 12-hour dial, keeping its ":MM" as recorded. */
  lemma FormatRecordedTime(h: nat, m: nat)
    requires h < 24 && m < 60
    ensures var t := ClockText(h, m);
      FormatTime(t) == Some(NatToDecimal(TwelveHour(h).0) + t[2..] + (if h >= 12 then " PM" else " AM"))
  {
    ClockRoundTrip(h, m);
    var t := ClockText(h, m);
    var mm := PadStart(NatToDecimal(m), 2, '0');
    FormatOfReading(t, h, m);
    ClockMinutes(h, m);
    assert NatToDecimal(TwelveHour(h).0) + t[2..] == NatToDecimal(TwelveHour(h).0) + ":" + mm;
  }

  lemma ClockMinutes(h: nat, m: nat)
    requires h < 24
    ensures ClockText(h, m)[2..] == ":" + PadStart(NatToDecimal(m), 2, '0')
  {
    assert Pow10(2) == 100 by { assert Pow10(1) == 10; }
    PaddedDecimal(h, 2);
  }

  /** Midnight is 12 AM, noon 12 PM and 13 o'clock 1 PM. */
  lemma TwelveHourExamples()
    ensures TwelveHour(0) == (12, false)
    ensures TwelveHour(12) == (12, true)
    ensures TwelveHour(13) == (1, true)
  {
  }

  // ---------------------------------------------------------------- days between dates

  function Abs(x: int): nat { if x < 0 then -x else x }

  /**
   * `calculateDaysBetween`: the whole days between the two dates, counting
   * both ends. Two midnights are a whole number of days apart, so the
   * millisecond difference divided by a day and rounded up is exactly the
   * difference of day numbers. `None` is NaN: a date JavaScript cannot read.
   */
  function CalculateDaysBetween(startDate: string, endDate: string): (r: Option<nat>)
    ensures r.Some? <==> ParseIso(startDate).Some? && ParseIso(endDate).Some?
    ensures r.Some? ==> r.value >= 1
  {
    match (ParseIso(startDate), ParseIso(endDate))
    case (Some(s), Some(e)) => Some(Abs(DayNumber(e) - DayNumber(s)) + 1)
    case _ => None
  }

  /** The count does not depend on the order of the two dates, and is 1 for a single day. */
  lemma DaysBetweenSymmetric(a: string, b: string)
    ensures CalculateDaysBetween(a, b) == CalculateDaysBetween(b, a)
    ensures ParseIso(a).Some? ==> CalculateDaysBetween(a, a) == Some(1)
  {
  }

  /** Ranges that meet at a shared day add up, that day counted once. */
  lemma DaysBetweenAdditive(a: string, b: string, c: string)
    requires ParseIso(a).Some? && ParseIso(b).Some? && ParseIso(c).Some?
    requires !Before(ParseIso(b).value, ParseIso(a).value) && !Before(ParseIso(c).value, ParseIso(b).value)
    ensures CalculateDaysBetween(a, c).value + 1 == CalculateDaysBetween(a, b).value + CalculateDaysBetween(b, c).value
  {
    DayNumberOrder(ParseIso(b).value, ParseIso(a).value);
    DayNumberOrder(ParseIso(c).value, ParseIso(b).value);
  }

  /** Between two readable dates the count is the distance of their day numbers plus one. */
  lemma DaysOfParsed(s: string, t: string, a: Date, b: Date)
    requires ParseIso(s) == Some(a) && ParseIso(t) == Some(b)
    ensures CalculateDaysBetween(s, t) == Some(Abs(DayNumber(b) - DayNumber(a)) + 1)
  {
  }

  /** Extending a range by the day after its end adds one day. */
  lemma DaysBetweenNextDay(s: string, t: string, u: string)
    requires ParseIso(s).Some? && ParseIso(t).Some? && ParseIso(u).Some?
    requires ParseIso(u).value == NextDay(ParseIso(t).value)
    requires !Before(ParseIso(t).value, ParseIso(s).value)
    ensures CalculateDaysBetween(s, u).value == CalculateDaysBetween(s, t).value + 1
  {
    var a, b := ParseIso(s).value, ParseIso(t).value;
    DaysOfParsed(s, t, a, b);
    DaysOfParsed(s, u, a, NextDay(b));
    NextDayNumber(b);
    DayNumberOrder(b, a);
  }

  /** From a readable date to the date `n` days on, the count is `n + 1`: both ends are counted. */
  lemma DaysBetweenSteps(s: string, t: string, n: nat)
    requires ParseIso(s).Some? && ParseIso(t).Some?
    requires ParseIso(t).value == AfterDays(ParseIso(s).value, n)
    ensures CalculateDaysBetween(s, t) == Some(n + 1)
    ensures CalculateDaysBetween(t, s) == Some(n + 1)
  {
    var a := ParseIso(s).value;
    AfterDaysNumber(a, n);
    DaysOfParsed(s, t, a, AfterDays(a, n));
    DaysBetweenSymmetric(s, t);
  }

  /** 15 to 17 February 2024 is three days. */
  lemma DaysBetweenExample()
    ensures CalculateDaysBetween("2024-02-15", "2024-02-17") == Some(3)
  {
    var a := Date(2024, 2, 15);
    var b := Date(2024, 2, 17);
    IsoExample();
    ParseFormat(a);
    ParseFormat(b);
    DaysOfParsed("2024-02-15", "2024-02-17", a, b);
  }

  lemma IsoExample()
    ensures FormatIso(Date(2024, 2, 15)) == "2024-02-15" && FormatIso(Date(2024, 2, 17)) == "2024-02-17"
  {
    assert NatToDecimal(2024) == "2024" by {
      assert NatToDecimal(2) == "2" && NatToDecimal(20) == "20" && NatToDecimal(202) == "202";
    }
    assert NatToDecimal(2) == "2" && NatToDecimal(15) == "15" && NatToDecimal(17) == "17";
  }

  // ---------------------------------------------------------------- greeting

  /** `getGreeting` for the hour the clock reads (0..23, a parameter here). */
  function Greeting(hour: int): (g: string)
    ensures g == "Good morning" <==> hour < 12
    ensures g == "Good afternoon" <==> 12 <= hour < 17
    ensures g == "Good evening" <==> 17 <= hour
  {
    if hour < 12 then "Good morning"
    else if hour < 17 then "Good afternoon"
    else "Good evening"
  }

  // ---------------------------------------------------------------- e-mail

  /** Neither whitespace nor '@': a character of the class `[^\s@]`. */
  predicate AtomChar(c: char) { !IsWhitespace(c) && c != '@' }

  /** `[^\s@]+`: a non-empty run of atom characters. */
  predicate Atom(s: string) { |s| > 0 && forall k :: 0 <= k < |s| ==> AtomChar(s[k]) }

  /**
   * A match of `^[^\s@]+@[^\s@]+\.[^\s@]+$` that puts the '@' at index `at`
   * and the separating '.' at index `dot`.
   */
  ghost predicate EmailMatch(s: string, at: nat, dot: nat) {
    at < dot < |s| && s[at] == '@' && s[dot] == '.'
    && Atom(s[..at]) && Atom(s[at + 1..dot]) && Atom(s[dot + 1..])
  }

  /** The position of the first '@', if any. */
  function IndexOf(s: string, c: char): (r: Option<nat>)
    ensures r.None? <==> c !in s
    ensures r.Some? ==> r.value < |s| && s[r.value] == c && c !in s[..r.value]
  {
    if s == [] then None
    else if s[0] == c then Some(0)
    else
      var r := IndexOf(s[1..], c);
      if r.None? then None
      else
        assert s[..r.value + 1] == [s[0]] + s[1..][..r.value];
        Some(r.value + 1)
  }

  /**
   * `validateEmail`: no whitespace, exactly one '@' with something before
   * it, and a '.' after it that is neither the first nor the last
   * character of the domain.
   */
  predicate ValidateEmail(email: string) {
    (forall k :: 0 <= k < |email| ==> !IsWhitespace(email[k]))
    && match IndexOf(email, '@')
       case None => false
       case Some(at) =>
         var domain := email[at + 1..];
         at > 0 && '@' !in domain && |domain| >= 3 && '.' in domain[1..|domain| - 1]
  }

  /** The check accepts exactly the strings the regular expression matches. */
  lemma ValidateEmailMatchesPattern(email: string)
    ensures ValidateEmail(email) <==> exists at: nat, dot: nat :: EmailMatch(email, at, dot)
  {
    if ValidateEmail(email) {
      AcceptedHasMatch(email);
    }
    if exists at: nat, dot: nat :: EmailMatch(email, at, dot) {
      var at: nat, dot: nat :| EmailMatch(email, at, dot);
      MatchIsAccepted(email, at, dot);
    }
  }

  lemma AcceptedHasMatch(email: string)
    requires ValidateEmail(email)
    ensures exists at: nat, dot: nat :: EmailMatch(email, at, dot)
  {
    var at := IndexOf(email, '@').value;
    var domain := email[at + 1..];
    var j :| 0 <= j < |domain[1..|domain| - 1]| && domain[1..|domain| - 1][j] == '.';
    var dot := at + 2 + j;
    assert email[dot] == '.';
    assert email[at + 1..dot] == domain[..j + 1];
    assert email[dot + 1..] == domain[j + 2..];
    assert EmailMatch(email, at, dot);
  }

  lemma MatchIsAccepted(email: string, at: nat, dot: nat)
    requires EmailMatch(email, at, dot)
    ensures ValidateEmail(email)
  {
    assert '@' !in email[..at] by {
      assert forall k :: 0 <= k < at ==> email[..at][k] != '@';
    }
    assert IndexOf(email, '@') == Some(at);
    var domain := email[at + 1..];
    assert forall k :: 0 <= k < |domain| && k != dot - at - 1 ==> AtomChar(domain[k]) by {
      forall k | 0 <= k < |domain| && k != dot - at - 1 ensures AtomChar(domain[k]) {
        if k < dot - at - 1 {
          assert domain[k] == email[at + 1..dot][k];
        } else {
          assert domain[k] == email[dot + 1..][k - (dot - at)];
        }
      }
    }
    assert '@' !in domain;
    assert domain[1..|domain| - 1][dot - at - 2] == '.';
    assert forall k :: 0 <= k < |email| ==> !IsWhitespace(email[k]) by {
      forall k | 0 <= k < |email| ensures !IsWhitespace(email[k]) {
        if k < at {
          assert email[k] == email[..at][k];
        } else if at < k < dot {
          assert email[k] == email[at + 1..dot][k - at - 1];
        } else if dot < k {
          assert email[k] == email[dot + 1..][k - dot - 1];
        }
      }
    }
  }

  /** An accepted address has exactly one '@' and no whitespace. */
  lemma ValidEmailShape(email: string)
    requires ValidateEmail(email)
    ensures forall k :: 0 <= k < |email| ==> !IsWhitespace(email[k])
    ensures exists at :: 0 < at < |email| && email[at] == '@'
    ensures forall i, j :: 0 <= i < j < |email| && email[i] == '@' ==> email[j] != '@'
  {
    var at := IndexOf(email, '@').value;
    var domain := email[at + 1..];
    assert forall k :: 0 <= k < at ==> email[k] != '@' by {
      forall k | 0 <= k < at ensures email[k] != '@' {
        assert email[..at][k] == email[k];
      }
    }
    forall i, j | 0 <= i < j < |email| && email[i] == '@' ensures email[j] != '@' {
      assert email[j] == domain[j - at - 1];
    }
  }

  // ---------------------------------------------------------------- passwords

  /** The five rules `validatePassword` checks, in the order it checks them. */
  datatype PasswordRule = MinLength | HasUppercase | HasLowercase | HasNumber | HasSpecial

  const PasswordRules := [MinLength, HasUppercase, HasLowercase, HasNumber, HasSpecial]

  predicate IsSpecial(c: char) { c in "!@#$%^&*" }

  predicate AnyUpper(s: string) { exists i :: 0 <= i < |s| && IsUpper(s[i]) }
  predicate AnyLower(s: string) { exists i :: 0 <= i < |s| && IsLower(s[i]) }
  predicate AnyDigit(s: string) { exists i :: 0 <= i < |s| && IsDigit(s[i]) }
  predicate AnySpecial(s: string) { exists i :: 0 <= i < |s| && IsSpecial(s[i]) }

  predicate Satisfies(password: string, rule: PasswordRule) {
    match rule
    case MinLength => |password| >= 8
    case HasUppercase => AnyUpper(password)
    case HasLowercase => AnyLower(password)
    case HasNumber => AnyDigit(password)
    case HasSpecial => AnySpecial(password)
  }

  function Message(rule: PasswordRule): string {
    match rule
    case MinLength => "Password must be at least 8 characters"
    case HasUppercase => "Password must contain at least one uppercase letter"
    case HasLowercase => "Password must contain at least one lowercase letter"
    case HasNumber => "Password must contain at least one number"
    case HasSpecial => "Password must contain at least one special character (!@#$%^&*)"
  }

  /** The rules of `rules` the password fails, in the order of `rules`. */
  function FailedRules(password: string, rules: seq<PasswordRule>): (r: seq<PasswordRule>)
    ensures |r| <= |rules|
    ensures forall x :: x in r <==> x in rules && !Satisfies(password, x)
  {
    if rules == [] then []
    else
      var last := rules[|rules| - 1];
      assert rules == rules[..|rules| - 1] + [last];
      FailedRules(password, rules[..|rules| - 1]) + (if Satisfies(password, last) then [] else [last])
  }

  /** A password passes every rule exactly when it fails none of the five. */
  lemma NoFailedRules(password: string)
    ensures FailedRules(password, PasswordRules) == [] <==> forall rule :: Satisfies(password, rule)
  {
    var r := FailedRules(password, PasswordRules);
    if r != [] {
      assert r[0] in r;
    }
    if r == [] {
      forall rule ensures Satisfies(password, rule) {
        assert rule in PasswordRules by {
          match rule
          case MinLength => assert PasswordRules[0] == rule;
          case HasUppercase => assert PasswordRules[1] == rule;
          case HasLowercase => assert PasswordRules[2] == rule;
          case HasNumber => assert PasswordRules[3] == rule;
          case HasSpecial => assert PasswordRules[4] == rule;
        }
      }
    }
  }

  /** The failed rules of the first k rules, one rule at a time. */
  lemma FailedStep(password: string, k: nat)
    requires 0 < k <= 5
    ensures FailedRules(password, PasswordRules[..k])
      == FailedRules(password, PasswordRules[..k - 1]) + (if Satisfies(password, PasswordRules[k - 1]) then [] else [PasswordRules[k - 1]])
  {
    assert PasswordRules[..k][..k - 1] == PasswordRules[..k - 1];
  }

  /** Rendering the failed rules one more rule at a time. */
  lemma MapSnoc(rules: seq<PasswordRule>, rule: PasswordRule)
    ensures Seqs.Map(rules + [rule], Message) == Seqs.Map(rules, Message) + [Message(rule)]
  {
    Seqs.MapAppend(rules, [rule], Message);
  }

  /** The messages for the failed rules among the first k, in rule order. */
  function ErrorsUpTo(password: string, k: nat): seq<string>
    requires k <= 5
  {
    Seqs.Map(FailedRules(password, PasswordRules[..k]), Message)
  }

  /** One check of `validatePassword`: push the k-th rule's message when the password fails it. */
  method CheckRule(password: string, k: nat, errors: seq<string>) returns (errors': seq<string>)
    requires 0 < k <= 5 && errors == ErrorsUpTo(password, k - 1)
    ensures errors' == ErrorsUpTo(password, k)
  {
    var rule := PasswordRules[k - 1];
    FailedStep(password, k);
    MapSnoc(FailedRules(password, PasswordRules[..k - 1]), rule);
    errors' := errors;
    if !Satisfies(password, rule) {
      errors' := errors + [Message(rule)];
    }
  }

  /**
   * `validatePassword`: the messages of the failed rules in rule order, and
   * whether there were none.
   */
  method ValidatePassword(password: string) returns (isValid: bool, errors: seq<string>)
    ensures errors == Seqs.Map(FailedRules(password, PasswordRules), Message)
    ensures isValid <==> errors == []
    ensures isValid <==> forall rule :: Satisfies(password, rule)
  {
    errors := [];
    errors := CheckRule(password, 1, errors);
    errors := CheckRule(password, 2, errors);
    errors := CheckRule(password, 3, errors);
    errors := CheckRule(password, 4, errors);
    errors := CheckRule(password, 5, errors);
    assert PasswordRules[..5] == PasswordRules;
    isValid := |errors| == 0;
    NoFailedRules(password);
  }

  // ---------------------------------------------------------------- password strength

  /** The six things `getPasswordStrength` awards a point for. */
  datatype Criterion = AtLeast8 | AtLeast12 | Uppercase | Lowercase | Digit | Special

  const StrengthCriteria := [AtLeast8, AtLeast12, Uppercase, Lowercase, Digit, Special]

  predicate Meets(password: string, c: Criterion) {
    match c
    case AtLeast8 => |password| >= 8
    case AtLeast12 => |password| >= 12
    case Uppercase => AnyUpper(password)
    case Lowercase => AnyLower(password)
    case Digit => AnyDigit(password)
    case Special => AnySpecial(password)
  }

  /** How many of `cs` the password meets. */
  function CountMet(password: string, cs: seq<Criterion>): (n: nat)
    ensures n <= |cs|
  {
    if cs == [] then 0
    else CountMet(password, cs[..|cs| - 1]) + (if Meets(password, cs[|cs| - 1]) then 1 else 0)
  }

  datatype Strength = Weak | Medium | Strong {
    function Label(): string {
      match this
      case Weak => "Weak"
      case Medium => "Medium"
      case Strong => "Strong"
    }
    function Color(): string {
      match this
      case Weak => "bg-red-500"
      case Medium => "bg-yellow-500"
      case Strong => "bg-green-500"
    }
  }

  /** The label for a score: Weak up to 2, Medium up to 4, Strong above. */
  function StrengthOf(score: int): (s: Strength)
    ensures s == Weak <==> score <= 2
    ensures s == Strong <==> score >= 5
  {
    if score <= 2 then Weak else if score <= 4 then Medium else Strong
  }

  /** One test of `getPasswordStrength`: a point when the password meets the k-th criterion. */
  method Award(password: string, k: nat, score: nat) returns (score': nat)
    requires 0 < k <= 6 && score == CountMet(password, StrengthCriteria[..k - 1])
    ensures score' == CountMet(password, StrengthCriteria[..k])
  {
    CountStep(password, k);
    score' := score;
    if Meets(password, StrengthCriteria[k - 1]) {
      score' := score + 1;
    }
  }

  /** `getPasswordStrength`: one point per criterion met, and the label for the total. */
  method GetPasswordStrength(password: string) returns (score: nat, strength: Strength)
    ensures score == CountMet(password, StrengthCriteria)
    ensures score <= 6
    ensures strength == StrengthOf(score)
  {
    score := 0;
    score := Award(password, 1, score);
    score := Award(password, 2, score);
    score := Award(password, 3, score);
    score := Award(password, 4, score);
    score := Award(password, 5, score);
    score := Award(password, 6, score);
    assert StrengthCriteria[..6] == StrengthCriteria;
    strength := StrengthOf(score);
  }

  /** The criteria met among the first k, one criterion at a time. */
  lemma CountStep(password: string, k: nat)
    requires 0 < k <= 6
    ensures CountMet(password, StrengthCriteria[..k])
      == CountMet(password, StrengthCriteria[..k - 1]) + (if Meets(password, StrengthCriteria[k - 1]) then 1 else 0)
  {
    assert StrengthCriteria[..k][..k - 1] == StrengthCriteria[..k - 1];
  }

  /** A password that passes `validatePassword` meets five criteria, so it is Strong. */
  lemma ValidPasswordIsStrong(password: string)
    requires forall rule :: Satisfies(password, rule)
    ensures CountMet(password, StrengthCriteria) >= 5
    ensures StrengthOf(CountMet(password, StrengthCriteria)) == Strong
  {
    assert Satisfies(password, MinLength) && Satisfies(password, HasUppercase) && Satisfies(password, HasLowercase);
    assert Satisfies(password, HasNumber) && Satisfies(password, HasSpecial);
    CountStep(password, 1);
    CountStep(password, 2);
    CountStep(password, 3);
    CountStep(password, 4);
    CountStep(password, 5);
    CountStep(password, 6);
    assert StrengthCriteria[..6] == StrengthCriteria;
  }

  /** Strong does not imply valid: twelve letters and a digit score 5 with no special character. */
  lemma StrongIsNotValid()
    ensures StrengthOf(CountMet("Abcdefghijk1", StrengthCriteria)) == Strong
    ensures !Satisfies("Abcdefghijk1", HasSpecial)
  {
    var p := "Abcdefghijk1";
    var sc := StrengthCriteria;
    SampleCriteria();
    assert CountMet(p, sc[..0]) == 0;
    CountStep(p, 1);
    CountStep(p, 2);
    CountStep(p, 3);
    CountStep(p, 4);
    CountStep(p, 5);
    CountStep(p, 6);
    assert sc[..6] == sc;
  }

  /** The criteria that "Abcdefghijk1" meets: all but a special character. */
  lemma SampleCriteria()
    ensures var p, sc := "Abcdefghijk1", StrengthCriteria;
      && Meets(p, sc[0]) && Meets(p, sc[1]) && Meets(p, sc[2]) && Meets(p, sc[3]) && Meets(p, sc[4])
      && !Meets(p, sc[5]) && !Satisfies(p, HasSpecial)
  {
    var p := "Abcdefghijk1";
    assert IsUpper(p[0]) && IsLower(p[1]) && IsDigit(p[11]);
    assert forall i :: 0 <= i < |p| ==> !IsSpecial(p[i]);
  }

  // ---------------------------------------------------------------- bank account

  /** `maskBankAccount`: short numbers unchanged, otherwise a fixed mask and the last four characters. */
  function MaskBankAccount(account: string): (r: string)
    ensures |account| <= 4 ==> r == account
    ensures |account| > 4 ==> |r| == 14 && r[..10] == "XXXX XXXX " && r[10..] == account[|account| - 4..]
  {
    if |account| <= 4 then account else "XXXX XXXX " + account[|account| - 4..]
  }

  /** Masking twice is masking once, and a long number's mask depends only on its last four characters. */
  lemma MaskIdempotent(account: string, other: string)
    ensures MaskBankAccount(MaskBankAccount(account)) == MaskBankAccount(account)
    ensures |account| > 4 && |other| > 4 && account[|account| - 4..] == other[|other| - 4..]
            ==> MaskBankAccount(account) == MaskBankAccount(other)
  {
    if |account| > 4 {
      var m := MaskBankAccount(account);
      assert m == m[..10] + m[10..];
      assert m[|m| - 4..] == m[10..];
    }
  }

  // ---------------------------------------------------------------- initials

  predicate NonEmpty(w: string) { w != "" }

  /** The words of a name: the non-empty pieces between spaces. */
  function Words(name: string): seq<string> {
    Seqs.Filter(Split(name, ' '), NonEmpty)
  }

  /** `parts.map(n => n[0]).join('')`: an empty piece gives `undefined`, which `join` prints as nothing. */
  function FirstLetters(parts: seq<string>): string {
    if parts == [] then []
    else (if parts[0] == "" then "" else [parts[0][0]]) + FirstLetters(parts[1..])
  }

  /** The first letters of the pieces are the first characters of the non-empty pieces. */
  lemma {:induction false} FirstLettersOfWords(parts: seq<string>)
    ensures var ws := Seqs.Filter(parts, NonEmpty);
      |FirstLetters(parts)| == |ws| && forall i :: 0 <= i < |ws| ==> FirstLetters(parts)[i] == ws[i][0]
  {
    if parts != [] {
      FirstLettersOfWords(parts[1..]);
      var ws, rest := Seqs.Filter(parts, NonEmpty), Seqs.Filter(parts[1..], NonEmpty);
      Seqs.FilterCons(parts, NonEmpty);
      if parts[0] == "" {
        assert ws == rest;
        assert FirstLetters(parts) == FirstLetters(parts[1..]);
      } else {
        assert ws == [parts[0]] + rest;
        assert FirstLetters(parts) == [parts[0][0]] + FirstLetters(parts[1..]);
      }
    }
  }

  /** `getInitials`: the uppercased first letters of the first two words. */
  function GetInitials(name: string): (r: string)
    ensures |r| == if |Words(name)| < 2 then |Words(name)| else 2
    ensures forall i :: 0 <= i < |r| ==> r[i] == UpperChar(Words(name)[i][0])
  {
    FirstLettersOfWords(Split(name, ' '));
    Take(Upper(FirstLetters(Split(name, ' '))), 2)
  }

  // ---------------------------------------------------------------- employee ids

  /** Two characters of a name, uppercased and padded with 'X'. */
  function NamePrefix(part: string): (r: string)
    ensures |r| == 2
    ensures forall i :: 0 <= i < 2 ==> r[i] == if i < |part| then UpperChar(part[i]) else 'X'
  {
    PadEnd(Upper(Take(part, 2)), 2, 'X')
  }

  /** The first word of a full name, `nameParts[0] || ""`. */
  function FirstName(fullName: string): string {
    Split(fullName, ' ')[0]
  }

  /** The second word, `nameParts[1] || firstName`: a missing or empty second piece reuses the first. */
  function LastName(fullName: string): string {
    var parts := Split(fullName, ' ');
    if |parts| > 1 && parts[1] != "" then parts[1] else parts[0]
  }

  /**
   * The last name of a full name: the name itself when it has no space; the
   * second word when a single space follows the first; and the first word
   * again when two spaces follow it, since the second piece is then empty.
   */
  lemma LastNameCases(first: string, second: string, rest: string)
    requires ' ' !in first && ' ' !in second
    ensures LastName(first) == first
    ensures second != "" ==> LastName(first + " " + second) == second
    ensures second != "" ==> LastName(first + " " + second + " " + rest) == second
    ensures LastName(first + "  " + rest) == first
  {
    assert LastName(first) == first by { SplitWhole(first, ' '); }
    if second != "" {
      assert LastName(first + " " + second) == second by {
        SplitWhole(second, ' ');
        assert first + " " + second == first + [' '] + second;
        SplitFirst(first, ' ', second);
      }
      assert LastName(first + " " + second + " " + rest) == second by {
        assert first + " " + second + " " + rest == first + [' '] + (second + [' '] + rest);
        SplitFirst(first, ' ', second + [' '] + rest);
        SplitFirst(second, ' ', rest);
      }
    }
    assert LastName(first + "  " + rest) == first by {
      assert first + "  " + rest == first + [' '] + ([' '] + rest);
      SplitFirst(first, ' ', [' '] + rest);
      SplitFirst([], ' ', rest);
      assert [] + [' '] + rest == [' '] + rest;
    }
  }

  /** `generateEmployeeId`: company prefix, name prefixes, year and a serial padded to four digits. */
  function GenerateEmployeeId(companyName: string, fullName: string, year: nat, serial: nat): string {
    Upper(Take(companyName, 2)) + NamePrefix(FirstName(fullName)) + NamePrefix(LastName(fullName))
      + NatToDecimal(year) + PadStart(NatToDecimal(serial), 4, '0')
  }

  /**
   * For a four-digit year and a serial below 10000 an id has fourteen
   * characters, and each of its fields can be read back from fixed positions.
   */
  lemma EmployeeIdFields(companyName: string, fullName: string, year: nat, serial: nat)
    requires |companyName| >= 2 && 1000 <= year <= 9999 && serial <= 9999
    ensures var id := GenerateEmployeeId(companyName, fullName, year, serial);
      && |id| == 14
      && id[..2] == Upper(companyName[..2])
      && id[2..4] == NamePrefix(FirstName(fullName))
      && id[4..6] == NamePrefix(LastName(fullName))
      && AllDigits(id[6..10]) && DecimalValue(id[6..10]) == year
      && AllDigits(id[10..]) && DecimalValue(id[10..]) == serial
  {
    YearDigits(year);
    SerialDigits(serial);
    IdSlices(Upper(Take(companyName, 2)), NamePrefix(FirstName(fullName)), NamePrefix(LastName(fullName)),
      NatToDecimal(year), PadStart(NatToDecimal(serial), 4, '0'));
  }

  /** A year from 1000 to 9999 is written with four digits that read back as the year. */
  lemma YearDigits(year: nat)
    requires 1000 <= year <= 9999
    ensures var y := NatToDecimal(year); |y| == 4 && AllDigits(y) && DecimalValue(y) == year
  {
    assert Pow10(4) == 10000 && Pow10(3) == 1000 by { assert Pow10(1) == 10 && Pow10(2) == 100; }
    DecimalRoundTrip(year);
    var y := NatToDecimal(year);
    DecimalLength(year, 4, Pow10(4));
    DigitsBound(y);
    Pow10Grows(|y|, 3);
  }

  /** A serial below 10000, padded to four places, reads back as the serial. */
  lemma SerialDigits(serial: nat)
    requires serial <= 9999
    ensures var s := PadStart(NatToDecimal(serial), 4, '0'); |s| == 4 && AllDigits(s) && DecimalValue(s) == serial
  {
    assert Pow10(4) == 10000 by { assert Pow10(1) == 10 && Pow10(2) == 100 && Pow10(3) == 1000; }
    PaddedDecimal(serial, 4);
  }

  /** The five fields of an id sit at fixed positions. */
  lemma IdSlices(c: string, f: string, l: string, y: string, s: string)
    requires |c| == 2 && |f| == 2 && |l| == 2 && |y| == 4 && |s| == 4
    ensures var id := c + f + l + y + s;
      && |id| == 14 && id[..2] == c && id[2..4] == f && id[4..6] == l && id[6..10] == y && id[10..] == s
  {
    var id := c + f + l + y + s;
    assert id[..2] == c;
    assert id[2..4] == f;
    assert id[4..6] == l;
    assert id[6..10] == y;
    assert id[10..] == s;
  }

  lemma {:induction false} Pow10Grows(j: nat, k: nat)
    ensures j <= k ==> Pow10(j) <= Pow10(k)
  {
    if j < k {
      Pow10Grows(j, k - 1);
    }
  }

  /** Employees numbered differently in the same year get different ids. */
  lemma EmployeeIdsDistinct(companyName: string, name1: string, name2: string, year: nat, serial1: nat, serial2: nat)
    requires |companyName| >= 2 && 1000 <= year <= 9999 && serial1 <= 9999 && serial2 <= 9999
    requires serial1 != serial2
    ensures GenerateEmployeeId(companyName, name1, year, serial1) != GenerateEmployeeId(companyName, name2, year, serial2)
  {
    EmployeeIdFields(companyName, name1, year, serial1);
    EmployeeIdFields(companyName, name2, year, serial2);
  }

  /** "Jo Li" in year 2024 as the seventh employee: DAJOLI20240007. */
  lemma EmployeeIdExample()
    ensures GenerateEmployeeId("Dayflow", "Jo Li", 2024, 7) == "DAJOLI20240007"
  {
    EmployeeIdExampleNames();
    EmployeeIdExampleDigits();
    assert "DA" + "JO" + "LI" + "2024" + "0007" == "DAJOLI20240007";
  }

  lemma EmployeeIdExampleNames()
    ensures Upper(Take("Dayflow", 2)) == "DA"
    ensures NamePrefix(FirstName("Jo Li")) == "JO" && NamePrefix(LastName("Jo Li")) == "LI"
  {
    assert Split("Jo Li", ' ') == ["Jo", "Li"] by {
      SplitFirst("Jo", ' ', "Li");
      SplitWhole("Li", ' ');
      assert "Jo Li" == "Jo" + [' '] + "Li";
    }
    assert Take("Dayflow", 2) == "Da";
    assert NamePrefix("Jo") == "JO";
    assert NamePrefix("Li") == "LI";
  }

  lemma EmployeeIdExampleDigits()
    ensures NatToDecimal(2024) == "2024" && PadStart(NatToDecimal(7), 4, '0') == "0007"
  {
    assert NatToDecimal(2024) == "2024" by {
      assert NatToDecimal(2) == "2" && NatToDecimal(20) == "20" && NatToDecimal(202) == "202";
    }
    assert PadStart(NatToDecimal(7), 4, '0') == "0007" by {
      assert NatToDecimal(7) == "7";
      assert Repeat('0', 3) == "000";
    }
  }

  /** A one-letter, one-word name reuses its first name and is padded with 'X': "A" gives DAAXAX. */
  lemma EmployeeIdPaddedExample()
    ensures GenerateEmployeeId("Dayflow", "A", 2024, 12)[..6] == "DAAXAX"
  {
    assert Split("A", ' ') == ["A"] by { SplitWhole("A", ' '); }
    assert Upper(Take("Dayflow", 2)) == "DA" by {
      assert Take("Dayflow", 2) == "Da";
    }
    assert NamePrefix("A") == "AX" by {
      assert Take("A", 2) == "A";
      assert Repeat('X', 1) == "X";
    }
  }
}
