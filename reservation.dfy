/**
 * `validateReservationForm`: every rule is checked on its own and every
 * violation is collected, in a fixed order; the form is accepted exactly
 * when nothing was collected.
 */
module Reservation {
  import opened Wrappers
  import Decimal
  import Text

  /** The submitted form fields, as the strings `Object.fromEntries(new FormData(form))` yields. */
  datatype ReservationData = ReservationData(
    name: string, phone: string, date: string, time: string, guests: string, notes: string)

  /** One violation, in the order the validator checks them. */
  datatype ReservationError =
    | NameRequired
    | PhoneRequired
    | DateRequired
    | TimeRequired
    | GuestsRequired
    | InvalidPhone
    | OutsideBusinessHours

  /** The text shown to the visitor for each violation. */
  function ErrorText(e: ReservationError): (r: string)
    ensures r != []
  {
    match e
    case NameRequired => "Name is required"
    case PhoneRequired => "Phone is required"
    case DateRequired => "Date is required"
    case TimeRequired => "Time is required"
    case GuestsRequired => "Number of guests is required"
    case InvalidPhone => "Please enter a valid Indonesian phone number"
    case OutsideBusinessHours => "Please select a time during business hours (07:00 - 22:00)"
  }

  // ----- The phone pattern ^(\+62|62|0)[0-9]{9,13}$ -----

  /** `[0-9]{9,13}` matching a whole string. */
  predicate DigitRun(t: string) {
    9 <= |t| <= 13 && Decimal.AllDigits(t)
  }

  /** The three alternatives of `(\+62|62|0)`. */
  predicate IsPhonePrefix(p: string) {
    p == "+62" || p == "62" || p == "0"
  }

  /** `/^(\+62|62|0)[0-9]{9,13}$/.test(s)`: some alternative of the prefix, then the digit run, then the end. */
  predicate PhonePattern(s: string) {
    || (|s| >= 3 && s[..3] == "+62" && DigitRun(s[3..]))
    || (|s| >= 2 && s[..2] == "62" && DigitRun(s[2..]))
    || (|s| >= 1 && s[..1] == "0" && DigitRun(s[1..]))
  }

  /** Every prefix followed by 9 to 13 digits is accepted. */
  lemma PhonePatternAccepts(p: string, digits: string)
    requires IsPhonePrefix(p) && DigitRun(digits)
    ensures PhonePattern(p + digits)
  {
    var s := p + digits;
    assert s[..|p|] == p && s[|p|..] == digits;
  }

  /** Everything accepted is a prefix followed by 9 to 13 digits, between 10 and 16 characters in all. */
  lemma PhonePatternParts(s: string) returns (p: string, digits: string)
    requires PhonePattern(s)
    ensures IsPhonePrefix(p) && DigitRun(digits) && s == p + digits
    ensures 10 <= |s| <= 16
  {
    if |s| >= 3 && s[..3] == "+62" && DigitRun(s[3..]) {
      p, digits := "+62", s[3..];
    } else if |s| >= 2 && s[..2] == "62" && DigitRun(s[2..]) {
      p, digits := "62", s[2..];
    } else {
      p, digits := "0", s[1..];
    }
    assert s == s[..|p|] + s[|p|..];
  }

  /** The phone as the validator sees it: the form value with all whitespace taken out. */
  predicate PhoneAccepted(phone: string) {
    PhonePattern(Text.StripSpaces(phone))
  }

  /** Whitespace typed anywhere in the phone does not change the verdict. */
  lemma PhoneIgnoresSpaces(a: string, space: char, b: string)
    requires Text.IsSpace(space)
    ensures PhoneAccepted(a + [space] + b) == PhoneAccepted(a + b)
  {
    Text.StripSpacesAppend(a + [space], b);
    Text.StripSpacesAppend(a, [space]);
    Text.StripSpacesAppend(a, b);
    assert [space][1..] == [];
    assert Text.StripSpaces([space]) == [];
    assert Text.StripSpaces(a + [space]) == Text.StripSpaces(a);
    assert Text.StripSpaces(a + [space] + b) == Text.StripSpaces(a + b);
  }

  /** For a phone typed as digits only, the pattern applies to it as it is. */
  lemma PhoneAcceptedDigits(phone: string)
    requires Decimal.AllDigits(phone)
    ensures PhoneAccepted(phone) == PhonePattern(phone)
  {
    Text.StripSpacesNoSpace(phone);
  }

  // ----- The business-hours check -----

  /** The part of s before the first c, or all of s when c does not occur: the first field of `s.split(c)`. */
  function UpTo(s: string, c: char): (r: string)
    ensures |r| <= |s| && r == s[..|r|]
    ensures forall i :: 0 <= i < |r| ==> r[i] != c
    ensures |r| < |s| ==> s[|r|] == c
  {
    if s == [] || s[0] == c then [] else [s[0]] + UpTo(s[1..], c)
  }

  /** `Number(s)` for the strings the model reads: digits only (the empty string is 0); anything else is NaN. */
  function ToNumber(s: string): Option<nat> {
    if Decimal.AllDigits(s) then Some(Decimal.Value(s)) else None
  }

  /**
   * `hours * 60 + minutes` after `time.split(':').map(Number)`, or None for NaN:
   * a missing minutes field or a field that is not a number.
   */
  function ClockMinutes(time: string): Option<nat> {
    var hours := UpTo(time, ':');
    if |hours| == |time| then None
    else
      var minutes := UpTo(time[|hours| + 1..], ':');
      match (ToNumber(hours), ToNumber(minutes))
      case (Some(h), Some(m)) => Some(h * 60 + m)
      case _ => None
  }

  /** 07:00 and 22:00 in minutes since midnight. */
  const OpenTime: nat := 7 * 60
  const CloseTime: nat := 22 * 60

  /** The business-hours rule fails for a time outside [07:00, 22:00]; a NaN comparison is false, so an unreadable time passes it. */
  predicate OutsideHours(time: string) {
    match ClockMinutes(time)
    case Some(v) => v < OpenTime || v > CloseTime
    case None => false
  }

  /** The two-digit field a time input produces, "07" for 7. */
  function TwoDigits(n: nat): (s: string)
    requires n < 100
    ensures |s| == 2 && Decimal.AllDigits(s) && Decimal.Value(s) == n
  {
    var s := [Decimal.DigitChar(n / 10), Decimal.DigitChar(n % 10)];
    assert s[..1] == [s[0]] && s[..1][..0] == [];
    assert Decimal.Value(s[..1][..0]) == 0;
    assert Decimal.Value(s[..1]) == n / 10;
    assert Decimal.Value(s) == (n / 10) * 10 + n % 10;
    s
  }

  /** `HH:MM` as a time input writes it. */
  function Clock(h: nat, m: nat): string
    requires h < 100 && m < 100
  {
    TwoDigits(h) + ":" + TwoDigits(m)
  }

  /** A well-formed `HH:MM` reads back as hours × 60 + minutes. */
  lemma ClockRoundTrip(h: nat, m: nat)
    requires h < 100 && m < 100
    ensures ClockMinutes(Clock(h, m)) == Some(h * 60 + m)
  {
    var s := Clock(h, m);
    assert UpTo(s, ':') == TwoDigits(h) by {
      var r := UpTo(s, ':');
      assert s[0] != ':' && s[1] != ':' && s[2] == ':';
      assert |r| == 2;
    }
    assert s[3..] == TwoDigits(m);
    assert UpTo(TwoDigits(m), ':') == TwoDigits(m);
  }

  /** For a time of day, the rule passes exactly from 07:00 through 22:00, both ends included. */
  lemma BusinessHours(h: nat, m: nat)
    requires h < 24 && m < 60
    ensures !OutsideHours(Clock(h, m)) <==> (7 <= h <= 21 || (h == 22 && m == 0))
  {
    ClockRoundTrip(h, m);
  }

  // ----- The validator -----

  /** The position of each rule in the validator's checking order. */
  function Rank(e: ReservationError): nat {
    match e
    case NameRequired => 0
    case PhoneRequired => 1
    case DateRequired => 2
    case TimeRequired => 3
    case GuestsRequired => 4
    case InvalidPhone => 5
    case OutsideBusinessHours => 6
  }

  /** All rules, in checking order. */
  const AllErrors: seq<ReservationError> :=
    [NameRequired, PhoneRequired, DateRequired, TimeRequired, GuestsRequired, InvalidPhone, OutsideBusinessHours]

  /** Each rule's own `if`: `!data.name.trim()`, `!data.phone.trim()`, `!data.date`, `!data.time`, `!data.guests`, then the phone pattern when a phone was given and the hours when a time was given. */
  predicate Violates(d: ReservationData, e: ReservationError) {
    match e
    case NameRequired => Text.Trim(d.name) == []
    case PhoneRequired => Text.Trim(d.phone) == []
    case DateRequired => d.date == []
    case TimeRequired => d.time == []
    case GuestsRequired => d.guests == []
    case InvalidPhone => d.phone != [] && !PhoneAccepted(d.phone)
    case OutsideBusinessHours => d.time != [] && OutsideHours(d.time)
  }

  /** Runs the checks of es in turn, pushing each violated one. */
  function Collect(d: ReservationData, es: seq<ReservationError>): seq<ReservationError> {
    if es == [] then [] else (if Violates(d, es[0]) then [es[0]] else []) + Collect(d, es[1..])
  }

  /** The `errors` list of one payload. */
  function Errors(d: ReservationData): seq<ReservationError> {
    Collect(d, AllErrors)
  }

  /** The collected texts joined by newlines, as `errors.join('\n')` builds the notification. */
  function JoinTexts(es: seq<ReservationError>): (r: string)
    ensures es == [] <==> r == []
    ensures es != [] ==> |ErrorText(es[0])| <= |r| && r[..|ErrorText(es[0])|] == ErrorText(es[0])
  {
    if es == [] then ""
    else if |es| == 1 then ErrorText(es[0])
    else ErrorText(es[0]) + "\n" + JoinTexts(es[1..])
  }

  /** The text handed to the error notification, or None when the form is accepted. */
  function Notification(d: ReservationData): Option<string> {
    if |Errors(d)| > 0 then Some(JoinTexts(Errors(d))) else None
  }

  /** `validateReservationForm(data)`: true exactly when no violation was collected. */
  function ValidateReservationForm(d: ReservationData): bool {
    |Errors(d)| == 0
  }

  /** Strictly in checking order, hence also free of repeats. */
  predicate Ascending(es: seq<ReservationError>) {
    forall i, j :: 0 <= i < j < |es| ==> Rank(es[i]) < Rank(es[j])
  }

  /** Collecting keeps exactly the violated checks. */
  lemma {:induction false} CollectMembers(d: ReservationData, es: seq<ReservationError>)
    ensures forall e :: e in Collect(d, es) <==> e in es && Violates(d, e)
  {
    if es != [] {
      CollectMembers(d, es[1..]);
      assert forall e :: e in es <==> e == es[0] || e in es[1..];
    }
  }

  /** Collecting keeps the checking order. */
  lemma {:induction false} CollectAscending(d: ReservationData, es: seq<ReservationError>)
    requires Ascending(es)
    ensures Ascending(Collect(d, es))
  {
    if es != [] {
      CollectAscending(d, es[1..]);
      CollectMembers(d, es[1..]);
      var rest := Collect(d, es[1..]);
      var r := Collect(d, es);
      forall k | 0 <= k < |rest| ensures Rank(es[0]) < Rank(rest[k]) {
        assert rest[k] in es[1..];
      }
      if Violates(d, es[0]) {
        assert r == [es[0]] + rest;
        forall i, j | 0 <= i < j < |r| ensures Rank(r[i]) < Rank(r[j]) {
          if i > 0 {
            assert r[i] == rest[i - 1] && r[j] == rest[j - 1];
          } else {
            assert r[j] == rest[j - 1];
          }
        }
      } else {
        assert r == rest;
      }
    }
  }

  /** The validator collects every violated rule, once each, in checking order, and nothing else. */
  lemma ErrorsAreViolations(d: ReservationData)
    ensures forall e :: e in Errors(d) <==> Violates(d, e)
    ensures Ascending(Errors(d))
  {
    CollectMembers(d, AllErrors);
    forall e ensures e in AllErrors {
      match e
      case NameRequired => assert AllErrors[0] == e;
      case PhoneRequired => assert AllErrors[1] == e;
      case DateRequired => assert AllErrors[2] == e;
      case TimeRequired => assert AllErrors[3] == e;
      case GuestsRequired => assert AllErrors[4] == e;
      case InvalidPhone => assert AllErrors[5] == e;
      case OutsideBusinessHours => assert AllErrors[6] == e;
    }
    CollectAscending(d, AllErrors);
  }

  /** What each message means in terms of the form fields. */
  lemma ErrorMeanings(d: ReservationData)
    ensures NameRequired in Errors(d) <==> Text.Blank(d.name)
    ensures PhoneRequired in Errors(d) <==> Text.Blank(d.phone)
    ensures DateRequired in Errors(d) <==> d.date == []
    ensures TimeRequired in Errors(d) <==> d.time == []
    ensures GuestsRequired in Errors(d) <==> d.guests == []
    ensures InvalidPhone in Errors(d) <==> d.phone != [] && !PhonePattern(Text.StripSpaces(d.phone))
    ensures OutsideBusinessHours in Errors(d) <==>
      d.time != [] && exists v :: ClockMinutes(d.time) == Some(v) && (v < 420 || v > 1320)
  {
    PresenceErrors(d);
    FormatErrors(d);
  }

  /** The five presence messages, each in terms of its own field. */
  lemma PresenceErrors(d: ReservationData)
    ensures NameRequired in Errors(d) <==> Text.Blank(d.name)
    ensures PhoneRequired in Errors(d) <==> Text.Blank(d.phone)
    ensures DateRequired in Errors(d) <==> d.date == []
    ensures TimeRequired in Errors(d) <==> d.time == []
    ensures GuestsRequired in Errors(d) <==> d.guests == []
  {
    PresenceMeanings(d);
    ErrorsAreViolations(d);
  }

  /** The two format messages, each in terms of its own field. */
  lemma FormatErrors(d: ReservationData)
    ensures InvalidPhone in Errors(d) <==> d.phone != [] && !PhonePattern(Text.StripSpaces(d.phone))
    ensures OutsideBusinessHours in Errors(d) <==>
      d.time != [] && exists v :: ClockMinutes(d.time) == Some(v) && (v < 420 || v > 1320)
  {
    FormatMeanings(d);
    ErrorsAreViolations(d);
  }

  /** The five presence rules, each in terms of its own field. */
  lemma PresenceMeanings(d: ReservationData)
    ensures Violates(d, NameRequired) <==> Text.Blank(d.name)
    ensures Violates(d, PhoneRequired) <==> Text.Blank(d.phone)
    ensures Violates(d, DateRequired) <==> d.date == []
    ensures Violates(d, TimeRequired) <==> d.time == []
    ensures Violates(d, GuestsRequired) <==> d.guests == []
  {
    Text.TrimEmpty(d.name);
    Text.TrimEmpty(d.phone);
  }

  /** The two format rules, each in terms of its own field. */
  lemma FormatMeanings(d: ReservationData)
    ensures Violates(d, InvalidPhone) <==> d.phone != [] && !PhonePattern(Text.StripSpaces(d.phone))
    ensures Violates(d, OutsideBusinessHours) <==>
      d.time != [] && exists v :: ClockMinutes(d.time) == Some(v) && (v < 420 || v > 1320)
  {
  }


  /** The form is accepted exactly when it violates no rule. */
  lemma AcceptedIffNoViolation(d: ReservationData)
    ensures ValidateReservationForm(d) <==> forall e :: !Violates(d, e)
  {
    ErrorsAreViolations(d);
    if !ValidateReservationForm(d) {
      assert Errors(d)[0] in Errors(d);
    }
  }

  /** A notification is shown exactly when the form is rejected; when one rule alone fails, it reads that rule's text. */
  lemma NotificationShown(d: ReservationData)
    ensures Notification(d).None? <==> ValidateReservationForm(d)
    ensures Notification(d).Some? ==> Notification(d).value != []
    ensures forall e :: (forall e' :: Violates(d, e') <==> e' == e) ==> Notification(d) == Some(ErrorText(e))
  {
    forall e | forall e' :: Violates(d, e') <==> e' == e
      ensures Notification(d) == Some(ErrorText(e))
    {
      OnlyRule(d, e);
    }
  }

  /** An empty phone gets only "Phone is required"; a whitespace-only phone gets the format error as well. */
  lemma PhoneRequiredAlone(d: ReservationData)
    ensures d.phone == [] ==> PhoneRequired in Errors(d) && InvalidPhone !in Errors(d)
    ensures d.phone != [] && Text.Blank(d.phone) ==> PhoneRequired in Errors(d) && InvalidPhone in Errors(d)
  {
    ErrorMeanings(d);
    if d.phone != [] && Text.Blank(d.phone) {
      Text.StripSpacesEmpty(d.phone);
      assert !PhonePattern([]);
    }
  }

  /** The number of guests is only checked for presence: "0" passes the rule. */
  lemma ZeroGuestsPass(d: ReservationData)
    requires d.guests == "0"
    ensures GuestsRequired !in Errors(d)
  {
    ErrorMeanings(d);
  }

  lemma HeadIsMember(es: seq<ReservationError>)
    requires es != []
    ensures es[0] in es
  {
  }

  /** An ascending list is fixed by its members. */
  lemma AscendingDetermined(es: seq<ReservationError>, expected: seq<ReservationError>)
    requires Ascending(es) && Ascending(expected)
    requires forall e :: e in es <==> e in expected
    ensures es == expected
  {
    if es != [] && expected != [] {
      assert es[0] == expected[0] by {
        assert es[0] in expected && expected[0] in es;
      }
      assert forall e :: e in es[1..] <==> e in expected[1..] by {
        forall e ensures e in es[1..] <==> e in expected[1..] {
          if e in es[1..] {
            assert e in expected && e != expected[0];
          }
          if e in expected[1..] {
            assert e in es && e != es[0];
          }
        }
      }
      AscendingDetermined(es[1..], expected[1..]);
      assert es == [es[0]] + es[1..] && expected == [expected[0]] + expected[1..];
    } else if es != [] {
      HeadIsMember(es);
      assert false;
    } else if expected != [] {
      HeadIsMember(expected);
      assert false;
    }
  }

  /** The collected list is fixed by which rules fail: it is those rules, in checking order. */
  lemma ErrorsAre(d: ReservationData, expected: seq<ReservationError>)
    requires Ascending(expected)
    requires forall e :: Violates(d, e) <==> e in expected
    ensures Errors(d) == expected
  {
    ErrorsAreViolations(d);
    AscendingDetermined(Errors(d), expected);
  }

  /** When exactly one rule fails, the list holds that one error. */
  lemma OnlyRule(d: ReservationData, e: ReservationError)
    requires forall e' :: Violates(d, e') <==> e' == e
    ensures Errors(d) == [e]
  {
    ErrorsAre(d, [e]);
  }

  /** A payload that leaves every field empty collects all five presence errors, and no format error. */
  lemma EmptyFormErrors(d: ReservationData)
    requires d.name == [] && d.phone == [] && d.date == [] && d.time == [] && d.guests == []
    ensures Errors(d) == [NameRequired, PhoneRequired, DateRequired, TimeRequired, GuestsRequired]
  {
    assert forall e :: Violates(d, e) <==> Rank(e) < 5;
    ErrorsAre(d, [NameRequired, PhoneRequired, DateRequired, TimeRequired, GuestsRequired]);
  }

  /** A payload that passes every rule. */
  function Sample(): ReservationData {
    ReservationData("Budi", "08123456789", "2024-01-01", "10:00", "2", "")
  }

  lemma SampleName()
    ensures Text.Trim("Budi") != []
  {
    Text.TrimEmpty("Budi");
    assert !Text.IsSpace("Budi"[0]);
  }

  /** A phone typed as a non-empty run of digits is present, and the pattern applies to it as typed. */
  lemma DigitsPhone(phone: string)
    requires Decimal.AllDigits(phone) && phone != []
    ensures Text.Trim(phone) != []
    ensures PhoneAccepted(phone) == PhonePattern(phone)
  {
    Text.TrimEmpty(phone);
    assert !Text.IsSpace(phone[0]);
    PhoneAcceptedDigits(phone);
  }

  lemma SamplePhone()
    ensures Text.Trim("08123456789") != [] && PhoneAccepted("08123456789")
  {
    SamplePhoneDigits();
    SamplePhonePattern();
  }

  lemma SamplePhoneDigits()
    ensures Text.Trim("08123456789") != []
    ensures PhoneAccepted("08123456789") == PhonePattern("08123456789")
  {
    DigitsPhone("08123456789");
  }

  lemma SamplePhonePattern()
    ensures PhonePattern("08123456789")
  {
    PhonePatternAccepts("0", "8123456789");
    assert "0" + "8123456789" == "08123456789";
  }

  lemma ShortPhone()
    ensures Text.Trim("12345") != [] && !PhoneAccepted("12345")
  {
    ShortPhoneDigits();
  }

  lemma ShortPhoneDigits()
    ensures Text.Trim("12345") != []
    ensures PhoneAccepted("12345") == PhonePattern("12345")
  {
    DigitsPhone("12345");
  }

  lemma SampleTime()
    ensures !OutsideHours("10:00")
  {
    assert Clock(10, 0) == "10:00";
    BusinessHours(10, 0);
  }

  lemma LateTime()
    ensures OutsideHours("23:00")
  {
    assert Clock(23, 0) == "23:00";
    BusinessHours(23, 0);
  }

  lemma SampleAccepted()
    ensures ValidateReservationForm(Sample())
  {
    SampleName();
    SamplePhone();
    SampleTime();
    AcceptedIffNoViolation(Sample());
  }

  /** The rules are independent: spoiling one field of an accepted payload collects exactly that field's error. */
  lemma OneFieldAtATime(d: ReservationData, name: string, phone: string, time: string)
    requires ValidateReservationForm(d)
    ensures Text.Blank(name) ==> Errors(d.(name := name)) == [NameRequired]
    ensures !Text.Blank(phone) && !PhoneAccepted(phone) ==> Errors(d.(phone := phone)) == [InvalidPhone]
    ensures time != [] && OutsideHours(time) ==> Errors(d.(time := time)) == [OutsideBusinessHours]
  {
    AcceptedIffNoViolation(d);
    if Text.Blank(name) {
      BlankNameOnly(d, name);
    }
    if !Text.Blank(phone) && !PhoneAccepted(phone) {
      BadPhoneOnly(d, phone);
    }
    if time != [] && OutsideHours(time) {
      LateTimeOnly(d, time);
    }
  }

  lemma BlankNameOnly(d: ReservationData, name: string)
    requires forall e :: !Violates(d, e)
    requires Text.Blank(name)
    ensures Errors(d.(name := name)) == [NameRequired]
  {
    Text.TrimEmpty(name);
    var d' := d.(name := name);
    forall e ensures Violates(d', e) <==> e == NameRequired {
      assert e != NameRequired ==> (Violates(d', e) <==> Violates(d, e));
    }
    OnlyRule(d', NameRequired);
  }

  lemma BadPhoneOnly(d: ReservationData, phone: string)
    requires forall e :: !Violates(d, e)
    requires !Text.Blank(phone) && !PhoneAccepted(phone)
    ensures Errors(d.(phone := phone)) == [InvalidPhone]
  {
    Text.TrimEmpty(phone);
    var d' := d.(phone := phone);
    forall e ensures Violates(d', e) <==> e == InvalidPhone {
      assert e != PhoneRequired && e != InvalidPhone ==> (Violates(d', e) <==> Violates(d, e));
    }
    OnlyRule(d', InvalidPhone);
  }

  lemma LateTimeOnly(d: ReservationData, time: string)
    requires forall e :: !Violates(d, e)
    requires time != [] && OutsideHours(time)
    ensures Errors(d.(time := time)) == [OutsideBusinessHours]
  {
    var d' := d.(time := time);
    forall e ensures Violates(d', e) <==> e == OutsideBusinessHours {
      assert e != TimeRequired && e != OutsideBusinessHours ==> (Violates(d', e) <==> Violates(d, e));
    }
    OnlyRule(d', OutsideBusinessHours);
  }

  /** Exactly one violation each: an empty name, a time after closing, a phone that is too short. */
  lemma SingleViolations()
    ensures Errors(Sample().(name := "")) == [NameRequired]
    ensures Errors(Sample().(time := "23:00")) == [OutsideBusinessHours]
    ensures Errors(Sample().(phone := "12345")) == [InvalidPhone]
  {
    SampleAccepted();
    ShortPhone();
    LateTime();
    Text.TrimEmpty("12345");
    OneFieldAtATime(Sample(), "", "12345", "23:00");
  }
}
