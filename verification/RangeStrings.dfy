/** Time ranges in URLs: presets by abbreviation, custom ranges as two timestamps
    (web/src/utils/date-range-utils.ts). */
module RangeStrings {
  import opened Wrappers
  import opened Collections
  import opened TextSplit

  /* ---------- presets ---------- */

  datatype Preset = Preset(key: string, abbreviation: string)

  const PRESETS: seq<Preset> := [
    Preset("last5Minutes", "5m"), Preset("last30Minutes", "30m"), Preset("last1Hour", "1h"),
    Preset("last3Hours", "3h"), Preset("last6Hours", "6h"), Preset("last1Day", "1d"), Preset("last3Days", "3d"),
    Preset("last7Days", "7d"), Preset("last14Days", "14d"), Preset("last30Days", "30d"),
    Preset("last90Days", "90d"), Preset("last1Year", "1y"), Preset("allTime", "All"), Preset("custom", "Custom")
  ]

  function FindKey(presets: seq<Preset>, key: string): (r: Option<Preset>)
    ensures r.Some? ==> r.value in presets && r.value.key == key
    ensures r.None? ==> forall p :: p in presets ==> p.key != key
  {
    if presets == [] then None
    else if presets[0].key == key then Some(presets[0])
    else FindKey(presets[1..], key)
  }

  function FindAbbreviation(presets: seq<Preset>, abbreviation: string): (r: Option<Preset>)
    ensures r.Some? ==> r.value in presets && r.value.abbreviation == abbreviation
    ensures r.None? ==> forall p :: p in presets ==> p.abbreviation != abbreviation
  {
    if presets == [] then None
    else if presets[0].abbreviation == abbreviation then Some(presets[0])
    else FindAbbreviation(presets[1..], abbreviation)
  }

  function GetAbbreviatedTimeRange(option: string): string {
    match FindKey(PRESETS, option)
    case Some(p) => p.abbreviation
    case None => option
  }

  function GetFullTimeRangeFromAbbreviated(abbreviated: string): Option<string> {
    match FindAbbreviation(PRESETS, abbreviated)
    case Some(p) => Some(p.key)
    case None => None
  }

  /* ---------- decimal numbers ---------- */

  predicate IsDigit(c: char) { '0' <= c <= '9' }

  function DigitChar(n: nat): (c: char)
    requires n < 10
    ensures IsDigit(c) && c as int - '0' as int == n
  {
    '0' + n as char
  }

  function Print(n: nat): (s: string)
    ensures s != [] && forall k :: 0 <= k < |s| ==> IsDigit(s[k])
  {
    if n < 10 then [DigitChar(n)] else Print(n / 10) + [DigitChar(n % 10)]
  }

  function PrintInt(n: int): string { if n < 0 then "-" + Print(-n) else Print(n) }

  function Digits(s: string): (r: string)
    ensures r <= s && forall k :: 0 <= k < |r| ==> IsDigit(r[k])
  {
    if s != "" && IsDigit(s[0]) then [s[0]] + Digits(s[1..]) else ""
  }

  function DigitValue(c: char): nat { if IsDigit(c) then c as int - '0' as int else 0 }

  function Value(s: string): nat {
    if s == "" then 0 else 10 * Value(Init(s)) + DigitValue(Last(s))
  }

  /** Decimal notation: one more digit is worth ten times what stands before it, plus itself. */
  lemma ValueGrows(s: string, c: char)
    requires IsDigit(c)
    ensures Value("") == 0 && Value(s + [c]) == 10 * Value(s) + (c as int - '0' as int)
  {
    assert Init(s + [c]) == s;
  }

  function TrimStart(s: string): string { if s != "" && IsSpace(s[0]) then TrimStart(s[1..]) else s }

  /** `parseInt(s, 10)`: blanks, a sign, then the longest run of digits; `None` is NaN. */
  function ParseInt(s: string): Option<int> {
    var t := TrimStart(s);
    var negative := t != "" && t[0] == '-';
    var digits := Digits(if negative || (t != "" && t[0] == '+') then t[1..] else t);
    var v: int := Value(digits);
    if digits == "" then None else Some(if negative then -v else v)
  }

  lemma {:induction false} AllDigits(s: string)
    requires forall k :: 0 <= k < |s| ==> IsDigit(s[k])
    ensures Digits(s) == s
  {
    if s != "" { AllDigits(s[1..]); }
  }

  lemma {:induction false} ValueOfPrint(n: nat)
    ensures Value(Print(n)) == n
  {
    if n >= 10 {
      ValueOfPrint(n / 10);
      assert Init(Print(n)) == Print(n / 10);
    } else {
      assert Init(Print(n)) == "";
    }
  }

  lemma PrintParses(n: nat)
    ensures ParseInt(Print(n)) == Some(n)
  {
    AllDigits(Print(n));
    ValueOfPrint(n);
  }

  /* ---------- ranges ---------- */

  lemma {:induction false} TrimSkips(blank: string, s: string)
    requires forall k :: 0 <= k < |blank| ==> IsSpace(blank[k])
    requires s == "" || !IsSpace(s[0])
    ensures TrimStart(blank + s) == s
    decreases |blank|
  {
    if blank == "" {
      assert blank + s == s;
    } else {
      TrimSkips(blank[1..], s);
      assert (blank + s)[1..] == blank[1..] + s;
    }
  }

  lemma {:induction false} DigitsStop(digits: string, rest: string)
    requires forall k :: 0 <= k < |digits| ==> IsDigit(digits[k])
    requires rest == "" || !IsDigit(rest[0])
    ensures Digits(digits + rest) == digits
    decreases |digits|
  {
    if digits == "" {
      assert digits + rest == rest;
    } else {
      DigitsStop(digits[1..], rest);
      assert (digits + rest)[1..] == digits[1..] + rest;
    }
  }

  /** White space in front, then the digits up to the first other character: without a digit there is no number. */
  lemma ParseUnsigned(s: string, blank: string, digits: string, rest: string)
    requires s == blank + (digits + rest) && Spaces(blank) && OnlyDigits(digits)
    requires rest == "" || !IsDigit(rest[0])
    requires digits == "" && rest != "" ==> !IsSpace(rest[0]) && rest[0] != '+' && rest[0] != '-'
    ensures ParseInt(s) == if digits == "" then None else Some(Value(digits))
  {
    var body := digits + rest;
    assert digits != "" ==> body[0] == digits[0];
    assert digits == "" ==> body == rest;
    TrimSkips(blank, body);
    DigitsStop(digits, rest);
  }

  lemma ParseTrimmed(s: string, sign: char, body: string, digits: string)
    requires TrimStart(s) == [sign] + body && Digits(body) == digits && (sign == '-' || sign == '+')
    ensures digits == "" ==> ParseInt(s) == None
    ensures digits != "" && sign == '-' ==> ParseInt(s) == Some(-(Value(digits) as int))
    ensures digits != "" && sign == '+' ==> ParseInt(s) == Some(Value(digits))
  {
    assert ([sign] + body)[1..] == body;
  }

  predicate Spaces(s: string) { forall k :: 0 <= k < |s| ==> IsSpace(s[k]) }

  predicate OnlyDigits(s: string) { forall k :: 0 <= k < |s| ==> IsDigit(s[k]) }

  lemma TrimToSign(s: string, blank: string, sign: char, body: string)
    requires s == blank + ([sign] + body) && Spaces(blank) && (sign == '-' || sign == '+')
    ensures TrimStart(s) == [sign] + body
  {
    assert ([sign] + body)[0] == sign && !IsSpace(sign);
    TrimSkips(blank, [sign] + body);
  }

  lemma SignedParts(s: string, blank: string, sign: char, digits: string, rest: string)
    requires s == blank + ([sign] + (digits + rest)) && Spaces(blank) && OnlyDigits(digits)
    requires (sign == '-' || sign == '+') && (rest == "" || !IsDigit(rest[0]))
    ensures TrimStart(s) == [sign] + (digits + rest) && Digits(digits + rest) == digits
  {
    TrimToSign(s, blank, sign, digits + rest);
    DigitsStop(digits, rest);
  }

  /** With a sign in front of the digits; a minus makes the number negative. */
  lemma ParseSigned(s: string, blank: string, sign: char, digits: string, rest: string)
    requires s == blank + ([sign] + (digits + rest)) && Spaces(blank) && OnlyDigits(digits)
    requires (sign == '-' || sign == '+') && (rest == "" || !IsDigit(rest[0]))
    ensures digits == "" ==> ParseInt(s) == None
    ensures digits != "" && sign == '-' ==> ParseInt(s) == Some(-(Value(digits) as int))
    ensures digits != "" && sign == '+' ==> ParseInt(s) == Some(Value(digits))
  {
    SignedParts(s, blank, sign, digits, rest);
    ParseTrimmed(s, sign, digits + rest, digits);
  }

  const MAX_TIME := 8_640_000_000_000_000

  /** The time value of a JavaScript `Date`. */
  datatype Time = Invalid | Valid(ms: int)
  type Date = t: Time | t.Valid? ==> -MAX_TIME <= t.ms <= MAX_TIME witness Invalid

  datatype TimeRange = Named(range: string) | Absolute(from: Date, to: Date)

  function PrintDate(d: Date): string {
    match d
    case Invalid => "NaN"
    case Valid(ms) => PrintInt(ms)
  }

  function NewDate(n: int): Date { if -MAX_TIME <= n <= MAX_TIME then Valid(n) else Invalid }

  /** Dates reach 100 million days to either side of 1970. */
  lemma DateRange(n: int)
    ensures -100_000_000 * 86_400_000 <= n <= 100_000_000 * 86_400_000 <==> NewDate(n) == Valid(n)
    ensures NewDate(n) == Valid(n) || NewDate(n) == Invalid
  {
  }


  function RangeToString(range: TimeRange): string {
    match range
    case Named(name) => GetAbbreviatedTimeRange(name)
    case Absolute(from, to) => PrintDate(from) + "-" + PrintDate(to)
  }

  function ParseCustom(s: string): Option<TimeRange> {
    var parts := Split(s, "-");
    if |parts| != 2 then None
    else
      match (ParseInt(parts[0]), ParseInt(parts[1]))
      case (Some(f), Some(t)) =>
        var from, to := NewDate(f), NewDate(t);
        if from.Valid? && to.Valid? && from.ms <= to.ms then Some(Absolute(from, to)) else None
      case _ => None
  }

  function RangeFromString(abbreviatedRange: string, allowedRanges: seq<string>, fallback: string): TimeRange {
    var fullRange := GetFullTimeRangeFromAbbreviated(abbreviatedRange);
    if fullRange.Some? && fullRange.value in allowedRanges then Named(fullRange.value)
    else
      match ParseCustom(abbreviatedRange)
      case Some(r) => r
      case None => Named(fallback)
  }

  /* ---------- dashes ---------- */

  predicate NoDash(s: string) { '-' !in s }

  lemma OnePart(s: string)
    requires NoDash(s)
    ensures Split(s, "-") == [s]
  {
    WithoutChar(s, '-');
  }

  lemma TwoParts(a: string, b: string)
    requires NoDash(a) && NoDash(b)
    ensures Split(a + "-" + b, "-") == [a, b]
  {
    WithoutChar(a, '-');
    WithoutChar(b, '-');
    assert Join([a, b][1..], "-") == b;
    SplitIsUnique([a, b], a + "-" + b, "-");
  }

  lemma {:induction false} PartsAreDashes(s: string)
    ensures |Split(s, "-")| == 1 + multiset(s)['-']
    ensures forall k :: 0 <= k < |Split(s, "-")| ==> NoDash(Split(s, "-")[k])
    decreases |s|
  {
    var i := Find(s, "-");
    if i < 0 {
      forall k | 0 <= k < |s| ensures s[k] != '-' { assert !At(s, "-", k); assert s[k..k + 1] == [s[k]]; }
      assert NoDash(s);
    } else {
      var rest := s[i + 1..];
      PartsAreDashes(rest);
      forall k | 0 <= k < i ensures s[k] != '-' { assert !At(s, "-", k); assert s[k..k + 1] == [s[k]]; }
      assert s[i..i + 1] == "-";
      assert s == s[..i] + "-" + rest;
      assert NoDash(s[..i]) && multiset(s) == multiset(s[..i]) + multiset("-") + multiset(rest);
    }
  }

  /* ---------- round trips ---------- */

  /** First character, last character and length tell all the abbreviations apart. */
  function Tag(s: string): int {
    if s == "" then 0 else s[0] as int + 1_000 * s[|s| - 1] as int + 1_000_000 * |s|
  }

  const TAGS: seq<int> := [2_109_053, 3_109_051, 2_104_049, 2_104_051, 2_104_054, 2_100_049, 2_100_051,
                           2_100_055, 3_100_049, 3_100_051, 3_100_057, 2_121_049, 3_108_065, 6_109_067]

  lemma TagAt(k: nat)
    requires k < |PRESETS|
    ensures k < |TAGS| && Tag(PRESETS[k].abbreviation) == TAGS[k]
  {
  }

  lemma DistinctTags(i: nat, j: nat)
    requires i < |TAGS| && j < |TAGS| && TAGS[i] == TAGS[j]
    ensures i == j
  {
  }

  lemma DistinctAbbreviations(p: Preset, q: Preset)
    requires p in PRESETS && q in PRESETS && p.abbreviation == q.abbreviation
    ensures p == q
  {
    var i :| 0 <= i < |PRESETS| && PRESETS[i] == p;
    var j :| 0 <= j < |PRESETS| && PRESETS[j] == q;
    TagAt(i);
    TagAt(j);
    DistinctTags(i, j);
  }

  lemma KeyText(p: Preset)
    requires p in PRESETS
    ensures NoDash(p.key) && |p.key| >= 6 && p.key[0] != 'C'
  {
  }

  lemma AbbreviationText(p: Preset)
    requires p in PRESETS
    ensures NoDash(p.abbreviation) && (|p.abbreviation| <= 3 || p.abbreviation == "Custom")
  {
  }

  lemma KeyIsNoAbbreviation(p: Preset, q: Preset)
    requires p in PRESETS && q in PRESETS
    ensures q.abbreviation != p.key
  {
    KeyText(p);
    AbbreviationText(q);
  }

  lemma AbbreviationReturns(p: Preset)
    requires p in PRESETS
    ensures GetFullTimeRangeFromAbbreviated(GetAbbreviatedTimeRange(p.key)) == Some(p.key)
    ensures NoDash(GetAbbreviatedTimeRange(p.key))
  {
    var found := FindKey(PRESETS, p.key);
    var back := FindAbbreviation(PRESETS, found.value.abbreviation);
    DistinctAbbreviations(found.value, back.value);
    AbbreviationText(found.value);
  }

  /** A preset survives the URL exactly when the page allows it or falls back to it. */
  lemma NamedRoundTrip(p: Preset, allowed: seq<string>, fallback: string)
    requires p in PRESETS
    ensures RangeFromString(RangeToString(Named(p.key)), allowed, fallback) == Named(p.key)
            <==> p.key in allowed || p.key == fallback
  {
    AbbreviationReturns(p);
    OnePart(GetAbbreviatedTimeRange(p.key));
  }

  /** A name that is no preset is printed as it is. */
  lemma UnknownNamesPrint(name: string)
    ensures (forall p :: p in PRESETS ==> p.key != name) ==> RangeToString(Named(name)) == name
  {
  }

  lemma KeyIsNotFound(p: Preset)
    requires p in PRESETS
    ensures GetFullTimeRangeFromAbbreviated(p.key) == None && NoDash(p.key)
  {
    KeyText(p);
    forall q | q in PRESETS ensures q.abbreviation != p.key { KeyIsNoAbbreviation(p, q); }
  }

  lemma NoDashIsNoRange(s: string)
    requires NoDash(s)
    ensures ParseCustom(s) == None
  {
    OnePart(s);
  }

  /** A full preset name in the URL is never recognised. */
  lemma FullNamesFallBack(p: Preset, allowed: seq<string>, fallback: string)
    requires p in PRESETS
    ensures RangeFromString(p.key, allowed, fallback) == Named(fallback)
  {
    KeyIsNotFound(p);
    NoDashIsNoRange(p.key);
  }

  predicate Printable(from: Date, to: Date) { from.Valid? && to.Valid? && 0 <= from.ms <= to.ms }

  lemma CustomIsNoPreset(a: string, b: string)
    ensures GetFullTimeRangeFromAbbreviated(a + "-" + b).None?
  {
    var s := a + "-" + b;
    assert s[|a|] == '-';
    forall p | p in PRESETS ensures p.abbreviation != s { AbbreviationText(p); }
  }

  lemma TwoPartsIff(a: string, b: string)
    ensures |Split(a + "-" + b, "-")| == 2 <==> NoDash(a) && NoDash(b)
  {
    PartsAreDashes(a + "-" + b);
    assert multiset(a + "-" + b) == multiset(a) + multiset("-") + multiset(b);
    assert multiset(a)['-'] == 0 <==> '-' !in multiset(a);
  }

  lemma DateReads(d: Date)
    ensures NoDash(PrintDate(d)) <==> d.Valid? ==> d.ms >= 0
    ensures NoDash(PrintDate(d)) ==> ParseInt(PrintDate(d)) == if d.Valid? then Some(d.ms) else None
  {
    if d.Valid? {
      if d.ms < 0 {
        assert "-"[0] == '-' && PrintInt(d.ms)[0] == '-';
      } else {
        PrintParses(d.ms);
      }
    }
  }

  /** A custom range survives the URL exactly when both dates are valid, not before 1970 and in order. */
  lemma CustomRoundTrip(from: Date, to: Date, allowed: seq<string>, fallback: string)
    ensures RangeFromString(RangeToString(Absolute(from, to)), allowed, fallback) == Absolute(from, to)
            <==> Printable(from, to)
  {
    var a, b := PrintDate(from), PrintDate(to);
    CustomIsNoPreset(a, b);
    TwoPartsIff(a, b);
    DateReads(from);
    DateReads(to);
    if NoDash(a) && NoDash(b) { TwoParts(a, b); }
  }

  /** Every parsed range is a fixed point of printing and parsing, whatever text it came from. */
  lemma ParsedRangesAreStable(s: string, allowed: seq<string>, fallback: Preset)
    requires fallback in PRESETS
    ensures var r := RangeFromString(s, allowed, fallback.key);
            RangeFromString(RangeToString(r), allowed, fallback.key) == r
  {
    var r := RangeFromString(s, allowed, fallback.key);
    match r
    case Named(name) =>
      var full := FindAbbreviation(PRESETS, s);
      if full.Some? && full.value.key in allowed {
        NamedRoundTrip(full.value, allowed, fallback.key);
      } else {
        NamedRoundTrip(fallback, allowed, fallback.key);
      }
    case Absolute(from, to) =>
      CustomRoundTrip(from, to, allowed, fallback.key);
      PartsAreDashes(s);
      UnsignedParts(Split(s, "-")[0]);
      UnsignedParts(Split(s, "-")[1]);
  }

  lemma {:induction false} TrimNoDash(s: string)
    requires NoDash(s)
    ensures NoDash(TrimStart(s))
  {
    if s != "" { TrimNoDash(s[1..]); }
  }

  lemma UnsignedParts(s: string)
    requires NoDash(s)
    ensures ParseInt(s).Some? ==> ParseInt(s).value >= 0
  {
    TrimNoDash(s);
  }
}
