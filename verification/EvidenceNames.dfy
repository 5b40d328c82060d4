/** The names of capture evidence files and of their temporary siblings: the printers, and the recogniser that
    the opt-out sweep deletes by. Strings are sequences of characters; file names here are ASCII. */
module EvidenceNames {
  import opened Wrappers

  const U32_MAX: nat := 0xFFFF_FFFF
  const U64_MAX: nat := 0xFFFF_FFFF_FFFF_FFFF
  const EVIDENCE: string := ".evidence.json"
  const TMP: string := ".tmp-"

  // ---- characters ----

  predicate Digit(c: char) { '0' <= c <= '9' }

  predicate Lower(c: char) { 'a' <= c <= 'z' }

  predicate Upper(c: char) { 'A' <= c <= 'Z' }

  predicate Alphanumeric(c: char) { Digit(c) || Lower(c) || Upper(c) }

  predicate AllDigits(s: string) { forall i :: 0 <= i < |s| ==> Digit(s[i]) }

  // ---- decimal numbers ----

  function DigitChar(d: nat): (c: char)
    requires d < 10
    ensures Digit(c)
  {
    '0' + d as char
  }

  function ToDecimal(n: nat): string {
    if n < 10 then [DigitChar(n)] else ToDecimal(n / 10) + [DigitChar(n % 10)]
  }

  function DecimalValue(s: string): nat
    requires AllDigits(s)
  {
    if s == [] then 0 else DecimalValue(s[..|s| - 1]) * 10 + (s[|s| - 1] as int - '0' as int)
  }

  /** `str::parse` of an unsigned integer: an optional plus sign, at least one digit, no overflow. */
  function Parse(s: string, max: nat): Option<nat> {
    var digits := if s != [] && s[0] == '+' then s[1..] else s;
    if digits == [] || !AllDigits(digits) || DecimalValue(digits) > max then None else Some(DecimalValue(digits))
  }

  /** The text is exactly how its value prints. */
  predicate Canonical(s: string, max: nat) {
    Parse(s, max).Some? && ToDecimal(Parse(s, max).value) == s
  }

  lemma {:induction false} DecimalRoundTrip(n: nat)
    ensures ToDecimal(n) != [] && AllDigits(ToDecimal(n)) && DecimalValue(ToDecimal(n)) == n
  {
    if n >= 10 {
      DecimalRoundTrip(n / 10);
      assert ToDecimal(n)[..|ToDecimal(n)| - 1] == ToDecimal(n / 10);
    } else {
      assert ToDecimal(n)[..0] == [];
    }
  }

  lemma PrintedIsCanonical(n: nat, max: nat)
    requires n <= max
    ensures Parse(ToDecimal(n), max) == Some(n) && Canonical(ToDecimal(n), max)
  {
    DecimalRoundTrip(n);
    assert Digit(ToDecimal(n)[0]);
  }

  // ---- splitting ----

  predicate HasAt(s: string, part: string, i: nat) {
    i + |part| <= |s| && s[i..i + |part|] == part
  }

  /** The last occurrence at or before `i`. */
  function RFind(s: string, part: string, i: nat): Option<nat> {
    if HasAt(s, part, i) then Some(i) else if i == 0 then None else RFind(s, part, i - 1)
  }

  function RSplitOnce(s: string, part: string): Option<(string, string)> {
    match RFind(s, part, |s|)
    case None => None
    case Some(i) => if i + |part| <= |s| then Some((s[..i], s[i + |part|..])) else None
  }

  function Find(s: string, c: char, i: nat): Option<nat>
    requires i <= |s|
    decreases |s| - i
  {
    if i == |s| then None else if s[i] == c then Some(i) else Find(s, c, i + 1)
  }

  function SplitOnce(s: string, c: char): Option<(string, string)> {
    match Find(s, c, 0)
    case None => None
    case Some(i) => if i < |s| then Some((s[..i], s[i + 1..])) else None
  }

  function StripSuffix(s: string, suffix: string): Option<string> {
    if |suffix| <= |s| && s[|s| - |suffix|..] == suffix then Some(s[..|s| - |suffix|]) else None
  }

  lemma RFindIs(s: string, part: string, i: nat, j: nat)
    requires i <= j && HasAt(s, part, i) && forall k :: i < k <= j ==> !HasAt(s, part, k)
    ensures RFind(s, part, j) == Some(i)
  {}

  lemma RFindNone(s: string, part: string, j: nat)
    requires forall k :: 0 <= k <= j ==> !HasAt(s, part, k)
    ensures RFind(s, part, j) == None
  {}

  lemma RFindFound(s: string, part: string, j: nat)
    ensures RFind(s, part, j).Some? ==> HasAt(s, part, RFind(s, part, j).value)
  {}

  lemma FindIs(s: string, c: char, i: nat, from: nat)
    requires from <= i < |s| && s[i] == c && forall k :: from <= k < i ==> s[k] != c
    ensures Find(s, c, from) == Some(i)
    decreases i - from
  {}

  lemma FindFound(s: string, c: char, from: nat)
    requires from <= |s|
    ensures Find(s, c, from).Some? ==> from <= Find(s, c, from).value < |s| && s[Find(s, c, from).value] == c
    decreases |s| - from
  {}

  // ---- the printers ----

  /** The process and the sequence number in a temporary name. */
  datatype Temporary = Temporary(pid: nat, sequence: nat)

  datatype Name = Name(stem: string, temporary: Option<Temporary>)

  /** `path_for`, then `unique_temporary_path` if the name is temporary. */
  function Print(name: Name): string {
    var evidence := name.stem + EVIDENCE;
    match name.temporary
    case None => evidence
    case Some(t) => evidence + TMP + ToDecimal(t.pid) + "-" + ToDecimal(t.sequence)
  }

  predicate ValidStem(stem: string) {
    && |stem| >= 17
    && AllDigits(stem[..8]) && stem[8] == '-' && AllDigits(stem[9..15]) && stem[15] == '-'
    && Alphanumeric(stem[16]) && Alphanumeric(stem[|stem| - 1])
    && forall i :: 16 <= i < |stem| ==> Lower(stem[i]) || Digit(stem[i]) || stem[i] == '-'
  }

  predicate ValidName(name: Name) {
    && ValidStem(name.stem)
    && (name.temporary.Some? ==> name.temporary.value.pid <= U32_MAX && name.temporary.value.sequence <= U64_MAX)
  }

  // ---- the recogniser ----

  predicate IsCaptureEvidenceName(name: string) {
    match RSplitOnce(name, TMP)
    case None => StripSuffix(name, EVIDENCE).Some? && ValidStem(StripSuffix(name, EVIDENCE).value)
    case Some((canonical, temporary)) =>
      match SplitOnce(temporary, '-')
      case None => false
      case Some((pid, sequence)) =>
        Canonical(pid, U32_MAX) && Canonical(sequence, U64_MAX) &&
        StripSuffix(canonical, EVIDENCE).Some? && ValidStem(StripSuffix(canonical, EVIDENCE).value)
  }

  /** What an accepted name stands for. */
  function Decode(name: string): Name
    requires IsCaptureEvidenceName(name)
  {
    match RSplitOnce(name, TMP)
    case None => Name(StripSuffix(name, EVIDENCE).value, None)
    case Some((canonical, temporary)) =>
      var parts := SplitOnce(temporary, '-').value;
      Name(StripSuffix(canonical, EVIDENCE).value,
           Some(Temporary(Parse(parts.0, U32_MAX).value, Parse(parts.1, U64_MAX).value)))
  }

  lemma StemHasNoDot(stem: string, i: nat)
    requires ValidStem(stem) && i < |stem|
    ensures stem[i] != '.'
  {
    if i < 8 {
      assert stem[i] == stem[..8][i];
    } else if 9 <= i < 15 {
      assert stem[i] == stem[9..15][i - 9];
    }
  }

  lemma SuffixStrips(stem: string)
    ensures StripSuffix(stem + EVIDENCE, EVIDENCE) == Some(stem)
  {}

  lemma MarkerStarts(s: string, k: nat)
    ensures HasAt(s, TMP, k) ==> k + 1 < |s| && s[k] == '.' && s[k + 1] == 't'
  {
    if HasAt(s, TMP, k) {
      assert s[k] == s[k..k + 5][0] && s[k + 1] == s[k..k + 5][1];
    }
  }

  /** A marker begins with a dot followed by a `t`; in an evidence name no dot is. */
  lemma NoMarker(stem: string, k: nat)
    requires ValidStem(stem)
    ensures !HasAt(stem + EVIDENCE, TMP, k)
  {
    var s := stem + EVIDENCE;
    if k + 5 <= |s| {
      if k < |stem| {
        StemHasNoDot(stem, k);
      } else {
        var j := k - |stem|;
        assert s[k] == EVIDENCE[j] && s[k + 1] == EVIDENCE[j + 1];
        assert j != 0 ==> j != 9 ==> EVIDENCE[j] != '.';
      }
      MarkerStarts(s, k);
    }
  }

  /** Behind the marker there are only digits and a dash, so the marker found is the one that was printed. */
  lemma LastMarker(front: string, back: string)
    requires forall i :: 0 <= i < |back| ==> back[i] != '.'
    ensures RSplitOnce(front + TMP + back, TMP) == Some((front, back))
  {
    var s := front + TMP + back;
    assert s[..|front|] == front && s[|front|..|front| + 5] == TMP && s[|front| + 5..] == back;
    assert HasAt(s, TMP, |front|);
    forall k | |front| < k <= |s| ensures !HasAt(s, TMP, k) {
      if k + 5 <= |s| {
        if k < |front| + 5 {
          assert s[k] == TMP[k - |front|];
        } else {
          assert s[k] == back[k - |front| - 5];
        }
        MarkerStarts(s, k);
      }
    }
    RFindIs(s, TMP, |front|, |s|);
  }

  lemma FirstDash(pid: string, sequence: string)
    requires AllDigits(pid)
    ensures SplitOnce(pid + "-" + sequence, '-') == Some((pid, sequence))
  {
    var s := pid + "-" + sequence;
    assert forall k :: 0 <= k < |pid| ==> s[k] == pid[k];
    assert s[..|pid|] == pid && s[|pid| + 1..] == sequence;
    FindIs(s, '-', |pid|, 0);
  }

  lemma PlainIsDecoded(stem: string)
    requires ValidStem(stem)
    ensures IsCaptureEvidenceName(stem + EVIDENCE) && Decode(stem + EVIDENCE) == Name(stem, None)
  {
    var evidence := stem + EVIDENCE;
    forall k | 0 <= k <= |evidence| ensures !HasAt(evidence, TMP, k) {
      NoMarker(stem, k);
    }
    RFindNone(evidence, TMP, |evidence|);
    SuffixStrips(stem);
    hide ValidStem, HasAt, RFind;
  }

  lemma TemporaryIsDecoded(stem: string, pid: string, sequence: string)
    requires ValidStem(stem) && Canonical(pid, U32_MAX) && Canonical(sequence, U64_MAX)
    requires AllDigits(pid) && AllDigits(sequence)
    ensures var text := stem + EVIDENCE + TMP + (pid + "-" + sequence);
      && IsCaptureEvidenceName(text)
      && Decode(text) == Name(stem, Some(Temporary(Parse(pid, U32_MAX).value, Parse(sequence, U64_MAX).value)))
  {
    LastMarker(stem + EVIDENCE, pid + "-" + sequence);
    FirstDash(pid, sequence);
    SuffixStrips(stem);
    hide ValidStem, RSplitOnce, SplitOnce, StripSuffix, Parse, Canonical, AllDigits;
  }

  /** Complete: every name that is ever printed is accepted and stands for what was printed. */
  lemma PrintThenDecode(name: Name)
    requires ValidName(name)
    ensures IsCaptureEvidenceName(Print(name)) && Decode(Print(name)) == name
  {
    hide ValidStem, IsCaptureEvidenceName, Decode, ToDecimal, DecimalValue, AllDigits, Canonical, Parse;
    if name.temporary.None? {
      PlainIsDecoded(name.stem);
    } else {
      var t := name.temporary.value;
      PrintedIsCanonical(t.pid, U32_MAX);
      PrintedIsCanonical(t.sequence, U64_MAX);
      DecimalRoundTrip(t.pid);
      DecimalRoundTrip(t.sequence);
      TemporaryIsDecoded(name.stem, ToDecimal(t.pid), ToDecimal(t.sequence));
      assert Print(name) == name.stem + EVIDENCE + TMP + (ToDecimal(t.pid) + "-" + ToDecimal(t.sequence));
    }
  }

  lemma RSplitJoins(s: string, part: string)
    ensures RSplitOnce(s, part).Some? ==> s == RSplitOnce(s, part).value.0 + part + RSplitOnce(s, part).value.1
  {
    RFindFound(s, part, |s|);
  }

  lemma SplitJoins(s: string, c: char)
    ensures SplitOnce(s, c).Some? ==> s == SplitOnce(s, c).value.0 + [c] + SplitOnce(s, c).value.1
  {
    FindFound(s, c, 0);
  }

  lemma StripJoins(s: string, suffix: string)
    ensures StripSuffix(s, suffix).Some? ==> s == StripSuffix(s, suffix).value + suffix
  {}

  lemma CanonicalPrints(s: string, max: nat)
    requires Canonical(s, max)
    ensures Parse(s, max).value <= max && ToDecimal(Parse(s, max).value) == s
  {}

  /** Sound: an accepted name is exactly what its decoding prints, so nothing else is ever deleted. */
  lemma DecodeThenPrint(name: string)
    requires IsCaptureEvidenceName(name)
    ensures ValidName(Decode(name)) && Print(Decode(name)) == name
  {
    hide ValidStem, RSplitOnce, SplitOnce, StripSuffix, Parse, Canonical, ToDecimal;
    RSplitJoins(name, TMP);
    match RSplitOnce(name, TMP) {
      case None => StripJoins(name, EVIDENCE);
      case Some((canonical, temporary)) =>
        SplitJoins(temporary, '-');
        StripJoins(canonical, EVIDENCE);
        var parts, stem := SplitOnce(temporary, '-').value, StripSuffix(canonical, EVIDENCE).value;
        CanonicalPrints(parts.0, U32_MAX);
        CanonicalPrints(parts.1, U64_MAX);
        assert name == stem + EVIDENCE + TMP + parts.0 + "-" + parts.1;
    }
  }

  /** The recogniser accepts exactly the printed names, and no two of them print alike. */
  lemma RecogniserIsExact(text: string)
    ensures IsCaptureEvidenceName(text) <==> exists name :: ValidName(name) && Print(name) == text
  {
    if IsCaptureEvidenceName(text) {
      DecodeThenPrint(text);
    }
    if name :| ValidName(name) && Print(name) == text {
      PrintThenDecode(name);
    }
  }

  lemma PrintIsInjective(a: Name, b: Name)
    requires ValidName(a) && ValidName(b) && Print(a) == Print(b)
    ensures a == b
  {
    PrintThenDecode(a);
    PrintThenDecode(b);
  }

  // ---- stems ----

  function SlugChar(c: char): char {
    if Upper(c) then (c as int - 'A' as int + 'a' as int) as char else if Alphanumeric(c) then c else '-'
  }

  function TrimLeft(s: string): string {
    if s != [] && s[0] == '-' then TrimLeft(s[1..]) else s
  }

  function TrimRight(s: string): string {
    if s != [] && s[|s| - 1] == '-' then TrimRight(s[..|s| - 1]) else s
  }

  function Slug(appName: string): string {
    var trimmed := TrimRight(TrimLeft(seq(|appName|, i requires 0 <= i < |appName| => SlugChar(appName[i]))));
    if trimmed == [] then "app" else trimmed
  }

  /** `recording_stem`: eight digits of date, six of time, and the slug of the app's name. */
  function RecordingStem(date: string, time: string, appName: string): string {
    date + "-" + time + "-" + Slug(appName)
  }

  predicate SlugChars(s: string) {
    forall i :: 0 <= i < |s| ==> Lower(s[i]) || Digit(s[i]) || s[i] == '-'
  }

  lemma {:induction false} TrimLeftFacts(s: string)
    requires SlugChars(s)
    ensures SlugChars(TrimLeft(s)) && (TrimLeft(s) != [] ==> TrimLeft(s)[0] != '-')
    decreases |s|
  {
    if s != [] && s[0] == '-' {
      TrimLeftFacts(s[1..]);
    }
  }

  lemma {:induction false} TrimRightFacts(s: string)
    requires SlugChars(s)
    ensures SlugChars(TrimRight(s)) && TrimRight(s) <= s
    ensures TrimRight(s) != [] ==> TrimRight(s)[|TrimRight(s)| - 1] != '-'
    decreases |s|
  {
    if s != [] && s[|s| - 1] == '-' {
      TrimRightFacts(s[..|s| - 1]);
    }
  }

  /** Whatever the app is called, its recordings get stems that the recogniser knows. */
  lemma RecordingStemIsValid(date: string, time: string, appName: string)
    requires |date| == 8 && AllDigits(date) && |time| == 6 && AllDigits(time)
    ensures ValidStem(RecordingStem(date, time, appName))
  {
    var mapped := seq(|appName|, i requires 0 <= i < |appName| => SlugChar(appName[i]));
    assert SlugChars(mapped);
    TrimLeftFacts(mapped);
    TrimRightFacts(TrimLeft(mapped));
    var slug, stem := Slug(appName), RecordingStem(date, time, appName);
    assert stem[..8] == date && stem[9..15] == time;
    assert forall i :: 16 <= i < |stem| ==> stem[i] == slug[i - 16];
  }

  lemma SlugOfPlain(name: string)
    requires name != [] && SlugChars(name) && name[0] != '-' && name[|name| - 1] != '-'
    ensures Slug(name) == name
  {
    assert seq(|name|, i requires 0 <= i < |name| => SlugChar(name[i])) == name;
  }

  /** Letters are folded to small ones, digits stay, and everything else becomes a dash. */
  lemma SlugCharFolds(c: char)
    ensures Lower(c) || Digit(c) ==> SlugChar(c) == c
    ensures 'A' <= c <= 'Z' ==> 'a' <= SlugChar(c) <= 'z' && SlugChar(c) as int - 'a' as int == c as int - 'A' as int
    ensures !Alphanumeric(c) ==> SlugChar(c) == '-'
  {}

  /** The recogniser knows no other stems: each one that it accepts is that of some recording. */
  lemma StemsAreExact(stem: string)
    ensures ValidStem(stem) <==>
      exists date, time, appName ::
        |date| == 8 && AllDigits(date) && |time| == 6 && AllDigits(time) && stem == RecordingStem(date, time, appName)
  {
    if ValidStem(stem) {
      var date, time, slug := stem[..8], stem[9..15], stem[16..];
      SlugOfPlain(slug);
      assert stem == date + "-" + time + "-" + slug;
      assert stem == RecordingStem(date, time, slug);
    }
    if date, time, appName :|
      |date| == 8 && AllDigits(date) && |time| == 6 && AllDigits(time) && stem == RecordingStem(date, time, appName) {
      RecordingStemIsValid(date, time, appName);
    }
  }
}
