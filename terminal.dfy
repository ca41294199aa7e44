/**
 * The terminal: the text operations the Enter handler applies to a typed line
 * (`trim`, `replace`, `split`, `toUpperCase`), how it classifies the line, what it
 * prints for each kind, and the manual/auto mode toggle.
 *
 * `parseFloat` is not modelled: it arrives as a function that gives `None` where the
 * browser would give `NaN`.
 */
module Terminal {
  import opened Common
  import opened Routes

  // ----- JavaScript string operations -----

  /** The characters `String.prototype.trim` removes: white space and line terminators. */
  predicate IsTrimmable(c: char)
  {
    var n := c as int;
    || 0x09 <= n <= 0x0D
    || n == 0x20 || n == 0xA0 || n == 0x1680
    || 0x2000 <= n <= 0x200A
    || n == 0x2028 || n == 0x2029 || n == 0x202F || n == 0x205F
    || n == 0x3000 || n == 0xFEFF
  }

  /** The index of the first character of `s` at or after `k` that is not white space (`|s|` if none). */
  function FirstNonSpace(s: string, k: nat): (n: nat)
    requires k <= |s|
    ensures k <= n <= |s|
    ensures forall i :: k <= i < n ==> IsTrimmable(s[i])
    ensures n == |s| || !IsTrimmable(s[n])
    decreases |s| - k
  {
    if k < |s| && IsTrimmable(s[k]) then FirstNonSpace(s, k + 1) else k
  }

  /**
   * Scanning back from `k`, but not below `lo`: the index just past the last character
   * that is not white space (`lo` if none).
   */
  function EndOfNonSpace(s: string, lo: nat, k: nat): (n: nat)
    requires lo <= k <= |s|
    ensures lo <= n <= k
    ensures forall i :: n <= i < k ==> IsTrimmable(s[i])
    ensures n == lo || !IsTrimmable(s[n - 1])
    decreases k
  {
    if lo < k && IsTrimmable(s[k - 1]) then EndOfNonSpace(s, lo, k - 1) else k
  }

  /**
   * `String.prototype.trim`: the contiguous middle `s[a..a + |r|]` of `s` with only white
   * space before `a` and after `a + |r|`, and no white space at either of its own ends.
   */
  function Trim(s: string): (r: string)
    ensures var a := FirstNonSpace(s, 0);
      && a + |r| <= |s|
      && r == s[a..a + |r|]
      && (forall i :: 0 <= i < a ==> IsTrimmable(s[i]))
      && (forall i :: a + |r| <= i < |s| ==> IsTrimmable(s[i]))
    ensures r == [] || (!IsTrimmable(r[0]) && !IsTrimmable(r[|r| - 1]))
  {
    var a := FirstNonSpace(s, 0);
    s[a..EndOfNonSpace(s, a, |s|)]
  }

  /** A string that neither starts nor ends with white space is its own trim. */
  lemma TrimKeeps(s: string)
    requires s == [] || (!IsTrimmable(s[0]) && !IsTrimmable(s[|s| - 1]))
    ensures Trim(s) == s
  {
    if s != [] {
      assert FirstNonSpace(s, 0) == 0;
    }
  }

  /** One blank in front of a string with non-blank ends is trimmed away, and nothing else is. */
  lemma TrimPadded(s: string)
    requires s != [] && !IsTrimmable(s[0]) && !IsTrimmable(s[|s| - 1])
    ensures Trim([' '] + s) == s
  {
    var p := [' '] + s;
    var r := Trim(p);
    assert p[1] == s[0];
    assert FirstNonSpace(p, 0) == 1;
    assert !IsTrimmable(p[|p| - 1]);
  }

  /** Trimming twice is trimming once. */
  lemma TrimIdempotent(s: string)
    ensures Trim(Trim(s)) == Trim(s)
  {
    TrimKeeps(Trim(s));
  }

  /** Whether `s` begins with `prefix` (`String.prototype.startsWith`). */
  predicate StartsWith(s: string, prefix: string)
  {
    |prefix| <= |s| && s[..|prefix|] == prefix
  }

  /** `s.replace(pat, "")` with a string pattern: only the first occurrence is removed. */
  function RemoveFirst(s: string, pat: string): (r: string)
    ensures StartsWith(s, pat) ==> r == s[|pat|..]
    ensures |r| == |s| || |r| == |s| - |pat|
    ensures |r| == |s| ==> r == s
  {
    if |s| < |pat| then s
    else if s[..|pat|] == pat then s[|pat|..]
    else
      var rest := RemoveFirst(s[1..], pat);
      assert |rest| == |s| - 1 ==> [s[0]] + rest == s;
      [s[0]] + rest
  }

  /** Whether `pat` occurs in `s` starting at index `i`. */
  predicate OccursAt(s: string, pat: string, i: nat)
  {
    i + |pat| <= |s| && s[i..i + |pat|] == pat
  }

  /** When the first occurrence of `pat` starts at `i`, exactly that occurrence is removed. */
  lemma {:induction false} RemoveFirstOccurrence(s: string, pat: string, i: nat)
    requires OccursAt(s, pat, i)
    requires forall j :: 0 <= j < i ==> !OccursAt(s, pat, j)
    ensures RemoveFirst(s, pat) == s[..i] + s[i + |pat|..]
    decreases i
  {
    if i == 0 {
      assert s[..|pat|] == pat;
    } else {
      RemoveFirstSkips(s, pat);
      OccurrenceShifts(s, pat, i);
      RemoveFirstOccurrence(s[1..], pat, i - 1);
      ConsAroundGap(s, i, i + |pat|);
    }
  }

  /** Where `pat` does not occur at the front, `RemoveFirst` keeps the first character and searches on. */
  lemma RemoveFirstSkips(s: string, pat: string)
    requires |pat| <= |s| && !OccursAt(s, pat, 0)
    ensures RemoveFirst(s, pat) == [s[0]] + RemoveFirst(s[1..], pat)
  {
    assert s[0..|pat|] == s[..|pat|];
  }

  /** Occurrences in `s[1..]` are the occurrences in `s` one place later. */
  lemma OccurrenceShifts(s: string, pat: string, i: nat)
    requires 0 < i && OccursAt(s, pat, i)
    requires forall j :: 0 <= j < i ==> !OccursAt(s, pat, j)
    ensures OccursAt(s[1..], pat, i - 1)
    ensures forall j :: 0 <= j < i - 1 ==> !OccursAt(s[1..], pat, j)
  {
    var t := s[1..];
    assert t[i - 1..i - 1 + |pat|] == s[i..i + |pat|];
    forall j | 0 <= j < i - 1
      ensures !OccursAt(t, pat, j)
    {
      assert t[j..j + |pat|] == s[j + 1..j + 1 + |pat|];
      assert !OccursAt(s, pat, j + 1);
    }
  }

  /** Cutting `s[i..k]` out of `s` keeps the first character in front when `0 < i`. */
  lemma ConsAroundGap(s: string, i: nat, k: nat)
    requires 0 < i <= k <= |s|
    ensures [s[0]] + (s[1..][..i - 1] + s[1..][k - 1..]) == s[..i] + s[k..]
  {
    assert [s[0]] + s[1..][..i - 1] == s[..i];
  }

  /** A line in which `pat` does not occur is left as it is. */
  lemma {:induction false} RemoveFirstAbsent(s: string, pat: string)
    requires forall j :: 0 <= j <= |s| ==> !OccursAt(s, pat, j)
    ensures RemoveFirst(s, pat) == s
    decreases |s|
  {
    if |s| >= |pat| {
      assert !OccursAt(s, pat, 0);
      var t := s[1..];
      forall j | 0 <= j <= |t|
        ensures !OccursAt(t, pat, j)
      {
        if j + |pat| <= |t| {
          assert t[j..j + |pat|] == s[j + 1..j + 1 + |pat|];
        }
        assert !OccursAt(s, pat, j + 1);
      }
      RemoveFirstAbsent(t, pat);
      assert [s[0]] + t == s;
    }
  }

  /** Number of occurrences of `c` in `s`. */
  function Occurrences(s: string, c: char): nat
  {
    if |s| == 0 then 0 else (if s[0] == c then 1 else 0) + Occurrences(s[1..], c)
  }

  /** `s.split(sep)` for a one-character separator: never empty, one more part than separators. */
  function Split(s: string, sep: char): (parts: seq<string>)
    ensures |parts| == Occurrences(s, sep) + 1
    ensures forall i :: 0 <= i < |parts| ==> sep !in parts[i]
  {
    if |s| == 0 then [""]
    else
      var rest := Split(s[1..], sep);
      if s[0] == sep then [""] + rest
      else [[s[0]] + rest[0]] + rest[1..]
  }

  /** `parts.join(sep)`. */
  function Join(parts: seq<string>, sep: char): string
    requires |parts| > 0
  {
    if |parts| == 1 then parts[0] else parts[0] + [sep] + Join(parts[1..], sep)
  }

  /** Joining the parts of a split with the same separator gives back the string. */
  lemma {:induction false} JoinSplit(s: string, sep: char)
    ensures Join(Split(s, sep), sep) == s
  {
    if |s| > 0 {
      JoinSplit(s[1..], sep);
      JoinSplitStep(s, sep);
    }
  }

  /** The inductive step of `JoinSplit`: from the tail's round trip to the whole string's. */
  lemma JoinSplitStep(s: string, sep: char)
    requires |s| > 0 && Join(Split(s[1..], sep), sep) == s[1..]
    ensures Join(Split(s, sep), sep) == s
  {
    var rest := Split(s[1..], sep);
    if s[0] == sep {
      assert Split(s, sep) == [""] + rest;
      JoinEmptyHead(rest, sep);
    } else {
      assert Split(s, sep) == [[s[0]] + rest[0]] + rest[1..];
      JoinExtendHead(s[0], rest, sep);
    }
  }

  /** An empty first part contributes just the separator. */
  lemma JoinEmptyHead(parts: seq<string>, sep: char)
    requires |parts| > 0
    ensures Join([""] + parts, sep) == [sep] + Join(parts, sep)
  {
    assert ([""] + parts)[1..] == parts;
  }

  /** A character prefixed to the first part is prefixed to the join. */
  lemma JoinExtendHead(c: char, parts: seq<string>, sep: char)
    requires |parts| > 0
    ensures Join([[c] + parts[0]] + parts[1..], sep) == [c] + Join(parts, sep)
  {
    var longer := [[c] + parts[0]] + parts[1..];
    if |parts| > 1 {
      assert longer[1..] == parts[1..];
    }
  }

  /** Splitting at the first separator: the part before it, then the split of the rest. */
  lemma {:induction false} SplitFirst(a: string, b: string, sep: char)
    requires sep !in a
    ensures Split(a + [sep] + b, sep) == [a] + Split(b, sep)
  {
    var s := a + [sep] + b;
    if |a| == 0 {
      assert s == [sep] + b;
      assert s[1..] == b;
    } else {
      assert s[1..] == a[1..] + [sep] + b;
      SplitFirst(a[1..], b, sep);
      assert [a[0]] + a[1..] == a;
    }
  }

  /** A string without the separator splits into itself alone. */
  lemma {:induction false} SplitNone(s: string, sep: char)
    requires sep !in s
    ensures Split(s, sep) == [s]
  {
    if |s| > 0 {
      SplitNone(s[1..], sep);
      assert [s[0]] + s[1..] == s;
    }
  }

  /** ASCII `toUpperCase` of one character. */
  function UpperChar(c: char): (u: char)
    ensures 'a' <= c <= 'z' ==> u as int == c as int - 32 && 'A' <= u <= 'Z'
    ensures !('a' <= c <= 'z') ==> u == c
  {
    if 'a' <= c <= 'z' then (c as int - 32) as char else c
  }

  /** `toUpperCase` on the ASCII range, which covers both mode names. */
  function Upper(s: string): (r: string)
    ensures |r| == |s|
    ensures forall i :: 0 <= i < |s| ==> r[i] == UpperChar(s[i])
    ensures forall i :: 0 <= i < |r| ==> !('a' <= r[i] <= 'z')
  {
    seq(|s|, i requires 0 <= i < |s| => UpperChar(s[i]))
  }

  /** Upper-casing twice is upper-casing once. */
  lemma UpperIdempotent(s: string)
    ensures Upper(Upper(s)) == Upper(s)
  {
  }

  // ----- control mode -----

  const Manual: string := "manual"
  const Auto: string := "auto"

  /** The two control modes the dashboard can be in. */
  predicate IsMode(m: string)
  {
    m == Manual || m == Auto
  }

  /** The mode button: `manual` becomes `auto`, anything else becomes `manual`. */
  function Toggled(m: string): (r: string)
    ensures IsMode(r)
    ensures IsMode(m) ==> r != m
  {
    if m == Manual then Auto else Manual
  }

  /** Pressing the mode button twice restores the mode. */
  lemma ToggleTwice(m: string)
    requires IsMode(m)
    ensures Toggled(Toggled(m)) == m
  {
  }

  /** The text of the mode status badge. */
  function ModeStatusText(m: string): string
  {
    "MODE: " + Upper(m)
  }

  /** The badge reads `MODE: MANUAL` or `MODE: AUTO`. */
  lemma ModeBadges()
    ensures ModeStatusText(Manual) == "MODE: MANUAL"
    ensures ModeStatusText(Auto) == "MODE: AUTO"
  {
    assert Upper(Manual) == "MANUAL";
    assert Upper(Auto) == "AUTO";
  }

  // ----- the console log -----

  /** A line added through `printToConsole`. */
  datatype Notice =
    | NotConnected
    | Attempting
    | Established
    | Connecting
    | LinkUp
    | LinkDown
    | ModeSwitched(modeUpper: string)
    | GpsFix(lat: real, lng: real)
    | GpsNoFix
    | Distances(dist: seq<real>)
    | MotorReport(status: string, speed: real, steeringDeg: real)
    | AvoidanceReport(decision: string)

  /** One line of the terminal output, as its content rather than its HTML. */
  datatype LogLine =
    | Echo(command: string)
    | Printed(notice: Notice)
    | HelpText
    | AboutText
    | ModeReport(modeUpper: string)
    | InvalidFormat
    | NotFound(command: string)
    | RouteStarted(action: string, to: LatLng)

  // ----- command classification -----

  /** What a `goto` line asks for. */
  datatype GotoOutcome = Navigate(to: LatLng) | BadFormat | NotANumber

  /** The argument text of a `goto` line: the first `goto` removed, then trimmed. */
  function GotoArgument(command: string): (r: string)
    ensures StartsWith(command, "goto") ==> r == Trim(command[4..])
    ensures r == [] || (!IsTrimmable(r[0]) && !IsTrimmable(r[|r| - 1]))
  {
    Trim(RemoveFirst(command, "goto"))
  }

  /**
   * A `goto` line: the argument split on commas must give exactly two parts, and both
   * must parse as numbers for the bot to navigate.
   */
  function ParseGoto(command: string, parseFloat: string -> Option<real>): (r: GotoOutcome)
    ensures r == BadFormat <==> Occurrences(GotoArgument(command), ',') != 1
    ensures r.Navigate? <==>
      && Occurrences(GotoArgument(command), ',') == 1
      && parseFloat(Split(GotoArgument(command), ',')[0]).Some?
      && parseFloat(Split(GotoArgument(command), ',')[1]).Some?
    ensures r.Navigate? ==>
      && Some(r.to.lat) == parseFloat(Split(GotoArgument(command), ',')[0])
      && Some(r.to.lng) == parseFloat(Split(GotoArgument(command), ',')[1])
  {
    var coords := Split(GotoArgument(command), ',');
    if |coords| == 2 then
      match (parseFloat(coords[0]), parseFloat(coords[1]))
      case (Some(lat), Some(lng)) => Navigate(LatLng(lat, lng))
      case _ => NotANumber
    else
      BadFormat
  }

  /** The kind of a trimmed terminal line, matched in the handler's order. */
  datatype Command =
    | HelpCmd
    | AboutCmd
    | ClearCmd
    | ModeCmd
    | GotoCmd(outcome: GotoOutcome)
    | UnknownCmd(text: string)
    | EmptyCmd

  /** Classify a trimmed line: exact keywords first, then any `goto` prefix, then the rest. */
  function Classify(command: string, parseFloat: string -> Option<real>): (c: Command)
    ensures c == EmptyCmd <==> command == ""
    ensures c.GotoCmd? <==> StartsWith(command, "goto")
    ensures c.GotoCmd? ==> c.outcome == ParseGoto(command, parseFloat)
    ensures c.UnknownCmd? ==> c.text == command
    ensures c.UnknownCmd? <==>
      command !in {"help", "about", "clear", "mode", ""} && !StartsWith(command, "goto")
    ensures c == ClearCmd <==> command == "clear"
    ensures c == HelpCmd <==> command == "help"
    ensures c == AboutCmd <==> command == "about"
    ensures c == ModeCmd <==> command == "mode"
  {
    if command == "help" then assert command[0] != 'g'; HelpCmd
    else if command == "about" then assert command[0] != 'g'; AboutCmd
    else if command == "clear" then assert command[0] != 'g'; ClearCmd
    else if command == "mode" then assert command[0] != 'g'; ModeCmd
    else if StartsWith(command, "goto") then GotoCmd(ParseGoto(command, parseFloat))
    else if command != "" then UnknownCmd(command)
    else EmptyCmd
  }

  /** The lines the local handling prints for a command (a route's own line is added by the route). */
  function LocalReply(c: Command, m: string): (lines: seq<LogLine>)
    ensures |lines| <= 1
    ensures c == HelpCmd ==> lines == [HelpText]
    ensures c == AboutCmd ==> lines == [AboutText]
    ensures c == ModeCmd ==> lines == [ModeReport(Upper(m))]
    ensures c == ClearCmd || c == EmptyCmd ==> lines == []
    ensures c.UnknownCmd? ==> lines == [NotFound(c.text)]
    ensures c == GotoCmd(BadFormat) ==> lines == [InvalidFormat]
    ensures c.GotoCmd? && c.outcome != BadFormat ==> lines == []
  {
    match c
    case HelpCmd => [HelpText]
    case AboutCmd => [AboutText]
    case ClearCmd => []
    case ModeCmd => [ModeReport(Upper(m))]
    case GotoCmd(outcome) => if outcome == BadFormat then [InvalidFormat] else []
    case UnknownCmd(text) => [NotFound(text)]
    case EmptyCmd => []
  }

  /** The argument of `goto <lat>,<lng>` is `<lat>,<lng>` itself. */
  lemma GotoArgumentOf(lat: string, lng: string)
    requires |lat| > 0 && |lng| > 0
    requires !IsTrimmable(lat[0]) && !IsTrimmable(lng[|lng| - 1])
    ensures StartsWith("goto " + lat + "," + lng, "goto")
    ensures GotoArgument("goto " + lat + "," + lng) == lat + [','] + lng
  {
    var command := "goto " + lat + "," + lng;
    var arg := lat + [','] + lng;
    assert command == "goto" + ([' '] + arg);
    assert StartsWith(command, "goto");
    assert RemoveFirst(command, "goto") == [' '] + arg;
    TrimPadded(arg);
  }

  /**
   * The form the help text documents, `goto <lat>,<lng>`: with two comma-free numbers
   * that parse, the line navigates to exactly that position.
   */
  lemma GotoNavigates(lat: string, lng: string, a: real, b: real, parseFloat: string -> Option<real>)
    requires |lat| > 0 && |lng| > 0 && ',' !in lat && ',' !in lng
    requires !IsTrimmable(lat[0]) && !IsTrimmable(lng[|lng| - 1])
    requires parseFloat(lat) == Some(a) && parseFloat(lng) == Some(b)
    ensures Classify("goto " + lat + "," + lng, parseFloat) == GotoCmd(Navigate(LatLng(a, b)))
  {
    var command := "goto " + lat + "," + lng;
    GotoParses(lat, lng, a, b, parseFloat);
    assert StartsWith(command, "goto");
  }

  /** The `goto` branch itself: `<lat>,<lng>` splits into the two numbers, which both parse. */
  lemma GotoParses(lat: string, lng: string, a: real, b: real, parseFloat: string -> Option<real>)
    requires |lat| > 0 && |lng| > 0 && ',' !in lat && ',' !in lng
    requires !IsTrimmable(lat[0]) && !IsTrimmable(lng[|lng| - 1])
    requires parseFloat(lat) == Some(a) && parseFloat(lng) == Some(b)
    ensures ParseGoto("goto " + lat + "," + lng, parseFloat) == Navigate(LatLng(a, b))
  {
    GotoArgumentOf(lat, lng);
    TwoPartSplit(lat, lng);
  }

  /** Two comma-free parts joined by one comma split back into those parts. */
  lemma TwoPartSplit(lat: string, lng: string)
    requires ',' !in lat && ',' !in lng
    ensures Split(lat + [','] + lng, ',') == [lat, lng]
  {
    SplitNone(lng, ',');
    SplitFirst(lat, lng, ',');
  }

  /** A bare `goto` has no comma, so it is reported as badly formatted. */
  lemma BareGotoIsBadFormat(parseFloat: string -> Option<real>)
    ensures Classify("goto", parseFloat) == GotoCmd(BadFormat)
  {
    assert StartsWith("goto", "goto");
    assert RemoveFirst("goto", "goto") == "";
    assert Occurrences("", ',') == 0;
  }

  /** A number glued to `goto` is one part without a comma, so `goto1` is badly formatted. */
  lemma GluedGotoIsBadFormat(parseFloat: string -> Option<real>)
    ensures Classify("goto1", parseFloat) == GotoCmd(BadFormat)
  {
    assert StartsWith("goto1", "goto");
    assert RemoveFirst("goto1", "goto") == "1";
    TrimKeeps("1");
    assert Occurrences("1", ',') == 0;
  }
}
