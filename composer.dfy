/**
 * The text of a notification: a title built from the machine's name and its
 * four signal lights, and a body listing at most three alarms.
 */
module Composer {
  import opened Domain

  // ---------------------------------------------------------------- title

  const GreenGlyph: string := "\U{1F7E2}"
  const YellowGlyph: string := "\U{1F7E1}"
  const RedGlyph: string := "\U{1F534}"
  const BlueGlyph: string := "\U{1F535}"
  const AllOffGlyph: string := "\U{26AB}"
  const BlinkingSuffix: string := "(blinking)"
  const NameSeparator: string := " | "

  /** What one channel contributes to the title: nothing when off, else its glyph, then "(blinking)" when blinking. */
  function ChannelText(light: SignalLight, glyph: string): string {
    match light
    case Off => ""
    case On => glyph
    case Blinking => glyph + BlinkingSuffix
  }

  predicate AllOff(l: Lights) {
    l.green == Off && l.yellow == Off && l.red == Off && l.blue == Off
  }

  /** The part of the title after the separator: the channels in fixed order, then the all-off glyph. */
  function LightsText(l: Lights): string {
    ChannelText(l.green, GreenGlyph) + ChannelText(l.yellow, YellowGlyph)
      + ChannelText(l.red, RedGlyph) + ChannelText(l.blue, BlueGlyph)
      + (if AllOff(l) then AllOffGlyph else "")
  }

  /** The notification title for a machine name and its lights. */
  function Title(name: string, l: Lights): (t: string)
    ensures |t| > |name| + |NameSeparator|
  {
    LightsTextNotEmpty(l);
    name + NameSeparator + LightsText(l)
  }

  /** The light text is never empty: some channel is lit, or the all-off glyph is there. */
  lemma LightsTextNotEmpty(l: Lights)
    ensures |LightsText(l)| > 0
  {
    if !AllOff(l) {
      assert |ChannelText(l.green, GreenGlyph)| > 0 || |ChannelText(l.yellow, YellowGlyph)| > 0
          || |ChannelText(l.red, RedGlyph)| > 0 || |ChannelText(l.blue, BlueGlyph)| > 0;
    }
  }

  /** Text appended piece by piece equals the first piece followed by the rest appended together. */
  lemma AppendRegroup(p: string, g: string, y: string, r: string, b: string, m: string)
    ensures p + g + y + r + b + m == p + (g + y + r + b + m)
  {
    assert p + g + y == p + (g + y);
    assert p + (g + y) + r == p + (g + y + r);
    assert p + (g + y + r) + b == p + (g + y + r + b);
  }

  /** Reads back a channel: its glyph, optionally followed by the blinking suffix. */
  function ParseChannel(s: string, glyph: string): (SignalLight, string) {
    if |glyph| <= |s| && s[..|glyph|] == glyph then
      var rest := s[|glyph|..];
      if |BlinkingSuffix| <= |rest| && rest[..|BlinkingSuffix|] == BlinkingSuffix
      then (Blinking, rest[|BlinkingSuffix|..])
      else (On, rest)
    else (Off, s)
  }

  /** Reads back the four lights from the text after the separator of a title. */
  function ParseLights(s: string): Option<Lights> {
    var (g, s1) := ParseChannel(s, GreenGlyph);
    var (y, s2) := ParseChannel(s1, YellowGlyph);
    var (r, s3) := ParseChannel(s2, RedGlyph);
    var (b, s4) := ParseChannel(s3, BlueGlyph);
    var l := Lights(g, y, r, b);
    if s4 == (if AllOff(l) then AllOffGlyph else "") then Some(l) else None
  }

  /** `s` is empty or starts with one of `heads`. */
  predicate StartsWithin(s: string, heads: set<char>) {
    s == [] || s[0] in heads
  }

  /** A channel's text followed by `rest` starts with the channel's glyph or with what `rest` starts with. */
  lemma ChannelTextHead(light: SignalLight, glyph: string, rest: string, heads: set<char>)
    requires |glyph| == 1 && StartsWithin(rest, heads)
    ensures StartsWithin(ChannelText(light, glyph) + rest, heads + {glyph[0]})
  {}

  /** Parsing a channel's own text gives back its light, provided what follows cannot be mistaken for it. */
  lemma {:induction false} ParseChannelText(light: SignalLight, glyph: string, rest: string)
    requires |glyph| == 1 && glyph[0] != BlinkingSuffix[0]
    requires StartsWithin(rest, {}) || (rest[0] != glyph[0] && rest[0] != BlinkingSuffix[0])
    ensures ParseChannel(ChannelText(light, glyph) + rest, glyph) == (light, rest)
  {
    var s := ChannelText(light, glyph) + rest;
    match light
    case Off =>
      assert s == rest;
      assert !(|glyph| <= |s| && s[..|glyph|] == glyph) by {
        if |glyph| <= |s| { assert s[..1][0] == rest[0]; }
      }
    case On =>
      assert s[..|glyph|] == glyph && s[|glyph|..] == rest;
      assert !(|BlinkingSuffix| <= |rest| && rest[..|BlinkingSuffix|] == BlinkingSuffix) by {
        if |BlinkingSuffix| <= |rest| { assert rest[..|BlinkingSuffix|][0] == rest[0]; }
      }
    case Blinking =>
      assert s == glyph + BlinkingSuffix + rest;
      assert s[..|glyph|] == glyph;
      assert s[|glyph|..] == BlinkingSuffix + rest;
      assert (BlinkingSuffix + rest)[..|BlinkingSuffix|] == BlinkingSuffix;
      assert (BlinkingSuffix + rest)[|BlinkingSuffix|..] == rest;
  }

  /** The title's light text determines the lights: parsing it gives them back. */
  lemma ParseLightsText(l: Lights)
    ensures ParseLights(LightsText(l)) == Some(l)
  {
    var marker := if AllOff(l) then AllOffGlyph else "";
    var sB := ChannelText(l.blue, BlueGlyph) + marker;
    var sR := ChannelText(l.red, RedGlyph) + sB;
    var sY := ChannelText(l.yellow, YellowGlyph) + sR;
    assert LightsText(l) == ChannelText(l.green, GreenGlyph) + sY;
    ChannelTextHead(l.blue, BlueGlyph, marker, {AllOffGlyph[0]});
    ChannelTextHead(l.red, RedGlyph, sB, {AllOffGlyph[0], BlueGlyph[0]});
    ChannelTextHead(l.yellow, YellowGlyph, sR, {AllOffGlyph[0], BlueGlyph[0], RedGlyph[0]});
    ParseChannelText(l.green, GreenGlyph, sY);
    ParseChannelText(l.yellow, YellowGlyph, sR);
    ParseChannelText(l.red, RedGlyph, sB);
    ParseChannelText(l.blue, BlueGlyph, marker);
  }

  /** Two titles for the same machine name are equal only if the lights are. */
  lemma TitleDeterminesLights(name: string, l1: Lights, l2: Lights)
    requires Title(name, l1) == Title(name, l2)
    ensures l1 == l2
  {
    var k := |name| + |NameSeparator|;
    assert Title(name, l1)[k..] == LightsText(l1);
    assert Title(name, l2)[k..] == LightsText(l2);
    ParseLightsText(l1);
    ParseLightsText(l2);
  }

  /** The all-off glyph appears in the title's light text exactly when all four lights are off. */
  lemma AllOffMarker(l: Lights)
    ensures AllOffGlyph[0] in LightsText(l) <==> AllOff(l)
    ensures AllOff(l) <==> LightsText(l) == AllOffGlyph
  {
    var c := AllOffGlyph[0];
    assert c !in GreenGlyph && c !in YellowGlyph && c !in RedGlyph && c !in BlueGlyph;
    assert c !in BlinkingSuffix;
  }

  // ---------------------------------------------------------------- body

  /** The decimal digits of `n`, as Java prints an int. */
  function NatToString(n: nat): (s: string)
    ensures |s| > 0
    ensures forall i :: 0 <= i < |s| ==> '0' <= s[i] <= '9'
    ensures n >= 10 ==> s[0] != '0'
    decreases n
  {
    if n < 10 then [('0' as int + n) as char]
    else NatToString(n / 10) + [('0' as int + n % 10) as char]
  }

  /** The number a string of decimal digits denotes. */
  function ParseNat(s: string): nat
    requires forall i :: 0 <= i < |s| ==> '0' <= s[i] <= '9'
    decreases |s|
  {
    if s == [] then 0
    else ParseNat(s[..|s| - 1]) * 10 + (s[|s| - 1] as int - '0' as int)
  }

  lemma {:induction false} ParseNatToString(n: nat)
    ensures ParseNat(NatToString(n)) == n
    decreases n
  {
    var s := NatToString(n);
    if n >= 10 {
      ParseNatToString(n / 10);
      assert s[..|s| - 1] == NatToString(n / 10);
    }
  }

  /** The body lists at most this many alarms. */
  const MaxListedAlarms: nat := 3

  /** `text` followed by one `id | description` line per alarm, in order. */
  function AppendAlarmLines(text: string, alarms: seq<AlarmDetail>): (r: string)
    ensures |r| >= |text| && r[..|text|] == text
    decreases |alarms|
  {
    if alarms == [] then text
    else
      var a := alarms[|alarms| - 1];
      var r := AppendAlarmLines(text, alarms[..|alarms| - 1]) + a.alarmId + " | " + a.alarmDescription + "\n";
      assert r[..|text|] == AppendAlarmLines(text, alarms[..|alarms| - 1])[..|text|];
      r
  }

  /** Appending the next alarm's line extends the text by exactly that line. */
  lemma AppendAlarmLinesStep(text: string, alarms: seq<AlarmDetail>, i: nat)
    requires i < |alarms|
    ensures AppendAlarmLines(text, alarms[..i]) + alarms[i].alarmId + " | " + alarms[i].alarmDescription + "\n"
         == AppendAlarmLines(text, alarms[..i + 1])
  {
    assert alarms[..i + 1][..i] == alarms[..i];
  }

  /** The marker for the alarms left out of the body. */
  function Overflow(n: nat): (o: string)
    ensures o == [] <==> n <= MaxListedAlarms
    ensures n > MaxListedAlarms ==> |o| > 2 && o[0] == '+'
  {
    if n > MaxListedAlarms then "+ " + NatToString(n - MaxListedAlarms) else ""
  }

  function Min(a: nat, b: nat): nat {
    if a < b then a else b
  }

  /**
   * The body shown with a user's `alarms`. Emptiness is decided by the
   * status's own alarm list, not by the user's list.
   */
  function Body(statusAlarms: seq<AlarmDetail>, alarms: seq<AlarmDetail>): (b: string)
    ensures b == "" <==> statusAlarms == []
    ensures statusAlarms != [] ==> |b| >= 5 && b[..5] == "ERR:\n"
  {
    if statusAlarms == [] then ""
    else AppendAlarmLines("ERR:\n", alarms[..Min(|alarms|, MaxListedAlarms)]) + Overflow(|alarms|)
  }

  /** How many times `c` occurs in `s`. */
  function Count(s: string, c: char): nat
    decreases |s|
  {
    if s == [] then 0 else Count(s[..|s| - 1], c) + (if s[|s| - 1] == c then 1 else 0)
  }

  lemma {:induction false} CountAppend(s: string, t: string, c: char)
    ensures Count(s + t, c) == Count(s, c) + Count(t, c)
    decreases |t|
  {
    if t == [] {
      assert s + t == s;
    } else {
      assert (s + t)[..|s + t| - 1] == s + t[..|t| - 1];
      CountAppend(s, t[..|t| - 1], c);
    }
  }

  lemma {:induction false} CountAbsent(s: string, c: char)
    requires forall i :: 0 <= i < |s| ==> s[i] != c
    ensures Count(s, c) == 0
    decreases |s|
  {
    if s != [] { CountAbsent(s[..|s| - 1], c); }
  }

  /** Alarm ids and descriptions are single-line text. */
  predicate SingleLine(alarms: seq<AlarmDetail>) {
    forall a :: a in alarms ==> '\n' !in a.alarmId && '\n' !in a.alarmDescription
  }

  lemma {:induction false} AlarmLinesCount(text: string, alarms: seq<AlarmDetail>)
    requires SingleLine(alarms)
    ensures Count(AppendAlarmLines(text, alarms), '\n') == Count(text, '\n') + |alarms|
    decreases |alarms|
  {
    if alarms != [] {
      var init, a := alarms[..|alarms| - 1], alarms[|alarms| - 1];
      var t := AppendAlarmLines(text, init);
      AlarmLinesCount(text, init);
      CountAppend(t, a.alarmId, '\n');
      CountAppend(t + a.alarmId, " | ", '\n');
      CountAppend(t + a.alarmId + " | ", a.alarmDescription, '\n');
      CountAppend(t + a.alarmId + " | " + a.alarmDescription, "\n", '\n');
      CountAbsent(a.alarmId, '\n');
      CountAbsent(" | ", '\n');
      CountAbsent(a.alarmDescription, '\n');
    }
  }

  lemma CountErrLine()
    ensures Count("ERR:\n", '\n') == 1
  {
    CountAppend("ERR:", "\n", '\n');
    CountAbsent("ERR:", '\n');
    assert "ERR:" + "\n" == "ERR:\n";
  }

  lemma OverflowSingleLine(n: nat)
    ensures Count(Overflow(n), '\n') == 0
  {
    if n > MaxListedAlarms {
      CountAppend("+ ", NatToString(n - MaxListedAlarms), '\n');
      CountAbsent(NatToString(n - MaxListedAlarms), '\n');
      CountAbsent("+ ", '\n');
    }
  }

  /**
   * A body is bounded: with single-line alarm texts it has the ERR line and
   * one line per listed alarm, never more than three of them.
   */
  lemma BodyLineCount(statusAlarms: seq<AlarmDetail>, alarms: seq<AlarmDetail>)
    requires statusAlarms != [] && SingleLine(alarms)
    ensures Count(Body(statusAlarms, alarms), '\n') == 1 + Min(|alarms|, MaxListedAlarms)
  {
    var listed := alarms[..Min(|alarms|, MaxListedAlarms)];
    assert SingleLine(listed) by {
      forall a | a in listed ensures a in alarms { }
    }
    AlarmLinesCount("ERR:\n", listed);
    CountAppend(AppendAlarmLines("ERR:\n", listed), Overflow(|alarms|), '\n');
    CountErrLine();
    OverflowSingleLine(|alarms|);
  }

  /** With more than three alarms, the body is the first three lines and the overflow marker. */
  lemma BodyOverflowShape(statusAlarms: seq<AlarmDetail>, alarms: seq<AlarmDetail>)
    requires statusAlarms != [] && |alarms| > MaxListedAlarms
    ensures Body(statusAlarms, alarms)
         == AppendAlarmLines("ERR:\n", alarms[..MaxListedAlarms]) + "+ " + NatToString(|alarms| - MaxListedAlarms)
  {
    var lines, tail := AppendAlarmLines("ERR:\n", alarms[..MaxListedAlarms]), NatToString(|alarms| - MaxListedAlarms);
    assert Min(|alarms|, MaxListedAlarms) == MaxListedAlarms;
    assert Overflow(|alarms|) == "+ " + tail;
    assert Body(statusAlarms, alarms) == lines + ("+ " + tail);
    ConcatAssoc(lines, "+ ", tail);
  }

  lemma ConcatAssoc(a: string, b: string, c: string)
    ensures a + (b + c) == a + b + c
  {
  }

  /**
   * The overflow marker follows the third line and carries the number of
   * alarms left out, which can be read back from it.
   */
  lemma BodyOverflow(statusAlarms: seq<AlarmDetail>, alarms: seq<AlarmDetail>)
    requires statusAlarms != [] && |alarms| > MaxListedAlarms
    ensures var b, tail := Body(statusAlarms, alarms), NatToString(|alarms| - MaxListedAlarms);
      b == AppendAlarmLines("ERR:\n", alarms[..MaxListedAlarms]) + "+ " + tail
      && ParseNat(b[|b| - |tail|..]) == |alarms| - MaxListedAlarms
  {
    var b, tail := Body(statusAlarms, alarms), NatToString(|alarms| - MaxListedAlarms);
    var head := AppendAlarmLines("ERR:\n", alarms[..MaxListedAlarms]) + "+ ";
    BodyOverflowShape(statusAlarms, alarms);
    assert b == head + tail;
    assert b[|head|..] == tail;
    ParseNatToString(|alarms| - MaxListedAlarms);
  }

  /** With at most three alarms (none included), the body is the ERR line and one line per alarm, with no overflow marker. */
  lemma BodyShort(statusAlarms: seq<AlarmDetail>, alarms: seq<AlarmDetail>)
    requires statusAlarms != [] && |alarms| <= MaxListedAlarms
    ensures Body(statusAlarms, alarms) == AppendAlarmLines("ERR:\n", alarms)
  {
    assert alarms[..|alarms|] == alarms;
  }
}
