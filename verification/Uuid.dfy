/**
 * Version 7 identifiers (section 5.7 of RFC 9562) from one factory, monotone as
 * section 6.2 asks: a 48-bit timestamp that never goes back, and 74 further bits
 * drawn at random for a new timestamp and counted up while the clock stands still.
 */
module Uuid {
  import opened Basics

  const TIMESTAMPS := 0x1_0000_0000_0000
  const RANDOMS := 0x400_0000_0000_0000_0000
  const LOWS := 0x4000_0000_0000_0000
  const VARIANT := 0x8000_0000_0000_0000

  /** What a clock or a random source may return. */
  datatype Number = Finite(value: real) | NotFinite

  predicate IsTimestamp(n: Number) {
    n.Finite? && n.value == n.value.Floor as real && 0 <= n.value.Floor < TIMESTAMPS
  }

  predicate IsDraw(n: Number) {
    n.Finite? && 0.0 <= n.value < 1.0
  }

  function Byte(n: Number): (b: nat)
    requires IsDraw(n)
    ensures b < 256
  {
    (n.value * 256.0).Floor
  }

  // --------------------------------------------------------------- hexadecimal

  function Pow16(w: nat): (p: nat)
    ensures p > 0
  {
    if w == 0 then 1 else 16 * Pow16(w - 1)
  }

  function Digit(d: nat): (c: char)
    requires d < 16
    ensures HexValue(c) == d && IsHex(c)
  {
    if d < 10 then '0' + d as char else 'a' + (d - 10) as char
  }

  predicate IsHex(c: char) {
    '0' <= c <= '9' || 'a' <= c <= 'f' || 'A' <= c <= 'F'
  }

  function HexValue(c: char): nat {
    if '0' <= c <= '9' then (c - '0') as nat
    else if 'a' <= c <= 'f' then (c - 'a') as nat + 10
    else if 'A' <= c <= 'F' then (c - 'A') as nat + 10
    else 0
  }

  /** A number without leading zeros. */
  function ToHex(n: nat): string {
    if n < 16 then [Digit(n)] else ToHex(n / 16) + [Digit(n % 16)]
  }

  function PadStart(s: string, width: nat): string {
    if |s| >= width then s else seq(width - |s|, _ => '0') + s
  }

  /** The same number written with exactly `w` digits. */
  function Hex(n: nat, w: nat): (s: string)
    ensures |s| == w
    ensures forall i | 0 <= i < w :: IsHex(s[i])
  {
    if w == 0 then "" else Hex(n / 16, w - 1) + [Digit(n % 16)]
  }

  function ParseHex(s: string): nat {
    if s == "" then 0 else 16 * ParseHex(s[..|s| - 1]) + HexValue(s[|s| - 1])
  }

  lemma {:induction false} HexZero(w: nat)
    ensures Hex(0, w) == seq(w, _ => '0')
  {
    if w > 0 { HexZero(w - 1); }
  }

  lemma {:induction false} PaddedIsFixedWidth(n: nat, w: nat)
    requires w > 0 && n < Pow16(w)
    ensures PadStart(ToHex(n), w) == Hex(n, w)
  {
    if n < 16 {
      HexZero(w - 1);
      assert Hex(n, w) == Hex(0, w - 1) + [Digit(n)];
    } else {
      PaddedIsFixedWidth(n / 16, w - 1);
    }
  }

  lemma {:induction false} ParseInvertsHex(n: nat, w: nat)
    requires n < Pow16(w)
    ensures ParseHex(Hex(n, w)) == n
  {
    if w > 0 {
      ParseInvertsHex(n / 16, w - 1);
      assert Hex(n, w)[..w - 1] == Hex(n / 16, w - 1);
    }
  }

  // --------------------------------------------------------------------- order

  /** `a` comes before `b` in the order of strings by their characters. */
  ghost predicate Before(a: string, b: string) {
    a < b || exists k :: DiffersAt(a, b, k)
  }

  ghost predicate DiffersAt(a: string, b: string, k: nat) {
    k < |a| && k < |b| && a[..k] == b[..k] && a[k] < b[k]
  }

  lemma BeforeAppend(a: string, b: string, x: string, y: string)
    requires |a| == |b| && Before(a, b)
    ensures Before(a + x, b + y)
  {
    var k: nat :| DiffersAt(a, b, k);
    assert (a + x)[..k] == a[..k] && (b + y)[..k] == b[..k];
    assert DiffersAt(a + x, b + y, k);
  }

  lemma BeforePrepend(p: string, a: string, b: string)
    requires |a| == |b| && Before(a, b)
    ensures Before(p + a, p + b)
  {
    var k: nat :| DiffersAt(a, b, k);
    assert (p + a)[..|p| + k] == p + a[..k] && (p + b)[..|p| + k] == p + b[..k];
    assert DiffersAt(p + a, p + b, |p| + k);
  }

  /** A separator put into both strings at one place does not change their order. */
  lemma BeforeCut(a: string, b: string, k: nat, dash: string)
    requires |a| == |b| && k <= |a| && Before(a, b)
    ensures Before(a[..k] + dash + a[k..], b[..k] + dash + b[k..])
  {
    var j: nat :| DiffersAt(a, b, j);
    if j < k {
      assert a[..k][..j] == a[..j] && b[..k][..j] == b[..j];
      assert DiffersAt(a[..k], b[..k], j);
      BeforeAppend(a[..k], b[..k], dash + a[k..], dash + b[k..]);
      assert a[..k] + dash + a[k..] == a[..k] + (dash + a[k..]);
      assert b[..k] + dash + b[k..] == b[..k] + (dash + b[k..]);
    } else {
      assert a[..k] == a[..j][..k] == b[..j][..k] == b[..k];
      assert a[k..][..j - k] == a[..j][k..] == b[..j][k..] == b[k..][..j - k];
      assert DiffersAt(a[k..], b[k..], j - k);
      BeforePrepend(a[..k] + dash, a[k..], b[k..]);
    }
  }

  lemma {:induction false} HexKeepsOrder(m: nat, n: nat, w: nat)
    requires m < n < Pow16(w)
    ensures Before(Hex(m, w), Hex(n, w))
  {
    if m / 16 < n / 16 {
      HexKeepsOrder(m / 16, n / 16, w - 1);
      BeforeAppend(Hex(m / 16, w - 1), Hex(n / 16, w - 1), [Digit(m % 16)], [Digit(n % 16)]);
    } else {
      assert DiffersAt(Hex(m, w), Hex(n, w), w - 1);
    }
  }

  // ------------------------------------------------------------------ the text

  function RandomA(bits: nat): nat { bits / LOWS }

  function RandomB(bits: nat): nat { VARIANT + bits % LOWS }

  /** The five groups of an identifier. */
  function Format(timestamp: nat, bits: nat): string {
    var t := PadStart(ToHex(timestamp), 12);
    var a := PadStart(ToHex(RandomA(bits)), 3);
    var b := PadStart(ToHex(RandomB(bits)), 16);
    Groups(t, a, b)
  }

  function Groups(t: string, a: string, b: string): string {
    if |t| < 8 || |b| < 4 then ""
    else t[..8] + "-" + t[8..] + "-7" + a + "-" + b[..4] + "-" + b[4..]
  }

  lemma Widths()
    ensures Pow16(3) == 0x1000 && Pow16(12) == TIMESTAMPS && Pow16(16) == 2 * VARIANT
  {
    assert Pow16(4) == 0x1_0000;
    assert Pow16(8) == 0x1_0000_0000;
    assert Pow16(12) == 0x1_0000_0000_0000;
  }

  lemma Formatted(timestamp: nat, bits: nat)
    requires timestamp < TIMESTAMPS && bits < RANDOMS
    ensures Format(timestamp, bits) == Groups(Hex(timestamp, 12), Hex(RandomA(bits), 3), Hex(RandomB(bits), 16))
  {
    Widths();
    PaddedIsFixedWidth(timestamp, 12);
    PaddedIsFixedWidth(RandomA(bits), 3);
    PaddedIsFixedWidth(RandomB(bits), 16);
  }

  /** Shape of a version 7 identifier, in either letter case. */
  predicate IsUuidV7(s: string) {
    && |s| == 36
    && s[8] == s[13] == s[18] == s[23] == '-'
    && s[14] == '7'
    && s[19] in "89abAB"
    && forall i | 0 <= i < 36 && i != 8 && i != 13 && i != 18 && i != 23 :: IsHex(s[i])
  }

  /** The timestamp inside an identifier; text of any other shape is malformed. */
  function UuidV7Timestamp(s: string): Option<nat> {
    if !IsUuidV7(s) then None else Some(ParseHex(s[..8] + s[9..13]))
  }

  lemma GroupsWellFormed(t: string, a: string, b: string)
    requires |t| == 12 && |a| == 3 && |b| == 16 && b[0] in "89ab"
    requires forall i | 0 <= i < 12 :: IsHex(t[i])
    requires forall i | 0 <= i < 3 :: IsHex(a[i])
    requires forall i | 0 <= i < 16 :: IsHex(b[i])
    ensures var s := Groups(t, a, b); IsUuidV7(s) && s[..8] + s[9..13] == t
  {
    var s := Groups(t, a, b);
    assert s[..8] == t[..8] && s[9..13] == t[8..];
  }

  lemma LastDigit(n: nat, w: nat)
    ensures Hex(n, w + 1) == Hex(n / 16, w) + [Digit(n % 16)]
    ensures Hex(n, w + 1)[0] == if w == 0 then Digit(n % 16) else Hex(n / 16, w)[0]
  {
    hide Digit;
  }

  function Placed(d: nat, w: nat, rest: nat): nat {
    d * Pow16(w) + rest
  }

  /** The leading digit of a number of `w + 1` digits. */
  lemma {:induction false} TopDigit(d: nat, rest: nat, w: nat)
    requires d < 16 && rest < Pow16(w)
    ensures Hex(Placed(d, w, rest), w + 1)[0] == Digit(d)
  {
    hide Digit, Hex, Placed;
    LastDigit(Placed(d, w, rest), w);
    OneDigitLess(d, rest, w);
    if w > 0 { TopDigit(d, rest / 16, w - 1); }
  }

  lemma OneDigitLess(d: nat, rest: nat, w: nat)
    requires d < 16 && rest < Pow16(w)
    ensures w > 0 ==> rest / 16 < Pow16(w - 1) && Placed(d, w, rest) / 16 == Placed(d, w - 1, rest / 16)
    ensures w == 0 ==> Placed(d, w, rest) % 16 == d
  {
    if w > 0 { assert d * (16 * Pow16(w - 1)) == 16 * (d * Pow16(w - 1)); }
  }

  lemma VariantDigit(bits: nat)
    ensures Hex(RandomB(bits), 16)[0] in "89ab"
  {
    hide Hex;
    Widths();
    var unit := 0x1000_0000_0000_0000;
    assert Pow16(15) == unit by { assert Pow16(16) == 16 * Pow16(15); }
    var low := bits % LOWS;
    TopDigit(8 + low / unit, low % unit, 15);
    assert (8 + low / unit) * unit + low % unit == RandomB(bits);
  }

  /** Every identifier has its version and variant in place and carries its timestamp back. */
  lemma FormatRoundTrip(timestamp: nat, bits: nat)
    requires timestamp < TIMESTAMPS && bits < RANDOMS
    ensures IsUuidV7(Format(timestamp, bits))
    ensures UuidV7Timestamp(Format(timestamp, bits)) == Some(timestamp)
  {
    hide Format, Groups, Hex, IsUuidV7;
    Formatted(timestamp, bits);
    VariantDigit(bits);
    GroupsWellFormed(Hex(timestamp, 12), Hex(RandomA(bits), 3), Hex(RandomB(bits), 16));
    Widths();
    ParseInvertsHex(timestamp, 12);
  }

  // --------------------------------------------------------------- the factory

  /** What one identifier is made of; also what the factory remembers of its last one. */
  datatype Stamp = Stamp(timestamp: int, bits: nat)

  const NEVER := Stamp(-1, 0)

  predicate Earlier(a: Stamp, b: Stamp) {
    a.timestamp < b.timestamp || (a.timestamp == b.timestamp && a.bits < b.bits)
  }

  predicate Issuable(a: Stamp) {
    0 <= a.timestamp < TIMESTAMPS && a.bits < RANDOMS
  }

  function Text(a: Stamp): string
    requires Issuable(a)
  {
    Format(a.timestamp, a.bits)
  }

  /** Identifiers are ordered as their stamps are. */
  lemma TextKeepsOrder(a: Stamp, b: Stamp)
    requires Issuable(a) && Issuable(b) && Earlier(a, b)
    ensures Before(Text(a), Text(b))
  {
    hide Format, Before, Hex;
    Widths();
    Formatted(a.timestamp, a.bits);
    Formatted(b.timestamp, b.bits);
    var ta, tb := Hex(a.timestamp, 12), Hex(b.timestamp, 12);
    var xa, xb := Hex(RandomA(a.bits), 3), Hex(RandomA(b.bits), 3);
    var ya, yb := Hex(RandomB(a.bits), 16), Hex(RandomB(b.bits), 16);
    if a.timestamp < b.timestamp {
      HexKeepsOrder(a.timestamp, b.timestamp, 12);
      TimestampDecides(ta, xa, ya, tb, xb, yb);
    } else if RandomA(a.bits) < RandomA(b.bits) {
      HexKeepsOrder(RandomA(a.bits), RandomA(b.bits), 3);
      CounterDecides(ta, xa, ya, xb, yb);
    } else {
      HexKeepsOrder(RandomB(a.bits), RandomB(b.bits), 16);
      TailDecides(ta, xa, ya, yb);
    }
  }

  function AfterTimestamp(a: string, b: string): string
    requires |b| >= 4
  {
    "-7" + a + "-" + b[..4] + "-" + b[4..]
  }

  lemma TimestampLeads(t: string, a: string, b: string)
    requires |t| >= 8 && |b| >= 4
    ensures Groups(t, a, b) == t[..8] + "-" + t[8..] + AfterTimestamp(a, b)
  {
    assert Groups(t, a, b) == t[..8] + "-" + t[8..] + ("-7" + a + "-" + b[..4] + "-" + b[4..]);
  }

  lemma TimestampDecides(ta: string, xa: string, ya: string, tb: string, xb: string, yb: string)
    requires |ta| == |tb| == 12 && |ya| == |yb| == 16 && Before(ta, tb)
    ensures Before(Groups(ta, xa, ya), Groups(tb, xb, yb))
  {
    hide Before, Groups;
    BeforeCut(ta, tb, 8, "-");
    BeforeAppend(ta[..8] + "-" + ta[8..], tb[..8] + "-" + tb[8..], AfterTimestamp(xa, ya), AfterTimestamp(xb, yb));
    TimestampLeads(ta, xa, ya);
    TimestampLeads(tb, xb, yb);
  }

  lemma CounterDecides(t: string, xa: string, ya: string, xb: string, yb: string)
    requires |t| == 12 && |xa| == |xb| == 3 && |ya| == |yb| == 16 && Before(xa, xb)
    ensures Before(Groups(t, xa, ya), Groups(t, xb, yb))
  {
    hide Before;
    var ra := "-" + ya[..4] + "-" + ya[4..];
    var rb := "-" + yb[..4] + "-" + yb[4..];
    var p := t[..8] + "-" + t[8..] + "-7";
    BeforePrepend(p, xa, xb);
    BeforeAppend(p + xa, p + xb, ra, rb);
    assert Groups(t, xa, ya) == p + xa + ra;
    assert Groups(t, xb, yb) == p + xb + rb;
  }

  lemma TailDecides(t: string, x: string, ya: string, yb: string)
    requires |t| == 12 && |ya| == |yb| == 16 && Before(ya, yb)
    ensures Before(Groups(t, x, ya), Groups(t, x, yb))
  {
    hide Before;
    BeforeCut(ya, yb, 4, "-");
    var p := t[..8] + "-" + t[8..] + "-7" + x + "-";
    BeforePrepend(p, ya[..4] + "-" + ya[4..], yb[..4] + "-" + yb[4..]);
    assert Groups(t, x, ya) == p + (ya[..4] + "-" + ya[4..]);
    assert Groups(t, x, yb) == p + (yb[..4] + "-" + yb[4..]);
  }

  /** The ten answers of the random source as one number. */
  function Drawn(draws: seq<Number>): nat
    requires forall d | d in draws :: IsDraw(d)
  {
    if draws == [] then 0
    else Drawn(draws[..|draws| - 1]) * 256 + Byte(draws[|draws| - 1])
  }

  predicate AllDraws(draws: seq<Number>) {
    forall d | d in draws :: IsDraw(d)
  }

  /** The next stamp; absent where the source throws. */
  function Next(last: Stamp, now: Number, draws: seq<Number>): Option<Stamp> {
    if !IsTimestamp(now) then None
    else
      var timestamp := if now.value.Floor > last.timestamp then now.value.Floor else last.timestamp;
      if timestamp > last.timestamp then Fresh(timestamp, draws)
      else if last.bits < RANDOMS - 1 then Some(Stamp(timestamp, last.bits + 1))
      else if timestamp + 1 >= TIMESTAMPS then None
      else Fresh(timestamp + 1, draws)
  }

  function Fresh(timestamp: int, draws: seq<Number>): Option<Stamp> {
    if AllDraws(draws) then Some(Stamp(timestamp, Drawn(draws) % RANDOMS)) else None
  }

  /** One request for an identifier: the clock's answer and what the random source would say. */
  datatype Call = Call(now: Number, draws: seq<Number>)

  /** The stamps issued by a run of calls; a call that throws issues none and leaves no trace. */
  function Issued(calls: seq<Call>): (stamps: seq<Stamp>)
    ensures |stamps| <= |calls|
  {
    if calls == [] then []
    else
      var earlier := Issued(calls[..|calls| - 1]);
      var call := calls[|calls| - 1];
      match Next(LastOf(earlier), call.now, call.draws)
      case None => earlier
      case Some(stamp) => earlier + [stamp]
  }

  function LastOf(stamps: seq<Stamp>): Stamp {
    if stamps == [] then NEVER else stamps[|stamps| - 1]
  }

  lemma {:induction false} StampsIncrease(calls: seq<Call>)
    ensures var stamps := Issued(calls);
            && (forall i | 0 <= i < |stamps| :: Issuable(stamps[i]))
            && (forall i, j | 0 <= i < j < |stamps| :: Earlier(stamps[i], stamps[j]))
  {
    if calls != [] {
      var before := calls[..|calls| - 1];
      StampsIncrease(before);
      assert Issued(before) == [] || LastOf(Issued(before)) in Issued(before);
    }
  }

  /** For every clock and every random source, identifiers of one factory increase as strings. */
  lemma IdentifiersIncrease(calls: seq<Call>, i: nat, j: nat)
    requires i < j < |Issued(calls)|
    ensures Issuable(Issued(calls)[i]) && Issuable(Issued(calls)[j])
    ensures Before(Text(Issued(calls)[i]), Text(Issued(calls)[j]))
  {
    hide Before, Format;
    StampsIncrease(calls);
    TextKeepsOrder(Issued(calls)[i], Issued(calls)[j]);
  }

  /** Each has its version and variant in place, and gives back the timestamp written into it. */
  lemma IdentifiersWellFormed(calls: seq<Call>, i: nat)
    requires i < |Issued(calls)|
    ensures Issuable(Issued(calls)[i])
    ensures IsUuidV7(Text(Issued(calls)[i]))
    ensures UuidV7Timestamp(Text(Issued(calls)[i])) == Some(Issued(calls)[i].timestamp)
  {
    hide Format, IsUuidV7;
    StampsIncrease(calls);
    FormatRoundTrip(Issued(calls)[i].timestamp, Issued(calls)[i].bits);
  }

  /** A call throws exactly for a clock out of range, a random source out of range, or exhausted timestamps. */
  lemma ThrowsExactlyWhen(calls: seq<Call>, now: Number, draws: seq<Number>)
    ensures var last := LastOf(Issued(calls));
            Next(last, now, draws).None? <==>
              || !IsTimestamp(now)
              || (last == Stamp(TIMESTAMPS - 1, RANDOMS - 1))
              || ((now.value.Floor > last.timestamp || last.bits == RANDOMS - 1) && !AllDraws(draws))
  {
    StampsIncrease(calls);
    assert Issued(calls) == [] || LastOf(Issued(calls)) in Issued(calls);
  }

  /** An identifier never carries a time before the clock's answer, and is ahead of it only as far as it must be. */
  lemma TimestampFollowsClock(calls: seq<Call>, now: Number, draws: seq<Number>)
    requires Next(LastOf(Issued(calls)), now, draws).Some?
    ensures var last := LastOf(Issued(calls));
            var t := Next(last, now, draws).value.timestamp;
            && now.value.Floor <= t
            && (t == now.value.Floor || t == last.timestamp || (t == last.timestamp + 1 && last.bits == RANDOMS - 1))
  {
    StampsIncrease(calls);
    assert Issued(calls) == [] || LastOf(Issued(calls)) in Issued(calls);
  }

  /** What one more call issues. */
  lemma IssuedMore(calls: seq<Call>, c: Call)
    ensures Issued(calls + [c]) ==
              match Next(LastOf(Issued(calls)), c.now, c.draws)
              case None => Issued(calls)
              case Some(stamp) => Issued(calls) + [stamp]
    ensures var next := Next(LastOf(Issued(calls)), c.now, c.draws);
            && (next.Some? ==> Issuable(next.value))
            && LastOf(Issued(calls + [c])) == if next.Some? then next.value else LastOf(Issued(calls))
  {
    hide Next, Issuable;
    assert (calls + [c])[..|calls|] == calls;
    StampsIncrease(calls + [c]);
    var next := Next(LastOf(Issued(calls)), c.now, c.draws);
    if next.Some? { assert Issued(calls + [c])[|Issued(calls)|] == next.value; }
  }

  /** The factory object. */
  class UuidV7Factory {
    var lastTimestamp: int
    var randomBits: nat
    ghost var calls: seq<Call>

    /** The object is where the calls made of it so far lead. */
    ghost predicate Valid()
      reads this
    {
      Last() == LastOf(Issued(calls))
    }

    ghost function Last(): Stamp
      reads this
    {
      Stamp(lastTimestamp, randomBits)
    }

    constructor ()
      ensures Valid() && calls == []
    {
      lastTimestamp, randomBits, calls := -1, 0, [];
    }

    /** Reads the random source until it misbehaves; no bits then. */
    static method ReadRandomBits(draws: seq<Number>) returns (bits: Option<nat>)
      ensures bits == if AllDraws(draws) then Some(Drawn(draws) % RANDOMS) else None
    {
      var all := 0;
      var i := 0;
      while i < |draws|
        invariant i <= |draws|
        invariant AllDraws(draws[..i]) && all == Drawn(draws[..i])
      {
        if !IsDraw(draws[i]) { return None; }
        assert draws[..i + 1][..i] == draws[..i];
        all := all * 256 + Byte(draws[i]);
        i := i + 1;
      }
      assert draws[..i] == draws;
      return Some(all % RANDOMS);
    }

    method Create(now: Number, draws: seq<Number>) returns (id: Option<string>)
      requires Valid() && |draws| == 10
      modifies this
      ensures Valid() && calls == old(calls) + [Call(now, draws)]
      ensures match id
              case None => Issued(calls) == Issued(old(calls))
              case Some(text) =>
                && |Issued(calls)| == |Issued(old(calls))| + 1
                && Issuable(Last()) && text == Text(Last())
    {
      hide Format, Next, Issued;
      IssuedMore(calls, Call(now, draws));
      calls := calls + [Call(now, draws)];
      var next := NextStamp(now, draws);
      if next.None? { return None; }
      lastTimestamp, randomBits := next.value.timestamp, next.value.bits;
      return Some(Format(lastTimestamp, randomBits));
    }

    /** The stamp after the last one; absent where the source throws. */
    method NextStamp(now: Number, draws: seq<Number>) returns (next: Option<Stamp>)
      ensures next == Next(Last(), now, draws)
    {
      hide Drawn, AllDraws;
      if !IsTimestamp(now) { return None; }
      var timestamp := if now.value.Floor > lastTimestamp then now.value.Floor else lastTimestamp;
      var bits := randomBits;
      if timestamp > lastTimestamp {
        var drawn := ReadRandomBits(draws);
        if drawn.None? { return None; }
        bits := drawn.value;
      } else if bits < RANDOMS - 1 {
        bits := bits + 1;
      } else {
        timestamp := timestamp + 1;
        if timestamp >= TIMESTAMPS { return None; }
        var drawn := ReadRandomBits(draws);
        if drawn.None? { return None; }
        bits := drawn.value;
      }
      return Some(Stamp(timestamp, bits));
    }
  }
}
