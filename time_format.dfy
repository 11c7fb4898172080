/**
 * `formatTime(ms)`, written out identically in the three widgets: whole
 * seconds `Math.floor(ms / 1000)`, then minutes `Math.floor(seconds / 60)`,
 * a colon, and the seconds remainder (JavaScript's truncating `%`) padded
 * to two characters with `0`.
 */
module TimeFormat {

  import opened Wrappers
  import Js

  function FormatTime(ms: int): string {
    var totalSeconds := Js.FloorDiv(ms, 1000);
    var minutes := Js.FloorDiv(totalSeconds, 60);
    var seconds := Js.Rem(totalSeconds, 60);
    Js.IntToString(minutes) + ":" + Js.PadStart(Js.IntToString(seconds), 2, '0')
  }

  /** The minutes are `Math.floor(ms / 60000)` for every input. */
  lemma MinutesFloor(ms: int)
    ensures Js.FloorDiv(Js.FloorDiv(ms, 1000), 60) == Js.FloorDiv(ms, 60000)
  {
    var q := Js.FloorDiv(ms, 1000);
    var m := Js.FloorDiv(q, 60);
    assert 1000 * q <= ms < 1000 * q + 1000;
    assert 60 * m <= q < 60 * m + 60;
    assert 60000 * m <= 1000 * q by { assert 1000 * (60 * m) <= 1000 * q; }
    assert 1000 * q + 1000 <= 60000 * m + 60000 by { assert 1000 * (q + 1) <= 1000 * (60 * m + 60); }
    assert 60000 * m <= ms < 60000 * m + 60000;
    var r := Js.FloorDiv(ms, 60000);
    assert 60000 * r <= ms < 60000 * r + 60000;
  }

  /** Two decimal digits of a number below 100, with a leading zero below 10. */
  function TwoDigits(n: nat): (r: string)
    requires n < 100
    ensures |r| == 2 && Js.IsDigit(r[0]) && Js.IsDigit(r[1])
  {
    [Js.DigitChar(n / 10), Js.DigitChar(n % 10)]
  }

  lemma PadSeconds(n: nat)
    requires n < 60
    ensures Js.PadStart(Js.IntToString(n), 2, '0') == TwoDigits(n)
  {
    var s := Js.NatToString(n);
    if n < 10 {
      assert s == [Js.DigitChar(n)];
    } else {
      assert s == Js.NatToString(n / 10) + [Js.DigitChar(n % 10)];
      assert Js.NatToString(n / 10) == [Js.DigitChar(n / 10)];
    }
  }

  /** For a non-negative time the text is the minutes `floor(ms / 60000)`
      without leading zeros, a colon, and the seconds `floor(ms / 1000) mod 60`
      as exactly two digits. */
  lemma FormatTimeShape(ms: int)
    requires ms >= 0
    ensures var s := (ms / 1000) % 60;
            0 <= s < 60
            && FormatTime(ms) == Js.NatToString(ms / 60000) + ":" + TwoDigits(s)
  {
    var total := Js.FloorDiv(ms, 1000);
    assert total == ms / 1000;
    var seconds := Js.Rem(total, 60);
    assert seconds == total % 60;
    MinutesFloor(ms);
    var minutes := Js.FloorDiv(total, 60);
    assert minutes == ms / 60000 >= 0;
    assert Js.IntToString(minutes) == Js.NatToString(ms / 60000);
    PadSeconds(seconds);
  }

  /** Reads a `m:ss` label back: the digits before the first colon and the
      digits after it. */
  function ParseTime(text: string): Option<(nat, nat)> {
    if ':' !in text then None
    else
      var k := Js.IndexOf(text, ':');
      var m, s := text[..k], text[k + 1..];
      if m != [] && s != [] && (forall i :: 0 <= i < |m| ==> Js.IsDigit(m[i]))
         && (forall i :: 0 <= i < |s| ==> Js.IsDigit(s[i]))
      then Some((Js.DigitsValue(m), Js.DigitsValue(s)))
      else None
  }

  /** In every label of a non-negative time the seconds field is two digits
      whose value is below 60. */
  lemma SecondsTwoDigits(ms: int)
    requires ms >= 0
    ensures var t := FormatTime(ms);
            |t| >= 4 && t[|t| - 3] == ':'
            && Js.IsDigit(t[|t| - 2]) && Js.IsDigit(t[|t| - 1])
            && (t[|t| - 2] as int - '0' as int) * 10 + (t[|t| - 1] as int - '0' as int) < 60
  {
    FormatTimeShape(ms);
    var m, sec := Js.NatToString(ms / 60000), (ms / 1000) % 60;
    var t := FormatTime(ms);
    var two := TwoDigits(sec);
    assert t == m + ":" + two;
    assert |t| == |m| + 3;
    assert t[|t| - 3] == ':' && t[|t| - 2] == two[0] && t[|t| - 1] == two[1];
    TwoDigitsBelow(sec);
  }

  /** The digit characters of `TwoDigits(n)` read as the number `n`. */
  lemma TwoDigitsBelow(n: nat)
    requires n < 100
    ensures var two := TwoDigits(n);
            (two[0] as int - '0' as int) * 10 + (two[1] as int - '0' as int) == n
  {
    var two := TwoDigits(n);
    assert two[0] as int - '0' as int == n / 10;
    assert two[1] as int - '0' as int == n % 10;
  }

  lemma TwoDigitsValue(n: nat)
    requires n < 100
    ensures Js.DigitsValue(TwoDigits(n)) == n
  {
    var two := TwoDigits(n);
    var one := two[..1];
    assert one == [Js.DigitChar(n / 10)];
    assert one[..0] == [];
    assert Js.DigitsValue(one) == n / 10;
    assert Js.DigitsValue(two) == 10 * Js.DigitsValue(one) + n % 10;
  }

  /** Reading back a label built from minutes `m` and seconds `s`. */
  lemma ParseLabel(m: nat, s: nat)
    requires s < 60
    ensures ParseTime(Js.NatToString(m) + ":" + TwoDigits(s)) == Some((m, s))
  {
    var mText := Js.NatToString(m);
    var t := mText + ":" + TwoDigits(s);
    assert ':' !in mText by {
      forall i | 0 <= i < |mText| ensures mText[i] != ':' {
        assert Js.IsDigit(mText[i]);
      }
    }
    assert t[|mText|] == ':' && t[..|mText|] == mText;
    assert Js.IndexOf(t, ':') == |mText|;
    assert t[|mText| + 1..] == TwoDigits(s);
    Js.NatToStringRoundTrip(m);
    TwoDigitsValue(s);
  }

  /** Round trip: parsing the label of a non-negative time gives minutes `m`
      and seconds `s` with `60 * m + s == floor(ms / 1000)` and `s < 60`. */
  lemma ParseFormatTime(ms: int)
    requires ms >= 0
    ensures var p := ParseTime(FormatTime(ms));
            p.Some? && 60 * p.value.0 + p.value.1 == ms / 1000 && p.value.1 < 60
  {
    FormatTimeShape(ms);
    ParseLabel(ms / 60000, (ms / 1000) % 60);
    MinutesFloor(ms);
    assert ms / 60000 == (ms / 1000) / 60;
  }
}
