/** Plate file locations (src/ppv/util/paths.py). A path is a sequence of segments; the
    configured plate directory (`config.plate_dir`) is a parameter. */
module Paths {
  import opened Strings

  /** `'{:06d}'.format(platenum)`: decimal, zero-padded to six characters; a negative
      number keeps its sign in front of the zeros. */
  function PlatenumAsStr(platenum: int): (s: string)
    ensures |s| >= 6
    ensures platenum >= 0 ==> AllDigits(s) && ParseDecimal(s) == platenum
    ensures 0 <= platenum < 1000000 ==> |s| == 6
    ensures platenum < 0 ==> s[0] == '-' && AllDigits(s[1..]) && ParseDecimal(s[1..]) == -platenum
    ensures platenum >= 0 ==> s == LeftPad(NatToDecimal(platenum), 6, '0')
    ensures platenum < 0 ==> s == "-" + LeftPad(NatToDecimal(-platenum), 5, '0')
  {
    if platenum >= 0 then
      NonNegativePad(platenum);
      LeftPad(NatToDecimal(platenum), 6, '0')
    else
      NegativePad(-platenum);
      "-" + LeftPad(NatToDecimal(-platenum), 5, '0')
  }

  /** The padding is exact: the decimal of the number, with zeros in front only up to six
      characters (five after a sign), never more. */
  lemma PlatenumAsStrPadding(platenum: int)
    ensures platenum >= 0 ==> ZeroPadded(PlatenumAsStr(platenum), NatToDecimal(platenum), 6)
    ensures platenum < 0 ==>
      var p := LeftPad(NatToDecimal(-platenum), 5, '0');
      PlatenumAsStr(platenum) == "-" + p && ZeroPadded(p, NatToDecimal(-platenum), 5)
  {
    if platenum >= 0 {
      LeftPadZeroPadded(NatToDecimal(platenum), 6);
    } else {
      LeftPadZeroPadded(NatToDecimal(-platenum), 5);
    }
  }

  lemma LeftPadZeroPadded(d: string, width: nat)
    ensures ZeroPadded(LeftPad(d, width, '0'), d, width)
  {
  }

  /** `s` is the decimal `d` with just enough zeros in front to reach `width`. */
  predicate ZeroPadded(s: string, d: string, width: nat) {
    && |s| == (if |d| >= width then |d| else width)
    && |s| >= |d| && s[|s| - |d|..] == d
    && forall i :: 0 <= i < |s| - |d| ==> s[i] == '0'
  }

  lemma NonNegativePad(n: nat)
    ensures var s := LeftPad(NatToDecimal(n), 6, '0');
      && |s| >= 6 && AllDigits(s) && ParseDecimal(s) == n
      && (n < 1000000 ==> |s| == 6)
  {
    PadParses(n, 6);
    SixDigits(n);
  }

  lemma NegativePad(n: nat)
    ensures var s := "-" + LeftPad(NatToDecimal(n), 5, '0');
      && |s| >= 6 && s[0] == '-' && AllDigits(s[1..]) && ParseDecimal(s[1..]) == n
  {
    var d := NatToDecimal(n);
    var p := LeftPad(d, 5, '0');
    PadParses(n, 5);
    var s := "-" + p;
    assert s[1..] == p;
  }

  /** Zero padding does not change the value of a decimal. */
  lemma PadParses(n: nat, width: nat)
    ensures AllDigits(LeftPad(NatToDecimal(n), width, '0'))
    ensures ParseDecimal(LeftPad(NatToDecimal(n), width, '0')) == n
  {
    var d := NatToDecimal(n);
    ParseNatToDecimal(n);
    if |d| < width {
      ParseLeadingZeros(width - |d|, d);
    }
  }

  lemma SixDigits(n: nat)
    ensures n < 1000000 ==> |NatToDecimal(n)| <= 6
  {
    if n < 1000000 {
      assert Pow10(6) == 1000000;
      DecimalLength(n, 6);
    }
  }

  /** `plate_batch`: the padded number without its last two characters, then `XX`. */
  function PlateBatch(plateDir: seq<string>, platenum: int): (r: seq<string>)
    ensures |r| == |plateDir| + 1 && r[..|plateDir|] == plateDir
    ensures platenum >= 0 ==> r[|plateDir|] == LeftPad(NatToDecimal(platenum / 100), 4, '0') + "XX"
  {
    var s := PlatenumAsStr(platenum);
    if platenum >= 0 then
      BatchDigits(platenum);
      plateDir + [s[..|s| - 2] + "XX"]
    else
      plateDir + [s[..|s| - 2] + "XX"]
  }

  lemma DecimalDropTwo(n: nat)
    requires n >= 100
    ensures NatToDecimal(n) == NatToDecimal(n / 100) + [Digit((n / 10) % 10), Digit(n % 10)]
  {
    assert (n / 10) / 10 == n / 100;
  }

  /** Dropping a tail from a zero-padded string leaves the rest padded to the rest of the width. */
  lemma LeftPadDropTail(d: string, t: string, w: nat)
    requires |t| <= w
    ensures var s := LeftPad(d + t, w, '0'); |s| >= |t| && s[..|s| - |t|] == LeftPad(d, w - |t|, '0')
  {
    var s := LeftPad(d + t, w, '0');
    var a := s[..|s| - |t|];
    var b := LeftPad(d, w - |t|, '0');
    assert |a| == |b|;
    forall i | 0 <= i < |a| ensures a[i] == b[i] {
      if i < |a| - |d| {
        assert a[i] == s[i];
      } else {
        assert s[|s| - |d + t|..] == d + t;
        assert a[i] == s[i] == (d + t)[i - (|s| - |d + t|)];
        assert b[|b| - |d|..] == d;
        assert b[i] == d[i - (|b| - |d|)];
      }
    }
  }

  /** The batch name holds the hundreds of the plate number, padded to four digits. */
  lemma BatchDigits(platenum: nat)
    ensures var s := PlatenumAsStr(platenum); s[..|s| - 2] == LeftPad(NatToDecimal(platenum / 100), 4, '0')
  {
    if platenum >= 100 {
      DecimalDropTwo(platenum);
      LeftPadDropTail(NatToDecimal(platenum / 100), [Digit((platenum / 10) % 10), Digit(platenum % 10)], 6);
    } else {
      SmallBatch(platenum);
    }
  }

  lemma SmallBatch(platenum: nat)
    requires platenum < 100
    ensures var s := PlatenumAsStr(platenum); s[..|s| - 2] == LeftPad(NatToDecimal(platenum / 100), 4, '0')
  {
    var s := PlatenumAsStr(platenum);
    var d := NatToDecimal(platenum);
    assert |d| <= 2 by {
      assert Pow10(2) == 100;
      DecimalLength(platenum, 2);
    }
    var p := LeftPad("0", 4, '0');
    assert NatToDecimal(platenum / 100) == "0";
    assert |s| == 6;
    forall i | 0 <= i < 4 ensures s[..4][i] == p[i] {
      assert s[i] == '0';
      assert p[|p| - 1..] == "0";
      assert i < 3 || p[i] == p[|p| - 1..][0];
    }
  }

  /** Plate numbers with the same hundreds share a batch directory. */
  lemma SameHundredsSameBatch(plateDir: seq<string>, m: nat, n: nat)
    requires m / 100 == n / 100
    ensures PlateBatch(plateDir, m) == PlateBatch(plateDir, n)
  {
    BatchDigits(m);
    BatchDigits(n);
  }

  /** The example in the source: plate 15020 lives in batch `0150XX`. */
  lemma BatchOf15020(plateDir: seq<string>)
    ensures PlateBatch(plateDir, 15020) == plateDir + ["0150XX"]
  {
    BatchDigits(15020);
    Pad150();
    var s := PlatenumAsStr(15020);
    assert s[..|s| - 2] == "0150";
    assert "0150" + "XX" == "0150XX";
  }

  lemma Pad150()
    ensures LeftPad(NatToDecimal(15020 / 100), 4, '0') == "0150"
  {
    assert 15020 / 100 == 150;
    assert NatToDecimal(15) == NatToDecimal(1) + [Digit(5)];
    assert NatToDecimal(150) == "150";
    var p := LeftPad("150", 4, '0');
    assert |p| == 4 && p[1..] == "150" && p[0] == '0';
    assert p == "0150";
  }

  /** `plate`: the plate's own directory, named by its padded number, inside its batch. */
  function Plate(plateDir: seq<string>, platenum: int): (r: seq<string>)
    ensures |r| == |plateDir| + 2 && r[..|plateDir| + 1] == PlateBatch(plateDir, platenum)
    ensures r[|plateDir| + 1] == PlatenumAsStr(platenum)
    ensures platenum >= 0 ==> AllDigits(r[|plateDir| + 1]) && ParseDecimal(r[|plateDir| + 1]) == platenum
    ensures 0 <= platenum < 1000000 ==> |r[|plateDir| + 1]| == 6
  {
    PlateBatch(plateDir, platenum) + [PlatenumAsStr(platenum)]
  }

  /** `plateholes_file`. */
  function PlateholesFile(platenum: int): (r: string)
    ensures |r| >= 21 && r[..11] == "plateHoles-" && r[|r| - 4..] == ".par"
    ensures r[11..|r| - 4] == PlatenumAsStr(platenum)
    ensures platenum >= 0 ==> ParseDecimal(r[11..|r| - 4]) == platenum
  {
    var prefix, num, suffix := "plateHoles-", PlatenumAsStr(platenum), ".par";
    assert |prefix| == 11 && |suffix| == 4;
    var f := prefix + num + suffix;
    assert f[..11] == prefix && f[11..|f| - 4] == num && f[|f| - 4..] == suffix;
    f
  }

  /** `plateholes`: the plugHoles file of a plate, inside the plate's directory. */
  function Plateholes(plateDir: seq<string>, platenum: int): (r: seq<string>)
    ensures |r| == |plateDir| + 3 && r[..|plateDir| + 2] == Plate(plateDir, platenum)
    ensures r[|plateDir| + 2] == PlateholesFile(platenum)
  {
    Plate(plateDir, platenum) + [PlateholesFile(platenum)]
  }

  /** The file name and the directory name carry the same number, which parses back to
      the plate number; the batch is fixed by the hundreds. */
  lemma PlateholesNamesPlate(plateDir: seq<string>, platenum: nat)
    requires platenum < 1000000
    ensures var r := Plateholes(plateDir, platenum);
      && r[..|plateDir|] == plateDir
      && |r[|plateDir| + 1]| == 6 && ParseDecimal(r[|plateDir| + 1]) == platenum
      && r[|plateDir| + 2][11..17] == r[|plateDir| + 1]
      && |r| == |plateDir| + 3 && r[|plateDir| + 2] == "plateHoles-" + r[|plateDir| + 1] + ".par"
      && r[|plateDir|] == LeftPad(NatToDecimal(platenum / 100), 4, '0') + "XX"
  {
    var s := PlatenumAsStr(platenum);
    assert |s| == 6 && ParseDecimal(s) == platenum;
    BatchDigits(platenum);
    var b := PlateBatch(plateDir, platenum);
    var p := Plate(plateDir, platenum);
    var r := Plateholes(plateDir, platenum);
    var f := PlateholesFile(platenum);
    assert r[..|plateDir|] == plateDir by {
      assert r[..|plateDir|] == p[..|plateDir|] == b[..|plateDir|];
    }
    assert r[|plateDir|] == p[|plateDir|] == b[|plateDir|] == s[..|s| - 2] + "XX";
    assert r[|plateDir| + 1] == p[|plateDir| + 1] == s;
    assert r[|plateDir| + 2] == f && f[11..17] == s;
  }
}
