/** `_generateGUID`: eight `s4()` groups joined as 8-4-4-4-12 lower-case hex.
    Each `s4()` is `Math.floor((1 + Math.random()) * 0x10000).toString(16).substring(1)`;
    the model takes the floored value (a `Draw`) as its input. */
module Guid {
  import opened Radix

  /** One floored draw `Math.floor((1 + r) * 0x10000)` with `0 <= r < 1`. */
  type Draw = d: int | 0x10000 <= d < 0x20000 witness 0x10000

  /** A draw written in hex always has five digits, the first of them `1`. */
  lemma HexOfDraw(d: Draw)
    ensures ToString(d, 16) == ['1', DigitChar(d / 16 / 16 / 16 % 16), DigitChar(d / 16 / 16 % 16),
                                DigitChar(d / 16 % 16), DigitChar(d % 16)]
  {
  }

  /** The number four hex digits denote. */
  lemma ValueOfFour(s: string)
    requires |s| == 4
    ensures Value(s, 16) == DigitValue(s[0]) * 4096 + DigitValue(s[1]) * 256 + DigitValue(s[2]) * 16 + DigitValue(s[3])
  {
    var s1, s2, s3 := s[..1], s[..2], s[..3];
    assert s1[..0] == [] && s2[..1] == s1 && s3[..2] == s2 && s[..3] == s3;
    assert Value(s1, 16) == DigitValue(s[0]);
    assert Value(s2, 16) == DigitValue(s[0]) * 16 + DigitValue(s[1]);
    assert Value(s3, 16) == (DigitValue(s[0]) * 16 + DigitValue(s[1])) * 16 + DigitValue(s[2]);
  }

  /** `s4()`: the hex text of a draw without its leading `1`, i.e. the draw's
      offset from 0x10000 as exactly four zero-padded lower-case digits. */
  function S4(d: Draw): (s: string)
    ensures |s| == 4
    ensures forall i :: 0 <= i < 4 ==> IsDigitChar(s[i])
    ensures Value(s, 16) == d - 0x10000
  {
    HexOfDraw(d);
    var s := ToString(d, 16)[1..];
    ValueOfFour(s);
    s
  }

  /** Positions of the four dashes in an 8-4-4-4-12 token. */
  predicate IsDashPosition(i: int)
  {
    i == 8 || i == 13 || i == 18 || i == 23
  }

  /** 36 characters: dashes at 8, 13, 18 and 23, lower-case hex digits elsewhere. */
  predicate IsGuidShaped(g: string)
  {
    |g| == 36 &&
    forall i :: 0 <= i < 36 ==> if IsDashPosition(i) then g[i] == '-' else IsDigitChar(g[i])
  }

  /** `_generateGUID()` with its eight draws, in call order. */
  function GenerateGuid(draws: seq<Draw>): (g: string)
    requires |draws| == 8
    ensures IsGuidShaped(g)
  {
    S4(draws[0]) + S4(draws[1]) + "-" + S4(draws[2]) + "-" + S4(draws[3]) + "-" +
    S4(draws[4]) + "-" + S4(draws[5]) + S4(draws[6]) + S4(draws[7])
  }

  /** The eight draws read back from the groups of a token. */
  function DrawsOf(g: string): seq<int>
    requires |g| == 36
  {
    [Value(g[0..4], 16) + 0x10000, Value(g[4..8], 16) + 0x10000,
     Value(g[9..13], 16) + 0x10000, Value(g[14..18], 16) + 0x10000,
     Value(g[19..23], 16) + 0x10000, Value(g[24..28], 16) + 0x10000,
     Value(g[28..32], 16) + 0x10000, Value(g[32..36], 16) + 0x10000]
  }

  /** No information of the draws is lost: the token determines its draws,
      so tokens from different draws differ. */
  lemma DrawsOfGenerateGuid(draws: seq<Draw>)
    requires |draws| == 8
    ensures DrawsOf(GenerateGuid(draws)) == draws
  {
    var g := GenerateGuid(draws);
    assert g[0..4] == S4(draws[0]);
    assert g[4..8] == S4(draws[1]);
    assert g[9..13] == S4(draws[2]);
    assert g[14..18] == S4(draws[3]);
    assert g[19..23] == S4(draws[4]);
    assert g[24..28] == S4(draws[5]);
    assert g[28..32] == S4(draws[6]);
    assert g[32..36] == S4(draws[7]);
  }
}
