/** Single-segment SMS truncation (src/templates/engine/sms-truncation.service.ts), over
    UTF-16 code units. The alphabets are those of 3GPP TS 23.038, section 6.2.1. */
module SmsTruncation {

  type CodeUnit = u: int | 0 <= u < 0x10000
  type Text = seq<CodeUnit>

  const GSM_BASIC: set<int> :=
    (set u | 0x20 <= u <= 0x5A) + (set u | 0x61 <= u <= 0x7A) + {0x5F, 0x0A, 0x0D,
      0xA1, 0xA3, 0xA4, 0xA5, 0xA7, 0xBF, 0xC4, 0xC5, 0xC6, 0xC7, 0xC9, 0xD1, 0xD6, 0xD8, 0xDC, 0xDF,
      0xE0, 0xE4, 0xE5, 0xE6, 0xE8, 0xE9, 0xEC, 0xF1, 0xF2, 0xF6, 0xF8, 0xF9, 0xFC,
      0x393, 0x394, 0x398, 0x39B, 0x39E, 0x3A0, 0x3A3, 0x3A6, 0x3A8, 0x3A9}

  /** ^ { } \ [ ~ ] | and the euro sign, two septets each */
  const GSM_EXTENDED: set<int> := {0x5E, 0x7B, 0x7D, 0x5C, 0x5B, 0x7E, 0x5D, 0x7C, 0x20AC}

  const GSM7_LIMIT := 160
  const UCS2_LIMIT := 70

  /** "... App" */
  const SUFFIX: Text := [0x2E, 0x2E, 0x2E, 0x20, 0x41, 0x70, 0x70]

  predicate IsGsm7(t: Text) {
    forall i :: 0 <= i < |t| ==> t[i] in GSM_BASIC || t[i] in GSM_EXTENDED
  }

  /** How many characters of the extension table the text holds. */
  function Extensions(t: Text): nat {
    if t == [] then 0 else Extensions(t[..|t| - 1]) + if t[|t| - 1] in GSM_EXTENDED then 1 else 0
  }

  function EncodedLength(t: Text): nat {
    if IsGsm7(t) then |t| + Extensions(t) else |t|
  }

  function LimitFor(t: Text): nat {
    if IsGsm7(t) then GSM7_LIMIT else UCS2_LIMIT
  }

  predicate Fits(t: Text) {
    EncodedLength(t) <= LimitFor(t)
  }

  function Available(t: Text): nat {
    LimitFor(t) - |SUFFIX|
  }

  function LastSpaceIn(t: Text): int {
    if t == [] then -1 else if t[|t| - 1] == 0x20 then |t| - 1 else LastSpaceIn(t[..|t| - 1])
  }

  /** The part of the text that fits the room left by the suffix. */
  function Room(t: Text): nat {
    if Available(t) <= |t| then Available(t) else |t|
  }

  /** How much of an overlong text is kept: up to the last space if that uses more than
      80% of the room, and otherwise all of the room. */
  function Kept(t: Text): int {
    var lastSpace := LastSpaceIn(t[..Room(t)]);
    if 5 * lastSpace > 4 * Available(t) then lastSpace else Room(t)
  }

  lemma {:induction false} LastSpaceIsLast(t: Text)
    ensures -1 <= LastSpaceIn(t) < |t|
    ensures LastSpaceIn(t) >= 0 ==> t[LastSpaceIn(t)] == 0x20
    ensures forall i :: LastSpaceIn(t) < i < |t| ==> t[i] != 0x20
  {
    if t != [] && t[|t| - 1] != 0x20 { LastSpaceIsLast(t[..|t| - 1]); }
  }

  lemma KeptInRoom(t: Text)
    ensures 0 <= Kept(t) <= Room(t) <= |t|
  {
    LastSpaceIsLast(t[..Room(t)]);
  }

  function KeptText(t: Text): Text {
    KeptInRoom(t);
    t[..Kept(t)]
  }

  function Truncated(t: Text): Text {
    if Fits(t) then t else KeptText(t) + SUFFIX
  }

  class SmsTruncationService {
    method IsGsm7Text(t: Text) returns (r: bool)
      ensures r == IsGsm7(t)
    {
      for i := 0 to |t|
        invariant IsGsm7(t[..i])
      {
        if t[i] !in GSM_BASIC && t[i] !in GSM_EXTENDED { return false; }
      }
      assert t[..|t|] == t;
      r := true;
    }

    method CountEncoded(t: Text) returns (n: nat)
      ensures n == EncodedLength(t)
    {
      var gsm := IsGsm7Text(t);
      if !gsm { return |t|; }
      n := 0;
      for i := 0 to |t|
        invariant n == i + Extensions(t[..i])
      {
        assert t[..i + 1][..i] == t[..i];
        n := n + if t[i] in GSM_EXTENDED then 2 else 1;
      }
      assert t[..|t|] == t;
    }

    method LastSpace(t: Text) returns (at: int)
      ensures at == LastSpaceIn(t)
    {
      at := |t| - 1;
      assert t[..at + 1] == t;
      while at >= 0 && t[at] != 0x20
        invariant -1 <= at < |t|
        invariant LastSpaceIn(t) == LastSpaceIn(t[..at + 1])
      {
        assert t[..at + 1][..at] == t[..at];
        at := at - 1;
      }
    }

    method Truncate(t: Text) returns (r: Text)
      ensures r == Truncated(t)
    {
      var gsm := IsGsm7Text(t);
      var limit := if gsm then GSM7_LIMIT else UCS2_LIMIT;
      var length := CountEncoded(t);
      if length <= limit { return t; }
      var available := limit - |SUFFIX|;
      var truncated := if available <= |t| then t[..available] else t;
      assert truncated == t[..Room(t)];
      var lastSpace := LastSpace(truncated);
      LastSpaceIsLast(truncated);
      var safeEnd := if 5 * lastSpace > 4 * available then lastSpace else available;
      r := (if safeEnd <= |truncated| then truncated[..safeEnd] else truncated) + SUFFIX;
    }
  }

  lemma {:induction false} ExtensionsBound(t: Text)
    ensures Extensions(t) <= |t|
  {
    if t != [] { ExtensionsBound(t[..|t| - 1]); }
  }

  lemma {:induction false} ExtensionsConcat(a: Text, b: Text)
    ensures Extensions(a + b) == Extensions(a) + Extensions(b)
  {
    if b == [] {
      assert a + b == a;
    } else {
      assert (a + b)[..|a + b| - 1] == a + b[..|b| - 1];
      ExtensionsConcat(a, b[..|b| - 1]);
    }
  }

  lemma SuffixIsPlain()
    ensures Extensions(SUFFIX) == 0 && IsGsm7(SUFFIX)
  {
    assert SUFFIX[..6] == [0x2E, 0x2E, 0x2E, 0x20, 0x41, 0x70];
    ExtensionsConcat([0x2E, 0x2E, 0x2E, 0x20], [0x41, 0x70, 0x70]);
    ExtensionsConcat([0x2E, 0x2E], [0x2E, 0x20]);
    ExtensionsConcat([0x41], [0x70, 0x70]);
    ExtensionsConcat([0x2E], [0x2E]);
    ExtensionsConcat([0x2E], [0x20]);
    ExtensionsConcat([0x70], [0x70]);
    assert SUFFIX == [0x2E, 0x2E, 0x2E, 0x20] + [0x41, 0x70, 0x70];
    assert [0x2E, 0x2E, 0x2E, 0x20] == [0x2E, 0x2E] + [0x2E, 0x20];
    assert [0x41, 0x70, 0x70] == [0x41] + [0x70, 0x70];
    assert [0x2E, 0x2E] == [0x2E] + [0x2E] && [0x2E, 0x20] == [0x2E] + [0x20] && [0x70, 0x70] == [0x70] + [0x70];
  }

  lemma TruncatedLength(t: Text)
    requires !Fits(t)
    ensures var r := Truncated(t);
            && |r| == Kept(t) + 7
            && Extensions(r) == Extensions(KeptText(t))
            && (IsGsm7(t) ==> IsGsm7(r))
            && Extensions(r) <= Kept(t)
  {
    KeptInRoom(t);
    SuffixIsPlain();
    ExtensionsConcat(KeptText(t), SUFFIX);
    ExtensionsBound(KeptText(t));
  }

  /** Where a GSM-7 text is cut: its last space among the first 153 characters, if that comes
      after the 122nd, and otherwise the 153rd character or the end of the text. */
  predicate CutsAt(t: Text, cut: int) {
    var room := if |t| < 153 then |t| else 153;
    || (123 <= cut < room && t[cut] == 0x20 && forall i :: cut < i < room ==> t[i] != 0x20)
    || (cut == room && forall i :: 123 <= i < room ==> t[i] != 0x20)
  }

  lemma CutIsKept(t: Text, cut: int)
    requires IsGsm7(t) && CutsAt(t, cut)
    ensures cut == Kept(t)
  {
    var room := t[..Room(t)];
    LastSpaceIsLast(room);
    assert forall i :: 0 <= i < |room| ==> room[i] == t[i];
  }

  lemma KeptIsCut(t: Text)
    requires IsGsm7(t)
    ensures CutsAt(t, Kept(t))
  {
    var room := t[..Room(t)];
    LastSpaceIsLast(room);
    assert forall i :: 0 <= i < |room| ==> room[i] == t[i];
  }

  /** Exactly which texts come out fitting a single segment: those that fitted, all that are
      not GSM-7, and the GSM-7 ones with no more extension characters before the cut than
      there are characters from the cut to the end of the room. */
  lemma TruncationFits(t: Text)
    ensures Fits(Truncated(t)) <==>
            Fits(t) || !IsGsm7(t)
            || exists cut :: 0 <= cut <= |t| && CutsAt(t, cut) && Extensions(t[..cut]) <= 153 - cut
  {
    if !Fits(t) {
      TruncatedLength(t);
      KeptInRoom(t);
      if IsGsm7(t) {
        KeptIsCut(t);
        assert KeptText(t) == t[..Kept(t)];
        if cut :| 0 <= cut <= |t| && CutsAt(t, cut) && Extensions(t[..cut]) <= 153 - cut { CutIsKept(t, cut); }
      }
    }
  }

  /** So every GSM-7 text without extension characters fits afterwards, and any other
      exceeds the segment by at most the extension characters that were kept. */
  lemma PlainTextFits(t: Text)
    ensures Extensions(t) == 0 ==> Fits(Truncated(t))
    ensures IsGsm7(t) && !Fits(t) ==> EncodedLength(Truncated(t)) <= 160 + Extensions(KeptText(t))
  {
    KeptInRoom(t);
    ExtensionsConcat(t[..Kept(t)], t[Kept(t)..]);
    assert t == t[..Kept(t)] + t[Kept(t)..];
    TruncationFits(t);
    if !Fits(t) { TruncatedLength(t); }
  }

  /** More than 80% of the room is used exactly when there is that much text. */
  lemma KeepsMostOfTheRoom(t: Text)
    requires !Fits(t)
    ensures 5 * Kept(t) > 4 * Available(t) <==> 5 * |t| > 4 * Available(t)
    ensures Kept(t) < Room(t) ==> t[Kept(t)] == 0x20 && forall i :: Kept(t) < i < Room(t) ==> t[i] != 0x20
  {
    KeptInRoom(t);
    LastSpaceIsLast(t[..Room(t)]);
    assert forall i :: 0 <= i < Room(t) ==> t[..Room(t)][i] == t[i];
  }

  lemma {:induction false} AllExtensions(n: nat)
    ensures Extensions(seq(n, i => 0x5E)) == n && IsGsm7(seq(n, i => 0x5E))
  {
    if n > 0 {
      AllExtensions(n - 1);
      assert seq<CodeUnit>(n, i => 0x5E)[..n - 1] == seq<CodeUnit>(n - 1, i => 0x5E);
    }
  }

  /** 81 circumflex accents cost 162 septets; the "truncation" keeps them all, adds the
      suffix, and takes 169. */
  lemma ExtensionTextGrows()
    ensures var t := seq(81, i => 0x5E);
            !Fits(t) && |Truncated(t)| == 88 && EncodedLength(Truncated(t)) == 169
  {
    var t: Text := seq(81, i => 0x5E);
    AllExtensions(81);
    LastSpaceIsLast(t);
    assert t[..Room(t)] == t && t[..81] == t;
    TruncatedLength(t);
  }
}
