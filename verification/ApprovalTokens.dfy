/** Approval tokens are version-4 UUIDs. */
module ApprovalTokens {
  import opened RescheduleProtocol

  predicate AllHexDigits(s: string) {
    forall i :: 0 <= i < |s| ==> s[i] in "0123456789abcdefABCDEF"
  }

  /** The five fields of a version-4 UUID as section 4 of RFC 9562 lays them out, the variant being its own. */
  datatype Uuid = Uuid(timeLow: string, timeMid: string, timeHigh: string, clock: string, node: string)

  predicate IsVersion4(u: Uuid) {
    && |u.timeLow| == 8 && |u.timeMid| == |u.timeHigh| == |u.clock| == 4 && |u.node| == 12
    && AllHexDigits(u.timeLow) && AllHexDigits(u.timeMid) && AllHexDigits(u.timeHigh)
    && AllHexDigits(u.clock) && AllHexDigits(u.node)
    && u.timeHigh[0] == '4' && u.clock[0] in "89abAB"
  }

  function UuidText(u: Uuid): string {
    u.timeLow + ("-" + (u.timeMid + ("-" + (u.timeHigh + ("-" + (u.clock + ("-" + u.node)))))))
  }

  lemma {:induction false} HexDigitsAreHex(c: char)
    ensures IsHex(c) <==> c in "0123456789abcdefABCDEF"
  {
    var digits := "0123456789abcdefABCDEF";
    if '0' <= c <= '9' {
      assert digits[c as int - '0' as int] == c;
    } else if 'a' <= c <= 'f' {
      assert digits[c as int - 'a' as int + 10] == c;
    } else if 'A' <= c <= 'F' {
      assert digits[c as int - 'A' as int + 16] == c;
    }
  }

  /** Where each field stands. */
  lemma {:induction false} UuidFields(u: Uuid)
    requires IsVersion4(u)
    ensures var s := UuidText(u);
      && |s| == 36 && s[8] == s[13] == s[18] == s[23] == '-'
      && s[0..8] == u.timeLow && s[9..13] == u.timeMid && s[14..18] == u.timeHigh && s[19..23] == u.clock
      && s[24..36] == u.node
  {
    hide AllHexDigits;
  }

  lemma {:induction false} SliceOfHex(s: string, from: nat, to: nat, i: nat)
    requires from <= i < to <= |s| && AllHexDigits(s[from..to])
    ensures IsHex(s[i])
  {
    assert s[from..to][i - from] == s[i];
    HexDigitsAreHex(s[i]);
  }

  lemma {:induction false} UuidIsAToken(u: Uuid)
    requires IsVersion4(u)
    ensures IsApprovalToken(UuidText(u))
  {
    var s := UuidText(u);
    UuidFields(u);
    hide UuidText;
    hide AllHexDigits;
    hide IsHex;
    assert s[14] == s[14..18][0] && s[19] == s[19..23][0];
    forall i | 0 <= i < 36 && i !in {8, 13, 18, 23}
      ensures IsHex(s[i])
    {
      if i < 8 {
        SliceOfHex(s, 0, 8, i);
      } else if i < 13 {
        SliceOfHex(s, 9, 13, i);
      } else if i < 18 {
        SliceOfHex(s, 14, 18, i);
      } else if i < 23 {
        SliceOfHex(s, 19, 23, i);
      } else {
        SliceOfHex(s, 24, 36, i);
      }
    }
  }

  lemma {:induction false} SliceIsHex(s: string, from: nat, to: nat)
    requires IsApprovalToken(s) && from <= to <= 36
    requires to <= 8 || (9 <= from && to <= 13) || (14 <= from && to <= 18) || (19 <= from && to <= 23) || 24 <= from
    ensures AllHexDigits(s[from..to])
  {
    forall i | 0 <= i < to - from
      ensures s[from..to][i] in "0123456789abcdefABCDEF"
    {
      assert s[from..to][i] == s[from + i] && IsHex(s[from + i]);
      HexDigitsAreHex(s[from + i]);
    }
  }

  lemma {:induction false} TokenDashes(s: string)
    requires IsApprovalToken(s)
    ensures |s| == 36 && s[8] == s[13] == s[18] == s[23] == '-' && s[14] == '4' && s[19] in "89abAB"
  {
  }

  function FieldsOf(s: string): Uuid
    requires |s| == 36
  {
    Uuid(s[0..8], s[9..13], s[14..18], s[19..23], s[24..36])
  }

  lemma {:induction false} FieldsMakeIt(s: string)
    requires |s| == 36 && s[8] == s[13] == s[18] == s[23] == '-'
    ensures UuidText(FieldsOf(s)) == s
  {
    Dashed(s, 0, 8);
    Dashed(s, 9, 13);
    Dashed(s, 14, 18);
    Dashed(s, 19, 23);
    assert s[0..] == s && s[24..36] == s[24..];
  }

  lemma {:induction false} Dashed(s: string, from: nat, to: nat)
    requires from <= to < |s| && s[to] == '-'
    ensures s[from..] == s[from..to] + ("-" + s[to + 1..])
  {
  }

  lemma {:induction false} TokenIsAUuid(s: string) returns (u: Uuid)
    requires IsApprovalToken(s)
    ensures IsVersion4(u) && UuidText(u) == s
  {
    hide IsApprovalToken;
    hide AllHexDigits;
    hide UuidText;
    TokenDashes(s);
    SliceIsHex(s, 0, 8);
    SliceIsHex(s, 9, 13);
    SliceIsHex(s, 14, 18);
    SliceIsHex(s, 19, 23);
    SliceIsHex(s, 24, 36);
    FieldsMakeIt(s);
    u := FieldsOf(s);
  }

  /** An approval token is a version-4 UUID, in either case. */
  lemma {:induction false} TokensAreUuids(s: string)
    ensures IsApprovalToken(s) <==> exists u :: IsVersion4(u) && UuidText(u) == s
  {
    hide IsApprovalToken;
    hide IsVersion4;
    hide UuidText;
    if IsApprovalToken(s) {
      var u := TokenIsAUuid(s);
    }
    forall u | IsVersion4(u) && UuidText(u) == s
      ensures IsApprovalToken(s)
    {
      UuidIsAToken(u);
    }
  }
}
