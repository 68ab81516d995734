/** `validateUUID` (src/helpers/uuid.ts): the regular expression
    `^[\da-f]{8}-[\da-f]{4}-[\da-f]{4}-[\da-f]{4}-[\da-f]{12}$`.
    `generateUUID` wraps `randomUUID`, a foreign call: the model takes the
    ids it returns as parameters of the operations that use them. */
module Uuid {

  /** `[\da-f]`: a lower-case hexadecimal digit. */
  predicate IsHexDigit(c: char)
  {
    ('0' <= c <= '9') || ('a' <= c <= 'f')
  }

  predicate AllHex(s: string)
  {
    forall i :: 0 <= i < |s| ==> IsHexDigit(s[i])
  }

  /** The runs of the pattern, in order. */
  const UuidGroups: seq<nat> := [8, 4, 4, 4, 12]

  /** The whole of `s` matches `[\da-f]{g0}-[\da-f]{g1}-...-[\da-f]{gk}`. */
  predicate MatchesGroups(s: string, groups: seq<nat>)
    decreases |groups|
  {
    if |groups| == 0 then false
    else if |groups| == 1 then |s| == groups[0] && AllHex(s)
    else
      |s| > groups[0] && AllHex(s[..groups[0]]) && s[groups[0]] == '-'
      && MatchesGroups(s[groups[0] + 1..], groups[1..])
  }

  predicate ValidateUUID(s: string)
  {
    MatchesGroups(s, UuidGroups)
  }

  /** The indices at which the pattern puts a '-'. */
  predicate IsDashIndex(i: int)
  {
    i == 8 || i == 13 || i == 18 || i == 23
  }

  /** Position-by-position reading of the pattern. */
  predicate UuidShape(s: string)
  {
    |s| == 36 && forall i :: 0 <= i < 36 ==> if IsDashIndex(i) then s[i] == '-' else IsHexDigit(s[i])
  }

  /** After one `[\da-f]{g}-` step of the pattern, the first `g`
      characters are hex digits and the rest of the string is the part the
      next step reads, shifted by `g + 1`. */
  lemma {:induction false} StepShape(s: string, g: nat)
    requires |s| > g && AllHex(s[..g]) && s[g] == '-'
    ensures forall i :: 0 <= i < g ==> IsHexDigit(s[i])
    ensures forall i :: g + 1 <= i < |s| ==> s[i] == s[g + 1..][i - g - 1]
  {
    forall i | 0 <= i < g ensures IsHexDigit(s[i]) {
      assert s[i] == s[..g][i];
    }
  }

  /** The pattern accepts exactly the strings of length 36 with '-' at
      indices 8, 13, 18 and 23 and a lower-case hex digit everywhere else. */
  lemma {:induction false} ValidateUUIDShape(s: string)
    ensures ValidateUUID(s) <==> UuidShape(s)
  {
    if ValidateUUID(s) {
      var s1 := s[9..];
      var s2 := s1[5..];
      var s3 := s2[5..];
      var s4 := s3[5..];
      assert MatchesGroups(s1, [4, 4, 4, 12]);
      assert MatchesGroups(s2, [4, 4, 12]);
      assert MatchesGroups(s3, [4, 12]);
      assert MatchesGroups(s4, [12]);
      StepShape(s, 8);
      StepShape(s1, 4);
      StepShape(s2, 4);
      StepShape(s3, 4);
      assert |s| == 36;
      forall i | 0 <= i < 36
        ensures if IsDashIndex(i) then s[i] == '-' else IsHexDigit(s[i])
      {
        if i < 8 {
        } else if i == 8 {
        } else if i < 13 {
          assert s[i] == s1[i - 9];
        } else if i == 13 {
          assert s[i] == s1[4];
        } else if i < 18 {
          assert s[i] == s2[i - 14];
        } else if i == 18 {
          assert s[i] == s2[4];
        } else if i < 23 {
          assert s[i] == s3[i - 19];
        } else if i == 23 {
          assert s[i] == s3[4];
        } else {
          assert s[i] == s4[i - 24];
        }
      }
    }
    if UuidShape(s) {
      var s1 := s[9..];
      var s2 := s1[5..];
      var s3 := s2[5..];
      var s4 := s3[5..];
      assert AllHex(s4) by {
        forall i | 0 <= i < |s4| ensures IsHexDigit(s4[i]) { assert s4[i] == s[i + 24]; }
      }
      assert MatchesGroups(s4, [12]);
      assert AllHex(s3[..4]) by {
        forall i | 0 <= i < 4 ensures IsHexDigit(s3[..4][i]) { assert s3[..4][i] == s[i + 19]; }
      }
      assert s3[4] == s[23];
      assert [4, 12][1..] == [12];
      assert MatchesGroups(s3, [4, 12]);
      assert AllHex(s2[..4]) by {
        forall i | 0 <= i < 4 ensures IsHexDigit(s2[..4][i]) { assert s2[..4][i] == s[i + 14]; }
      }
      assert s2[4] == s[18];
      assert [4, 4, 12][1..] == [4, 12];
      assert MatchesGroups(s2, [4, 4, 12]);
      assert AllHex(s1[..4]) by {
        forall i | 0 <= i < 4 ensures IsHexDigit(s1[..4][i]) { assert s1[..4][i] == s[i + 9]; }
      }
      assert s1[4] == s[13];
      assert [4, 4, 4, 12][1..] == [4, 4, 12];
      assert MatchesGroups(s1, [4, 4, 4, 12]);
      assert AllHex(s[..8]) by {
        forall i | 0 <= i < 8 ensures IsHexDigit(s[..8][i]) { assert s[..8][i] == s[i]; }
      }
      assert UuidGroups[1..] == [4, 4, 4, 12];
    }
  }

  /** Every accepted string is 36 characters long and holds no '/'. */
  lemma ValidUuidLength(s: string)
    requires ValidateUUID(s)
    ensures |s| == 36
    ensures forall i :: 0 <= i < |s| ==> s[i] != '/'
  {
    ValidateUUIDShape(s);
  }

  /** Upper-case hex digits are rejected wherever they stand. */
  lemma UpperCaseRejected(s: string, i: nat)
    requires i < |s| && 'A' <= s[i] <= 'F'
    ensures !ValidateUUID(s)
  {
    ValidateUUIDShape(s);
  }

  /** The fixed UUID of the tests is accepted. */
  lemma TestUuidAccepted()
    ensures ValidateUUID("6ae109bd-a2c4-4a6c-a3b2-c9d9169330f0")
  {
    var s := "6ae109bd-a2c4-4a6c-a3b2-c9d9169330f0";
    ValidateUUIDShape(s);
    assert UuidShape(s);
  }

  /** Neither the version nibble (index 14) nor the variant nibble (index
      19) is checked: any hex digits may stand there. */
  lemma NibblesUnchecked(s: string, version: char, variant: char)
    requires ValidateUUID(s) && IsHexDigit(version) && IsHexDigit(variant)
    ensures ValidateUUID(s[14 := version][19 := variant])
  {
    ValidateUUIDShape(s);
    ValidateUUIDShape(s[14 := version][19 := variant]);
  }

  lemma InvalidRejected()
    ensures !ValidateUUID("invalid")
  {
    ValidateUUIDShape("invalid");
  }
}
