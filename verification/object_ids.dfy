/**
 * How a poll id sent by a client becomes a stored document key. Stored keys are ObjectIds,
 * written as 24 lower-case hexadecimal digits; a sent string of 24 hexadecimal digits in any
 * letter case is converted to the key with the same digits, and any other string fails to convert.
 */
module ObjectIds {
  import opened Results

  predicate IsHexDigit(c: char)
  {
    '0' <= c <= '9' || 'a' <= c <= 'f' || 'A' <= c <= 'F'
  }

  /** The lower-case form of a hexadecimal letter; other characters are unchanged. */
  function LowerHex(c: char): char
  {
    if 'A' <= c <= 'F' then (c as int - 'A' as int + 'a' as int) as char else c
  }

  /** The text of a stored document key: 24 lower-case hexadecimal digits. */
  predicate IsObjectIdText(k: string)
  {
    && |k| == 24
    && forall i :: 0 <= i < |k| ==> ('0' <= k[i] <= '9' || 'a' <= k[i] <= 'f')
  }

  /** `id` names the key `k`: the same hexadecimal digits, letters in either case. */
  predicate SameObjectId(id: string, k: string)
  {
    && |id| == |k|
    && forall i :: 0 <= i < |id| ==> IsHexDigit(id[i]) && LowerHex(id[i]) == k[i]
  }

  /** Every character of `s` is a hexadecimal digit. */
  function AllHex(s: string): (b: bool)
    ensures b <==> forall i :: 0 <= i < |s| ==> IsHexDigit(s[i])
  {
    |s| == 0 || (IsHexDigit(s[0]) && AllHex(s[1..]))
  }

  /** `s` with every hexadecimal letter in lower case. */
  function LowerAll(s: string): (t: string)
    ensures |t| == |s|
    ensures forall i :: 0 <= i < |s| ==> t[i] == LowerHex(s[i])
  {
    if |s| == 0 then [] else [LowerHex(s[0])] + LowerAll(s[1..])
  }

  /** The conversion of a sent id to a document key; `None` is the cast error. */
  function Canon(id: string): (k: Option<string>)
    ensures k.Some? <==> |id| == 24 && forall i :: 0 <= i < |id| ==> IsHexDigit(id[i])
    ensures k.Some? ==> IsObjectIdText(k.value) && SameObjectId(id, k.value)
  {
    if |id| == 24 && AllHex(id) then Some(LowerAll(id)) else None
  }

  /** Every spelling of a key, in any letter case, converts to that key and to no other. */
  lemma CanonFindsEveryCasing(id: string, k: string)
    requires IsObjectIdText(k)
    ensures Canon(id) == Some(k) <==> SameObjectId(id, k)
  {
    if SameObjectId(id, k) {
      assert LowerAll(id) == k;
    }
  }

  /** An upper-case id converts to the lower-case key with the same digits. */
  lemma UpperCaseIdExample()
    ensures Canon("65A1F0C2E4B0A1B2C3D4E5F6") == Some("65a1f0c2e4b0a1b2c3d4e5f6")
  {
    var id := "65A1F0C2E4B0A1B2C3D4E5F6";
    var k := "65a1f0c2e4b0a1b2c3d4e5f6";
    assert IsObjectIdText(k) by {
      forall i | 0 <= i < |k| ensures '0' <= k[i] <= '9' || 'a' <= k[i] <= 'f' {
      }
    }
    assert SameObjectId(id, k) by {
      forall i | 0 <= i < |id| ensures IsHexDigit(id[i]) && LowerHex(id[i]) == k[i] {
      }
    }
    CanonFindsEveryCasing(id, k);
  }
}
