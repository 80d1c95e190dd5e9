/** The order-id formatter shown on order pages. */
module Formatters {
  import opened Text

  /** How many characters of the id are kept. */
  const KeptChars: nat := 8

  function Min(a: nat, b: nat): nat
  {
    if a <= b then a else b
  }

  /** `formatOrderId`: "" for a missing id, otherwise "ORD-" followed by the
      first eight characters of the id (all of a shorter id), upper-cased. */
  function FormatOrderId(orderId: string): (r: string)
    ensures orderId == "" ==> r == ""
    ensures orderId != "" ==> |r| == 4 + Min(KeptChars, |orderId|) && r[..4] == "ORD-"
    ensures orderId != "" ==> forall i :: 0 <= i < |r| - 4 ==> r[4 + i] == UpperChar(orderId[i])
  {
    if orderId == "" then ""
    else "ORD-" + Upper(orderId[..Min(KeptChars, |orderId|)])
  }

  /** A formatted id is never longer than 12 characters and never contains a
      lower-case ASCII letter. */
  lemma FormattedIdBounds(orderId: string)
    ensures |FormatOrderId(orderId)| <= 12
    ensures forall i :: 0 <= i < |FormatOrderId(orderId)| ==> !IsLowerAscii(FormatOrderId(orderId)[i])
  {
    if orderId != "" {
      var r := FormatOrderId(orderId);
      forall i | 0 <= i < |r| ensures !IsLowerAscii(r[i]) {
        if i >= 4 {
          assert r[4 + (i - 4)] == UpperChar(orderId[i - 4]);
        } else {
          assert r[..4][i] == r[i];
        }
      }
    }
  }

  /** Ids that agree on their first eight characters up to letter case format
      the same, so different orders can share a displayed id. */
  lemma {:induction false} SameDisplayForSamePrefix(a: string, b: string)
    requires |a| >= KeptChars && |b| >= KeptChars
    requires forall i :: 0 <= i < KeptChars ==> UpperChar(a[i]) == UpperChar(b[i])
    ensures FormatOrderId(a) == FormatOrderId(b)
  {
    var ra, rb := FormatOrderId(a), FormatOrderId(b);
    assert |ra| == |rb| == 12;
    forall i | 0 <= i < 12 ensures ra[i] == rb[i] {
      if i >= 4 {
        assert ra[4 + (i - 4)] == UpperChar(a[i - 4]);
        assert rb[4 + (i - 4)] == UpperChar(b[i - 4]);
      } else {
        assert ra[..4][i] == ra[i] && rb[..4][i] == rb[i];
      }
    }
  }

  /** The formatter is not injective: two different order ids show the same. */
  lemma NotInjective()
    ensures "a1b2c3d4-0001" != "A1B2C3D4-0002"
    ensures FormatOrderId("a1b2c3d4-0001") == FormatOrderId("A1B2C3D4-0002")
  {
    SameDisplayForSamePrefix("a1b2c3d4-0001", "A1B2C3D4-0002");
  }

  /** The formatter is not idempotent: formatting a formatted id prefixes it
      a second time, which changes every id not already starting with "ORD-"
      (such as any id whose first letter is not an O). */
  lemma {:induction false} FormattingTwiceDoublesPrefix(orderId: string)
    requires orderId != ""
    ensures FormatOrderId(FormatOrderId(orderId))[..8] == "ORD-ORD-"
    ensures UpperChar(orderId[0]) != 'O' ==> FormatOrderId(FormatOrderId(orderId)) != FormatOrderId(orderId)
  {
    var once := FormatOrderId(orderId);
    var twice := FormatOrderId(once);
    assert |once| >= 5 && |twice| >= 9;
    forall i | 0 <= i < 4 ensures twice[4 + i] == once[i] {
      assert twice[4 + i] == UpperChar(once[i]);
      assert once[..4][i] == once[i];
    }
    assert twice[..4] == "ORD-";
    assert twice[..8] == twice[..4] + once[..4];
    assert once[4] == UpperChar(orderId[0]);
    assert twice[4] == 'O';
  }

  /** An id already of the form "ORD-ORD-…" in upper case is left as it is. */
  lemma PrefixedIdIsFixedPoint()
    ensures FormatOrderId("ORD-ORD-ORD-") == "ORD-ORD-ORD-"
  {
    assert "ORD-ORD-ORD-"[..8] == "ORD-ORD-";
    assert Upper("ORD-ORD-") == "ORD-ORD-";
  }
}
