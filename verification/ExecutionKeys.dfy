/** When two requests share a dedupe key, in terms of what they ask for. */
module ExecutionKeys {
  import opened Basics
  import opened Text
  import opened ExecutionModel

  // ---- Amounts ----

  /** The amount in units of 0.00000001, its sign left off, is nearest to the number, halves going up. */
  predicate Rounds(x: real, n: nat) {
    var units := 100000000.0 * (if x < 0.0 then -x else x);
    n as real - 0.5 <= units < n as real + 0.5
  }

  /** Both nothing, or both something of one sign that rounds to the same eight decimals. */
  ghost predicate SameAmount(x: real, y: real) {
    if x == 0.0 || y == 0.0 then x == y
    else (x < 0.0 <==> y < 0.0) && exists n :: Rounds(x, n) && Rounds(y, n)
  }

  function Units(x: real): nat {
    (Abs(x) * 100000000.0 + 0.5).Floor
  }

  lemma UnitsAreRounded(x: real)
    ensures forall n :: Rounds(x, n) <==> n == Units(x)
  {
  }

  function UnsignedKey(n: nat): string {
    Decimal(n / 100000000) + "." + Padded(n % 100000000, 8)
  }

  lemma UnsignedKeyStart(n: nat)
    ensures var key := UnsignedKey(n);
      |key| > 1 && '0' <= key[0] <= '9' && '.' in key
  {
    hide Decimal, Padded, DigitsValue;
    DecimalReadsBack(n / 100000000);
    var whole, key := Decimal(n / 100000000), UnsignedKey(n);
    assert key[0] == whole[0] && IsDigit(whole[0]);
    assert key[|whole|] == '.';
  }

  /** Texts of digits on either side of a point determine both. */
  lemma PointSplits(a: string, b: string, c: string, d: string)
    requires AllDigits(a) && AllDigits(c) && a + "." + b == c + "." + d
    ensures a == c && b == d
  {
    var s := a + "." + b;
    assert s[|a|] == '.' && s[|c|] == '.';
    assert forall k | 0 <= k < |a| :: s[k] == a[k] && IsDigit(a[k]);
    assert forall k | 0 <= k < |c| :: s[k] == c[k] && IsDigit(c[k]);
    assert |a| == |c|;
    assert a == s[..|a|] && c == s[..|c|];
    assert b == s[|a| + 1..] && d == s[|c| + 1..];
  }

  lemma UnsignedKeyReads(n: nat, k: nat)
    requires UnsignedKey(n) == UnsignedKey(k)
    ensures n == k
  {
    hide Decimal, Padded, DigitsValue;
    DecimalReadsBack(n / 100000000);
    DecimalReadsBack(k / 100000000);
    PointSplits(Decimal(n / 100000000), Padded(n % 100000000, 8), Decimal(k / 100000000), Padded(k % 100000000, 8));
    PaddedReads(n % 100000000, k % 100000000);
  }

  lemma PaddedReads(n: nat, k: nat)
    requires Padded(n, 8) == Padded(k, 8)
    ensures n == k
  {
    hide Padded, SequenceAfter;
    SequenceReadsBack("", n, 8);
    SequenceReadsBack("", k, 8);
  }

  lemma FloatKeyIs(x: real)
    ensures FormatFloatKey(x) == if x == 0.0 then "0" else (if x < 0.0 then "-" else "") + UnsignedKey(Units(x))
  {
    hide Decimal, Padded;
  }

  /** Two amounts are written alike in the key exactly when they agree to eight decimals. */
  lemma FloatKeyIffSameAmount(x: real, y: real)
    ensures FormatFloatKey(x) == FormatFloatKey(y) <==> SameAmount(x, y)
  {
    FloatKeyIs(x);
    FloatKeyIs(y);
    UnitsAreRounded(x);
    UnitsAreRounded(y);
    UnsignedKeyStart(Units(x));
    UnsignedKeyStart(Units(y));
    hide FormatFloatKey, UnsignedKey, Rounds, Units;
    var a, b := UnsignedKey(Units(x)), UnsignedKey(Units(y));
    if x != 0.0 && y != 0.0 {
      if x < 0.0 && y < 0.0 {
        assert ("-" + a)[1..] == a && ("-" + b)[1..] == b;
      } else if x < 0.0 || y < 0.0 {
        assert ("-" + a)[0] == '-' && ("-" + b)[0] == '-';
      }
      if a == b {
        UnsignedKeyReads(Units(x), Units(y));
      }
      assert "" + a == a && "" + b == b;
      assert Rounds(x, Units(x)) && Rounds(y, Units(y));
    }
  }

  /** Amounts at least 0.00000001 apart are never taken for the same. */
  lemma ApartIsNotSame(x: real, y: real)
    requires x - y >= 0.00000001 || y - x >= 0.00000001
    ensures FormatFloatKey(x) != FormatFloatKey(y)
  {
    hide FormatFloatKey;
    FloatKeyIffSameAmount(x, y);
  }

  // ---- Requests ----

  /** The two ask for the same on behalf of the same trader: text for text up to case and padding, amount for amount
      to eight decimals. */
  ghost predicate SameRequest(a: Intent, b: Intent) {
    && TrimSpace(a.traderId) == TrimSpace(b.traderId) && Says(a.symbol, TrimSpace(b.symbol))
    && Says(a.side, TrimSpace(b.side)) && Says(a.actionType, TrimSpace(b.actionType))
    && Says(a.orderType, TrimSpace(b.orderType)) && Says(a.tif, TrimSpace(b.tif))
    && SameAmount(a.quantity, b.quantity) && SameAmount(a.limitPrice, b.limitPrice) && SameAmount(a.stopPrice, b.stopPrice)
    && a.increasesExposure == b.increasesExposure && a.reduceOnly == b.reduceOnly
    && TrimSpace(a.localRequestKey) == TrimSpace(b.localRequestKey)
  }

  lemma FoldedAlike(s: string, t: string)
    ensures UpperTrim(s) == UpperTrim(t) <==> Says(s, TrimSpace(t))
    ensures LowerTrim(s) == LowerTrim(t) <==> Says(s, TrimSpace(t))
  {
    FoldingIsSameText(TrimSpace(s), TrimSpace(t));
  }

  lemma PartsAgreeIffSameRequest(a: Intent, b: Intent)
    ensures KeyParts(a) == KeyParts(b) <==> SameRequest(a, b)
  {
    FoldedAlike(a.symbol, b.symbol);
    FoldedAlike(a.side, b.side);
    FoldedAlike(a.actionType, b.actionType);
    FoldedAlike(a.orderType, b.orderType);
    FoldedAlike(a.tif, b.tif);
    FloatKeyIffSameAmount(a.quantity, b.quantity);
    FloatKeyIffSameAmount(a.limitPrice, b.limitPrice);
    FloatKeyIffSameAmount(a.stopPrice, b.stopPrice);
    FlagsAlike(a, b);
    hide FormatFloatKey, UpperTrim, LowerTrim, TrimSpace, Says, SameAmount, BoolKey;
    TwelveParts(KeyParts(a), KeyParts(b));
  }

  lemma FlagsAlike(a: Intent, b: Intent)
    ensures BoolKey(a.increasesExposure) == BoolKey(b.increasesExposure) <==> a.increasesExposure == b.increasesExposure
    ensures BoolKey(a.reduceOnly) == BoolKey(b.reduceOnly) <==> a.reduceOnly == b.reduceOnly
  {
    assert "1"[0] != "0"[0];
  }

  lemma TwelveParts(p: seq<string>, q: seq<string>)
    requires |p| == |q| == 12
    ensures p == q <==> && p[0] == q[0] && p[1] == q[1] && p[2] == q[2] && p[3] == q[3] && p[4] == q[4] && p[5] == q[5]
                        && p[6] == q[6] && p[7] == q[7] && p[8] == q[8] && p[9] == q[9] && p[10] == q[10] && p[11] == q[11]
  {
  }

  /** Two requests share a dedupe key exactly when they ask for the same, as long as no text in them contains the
      separator. */
  lemma SameKeyIffSameRequest(a: Intent, b: Intent)
    requires PlainIntent(a) && PlainIntent(b)
    ensures BuildDedupeKey(a) == BuildDedupeKey(b) <==> SameRequest(a, b)
  {
    hide BuildDedupeKey, KeyParts, SameRequest, PlainIntent;
    SameKeyMeansSameParts(a, b);
    PartsAgreeIffSameRequest(a, b);
  }

  /** How amounts and flags are written. */
  lemma KeyTexts()
    ensures FormatFloatKey(0.0) == "0" && FormatFloatKey(7.0) == "7.00000000" && FormatFloatKey(-0.5) == "-0.50000000"
    ensures BoolKey(true) == "1" && BoolKey(false) == "0"
  {
    hide Padded;
    assert Decimal(7) == "7" && Decimal(0) == "0";
    PaddedZero();
    PaddedHalf();
  }

  lemma PaddedZero()
    ensures Padded(0, 8) == "00000000"
  {
    assert Decimal(0) == "0";
    assert seq(7, _ => '0') == "0000000";
  }

  lemma PaddedHalf()
    ensures Padded(50000000, 8) == "50000000"
  {
    assert Decimal(5000) == "5000" by { assert Decimal(50) == "50"; }
    assert Decimal(500000) == "500000" by { assert Decimal(50000) == "50000"; }
    assert Decimal(5000000) == "5000000";
    assert Decimal(50000000) == "50000000";
    assert seq(0, _ => '0') == "";
  }
}
