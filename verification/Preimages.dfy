/** The bytes a trader signs, on-chain and off-chain, and why they identify an order. */
module Preimages {
  import opened Types

  // "solana-spot-exchange-lab/order/v1"
  const TAG: seq<Byte> :=
    [115, 111, 108, 97, 110, 97, 45, 115, 112, 111, 116, 45, 101, 120, 99, 104, 97, 110, 103, 101, 45, 108, 97, 98,
     47, 111, 114, 100, 101, 114, 47, 118, 49]

  function Power256(n: nat): (r: nat)
    ensures r > 0
  {
    if n == 0 then 1 else 256 * Power256(n - 1)
  }

  function LittleEndian(x: nat, n: nat): (bytes: seq<Byte>)
    ensures |bytes| == n
  {
    if n == 0 then [] else [x % 256] + LittleEndian(x / 256, n - 1)
  }

  function FromLittleEndian(bytes: seq<Byte>): nat {
    if bytes == [] then 0 else bytes[0] + 256 * FromLittleEndian(bytes[1..])
  }

  /** Decoding undoes encoding for every number that fits in n bytes. */
  lemma {:induction false} LittleEndianRoundTrip(x: nat, n: nat)
    requires x < Power256(n)
    ensures FromLittleEndian(LittleEndian(x, n)) == x
  {
    if n > 0 {
      LittleEndianRoundTrip(x / 256, n - 1);
      assert LittleEndian(x, n)[1..] == LittleEndian(x / 256, n - 1);
    }
  }

  lemma {:induction false} SameBytesSameNumber(x: nat, y: nat, n: nat)
    requires x < Power256(n) && y < Power256(n)
    requires LittleEndian(x, n) == LittleEndian(y, n)
    ensures x == y
  {
    LittleEndianRoundTrip(x, n);
    LittleEndianRoundTrip(y, n);
  }

  lemma Widths()
    ensures Power256(4) == 0x1_0000_0000 && Power256(8) == TWO_64 && Power256(16) == TWO_128
  {
    assert Power256(4) == 256 * (256 * (256 * (256 * Power256(0))));
    assert Power256(8) == 256 * (256 * (256 * (256 * Power256(4))));
    assert Power256(12) == 256 * (256 * (256 * (256 * Power256(8))));
    assert Power256(16) == 256 * (256 * (256 * (256 * Power256(12))));
  }

  function SideTag(side: Side): Byte {
    match side case Bid => 0 case Ask => 1
  }

  // The order as the settlement program sees it.
  datatype SignedOrderPayload = SignedOrderPayload(
    orderId: U64,
    market: Pubkey,
    trader: Pubkey,
    side: Side,
    price: U64,
    quantity: U64,
    nonce: U64,
    expirySlot: U64)

  function Tail(side: Side, price: U64, quantity: U64, nonce: U64, expirySlot: U64): (bytes: seq<Byte>)
    ensures |bytes| == 33
  {
    [SideTag(side)] + (LittleEndian(price, 8) + (LittleEndian(quantity, 8)
    + (LittleEndian(nonce, 8) + LittleEndian(expirySlot, 8))))
  }

  function Preimage(o: SignedOrderPayload): (bytes: seq<Byte>)
    ensures |bytes| == 138
  {
    TAG + (LittleEndian(o.orderId, 8)
    + (o.trader + (o.market + Tail(o.side, o.price, o.quantity, o.nonce, o.expirySlot))))
  }

  // The order as the exchange sees it.
  datatype OrderIntent = OrderIntent(
    orderId: OrderId,
    trader: TraderId,
    market: MarketId,
    side: Side,
    price: Price,
    quantity: Quantity,
    nonce: OrderSequence,
    expirySlot: OrderSequence)

  function IntentPreimage(o: OrderIntent): (bytes: seq<Byte>)
    ensures |bytes| == 94
  {
    TAG + (LittleEndian(o.orderId, 16) + (LittleEndian(o.trader, 8)
    + (LittleEndian(o.market, 4) + Tail(o.side, o.price, o.quantity, o.nonce, o.expirySlot))))
  }

  method SigningPreimage(o: SignedOrderPayload) returns (bytes: seq<Byte>)
    ensures bytes == Preimage(o)
  {
    bytes := TAG;
    bytes := bytes + LittleEndian(o.orderId, 8);
    bytes := bytes + o.trader;
    bytes := bytes + o.market;
    bytes := bytes + [SideTag(o.side)];
    bytes := bytes + LittleEndian(o.price, 8);
    bytes := bytes + LittleEndian(o.quantity, 8);
    bytes := bytes + LittleEndian(o.nonce, 8);
    bytes := bytes + LittleEndian(o.expirySlot, 8);
  }

  method IntentSigningPreimage(o: OrderIntent) returns (bytes: seq<Byte>)
    ensures bytes == IntentPreimage(o)
  {
    bytes := TAG;
    bytes := bytes + LittleEndian(o.orderId, 16);
    bytes := bytes + LittleEndian(o.trader, 8);
    bytes := bytes + LittleEndian(o.market, 4);
    bytes := bytes + [SideTag(o.side)];
    bytes := bytes + LittleEndian(o.price, 8);
    bytes := bytes + LittleEndian(o.quantity, 8);
    bytes := bytes + LittleEndian(o.nonce, 8);
    bytes := bytes + LittleEndian(o.expirySlot, 8);
  }

  lemma SplitEqual(a: seq<Byte>, b: seq<Byte>, c: seq<Byte>, d: seq<Byte>)
    requires |a| == |c| && a + b == c + d
    ensures a == c && b == d
  {
    assert a == (a + b)[..|a|] && c == (c + d)[..|a|];
    assert b == (a + b)[|a|..] && d == (c + d)[|a|..];
  }

  lemma TailInjective(s: Side, p: U64, q: U64, n: U64, e: U64, s': Side, p': U64, q': U64, n': U64, e': U64)
    requires Tail(s, p, q, n, e) == Tail(s', p', q', n', e')
    ensures s == s' && p == p' && q == q' && n == n' && e == e'
  {
    Widths();
    var r4, r4' := LittleEndian(n, 8) + LittleEndian(e, 8), LittleEndian(n', 8) + LittleEndian(e', 8);
    var r3, r3' := LittleEndian(q, 8) + r4, LittleEndian(q', 8) + r4';
    var r2, r2' := LittleEndian(p, 8) + r3, LittleEndian(p', 8) + r3';
    SplitEqual([SideTag(s)], r2, [SideTag(s')], r2');
    SplitEqual(LittleEndian(p, 8), r3, LittleEndian(p', 8), r3');
    SplitEqual(LittleEndian(q, 8), r4, LittleEndian(q', 8), r4');
    SplitEqual(LittleEndian(n, 8), LittleEndian(e, 8), LittleEndian(n', 8), LittleEndian(e', 8));
    assert [SideTag(s)][0] == [SideTag(s')][0];
    SameBytesSameNumber(p, p', 8);
    SameBytesSameNumber(q, q', 8);
    SameBytesSameNumber(n, n', 8);
    SameBytesSameNumber(e, e', 8);
  }

  /** Two signed orders with the same bytes agree in every field. */
  lemma PreimageInjective(a: SignedOrderPayload, b: SignedOrderPayload)
    requires Preimage(a) == Preimage(b)
    ensures a == b
  {
    Widths();
    var ta := Tail(a.side, a.price, a.quantity, a.nonce, a.expirySlot);
    var tb := Tail(b.side, b.price, b.quantity, b.nonce, b.expirySlot);
    var ra, rb := a.trader + (a.market + ta), b.trader + (b.market + tb);
    SplitEqual(TAG, LittleEndian(a.orderId, 8) + ra, TAG, LittleEndian(b.orderId, 8) + rb);
    SplitEqual(LittleEndian(a.orderId, 8), ra, LittleEndian(b.orderId, 8), rb);
    SplitEqual(a.trader, a.market + ta, b.trader, b.market + tb);
    SplitEqual(a.market, ta, b.market, tb);
    SameBytesSameNumber(a.orderId, b.orderId, 8);
    TailInjective(a.side, a.price, a.quantity, a.nonce, a.expirySlot,
                  b.side, b.price, b.quantity, b.nonce, b.expirySlot);
  }

  lemma IntentPreimageInjective(a: OrderIntent, b: OrderIntent)
    requires IntentPreimage(a) == IntentPreimage(b)
    ensures a == b
  {
    Widths();
    var ta := Tail(a.side, a.price, a.quantity, a.nonce, a.expirySlot);
    var tb := Tail(b.side, b.price, b.quantity, b.nonce, b.expirySlot);
    var ma, mb := LittleEndian(a.market, 4) + ta, LittleEndian(b.market, 4) + tb;
    var ra, rb := LittleEndian(a.trader, 8) + ma, LittleEndian(b.trader, 8) + mb;
    SplitEqual(TAG, LittleEndian(a.orderId, 16) + ra, TAG, LittleEndian(b.orderId, 16) + rb);
    SplitEqual(LittleEndian(a.orderId, 16), ra, LittleEndian(b.orderId, 16), rb);
    SplitEqual(LittleEndian(a.trader, 8), ma, LittleEndian(b.trader, 8), mb);
    SplitEqual(LittleEndian(a.market, 4), ta, LittleEndian(b.market, 4), tb);
    SameBytesSameNumber(a.orderId, b.orderId, 16);
    SameBytesSameNumber(a.trader, b.trader, 8);
    SameBytesSameNumber(a.market, b.market, 4);
    TailInjective(a.side, a.price, a.quantity, a.nonce, a.expirySlot,
                  b.side, b.price, b.quantity, b.nonce, b.expirySlot);
  }

  /** A signature over one layout can never be read as the other, although both start with the same tag. */
  lemma LayoutsNeverCoincide(a: SignedOrderPayload, b: OrderIntent)
    ensures Preimage(a) != IntentPreimage(b)
  {
    assert |Preimage(a)| == 138 && |IntentPreimage(b)| == 94;
  }

  // From `at` on lie the digits of x to base 256, the lowest first, and reading them gives x.
  predicate Holds(bytes: seq<Byte>, at: nat, width: nat, x: nat) {
    && at + width <= |bytes|
    && (forall k: nat | k < width :: bytes[at + k] == x / Power256(k) % 256)
    && FromLittleEndian(bytes[at..at + width]) == x
  }

  lemma {:induction false} DigitAt(x: nat, n: nat, k: nat)
    requires k < n
    ensures LittleEndian(x, n)[k] == x / Power256(k) % 256
  {
    if k > 0 {
      DigitAt(x / 256, n - 1, k - 1);
      DivideTwice(x, Power256(k - 1));
    }
  }

  lemma DivideTwice(x: nat, d: nat)
    requires d > 0
    ensures x / 256 / d == x / (256 * d)
  {
    var q, r := x / 256 / d, x / 256 % d;
    assert x / 256 == d * q + r;
    assert 256 * d * q == 256 * (d * q);
    QuotientIs(x, 256 * d, q, 256 * r + x % 256);
  }

  lemma QuotientIs(x: nat, d: nat, q: nat, r: nat)
    requires r < d && x == d * q + r
    ensures x / d == q
  {
    var e := x / d;
    assert d * (e - q) == r - x % d by {
      assert x == d * e + x % d && d * (e - q) == d * e - d * q;
    }
    if e != q {
      MultipleIsFar(d, e - q);
    }
  }

  lemma MultipleIsFar(d: int, k: int)
    requires d >= 0 && k != 0
    ensures d * k >= d || d * k <= -d
  {
    if k > 0 {
      assert d * (k - 1) >= 0;
    } else {
      assert d * (-1 - k) >= 0;
    }
  }

  // What lies in the middle of three parts.
  lemma {:induction false} MiddleHolds(front: seq<Byte>, back: seq<Byte>, x: nat, n: nat)
    requires x < Power256(n)
    ensures Holds(front + (LittleEndian(x, n) + back), |front|, n, x)
  {
    var digits := LittleEndian(x, n);
    var bytes := front + (digits + back);
    assert bytes[|front|..|front| + n] == digits;
    LittleEndianRoundTrip(x, n);
    forall k: nat | k < n ensures bytes[|front| + k] == x / Power256(k) % 256 {
      DigitAt(x, n, k);
      assert bytes[|front| + k] == digits[k];
    }
  }

  // The tag as text, one byte per character.
  predicate HoldsText(bytes: seq<Byte>, text: string) {
    |text| <= |bytes| && forall k | 0 <= k < |text| :: bytes[k] == text[k] as int
  }

  // Side, price, quantity, nonce and expiry, from the given place on.
  predicate HoldsTail(bytes: seq<Byte>, at: nat, side: Side, price: U64, quantity: U64, nonce: U64, expirySlot: U64) {
    && at + 33 == |bytes|
    && bytes[at] == (if side == Bid then 0 else 1)
    && Holds(bytes, at + 1, 8, price) && Holds(bytes, at + 9, 8, quantity)
    && Holds(bytes, at + 17, 8, nonce) && Holds(bytes, at + 25, 8, expirySlot)
  }

  lemma Regroup(a: seq<Byte>, b: seq<Byte>, c: seq<Byte>)
    ensures a + (b + c) == (a + b) + c
  {
  }

  lemma TailLayout(front: seq<Byte>, side: Side, price: U64, quantity: U64, nonce: U64, expirySlot: U64)
    ensures HoldsTail(front + Tail(side, price, quantity, nonce, expirySlot), |front|,
                      side, price, quantity, nonce, expirySlot)
  {
    Widths();
    var bytes := front + Tail(side, price, quantity, nonce, expirySlot);
    var p, q, n, e := LittleEndian(price, 8), LittleEndian(quantity, 8), LittleEndian(nonce, 8),
                      LittleEndian(expirySlot, 8);
    var f1 := front + [SideTag(side)];
    Regroup(front, [SideTag(side)], p + (q + (n + e)));
    Regroup(f1, p, q + (n + e));
    Regroup(f1 + p, q, n + e);
    Regroup(f1 + p + q, n, e);
    assert e + [] == e;
    MiddleHolds(f1, q + (n + e), price, 8);
    MiddleHolds(f1 + p, n + e, quantity, 8);
    MiddleHolds(f1 + p + q, e, nonce, 8);
    MiddleHolds(f1 + p + q + n, [], expirySlot, 8);
  }

  /** The 138 bytes a trader signs for the settlement program, field by field. */
  lemma PreimageLayout(o: SignedOrderPayload)
    ensures var bytes := Preimage(o);
            && |bytes| == 138
            && HoldsText(bytes, "solana-spot-exchange-lab/order/v1")
            && Holds(bytes, 33, 8, o.orderId) && bytes[41..73] == o.trader && bytes[73..105] == o.market
            && HoldsTail(bytes, 105, o.side, o.price, o.quantity, o.nonce, o.expirySlot)
  {
    Widths();
    var bytes, id := Preimage(o), LittleEndian(o.orderId, 8);
    var tail := Tail(o.side, o.price, o.quantity, o.nonce, o.expirySlot);
    MiddleHolds(TAG, o.trader + (o.market + tail), o.orderId, 8);
    Regroup(TAG, id, o.trader + (o.market + tail));
    Regroup(TAG + id, o.trader, o.market + tail);
    Regroup(TAG + id + o.trader, o.market, tail);
    Slices(TAG + id, o.trader, o.market, tail);
    TailLayout(TAG + id + o.trader + o.market, o.side, o.price, o.quantity, o.nonce, o.expirySlot);
    TagIsText(id + (o.trader + (o.market + tail)));
  }

  lemma Slices(a: seq<Byte>, b: seq<Byte>, c: seq<Byte>, d: seq<Byte>)
    ensures (a + b + c + d)[|a|..|a| + |b|] == b
    ensures (a + b + c + d)[|a| + |b|..|a| + |b| + |c|] == c
  {
  }

  lemma TagIsText(rest: seq<Byte>)
    ensures HoldsText(TAG + rest, "solana-spot-exchange-lab/order/v1")
  {
  }

  /** The 94 bytes of the exchange's own order intent, field by field. */
  lemma IntentLayout(o: OrderIntent)
    ensures var bytes := IntentPreimage(o);
            && |bytes| == 94
            && HoldsText(bytes, "solana-spot-exchange-lab/order/v1")
            && Holds(bytes, 33, 16, o.orderId) && Holds(bytes, 49, 8, o.trader) && Holds(bytes, 57, 4, o.market)
            && HoldsTail(bytes, 61, o.side, o.price, o.quantity, o.nonce, o.expirySlot)
  {
    Widths();
    var id, t, m := LittleEndian(o.orderId, 16), LittleEndian(o.trader, 8), LittleEndian(o.market, 4);
    var tail := Tail(o.side, o.price, o.quantity, o.nonce, o.expirySlot);
    Regroup(TAG, id, t + (m + tail));
    Regroup(TAG + id, t, m + tail);
    Regroup(TAG + id + t, m, tail);
    MiddleHolds(TAG, t + (m + tail), o.orderId, 16);
    MiddleHolds(TAG + id, m + tail, o.trader, 8);
    MiddleHolds(TAG + id + t, tail, o.market, 4);
    TailLayout(TAG + id + t + m, o.side, o.price, o.quantity, o.nonce, o.expirySlot);
    TagIsText(id + (t + (m + tail)));
  }
}
