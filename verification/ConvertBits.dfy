/** Regrouping a list of bit groups into groups of another width
    (btpay/bitcoin/xpub.py, `_convertbits`). The specification flattens the input to
    one stream of bits and cuts it again; the loop keeps an accumulator that is
    never masked and a count of its unread low bits. */
module ConvertBits {
  import opened Arithmetic
  import opened Bits
  import opened Wrappers

  /** The w low bits of v, most significant first. */
  function BitsOf(v: nat, w: nat): (s: seq<bool>)
    ensures |s| == w
  {
    if w == 0 then [] else BitsOf(v / 2, w - 1) + [v % 2 == 1]
  }

  /** `(acc << w) | v` for a w-bit v. */
  function Join(acc: nat, w: nat, v: nat): nat {
    P2(w) * acc + v
  }

  /** `(acc >> n) & ((1 << w) - 1)`. */
  function Window(acc: nat, n: nat, w: nat): (g: nat)
    ensures g < P2(w)
  {
    DivMod(acc, P2(n));
    DivMod(acc / P2(n), P2(w));
    acc / P2(n) % P2(w)
  }

  function Value(bits: seq<bool>): nat {
    if bits == [] then 0
    else 2 * Value(bits[..|bits| - 1]) + (if bits[|bits| - 1] then 1 else 0)
  }

  function Flatten(data: seq<nat>, w: nat): seq<bool> {
    if data == [] then [] else Flatten(data[..|data| - 1], w) + BitsOf(data[|data| - 1], w)
  }

  /** Every value fits in w bits. */
  predicate Fits(data: seq<nat>, w: nat) {
    forall i :: 0 <= i < |data| ==> data[i] < P2(w)
  }

  function False(n: nat): (z: seq<bool>)
    ensures |z| == n
  {
    seq(n, _ => false)
  }

  /** The full groups of w bits of a stream, from its front. */
  function Groups(bits: seq<bool>, w: nat): seq<nat>
    requires w > 0
    decreases |bits|
  {
    if |bits| < w then [] else [Value(bits[..w])] + Groups(bits[w..], w)
  }

  /** What is left of a stream after its full groups of w bits. */
  function Rest(bits: seq<bool>, w: nat): (r: seq<bool>)
    requires w > 0
    ensures |r| < w
    decreases |bits|
  {
    if |bits| < w then bits else Rest(bits[w..], w)
  }

  /** The value of an unfinished group of w bits, completed with zero bits. */
  function LastValue(rest: seq<bool>, w: nat): nat
    requires |rest| <= w
  {
    Value(rest + False(w - |rest|))
  }

  function Regroup(data: seq<nat>, fromBits: nat, toBits: nat, pad: bool): Result<seq<nat>>
    requires toBits > 0
  {
    var bits := Flatten(data, fromBits);
    var groups, rest := Groups(bits, toBits), Rest(bits, toBits);
    if pad then Ok(if rest == [] then groups else groups + [LastValue(rest, toBits)])
    else if |rest| >= fromBits || LastValue(rest, toBits) != 0 then Error
    else Ok(groups)
  }

  // ---- Bits of sums, quotients and remainders -------------------------------

  lemma {:induction false} BitsOfRemainder(v: nat, w: nat)
    ensures 0 <= v % P2(w) < P2(w) && BitsOf(v % P2(w), w) == BitsOf(v, w)
  {
    DivMod(v, P2(w));
    BitsOfSum(v / P2(w), v % P2(w), w);
  }

  lemma {:induction false} BitsOfSum(q: nat, r: nat, w: nat)
    ensures BitsOf(P2(w) * q + r, w) == BitsOf(r, w)
  {
    if w > 0 {
      Double(P2(w - 1), q);
      HalfOfSum(P2(w - 1) * q, r);
      BitsOfSum(q, r / 2, w - 1);
    }
  }

  /** Shifting v left by w and adding a w-bit value appends its bits. */
  lemma {:induction false} BitsOfJoin(acc: nat, n: nat, v: nat, w: nat)
    requires v < P2(w)
    ensures BitsOf(Join(acc, w, v), n + w) == BitsOf(acc, n) + BitsOf(v, w)
  {
    if w > 0 {
      Double(P2(w - 1), acc);
      HalfOfSum(P2(w - 1) * acc, v);
      BitsOfJoin(acc, n, v / 2, w - 1);
      assert BitsOf(acc, n) + BitsOf(v / 2, w - 1) + [v % 2 == 1] == BitsOf(acc, n) + BitsOf(v, w);
    } else {
      assert BitsOf(acc, n) + [] == BitsOf(acc, n);
    }
  }

  /** Reading w bits off the top of n. */
  lemma {:induction false} BitsOfSplit(acc: nat, n: nat, w: nat)
    ensures 0 <= acc / P2(n) && BitsOf(acc, w + n) == BitsOf(acc / P2(n), w) + BitsOf(acc, n)
    decreases n
  {
    DivMod(acc, P2(n));
    if n > 0 {
      HalfOfQuotient(acc, P2(n - 1));
      BitsOfSplit(acc / 2, n - 1, w);
      var top := BitsOf(acc / P2(n), w);
      assert top + BitsOf(acc / 2, n - 1) + [acc % 2 == 1] == top + BitsOf(acc, n);
    } else {
      assert BitsOf(acc, w) + [] == BitsOf(acc, w);
    }
  }

  lemma {:induction false} ValueOfBits(v: nat, w: nat)
    requires v < P2(w)
    ensures Value(BitsOf(v, w)) == v
  {
    if w > 0 {
      ValueOfBits(v / 2, w - 1);
      assert BitsOf(v, w)[..w - 1] == BitsOf(v / 2, w - 1);
    }
  }

  lemma {:induction false} BitsOfValue(bits: seq<bool>)
    ensures Value(bits) < P2(|bits|)
    ensures BitsOf(Value(bits), |bits|) == bits
  {
    if bits != [] {
      var k := |bits| - 1;
      BitsOfValue(bits[..k]);
      HalfOfSum(Value(bits[..k]), if bits[k] then 1 else 0);
      assert bits == bits[..k] + [bits[k]];
    }
  }

  lemma {:induction false} ZeroValue(bits: seq<bool>)
    ensures Value(bits) == 0 <==> bits == False(|bits|)
  {
    if bits != [] {
      var k := |bits| - 1;
      ZeroValue(bits[..k]);
      assert bits == bits[..k] + [bits[k]];
      assert False(|bits|) == False(k) + [false];
    }
  }

  // ---- Streams --------------------------------------------------------------

  lemma {:induction false} FlattenLength(data: seq<nat>, w: nat)
    ensures |Flatten(data, w)| == w * |data|
  {
    if data != [] {
      FlattenLength(data[..|data| - 1], w);
      assert w * |data| == w * (|data| - 1) + w;
    }
  }

  lemma FlattenPush(data: seq<nat>, v: nat, w: nat)
    ensures Flatten(data + [v], w) == Flatten(data, w) + BitsOf(v, w)
  {
    assert (data + [v])[..|data|] == data;
  }

  lemma CutFirst(head: seq<bool>, tail: seq<bool>, w: nat)
    requires w > 0 && |head| == w
    ensures Groups(head + tail, w) == [Value(head)] + Groups(tail, w)
    ensures Rest(head + tail, w) == Rest(tail, w)
  {
    assert (head + tail)[..w] == head && (head + tail)[w..] == tail;
  }

  /** Cutting a stream of whole groups followed by less than a group. */
  lemma {:induction false} GroupsOfFlatten(data: seq<nat>, r: seq<bool>, w: nat)
    requires w > 0 && |r| < w
    requires Fits(data, w)
    ensures Groups(Flatten(data, w) + r, w) == data
    ensures Rest(Flatten(data, w) + r, w) == r
    decreases |data|
  {
    hide BitsOf, Value;
    if data == [] {
      assert Flatten(data, w) + r == r;
    } else {
      var head, tail := BitsOf(data[0], w), Flatten(data[1..], w) + r;
      FlattenFront(data, w);
      assert Flatten(data, w) + r == head + tail;
      CutFirst(head, tail, w);
      ValueOfBits(data[0], w);
      GroupsOfFlatten(data[1..], r, w);
    }
  }

  lemma Associative(a: seq<bool>, b: seq<bool>, c: seq<bool>)
    ensures (a + b) + c == a + (b + c)
  {
  }

  lemma {:induction false} FlattenFront(data: seq<nat>, w: nat)
    requires data != []
    ensures Flatten(data, w) == BitsOf(data[0], w) + Flatten(data[1..], w)
    decreases |data|
  {
    var k := |data| - 1;
    if k == 0 {
      assert data[..k] == data[1..] == [];
    } else {
      FlattenFront(data[..k], w);
      Associative(BitsOf(data[0], w), Flatten(data[..k][1..], w), BitsOf(data[k], w));
      assert data[1..][..k - 1] == data[..k][1..];
    }
  }

  lemma FitsPush(data: seq<nat>, v: nat, w: nat)
    requires Fits(data, w) && v < P2(w)
    ensures Fits(data + [v], w)
  {
  }

  /** A stream read so far: groups already emitted, then the n unread low bits of acc. */
  ghost predicate Pending(stream: seq<bool>, ret: seq<nat>, w: nat, acc: nat, n: nat) {
    Fits(ret, w) && stream == Flatten(ret, w) + BitsOf(acc, n)
  }

  /** Taking in one more value appends its bits to the unread ones. */
  lemma Absorb(data: seq<nat>, i: nat, w: nat, ret: seq<nat>, u: nat, acc: nat, n: nat)
    requires i < |data| && Fits(data, w) && Pending(Flatten(data[..i], w), ret, u, acc, n)
    ensures Pending(Flatten(data[..i + 1], w), ret, u, Join(acc, w, data[i]), n + w)
  {
    BitsOfJoin(acc, n, data[i], w);
    assert data[..i + 1] == data[..i] + [data[i]];
    FlattenPush(data[..i], data[i], w);
    Associative(Flatten(ret, u), BitsOf(acc, n), BitsOf(data[i], w));
  }

  /** Emitting one group moves the top w unread bits to the output. */
  lemma Emit(stream: seq<bool>, ret: seq<nat>, acc: nat, n: nat, w: nat)
    requires Pending(stream, ret, w, acc, n + w)
    ensures Pending(stream, ret + [Window(acc, n, w)], w, acc, n)
  {
    BitsOfSplit(acc, n, w);
    var top: nat := acc / P2(n);
    BitsOfRemainder(top, w);
    var group := Window(acc, n, w);
    FlattenPush(ret, group, w);
    FitsPush(ret, group, w);
    Associative(Flatten(ret, w), BitsOf(top, w), BitsOf(acc, n));
  }

  // ---- The loop -------------------------------------------------------------

  method Convert(data: seq<nat>, fromBits: nat, toBits: nat, pad: bool) returns (r: Result<seq<nat>>)
    requires fromBits > 0 && toBits > 0
    requires Fits(data, fromBits)
    ensures r == Regroup(data, fromBits, toBits, pad)
  {
    hide Fits, Flatten, Join, Window, Pending, Groups, Rest, LastValue;
    NothingPending(fromBits, toBits);
    assert data[..0] == [];
    var acc: nat, bits: nat, ret: seq<nat> := 0, 0, [];
    for i := 0 to |data|
      invariant bits < toBits && Pending(Flatten(data[..i], fromBits), ret, toBits, acc, bits)
    {
      Absorb(data, i, fromBits, ret, toBits, acc, bits);
      ghost var stream := Flatten(data[..i + 1], fromBits);
      acc := Join(acc, fromBits, data[i]);
      bits := bits + fromBits;
      while bits >= toBits
        invariant Pending(stream, ret, toBits, acc, bits)
      {
        bits := bits - toBits;
        Emit(stream, ret, acc, bits, toBits);
        ret := ret + [Window(acc, bits, toBits)];
      }
    }
    assert data[..|data|] == data;
    Finish(data, fromBits, toBits, ret, acc, bits);
    var last := Window(Join(acc, toBits - bits, 0), 0, toBits);
    if pad {
      if bits != 0 {
        ret := ret + [last];
      }
    } else if bits >= fromBits || last != 0 {
      return Error;
    }
    return Ok(ret);
  }

  lemma NothingPending(fromBits: nat, toBits: nat)
    ensures Pending(Flatten([], fromBits), [], toBits, 0, 0)
  {
  }

  lemma Finish(data: seq<nat>, fromBits: nat, toBits: nat, ret: seq<nat>, acc: nat, n: nat)
    requires n < toBits && Pending(Flatten(data, fromBits), ret, toBits, acc, n)
    ensures Groups(Flatten(data, fromBits), toBits) == ret
    ensures Rest(Flatten(data, fromBits), toBits) == BitsOf(acc, n)
    ensures LastValue(BitsOf(acc, n), toBits) == Window(Join(acc, toBits - n, 0), 0, toBits)
  {
    GroupsOfFlatten(ret, BitsOf(acc, n), toBits);
    LastGroup(acc, n, toBits);
  }

  lemma LowWindow(x: nat, w: nat)
    ensures Value(BitsOf(x, w)) == Window(x, 0, w)
  {
    assert x / 1 == x;
    BitsOfRemainder(x, w);
    ValueOfBits(Window(x, 0, w), w);
  }

  lemma LastGroup(acc: nat, n: nat, w: nat)
    requires n <= w
    ensures Window(Join(acc, w - n, 0), 0, w) == LastValue(BitsOf(acc, n), w)
  {
    hide Join, Window, BitsOf, Value, False;
    BitsOfJoin(acc, n, 0, w - n);
    ZeroBits(w - n);
    LowWindow(Join(acc, w - n, 0), w);
  }

  lemma {:induction false} ZeroBits(w: nat)
    ensures BitsOf(0, w) == False(w)
  {
    if w > 0 {
      ZeroBits(w - 1);
    }
  }

  // ---- Round trip -----------------------------------------------------------

  /** Completing the last group keeps the stream, followed by zero bits. */
  lemma PaddedStream(bits: seq<bool>, w: nat)
    requires w > 0 && Rest(bits, w) != []
    ensures var syms := Groups(bits, w) + [LastValue(Rest(bits, w), w)];
      Fits(syms, w) && Flatten(syms, w) == bits + False(w - |Rest(bits, w)|)
  {
    hide BitsOf, Value, Groups, Rest, Flatten;
    CutAndJoin(bits, w);
    var rest, groups := Rest(bits, w), Groups(bits, w);
    var pad := False(w - |rest|);
    BitsOfValue(rest + pad);
    FlattenPush(groups, Value(rest + pad), w);
    FitsPush(groups, Value(rest + pad), w);
    Associative(Flatten(groups, w), rest, pad);
  }

  /** The five-bit symbols of a list of bytes. */
  function ToFive(data: seq<nat>): seq<nat> {
    Regroup(data, 8, 5, true).value
  }

  lemma ToFiveStream(data: seq<nat>) returns (pad: nat)
    ensures pad < 5 && Fits(ToFive(data), 5)
    ensures Flatten(ToFive(data), 5) == Flatten(data, 8) + False(pad)
  {
    var bits := Flatten(data, 8);
    CutAndJoin(bits, 5);
    if Rest(bits, 5) != [] {
      PaddedStream(bits, 5);
      pad := 5 - |Rest(bits, 5)|;
    } else {
      assert bits + False(0) == bits;
      pad := 0;
    }
  }

  /** Eight-to-five with padding keeps the whole stream, adds fewer than five zero bits
      and never raises. */
  lemma EightToFive(data: seq<nat>)
    ensures Regroup(data, 8, 5, true) == Ok(ToFive(data))
    ensures |ToFive(data)| == (8 * |data| + 4) / 5
    ensures forall i :: 0 <= i < |ToFive(data)| ==> ToFive(data)[i] < 32
    ensures Flatten(data, 8) <= Flatten(ToFive(data), 5)
  {
    var syms := ToFive(data);
    var pad := ToFiveStream(data);
    FlattenLength(data, 8);
    FlattenLength(syms, 5);
    assert 5 * |syms| == 8 * |data| + pad;
    assert P2(5) == 32;
  }

  lemma {:induction false} CutAndJoin(bits: seq<bool>, w: nat)
    requires w > 0
    ensures Flatten(Groups(bits, w), w) + Rest(bits, w) == bits
    ensures Fits(Groups(bits, w), w)
    decreases |bits|
  {
    if |bits| >= w {
      var head, tail := bits[..w], bits[w..];
      assert bits == head + tail;
      CutAndJoin(tail, w);
      CutFirst(head, tail, w);
      BitsOfValue(head);
      FlattenCons(Value(head), Groups(tail, w), w);
      Associative(head, Flatten(Groups(tail, w), w), Rest(tail, w));
    } else {
      assert Flatten([], w) + bits == bits;
    }
  }

  lemma FlattenCons(v: nat, data: seq<nat>, w: nat)
    ensures Flatten([v] + data, w) == BitsOf(v, w) + Flatten(data, w)
  {
    FlattenFront([v] + data, w);
    assert ([v] + data)[1..] == data;
  }

  /** Any bytes come back from the trip to five-bit symbols, and no step raises. */
  lemma RoundTrip(data: seq<nat>)
    requires Fits(data, 8)
    ensures Regroup(data, 8, 5, true) == Ok(ToFive(data))
    ensures Regroup(ToFive(data), 5, 8, false) == Ok(data)
  {
    var pad := ToFiveStream(data);
    GroupsOfFlatten(data, False(pad), 8);
    assert False(pad) + False(8 - pad) == False(8);
    ZeroValue(False(8));
  }
}
