/** BIP 32 derivation from extended public keys (btpay/bitcoin/xpub.py:289-353), and that it
    names the same keys as derivation from the private ones. HMAC-SHA512 is a parameter. */
module KeyDerivation {
  import opened Arithmetic
  import opened Wrappers
  import Addresses
  import opened Base58
  import opened Curve
  import opened CompressedKeys
  import opened Numerals
  import opened Secp256k1
  import Strings

  /** HMAC-SHA512 of a key and a message; `Mac` makes any function one with 64-byte results. */
  type Hmac = (seq<nat>, seq<nat>) -> seq<nat>

  function Mac(h: Hmac, key: seq<nat>, data: seq<nat>): (d: seq<nat>)
    ensures |d| == 64 && Digits(d, 256)
  {
    Digest(m => h(key, m), 64, data)
  }

  const HARDENED: nat := 0x80000000

  /** The fields of `XPubDeriver` that derivation changes. */
  datatype XPub = XPub(pubkey: seq<nat>, chain: seq<nat>, depth: nat)

  /** An extended private key, as BIP 32 defines it. */
  datatype XPrv = XPrv(key: nat, chain: seq<nat>, depth: nat)

  // ---- Public derivation ----------------------------------------------------

  /** The 64 bytes both derivations split. */
  function ChildMac(h: Hmac, chain: seq<nat>, pubkey: seq<nat>, index: nat): (d: seq<nat>)
    ensures |d| == 64 && Digits(d, 256)
  {
    Mac(h, chain, pubkey + Fixed(index, 4))
  }

  /** `derive_child`: hardened indices and those that do not pack into 32 bits raise. */
  ghost function Child(h: Hmac, node: XPub, index: int): Result<XPub> {
    if index < 0 || index >= HARDENED then Error
    else
      var i := ChildMac(h, node.chain, node.pubkey, index);
      if Number(i[..32], 256) >= N then Error
      else
        match TweakAdded(node.pubkey, i[..32])
        case Error => Error
        case Ok(pubkey) => Ok(XPub(pubkey, i[32..], node.depth + 1))
  }

  method DeriveChild(h: Hmac, node: XPub, index: int) returns (r: Result<XPub>)
    ensures r == Child(h, node, index)
  {
    hide Number, ChildMac, TweakAdded;
    if index < 0 || index >= HARDENED {
      return Error;
    }
    var i := ChildMac(h, node.chain, node.pubkey, index);
    var n := Number(i[..32], 256);
    if n >= N {
      return Error;
    }
    var pubkey := TweakAdd(node.pubkey, i[..32]);
    if pubkey.Error? {
      return Error;
    }
    return Ok(XPub(pubkey.value, i[32..], node.depth + 1));
  }

  /** What BIP 32 hashes for a child: the parent's key and the index in four big-endian bytes. */
  ghost predicate IsMessage(msg: seq<nat>, pubkey: seq<nat>, index: nat) {
    |msg| == |pubkey| + 4 && msg[..|pubkey|] == pubkey
    && Digits(msg[|pubkey|..], 256) && Number(msg[|pubkey|..], 256) == index
  }

  /** For an index below 2^31 there is exactly one such message. */
  lemma MessageExists(pubkey: seq<nat>, index: nat) returns (msg: seq<nat>)
    requires index < 0x8000_0000
    ensures IsMessage(msg, pubkey, index) && msg == pubkey + Fixed(index, 4)
    ensures forall other :: IsMessage(other, pubkey, index) ==> other == msg
  {
    FourBytes(index);
    hide Number, Fixed;
    msg := pubkey + Fixed(index, 4);
    assert msg[|pubkey|..] == Fixed(index, 4);
    forall other | IsMessage(other, pubkey, index) ensures other == msg {
      NumberFixed(other[|pubkey|..]);
      assert other == other[..|pubkey|] + other[|pubkey|..];
    }
  }

  lemma FourBytes(index: nat)
    requires index < 0x8000_0000
    ensures Number(Fixed(index, 4), 256) == index && Digits(Fixed(index, 4), 256)
  {
    assert Addresses.Pow(256, 4) == 4294967296;
    hide Number, Fixed;
    FixedNumber(index, 4);
  }

  /** A function value that gives 64 bytes is its own `Mac`. */
  lemma MacOf(h: Hmac, key: seq<nat>, data: seq<nat>)
    requires |h(key, data)| == 64 && Digits(h(key, data), 256)
    ensures Mac(h, key, data) == h(key, data)
  {
    SameDigest(m => h(key, m), 64, data);
  }

  /** BIP 32, "Public parent key -> public child key": from 2^31 on there is no child. Below
      that, with I the hash of the message under the chain code: the left half of I is the
      tweak of the key, the right half the chain code, and the child is one level deeper. */
  lemma ChildExactly(h: Hmac, node: XPub, index: int, msg: seq<nat>)
    requires 0 <= index < 0x8000_0000 ==>
      IsMessage(msg, node.pubkey, index) && |h(node.chain, msg)| == 64 && Digits(h(node.chain, msg), 256)
    ensures !(0 <= index < 0x8000_0000) ==> Child(h, node, index) == Error
    ensures 0 <= index < 0x8000_0000 ==>
      var i := h(node.chain, msg);
      Child(h, node, index) ==
        match TweakAdded(node.pubkey, i[..32])
        case Error => Error
        case Ok(pubkey) => Ok(XPub(pubkey, i[32..], node.depth + 1))
  {
    if 0 <= index < 0x8000_0000 {
      var m := MessageExists(node.pubkey, index);
      MacOf(h, node.chain, m);
      OutOfRange(node.pubkey, h(node.chain, m)[..32]);
      hide Number, Fixed, Mac, TweakAdded;
      assert ChildMac(h, node.chain, node.pubkey, index) == h(node.chain, m);
    }
  }

  /** The node at the end of a path of indices. */
  ghost function Descendant(h: Hmac, node: XPub, path: seq<int>): Result<XPub> {
    if path == [] then Ok(node)
    else
      match Descendant(h, node, path[..|path| - 1])
      case Error => Error
      case Ok(parent) => Child(h, parent, path[|path| - 1])
  }

  lemma {:induction false} ErrorSticks(h: Hmac, root: XPub, path: seq<int>, i: nat)
    requires i <= |path| && Descendant(h, root, path[..i]) == Error
    ensures Descendant(h, root, path) == Error
    decreases |path|
  {
    hide Child;
    if i == |path| {
      assert path[..i] == path;
    } else {
      var front := path[..|path| - 1];
      assert front[..i] == path[..i];
      ErrorSticks(h, root, front, i);
    }
  }

  predicate Hardened(part: string)
    requires part != ""
  {
    part[|part| - 1] in {'\'', 'h'}
  }

  /** The indices that the parts of a path name, empty parts aside; none if a part is hardened
      or no number. */
  function ReadIndices(parts: seq<string>): Option<seq<int>> {
    if parts == [] then Some([])
    else
      var part := Strings.Strip(parts[|parts| - 1]);
      match ReadIndices(parts[..|parts| - 1])
      case None => None
      case Some(front) =>
        if part == "" then Some(front)
        else if Hardened(part) || ReadInt(part).None? then None
        else Some(front + [ReadInt(part).value])
  }

  /** The parts of a path between slashes; there may be more around it. */
  function PathParts(path: string): seq<string> {
    Strings.Split(Strings.StripOff(Strings.Strip(path), c => c == '/'), '/')
  }

  /** `derive_path`. */
  method DerivePath(h: Hmac, root: XPub, path: string) returns (r: Result<XPub>)
    ensures r == match ReadIndices(PathParts(path))
                 case None => Error
                 case Some(indices) => Descendant(h, root, indices)
  {
    hide Child, Descendant, Strings.Strip, ReadInt, PathParts;
    var parts := PathParts(path);
    var node := root;
    ghost var indices: seq<int> := [];
    NoSteps(h, root);
    for i := 0 to |parts|
      invariant ReadIndices(parts[..i]) == Some(indices)
      invariant Descendant(h, root, indices) == Ok(node)
    {
      assert parts[..i + 1][..i] == parts[..i];
      ReadPrefix(parts, i + 1);
      var part := Strings.Strip(parts[i]);
      if part != "" {
        var index := ReadInt(part);
        if Hardened(part) || index.None? {
          return Error;
        }
        var child := DeriveChild(h, node, index.value);
        OneStep(h, root, indices, index.value);
        indices := indices + [index.value];
        if child.Error? {
          Extended(h, root, indices, ReadIndices(parts));
          return Error;
        }
        node := child.value;
      }
    }
    assert parts[..|parts|] == parts;
    return Ok(node);
  }

  lemma NoSteps(h: Hmac, root: XPub)
    ensures Descendant(h, root, []) == Ok(root)
  {
  }

  lemma OneStep(h: Hmac, root: XPub, path: seq<int>, index: int)
    ensures Descendant(h, root, path + [index])
         == match Descendant(h, root, path) case Error => Error case Ok(node) => Child(h, node, index)
  {
    hide Child;
    assert (path + [index])[..|path|] == path;
  }

  /** What the first parts name is the beginning of what all of them name. */
  lemma {:induction false} ReadPrefix(parts: seq<string>, i: nat)
    requires i <= |parts|
    ensures ReadIndices(parts).Some? ==>
      ReadIndices(parts[..i]).Some? && ReadIndices(parts[..i]).value <= ReadIndices(parts).value
    decreases |parts|
  {
    hide Strings.Strip, ReadInt, Hardened;
    if i == |parts| {
      assert parts[..i] == parts;
    } else {
      var front := parts[..|parts| - 1];
      assert front[..i] == parts[..i];
      ReadPrefix(front, i);
    }
  }

  lemma Extended(h: Hmac, root: XPub, path: seq<int>, whole: Option<seq<int>>)
    requires Descendant(h, root, path) == Error && (whole.Some? ==> path <= whole.value)
    ensures whole.Some? ==> Descendant(h, root, whole.value) == Error
  {
    hide Descendant;
    if whole.Some? {
      assert whole.value[..|path|] == path;
      ErrorSticks(h, root, whole.value, |path|);
    }
  }

  /** A path as text. */
  function PathText(path: seq<int>): string {
    if path == [] then ""
    else if |path| == 1 then IntText(path[0])
    else PathText(path[..|path| - 1]) + "/" + IntText(path[|path| - 1])
  }

  lemma NumberPart(i: int)
    ensures Strings.Strip(IntText(i)) == IntText(i) && !Hardened(IntText(i)) && ReadInt(IntText(i)) == Some(i)
    ensures '/' !in IntText(i)
  {
    var text := IntText(i);
    Strings.StripIdentity(text);
    IntRoundTrip(i);
    assert text == [text[0]] + text[1..];
    hide ReadInt, IntText, Strings.Strip;
  }

  lemma ReadOneMore(parts: seq<string>, path: seq<int>, i: int)
    requires ReadIndices(parts) == Some(path)
    ensures ReadIndices(parts + [IntText(i)]) == Some(path + [i])
  {
    NumberPart(i);
    hide Strings.Strip, ReadInt, IntText, Hardened;
    assert (parts + [IntText(i)])[..|parts|] == parts;
  }

  lemma {:induction false} SplitPathText(path: seq<int>)
    requires path != []
    ensures ReadIndices(Strings.Split(PathText(path), '/')) == Some(path)
  {
    hide Strings.Split, IntText;
    var k := |path| - 1;
    NumberPart(path[k]);
    assert path == path[..k] + [path[k]];
    if k == 0 {
      Strings.SplitWhole(IntText(path[0]), '/');
      NoIndices();
      ReadOneMore([], [], path[0]);
      assert [] + [IntText(path[0])] == [IntText(path[0])];
    } else {
      SplitPathText(path[..k]);
      Strings.SplitLast(PathText(path[..k]), '/', IntText(path[k]));
      ReadOneMore(Strings.Split(PathText(path[..k]), '/'), path[..k], path[k]);
    }
  }

  lemma NoIndices()
    ensures ReadIndices([]) == Some([])
  {
  }

  /** Nothing of a path's text is stripped. */
  lemma {:induction false} PathTextEnds(path: seq<int>)
    requires path != []
    ensures var text := PathText(path);
      text != "" && (text[0] == '-' || '0' <= text[0] <= '9') && '0' <= text[|text| - 1] <= '9'
  {
    hide IntText;
    if |path| > 1 {
      PathTextEnds(path[..|path| - 1]);
    }
  }

  /** A path with a hardened part, one that ends in ' or h, is refused, and so is one with a
      part that is no number. */
  lemma {:induction false} PartRefused(parts: seq<string>, k: nat)
    requires k < |parts|
    requires var part := Strings.Strip(parts[k]);
      part != "" && (part[|part| - 1] == '\'' || part[|part| - 1] == 'h' || ReadInt(part) == None)
    ensures ReadIndices(parts) == None
    decreases |parts|
  {
    hide ReadInt, Strings.Strip;
    var n := |parts| - 1;
    if k < n {
      PartRefused(parts[..n], k);
    }
  }

  /** Spaces around a path's text, and slashes inside of them, make no difference. */
  lemma PathAround(path: seq<int>, a: string, x: string, y: string, b: string)
    requires path != [] && Strings.AllDropped(a, Strings.IsSpace) && Strings.AllDropped(b, Strings.IsSpace)
    requires (forall i :: 0 <= i < |x| ==> x[i] == '/') && forall i :: 0 <= i < |y| ==> y[i] == '/'
    ensures ReadIndices(PathParts(a + (x + PathText(path) + y) + b)) == Some(path)
  {
    var text := PathText(path);
    var inner := x + text + y;
    PathTextEnds(path);
    SplitPathText(path);
    assert inner[0] == (if x == "" then text[0] else '/');
    assert inner[|inner| - 1] == (if y == "" then text[|text| - 1] else '/');
    hide PathText, ReadIndices, Strings.Split;
    Strings.StripAround(a, inner, b, Strings.IsSpace);
    var slashes := c => c == '/';
    Strings.StripAround(x, text, y, slashes);
    assert PathParts(a + inner + b) == Strings.Split(text, '/');
  }

  /** Every path reads back from its text. */
  lemma PathRoundTrip(path: seq<int>)
    ensures ReadIndices(PathParts(PathText(path))) == Some(path)
  {
    var text := PathText(path);
    if path == [] {
      NoParts();
    } else {
      PathTextEnds(path);
      SplitPathText(path);
      hide PathText, ReadIndices;
      Strings.StripIdentity(text);
      Strings.NothingOff(text, c => c == '/');
    }
  }

  lemma NoParts()
    ensures ReadIndices(PathParts("")) == Some([])
  {
    Strings.SplitWhole("", '/');
    assert [""][..0] == [];
    assert Strings.Strip("") == "";
  }

  // ---- Private derivation ---------------------------------------------------

  ghost predicate ValidKey(node: XPrv) {
    Times(node.key).Affine?
  }

  /** The public counterpart of a private key. */
  ghost function Neutered(node: XPrv): XPub
    requires ValidKey(node)
  {
    XPub(Compress(Times(node.key)), node.chain, node.depth)
  }

  /** The child's private key, given the left half of the MAC; none if it is invalid. */
  ghost function TweakedKey(key: nat, t: nat): Option<nat> {
    if t >= N || (t + key) % N == 0 then None else Some((t + key) % N)
  }

  /** BIP 32, "Private parent key -> private child key", for non-hardened indices. */
  ghost function PrivateChild(h: Hmac, node: XPrv, index: int): (r: Result<XPrv>)
    requires ValidKey(node)
  {
    if index < 0 || index >= HARDENED then Error
    else
      var i := ChildMac(h, node.chain, Compress(Times(node.key)), index);
      match TweakedKey(node.key, Number(i[..32], 256))
      case None => Error
      case Some(key) => Ok(XPrv(key, i[32..], node.depth + 1))
  }

  /** A private key other than zero modulo the order has a public counterpart. */
  lemma PrivateChildValid(h: Hmac, node: XPrv, index: int)
    requires GroupFacts() && ValidKey(node)
    ensures PrivateChild(h, node, index).Ok? ==> ValidKey(PrivateChild(h, node, index).value)
  {
    hide GroupFacts, Times, ChildMac, Compress, Number;
    if PrivateChild(h, node, index).Ok? {
      var key := PrivateChild(h, node, index).value.key;
      KeyInRange(h, node, index);
      FactsOrder(key);
    }
  }

  lemma KeyInRange(h: Hmac, node: XPrv, index: int)
    requires ValidKey(node) && PrivateChild(h, node, index).Ok?
    ensures 0 < PrivateChild(h, node, index).value.key < N
    ensures PrivateChild(h, node, index).value.key % N != 0
  {
    hide Times, ChildMac, Compress, Number;
    var key := PrivateChild(h, node, index).value.key;
    DivUnique(key, N, 0, key);
  }

  ghost function NeuteredResult(r: Result<XPrv>): Result<XPub>
    requires r.Ok? ==> ValidKey(r.value)
  {
    match r
    case Error => Error
    case Ok(node) => Ok(Neutered(node))
  }

  /** Deriving publicly gives the public counterpart of what deriving privately gives,
      and fails in exactly the same cases. */
  lemma ChildCommutes(h: Hmac, node: XPrv, index: int)
    requires GroupFacts() && ValidKey(node)
    ensures PrivateChild(h, node, index).Ok? ==> ValidKey(PrivateChild(h, node, index).value)
    ensures Child(h, Neutered(node), index) == NeuteredResult(PrivateChild(h, node, index))
  {
    PrivateChildValid(h, node, index);
    hide GroupFacts, Times, ChildMac, Compress, Number, TweakAdded, TweakedKey;
    if 0 <= index < HARDENED {
      var i := ChildMac(h, node.chain, Compress(Times(node.key)), index);
      TweakOfKey(node.key, i[..32]);
      OutOfRange(Compress(Times(node.key)), i[..32]);
    }
  }

  /** The tweak of a public key, in terms of the reduced private key. */
  lemma TweakOfKey(key: nat, tweak: seq<nat>)
    requires GroupFacts() && Times(key).Affine?
    ensures match TweakedKey(key, Number(tweak, 256))
      case None => TweakAdded(Compress(Times(key)), tweak) == Error
      case Some(child) => Times(child).Affine? && TweakAdded(Compress(Times(key)), tweak) == Ok(Compress(Times(child)))
  {
    hide GroupFacts, Times, Compress, Number, TweakAdded;
    var t := Number(tweak, 256);
    TweakOfMultiple(key, tweak);
    Swap(key, t);
    TimesReduced(t + key);
    FactsOrder(t + key);
  }

  lemma OutOfRange(pub: seq<nat>, tweak: seq<nat>)
    ensures Number(tweak, 256) >= N ==> TweakAdded(pub, tweak) == Error
  {
    hide Number;
  }

  lemma Swap(a: nat, b: nat)
    ensures a + b == b + a && (a + b) % N == (b + a) % N
  {
  }

  ghost function PrivateDescendant(h: Hmac, node: XPrv, path: seq<int>): (r: Result<XPrv>)
    requires GroupFacts() && ValidKey(node)
    ensures r.Ok? ==> ValidKey(r.value)
  {
    hide GroupFacts, ValidKey, PrivateChild;
    if path == [] then Ok(node)
    else
      match PrivateDescendant(h, node, path[..|path| - 1])
      case Error => Error
      case Ok(parent) =>
        PrivateChildValid(h, parent, path[|path| - 1]);
        PrivateChild(h, parent, path[|path| - 1])
  }

  /** A whole path derived from the public key names the keys the owner derives. */
  lemma {:induction false} PathCommutes(h: Hmac, node: XPrv, path: seq<int>)
    requires GroupFacts() && ValidKey(node)
    ensures Descendant(h, Neutered(node), path) == NeuteredResult(PrivateDescendant(h, node, path))
  {
    hide GroupFacts, ValidKey, PrivateChild, Child, Neutered;
    if path != [] {
      var front := path[..|path| - 1];
      PathCommutes(h, node, front);
      var parent := PrivateDescendant(h, node, front);
      if parent.Ok? {
        ChildCommutes(h, parent.value, path[|path| - 1]);
      }
    }
  }
}
