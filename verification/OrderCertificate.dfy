/** That N times the generator of secp256k1 is infinity: a chain of doublings and additions of
    points, each with its slope and the quotients of the three divisions by the prime that
    it takes. The multiples are given by any function that turns sums into sums of points. */
module OrderCertificate {
  import opened Arithmetic
  import opened Curve
  import opened CubeCertificate

  /** `f(k)` is k times a point, as far as addition modulo m tells. */
  ghost predicate Multiples(f: nat -> Point, m: nat) {
    m > 1 && forall j: nat, k: nat :: f(j + k) == PointAdd(f(j), f(k), m)
  }

  ghost predicate OddField(m: nat) {
    Inverts(m) && m % 2 == 1
  }

  lemma MultiplesAdd(f: nat -> Point, m: nat, j: nat, k: nat)
    requires Multiples(f, m)
    ensures f(j + k) == PointAdd(f(j), f(k), m)
  {
  }

  /** The generator as its first multiple, over a prime whose powers invert. */
  ghost predicate Starts(f: nat -> Point) {
    && Multiples(f, P) && Inverts(P)
    && f(1) == Affine(
      0x79be667ef9dcbbac55a06295ce870b07029bfcdb2dce28d959f2815b16f81798,
      0x483ada7726a3c4655da4fbfc0e1108a8fd17b448a68554199c47d08ffb10d4b8)
  }

  /** A certified slope is the one the program computes. */
  lemma SlopeOf(n: int, d: int, lam: int, s: int, m: nat)
    requires Inverts(m) && !Zero(d, m) && 0 <= lam < m && 0 <= s < m
    requires Zero(lam * d - n, m) && Zero(s * d - n, m)
    ensures s == lam
  {
    ZeroAdd(s * d - n, lam * d - n, m);
    DifferenceTimes(s, lam, d);
    hide Zero, Inverts;
    CancelNonzero(d, s - lam, m);
    SameResidue(s, lam, m);
  }

  lemma DifferenceTimes(s: int, lam: int, d: int)
    ensures s * d - lam * d == d * (s - lam)
  {
  }

  lemma ThirdOf(lam: int, x1: nat, y1: nat, x2: nat, x3: nat, y3: nat, k1: int, k2: int, m: nat)
    requires m > 1 && x3 < m && y3 < m
    requires lam * lam - x1 - x2 - x3 == m * k1 && lam * (x1 - x3) - y1 - y3 == m * k2
    ensures Third(lam, x1, y1, x2, m) == Affine(x3, y3)
  {
    DivUnique(lam * lam - x1 - x2, m, k1, x3);
    DivUnique(lam * (x1 - x3) - y1, m, k2, y3);
  }

  lemma TangentOf(x1: nat, y1: nat, lam: nat, k0: int, k1: int, k2: int, x3: nat, y3: nat, m: nat)
    requires Inverts(m) && m % 2 == 1 && 0 < y1 < m && lam < m && x3 < m && y3 < m
    requires lam * (2 * y1) - 3 * x1 * x1 == m * k0
    requires lam * lam - x1 - x1 - x3 == m * k1 && lam * (x1 - x3) - y1 - y3 == m * k2
    ensures PointAdd(Affine(x1, y1), Affine(x1, y1), m) == Affine(x3, y3)
  {
    TwiceNonzero(y1, m);
    assert Zero(2 * y1 * ModInv(2 * y1, m) - 1, m);
    Quotient(3 * x1 * x1, 2 * y1, ModInv(2 * y1, m), m);
    ZeroMultiple(k0, m);
    hide Zero, Inverts, ModInv;
    SlopeOf(3 * x1 * x1, 2 * y1, lam, Slope(x1, y1, x1, y1, m), m);
    ThirdOf(lam, x1, y1, x1, x3, y3, k1, k2, m);
  }

  lemma ChordOf(x1: nat, y1: nat, x2: nat, y2: nat, lam: nat, k0: int, k1: int, k2: int, x3: nat, y3: nat, m: nat)
    requires Inverts(m) && x1 < m && x2 < m && x1 != x2 && lam < m && x3 < m && y3 < m
    requires lam * (x2 - x1) - (y2 - y1) == m * k0
    requires lam * lam - x1 - x2 - x3 == m * k1 && lam * (x1 - x3) - y1 - y3 == m * k2
    ensures PointAdd(Affine(x1, y1), Affine(x2, y2), m) == Affine(x3, y3)
  {
    SmallNonzero(x2 - x1, m);
    assert Zero((x2 - x1) * ModInv(x2 - x1, m) - 1, m);
    Quotient(y2 - y1, x2 - x1, ModInv(x2 - x1, m), m);
    ZeroMultiple(k0, m);
    hide Zero, Inverts, ModInv, Third;
    SlopeOf(y2 - y1, x2 - x1, lam, Slope(x1, y1, x2, y2, m), m);
    ThirdOf(lam, x1, y1, x2, x3, y3, k1, k2, m);
  }

  /** One doubling of the chain. */
  lemma Twice(f: nat -> Point, m: nat, e: nat, x1: nat, y1: nat, lam: nat, k0: int, k1: int, k2: int,
        x3: nat, y3: nat)
    returns (g: nat)
    requires Multiples(f, m) && OddField(m)
    requires f(e) == Affine(x1, y1) && 0 < y1 < m && lam < m && x3 < m && y3 < m
    requires lam * (2 * y1) - 3 * x1 * x1 == m * k0
    requires lam * lam - x1 - x1 - x3 == m * k1 && lam * (x1 - x3) - y1 - y3 == m * k2
    ensures g == 2 * e && f(g) == Affine(x3, y3)
  {
    g := 2 * e;
    MultiplesAdd(f, m, e, e);
    hide Multiples, Inverts, PointAdd;
    TangentOf(x1, y1, lam, k0, k1, k2, x3, y3, m);
    assert e + e == g;
  }

  /** One addition of the chain. */
  lemma Plus(f: nat -> Point, m: nat, e: nat, h: nat, x1: nat, y1: nat, x2: nat, y2: nat, lam: nat, k0: int, k1: int,
        k2: int, x3: nat, y3: nat)
    returns (g: nat)
    requires Multiples(f, m) && OddField(m) && f(e) == Affine(x1, y1) && f(h) == Affine(x2, y2)
    requires x1 < m && x2 < m && x1 != x2 && lam < m && x3 < m && y3 < m
    requires lam * (x2 - x1) - (y2 - y1) == m * k0
    requires lam * lam - x1 - x2 - x3 == m * k1 && lam * (x1 - x3) - y1 - y3 == m * k2
    ensures g == e + h && f(g) == Affine(x3, y3)
  {
    g := e + h;
    MultiplesAdd(f, m, e, h);
    hide Multiples, Inverts, PointAdd;
    ChordOf(x1, y1, x2, y2, lam, k0, k1, k2, x3, y3, m);
  }

  lemma Facts(f: nat -> Point)
    requires Starts(f)
    ensures Multiples(f, P) && OddField(P)
  {
  }

  lemma Generator(f: nat -> Point) returns (e: nat)
    requires Starts(f)
    ensures e == 1 && f(e) == Affine(
      0x79be667ef9dcbbac55a06295ce870b07029bfcdb2dce28d959f2815b16f81798,
      0x483ada7726a3c4655da4fbfc0e1108a8fd17b448a68554199c47d08ffb10d4b8)
  {
    e := 1;
  }

  lemma Two(f: nat -> Point) returns (e: nat)
    requires Starts(f)
    ensures e == 0x2 && f(e) == Affine(
      0xc6047f9441ed7d6d3045406e95c07cd85c778e4b8cef3ca7abac09b95c709ee5,
      0x1ae168fea63dc339a3c58419466ceaeef7f632653266d0e1236431a950cfe52a)
  {
    Facts(f);
    hide *;
    e := Generator(f);
    e := Twice(f, P, e,
      0x79be667ef9dcbbac55a06295ce870b07029bfcdb2dce28d959f2815b16f81798,
      0x483ada7726a3c4655da4fbfc0e1108a8fd17b448a68554199c47d08ffb10d4b8,
      0xcb35b28428101a303eb9d1235992ac63f58857c2f631ee6936d3aebbeddcd1b1,
      -0x3b04fbed296cc1277f1659ab9a6f3feba665d74e98725ee2d39e827bc28878b0,
      0xa14e3460febe2c2316bfcccc1b764790c3b7d9ff92663ea740240f16b583e774,
      -0x3c8b95972f12b04b3ca25330b2bd449e8e938229d1fd14f76cae42249ce0dc11,
      0xc6047f9441ed7d6d3045406e95c07cd85c778e4b8cef3ca7abac09b95c709ee5,
      0x1ae168fea63dc339a3c58419466ceaeef7f632653266d0e1236431a950cfe52a);
  }

  lemma Three(f: nat -> Point) returns (e: nat)
    requires Starts(f)
    ensures e == 0x3 && f(e) == Affine(
      0xf9308a019258c31049344f85f89d5229b531c845836f99b08601f113bce036f9,
      0x388f7b0f632de8140fe337e62a37f3566500a99934c2231b6cb9fd7584b8e672)
  {
    Facts(f);
    hide *;
    e := Two(f);
    var h := Generator(f);
    e := Plus(f, P, e, h,
      0xc6047f9441ed7d6d3045406e95c07cd85c778e4b8cef3ca7abac09b95c709ee5,
      0x1ae168fea63dc339a3c58419466ceaeef7f632653266d0e1236431a950cfe52a,
      0x79be667ef9dcbbac55a06295ce870b07029bfcdb2dce28d959f2815b16f81798,
      0x483ada7726a3c4655da4fbfc0e1108a8fd17b448a68554199c47d08ffb10d4b8,
      0x342119815c0f816f31f431a9fe98a6c76d11425ecaeaecf2d0ef6def197c56b0,
      -0xf8819baf19538f6abb328694df01e7f3a13331aae64135353dbfa72a8c09fe2,
      0xa9d76a4234a8ded7af964ec3f6f871ce09d7f68349a3bc2d7d569cb7f027896,
      -0xa6b8fe4b50a031c6b95e6a27eb270e940a444b7e1a6a43c3d59ce63ab90a164,
      0xf9308a019258c31049344f85f89d5229b531c845836f99b08601f113bce036f9,
      0x388f7b0f632de8140fe337e62a37f3566500a99934c2231b6cb9fd7584b8e672);
  }

  lemma Five(f: nat -> Point) returns (e: nat)
    requires Starts(f)
    ensures e == 0x5 && f(e) == Affine(
      0x2f8bde4d1a07209355b4a7250a5c5128e88b84bddc619ab7cba8d569b240efe4,
      0xd8ac222636e5e3d6d4dba9dda6c9c426f788271bab0d6840dca87d3aa6ac62d6)
  {
    Facts(f);
    hide *;
    e := Three(f);
    var h := Two(f);
    e := Plus(f, P, e, h,
      0xf9308a019258c31049344f85f89d5229b531c845836f99b08601f113bce036f9,
      0x388f7b0f632de8140fe337e62a37f3566500a99934c2231b6cb9fd7584b8e672,
      0xc6047f9441ed7d6d3045406e95c07cd85c778e4b8cef3ca7abac09b95c709ee5,
      0x1ae168fea63dc339a3c58419466ceaeef7f632653266d0e1236431a950cfe52a,
      0xb96755a5aa4a37e34d58d463a547b56fcf0ceee65a20052241a3425b10fdc015,
      -0x250f7b5fedfbf977d5a80aae1032c9e6c85d53c2a044c03b53c567a9fe70ea64,
      0x8646837f7815bac9bcc2448fdcf2bea1d56e42109fd65ef7e5ac9593445fe2b9,
      0x920964ccaad6ce2e38b3f45874c303e783dc5aac45dac747c216161c0f022a5f,
      0x2f8bde4d1a07209355b4a7250a5c5128e88b84bddc619ab7cba8d569b240efe4,
      0xd8ac222636e5e3d6d4dba9dda6c9c426f788271bab0d6840dca87d3aa6ac62d6);
  }

  lemma Seven(f: nat -> Point) returns (e: nat)
    requires Starts(f)
    ensures e == 0x7 && f(e) == Affine(
      0x5cbdf0646e5db4eaa398f365f2ea7a0e3d419b7e0330e39ce92bddedcac4f9bc,
      0x6aebca40ba255960a3178d6d861a54dba813d0b813fde7b5a5082628087264da)
  {
    Facts(f);
    hide *;
    e := Five(f);
    var h := Two(f);
    e := Plus(f, P, e, h,
      0x2f8bde4d1a07209355b4a7250a5c5128e88b84bddc619ab7cba8d569b240efe4,
      0xd8ac222636e5e3d6d4dba9dda6c9c426f788271bab0d6840dca87d3aa6ac62d6,
      0xc6047f9441ed7d6d3045406e95c07cd85c778e4b8cef3ca7abac09b95c709ee5,
      0x1ae168fea63dc339a3c58419466ceaeef7f632653266d0e1236431a950cfe52a,
      0x34b624a49fa5aca121c4301a49339f74e51b7a580650e8e53efcabd644b87c4,
      0x1efb900ed67cc9371e9fc55c025a23dca2531debf04c29962f56d2afd008990,
      0xada807b002d047673356e19a81239e44cf295c7a7fbbccfe44481f14c6965,
      -0x94e53bdb485c379a33d551c5542784815b6baa7b9a0460ffa406039155c3f0,
      0x5cbdf0646e5db4eaa398f365f2ea7a0e3d419b7e0330e39ce92bddedcac4f9bc,
      0x6aebca40ba255960a3178d6d861a54dba813d0b813fde7b5a5082628087264da);
  }

  lemma Nine(f: nat -> Point) returns (e: nat)
    requires Starts(f)
    ensures e == 0x9 && f(e) == Affine(
      0xacd484e2f0c7f65309ad178a9f559abde09796974c57e714c35f110dfc27ccbe,
      0xcc338921b0a7d9fd64380971763b61e9add888a4375f8e0f05cc262ac64f9c37)
  {
    Facts(f);
    hide *;
    e := Seven(f);
    var h := Two(f);
    e := Plus(f, P, e, h,
      0x5cbdf0646e5db4eaa398f365f2ea7a0e3d419b7e0330e39ce92bddedcac4f9bc,
      0x6aebca40ba255960a3178d6d861a54dba813d0b813fde7b5a5082628087264da,
      0xc6047f9441ed7d6d3045406e95c07cd85c778e4b8cef3ca7abac09b95c709ee5,
      0x1ae168fea63dc339a3c58419466ceaeef7f632653266d0e1236431a950cfe52a,
      0xcbe159daf398ee5fb621f8a916221c8ce6bdcd3e2295d44d29ec8a87924b2b63,
      0x53d79f8257d6627c44db3ae1bfffb7f38588336d7c790656726d28fff3c6ad65,
      0xa25f2ae050beb582ed183f9eb676f373318584f9fe66ee8885895ec358c3ff36,
      -0x3fc867b52daa9742753e6064be809fe6c6512825798000531320e8edd9e263d9,
      0xacd484e2f0c7f65309ad178a9f559abde09796974c57e714c35f110dfc27ccbe,
      0xcc338921b0a7d9fd64380971763b61e9add888a4375f8e0f05cc262ac64f9c37);
  }

  lemma Eleven(f: nat -> Point) returns (e: nat)
    requires Starts(f)
    ensures e == 0xb && f(e) == Affine(
      0x774ae7f858a9411e5ef4246b70c65aac5649980be5c17891bbec17895da008cb,
      0xd984a032eb6b5e190243dd56d7b7b365372db1e2dff9d6a8301d74c9c953c61b)
  {
    Facts(f);
    hide *;
    e := Nine(f);
    var h := Two(f);
    e := Plus(f, P, e, h,
      0xacd484e2f0c7f65309ad178a9f559abde09796974c57e714c35f110dfc27ccbe,
      0xcc338921b0a7d9fd64380971763b61e9add888a4375f8e0f05cc262ac64f9c37,
      0xc6047f9441ed7d6d3045406e95c07cd85c778e4b8cef3ca7abac09b95c709ee5,
      0x1ae168fea63dc339a3c58419466ceaeef7f632653266d0e1236431a950cfe52a,
      0x53facbed580953c9d1732da8795d9db5ad651182ff845923bf0ed9efaf075c88,
      0x8433b32b457840f799c69ab3ca7cccdc7d8b981fe2d7ba6337fd43057bae24b,
      0x1b8c95eed51844376e6b645ca507dfef4fd970c4e760c01c29453ba0d8963ace,
      0x119010e90ea80fd9322aceee8ccde2cc207e09573fbd590ab70e60c9bc27f21a,
      0x774ae7f858a9411e5ef4246b70c65aac5649980be5c17891bbec17895da008cb,
      0xd984a032eb6b5e190243dd56d7b7b365372db1e2dff9d6a8301d74c9c953c61b);
  }

  lemma Thirteen(f: nat -> Point) returns (e: nat)
    requires Starts(f)
    ensures e == 0xd && f(e) == Affine(
      0xf28773c2d975288bc7d1d205c3748651b075fbc6610e58cddeeddf8f19405aa8,
      0xab0902e8d880a89758212eb65cdaf473a1a06da521fa91f29b5cb52db03ed81)
  {
    Facts(f);
    hide *;
    e := Eleven(f);
    var h := Two(f);
    e := Plus(f, P, e, h,
      0x774ae7f858a9411e5ef4246b70c65aac5649980be5c17891bbec17895da008cb,
      0xd984a032eb6b5e190243dd56d7b7b365372db1e2dff9d6a8301d74c9c953c61b,
      0xc6047f9441ed7d6d3045406e95c07cd85c778e4b8cef3ca7abac09b95c709ee5,
      0x1ae168fea63dc339a3c58419466ceaeef7f632653266d0e1236431a950cfe52a,
      0x59a555539aa1e85f024b89e7b3299adc3dc9d56459d9c4f71711ed3cf915f3ad,
      0x1b915d9140a66d541b11d17be523d6890504a018bf90d1b946314cdb2b2a29ed,
      0x1f64601b3bba8844c0c4725ceeff46e067b5a42ece305cbaefb10e58b6ffff3f,
      -0x2b27a3b2d9c7d3550004e9109209e79780573a8574f9ea018ad1fa7dd5bd0c1b,
      0xf28773c2d975288bc7d1d205c3748651b075fbc6610e58cddeeddf8f19405aa8,
      0xab0902e8d880a89758212eb65cdaf473a1a06da521fa91f29b5cb52db03ed81);
  }

  lemma Fifteen(f: nat -> Point) returns (e: nat)
    requires Starts(f)
    ensures e == 0xf && f(e) == Affine(
      0xd7924d4f7d43ea965a465ae3095ff41131e5946f3c85f79e44adbcf8e27e080e,
      0x581e2872a86c72a683842ec228cc6defea40af2bd896d3a5c504dc9ff6a26b58)
  {
    Facts(f);
    hide *;
    e := Thirteen(f);
    var h := Two(f);
    e := Plus(f, P, e, h,
      0xf28773c2d975288bc7d1d205c3748651b075fbc6610e58cddeeddf8f19405aa8,
      0xab0902e8d880a89758212eb65cdaf473a1a06da521fa91f29b5cb52db03ed81,
      0xc6047f9441ed7d6d3045406e95c07cd85c778e4b8cef3ca7abac09b95c709ee5,
      0x1ae168fea63dc339a3c58419466ceaeef7f632653266d0e1236431a950cfe52a,
      0x37757e9ad5f9b72ecc0a64292bb6a15916d5c53cca0adc067d420985fbb3cf81,
      -0x9a49052fc0399c4ba5511a874359fee360a5e7ee6e1831b38cf547a0d9c85d4,
      0xc03b2538015ab3f800eec1ab1299dfc4e30e8ecd76aa968a80d7f715659817a,
      0x5d70aa25275e4514bc18fbc363ddc012e227345d1657f7408f85774e062da0f,
      0xd7924d4f7d43ea965a465ae3095ff41131e5946f3c85f79e44adbcf8e27e080e,
      0x581e2872a86c72a683842ec228cc6defea40af2bd896d3a5c504dc9ff6a26b58);
  }

  lemma Ones7(f: nat -> Point) returns (e: nat)
    requires Starts(f)
    ensures e == 0x7f && f(e) == Affine(
      0x841d6063a586fa475a724604da03bc5b92a2e0d2e0a36acfe4c73a5514742881,
      0x73867f59c0659e81904f9a1c7543698e62562d6744c169ce7a36de01a8d6154)
  {
    Facts(f);
    hide *;
    e := Fifteen(f);
    var h := Seven(f);
    e := Twice(f, P, e,
      0xd7924d4f7d43ea965a465ae3095ff41131e5946f3c85f79e44adbcf8e27e080e,
      0x581e2872a86c72a683842ec228cc6defea40af2bd896d3a5c504dc9ff6a26b58,
      0xe6a376128ed85c27cc8d1715fe74624dfcd01ee0115740f5c5e017d0161af012,
      -0x181ce7c0942c07be731aa3c97772f7ec161aa378d31170c14fe790e10147dbdd4,
      0xcfca2088eac3ca24b95264698b9d036d1f0024226e4206bfbe2659d9b5c03958,
      0x5fdcb8c49e2ba49859570deeafcf5754f674a1465c5ec7221b8d16923a205aa7,
      0x6d2b085e9e382ed10b69fc311a03f8641ccfff21574de0927513a49d9a688a00,
      0xacb82eb93309ad1cc739ddfa33604a83776238aa0bd5ff248dbac47a17f388fb);
    e := Twice(f, P, e,
      0x6d2b085e9e382ed10b69fc311a03f8641ccfff21574de0927513a49d9a688a00,
      0xacb82eb93309ad1cc739ddfa33604a83776238aa0bd5ff248dbac47a17f388fb,
      0x23fca7906d96c8b655c2f83f37304991f1427c625d20d121451e74cc1d2a28fd,
      -0x5b19bb9757c5830478c5323835da9f72c7ccafcbd3e7149208fc4d5f15c06bbe,
      0x50f0f2bcffcbc3334d59879f8d78c0d4684ee8d8578d2d90b3d48c826fc5239,
      0xf2f5dfef1c37bb2026ee046ce3c9a345e6311ecb40cbfab0653414953f2de2c,
      0x1257e93a78a5b7d8fe0cf28ff1d8822350c778ac8a30e57d2acfc4d5fb8c192,
      0x1124ec11c77d356e042dad154e1116eda7cc69244f295166b54e3d341904a1a7);
    e := Twice(f, P, e,
      0x1257e93a78a5b7d8fe0cf28ff1d8822350c778ac8a30e57d2acfc4d5fb8c192,
      0x1124ec11c77d356e042dad154e1116eda7cc69244f295166b54e3d341904a1a7,
      0x793308f8f7d460638d2102e3623c60fc25e9cc532a50915fc627f1518228d44,
      0xffca603298ce2c3d188c969325b2b2e8507bbc00689a41a8d2e90d3b3286d4,
      0x396148a7edca035ae47febc57d1c493de3052758c7fa5a2c1d31db9e6d8e1a,
      -0x68417f5f170ff280df9c2296bfe94923cbd30f2ade2f18a63f47d295feb1b2d,
      0xdd5ba67cfb807824bd3ff25e9d1667fa89e7020e8e0becb79caa00f574adc826,
      0xd6b837116fa89fa1d0d6e193aaaf5a5642425d84290545f294a0753a915b644c);
    e := Plus(f, P, e, h,
      0xdd5ba67cfb807824bd3ff25e9d1667fa89e7020e8e0becb79caa00f574adc826,
      0xd6b837116fa89fa1d0d6e193aaaf5a5642425d84290545f294a0753a915b644c,
      0x5cbdf0646e5db4eaa398f365f2ea7a0e3d419b7e0330e39ce92bddedcac4f9bc,
      0x6aebca40ba255960a3178d6d861a54dba813d0b813fde7b5a5082628087264da,
      0x32c8f372c945092f7b64af872dc0426f4a46cc1f42fa2018a9d568eb485e2f18,
      -0x1983c3166df1f54978f9bbe4b9f9fb4ce0eaad29c2777987aedd7dd34ead01e2,
      0xa131cd6217c9105d58def789fae8aff87c297921965851ca50d9a5ffc1fddb3,
      0x11b43735d7051f6a351365a7f5cdb85f5285e89e0575733dbc505a3864e462a8,
      0x841d6063a586fa475a724604da03bc5b92a2e0d2e0a36acfe4c73a5514742881,
      0x73867f59c0659e81904f9a1c7543698e62562d6744c169ce7a36de01a8d6154);
  }

  lemma Ones14Part1(f: nat -> Point) returns (e: nat)
    requires Starts(f)
    ensures e == 0x3f80 && f(e) == Affine(
      0x574e8e2f314e03b35551e22ffc6756e8ea5a86b21d60a8299a2a166d9880100f,
      0x9186644847f4575b6a747dee8b1c525f213ecb6048c41142cee7af133ea8a4b4)
  {
    Facts(f);
    hide *;
    e := Ones7(f);
    e := Twice(f, P, e,
      0x841d6063a586fa475a724604da03bc5b92a2e0d2e0a36acfe4c73a5514742881,
      0x73867f59c0659e81904f9a1c7543698e62562d6744c169ce7a36de01a8d6154,
      0xa970ed203cf82d78993982874828630b31f923d00678c56205bae895c74eeb79,
      -0xc2fc1453b7c4a7b3d477aa22a23700883c09d049275e6721cfc7fbd459d9a255,
      0x70264ae4e859ba23d495f06c474306d2ccb49e6bde01b8fa637b1df5da624ae4,
      0x1e4dcc44688c5f609024f5a8fef3e701cfbf648fd8133301265ca58753369f1b,
      0x5654834268843e72c300e97d5188fca2ed04459e09ca4351475a62c4bc8ade53,
      0x1b33a3362bc0738019cf1c838c69253cc6ddcc39676e2ea169394d2089481e75);
    e := Twice(f, P, e,
      0x5654834268843e72c300e97d5188fca2ed04459e09ca4351475a62c4bc8ade53,
      0x1b33a3362bc0738019cf1c838c69253cc6ddcc39676e2ea169394d2089481e75,
      0xdb4a6f1ae0e5fdef10162c5627947f61e73296e0149c6b05007757e48c12f1a7,
      -0x28bc818f87517b0513ebfa25a65fe5afbc45ce980700444daa2ad08341015cfb,
      0xbbd86fbc688bd747ba3b6c322e36a5eaec3d86ea82291d49cd4fa4d2116bcb9d,
      -0x1eec2fbe3fbc39a09e961af2881b1b484602ddcea3d5693b7c89de7ca02a8703,
      0x7a6dde243e278c95a9ab2130bdc4870af7136fc937924c39678fb8f58ae63078,
      0x4094b8ac751a063007749050c003eed6526b3399149c3a74b1c7b6d69be933f5);
    e := Twice(f, P, e,
      0x7a6dde243e278c95a9ab2130bdc4870af7136fc937924c39678fb8f58ae63078,
      0x4094b8ac751a063007749050c003eed6526b3399149c3a74b1c7b6d69be933f5,
      0xfd6064d08a8fbb9e81caacb1fac3df42be8ada4e64fc5a2335460c56571748c0,
      -0x2fd01d379bef8e6bcdf32798718f994ae4f4a748076428f46006970f70401ac0,
      0xfac7ab8ff5fb9ac5c28fef4c97eb5db144dcb3083aa0f9c66ed77a90007c0035,
      -0x3767c4a15f248e21849993e6d00b5d65149993dffe21974796dbbd12af5a14d1,
      0xb2687e9f5fe5a7fcae435521308fa15adec88167a9707f0e4ecf046c6a9cf955,
      0x642844ed96c77424152793d5a18d14d29510d241d9e64e02119a8a08d4dd8caa);
    e := Twice(f, P, e,
      0xb2687e9f5fe5a7fcae435521308fa15adec88167a9707f0e4ecf046c6a9cf955,
      0x642844ed96c77424152793d5a18d14d29510d241d9e64e02119a8a08d4dd8caa,
      0xf5ffe3e33d41a1eb49ebf558ff9adcff759cd5b30078a30afb777f1b87d82f26,
      -0xb48321bcf6ed6112118e2c9af909bad32af1e38d3ba5c9dbb2713522ebf9733d,
      0xec63c9f8bcd07105046fac0a6f3c5aa1c4c3df5e3700dda834e9b17e62c379c9,
      -0x965ebaf692aae7c915a63ee00965d4c8940ffd6472724c39479e8b9834245b2,
      0xbc3038a5fcd351cbb311472860e5359644145f644ffb407a7ccf3294c398cf13,
      0xc7f4cc8b9b955128854fa45aca20e7170eb442599aae8267b97f12b63f46dad0);
    e := Twice(f, P, e,
      0xbc3038a5fcd351cbb311472860e5359644145f644ffb407a7ccf3294c398cf13,
      0xc7f4cc8b9b955128854fa45aca20e7170eb442599aae8267b97f12b63f46dad0,
      0x2237bded895ae7c8f5f1961411afb889f2c780cecd3cbf86e5c2d2eae34f070c,
      -0x169907aa3c12f45c76e2a26c74ff026974cde1d983625ddd0c714853bdada3735,
      0x492da964175c3d8cff02b46cca193e65940376cdd06df1f50e45b59b591d62c,
      0x81ad7c8f14fa42b0c729d80dcc2e5afaa9f86c670b904177bcd408709754ef6,
      0x7f8d49446bf0621f60450b79a51f77c48ce18b253578c44c9781e3350bfa6856,
      0xe4899ea8b5b6232b31d037c0eb0bf13bd9f2c45a69a57364b8bae7da14fa79e2);
    e := Twice(f, P, e,
      0x7f8d49446bf0621f60450b79a51f77c48ce18b253578c44c9781e3350bfa6856,
      0xe4899ea8b5b6232b31d037c0eb0bf13bd9f2c45a69a57364b8bae7da14fa79e2,
      0x50cb15ed56b9bb8a5cc4693f1e64b6a5ecfbc30dac9617ef0f2c4ea61ff6567,
      -0xb5a46c39f1e1674981fe5cc491662ecaa2c5b611a96fa95018ec794e4d309a30,
      0x197f8ed01e7c6c0a1175236fe7b9d8a1c87ba25c0bedaca77bf972a456c3b4,
      -0x153bb4b4ab24c7c2d0c2d0ec8d75ea1481e2204197f1761a0cb1f7fb043645c,
      0xc2d4c08a589a6b0410ee5df44afd8a9a9fa064d08a6641cbdbe09dbe508880b9,
      0x1a7d21ca3ede41293afed628fea9daa4aa6b0c877a715b6dea4010edc76ba42d);
    e := Twice(f, P, e,
      0xc2d4c08a589a6b0410ee5df44afd8a9a9fa064d08a6641cbdbe09dbe508880b9,
      0x1a7d21ca3ede41293afed628fea9daa4aa6b0c877a715b6dea4010edc76ba42d,
      0x77fe380ddaab9530b77e30d60cb16cd5ad5bcc08b10bbb2513854b80ff207993,
      -0x1a4007c90bc2fe19b72f7afc66c75f0c8b904865e4c2743bd8a778a9141e878ab,
      0x383e5490290f819a58be94215f468b2d8c1628d978895da694201c40b8aa1398,
      0x326628198262593d92af88786b61e95b079cbfd3af8c545ef4c27bdfa83498d3,
      0x574e8e2f314e03b35551e22ffc6756e8ea5a86b21d60a8299a2a166d9880100f,
      0x9186644847f4575b6a747dee8b1c525f213ecb6048c41142cee7af133ea8a4b4);
  }

  lemma Ones14(f: nat -> Point) returns (e: nat)
    requires Starts(f)
    ensures e == 0x3fff && f(e) == Affine(
      0x1e70619c381a6adce5d925e0c9c74f973c02ff64ff2662d734efc485d2bce895,
      0xc923f771f543ffed42935c288474aaaf80a46ad43c579ce0bb5e663d668b24b3)
  {
    Facts(f);
    hide *;
    e := Ones14Part1(f);
    var h := Ones7(f);
    e := Plus(f, P, e, h,
      0x574e8e2f314e03b35551e22ffc6756e8ea5a86b21d60a8299a2a166d9880100f,
      0x9186644847f4575b6a747dee8b1c525f213ecb6048c41142cee7af133ea8a4b4,
      0x841d6063a586fa475a724604da03bc5b92a2e0d2e0a36acfe4c73a5514742881,
      0x73867f59c0659e81904f9a1c7543698e62562d6744c169ce7a36de01a8d6154,
      0x17c5f455332b51a4d58d543b875cba7d8064986bab723ccdd2c83bc27aa7af0,
      0x4293ace82c92115faa5c18c9bf118b89b5e66082b564be343368da6123d1c0,
      0x2352af943850f3cdeb0c90dc2dc2e19fbc141e0ac8cf6c93ed7bb46303015,
      0x547ef40311c2c177b0a348f6fe553cb1d7792f7c13c934d15f149fe62ca757,
      0x1e70619c381a6adce5d925e0c9c74f973c02ff64ff2662d734efc485d2bce895,
      0xc923f771f543ffed42935c288474aaaf80a46ad43c579ce0bb5e663d668b24b3);
  }

  lemma Ones28Part1(f: nat -> Point) returns (e: nat)
    requires Starts(f)
    ensures e == 0x1fff80 && f(e) == Affine(
      0x3ab2a33f2233e6930efa89118ab05beefaa1dc9e0dcac79163005e29ced6f2f,
      0xdf64a0e144545983ea0d3552277c5d3c03f39f66b047804c2488c240ec2a8aec)
  {
    Facts(f);
    hide *;
    e := Ones14(f);
    e := Twice(f, P, e,
      0x1e70619c381a6adce5d925e0c9c74f973c02ff64ff2662d734efc485d2bce895,
      0xc923f771f543ffed42935c288474aaaf80a46ad43c579ce0bb5e663d668b24b3,
      0xe8e42d16ee4dd99241b885b3a36b816e6d286c8d3e9c72150028173378d6359,
      0xc03e3541ea5c0e1ae51c432676a8ea1b5d46248d3a54429442d740ddbae48a5,
      0xd3de5d19e8b6a6d9d5572b7a77fdfcfee0753e49deacb905c78705aa614d88,
      -0x61dc4e53e7a2b9a2130313a749180ee91eaf4ae92b277c36930c92a162649a8,
      0x8a0281df5d09867ffeb0ed06e39fd53b739ec9daed30788cef9513d86c7707cf,
      0x98802f8e011886313ec17def1b07c6658e0516878a4ba97b43d4280afc9b77fb);
    e := Twice(f, P, e,
      0x8a0281df5d09867ffeb0ed06e39fd53b739ec9daed30788cef9513d86c7707cf,
      0x98802f8e011886313ec17def1b07c6658e0516878a4ba97b43d4280afc9b77fb,
      0xfb55a1d9346335eff6d5d13e5203c65165210421b23a8aec26781cc2a8eb2ef3,
      0x4c3d4712c0f28cd913e222c532fa9e203b1cc82a2f8f094ef1496b0bc78f94d1,
      0xf6c10804cd4a41d50422ebf2cf1fffb9999995c09498b82cefca0bdd67d75f57,
      0x7afc435b6e6c31894d4995fcd246a9c17ec03e77bd19bc4b137c9cee2452ca46,
      0xcbdce02d630853983fd6d6c15d90143cc99b8d92677e1aeb8c255999ec30612,
      0x5ea67c451403eedcbc1b5cb0530ee5dcaa09dd23e8e1fc0473225c42de071992);
    e := Twice(f, P, e,
      0xcbdce02d630853983fd6d6c15d90143cc99b8d92677e1aeb8c255999ec30612,
      0x5ea67c451403eedcbc1b5cb0530ee5dcaa09dd23e8e1fc0473225c42de071992,
      0x77ac0706b0637fe5922d521d3551a2b09461e6d171f877f88b03453398edd4af,
      0x5696f452f44e8344a7e9485b73f553cd2239428393fb7a2027feb95a963cdf30,
      0x37f16221a92ae46d79941286a7e1f21939e0ca377e1aa57459725310b093a71b,
      -0x61debf7a71343603d472ab9297c3478961b5fb8932d8389817f0f27d97b8745b,
      0xde1a706aca583c647ed0b50b228779bea80b872d03c77b2c213c5bd6f2b30188,
      0xdee047c81bface66352bf3555df367280c5658068e5c9d9e816d97a7217c3979);
    e := Twice(f, P, e,
      0xde1a706aca583c647ed0b50b228779bea80b872d03c77b2c213c5bd6f2b30188,
      0xdee047c81bface66352bf3555df367280c5658068e5c9d9e816d97a7217c3979,
      0xfd9e9303a13f2611684fdaba8d9d7893334dff676fd7847c47f45fb8532ef84a,
      -0x887a2e66b3396d767a08f8acd848f23c685b8b0f0928ae7b9986333105129ef4,
      0xfb42d0cef99f066d186df89088b06248fb428e14d8a97d7965a838ac7f622ce0,
      0x64954028b7f0f01ca3fb8dc602c12e49f9e1a8a97f52678d6e81bc20f08688ff,
      0x78937f04ca80fc9bf54d60f155e9635837f09f275416e80817cd138267aeb534,
      0x4cfb2ff38e77b759eee85bda716302db67b4c0564bb2df94ac32220f1c3c0bfe);
    e := Twice(f, P, e,
      0x78937f04ca80fc9bf54d60f155e9635837f09f275416e80817cd138267aeb534,
      0x4cfb2ff38e77b759eee85bda716302db67b4c0564bb2df94ac32220f1c3c0bfe,
      0x6f7c925bbab27e16aa1ddf91c2756f83076ef4d2730b336bb66763f3b11e6dd,
      -0xa62f083fbfacf88e90bce29d01843d66f1566266ab467e825c9c9aa4774dda1c,
      0x308d4389a8706813a85a0ea484e7b7c7a596d1aa034644a84b9d1fbd2f6bca,
      0x305b8900d0d735e944fec293fc59bb005ed03b9efe6b89931c6ffbedaac2dca,
      0x9891d059f69e4c6059f134948205e535022e92a8530ffef4d8889568a28ce4b,
      0x66156ad42649c0dcd11da9a0a640c1c4d7c816d85d1a6a6a116f8f7301656111);
    e := Twice(f, P, e,
      0x9891d059f69e4c6059f134948205e535022e92a8530ffef4d8889568a28ce4b,
      0x66156ad42649c0dcd11da9a0a640c1c4d7c816d85d1a6a6a116f8f7301656111,
      0x4dcf4f2db83632498f07c437b299509732eec42833bfe7d51eddd684c949ac17,
      0x3cfd6f9ca6f1c3379baf1031c9d3e9b73f8a95ec017409cd6b9e46839d94bf4d,
      0x17a65d82a53dc1c14da5027ee5dcbc937604ba3a500b06baeef8ec30200dca54,
      -0x1eddeaed6b799e2b9c3d529b654e6e48bffe2791b8048907298cc138a23ed598,
      0x6f1701b4729c777b19f43e6014bd3b078177fd5e705a8ef16aa4cc78f71c780f,
      0xe8a3d1d1802a3730b02b9780f1c960fe899eb051d86d005c8f6145affff5853b);
    e := Twice(f, P, e,
      0x6f1701b4729c777b19f43e6014bd3b078177fd5e705a8ef16aa4cc78f71c780f,
      0xe8a3d1d1802a3730b02b9780f1c960fe899eb051d86d005c8f6145affff5853b,
      0xada0623773a3c5c7369889feb6cb0881ff972b6855690ca9973dc2ef67066825,
      0xaaf2083a44d518a5596cb73595efa0acba50d49270d96b83d3701cc6370c8485,
      0x75c22939dd4a6692c0d6770b702dfdf7977771cebff13566b361a49eceedabb4,
      0x48db2d3f1452df954ca9451f83b3255dab3bf15188a30eb25e89e790083d7017,
      0x3ab2a33f2233e6930efa89118ab05beefaa1dc9e0dcac79163005e29ced6f2f,
      0xdf64a0e144545983ea0d3552277c5d3c03f39f66b047804c2488c240ec2a8aec);
  }

  lemma Ones28Part2(f: nat -> Point) returns (e: nat)
    requires Starts(f)
    ensures e == 0xfffc000 && f(e) == Affine(
      0x2eb2c77a792fbe970f447c3e42f31c5b8570897baee1ce34a14645a51bd4984c,
      0xd55cc9f6a47e392738e06eecf220433964eaffc64c43109784b5897c81b9d058)
  {
    Facts(f);
    hide *;
    e := Ones28Part1(f);
    e := Twice(f, P, e,
      0x3ab2a33f2233e6930efa89118ab05beefaa1dc9e0dcac79163005e29ced6f2f,
      0xdf64a0e144545983ea0d3552277c5d3c03f39f66b047804c2488c240ec2a8aec,
      0x8cd77c3cc1dde87cd8005f1a186f87b4e8edfb81c6f1af2cc1fb051a98ec7377,
      0xf5a5c384426581d4c02e0469a04c75a13910b58a3feba0151ebc9c7335abbe8b,
      0x4d7c65445e63433f7a017d515d3ce8177f44d28334ed1278878d27ea9ca67133,
      -0x7510ad60c2cfb4dc892fced2be7d54e0edd0d18c47bd239c96a71a486efbf198,
      0xd8738559baf8f5d96b0a00b2ec792d5a8130376a30a0225e4339797c04d74696,
      0xafa73db463cd40e5167a968098c5541f0bc05176630841b8ab5cd0cc6fe60a1b);
    e := Twice(f, P, e,
      0xd8738559baf8f5d96b0a00b2ec792d5a8130376a30a0225e4339797c04d74696,
      0xafa73db463cd40e5167a968098c5541f0bc05176630841b8ab5cd0cc6fe60a1b,
      0x59c9bdc723b2b382035d727cf592d96ff7fd41c388d3ec0fb00e78206d97f55a,
      -0x1a9d24d84f404b3cb240a29413cd60136b6488c898cfbc10d2e9781312e9ef850,
      0x1f7de4f00637f50caa5ba9458ce58aa76598e475cb821922663e09177c0ba0e4,
      -0x3f35ea834fc97a7a0d1bd950c023b2f922593f83037662431e850b78ad2f3de,
      0xe3b718c39df7853d414ebfb24445e29187c4ec00b9a3ba03c91dd82e5e03dc9c,
      0x2aec2dcb541f868cdb0aa5ea5875b20b64b5d9c020be640c85e60ee4b03ac78b);
    e := Twice(f, P, e,
      0xe3b718c39df7853d414ebfb24445e29187c4ec00b9a3ba03c91dd82e5e03dc9c,
      0x2aec2dcb541f868cdb0aa5ea5875b20b64b5d9c020be640c85e60ee4b03ac78b,
      0x6e5bbcf43bf7b1900ad7334f39baf7deef979b7b886a3ad1bb090bcad3fac208,
      -0x23aa8effde833723258e8acc92425d436d7c54727113b2fc8492e5adfed468f80,
      0x2f92f741c4a31fc630bacb17d1a280b5c5dcf1301205b12f37e7bd92ba991215,
      0x2581161d096ecd001342475a655aa6443894bba0bad1d89cf803ef75920a57a4,
      0x8cb74e5a5565bfffdda1a512416bc5f29e01cfeba0d43dd39c4614cb20d6692d,
      0xdd6ea1f94eb3e9fed7588ac12d2aba60ae18f51d6c66c2d740887053b896ad1);
    e := Twice(f, P, e,
      0x8cb74e5a5565bfffdda1a512416bc5f29e01cfeba0d43dd39c4614cb20d6692d,
      0xdd6ea1f94eb3e9fed7588ac12d2aba60ae18f51d6c66c2d740887053b896ad1,
      0xaeafa2f368f6a641576b1e090feca61d54ebdcb0357062537acd8b06d724e09d,
      -0xd527df2668528bbaac875ad5f9aa6ac48b11ad7a3c262ae08bf1c99357bb976f,
      0x77333a031331c380b9dec8aff1fbcd083c9913e5578755e24bb7abee6dbb725e,
      -0x4df945de0f27aa6d66a12f48ee1ee07838d116376ce711dd6e3f3b722be3bf08,
      0xfefc4581c8d89a8351a91ec9f1d434f4b26cca25d853f3ae630c6dac2dedc6ad,
      0xd47fe65a45292396e4e5baefb7aaa8bf31d48e88a53d7684cbe345f025263027);
    e := Twice(f, P, e,
      0xfefc4581c8d89a8351a91ec9f1d434f4b26cca25d853f3ae630c6dac2dedc6ad,
      0xd47fe65a45292396e4e5baefb7aaa8bf31d48e88a53d7684cbe345f025263027,
      0x9178665d489430994e7d5f89e4081305f8fb20ef5b13a882949779be6272007a,
      -0x2086bf2c85edcab9fcd5ecadd33b571366d1a9326701da9d6838deaa793138ca1,
      0x52a99c95cc9a61cf219cc6d12b7358f6ac213b7a7549ae324f423b9e0cc1368e,
      0x7c7538390178c4ef303a0a27d7abefa9b4c167ed93672e0e0e3b2324e549a2a8,
      0x23f69a4655b0d8a727664b73eb1db2f9179c2a45a1a237d96de1659e262de0b8,
      0x55941407d69ab8526ae6cc238137df68e2fbca026132479ff070b588cb6d29c3);
    e := Twice(f, P, e,
      0x23f69a4655b0d8a727664b73eb1db2f9179c2a45a1a237d96de1659e262de0b8,
      0x55941407d69ab8526ae6cc238137df68e2fbca026132479ff070b588cb6d29c3,
      0xc506e928bd239762617c20466d3e7e7a2bb56057c8732f183be2cd309f3c6b58,
      0x74927273831deeb2373a2ef34a5ad558bf3b35181a2633dea4fd73ac35ca25b0,
      0x97a3a308755cd36ef313922a5356badbe18c59cc6ec02a37dd6aaf254346db32,
      -0x404761bfd77666f6b6b5f563a61123a94a33a2e922aa173f0170533543ff05fe,
      0x777b50f27d9e30b6ab9cebd0c77e8183d08b9fca990bb79160a9c9c5435176a2,
      0x7bbd002788072924316874c5cb81d5b8585afa4b26ae7c431693833d5790a16f);
    e := Twice(f, P, e,
      0x777b50f27d9e30b6ab9cebd0c77e8183d08b9fca990bb79160a9c9c5435176a2,
      0x7bbd002788072924316874c5cb81d5b8585afa4b26ae7c431693833d5790a16f,
      0xccf66734d4e492af075efe7aecdd95c4591de64da9454605b465b2d696a41cf9,
      0x1ed7c9477b48030c92fe1c53f04b8fdc785ce068e042718db04c3b7f26166d3e,
      0xa419a1a6b670ff47f8115e35ed253fdb9d8b2623cdd0fb4205d6450bac12e82f,
      0x3a45db97716e89622574ee67d2fab147a9405f9927bb9a1e17354a177e062351,
      0x2eb2c77a792fbe970f447c3e42f31c5b8570897baee1ce34a14645a51bd4984c,
      0xd55cc9f6a47e392738e06eecf220433964eaffc64c43109784b5897c81b9d058);
  }

  lemma Ones28(f: nat -> Point) returns (e: nat)
    requires Starts(f)
    ensures e == 0xfffffff && f(e) == Affine(
      0x5091541f5851647a93df0c14152a4516169b5bd6acf793dee8c9dfa27710e4b0,
      0xec29eeaf3d880023f13d2608200ec283c971081ee88ec05247bf6d65b57e8537)
  {
    Facts(f);
    hide *;
    e := Ones28Part2(f);
    var h := Ones14(f);
    e := Plus(f, P, e, h,
      0x2eb2c77a792fbe970f447c3e42f31c5b8570897baee1ce34a14645a51bd4984c,
      0xd55cc9f6a47e392738e06eecf220433964eaffc64c43109784b5897c81b9d058,
      0x1e70619c381a6adce5d925e0c9c74f973c02ff64ff2662d734efc485d2bce895,
      0xc923f771f543ffed42935c288474aaaf80a46ad43c579ce0bb5e663d668b24b3,
      0x1bb37266a2d64d60f2d53062454a50d347fb1513c9624c56ed921192c9a473d1,
      -0x1c2666fc16df2298941cd20b6bdeb08e780a0af177515ba1353e67b8b8a43de,
      0x2ff57ead5007e2fb0107d31edd3eb73892f42fb2d5f6b175e94d7573ec891f0,
      -0x3aa369469a9355a8b422a82d5c5a8cba835c4fcdcfdf558a5b6fb298229f83d,
      0x5091541f5851647a93df0c14152a4516169b5bd6acf793dee8c9dfa27710e4b0,
      0xec29eeaf3d880023f13d2608200ec283c971081ee88ec05247bf6d65b57e8537);
  }

  lemma Ones56Part1(f: nat -> Point) returns (e: nat)
    requires Starts(f)
    ensures e == 0x7ffffff80 && f(e) == Affine(
      0x204376a8464273edff71e3a28ac75f639ed0ffe9d41352071504b8f40cb3d714,
      0x8b62611b02266cb723d9b2a01259a83f55fcdc943538425b516753d6725d0726)
  {
    Facts(f);
    hide *;
    e := Ones28(f);
    e := Twice(f, P, e,
      0x5091541f5851647a93df0c14152a4516169b5bd6acf793dee8c9dfa27710e4b0,
      0xec29eeaf3d880023f13d2608200ec283c971081ee88ec05247bf6d65b57e8537,
      0xedc100775d0e753b864e9c138af3e85ce9babbdc55156e5f125b981bbfd6f520,
      0x16a9846ca9bc920267a4885b53d669e969c14d91edfd51f010f3b11bc401df340,
      0xdcceec5eb6474c849fb28ed8a99b7ec5e212ccd45eb1bba0a718440326ce39f9,
      -0x9b1e3440b4061d77b5eb2860cf804a5565c6c157ff9d467f5416e2a4d5c7ae5d,
      0xf7970935472ae5c94d6ec18bb244f880eb42c11aa9fd2e3f17c635bfa71fb9e9,
      0x5919f4ea83e179a72e81a0de8588ceef6e4f52c25ded44e4287ea80672e0d5bc);
    e := Twice(f, P, e,
      0xf7970935472ae5c94d6ec18bb244f880eb42c11aa9fd2e3f17c635bfa71fb9e9,
      0x5919f4ea83e179a72e81a0de8588ceef6e4f52c25ded44e4287ea80672e0d5bc,
      0x62e67b661349f0f9857a45bd8334353086c7a60450245113f95ee78e5607da08,
      -0x28986169463b71f8a0f4240d93b6c585bf8cf6cfd2ec6ea84c1ec88236198c4fd,
      0x263545fc1daa8498787d5154a0627d318adfe93cfcaa3771d8fbc4f2fb6c710d,
      0x2bb0c1b9c9f433f3b6b67e763b3f1bf48eec35263b89248537d0ec4b0d4dd271,
      0x867fafc7395ccf6a755b9305c873ba8f797454ea9b57116f4bb4407a40bd9f0b,
      0xd93f6080e709ae72608f890a51ba6079b6a6a4a353976b7cb609b30c61232e75);
    e := Twice(f, P, e,
      0x867fafc7395ccf6a755b9305c873ba8f797454ea9b57116f4bb4407a40bd9f0b,
      0xd93f6080e709ae72608f890a51ba6079b6a6a4a353976b7cb609b30c61232e75,
      0x42fbd287bdacadca67c23abbddbb45c74e2e83d26c325354496761a7c1462b6e,
      -0x624dadc14040358348396f623f86ed76b3397bc09604673b13576416ee2b2651,
      0x1186d044811df5620e2f67f2fd1aef1d70eed11f177c06c24f409805d3eee882,
      0x1054223b8e649aeef955339ab62dd5f34f43036752199f9fb7898e1a8a571eed,
      0x4817f0f88d91dab15cf768e0d4a08536a9eaf9f73c8e2e8848ef7c06f4d03d50,
      0x1840087b8932ea7cfdfd510fb0f5a914d267bf29875b808448b4dc09c8e63f62);
    e := Twice(f, P, e,
      0x4817f0f88d91dab15cf768e0d4a08536a9eaf9f73c8e2e8848ef7c06f4d03d50,
      0x1840087b8932ea7cfdfd510fb0f5a914d267bf29875b808448b4dc09c8e63f62,
      0xd80c665e1625d78004b61ed07424ccb0a91f4c88541be1623697db622547fcb7,
      -0x13fa05a4e045c0a5ae3e6d55a5320075162d941f43d0c152d1ac78bdc071445c,
      0xb654ed5887210b6ea96291793f0eac5f4646d078332b46b43a10a0e084e6341b,
      -0x59b2f0e9340d360fdcfb5338eea539a3a0639c37c62e70f42a4838c595978553,
      0xb2612d635f3629577b7e337ed4cf286eb7281a477691aeb09b4bae4f55e72b3c,
      0xa0b25570ee8b11623ad74074b87345a9319e494b801df452d40c8d2c3dc98b27);
    e := Twice(f, P, e,
      0xb2612d635f3629577b7e337ed4cf286eb7281a477691aeb09b4bae4f55e72b3c,
      0xa0b25570ee8b11623ad74074b87345a9319e494b801df452d40c8d2c3dc98b27,
      0x3bfa78d7af5afecad4c3671dff4479f402cb200e21499f60d4f9665e972caca1,
      -0x12995309df2f338b52118435765cbb1612eded52915c6b3efc443b07273bc2c7e,
      0xe0d68c3a9215948740d48073e3b54ef5b2244b043a7d4b30e883ff7aad84a43,
      -0xa88c3b766c02697e46a5f954f8a9faabaecde53c48d27605b6f8fd41047d350,
      0xdf5783db29350aafeef8b827c66ed9b4a0d0edae21feaeee5b13db851165d07c,
      0xf6a4938ce4162a21fdec638c51513945f2e7394485df8ee28b3713b0776c1349);
    e := Twice(f, P, e,
      0xdf5783db29350aafeef8b827c66ed9b4a0d0edae21feaeee5b13db851165d07c,
      0xf6a4938ce4162a21fdec638c51513945f2e7394485df8ee28b3713b0776c1349,
      0xec190e2768d9c572e31d13d942383982ad626b8ea954c675c2c230042b69c0fb,
      -0x819d097197a03828a7118644f216e6c53e9358b6e0aae78d5bbcc9f0e9ea7916,
      0xd9be348c6dcc541d52125bcc812514fa7aadb8459d04aedf5a547c9a6cc6ffb4,
      0x546811fc9b80479fca6f776497ca400557abc3ba38a774447afb6deff477e661,
      0x83d1f80c7324ffd0b437c41ff13258b11b2e56dfc63ccfb16683ac5f3209b315,
      0x85380f82581f98cc57c7f86f5e9fd54f834fd97d9978ba477b98e06ff7c738e5);
    e := Twice(f, P, e,
      0x83d1f80c7324ffd0b437c41ff13258b11b2e56dfc63ccfb16683ac5f3209b315,
      0x85380f82581f98cc57c7f86f5e9fd54f834fd97d9978ba477b98e06ff7c738e5,
      0xdf899f7321624b040035dfe77465e770eb650d15b247c7e077a03daf825a53b,
      -0xbd1741cb8535604a87035526a594056b22314d7c31835e767c646b1cde8a1df3,
      0xc3310dc6a0b331245e7ef0ae8c262ffa461a3f44f277807125a21ee8aa9995,
      0x56eea7fbca124d5ff6cb769d428f8ccd027ad4fd9afcec43c9beeac3bed3dd0,
      0x204376a8464273edff71e3a28ac75f639ed0ffe9d41352071504b8f40cb3d714,
      0x8b62611b02266cb723d9b2a01259a83f55fcdc943538425b516753d6725d0726);
  }

  lemma Ones56Part2(f: nat -> Point) returns (e: nat)
    requires Starts(f)
    ensures e == 0x3ffffffc000 && f(e) == Affine(
      0xb14df182ec87a848332670114bcfdc58a2bb531a3af79981b9f9fec160d0b1d,
      0x59ea7ae6defc7760bb1808128c4f758f789f4c0574d0df35c1294895da6839a7)
  {
    Facts(f);
    hide *;
    e := Ones56Part1(f);
    e := Twice(f, P, e,
      0x204376a8464273edff71e3a28ac75f639ed0ffe9d41352071504b8f40cb3d714,
      0x8b62611b02266cb723d9b2a01259a83f55fcdc943538425b516753d6725d0726,
      0x92f21e6d86b02c0d386d1ee573205c580ed26e519d617dc2fee87b68c25717b7,
      0x93d10f908ac8e59c141b549f5773be6c5433e0f32e8c614a674e16ca5585dd9c,
      0x54590fb2785171bfa090a962321d0759a0bf6e3749faeb9df0f83fb912687f4f,
      -0x75865729c373c182857f13a0a07d51de066764dca419e980e91379eff5d7a5aa,
      0xed020e9a96696f3010297ec517286419a91a6c4372485f53d68f7af8a3fa9328,
      0x617fd13b711d04637a27ca3b224568de8a36653bac1431df3e608725c0617cc4);
    e := Twice(f, P, e,
      0xed020e9a96696f3010297ec517286419a91a6c4372485f53d68f7af8a3fa9328,
      0x617fd13b711d04637a27ca3b224568de8a36653bac1431df3e608725c0617cc4,
      0x541a0736b471274c9bf4fa864eaf155d6b72f4c9004b3a6ceba5b4dd953f0c19,
      -0x25236b867361f0ce9a15ae938b2048df4d0d5d3bcccdd9a3997fe253be1242d08,
      0x1ba117615dbaf25510fa884baaf2879010894d68b369f41f71cbdd2cc1520c79,
      0x1535827a697fd0b1e09ff8038aada4c14914146e318d23e6e6dd13b796068037,
      0xac72fbed75bcaa7eb58147255c086b1d720e4a484f57d0c58c54ad1b910ccdea,
      0x1b897a8718f8ad6edbe39aa440dc78020426cb589e5dde5a51179b056d270031);
    e := Twice(f, P, e,
      0xac72fbed75bcaa7eb58147255c086b1d720e4a484f57d0c58c54ad1b910ccdea,
      0x1b897a8718f8ad6edbe39aa440dc78020426cb589e5dde5a51179b056d270031,
      0x20080fc699f3be209797151bdd936769384c08a25f0654a3c6d9a6d99d6dda57,
      -0x1559c07e70405c9a6599420d04ef5b48a98c0e80a6fd55cbb2f4fcc9d4c31c002,
      0x4020432a3df6ee119d66c3bef97635aaf67e1a631ee91aa2bb31f8739f0a574,
      -0x5bb439f279eeccc0f645ce9cb2242a727e0c6f1dd39c48dce666dfb4ec567a2,
      0xda418eace3824d13dee10565050b633187c5874064f04e585f9586c15b9c1d71,
      0x47aa322d488fce903037b69fe5ba120f002b2854c820acc3d98c05316b9081ac);
    e := Twice(f, P, e,
      0xda418eace3824d13dee10565050b633187c5874064f04e585f9586c15b9c1d71,
      0x47aa322d488fce903037b69fe5ba120f002b2854c820acc3d98c05316b9081ac,
      0xf592299aa5f8b42643398fcdde5faf5c52136a441214a1559f412c4c00c540d4,
      -0x1a4bd8de1a20f955acf78ee4f0f17395886a78dcac1f829eaa7f3c575e5593dad,
      0xeb9117157cd63f147cd864503f5606dbe42ee664ec2e73d6c9c59e749119132c,
      0x3e8f51fd898195622f34f43d95c88b86ee51c6bdc6a6bb549acade6385c0fcf8,
      0x990a16c40305f09a29e2d62517b08cc39f9f921ddc0c6eca642fb663e02c9f9a,
      0xf45dbbcb4ede7ff33288325d5a405606f0a3c666783bb81bb418ea7df831e2d8);
    e := Twice(f, P, e,
      0x990a16c40305f09a29e2d62517b08cc39f9f921ddc0c6eca642fb663e02c9f9a,
      0xf45dbbcb4ede7ff33288325d5a405606f0a3c666783bb81bb418ea7df831e2d8,
      0x7ad3b61f4238c8445a1346abc6bd83601494da2dec453dbe0477c3244c7811cd,
      -0x27f9a9a1f26575b20a1c257e6970466381c4e4b4e620e2ddb5e184ea245d98c4,
      0x3aee78ab8435be751e29df9eeac1d1ab52ae67711e846d5503feda1e050fb790,
      0x42c3a6e2f5593185805716930f771fefd645ae076d043c67d430ffc089219762,
      0xde31d8bacf2d51170bf8efe39e492a23bd4fbdf3166861cf49f89e3fa0f2b85,
      0x3af25338056cc3b59a7f25be2fe2ca6735dc4130484004577708c99b412433fb);
    e := Twice(f, P, e,
      0xde31d8bacf2d51170bf8efe39e492a23bd4fbdf3166861cf49f89e3fa0f2b85,
      0x3af25338056cc3b59a7f25be2fe2ca6735dc4130484004577708c99b412433fb,
      0xbcf34e5c86921288263943eae7dadfc8c29a07fa791f0ddaddc946c60e4345e6,
      0x54c166e1c121fe8509e2367c02bc08f9cd2a216b3d0c8dc1c61378501b1ba497,
      0x8b764255c14a87f929a2345dffb09287cd66b21c5d2c2aabfbb7ac7058f887af,
      -0x8434464076d54c8f970cf9ce4e2f57bf94f8e032688f4272c2c9ee9a06ecf81,
      0x1914fdb5e51bd3b3bf421cac8b66d0464df3dff8d30d57a3d1f3e1c569d94679,
      0xbe7494637131c830292af89e483e740a1c9faddb285c3ce1e16655842941e57c);
    e := Twice(f, P, e,
      0x1914fdb5e51bd3b3bf421cac8b66d0464df3dff8d30d57a3d1f3e1c569d94679,
      0xbe7494637131c830292af89e483e740a1c9faddb285c3ce1e16655842941e57c,
      0xb22dcfbdfad56a2452a4e02df30a6844691b1019cef583b58ee70035882f31d2,
      0x101bef69f35df642bd9ceb05495a63ea3a028308f9827e189057af8fe98e3fdb3,
      0x7c03bd16e22fbf434a3d52381dfce35a2a0d13da0a27eebb9006847889af04db,
      0x9be96ab870eeb540c3346c66e48aebcf0f5b9d9dc26d40e4da09d4b322788bb,
      0xb14df182ec87a848332670114bcfdc58a2bb531a3af79981b9f9fec160d0b1d,
      0x59ea7ae6defc7760bb1808128c4f758f789f4c0574d0df35c1294895da6839a7);
  }

  lemma Ones56Part3(f: nat -> Point) returns (e: nat)
    requires Starts(f)
    ensures e == 0x1ffffffe00000 && f(e) == Affine(
      0x877729cd9d3b82d66ee5b67b904dcf886c0902e6906c6d8944c7afabe4379c1b,
      0x5cfb5ee07f873abd4982ab809c069bf71307ea5f778fc7f33b96a431fbc570b8)
  {
    Facts(f);
    hide *;
    e := Ones56Part2(f);
    e := Twice(f, P, e,
      0xb14df182ec87a848332670114bcfdc58a2bb531a3af79981b9f9fec160d0b1d,
      0x59ea7ae6defc7760bb1808128c4f758f789f4c0574d0df35c1294895da6839a7,
      0xcd80821498237b663a68bf8b8c66d7dbfee839608c491dd59dc79d379e8441a3,
      0x8eeb68122dad5804a044e661f7f2a080cece2e2c38dab6da3919e7d184c48961,
      0xa4f710d75259e349490f6e44ec1c8601ed4adf9c16577f4d0e40718f3ff7919d,
      -0x18b808337b5658262146f59bc4b61e0db6ad08c7499567825c1471ee8ccd0cb0,
      0x29dfe4252633ae15ce2f1469080f405d78bd0206862c69541d915cdae8a4cfbc,
      0xf8357c61bc2949997a929c6a0531aee5250cec1c57dca0952c36e905a77fca6c);
    e := Twice(f, P, e,
      0x29dfe4252633ae15ce2f1469080f405d78bd0206862c69541d915cdae8a4cfbc,
      0xf8357c61bc2949997a929c6a0531aee5250cec1c57dca0952c36e905a77fca6c,
      0xf2a36925912ff151427d14c5985a2ef6d3e4c9e2a5bd26e7494b42b70d19bf78,
      0x1c1f58e806665731ba336a7e885a46da6af63d0e342ef7343d913c8cdc70125f0,
      0xe5f95b1a17855de78d56e8ee677ed02a9832743cc315225caea92e04377a40c8,
      0xd6fa341fd8ce896fafce0876b1bf2506c851b53b3281b86d1efd84e68542cb6,
      0x1bb2d6a87cd8e4011296b543daeb3dcb43d283536494eb90328562c30cebe410,
      0xa05d778f9bf0aae34d4792fdf065292d6f85e4f0f6912d9c057e7805380ea4ca);
    e := Twice(f, P, e,
      0x1bb2d6a87cd8e4011296b543daeb3dcb43d283536494eb90328562c30cebe410,
      0xa05d778f9bf0aae34d4792fdf065292d6f85e4f0f6912d9c057e7805380ea4ca,
      0x161917cf0c8a6a4b19bc219858fd9bce1794b79cd13d533ae7236dd7355b0e5d,
      0x12b1ddfdf94eafcdb491a96905c10bc2b88a5fc76986588920d87bc1a379277c,
      0x1e8528d3ecf1903d2a60565fad855ffb9ab03f03faab7d7aece5f20ebb29803,
      -0x121a025c2334379f7b37914f4716c0fcde316b62a78fc6d98a4681e020641601,
      0xed66ab8c67293aa2fa2c7473c6635312186092836554d9729ffb05ac23aaa91c,
      0xc4a3b3dc031fb87e4eabd54fa30c681923d2c012700b8275ad10ae02f0a12409);
    e := Twice(f, P, e,
      0xed66ab8c67293aa2fa2c7473c6635312186092836554d9729ffb05ac23aaa91c,
      0xc4a3b3dc031fb87e4eabd54fa30c681923d2c012700b8275ad10ae02f0a12409,
      0x38c1d619d3a58f96ee3e917d3de79c9849966152eb7c774d8ae3f845c3a6b334,
      -0x23d4461fe88a07fe55334cdd92bb35319a470725a58fe855378d2086e322bb6f8,
      0xc95606fd298bee85b2f518e8336b15403ee5888ac914f792c9e691fe5d89a2b,
      0x2a67e31156396757507da496cc2bae4e9f6ce5d4907796a69938d3cc0df40f72,
      0x2e21cf4171a61c0014b80ad98a532b903210a0662b3719e1d5427d250530ce73,
      0xf3364642d1a55f4ead4d429d8801cfb75c8e9feac94329a70c1121113908635d);
    e := Twice(f, P, e,
      0x2e21cf4171a61c0014b80ad98a532b903210a0662b3719e1d5427d250530ce73,
      0xf3364642d1a55f4ead4d429d8801cfb75c8e9feac94329a70c1121113908635d,
      0xc3079e2039294f8b7f4dc0f539bffbb7d52bed14820ff8d5a573337f626bbdcf,
      0x159a2a79e096c6b5011985b78f892756cd1c204143d5cc86998a9f30d98b58985,
      0x94949b1f1e83da0e32d8ea50a3195dfbba9d8b445ecca93e5f8fca3548b6e9ab,
      -0x2b5a87acde247deb27fd8ead411725cad32f8faa1a6dde5423288c2b0ac3042,
      0x31b051bb515fa6815ef38e7d03c372a19f080102592db8056a4c1cc82b757616,
      0xf63f67f74b0813e8c701e8fbf4352b07558d96946703d1a2ce3e4dc06d6b8cf4);
    e := Twice(f, P, e,
      0x31b051bb515fa6815ef38e7d03c372a19f080102592db8056a4c1cc82b757616,
      0xf63f67f74b0813e8c701e8fbf4352b07558d96946703d1a2ce3e4dc06d6b8cf4,
      0xc2893e55458e9d0b4e5d3748c321e291301366c2d7c2e72773a1567a6e84b933,
      0x15951372c44422e7112abedff38800032f0bcb571b6f64ac4bbebc937dcc46634,
      0x93d44c0d03de02c1908b1b21556e38534239512a1db9106bd6fa5cdd1713aa35,
      -0x9152378564acc22ec13798c54e5f430e6db5b4d26d217671de234c57593bcd3b,
      0xf0ec9ddb73c34ae6ddc0f5673ca080becf5d3bcc045dce0f2ac2f4fd11b46842,
      0x2b6ff546550694b97805f53e25b517c0c2d233551a7b9f9cb2a8493fe31e2a1d);
    e := Twice(f, P, e,
      0xf0ec9ddb73c34ae6ddc0f5673ca080becf5d3bcc045dce0f2ac2f4fd11b46842,
      0x2b6ff546550694b97805f53e25b517c0c2d233551a7b9f9cb2a8493fe31e2a1d,
      0x92dbc9bfa90a1c2a295be873fafe78b62889aee066b6aa8b9e1bf8c821e61f62,
      -0x2765f3e43fc20e25d4da17ec039816d6dfa9dd4314506925bb55c0e55c4b4b0a8,
      0x543f6ed169b9465bd43e2dd5ebe4825b6d50602e0cbc3289602b5b89254d372b,
      0x3c7f86c658931dd312d548f37c7675673f90262dc5385aaf8cc9c4f961729937,
      0x877729cd9d3b82d66ee5b67b904dcf886c0902e6906c6d8944c7afabe4379c1b,
      0x5cfb5ee07f873abd4982ab809c069bf71307ea5f778fc7f33b96a431fbc570b8);
  }

  lemma Ones56Part4(f: nat -> Point) returns (e: nat)
    requires Starts(f)
    ensures e == 0xfffffff0000000 && f(e) == Affine(
      0xe97cf71f7af675aef309b4ba5a87f2c8f9d5b9ce9bede6ebe0b442fc878dbf5c,
      0xb7e179739e0e85f605c5af8fc0cc834837f0193528c082f747d5914ebc7acaf8)
  {
    Facts(f);
    hide *;
    e := Ones56Part3(f);
    e := Twice(f, P, e,
      0x877729cd9d3b82d66ee5b67b904dcf886c0902e6906c6d8944c7afabe4379c1b,
      0x5cfb5ee07f873abd4982ab809c069bf71307ea5f778fc7f33b96a431fbc570b8,
      0xab1974fa7eecbd2133c323e5da34ace0d0d3ede2ec6d2ce9c72407ab975d50d3,
      -0x5ac261da08159b4efbd7aabf0f50f7564b080aace2d7f177c0a3bc6c1fa49cb5,
      0x725b04ceb3f10709fc582eedf5f6f9c8fecf7356eabc892fffd97bafd2c51b73,
      -0x4879f4e57ca83bfdf199decd14ed21fa6f1c701281732ad59ccb0ad5856f10bc,
      0xf3e7b410ce4dedc54b4fd06c2627b2c210f202811dac54142623815d56a11796,
      0x5e765a3ffa49a17789ddf859d595c17204752e192178b99f4acc08dd1b257b6b);
    e := Twice(f, P, e,
      0xf3e7b410ce4dedc54b4fd06c2627b2c210f202811dac54142623815d56a11796,
      0x5e765a3ffa49a17789ddf859d595c17204752e192178b99f4acc08dd1b257b6b,
      0xa9c9866de7b856f214e62d0713825a6095cdedcd52c89f76316e6098174f6aed,
      -0x23bd81873e2b9fb4411377d10af25977390332ff46ed6ad8f67a045a763652bd2,
      0x709bb2217b1e8008477a6292cb4179922f9727626613fcee55a65a2aa1dbd739,
      0x35cd211aef6b809a7dd11f26a3c2cfb21d19cd3985f59c066b7dc37013b0ca97,
      0xa2c8ff3399f0cf5cd74b14513d9f9f3e7aa80e581701cf1913bf087bcbad50c6,
      0x35791defd03c28198db8eb2bc48e5a773d3e82020443cfef5eaec062a8c0dd6c);
    e := Twice(f, P, e,
      0xa2c8ff3399f0cf5cd74b14513d9f9f3e7aa80e581701cf1913bf087bcbad50c6,
      0x35791defd03c28198db8eb2bc48e5a773d3e82020443cfef5eaec062a8c0dd6c,
      0x3d31d1fd900e9b2b1bd6eb8e9396653330220c0f36bcf4899652bd1f6cd67c94,
      -0x11cf87a0bba17f576bebc91839f5b3eef50d7b7ae1da6117b05d7cc8c18bd6334,
      0xea0c7c4e5f81be7d9109a97e86ca01333246b95b1f6c63fe7d1f99132c9b02d,
      -0x1176efc47fc0cd008257d028e0e2de72b1e2de4fc0b1726f62603030aa30ce12,
      0xebd899da99eb447c48032bf0d35336b95c2f74433468e9a0409f7301a06e6fc1,
      0x79e7f9c4127442de76ed365c58b7d1a05218bb5fc93571c00968bd7e7e8332c6);
    e := Twice(f, P, e,
      0xebd899da99eb447c48032bf0d35336b95c2f74433468e9a0409f7301a06e6fc1,
      0x79e7f9c4127442de76ed365c58b7d1a05218bb5fc93571c00968bd7e7e8332c6,
      0x44ccecdea4017b94610a79a85ec374bec5f77d3a07fb16590764d0ba30702ee5,
      -0x24a4fbd34027d99c3e099053297ba4621b1a2d5e57eaaa3231c5bc1a076a06f69,
      0x127d81e0a5216c075f8607ef444e657939fdc64e1ef35ca8b89347b1cda91f2d,
      0x23d45be56cdce8bd7360fdd6c2b4463c1d2f3f2699bc37468290751df08faf5a,
      0x668722cd633a87ef1b4f4abf46b5b8171c8e117dc9ef1be997c95e3e928a3414,
      0x2c7fbd8053e083b147c6e497e2065bc6909b417f8f3ca8aeea8652d5916b7b75);
    e := Twice(f, P, e,
      0x668722cd633a87ef1b4f4abf46b5b8171c8e117dc9ef1be997c95e3e928a3414,
      0x2c7fbd8053e083b147c6e497e2065bc6909b417f8f3ca8aeea8652d5916b7b75,
      0x88052b6d8227f240c51438a8b0124d52de9b3635ef53aa149883606bd5757314,
      -0x4be65fc571738fd41f342fca22694f9d1c8375379609e77f387ef14ac2e72818,
      0x48457e3f13ef7f85cb7fd49f8d0e585d1a7ce92603553d01ad54d77fad676bc0,
      0x26bcdf29e8fc6b210910e090fc09f04f58469d31087c32025ae20eee7a75259e,
      0x1d9edac90ed4cb5fcb57225f81179f0e64453fae0015fa92bd90f7a14ea0c928,
      0x8db40287628bcc0bb0106481bc54c24cf4327430896ed0c54bf7e8fd2ac972f9);
    e := Twice(f, P, e,
      0x1d9edac90ed4cb5fcb57225f81179f0e64453fae0015fa92bd90f7a14ea0c928,
      0x8db40287628bcc0bb0106481bc54c24cf4327430896ed0c54bf7e8fd2ac972f9,
      0x9cfbfc9a8e2b66379870c6b7eb995e1ef8a3f28b74ea112b0021c0e68ad69351,
      0xa382394a6af64269d53bdc3a701ab08a51244e330684d487fee5193d21db69ce,
      0x604413e5ad9852e2ff36fb186f4ec2753a52f23bced0b8024836a719df56a54e,
      -0x1e6e317894c54d39dacfc5b38a098ba6ad5a4d0338707d7535e5f27a4bee635d,
      0x4f3e9a9510f2578ae41391f492d54dc6b3c182f9bb1d9d119980b002b09d6bff,
      0x285519b1a78515ca066a69f9eac65a4870a447956a0c268d56c166b3f4425c13);
    e := Twice(f, P, e,
      0x4f3e9a9510f2578ae41391f492d54dc6b3c182f9bb1d9d119980b002b09d6bff,
      0x285519b1a78515ca066a69f9eac65a4870a447956a0c268d56c166b3f4425c13,
      0xcadd7affa012fb3f72c1a8a45ca93267691aae4edf8f0757de9d7ae48c1ef7c3,
      -0x9ab01e9587442cdb41f8835f8d6a0937d1002b9b071f7850e35ad31c92a3ebf,
      0xa0c245b90110f9184e067dbf5b815038afeb6f6e15c266893874898b1dc5a501,
      -0x7a3aa6f6d7cf53566c9d4df06c9523bf15754fc3dd89cd71ba5dced58bae79be,
      0xe97cf71f7af675aef309b4ba5a87f2c8f9d5b9ce9bede6ebe0b442fc878dbf5c,
      0xb7e179739e0e85f605c5af8fc0cc834837f0193528c082f747d5914ebc7acaf8);
  }

  lemma Ones56(f: nat -> Point) returns (e: nat)
    requires Starts(f)
    ensures e == 0xffffffffffffff && f(e) == Affine(
      0x10417355e5627cd891eb37c55d52882bccc83fbae2145e7ab3aa48fcdcdc1e24,
      0x7eb9f8f1528dde8c2127c5adf229a417dc798a91962a44f62a5699e6a6718198)
  {
    Facts(f);
    hide *;
    e := Ones56Part4(f);
    var h := Ones28(f);
    e := Plus(f, P, e, h,
      0xe97cf71f7af675aef309b4ba5a87f2c8f9d5b9ce9bede6ebe0b442fc878dbf5c,
      0xb7e179739e0e85f605c5af8fc0cc834837f0193528c082f747d5914ebc7acaf8,
      0x5091541f5851647a93df0c14152a4516169b5bd6acf793dee8c9dfa27710e4b0,
      0xec29eeaf3d880023f13d2608200ec283c971081ee88ec05247bf6d65b57e8537,
      0x5815b24d8b947a0ecfe89ede1f2fb8ef9322de619fb6ba2fc4190d9afe41b5af,
      -0x349df5de9482573a0f452eee2976a78f54a97fd6dc7d551793f3e9374584279d,
      0x1e4eec6c0cdee7ddf286a214c5d7827830c181a909f08fdbae9a6eeb1d904a5f,
      0x4abede7c49ee3ed98ebcf6bc7b962482bfe27e50b9f74ddaaf98b503fd0444c8,
      0x10417355e5627cd891eb37c55d52882bccc83fbae2145e7ab3aa48fcdcdc1e24,
      0x7eb9f8f1528dde8c2127c5adf229a417dc798a91962a44f62a5699e6a6718198);
  }

  lemma Ones112Part1(f: nat -> Point) returns (e: nat)
    requires Starts(f)
    ensures e == 0x7fffffffffffff80 && f(e) == Affine(
      0x63dde3dedde94f69f8e35ed9587959525fd781899b040e6dd5aa696490e44a5,
      0x5e66105371bdeded7bbe0526303254ea7881df4d485872468d81025068591b1d)
  {
    Facts(f);
    hide *;
    e := Ones56(f);
    e := Twice(f, P, e,
      0x10417355e5627cd891eb37c55d52882bccc83fbae2145e7ab3aa48fcdcdc1e24,
      0x7eb9f8f1528dde8c2127c5adf229a417dc798a91962a44f62a5699e6a6718198,
      0x8dc6d60ce47cf022df5b6a2405fe27e827e8c9b4aa74bf9854429b4bf61461ef,
      0x8944fa5f13527f0088d309d9b7c1e2a339a9d06fd2a7adb5330dc813dc571760,
      0x4e84a23a029ca070f91bcdbd453e07ab6d5eb06facab591c9fa5165d0743da37,
      -0x20f889e07b6d2905a399cc64b3bb9ec1a7941387781986b1316b12e1b92884c3,
      0x4bca298cda97861a3bf5e3e2110a99880956d91fef37b2c307499b26c70a8cc0,
      0x2a0045e00e756a280b2c817bf451b3a80fcc5905d538c558f3e47566f0797291);
    e := Twice(f, P, e,
      0x4bca298cda97861a3bf5e3e2110a99880956d91fef37b2c307499b26c70a8cc0,
      0x2a0045e00e756a280b2c817bf451b3a80fcc5905d538c558f3e47566f0797291,
      0x76ccd6f9c53fe35cf5a96b90ce9a6f5d3c961f9db38434ddd1567823c14e241c,
      -0x1c54c4960ed550574e56c6839e95463f4c9deb04642056799a8ff5771b76b238,
      0x37217a15946fcce42d02ce98d46ea4434c94aef7ab322708b896bcdad0ca86d3,
      -0x614ad552eac09b8fde733de0e56b883ce0838bcb03269a54875388ee0db8261,
      0x58e49d13d9efdbd8ff54899ea09bbcae73d6270c6b0d09a2e37d199084ff54d3,
      0xb801e5be86771eb9606130eec5b700e6fe82d27b7780d763a46acea46e176b2a);
    e := Twice(f, P, e,
      0x58e49d13d9efdbd8ff54899ea09bbcae73d6270c6b0d09a2e37d199084ff54d3,
      0xb801e5be86771eb9606130eec5b700e6fe82d27b7780d763a46acea46e176b2a,
      0x218de8e4bfd0226baaccec361d6441b926dcf3a3394f48599aae906911665993,
      -0x2c5d6a52faa3f21f3942bb675000dadde6a04f58aaba3b27d27f41e1bc4c61b1,
      0x465e4b5594e5c35257bac926ccb2b2b737a6e3ba11a2f0124a97d98903990e1,
      0xb0f1fc58168db7ffe030ae22b3b6f1635142b74a93fc88e9c32868a8739698c,
      0x484c9cec027ded8da77b32536ba33e98562065996fcef7ebfd54c65682ecb74,
      0xe72dec25db6348ee4427f1ee6454f324eefef6bcdc89ed560ec7fa88ba5f4caf);
    e := Twice(f, P, e,
      0x484c9cec027ded8da77b32536ba33e98562065996fcef7ebfd54c65682ecb74,
      0xe72dec25db6348ee4427f1ee6454f324eefef6bcdc89ed560ec7fa88ba5f4caf,
      0x16358245b5cd1cde38e3570783befdaa8c9c8fb22376e58e37b5c79a82f8316a,
      0x27df47553d69e0145a7a92c553fe32fbea8f99c891e17a02ede2c4e977f8df84,
      0x1ed3d932e676783f8c991d25e4bdf0bcbacfeab5f76a8ae48c04a15122f838a,
      -0xcd13fc83f44a8e5ba970856d9f44ddc3b5c0935fa7feb73275456efc459ffac,
      0x9843401de9620a8a32183553b7f20c318897c04c8c7c0ee456b2e78105e12aa6,
      0x47a9649b744c64029fe0c2642027dab911a404599fd5e85e570f3ee8dda3f731);
    e := Twice(f, P, e,
      0x9843401de9620a8a32183553b7f20c318897c04c8c7c0ee456b2e78105e12aa6,
      0x47a9649b744c64029fe0c2642027dab911a404599fd5e85e570f3ee8dda3f731,
      0x82456af30f65533e097b03a74ec112eda6c4cd5005f4fe440ab8e48ab5ec9d5,
      -0x10b20daf486fbc0ac416ddada161fe2abdaf0c6232ada929b91b4e8b5f926123e,
      0x424a9371af5764b0054a7b81d1dd36d1d13f6bebee0c99cf6833f23da2d776,
      -0x2899d56ec2569a50de23fad5b7d660a4df7a375d5abb03b761ae317e5615508,
      0xe80c80d1934f92ec4c2d09c4d8ebd4f2db47a0fd65462edc3f6ae07c94421f43,
      0xa1955cdfee4ce6d6bf47386368929930072fc040d97fd5490717249e7285b9a6);
    e := Twice(f, P, e,
      0xe80c80d1934f92ec4c2d09c4d8ebd4f2db47a0fd65462edc3f6ae07c94421f43,
      0xa1955cdfee4ce6d6bf47386368929930072fc040d97fd5490717249e7285b9a6,
      0xd92a2f5ec09ee194aa1942a479eb44b9915b484ef89c9591ce3d44d82c2251c4,
      -0x164df8605fdfd3ef0b0ffb1a7e2bdace60d8c4dac02ef9d08e2c77ec685c73485,
      0xb8388b4236687c5c699797e11f1cb5bd909a2f2c1c4ca33432acb556c1f30520,
      0x67e90c755bc20ea685a2601febe1851ca622a0f8dd6624f4b88b489359c474bc,
      0x6d8e6efe7688d7316eb7d9a41ea155c4f5160df88a19cbcacc9b3fb63a1feeaa,
      0x27c394213983a8a74ac6a7c20a579d928b4e9ddd8dd1b35a7d1fa2d5b81b65fa);
    e := Twice(f, P, e,
      0x6d8e6efe7688d7316eb7d9a41ea155c4f5160df88a19cbcacc9b3fb63a1feeaa,
      0x27c394213983a8a74ac6a7c20a579d928b4e9ddd8dd1b35a7d1fa2d5b81b65fa,
      0x1dbf4d87e0c97040e7c7be6315e9250885a0fe845cb9c835c535e37a7b7661af,
      -0x836a0fcf9c40600c165404f5e9ce4ead368188a6eda762973d779010ebfbdb20,
      0x374e685912a155c3cb9b00634c64c12676a7257f2d01d8a763175afc1bc94d8,
      0xc0154cbe0df4962eacfe791be5142e7814a64d8e32b65810af83bd2a0537eec,
      0x63dde3dedde94f69f8e35ed9587959525fd781899b040e6dd5aa696490e44a5,
      0x5e66105371bdeded7bbe0526303254ea7881df4d485872468d81025068591b1d);
  }

  lemma Ones112Part2(f: nat -> Point) returns (e: nat)
    requires Starts(f)
    ensures e == 0x3fffffffffffffc000 && f(e) == Affine(
      0xfd1b21e9750a8fe46592f70deb41ec73991072e3dc87195b16cce37261fdfc27,
      0xee27e4e6761281040a16c7c40952664c430c730765e88857032738c1b9d89f85)
  {
    Facts(f);
    hide *;
    e := Ones112Part1(f);
    e := Twice(f, P, e,
      0x63dde3dedde94f69f8e35ed9587959525fd781899b040e6dd5aa696490e44a5,
      0x5e66105371bdeded7bbe0526303254ea7881df4d485872468d81025068591b1d,
      0x27a2867bc55d3d0a8f17bad26f5b534e0ee9a3c9ef6d52b9a300c61fabd7cb9f,
      0x1cc615388230eea6e36d575ed971663845215bc1c5020c36971c9e819db1a4f5,
      0x622ec28316e010f549eacce91191b283d73b136d38fc193d9cbbc8583127c4c,
      -0x180ec05e13cab503252e3b4a5cade12901441a94e4069b8210cb2b9ad48a3598,
      0xa1a0ff1ecc1e2c271938488958e9e8cb175e416ddff2f6d1557eed18b8776183,
      0x8e565455e1b9cf18f2392af4b537b466a4a70b9417318980a81d2a655f9163e9);
    e := Twice(f, P, e,
      0xa1a0ff1ecc1e2c271938488958e9e8cb175e416ddff2f6d1557eed18b8776183,
      0x8e565455e1b9cf18f2392af4b537b466a4a70b9417318980a81d2a655f9163e9,
      0x755d8606690a222e481ff2e138c9a5e684d48e4c303106bf32a92ea975679d29,
      -0xafa0c9949c949c390e94a590dcefb625b50bcbf45cbe8d31e4f870c187330bd7,
      0x35ce9eac82d64abad6e8f955d0a6e96b3886d8d736c39cef05834e65aac42476,
      0x20ef99890ca13a52d8f4434f72b044f2e2b5c8ae055e3cfc6e0c2643e291784a,
      0x59c9cb2a538d77671cba94322b2e751af7ff58c3b1ee8eb4032697fe9719b3e1,
      0x51697609a41565977fb1883a2c7ef6a4ba5c4e5267d60fa2e1e8f79bff45d773);
    e := Twice(f, P, e,
      0x59c9cb2a538d77671cba94322b2e751af7ff58c3b1ee8eb4032697fe9719b3e1,
      0x51697609a41565977fb1883a2c7ef6a4ba5c4e5267d60fa2e1e8f79bff45d773,
      0x5d6ea9a97a352c59de834526ddaab2b84c80c41516997982786bcde4f9132885,
      -0x230cc8aecd11b21379acc37a45affc299f4de99118fc1a7ad3df0e2216f3ac4b,
      0x2219971b60e0db78320088cfd20d66d4cf2074f491b494919025ed7f55a34c92,
      -0x24faf8399e69528c0cb0716c3d0dffd5c2614c9213d9415065dd2519a3ae2ba1,
      0xbf1cd73f0a2bf7f758ed40b8d29618dab20a5c8709b360684a9ef4b46a2ba689,
      0x2d38c9753013e44fde4f145878e76f814b341f1408a999fa8619ed7d745055d4);
    e := Twice(f, P, e,
      0xbf1cd73f0a2bf7f758ed40b8d29618dab20a5c8709b360684a9ef4b46a2ba689,
      0x2d38c9753013e44fde4f145878e76f814b341f1408a999fa8619ed7d745055d4,
      0xcfc453e28b733ce25d188b8c211bb6887281c62638e3c834a0fda31f2cbff038,
      -0x1629cf2ecb87c7da62dfececc308397c6cad46e5b748a2450fc96f1f98f97043d,
      0xa89f1638ebe693d28a14df4a28e3f3e625dcba1f71f9fbc60caa49a81888c855,
      -0x4d7cbd16c2dfabba733efaf07cf65b2355490c3614b843df71da217bddf4c53,
      0xc51474a89549d5e99de92ab81d32a6a7be4fdc9f586d94dcf214017d62a64b93,
      0x7508bb5e4833518b76aff5fa252b87c73eb20f42d7591d78a8e02295ba79e739);
    e := Twice(f, P, e,
      0xc51474a89549d5e99de92ab81d32a6a7be4fdc9f586d94dcf214017d62a64b93,
      0x7508bb5e4833518b76aff5fa252b87c73eb20f42d7591d78a8e02295ba79e739,
      0x313fe6555737bc4dc845b4b1e8b7bf11b21254d70d7daef55f9b8067814126ae,
      -0x19a21b2e9a7889d1e4a421f110157a0786f5047e59a13e58a61eab7e196903b71,
      0x979861fd8a1b8afa408ff1e9bae52708ed938302880a41c2e87140f01345ca3,
      0x200f946e45b680582becc3aba416878fd52069c0a1be80eb64324d62b8c3a79f,
      0x1e6d5dd7b1c101855d14c8176889553c8a439c0d097f55a313a1c07fd9bd1131,
      0x15268a0cd506465948a0dca316960a33a0d499fb2782a88147e570834a4b0932);
    e := Twice(f, P, e,
      0x1e6d5dd7b1c101855d14c8176889553c8a439c0d097f55a313a1c07fd9bd1131,
      0x15268a0cd506465948a0dca316960a33a0d499fb2782a88147e570834a4b0932,
      0x5d6fbf3b8462cb625360f38358023525e5d7fb8968fd1c5d561e2006298af393,
      0x497052b94530d07377bff77f313d78799f5a66c0d111cdd22728888d1894c07,
      0x221a61b8a2a672d385553e9b72bf0fbf1315b3bf8f917afb1b231e72bdb205e9,
      -0x227961d1fc0667b0ebbd33f52490e5dcc757e20fd606d3f2781e7de9d3cc5d03,
      0x7ce165f888d5a1577cd655d68fcf61a3f3ee177710828f0db80fb123d92ad240,
      0xe383dba43900638c8252f6ea8f9f426590b6bcf1dea4d029569c24081368e5be);
    e := Twice(f, P, e,
      0x7ce165f888d5a1577cd655d68fcf61a3f3ee177710828f0db80fb123d92ad240,
      0xe383dba43900638c8252f6ea8f9f426590b6bcf1dea4d029569c24081368e5be,
      0x5407d4aa018907a27ab6afc89f193d7853e909da96e892561e406fee81153efa,
      -0x2164f05d2a22eef49d684a6849a968229b70828dcc2d1786c83363d063f05b98,
      0x1b9523cce2f805f20a1033cb443e106aac990404812a309ae9db08c143cb8c13,
      -0x2a16ddc427d701c5ede98332d9be4270ec42c808022f8e7e1c625831f9582777,
      0xfd1b21e9750a8fe46592f70deb41ec73991072e3dc87195b16cce37261fdfc27,
      0xee27e4e6761281040a16c7c40952664c430c730765e88857032738c1b9d89f85);
  }

  lemma Ones112Part3(f: nat -> Point) returns (e: nat)
    requires Starts(f)
    ensures e == 0x1fffffffffffffe00000 && f(e) == Affine(
      0x4f12426e6476ec61f13f9ceeba5348cca8a7374fddeb955e108df1f216b215cf,
      0x2d622a98ce59b25134abeb8a888bdf9e1f2ecd58f366d8bb47f8df0767d36dbb)
  {
    Facts(f);
    hide *;
    e := Ones112Part2(f);
    e := Twice(f, P, e,
      0xfd1b21e9750a8fe46592f70deb41ec73991072e3dc87195b16cce37261fdfc27,
      0xee27e4e6761281040a16c7c40952664c430c730765e88857032738c1b9d89f85,
      0xdb790c12084d8df73b867162b8b48afa1d17cb146f3251b59192866023a7d2eb,
      -0x1566271e8dcd6e4fd12a8d09d901c1bb84836662949396adf65e73c84c73a106b,
      0xbc2853e343d23c41a40a5fcd3a0d2ff299bc63fa326b408e23bbe7b387d05998,
      0x53915ac7381daf6bfce09ee0917a201128d29183deeb9514286f1eb54b6a78a,
      0xf70383d7afad0052b4101028d3cc111858b3306817299b8af8055ccdac8a5883,
      0x9384651dfc93a8da480d17d548184ac200929bf1a14482e648facb412c9c85b1);
    e := Twice(f, P, e,
      0xf70383d7afad0052b4101028d3cc111858b3306817299b8af8055ccdac8a5883,
      0x9384651dfc93a8da480d17d548184ac200929bf1a14482e648facb412c9c85b1,
      0xafcfb7e11bf3216de3d283df1f43b8d588b4e33f87426972741a5b46b8ef8fac,
      -0x20068f31e728c21e9f693f2c2b2abdfd405822c5dd9457374bbfd08b9c4088f2d,
      0x78bda5f0a65536cc0b694d93693260801db70c9d9b7f76664ed29245f270b865,
      0x88afe1149cc478b2d52190e11c621dc859928a745154485f5410ef06939127bd,
      0x2ffba2ed7b136cbf2ee147dc8c473a2bdcc932ea0a5b4ab3dbb65480bae4a3ff,
      0x631efaf67617b340e18b573cf0a4ab46170fb55a48231b5f775a1ecd52c3274c);
    e := Twice(f, P, e,
      0x2ffba2ed7b136cbf2ee147dc8c473a2bdcc932ea0a5b4ab3dbb65480bae4a3ff,
      0x631efaf67617b340e18b573cf0a4ab46170fb55a48231b5f775a1ecd52c3274c,
      0x69bc0a54ecd206c02bb4af010126b86c6b6d43073fc1877fc8cc0300d689cc65,
      0x36e5efdaac7ae750d563201940de661f1e0388f7df5cd747da4ab682bc566f1b,
      0x2babca98d76adcb03b89c3380cb4ca4e9da4f07057fd5da01b7840089f82ac25,
      -0x13df624778ce0662bb6f2baf871d89c9a8cefb9b2a3488ca76ade65bf3d02e2a,
      0x6018ff07a1bdb843fab11b381721e68b8d5d32d205df8ce33d8f6df18f34d110,
      0xfb6239a0416fa6cd12a9fa3c0e942a08a974ceaacc2ec272fb4cc3d3341856b5);
    e := Twice(f, P, e,
      0x6018ff07a1bdb843fab11b381721e68b8d5d32d205df8ce33d8f6df18f34d110,
      0xfb6239a0416fa6cd12a9fa3c0e942a08a974ceaacc2ec272fb4cc3d3341856b5,
      0x1c336121bca3036e125a76ed85d207c9468b71685511c7ec576fc6e392700292,
      -0x34d5e0a2e4c540512c4974c56da4a1001d270c8b0d201bfe0ece253c83fbc134,
      0x31b478f398f6719277f3b2faa87edab008aa89091bf9776c3235f47048474fc,
      -0xdc0c218a6c51cca30686063fb3f3a62108716d3925be78182e10666e57f7629,
      0xdcf1b1d510f87cd1a3bb51a3e5cad29faca6fc0122e2faa3046291fde6df6ee0,
      0x192a517470960f0803f98157b5f449fdd7aa96cfbf1086e9f8c93782f0ec1632);
    e := Twice(f, P, e,
      0xdcf1b1d510f87cd1a3bb51a3e5cad29faca6fc0122e2faa3046291fde6df6ee0,
      0x192a517470960f0803f98157b5f449fdd7aa96cfbf1086e9f8c93782f0ec1632,
      0xba247da48896605a1525a9df05586aa9feaa6eedc8480f2669533c5da2590e5b,
      -0x217783e8bc29fc54d440067ccbf08c0193993f6ad8fabfad777f2c2321d2719cc,
      0x87590bc6aa6b057023b438367eefe9035dfc12ce46a1a90c5b5b85b728621d2f,
      0x8be3c5a8778793591214a4c5e88d9d362a8ffca792af733e50f167728adbfbad,
      0x1c8e1e3e7027595ed86e16089b9c6a74d5e2feb18bfaff7cd74c347878c696f8,
      0xe6340c141a8e049fb27238cef1b86eaaa5665fd49f84a8aca856e94d5eead883);
    e := Twice(f, P, e,
      0x1c8e1e3e7027595ed86e16089b9c6a74d5e2feb18bfaff7cd74c347878c696f8,
      0xe6340c141a8e049fb27238cef1b86eaaa5665fd49f84a8aca856e94d5eead883,
      0x6c2cdcfcc0a608dd24c9840aa8657b4daee340cea252ae8434ea3906c62f3a72,
      0xb8fe68fb76e4cd589a9376ce97a26c202b1d7e6b7078868179408d408498a7d4,
      0x2db5e251f831b536da25b0445fb656123ddeaf94a8fbb49917bb9b58b1d59fd8,
      -0x2b0352ff80b0dcaa8dc136f123bcb9c9f7ed2c77b6aaa795a96ab24f6b087f07,
      0x8258c02474cafa0e3c77220cd990327e68a39b1c432a98b6aa4bacdc99edb42c,
      0x85a67ad8bdbe3ec9bec88dee6ad36d0574dbc21d3854a50c3b6a307df113949e);
    e := Twice(f, P, e,
      0x8258c02474cafa0e3c77220cd990327e68a39b1c432a98b6aa4bacdc99edb42c,
      0x85a67ad8bdbe3ec9bec88dee6ad36d0574dbc21d3854a50c3b6a307df113949e,
      0x1fbb7faaae4588cbccca2dc8d683274c5fe07028cb39a4ab99cb7e82ca09d9b3,
      -0xa5f8ad77b4210cd5cae52c09c6086a4ae52802e2a59daefc4c0bedbcae42fb04,
      0x3eef23f193a3b6c1e0ca32a2ea7a1c1def52ad0b07452f16512dadbec8d309e,
      0x65b1749080cbee64a6ed35da9fa31acdc9fe6f4182033612bcc73c8463fdbb2,
      0x4f12426e6476ec61f13f9ceeba5348cca8a7374fddeb955e108df1f216b215cf,
      0x2d622a98ce59b25134abeb8a888bdf9e1f2ecd58f366d8bb47f8df0767d36dbb);
  }

  lemma Ones112Part4(f: nat -> Point) returns (e: nat)
    requires Starts(f)
    ensures e == 0xffffffffffffff0000000 && f(e) == Affine(
      0x4786b5c25adb5ac8543310a121b6ef38db967591841bbafd606185e2f1cdbea8,
      0x196bf323e97b80ff52e22022437e14371e5851e5264c7e5ae46e9c939f0e86d)
  {
    Facts(f);
    hide *;
    e := Ones112Part3(f);
    e := Twice(f, P, e,
      0x4f12426e6476ec61f13f9ceeba5348cca8a7374fddeb955e108df1f216b215cf,
      0x2d622a98ce59b25134abeb8a888bdf9e1f2ecd58f366d8bb47f8df0767d36dbb,
      0xa59047913a40bd57a0494041a10b60aa354c8da59365d6b1296efb14802fc03,
      -0x459997bd12d7a292eae7ccf3253bc5bd76ff5ff4bb5d8f3af484b151020e590f,
      0x6b134d91cc7add9aead13d940488df7d438276431826b6293b0b58769e7e6f,
      0x126d9da4e48a243bdf3965b07e2052b701bd451e0e7b39b17cc9d48fac9704,
      0x4d4a59d9689742eb0e3b431a74ab4dfb1bc9b63bf3b9c47baa4cab181d9e420a,
      0xdb6809f06f93a35f10368132f86e86312a0ebbf27d5e971e9e0e3dde69144fd8);
    e := Twice(f, P, e,
      0x4d4a59d9689742eb0e3b431a74ab4dfb1bc9b63bf3b9c47baa4cab181d9e420a,
      0xdb6809f06f93a35f10368132f86e86312a0ebbf27d5e971e9e0e3dde69144fd8,
      0xb98b28994bf5905fb9a5bb1a9da8bd013813fc1e572b0381aa2e47bf8757fbd0,
      0xf8097801059a67f61df3b9d0850179d0a3ab2e45b41129c00df2f5982edf2e6c,
      0x867a6c52acb1aaddc1736cfb18c354fdac947ba16d975f099f03747875007faa,
      0x1ab3ce28a5d706ee982595d6bf81dc15455d5ef6b7c004e03ef91449dab9ac6f,
      0x2872c98f4b2205fec3bf8a4e9f3bb7f87bb9daf5a1659145c5dbb362cabc3cb6,
      0x71777be7d77f1d2ebf9fbde6e3d92592e20c684cd68082850072894e63f07407);
    e := Twice(f, P, e,
      0x2872c98f4b2205fec3bf8a4e9f3bb7f87bb9daf5a1659145c5dbb362cabc3cb6,
      0x71777be7d77f1d2ebf9fbde6e3d92592e20c684cd68082850072894e63f07407,
      0x877935a08af862041d92403e838ceedc741c664187817a413df24f6fe885d4d4,
      0x64eb3fccb2e806d9d4f866ce77af782d128be36647cb8d86584c1e0141537054,
      0x47b10ff30f913465d9952810aca34f17e20cb9b2a986bc525cc3caf3687d9713,
      -0x138c8e25533d54b728d016aa2577153a72df501672f0c1eba2d06174a92c6f09,
      0x4d63bd457e5d76406e4a279a537c08345a5899e96aaf29455d6bface470ce5a7,
      0xab286cd372bfcd93b08f3dd883e1ef68710203150aa261388b0ea2f80d934f0c);
    e := Twice(f, P, e,
      0x4d63bd457e5d76406e4a279a537c08345a5899e96aaf29455d6bface470ce5a7,
      0xab286cd372bfcd93b08f3dd883e1ef68710203150aa261388b0ea2f80d934f0c,
      0xfdf6b20a5ebe13001cacf31c9c67872f0d835d4848fbec21ad520c60e53cfa6c,
      0x10d6852b5f3431bc2ebb1caaa7919427a9f6b188a2e9a3085b46df8523d5ec743,
      0xfbf189a327043306993abbe0d25a976a8fd857805087ac58891ec17f79db555b,
      -0x7e3aa29dbaea57f2106b543cc18340c4e52c2b918242d2455f7dab327bbd7af4,
      0xcca17b4a9a122e30457c514dc6f44d2d4989671345415c60e50feeca0f8e128d,
      0xf2458cf2463c039eda3ea7f4c4cb3c7dea8917e560ddf0e3bd948cb2b40ae6b8);
    e := Twice(f, P, e,
      0xcca17b4a9a122e30457c514dc6f44d2d4989671345415c60e50feeca0f8e128d,
      0xf2458cf2463c039eda3ea7f4c4cb3c7dea8917e560ddf0e3bd948cb2b40ae6b8,
      0x96d79b83474021864b1fc32b554a96fb46c6f9f6c58c2854f56d5f45b3dc11fd,
      -0xcd33aeba4252ba5c096c20f2340a98ad0767630d7287d1b31379789535f00da5,
      0x58e15fd46c79109b57aaf92338c9f7ce38c3feb60f80b7b3a81e421c724128cb,
      0x211fef6c332b97508c86a8b9db8d4431efe584cfbe8e9eab8a4b6a82dc356b06,
      0x9469dd5163431f7719af7f0c394291bfb99dfc05d3aeae549f66907fa5ac1daa,
      0xe575611ada34d3efc34fcb8d50f92692ae14ecd02fb351edf781b6e88578a285);
    e := Twice(f, P, e,
      0x9469dd5163431f7719af7f0c394291bfb99dfc05d3aeae549f66907fa5ac1daa,
      0xe575611ada34d3efc34fcb8d50f92692ae14ecd02fb351edf781b6e88578a285,
      0xe1b8b427a9a3b71fbe2b54236ded94cd05b7d33feda57bf3377d244c98b5dc59,
      0x9283b558bffa5d609680a6a6f0aafbc18fb416718e4a3482f3b5c7cbc6a7c992,
      0xc70631f12ffd6ff063b987c2b82ee08d5cb80b12ba5ac5ffeac967cf191dd359,
      0x41191ff58ff0e83426bcbc2e655569be3a3d78e573e27546f0939d28fb924768,
      0x4a95437ecf373f96aca1f4844b1c1c92d775559459226ff07eec336b92fe7246,
      0xb3656ad395957d37f62b06b7d835d3b246f63658876d89877b83a2cdf286727);
    e := Twice(f, P, e,
      0x4a95437ecf373f96aca1f4844b1c1c92d775559459226ff07eec336b92fe7246,
      0xb3656ad395957d37f62b06b7d835d3b246f63658876d89877b83a2cdf286727,
      0xb367b858c1ac8d5d18f4b4380b0559b922479e9da4a4ddf4ac69ffa8f2131879,
      -0x3178d310f91b96ba13653633e0a9aab385361bc726bf87122c0483300bd570d2,
      0x7dba35d1fb02dbb7b62cee44f299000dbc3de708c54cc093af93d847f7023993,
      0x2246a29515f46b1d1e41c8d777884c251273628588cd2b13978738c394b1306,
      0x4786b5c25adb5ac8543310a121b6ef38db967591841bbafd606185e2f1cdbea8,
      0x196bf323e97b80ff52e22022437e14371e5851e5264c7e5ae46e9c939f0e86d);
  }

  lemma Ones112Part5(f: nat -> Point) returns (e: nat)
    requires Starts(f)
    ensures e == 0x7fffffffffffff800000000 && f(e) == Affine(
      0x7096e07cea0568d59554c00bfe921c46cc0fe0e658963c745d2d5bf5e9cb1e7f,
      0x83cd935f606a6814dd0a56b1f32bdf2b0a73443b0cf4e0603ca2948b44b58aa3)
  {
    Facts(f);
    hide *;
    e := Ones112Part4(f);
    e := Twice(f, P, e,
      0x4786b5c25adb5ac8543310a121b6ef38db967591841bbafd606185e2f1cdbea8,
      0x196bf323e97b80ff52e22022437e14371e5851e5264c7e5ae46e9c939f0e86d,
      0x4015398b65bd63dcd6009646758d4aa87d5f86f8ef8f430d921ad7ca886fb8e,
      -0x3be744ed0f213f31b26eae8d9aec6ad4145174db03062f738a36f9baf063906c,
      0x100a9e8830acc236c7cd2d4165c97ed585ef42c1f3825c1e963bfaa1a50c5c,
      -0x255a79a87630287a1a7bd99aee79ca9b8c76b9489e35770969a61c257bcbcbb,
      0xdcbf1fb62d80fe8a27b1efddb00f51f4bda70b483b624e8e548bf6ffb3207090,
      0x140bc5084b4305da2788cb7088d7a3e67896961f9f09c6e0f93fe8e23f05ab38);
    e := Twice(f, P, e,
      0xdcbf1fb62d80fe8a27b1efddb00f51f4bda70b483b624e8e548bf6ffb3207090,
      0x140bc5084b4305da2788cb7088d7a3e67896961f9f09c6e0f93fe8e23f05ab38,
      0x8f35b861f64d22b055bb749ab62b99ac0980921157f38950f163876d2736974,
      -0x239a44e966a2dd64a92e0ab4272d9cafb7bba7bd079b8c9e391db7f315eae5bc0,
      0x501d0f434e87203cd21506aa56cc0df1d26827d55179974c61300ad0958562,
      0x47b92e9bb6e2aec207188588453b61ebf27e217e6c9020a450726927872ecaf,
      0x5c88ebb817fc2f158272905cbe632863a4cf4bb2c0ab03cb8bdf74a2de098672,
      0xe3f38fb9e8e7279ace0aa061de242faa7d5a521816e1767071fb5d6d2b76003f);
    e := Twice(f, P, e,
      0x5c88ebb817fc2f158272905cbe632863a4cf4bb2c0ab03cb8bdf74a2de098672,
      0xe3f38fb9e8e7279ace0aa061de242faa7d5a521816e1767071fb5d6d2b76003f,
      0x26f841e9fea6334c19df058fcbf0dc8710f676972207467d62d2bf3365e45534,
      -0x1ef1ac02ca7785e2fe3e3dddf95cbd732cebddb1f93ab772e6794c4cf578e98c,
      0x5eea4513def626fe904951d64414ea7b596693285f5d0c2df386e951da65d2b,
      -0x12fdfd0f37cef7201e36c5ee26bcc4942ec02ab72104456805e5e75446ef5605,
      0xd94c47e27941489f7d2498a8f5ba031f359c3b710e937baffe40fc9654d216c7,
      0x239b08c5faead14f12ef31bcbdd2e9b30c19c1b09b8887f2c6a8e8854fc52c68);
    e := Twice(f, P, e,
      0xd94c47e27941489f7d2498a8f5ba031f359c3b710e937baffe40fc9654d216c7,
      0x239b08c5faead14f12ef31bcbdd2e9b30c19c1b09b8887f2c6a8e8854fc52c68,
      0x999dcf0bdf4944bb6913c74d3614caa2aae8e1fba76a9814647d804d6a35407f,
      -0x1fe9c038cae4660a71ec5938775605f1839d27027953b28720aeeac2e16e2398d,
      0x5c2e02c3cce9a7abc1ac3d3c89c1a9549f74f592d5cb0489d1045295199cac47,
      0x785eb2ddfd34eb2300b02293b76218a244850007de838a336af1342e1a264aa1,
      0x10b3f2348567e581e57128de7a764cfa8e032c4d969f65065337cf04061f0c6a,
      0xa11e0feed15b0709f1736bc0a0f6a646cfc1a41d567f3a413349c0a3f108082c);
    e := Twice(f, P, e,
      0x10b3f2348567e581e57128de7a764cfa8e032c4d969f65065337cf04061f0c6a,
      0xa11e0feed15b0709f1736bc0a0f6a646cfc1a41d567f3a413349c0a3f108082c,
      0x4d76bf2f168a0a795a78bca9def54e11e807ba66625ff34a7f01963e4e67e676,
      0x5e3c97a8f9743ba43d6cc9d48828f3690efc8d629bbf0231c9b57e7a01cf9c5c,
      0x1770a61721bf1dd9ec98fa97a563db5d54f7358c30c7c1ad1b29ffa6b2513205,
      -0x27ebb9efbc7666f206fd59b8fcd4a4b94d8b4774e7dd51e95cc6ce569d5751e3,
      0x94a1c2f80b6769b2b9b53d5a3d142a6e2dc558a265e361fb6c7fa2eea60e0aa5,
      0x4a0f7110f7bdac874f0a347ad8bdadb73a490457e309050024f0ac2be069434f);
    e := Twice(f, P, e,
      0x94a1c2f80b6769b2b9b53d5a3d142a6e2dc558a265e361fb6c7fa2eea60e0aa5,
      0x4a0f7110f7bdac874f0a347ad8bdadb73a490457e309050024f0ac2be069434f,
      0xd8ebbcf6e0bfa676100df97d3f476c0cc0a6a730281b2c9afa99732bf6b188c6,
      -0x855fda751c0158a6c10a172583e7d3ff3ed956e68695384c43469b7f07f937d9,
      0xb7cea7f513ff90f109fa53ef3487e1d6cd8ce6b2afd9089c409d512a0ef9bdf3,
      -0x4c47106665494c01652dd0253afb58aacf1e67f697e54ad4d6e348f8e065a282,
      0xeea6b40e247fe23d11f12e1e677c953e8cbba857dab12e465148be17cde0d03d,
      0x711d5f7c87d9042eae8052040171a1f811828572b96b34f5dc8bc962479ff6ff);
    e := Twice(f, P, e,
      0xeea6b40e247fe23d11f12e1e677c953e8cbba857dab12e465148be17cde0d03d,
      0x711d5f7c87d9042eae8052040171a1f811828572b96b34f5dc8bc962479ff6ff,
      0x727e62ea2cc98f60a200ea3d240e793dce947b29d4c30238f2c903cea6f9d2b2,
      -0x2364150aa9095e73142479254d64b98eb60d2e49c06121e53dc014c275b6c9031,
      0x3334ce7e149fba9b6d7e4a31930b390729694c02e4bdddeaa758b137f0d64e25,
      0x386148b62d0846deacd178b0163cc99f80acd1412f4f97d3aabec678e3fbb6a6,
      0x7096e07cea0568d59554c00bfe921c46cc0fe0e658963c745d2d5bf5e9cb1e7f,
      0x83cd935f606a6814dd0a56b1f32bdf2b0a73443b0cf4e0603ca2948b44b58aa3);
  }

  lemma Ones112Part6(f: nat -> Point) returns (e: nat)
    requires Starts(f)
    ensures e == 0x3fffffffffffffc0000000000 && f(e) == Affine(
      0x2e403ce2b314f0882d40c24701ca30128ae020d5e06dccede2108fcbfefe2758,
      0x2fb016f7b104e8e461ec76bf82bd36870a45da6b38cd88aa8cd589af3a6d18b8)
  {
    Facts(f);
    hide *;
    e := Ones112Part5(f);
    e := Twice(f, P, e,
      0x7096e07cea0568d59554c00bfe921c46cc0fe0e658963c745d2d5bf5e9cb1e7f,
      0x83cd935f606a6814dd0a56b1f32bdf2b0a73443b0cf4e0603ca2948b44b58aa3,
      0x26d0888a2a7ca1fab63c24bb606caa868693ac43b648c3e1a06b1ad86673ed6c,
      -0x6c9555a2ee712a4b1d5e1fac74ce281c93c3183724463705120dd2d1003b0075,
      0x5e292672df52253e7082263462538bd9b735ff809cd84589acb2c925ece2294,
      0xbd106ed1d1a991cd4087257cb17baaccdaa5ff6a06b1a9da29aaea2257e4d33,
      0x22a76f3ab9dccdfef3a6b5c3b6fa94632dd5cc5316f5e31476fbb1353854df66,
      0x819dd43ec45d9a168a9ca18144fa668b4122ff19ef4f4935ca1e3b6876d6d88c);
    e := Twice(f, P, e,
      0x22a76f3ab9dccdfef3a6b5c3b6fa94632dd5cc5316f5e31476fbb1353854df66,
      0x819dd43ec45d9a168a9ca18144fa668b4122ff19ef4f4935ca1e3b6876d6d88c,
      0x5e243be4e846b5a3c81a09a0a95a0c603d38d6ed2ea85d064de015d783840080,
      0x5141e3be9d1542658eeb7be216b38b70711dd68f29d53ea97a7cad7ab89bc22c,
      0x229ea11d00f891068570ad1dd1809815081f54e710a911c89efc54dee3ea0edf,
      -0x5248d05f67024f10cfb20b4d3f5f5f38c550b7e38463537fed1170eb2574332,
      0x30a38b46bcc0a06ae12d6744196e79fecbffa659a0fb13ac6a50c6abe3994243,
      0x91c13853ffe6d31d0e826ea3bf0947b84ddc071385a6cbc2547508436fc4722);
    e := Twice(f, P, e,
      0x30a38b46bcc0a06ae12d6744196e79fecbffa659a0fb13ac6a50c6abe3994243,
      0x91c13853ffe6d31d0e826ea3bf0947b84ddc071385a6cbc2547508436fc4722,
      0xdb49f21229e8f1a652eb26d30c4fc3e12b4493bb0ea73da9f639c0d947f9ce3,
      -0x1abf81555412592c0916e5a77b2a14850257cd95e65874a79efbd08ee28bf3e1,
      0xbbd7998706f6ccd2b736800fa2062869db625468d82c558ff879d726b62bc5,
      -0x6b7e0f6e0e86e2e53184089d6fa605cc8f167eb65b834a125e73d9a1ab5270c,
      0xae20673b8407f4bba7207e8ca4c5c591e0b8b891de6296ee093e00997769f798,
      0xf15e4b8ea35a1db577b953c6d9ad33588ac8936571a00296eb914ce281ee1db3);
    e := Twice(f, P, e,
      0xae20673b8407f4bba7207e8ca4c5c591e0b8b891de6296ee093e00997769f798,
      0xf15e4b8ea35a1db577b953c6d9ad33588ac8936571a00296eb914ce281ee1db3,
      0xf0bd52fa962444d1aed1a7f5345bfc2ed84122adbfc4c6fae59b7f7a3260983f,
      0x62a59e1352a1b4946462ddceecd1516eb4330bdacfc8cdfdebdc1b19a4544dc6,
      0xe26387997a6b300f98607fcea9a7d588451eb2d6440f545ca3685ea7f32d7009,
      0x23c599666ab08a2fd402fcfccf760393989b73ac52569ddd6394165be9cc435f,
      0x88164e0b244ffc22f19974b0d0e3d94d00e1c04bd35b3f0c79562bc4475f82aa,
      0x29a3cc1dfa0a5e48fb49d174f3060ee0c80dfce3852f3feb513c1a6f1fdf166e);
    e := Twice(f, P, e,
      0x88164e0b244ffc22f19974b0d0e3d94d00e1c04bd35b3f0c79562bc4475f82aa,
      0x29a3cc1dfa0a5e48fb49d174f3060ee0c80dfce3852f3feb513c1a6f1fdf166e,
      0x677e921f1c89427c22a637e4b321cdf4470d55a8a5784c1ca1008a74db5d6c2,
      -0xd6ec6ee7a8d64361ec7f0958614c91e7c740f76f4b07977e65cbd5cf6c1a5a4c,
      0x29d7182932fe0af1d255de526afd9ee8633cf22e906a975d9b332accae59a8,
      -0xdc30c0a0f16e7077fc296c5497f2712393df059b7f630f2f91c409e2d949d0,
      0xaa20c8f368effeea38896e322e3e2d3c5a9816dc5964f118efd17decad220fd8,
      0x3bc933d24728a886f88ac9709fb1bb2cce01fffc9283d6ec8e1c6a51b9e4c5e6);
    e := Twice(f, P, e,
      0xaa20c8f368effeea38896e322e3e2d3c5a9816dc5964f118efd17decad220fd8,
      0x3bc933d24728a886f88ac9709fb1bb2cce01fffc9283d6ec8e1c6a51b9e4c5e6,
      0xf327258cf47d535d228243d15351a0a9cc0413cd687c0092c8b562e915a42a97,
      -0xe19c6c09697c38c9f6af7f98f17f3d189ba6a90429611dababd704c4310d7a54,
      0xe6f357460e9a76bac28f0e8b81ea93a9d7498beae607a97ae242166f4669e07e,
      0x7c3a7c1fa7479d9754ff7229f2bd25a504f188fa5bff74ae3b0fa8eec43d682e,
      0x275600bccee607da8af5f341b2d12fc294202da1e9defbed25c9fe71be5b863f,
      0xa09917faa39237e90daecf1d3af56d5da058f8a513c17299e71f2081512814e7);
    e := Twice(f, P, e,
      0x275600bccee607da8af5f341b2d12fc294202da1e9defbed25c9fe71be5b863f,
      0xa09917faa39237e90daecf1d3af56d5da058f8a513c17299e71f2081512814e7,
      0x30e871b23f84af8fda67075b1ead6ffdaddd85d78cc03bbab1c06310cce37901,
      0x2b3b19c62db0d24bf85168d56d7bc350dc179613870c1556b5aec41e71b47da5,
      0x957fdb11d63ba83ade633887eab3d72e79951ac9d8410ab6679f91702a3b2c5,
      -0x152329fd2415c8721a87b3d0a099bce5131b1dda452f850c8ba48e08d6155c8,
      0x2e403ce2b314f0882d40c24701ca30128ae020d5e06dccede2108fcbfefe2758,
      0x2fb016f7b104e8e461ec76bf82bd36870a45da6b38cd88aa8cd589af3a6d18b8);
  }

  lemma Ones112Part7(f: nat -> Point) returns (e: nat)
    requires Starts(f)
    ensures e == 0x1fffffffffffffe000000000000 && f(e) == Affine(
      0xf6a97b29debf4c7fac1ca0b3fef0e2d2dcffc891ddc5dd8e0c3f55c423a3584a,
      0x937fbc7ef5c2ce499c6b2c086e8e4d11b51c2827d8c1419e8e596e865080f52d)
  {
    Facts(f);
    hide *;
    e := Ones112Part6(f);
    e := Twice(f, P, e,
      0x2e403ce2b314f0882d40c24701ca30128ae020d5e06dccede2108fcbfefe2758,
      0x2fb016f7b104e8e461ec76bf82bd36870a45da6b38cd88aa8cd589af3a6d18b8,
      0xf3240ceb151c7899595bcdd62d94d3001c92d8c8822c129305bf36b032c70e4d,
      0x418447f0de77a53f4d7923c8748f08e841f498560ccfc2d1050510aeb3f45f10,
      0xe6ed7599ecd8decf7a16e374eba211675b8463b0ef52574c45b4563d8a1bd568,
      -0xa1118e7624d50e94bd7c39bca1bd77b30079ca5be0326c4e36be53e2c49b7c6a,
      0xd7d68ba6f5021272aa0149a0a2eccab0c25d0f98d3c3812df9ec58e966bfa661,
      0x57531c87ae5e7b1110c43f55891b94a08e380ce272d25e1f616c0d8824086309);
    e := Twice(f, P, e,
      0xd7d68ba6f5021272aa0149a0a2eccab0c25d0f98d3c3812df9ec58e966bfa661,
      0x57531c87ae5e7b1110c43f55891b94a08e380ce272d25e1f616c0d8824086309,
      0x102eaac4945c08e6a5518cf598582780beea971c9ea283544b42519e4e327dde,
      -0x216e3fd30efa040b84802a42114a80d0cd7df820277cce57f252b113bc6104909,
      0x105ddda631a7e2dc6481b0be4a022c0805bb3716397cce23a1c12d019b04245,
      0x67551ee6f87ae57a7845f4051fbaeddad60d33fb7c1b94cf401dfe6f8f912ab,
      0x71ab6b2ed28f029a96114801ea5740341843ba2eed4d40ad77500554ecc82917,
      0xd60a594020a597b81772a0f03b66a955bf56554ce28a01b38bb5781dabc7a3be);
    e := Twice(f, P, e,
      0x71ab6b2ed28f029a96114801ea5740341843ba2eed4d40ad77500554ecc82917,
      0xd60a594020a597b81772a0f03b66a955bf56554ce28a01b38bb5781dabc7a3be,
      0x1be6ef65b34c0acb13214de09e2e0d1c0d80a2568a9c611179d292daa03b6757,
      -0x68c1fc79d12fc5ac1078019c62ec5c6c0ca7de5fd9ebded307fd8f77172ec121,
      0x30a86d27e6f44192eaa85e8fe73395e92f974e2c8092190c91904387b71c756,
      -0x5424d1f9a7191ac50e8cdc934b23f79323a86211794aabed8f9a9a6a4945020,
      0xa1eba6d83567927d79cda6662479b7802fa98b7251f86699d95c635ccf7a8c99,
      0x1a47aab0808a5d4daccd68d00fa54eb4e28117ddf362a8e3fe0f03e23a9372f4);
    e := Twice(f, P, e,
      0xa1eba6d83567927d79cda6662479b7802fa98b7251f86699d95c635ccf7a8c99,
      0x1a47aab0808a5d4daccd68d00fa54eb4e28117ddf362a8e3fe0f03e23a9372f4,
      0x987f209a7bfa5d85d44968180914f670731140842dc1e5d5ea07e0840507eb55,
      -0x113ef8dd87c74b10b2e0660ce03301d9ea463478318c0cdf07ae669c412225ea5,
      0x5ad735d8d0a74dafb3845140fa84d23c38a86e921e7ad7ac3d0692c4f447dd05,
      -0x251cb1b8de8841d0e17453cbe2cac41f8bc5c345e13e45e0b0c9f8b85fd9afd2,
      0xe038b6f0e422449bab26335da8b1fd2b0ea37e22939698e17663f70bb048911c,
      0xe664e076ea34844ffda1a81287b9e8ef14c13db7b5da3f3b574563f38683cc1b);
    e := Twice(f, P, e,
      0xe038b6f0e422449bab26335da8b1fd2b0ea37e22939698e17663f70bb048911c,
      0xe664e076ea34844ffda1a81287b9e8ef14c13db7b5da3f3b574563f38683cc1b,
      0xa9c25e9b537a3c3d7cc69156e769fd79879bb18116d62786e98fb1619e4420af,
      -0x11b9ada97735ca9e9c8345c7128b518a28d18badbbc24f656cb786213193a509a,
      0x7092347c9a9858587169e05d48210f3f5a318b2db6e949fda55b683d4b4452b5,
      0x5bd3fb1058a57cb72a50d5f877a15b4b3c73e046facd2c9c62b6e874fc6c91a9,
      0x55be422aa72ce8dd2cc3d0085890603d22740708106c1661088223a14452ba2e,
      0xd0e5b416c1ad7e1354531233891ce7e0b0eef2658e053f8b1e9a8d8d56f7c690);
    e := Twice(f, P, e,
      0x55be422aa72ce8dd2cc3d0085890603d22740708106c1661088223a14452ba2e,
      0xd0e5b416c1ad7e1354531233891ce7e0b0eef2658e053f8b1e9a8d8d56f7c690,
      0xe871892266da65bcb4a5b6a1f7a4f3f90acea3cd9d381961eb9b6f7c8c191435,
      0x12531f0fc68771df4a2498edb0fe7795e3089a4564932a1c56fbc306a5b1bbd6c,
      0xd30dfae8b4407be9143d982df31ba14fcc8e25c7e18fdd821ff1c9b627e700f6,
      0x237d598a90104adb2611ac45a910a52960d5df1e89d3c2fdeaa6810f21f54dd1,
      0x2ea82c42060d531a01e84dcbdd9289fc8b1374b799de94478b5083c8abe78973,
      0xf7c45863489fc9d92908795ba924fb9871262e78f0e5765fdc577f763678e6c8);
    e := Twice(f, P, e,
      0x2ea82c42060d531a01e84dcbdd9289fc8b1374b799de94478b5083c8abe78973,
      0xf7c45863489fc9d92908795ba924fb9871262e78f0e5765fdc577f763678e6c8,
      0x37c6f3fdb037f4d93a5e8b10c142e95e6cef78128e9497304547d335e5d52095,
      0x5274ded7a853fe7b583d203bf92527d4eb30e1220610383351cc439b9966a73b,
      0xc27177556b039b419d64112fb9e45399bc7a7d6f5521dc25a6f31834f924dc7,
      -0x2b93b79647bd81e02286cc14f6ae2aefb817bda2d7dca07d50884129c9bb1468,
      0xf6a97b29debf4c7fac1ca0b3fef0e2d2dcffc891ddc5dd8e0c3f55c423a3584a,
      0x937fbc7ef5c2ce499c6b2c086e8e4d11b51c2827d8c1419e8e596e865080f52d);
  }

  lemma Ones112Part8(f: nat -> Point) returns (e: nat)
    requires Starts(f)
    ensures e == 0xffffffffffffff00000000000000 && f(e) == Affine(
      0xe6dd146def48449234c5d37980179bd3b35457dd07cd467b10b70cbae0f630ea,
      0xec39a1175637e95f7e85f761ef6bb9a2a9fe56e6eba9b8ab0a9299ac8880de80)
  {
    Facts(f);
    hide *;
    e := Ones112Part7(f);
    e := Twice(f, P, e,
      0xf6a97b29debf4c7fac1ca0b3fef0e2d2dcffc891ddc5dd8e0c3f55c423a3584a,
      0x937fbc7ef5c2ce499c6b2c086e8e4d11b51c2827d8c1419e8e596e865080f52d,
      0x894361e73fc2b9d7b3fd70e8aa4ed5110883550f75ba6a6cea2a55d0ee35ed27,
      -0x22ad21d4b1d8c3cd0a43591a5707d698bc66c53eb4a67fd66c2989b549d83c16a,
      0x49993085e6bada0bd7afbec55f709bd89da7b31501c7b0afb7d0412cd54cc5a7,
      0x7511042bd8082c266dd7d5a6b951a3a34e19ec65a6595107e601f0382d3964f0,
      0x1c545e6418525248422540565d506734fad48ddbe8bb618620286be9548eddb4,
      0x464c754c9c049a4152e9b6e4ea55904d522c5df5408083e7b7083fee9e32cd9d);
    e := Twice(f, P, e,
      0x1c545e6418525248422540565d506734fad48ddbe8bb618620286be9548eddb4,
      0x464c754c9c049a4152e9b6e4ea55904d522c5df5408083e7b7083fee9e32cd9d,
      0x5f751baeb5506d5404f37a6d3243f41ff2e367bd087e0ff54fba58c4641d463d,
      0x2b055eca3aa50a61a081bb8290fd7964a317e147686fd0cee7cc0a3c192bfa7e,
      0x2398201dfb41be223b48668a5c1fe16d08ccbd0eef6ecf930a8668351be39fed,
      -0xcf07aba55700633d41c187ca7c399614db62bbac2a126e4bf84c3dff1fdbaa8,
      0x3f07da33f4c73ed7481d29a5fa5b5530068ddd3353389377516eda6a6baf069e,
      0x8c8e2a0df98cf3d960e359ead4553dba414e121e34b6c469c8eee8e1801c1b79);
    e := Twice(f, P, e,
      0x3f07da33f4c73ed7481d29a5fa5b5530068ddd3353389377516eda6a6baf069e,
      0x8c8e2a0df98cf3d960e359ead4553dba414e121e34b6c469c8eee8e1801c1b79,
      0x57732cf8c71377f948d826e07697de81506f7f4bd97b1274c7adc7f42ca80b36,
      0x317880c7a2c2bfb02093d8a9e6a214ef2e237aff2f97bf809b1c0cabc12ec780,
      0x1ddf7c6286b88d3a3b3fc6a784e8d25642a1eca3f1af0f15a247c4caeab72e69,
      -0x41809b4d4e11a3a67cd1da87e2f8cb3663fd1d3208442660f7ff99127a8db7cd,
      0xfec81bae16e15590480239a426e73f54a8a892e23e50133c204909173517c0e1,
      0xfa0bebfab263991bb83987a4a8c76b5a304464c979bc14a99b2021180cf94408);
    e := Twice(f, P, e,
      0xfec81bae16e15590480239a426e73f54a8a892e23e50133c204909173517c0e1,
      0xfa0bebfab263991bb83987a4a8c76b5a304464c979bc14a99b2021180cf94408,
      0x41be0e918b32acd55b4101c8d76dc00c719a2aa1dde8f855187a5b0a4909ac0,
      -0x2f0ae44ca55dbfe69b565aa7c5bc551131479891fbd471a3cdfd1261babe1ff2d,
      0x10e2107f898e98f56b09a8cac87b214890fd4be8385866f3df3635b6b7aa36,
      0x1611ff2d91c9896dde89302fb22adfe2cbc59e68d11fbff7ba59e84434f06c5,
      0xa8d71a0b5efb82412ba6affdf73755af9551364e1a19fc9bfb9d5afa5e4ca654,
      0xe5b09994c7f1650c37fcf392a7e60a2d0e6d62fd40578f2fedaddc7a5d3c4d8d);
    e := Twice(f, P, e,
      0xa8d71a0b5efb82412ba6affdf73755af9551364e1a19fc9bfb9d5afa5e4ca654,
      0xe5b09994c7f1650c37fcf392a7e60a2d0e6d62fd40578f2fedaddc7a5d3c4d8d,
      0x9ae67c81340ac3a891e827655df2514b4df29f31cab4078820bfb9de3e4c8551,
      -0x381b033d25323362894b69e809fca5af3daff0c519baea04cf0eedf408c07e6a,
      0x5dba1d4f6753e25e4d6a59b90b4a33cfdc05922d37bc665e572dec058fa6f9b5,
      -0x49aedd09b7f2f532a473c060fca15c3f768930c606d360dd0f70d7adbf34fbf,
      0xb0737d22a03ccbe065ebe1b30f6264fdd34efeedf7a3c366321b76e8292af2be,
      0xbe19e7bd110530a672ebe9a6cc00624da857beeb17c3b8933e4c12d62daf1afa);
    e := Twice(f, P, e,
      0xb0737d22a03ccbe065ebe1b30f6264fdd34efeedf7a3c366321b76e8292af2be,
      0xbe19e7bd110530a672ebe9a6cc00624da857beeb17c3b8933e4c12d62daf1afa,
      0xc76ad5a7b3f2acb888173245d8697d8f67d7a1439117dc5ac83976db09be1301,
      -0x44b20f6fce1967dad3a2c4fd721029f818917681a94deca06561bfa3234e9668,
      0x9b5744c05af4cccc04ea722b6ff141dca0b522eff4477ac58a8da8abd4a93cad,
      -0x1b33a82d7def5915cb023917ce4971cd4be028709dc13e265f7564ee69a93357,
      0xd35f0395187f7516c4c9665ba9892dd62db5fa3f5a80bf34229d60cf906fd0c2,
      0x8c5959641cb2888d2f811f7426591abb1a720d75ee9500012a29b0924dccbfb);
    e := Twice(f, P, e,
      0xd35f0395187f7516c4c9665ba9892dd62db5fa3f5a80bf34229d60cf906fd0c2,
      0x8c5959641cb2888d2f811f7426591abb1a720d75ee9500012a29b0924dccbfb,
      0x3a8f7d1f579537868002ec6fbf2ba9193e0bd0428eea2a4f52dcff284db6410d,
      -0x2078dec69ffa8519adb79ed472d0e11544d33204c3b1152dbfe1885a3691623d2,
      0xd65551f39db153b0697e4b3bcafd0edfcb4f1a0929033e1eb80b593f74175b5,
      -0x4757cc37af298a3bf810ecd158ca87c40d367bfdd34d93be3604d27a2a553ed,
      0xe6dd146def48449234c5d37980179bd3b35457dd07cd467b10b70cbae0f630ea,
      0xec39a1175637e95f7e85f761ef6bb9a2a9fe56e6eba9b8ab0a9299ac8880de80);
  }

  lemma Ones112(f: nat -> Point) returns (e: nat)
    requires Starts(f)
    ensures e == 0xffffffffffffffffffffffffffff && f(e) == Affine(
      0x25cb1d0ca4c4a07ea23301094c15b5578a4ccabab9428a0190d86b4e7411aece,
      0xbefa58707a37402aa4289a495557302049af3dfe8c7d5ce60953f991c4882090)
  {
    Facts(f);
    hide *;
    e := Ones112Part8(f);
    var h := Ones56(f);
    e := Plus(f, P, e, h,
      0xe6dd146def48449234c5d37980179bd3b35457dd07cd467b10b70cbae0f630ea,
      0xec39a1175637e95f7e85f761ef6bb9a2a9fe56e6eba9b8ab0a9299ac8880de80,
      0x10417355e5627cd891eb37c55d52882bccc83fbae2145e7ab3aa48fcdcdc1e24,
      0x7eb9f8f1528dde8c2127c5adf229a417dc798a91962a44f62a5699e6a6718198,
      0x4647902f6563170b8dfe78881d1da8285b9f40cd0bf83f2f966cd7f053d9c776,
      -0x3aea8c15868e2461abf1a3a7fbf1a67cd5de67904a0918912696300897dfee64,
      0x134b36db36f1c866f686b997a983731b431819f1f4db6f000bbeba82cdeed1f8,
      0x3500e25e1045a013f713ddccda7ef9b1c47b90f94f9c13f67ca9008a0b4bf1a8,
      0x25cb1d0ca4c4a07ea23301094c15b5578a4ccabab9428a0190d86b4e7411aece,
      0xbefa58707a37402aa4289a495557302049af3dfe8c7d5ce60953f991c4882090);
  }

  lemma Ones126Part1(f: nat -> Point) returns (e: nat)
    requires Starts(f)
    ensures e == 0x7fffffffffffffffffffffffffff80 && f(e) == Affine(
      0xcf3ed3d69b9ce452bff2cc6a2f84e5b07cb00453fb4c4c9f09f248db60dd3c58,
      0x24e8ffc043c422bd7b1b0cf72c5487b8353608111a241b6b07327f904992ee7e)
  {
    Facts(f);
    hide *;
    e := Ones112(f);
    e := Twice(f, P, e,
      0x25cb1d0ca4c4a07ea23301094c15b5578a4ccabab9428a0190d86b4e7411aece,
      0xbefa58707a37402aa4289a495557302049af3dfe8c7d5ce60953f991c4882090,
      0x354a8d416df2b76ea671bd2d2a75307b9f9fa39d760f7fbd7f5e8ddf395a08b7,
      0x3ec5dd74e14b9e010651dae3cd6121ed9701b3668aaf27e3db7395eeb8e2fbac,
      0xb17f4330f4b341c3f6cf1f36c35cf74107418e2cba088744a32b9f639419545,
      -0x2adcf11ca61f30cb1161384be0f101d8ecbc152cd12f69006ce9878a850c79ea,
      0xf3b2dbe23a809ff0f1526be5653d6c0331bb49c7add3f48e60da6fb63a1f418a,
      0xa6b8f92f2147e311179baf8b534be991f28be976e53130083c8bdc4a0478d502);
    e := Twice(f, P, e,
      0xf3b2dbe23a809ff0f1526be5653d6c0331bb49c7add3f48e60da6fb63a1f418a,
      0xa6b8f92f2147e311179baf8b534be991f28be976e53130083c8bdc4a0478d502,
      0x5546bf03e8d6d5336f5334a99e9e4e3b3b2d7ab10ffac9c63e2cd024e80cc373,
      -0x248e423c34e41f61955f022af08338ddde4e01c28a78253e89a5a626a3da68ea0,
      0x1c680e659d48d4909afff88291f3c5558a6966befd80f2f11cbe0ee29cc5f08f,
      0x6b14beaf9c5e6a58d029ac585b15a5333b692d18ebb7959f7f4684b314da1ae,
      0xdf9b88e984d8df7726f791888800e30a1135c14785cc2d4e4378db36332cf454,
      0x3c2e2645de73bed3ac07ba47992f27e1b5a5043946f765b5f5d9ac1562fe054e);
    e := Twice(f, P, e,
      0xdf9b88e984d8df7726f791888800e30a1135c14785cc2d4e4378db36332cf454,
      0x3c2e2645de73bed3ac07ba47992f27e1b5a5043946f765b5f5d9ac1562fe054e,
      0x4fd65906f2b9bc9b4a292986b41e477a60371871e43c39f81f8b2ba7c2ff5148,
      -0x22467c26f4554a5545544e02935a38cd9c14208b3c335ac404f78499a69e38e30,
      0x18e5fe6b406245e49761e4a264c8e36a90a4d507714c3b731e4fc7c590cec006,
      -0x4baad9a2d0253d15f8efe44d8a911a852e4391ddd77ea408ef12378a429e66a,
      0xeec599a5f40557f66405d69da19ec422aa77766c621f3b632f78a45b65ef927e,
      0xcdb995b3531d4a63c14d2b5f36d0964b9ac232e345ccd5c40456f72de7bda58);
    e := Twice(f, P, e,
      0xeec599a5f40557f66405d69da19ec422aa77766c621f3b632f78a45b65ef927e,
      0xcdb995b3531d4a63c14d2b5f36d0964b9ac232e345ccd5c40456f72de7bda58,
      0x7446cf35598a9715e6c166eaa4088c445c9f759453ac536c29c2c90a5eee5936,
      -0x2906de6c0320dfecd88254657f04facbd85b05da493f070120c4862b0893ca2d4,
      0x34d03f5e5209e2a2cc23195bb4b7a06255de5da4aa03636f9c3d2a5edfa1d3b4,
      0x1fb113640ffca419906a6958e3a9e456a15a0141c765dfda9eb499f7ecddcbaa,
      0xa8ff791e66596939d7bdb52f82b34930bdf2cb7dde72fd6c1de0eab65438645c,
      0x25c8141e58dbdeabc9fe0cd3919010f7f21a8cee33dd414ff17fbdf1e743f69e);
    e := Twice(f, P, e,
      0xa8ff791e66596939d7bdb52f82b34930bdf2cb7dde72fd6c1de0eab65438645c,
      0x25c8141e58dbdeabc9fe0cd3919010f7f21a8cee33dd414ff17fbdf1e743f69e,
      0x605a96eb986bba2cdebd93f7ae4a36c04db11a17dcef0a49f288946671f18fa4,
      -0x132401d6e54b7bc3d9bae74d540678eec21558fd895c4e51d10becea1c367d740,
      0x2444113f28f0e6cffd4f4a1757baabf04be546adb1d074e0095c0d9cb3fdb4e3,
      0x2985d7942305bc0e1f1eb7c3e64c0224f4947296c281febaf032c60ac7841120,
      0x3aad54af47a0ebe86690bd595be55ac0bdadceef8a853a492c170defce2f2eab,
      0xa657a8be95c7be5ece9f596819941a4d024bce529298ccce3a3a6e433746a8e6);
    e := Twice(f, P, e,
      0x3aad54af47a0ebe86690bd595be55ac0bdadceef8a853a492c170defce2f2eab,
      0xa657a8be95c7be5ece9f596819941a4d024bce529298ccce3a3a6e433746a8e6,
      0x26c834c2f4bcdd156bf012b90c063f0d4c68af7ef3e3cfc24f299c3bb8675d1d,
      0xa0d34703d995fd1cca83b9e013ad1be108f5c4f7ac12abb3c03a1ed1808685f,
      0x5e00c3c5c2640a05f8c45c39c525c46dc7a2224c02fab66259cb1a23e0f40a7,
      0x6c1ef08586291441f163d7e82fe40cd9c71944a7455f66b1710e6f5f32cf60c,
      0xe120dc0ab055ecb6920daa49ec1281639bf0053a1751719a82213e9fb0b754a,
      0x8deec82132df4aed2bf5bf9d2c4877d7fe752aa1f3fee0e287dddec30abb97e3);
    e := Twice(f, P, e,
      0xe120dc0ab055ecb6920daa49ec1281639bf0053a1751719a82213e9fb0b754a,
      0x8deec82132df4aed2bf5bf9d2c4877d7fe752aa1f3fee0e287dddec30abb97e3,
      0x3c52f2ea2917c6126707c3e5828697608b855fc07238ea989bbeeef751763073,
      0x4091f7cdd5f56b3165f571823a10389c478edd00e2ec77cff3429ecd7a3ec31a,
      0xe36fcbe47c503f39c9f28e33256385eb0218d546e4c0e02cfe66905b1184ed3,
      -0x2d8516119c9a7d877807a90fe27d3cd4eb66a8c641adc1e5541bf0683483b745,
      0xcf3ed3d69b9ce452bff2cc6a2f84e5b07cb00453fb4c4c9f09f248db60dd3c58,
      0x24e8ffc043c422bd7b1b0cf72c5487b8353608111a241b6b07327f904992ee7e);
  }

  lemma Ones126Part2(f: nat -> Point) returns (e: nat)
    requires Starts(f)
    ensures e == 0x3fffffffffffffffffffffffffffc000 && f(e) == Affine(
      0xbac5bdf481533258aa9834a2276cff6c7c6bf32a6ebe2fe6c01514ab4d23c4a8,
      0x2f344958c1463175e6f3dfd7e84f72dd2da9143e5abc91f7101cf59cf98929b0)
  {
    Facts(f);
    hide *;
    e := Ones126Part1(f);
    e := Twice(f, P, e,
      0xcf3ed3d69b9ce452bff2cc6a2f84e5b07cb00453fb4c4c9f09f248db60dd3c58,
      0x24e8ffc043c422bd7b1b0cf72c5487b8353608111a241b6b07327f904992ee7e,
      0x8db973f44b2686031183cdb24f507396886ecb7673db814dc6e08b4df05292b8,
      -0x1ce75da15da91d02f03b5ebcb5d6907af03244525cfc414b24bd79ec011fdc460,
      0x4e75d013e66271f105a050fd607734cb4c19c3ca9ca628f5267ddccd4e2f5f02,
      -0x20e817af169a2b43db85c74a905624e03d835e323d20f63ddcea85ebf0c60bb,
      0xd2f5ddddbcab0f7a3edad6b57ee579230fc53ccbca534c00a13d793df3058232,
      0xda0b73bf443d9cc63d673335b1d072778c1eb683649e5d5da10a9cf4d3935f27);
    e := Twice(f, P, e,
      0xd2f5ddddbcab0f7a3edad6b57ee579230fc53ccbca534c00a13d793df3058232,
      0xda0b73bf443d9cc63d673335b1d072778c1eb683649e5d5da10a9cf4d3935f27,
      0x4a71dec4b3c7310f8c5e8a87922664c48edf15b62e4e585b055e865794851230,
      -0x18ab84be4e9deec5bce5a17efaccfd2eb14427a656eb308465b419fffaf5b1914,
      0x15a60770236f9d278d3ad468a313de9bdfe8e323d7b04c35ec4b4fda38b372c2,
      0xda83084ad93b4185dd90eb94545d0ae9270c18c7c6de71ab19ecb3a7f6d5190,
      0xa3ff3522301381c195fecd49ced99016562d4ace427191a4948afeebe5f8bafe,
      0x7c08c8d559bea1091c57b5c31a39a1b1b946a701e1f3db1cf05a18a2630be929);
    e := Twice(f, P, e,
      0xa3ff3522301381c195fecd49ced99016562d4ace427191a4948afeebe5f8bafe,
      0x7c08c8d559bea1091c57b5c31a39a1b1b946a701e1f3db1cf05a18a2630be929,
      0xceb0848ab7a530cb90b5515b23a89e54191a21567870122edfdd23f21d4fede5,
      -0x72e3c4824ec0021fcf4a3ec707a879a71d1e42b8c999771f3a1196d010f335ee,
      0xa6e08f05c2e9b63790f2e74c82aed5df5d6eb7b7cd365a7da41aa4909c15e8ea,
      0x742c195b463812ce0997f721ef9f1466118f711d386d5eeac261ae9a393ee22,
      0x9b0100bc9d5d721b1c1301611c929176cd9258f2ce588287b9958ec476143de7,
      0x673ec686c0e1457d4ebee596c8c042a74f384e4370ad718fe3d42f72b8cf172c);
    e := Twice(f, P, e,
      0x9b0100bc9d5d721b1c1301611c929176cd9258f2ce588287b9958ec476143de7,
      0x673ec686c0e1457d4ebee596c8c042a74f384e4370ad718fe3d42f72b8cf172c,
      0x72b3dcf2d5fbfdf4150acc5e8af533265a8bd60feec3735d9fa85326270c55af,
      -0xbd09a7decf5fc21e8f9df39c995355d82d9c3d255542420e2fc7f36573bdd3c5,
      0x3364af2700ddf2b4e5d7fd647b372b9962a98724daf58700c0072eee1812e5e5,
      0x3d58a4e6ff9968fd069e36b80d8d66fb3b26b3dc5ca28e20e6dd3dbd27876ebe,
      0x121673de2b368333a848bd96def102aa4ed7da24c8803482f52f8fad6b0c90c8,
      0xf148c76b8f552c522fff7565542bced3b238f759467709acead754ef103d2f23);
    e := Twice(f, P, e,
      0x121673de2b368333a848bd96def102aa4ed7da24c8803482f52f8fad6b0c90c8,
      0xf148c76b8f552c522fff7565542bced3b238f759467709acead754ef103d2f23,
      0xa3c7748ce9542ea12c70255a84421d7e7ab8718af939694b35d9c406591ae52e,
      0x130e52a027fcab4b4dbea792a4e5e9bc80e60c6c0eaaed42eb665469b8cb78a6c,
      0x68c799d1d943f54610294f0998d0523e004df35266554857e1958145fe54f318,
      -0x96fea039327519a94fbaf21e237fe15155c94e676ae7666843651f3c3d40a8de,
      0xfe1ac17e5acb027012299de26104df12eb78d825360e1faf0eb91432229df14c,
      0xe57879141c2783f3973c9e10593244fdceb3b425a40b11d5b03dc2d57320ede7);
    e := Twice(f, P, e,
      0xfe1ac17e5acb027012299de26104df12eb78d825360e1faf0eb91432229df14c,
      0xe57879141c2783f3973c9e10593244fdceb3b425a40b11d5b03dc2d57320ede7,
      0xb10c17c753ba2f41c3325a792a2e0d0476b9fc981ac36a4e3be253effe197246,
      -0x1b7450aedae461f3a4364f31af4bc746d9559c1a3b6d398d580dd3e0f34ef3d64,
      0x7a71b973deacbb0c196b7931e51592ac7992b11c350231584ce1f15c12e1e238,
      0x75e4892420bc98f9f0e4d01ab20ae6cdab939c89015d8566048f78da6efdc8ec,
      0x53a3754001e0d782314f827fd30b5a1a77ee3643554d7dfe57251e363782e044,
      0xe6d9081d0d5f965ad065927e527a922a64f5a339275ec39d5b05004f142f16f5);
    e := Twice(f, P, e,
      0x53a3754001e0d782314f827fd30b5a1a77ee3643554d7dfe57251e363782e044,
      0xe6d9081d0d5f965ad065927e527a922a64f5a339275ec39d5b05004f142f16f5,
      0xa5a212f67a2d19d602accb75963d4892a4f51ccdb58cbbbcc03221ad81dd994c,
      0xd8bdde24af50bfc77312946d4e438576c0b8045bad4238b7a3ddb44d09cfd538,
      0x6b2a530dbad85adff2ece5369795d654116a58d76cf999c72735c9a0ff80f4a0,
      -0x42ba64320da46b67977828bb35926c2c07261904e426447e5ddabb0719e424bb,
      0xbac5bdf481533258aa9834a2276cff6c7c6bf32a6ebe2fe6c01514ab4d23c4a8,
      0x2f344958c1463175e6f3dfd7e84f72dd2da9143e5abc91f7101cf59cf98929b0);
  }

  lemma Ones126(f: nat -> Point) returns (e: nat)
    requires Starts(f)
    ensures e == 0x3fffffffffffffffffffffffffffffff && f(e) == Affine(
      0xa59c96ebe637b30d81993ce256e2bcd5f76fbd08b01fcec62609872770632bcf,
      0xc1cf6659d1d5139cf6f42aa13987b0fb8e7cec538d3df7c91e2420b6754c1713)
  {
    Facts(f);
    hide *;
    e := Ones126Part2(f);
    var h := Ones14(f);
    e := Plus(f, P, e, h,
      0xbac5bdf481533258aa9834a2276cff6c7c6bf32a6ebe2fe6c01514ab4d23c4a8,
      0x2f344958c1463175e6f3dfd7e84f72dd2da9143e5abc91f7101cf59cf98929b0,
      0x1e70619c381a6adce5d925e0c9c74f973c02ff64ff2662d734efc485d2bce895,
      0xc923f771f543ffed42935c288474aaaf80a46ad43c579ce0bb5e663d668b24b3,
      0xf476aa271587cba2a07d2a401280aaaacc909baddda62e1193feef36b53c357a,
      -0x9549d34543f57e52b781df120f79eec9fe7e4e796f3df0faf851e8ca356f9cbf,
      0xe9726b5bce2aa3eda77e24114e6b6ad287eb7df33581ce1cd1f7d8572c872e68,
      0x1435083cc0c5f70c90f5dbb3513f54c33bec609a27084f9a6101b635214e3a09,
      0xa59c96ebe637b30d81993ce256e2bcd5f76fbd08b01fcec62609872770632bcf,
      0xc1cf6659d1d5139cf6f42aa13987b0fb8e7cec538d3df7c91e2420b6754c1713);
  }

  lemma Ones127(f: nat -> Point) returns (e: nat)
    requires Starts(f)
    ensures e == 0x7fffffffffffffffffffffffffffffff && f(e) == Affine(
      0x852c3bd77d6641016b3014a298f65ab0f44d8a192c404bc49250756cf08b5426,
      0xc5e70b07eba23c4e04603dc57596657f0df3f6b0845e8ea2c05dc35b09c4554b)
  {
    Facts(f);
    hide *;
    e := Ones126(f);
    var h := Generator(f);
    e := Twice(f, P, e,
      0xa59c96ebe637b30d81993ce256e2bcd5f76fbd08b01fcec62609872770632bcf,
      0xc1cf6659d1d5139cf6f42aa13987b0fb8e7cec538d3df7c91e2420b6754c1713,
      0x24af2cf595bb5989820036d1cf891744291d712a3b49a2bab3287a5931cdc57,
      -0x13df0f5d6784df8889c8acda8793224f99d655dbe750e9b7c7e58d9533f377b17,
      0x541bc8391c4be636d8410eedc026b48359e02955487f11455186ebb8599b3,
      0xe7f6e3bb27722b2667cf293a8f399ef4898c0d06b0d430a6fb12ffd823533e,
      0x40707f4904e3e8af195490cce709fe8636a326f2dbe90d0cbc52bc70a2c6e216,
      0x3dad2073e660ba8acfb14a553e22535b29f4da2fe119e43d0f54006be438a26a);
    e := Plus(f, P, e, h,
      0x40707f4904e3e8af195490cce709fe8636a326f2dbe90d0cbc52bc70a2c6e216,
      0x3dad2073e660ba8acfb14a553e22535b29f4da2fe119e43d0f54006be438a26a,
      0x79be667ef9dcbbac55a06295ce870b07029bfcdb2dce28d959f2815b16f81798,
      0x483ada7726a3c4655da4fbfc0e1108a8fd17b448a68554199c47d08ffb10d4b8,
      0x44565f3dd57f21a2781d6b23391b8fbcef09d46ca234cf171d9dc7248d06418f,
      0xf4c06e7c159c7f2dc4192cfbd5dbf04717118ca391bafc68186bb8cbac81db0,
      0x123dffbcfa65eeacb491be5c8509a1995aef589083084b39ea6122f2ab1aac83,
      -0x12590eb974e63df78689390374884d7479e20b68872cc8ac7da2f4350bdc596b,
      0x852c3bd77d6641016b3014a298f65ab0f44d8a192c404bc49250756cf08b5426,
      0xc5e70b07eba23c4e04603dc57596657f0df3f6b0845e8ea2c05dc35b09c4554b);
  }

  lemma LastPart1(f: nat -> Point) returns (e: nat)
    requires Starts(f)
    ensures e == 0x1fffffffffffffffffffffffffffffffd6 && f(e) == Affine(
      0xd7a9228d61117472405743fd10cf84524f51bf9606ff00e062f454ab5a8b2429,
      0x2fcd1c52105d01ef2c1d0d95304f8be2c1f0294b60b3186d8b4abeb74c8dab3e)
  {
    Facts(f);
    hide *;
    e := Ones127(f);
    var h := Eleven(f);
    e := Twice(f, P, e,
      0x852c3bd77d6641016b3014a298f65ab0f44d8a192c404bc49250756cf08b5426,
      0xc5e70b07eba23c4e04603dc57596657f0df3f6b0845e8ea2c05dc35b09c4554b,
      0x15d30e1cde739d10772cc7d6bbc109f5a3e23e6a66fd3a77e98839167464fea3,
      -0xae16c0fa35af61467b260eea7e367baefd8a01912639f2b9d4e643357eeebab6,
      0x1dc4e5100dcd5efac76addcaa484f6ae9e0d44f1a40546f3b8c0d9cbff39406,
      -0x19806d3496061a27e971a6ef481f4ec4810b8de29bd23166d1f9c3986170499,
      0x97de6003a550284732d1c7fa7db3083ba4245faad278cec04faea50454211e63,
      0xe250f63a1b3f2710a409af09a04f8c8207c3ab50e81c3cd62f25c1eb8d86d3f5);
    e := Twice(f, P, e,
      0x97de6003a550284732d1c7fa7db3083ba4245faad278cec04faea50454211e63,
      0xe250f63a1b3f2710a409af09a04f8c8207c3ab50e81c3cd62f25c1eb8d86d3f5,
      0x70f9f0dccfa3e73c342b7584f48bfe7576b17844686138033787e8a7e6462e86,
      -0x4687807cd938e397e6846479b3fde1acbe83eb648d749a5baa199ee865bf84d1,
      0x31dba6c7a5da1af55c744d8dbd8fe9ba2df64d768d4454296d5c2227eb6be2ea,
      0xd32093d242bf887043f59de7c7a21d7a440985c996cd1a97e64b48ee60101a0,
      0x79f7e0385028e6bf374075d4e15db6653585ab3e7f333365c106b4e510373068,
      0xddefde6f36f57e13ce9427c029f512654edfd8bbc301d8a46771182566280b0d);
    e := Twice(f, P, e,
      0x79f7e0385028e6bf374075d4e15db6653585ab3e7f333365c106b4e510373068,
      0xddefde6f36f57e13ce9427c029f512654edfd8bbc301d8a46771182566280b0d,
      0x1b4cccdd753c21d0878bf9b256ce4ca71f84bdd214f235526ddb7075843ba546,
      -0x7eff035938ee9acfcf67099aa860ef3c1ba28f6b9c05aeeabb7ab610d4a10b9c,
      0x2e94a40fe29fd4185cec0e177f14f941ec7567921c8189153b5f84b4c403b47,
      0x2c737d5b7d4f4b90c60abb706842eef2c2c35721f8986d675f294de595ea754,
      0x5fea93ffd5b17972727043147bfddd5cfcb2e9b4c0044368f8df4b2ca9ab284b,
      0x6887e1472ee4dd13ac07a754757e03010fa4e203af664618145db1fbca487575);
    e := Twice(f, P, e,
      0x5fea93ffd5b17972727043147bfddd5cfcb2e9b4c0044368f8df4b2ca9ab284b,
      0x6887e1472ee4dd13ac07a754757e03010fa4e203af664618145db1fbca487575,
      0x2689cad83b86671be55440a40e24f87abffb69fffe0d45d622ba1b8e5c4cbf19,
      -0x4c56f4690c0b89fd0a245aecd82babd761c7c9b81fbe27827ee23e85f7d55cbf,
      0x5cd3262edd5910b3f4db670ce6a7813de627b459cfca34d07f23875a6a0f1ae,
      0x50f21b533dfabf8dce67b2dc9316823429de67eb5d456c5280f906327a6be88,
      0x3e4f575851d7a6e7bde3ede33920c097ea70ebc03a4bbb56135a5a6d966258e9,
      0x783045ed445a7b44ab3b7cfec18331ff35cffeeb77ede32ec5676b8387030e25);
    e := Twice(f, P, e,
      0x3e4f575851d7a6e7bde3ede33920c097ea70ebc03a4bbb56135a5a6d966258e9,
      0x783045ed445a7b44ab3b7cfec18331ff35cffeeb77ede32ec5676b8387030e25,
      0x57e6ba085469c9d8762c3d140f0111db7d52b6205dc4c0cffaff5337b649e462,
      0x2509e04178d4216b6da5917ecb84d238e2a26b0c36f06267612de732f93f74af,
      0x1e2ea2647787b036ed072a6e4e0640162101dc3283273afaeefcdf5262210a54,
      -0x1959c35047d727f4e38fd23ac4c0d738a42a22bd992c697209f49d7bf1235987,
      0x8823daf7dbcea1d074662e7cda0c23840fefd48d43527c64715d730cb6f66e46,
      0x19f2d22bd6d509b91d80d85ee2b9bb74131d51c8833a652e48e0bf9e9fd8440a);
    e := Plus(f, P, e, h,
      0x8823daf7dbcea1d074662e7cda0c23840fefd48d43527c64715d730cb6f66e46,
      0x19f2d22bd6d509b91d80d85ee2b9bb74131d51c8833a652e48e0bf9e9fd8440a,
      0x774ae7f858a9411e5ef4246b70c65aac5649980be5c17891bbec17895da008cb,
      0xd984a032eb6b5e190243dd56d7b7b365372db1e2dff9d6a8301d74c9c953c61b,
      0xe29e116bc409b9017c3416246924643e51f0885423236a30fc5d9b85ea78b46f,
      -0xee9ed910b3136c93ce77d798d7454f5972dc313fecd3dfaa0c902a078e3307a,
      0xc89b785bc856a40dbdf304c92b0f05674b9052f172a837ef71bd83f347bd057e,
      0x749d0a8e8773f1bdfc30fd6000e1f8b05f51ce4be8a3e53aeab32f7e793997fb,
      0x4682847e9c7485791818f9d084f23bb60b072ca73160c577208d6774707c6ee,
      0xf0a368501697d22c2c7b73d8aa572370540f10c106bd9b74299de7153c593009);
    e := Twice(f, P, e,
      0x4682847e9c7485791818f9d084f23bb60b072ca73160c577208d6774707c6ee,
      0xf0a368501697d22c2c7b73d8aa572370540f10c106bd9b74299de7153c593009,
      0x47bffd0e5dec41b22284243bd74d6439421f82331caa2ab1e3fe7f21f797d8c,
      0x833f64e00f27c040c0048f75b5c558a232165c7829ca625e4750b7a8db47db4,
      0x141c0e598dae996e391b96c0d72a089f3c419e16851f28b849751a95a36c65,
      -0x3b3573b7104f7a4b959fbd58e4573707b76dbb3b4df778f171fed6981085865,
      0xd7a9228d61117472405743fd10cf84524f51bf9606ff00e062f454ab5a8b2429,
      0x2fcd1c52105d01ef2c1d0d95304f8be2c1f0294b60b3186d8b4abeb74c8dab3e);
  }

  lemma LastPart2(f: nat -> Point) returns (e: nat)
    requires Starts(f)
    ensures e == 0x7fffffffffffffffffffffffffffffff5d0 && f(e) == Affine(
      0xd230417a6e824b0cbaa1f3d1fa95b0186718270b7515bb6450b4a4ec204dc992,
      0xb5ca718a5c94559c70c530611699ea29f991f47b45d2d973620762eda18d57bb)
  {
    Facts(f);
    hide *;
    e := LastPart1(f);
    var h := Five(f);
    e := Twice(f, P, e,
      0xd7a9228d61117472405743fd10cf84524f51bf9606ff00e062f454ab5a8b2429,
      0x2fcd1c52105d01ef2c1d0d95304f8be2c1f0294b60b3186d8b4abeb74c8dab3e,
      0x9419f5e35ecf89d3f8852310e224e4d8a4a318ef6c89b6db4c074c840ae23450,
      -0x1e9b9bcb668cdd8465b534fb55673d8a2c9d1d78e55c9b12d700165221a444e7d,
      0x55ae06f0d835795087bbb39dc983912c13c428cb7abe24c222756b6c791faa39,
      0x2413f96e6e357b09c0f1ce0cc8f15802062b4d3dccd66c1104a5cb2bc7439c09,
      0x994c55a1c273c76150f5e9fd7634545f002684ccefb685711a81e05334b2f437,
      0xdb054345733c2086fff78d6f925a0150bfc964ba34cd2a9fdcb9ee22b168f6bb);
    e := Twice(f, P, e,
      0x994c55a1c273c76150f5e9fd7634545f002684ccefb685711a81e05334b2f437,
      0xdb054345733c2086fff78d6f925a0150bfc964ba34cd2a9fdcb9ee22b168f6bb,
      0x3e2aba648635147a75819c442b0ae1b8f064083ca88e12427f445d4571ed1ea2,
      -0xa905561b8f3f4060de599cc549466cd90b2d8dea9033706b92f5ed401989b4e9,
      0xf18b96a61b3f9d44aaee5161ee83ce79cccf39436f9798eaf6d4a7301a7d591,
      0xe03cb1c16172d6525f705bc66bfe564ea6507d6e38f95063523789595a63d6f,
      0x5f95fe33ef9800bffa3e378a95eb876da2aee26de64d0e9e33949dd4a7be8477,
      0x12095b72acb9c9e41469cf9f3714fef0a3b7c6ef452c605b9a15ad257a8eb564);
    e := Plus(f, P, e, h,
      0x5f95fe33ef9800bffa3e378a95eb876da2aee26de64d0e9e33949dd4a7be8477,
      0x12095b72acb9c9e41469cf9f3714fef0a3b7c6ef452c605b9a15ad257a8eb564,
      0x2f8bde4d1a07209355b4a7250a5c5128e88b84bddc619ab7cba8d569b240efe4,
      0xd8ac222636e5e3d6d4dba9dda6c9c426f788271bab0d6840dca87d3aa6ac62d6,
      0x57c4523a2339bc6b5f7145339cdb47bcfc0bf61a2602788771de65153744fc3a,
      -0x10784806066f21c8d7e409bb3c679be9912d6e358b8ef31bd10fa1209b863140,
      0x1e17067187607a3e770022d1a9e500fc11cc60f5c563487c1aae76f32f90e063,
      -0x86282675468c6ea4698a7aade9cc58ba4e1c0d415fb1ec1d0c567ba0832d115,
      0x780af848100bb1bc5818cd18d1b2da7c7d9b8da4fb88561a39053fb9113b229c,
      0xf9ced3f5adbf87828d426e05087e6a4ac16d31dc5ce24b58236bc218b4c51915);
    e := Twice(f, P, e,
      0x780af848100bb1bc5818cd18d1b2da7c7d9b8da4fb88561a39053fb9113b229c,
      0xf9ced3f5adbf87828d426e05087e6a4ac16d31dc5ce24b58236bc218b4c51915,
      0x5732107a973bb414651d1438e0bcfc9ef6e5f478c2867afd7e0a7c9288f79536,
      0x14d6d51326f8ae2f4acec75e7b8dbfa50ed9b2635b8068970d92506e4a8fa14,
      0x1db310fdc3bd35542972ef8b209238e7d1df07acf64091e0f1619e5be1987818,
      0x1746cac9c8e97c54404e0c8152311ea83ac9db0b2d6361f44749a54de8f4c919,
      0x33b460cf3b925b3dcb1580bb7762692de4df6ce1bdbec525d18dd4e07997f5c4,
      0x76a4343c645fb7e19f89ac38d038ed6d2a97001a99009edee6bab0bb535b8ce4);
    e := Twice(f, P, e,
      0x33b460cf3b925b3dcb1580bb7762692de4df6ce1bdbec525d18dd4e07997f5c4,
      0x76a4343c645fb7e19f89ac38d038ed6d2a97001a99009edee6bab0bb535b8ce4,
      0x1f16a3c84b9282411b8e811a7cce72cfe968d1f1b92d684a8fb7d274a38530d9,
      -0x283585231798801358ff91010b7a30a6aeab7e8d3553a59219a6b3ba16868d8,
      0x3c67dab118325ace4f6dac01c88065882d6d079b5b3818c1c6d9d8d3732d4a6,
      -0xfbbd566a478adc6badeecc5334cd2255042d2cfa2012d4f3208cbcf27f1626e,
      0xb543de2b369e0d7c5e3d0c5c03e959dea1e9e1ad80702ed773f69cfcd699b9ef,
      0xfa345de0778dd3311769ec21064b2e61b8eef48c05f315c8d0018e75c5cd74db);
    e := Twice(f, P, e,
      0xb543de2b369e0d7c5e3d0c5c03e959dea1e9e1ad80702ed773f69cfcd699b9ef,
      0xfa345de0778dd3311769ec21064b2e61b8eef48c05f315c8d0018e75c5cd74db,
      0x701fcfaa777bc258e3872312c9443fce4ea699a041e99815e72b9be3c169fcfc,
      -0xa5df1db46815d95f0f541807631266bd0f5ef641b361c424f12bc296d2630db5,
      0x311bd9a91c4a58c3e50b81f0a1588af8da11945d90be06973ec69ae76af30850,
      0x48d9cc41aa296a2810d7805ec08de067d5a2d3ccbe4ff6cced0c8cd823851617,
      0xeef0055ad9bcae7274d1df981d1ea57998698867a21fcc7c813c5c2f5085d82,
      0x8faaf239b693f91e47ce0c0f81517f0a9dccddec7d44d2b95187f27a00e32038);
    e := Twice(f, P, e,
      0xeef0055ad9bcae7274d1df981d1ea57998698867a21fcc7c813c5c2f5085d82,
      0x8faaf239b693f91e47ce0c0f81517f0a9dccddec7d44d2b95187f27a00e32038,
      0x85baae105bb5a2d386eb694d6511e5d53233b2bbdb117d32affbc8c584b4b46f,
      0x937c1df5b44142b019ac2a11a8cc43eb5b821b5cf2d70ed6f5f1fbb739b264bc,
      0x45db80fe656a3cd6e67731fa58a6612c045daea6d0cb85b404e10ec7d172cb65,
      -0x65ff49044139b0f11ad1a66d5ad477f764a936b6c01705fa3c59182811f6e38d,
      0xd230417a6e824b0cbaa1f3d1fa95b0186718270b7515bb6450b4a4ec204dc992,
      0xb5ca718a5c94559c70c530611699ea29f991f47b45d2d973620762eda18d57bb);
  }

  lemma LastPart3(f: nat -> Point) returns (e: nat)
    requires Starts(f)
    ensures e == 0xfffffffffffffffffffffffffffffffebaae && f(e) == Affine(
      0x3f338980b32a474632caa6518c97e37384aa655b30a9429db756c457f65dd34a,
      0x1ca16e3cb9a84f041157d2760458ae745c0c3e434c88d72fa2a09c25ddf025a)
  {
    Facts(f);
    hide *;
    e := LastPart2(f);
    var h1 := Five(f);
    var h2 := Seven(f);
    e := Plus(f, P, e, h1,
      0xd230417a6e824b0cbaa1f3d1fa95b0186718270b7515bb6450b4a4ec204dc992,
      0xb5ca718a5c94559c70c530611699ea29f991f47b45d2d973620762eda18d57bb,
      0x2f8bde4d1a07209355b4a7250a5c5128e88b84bddc619ab7cba8d569b240efe4,
      0xd8ac222636e5e3d6d4dba9dda6c9c426f788271bab0d6840dca87d3aa6ac62d6,
      0xcc30fd7bfbfdb16a2b2dc83673db3dcb126456167b3b01b68c611ca3dbc79d61,
      -0x81ba1ee5f2e9caa0950ac1f767dc727041b4d2c4ad6e43bb63d5afaddbaaa547,
      0xa2de1d5da3191e034b20f2ee3043fcdb1925ff95dc8203366f89c9d7f2de6ef3,
      0x2aa1b5648a799f8a51f2ade06507695e1ec4f64946692171252f70ce1d602d96,
      0x9cbd74ff9ff4cb2f93555e34611d8fcb54b8772369c860c4262d0a3313e4d2ae,
      0xbb11b4997661505adae9bb877f45975e577757c330a91fc51e5bfdf984ec021f);
    e := Twice(f, P, e,
      0x9cbd74ff9ff4cb2f93555e34611d8fcb54b8772369c860c4262d0a3313e4d2ae,
      0xbb11b4997661505adae9bb877f45975e577757c330a91fc51e5bfdf984ec021f,
      0x2fa2e6f886d4b979181be5adb130a17715b8c07ace29d4eb98f1cb2e7848af4c,
      -0xda47c4209206e7b8114e101c39f674cc2e0de3753ab041795724630e4873f2dc,
      0x8dd3878647044e0f48d1683c9d2988720d1ee3b762eb85bdc79b58cd42b59cb,
      -0x83dd93e8b7f7be606f09ccd277dc5f5b92ae52411d30198c189664307a804d1,
      0xc907e2efdd5454f92ca5da56e856db8badac950a1cedc457fa0ce424e47108ef,
      0xb74055faa18af036c3546aeab35bd2cf7dd7065b1be31f7256ff0a7fc5db11f4);
    e := Twice(f, P, e,
      0xc907e2efdd5454f92ca5da56e856db8badac950a1cedc457fa0ce424e47108ef,
      0xb74055faa18af036c3546aeab35bd2cf7dd7065b1be31f7256ff0a7fc5db11f4,
      0xe47dabbbeeb549be40deed072d89cee310e2af638303050b255a11a80e01bdfd,
      -0x9279a3f92c6feac91a46be8120b54d4113466c7101c7d10144a549c57b090ad5,
      0xcbf01797e9eea341b34bec03f55a1ac324e2a6e285bca2a6a25b3f1fd625e3a7,
      0x4e1e4f559355d21e28636159bedc040cc27b508b1c758326ae5c8e1a2fcb0928,
      0x7181e2b92bef54bf130ac8615d96094d615691047456c472d6752ab832b14a82,
      0x6d8346dd47ecd48f7c767af99987d676e12afa3487f6e07e38cf32f08e858a6d);
    e := Twice(f, P, e,
      0x7181e2b92bef54bf130ac8615d96094d615691047456c472d6752ab832b14a82,
      0x6d8346dd47ecd48f7c767af99987d676e12afa3487f6e07e38cf32f08e858a6d,
      0xfdacd6112c4c678f39199971f76d914f0a0fe5a4199a914f6913f5c5becf4493,
      0x420d957584b988577cecc1607b4b5c9be921e0878286b540c006e1190dfebc7e,
      0xfb5f13ce4ba34292e644e294b8b33b45411e80e6f74cb0e3be2210f55fda7f55,
      0x3bc2ee8e29ebe9f6a2a5aed5b6d4647665f33437522a7d3c27182e14e4ab1770,
      0x3532be588518cf61589475df48a714637c8d7ac9056ee6ef093e1c2f9795caca,
      0x87395a046482ddd1bbdec69423f63bd06079c9675eb2996d193d987f56ee1eab);
    e := Twice(f, P, e,
      0x3532be588518cf61589475df48a714637c8d7ac9056ee6ef093e1c2f9795caca,
      0x87395a046482ddd1bbdec69423f63bd06079c9675eb2996d193d987f56ee1eab,
      0x854954ae97c7844339fd424492f82bc60e819147436dfbfa9c2e0f9e85d5723c,
      0x6ba4e9154eaba4ee7d6f610923ad006aa0a4356a0df742cdf6392d1086ca3ec4,
      0x456546fed14ae9e4e4991c4246d7160de823cc94ca63fd4a2cc5ccc0af685920,
      0x15ba33dec5337c902098cef9a953d2765ae64d044a678d2018012878742ef86,
      0x32970b602db04f403d0dac5bcd50a1d47d1959c7fc869dee263210d7e0e20b9c,
      0xb181f9aad3d3c4ff3973b2964156d5c6f3a7f3b3c8888c5c6af9dc71b40f4a83);
    e := Plus(f, P, e, h2,
      0x32970b602db04f403d0dac5bcd50a1d47d1959c7fc869dee263210d7e0e20b9c,
      0xb181f9aad3d3c4ff3973b2964156d5c6f3a7f3b3c8888c5c6af9dc71b40f4a83,
      0x5cbdf0646e5db4eaa398f365f2ea7a0e3d419b7e0330e39ce92bddedcac4f9bc,
      0x6aebca40ba255960a3178d6d861a54dba813d0b813fde7b5a5082628087264da,
      0xae6a77e0638941642bf9629b32d6f240045b5987fa0acfa4e791fbb37a626707,
      0x1cb7f780be99a4d4af1b187349a20ad4300cb0a18557932fb0592d36a240c0c7,
      0x76d4e73c854363c6446c6ee9f7a91ce30a3379fe4f683d6a76ee140a7272b697,
      -0x125cf31e072b8bf7c9efe456bfbba749f8b45126743d77ec4041a0d02b6627d9,
      0x4d8ae46daeeb49dd33b41900ee0e03604884a95a2cedf1fff3c3017fd2f67320,
      0x4bba8e454d976a25355161853de2b423d2a0d2728d656885122fe7d14e55b1b8);
    e := Twice(f, P, e,
      0x4d8ae46daeeb49dd33b41900ee0e03604884a95a2cedf1fff3c3017fd2f67320,
      0x4bba8e454d976a25355161853de2b423d2a0d2728d656885122fe7d14e55b1b8,
      0x4def9248e6dff302f51cd7aac90def761ee0913e6e30a901726eee5d2af0bd08,
      -0x185a93d7e6064b8775233903868f80f70856b5bd6a048ec5d3e037774b80e780,
      0x17b9fe3252990a71a6584368ca53609b477b4d5014d0310d79433b2468cff92a,
      0x45db2191253d899ec5a805cfdedb6ddcdb842a371c97fad38c35b89bcb263c2,
      0x3f338980b32a474632caa6518c97e37384aa655b30a9429db756c457f65dd34a,
      0x1ca16e3cb9a84f041157d2760458ae745c0c3e434c88d72fa2a09c25ddf025a);
  }

  lemma LastPart4(f: nat -> Point) returns (e: nat)
    requires Starts(f)
    ensures e == 0x3fffffffffffffffffffffffffffffffaeabb4 && f(e) == Affine(
      0x40021bd703cc1303b40e5b3844b558ad69bc13d0cf6cfa7c4690893bc42f9908,
      0x606bbde680c14c81e8c0f8bf6816f0d95dca75d4006667c22df8d400f8347ae0)
  {
    Facts(f);
    hide *;
    e := LastPart3(f);
    var h := Thirteen(f);
    e := Twice(f, P, e,
      0x3f338980b32a474632caa6518c97e37384aa655b30a9429db756c457f65dd34a,
      0x1ca16e3cb9a84f041157d2760458ae745c0c3e434c88d72fa2a09c25ddf025a,
      0xd70ec55e56ad99e96e757647b163998380d2135314ec6ba5669654e2cb701c9a,
      -0x2bcd90d8c8322ba953a6be0c14df7d15d218d71e34c7587cdc6f92bdd83e215c,
      0xb4a9d05ea41367ade0c8c6157a58f785ed1ce81c51f540bb64247fd90fe547a9,
      0x2bc24d15a2d329f11f050a37cf5c1a106b1964d76a75db43bf408421d03bbb36,
      0xb1c8fd9dfccca00434e98fb6f5a07c9b3577378de34fce4735e38bc033ce209,
      0x1fac202082fd644e909a882f42b455e107bf985a063f7755406cce0149bab3d6);
    e := Twice(f, P, e,
      0xb1c8fd9dfccca00434e98fb6f5a07c9b3577378de34fce4735e38bc033ce209,
      0x1fac202082fd644e909a882f42b455e107bf985a063f7755406cce0149bab3d6,
      0xf4c2ef07fe03a2867c3a61a35e7f5fb68bc838f3d9d19b29314307705bb00d49,
      0x3b1df29e840d6cc9f51fd903ebac70e7678a8f1d5459d5bcb172275277da5f37,
      0xea042c166383d7dd5a58c87b4a17a7e0b1222c73ed0b5f8826e66fbad85d7a27,
      -0x92afce961d49e543c1a78f7244701067ee42e60d9290d2ca47e31ccad29c489b,
      0xa4889bde6eefe48f464968de71c5927444bc9efdfcb16d8148e3b126e155e996,
      0x6191e739120ed9a8afc356778c29fd35e28b745b65f8a5a518e8401055ee46a);
    e := Twice(f, P, e,
      0xa4889bde6eefe48f464968de71c5927444bc9efdfcb16d8148e3b126e155e996,
      0x6191e739120ed9a8afc356778c29fd35e28b745b65f8a5a518e8401055ee46a,
      0xf7738449498430ce3ab00a1b15ab6ac312c0f179176d2959f64bc4be2b3ee52,
      -0x13c815236cfef346c73fdf7afc60b29fb7fde61fa32a83de9e8d30aa56f84b77c,
      0xef301d658a10cbbd235d97e4566ad943de27feeaf64a3b63755cd67994e90e,
      0x4e029dbd969f3aad43c8188af3f3bd32bd6cda88edeedfcf47459ac982cbe1,
      0x9f7d5320dbae17c2ecad3b4ac33008db46f8ea81b971ec016afd18922b2a2d86,
      0xb56bad87021beeea4d92ddb4259f5bad78b62f0aa8f04724d8a5e1e4a8d64e67);
    e := Twice(f, P, e,
      0x9f7d5320dbae17c2ecad3b4ac33008db46f8ea81b971ec016afd18922b2a2d86,
      0xb56bad87021beeea4d92ddb4259f5bad78b62f0aa8f04724d8a5e1e4a8d64e67,
      0x9ce577cc3ce6fa11517d3ddf5d387468f7c07a2334af9e4ba80a1f0cb13b5339,
      -0x4bb647eaba87970b60ba48d31e6458e8198205540aad7a5305cce433e70bacd2,
      0x602877b075adf99059642873a3f0cfe7aa69e1011130874200583552d5324d4d,
      0x443446282ef3a22ab314830573d1bc47839aad6b93a993fa098c4ca74d45b0,
      0x9f0e0a10e6e618421caf0e09979ec6f1b4470b2e4473790416ba4f7497f8aa82,
      0x4587de314889551b280fcb77c6a10116a65052396e8de25be718fad39e7d1e2d);
    e := Plus(f, P, e, h,
      0x9f0e0a10e6e618421caf0e09979ec6f1b4470b2e4473790416ba4f7497f8aa82,
      0x4587de314889551b280fcb77c6a10116a65052396e8de25be718fad39e7d1e2d,
      0xf28773c2d975288bc7d1d205c3748651b075fbc6610e58cddeeddf8f19405aa8,
      0xab0902e8d880a89758212eb65cdaf473a1a06da521fa91f29b5cb52db03ed81,
      0x4affb708c562e316f18c7c7ca5eaf72e6948db031d72f72dd1e9e1118ba296c3,
      0x18747a2c5f142606e7a89d15b7716a9bc7ba207c6018742a63875ffd301f5ac2,
      0x15f8d53f3873f0c9fa64c451f9c53794430696a7d47ba99769747b856f2568bd,
      0xcd062a7b33c0f41df14272788ff8b8b114500d01c284b355392ffc885e0caa4,
      0x7350d30989c0c2e55c1180a58f73794da940a9761775afe368c364d76620ccac,
      0x31fc9822bca4dd25938b8e6b467633b1a395eb80dabd74d93bf55e4c573d9bb9);
    e := Twice(f, P, e,
      0x7350d30989c0c2e55c1180a58f73794da940a9761775afe368c364d76620ccac,
      0x31fc9822bca4dd25938b8e6b467633b1a395eb80dabd74d93bf55e4c573d9bb9,
      0xc95db58f46986400260fb47138c8cc7e07cd67d2adb88e746a72d00c58deaebb,
      -0x4d31e60938b954353307d57f04ae3f4c5fe66c3e13ce6a7f25aa2b76f8e39bb6,
      0x9e64496867b881c452fff0269c302adc597341485327abc5462d55953468cfbb,
      -0x53152a3accc493223bc8bebddd125fa0a97c99594c6e57dbcf54dd6cab4af51a,
      0xdcf0aa99eb2d27a8fd5fc5addb253ced35ebe07e1dc9ef30001bbfd54b55ebec,
      0x137de9aa5e1c5278e8429014e236ef93d6a204af85c2e66b92319d04d25a84d);
    e := Twice(f, P, e,
      0xdcf0aa99eb2d27a8fd5fc5addb253ced35ebe07e1dc9ef30001bbfd54b55ebec,
      0x137de9aa5e1c5278e8429014e236ef93d6a204af85c2e66b92319d04d25a84d,
      0xe78cb97807bbb31df3f6d344aa9fcb56e422e3c5b6e385b49cc4468b94ddc010,
      -0x239d76bd026cc202e48c232a0bebc4ab7dfee7e6dd3b9423871ee16c70e3dc1f0,
      0xd16f4411ff9be600801f4b5742331f8ae1f51e33407042ccca305ba6c751c9e0,
      0x8df186f9eb1a7d40d4128ea720df3c56b8541cd064fe5cc712a692cc9009f25d,
      0x40021bd703cc1303b40e5b3844b558ad69bc13d0cf6cfa7c4690893bc42f9908,
      0x606bbde680c14c81e8c0f8bf6816f0d95dca75d4006667c22df8d400f8347ae0);
  }

  lemma LastPart5(f: nat -> Point) returns (e: nat)
    requires Starts(f)
    ensures e == 0x7fffffffffffffffffffffffffffffff5d576e7 && f(e) == Affine(
      0xdde4dfb5dfca4fb57a8ce9ba2ddb2e52380942165cba4719d2a925b9a4ff6ada,
      0xf78d44a4251d5af7ca3ef4fce177626ffbc755bbad781c7ab0b12bd7972bba37)
  {
    Facts(f);
    hide *;
    e := LastPart4(f);
    var h1 := Three(f);
    var h2 := Seven(f);
    e := Plus(f, P, e, h1,
      0x40021bd703cc1303b40e5b3844b558ad69bc13d0cf6cfa7c4690893bc42f9908,
      0x606bbde680c14c81e8c0f8bf6816f0d95dca75d4006667c22df8d400f8347ae0,
      0xf9308a019258c31049344f85f89d5229b531c845836f99b08601f113bce036f9,
      0x388f7b0f632de8140fe337e62a37f3566500a99934c2231b6cb9fd7584b8e672,
      0xbd820f887a8c81c36b227a3aa34c9c55f0a049647fb612bf851760d46fa59404,
      0x89155c25ce9f0a22f224bbc698f902983cb8a9613705c745365d9bc00f873c6e,
      0x8c494d034c81356d3dd2b67b09424770dea00231fb9a6727d457acdbc4a3666b,
      -0x2ecb4902fce11a25c89f9a1602cd3490f6316788e68d1c13981e9cfa42e21325,
      0x7f3884e02c4ee06657c57e693c15e73846a188ae5020553a6554c6e88d46ae6a,
      0x86e51ec3e50750248ce9bc60f9948053c0ea9cf0dc5ceb46318137e041d7763);
    e := Twice(f, P, e,
      0x7f3884e02c4ee06657c57e693c15e73846a188ae5020553a6554c6e88d46ae6a,
      0x86e51ec3e50750248ce9bc60f9948053c0ea9cf0dc5ceb46318137e041d7763,
      0x88246dec0a2f5c1781c111b275131f55b126fd8e265fdde8ac3989cb1274622c,
      -0xb4b3c3a2ee87cce3c41422d268a41614f18bd0256f42b1ec34e07bbcef8f079c,
      0x4866b9f9e4680979fc9f2ce503857917c81e1258b21d7eb93ea202fde58d29d0,
      -0x2758277eba323c6ced1bcfe32693c9152e74357b04f6d4c676338ac423f8ca37,
      0xc9340d137d8eaaa3013a5bbd04185f63e2184e38397177d6d1c4637742b4ed8c,
      0x79330f1ac4a4157afcd03d587bdfb89c74388c802b54401b42e9c96750e0eede);
    e := Twice(f, P, e,
      0xc9340d137d8eaaa3013a5bbd04185f63e2184e38397177d6d1c4637742b4ed8c,
      0x79330f1ac4a4157afcd03d587bdfb89c74388c802b54401b42e9c96750e0eede,
      0x907e6ca0df806efa454760a45d6531e8911524be961db28481f68854ccaa76f4,
      -0x151972f3d5f7be0eca05818e627fbe93d69dfb3a2d0686afa8ca2aa3f4da33980,
      0x518e78a417e4a0f34d9b640e0cb4edf89d0a78b395c937a48fc08fe2bac1ae60,
      0xc47ef0a38a666af2add405446b1da51c956778c7ac0966ac27c45c02f7025cb,
      0xb371f028126c676cd92d0c7e533eb71231ef7ba784204fe84bef76f34b1679d8,
      0xaeb5fff8faa3dbb780856dac00bd751d207a43f71c97f23566251b400c028c6d);
    e := Twice(f, P, e,
      0xb371f028126c676cd92d0c7e533eb71231ef7ba784204fe84bef76f34b1679d8,
      0xaeb5fff8faa3dbb780856dac00bd751d207a43f71c97f23566251b400c028c6d,
      0x178d74f76eaa73bca5b6eb2002f00e70451125257f4bbb21afc676f885d66ae,
      -0x177573d27b5548c7fbf44355640faa117ff63cf80f1185ceaaf968aabf4bbedac,
      0x22ab92e83e3b400993aa2e857216a5d3c9e5f7a8c3371bf9563fb99fc3796,
      -0x2658e70370bf1ee014f6962efa0aa6fa10145b9142a7d1de89b01d073e0c2f,
      0xcd7ede8005d27060e40362155446dce717a85a03f30c784f5c124af6b8fe4e0a,
      0xb13c0f7bb59703da6956fb17a266362b9ab150b9ab10e6bcb43f0c0897e8ce38);
    e := Twice(f, P, e,
      0xcd7ede8005d27060e40362155446dce717a85a03f30c784f5c124af6b8fe4e0a,
      0xb13c0f7bb59703da6956fb17a266362b9ab150b9ab10e6bcb43f0c0897e8ce38,
      0xa3e3a239aed61f69fcfbc3f82f2b877ea17a8483e722ce71ef9a3ddb763a0ad0,
      -0x10befa0cf912137297d8073107e3b82905506be4756dc82485b7ce3a7dad36d94,
      0x68ebaafe8dbdca0300a329397f4c806d221e862e55d4be6deaf42af1e6e74134,
      0x12c4355ba1771c64d32dad04dbeb69dc58f3dfc460ad72cac4b5c27d3dbaa0db,
      0xb02e8bf43dc4a987942643b3499fd3fe4571037bdf6737f165e9bf796d482460,
      0x230dcffe922c7b2d85bd3e294e5fc49379ca8ca06f9e5cc927db54756b7d93b3);
    e := Twice(f, P, e,
      0xb02e8bf43dc4a987942643b3499fd3fe4571037bdf6737f165e9bf796d482460,
      0x230dcffe922c7b2d85bd3e294e5fc49379ca8ca06f9e5cc927db54756b7d93b3,
      0x30a4723c437f95a3cad0db8f168cc22a72248751c9134c9f69506f2f4e5746,
      -0x16bb2c87c4ce40f45e15f4efe60e8a04c10379abbd962834354c26141e2f5f2a4,
      0x93e147929800de27cca3b419960a95a64193dbed95f1495e003492070e1,
      0x5349dbbf8a317213274c104980233ac61aee7e11ebd604c0025c33dd38bc5,
      0x94c91e73277791304060dabe7c934bf4fa9caf163bc506159dee29313aa72915,
      0x375f544765748346c906f3eeb9f035834b5143a33e1b9c4945c857156c200aa4);
    e := Plus(f, P, e, h2,
      0x94c91e73277791304060dabe7c934bf4fa9caf163bc506159dee29313aa72915,
      0x375f544765748346c906f3eeb9f035834b5143a33e1b9c4945c857156c200aa4,
      0x5cbdf0646e5db4eaa398f365f2ea7a0e3d419b7e0330e39ce92bddedcac4f9bc,
      0x6aebca40ba255960a3178d6d861a54dba813d0b813fde7b5a5082628087264da,
      0x79f281b9bb8dcf6e380f42aabe615365a80864b4ee5b3615d15b5ad6700f0547,
      -0x1ab25fbccac11daf373b46185f3785cd1d18b9e03603e70fecf0a769fdb3b32b,
      0x3a17245b182f5bf7e4cbc7450769d9cecd2c9b13b7a790b4605e730cc8f434da,
      -0x22d35fa14132681011d503b79071ddc7efa2b683163a1681d9968163bde5e6e2,
      0xdde4dfb5dfca4fb57a8ce9ba2ddb2e52380942165cba4719d2a925b9a4ff6ada,
      0xf78d44a4251d5af7ca3ef4fce177626ffbc755bbad781c7ab0b12bd7972bba37);
  }

  lemma LastPart6(f: nat -> Point) returns (e: nat)
    requires Starts(f)
    ensures e == 0x1fffffffffffffffffffffffffffffffd755db9cd && f(e) == Affine(
      0x1aa54b79b46b53f6c0ef8af06c63d079781837b8505c60d6604480d427d2de71,
      0x79114095ba226d1ebe73182928e460044aaa34883f653f481aa7765f115464f8)
  {
    Facts(f);
    hide *;
    e := LastPart5(f);
    var h := Thirteen(f);
    e := Twice(f, P, e,
      0xdde4dfb5dfca4fb57a8ce9ba2ddb2e52380942165cba4719d2a925b9a4ff6ada,
      0xf78d44a4251d5af7ca3ef4fce177626ffbc755bbad781c7ab0b12bd7972bba37,
      0xb7d7dfd2dd60ebc633df4932f165679c28f925b5ac1c11cae367c92589a57d92,
      -0xdd716c51e542a17b543cd739e75556b61bf4d199c544417b7815c13aea3eded0,
      0x8406580930617540324af705c7e73321130aaed62c7a84ffb7b6b26e79ab264c,
      0x5100ed8993bdb87b04f2a3fadd12cd959af9da94b9cf3fedffaea03acaf0b198,
      0x6d18e5da0bb638acdcf053a8a4c18563ac2f25e7a5fb7e11df1bee0c6bfa399c,
      0x26ef4d15f51b5bfadc9158bb92987ee36faf52bd1c1f26cd6fefaf6be261663d);
    e := Twice(f, P, e,
      0x6d18e5da0bb638acdcf053a8a4c18563ac2f25e7a5fb7e11df1bee0c6bfa399c,
      0x26ef4d15f51b5bfadc9158bb92987ee36faf52bd1c1f26cd6fefaf6be261663d,
      0x75a74a2e990e1651dddec1e928034d4da24fb8884096c0933e6136f675561c39,
      -0x67b1033995e20ed56f07653180ec93b1b5faf8148dc3f5f8acc5ffd21457fada,
      0x36125720763189bf75164704ef08685a7370c43c4e5cf1369e9dfd2dc9d2bcca,
      -0x18bb7a5200246f35da1a8c9394631950baf2af5241920841890392904cdb8589,
      0xa2e971319e811abcc472a10c00a63c01b36015b9f4c903a66eee38bf78b69063,
      0xc9e48179584f643c3ac90f8c01979d80da43c28aebf1488a5eeb82eb428ee39b);
    e := Twice(f, P, e,
      0xa2e971319e811abcc472a10c00a63c01b36015b9f4c903a66eee38bf78b69063,
      0xc9e48179584f643c3ac90f8c01979d80da43c28aebf1488a5eeb82eb428ee39b,
      0xac8358ff17e0d817bfeb4ef3654e06479b4046f4105d204bcdc996a0e620f8bd,
      -0x26ea9e2f1c2e2ccd5e0b1ec5bfa9990d89c694bf14483bd5898cdc59f8346f93,
      0x7440c2fafc18f1183aeb9c7b1ebd5edf233230f904cde007545716a04c3e8f1f,
      0x4266cac4fa426aa3bb0cbeda81c72b6a4776b0b684fd282070d657678e8c6a7a,
      0x4060295b881020868808d601fc617ed310da680dc1272afeb51d22d5c641d012,
      0xe52b58dc425e36900b93810f9711f4341c4bee0388e86a5c1007e8306df3ebcc);
    e := Twice(f, P, e,
      0x4060295b881020868808d601fc617ed310da680dc1272afeb51d22d5c641d012,
      0xe52b58dc425e36900b93810f9711f4341c4bee0388e86a5c1007e8306df3ebcc,
      0x14158c03300d97ba360416b6fdfaeab8ac3a1178f5eb4bd17d162ac71ac61817,
      -0xc9b50ba51567ae4503cfaf70e7509cc37c9692af2cfda9309a35a5b8c3b701c,
      0x1935fb0c49b7e890447d348a5bdc6060bc74fa36479c78ead5f777f3cafadd0,
      -0xdfbb34dc3c256fb131df4a919d558faacf165d4bcdbc518aee79c444ca722d,
      0x4b83ebab3a480e9980148e90272319c58ced05dd7b2285c9b86e4aaaffcb08bd,
      0xbb87221b389b03bec25ec25d9b2a093401a61cd13be6280d799cd33ace88371a);
    e := Twice(f, P, e,
      0x4b83ebab3a480e9980148e90272319c58ced05dd7b2285c9b86e4aaaffcb08bd,
      0xbb87221b389b03bec25ec25d9b2a093401a61cd13be6280d799cd33ace88371a,
      0xae1709b68c11c1e7098c20fee82f6bb9a454bc38421b626e09e1bc8d64ad7b2f,
      0xbc39c2abf8901579a68b66cbb972cad04a2a23e8a872ba96b1efb41dc64208df,
      0x76635346e593a6cb9e039485e4fdbb55e48cb1ddd179849859c76bf2ccdd7ac5,
      -0x3d5acdb039c70ca66bd41b3452177d098e03b379b8003297dddaebcc3461d462,
      0xa5bcd5d2bc0030dd69b74604e1373029dcb5d5fc501467c4b05096a14a77aafc,
      0xb557e7646bc3416ca1ab71483edba531c0beab49f3a09ccb2141a3395fe33053);
    e := Twice(f, P, e,
      0xa5bcd5d2bc0030dd69b74604e1373029dcb5d5fc501467c4b05096a14a77aafc,
      0xb557e7646bc3416ca1ab71483edba531c0beab49f3a09ccb2141a3395fe33053,
      0xac06fe4aa0e460bdf9584e9a53a4415762fd5eaa0ad65c054f24ac1f20d388a7,
      -0x4e2edd733fec44ebe046caadc52f210fb7f467745cdf5912c9bac064ed086afa,
      0x739965e5304a99ba6915870c6149e23c0f634e439abd3478321602c0012db7a4,
      0x2ca5bf5a22b7dcbe966cbbc05f53b7ceb87d1785000df41f76d6df3ab853ecb9,
      0x634bd1cbfa4e427cb4ec00f32cf8509840e982ee066f722e7e961a8c36c65fdd,
      0x781c1e229c31c376e33d5837ee9d7f453620fad9f6ea80a12dd0ae14eb84b6ef);
    e := Plus(f, P, e, h,
      0x634bd1cbfa4e427cb4ec00f32cf8509840e982ee066f722e7e961a8c36c65fdd,
      0x781c1e229c31c376e33d5837ee9d7f453620fad9f6ea80a12dd0ae14eb84b6ef,
      0xf28773c2d975288bc7d1d205c3748651b075fbc6610e58cddeeddf8f19405aa8,
      0xab0902e8d880a89758212eb65cdaf473a1a06da521fa91f29b5cb52db03ed81,
      0x42de73163202eb335341d0b59e3a3ae9970b891458b62a431cdf035012974a74,
      0x2569d5dc4e7aa432fb4990ac18a64b801122c551505069dd2e7567505f99ceb6,
      0x117774a340053131a588034ba2d1c67173137794192a90c7663c24c550814586,
      0x12fa0fb2cc34f708e01d296f4fefcd7d220b0e3274cf33ee83c429c7651d3047,
      0x1aa54b79b46b53f6c0ef8af06c63d079781837b8505c60d6604480d427d2de71,
      0x79114095ba226d1ebe73182928e460044aaa34883f653f481aa7765f115464f8);
  }

  lemma LastPart7(f: nat -> Point) returns (e: nat)
    requires Starts(f)
    ensures e == 0x7fffffffffffffffffffffffffffffff5d576e7356 && f(e) == Affine(
      0x2a9e8a01fd899fa1697bf933e44f9372f7e4ab7475a65ac5f9eedffa158a2945,
      0xf9f90f4b4d45d2caeacc4d6e65c7a921376f8697db69c940ec3b7e119ee69bde)
  {
    Facts(f);
    hide *;
    e := LastPart6(f);
    var h := Eleven(f);
    e := Twice(f, P, e,
      0x1aa54b79b46b53f6c0ef8af06c63d079781837b8505c60d6604480d427d2de71,
      0x79114095ba226d1ebe73182928e460044aaa34883f653f481aa7765f115464f8,
      0xede379c8816bce900ddeab2f33b9113929dfc9242b63cba9a67dc5f5be8bad6d,
      0xd8af1f306b3ceaf0d8136ce870be99af5eaef1e4b97eea1adda4334f776de303,
      0xdd0ef99e73264909704ba39ea64aa4c8c8b23baad5c8b59e3dd561642b772034,
      -0x68ec20837795d68ee157d6c6fe6395fbde8b60bf3558758677b8d22a6072f0d,
      0x21b3dd09141d3ea81aa2d8202220fd0231b0af46f80af5055cd0241b27d6a9fb,
      0xd0796f6f48b66a800848d16b6b855f2a97c70960280de5a044cb68e8cb291ea9);
    e := Twice(f, P, e,
      0x21b3dd09141d3ea81aa2d8202220fd0231b0af46f80af5055cd0241b27d6a9fb,
      0xd0796f6f48b66a800848d16b6b855f2a97c70960280de5a044cb68e8cb291ea9,
      0x6321e085fdeb048016841b6a9ed4eabbc689e49d289e4aaab528e4ef1543312d,
      0x9425811bf97e228299a6c91e326e231787a02c925aab6301cbe8513fc8cf3a11,
      0x2663382349d9fe8f545d2e688d5368b51e9e84424ce52fc6df459459a07acbb3,
      -0x3c4b994620a373aaa341991fba7b162324e544682fa603ff092515050fc2571e,
      0xbd68db6f221b99f8092066109c1e26e7d34769d6aa94b9be6447bf444df65416,
      0x11a9e7aee55f7eec3709280d32a864f5611f9793093564881e0672ad90f7561a);
    e := Twice(f, P, e,
      0xbd68db6f221b99f8092066109c1e26e7d34769d6aa94b9be6447bf444df65416,
      0x11a9e7aee55f7eec3709280d32a864f5611f9793093564881e0672ad90f7561a,
      0xc833ebe4d2586ede78a774475bb345469af61cdb2ad84175f8f1f70280f1e0b8,
      -0x188cb589e43240de2fe86978b66858b35b162cd5ff13f1385d113176e53fb2574,
      0x9c912b1d5f33e32d7f10daa39462660ccb7ee36e32c0578078735b1992d22fe3,
      0x2858d97532b0c98f97e1eb32172c77ceafe1ce2f4ec8431184e175eabe1566dd,
      0x89d152d1febe8d0705b729d4acfcbaeff94bed26f5edf0bf194eb61497ee9d67,
      0xd100269132d99a00cae2c3c2a580c4a1743aaecb8827d7986c89d198eed9a91b);
    e := Twice(f, P, e,
      0x89d152d1febe8d0705b729d4acfcbaeff94bed26f5edf0bf194eb61497ee9d67,
      0xd100269132d99a00cae2c3c2a580c4a1743aaecb8827d7986c89d198eed9a91b,
      0xe2b3efd3f5618acbdbc5ff4114479d1282726811a27c29b78c10610bf9dbe36d,
      0x9394f07f62c2427ba9f146b0911ba113b9103d4fd930439042ef9e4babff5445,
      0xc8c231eb8056d322944636ce843508853b8dafab5874478a531f896b7f882aaf,
      0x3091b6b0a290c39b702c012a81e86ef9c3bcf8fe8927fc80ce841e88b8256f51,
      0x52f8c8bd059b6402b97f3a5db5a49e2abd9f77d6476a8ece3d01d46e7756277a,
      0xd1c1f69837f0433afc4f8bb3893107ab9263b716f2c1c2972f849371503e87ef);
    e := Twice(f, P, e,
      0x52f8c8bd059b6402b97f3a5db5a49e2abd9f77d6476a8ece3d01d46e7756277a,
      0xd1c1f69837f0433afc4f8bb3893107ab9263b716f2c1c2972f849371503e87ef,
      0x98db8dcac6f6aa230669eea791c849268a72d77f1dfb0735b2fa42951a100213,
      0xa9d127f0b6f73361a00dd87d04508f8a259490e699b00c90c400ddd9a2951052,
      0x5b4574acb3be53dafedc55d5ba3134a4eea6164236a364a2db3e2ae6ea0c106b,
      0x24b9513189345dcaab8f1d075ec8f30f8cb25f8d97b36b3bfc182501d746162a,
      0x1577d32afabba34cd0a76c3a05dcd61a3836cec650c2671d3bc19a5b67c2a6d0,
      0xe809feab1ddbb0deb9a0678ce17b9ef24a4c4885fc965636daeedf83dfcfeef9);
    e := Plus(f, P, e, h,
      0x1577d32afabba34cd0a76c3a05dcd61a3836cec650c2671d3bc19a5b67c2a6d0,
      0xe809feab1ddbb0deb9a0678ce17b9ef24a4c4885fc965636daeedf83dfcfeef9,
      0x774ae7f858a9411e5ef4246b70c65aac5649980be5c17891bbec17895da008cb,
      0xd984a032eb6b5e190243dd56d7b7b365372db1e2dff9d6a8301d74c9c953c61b,
      0x838fd7d6ad630166397e9d5ad4de72401241188cbe4589b56894a51af8ec1898,
      0x3245fb0804f567452f190a2eafef78669c3c66f73264f60ac85fe44657f5e8fa,
      0x439c87b88d43534cd25ad227cc1aacba1110aad56157f76ce418c682b1fd4c54,
      -0x4d30864ea9ec9088be8fa9d2888d8bd7a10eeebab3391211a6e33710a826a78b,
      0xabaae3174d100d86c374264261264761872505fffc55110606506b7c5cea7739,
      0x43b513628f6be648f5601cf6322b0d940a84bfb2f1f3c39c7f6aa58e40b11134);
    e := Twice(f, P, e,
      0xabaae3174d100d86c374264261264761872505fffc55110606506b7c5cea7739,
      0x43b513628f6be648f5601cf6322b0d940a84bfb2f1f3c39c7f6aa58e40b11134,
      0x362429d6a8eb7152c8a25e4a154ab24d80b0401e5fe0a20c9a901fc4628f1cc1,
      -0x13cb5b31dfb82567bbbdf68cea99908045bdfe0f0c4158e55256fec6350acd945,
      0xb7346c25a794c210f50c5631ef684a7328a832456690c3eb2659554e9b42656,
      0x1b4ad59e3583358ec85f41ed73d24fdbd3831cf0f07cf118da3b0897d208f3be,
      0x2a9e8a01fd899fa1697bf933e44f9372f7e4ab7475a65ac5f9eedffa158a2945,
      0xf9f90f4b4d45d2caeacc4d6e65c7a921376f8697db69c940ec3b7e119ee69bde);
  }

  lemma LastPart8(f: nat -> Point) returns (e: nat)
    requires Starts(f)
    ensures e == 0x1fffffffffffffffffffffffffffffffd755db9cd5e8 && f(e) == Affine(
      0x95c65a08076f8d8a4800dd9725a647fa11b5334676bee2d9f514f40212559943,
      0x51298cd0f9ebedb7936f3ca5e825fc7b6b7365e75af348a2922b55276e287630)
  {
    Facts(f);
    hide *;
    e := LastPart7(f);
    var h := Thirteen(f);
    e := Twice(f, P, e,
      0x2a9e8a01fd899fa1697bf933e44f9372f7e4ab7475a65ac5f9eedffa158a2945,
      0xf9f90f4b4d45d2caeacc4d6e65c7a921376f8697db69c940ec3b7e119ee69bde,
      0xbee4b46051392f4258415d3474b58843debdfd45909d6c62d2f5ab91b3ddc250,
      0x15f832033779d246f45338e0cad8d6b0e78a86fd880a3d220aa99d1f9613e7c1b,
      0x8e584810c3392678184c35540ee31cc69add963d9edadfe862ac44f1c12d6edc,
      -0x2a149ed7019db27dbc53fbb1b6857124045c1a51e44db6528fef487a97aa8052,
      0x630d4c9c5e5985a5cd2a7f054fbb4e2d7e3b2672c3826cff0f0fa9ff04ed1c12,
      0xbc78b4fb676219823b1a9a96c5b3f30e7255936aaccb92b8a77f397dd2817120);
    e := Twice(f, P, e,
      0x630d4c9c5e5985a5cd2a7f054fbb4e2d7e3b2672c3826cff0f0fa9ff04ed1c12,
      0xbc78b4fb676219823b1a9a96c5b3f30e7255936aaccb92b8a77f397dd2817120,
      0x735e59b632fde66e1a7c496417f191139fe4fbe0b8d468f29f64fe98253b3a95,
      0x36e581818cb714e79eeee46fce316a5c3092a3e9ab89d430027431d3fd437acc,
      0x33fde75fb30dc09d3a0b7a022e277dfc71092bf80234e3c30f5182509c6b7b93,
      0x22030628b7abe416c170be0a51f082f86688a56120381f5a804e1a37268c6151,
      0x1794a04ef02093148f5397e1e338d863543c776c90d0a2cc92c5e6cd0c6e3e98,
      0x5427913821602f78b064cd60dd9db61212f3106d47d7e24e20704a5f58608103);
    e := Twice(f, P, e,
      0x1794a04ef02093148f5397e1e338d863543c776c90d0a2cc92c5e6cd0c6e3e98,
      0x5427913821602f78b064cd60dd9db61212f3106d47d7e24e20704a5f58608103,
      0xe3d9dd2079eea5b62c942f221c8837476934cd1ba85b0ca779ec4a1767c5c472,
      0x8f4946b79ab7e0edbcb96a65039043de5741dc36822b26a864d30b12f81997d4,
      0xcacc1790384d071ac1bfcc7024fdedf0fec1318cf1e37522ff333db159f354d6,
      -0xcb8cbacca60a72a0dfc75d4d2ea225f6639123e1d8cc4612573c70a4e40021c0,
      0xfc46ed215ecbe28b40828f79db7ef998538212130ad2d1dc4251ea6bdafd0a4a,
      0x31a871b9622a477ba28c40dd76c566bba4a9e3fd27fe7f7440a852e3d599b3f9);
    e := Plus(f, P, e, h,
      0xfc46ed215ecbe28b40828f79db7ef998538212130ad2d1dc4251ea6bdafd0a4a,
      0x31a871b9622a477ba28c40dd76c566bba4a9e3fd27fe7f7440a852e3d599b3f9,
      0xf28773c2d975288bc7d1d205c3748651b075fbc6610e58cddeeddf8f19405aa8,
      0xab0902e8d880a89758212eb65cdaf473a1a06da521fa91f29b5cb52db03ed81,
      0xac61554d26ff087647c04ede6eb746778e88dca28e323f50a81a50641b4940b8,
      -0x6905a5801c6d0986f75432c2f7e30f1a0c369e69a93434c88ee038ee38a9388,
      0x7412efa16d4a93c931072118809cf891c37f86fd70530162f062f56b1806e375,
      0x9c7e6d3e98bf3e2e85f578d31229cd6d61d41ec6ca10ca205d26f6cb5673e81c,
      0x13dea541142fcb5bb5900f4bc9ef2d44c14546438631805e2267cf8d875930d3,
      0x1a6bef85f512c47681f5651d2912fac5815ce358c428fe9938be9c16bed02c6b);
    e := Twice(f, P, e,
      0x13dea541142fcb5bb5900f4bc9ef2d44c14546438631805e2267cf8d875930d3,
      0x1a6bef85f512c47681f5651d2912fac5815ce358c428fe9938be9c16bed02c6b,
      0x2e293dde18e6e71e43395520c05773ea44bad530ab495d611458e2ef46a7707b,
      0x4e6e2ec13d7395e84e553580a33994c1dde6569c9bac87898ae22c2a8a36399,
      0x852d8e0b10a8d9224e38314bb417602fc49f8974be0d94349e642b3f50f27d4,
      -0x182afe4fc452225009e4f076fa84c46babd634874fa9242f3e85873bf539244,
      0x1c3f22027346472faa1ddd7b1ad00e22a10cb302ae191c0fe7514a34660a7987,
      0x429e960a772acde7e164e0fc29e217957dd4c24443846dd0510bc8b9ded5ef95);
    e := Twice(f, P, e,
      0x1c3f22027346472faa1ddd7b1ad00e22a10cb302ae191c0fe7514a34660a7987,
      0x429e960a772acde7e164e0fc29e217957dd4c24443846dd0510bc8b9ded5ef95,
      0xb06e1d39763a83a57fb67b677d4b44e12d71299c9b00785b1112809177da5c59,
      0x5279c0c64a2cd1d83831c8a2adb62f501a4a327ec666151465c0369af634eda9,
      0x7997978c234820fbd050c7df0cdc76039ec20ecaafed76c324de373abdea8fe4,
      -0x83cc54b7e80023d56b319aaf75cce03370be156ebe985cac3711d4e69a0e6380,
      0xdb7c545312db194e8c651a291317b7c9c8ab3cc48ab0fa9ccbaf1b9826fe4907,
      0x104503edb8425128433e33ec9dc1368629e388efe06efc5dd77e7e1b49eb316b);
    e := Twice(f, P, e,
      0xdb7c545312db194e8c651a291317b7c9c8ab3cc48ab0fa9ccbaf1b9826fe4907,
      0x104503edb8425128433e33ec9dc1368629e388efe06efc5dd77e7e1b49eb316b,
      0xb4a04407ebd4b6a776a7bcf22e2391ef82fcb38caa323d9d88f6b064243137c6,
      -0x21d947186eb716e0008c1192d40abfaa3837d882553123bc71a16198829738321,
      0x7f71c4003f9e2047901b5fa8d4afb468bf61f78f2f6b60491897e97727e7779d,
      0x312f983fb19c81c65f6a8bbd3b711057f708f5d9c6a4c49ccf80512ba7831993,
      0x95c65a08076f8d8a4800dd9725a647fa11b5334676bee2d9f514f40212559943,
      0x51298cd0f9ebedb7936f3ca5e825fc7b6b7365e75af348a2922b55276e287630);
  }

  lemma LastPart9(f: nat -> Point) returns (e: nat)
    requires Starts(f)
    ensures e == 0x7fffffffffffffffffffffffffffffff5d576e7357a40 && f(e) == Affine(
      0xddc0165be983583fcd6fd425bc39ac8007d20e1b19319b8c5c4497b429462af,
      0x8ef1c0aee14cc9e820fc35c6d816928e41213e9d8f500cfb191b54400bae41dc)
  {
    Facts(f);
    hide *;
    e := LastPart8(f);
    var h := Generator(f);
    e := Plus(f, P, e, h,
      0x95c65a08076f8d8a4800dd9725a647fa11b5334676bee2d9f514f40212559943,
      0x51298cd0f9ebedb7936f3ca5e825fc7b6b7365e75af348a2922b55276e287630,
      0x79be667ef9dcbbac55a06295ce870b07029bfcdb2dce28d959f2815b16f81798,
      0x483ada7726a3c4655da4fbfc0e1108a8fd17b448a68554199c47d08ffb10d4b8,
      0x3744b45e624b5e48ff3377f3c07d5a48a62ed058e0e7960d23aeab1b85b0fbd3,
      -0x60d3b2f0f3d3bd65f73c82864cdf108fbe4bfc2998a9eb7147fbc7e077ea4d7,
      0xbee97f0df757793c61d5fbe85919d4e10a9adcc36a345c069a8ead28477863a,
      0xc6188d93362b4af42c0172dc00c388b79ff04dab1abd2a4709d508af5963e9e,
      0x5c6d3f275f8586c9f9d495a59d6519eaab7638908e6dd2e2617e9ecedab10268,
      0x662779f0687cf46f8d2d7105a90b7add59950e9f9e4fe60aae55b22f8e5d924f);
    e := Twice(f, P, e,
      0x5c6d3f275f8586c9f9d495a59d6519eaab7638908e6dd2e2617e9ecedab10268,
      0x662779f0687cf46f8d2d7105a90b7add59950e9f9e4fe60aae55b22f8e5d924f,
      0x4287ac902cd67c7e2ad5bf1085a4583c2156251d39355ae4d1eab8ae366e1da1,
      -0x2f0379cebdcf8b01862dd9ec8dad644fc82f738f0c8d1c90f65eae230c92023e,
      0x114a3ce1cb7fefdb0b9769f32fbe65b5a04a7c6b584b4c1309fba8e49241a3cd,
      0x12706ce2c44f82fdee3acd5fd558c6fa97961079b1e71d2c22caf15445069370,
      0x157992523f500d24a0981c07238b5097fdc7113ad4b7850c48e2513adce9fbce,
      0x64b9eebfd9dba130d1a89bf7350985589326813ef813b3256832a54357d1b4fb);
    e := Twice(f, P, e,
      0x157992523f500d24a0981c07238b5097fdc7113ad4b7850c48e2513adce9fbce,
      0x64b9eebfd9dba130d1a89bf7350985589326813ef813b3256832a54357d1b4fb,
      0xba3a1732d8f416c8d30c483abba55c6650234c26cc68ee2b4b5b9dbe94eac59a,
      0x8d246238f874bdae4fcf75e8763862b820f99b05eeb31f77362ee819c0829050,
      0x877876e468672ccb78fb46130e0e40f8e83707d69bd15fcb5a3096f650add552,
      -0x1dcc2339deb757967bdf9293914e502f66c276ccad7477cb147a7a4f6904e525,
      0x3e6fb8825fc86cd3ea21f178c80db94765dd94e6182b9ce70351d54613a586fa,
      0x75474f302f2e26e1040450c5c21ee4bb4cd61198ab848778e195e21ff75d3458);
    e := Twice(f, P, e,
      0x3e6fb8825fc86cd3ea21f178c80db94765dd94e6182b9ce70351d54613a586fa,
      0x75474f302f2e26e1040450c5c21ee4bb4cd61198ab848778e195e21ff75d3458,
      0x37775d936f164f8a84a47a9fb920758d15245f8c54c93178d1c4b5cafe4aa748,
      0x52317ad32f87b39379e368675be05b49f56d0d716702108fd9738f5ffdf2b2c,
      0xc0481dd7b01508a716455fa5b93260c78a9925e10833e3f5817d3d08b687a95,
      -0x1c1dc17d19ad70d69f089ec688d3a80a3aef56dcc4a5e8e0c3d9bc0495d5bba9,
      0xc0345e6a332abc4c820ac910821ba56f7b874ed568db814148e83644e55fc8f1,
      0x83cfe84d2e5cd5b3cf8f1eea5ce40a12eca67352bc7503a23795350b9320ed37);
    e := Twice(f, P, e,
      0xc0345e6a332abc4c820ac910821ba56f7b874ed568db814148e83644e55fc8f1,
      0x83cfe84d2e5cd5b3cf8f1eea5ce40a12eca67352bc7503a23795350b9320ed37,
      0xa4a58801d8546d2f02a4050f921dab5916a5a5dd44176f76551f3edbafa49fab,
      -0x1075ef14e3c08d81a28dba45c08b1e06f150a22869e2b5a407ffb539219a28c27,
      0x69e4814af7cefe961574ef2dedd08836ed7f78bbe9d0a70ae074efeb8d21f0d6,
      0x5b74d172714bd86e31661e5a019ca28bcbb48ea45952b7bd8d7b39bde96048fe,
      0x32010f12c0902955acdc75b3e601a547b3212691c645eb0f8c85a4fc94766b0d,
      0x55f1229b81ea9c07076323ec016824b167ba9ecb8c71f03103c54e041497f773);
    e := Twice(f, P, e,
      0x32010f12c0902955acdc75b3e601a547b3212691c645eb0f8c85a4fc94766b0d,
      0x55f1229b81ea9c07076323ec016824b167ba9ecb8c71f03103c54e041497f773,
      0x726ebbc6207b800e07982b373dec67d1724f51b8eb6310874f1f662941eda61e,
      0x2f87de7235f575a3c300c5ec6796cbc553533d595ee2661caf9f3de741d29d57,
      0x3326cf225cecf4f93b0fbda63494b0ef41cfb5d74c71a0c9f57b96a7d70f5f74,
      -0xbcc41a81bcb1a262874d139d2d5392d6efc87d4f056612ffe5192622b5dba24,
      0x4c65c08bb9b4502b6bb80919333c6645b270aee350a6e232e96bb49ad4155f1e,
      0x9e69dc4c340e520eb4d283dd8397c7127845ac089f1e31b4340bbe8a9f14052b);
    e := Twice(f, P, e,
      0x4c65c08bb9b4502b6bb80919333c6645b270aee350a6e232e96bb49ad4155f1e,
      0x9e69dc4c340e520eb4d283dd8397c7127845ac089f1e31b4340bbe8a9f14052b,
      0xf33d81ef501de0712b37a4836687248eb619e119d3bd6cc014740d449b0500,
      -0x4338af35e57c76d34d79b3cbf08028cee68ecd2c7b7826d93f8687f2ee134134,
      0xe71dd3738017f4c89b080b75fa61d591f1109deb238460b8d3542893f3fb,
      0x3b6bc70178e673289333dbf03c762fc2b07409b2f7dd40b93c1d640c44d057,
      0xddc0165be983583fcd6fd425bc39ac8007d20e1b19319b8c5c4497b429462af,
      0x8ef1c0aee14cc9e820fc35c6d816928e41213e9d8f500cfb191b54400bae41dc);
  }

  lemma LastPart10(f: nat -> Point) returns (e: nat)
    requires Starts(f)
    ensures e == 0x1fffffffffffffffffffffffffffffffd755db9cd5e9140 && f(e) == Affine(
      0x28d5a32e04c63c8d89b67e19f92b11fa1875c4c0ebb20c458ad3b3142b4a2bdd,
      0x27ff550a06dc3cc2b1dee4b81dfde2b8f7c27566c382148a051a0dd0d9d010c8)
  {
    Facts(f);
    hide *;
    e := LastPart9(f);
    var h := Five(f);
    e := Plus(f, P, e, h,
      0xddc0165be983583fcd6fd425bc39ac8007d20e1b19319b8c5c4497b429462af,
      0x8ef1c0aee14cc9e820fc35c6d816928e41213e9d8f500cfb191b54400bae41dc,
      0x2f8bde4d1a07209355b4a7250a5c5128e88b84bddc619ab7cba8d569b240efe4,
      0xd8ac222636e5e3d6d4dba9dda6c9c426f788271bab0d6840dca87d3aa6ac62d6,
      0x694dba8e5d7eea428c8e8ce395e43e17517e8c3e0067e528fca099f189a5f622,
      0xddb5c0cd871362b9537d688d34725ed77483098ed9bbabfa22afcdcfd457ef0,
      0x2b50daa28a49898bcaaf88864ebc1177d97be817a72198b68e8ef6fc2e4c6878,
      -0x49a502d6e061cb4fde9540bcf3cf108554c788b8dc6d6a9076cf043d8e96daed,
      0xc0e4e84498489a714c6b7bfaabdc4116de4db0f226e138551bacff0b553ebbe9,
      0x48683e0b9f0d0b9dc14231f638899be10ff716313dffd4d3871337ae0dd8a5f3);
    e := Twice(f, P, e,
      0xc0e4e84498489a714c6b7bfaabdc4116de4db0f226e138551bacff0b553ebbe9,
      0x48683e0b9f0d0b9dc14231f638899be10ff716313dffd4d3871337ae0dd8a5f3,
      0x15ed51763216385857d89c815309ebe43b35f69a834afdb5cb1b2cd34ffcf80a,
      -0x1a7a121fab6bb34b2a2c65ae5af7729b35cda7abe422b31021f6d108b61205b79,
      0x1e0cb5d52fc64a717ecb9b74bb3fa1fbceba4fe302a8a0736405fa6d5884485,
      0x101bd70b8fbb66e2614942cb176221bf9c4a05c7da5fc3c672b3d729e1072dc7,
      0x4d2b3516ba0049854e67d41695eb8ece643c93d17e0994ec139bdaeb2936827,
      0xaff453544e112f0d859b53ef74bd999079ad82b5d367e4276892c886635a4418);
    e := Twice(f, P, e,
      0x4d2b3516ba0049854e67d41695eb8ece643c93d17e0994ec139bdaeb2936827,
      0xaff453544e112f0d859b53ef74bd999079ad82b5d367e4276892c886635a4418,
      0x9f0934630df8621d6a3c6c02ff916caccb0616bde61bfadbe8e0e5aed2afa375,
      0xda585da451482e10e7434bba4a1807cac12e818048b35c768d0197dbbe710d73,
      0x62cc6f67c509e95826c3874943abe01e1b34e1a7a1515277e29d0f81dd615461,
      -0x1ca88593fb8d6b173a77aec24ac38ff2c398b4dd4bd3e44dc85017800f04c9ca,
      0x32f44a983fdfc81f9a4446b0aa6d39a2433544bc32890e8d9fac2d5a51a0695c,
      0x142054a4949028894ae64f3387f36615d713404186a4ff8e9541ce5a056e53c5);
    e := Twice(f, P, e,
      0x32f44a983fdfc81f9a4446b0aa6d39a2433544bc32890e8d9fac2d5a51a0695c,
      0x142054a4949028894ae64f3387f36615d713404186a4ff8e9541ce5a056e53c5,
      0x7e719a2b2ba07ae6d322194e523da6eea7ede79a3be1ffb3fc12bdee43de1167,
      -0xa8b52aad7a50b52dde6510647f2020f540883a1a4e85e5826b42e9b87c5f576,
      0x3e74062bf5e6746c7ad24276ca76367e9a9882be252bd2bcc28a08db37efee1c,
      -0x2a2a08fb9cb7c5aa8af2a7326dcbdcffb232be3345a530170c43b9bb492b7186,
      0x8852100b59f344a5da2462967a73a86424fde8eff20521a1cc77cf49f13dbd95,
      0xd2fc2602b0d516972659d99fbee83123088fdbc8cb6c5e400f64e1e31c72bfe6);
    e := Twice(f, P, e,
      0x8852100b59f344a5da2462967a73a86424fde8eff20521a1cc77cf49f13dbd95,
      0xd2fc2602b0d516972659d99fbee83123088fdbc8cb6c5e400f64e1e31c72bfe6,
      0x6041ba759eb9a87f0bf848fa65af818d3fcfffaa0c80943b90c7449163936b3e,
      -0x3b1c6e296e3703eda44455fc694981d80e9a4efa1ac61395aab1c79d969449ad,
      0x24315cb86e94f9571a749ef85fb69a9f046003c3c7246378941a9cac430c3547,
      0x1f7eb90f43d2e629ad0c2e815809045fcdbb5412fb43655eddc787db60c94570,
      0x348ed1709ceef43fb91b6f2100f419c3b906c5fa564f4e78a2c44a31493cbbd1,
      0xbb0c5e0d14d4a94f277185952167db14b94d9104e1949125dc8456412f369a02);
    e := Twice(f, P, e,
      0x348ed1709ceef43fb91b6f2100f419c3b906c5fa564f4e78a2c44a31493cbbd1,
      0xbb0c5e0d14d4a94f277185952167db14b94d9104e1949125dc8456412f369a02,
      0xa6a11f381b330e0eceead13193ca089f4cdce3ed7c19bb361cec09cf272e6dea,
      0xd3207eddf34eccd95264eb1ef785ba40e78761830b8b35f5a8d5e218682b644b,
      0x6c7559e50ba70f55299a56648bbd07f5cd440db3fda5992995b8580d28fba5ee,
      -0x75afc594b772008a41004134f2eeee395630593282bd2e54e90007b6fc7d8a47,
      0xe95d6e1c9fd8291dd247b53962d73f534efcbc59d8d81b8fc63a7e19d133e390,
      0x5df18b5af183919b4406866aeb31e093d70472fd950a756745e949c574840571);
    e := Twice(f, P, e,
      0xe95d6e1c9fd8291dd247b53962d73f534efcbc59d8d81b8fc63a7e19d133e390,
      0x5df18b5af183919b4406866aeb31e093d70472fd950a756745e949c574840571,
      0xf46c2f33e3c1237340aa05dacbfd10f83f8c6aef5265ffc24313453af50d9f95,
      -0x1cacdc58429b1128c6c0680bb762b3c1adaa6ef6359f5aa68ce7197283d3d4c6a,
      0xe95e67b2c6a46eaf111b32dd14b8f0443e041e70cbf2248c2463bd7f3bbec704,
      0xb7d2ca34fd0f670550ce0ad852c4d5c13407348db5c495671a7872c51296b1ea,
      0x28d5a32e04c63c8d89b67e19f92b11fa1875c4c0ebb20c458ad3b3142b4a2bdd,
      0x27ff550a06dc3cc2b1dee4b81dfde2b8f7c27566c382148a051a0dd0d9d010c8);
  }

  lemma LastPart11(f: nat -> Point) returns (e: nat)
    requires Starts(f)
    ensures e == 0x7fffffffffffffffffffffffffffffff5d576e7357a4501c && f(e) == Affine(
      0xfc6e16a09ec446a0a3dbb97c2e5253a958b416f5a142ad914b5c2841b9585eea,
      0x48f69ee27e5d650686e385d797adb24ad7ac6c19500b16e93d4f1a1fe729c601)
  {
    Facts(f);
    hide *;
    e := LastPart10(f);
    var h := Seven(f);
    e := Twice(f, P, e,
      0x28d5a32e04c63c8d89b67e19f92b11fa1875c4c0ebb20c458ad3b3142b4a2bdd,
      0x27ff550a06dc3cc2b1dee4b81dfde2b8f7c27566c382148a051a0dd0d9d010c8,
      0xddae855b43b0804eef5626ba19b0872ade9f6db236626d5f6b712d8485de4f93,
      0x31bb01c0c042acc72f4367029559d26982bd7e3603aa51474a132a14e27fc7bb,
      0xbff6c9392066b6554b3b31a19ef1d2befae9edcabe8e79202ce613f11d1bd419,
      -0x6e75bd72f2e737f867d94e1a758c4e48f6d8696ead71d6fc0f41989f232bcaa6,
      0xa865051d205a77590fcf7f8f8086a44b77b601032d8a5cbcfe8906759a502a18,
      0x22762d113664ad234f22401711c6efeb3f655d46416925761d89e44b34005ad1);
    e := Twice(f, P, e,
      0xa865051d205a77590fcf7f8f8086a44b77b601032d8a5cbcfe8906759a502a18,
      0x22762d113664ad234f22401711c6efeb3f655d46416925761d89e44b34005ad1,
      0xaa04eb321d85a9b24fb59178442a350eebd6e42eff6a4f491def6749dfde2371,
      -0x11e87f4db1103df71afe94451c1b22c76e081f2bb3be31fd62719e497d5070a22,
      0x70ea8876c0db7d91109ad91aec1caef8a95fee447c0bb72bfe6c2a3116335a4b,
      0x4df770334996f6096555d6a528f855f7dbb45582a93e75ef03b03c61ccfd7afc,
      0x32ffd9cc2c00b1bb073c1b9bcf1dd42f5a9099450c8650530be639a7e03f5bec,
      0xe36d33df66afd2b863cf1e34a69ca74d62866b6a7bf984bc37350be6ab250657);
    e := Twice(f, P, e,
      0x32ffd9cc2c00b1bb073c1b9bcf1dd42f5a9099450c8650530be639a7e03f5bec,
      0xe36d33df66afd2b863cf1e34a69ca74d62866b6a7bf984bc37350be6ab250657,
      0xf98df2d200a15ffce5b92c6dda3c9a5531dc9992a94b577751465437daae6529,
      0x19cebd24d32803b6df09544fbe55085bc15e1e45637a7d99677a2ae228359f832,
      0xf3457111e6e053f3d5b3495d7f6f7f0ebfe8a5b1e117dde5965046585b86b61f,
      0x2d0deafd8f2f098206e6099bab030d8820119f4ea0e37b02ceb97e74d01d9004,
      0x4c808ab953cd4be8804b8d390a1a2aa9507a6e84ae6101854a294ba0c53b508,
      0x8d98d67e233bd0479047c0e7d3e1c8199cab0c826ac186cd593bfe4163b4771);
    e := Twice(f, P, e,
      0x4c808ab953cd4be8804b8d390a1a2aa9507a6e84ae6101854a294ba0c53b508,
      0x8d98d67e233bd0479047c0e7d3e1c8199cab0c826ac186cd593bfe4163b4771,
      0xa8864a877322cbc1ce4542c8e7c353f53675f1c7f4e7a0bc19829f9e4ce5a468,
      0xb623cc6c9a2ff6ce82df7b91a6c4b9e6c8ec5e7634a1718348b961d667339f0,
      0x6ef08843e29cca166de6119c132588cfd8e00af16d646a2bf63223b1a0f58a2c,
      -0x3ee8dea9bc49a258c08258812523bb458a2f4f7eb0b6cd9949e54f69921deb0a,
      0x6458660aec86705e6cfc62e45a361a299a2fe7b63a6ba6c71b73e19c7c12521c,
      0x5913015d2d579f5ee71027b28cea00aca0c3913dba9479bfa6cb0d1b50a21745);
    e := Plus(f, P, e, h,
      0x6458660aec86705e6cfc62e45a361a299a2fe7b63a6ba6c71b73e19c7c12521c,
      0x5913015d2d579f5ee71027b28cea00aca0c3913dba9479bfa6cb0d1b50a21745,
      0x5cbdf0646e5db4eaa398f365f2ea7a0e3d419b7e0330e39ce92bddedcac4f9bc,
      0x6aebca40ba255960a3178d6d861a54dba813d0b813fde7b5a5082628087264da,
      0x99afce018f50a30044fed0fe4694a3ec2eb038a8567f29b0b4938ed867ed6d3,
      -0x490890544beb1dfbbf8c897c2eccfd1bd1a6b97f3eb6177caf4bbae03a405b,
      0x5c439cf92936d5bd6207cebce3622b5774323236b74fa465dbc96ef69801c6,
      -0x213a4d413f3d41ebca81c4209e6814e1235c95950997a457a408c68506bb48e,
      0x9bb191252e3c7aefc01aea891370149906915295af0da2fc1f991d21e340eab7,
      0x9a2e6a56b0be01b2bbb74f98e3cd8648f1fda226a207fc47e99c74b7870e7d0c);
    e := Twice(f, P, e,
      0x9bb191252e3c7aefc01aea891370149906915295af0da2fc1f991d21e340eab7,
      0x9a2e6a56b0be01b2bbb74f98e3cd8648f1fda226a207fc47e99c74b7870e7d0c,
      0x56f7b87bfab14a26476110ba5c5de226fba2bb55be1f980d57a59324e9450861,
      -0xb34fef8ba79f367a0d67a8c41f77d9061a4104e4c9922cfb9551f14706e3be95,
      0x1d8b5fa8d09f54588445fb89fed1b8dad0190d68746ac096e1398987c256fa77,
      -0x1fe565f4c90000a7d9f7fcac26b057139cf606fb4ca97134002b597350be377d,
      0xf9956bcaa4a8536f6d121bfdca14367c3a7f407d95b05521825d1c75fe003f7a,
      0x7626c0c1ec505ebf8c8b8308219cf1b0d8222178bdd36921aeb054dce24b8904);
    e := Twice(f, P, e,
      0xf9956bcaa4a8536f6d121bfdca14367c3a7f407d95b05521825d1c75fe003f7a,
      0x7626c0c1ec505ebf8c8b8308219cf1b0d8222178bdd36921aeb054dce24b8904,
      0xc2b84b6c7a201f0101162c4c3ee483b1fe5c431791db76941874b5ed2f7ee473,
      -0x2263f2f3abb760fa63c20bf14dc0d3ac6c7fc5978c40447fed7449c30262fdb6c,
      0x941bd6fceb40fab02e9e8c13dea1734e2b4468477dfb45301f780b7535ed3525,
      -0x22a3e07a02551c55e6a6f5dfa938b332b3d9e7dc2e2d14f7c7dbafbd3db88bb,
      0xfc6e16a09ec446a0a3dbb97c2e5253a958b416f5a142ad914b5c2841b9585eea,
      0x48f69ee27e5d650686e385d797adb24ad7ac6c19500b16e93d4f1a1fe729c601);
  }

  lemma LastPart12(f: nat -> Point) returns (e: nat)
    requires Starts(f)
    ensures e == 0x1fffffffffffffffffffffffffffffffd755db9cd5e9140770 && f(e) == Affine(
      0xe27f6958f6b391595398bc96182a594a46d2867fd2996fccd792fd72cf2ad0a7,
      0xdb28a3941ee3174161109ad86d507e3cd35c6f325875ac3489906a3ce7d9c69e)
  {
    Facts(f);
    hide *;
    e := LastPart11(f);
    var h := Seven(f);
    e := Twice(f, P, e,
      0xfc6e16a09ec446a0a3dbb97c2e5253a958b416f5a142ad914b5c2841b9585eea,
      0x48f69ee27e5d650686e385d797adb24ad7ac6c19500b16e93d4f1a1fe729c601,
      0x6799f737c5eb2ccde74470ffc2bfa5cd8d439dbdb344313e786185ac440a70b2,
      -0x2afac8c1b28036c69a2a001d3bb207f6854c324ffdf0d5424dfa35b27379c3a38,
      0x29ed418850aa7d3bb2bde27c81b072dfea57247eb662ba3715ba422aafc8b7d3,
      0xece6eed03beb7906adca20c9cf7d69d09e9abcfa6d3deab9aa44b79f96fefea,
      0xd7d7e556de00fc87a73a54e387c7ee4b7a0c91cfb2e219a8a500dbb3f9d90a33,
      0xb1d0dd6390bd0777e4a0f05ff2765461980b52469913fecdc6c6c0fd3c7cd47);
    e := Twice(f, P, e,
      0xd7d7e556de00fc87a73a54e387c7ee4b7a0c91cfb2e219a8a500dbb3f9d90a33,
      0xb1d0dd6390bd0777e4a0f05ff2765461980b52469913fecdc6c6c0fd3c7cd47,
      0xf406aa5bd4ce4d8677d08cb85da51d2a79edd0f835bfa2f0db870cb77cf5ee51,
      -0x20cc51559387da909132af8ab3caa781628c954150f30c18dcc956d13ac133d03,
      0xe89cb4eb7b555506f13b3567c6a47231236827ba816a16b7d7746eaa9a948ec5,
      0x6acf20f168778b8c95d422530c6937cbf60ce197e6a2689a19ecb9bba493a75e,
      0x67cb15853431b7399a516afc04be85b17aa6a3a967209331764cab637a277f10,
      0x4306b256fa51df8fa254d0ef4c0bcc22cb2ed3407b781fe52a4f7ef0d6c0808a);
    e := Plus(f, P, e, h,
      0x67cb15853431b7399a516afc04be85b17aa6a3a967209331764cab637a277f10,
      0x4306b256fa51df8fa254d0ef4c0bcc22cb2ed3407b781fe52a4f7ef0d6c0808a,
      0x5cbdf0646e5db4eaa398f365f2ea7a0e3d419b7e0330e39ce92bddedcac4f9bc,
      0x6aebca40ba255960a3178d6d861a54dba813d0b813fde7b5a5082628087264da,
      0x91885b1eb48126213892f2444cadbe87995182d9b17be1be0745eb296c9699b3,
      -0x64854f248fdff79a29e84cf63c06d440da739e877cd49be4ede0463737bcfb4,
      0x52bbbfd9b988ee6cc408ff5aacd32ad900e7415caed389e879be20ad6ac778f6,
      -0x9a27381ebf70b93d02450b1ecf6dc44402143e5b93e6c267b331e7185ef6cb4,
      0x78bdb5713a1af9bab2918547d7295252a37f7c8246c29f72c2e2ed16c0639d33,
      0x4aa387075981262f7815edf745310d4e6cc8603aac5c5b6c22ef573b8bf3a709);
    e := Twice(f, P, e,
      0x78bdb5713a1af9bab2918547d7295252a37f7c8246c29f72c2e2ed16c0639d33,
      0x4aa387075981262f7815edf745310d4e6cc8603aac5c5b6c22ef573b8bf3a709,
      0x146934b96538b882e2bac33d25141c7cb701e0a3380e3607d45278ae43bcfadd,
      -0x9ef04e123c895203f387923c85f389e20586eb2810e3af23e22f502aaae37edf,
      0x1a09b7942c1bcbe4dc0d325cc598cfdceb0d0e2ba2e8932e5407aaefb45ecd1,
      0x5602885f6a3ddb315cf5c6b5d872f53279e75cd03049c6b7a648123fdaa5f31,
      0x35518b8b14db9f85ef2119d3382e952fb197ddde9a6405cc7028f3ad8d81f204,
      0xccd8592986054e1324d25465d8c4b5b2de82202bec2335cdcca9bd4adcc2508b);
    e := Twice(f, P, e,
      0x35518b8b14db9f85ef2119d3382e952fb197ddde9a6405cc7028f3ad8d81f204,
      0xccd8592986054e1324d25465d8c4b5b2de82202bec2335cdcca9bd4adcc2508b,
      0x2b7438e79a4f5a2430c8c84dd1f2fa7082d83b781514c1720c9f00cbed3b852f,
      0x243a13d27aea33eeb856da774235fdb0bfa40f8ce04de8334df8d6f201e06446,
      0x7603fe16c60a53c68d7bcf3d9ce90f423374799907f3da5e4519faf68801798,
      -0x16912926d89984b420e514e11c8b4d1a07bc4061aede6df45e6d845039a9f244,
      0xba4476dd3bee70dd3975db4565d2652178009a57cdde3cecd44f17a464ca05b1,
      0xfd75d93e2a101a79dda7e6d101d4b0367a628541713381be8c3a901867549c2e);
    e := Twice(f, P, e,
      0xba4476dd3bee70dd3975db4565d2652178009a57cdde3cecd44f17a464ca05b1,
      0xfd75d93e2a101a79dda7e6d101d4b0367a628541713381be8c3a901867549c2e,
      0x8c88065b9ceee7d69f8a298a755860cb652c81714eddc02467c1a8b04b82089a,
      -0x80506db0c8a6b225dbe437bbd823f7904557d54f15481e239a7f0903404c7d25,
      0x4d250f3af524778d37738bccf1176d1551faa9edd412dd28b8abeeb91ec1562c,
      -0xea7d956f763b1ac149f2aedb2f55bcc0d13e651faf6a09b334dc27ae93fc2a,
      0xbbefa036940058f8a3140abff0bd4175740ddfea1a074217b6dc9e388ef7cf2e,
      0x1f54791d0fb6e8f8705822661f676eaee7b60c7aa565ee33259346a19794ea56);
    e := Twice(f, P, e,
      0xbbefa036940058f8a3140abff0bd4175740ddfea1a074217b6dc9e388ef7cf2e,
      0x1f54791d0fb6e8f8705822661f676eaee7b60c7aa565ee33259346a19794ea56,
      0x9696906bc8be4b1fbde11d61ae6368f6f4378ec8f4208167b73ef48564220cae,
      -0x1790c04cf6cb6197436e50a48f2012fdd5af3cd2a813f96414fdb8615374aa95c,
      0x5894c9cbdf07ae40bcb6b73813ea8499b2d3925c84f7a75ac280f796f41bd78f,
      -0x16aeeddb1d74401acd45e5171b9684e374c23ad63ef5dd5f0896d84d87bbcf6e,
      0xe27f6958f6b391595398bc96182a594a46d2867fd2996fccd792fd72cf2ad0a7,
      0xdb28a3941ee3174161109ad86d507e3cd35c6f325875ac3489906a3ce7d9c69e);
  }

  lemma LastPart13(f: nat -> Point) returns (e: nat)
    requires Starts(f)
    ensures e == 0x3fffffffffffffffffffffffffffffffaeabb739abd2280eeff && f(e) == Affine(
      0xf91a342f3e683bac39d6ba71606f586545e1e0c3360f89660a118c9f5bf94e3,
      0x3ddb80e975be421d1e224fb8b2af83189f9cf1d3fd2168708c44198435a2d906)
  {
    Facts(f);
    hide *;
    e := LastPart12(f);
    var h := Fifteen(f);
    e := Twice(f, P, e,
      0xe27f6958f6b391595398bc96182a594a46d2867fd2996fccd792fd72cf2ad0a7,
      0xdb28a3941ee3174161109ad86d507e3cd35c6f325875ac3489906a3ce7d9c69e,
      0x5f7558af1781dbd59f2b7dea230d5ea5f1ee763d021daaa623776f744e84ce4d,
      -0x1b5be8bdb2105deee68d7f66082e32afa0d7702bc954cfa4a4c414dc0c52a73e9,
      0x23984d9c2236b5c5ea3bc8120eba7fb86da084ccdbac82b65efc6c4fd5c5c481,
      0x39758b041e05e537660ea6c64befe552222bd123065c621343618d51ed350a8f,
      0x4867678fc9266bc68a0f119d2147173acfb054dbdaf39761ece614ae8b15522c,
      0xa4a77b26e7dcaa41fcf7278d96127609437454355ad5d833ddf43428d73d8a20);
    e := Plus(f, P, e, h,
      0x4867678fc9266bc68a0f119d2147173acfb054dbdaf39761ece614ae8b15522c,
      0xa4a77b26e7dcaa41fcf7278d96127609437454355ad5d833ddf43428d73d8a20,
      0xd7924d4f7d43ea965a465ae3095ff41131e5946f3c85f79e44adbcf8e27e080e,
      0x581e2872a86c72a683842ec228cc6defea40af2bd896d3a5c504dc9ff6a26b58,
      0x94a35fa1100faff77934c70dee089a09afd5c886599b17d5cd048d7069c1ec2d,
      0x53202a9e1b68d1c7460550e54ff42703c818225e0cba2b1529d1859bb7c9be1e,
      0x564d4ed5256586b112a0578e3e30db417b8d1a69862eadb2678dbeccd7f8d7ba,
      -0x68e4786740482617bc673524ec3dc3e94ea676bb59dcac1d23af3a61f71f5b4e,
      0xfd0f7f968e5941d82225833b2b09f2f759dce1f348e316b7a14b11d9aed8f289,
      0x9310014764b2da94e7a92a0e77c21d7d40a3f9457ccbbd713d7bc6295dc114d9);
    e := Twice(f, P, e,
      0xfd0f7f968e5941d82225833b2b09f2f759dce1f348e316b7a14b11d9aed8f289,
      0x9310014764b2da94e7a92a0e77c21d7d40a3f9457ccbbd713d7bc6295dc114d9,
      0x3e8fd2be29758dc10914ca0465b146ec7611762585f8ae1be6a962946c693815,
      -0x2a695eabe99c124611f8e441b47293ac8a746ba65c89a75b4c26a68040292b5f7,
      0xf49fae13a03cb444bd431e61e4fbb0b39a93cbdc135494cf679f78a78feca9a,
      0x2ee032900b519fb7dafaa4bb057ad4af8ab7a35903ffa8de4ae74e40f4081722,
      0x3d3f4046963c51c45dc311b7a736a119330ca3ad22e91601bc1e3d372c348261,
      0xf77bc21a6c2d757ee69775b746aa4b043627b806e80eeed168ac10a7858d2731);
    e := Twice(f, P, e,
      0x3d3f4046963c51c45dc311b7a736a119330ca3ad22e91601bc1e3d372c348261,
      0xf77bc21a6c2d757ee69775b746aa4b043627b806e80eeed168ac10a7858d2731,
      0x304336997691f0963719cbdfb99b1818b7a57978fa3dbeb62db8009c34887cde,
      0x315ac05b6c08e9aad3dbbb7d440611afbec396913df0bfe85de29a099c1cf997,
      0x919461f2c6fe4a0c62653be429d96915a41237c403f034618e701f036f02a05,
      0xab05b289d0b301d7051a28bd2c30430f989e88e3df157ef88305d9cc0764f61,
      0x48cbe6bfe412a1d4f389d58f4cfba9778a7a2b733cb47836491ff676aef28d7,
      0x4a0e7ea39267441e9debdeafdaa99aa06956b715745d24445f0110dac8ca47ac);
    e := Twice(f, P, e,
      0x48cbe6bfe412a1d4f389d58f4cfba9778a7a2b733cb47836491ff676aef28d7,
      0x4a0e7ea39267441e9debdeafdaa99aa06956b715745d24445f0110dac8ca47ac,
      0xe595ab32f17649eb70cd11fa412339c4365e1943ed704c39f51238dbc3051b9f,
      0x84966c8049c31175b7ee544e45dfa01b74ec8f6a9e2fb9639f6356c0e507471b,
      0xcde51bc9dfc7cca88095876030be68e3c86681db044b80a40751bb96aa2cd289,
      -0xb50f9a0c342e9463913a0abd1442fae6a0787f9facab897dc87c434c02cbcfbc,
      0xce716ddad9ca925e4572bd977e8925d4d8e51cb0247de8ed83b557f1f06217ec,
      0xaed2af3c5c052af2e4f3ade30d2c6f3f900a57346beb00cef63769e3df5f36cd);
    e := Twice(f, P, e,
      0xce716ddad9ca925e4572bd977e8925d4d8e51cb0247de8ed83b557f1f06217ec,
      0xaed2af3c5c052af2e4f3ade30d2c6f3f900a57346beb00cef63769e3df5f36cd,
      0x452e30b4add9c0dbe4af3e340b20745f002b6e3149583122fe9143f8039efc57,
      -0x194f39477d7d40f068754a5a82c2acdcf64c3b74e1019e1d3ddc5c39d171fefc6,
      0x12b1ee96efea1cee70e6595f6f9f9ad292329576e71a33fa28c0b43c0b3e0165,
      0x2dc6fa9070f20fd8c1604d5522cb87ff43429e2694d70198801c12b56497304a,
      0x250bb7d6bddf15ce8e13745ccfaeee5455a08078ff98ee3545fcb9de84fe882e,
      0x2493c43a3b9589e0cd281d988d5ebe9a4a7177b6c69d453bdeca6f2c7738f52f);
    e := Plus(f, P, e, h,
      0x250bb7d6bddf15ce8e13745ccfaeee5455a08078ff98ee3545fcb9de84fe882e,
      0x2493c43a3b9589e0cd281d988d5ebe9a4a7177b6c69d453bdeca6f2c7738f52f,
      0xd7924d4f7d43ea965a465ae3095ff41131e5946f3c85f79e44adbcf8e27e080e,
      0x581e2872a86c72a683842ec228cc6defea40af2bd896d3a5c504dc9ff6a26b58,
      0xfcb374053b312bae3c7f11c0f4276f9498963063715be6f7b15b3dacd011a4c2,
      0xb039a026017805b66f167aae1d8f661a20d18993f277bdae0936255d2dfa7f19,
      0xf971ca35c06e528209f413dc499a5b5c94447f9eef64a23354fc2ff68595fe2b,
      0x15333a599fd389c752869aba1b129c79f747d9e5d291ff3a5b9f53bf41b0b02f,
      0xf91a342f3e683bac39d6ba71606f586545e1e0c3360f89660a118c9f5bf94e3,
      0x3ddb80e975be421d1e224fb8b2af83189f9cf1d3fd2168708c44198435a2d906);
  }

  lemma LastPart14(f: nat -> Point) returns (e: nat)
    requires Starts(f)
    ensures e == 0xfffffffffffffffffffffffffffffffebaaedce6af48a03bbfd2 && f(e) == Affine(
      0xf7931b71bd6a67e7fb47973633283eb6e0cc448efdcbaca935894ff325da38be,
      0xe80340c413fe97d7e7576ca033e14f0a4e87411e9b4578a6a447c3f2a558aba9)
  {
    Facts(f);
    hide *;
    e := LastPart13(f);
    var h := Nine(f);
    e := Twice(f, P, e,
      0xf91a342f3e683bac39d6ba71606f586545e1e0c3360f89660a118c9f5bf94e3,
      0x3ddb80e975be421d1e224fb8b2af83189f9cf1d3fd2168708c44198435a2d906,
      0x8474e018b6ac5b589f4749e1b38d6adc60a22c9eddd99afdd8e8d6044a4d4e98,
      0x3d2bac35106420d10d12d2fd78b403bcbbc6b84d8e18ac32e18b2419c4cafecb,
      0x4488bc7556f28c768f179a133684e7a8061dbfd58b882f3703a6c410bb45e11f,
      -0x3e1fbb7b3c12011ec4d130ac8214faa77bff432818c5376ca83ee8b0ccfee619,
      0x87a2ee0242ccc236378a6e820f80aed4ce33b04584c18953845750ee09c1f7c9,
      0x336ced8552f14e0bbfeab7840cbbda7d1b899ba71325e5c485921d399ad63501);
    e := Twice(f, P, e,
      0x87a2ee0242ccc236378a6e820f80aed4ce33b04584c18953845750ee09c1f7c9,
      0x336ced8552f14e0bbfeab7840cbbda7d1b899ba71325e5c485921d399ad63501,
      0x8df6afc453659936eaa14ccfa4cbd75a49199a5a40838876176e6da39d169bc2,
      -0x9e8ea28e492775d07582af3deb4b499d488977db982c7167864906cbab322041,
      0x4eb9ab5489dc329daa37572805c72f904035fa8bf44b8d9f99e4b55a46b3330d,
      -0x246094036ac134e9c414653ad4d4cad513b44ff7c8aaa805732a2bc175a16f33,
      0xc93c1b00bdeb3e4962dca57a3dfce74d11824db2f164a366f266f8cfd67e640f,
      0xd790eaedc41b3cfeb890bc2a078df7f8d531aafcdec7141c503aa103ffb3fa50);
    e := Twice(f, P, e,
      0xc93c1b00bdeb3e4962dca57a3dfce74d11824db2f164a366f266f8cfd67e640f,
      0xd790eaedc41b3cfeb890bc2a078df7f8d531aafcdec7141c503aa103ffb3fa50,
      0x80d11e1bd05700c9bd31584555af73860560be97b647c617d0e5123a12e97f99,
      -0x1019d394955740541f60c4b52ab135adb02264c99f64cc6322f0c03b2844e796d,
      0x40d1c8edfd4bb6b306af34964c8da0ab25f729caddeb0b5d1884a485f2d6ff0b,
      0x5639054ee17eb073afd0635337ce369264750b1ee1808dc1d7f37c5100258e00,
      0x1de201ce78d2a98e1450f60631dc038d6fb336e909e2d26cf11ff0de21a1ba4e,
      0x4f2744668a94c88e9df386d84fc20a5b6e8dcb0a1c23e26239d52ecc32602709);
    e := Twice(f, P, e,
      0x1de201ce78d2a98e1450f60631dc038d6fb336e909e2d26cf11ff0de21a1ba4e,
      0x4f2744668a94c88e9df386d84fc20a5b6e8dcb0a1c23e26239d52ecc32602709,
      0x14c383d515c20e20b17d95c51f39772470f432fcd0d27ae3a7314c27e3086629,
      0x260163846da9e6e1175fa56fce36e1dc58d20cdc49db388472c81e67ced084a,
      0x1af21eb65e93d7872c46631a0e4b8a3e5727247e4c8a53819be10765a4d10cb,
      -0x4438ea9baeee68d1aecf52c615196030b40762bfe9211eb68c6a26861350b60,
      0x5274067da1363b030214d2b9e5e1c13f3b540e434d60caf142ab60ae9e2e54b0,
      0xcbf8a4655748edb23556d4fc01ad33eea4072506e6c14b585a0acd3d2117a9e5);
    e := Twice(f, P, e,
      0x5274067da1363b030214d2b9e5e1c13f3b540e434d60caf142ab60ae9e2e54b0,
      0xcbf8a4655748edb23556d4fc01ad33eea4072506e6c14b585a0acd3d2117a9e5,
      0xef1f72375108566bd54417ac2aa2fc5117940ac5acd7c26bd1b5e372c03b07a4,
      0x12d60c4f38a05ed93bb9686a79113e5efdeb832aa8c524d6f030930fbb2ee9c18,
      0xdf5bbb2025a881819e863ded3c85347e26a66bbd002c39c15e09841205cca5b3,
      0x2eaecf61d99a3f31b6f63ffb25718832e6287ca5a337f6e5fd1bbf7fd1eb8011,
      0x2079bbc087b043f7e9ff96b144b21a1fb3569d3e92ae368a6d272c406b7a17d3,
      0x1f67af9a5aa64976259821a96b9cd8cfcdac1d188f7efeb6bd0123932bc1f90);
    e := Plus(f, P, e, h,
      0x2079bbc087b043f7e9ff96b144b21a1fb3569d3e92ae368a6d272c406b7a17d3,
      0x1f67af9a5aa64976259821a96b9cd8cfcdac1d188f7efeb6bd0123932bc1f90,
      0xacd484e2f0c7f65309ad178a9f559abde09796974c57e714c35f110dfc27ccbe,
      0xcc338921b0a7d9fd64380971763b61e9add888a4375f8e0f05cc262ac64f9c37,
      0x7b62fdd4dc9f1f1a6f86fb481c506c07695a639d697aebddfa4e583fa72141dc,
      0x43a5e48ef49572697d66d8ced6714e98913c261d1d3dc6c0978f17186158d843,
      0x3b784631dea83ec7e090bd6648f5a0154cbd539965f4d4304ceaa774b6bf064c,
      -0x62dbfe5d20d0cd52728792a4cfb66b04c03848b9d3e1b7ca6c041fe03aa1d646,
      0xed9634a7e20eedf6befdce7ff76d2fe378c8876d9cea93a37093eff21b0e988b,
      0x95ab171125c2f49cbef93dd1c70b5b9f49c59519e3ecfbc2415bb714d19bc92a);
    e := Twice(f, P, e,
      0xed9634a7e20eedf6befdce7ff76d2fe378c8876d9cea93a37093eff21b0e988b,
      0x95ab171125c2f49cbef93dd1c70b5b9f49c59519e3ecfbc2415bb714d19bc92a,
      0x9b5ce7f66fb114a71e108c251df1485ab6f06b1e5babf4062feaeef8390f74b,
      -0x28a23c3dfa4321156b8a4c3cca96fd51f62de69e93046ca39ff758ceb6a4a8661,
      0x5e49a29bf68f6115a2d9f96fce7c7c9da5548e6b38c3b667f5d15d3443c9eb,
      -0x60fbfabf9fcb35895fe2182f70e5786d1ad2513b16d8cd7380ca355ba12e7c,
      0xf7931b71bd6a67e7fb47973633283eb6e0cc448efdcbaca935894ff325da38be,
      0xe80340c413fe97d7e7576ca033e14f0a4e87411e9b4578a6a447c3f2a558aba9);
  }

  lemma LastPart15(f: nat -> Point) returns (e: nat)
    requires Starts(f)
    ensures e == 0x3fffffffffffffffffffffffffffffffaeabb739abd2280eeff496 && f(e) == Affine(
      0xf0b3eb104d8398925ea1e23bb396297c3be5ecc762e66aba4e1526383f323ca3,
      0xebfd6fbc4158015a43c836fbcbd8cf0edbe24ffd6f8c96ad1e957c224d08309b)
  {
    Facts(f);
    hide *;
    e := LastPart14(f);
    var h := Eleven(f);
    e := Twice(f, P, e,
      0xf7931b71bd6a67e7fb47973633283eb6e0cc448efdcbaca935894ff325da38be,
      0xe80340c413fe97d7e7576ca033e14f0a4e87411e9b4578a6a447c3f2a558aba9,
      0x39823a814982236ee6a11487982e893d758c2a2220c8b90ddb245fcf7db25e13,
      -0x2660a1a491f529c433129affb2181ac322c7436b27fe21596db4e180f4df9a3ea,
      0xceb404d0b69728d81a7675fe8310666722b9e3c623d2d97e4a63530c9584218,
      0x234841de307bb6e49d718b2a92c00cce5973cede4d56201c8c13cc25bd161030,
      0x5a840398a1e667ce83a5b4dc189e4e8aa986a00739950f11d9ec8a41a11dc185,
      0xb555d8106f30325012d4ac66954c2c56b2bbe2a24e4a4409fc7b2286c440e2c2);
    e := Twice(f, P, e,
      0x5a840398a1e667ce83a5b4dc189e4e8aa986a00739950f11d9ec8a41a11dc185,
      0xb555d8106f30325012d4ac66954c2c56b2bbe2a24e4a4409fc7b2286c440e2c2,
      0x3724c9e4be4072950bfe2e6f6cc5d9a65ba15ecd671edff008bb8977b40d58e3,
      -0x11e442d065be4f289bcd35347a5fa7c30dbc31e1997fbf8e29fbb375cd874ff1,
      0xbe0d409b14e3280e93078122d5dabed17553947e29da247c5f54bfc4a0d2e9f,
      -0x37798ae2b2d4c69c0344cf82d70fc9598f25f9f2b623defffcca2f58086e127,
      0x6a9c9affe752e09b0fffd6d69f00e9319a5a8be1216cdd204b2b76adb7fe430e,
      0x76f51b82933451a432e792a1d7d1b68c83d45826099ecbef8a9eb9835b6ee2ec);
    e := Twice(f, P, e,
      0x6a9c9affe752e09b0fffd6d69f00e9319a5a8be1216cdd204b2b76adb7fe430e,
      0x76f51b82933451a432e792a1d7d1b68c83d45826099ecbef8a9eb9835b6ee2ec,
      0x398b1b5bfe7b50030639703078fcfc54291dabcea5517f232822540b7f35dfda,
      -0x4fb7c2a25bf915d88a14afde9212b95bbcfe9445c683a4cf9cb5d5fd60944664,
      0xcef3dc5b025cc472792c9f7f147e0d1e910f3f3efe0a38a5fc08c4d2d2c6f53,
      0x10a797c290c5c3668033821ba94c79e8f6d5e26d91811369ad22b019434164d3,
      0x2084a930c50702d62c1c40c951a078cc845725778466a3032353c0adb699db4b,
      0x953c260e0c9cfa8cc52773270f1210ebab1f87ecc1f4be9d3f3343952f651f65);
    e := Twice(f, P, e,
      0x2084a930c50702d62c1c40c951a078cc845725778466a3032353c0adb699db4b,
      0x953c260e0c9cfa8cc52773270f1210ebab1f87ecc1f4be9d3f3343952f651f65,
      0x3ed27c066296820a800a9c62314cd6f668142c5dfbc97e48247e4bb351a8ebfd,
      0x3cda3c95a1ae8ee9fb8edd889fb2538235197aa1184e2a124e66f3752ff626f9,
      0xf6aa122ce50d595023f0dbd195d65303f087827f958c9585300cd4718325df8,
      -0xa2db35d5460c1b147bf26086885c37a0a664f2fab652b0c10a26da254c01bf3,
      0x49fedef2d6cc2a478de1623633e9ef6eb5d9d3a7d8862fc15332df8a9a9f60eb,
      0x52bc414c365c36159f4305153e3be85d15986fe2b13137da5774408ca3514718);
    e := Twice(f, P, e,
      0x49fedef2d6cc2a478de1623633e9ef6eb5d9d3a7d8862fc15332df8a9a9f60eb,
      0x52bc414c365c36159f4305153e3be85d15986fe2b13137da5774408ca3514718,
      0x4440d5487afe1aa3470266e7cba9ea7ef17f27ef6bdf050b2781fa6355159477,
      -0x140c2003be9cdb404a2846adfdd28d1af3fc4c4ced57928ccb85d68412c37115,
      0x123281b9d7462e6451b6a57d07247a3d1f4e0065210b125db5d5e28935eeb3e6,
      -0x405f61123db72d3bfcf2f608ae963a7fca7ddfcabbdfed38729b3bc0062170d,
      0x5915fbff8a9a568e072f99c4ddc2180fbcdaed0bf9f27e9877ad18ea565d9e41,
      0x9bcab53f2a467781dab0fdaeaeb96756fed0a27d2b6f60b251086ea40f628551);
    e := Plus(f, P, e, h,
      0x5915fbff8a9a568e072f99c4ddc2180fbcdaed0bf9f27e9877ad18ea565d9e41,
      0x9bcab53f2a467781dab0fdaeaeb96756fed0a27d2b6f60b251086ea40f628551,
      0x774ae7f858a9411e5ef4246b70c65aac5649980be5c17891bbec17895da008cb,
      0xd984a032eb6b5e190243dd56d7b7b365372db1e2dff9d6a8301d74c9c953c61b,
      0x419471953edf27bced90fc60d33ac59b97d184c1c2142823187fd851e80a73ba,
      0x7bcf3e9908a3ae2f06f497fc3ad47dd613a9e420d46e267d2e85a80e30491a6,
      0x10ccb7c150e31cb723603539492e9023d12bbee78ba913291d380ec45d1a63fa,
      0x4301baaaffd39c91960dec0b52c7ecb2582f4626a168add34294ad3dc311077,
      0x48bcdcec6db543bd7c9f656e069e38c762a97e89a56c7e36ab379ccffc928932,
      0xbc89bb8f112699cf6ac80307e68ecc935578d9590a00da2b48ba149d2a765abc);
    e := Twice(f, P, e,
      0x48bcdcec6db543bd7c9f656e069e38c762a97e89a56c7e36ab379ccffc928932,
      0xbc89bb8f112699cf6ac80307e68ecc935578d9590a00da2b48ba149d2a765abc,
      0x98455235999e1e64ebb7e53853d08ecc54f26431c221315dc79c2200f1b28e62,
      0xa2495341881700e840d1579b555d27a1c266b964903c253d8a2287fd21b7ee9c,
      0x5a92646511b6f4f67d71101e06d26d084f01d36159b804ad25862bf93a02d913,
      -0x63e82bec6a05a5f8062ec381886820ecd2e6d326afb71d95a662e43347596bb7,
      0xf0b3eb104d8398925ea1e23bb396297c3be5ecc762e66aba4e1526383f323ca3,
      0xebfd6fbc4158015a43c836fbcbd8cf0edbe24ffd6f8c96ad1e957c224d08309b);
  }

  lemma LastPart16(f: nat -> Point) returns (e: nat)
    requires Starts(f)
    ensures e == 0xfffffffffffffffffffffffffffffffebaaedce6af48a03bbfd25e8 && f(e) == Affine(
      0xb7da96bf13c179bc9a9c90bdb7b6c1ef9d555e6799bf4f76750b6567c651b465,
      0x28ac804031a2b0068154809ef06a8f48f6ed63f5af4c9cd018b66e25f5de12d1)
  {
    Facts(f);
    hide *;
    e := LastPart15(f);
    var h := Thirteen(f);
    e := Twice(f, P, e,
      0xf0b3eb104d8398925ea1e23bb396297c3be5ecc762e66aba4e1526383f323ca3,
      0xebfd6fbc4158015a43c836fbcbd8cf0edbe24ffd6f8c96ad1e957c224d08309b,
      0x384fda91cde28e9936c3d89a8ca8fec3f90c938d4e4e31d018c0cbd047b17024,
      -0x23f236b4da02c9b90ea34df23e58b6eee90610328a8b392f675ce3e16eca3c8ad,
      0xc6308886aacd5e7c59c975a5b58058bdf8228dea096e625a6744d55e931c2c3,
      0x1b190737c22fabe927caff21d32df53ba666c63d2167da9fac0184147dd255c5,
      0x758373d2767db83cbb267dcb1e60c66c9c795ba7dbe09a688125d4e1b36b55fd,
      0x1f7092f12014cc4b6fe27de0d92fe1177dfabbb2de72cdcb6adf108712583392);
    e := Twice(f, P, e,
      0x758373d2767db83cbb267dcb1e60c66c9c795ba7dbe09a688125d4e1b36b55fd,
      0x1f7092f12014cc4b6fe27de0d92fe1177dfabbb2de72cdcb6adf108712583392,
      0xbacb98db9ac5e33c19ca741d55ab90465ca74f06aceb7cb17531bc0540887e13,
      -0x73f2aa7f4e2bf34d07bec4924a44088aedb748d021b6d0d82269989f36399bc1,
      0x884c7c0ae4748836e0c7ed9f248394cc80ba58ae87b32d3a590745496f136ce8,
      0x4593b1d07af280a7648e5720bb9eb0a1f8782817e109f52f7206f3073182b60e,
      0x1628cea9513e65235f89204267a0bbf7b1da04314aef98cde1928cf33492aad7,
      0xe001f1c86510733ef863992e2fa25d2477a5c894a3354852d719aabf5c01ffae);
    e := Twice(f, P, e,
      0x1628cea9513e65235f89204267a0bbf7b1da04314aef98cde1928cf33492aad7,
      0xe001f1c86510733ef863992e2fa25d2477a5c894a3354852d719aabf5c01ffae,
      0x822b20e58bf96168cf506970c7b0e12b31024ab5ef5d55bdc55ae283e2cb6888,
      0xde0c55b5f3baba5109a3e0e96a47226c970c33635373cecfaf587dbea97f0f63,
      0x422fd4ad33807d873cce8c276b00c4be9c653f83cd726bc6967045db6613fa9e,
      -0x8bd30927b185c1508f31bc6f4172e0de89d7e9c2178ef647f9a71195142215f,
      0x2758a5f401621adf2972ab877799703b7663dae9f106b43b9eb25c673b78e790,
      0x3e267b09e7ecd4c4f7f54c66b45a438b4a6a7809796201d2077e1af8daee3a7b);
    e := Plus(f, P, e, h,
      0x2758a5f401621adf2972ab877799703b7663dae9f106b43b9eb25c673b78e790,
      0x3e267b09e7ecd4c4f7f54c66b45a438b4a6a7809796201d2077e1af8daee3a7b,
      0xf28773c2d975288bc7d1d205c3748651b075fbc6610e58cddeeddf8f19405aa8,
      0xab0902e8d880a89758212eb65cdaf473a1a06da521fa91f29b5cb52db03ed81,
      0xe4344ead045f3356265b4a30312e07be0550b085325b1cb9ca2f882b73a7616f,
      0xb51f333f9b4340fea574fa671cccc613e33504beb492d80b8d26a06e4c9e173e,
      0xcb6d36d43e413db73b59300d49345df0df8a5c3a8600669c1719e19835b089ce,
      -0x65fc1beffe28f27230f20a437e870a484fd29ace4ba356627f7582f3c6062e8,
      0x2e7f27e454d8593c574e5cb89b99255a11b15f7b6d98582bba98be008febf717,
      0xef2180a04227160a5e81dc2fa77a744368864e39f866f8c295f870a8bc616b94);
    e := Twice(f, P, e,
      0x2e7f27e454d8593c574e5cb89b99255a11b15f7b6d98582bba98be008febf717,
      0xef2180a04227160a5e81dc2fa77a744368864e39f866f8c295f870a8bc616b94,
      0x62c33e0b9150e0608b29448fb56bcef22513931a622e8631b498ae54b22262a2,
      0x9f2c92f281b0895ee9b7e545e27f3ace6ab46654a73c6f1a4e9b1047bdd09e73,
      0x261a10686feae7e8b9be5ccacb3b3e4f00b2cf66700ec5200d96cac9edaed604,
      -0x23e6d7f347213a58d059681629862c5e7155b0df7e39bdc4829878f78bd26b50,
      0x8b8e7d5a90a242503d8b4693ff8770ef129070011b32e57f65f20ebe996f459a,
      0xdbb3730bd44d388e6b0820a4d5fbf257cc0de8318600c5b3e2cc4660d9073336);
    e := Twice(f, P, e,
      0x8b8e7d5a90a242503d8b4693ff8770ef129070011b32e57f65f20ebe996f459a,
      0xdbb3730bd44d388e6b0820a4d5fbf257cc0de8318600c5b3e2cc4660d9073336,
      0x98706a34365fc35f0bf58006b8086053e00baca29dff996227401c8ccd9179d7,
      0x2169e99dfb3766802e0239804bbc4344e1e88f98af765255ca9e884dffa7e3b8,
      0x5ac5af7b1a509379419c9d9ad8dcee93530ce377f40ebe48872d4e16cc20f4f5,
      0x41c63426d923b297be645fdbde311e0658ac1f91ec636745593a65a42a76cbd5,
      0x1d191a0947f67b870c31c0f20d3da6b66d4fd0b5a49a32c5a07a776e6c734262,
      0x3b2a3f3972f2d8e46eea82d5880997bff2cb652e3faf208e96189284c63ce0b7);
    e := Twice(f, P, e,
      0x1d191a0947f67b870c31c0f20d3da6b66d4fd0b5a49a32c5a07a776e6c734262,
      0x3b2a3f3972f2d8e46eea82d5880997bff2cb652e3faf208e96189284c63ce0b7,
      0x754e3f3b8b39783ae1d98f7bed4a33a9cb83a2dcf3dd96af1ed15030279b19e9,
      0x2c4cb1aec2ba87180f1f5534683aa8828df301406b99602ceccf3daf0ed2880e,
      0x35c09db70529bb4ad7b4597e9943a45422575262b0af898c494c24ed3f796f98,
      -0x46e9bb2cb1fa258e9fb49e33ff6951071c6ad1b1b380f53141bbab15f65f812d,
      0xb7da96bf13c179bc9a9c90bdb7b6c1ef9d555e6799bf4f76750b6567c651b465,
      0x28ac804031a2b0068154809ef06a8f48f6ed63f5af4c9cd018b66e25f5de12d1);
  }

  lemma LastPart17(f: nat -> Point) returns (e: nat)
    requires Starts(f)
    ensures e == 0x3fffffffffffffffffffffffffffffffaeabb739abd2280eeff497a30 && f(e) == Affine(
      0xaf5dd17f1fd5914cb0720890b2f16ed97c3ef46353f03b02973db21e5ea610b5,
      0x656289b5ec932c278c1a66fbc10ba954dd7df2baed2d458ad08db4d0db1f4590)
  {
    Facts(f);
    hide *;
    e := LastPart16(f);
    var h := Three(f);
    e := Twice(f, P, e,
      0xb7da96bf13c179bc9a9c90bdb7b6c1ef9d555e6799bf4f76750b6567c651b465,
      0x28ac804031a2b0068154809ef06a8f48f6ed63f5af4c9cd018b66e25f5de12d1,
      0x3c068fd60f94049af681c73e180ffcf374dc1a14a9af44c5f810584e384308e0,
      -0x1790bc895f66a392017f39eb556fac070b0f056bd6c44829cac7baec800ba1125,
      0xe1313976626f57e445fe4130be68aed47dc906c5fda3966ea090120418f9cd0,
      0x27d05451051c973b80b47d8637b78034cb1895db84f42d5d29e92339277e9de8,
      0xe0de30e176e9157fe2531a74ed6bc1578e41cf851c0e4de0b26ec0a4e00d106,
      0x9d02684dcd49f8739bbf58571755cfcc2792091938cd923db7c2d847dc197ab7);
    e := Twice(f, P, e,
      0xe0de30e176e9157fe2531a74ed6bc1578e41cf851c0e4de0b26ec0a4e00d106,
      0x9d02684dcd49f8739bbf58571755cfcc2792091938cd923db7c2d847dc197ab7,
      0x32105c366685f8038ff17d33e4bd01ed75800c47b3140f192640de76a91967db,
      0x3b187164b98754244605d3f39a28b08c3a50a6a0df39fa35321e5d8b6b3fa6b2,
      0x9ca6510e8104ae018828bccb263724f5e13a36ee2c6bb56d953fdc7a848e825,
      -0x1e66172fcec3add1ab7b013b737c73f4eb64adfb8fd2d125e1ef7765c66293a5,
      0xa97f543bd52197669c62f2700d86ebdafc3dffbd627739165044b6923b244882,
      0x10d9ce3c83c064c6627bb2cf381fa25cb9e98ab83403f4384831c8785c2af180);
    e := Plus(f, P, e, h,
      0xa97f543bd52197669c62f2700d86ebdafc3dffbd627739165044b6923b244882,
      0x10d9ce3c83c064c6627bb2cf381fa25cb9e98ab83403f4384831c8785c2af180,
      0xf9308a019258c31049344f85f89d5229b531c845836f99b08601f113bce036f9,
      0x388f7b0f632de8140fe337e62a37f3566500a99934c2231b6cb9fd7584b8e672,
      0x89724429aa363575892a2a95aa249cf616d58aa82f5d64a2350e0c1b2b7ecff4,
      0x2ac967e8cef7799822a9166990435b066bb56d8946018415963c7669d513a9a6,
      0x49cb7ff55f6fc6b42c6ce62126739e09ff815d3c2f72fbe5977b4023f92370e5,
      0x1af975f25f07a8cfb515acadd33bc7702b2064d88b4d8623c007eacde12bea6f,
      0x77419938fe9d4d183c6ae247d7767c8255558f79293368541e8f28ae2d59db0a,
      0x8c27c4622729de14aaf233866eadb3a459c798d14ad351de9092d7dfd8f31e7f);
    e := Twice(f, P, e,
      0x77419938fe9d4d183c6ae247d7767c8255558f79293368541e8f28ae2d59db0a,
      0x8c27c4622729de14aaf233866eadb3a459c798d14ad351de9092d7dfd8f31e7f,
      0x66b7745de248b97277a5615ff0bb462cf6e3c3e46ff057f7cce290d68ec3315a,
      -0x36319702a3e94df54ffb8bea06f628b7c0f2a174b196ffb9c7a4ef5e2eb94020,
      0x2936b4326370af4071e9cdb96b610a98c1a4d623b0bfb109b60bbd931bd06b65,
      -0x1abc3c3a7c2c72b5caabd32443a2bdcdf321ebed3a8f6c6c2838b448e657ed7d,
      0xb9e371aee5cdc7090ea3329bd143a940d45cf9cfac79365fc9e17a81dc55ba05,
      0x2daff17326a770da5f89bf10782385d7e0275a53616d417c7b35522644101836);
    e := Twice(f, P, e,
      0xb9e371aee5cdc7090ea3329bd143a940d45cf9cfac79365fc9e17a81dc55ba05,
      0x2daff17326a770da5f89bf10782385d7e0275a53616d417c7b35522644101836,
      0x68723255cb589f934be2b1545a295f0260eea2b5de3a4a9e94f804ebd5eb2ac4,
      -0x16fa7d64cd0ae03aa03e8d7dc3a3e943c7cf22733be3d4f7654d70412a6169a55,
      0x2a9cfbd69386bcc5158cf3311d469d601b8ee2d14c0eba8f570f6b7d171ad06b,
      0x1c145085317e07b9bd0e02610ce5204877f4d96870de22f41915a8c5e7143ec9,
      0x7510b3cb6e7dcff96e4ccb661b959a00524dde58ce83aec00ac8e4d627a6da61,
      0xee3bae36ecb330bffbe41537b2faee168c6be58f1dbb5dfbcfc3032b6653a673);
    e := Twice(f, P, e,
      0x7510b3cb6e7dcff96e4ccb661b959a00524dde58ce83aec00ac8e4d627a6da61,
      0xee3bae36ecb330bffbe41537b2faee168c6be58f1dbb5dfbcfc3032b6653a673,
      0x75bce0217ca8b8c758150ce70761406c45bd0d802840e0d7d93d29a8a0b8b164,
      0x3a8945c019358723501a489d0ee49198b962ebdad479d6a4369e0f2c58c9157b,
      0x36263038915bef3e3edcfc73d46a862cbe89dc68767d3383f3cbde825674389d,
      0x13294b5dfc5f62c8ca8103cc0423bdbd5ca4886b1142a2e7be1df8fc46db158f,
      0x4b6701f85dd590c9fc6a1b968e883c977ae713046adc38de3fb8dc991ce9c97b,
      0x230d4174960055438eedf28f9bf2fdde7cf39cef3460e603d29c88d6d3a34024);
    e := Twice(f, P, e,
      0x4b6701f85dd590c9fc6a1b968e883c977ae713046adc38de3fb8dc991ce9c97b,
      0x230d4174960055438eedf28f9bf2fdde7cf39cef3460e603d29c88d6d3a34024,
      0x8e71fa32f749055beb95c3ec73e2278ed6d3b95314cee3ffc3af1d693dd65433,
      -0x1b9ea2f95e7dee6bf1ecbd451436a00697ff7855aa0074bc3cabbd90b2f6ce7d,
      0x4f42a44f5fdae588da5bbcc53f9b9fed8f6c4b26656181ceeeae03d5090453e2,
      -0x379f68c1478569c287705f214af0c3a3f4a89bb40c741968353b4d07c8feeb5e,
      0xaf5dd17f1fd5914cb0720890b2f16ed97c3ef46353f03b02973db21e5ea610b5,
      0x656289b5ec932c278c1a66fbc10ba954dd7df2baed2d458ad08db4d0db1f4590);
  }

  lemma LastPart18(f: nat -> Point) returns (e: nat)
    requires Starts(f)
    ensures e == 0xfffffffffffffffffffffffffffffffebaaedce6af48a03bbfd25e8cd0 && f(e) == Affine(
      0x117364d1a188812339342d6faaf9b9d8c4b41fe1fe92733d8ff4a19fac5ccbd3,
      0x90e186732ceba6b53d27529891ee2e96bb2bad9ad152d94feb5ed854ffb1160)
  {
    Facts(f);
    hide *;
    e := LastPart17(f);
    var h := Thirteen(f);
    e := Twice(f, P, e,
      0xaf5dd17f1fd5914cb0720890b2f16ed97c3ef46353f03b02973db21e5ea610b5,
      0x656289b5ec932c278c1a66fbc10ba954dd7df2baed2d458ad08db4d0db1f4590,
      0xe2596ce3b2ace02c2a1c06c2b4c39cf3f82fa7b61cb35822eb9360ceb2a95df9,
      -0xb51b64809951c6c77d623800495626b867fbe4048ef91982415d89a4852ff525,
      0xc822037eec1c614a117e71c238283752e89418fe8247cbcc816b018649037d53,
      -0x326ff3e792ed9b174a22794cf75c2881eeb71240fcab0b915b23868fb6c17562,
      0xe8692ce681dcdda268c517ba043104ac70766218a359470b219cde0a6246048a,
      0x2100a3b8375e62f81be6f79c436b7fc0417a4e81fc9c5cf8f2cd23ebf8ca3441);
    e := Twice(f, P, e,
      0xe8692ce681dcdda268c517ba043104ac70766218a359470b219cde0a6246048a,
      0x2100a3b8375e62f81be6f79c436b7fc0417a4e81fc9c5cf8f2cd23ebf8ca3441,
      0xa42be74892a824e71fbf768616eb78110a7b4b7584e7f6cdd640c4f6b11e778d,
      -0x24ea8422a148e8619b708e89e9c387d5c85a196d19542d736044039ea20f3a90e,
      0x694847dc7f3cc102cb84100316e3edcead39fcf17cd95d811053bcf825257264,
      0x40ede964b45b7022dc9502b3bf40bc478254667c0ba882f165cf8291aec36cc1,
      0x8329e1855f2dc7cc1fa50510bf917140890fcd422735a84e3c28b542363dea39,
      0xb4523f265b15a93330ad685bd4edf199e3997c708d0f7454a4ed2a841a37fded);
    e := Plus(f, P, e, h,
      0x8329e1855f2dc7cc1fa50510bf917140890fcd422735a84e3c28b542363dea39,
      0xb4523f265b15a93330ad685bd4edf199e3997c708d0f7454a4ed2a841a37fded,
      0xf28773c2d975288bc7d1d205c3748651b075fbc6610e58cddeeddf8f19405aa8,
      0xab0902e8d880a89758212eb65cdaf473a1a06da521fa91f29b5cb52db03ed81,
      0xc9ed46a42df7d744c7792349c9ada0d7c21cebc0dd6a873d07cd23ed8f61b074,
      0x57d7b02da9da017f4feab1525fd7606a730c4a0b1d3b7ccd784b85dd93ae12c8,
      0x9f4674d9afaa7f5d0e1c0e8a51b1be960f135c15ffef39c638b2708444071f41,
      0x5d560bc1bb4d32d831d83ea6d67faa06c9e2d14603fc5075098e2d9a6a31436a,
      0xcd559700b304f588f65ddeecd3cab1f2357770ac27c27f0fd26aa681937b6c0,
      0xbf59d2a1afe067dbdcf248e6f38d5f4a7753077d0d06b7062caaa1dadd5cc71);
    e := Twice(f, P, e,
      0xcd559700b304f588f65ddeecd3cab1f2357770ac27c27f0fd26aa681937b6c0,
      0xbf59d2a1afe067dbdcf248e6f38d5f4a7753077d0d06b7062caaa1dadd5cc71,
      0xf839838e5ea18c0c3efc4d8a88787af906a6abca84884bcf498e6353b96e4ae4,
      0x1543299adefc5f87a9907d25d014e4e7f4248c7c82237f6cca1d36ffd6b0cd38,
      0xf0af7bcfb05a274e8b03d16d79a1e90923b94674cfeb44203d4db955a4d628ae,
      -0x619b31bd2d0295b55c586085cd4103f9cacb9c1d977868ca00dbe2c8cb9a87e5,
      0x717f3cb8f9a9480973abd9d07b11a6af00e5f7f782df9713cedaa351dcba6d9e,
      0xa8c848d088acfe8a3b55637da8e7d077f90d13e7c95fd67430386eab5ebe88e2);
    e := Twice(f, P, e,
      0x717f3cb8f9a9480973abd9d07b11a6af00e5f7f782df9713cedaa351dcba6d9e,
      0xa8c848d088acfe8a3b55637da8e7d077f90d13e7c95fd67430386eab5ebe88e2,
      0x2d5c87588d26f9c1cabb2ad6143c9145ca8a25067d0d0a1d1a941ac54f1e9ea8,
      -0x5b244c842876145e9336b20441b2643d8ec5d88a3cfac8d9eea2a23838137fd4,
      0x809a906b0d3ab52189991b1675bfef4b0294c83a243f7b79403f661b3b6a8f7,
      -0x11cbf2d50ff4c2f53601589f78d5b4879c43907f8e8eba36e84be3704829ff5,
      0x77c639032f4393edcdbe84e3e4ad619eac36e0145d109daca12ee5576459c9ab,
      0x89fb17e7a23bcc1f51711fef97bb5d9566535600b54def4772a109fc42d29291);
    e := Twice(f, P, e,
      0x77c639032f4393edcdbe84e3e4ad619eac36e0145d109daca12ee5576459c9ab,
      0x89fb17e7a23bcc1f51711fef97bb5d9566535600b54def4772a109fc42d29291,
      0xc9633d6252ea9df0eda9df6c2913cead0ac51d4cd58e74f5da5e89ea5d228b0e,
      0x30f99e72463cc4991cedcda0e886b4b18b93b35b870ed6bed846ee13cad24c9f,
      0x9e6cfcdceef88ec1e34d742706d62e2f0ba5e64883642d5124734e5b3a2b2c97,
      0x18de2cc9b4e1089689860bd83ed5b90e61863c8ddcfd6d63c72ba43b372b7a5c,
      0x5829aacacfb75d57fedc9919ab2a302d39da56b7b655c6e96800bb5a9d51cdb5,
      0x512a90c5fc0c2627ad91f8c657529cda4acf8d2da5cf6e57aec20cb55705bfff);
    e := Twice(f, P, e,
      0x5829aacacfb75d57fedc9919ab2a302d39da56b7b655c6e96800bb5a9d51cdb5,
      0x512a90c5fc0c2627ad91f8c657529cda4acf8d2da5cf6e57aec20cb55705bfff,
      0xe271ab4ebd11fff0ec68a819b151c9ad16b2402b2fae6c2220fdd66672bd4063,
      0x3481373769e730cf8898c8df932b9e673d5f283b3bab852aa8310da225a70ce1,
      0xc84ce4efb3f8fa9722a0e5035f0f7ca5d8d0b541047aa2b4334ce20e89fb72b4,
      0x3e8c4f8c5e430f50e1aeafc7bca6a33fa9f98526c600f66f568b06dba5e972a9,
      0x117364d1a188812339342d6faaf9b9d8c4b41fe1fe92733d8ff4a19fac5ccbd3,
      0x90e186732ceba6b53d27529891ee2e96bb2bad9ad152d94feb5ed854ffb1160);
  }

  lemma LastPart19(f: nat -> Point) returns (e: nat)
    requires Starts(f)
    ensures e == 0x3fffffffffffffffffffffffffffffffaeabb739abd2280eeff497a3340d && f(e) == Affine(
      0x6ed3c7cbbff844edc35dc20bdfdd251767ff30d0cd26ee1b9bbbb5ab5540ff60,
      0xd1b8d380adc7fafadb5dbb8b2a46053fd7b83489e7d12c0763bd4dc9b0186799)
  {
    Facts(f);
    hide *;
    e := LastPart18(f);
    var h := Thirteen(f);
    e := Twice(f, P, e,
      0x117364d1a188812339342d6faaf9b9d8c4b41fe1fe92733d8ff4a19fac5ccbd3,
      0x90e186732ceba6b53d27529891ee2e96bb2bad9ad152d94feb5ed854ffb1160,
      0xd36996ae84fdc0707b26792cdfab4100a637ffa1177d4a6e9b004ce2e8e408ee,
      0xb631e3c4513f26570e3dc79010d1cd3cb6e9f7cc6e4509605b5762ba10d134b,
      0xae9739f0a3145e33b2d28481cbcd17e69d87d183e236a2ca6e834f025322cbbc,
      -0x236c7d2a1472fcff35f090f64cb1750ebb6332b5baae7d447db816d871eb3bcd,
      0x3c58748cae51b1cf8ccad71af45f8d62dd0561bf168a99d696253fe33751ae1a,
      0xf091584b70288f392823a9a6b25c2c8d04c4868c2221a19af737e1a8374d1f41);
    e := Twice(f, P, e,
      0x3c58748cae51b1cf8ccad71af45f8d62dd0561bf168a99d696253fe33751ae1a,
      0xf091584b70288f392823a9a6b25c2c8d04c4868c2221a19af737e1a8374d1f41,
      0x82f4035a2f943ba8d23b2fd98a9fa96b84620ffd6fb6ac5d80d2d89c955d0442,
      0xcb717972feed02a6def0e56581db145f04adbedc59e1d33c2333ab3d4c0565e8,
      0x42fcbbfdfc487c0c25cc88ca628336de7474bc4c291e1acc486445df97be444f,
      -0x29d834cd4a4af0125eaa9217a19f67c9f4d495912b418d7deee1f8ddc96c67e3,
      0x8e25b7ae51eb379cea6e4db5e69b4d2e48ba771c81e3cc77061c680b9a85764f,
      0x756d0a9f3b40d862186e88fe07cd243b71e0eaeaf657297ee03e0e6e1b3ef5c2);
    e := Twice(f, P, e,
      0x8e25b7ae51eb379cea6e4db5e69b4d2e48ba771c81e3cc77061c680b9a85764f,
      0x756d0a9f3b40d862186e88fe07cd243b71e0eaeaf657297ee03e0e6e1b3ef5c2,
      0xd9e9badf10498fba162eb6b719bde60c1168f5c29a9c252fc5359bc67bb0daab,
      -0x24e0500d9e8722c3906e15899fa7d8f8131a46968731de495cea26b20a5292b9,
      0xb97e1433dc1141996063a854156d199b882e7fd608faa9e48d4348724889d050,
      -0x59433cd0d555612ddbe60e99ac5b8b116be60c2ecf32dea083219e8cfe9cf7c1,
      0xf702e92b07088ccf1c7f7c5e68541310b3dbfaebee0324fecd073b3158d0c2eb,
      0xffb186d5a656ab5d58d1c9e5bd82be3e93e53eec9e7720cddce0fd3b54ea7e79);
    e := Twice(f, P, e,
      0xf702e92b07088ccf1c7f7c5e68541310b3dbfaebee0324fecd073b3158d0c2eb,
      0xffb186d5a656ab5d58d1c9e5bd82be3e93e53eec9e7720cddce0fd3b54ea7e79,
      0x406017862d9e4edfa0eab3a8f08e552b886cd11858cd9e27184ca062f95cd856,
      -0x24a6b225e9f3d995301c95f835877f9ad576d66bc145bc4e5567426675a3d9951,
      0x10302fd4bd9ac0b13435d481ebe233b2f9ccda8bbd579e187f7d6bf228b4c6ac,
      0x2088b74ec14350e42f4fc4cd317b613973266dac58f922de1a41454cb6ff8dd6,
      0x75a24c691bb2259e1bef3117c5686637d93766149beae54f9bc627d228e9ed7a,
      0x88a32fc58c11c55e5c1049454fd4007a4dae7bd0197f72e69e89ee9789a0db33);
    e := Twice(f, P, e,
      0x75a24c691bb2259e1bef3117c5686637d93766149beae54f9bc627d228e9ed7a,
      0x88a32fc58c11c55e5c1049454fd4007a4dae7bd0197f72e69e89ee9789a0db33,
      0xd5848c6f4fd5b83bd71b1db7a6b26e7595cb9e4e755ceb85793f9b01c7ebe7b,
      -0x93ea717b8896c06b53eba568adb492de20dd0b36d010aa8593104f1ce2b166b6,
      0xb215d6525aade8b1a765c4b579ba3a11ee877b61e545a0e8fb179347f3bcf7,
      -0x1973d58271539fbe7abf17e723ad6f561356fc46db5762d26f18f8c2739f7b7,
      0x94268b9ab4bcd8227fe8b0ba050605a0492684a01cb8bc7951eb8df33e2f1ecc,
      0x317455dde40efffe4c2d75ef8a038f864abde0761c1059905555f04df0ef3500);
    e := Twice(f, P, e,
      0x94268b9ab4bcd8227fe8b0ba050605a0492684a01cb8bc7951eb8df33e2f1ecc,
      0x317455dde40efffe4c2d75ef8a038f864abde0761c1059905555f04df0ef3500,
      0x6b5fb6b07544d620ea7ecee63bf39ba52aca024d5105b4989ac25c0b0f17ae53,
      -0xd7b98af50e6bd1ac1856ccc46036d2d3d4cb9743a79bcc62386587243ec2c550,
      0x2d0926809b5df475c54943fd4c79857e3c24b8538d9422da71d1d63cb2b31d71,
      0x96de1b8756cf97a795f4800624fbd40bfed1a993b41aadd08860d1a28b3b1fd,
      0x7dab62fe64673c7e7b88ae44871f7cba5b25924d093e6c79d4b30af104d40d92,
      0x1dcee90fcaee6251579bdc668145d3a6621d4ffbc2689f4f66f1d1e7d54d135b);
    e := Plus(f, P, e, h,
      0x7dab62fe64673c7e7b88ae44871f7cba5b25924d093e6c79d4b30af104d40d92,
      0x1dcee90fcaee6251579bdc668145d3a6621d4ffbc2689f4f66f1d1e7d54d135b,
      0xf28773c2d975288bc7d1d205c3748651b075fbc6610e58cddeeddf8f19405aa8,
      0xab0902e8d880a89758212eb65cdaf473a1a06da521fa91f29b5cb52db03ed81,
      0xd11a1f85422529c2e57aad3bc4c2a2cdea79246875be5cfb2f14aeb06244fd5a,
      0x5f73966d9212748f9d3a3d36165a9f57d3ab0b2e38da96156a544ba985df684a,
      0xaacbaa2200f3a91f821ab2ca864fd7c9ac341b5539f06932f31fca89c3fd1016,
      0xc1f896df107cc3379f1f6e6068d2e06221fab2f61ca742c5d867ae51fd99560,
      0x6ed3c7cbbff844edc35dc20bdfdd251767ff30d0cd26ee1b9bbbb5ab5540ff60,
      0xd1b8d380adc7fafadb5dbb8b2a46053fd7b83489e7d12c0763bd4dc9b0186799);
  }

  lemma LastPart20(f: nat -> Point) returns (e: nat)
    requires Starts(f)
    ensures e == 0xfffffffffffffffffffffffffffffffebaaedce6af48a03bbfd25e8cd0364 && f(e) == Affine(
      0x8b20b1ef875b4f0ea0782fe906159da0c62cadc18b9bc14d2a9598b5c189e107,
      0xfa223d773182d041a44928656832f024747ea14d1690b5ee8497c49d262c956e)
  {
    Facts(f);
    hide *;
    e := LastPart19(f);
    var h := Nine(f);
    e := Twice(f, P, e,
      0x6ed3c7cbbff844edc35dc20bdfdd251767ff30d0cd26ee1b9bbbb5ab5540ff60,
      0xd1b8d380adc7fafadb5dbb8b2a46053fd7b83489e7d12c0763bd4dc9b0186799,
      0x4b2f02323795cceff4fae57277f199eaaf613c32c04e08d2ffa33e825dc160b1,
      -0x14c0bb4df2ac260c7956eb8ef609b27c750b3976908fac7e0a5c178cd4bc1af2,
      0x161493eb3b0701cdf37079d83e8d4f7e2316aef00910ce78cc84476a0650f8df,
      -0x25bcb55a7fa1feb1deb20e98c40ead8baca45d7771ed274bc2c456082e9f7c82,
      0xef5275da96b0c77f493c66241f649375eab7514c7e92234a18a61b41f9eb06b0,
      0x6d98d5a7c7bb178a5464147bd6a8b1058f71312f223236a765bd261b31a05df5);
    e := Twice(f, P, e,
      0xef5275da96b0c77f493c66241f649375eab7514c7e92234a18a61b41f9eb06b0,
      0x6d98d5a7c7bb178a5464147bd6a8b1058f71312f223236a765bd261b31a05df5,
      0xfe22d31ca7c5c749fd494a6f1413ce3bc2ff5b0c804750ba2f6cccea6ed3c716,
      -0x1c5981e8568c8136e9a4f2051a65a58e832b58f7ff150784ee8e0b666304be25c,
      0xfc491fa99ea147c4e9ffe9b1458d94fa4463f93d4aceeb1ac78355fe7ee9ea90,
      0x9f9c83a675cb579656df4db6bffc90fd9b09e7479a96e021de956aaa8e6ad7d6,
      0x4e8a40f8656873f34d3f015ec545324e6bf57573bef319b018d696cf17f95814,
      0x7759cfea2d5e466b6a4711d991f0ee4b6739c9352ac60cbae05873f890359f29);
    e := Twice(f, P, e,
      0x4e8a40f8656873f34d3f015ec545324e6bf57573bef319b018d696cf17f95814,
      0x7759cfea2d5e466b6a4711d991f0ee4b6739c9352ac60cbae05873f890359f29,
      0xd1f61729dfecce7c5f15a34f957faf8334d21889f328bdc99f9ffb8e6c68615e,
      0x7b7c7cecb4ccb6b3a2307a41231182d88e46b129bbdc305fcbc2c9bcd1051054,
      0xac33be62e6339159f51af9f430d7d2313523cd4ada26d4a06c9fff21c624a3e5,
      -0x4230d287a606c4f90368f02ec1d4a35a407455aba39876188828959a4200c7f4,
      0x9f3e9b83199f6aca2116f475cc51e44c9c91b4a416bde008fa7abb2a934b2b51,
      0x1b5b1b593e433732d736e0122f720963bf3505b42b7713521a2435dab4f1993d);
    e := Twice(f, P, e,
      0x9f3e9b83199f6aca2116f475cc51e44c9c91b4a416bde008fa7abb2a934b2b51,
      0x1b5b1b593e433732d736e0122f720963bf3505b42b7713521a2435dab4f1993d,
      0xdabbb93858163c433c2f1dca6dab1ba0e61d13b95978cf3aed9732aff7add803,
      -0xfa6d3431f8c39586829e086d011030f98996f1c2cc88c80ee939f95606abf99b,
      0xbae4411c14590ad557dd0155594d908c9cbb6d7501f85f2d59276c75574baf5a,
      0x3558ac8ce9721b98b1f6c9e809b5a2a54824077f553095c51e5cac3f22fafb4c,
      0x60cf2d264c114c940a8db65ba7270aa6f44e42624db0ea8f7b0491d47594efe1,
      0xb22856103aec29fe1ce72c7299415c97cd450b80abac0d79c5e2b08920e0a61f);
    e := Plus(f, P, e, h,
      0x60cf2d264c114c940a8db65ba7270aa6f44e42624db0ea8f7b0491d47594efe1,
      0xb22856103aec29fe1ce72c7299415c97cd450b80abac0d79c5e2b08920e0a61f,
      0xacd484e2f0c7f65309ad178a9f559abde09796974c57e714c35f110dfc27ccbe,
      0xcc338921b0a7d9fd64380971763b61e9add888a4375f8e0f05cc262ac64f9c37,
      0xa263cc489ee8bdd85e33e0bf307c9def77a03ac08ab02917a98d003768570067,
      0x3039044020cab3bc87d222bfceb16c9e8c63b70ba718c20b3bde5abc9869229d,
      0x670275738c4d4a2560b2425931d852822add363f2e7ed08b5d91b81f847428b7,
      -0x5d7884d76989d1fc669d674d4bd0722fffd0e241dedc5884c3f8a55da340e3d4,
      0xf4295ebbbb524f05ed096edfb57704113ba4ca94d1b1b539ce8f30440394cf39,
      0x2fee88754a5d53596be914326dd9d0435c5df90e470fe8394b1d61cc0b9f0165);
    e := Twice(f, P, e,
      0xf4295ebbbb524f05ed096edfb57704113ba4ca94d1b1b539ce8f30440394cf39,
      0x2fee88754a5d53596be914326dd9d0435c5df90e470fe8394b1d61cc0b9f0165,
      0xafd086d090b268755bdf504137173c8ccc46493d1d4201e9916a757f7b00dc70,
      -0x278c675261de3ca4f0d7676979eb9ef502711a334c8aa5272188c085437be1fbd,
      0x78bec22c7fbe0e206b5e67581b608778423173a7362efd32a54c9cd0627e3783,
      0x3100b7207c0b1d4063b3f590433379f9326d62a7d115b19df0db960a03bd8957,
      0xaccf43e70c4900e56c9414fd57f2206bd9e8fb55ab1e40dd1af539373a58ed81,
      0xde83c3749ce258f98118fad43cba0853338f81bc2dc6e39bd810ae0622e70422);
    e := Twice(f, P, e,
      0xaccf43e70c4900e56c9414fd57f2206bd9e8fb55ab1e40dd1af539373a58ed81,
      0xde83c3749ce258f98118fad43cba0853338f81bc2dc6e39bd810ae0622e70422,
      0xa5539e4c2a0cea6c4ede3f6173797a79cf2787f06f7e96e45e56c87a2e153893,
      -0x3e8e4a93f20cf84dc0c32dea29055a3c4727303a87c1ba5dbd9caefbf4ccccb9,
      0x6ac4e55e357a05208fd6c10c3cefe4afce0add5e35c4ce068607442acb15a5a0,
      0x15c084819f5fbd2f896101e0e1d00b6f4d9dd26804c5f83f6863b3c1466691e2,
      0x8b20b1ef875b4f0ea0782fe906159da0c62cadc18b9bc14d2a9598b5c189e107,
      0xfa223d773182d041a44928656832f024747ea14d1690b5ee8497c49d262c956e);
  }

  lemma LastPart21(f: nat -> Point) returns (e: nat)
    requires Starts(f)
    ensures e == 0x3fffffffffffffffffffffffffffffffaeabb739abd2280eeff497a3340d905 && f(e) == Affine(
      0xf4f5086c4adf5d72f97848e135ebea1f7c3231ad2827e12b61b38a0ab54af9d3,
      0x7c49403601263860c0b8e2c0535e9989e39b3ed60b5034cee4f38fe3f368c72c)
  {
    Facts(f);
    hide *;
    e := LastPart20(f);
    var h := Five(f);
    e := Twice(f, P, e,
      0x8b20b1ef875b4f0ea0782fe906159da0c62cadc18b9bc14d2a9598b5c189e107,
      0xfa223d773182d041a44928656832f024747ea14d1690b5ee8497c49d262c956e,
      0x18338c0dbb8c4b2cc1c0beac6fe6aba94372e897eff057934f4f1ab15a411201,
      -0xb38a695a1da93c5380c112a9db087834b9dca06f08f10e4c33ca4fe15c4d62f9,
      0x249b4a3ad420ddc60082fb87de690ba5ff924e6ec8a60544f8b2f35a51e1268,
      -0x9033b93af1f66ecbbe2ffe5ffdcb3cec3626f74fe529adbc40601103a405ea9,
      0xea766aedc87ca1b9ecc5c3bb0ba49b43c2edbedc673707fdc234f74c7e76a0db,
      0x927d17f351b6425e359b7f2e13b963e717755ace4fefcbd20dae78caeaec7fc5);
    e := Twice(f, P, e,
      0xea766aedc87ca1b9ecc5c3bb0ba49b43c2edbedc673707fdc234f74c7e76a0db,
      0x927d17f351b6425e359b7f2e13b963e717755ace4fefcbd20dae78caeaec7fc5,
      0xfbd1ede4f87d76496c35e8768d3cc737302aacce3580b0b9925bbae37021f505,
      -0x16404894a70135ff0c82f5e6f653c2ff31b5ae798e4614598a901a20b74f6bff7,
      0xf7b554a54c3583b2fbc65dad96fd446ce9e472ab7e78658ed9a71e560285c809,
      0xd562b7c550ac364048c39a2dd3dc4cc8d42ba1b323eab08f4a16ffebfde03591,
      0x1188f346c1e0517f809acc50daa6608f04175eb95fb762606fd62573196fbabc,
      0xb05a2ac6c1d2fc12f33a67302428f25d84093a864644692749363566c71d1837);
    e := Twice(f, P, e,
      0x1188f346c1e0517f809acc50daa6608f04175eb95fb762606fd62573196fbabc,
      0xb05a2ac6c1d2fc12f33a67302428f25d84093a864644692749363566c71d1837,
      0xe87d436bed4bff39a438dbc5e0f2a0ab3c426665c18963a027a08bf1b5481af2,
      0x13cb595c191c391db2851a47c9abe9beb65edc52d44f20a461d571587dfb7e7f4,
      0xd323477e87412685b906c12295d21db1484f293eb4c13fbd94da16e8e3fd705f,
      -0x445b337865f23a6b6912900a08c53286599a06770dfdcc17b11fc8e30cea495b,
      0x5ccdc614cb67789e573d7fc6092e47af6eedf507a4cb6097a2872654465071db,
      0x9b25ae1bff2ade1558886a8a9ecfa421cf301ac5c765c4bde6be69734402b230);
    e := Twice(f, P, e,
      0x5ccdc614cb67789e573d7fc6092e47af6eedf507a4cb6097a2872654465071db,
      0x9b25ae1bff2ade1558886a8a9ecfa421cf301ac5c765c4bde6be69734402b230,
      0x6ef473b5991356ad1b67f3fac06178cedf101127229b3473a62ebee5a858903e,
      0x218f0a62919a29f51b3983ca3044d42a06d856f6f86629a485ff4b9cf364d1db,
      0x3016fcdcd60513b32e49ca4d9f51dd9384f219040798b6798e171644d21589b9,
      -0x27c9f876dae9c5c2b2296861a8e0379b34691b763edde6cba4cb355ca45420eb,
      0xb89b4aef0ee4749350d17606d549453085d14c129ec4917f24adac9713778657,
      0x8021ddb2d8e02118d9598ab5d87c2e615170e583c727da0dbf8331b2814ef6ed);
    e := Twice(f, P, e,
      0xb89b4aef0ee4749350d17606d549453085d14c129ec4917f24adac9713778657,
      0x8021ddb2d8e02118d9598ab5d87c2e615170e583c727da0dbf8331b2814ef6ed,
      0x6e0dd9c98c854b371376e234bc69b2f6f225729f77889608a943b942d1aa6a36,
      -0x12133d5c9083e198541d70dcb133bf15a02b3ce9bdf09f1292b1febe06fc915f9,
      0x2f4fe7e90c822114e847af9fe21028f53488cc04803a8daccc0ee11e9f1de981,
      0x222f39d80eef76f92c9fffe812e1d705224b907e580384657637c05b3f868261,
      0x6916d0d33a4a094a68b78f7fec7b2ddd4dba2bfd8258bddf13e838e58201dc07,
      0xc031ae1a7a1eee0a49a1b315bf2734635d6e7c3e1ad2866dad5bbb69bf7faa24);
    e := Twice(f, P, e,
      0x6916d0d33a4a094a68b78f7fec7b2ddd4dba2bfd8258bddf13e838e58201dc07,
      0xc031ae1a7a1eee0a49a1b315bf2734635d6e7c3e1ad2866dad5bbb69bf7faa24,
      0xdaac4941dd15a4aeee6c413279f51ed3a561399662a53aade190c67db8668679,
      0xc6ec2144c8a88809632cba701b8f94c87e623913759bb8c8bdd38bf499bad39b,
      0xbac9e0b6b200929794f8857ad9fbde6921b629d6313a6397adb6886498f45ec1,
      -0x5ea9e7b4b8d5cff9d8f3efdff98486be88e7c9eb555c5b8e452148574d8bea6a,
      0xd7e96562e6a37a8a93df59b6146d002f3d506d3b19d018c291d87d6917a8cbb4,
      0xb75481dfbfd67506edd32c2c18a6bf4c12159166e3f39462f8759035593ce08d);
    e := Plus(f, P, e, h,
      0xd7e96562e6a37a8a93df59b6146d002f3d506d3b19d018c291d87d6917a8cbb4,
      0xb75481dfbfd67506edd32c2c18a6bf4c12159166e3f39462f8759035593ce08d,
      0x2f8bde4d1a07209355b4a7250a5c5128e88b84bddc619ab7cba8d569b240efe4,
      0xd8ac222636e5e3d6d4dba9dda6c9c426f788271bab0d6840dca87d3aa6ac62d6,
      0xd969a9f860c3450369fd07c72ba36644940ae91d38da9fc4f27c5f9c737d3389,
      -0x8efcc5a6facd34de6f81c89f5e8d2ef44029860e12846c2431dfc1670604e1b7,
      0xb8a44dc3f2a44bebd6832a023d2ced69b900bec8197362f45c4fc23ca1285cfa,
      -0x18aada41b1b28900ee1845c03cf4a13a84a8b1ce04115a571e608352acd44db0,
      0xf4f5086c4adf5d72f97848e135ebea1f7c3231ad2827e12b61b38a0ab54af9d3,
      0x7c49403601263860c0b8e2c0535e9989e39b3ed60b5034cee4f38fe3f368c72c);
  }

  lemma Last(f: nat -> Point) returns (e: nat)
    requires Starts(f)
    ensures e == 0xfffffffffffffffffffffffffffffffebaaedce6af48a03bbfd25e8cd0364140 && f(e) == Affine(
      0x79be667ef9dcbbac55a06295ce870b07029bfcdb2dce28d959f2815b16f81798,
      0xb7c52588d95c3b9aa25b0403f1eef75702e84bb7597aabe663b82f6f04ef2777)
  {
    Facts(f);
    hide *;
    e := LastPart21(f);
    e := Twice(f, P, e,
      0xf4f5086c4adf5d72f97848e135ebea1f7c3231ad2827e12b61b38a0ab54af9d3,
      0x7c49403601263860c0b8e2c0535e9989e39b3ed60b5034cee4f38fe3f368c72c,
      0xaeafae58242a90e531e26ad3754e9a553b88d37d07cae8e35fa4185aaeb6f158,
      -0x2158ddf0e4eaf201d36866a9196a2cd4e3031c55ea49ed54fc2c2c4fa8578dc75,
      0x7733498fa4673eac688129fbe8b0d1c1e4a56cb6aee4de10794d19df78f4731d,
      0x27750281a7811434422aa6eb01a6e60e414b6b07cb9dcfa51d232d07c646c468,
      0xbb2228d3ea32cb3c1eb160cc824a4ba8115f9a7f415d18ddcaac8193defc2c47,
      0x8e07363833ca066474d5432354792ed348ac64c044ba43bcc4c426bce4ca3ddc);
    e := Twice(f, P, e,
      0xbb2228d3ea32cb3c1eb160cc824a4ba8115f9a7f415d18ddcaac8193defc2c47,
      0x8e07363833ca066474d5432354792ed348ac64c044ba43bcc4c426bce4ca3ddc,
      0x9b3f6216667833ff2a4bbcd12ac27afe4a51a2d3b07eb0e78d312eca1f7159a1,
      -0xee1db49246065ee4c583deef85f2d6ba63dcf8dad8a141e84c4581c9ea952b95,
      0x5e25d0788cb1268a624ad60999cacfffe004c46530882a98b77eec48bbbc25b0,
      -0x25cdd7aa2d2b76116311866b43a130b373a0286b69f4138f623d4c7141031084,
      0xf978b7a80b10554c847ef8b259857af1cd5060fe394894f17a5cd815f896d363,
      0x43b86e54f0380b3bfcc19605f90aee73e0b34528976e3fabeb5c7e34f8cbe5c4);
    e := Twice(f, P, e,
      0xf978b7a80b10554c847ef8b259857af1cd5060fe394894f17a5cd815f896d363,
      0x43b86e54f0380b3bfcc19605f90aee73e0b34528976e3fabeb5c7e34f8cbe5c4,
      0xf6c614511660dd458e525fbfb354aeb10fcf1e624c2f26086ba3729f78386cc0,
      -0x256c4ea7f239c2430100f4c3ab0100ab0a8af6490928f26433eb10afc2b761d15,
      0xede1484f460d8c4642f226602028c2ec3e99dc86c2a10c22ad34de575b759c7d,
      0xda5558b380a70579c000f83fd5ee4de8c2a690687a2c25eee60d56e8707c2317,
      0x16f9a89d6da61f39bdbd7aa1d99d6c4fe7d35c91ae777df739678098dcdf2247,
      0x398c2a7f1f5f6cd2ff426221d4bb58c75dbf1c2ac7910ca6fc185b157792aa03);
    e := Twice(f, P, e,
      0x16f9a89d6da61f39bdbd7aa1d99d6c4fe7d35c91ae777df739678098dcdf2247,
      0x398c2a7f1f5f6cd2ff426221d4bb58c75dbf1c2ac7910ca6fc185b157792aa03,
      0x2fa523c29a33f7934f4e62b53aef395863ff174d933527da8937c26b6a5c9c60,
      0xf3c20ffc65214bed9334cf00e5a24691d7f9c08ad15d937943f8a20cf0d3b63,
      0x8de0da89278a5fd845b16a73a967803eb177fc87cd5cbb802d2fd32b60e13aa,
      -0x1ac0388b2ec8a38a61724882e8c7232a165b2d0cba37566c8a3bf056082d2e48,
      0xa6b594b38fb3e77c6edf78161fade2041f4e09fd8497db776e546c41567feb3c,
      0x71444009192228730cd8237a490feba2afe3d27d7cc1136bc97e439d13330d55);
    e := Twice(f, P, e,
      0xa6b594b38fb3e77c6edf78161fade2041f4e09fd8497db776e546c41567feb3c,
      0x71444009192228730cd8237a490feba2afe3d27d7cc1136bc97e439d13330d55,
      0x60610490a84968ba2933cdf68cdfad9b184ba2853935fd774bef4e64377ba489,
      -0xf066ef23f2825b3c1099c08d68017a723ffef14667a9f0fef20302e2601162aa,
      0x2448e830f3eb6d2d087624f4324d34346794750e7986d408080f28c28d2b7d6a,
      0x3ec34589b7fa54c94137cf83c615fca0ae81b378da463c2ba0a696cdfd02bf77,
      0x3b78ce563f89a0ed9414f5aa28ad0d96d6795f9c63,
      0x3f3979bf72ae8202983dc989aec7f2ff2ed91bdd69ce02fc0700ca100e59ddf3);
    e := Twice(f, P, e,
      0x3b78ce563f89a0ed9414f5aa28ad0d96d6795f9c63,
      0x3f3979bf72ae8202983dc989aec7f2ff2ed91bdd69ce02fc0700ca100e59ddf3,
      0x3b9e1fd3f452018f0e9c2ee69240a880ee147a50256c489c9338d92cacd255c2,
      0x1d7298c92417205f0a2a693fbe29f8ec2086dd54b2d5dfab663d6f01c334de5f,
      0xde244570034669a620dab01c85900804a78e9a15f24f1f2d13289bf8ef24c3a,
      -0x1c5a1445607c69d1d948387b9687d926de66b12215c644000743c395a06903ac,
      0x79be667ef9dcbbac55a06295ce870b07029bfcdb2dce28d959f2815b16f81798,
      0xb7c52588d95c3b9aa25b0403f1eef75702e84bb7597aabe663b82f6f04ef2777);
  }

  /** N times the generator: the last addition is one of opposite points. */
  lemma OrderIsInfinity(f: nat -> Point)
    requires Starts(f)
    ensures f(0xfffffffffffffffffffffffffffffffebaaedce6af48a03bbfd25e8cd0364141) == Infinity
  {
    Facts(f);
    hide Starts, Inverts;
    var e := Last(f);
    var h := Generator(f);
    MultiplesAdd(f, P, e, h);
    assert e + h == 0xfffffffffffffffffffffffffffffffebaaedce6af48a03bbfd25e8cd0364141;
  }
}
