/** That -7 is not a cube modulo the field prime of secp256k1: a chain of squarings up to
    the exponent (P - 1) / 3, each an identity v * v = P * q + w or -7 * v * v = P * q + w. */
module CubeCertificate {
  import opened Arithmetic
  import opened Curve

  /** The field prime of secp256k1. */
  const P: nat := 0xFFFFFFFFFFFFFFFFFFFFFFFFFFFFFFFFFFFFFFFFFFFFFFFFFFFFFFFEFFFFFC2F

  lemma Square(e: nat, v: nat, q: int, w: nat) returns (f: nat)
    requires PowMod(-7, e, P) == v && v * v == P * q + w && w < P
    ensures f == 2 * e && PowMod(-7, f, P) == w
  {
    f := 2 * e;
    PowModAdd(-7, e, e, P);
    DivUnique(v * v, P, q, w);
  }

  lemma SquareTimes(e: nat, v: nat, q: int, w: nat) returns (f: nat)
    requires PowMod(-7, e, P) == v && -7 * (v * v) == P * q + w && w < P
    ensures f == 2 * e + 1 && PowMod(-7, f, P) == w
  {
    f := 2 * e + 1;
    PowModAdd(-7, e, e, P);
    PowModUnfold(-7, f, P);
    ProductRemainder(-7, v * v, P);
    DivUnique(-7 * (v * v), P, q, w);
  }

  lemma Chain1() returns (e: nat)
    ensures e == 0xaaaaaaaa
    ensures PowMod(-7, e, P) == 0x6e985277992760cba4a4781a6f6b06ea654e0042a111667e97891d7b8c6c0c7
  {
    hide PowMod;
    e := Start();
    e := SquareTimes(e, 0x1,
      -0x1, 0xfffffffffffffffffffffffffffffffffffffffffffffffffffffffefffffc28);
    e := Square(e, 0xfffffffffffffffffffffffffffffffffffffffffffffffffffffffefffffc28,
      0xfffffffffffffffffffffffffffffffffffffffffffffffffffffffefffffc21, 0x31);
    e := SquareTimes(e, 0x31,
      -0x1, 0xfffffffffffffffffffffffffffffffffffffffffffffffffffffffeffffba88);
    e := Square(e, 0xfffffffffffffffffffffffffffffffffffffffffffffffffffffffeffffba88,
      0xfffffffffffffffffffffffffffffffffffffffffffffffffffffffeffff78e1, 0x10d63af1);
    e := SquareTimes(e, 0x10d63af1,
      -0x1, 0xfffffffffffffffffffffffffffffffffffffffffffffffff83fa57df48d5c08);
    e := Square(e, 0xfffffffffffffffffffffffffffffffffffffffffffffffff83fa57df48d5c08,
      0xfffffffffffffffffffffffffffffffffffffffffffffffff07f4afce91abbe1, 0x3c157af0306dcb7f23e06460ecc5f1);
    e := SquareTimes(e, 0x3c157af0306dcb7f23e06460ecc5f1,
      -0x1, 0xffff9d4977fe13fb7196b35fdb0c7e8960aabec6d4cb41b7c63235e6e23e6208);
    e := Square(e, 0xffff9d4977fe13fb7196b35fdb0c7e8960aabec6d4cb41b7c63235e6e23e6208,
      0xffff3a93160c6a3e06de850b5b6df1f562fe0d1e429188bd5eff080071e37754,
      0xc0ac1621d65b051afc8529734a32f4022a41431b87946413ccf2abb0668487d4);
    e := SquareTimes(e, 0xc0ac1621d65b051afc8529734a32f4022a41431b87946413ccf2abb0668487d4,
      -0x3f71212238668d2f7a41b40949a020172f3f6bccbab9a075ba36f37ebf947308f,
      0x19cd242494a6c7a6a9ae8cb5c69c9bef0a8f3d45550ef23758635d6d9c76b951);
    e := Square(e, 0x19cd242494a6c7a6a9ae8cb5c69c9bef0a8f3d45550ef23758635d6d9c76b951,
      0x299b5720cb8f5235b702321e89fc9a0dbc9a44a2d9722c6327f8d9c219fe346,
      0xde8217970e0693da10a6a0ccb19412f3aaf6d4ab0f97ea8be70e606680489c7);
    e := SquareTimes(e, 0xde8217970e0693da10a6a0ccb19412f3aaf6d4ab0f97ea8be70e606680489c7,
      -0x549c93529ab670155b21f9ae52f6fa8633a7218d4d4619f46776234d5db629c,
      0x29cb5bf5e915860e6c183048dc7a4027409a5424e94423c33f54c047db267dcd);
    e := Square(e, 0x29cb5bf5e915860e6c183048dc7a4027409a5424e94423c33f54c047db267dcd,
      0x6d2c4ffbdb14d007e38361d8821e8791cad456947d698e390007a2364bba293,
      0x8cddb91833dba20fbecb7caf0a27589623964cdf39604afc72bdec62c4c5492c);
    e := SquareTimes(e, 0x8cddb91833dba20fbecb7caf0a27589623964cdf39604afc72bdec62c4c5492c,
      -0x21e96d16100583deda27a9bf0dca6a42b328b3dc7b076023319102b9134bef1d4,
      0x7179e4baa38814288058f142f8de52be1d34a8c703136f6a9b57f09e30d838fc);
    e := Square(e, 0x7179e4baa38814288058f142f8de52be1d34a8c703136f6a9b57f09e30d838fc,
      0x324cd5f6c929b3cb3db3da8b2011640595dd6e9fb9e00bef7f14fdc307ce2325,
      0x64da00bda4fadd7a862a1465d293769957a6f1ab2dd848c4a9433b847fa35845);
    e := SquareTimes(e, 0x64da00bda4fadd7a862a1465d293769957a6f1ab2dd848c4a9433b847fa35845,
      -0x1161d4791f32aa1699f9b78d6e424d54cbbd294e23d3c37baed18e96e7f812bda,
      0x7ea271786d5d984deaddcaaeb2e57123b32c7e63909cd867562dccb77de912d7);
    e := Square(e, 0x7ea271786d5d984deaddcaaeb2e57123b32c7e63909cd867562dccb77de912d7,
      0x3ea44ec65a5e1594ccbbfc86d74aa5d523651ba2d9b0d14140b1dc70ef87d504,
      0xeaef82231869d0509f2f3d8d14363a708fe2572a68b04044a11528016824e4d5);
    e := SquareTimes(e, 0xeaef82231869d0509f2f3d8d14363a708fe2572a68b04044a11528016824e4d5,
      -0x5e53b15e6da34d00a82a318b20910c2db9616779d7210b3f4ba00f5cee571bb49,
      0xb64d795f3dbbe8b860694fc2bbb6f5bd2c1a8c2317ae44167b1dbbc3cdc78dd8);
    e := Square(e, 0xb64d795f3dbbe8b860694fc2bbb6f5bd2c1a8c2317ae44167b1dbbc3cdc78dd8,
      0x81d24005a89d7dbaaa57d793a87a16da04cfaf07382163e3a1dceaeca3c6346d,
      0x13c7adcfaa4326448a6f7af558d45374c988df1e186449b1bf77a153cbd5ba3d);
    e := SquareTimes(e, 0x13c7adcfaa4326448a6f7af558d45374c988df1e186449b1bf77a153cbd5ba3d,
      -0xab2bcd78ef504927ea2d3ad7ddb10f9fa785cc584e515b372d83ec909fe49da,
      0xb62399f8b6acb094f272ea2dd2b17beaeff1edd692db29fc09c3136f93914547);
    e := Square(e, 0xb62399f8b6acb094f272ea2dd2b17beaeff1edd692db29fc09c3136f93914547,
      0x8196a3e11a5aba48ed77da59d55acac55f0b3c08765ad177e2bd79eca9ed849e,
      0x8414448c2f8c9eb4079299710dda0ceb1cedb0fc9ad6ccf464889a639aa478af);
    e := SquareTimes(e, 0x8414448c2f8c9eb4079299710dda0ceb1cedb0fc9ad6ccf464889a639aa478af,
      -0x1dd025a0f710e85a06431a71f932c3948e921eedf1047deafc9f0ae919737312c,
      0x9d506fddbb912c2a0fa1e94cba15358e9f3a9e32f46a387e26ef51ae2295a1ad);
    e := Square(e, 0x9d506fddbb912c2a0fa1e94cba15358e9f3a9e32f46a387e26ef51ae2295a1ad,
      0x60abc27c1387539c77d6805fd42a6553408ea628c6844957e6cbaf500f82cfe3,
      0x5057481ca4c650f640c86bc173029d3d28b3812a026b15ccd4443801bfb8703c);
    e := SquareTimes(e, 0x5057481ca4c650f640c86bc173029d3d28b3812a026b15ccd4443801bfb8703c,
      -0xb07eabcbf75c78fea3e982b153762d9cb2d91cc42626d2e4ee54b1fecf585697,
      0xf433fe2f55cf611b52f874351a91c838afe30ae892d6c69c5f6d522e43ada749);
    e := Square(e, 0xf433fe2f55cf611b52f874351a91c838afe30ae892d6c69c5f6d522e43ada749,
      0xe8f327197ed178c4eaa7ebab59c16abcf59986b9b534e26ef20eb9ff3ccbd220,
      0x943a57a122c555ef7ec0026f4a51a3436fe0395ef959e0214ca0e6cec1d73ef1);
    e := SquareTimes(e, 0x943a57a122c555ef7ec0026f4a51a3436fe0395ef959e0214ca0e6cec1d73ef1,
      -0x258c89252f67fe6df26ef4d0ef07a6087865e9fa219ed4e7f532943e7fd38331e,
      0xda606be6d020adfb311487c9001be310e3c7575a7644692e198f7051748f925b);
    e := Square(e, 0xda606be6d020adfb311487c9001be310e3c7575a7644692e198f7051748f925b,
      0xba485c16350e82e841597fefaa20af7e2c249aea11e50fd48bd394b7006c83c8,
      0xf191e6899ddea2a7a4415e739764dd169e75d382ba0fe078828dbcedeb78daa1);
    e := SquareTimes(e, 0xf191e6899ddea2a7a4415e739764dd169e75d382ba0fe078828dbcedeb78daa1,
      -0x63bac327a832f1ab80d951f1a32b10c36811bd44067b310102861b1e284440eef,
      0x38f85319338abb596e9c230853b79aa84c0524263933eee989236bc742b4d11a);
    e := Square(e, 0x38f85319338abb596e9c230853b79aa84c0524263933eee989236bc742b4d11a,
      0xcad953c2259e8a92e9fc4dc8592026ff9595cf10dc1e7912581f640bd9772ce,
      0x2930781b29d36715cbb777c0e4f3dfae64bfb7691815a29fd0facdd5ae589ad2);
    e := SquareTimes(e, 0x2930781b29d36715cbb777c0e4f3dfae64bfb7691815a29fd0facdd5ae589ad2,
      -0x2e63ed89b98822b9be7726582d546511d8e337cd272ad727b0b23acd92848ae5,
      0x1c8aa55ff10ca0b48057a740cd98f8cb0b2d8a1822790325333f5c80ea209e2f);
    e := Square(e, 0x1c8aa55ff10ca0b48057a740cd98f8cb0b2d8a1822790325333f5c80ea209e2f,
      0x32e9f43b2ff7573d02e45b20cf1fb4a6b71aa93067a06b14e65a1884e5b3f6d,
      0x33a19d57b770dafd4a25a5f0d2d63cdad14064c181d324117dca54f5e3bb1b9e);
    e := SquareTimes(e, 0x33a19d57b770dafd4a25a5f0d2d63cdad14064c181d324117dca54f5e3bb1b9e,
      -0x48e48b09a4e2d9d4ea3e47e40f0c8d937aa53acf70df6e0147c9651343010dff,
      0x7e9bda122537a5dbb6fcb679b58e545d0db433a9579442034e14da695a529f35);
    e := Square(e, 0x7e9bda122537a5dbb6fcb679b58e545d0db433a9579442034e14da695a529f35,
      0x3e9dc98ba85ec15327e7023b1b2d8b83a30ae03c26a508e6cd12ff3828e57c6e,
      0x6e985277992760cba4a4781a6f6b06ea654e0042a111667e97891d7b8c6c0c7);
  }

  lemma Chain2() returns (e: nat)
    ensures e == 0xaaaaaaaaaaaaaaaa
    ensures PowMod(-7, e, P) == 0xdc69235e1a6da4dff84271dd7ee53e9f87caba951b3d35b9a3ea95acff7a0b5a
  {
    hide PowMod;
    e := Chain1();
    e := SquareTimes(e, 0x6e985277992760cba4a4781a6f6b06ea654e0042a111667e97891d7b8c6c0c7,
      -0x14e72ca85b16fd38870ebc38ac10900fb0d9aaf04a264d5de51a719b4168233,
      0x1ec0cf742394e6d8d24a97b9020a34778b3e22d913b47f5ac735f2ece31f6086);
    e := Square(e, 0x1ec0cf742394e6d8d24a97b9020a34778b3e22d913b47f5ac735f2ece31f6086,
      0x3b1c1d70ea94bb027bad1c12b5201cea9c4618e8ceb8694c87624e635e0c194,
      0xc27d582f4c514c562487cd104e8ba38f13f1e22fd14d20986a178c3dc79b8bf8);
    e := SquareTimes(e, 0xc27d582f4c514c562487cd104e8ba38f13f1e22fd14d20986a178c3dc79b8bf8,
      -0x40a4f813075a61614c805db240b77085275e1626d59c0c35ce01ae7d7acc5c23a,
      0xbf43090ce5dd42cc78a925f1b49f0f2fda42e4188e65db91549d63872562fee6);
    e := Square(e, 0xbf43090ce5dd42cc78a925f1b49f0f2fda42e4188e65db91549d63872562fee6,
      0x8ee5190efc12644dfce9cb8df2e574bd273162b0a22a624eddcd993f8219a9d0,
      0x54f67dd2b112cde7b742a0b075d51202697e7791b04badbe9ae003ba25d64974);
    e := SquareTimes(e, 0x54f67dd2b112cde7b742a0b075d51202697e7791b04badbe9ae003ba25d64974,
      -0xc562cf5a44c89721fc073d26a22982e606ee754cf6e40d56870adbb165dfd8c2,
      0xacc5e9439ec70e0ee455ef3a3b3d0a199e075e7595fa1a724dca070f479e3bae);
    e := Square(e, 0xacc5e9439ec70e0ee455ef3a3b3d0a199e075e7595fa1a724dca070f479e3bae,
      0x749a8a73b3fa02227c01ad499f731c910efe328674b8eb895d4ddba17552c890,
      0x7cc3e49aff964c5c60ffdb61036ae6a25f08b21431514e4785e5a50cfda117d4);
    e := SquareTimes(e, 0x7cc3e49aff964c5c60ffdb61036ae6a25f08b21431514e4785e5a50cfda117d4,
      -0x1a9a47f85871c02624b0dc229bfd5264531d55bfb45dfab5bbfa3494171342f80,
      0x86207adc11ebe5e9c81feabdf7ae9c7d6d42687952ea876e1f7fd56e3b84390);
    e := Square(e, 0x86207adc11ebe5e9c81feabdf7ae9c7d6d42687952ea876e1f7fd56e3b84390,
      0x464604bd54bdededddca9c30e7a6fb5bc32e52baf1b6c61d8cdf09c989d5f0,
      0x2d9ddffc76b64c5052cf2fbee490f6b03a9f49c8d4fce1ce0ff15b7cb7de29f0);
    e := SquareTimes(e, 0x2d9ddffc76b64c5052cf2fbee490f6b03a9f49c8d4fce1ce0ff15b7cb7de29f0,
      -0x38e62ebec99c8f9195c014662822f0c4c2ea8e8d019d3b77f4d8e804ccf1cf93,
      0xc4f2d362475071f1cdfeda4b67a3277702cdca1b6a4eaaa016744d4da34f88fd);
    e := Square(e, 0xc4f2d362475071f1cdfeda4b67a3277702cdca1b6a4eaaa016744d4da34f88fd,
      0x9784ba02d18d29daf9e143478a54ac15e431d0effb0e1d2ff1f38969b7724738,
      0xee2b80effa06988619b0bbf5327da2231de5fc65541da50d3998af071e9596c1);
    e := SquareTimes(e, 0xee2b80effa06988619b0bbf5327da2231de5fc65541da50d3998af071e9596c1,
      -0x60f126df36d25c993d4ef23083eca52fd1f1679bacda0be6b5e3c47224b3f5aa6,
      0x76642075f002707de9038e8531f42ce4bc5a6fcc425ca26be2ca94645921ddf3);
    e := Square(e, 0x76642075f002707de9038e8531f42ce4bc5a6fcc425ca26be2ca94645921ddf3,
      0x36c07516198373f1d48c32740b4a6b7b1ac48d238b3cacc737e2d23ceeac7a2d,
      0xf7565633453e10f5a75c2c06562bbc713ed0a87f7e11ef6370ebc35dcf51ba66);
    e := SquareTimes(e, 0xf7565633453e10f5a75c2c06562bbc713ed0a87f7e11ef6370ebc35dcf51ba66,
      -0x688c60432c19f72868bfa69c36a374b402f5c70b3d0b73f8c544b487165490f22,
      0xb637c5d83cb379caaad30fc65e5b5b6146b52d46e9ab8d3f15d8d29b624e9ac2);
    e := Square(e, 0xb637c5d83cb379caaad30fc65e5b5b6146b52d46e9ab8d3f15d8d29b624e9ac2,
      0x81b35976121fca5d36ad90f27b4765a200c2190191299184c789f4e17d7da39e,
      0xfc61cbc58dcfd39be7d2005727d4654198c05e46351e45bd253329b920436902);
    e := SquareTimes(e, 0xfc61cbc58dcfd39be7d2005727d4654198c05e46351e45bd253329b920436902,
      -0x6cdb4c5beebb2b42f3de6849f344fc6cb10a653de58d52f16481e8968fd590feb,
      0x273891888b802b3da703c7ce0a994f5422338b8aa2cdb9f02e9f3425b043c409);
    e := Square(e, 0x273891888b802b3da703c7ce0a994f5422338b8aa2cdb9f02e9f3425b043c409,
      0x60248d798fa0c1b690a705c260defe11d6bb72660afb6734c78afcd7b1f3ae5,
      0x55c4e46e4ba9ef4cbdc0df641ba8f4008c1cb96d72a7347d077bbc2e75038c46);
    e := SquareTimes(e, 0x55c4e46e4ba9ef4cbdc0df641ba8f4008c1cb96d72a7347d077bbc2e75038c46,
      -0xc92661dec4c37fee5f33f689b6a162479a90042d91a801264087653d3b8f4c98,
      0x3148f610e2febfa9a867af48804ec66720e663bcff3feda1d75910bfb09839ec);
    e := Square(e, 0x3148f610e2febfa9a867af48804ec66720e663bcff3feda1d75910bfb09839ec,
      0x97d02fdcce9aa09835f38311d3b6ce0d96743c1c4107f645cef6363132ce0ce,
      0xc0ebd9fc012965790c2bc908b8b62e2b43f49606e5c665007314c63b83a0e3be);
    e := SquareTimes(e, 0xc0ebd9fc012965790c2bc908b8b62e2b43f49606e5c665007314c63b83a0e3be,
      -0x3f9b261db9025f5c25a2c8698c24f9353c9f8b499c4748b77187e191a71401c07,
      0x1c69f91373611217d94f99f795940e5d284990b60b92fb60cb87a5559b822d);
    e := Square(e, 0x1c69f91373611217d94f99f795940e5d284990b60b92fb60cb87a5559b822d,
      0x3275a5a8588b98338b51c51b5bd21c17595649a04b2c33b94bd004f5375,
      0x116c7c44bdd9cf7186918bae9f525aeb6f883454869c4c89c471dfadf56d3d6e);
    e := SquareTimes(e, 0x116c7c44bdd9cf7186918bae9f525aeb6f883454869c4c89c471dfadf56d3d6e,
      -0x84d1d5784c475efa3e2b98d82bffb717de2bf8dae671e6772355ec9e210f5bd,
      0x7cb630d3049cf37fef7a3207c1fc0a20ebf3acedc04ae03cf4c9b3b9d462ead7);
    e := Square(e, 0x7cb630d3049cf37fef7a3207c1fc0a20ebf3acedc04ae03cf4c9b3b9d462ead7,
      0x3cc100f5e1d26ab9a00588bee8292cc5426aa5f3110a6ddb9bd6e0eb841191f2,
      0xe6706f31e7874bdef77023ef1c701c058c153656871ff1b6dc5404afc317bd23);
    e := SquareTimes(e, 0xe6706f31e7874bdef77023ef1c701c058c153656871ff1b6dc5404afc317bd23,
      -0x5ac03904a17f2168da6dcfd57e63e569ca203e52174e4be026db0344505193b8f,
      0x5614dfe2880585fb8811f42d74d8ec345c262c0a97bf4a1d115b51b29484cfc2);
    e := Square(e, 0x5614dfe2880585fb8811f42d74d8ec345c262c0a97bf4a1d115b51b29484cfc2,
      0x1cf2081ff2956850002bf881fb3c0916e9c87d3b3994e00e700d0f2fdfb6d46f,
      0x45e100d7828bf521b8b18491a893083a1de5074165a918cfe3cd4d0b016c0aa3);
    e := SquareTimes(e, 0x45e100d7828bf521b8b18491a893083a1de5074165a918cfe3cd4d0b016c0aa3,
      -0x8585717e92696b174775c360fc12ba7249b4042345d24c4253efa06be7d16454,
      0x526d5407bba91c0775cc15b78b4f5161b0fd150db1a474a43572700a8a1020ed);
    e := Square(e, 0x526d5407bba91c0775cc15b78b4f5161b0fd150db1a474a43572700a8a1020ed,
      0x1a8a38859e6337596d05fa135df8664eac4abd2bfe84284f7bb2eeadecfe0a28,
      0xc23dd6dd868a9cb7f12ea6c1b2bc3d3782f939a595d09ae9a87a46f51b60de11);
    e := SquareTimes(e, 0xc23dd6dd868a9cb7f12ea6c1b2bc3d3782f939a595d09ae9a87a46f51b60de11,
      -0x407ac7c26f4c7317f80ba1e537f048b0d2de4569184c1890e907b6da73061f8d8,
      0x2401ae38f555e086e610df661f160f4792051c4ab67a5f12e4ad17da226ee3c1);
    e := Square(e, 0x2401ae38f555e086e610df661f160f4792051c4ab67a5f12e4ad17da226ee3c1,
      0x5107902d8038bfeafa9a34b21786de8d6bc538a89065f8d924a2a7a6481db3e,
      0x61ac3ae627b00ff84fb9d46fc432bf792679c1ef4931687e2d22f935c118f1f);
    e := SquareTimes(e, 0x61ac3ae627b00ff84fb9d46fc432bf792679c1ef4931687e2d22f935c118f1f,
      -0x104dbcb8b4a48f31f3edbfeb4b04c3c41f5e77993858a7c1345476eee228306,
      0x28209720d1332539e37876445b176c9f67a1500af6e8d3398ba540e6f75e6dd3);
    e := Square(e, 0x28209720d1332539e37876445b176c9f67a1500af6e8d3398ba540e6f75e6dd3,
      0x64a336062cc036ab336a8e44715684c04275754d97896f664202565eef19baa,
      0x58fe3a91514a7da566949cfccbc00ba63d1ae4447aeb8bd653c8794e8246fb3);
    e := SquareTimes(e, 0x58fe3a91514a7da566949cfccbc00ba63d1ae4447aeb8bd653c8794e8246fb3,
      -0xd88e61253f8edaa9e31aa314e1df2aab7083206c6c88128461ea45b37ddf87,
      0xe79f5992641fd9a657ab5f1eb108e863a06a71066a13623e345d0832af0cebaa);
    e := Square(e, 0xe79f5992641fd9a657ab5f1eb108e863a06a71066a13623e345d0832af0cebaa,
      0xd190f6d693e0f7af0faafd3b170c5d15f244da62d70cc49c6562ea68c46ca296,
      0xdc69235e1a6da4dff84271dd7ee53e9f87caba951b3d35b9a3ea95acff7a0b5a);
  }

  lemma Chain3() returns (e: nat)
    ensures e == 0xaaaaaaaaaaaaaaaaaaaaaaaa
    ensures PowMod(-7, e, P) == 0xbb208bc0b52bc9ffb9d5f71df4c402bd91f3e2c9c38584bd3a8f0bc16c10fb16
  {
    hide PowMod;
    e := Chain2();
    e := SquareTimes(e, 0xdc69235e1a6da4dff84271dd7ee53e9f87caba951b3d35b9a3ea95acff7a0b5a,
      -0x530621fc66686f9f92d4467294376797ed9b142cd8397c014544cd1d5ab72f759,
      0x97c524445894e44499d178e9fae6ac27c0902ca95dee58f88e7f8c0eda4003db);
    e := Square(e, 0x97c524445894e44499d178e9fae6ac27c0902ca95dee58f88e7f8c0eda4003db,
      0x59fa289976d345994cfd1c44a3fe72ade36cd814473cbb35d31f9379b65a0507,
      0xf72b44b8be55bf5652d512eee8f2ff1586c563539743e391d66ee30ed71c0d10);
    e := SquareTimes(e, 0xf72b44b8be55bf5652d512eee8f2ff1586c563539743e391d66ee30ed71c0d10,
      -0x6867fa9789694813df8d70ca0d3e99784ad5ca8dafe79864c65ccce8cfa7fc74c,
      0x187e402cec626f294b3d95f333fcdca9c8728f1760bfe4fcd1bc6951d92dfff4);
    e := Square(e, 0x187e402cec626f294b3d95f333fcdca9c8728f1760bfe4fcd1bc6951d92dfff4,
      0x257ea4ba8a1a3d07e721b5b4be7b96927e5a24aa430a358f38ad344c993f1ec,
      0x93d932c1639786674022f7a1bf6acc67447a7d4881e517ed78156008f14e463c);
    e := SquareTimes(e, 0x93d932c1639786674022f7a1bf6acc67447a7d4881e517ed78156008f14e463c,
      -0x255b61bf8440cc99c92e8f4515c4cd029ce48b882548ce7cf45e5358bc964e39e,
      0x202212dc5658180e6523c7adade32b9aded1c6a83a1294e952c8be737f253f92);
    e := Square(e, 0x202212dc5658180e6523c7adade32b9aded1c6a83a1294e952c8be737f253f92,
      0x40889401980af32e5067cdd8b4ae0bd02f8308a3157629367859814ffb9adcd,
      0xff46059646ff31da8c8366ca0f375c910661c517175802ab5ace59b3f9d7aa1);
    e := SquareTimes(e, 0xff46059646ff31da8c8366ca0f375c910661c517175802ab5ace59b3f9d7aa1,
      -0x6f5d7fffb0e350f114afced3ef94efef91385c35cebb99286c22c8d94c324c1,
      0x2f864be0ceacea106354b7158bfc61ca9ccb1d33bbd2f29a2682dd9413b9caa8);
    e := Square(e, 0x2f864be0ceacea106354b7158bfc61ca9ccb1d33bbd2f29a2682dd9413b9caa8,
      0x8d2965011b9597ab43b0c48c76004f9c2b9c490a9f4959c43651ab7a1bc1209,
      0x523d00842d1607ae2ccdd6c2fdff9c088d3803a78c29b6c621748604b5fe6299);
    e := SquareTimes(e, 0x523d00842d1607ae2ccdd6c2fdff9c088d3803a78c29b6c621748604b5fe6299,
      -0xb8edf411731f0fa45e913b3c28d542da04735885580d7f66e8b9cb856515ff96,
      0x3c45561a0856748715e854c5b1c91a8d618f99926364660f5165956e21f51873);
    e := Square(e, 0x3c45561a0856748715e854c5b1c91a8d618f99926364660f5165956e21f51873,
      0xe309323bae68579eb36a99ddb3a16fdca4ed0d254aa68479b3bf2b1535e84a1,
      0x73a71e1dcb6b56cf36972e227768fb5717e38363013db539557db729a02bee1a);
    e := SquareTimes(e, 0x73a71e1dcb6b56cf36972e227768fb5717e38363013db539557db729a02bee1a,
      -0x16dbcff118639d4441fe2d7ccdfd369a9b3aff6fed12b8a8f9c231ea42d7f9066,
      0xf42669fb0ea0c77576f11527c6479d760f86afd81bbe9cc9e9dbd493e4d7703e);
    e := Square(e, 0xf42669fb0ea0c77576f11527c6479d760f86afd81bbe9cc9e9dbd493e4d7703e,
      0xe8d93fca364abc28b5565699e1205e8ce62af754ea5e325a4f9f682d1b1b9d1f,
      0xaece57bd92d07260a3a5c95d35af46c489f96062f85e5f934e6e3db39dbcf253);
    e := SquareTimes(e, 0xaece57bd92d07260a3a5c95d35af46c489f96062f85e5f934e6e3db39dbcf253,
      -0x3438c07212f323fdaa1f81a93b822180692540dcc3579eda1ca7ba239a6ca1d68,
      0xf5fc1fa3559477d66c910be2c922ebe83d04c46b4728b168bbbda94e29a695b9);
    e := Square(e, 0xf5fc1fa3559477d66c910be2c922ebe83d04c46b4728b168bbbda94e29a695b9,
      0xec5c8cdcef47a09c66a5d558092dc9f06eff154270f6b746f2bad44db4fdcda5,
      0x9fcf2bbeb5cb14a3dd96cb92fc998e7a6630fc8f48baebf2c324514c821ab266);
    e := SquareTimes(e, 0x9fcf2bbeb5cb14a3dd96cb92fc998e7a6630fc8f48baebf2c324514c821ab266,
      -0x2ba54fff6b1f928688c250ef1de245c365462a675c2323ec23f2c8f23e212823d,
      0x799afeaca608629f6d62728e88ed5a43f4ff8287c0bab43d40000a170016f0b7);
    e := Square(e, 0x799afeaca608629f6d62728e88ed5a43f4ff8287c0bab43d40000a170016f0b7,
      0x39c3e2969a06bd3987de6e33fa5ad9e446a53b7c7ccc3304f419e6d69812f09f,
      0x45c39752cacaf5571b11eb0ccfa6a03aaa65aca95335f2627dda7889a213f1a0);
    e := SquareTimes(e, 0x45c39752cacaf5571b11eb0ccfa6a03aaa65aca95335f2627dda7889a213f1a0,
      -0x851523119443dc30cbac3ec534aede6340f5d1b2e0ae1db9d54bf87c8d8c702a,
      0x75980c7a5afdd1a62211fbbcf886d3b8f281199417ba46b10aa13437fe6173b6);
    e := Square(e, 0x75980c7a5afdd1a62211fbbcf886d3b8f281199417ba46b10aa13437fe6173b6,
      0x360455b6a913c20d7657be10b254b10a00ccf40f8e484b276e2a71ee844c9f2a,
      0x505ce52aeedfffdbba9930518a08982648280b7e6f872c4a98dc9d5af4a474ae);
    e := SquareTimes(e, 0x505ce52aeedfffdbba9930518a08982648280b7e6f872c4a98dc9d5af4a474ae,
      -0xb0975692711eb4509adf4fd10d7c0843ff06d91bf4dcb35e2362f3d90dfbadf4,
      0xdcb31963dbb61a9fc3c8e6607d7538c6e90ce3ed0e7a6a85382e1dcbe5aa13f0);
    e := Square(e, 0xdcb31963dbb61a9fc3c8e6607d7538c6e90ce3ed0e7a6a85382e1dcbe5aa13f0,
      0xbe4450f025cae6491089f5cde3dae5ef746736eb6ccbb89f87bf01dffa8c1c20,
      0xe95ee7176128eaf778ebd28e56d7a92695da6128666ed85bc70bfb350d04d720);
    e := SquareTimes(e, 0xe95ee7176128eaf778ebd28e56d7a92695da6128666ed85bc70bfb350d04d720,
      -0x5d1313ae1907540ae56d88e45f33c4ae439ae53aed16e986f6275cb3cead720c9,
      0x36fe7ee1f87cab85441e132434f4382b06e42ab68f95daaf76c50366008c84e7);
    e := Square(e, 0x36fe7ee1f87cab85441e132434f4382b06e42ab68f95daaf76c50366008c84e7,
      0xbd05a875c20e7d20a5e541969e4f6afd17dbeaf47d813a429e4c73522ca9262,
      0x445457c77f307d5b47178e967ab670b34735c83a766ecbfc3f84736168bfb073);
    e := SquareTimes(e, 0x445457c77f307d5b47178e967ab670b34735c83a766ecbfc3f84736168bfb073,
      -0x7faa68f1f01d0450e826b8ff0f6bf49fab7a9bb3ae21d93fab34c9ca3a707b82,
      0xc7140c47595594c9a3fb47955f76e9793734a0f5a927857a0c5dff5f842e5b3f);
    e := Square(e, 0xc7140c47595594c9a3fb47955f76e9793734a0f5a927857a0c5dff5f842e5b3f,
      0x9ad02ca8d89fc6f36f0a55d6463ee06de29476ed05b50b75c9c1eb6372af4a83,
      0x61377d697b5a6e142bd5d3333861a4c935d9640e326ce52a5bf7b24b92253774);
    e := SquareTimes(e, 0x61377d697b5a6e142bd5d3333861a4c935d9640e326ce52a5bf7b24b92253774,
      -0x1026daf7771affb67370643092231e342b846fd31780191a68101768c60800ad6,
      0x9dc8bbbacbec93e5ae5ac22f46c89f4fb1b2378d2e9a0717f78a9903fe894d5a);
    e := Square(e, 0x9dc8bbbacbec93e5ae5ac22f46c89f4fb1b2378d2e9a0717f78a9903fe894d5a,
      0x613fd3a8fba93d47650543a6a1b2e697424e0e951547b5959e64a5cf24384c5d,
      0x13753270978397d3b9cd05fcb75ac960fbb479f85309d97c61f3b24b48eb291);
    e := SquareTimes(e, 0x13753270978397d3b9cd05fcb75ac960fbb479f85309d97c61f3b24b48eb291,
      -0xa5a3dfaff6968adc0a6442f171585b20c8da94d872acc79aa6a6b4c196665,
      0x1f92d5828c7dfd8566eb364dbda776896ef0cf6ff85ae4f6322e3418252a7da4);
    e := Square(e, 0x1f92d5828c7dfd8566eb364dbda776896ef0cf6ff85ae4f6322e3418252a7da4,
      0x3e4e3edd90143782005df7c2bc41e4ed96caf51f4db5dc9ff7b04c0ea387257,
      0x21262014395472712078c4d85cccb40762964c62df3d5192660d14b3c0e5ef17);
    e := SquareTimes(e, 0x21262014395472712078c4d85cccb40762964c62df3d5192660d14b3c0e5ef17,
      -0x1e0bf5a345a0f988d233928226b07a1a93c0933a4ad0796831865583e6ac8818,
      0xa48609fb7f1fdb9dce451bc13705aeb788892f0ba1aa900f818845d26eeff1);
    e := Square(e, 0xa48609fb7f1fdb9dce451bc13705aeb788892f0ba1aa900f818845d26eeff1,
      0x69bc02f8ae8d8cbede86dbb97384cb05ac5718921729799d92afc1252490,
      0x6c12cf646ff3625e6924ac5188245dd24c638dbfa35551a5ee1b8ef496c06a71);
    e := SquareTimes(e, 0x6c12cf646ff3625e6924ac5188245dd24c638dbfa35551a5ee1b8ef496c06a71,
      -0x13f5f2295f42cbfb933358f47b112f195bd6361d6dac095cf1b3aa047e67f38cb,
      0xfe42e2d1c653818700f6edab10a6ee8e979fbb6796add6ab005cdf70882bd81e);
    e := Square(e, 0xfe42e2d1c653818700f6edab10a6ee8e979fbb6796add6ab005cdf70882bd81e,
      0xfc88cb9202af06278e37a2afa4a3e01b7ed1736c7b04736e7330fdec75b5fcf2,
      0xbb208bc0b52bc9ffb9d5f71df4c402bd91f3e2c9c38584bd3a8f0bc16c10fb16);
  }

  lemma Chain4() returns (e: nat)
    ensures e == 0xaaaaaaaaaaaaaaaaaaaaaaaaaaaaaaaa
    ensures PowMod(-7, e, P) == 0x78747cbe5e7cc7d66a04b576afea34a43bbd9e5752ada838c31cab342d1ea756
  {
    hide PowMod;
    e := Chain3();
    e := SquareTimes(e, 0xbb208bc0b52bc9ffb9d5f71df4c402bd91f3e2c9c38584bd3a8f0bc16c10fb16,
      -0x3bd7bf227640ab5035cc6e544353532514703244a9477dbf51fa19bf9e06a0bd5,
      0x18c17ce17b80d28fbb47c5120090780b17d9f86163b598effc2bfe792c2bcedf);
    e := Square(e, 0x18c17ce17b80d28fbb47c5120090780b17d9f86163b598effc2bfe792c2bcedf,
      0x264d9a7d00f95f78fd840689b3429a0e87d9cb96a2f0c183acb38b556b8100d,
      0x5cae003bbb39aafee759ad2d94a62b4873e107ea01c3388ff6c0a586c28ae7de);
    e := SquareTimes(e, 0x5cae003bbb39aafee759ad2d94a62b4873e107ea01c3388ff6c0a586c28ae7de,
      -0xeadead0abe5c16a0741b74b9a0fc4a1d020d3e40fee8fa1ef149cd8c9419a2fd,
      0x3ad744cf99b5243aa33ad5f1250caeac84813ba4c06622644934c91ae4b038d7);
    e := Square(e, 0x3ad744cf99b5243aa33ad5f1250caeac84813ba4c06622644934c91ae4b038d7,
      0xd864032b8d934af96ee98ca31cbc25fe94f8bdc110b0c3efe28861af1ae965d,
      0xeef4476f4c15903790fcb1f4abc593569a57b598f4c06c6c9905eb6a878a9d7e);
    e := SquareTimes(e, 0xeef4476f4c15903790fcb1f4abc593569a57b598f4c06c6c9905eb6a878a9d7e,
      -0x6194dd16e5af060f0d3b6867c38949851b115084dd0247fd48afb413f73c828ea,
      0x4a2860f975720c2af1872206e2e7fa838113785f3d325a83b4f92565abf954da);
    e := Square(e, 0x4a2860f975720c2af1872206e2e7fa838113785f3d325a83b4f92565abf954da,
      0x157b5e6eaa96add7d7eaec83e75310331bd132d1c30306a488504823000bf052,
      0x2e4be146ff7bdf61dafcaaaa1c38d257903e64d8dff0779c134e401a95c3f296);
    e := SquareTimes(e, 0x2e4be146ff7bdf61dafcaaaa1c38d257903e64d8dff0779c134e401a95c3f296,
      -0x3a9b80270398a57f97e11988c4711ea992726c04e2f706ed998a93d1c920b70c,
      0x5ac075f5642d86b340f3beadbeac3cd1322eb2d69730ae4f702f7378e969dbf8);
    e := Square(e, 0x5ac075f5642d86b340f3beadbeac3cd1322eb2d69730ae4f702f7378e969dbf8,
      0x202be3a1b0e07fca9a04157dfa284e228d58a62411881c13c5f3481671c4827e,
      0xe64d489119aa20888626f89285bcd2d1c0f8674d187982c56ffb86d5cd68431e);
    e := SquareTimes(e, 0xe64d489119aa20888626f89285bcd2d1c0f8674d187982c56ffb86d5cd68431e,
      -0x5aa48b81239cf885aab715164288b9fe131df170bbe3ff8c224d027d4a6395b0a,
      0x88fe4af3b1bbd520f721a3eb6824721d95b628f77d5306473b8bf143154e8a3a);
    e := Square(e, 0x88fe4af3b1bbd520f721a3eb6824721d95b628f77d5306473b8bf143154e8a3a,
      0x494f2c3bbe5e0de9713116e8a7c019fc5a9d8fa605a2edb5fb90dafabae7b171,
      0x47ff15d4a8411aefb02681e5be16a48629444c121210295eaedaf1765836c565);
    e := SquareTimes(e, 0x47ff15d4a8411aefb02681e5be16a48629444c121210295eaedaf1765836c565,
      -0x8dbc65fb31e7344cca5227ecefc57e2504292e9107a704ffcd78dda7831ec4f3,
      0x150d725f2236157522581af8531ad62845eff3468908c3fefaac71006fde27ae);
    e := Square(e, 0x150d725f2236157522581af8531ad62845eff3468908c3fefaac71006fde27ae,
      0x1bb35786c5f36d5f95a9a059c9a57be249e62c5d145faac6a39bac4d6f92fd1,
      0xb678a326884c7f34c461d69b7f007c310101e34a1f6ad2d5b704fc3b28edf6e5);
    e := SquareTimes(e, 0xb678a326884c7f34c461d69b7f007c310101e34a1f6ad2d5b704fc3b28edf6e5,
      -0x38e6e45cd094e7baf1dc4d8672938075f8fcfc1767fbb7f77308a4bda4f0c0560,
      0x366f4512244c2ca05cd58c8775f487e1b8dc1a6a37e24216f4ef5f1be4471eb1);
    e := Square(e, 0x366f4512244c2ca05cd58c8775f487e1b8dc1a6a37e24216f4ef5f1be4471eb1,
      0xb9321809fae65bc8a24d448d01eeeb295e12bd48a9a7a3c8b08d92abc63d5ea,
      0x3be0641422ed3ecf8d3f4bf31332f2339229a3578db76a68cafd3bc64adf586b);
    e := SquareTimes(e, 0x3be0641422ed3ecf8d3f4bf31332f2339229a3578db76a68cafd3bc64adf586b,
      -0x620863b4013b8102e09765bcbec4acda075ecb75c1f70f3497e9eedca5f1c07c,
      0x64ba7c41d2c96484aca80bdebcb0ec364b46bab2be2db13042d7d5038db63db5);
    e := Square(e, 0x64ba7c41d2c96484aca80bdebcb0ec364b46bab2be2db13042d7d5038db63db5,
      0x27a238ec38a3784d88e2c77266fcf68abcbc41dd614a91a15356c837fc815835,
      0x9c16048b40b239a850170e52d52839fd1c63e3f87682e891e8205bd2d7dd643e);
    e := SquareTimes(e, 0x9c16048b40b239a850170e52d52839fd1c63e3f87682e891e8205bd2d7dd643e,
      -0x29a2be405780adab3839f5740762fa63ff970fe85371ead92e566423609c3c351,
      0x3c9e4c3628df016375802cf60462463cb9038ff7ae0a1b729cea778f27cc1ec3);
    e := Square(e, 0x3c9e4c3628df016375802cf60462463cb9038ff7ae0a1b729cea778f27cc1ec3,
      0xe5a959b8cb32fa6034735b6fe813589aa3d301958614f2e524a3b796301bbc9,
      0x3fb1a6c7d6ed12e9d73dd8454b408718f83af24fdb39e0a0959e32064e17f2a2);
    e := SquareTimes(e, 0x3fb1a6c7d6ed12e9d73dd8454b408718f83af24fdb39e0a0959e32064e17f2a2,
      -0x6eee6f94dd75a515d9e7b8c4e1f6f701fa23da850459639f0b5897ef5706e2d5,
      0xd3ff7dcd9b420599deef9e86a3c7feb1685b848c417b83f60e0478ee5d358b7f);
    e := Square(e, 0xd3ff7dcd9b420599deef9e86a3c7feb1685b848c417b83f60e0478ee5d358b7f,
      0xaf8f285ccb5c91834d6760a40635d28fd4fdc2f667d876247af3ab9948f3420b,
      0x790acb7fa5e63b7970cd6693e3149a4a9086ac875889b928692388bbbcf834fc);
    e := SquareTimes(e, 0x790acb7fa5e63b7970cd6693e3149a4a9086ac875889b928692388bbbcf834fc,
      -0x1909e71c661f20cbe38b642e6acef66b1de5e4437634878aa327c379a67975f92,
      0x7543ae7261cdf8bec5f90873771684dbc415aeb0e93cd3111d31ddc2e0c8db5e);
    e := Square(e, 0x7543ae7261cdf8bec5f90873771684dbc415aeb0e93cd3111d31ddc2e0c8db5e,
      0x35b6ef595425273dd3c3dd53b5d55eef193acd722228fa6dc0b3add6525a3083,
      0x527a2453022eb7ea86682b305bf451793f6a7a1bcf131c3a469d8367490d1a77);
    e := SquareTimes(e, 0x527a2453022eb7ea86682b305bf451793f6a7a1bcf131c3a469d8367490d1a77,
      -0xba0152d2bbb03927a5b9bf9c1a71d5d00ba653052193d83d457574922f040c47,
      0x50aa5079a8b648f199efaced5ea29b543f75775abcfaab4808ad252c9bcc6dd2);
    e := Square(e, 0x50aa5079a8b648f199efaced5ea29b543f75775abcfaab4808ad252c9bcc6dd2,
      0x196ae39b045242f2ba2df4883d6762ef7b2aa43bca045665c467abb227bc50c7,
      0x9d0079580081c0b1ab9a8d529d72c9c280d9e777783efe2d4a0c381c277cc7bb);
    e := SquareTimes(e, 0x9d0079580081c0b1ab9a8d529d72c9c280d9e777783efe2d4a0c381c277cc7bb,
      -0x2a20311db26f8339280e9ca503b7de10e49bff7755cc5d41a76ba893af1e354c0,
      0x5b6beb0caee7a991faaabe223ac41dca153d3d468868bacd541d9f375683bd11);
    e := Square(e, 0x5b6beb0caee7a991faaabe223ac41dca153d3d468868bacd541d9f375683bd11,
      0x20a5e69958c331f3b6c691f225fdc30526aa40b7b0b1c6a39ae41688c1878e3b,
      0x505ec177cb7e3435d6c92ef460adda644056326633a857ece8eb0460d5dea4c);
    e := SquareTimes(e, 0x505ec177cb7e3435d6c92ef460adda644056326633a857ece8eb0460d5dea4c,
      -0xb09f83eea5932765b31e1a237e0f5f9082954702743f8e7935121693914936,
      0x76d29134e9e70f096929eefd27fe0323763303a3f6948bd613318df24ef66afa);
    e := Square(e, 0x76d29134e9e70f096929eefd27fe0323763303a3f6948bd613318df24ef66afa,
      0x3726cb0f54cdbcd8f3005ffcf743df296fb6d8e1d18e203d02e8961c615646ab,
      0x4f7c824bb2ba55705a730003de494d8e4ea5a67324b793775ec3e404976faebf);
    e := SquareTimes(e, 0x4f7c824bb2ba55705a730003de494d8e4ea5a67324b793775ec3e404976faebf,
      -0xacc292d06bb3cc06f9ccf0d8eb47bddcda24ee80fb392ee40866d06fbcb60f3f,
      0x8a5f27e532ae47ba92571f24ea3f66ce3c1659373e2a4236b7b41e7588c86f0a);
    e := Square(e, 0x8a5f27e532ae47ba92571f24ea3f66ce3c1659373e2a4236b7b41e7588c86f0a,
      0x4acaba61bcf7255331ee4147bc2f290d1bcfdf243e3bd52dfb921f9b0e47a50a,
      0xecfbf7d5e6c9099e67635df5e2ba44a51bf186bcb5795ef1e353add7cf36878e);
    e := SquareTimes(e, 0xecfbf7d5e6c9099e67635df5e2ba44a51bf186bcb5795ef1e353add7cf36878e,
      -0x5ffaabea02839c22efcc65876ec340aa54bc0715cbd4a3c5cc67156e46fe34969,
      0xf2fd448414815dbb472ac0403451d639b0acd168bca894c475435583bcb52eb);
    e := Square(e, 0xf2fd448414815dbb472ac0403451d639b0acd168bca894c475435583bcb52eb,
      0xe6a3d01a362b8bf337901cee5838829dd30f486400961681ec6e32cd7e720d,
      0x78747cbe5e7cc7d66a04b576afea34a43bbd9e5752ada838c31cab342d1ea756);
  }

  lemma Chain5() returns (e: nat)
    ensures e == 0xaaaaaaaaaaaaaaaaaaaaaaaaaaaaaaaaaaaaaaaa
    ensures PowMod(-7, e, P) == 0xbf4c432e8b0c5f8a1934c151f920ea78c501b917260c2e07a85c89e8d173a790
  {
    hide PowMod;
    e := Chain4();
    e := SquareTimes(e, 0x78747cbe5e7cc7d66a04b576afea34a43bbd9e5752ada838c31cab342d1ea756,
      -0x18cbde5aa4d3916b3b7c1009935cfc8fdaadd906a294c447610036694c83102d2,
      0xa853262afb50b125a7393fb1ad7a03a56edb8246027b87ab9373dd4ed2330652);
    e := Square(e, 0xa853262afb50b125a7393fb1ad7a03a56edb8246027b87ab9373dd4ed2330652,
      0x6ead3d1a2f69a8a7abae358766a02529caf9d512b1c0316fce31c0b6b4b8e120,
      0xa9cdd1fa9c98b655d4126fbe7cf035e6cdfcf15941d7fc3f56de88e9c2671d64);
    e := SquareTimes(e, 0xa9cdd1fa9c98b655d4126fbe7cf035e6cdfcf15941d7fc3f56de88e9c2671d64,
      -0x31469c0fff8811c6e6ea91808dd46e6442e830aa680615247e9f703b7b1867ba0,
      0x6c15f022e8ee5c9dd7b743454b5480c9feba9e2aa7af072a32d0f58de8db88f0);
    e := Square(e, 0x6c15f022e8ee5c9dd7b743454b5480c9feba9e2aa7af072a32d0f58de8db88f0,
      0x2da2847ebb84cec200d17906d9b88b3ab6471537dd633256d154c748ae580d36,
      0x2e9ef62b81bc38cc03d2964230e6a9b32663c3e0dba707f862a3766df1ea4c16);
    e := SquareTimes(e, 0x2e9ef62b81bc38cc03d2964230e6a9b32663c3e0dba707f862a3766df1ea4c16,
      -0x3b6e9636fb4ffe56095f9e2e6e4ec86e7d6334ae068d08aa865ce1eaa3f139ad,
      0xf08a9660de8c71ac3e8b861675989f0e03719d92059bcaf7319c3edf188f6587);
    e := Square(e, 0xf08a9660de8c71ac3e8b861675989f0e03719d92059bcaf7319c3edf188f6587,
      0xe20424fc1a0cee01c2fc068459d3bdb1b215aa42303185e55314f98c84c629c6,
      0x507631e7693879bc07eb40f350570663b7999cc93f3b963343b6039a9d5b39d7);
    e := SquareTimes(e, 0x507631e7693879bc07eb40f350570663b7999cc93f3b963343b6039a9d5b39d7,
      -0xb1069852b9c2e946f46baf182e1dd323d1e953808fbc491c1ba75acf7203babd,
      0xd1ac7484380d52846c1c9bdd38eb879dfc0a2f2e5e5745deb58728b1b25432bc);
    e := Square(e, 0xd1ac7484380d52846c1c9bdd38eb879dfc0a2f2e5e5745deb58728b1b25432bc,
      0xabbb0a6caa3929b90742ec457e4ee080f3ffc49ddb01e0c6ee73b3f93d5e8851,
      0x97f7ad4050e7a53f722cc58eed3318808082527e31d508db03ba7cbafb343731);
    e := SquareTimes(e, 0x97f7ad4050e7a53f722cc58eed3318808082527e31d508db03ba7cbafb343731,
      -0x2777ad20b8f9daa2782fdc6a512d9d120804d4713c152cf339fc7cc7eecd2bce4,
      0xdecbfb54eb487f773378df59ee657aa6e67be1eee45582face5c1c264f1a7a35);
    e := Square(e, 0xdecbfb54eb487f773378df59ee657aa6e67be1eee45582face5c1c264f1a7a35,
      0xc1e66a6fd77e83984e16d8c7ca695cc8fe24d4488a7598910619a368929a5589,
      0x8ad7066ca6b42b11aee94f5dc3bb0002ed2c18d449db47235b943186421afed2);
    e := SquareTimes(e, 0x8ad7066ca6b42b11aee94f5dc3bb0002ed2c18d449db47235b943186421afed2,
      -0x20f17b4be84b8b0ea881692991e4e91d39abef6f0e94bec01adb232702d262a1a,
      0xf9a3e0eb50085891a85923ae6767435020948ab24b0e48f29efbd36773b94ea);
    e := Square(e, 0xf9a3e0eb50085891a85923ae6767435020948ab24b0e48f29efbd36773b94ea,
      0xf3703471f2f4cb46c6508294784df814cc8ab2245f10d127bad172a0182d03,
      0x4c8950e501b4ceeeb55f6ca22e60f754d8f6b97227d85baebf8a4c7f82bf2e57);
    e := SquareTimes(e, 0x4c8950e501b4ceeeb55f6ca22e60f754d8f6b97227d85baebf8a4c7f82bf2e57,
      -0xa02cbbcd95c9c631ea07b8a17ac26514303700c3bbe556828f6affe2ddab2b81,
      0x6352303e300ae8ff6c0cf6bfd25d7f676e1756e302d08d21d48dbe933e494db8);
    e := Square(e, 0x6352303e300ae8ff6c0cf6bfd25d7f676e1756e302d08d21d48dbe933e494db8,
      0x2688abb30a16985236dffb3a72efc877b702c2e6855ac8102c9a4173df6d4485,
      0x9bb3f73c785bd5247d81144cb168eab4615ed12a70cd6b3bdb8507af3a8ab3d5);
    e := SquareTimes(e, 0x9bb3f73c785bd5247d81144cb168eab4615ed12a70cd6b3bdb8507af3a8ab3d5,
      -0x296e7f3505194d570b5928c003bc26e8486ed70933c5c661beb62205caad7ee11,
      0xc1be57ecdb5f5a9cd969fde2d3342d67639b3e67f4f739364871f958c2278690);
    e := Square(e, 0xc1be57ecdb5f5a9cd969fde2d3342d67639b3e67f4f739364871f958c2278690,
      0x92a08e19c48e406b04067fa88199d1b0e4c1b68404e781a66faa2ed656c8b403,
      0x2444c6b0cfb65b9254978508b22d7aea808e1f0cd4184ad33c960510ba921073);
    e := SquareTimes(e, 0x2444c6b0cfb65b9254978508b22d7aea808e1f0cd4184ad33c960510ba921073,
      -0x23f7e88331ed52630d2da3b1895976b4f6ee63e363c9aa1ef5d0b6c0f4cf546c,
      0x6245a1c14f6193a49c10369185046a3936aa4119f07c7f45ba3157dc9324c635);
    e := Square(e, 0x6245a1c14f6193a49c10369185046a3936aa4119f07c7f45ba3157dc9324c635,
      0x25b962c89930377523ab9355599521794bea464b0d61c648eda26c7638f601e9,
      0x4392730d1467734449d1f15edf72705857771e6978050584409fe319993b5132);
    e := SquareTimes(e, 0x4392730d1467734449d1f15edf72705857771e6978050584409fe319993b5132,
      -0x7cd9e401f3233d54b3925c2c062c106c12422bc574a714839bb0867bf9ee6c2b,
      0xa69c723db1749fbc1d107f701fa6b8709a89b830b37586327584ecbe1d7c6f89);
    e := Square(e, 0xa69c723db1749fbc1d107f701fa6b8709a89b830b37586327584ecbe1d7c6f89,
      0x6c6f43c3704e86348dcef4ec8b65bf841e958e15f81db64f32ae1c51c4773320,
      0xfb069f6d6ccede6e0966f1d864b77fc85d3af9cb349d17e9a3f8dc4c123a3471);
    e := SquareTimes(e, 0xfb069f6d6ccede6e0966f1d864b77fc85d3af9cb349d17e9a3f8dc4c123a3471,
      -0x6bb09e9970e77109b101f3f0de0103d432eed4a743f838bcc4dd68b44e0e32c77,
      0x86a40fed1bb14911c464a2debadce41ba1e9a3c72a16adc176d42bc0df6498b2);
    e := Square(e, 0x86a40fed1bb14911c464a2debadce41ba1e9a3c72a16adc176d42bc0df6498b2,
      0x46d029d0a1c6b87f482d3b8b254444de54f5899e44965c6fb111a87b2f0a8e6a,
      0x92a01201a801dfb1a890ab61f1798ad1b72cf881326c56de975fcd16496d5e4e);
    e := SquareTimes(e, 0x92a01201a801dfb1a890ab61f1798ad1b72cf881326c56de975fcd16496d5e4e,
      -0x24bdccc62d0caa7e8dc845f2c0e4e782b2c208542e2f9aebf9dbc2cc24d4ab0b3,
      0xeadcc2bf48e4b1b7cbb4cea347c1d915d60e0c7509209f43a011ae5e89d20681);
    e := Square(e, 0xeadcc2bf48e4b1b7cbb4cea347c1d915d60e0c7509209f43a011ae5e89d20681,
      0xd7785264fe2dd75deba9d9ca1625c060b8aaef69de8691743e5bd35462ae4911,
      0xa6bc1ba8118358e32494bf9553eae4410d8573d03ca11c57d88681e58f326e2);
    e := SquareTimes(e, 0xa6bc1ba8118358e32494bf9553eae4410d8573d03ca11c57d88681e58f326e2,
      -0x2f82b729e2bda9f94c7c973ccddeacf8793a365daccf1cf99c0f9fe825751dc,
      0xbb113af4738d4da0f3c85c69bb630251fde397ee6994ba97e2e4f34910157ac8);
    e := Square(e, 0xbb113af4738d4da0f3c85c69bb630251fde397ee6994ba97e2e4f34910157ac8,
      0x88b22d4a02db75f5f43842a3737a60951e9c45d2da7e408edd3dcca7bb1a618c,
      0xfe7de9b5b9cffbc5c94a775d34aa71345abf639031d20240dc8ed4e36f61838c);
    e := SquareTimes(e, 0xfe7de9b5b9cffbc5c94a775d34aa71345abf639031d20240dc8ed4e36f61838c,
      -0x6eaf2b3e2bed755b495089bcaef92e69884989967cf799d022a4c6d8b72260c16,
      0x6354967fa3b30fe3be188b87c0b3a656d9e7f99041972189a419c638daf7d01a);
    e := Square(e, 0x6354967fa3b30fe3be188b87c0b3a656d9e7f99041972189a419c638daf7d01a,
      0x268a8859d4d9bf463d71e63d2d8a81f39afb4aa3609966b8fb4cc86c68f50d9e,
      0x27f72f52014e65af3a782e9e45d91e204e4ff360c17186974bb0350a128f3aa2);
    e := SquareTimes(e, 0x27f72f52014e65af3a782e9e45d91e204e4ff360c17186974bb0350a128f3aa2,
      -0x2bacb9a355b95916a0a07284d10a8e1164956852b5a246caec8009d58c86f03a,
      0x47ff11fdcf143caed127c3999b09dc19489aa95eb7a82653bfe2bc8754208d0a);
    e := Square(e, 0x47ff11fdcf143caed127c3999b09dc19489aa95eb7a82653bfe2bc8754208d0a,
      0x143f7a1fa1c3751d81d9a0c3d086bfe2dab6d832a619b711096961ce8436e059,
      0x47f7fc9f5bd585e4c126d22f5e01875da4c716efeaf79d57062df6bdb5a2380d);
    e := SquareTimes(e, 0x47f7fc9f5bd585e4c126d22f5e01875da4c716efeaf79d57062df6bdb5a2380d,
      -0x8da07474f4306c19dc6b0a728d13af95560d30e56b70002d5e18a56f7cc10afa,
      0xe38fde2b9fa66ad98568d2f997893157bdeab1062da02255f85bd5cf4c314747);
    e := Square(e, 0xe38fde2b9fa66ad98568d2f997893157bdeab1062da02255f85bd5cf4c314747,
      0xca4874db52ad2dbcc8643e9fe71e70c37a5e86fa80f365fbef29849d5f74b6af,
      0xbf4c432e8b0c5f8a1934c151f920ea78c501b917260c2e07a85c89e8d173a790);
  }

  lemma Chain6() returns (e: nat)
    ensures e == 0xaaaaaaaaaaaaaaaaaaaaaaaaaaaaaaaaaaaaaaaaaaaaaaaa
    ensures PowMod(-7, e, P) == 0xb362a348de23ffc64d77479b1260805cbb51f95597b51ce65f6d4dfbe38e20fb
  {
    hide PowMod;
    e := Chain5();
    e := SquareTimes(e, 0xbf4c432e8b0c5f8a1934c151f920ea78c501b917260c2e07a85c89e8d173a790,
      -0x3e8a434c3dd42ee14c31f38bfddcbff8faf191f71dd27857f4f302049fe6e4049,
      0xc35aafa21dba207b9525a07e0e5dba4933e0727c6eed82f4220d5f634de05267);
    e := Square(e, 0xc35aafa21dba207b9525a07e0e5dba4933e0727c6eed82f4220d5f634de05267,
      0x951347b0efc57fa93789f5f64f0ebcdcab6aed479f9d7703fee57c1c57e123a2,
      0xd71b0d0c0dde3990b0a84c32d42c4746c355cbbab92cbbb1ac7eaf99a6ff22b3);
    e := SquareTimes(e, 0xd71b0d0c0dde3990b0a84c32d42c4746c355cbbab92cbbb1ac7eaf99a6ff22b3,
      -0x4f135236a0382f0cd58c4903dd330b02a57131133eadf410c531717a6fbaa4ddd,
      0x510e912e17b0caf475dd14352ccf9a7807f06c5f9ef29f72185fe73689ea9774);
    e := Square(e, 0x510e912e17b0caf475dd14352ccf9a7807f06c5f9ef29f72185fe73689ea9774,
      0x19aa38b35e5db6e7b0f5e6e646ba4363407fadb1148faaeecb87bf5ab99784c2,
      0x44fc4447c66cc63014854d37b644d7102787f17bad5de5077958f803acebb4f2);
    e := SquareTimes(e, 0x44fc4447c66cc63014854d37b644d7102787f17bad5de5077958f803acebb4f2,
      -0x8220ea08668682d03addecbe16865d7244ed08be1b7fd71c3bbac52e194d3991,
      0xe91f7c6c029c8c3ff8c18a03a90f0863bb9028447a69982273eb64a032eedc43);
    e := Square(e, 0xe91f7c6c029c8c3ff8c18a03a90f0863bb9028447a69982273eb64a032eedc43,
      0xd44a545bfb6269504649acfbb25087df1b6b4af23a9636aac3048c1b38e3b939,
      0x1a4657870bb598dc003cfcd299688a0f02a0ee77e5b0e810630a45c5932d1c12);
    e := SquareTimes(e, 0x1a4657870bb598dc003cfcd299688a0f02a0ee77e5b0e810630a45c5932d1c12,
      -0x12e08bbfe71a80e97240a5fe1e316a64e015baf9209ee3fd152295e6700d7510,
      0xdd6a363502027e23c86cc8a187a4298f40c9ad925ba0f617f8ea45457ecca514);
    e := Square(e, 0xdd6a363502027e23c86cc8a187a4298f40c9ad925ba0f617f8ea45457ecca514,
      0xbf808da874d85fad1ff129dab17d0ef054cc35f634a7af9191348d03d4e41390,
      0xde50ccbff35db63b2cdf90b92b1134c32e37aef287a88853711e1a0eacc17220);
    e := SquareTimes(e, 0xde50ccbff35db63b2cdf90b92b1134c32e37aef287a88853711e1a0eacc17220,
      -0x54771a84ea8b7d4ec850975a9d613531c324fc79fe77d1e8048a32e04b5e08b0a,
      0xbb31d4470c0597e2df507418c7be68d9cf1f419c13c5a4fe946c5bc1f029c2d6);
    e := Square(e, 0xbb31d4470c0597e2df507418c7be68d9cf1f419c13c5a4fe946c5bc1f029c2d6,
      0x88e1d5d2bec885aa86538e7a521fc52b52c0fde18a935766c94817adaf1cab6c,
      0x1aab959908fe593df48c064aa6f65a433d8c3dae25abd7c960994812893f4210);
    e := SquareTimes(e, 0x1aab959908fe593df48c064aa6f65a433d8c3dae25abd7c960994812893f4210,
      -0x13731dbdf5d8411d72abb975b7bfb63adc15fe89b4c1148c65285fabf8ae42ff,
      0xf01c2fe0041d21bc29230207166eab5c97f79c1e469268b904e73791fc7c89d1);
    e := Square(e, 0xf01c2fe0041d21bc29230207166eab5c97f79c1e469268b904e73791fc7c89d1,
      0xe134dcde89ab8b2a13b9b0371dfb070d24a4f8c8cd2db320ea045de956f581a9,
      0x5e4544fc7b5e8e55713f59d9f6f11ed24741409575339965321f41d9239d329a);
    e := SquareTimes(e, 0x5e4544fc7b5e8e55713f59d9f6f11ed24741409575339965321f41d9239d329a,
      -0xf30099d5bd0d5459c126437a620cbd8be5c99bc8441091a8a24087f0e9621182,
      0x6d836924b3580b677d57f30c77ed198ee6474dde43456c2c6d36adfad07b8e62);
    e := Square(e, 0x6d836924b3580b677d57f30c77ed198ee6474dde43456c2c6d36adfad07b8e62,
      0x2ed92afe0777a632f469852353f07344434e7b07c84acbf2b29e6a441c1b8182,
      0xf34c0a357259e0b82e0c6b8a025ac67891a053b58118841229929ddaa6561ea6);
    e := SquareTimes(e, 0xf34c0a357259e0b82e0c6b8a025ac67891a053b58118841229929ddaa6561ea6,
      -0x652921dc4b29b32828e63b199a00ca89f28b46b580c8b2676ba41e3e715528dbd,
      0xd8f340408adbafe3310a28d088e416d08b50a86966b539d9c1696d4b6989c837);
    e := Square(e, 0xd8f340408adbafe3310a28d088e416d08b50a86966b539d9c1696d4b6989c837,
      0xb7db638ff4faab92dd2b5e6e54ceb648460ac51917da72ce0045ea99ded3df25,
      0x9232caf773ca0db2c6932103cc01a7bdbb671e1fcd219b066b82aaff6c0a9806);
    e := SquareTimes(e, 0x9232caf773ca0db2c6932103cc01a7bdbb671e1fcd219b066b82aaff6c0a9806,
      -0x24871d31b2391ff4d6b8fbee1e43d64cded51162dc1b5b6386e850283d085ede3,
      0x8ffe77645ed68021e8be05e8106ce1f9140eae6efe6a20e516f1186d25a53fb1);
    e := Square(e, 0x8ffe77645ed68021e8be05e8106ce1f9140eae6efe6a20e516f1186d25a53fb1,
      0x50fe465344ce4c51cb23fe5ed88b305ae45c493eadb327b68ba849635a422bf5,
      0xc0f70260a40c455d1fc9c28bec01a850f2706f33dad4f964bef6dbeeca8c5a66);
    e := SquareTimes(e, 0xc0f70260a40c455d1fc9c28bec01a850f2706f33dad4f964bef6dbeeca8c5a66,
      -0x3fa281d4dd8105764398e48ad4665ba6f7286799f72c042100ba607e97f1d407a,
      0x79af8a08970fbcba32e5428844f0614587d0c36ae3ce468c70c7c88c1cf9c9ea);
    e := Square(e, 0x79af8a08970fbcba32e5428844f0614587d0c36ae3ce468c70c7c88c1cf9c9ea,
      0x39d768da20f8ab12cc466a737286fcf9759ee869c3c558a344ca2f8606a2a47e,
      0xb9ba19c690f2f262615f92e773e3838922b108a1a5751d8a380812d2eb2b0ec2);
    e := SquareTimes(e, 0xb9ba19c690f2f262615f92e773e3838922b108a1a5751d8a380812d2eb2b0ec2,
      -0x3af3583c9306f07c4c265fd83cdc618b5e8b4887e0480298a72bb580334ac34ee,
      0xb3cfdf9d6f1009af2fe28bef8792b8d63ce194941e53f28f4c3be4830ca17296);
    e := Square(e, 0xb3cfdf9d6f1009af2fe28bef8792b8d63ce194941e53f28f4c3be4830ca17296,
      0x7e4c5b818d3db1ca01003fc3d2699aac0f9f2eeef9d8f7f8feaa847dc68cfffc,
      0x8576180926af70d40b40ebf374be00bdfcc5b6f641dbdd5f126aa2122412e0a0);
    e := SquareTimes(e, 0x8576180926af70d40b40ebf374be00bdfcc5b6f641dbdd5f126aa2122412e0a0,
      -0x1e70b7029ba39b7dad98e8a5af29d2e97acee4ca51f26b65beeeb3bba9eb9594f,
      0xbd26bc1a99ef1698ef65b211f340d9b8b66dc9b9764d9d080dd3e1ffbd776d81);
    e := Square(e, 0xbd26bc1a99ef1698ef65b211f340d9b8b66dc9b9764d9d080dd3e1ffbd776d81,
      0x8bc2379ba967cf3351341a1b5e69b4e69ead1742dfef3e6376dcaf028b548ec4,
      0xd76e5e13e50a9fcba16b765678228066f6a2f08b829ed92fb6d4efdf3479f505);
    e := SquareTimes(e, 0xd76e5e13e50a9fcba16b765678228066f6a2f08b829ed92fb6d4efdf3479f505,
      -0x4f509fb38ccb70efeb9d97380fbc7f2df0d75fe78e61e56f47e6b748822b15104,
      0x10ae7525e08125b448179359d36cacfa31ab4629b205a4b7a8291afca0a1d10d);
    e := Square(e, 0x10ae7525e08125b448179359d36cacfa31ab4629b205a4b7a8291afca0a1d10d,
      0x11645883128f91680c2e59c6f7135fed669540abc59dbc7d54a6c9bf534ef92,
      0x6fc30fff1424fe271415acad7d51105018e734f51c85dafa7e3c4ff5ac1686db);
    e := SquareTimes(e, 0x6fc30fff1424fe271415acad7d51105018e734f51c85dafa7e3c4ff5ac1686db,
      -0x1558b2784057492edd41ca82e73db0ff0eba79060dcc546d58b5cd80499be1273,
      0xb395438df2232a4cfea9207e0b5deca896dade0c7c6c7de9cc20916018d99bae);
    e := Square(e, 0xb395438df2232a4cfea9207e0b5deca896dade0c7c6c7de9cc20916018d99bae,
      0x7dfa138035aca589f1a85b3b4d711779cee9ffddbbafb70ac2911fa164bb9494,
      0x3675a1fcaba38b2698fb273f0d814c71f6a5c007874f052b540eb02f5b8a3318);
    e := SquareTimes(e, 0x3675a1fcaba38b2698fb273f0d814c71f6a5c007874f052b540eb02f5b8a3318,
      -0x5118dcbc6f0fb044d34b48635435305b4915660386d9b4c828b1ea0811c33789,
      0xb5264e7ccf26841633c49e9c3954ff124231dea5764170b9e6bf7f77e5770e67);
    e := Square(e, 0xb5264e7ccf26841633c49e9c3954ff124231dea5764170b9e6bf7f77e5770e67,
      0x802f30b7e20a414b6938331d590a4e624fb92b94d8c7ff55f5b936c3a0fd4504,
      0xd64e0aa8c27b8c84c57da8fbe7fdee7425109b4444ac220c3d3112821125d1b5);
    e := SquareTimes(e, 0xd64e0aa8c27b8c84c57da8fbe7fdee7425109b4444ac220c3d3112821125d1b5,
      -0x4e7cdfb487f06d49fa7cd11b304bfb539d7ba502b09c61c12762cc21b5606d93d,
      0x2475dfe8662bbdc597e26fe72eb12d1cff5af22b7c5ffc46bccafd91631fa864);
    e := Square(e, 0x2475dfe8662bbdc597e26fe72eb12d1cff5af22b7c5ffc46bccafd91631fa864,
      0x5315d3fcb00665496019be5d9e8eb05f8c4a331182da0b5405634b5358a3cfb,
      0xb362a348de23ffc64d77479b1260805cbb51f95597b51ce65f6d4dfbe38e20fb);
  }

  lemma Chain7() returns (e: nat)
    ensures e == 0xaaaaaaaaaaaaaaaaaaaaaaaaaaaaaaaaaaaaaaaaaaaaaaaaaaaaaaa9
    ensures PowMod(-7, e, P) == 0x7d2ddf38fbbfce55224d3ef17607726d8868ed2d6bfb2092734d55b1c7c2fe48
  {
    hide PowMod;
    e := Chain6();
    e := SquareTimes(e, 0xb362a348de23ffc64d77479b1260805cbb51f95597b51ce65f6d4dfbe38e20fb,
      -0x36fe59c71421c0c16d626ca4521d66956d907da133a9334ab09c7c2a7e92e1cbe,
      0x617d49a0eb45228bca7b5ac60fe390ffc127736a3fb1bfca918acb4aee1a5433);
    e := Square(e, 0x617d49a0eb45228bca7b5ac60fe390ffc127736a3fb1bfca918acb4aee1a5433,
      0x25202f1cee9d5106084c1f907b2f7205e57214b780dff82cd8ef40cfc1a9b63d,
      0x93a49096e3253a64252a1027e800bd38a82df1aaf35ad1c47df295df22be00f6);
    e := SquareTimes(e, 0x93a49096e3253a64252a1027e800bd38a82df1aaf35ad1c47df295df22be00f6,
      -0x2540cd6e002f5289ac0f666128a7f99f46a37efb65c79fd128fcd5c1afd40dbd6,
      0x6fca279d527353216236342e4817f9774eaaac876588a390ca5d402e175a8d8e);
    e := Square(e, 0x6fca279d527353216236342e4817f9774eaaac876588a390ca5d402e175a8d8e,
      0x30d0edfcf7e76fe3833036dea3d84b11072ba0ba5c84e4e2decf77dc7fd29699,
      0x2111b9269c1aa5b63d8e7b8c02c4108f2a55dca26d6e0499743a4b9c2cce78ad);
    e := SquareTimes(e, 0x2111b9269c1aa5b63d8e7b8c02c4108f2a55dca26d6e0499743a4b9c2cce78ad,
      -0x1de704ba78faffed8cc1e8124659bb4a09bb4da4a89be301754bb7d342ecc62a,
      0xab92eb590ccc3e8facf1e6ac57a7b5895606fe66a32948f0870e369e43393757);
    e := Square(e, 0xab92eb590ccc3e8facf1e6ac57a7b5895606fe66a32948f0870e369e43393757,
      0x72fd9aba410811042e6f7e50f3dd0c23052e631f055634c7f10eb01c06554534,
      0x9e349b3f9756e5f743c28f475ae4ab547bc70d3efd31ab1dfe87634d66219b05);
    e := SquareTimes(e, 0x9e349b3f9756e5f743c28f475ae4ab547bc70d3efd31ab1dfe87634d66219b05,
      -0x2ac62d91d878bb193f1a17711b9a4439120070b3e544aafbaaf63b5b2c9b3289a,
      0x3ab9c079113b590fad79ceb0340c19d6eaf5b9227f7b86bbcbd6fb6b0322a997);
    e := Square(e, 0x3ab9c079113b590fad79ceb0340c19d6eaf5b9227f7b86bbcbd6fb6b0322a997,
      0xd78b1fe9b7f9f3c241e905386ae71033cf5edcc0f0dfd3bea8c7caadea51344,
      0x47a0ee63fb9af66f8b9f3ff84a9764238e7d33940b0500b99ad28e44ba733d95);
    e := SquareTimes(e, 0x47a0ee63fb9af66f8b9f3ff84a9764238e7d33940b0500b99ad28e44ba733d95,
      -0x8c4aa1cc33bba4ee53a4c05589864c748ab102d922b93b0474609b999cfb231e,
      0x16e430a4647f7cb123f3eaeb896529c4d8133a065b0c17c629cf4fff96ca8d73);
    e := Square(e, 0x16e430a4647f7cb123f3eaeb896529c4d8133a065b0c17c629cf4fff96ca8d73,
      0x20c03c2ef56fbc547440033d05bc1a0560081e7f420c733256a7d9e2da0150e,
      0x3c55dffdabbf329ad17d26df314429313dc72a56d8aaaad252a840da6b943c17);
    e := SquareTimes(e, 0x3c55dffdabbf329ad17d26df314429313dc72a56d8aaaad252a840da6b943c17,
      -0x638a909dec9b30dd602592f96efed3e05b5bed995d806cf0b3cf7aa94b065104,
      0xa9a8574546525993139f6a3002d2e52d9dbc3b2dc20a262ea8d4ec3b5a014945);
    e := Square(e, 0xa9a8574546525993139f6a3002d2e52d9dbc3b2dc20a262ea8d4ec3b5a014945,
      0x706fb1ec1f852ee4b5899f87a1255f868e4d9f8ee71496a1574e37c54ea519f4,
      0x8aaa6834abf639b7165e3024c5365bbf33efbd9c46e8245065c3d7494f9a78cd);
    e := SquareTimes(e, 0x8aaa6834abf639b7165e3024c5365bbf33efbd9c46e8245065c3d7494f9a78cd,
      -0x20dc524737460ce96e3fc485b5934c1a1fb3aab6ed1d1e84076b10d0dbde0acbf,
      0x4b515e93f2250965d4e6c82fb284dbff04be0f4c43d3d29907fcfb0cc20aedf2);
    e := Square(e, 0x4b515e93f2250965d4e6c82fb284dbff04be0f4c43d3d29907fcfb0cc20aedf2,
      0x1628c747ac71ea44cba991c2db21ed852ed571b8a66a392e69e09fecc1d23103,
      0x7b3cef612ea70916c04347450a14f019c1b74876378ef0feb737f35cef3f0537);
    e := SquareTimes(e, 0x7b3cef612ea70916c04347450a14f019c1b74876378ef0feb737f35cef3f0537,
      -0x19f4947bb498edd3ac64c2b8ebe75c0452d7c2eb9be997b201e6548d7b0d86462,
      0x581e5cf17c561569372c2370ca0fd4a964b05d7bd9a4454e3b05afa3fec8947);
    e := Square(e, 0x581e5cf17c561569372c2370ca0fd4a964b05d7bd9a4454e3b05afa3fec8947,
      0x1e54e37fefd2c80e9072b827c5dc4bcabf05ac1365a4040fd7109bbeb2201b,
      0xeafd15cc3f73526e7756e677d9953de5f4bab148b81c1cf81890d3481c5198bc);
    e := SquareTimes(e, 0xeafd15cc3f73526e7756e677d9953de5f4bab148b81c1cf81890d3481c5198bc,
      -0x5e5e98a5e60ebae06e0e374b65c77b35968918f216553e861ac2045618e2487ee,
      0xe599262b7c70b944ed9ab20c6882dfb2d58afee4b894c81dde924a9497eeb642);
    e := Square(e, 0xe599262b7c70b944ed9ab20c6882dfb2d58afee4b894c81dde924a9497eeb642,
      0xcdeb59e8724d5a8746d6de422d3505a7c854b5a634727945fb0a064ddbb38a19,
      0xd76fb4279bce79fa11fc4f1790b8cd30ff29482807d0d3cd4fc9f725b8abf26d);
    e := SquareTimes(e, 0xd76fb4279bce79fa11fc4f1790b8cd30ff29482807d0d3cd4fc9f725b8abf26d,
      -0x4f519b969c5d7922d1e59539eafd5cd13c188be863ed3eb4ef5f2ede42336e6d1,
      0x25ec440be194df2a093788565a16a1c71d4b12484faaf6ec936ef31d75274b80);
    e := Square(e, 0x25ec440be194df2a093788565a16a1c71d4b12484faaf6ec936ef31d75274b80,
      0x59e25b8f7334361dc4b95294fccc498cdc177d4ff8e44622f3975f0570ff87e,
      0xfbf1215bbb8bbb19734d30b9700e648b5ec45fcff17662eccd341ec55b3798de);
    e := SquareTimes(e, 0xfbf1215bbb8bbb19734d30b9700e648b5ec45fcff17662eccd341ec55b3798de,
      -0x6c7a319c3f1cb446584ee4a29f608c4ca11a98465c03db46df37ea51e45e5cb8d,
      0x4fbc4341706134466438ea793bdbee1fb9e84f5f9fd86582152ce8f0274b8747);
    e := Square(e, 0x4fbc4341706134466438ea793bdbee1fb9e84f5f9fd86582152ce8f0274b8747,
      0x18d5bbf53d245e955d4ceb2a245a9b40b187c11808e7d22e591c3b1c8c20c31d,
      0x9f9352b70ba82a00891c31b355dbf3097f78921a9e0cd6c5601cc9aff61e975e);
    e := SquareTimes(e, 0x9f9352b70ba82a00891c31b355dbf3097f78921a9e0cd6c5601cc9aff61e975e,
      -0x2b84a56b451f45f8c198b538deef03f1d3f5362ac2bb39d6e5cc4160ace1648ea,
      0x5b8c397e66b3abebc483d0bae0bcd7719ce9d242c22b4586b4aa0c4a1c3b8d5a);
    e := Square(e, 0x5b8c397e66b3abebc483d0bae0bcd7719ce9d242c22b4586b4aa0c4a1c3b8d5a,
      0x20bcfdaecc2d98e2ec348b430ca36c1505c845862ae04c7893f17b540945c03b,
      0xee2f299392417e9a0f92247fbec3ec703c764d324d7417b0dc30a8c088bae4cf);
    e := SquareTimes(e, 0xee2f299392417e9a0f92247fbec3ec703c764d324d7417b0dc30a8c088bae4cf,
      -0x60f4215f6c82e958c7feebe3c2c308edd4cc6cf380b5eb19da16c10fa998e9bb5,
      0x649535f4c5bbcb3c0376ce8ac9669fbe5814b036434514ca81e2898a65a22694);
    e := Square(e, 0x649535f4c5bbcb3c0376ce8ac9669fbe5814b036434514ca81e2898a65a22694,
      0x2784e91f14c8274abf6dae0b8f3ff33a762f1f49c883a602ef2d782b79165321,
      0x37c1516833fb4260bb8523e2bad207ada5a04401c7fc53b4d36349bfbf538681);
    e := SquareTimes(e, 0x37c1516833fb4260bb8523e2bad207ada5a04401c7fc53b4d36349bfbf538681,
      -0x550074be5b6422c87bf637636a777d4ffcd074207bd1216d6109357ab5de8b74,
      0x974879fcfd0e00570a5670931fa8222447ad62ca0c094d263383c170374af45);
    e := Square(e, 0x974879fcfd0e00570a5670931fa8222447ad62ca0c094d263383c170374af45,
      0x5966946d4af5fd81492f69ff06a6f5fc68158b1b3956742c18181057701c4c,
      0x91a322cf35159167baf1d6949c3f61c23a63f0c0f45aececfcbfba5a9f6366a5);
    e := SquareTimes(e, 0x91a322cf35159167baf1d6949c3f61c23a63f0c0f45aececfcbfba5a9f6366a5,
      -0x243f775bc832215fb08a49b580f7b2f56d8994366983283c8b2e80e8bf5fdaf66,
      0x2ba366816dad28cbc1684ca76389744bab62163b67cf4e4ae6ecdba59f6c4f4b);
    e := Square(e, 0x2ba366816dad28cbc1684ca76389744bab62163b67cf4e4ae6ecdba59f6c4f4b,
      0x7704cbb2cb53b0c1a73b9e78d6218fa679e96aa58aec588fc744be18d1b96fa,
      0x72436e705fb3d1d81fbc6e2bfc349547f11c8de77ff70f202fc96fc5b0229013);
    e := Square(e, 0x72436e705fb3d1d81fbc6e2bfc349547f11c8de77ff70f202fc96fc5b0229013,
      0x3300201f13b30296bcd8bb3012ffe1420930b7383b36df5931a9aceab94298c2,
      0xbb86cf6abf01a27b7e43f2956475fa5f3fbec7d6e2c9da500f74691bd4a5dcb);
    e := SquareTimes(e, 0xbb86cf6abf01a27b7e43f2956475fa5f3fbec7d6e2c9da500f74691bd4a5dcb,
      -0x3c193961a37f70d713ea81b3737aa6f7a75bb91e04fa3fd5479a9ecb1ca1199,
      0x7d2ddf38fbbfce55224d3ef17607726d8868ed2d6bfb2092734d55b1c7c2fe48);
  }

  lemma Chain8() returns (e: nat)
    ensures e == 0x55555555555555555555555555555555555555555555555555555554fffffeba
    ensures PowMod(-7, e, P) == 0x7ae96a2b657c07106e64479eac3434e99cf0497512f58995c1396c28719501ee
  {
    hide PowMod;
    e := Chain7();
    e := SquareTimes(e, 0x7d2ddf38fbbfce55224d3ef17607726d8868ed2d6bfb2092734d55b1c7c2fe48,
      -0x1ac78cd7931aafd72a0ac5b9df3714ce354f15352468d7eb46b2e777d75842262,
      0xf5961f14490714017b9526a34ea64dd3f92c2b0faee069fc9c54a7e846d41a3e);
    e := SquareTimes(e, 0xf5961f14490714017b9526a34ea64dd3f92c2b0faee069fc9c54a7e846d41a3e,
      -0x6712ccca4d745532a6b75cf8fa8ecdf83c5bbab0d7fb494d5243945c931f2dbb0,
      0xce1355708a91a47b67312607d089d77e4fbd9da1103415fdcec5de42b6830434);
    e := SquareTimes(e, 0xce1355708a91a47b67312607d089d77e4fbd9da1103415fdcec5de42b6830434,
      -0x48935d8c0679c3ac6ea6d685d8e586ac88c33f7a63e7afff6dc6d97d4c2a636ff,
      0xb5be5a3ccf4dfe895dfc425e821d6fd698a2a561331aff39f820ff2376a472e1);
    e := SquareTimes(e, 0xb5be5a3ccf4dfe895dfc425e821d6fd698a2a561331aff39f820ff2376a472e1,
      -0x3872f0ffc6a7fbd5d3375692be047d6758a030b67a5b6f6b58473344f968ec37c,
      0x3796a0484c10a035d566be4649c11fa672affdcea09dd0da7258eb50ba53cf7d);
    e := SquareTimes(e, 0x3796a0484c10a035d566be4649c11fa672affdcea09dd0da7258eb50ba53cf7d,
      -0x547e7a7b045322c1befc97ca33c53ac289b1d6a41a0b6dfbd553b780da1266e5,
      0xafcfcb447093adf72baa8ad13a10010fd32d6b472a33a2782f54cedddd339acc);
    e := SquareTimes(e, 0xafcfcb447093adf72baa8ad13a10010fd32d6b472a33a2782f54cedddd339acc,
      -0x34d3043fd73ef088a50f63cee297d04e1103b707ed6ddeaecfd123881019bed6e,
      0xf6580e9df392a1d43fb276d9946a6237b0b29f5cbf158f6eb738670407bc5d42);
    e := SquareTimes(e, 0xf6580e9df392a1d43fb276d9946a6237b0b29f5cbf158f6eb738670407bc5d42,
      -0x67b5d78ab4ecc73731d7d4d5c1e47440c3bbcf7483f36e7923401dd8c0bb18009,
      0x9f80508dc9939b9c01da002c689ec3eea544d6857f48b642a2eaec2b5f373a8b);
    e := SquareTimes(e, 0x9f80508dc9939b9c01da002c689ec3eea544d6857f48b642a2eaec2b5f373a8b,
      -0x2b7a47ea574b6ffef4432d4d4caedacd12d687ba92a3357c81e9988afd7891463,
      0x17e5a71c2143e97bb1ca361dc60a193373ea68ee1c69f1261668601bd40c3dde);
    e := SquareTimes(e, 0x17e5a71c2143e97bb1ca361dc60a193373ea68ee1c69f1261668601bd40c3dde,
      -0xf9d7e5027b8019ce150230db88ac0cab856f72239a8c6214c92fadca97ddbda,
      0x3a8bd485328deea697753831b807d690148699ae5ec17c39f693f4d854531d6a);
    e := SquareTimes(e, 0x3a8bd485328deea697753831b807d690148699ae5ec17c39f693f4d854531d6a,
      -0x5db99cb9cbd6a31d07d69a5853d09917c6503013b1e39a1311a78d89d30bd359,
      0xb48c45605a4e9e5f88abe87ebbd80bdb5971caf728a13e8965a4918505121a1b);
    e := SquareTimes(e, 0xb48c45605a4e9e5f88abe87ebbd80bdb5971caf728a13e8965a4918505121a1b,
      -0x37b56e4f02644e3889a262c923b3f41155cc432f6509c2ed6c0aad5989d8f7c66,
      0xf5fd0943c77815a1df273012312c2b4597b207cf355a1df364ef61ad882fc6cb);
    e := SquareTimes(e, 0xf5fd0943c77815a1df273012312c2b4597b207cf355a1df364ef61ad882fc6cb,
      -0x6769420e154b5a31d5a24eaf16b65d8d29ce7932a67bd69f149608048567e59c8,
      0x4f4f77f5a49b33976227f99ee50c168a8ffa90bab7a66ebf4f42dea3e96ed8e9);
    e := SquareTimes(e, 0x4f4f77f5a49b33976227f99ee50c168a8ffa90bab7a66ebf4f42dea3e96ed8e9,
      -0xabff00f20de3b6924c2db9948672952ea63b28643fefbc13f14f762eb589d322,
      0x26f22934db07cdc6ec6d0d6104badc04df4f6db2f55c1e1265b513be5ed71ec7);
    e := SquareTimes(e, 0x26f22934db07cdc6ec6d0d6104badc04df4f6db2f55c1e1265b513be5ed71ec7,
      -0x2979811f5d1cc26835553f023f7e6b3e084e0bba68b47161a497de828fca482e,
      0x5d7c648362412c4d2aaaa8de13d761a3a2b19c15c6afd1889aa2a37474dd19b);
    e := SquareTimes(e, 0x5d7c648362412c4d2aaaa8de13d761a3a2b19c15c6afd1889aa2a37474dd19b,
      -0xeef94e4ee4ea1a993b706bddd19ed7c858945a52ffa0b667e9ad3545bdd7f1,
      0xf058f3f52afc7967cf450b32ebf98cf69bb1dbbed4e512036fe9da17ac73b650);
    e := SquareTimes(e, 0xf058f3f52afc7967cf450b32ebf98cf69bb1dbbed4e512036fe9da17ac73b650,
      -0x62b905a4e3b7011490ea69265fddbd4b460a5e9a52760b84fe7a70e42df5e113f,
      0x8812caa0eeeb165e60dcdfcf57423b46cbe56b792cd2c144c47597ecea073f91);
    e := SquareTimes(e, 0x8812caa0eeeb165e60dcdfcf57423b46cbe56b792cd2c144c47597ecea073f91,
      -0x1fa4bccb4ca1039459246202cd97573efb82601939b24a888d06ac300dcc7d1ff,
      0x18478e3fd15047d84981ab49e259e6f313d9a5c36610ba96a7ef6b6b1968c0ea);
    e := SquareTimes(e, 0x18478e3fd15047d84981ab49e259e6f313d9a5c36610ba96a7ef6b6b1968c0ea,
      -0x101e76b53fd01cd318c801b13c6e3e23fbfe9a7dadf36b266db5aeb38ce4e2f2,
      0xb49738f32422eb870bd9aa016b5fae098f5f6ca04e8ff2c680cde0c031fb0932);
    e := SquareTimes(e, 0xb49738f32422eb870bd9aa016b5fae098f5f6ca04e8ff2c680cde0c031fb0932,
      -0x37bc309e70c3716009ae6e2e3a727255fea6fba19c4b36650ceff25969825f7a4,
      0x39e9a07baae0bca2b9615dcf26ad006520af049f619e2b9414bc19d0207606c0);
    e := SquareTimes(e, 0x39e9a07baae0bca2b9615dcf26ad006520af049f619e2b9414bc19d0207606c0,
      -0x5bb516b826afa104dc031c7f67b3a0544791a6dca915e634eb42e094f8a7ae18,
      0x166702bf6b1c2c4bff1916f1d22c74363d5b27f7947c6bcb0e85e8a777d1a668);
    e := SquareTimes(e, 0x166702bf6b1c2c4bff1916f1d22c74363d5b27f7947c6bcb0e85e8a777d1a668,
      -0xdb91174c74c139b0dd00d8c3e526188d607f9a8e3bd9d9f800ade219612da64,
      0xd4904547eee03b2b145f5b40c22b38529e4064bf0102e43c077a16d5842f409c);
    e := SquareTimes(e, 0xd4904547eee03b2b145f5b40c22b38529e4064bf0102e43c077a16d5842f409c,
      -0x4d37adc5c132fd0ac21a425fc3a51b9c9c03b24cf69c0e467ea19e607b1afc1a3,
      0x5c60358476471a3401d3dc7cca53d985c0340ec0d79f85e7a2bdba643d21677d);
    e := Square(e, 0x5c60358476471a3401d3dc7cca53d985c0340ec0d79f85e7a2bdba643d21677d,
      0x21554a9f638bedaca923d3aa2801fd69c39b0f0ccc387a644f86892f840abba8,
      0x6a8687a9be6284b51c6215e698ef76dd57eb11fcdb3ea1fa6221b7545705ff31);
    e := SquareTimes(e, 0x6a8687a9be6284b51c6215e698ef76dd57eb11fcdb3ea1fa6221b7545705ff31,
      -0x13649c94c1ac986ac2920e774abb9ed390c621b4b8c94b2eb2b4a6724ed26a675,
      0xfbd99a55c99f3725937f430a90a8831d58bdf8e92e9763871eef8163116627d4);
    e := Square(e, 0xfbd99a55c99f3725937f430a90a8831d58bdf8e92e9763871eef8163116627d4,
      0xf7c46d9b3bd959623dced73dfceb24192646f9199f54561d094457fe1d018f02,
      0x25671368cfaa7f361a6f332949f179a9fbe195f8b3386259f3028fd49e150e32);
    e := SquareTimes(e, 0x25671368cfaa7f361a6f332949f179a9fbe195f8b3386259f3028fd49e150e32,
      -0x2640b3ca72e1cff0e553d2007a88a6a238b4253c5d82d1533c4564b169cd50f0,
      0xba9cff6cc1ecf961a9c6489569a40710dd44c1b461b03fb7773d383dc7f8fb4);
    e := SquareTimes(e, 0xba9cff6cc1ecf961a9c6489569a40710dd44c1b461b03fb7773d383dc7f8fb4,
      -0x3b83b98205461d22505c457faeb79e8bfb5a210bfa598df9dba52c8cf727588,
      0x67fbcdf30a8d2da5da09d4bf71bfd4ad881d7771fb61e1cf46f09cb3675b5608);
    e := SquareTimes(e, 0x67fbcdf30a8d2da5da09d4bf71bfd4ad881d7771fb61e1cf46f09cb3675b5608,
      -0x127a823d18358187ac5ab99b451702b5ff0e83341101764b94ebbee5d66f41412,
      0xc0d3292adefc3fb6e4c65165d7694ce462c499841b3e25e636ac7073184dc58e);
    e := Square(e, 0xc0d3292adefc3fb6e4c65165d7694ce462c499841b3e25e636ac7073184dc58e,
      0x913d6bed31c4b5fe180e8d5c3cda42365268890d9ff05eb544afe60fe0990b96,
      0xcd6e3c1e14cec02afe40de54596cf176419396ea4ef9bfdf47c0786d37f5123a);
    e := SquareTimes(e, 0xcd6e3c1e14cec02afe40de54596cf176419396ea4ef9bfdf47c0786d37f5123a,
      -0x481f4223f450dd72296a3c690ee19bc5970bbb6687ec7028745efa49618907a84,
      0x851695d49a83f8ef919bb86153cbcb16630fb68aed0a766a3ec693d68e6afa40);
    e := Square(e, 0x851695d49a83f8ef919bb86153cbcb16630fb68aed0a766a3ec693d68e6afa40,
      0x453079ad00c8dbc59e170c2a32c63e4ce3f557593a5eea99c02dbdbbf22d948e,
      0x7ae96a2b657c07106e64479eac3434e99cf0497512f58995c1396c28719501ee);
  }

  lemma Start() returns (e: nat)
    ensures e == 0 && PowMod(-7, e, P) == 1
  {
    e := 0;
  }

  /** No point of the curve of secp256k1 has y = 0. */
  lemma NoPointWithZeroOrdinate(x: nat)
    requires Inverts(P)
    ensures !Zero(Equation(x, 0), P)
  {
    hide PowMod;
    var e := Chain8();
    assert e == (P - 1) / 3;
    NoZeroOrdinate(x, P);
  }
}
