/** The published test vectors of BIP 173, BIP 350 and BIP 380, on the printed strings. */
module PublishedVectors {
  import opened FiveBitWords
  import opened PackedRegister
  import opened ShiftRegister
  import opened Strings
  import Addresses
  import Base58
  import Bech32
  import ConvertBits
  import DescriptorChecksum

  // ---- BIP 173: the 32 values in order --------------------------------------

  lemma Abcdef1Steps()
    ensures Steps6(1, 3, 3, 3, 3, 3, 3, 30, 21, 23, 22, 30, 17)
    ensures Steps6(30, 21, 23, 22, 30, 17, 0, 2, 13, 25, 15, 6, 25)
  {
  }

  lemma Abcdef1Shifts()
    ensures Steps6(0, 0, 0, 0, 0, 1, 3, 0, 0, 0, 0, 1, 3)
    ensures Steps6(0, 0, 0, 0, 1, 3, 3, 0, 0, 0, 1, 3, 3)
    ensures Steps6(0, 0, 0, 1, 3, 3, 3, 0, 0, 1, 3, 3, 3)
    ensures Steps6(0, 0, 1, 3, 3, 3, 3, 0, 1, 3, 3, 3, 3)
    ensures Steps6(0, 1, 3, 3, 3, 3, 3, 1, 3, 3, 3, 3, 3)
  {
    hide *;
    Shifts6(0, 0, 0, 0, 1, 3);
    Shifts6(0, 0, 0, 1, 3, 3);
    Shifts6(0, 0, 1, 3, 3, 3);
    Shifts6(0, 1, 3, 3, 3, 3);
    Shifts6(1, 3, 3, 3, 3, 3);
  }

  lemma Abcdef1(fed: seq<nat>)
    requires Stands6(fed, 0, 0, 0, 0, 0, 1)
    ensures Stands6(fed + [3, 3, 3, 3, 3, 3, 0], 2, 13, 25, 15, 6, 25)
  {
    Abcdef1Steps();
    Abcdef1Shifts();
    Values();
    hide *;
    var f := Feed6(fed, 0, 0, 0, 0, 0, 1, 3, 0, 0, 0, 0, 1, 3);
    f := Feed6(f, 0, 0, 0, 0, 1, 3, 3, 0, 0, 0, 1, 3, 3);
    f := Feed6(f, 0, 0, 0, 1, 3, 3, 3, 0, 0, 1, 3, 3, 3);
    f := Feed6(f, 0, 0, 1, 3, 3, 3, 3, 0, 1, 3, 3, 3, 3);
    f := Feed6(f, 0, 1, 3, 3, 3, 3, 3, 1, 3, 3, 3, 3, 3);
    f := Feed6(f, 1, 3, 3, 3, 3, 3, 3, 30, 21, 23, 22, 30, 17);
    f := Feed6(f, 30, 21, 23, 22, 30, 17, 0, 2, 13, 25, 15, 6, 25);
    assert f == fed + [3, 3, 3, 3, 3, 3, 0];
  }

  lemma Abcdef2Steps()
    ensures Steps6(2, 13, 25, 15, 6, 25, 1, 30, 28, 14, 5, 10, 12)
    ensures Steps6(30, 28, 14, 5, 10, 12, 2, 11, 20, 10, 27, 27, 27)
    ensures Steps6(11, 20, 10, 27, 27, 27, 3, 4, 13, 10, 1, 11, 1)
    ensures Steps6(4, 13, 10, 1, 11, 1, 4, 2, 0, 3, 13, 14, 30)
    ensures Steps6(2, 0, 3, 13, 14, 30, 5, 19, 6, 12, 13, 13, 8)
    ensures Steps6(19, 6, 12, 13, 13, 8, 6, 29, 30, 16, 3, 19, 10)
  {
  }

  lemma Abcdef2(fed: seq<nat>)
    requires Stands6(fed, 2, 13, 25, 15, 6, 25)
    ensures Stands6(fed + [1, 2, 3, 4, 5, 6], 29, 30, 16, 3, 19, 10)
  {
    Abcdef2Steps();
    Values();
    hide *;
    var f := Feed6(fed, 2, 13, 25, 15, 6, 25, 1, 30, 28, 14, 5, 10, 12);
    f := Feed6(f, 30, 28, 14, 5, 10, 12, 2, 11, 20, 10, 27, 27, 27);
    f := Feed6(f, 11, 20, 10, 27, 27, 27, 3, 4, 13, 10, 1, 11, 1);
    f := Feed6(f, 4, 13, 10, 1, 11, 1, 4, 2, 0, 3, 13, 14, 30);
    f := Feed6(f, 2, 0, 3, 13, 14, 30, 5, 19, 6, 12, 13, 13, 8);
    f := Feed6(f, 19, 6, 12, 13, 13, 8, 6, 29, 30, 16, 3, 19, 10);
    assert f == fed + [1, 2, 3, 4, 5, 6];
  }

  lemma Abcdef3Steps()
    ensures Steps6(29, 30, 16, 3, 19, 10, 0, 7, 25, 25, 20, 19, 6)
    ensures Steps6(7, 25, 25, 20, 19, 6, 1, 24, 0, 3, 3, 7, 4)
    ensures Steps6(24, 0, 3, 3, 7, 4, 2, 11, 22, 15, 19, 15, 12)
    ensures Steps6(11, 22, 15, 19, 15, 12, 3, 6, 8, 2, 21, 28, 1)
    ensures Steps6(6, 8, 2, 21, 28, 1, 4, 20, 13, 22, 25, 29, 19)
    ensures Steps6(20, 13, 22, 25, 29, 19, 5, 23, 29, 19, 3, 9, 12)
    ensures Steps6(23, 29, 19, 3, 9, 12, 6, 9, 11, 28, 1, 24, 16)
    ensures Steps6(9, 11, 28, 1, 24, 16, 7, 8, 30, 17, 1, 19, 8)
  {
  }

  lemma Abcdef3(fed: seq<nat>)
    requires Stands6(fed, 29, 30, 16, 3, 19, 10)
    ensures Stands6(fed + [0, 1, 2, 3, 4, 5, 6, 7], 8, 30, 17, 1, 19, 8)
  {
    Abcdef3Steps();
    Values();
    hide *;
    var f := Feed6(fed, 29, 30, 16, 3, 19, 10, 0, 7, 25, 25, 20, 19, 6);
    f := Feed6(f, 7, 25, 25, 20, 19, 6, 1, 24, 0, 3, 3, 7, 4);
    f := Feed6(f, 24, 0, 3, 3, 7, 4, 2, 11, 22, 15, 19, 15, 12);
    f := Feed6(f, 11, 22, 15, 19, 15, 12, 3, 6, 8, 2, 21, 28, 1);
    f := Feed6(f, 6, 8, 2, 21, 28, 1, 4, 20, 13, 22, 25, 29, 19);
    f := Feed6(f, 20, 13, 22, 25, 29, 19, 5, 23, 29, 19, 3, 9, 12);
    f := Feed6(f, 23, 29, 19, 3, 9, 12, 6, 9, 11, 28, 1, 24, 16);
    f := Feed6(f, 9, 11, 28, 1, 24, 16, 7, 8, 30, 17, 1, 19, 8);
    assert f == fed + [0, 1, 2, 3, 4, 5, 6, 7];
  }

  lemma Abcdef4Steps()
    ensures Steps6(8, 30, 17, 1, 19, 8, 8, 0, 5, 5, 31, 22, 21)
    ensures Steps6(5, 5, 31, 22, 21, 9, 10, 23, 3, 0, 6, 27, 2)
    ensures Steps6(23, 3, 0, 6, 27, 2, 11, 23, 24, 25, 19, 22, 29)
    ensures Steps6(23, 24, 25, 19, 22, 29, 12, 12, 1, 12, 30, 9, 26)
    ensures Steps6(12, 1, 12, 30, 9, 26, 13, 16, 18, 24, 3, 11, 10)
    ensures Steps6(16, 18, 24, 3, 11, 10, 14, 7, 25, 11, 19, 31, 29)
    ensures Steps6(7, 25, 11, 19, 31, 29, 15, 24, 18, 4, 15, 28, 10)
  {
  }

  lemma Abcdef4Shifts()
    ensures Steps6(0, 5, 5, 31, 22, 21, 9, 5, 5, 31, 22, 21, 9)
  {
    hide *;
    Shifts6(5, 5, 31, 22, 21, 9);
  }

  lemma Abcdef4(fed: seq<nat>)
    requires Stands6(fed, 8, 30, 17, 1, 19, 8)
    ensures Stands6(fed + [8, 9, 10, 11, 12, 13, 14, 15], 24, 18, 4, 15, 28, 10)
  {
    Abcdef4Steps();
    Abcdef4Shifts();
    Values();
    hide *;
    var f := Feed6(fed, 8, 30, 17, 1, 19, 8, 8, 0, 5, 5, 31, 22, 21);
    f := Feed6(f, 0, 5, 5, 31, 22, 21, 9, 5, 5, 31, 22, 21, 9);
    f := Feed6(f, 5, 5, 31, 22, 21, 9, 10, 23, 3, 0, 6, 27, 2);
    f := Feed6(f, 23, 3, 0, 6, 27, 2, 11, 23, 24, 25, 19, 22, 29);
    f := Feed6(f, 23, 24, 25, 19, 22, 29, 12, 12, 1, 12, 30, 9, 26);
    f := Feed6(f, 12, 1, 12, 30, 9, 26, 13, 16, 18, 24, 3, 11, 10);
    f := Feed6(f, 16, 18, 24, 3, 11, 10, 14, 7, 25, 11, 19, 31, 29);
    f := Feed6(f, 7, 25, 11, 19, 31, 29, 15, 24, 18, 4, 15, 28, 10);
    assert f == fed + [8, 9, 10, 11, 12, 13, 14, 15];
  }

  lemma Abcdef5Steps()
    ensures Steps6(24, 18, 4, 15, 28, 10, 16, 25, 17, 3, 8, 1, 30)
    ensures Steps6(25, 17, 3, 8, 1, 30, 17, 7, 0, 16, 0, 8, 13)
    ensures Steps6(7, 0, 16, 0, 8, 13, 18, 1, 9, 23, 24, 12, 23)
    ensures Steps6(1, 9, 23, 24, 12, 23, 19, 20, 1, 12, 25, 10, 1)
    ensures Steps6(20, 1, 12, 25, 10, 1, 20, 27, 7, 19, 20, 27, 29)
    ensures Steps6(27, 7, 19, 20, 27, 29, 21, 2, 21, 13, 25, 24, 4)
    ensures Steps6(2, 21, 13, 25, 24, 4, 22, 6, 8, 24, 27, 23, 27)
    ensures Steps6(6, 8, 24, 27, 23, 27, 23, 20, 23, 24, 18, 7, 0)
  {
  }

  lemma Abcdef5(fed: seq<nat>)
    requires Stands6(fed, 24, 18, 4, 15, 28, 10)
    ensures Stands6(fed + [16, 17, 18, 19, 20, 21, 22, 23], 20, 23, 24, 18, 7, 0)
  {
    Abcdef5Steps();
    Values();
    hide *;
    var f := Feed6(fed, 24, 18, 4, 15, 28, 10, 16, 25, 17, 3, 8, 1, 30);
    f := Feed6(f, 25, 17, 3, 8, 1, 30, 17, 7, 0, 16, 0, 8, 13);
    f := Feed6(f, 7, 0, 16, 0, 8, 13, 18, 1, 9, 23, 24, 12, 23);
    f := Feed6(f, 1, 9, 23, 24, 12, 23, 19, 20, 1, 12, 25, 10, 1);
    f := Feed6(f, 20, 1, 12, 25, 10, 1, 20, 27, 7, 19, 20, 27, 29);
    f := Feed6(f, 27, 7, 19, 20, 27, 29, 21, 2, 21, 13, 25, 24, 4);
    f := Feed6(f, 2, 21, 13, 25, 24, 4, 22, 6, 8, 24, 27, 23, 27);
    f := Feed6(f, 6, 8, 24, 27, 23, 27, 23, 20, 23, 24, 18, 7, 0);
    assert f == fed + [16, 17, 18, 19, 20, 21, 22, 23];
  }

  lemma Abcdef6Steps()
    ensures Steps6(20, 23, 24, 18, 7, 0, 24, 13, 19, 24, 25, 26, 17)
    ensures Steps6(13, 19, 24, 25, 26, 17, 25, 31, 16, 11, 5, 29, 12)
    ensures Steps6(31, 16, 11, 5, 29, 12, 26, 26, 7, 30, 25, 6, 17)
    ensures Steps6(26, 7, 30, 25, 6, 17, 27, 31, 14, 20, 17, 9, 24)
    ensures Steps6(31, 14, 20, 17, 9, 24, 28, 4, 24, 10, 13, 18, 23)
    ensures Steps6(4, 24, 10, 13, 18, 23, 29, 23, 0, 15, 20, 24, 7)
    ensures Steps6(23, 0, 15, 20, 24, 7, 30, 20, 23, 11, 16, 19, 8)
    ensures Steps6(20, 23, 11, 16, 19, 8, 31, 13, 0, 26, 13, 18, 22)
  {
  }

  lemma Abcdef6(fed: seq<nat>)
    requires Stands6(fed, 20, 23, 24, 18, 7, 0)
    ensures Stands6(fed + [24, 25, 26, 27, 28, 29, 30, 31], 13, 0, 26, 13, 18, 22)
  {
    Abcdef6Steps();
    Values();
    hide *;
    var f := Feed6(fed, 20, 23, 24, 18, 7, 0, 24, 13, 19, 24, 25, 26, 17);
    f := Feed6(f, 13, 19, 24, 25, 26, 17, 25, 31, 16, 11, 5, 29, 12);
    f := Feed6(f, 31, 16, 11, 5, 29, 12, 26, 26, 7, 30, 25, 6, 17);
    f := Feed6(f, 26, 7, 30, 25, 6, 17, 27, 31, 14, 20, 17, 9, 24);
    f := Feed6(f, 31, 14, 20, 17, 9, 24, 28, 4, 24, 10, 13, 18, 23);
    f := Feed6(f, 4, 24, 10, 13, 18, 23, 29, 23, 0, 15, 20, 24, 7);
    f := Feed6(f, 23, 0, 15, 20, 24, 7, 30, 20, 23, 11, 16, 19, 8);
    f := Feed6(f, 20, 23, 11, 16, 19, 8, 31, 13, 0, 26, 13, 18, 22);
    assert f == fed + [24, 25, 26, 27, 28, 29, 30, 31];
  }

  lemma Abcdef7Steps()
    ensures Steps6(13, 0, 26, 13, 18, 22, 27, 12, 18, 31, 13, 26, 14)
    ensures Steps6(12, 18, 31, 13, 26, 14, 0, 3, 1, 11, 16, 31, 7)
    ensures Steps6(3, 1, 11, 16, 31, 7, 0, 15, 24, 5, 9, 9, 31)
    ensures Steps6(15, 24, 5, 9, 9, 31, 0, 7, 8, 26, 21, 0, 24)
    ensures Steps6(7, 8, 26, 21, 0, 24, 6, 9, 3, 2, 16, 25, 3)
    ensures Steps6(9, 3, 2, 16, 25, 3, 14, 0, 0, 0, 0, 0, 1)
  {
  }

  lemma Abcdef7(fed: seq<nat>)
    requires Stands6(fed, 13, 0, 26, 13, 18, 22)
    ensures Stands6(fed + [27, 0, 0, 0, 6, 14], 0, 0, 0, 0, 0, 1)
  {
    Abcdef7Steps();
    Values();
    hide *;
    var f := Feed6(fed, 13, 0, 26, 13, 18, 22, 27, 12, 18, 31, 13, 26, 14);
    f := Feed6(f, 12, 18, 31, 13, 26, 14, 0, 3, 1, 11, 16, 31, 7);
    f := Feed6(f, 3, 1, 11, 16, 31, 7, 0, 15, 24, 5, 9, 9, 31);
    f := Feed6(f, 15, 24, 5, 9, 9, 31, 0, 7, 8, 26, 21, 0, 24);
    f := Feed6(f, 7, 8, 26, 21, 0, 24, 6, 9, 3, 2, 16, 25, 3);
    f := Feed6(f, 9, 3, 2, 16, 25, 3, 14, 0, 0, 0, 0, 0, 1);
    assert f == fed + [27, 0, 0, 0, 6, 14];
  }

  lemma AbcdefResidue()
    ensures Stands6([3, 3, 3, 3, 3, 3, 0] + [1, 2, 3, 4, 5, 6] + [0, 1, 2, 3, 4, 5, 6, 7]
        + [8, 9, 10, 11, 12, 13, 14, 15] + [16, 17, 18, 19, 20, 21, 22, 23]
        + [24, 25, 26, 27, 28, 29, 30, 31] + [27, 0, 0, 0, 6, 14], 0, 0, 0, 0, 0, 1)
  {
    Started();
    hide *;
    var fed: seq<nat> := [];
    Abcdef1(fed);
    fed := fed + [3, 3, 3, 3, 3, 3, 0];
    Abcdef2(fed);
    fed := fed + [1, 2, 3, 4, 5, 6];
    Abcdef3(fed);
    fed := fed + [0, 1, 2, 3, 4, 5, 6, 7];
    Abcdef4(fed);
    fed := fed + [8, 9, 10, 11, 12, 13, 14, 15];
    Abcdef5(fed);
    fed := fed + [16, 17, 18, 19, 20, 21, 22, 23];
    Abcdef6(fed);
    fed := fed + [24, 25, 26, 27, 28, 29, 30, 31];
    Abcdef7(fed);
    fed := fed + [27, 0, 0, 0, 6, 14];
    assert [] + [3, 3, 3, 3, 3, 3, 0] == [3, 3, 3, 3, 3, 3, 0];
  }

  lemma AbcdefSpelled1()
    ensures Quintets([0, 1, 2, 3, 4, 5, 6, 7]) && Bech32.Chars([0, 1, 2, 3, 4, 5, 6, 7]) == "qpzry9x8"
  {
    hide Bech32.Chars;
    Spelled([0, 1, 2, 3, 4, 5, 6, 7], "qpzry9x8");
  }

  lemma AbcdefSpelled2()
    ensures Quintets([8, 9, 10, 11, 12, 13, 14, 15]) && Bech32.Chars([8, 9, 10, 11, 12, 13, 14, 15]) == "gf2tvdw0"
  {
    hide Bech32.Chars;
    Spelled([8, 9, 10, 11, 12, 13, 14, 15], "gf2tvdw0");
  }

  lemma AbcdefSpelled3()
    ensures Quintets([16, 17, 18, 19, 20, 21, 22, 23]) && Bech32.Chars([16, 17, 18, 19, 20, 21, 22, 23]) == "s3jn54kh"
  {
    hide Bech32.Chars;
    Spelled([16, 17, 18, 19, 20, 21, 22, 23], "s3jn54kh");
  }

  lemma AbcdefSpelled4()
    ensures Quintets([24, 25, 26, 27, 28, 29, 30, 31]) && Bech32.Chars([24, 25, 26, 27, 28, 29, 30, 31]) == "ce6mua7l"
  {
    hide Bech32.Chars;
    Spelled([24, 25, 26, 27, 28, 29, 30, 31], "ce6mua7l");
  }

  lemma AbcdefSpelled5()
    ensures Quintets([27, 0, 0, 0, 6, 14]) && Bech32.Chars([27, 0, 0, 0, 6, 14]) == "mqqqxw"
  {
    hide Bech32.Chars;
    Spelled([27, 0, 0, 0, 6, 14], "mqqqxw");
  }

  lemma AbcdefPrinted() returns (values: seq<nat>)
    ensures values == [0, 1, 2, 3, 4, 5, 6, 7] + [8, 9, 10, 11, 12, 13, 14, 15] + [16, 17, 18, 19, 20, 21, 22, 23]
      + [24, 25, 26, 27, 28, 29, 30, 31] + [27, 0, 0, 0, 6, 14]
    ensures Quintets(values)
    ensures Bech32.Chars(values) == "qpzry9x8" + "gf2tvdw0" + "s3jn54kh" + "ce6mua7l" + "mqqqxw"
  {
    hide *;
    AbcdefSpelled1();
    values := [0, 1, 2, 3, 4, 5, 6, 7];
    AbcdefSpelled2();
    CharsAppend(values, [8, 9, 10, 11, 12, 13, 14, 15]);
    values := values + [8, 9, 10, 11, 12, 13, 14, 15];
    AbcdefSpelled3();
    CharsAppend(values, [16, 17, 18, 19, 20, 21, 22, 23]);
    values := values + [16, 17, 18, 19, 20, 21, 22, 23];
    AbcdefSpelled4();
    CharsAppend(values, [24, 25, 26, 27, 28, 29, 30, 31]);
    values := values + [24, 25, 26, 27, 28, 29, 30, 31];
    AbcdefSpelled5();
    CharsAppend(values, [27, 0, 0, 0, 6, 14]);
    values := values + [27, 0, 0, 0, 6, 14];
  }

  lemma AbcdefExpanded()
    ensures Bech32.HrpExpand("abcdef") == [3, 3, 3, 3, 3, 3, 0] + [1, 2, 3, 4, 5, 6]
  {
  }

  /** BIP 173, a valid Bech32 string: part "abcdef", the values from 0 to 31 in order. */
  lemma Bip173()
    ensures var data := [0, 1, 2, 3, 4, 5, 6, 7] + [8, 9, 10, 11, 12, 13, 14, 15] + [16, 17, 18, 19, 20, 21, 22, 23]
        + [24, 25, 26, 27, 28, 29, 30, 31];
      Quintets(data + Bech32.Checksum("abcdef", data, Bech32.BECH32))
      && "abcdef" + "1" + Bech32.Chars(data + Bech32.Checksum("abcdef", data, Bech32.BECH32))
         == "abcdef" + "1" + ("qpzry9x8" + "gf2tvdw0" + "s3jn54kh" + "ce6mua7l" + "mqqqxw")
  {
    var data: seq<nat> := [0, 1, 2, 3, 4, 5, 6, 7] + [8, 9, 10, 11, 12, 13, 14, 15] + [16, 17, 18, 19, 20, 21, 22, 23]
      + [24, 25, 26, 27, 28, 29, 30, 31];
    AbcdefResidue();
    AbcdefExpanded();
    var values := AbcdefPrinted();
    Words();
    hide *;
    var x: seq<nat> := [3, 3, 3, 3, 3, 3, 0] + [1, 2, 3, 4, 5, 6];
    assert [3, 3, 3, 3, 3, 3, 0] + [1, 2, 3, 4, 5, 6] + [0, 1, 2, 3, 4, 5, 6, 7]
      + [8, 9, 10, 11, 12, 13, 14, 15] + [16, 17, 18, 19, 20, 21, 22, 23]
      + [24, 25, 26, 27, 28, 29, 30, 31] + [27, 0, 0, 0, 6, 14] == x + (data + [27, 0, 0, 0, 6, 14]);
    ChecksumIs("abcdef", x, data, 1, [27, 0, 0, 0, 6, 14]);
  }

  // ---- BIP 173: a version 0 address ------------------------------------------

  lemma KeyHashRegrouped() returns (program: seq<nat>, fives: seq<nat>)
    ensures program == [0x75, 0x1e, 0x76, 0xe8, 0x19] + [0x91, 0x96, 0xd4, 0x54, 0x94]
         + [0x1c, 0x45, 0xd1, 0xb3, 0xa3]
      + [0x23, 0xf1, 0x43, 0x3b, 0xd6]
    ensures fives == [14, 20, 15, 7, 13, 26, 0, 25] + [18, 6, 11, 13, 8, 21, 4, 20] + [3, 17, 2, 29, 3, 12, 29, 3]
      + [4, 15, 24, 20, 6, 14, 30, 22]
    ensures ConvertBits.ToFive(program) == fives
  {
    NothingRegrouped();
    hide *;
    program, fives := [], [];
    Block(program, fives, 0x75, 0x1e, 0x76, 0xe8, 0x19, 14, 20, 15, 7, 13, 26, 0, 25);
    program, fives := program + [0x75, 0x1e, 0x76, 0xe8, 0x19], fives + [14, 20, 15, 7, 13, 26, 0, 25];
    Block(program, fives, 0x91, 0x96, 0xd4, 0x54, 0x94, 18, 6, 11, 13, 8, 21, 4, 20);
    program, fives := program + [0x91, 0x96, 0xd4, 0x54, 0x94], fives + [18, 6, 11, 13, 8, 21, 4, 20];
    Block(program, fives, 0x1c, 0x45, 0xd1, 0xb3, 0xa3, 3, 17, 2, 29, 3, 12, 29, 3);
    program, fives := program + [0x1c, 0x45, 0xd1, 0xb3, 0xa3], fives + [3, 17, 2, 29, 3, 12, 29, 3];
    Block(program, fives, 0x23, 0xf1, 0x43, 0x3b, 0xd6, 4, 15, 24, 20, 6, 14, 30, 22);
    program, fives := program + [0x23, 0xf1, 0x43, 0x3b, 0xd6], fives + [4, 15, 24, 20, 6, 14, 30, 22];
    Unpadded(program, fives);
    assert [] + [0x75, 0x1e, 0x76, 0xe8, 0x19] == [0x75, 0x1e, 0x76, 0xe8, 0x19];
    assert [] + [14, 20, 15, 7, 13, 26, 0, 25] == [14, 20, 15, 7, 13, 26, 0, 25];
  }

  lemma KeyHash1Shifts()
    ensures Steps6(0, 0, 0, 0, 0, 1, 3, 0, 0, 0, 0, 1, 3)
    ensures Steps6(0, 0, 0, 0, 1, 3, 3, 0, 0, 0, 1, 3, 3)
    ensures Steps6(0, 0, 0, 1, 3, 3, 0, 0, 0, 1, 3, 3, 0)
    ensures Steps6(0, 0, 1, 3, 3, 0, 2, 0, 1, 3, 3, 0, 2)
    ensures Steps6(0, 1, 3, 3, 0, 2, 3, 1, 3, 3, 0, 2, 3)
  {
    hide *;
    Shifts6(0, 0, 0, 0, 1, 3);
    Shifts6(0, 0, 0, 1, 3, 3);
    Shifts6(0, 0, 1, 3, 3, 0);
    Shifts6(0, 1, 3, 3, 0, 2);
    Shifts6(1, 3, 3, 0, 2, 3);
  }

  lemma KeyHash1(fed: seq<nat>)
    requires Stands6(fed, 0, 0, 0, 0, 0, 1)
    ensures Stands6(fed + [3, 3, 0, 2, 3], 1, 3, 3, 0, 2, 3)
  {
    KeyHash1Shifts();
    Values();
    hide *;
    var f := Feed6(fed, 0, 0, 0, 0, 0, 1, 3, 0, 0, 0, 0, 1, 3);
    f := Feed6(f, 0, 0, 0, 0, 1, 3, 3, 0, 0, 0, 1, 3, 3);
    f := Feed6(f, 0, 0, 0, 1, 3, 3, 0, 0, 0, 1, 3, 3, 0);
    f := Feed6(f, 0, 0, 1, 3, 3, 0, 2, 0, 1, 3, 3, 0, 2);
    f := Feed6(f, 0, 1, 3, 3, 0, 2, 3, 1, 3, 3, 0, 2, 3);
    assert f == fed + [3, 3, 0, 2, 3];
  }

  lemma KeyHash2Steps()
    ensures Steps6(1, 3, 3, 0, 2, 3, 0, 30, 21, 20, 23, 30, 18)
  {
  }

  lemma KeyHash2(fed: seq<nat>)
    requires Stands6(fed, 1, 3, 3, 0, 2, 3)
    ensures Stands6(fed + [0], 30, 21, 20, 23, 30, 18)
  {
    KeyHash2Steps();
    Values();
    hide *;
    var f := Feed6(fed, 1, 3, 3, 0, 2, 3, 0, 30, 21, 20, 23, 30, 18);
    assert f == fed + [0];
  }

  lemma KeyHash3Steps()
    ensures Steps6(30, 21, 20, 23, 30, 18, 14, 2, 14, 24, 15, 5, 23)
    ensures Steps6(2, 14, 24, 15, 5, 23, 20, 29, 29, 14, 6, 4, 25)
    ensures Steps6(29, 29, 14, 6, 4, 25, 15, 4, 7, 28, 3, 0, 9)
    ensures Steps6(4, 7, 28, 3, 0, 9, 7, 8, 22, 1, 6, 6, 29)
    ensures Steps6(8, 22, 1, 6, 6, 29, 13, 8, 21, 2, 10, 3, 16)
    ensures Steps6(8, 21, 2, 10, 3, 16, 26, 11, 22, 14, 15, 14, 7)
    ensures Steps6(11, 22, 14, 15, 14, 7, 0, 6, 9, 30, 20, 23, 2)
    ensures Steps6(6, 9, 30, 20, 23, 2, 25, 21, 17, 23, 18, 30, 14)
  {
  }

  lemma KeyHash3(fed: seq<nat>)
    requires Stands6(fed, 30, 21, 20, 23, 30, 18)
    ensures Stands6(fed + [14, 20, 15, 7, 13, 26, 0, 25], 21, 17, 23, 18, 30, 14)
  {
    KeyHash3Steps();
    Values();
    hide *;
    var f := Feed6(fed, 30, 21, 20, 23, 30, 18, 14, 2, 14, 24, 15, 5, 23);
    f := Feed6(f, 2, 14, 24, 15, 5, 23, 20, 29, 29, 14, 6, 4, 25);
    f := Feed6(f, 29, 29, 14, 6, 4, 25, 15, 4, 7, 28, 3, 0, 9);
    f := Feed6(f, 4, 7, 28, 3, 0, 9, 7, 8, 22, 1, 6, 6, 29);
    f := Feed6(f, 8, 22, 1, 6, 6, 29, 13, 8, 21, 2, 10, 3, 16);
    f := Feed6(f, 8, 21, 2, 10, 3, 16, 26, 11, 22, 14, 15, 14, 7);
    f := Feed6(f, 11, 22, 14, 15, 14, 7, 0, 6, 9, 30, 20, 23, 2);
    f := Feed6(f, 6, 9, 30, 20, 23, 2, 25, 21, 17, 23, 18, 30, 14);
    assert f == fed + [14, 20, 15, 7, 13, 26, 0, 25];
  }

  lemma KeyHash4Steps()
    ensures Steps6(21, 17, 23, 18, 30, 14, 18, 22, 10, 12, 21, 9, 9)
    ensures Steps6(22, 10, 12, 21, 9, 9, 6, 3, 2, 30, 20, 0, 2)
    ensures Steps6(3, 2, 30, 20, 0, 2, 11, 12, 13, 1, 22, 12, 20)
    ensures Steps6(12, 13, 1, 22, 12, 20, 13, 28, 31, 16, 6, 5, 10)
    ensures Steps6(28, 31, 16, 6, 5, 10, 8, 27, 15, 8, 23, 14, 28)
    ensures Steps6(27, 15, 8, 23, 14, 28, 21, 10, 14, 14, 12, 25, 4)
    ensures Steps6(10, 14, 14, 12, 25, 4, 4, 3, 31, 9, 22, 9, 20)
    ensures Steps6(3, 31, 9, 22, 9, 20, 20, 17, 26, 3, 31, 26, 11)
  {
  }

  lemma KeyHash4(fed: seq<nat>)
    requires Stands6(fed, 21, 17, 23, 18, 30, 14)
    ensures Stands6(fed + [18, 6, 11, 13, 8, 21, 4, 20], 17, 26, 3, 31, 26, 11)
  {
    KeyHash4Steps();
    Values();
    hide *;
    var f := Feed6(fed, 21, 17, 23, 18, 30, 14, 18, 22, 10, 12, 21, 9, 9);
    f := Feed6(f, 22, 10, 12, 21, 9, 9, 6, 3, 2, 30, 20, 0, 2);
    f := Feed6(f, 3, 2, 30, 20, 0, 2, 11, 12, 13, 1, 22, 12, 20);
    f := Feed6(f, 12, 13, 1, 22, 12, 20, 13, 28, 31, 16, 6, 5, 10);
    f := Feed6(f, 28, 31, 16, 6, 5, 10, 8, 27, 15, 8, 23, 14, 28);
    f := Feed6(f, 27, 15, 8, 23, 14, 28, 21, 10, 14, 14, 12, 25, 4);
    f := Feed6(f, 10, 14, 14, 12, 25, 4, 4, 3, 31, 9, 22, 9, 20);
    f := Feed6(f, 3, 31, 9, 22, 9, 20, 20, 17, 26, 3, 31, 26, 11);
    assert f == fed + [18, 6, 11, 13, 8, 21, 4, 20];
  }

  lemma KeyHash5Steps()
    ensures Steps6(17, 26, 3, 31, 26, 11, 3, 18, 20, 3, 23, 3, 2)
    ensures Steps6(18, 20, 3, 23, 3, 2, 17, 18, 7, 30, 24, 4, 15)
    ensures Steps6(18, 7, 30, 24, 4, 15, 2, 1, 26, 17, 31, 9, 28)
    ensures Steps6(1, 26, 17, 31, 9, 28, 29, 7, 7, 11, 28, 1, 15)
    ensures Steps6(7, 7, 11, 28, 1, 15, 3, 6, 18, 11, 17, 14, 6)
    ensures Steps6(6, 18, 11, 17, 14, 6, 12, 14, 4, 18, 11, 26, 27)
    ensures Steps6(14, 4, 18, 11, 26, 27, 29, 6, 9, 12, 19, 25, 23)
    ensures Steps6(6, 9, 12, 19, 25, 23, 3, 21, 3, 16, 28, 11, 20)
  {
  }

  lemma KeyHash5(fed: seq<nat>)
    requires Stands6(fed, 17, 26, 3, 31, 26, 11)
    ensures Stands6(fed + [3, 17, 2, 29, 3, 12, 29, 3], 21, 3, 16, 28, 11, 20)
  {
    KeyHash5Steps();
    Values();
    hide *;
    var f := Feed6(fed, 17, 26, 3, 31, 26, 11, 3, 18, 20, 3, 23, 3, 2);
    f := Feed6(f, 18, 20, 3, 23, 3, 2, 17, 18, 7, 30, 24, 4, 15);
    f := Feed6(f, 18, 7, 30, 24, 4, 15, 2, 1, 26, 17, 31, 9, 28);
    f := Feed6(f, 1, 26, 17, 31, 9, 28, 29, 7, 7, 11, 28, 1, 15);
    f := Feed6(f, 7, 7, 11, 28, 1, 15, 3, 6, 18, 11, 17, 14, 6);
    f := Feed6(f, 6, 18, 11, 17, 14, 6, 12, 14, 4, 18, 11, 26, 27);
    f := Feed6(f, 14, 4, 18, 11, 26, 27, 29, 6, 9, 12, 19, 25, 23);
    f := Feed6(f, 6, 9, 12, 19, 25, 23, 3, 21, 3, 16, 28, 11, 20);
    assert f == fed + [3, 17, 2, 29, 3, 12, 29, 3];
  }

  lemma KeyHash6Steps()
    ensures Steps6(21, 3, 16, 28, 11, 20, 4, 4, 13, 2, 0, 19, 31)
    ensures Steps6(4, 13, 2, 0, 19, 31, 15, 2, 8, 2, 21, 16, 21)
    ensures Steps6(2, 8, 2, 21, 16, 21, 24, 27, 7, 20, 19, 6, 21)
    ensures Steps6(27, 7, 20, 19, 6, 21, 20, 2, 18, 10, 4, 16, 5)
    ensures Steps6(2, 18, 10, 4, 16, 5, 6, 1, 15, 5, 19, 22, 11)
    ensures Steps6(1, 15, 5, 19, 22, 11, 14, 18, 19, 7, 3, 22, 28)
    ensures Steps6(18, 19, 7, 3, 22, 28, 30, 21, 3, 10, 13, 26, 0)
    ensures Steps6(21, 3, 10, 13, 26, 0, 22, 4, 23, 19, 17, 7, 13)
  {
  }

  lemma KeyHash6(fed: seq<nat>)
    requires Stands6(fed, 21, 3, 16, 28, 11, 20)
    ensures Stands6(fed + [4, 15, 24, 20, 6, 14, 30, 22], 4, 23, 19, 17, 7, 13)
  {
    KeyHash6Steps();
    Values();
    hide *;
    var f := Feed6(fed, 21, 3, 16, 28, 11, 20, 4, 4, 13, 2, 0, 19, 31);
    f := Feed6(f, 4, 13, 2, 0, 19, 31, 15, 2, 8, 2, 21, 16, 21);
    f := Feed6(f, 2, 8, 2, 21, 16, 21, 24, 27, 7, 20, 19, 6, 21);
    f := Feed6(f, 27, 7, 20, 19, 6, 21, 20, 2, 18, 10, 4, 16, 5);
    f := Feed6(f, 2, 18, 10, 4, 16, 5, 6, 1, 15, 5, 19, 22, 11);
    f := Feed6(f, 1, 15, 5, 19, 22, 11, 14, 18, 19, 7, 3, 22, 28);
    f := Feed6(f, 18, 19, 7, 3, 22, 28, 30, 21, 3, 10, 13, 26, 0);
    f := Feed6(f, 21, 3, 10, 13, 26, 0, 22, 4, 23, 19, 17, 7, 13);
    assert f == fed + [4, 15, 24, 20, 6, 14, 30, 22];
  }

  lemma KeyHash7Steps()
    ensures Steps6(4, 23, 19, 17, 7, 13, 12, 24, 25, 19, 1, 2, 22)
    ensures Steps6(24, 25, 19, 1, 2, 22, 7, 18, 6, 13, 22, 29, 9)
    ensures Steps6(18, 6, 13, 22, 29, 9, 9, 0, 9, 31, 6, 15, 23)
    ensures Steps6(9, 31, 6, 15, 23, 17, 11, 28, 4, 31, 14, 18, 4)
    ensures Steps6(28, 4, 31, 14, 18, 4, 21, 0, 0, 0, 0, 0, 1)
  {
  }

  lemma KeyHash7Shifts()
    ensures Steps6(0, 9, 31, 6, 15, 23, 17, 9, 31, 6, 15, 23, 17)
  {
    hide *;
    Shifts6(9, 31, 6, 15, 23, 17);
  }

  lemma KeyHash7(fed: seq<nat>)
    requires Stands6(fed, 4, 23, 19, 17, 7, 13)
    ensures Stands6(fed + [12, 7, 9, 17, 11, 21], 0, 0, 0, 0, 0, 1)
  {
    KeyHash7Steps();
    KeyHash7Shifts();
    Values();
    hide *;
    var f := Feed6(fed, 4, 23, 19, 17, 7, 13, 12, 24, 25, 19, 1, 2, 22);
    f := Feed6(f, 24, 25, 19, 1, 2, 22, 7, 18, 6, 13, 22, 29, 9);
    f := Feed6(f, 18, 6, 13, 22, 29, 9, 9, 0, 9, 31, 6, 15, 23);
    f := Feed6(f, 0, 9, 31, 6, 15, 23, 17, 9, 31, 6, 15, 23, 17);
    f := Feed6(f, 9, 31, 6, 15, 23, 17, 11, 28, 4, 31, 14, 18, 4);
    f := Feed6(f, 28, 4, 31, 14, 18, 4, 21, 0, 0, 0, 0, 0, 1);
    assert f == fed + [12, 7, 9, 17, 11, 21];
  }

  lemma KeyHashResidue()
    ensures Stands6([3, 3, 0, 2, 3] + [0] + [14, 20, 15, 7, 13, 26, 0, 25] + [18, 6, 11, 13, 8, 21, 4, 20]
        + [3, 17, 2, 29, 3, 12, 29, 3] + [4, 15, 24, 20, 6, 14, 30, 22] + [12, 7, 9, 17, 11, 21], 0, 0, 0, 0, 0, 1)
  {
    Started();
    hide *;
    var fed: seq<nat> := [];
    KeyHash1(fed);
    fed := fed + [3, 3, 0, 2, 3];
    KeyHash2(fed);
    fed := fed + [0];
    KeyHash3(fed);
    fed := fed + [14, 20, 15, 7, 13, 26, 0, 25];
    KeyHash4(fed);
    fed := fed + [18, 6, 11, 13, 8, 21, 4, 20];
    KeyHash5(fed);
    fed := fed + [3, 17, 2, 29, 3, 12, 29, 3];
    KeyHash6(fed);
    fed := fed + [4, 15, 24, 20, 6, 14, 30, 22];
    KeyHash7(fed);
    fed := fed + [12, 7, 9, 17, 11, 21];
    assert [] + [3, 3, 0, 2, 3] == [3, 3, 0, 2, 3];
  }

  lemma KeyHashSpelled1()
    ensures Quintets([0]) && Bech32.Chars([0]) == "q"
  {
    hide Bech32.Chars;
    Spelled([0], "q");
  }

  lemma KeyHashSpelled2()
    ensures Quintets([14, 20, 15, 7, 13, 26, 0, 25]) && Bech32.Chars([14, 20, 15, 7, 13, 26, 0, 25]) == "w508d6qe"
  {
    hide Bech32.Chars;
    Spelled([14, 20, 15, 7, 13, 26, 0, 25], "w508d6qe");
  }

  lemma KeyHashSpelled3()
    ensures Quintets([18, 6, 11, 13, 8, 21, 4, 20]) && Bech32.Chars([18, 6, 11, 13, 8, 21, 4, 20]) == "jxtdg4y5"
  {
    hide Bech32.Chars;
    Spelled([18, 6, 11, 13, 8, 21, 4, 20], "jxtdg4y5");
  }

  lemma KeyHashSpelled4()
    ensures Quintets([3, 17, 2, 29, 3, 12, 29, 3]) && Bech32.Chars([3, 17, 2, 29, 3, 12, 29, 3]) == "r3zarvar"
  {
    hide Bech32.Chars;
    Spelled([3, 17, 2, 29, 3, 12, 29, 3], "r3zarvar");
  }

  lemma KeyHashSpelled5()
    ensures Quintets([4, 15, 24, 20, 6, 14, 30, 22]) && Bech32.Chars([4, 15, 24, 20, 6, 14, 30, 22]) == "y0c5xw7k"
  {
    hide Bech32.Chars;
    Spelled([4, 15, 24, 20, 6, 14, 30, 22], "y0c5xw7k");
  }

  lemma KeyHashSpelled6()
    ensures Quintets([12, 7, 9, 17, 11, 21]) && Bech32.Chars([12, 7, 9, 17, 11, 21]) == "v8f3t4"
  {
    hide Bech32.Chars;
    Spelled([12, 7, 9, 17, 11, 21], "v8f3t4");
  }

  lemma KeyHashPrinted() returns (values: seq<nat>)
    ensures values == [0] + [14, 20, 15, 7, 13, 26, 0, 25] + [18, 6, 11, 13, 8, 21, 4, 20]
      + [3, 17, 2, 29, 3, 12, 29, 3] + [4, 15, 24, 20, 6, 14, 30, 22] + [12, 7, 9, 17, 11, 21]
    ensures Quintets(values)
    ensures Bech32.Chars(values) == "q" + "w508d6qe" + "jxtdg4y5" + "r3zarvar" + "y0c5xw7k" + "v8f3t4"
  {
    hide *;
    KeyHashSpelled1();
    values := [0];
    KeyHashSpelled2();
    CharsAppend(values, [14, 20, 15, 7, 13, 26, 0, 25]);
    values := values + [14, 20, 15, 7, 13, 26, 0, 25];
    KeyHashSpelled3();
    CharsAppend(values, [18, 6, 11, 13, 8, 21, 4, 20]);
    values := values + [18, 6, 11, 13, 8, 21, 4, 20];
    KeyHashSpelled4();
    CharsAppend(values, [3, 17, 2, 29, 3, 12, 29, 3]);
    values := values + [3, 17, 2, 29, 3, 12, 29, 3];
    KeyHashSpelled5();
    CharsAppend(values, [4, 15, 24, 20, 6, 14, 30, 22]);
    values := values + [4, 15, 24, 20, 6, 14, 30, 22];
    KeyHashSpelled6();
    CharsAppend(values, [12, 7, 9, 17, 11, 21]);
    values := values + [12, 7, 9, 17, 11, 21];
  }

  lemma KeyHashExpanded()
    ensures Bech32.HrpExpand("bc") == [3, 3, 0, 2, 3]
  {
  }

  lemma KeyHashChecksum(fives: seq<nat>)
    requires fives == [14, 20, 15, 7, 13, 26, 0, 25] + [18, 6, 11, 13, 8, 21, 4, 20] + [3, 17, 2, 29, 3, 12, 29, 3]
      + [4, 15, 24, 20, 6, 14, 30, 22]
    ensures Bech32.Checksum("bc", [0] + fives, Bech32.Spec(0)) == [12, 7, 9, 17, 11, 21]
  {
    KeyHashResidue();
    KeyHashExpanded();
    KeyHashTarget();
    KeyHashSpelled6();
    hide *;
    Gather4([3, 3, 0, 2, 3], [0], [14, 20, 15, 7, 13, 26, 0, 25], [18, 6, 11, 13, 8, 21, 4, 20],
      [3, 17, 2, 29, 3, 12, 29, 3], [4, 15, 24, 20, 6, 14, 30, 22], [12, 7, 9, 17, 11, 21]);
    TargetReached([3, 3, 0, 2, 3] + ([0] + fives + [12, 7, 9, 17, 11, 21]));
    ChecksumIs("bc", [3, 3, 0, 2, 3], [0] + fives, 0x1, [12, 7, 9, 17, 11, 21]);
  }

  lemma KeyHashTarget()
    ensures Bech32.Spec(0) == 0x1
  {
  }

  /** BIP 173, section "Examples": the mainnet P2WPKH address of the generator's key. */
  lemma Bip173Address(program: seq<nat>)
    requires program == [0x75, 0x1e, 0x76, 0xe8, 0x19] + [0x91, 0x96, 0xd4, 0x54, 0x94]
         + [0x1c, 0x45, 0xd1, 0xb3, 0xa3]
      + [0x23, 0xf1, 0x43, 0x3b, 0xd6]
    ensures Bech32.Encoded("bc", 0, program)
         == "bc" + "1" + ("q" + "w508d6qe" + "jxtdg4y5" + "r3zarvar" + "y0c5xw7k" + "v8f3t4")
  {
    hide *;
    var bytes, fives := KeyHashRegrouped();
    var values := KeyHashPrinted();
    KeyHashChecksum(fives);
    Gather4([], [0], [14, 20, 15, 7, 13, 26, 0, 25], [18, 6, 11, 13, 8, 21, 4, 20],
      [3, 17, 2, 29, 3, 12, 29, 3], [4, 15, 24, 20, 6, 14, 30, 22], [12, 7, 9, 17, 11, 21]);
    EncodedIs("bc", 0, program, fives, [12, 7, 9, 17, 11, 21], values);
  }

  // ---- BIP 350: a version 1 address ------------------------------------------

  lemma KeyItselfRegrouped() returns (program: seq<nat>, fives: seq<nat>)
    ensures program == [0x79, 0xbe, 0x66, 0x7e, 0xf9] + [0xdc, 0xbb, 0xac, 0x55, 0xa0]
         + [0x62, 0x95, 0xce, 0x87, 0x0b]
      + [0x07, 0x02, 0x9b, 0xfc, 0xdb] + [0x2d, 0xce, 0x28, 0xd9, 0x59] + [0xf2, 0x81, 0x5b, 0x16, 0xf8]
      + [0x17, 0x98]
    ensures fives == [15, 6, 31, 6, 12, 31, 23, 25] + [27, 18, 29, 26, 24, 21, 13, 0]
         + [12, 10, 10, 28, 29, 1, 24, 11]
      + [0, 28, 1, 9, 23, 31, 6, 27] + [5, 23, 7, 2, 17, 22, 10, 25] + [30, 10, 0, 21, 22, 5, 23, 24]
      + [2, 30, 12, 0]
    ensures ConvertBits.ToFive(program) == fives
  {
    NothingRegrouped();
    hide *;
    program, fives := [], [];
    Block(program, fives, 0x79, 0xbe, 0x66, 0x7e, 0xf9, 15, 6, 31, 6, 12, 31, 23, 25);
    program, fives := program + [0x79, 0xbe, 0x66, 0x7e, 0xf9], fives + [15, 6, 31, 6, 12, 31, 23, 25];
    Block(program, fives, 0xdc, 0xbb, 0xac, 0x55, 0xa0, 27, 18, 29, 26, 24, 21, 13, 0);
    program, fives := program + [0xdc, 0xbb, 0xac, 0x55, 0xa0], fives + [27, 18, 29, 26, 24, 21, 13, 0];
    Block(program, fives, 0x62, 0x95, 0xce, 0x87, 0x0b, 12, 10, 10, 28, 29, 1, 24, 11);
    program, fives := program + [0x62, 0x95, 0xce, 0x87, 0x0b], fives + [12, 10, 10, 28, 29, 1, 24, 11];
    Block(program, fives, 0x07, 0x02, 0x9b, 0xfc, 0xdb, 0, 28, 1, 9, 23, 31, 6, 27);
    program, fives := program + [0x07, 0x02, 0x9b, 0xfc, 0xdb], fives + [0, 28, 1, 9, 23, 31, 6, 27];
    Block(program, fives, 0x2d, 0xce, 0x28, 0xd9, 0x59, 5, 23, 7, 2, 17, 22, 10, 25);
    program, fives := program + [0x2d, 0xce, 0x28, 0xd9, 0x59], fives + [5, 23, 7, 2, 17, 22, 10, 25];
    Block(program, fives, 0xf2, 0x81, 0x5b, 0x16, 0xf8, 30, 10, 0, 21, 22, 5, 23, 24);
    program, fives := program + [0xf2, 0x81, 0x5b, 0x16, 0xf8], fives + [30, 10, 0, 21, 22, 5, 23, 24];
    LastBlock(program, fives, 0x17, 0x98, 2, 30, 12, 0);
    program, fives := program + [0x17, 0x98], fives + [2, 30, 12, 0];
    FiveUnique(program, fives, 4);
    assert [] + [0x79, 0xbe, 0x66, 0x7e, 0xf9] == [0x79, 0xbe, 0x66, 0x7e, 0xf9];
    assert [] + [15, 6, 31, 6, 12, 31, 23, 25] == [15, 6, 31, 6, 12, 31, 23, 25];
  }

  lemma KeyItself1Shifts()
    ensures Steps6(0, 0, 0, 0, 0, 1, 3, 0, 0, 0, 0, 1, 3)
    ensures Steps6(0, 0, 0, 0, 1, 3, 3, 0, 0, 0, 1, 3, 3)
    ensures Steps6(0, 0, 0, 1, 3, 3, 0, 0, 0, 1, 3, 3, 0)
    ensures Steps6(0, 0, 1, 3, 3, 0, 2, 0, 1, 3, 3, 0, 2)
    ensures Steps6(0, 1, 3, 3, 0, 2, 3, 1, 3, 3, 0, 2, 3)
  {
    hide *;
    Shifts6(0, 0, 0, 0, 1, 3);
    Shifts6(0, 0, 0, 1, 3, 3);
    Shifts6(0, 0, 1, 3, 3, 0);
    Shifts6(0, 1, 3, 3, 0, 2);
    Shifts6(1, 3, 3, 0, 2, 3);
  }

  lemma KeyItself1(fed: seq<nat>)
    requires Stands6(fed, 0, 0, 0, 0, 0, 1)
    ensures Stands6(fed + [3, 3, 0, 2, 3], 1, 3, 3, 0, 2, 3)
  {
    KeyItself1Shifts();
    Values();
    hide *;
    var f := Feed6(fed, 0, 0, 0, 0, 0, 1, 3, 0, 0, 0, 0, 1, 3);
    f := Feed6(f, 0, 0, 0, 0, 1, 3, 3, 0, 0, 0, 1, 3, 3);
    f := Feed6(f, 0, 0, 0, 1, 3, 3, 0, 0, 0, 1, 3, 3, 0);
    f := Feed6(f, 0, 0, 1, 3, 3, 0, 2, 0, 1, 3, 3, 0, 2);
    f := Feed6(f, 0, 1, 3, 3, 0, 2, 3, 1, 3, 3, 0, 2, 3);
    assert f == fed + [3, 3, 0, 2, 3];
  }

  lemma KeyItself2Steps()
    ensures Steps6(1, 3, 3, 0, 2, 3, 1, 30, 21, 20, 23, 30, 19)
  {
  }

  lemma KeyItself2(fed: seq<nat>)
    requires Stands6(fed, 1, 3, 3, 0, 2, 3)
    ensures Stands6(fed + [1], 30, 21, 20, 23, 30, 19)
  {
    KeyItself2Steps();
    Values();
    hide *;
    var f := Feed6(fed, 1, 3, 3, 0, 2, 3, 1, 30, 21, 20, 23, 30, 19);
    assert f == fed + [1];
  }

  lemma KeyItself3Steps()
    ensures Steps6(30, 21, 20, 23, 30, 19, 15, 2, 14, 24, 15, 4, 22)
    ensures Steps6(2, 14, 24, 15, 4, 22, 6, 29, 29, 14, 7, 5, 11)
    ensures Steps6(29, 29, 14, 7, 5, 11, 31, 4, 7, 29, 2, 18, 25)
    ensures Steps6(4, 7, 29, 2, 18, 25, 6, 8, 23, 0, 20, 22, 28)
    ensures Steps6(8, 23, 0, 20, 22, 28, 12, 9, 20, 16, 26, 2, 17)
    ensures Steps6(9, 20, 16, 26, 2, 17, 31, 23, 18, 10, 27, 18, 16)
    ensures Steps6(23, 18, 10, 27, 18, 16, 23, 6, 18, 4, 26, 4, 1)
    ensures Steps6(6, 18, 4, 26, 4, 1, 25, 14, 11, 25, 1, 29, 14)
  {
  }

  lemma KeyItself3(fed: seq<nat>)
    requires Stands6(fed, 30, 21, 20, 23, 30, 19)
    ensures Stands6(fed + [15, 6, 31, 6, 12, 31, 23, 25], 14, 11, 25, 1, 29, 14)
  {
    KeyItself3Steps();
    Values();
    hide *;
    var f := Feed6(fed, 30, 21, 20, 23, 30, 19, 15, 2, 14, 24, 15, 4, 22);
    f := Feed6(f, 2, 14, 24, 15, 4, 22, 6, 29, 29, 14, 7, 5, 11);
    f := Feed6(f, 29, 29, 14, 7, 5, 11, 31, 4, 7, 29, 2, 18, 25);
    f := Feed6(f, 4, 7, 29, 2, 18, 25, 6, 8, 23, 0, 20, 22, 28);
    f := Feed6(f, 8, 23, 0, 20, 22, 28, 12, 9, 20, 16, 26, 2, 17);
    f := Feed6(f, 9, 20, 16, 26, 2, 17, 31, 23, 18, 10, 27, 18, 16);
    f := Feed6(f, 23, 18, 10, 27, 18, 16, 23, 6, 18, 4, 26, 4, 1);
    f := Feed6(f, 6, 18, 4, 26, 4, 1, 25, 14, 11, 25, 1, 29, 14);
    assert f == fed + [15, 6, 31, 6, 12, 31, 23, 25];
  }

  lemma KeyItself4Steps()
    ensures Steps6(14, 11, 25, 1, 29, 14, 27, 9, 2, 6, 20, 12, 17)
    ensures Steps6(9, 2, 6, 20, 12, 17, 18, 1, 4, 4, 21, 18, 29)
    ensures Steps6(1, 4, 4, 21, 18, 29, 29, 25, 18, 1, 7, 0, 15)
    ensures Steps6(25, 18, 1, 7, 0, 15, 26, 4, 2, 31, 1, 25, 6)
    ensures Steps6(4, 2, 31, 1, 25, 6, 24, 13, 21, 3, 31, 9, 2)
    ensures Steps6(13, 21, 3, 31, 9, 2, 21, 25, 11, 13, 22, 14, 0)
    ensures Steps6(25, 11, 13, 22, 14, 0, 13, 29, 14, 14, 15, 22, 17)
    ensures Steps6(29, 14, 14, 15, 22, 17, 0, 23, 7, 21, 17, 8, 6)
  {
  }

  lemma KeyItself4(fed: seq<nat>)
    requires Stands6(fed, 14, 11, 25, 1, 29, 14)
    ensures Stands6(fed + [27, 18, 29, 26, 24, 21, 13, 0], 23, 7, 21, 17, 8, 6)
  {
    KeyItself4Steps();
    Values();
    hide *;
    var f := Feed6(fed, 14, 11, 25, 1, 29, 14, 27, 9, 2, 6, 20, 12, 17);
    f := Feed6(f, 9, 2, 6, 20, 12, 17, 18, 1, 4, 4, 21, 18, 29);
    f := Feed6(f, 1, 4, 4, 21, 18, 29, 29, 25, 18, 1, 7, 0, 15);
    f := Feed6(f, 25, 18, 1, 7, 0, 15, 26, 4, 2, 31, 1, 25, 6);
    f := Feed6(f, 4, 2, 31, 1, 25, 6, 24, 13, 21, 3, 31, 9, 2);
    f := Feed6(f, 13, 21, 3, 31, 9, 2, 21, 25, 11, 13, 22, 14, 0);
    f := Feed6(f, 25, 11, 13, 22, 14, 0, 13, 29, 14, 14, 15, 22, 17);
    f := Feed6(f, 29, 14, 14, 15, 22, 17, 0, 23, 7, 21, 17, 8, 6);
    assert f == fed + [27, 18, 29, 26, 24, 21, 13, 0];
  }

  lemma KeyItself5Steps()
    ensures Steps6(23, 7, 21, 17, 8, 6, 12, 19, 13, 14, 0, 18, 26)
    ensures Steps6(19, 13, 14, 0, 18, 26, 10, 22, 28, 29, 28, 1, 6)
    ensures Steps6(22, 28, 29, 28, 1, 6, 10, 21, 19, 23, 28, 15, 14)
    ensures Steps6(21, 19, 23, 28, 15, 14, 28, 20, 10, 2, 4, 9, 7)
    ensures Steps6(20, 10, 2, 4, 9, 7, 29, 16, 9, 14, 23, 29, 20)
    ensures Steps6(16, 9, 14, 23, 29, 20, 1, 28, 15, 31, 5, 1, 18)
    ensures Steps6(28, 15, 31, 5, 1, 18, 24, 11, 0, 11, 19, 22, 12)
    ensures Steps6(11, 0, 11, 19, 22, 12, 11, 16, 12, 2, 12, 28, 9)
  {
  }

  lemma KeyItself5(fed: seq<nat>)
    requires Stands6(fed, 23, 7, 21, 17, 8, 6)
    ensures Stands6(fed + [12, 10, 10, 28, 29, 1, 24, 11], 16, 12, 2, 12, 28, 9)
  {
    KeyItself5Steps();
    Values();
    hide *;
    var f := Feed6(fed, 23, 7, 21, 17, 8, 6, 12, 19, 13, 14, 0, 18, 26);
    f := Feed6(f, 19, 13, 14, 0, 18, 26, 10, 22, 28, 29, 28, 1, 6);
    f := Feed6(f, 22, 28, 29, 28, 1, 6, 10, 21, 19, 23, 28, 15, 14);
    f := Feed6(f, 21, 19, 23, 28, 15, 14, 28, 20, 10, 2, 4, 9, 7);
    f := Feed6(f, 20, 10, 2, 4, 9, 7, 29, 16, 9, 14, 23, 29, 20);
    f := Feed6(f, 16, 9, 14, 23, 29, 20, 1, 28, 15, 31, 5, 1, 18);
    f := Feed6(f, 28, 15, 31, 5, 1, 18, 24, 11, 0, 11, 19, 22, 12);
    f := Feed6(f, 11, 0, 11, 19, 22, 12, 11, 16, 12, 2, 12, 28, 9);
    assert f == fed + [12, 10, 10, 28, 29, 1, 24, 11];
  }

  lemma KeyItself6Steps()
    ensures Steps6(16, 12, 2, 12, 28, 9, 0, 25, 3, 4, 4, 28, 19)
    ensures Steps6(25, 3, 4, 4, 28, 19, 28, 21, 7, 28, 29, 5, 0)
    ensures Steps6(21, 7, 28, 29, 5, 0, 1, 0, 1, 3, 14, 7, 26)
    ensures Steps6(1, 3, 14, 7, 26, 9, 23, 30, 24, 19, 15, 20, 5)
    ensures Steps6(30, 24, 19, 15, 20, 5, 31, 15, 9, 0, 5, 18, 6)
    ensures Steps6(15, 9, 0, 5, 18, 6, 6, 22, 13, 22, 14, 25, 30)
    ensures Steps6(22, 13, 22, 14, 25, 30, 27, 4, 24, 5, 4, 23, 31)
  {
  }

  lemma KeyItself6Shifts()
    ensures Steps6(0, 1, 3, 14, 7, 26, 9, 1, 3, 14, 7, 26, 9)
  {
    hide *;
    Shifts6(1, 3, 14, 7, 26, 9);
  }

  lemma KeyItself6(fed: seq<nat>)
    requires Stands6(fed, 16, 12, 2, 12, 28, 9)
    ensures Stands6(fed + [0, 28, 1, 9, 23, 31, 6, 27], 4, 24, 5, 4, 23, 31)
  {
    KeyItself6Steps();
    KeyItself6Shifts();
    Values();
    hide *;
    var f := Feed6(fed, 16, 12, 2, 12, 28, 9, 0, 25, 3, 4, 4, 28, 19);
    f := Feed6(f, 25, 3, 4, 4, 28, 19, 28, 21, 7, 28, 29, 5, 0);
    f := Feed6(f, 21, 7, 28, 29, 5, 0, 1, 0, 1, 3, 14, 7, 26);
    f := Feed6(f, 0, 1, 3, 14, 7, 26, 9, 1, 3, 14, 7, 26, 9);
    f := Feed6(f, 1, 3, 14, 7, 26, 9, 23, 30, 24, 19, 15, 20, 5);
    f := Feed6(f, 30, 24, 19, 15, 20, 5, 31, 15, 9, 0, 5, 18, 6);
    f := Feed6(f, 15, 9, 0, 5, 18, 6, 6, 22, 13, 22, 14, 25, 30);
    f := Feed6(f, 22, 13, 22, 14, 25, 30, 27, 4, 24, 5, 4, 23, 31);
    assert f == fed + [0, 28, 1, 9, 23, 31, 6, 27];
  }

  lemma KeyItself7Steps()
    ensures Steps6(4, 24, 5, 4, 23, 31, 5, 23, 15, 6, 17, 16, 31)
    ensures Steps6(23, 15, 6, 17, 16, 31, 23, 27, 30, 14, 24, 11, 1)
    ensures Steps6(27, 30, 14, 24, 11, 1, 7, 27, 8, 1, 9, 4, 22)
    ensures Steps6(27, 8, 1, 9, 4, 22, 2, 13, 7, 16, 6, 19, 19)
    ensures Steps6(13, 7, 16, 6, 19, 19, 17, 11, 24, 20, 12, 31, 4)
    ensures Steps6(11, 24, 20, 12, 31, 4, 22, 8, 19, 29, 5, 20, 20)
    ensures Steps6(8, 19, 29, 5, 20, 20, 10, 13, 9, 1, 24, 10, 23)
    ensures Steps6(13, 9, 1, 24, 10, 23, 25, 5, 9, 10, 21, 27, 12)
  {
  }

  lemma KeyItself7(fed: seq<nat>)
    requires Stands6(fed, 4, 24, 5, 4, 23, 31)
    ensures Stands6(fed + [5, 23, 7, 2, 17, 22, 10, 25], 5, 9, 10, 21, 27, 12)
  {
    KeyItself7Steps();
    Values();
    hide *;
    var f := Feed6(fed, 4, 24, 5, 4, 23, 31, 5, 23, 15, 6, 17, 16, 31);
    f := Feed6(f, 23, 15, 6, 17, 16, 31, 23, 27, 30, 14, 24, 11, 1);
    f := Feed6(f, 27, 30, 14, 24, 11, 1, 7, 27, 8, 1, 9, 4, 22);
    f := Feed6(f, 27, 8, 1, 9, 4, 22, 2, 13, 7, 16, 6, 19, 19);
    f := Feed6(f, 13, 7, 16, 6, 19, 19, 17, 11, 24, 20, 12, 31, 4);
    f := Feed6(f, 11, 24, 20, 12, 31, 4, 22, 8, 19, 29, 5, 20, 20);
    f := Feed6(f, 8, 19, 29, 5, 20, 20, 10, 13, 9, 1, 24, 10, 23);
    f := Feed6(f, 13, 9, 1, 24, 10, 23, 25, 5, 9, 10, 21, 27, 12);
    assert f == fed + [5, 23, 7, 2, 17, 22, 10, 25];
  }

  lemma KeyItself8Steps()
    ensures Steps6(5, 9, 10, 21, 27, 12, 30, 27, 22, 3, 8, 30, 22)
    ensures Steps6(27, 22, 3, 8, 30, 22, 10, 19, 5, 17, 28, 19, 27)
    ensures Steps6(19, 5, 17, 28, 19, 27, 0, 30, 3, 1, 29, 0, 12)
    ensures Steps6(30, 3, 1, 29, 0, 12, 21, 20, 27, 18, 17, 27, 12)
    ensures Steps6(20, 27, 18, 17, 27, 12, 22, 1, 25, 27, 5, 22, 31)
    ensures Steps6(1, 25, 27, 5, 22, 31, 5, 4, 13, 17, 3, 2, 23)
    ensures Steps6(4, 13, 17, 3, 2, 23, 23, 2, 27, 1, 4, 24, 13)
    ensures Steps6(2, 27, 1, 4, 24, 13, 24, 8, 4, 5, 27, 30, 21)
  {
  }

  lemma KeyItself8(fed: seq<nat>)
    requires Stands6(fed, 5, 9, 10, 21, 27, 12)
    ensures Stands6(fed + [30, 10, 0, 21, 22, 5, 23, 24], 8, 4, 5, 27, 30, 21)
  {
    KeyItself8Steps();
    Values();
    hide *;
    var f := Feed6(fed, 5, 9, 10, 21, 27, 12, 30, 27, 22, 3, 8, 30, 22);
    f := Feed6(f, 27, 22, 3, 8, 30, 22, 10, 19, 5, 17, 28, 19, 27);
    f := Feed6(f, 19, 5, 17, 28, 19, 27, 0, 30, 3, 1, 29, 0, 12);
    f := Feed6(f, 30, 3, 1, 29, 0, 12, 21, 20, 27, 18, 17, 27, 12);
    f := Feed6(f, 20, 27, 18, 17, 27, 12, 22, 1, 25, 27, 5, 22, 31);
    f := Feed6(f, 1, 25, 27, 5, 22, 31, 5, 4, 13, 17, 3, 2, 23);
    f := Feed6(f, 4, 13, 17, 3, 2, 23, 23, 2, 27, 1, 4, 24, 13);
    f := Feed6(f, 2, 27, 1, 4, 24, 13, 24, 8, 4, 5, 27, 30, 21);
    assert f == fed + [30, 10, 0, 21, 22, 5, 23, 24];
  }

  lemma KeyItself9Steps()
    ensures Steps6(8, 4, 5, 27, 30, 21, 2, 26, 17, 31, 18, 11, 31)
    ensures Steps6(26, 17, 31, 18, 11, 31, 30, 9, 15, 31, 28, 7, 29)
    ensures Steps6(9, 15, 31, 28, 7, 29, 12, 12, 29, 12, 30, 30, 3)
    ensures Steps6(12, 29, 12, 30, 30, 3, 0, 12, 18, 24, 20, 18, 7)
  {
  }

  lemma KeyItself9(fed: seq<nat>)
    requires Stands6(fed, 8, 4, 5, 27, 30, 21)
    ensures Stands6(fed + [2, 30, 12, 0], 12, 18, 24, 20, 18, 7)
  {
    KeyItself9Steps();
    Values();
    hide *;
    var f := Feed6(fed, 8, 4, 5, 27, 30, 21, 2, 26, 17, 31, 18, 11, 31);
    f := Feed6(f, 26, 17, 31, 18, 11, 31, 30, 9, 15, 31, 28, 7, 29);
    f := Feed6(f, 9, 15, 31, 28, 7, 29, 12, 12, 29, 12, 30, 30, 3);
    f := Feed6(f, 12, 29, 12, 30, 30, 3, 0, 12, 18, 24, 20, 18, 7);
    assert f == fed + [2, 30, 12, 0];
  }

  lemma KeyItself10Steps()
    ensures Steps6(12, 18, 24, 20, 18, 7, 2, 3, 6, 18, 24, 22, 5)
    ensures Steps6(3, 6, 18, 24, 22, 5, 22, 8, 1, 13, 0, 11, 9)
    ensures Steps6(8, 1, 13, 0, 11, 9, 20, 31, 25, 4, 7, 23, 9)
    ensures Steps6(31, 25, 4, 7, 23, 9, 18, 19, 8, 28, 19, 3, 25)
    ensures Steps6(19, 8, 28, 19, 3, 25, 18, 19, 14, 14, 13, 2, 30)
    ensures Steps6(19, 14, 14, 13, 2, 30, 15, 21, 28, 16, 12, 5, 3)
  {
  }

  lemma KeyItself10(fed: seq<nat>)
    requires Stands6(fed, 12, 18, 24, 20, 18, 7)
    ensures Stands6(fed + [2, 22, 20, 18, 18, 15], 21, 28, 16, 12, 5, 3)
  {
    KeyItself10Steps();
    Values();
    hide *;
    var f := Feed6(fed, 12, 18, 24, 20, 18, 7, 2, 3, 6, 18, 24, 22, 5);
    f := Feed6(f, 3, 6, 18, 24, 22, 5, 22, 8, 1, 13, 0, 11, 9);
    f := Feed6(f, 8, 1, 13, 0, 11, 9, 20, 31, 25, 4, 7, 23, 9);
    f := Feed6(f, 31, 25, 4, 7, 23, 9, 18, 19, 8, 28, 19, 3, 25);
    f := Feed6(f, 19, 8, 28, 19, 3, 25, 18, 19, 14, 14, 13, 2, 30);
    f := Feed6(f, 19, 14, 14, 13, 2, 30, 15, 21, 28, 16, 12, 5, 3);
    assert f == fed + [2, 22, 20, 18, 18, 15];
  }

  lemma KeyItselfResidue()
    ensures Stands6([3, 3, 0, 2, 3] + [1] + [15, 6, 31, 6, 12, 31, 23, 25] + [27, 18, 29, 26, 24, 21, 13, 0]
        + [12, 10, 10, 28, 29, 1, 24, 11] + [0, 28, 1, 9, 23, 31, 6, 27] + [5, 23, 7, 2, 17, 22, 10, 25]
        + [30, 10, 0, 21, 22, 5, 23, 24] + [2, 30, 12, 0] + [2, 22, 20, 18, 18, 15], 21, 28, 16, 12, 5, 3)
  {
    Started();
    hide *;
    var fed: seq<nat> := [];
    KeyItself1(fed);
    fed := fed + [3, 3, 0, 2, 3];
    KeyItself2(fed);
    fed := fed + [1];
    KeyItself3(fed);
    fed := fed + [15, 6, 31, 6, 12, 31, 23, 25];
    KeyItself4(fed);
    fed := fed + [27, 18, 29, 26, 24, 21, 13, 0];
    KeyItself5(fed);
    fed := fed + [12, 10, 10, 28, 29, 1, 24, 11];
    KeyItself6(fed);
    fed := fed + [0, 28, 1, 9, 23, 31, 6, 27];
    KeyItself7(fed);
    fed := fed + [5, 23, 7, 2, 17, 22, 10, 25];
    KeyItself8(fed);
    fed := fed + [30, 10, 0, 21, 22, 5, 23, 24];
    KeyItself9(fed);
    fed := fed + [2, 30, 12, 0];
    KeyItself10(fed);
    fed := fed + [2, 22, 20, 18, 18, 15];
    assert [] + [3, 3, 0, 2, 3] == [3, 3, 0, 2, 3];
  }

  lemma KeyItselfSpelled1()
    ensures Quintets([1]) && Bech32.Chars([1]) == "p"
  {
    hide Bech32.Chars;
    Spelled([1], "p");
  }

  lemma KeyItselfSpelled2()
    ensures Quintets([15, 6, 31, 6, 12, 31, 23, 25]) && Bech32.Chars([15, 6, 31, 6, 12, 31, 23, 25]) == "0xlxvlhe"
  {
    hide Bech32.Chars;
    Spelled([15, 6, 31, 6, 12, 31, 23, 25], "0xlxvlhe");
  }

  lemma KeyItselfSpelled3()
    ensures Quintets([27, 18, 29, 26, 24, 21, 13, 0]) && Bech32.Chars([27, 18, 29, 26, 24, 21, 13, 0]) == "mja6c4dq"
  {
    hide Bech32.Chars;
    Spelled([27, 18, 29, 26, 24, 21, 13, 0], "mja6c4dq");
  }

  lemma KeyItselfSpelled4()
    ensures Quintets([12, 10, 10, 28, 29, 1, 24, 11]) && Bech32.Chars([12, 10, 10, 28, 29, 1, 24, 11]) == "v22uapct"
  {
    hide Bech32.Chars;
    Spelled([12, 10, 10, 28, 29, 1, 24, 11], "v22uapct");
  }

  lemma KeyItselfSpelled5()
    ensures Quintets([0, 28, 1, 9, 23, 31, 6, 27]) && Bech32.Chars([0, 28, 1, 9, 23, 31, 6, 27]) == "qupfhlxm"
  {
    hide Bech32.Chars;
    Spelled([0, 28, 1, 9, 23, 31, 6, 27], "qupfhlxm");
  }

  lemma KeyItselfSpelled6()
    ensures Quintets([5, 23, 7, 2, 17, 22, 10, 25]) && Bech32.Chars([5, 23, 7, 2, 17, 22, 10, 25]) == "9h8z3k2e"
  {
    hide Bech32.Chars;
    Spelled([5, 23, 7, 2, 17, 22, 10, 25], "9h8z3k2e");
  }

  lemma KeyItselfSpelled7()
    ensures Quintets([30, 10, 0, 21, 22, 5, 23, 24]) && Bech32.Chars([30, 10, 0, 21, 22, 5, 23, 24]) == "72q4k9hc"
  {
    hide Bech32.Chars;
    Spelled([30, 10, 0, 21, 22, 5, 23, 24], "72q4k9hc");
  }

  lemma KeyItselfSpelled8()
    ensures Quintets([2, 30, 12, 0]) && Bech32.Chars([2, 30, 12, 0]) == "z7vq"
  {
    hide Bech32.Chars;
    Spelled([2, 30, 12, 0], "z7vq");
  }

  lemma KeyItselfSpelled9()
    ensures Quintets([2, 22, 20, 18, 18, 15]) && Bech32.Chars([2, 22, 20, 18, 18, 15]) == "zk5jj0"
  {
    hide Bech32.Chars;
    Spelled([2, 22, 20, 18, 18, 15], "zk5jj0");
  }

  lemma KeyItselfPrinted() returns (values: seq<nat>)
    ensures values == [1] + [15, 6, 31, 6, 12, 31, 23, 25] + [27, 18, 29, 26, 24, 21, 13, 0]
      + [12, 10, 10, 28, 29, 1, 24, 11] + [0, 28, 1, 9, 23, 31, 6, 27] + [5, 23, 7, 2, 17, 22, 10, 25]
      + [30, 10, 0, 21, 22, 5, 23, 24] + [2, 30, 12, 0] + [2, 22, 20, 18, 18, 15]
    ensures Quintets(values)
    ensures Bech32.Chars(values) == "p" + "0xlxvlhe" + "mja6c4dq" + "v22uapct" + "qupfhlxm" + "9h8z3k2e"
         + "72q4k9hc" + "z7vq" + "zk5jj0"
  {
    hide *;
    KeyItselfSpelled1();
    values := [1];
    KeyItselfSpelled2();
    CharsAppend(values, [15, 6, 31, 6, 12, 31, 23, 25]);
    values := values + [15, 6, 31, 6, 12, 31, 23, 25];
    KeyItselfSpelled3();
    CharsAppend(values, [27, 18, 29, 26, 24, 21, 13, 0]);
    values := values + [27, 18, 29, 26, 24, 21, 13, 0];
    KeyItselfSpelled4();
    CharsAppend(values, [12, 10, 10, 28, 29, 1, 24, 11]);
    values := values + [12, 10, 10, 28, 29, 1, 24, 11];
    KeyItselfSpelled5();
    CharsAppend(values, [0, 28, 1, 9, 23, 31, 6, 27]);
    values := values + [0, 28, 1, 9, 23, 31, 6, 27];
    KeyItselfSpelled6();
    CharsAppend(values, [5, 23, 7, 2, 17, 22, 10, 25]);
    values := values + [5, 23, 7, 2, 17, 22, 10, 25];
    KeyItselfSpelled7();
    CharsAppend(values, [30, 10, 0, 21, 22, 5, 23, 24]);
    values := values + [30, 10, 0, 21, 22, 5, 23, 24];
    KeyItselfSpelled8();
    CharsAppend(values, [2, 30, 12, 0]);
    values := values + [2, 30, 12, 0];
    KeyItselfSpelled9();
    CharsAppend(values, [2, 22, 20, 18, 18, 15]);
    values := values + [2, 22, 20, 18, 18, 15];
  }

  lemma KeyItselfExpanded()
    ensures Bech32.HrpExpand("bc") == [3, 3, 0, 2, 3]
  {
  }

  lemma KeyItselfChecksum(fives: seq<nat>)
    requires fives == [15, 6, 31, 6, 12, 31, 23, 25] + [27, 18, 29, 26, 24, 21, 13, 0]
         + [12, 10, 10, 28, 29, 1, 24, 11]
      + [0, 28, 1, 9, 23, 31, 6, 27] + [5, 23, 7, 2, 17, 22, 10, 25] + [30, 10, 0, 21, 22, 5, 23, 24]
      + [2, 30, 12, 0]
    ensures Bech32.Checksum("bc", [1] + fives, Bech32.Spec(1)) == [2, 22, 20, 18, 18, 15]
  {
    KeyItselfResidue();
    KeyItselfExpanded();
    KeyItselfTarget();
    KeyItselfSpelled9();
    hide *;
    Gather7([3, 3, 0, 2, 3], [1], [15, 6, 31, 6, 12, 31, 23, 25], [27, 18, 29, 26, 24, 21, 13, 0],
      [12, 10, 10, 28, 29, 1, 24, 11], [0, 28, 1, 9, 23, 31, 6, 27], [5, 23, 7, 2, 17, 22, 10, 25], [30, 10, 0,
        21, 22, 5, 23, 24], [2, 30, 12, 0], [2, 22, 20, 18, 18, 15]);
    TargetMReached([3, 3, 0, 2, 3] + ([1] + fives + [2, 22, 20, 18, 18, 15]));
    ChecksumIs("bc", [3, 3, 0, 2, 3], [1] + fives, 0x2bc830a3, [2, 22, 20, 18, 18, 15]);
  }

  lemma KeyItselfTarget()
    ensures Bech32.Spec(1) == 0x2bc830a3
  {
  }

  /** BIP 350, section "Test vectors for Bech32m": the version 1 address of the generator's abscissa. */
  lemma Bip350Address(program: seq<nat>)
    requires program == [0x79, 0xbe, 0x66, 0x7e, 0xf9] + [0xdc, 0xbb, 0xac, 0x55, 0xa0]
         + [0x62, 0x95, 0xce, 0x87, 0x0b]
      + [0x07, 0x02, 0x9b, 0xfc, 0xdb] + [0x2d, 0xce, 0x28, 0xd9, 0x59] + [0xf2, 0x81, 0x5b, 0x16, 0xf8]
      + [0x17, 0x98]
    ensures Bech32.Encoded("bc", 1, program)
         == "bc" + "1" + ("p" + "0xlxvlhe" + "mja6c4dq" + "v22uapct" + "qupfhlxm" + "9h8z3k2e" + "72q4k9hc" + "z7vq"
              + "zk5jj0")
  {
    hide *;
    var bytes, fives := KeyItselfRegrouped();
    var values := KeyItselfPrinted();
    KeyItselfChecksum(fives);
    Gather7([], [1], [15, 6, 31, 6, 12, 31, 23, 25], [27, 18, 29, 26, 24, 21, 13, 0],
      [12, 10, 10, 28, 29, 1, 24, 11], [0, 28, 1, 9, 23, 31, 6, 27], [5, 23, 7, 2, 17, 22, 10, 25], [30, 10, 0,
        21, 22, 5, 23, 24], [2, 30, 12, 0], [2, 22, 20, 18, 18, 15]);
    EncodedIs("bc", 1, program, fives, [2, 22, 20, 18, 18, 15], values);
  }

  // ---- BIP 380 --------------------------------------------------------------

  lemma Raw1Shifts()
    ensures Steps8(0, 0, 0, 0, 0, 0, 0, 1, 9, 0, 0, 0, 0, 0, 0, 1, 9)
    ensures Steps8(0, 0, 0, 0, 0, 0, 1, 9, 18, 0, 0, 0, 0, 0, 1, 9, 18)
    ensures Steps8(0, 0, 0, 0, 0, 1, 9, 18, 14, 0, 0, 0, 0, 1, 9, 18, 14)
    ensures Steps8(0, 0, 0, 0, 1, 9, 18, 14, 20, 0, 0, 0, 1, 9, 18, 14, 20)
  {
    hide *;
    Shifts8(0, 0, 0, 0, 0, 0, 1, 9);
    Shifts8(0, 0, 0, 0, 0, 1, 9, 18);
    Shifts8(0, 0, 0, 0, 1, 9, 18, 14);
    Shifts8(0, 0, 0, 1, 9, 18, 14, 20);
  }

  lemma Raw1More()
    ensures Steps8(1, 9, 18, 14, 20, 10, 21, 22, 0, 23, 5, 1, 26, 0, 19, 26, 9)
  {
  }

  lemma Raw1MoreShifts()
    ensures Steps8(0, 0, 0, 1, 9, 18, 14, 20, 10, 0, 0, 1, 9, 18, 14, 20, 10)
    ensures Steps8(0, 0, 1, 9, 18, 14, 20, 10, 21, 0, 1, 9, 18, 14, 20, 10, 21)
    ensures Steps8(0, 1, 9, 18, 14, 20, 10, 21, 22, 1, 9, 18, 14, 20, 10, 21, 22)
  {
    hide *;
    Shifts8(0, 0, 1, 9, 18, 14, 20, 10);
    Shifts8(0, 1, 9, 18, 14, 20, 10, 21);
    Shifts8(1, 9, 18, 14, 20, 10, 21, 22);
  }

  lemma Raw1(fed: seq<nat>)
    requires Stands8(fed, 0, 0, 0, 0, 0, 0, 0, 1)
    ensures Stands8(fed + [9, 18, 14, 20, 10, 21, 22, 0], 23, 5, 1, 26, 0, 19, 26, 9)
  {
    Raw1Shifts();
    Raw1More();
    Raw1MoreShifts();
    Values();
    hide *;
    var f := Feed8(fed, 0, 0, 0, 0, 0, 0, 0, 1, 9, 0, 0, 0, 0, 0, 0, 1, 9);
    f := Feed8(f, 0, 0, 0, 0, 0, 0, 1, 9, 18, 0, 0, 0, 0, 0, 1, 9, 18);
    f := Feed8(f, 0, 0, 0, 0, 0, 1, 9, 18, 14, 0, 0, 0, 0, 1, 9, 18, 14);
    f := Feed8(f, 0, 0, 0, 0, 1, 9, 18, 14, 20, 0, 0, 0, 1, 9, 18, 14, 20);
    f := Feed8(f, 0, 0, 0, 1, 9, 18, 14, 20, 10, 0, 0, 1, 9, 18, 14, 20, 10);
    f := Feed8(f, 0, 0, 1, 9, 18, 14, 20, 10, 21, 0, 1, 9, 18, 14, 20, 10, 21);
    f := Feed8(f, 0, 1, 9, 18, 14, 20, 10, 21, 22, 1, 9, 18, 14, 20, 10, 21, 22);
    f := Feed8(f, 1, 9, 18, 14, 20, 10, 21, 22, 0, 23, 5, 1, 26, 0, 19, 26, 9);
    assert f == fed + [9, 18, 14, 20, 10, 21, 22, 0];
  }

  lemma Raw2Steps()
    ensures Steps8(23, 5, 1, 26, 0, 19, 26, 9, 18, 1, 14, 24, 21, 8, 19, 27, 25)
    ensures Steps8(1, 14, 24, 21, 8, 19, 27, 25, 21, 16, 15, 26, 6, 25, 29, 21, 28)
    ensures Steps8(16, 15, 26, 6, 25, 29, 21, 28, 19, 3, 11, 0, 15, 25, 14, 3, 14)
    ensures Steps8(3, 11, 0, 15, 25, 14, 3, 14, 0, 0, 16, 30, 11, 16, 9, 26, 27)
  {
  }

  lemma Raw2Shifts()
    ensures Steps8(0, 16, 30, 11, 16, 9, 26, 27, 22, 16, 30, 11, 16, 9, 26, 27, 22)
  {
    hide *;
    Shifts8(16, 30, 11, 16, 9, 26, 27, 22);
  }

  lemma Raw2More()
    ensures Steps8(16, 30, 11, 16, 9, 26, 27, 22, 22, 18, 26, 22, 31, 30, 0, 9, 11)
    ensures Steps8(18, 26, 22, 31, 30, 0, 9, 11, 23, 3, 0, 7, 20, 16, 30, 12, 24)
    ensures Steps8(3, 0, 7, 20, 16, 30, 12, 24, 0, 11, 23, 5, 2, 0, 6, 12, 27)
    ensures Steps8(11, 23, 5, 2, 0, 6, 12, 27, 11, 26, 9, 16, 25, 26, 31, 20, 10)
    ensures Steps8(26, 9, 16, 25, 26, 31, 20, 10, 0, 22, 26, 2, 27, 13, 26, 22, 21)
  {
  }

  lemma Raw2(fed: seq<nat>)
    requires Stands8(fed, 23, 5, 1, 26, 0, 19, 26, 9)
    ensures Stands8(fed + [18, 21, 19, 0, 22, 22, 23, 0, 11, 0], 22, 26, 2, 27, 13, 26, 22, 21)
  {
    Raw2Steps();
    Raw2Shifts();
    Raw2More();
    Values();
    hide *;
    var f := Feed8(fed, 23, 5, 1, 26, 0, 19, 26, 9, 18, 1, 14, 24, 21, 8, 19, 27, 25);
    f := Feed8(f, 1, 14, 24, 21, 8, 19, 27, 25, 21, 16, 15, 26, 6, 25, 29, 21, 28);
    f := Feed8(f, 16, 15, 26, 6, 25, 29, 21, 28, 19, 3, 11, 0, 15, 25, 14, 3, 14);
    f := Feed8(f, 3, 11, 0, 15, 25, 14, 3, 14, 0, 0, 16, 30, 11, 16, 9, 26, 27);
    f := Feed8(f, 0, 16, 30, 11, 16, 9, 26, 27, 22, 16, 30, 11, 16, 9, 26, 27, 22);
    f := Feed8(f, 16, 30, 11, 16, 9, 26, 27, 22, 22, 18, 26, 22, 31, 30, 0, 9, 11);
    f := Feed8(f, 18, 26, 22, 31, 30, 0, 9, 11, 23, 3, 0, 7, 20, 16, 30, 12, 24);
    f := Feed8(f, 3, 0, 7, 20, 16, 30, 12, 24, 0, 11, 23, 5, 2, 0, 6, 12, 27);
    f := Feed8(f, 11, 23, 5, 2, 0, 6, 12, 27, 11, 26, 9, 16, 25, 26, 31, 20, 10);
    f := Feed8(f, 26, 9, 16, 25, 26, 31, 20, 10, 0, 22, 26, 2, 27, 13, 26, 22, 21);
    assert f == fed + [18, 21, 19, 0, 22, 22, 23, 0, 11, 0];
  }

  lemma Raw3Steps()
    ensures Steps8(22, 26, 2, 27, 13, 26, 22, 21, 7, 0, 26, 22, 22, 11, 25, 11, 5)
    ensures Steps8(26, 22, 22, 11, 25, 11, 5, 5, 9, 9, 28, 16, 24, 25, 11, 25, 28)
    ensures Steps8(9, 28, 16, 24, 25, 11, 25, 28, 7, 4, 27, 20, 28, 3, 6, 11, 20)
  {
  }

  lemma Raw3Shifts()
    ensures Steps8(0, 26, 22, 22, 11, 25, 11, 5, 5, 26, 22, 22, 11, 25, 11, 5, 5)
  {
    hide *;
    Shifts8(26, 22, 22, 11, 25, 11, 5, 5);
  }

  lemma Raw3More()
    ensures Steps8(4, 27, 20, 28, 3, 6, 11, 20, 16, 24, 26, 9, 18, 7, 19, 13, 29)
    ensures Steps8(24, 26, 9, 18, 7, 19, 13, 29, 1, 16, 4, 23, 26, 21, 15, 25, 6)
    ensures Steps8(16, 4, 23, 26, 21, 15, 25, 6, 6, 8, 6, 28, 3, 11, 2, 25, 27)
    ensures Steps8(8, 6, 28, 3, 11, 2, 25, 27, 27, 0, 0, 0, 0, 0, 0, 0, 1)
  {
  }

  lemma Raw3(fed: seq<nat>)
    requires Stands8(fed, 22, 26, 2, 27, 13, 26, 22, 21)
    ensures Stands8(fed + [7, 5, 9, 7, 16, 1, 6, 27], 0, 0, 0, 0, 0, 0, 0, 1)
  {
    Raw3Steps();
    Raw3Shifts();
    Raw3More();
    Values();
    hide *;
    var f := Feed8(fed, 22, 26, 2, 27, 13, 26, 22, 21, 7, 0, 26, 22, 22, 11, 25, 11, 5);
    f := Feed8(f, 0, 26, 22, 22, 11, 25, 11, 5, 5, 26, 22, 22, 11, 25, 11, 5, 5);
    f := Feed8(f, 26, 22, 22, 11, 25, 11, 5, 5, 9, 9, 28, 16, 24, 25, 11, 25, 28);
    f := Feed8(f, 9, 28, 16, 24, 25, 11, 25, 28, 7, 4, 27, 20, 28, 3, 6, 11, 20);
    f := Feed8(f, 4, 27, 20, 28, 3, 6, 11, 20, 16, 24, 26, 9, 18, 7, 19, 13, 29);
    f := Feed8(f, 24, 26, 9, 18, 7, 19, 13, 29, 1, 16, 4, 23, 26, 21, 15, 25, 6);
    f := Feed8(f, 16, 4, 23, 26, 21, 15, 25, 6, 6, 8, 6, 28, 3, 11, 2, 25, 27);
    f := Feed8(f, 8, 6, 28, 3, 11, 2, 25, 27, 27, 0, 0, 0, 0, 0, 0, 0, 1);
    assert f == fed + [7, 5, 9, 7, 16, 1, 6, 27];
  }

  lemma RawResidue()
    ensures Stands8([9, 18, 14, 20, 10, 21, 22, 0] + [18, 21, 19, 0, 22, 22, 23, 0, 11, 0]
        + [7, 5, 9, 7, 16, 1, 6, 27], 0, 0, 0, 0, 0, 0, 0, 1)
  {
    Started();
    hide *;
    var fed: seq<nat> := [];
    Raw1(fed);
    fed := fed + [9, 18, 14, 20, 10, 21, 22, 0];
    Raw2(fed);
    fed := fed + [18, 21, 19, 0, 22, 22, 23, 0, 11, 0];
    Raw3(fed);
    fed := fed + [7, 5, 9, 7, 16, 1, 6, 27];
    assert [] + [9, 18, 14, 20, 10, 21, 22, 0] == [9, 18, 14, 20, 10, 21, 22, 0];
  }

  lemma RawSpelled1()
    ensures Quintets([7, 5, 9, 7, 16, 1, 6, 27]) && Bech32.Chars([7, 5, 9, 7, 16, 1, 6, 27]) == "89f8spxm"
  {
    hide Bech32.Chars;
    Spelled([7, 5, 9, 7, 16, 1, 6, 27], "89f8spxm");
  }

  lemma RawPrinted() returns (values: seq<nat>)
    ensures values == [7, 5, 9, 7, 16, 1, 6, 27]
    ensures Quintets(values)
    ensures Bech32.Chars(values) == "89f8spxm"
  {
    hide *;
    RawSpelled1();
    values := [7, 5, 9, 7, 16, 1, 6, 27];
  }

  /** A character of the set is found at its own position. */
  lemma Found(c: char)
    requires DescriptorChecksum.Printable(c)
    ensures Find(DescriptorChecksum.INPUT_CHARSET, c) == DescriptorChecksum.PositionOf(c)
  {
    var cs, k := DescriptorChecksum.INPUT_CHARSET, DescriptorChecksum.PositionOf(c);
    DescriptorChecksum.InputCharset();
    hide DescriptorChecksum.PositionOf, DescriptorChecksum.Printable;
    assert cs[k] == c;
    assert Find(cs, c) >= 0;
  }

  lemma RawLetters()
    ensures Find(DescriptorChecksum.INPUT_CHARSET, 'r') == 73
    ensures Find(DescriptorChecksum.INPUT_CHARSET, 'a') == 18
    ensures Find(DescriptorChecksum.INPUT_CHARSET, 'w') == 78
    ensures Find(DescriptorChecksum.INPUT_CHARSET, '(') == 10
    ensures Find(DescriptorChecksum.INPUT_CHARSET, 'd') == 21
    ensures Find(DescriptorChecksum.INPUT_CHARSET, 'e') == 22
    ensures Find(DescriptorChecksum.INPUT_CHARSET, 'b') == 19
    ensures Find(DescriptorChecksum.INPUT_CHARSET, 'f') == 23
    ensures Find(DescriptorChecksum.INPUT_CHARSET, ')') == 11
  {
    Found('r');
    Found('a');
    Found('w');
    Found('(');
    Found('d');
    Found('e');
    Found('b');
    Found('f');
    Found(')');
    hide Find, DescriptorChecksum.INPUT_CHARSET;
  }

  lemma RawPositions()
    ensures DescriptorChecksum.Charset(DescriptorChecksum.INPUT_CHARSET)
    ensures DescriptorChecksum.InSet(DescriptorChecksum.INPUT_CHARSET, "raw(deadbeef)")
    ensures DescriptorChecksum.Positions(DescriptorChecksum.INPUT_CHARSET, "raw(deadbeef)")
         == [73, 18, 78, 10, 21, 22, 18, 21, 19, 22, 22, 23, 11]
  {
    DescriptorChecksum.InputCharset();
    RawLetters();
    hide Find, DescriptorChecksum.INPUT_CHARSET;
  }

  lemma RawExpanded()
    ensures DescriptorChecksum.Expand([73, 18, 78, 10, 21, 22, 18, 21, 19, 22, 22, 23, 11])
         == [9, 18, 14, 20] + [10, 21, 22, 0] + [18, 21, 19, 0] + [22, 22, 23, 0] + [11, 0]
  {
    var p := [73, 18, 78, 10, 21, 22, 18, 21, 19, 22, 22, 23, 11];
    hide DescriptorChecksum.Group;
    FiveGroups(p);
    RawGroups(p);
  }

  lemma FiveGroups(p: seq<nat>)
    requires |p| == 13
    ensures DescriptorChecksum.Expand(p) == DescriptorChecksum.Group(p, 0) + DescriptorChecksum.Group(p, 1)
      + DescriptorChecksum.Group(p, 2) + DescriptorChecksum.Group(p, 3) + DescriptorChecksum.Group(p, 4)
  {
    hide *;
    DescriptorChecksum.HeadAndTail(p, 5);
    NoMoreGroups(p);
    HeadNext(p, 0);
    HeadNext(p, 1);
    HeadNext(p, 2);
    HeadNext(p, 3);
    HeadNext(p, 4);
  }

  lemma HeadNext(p: seq<nat>, g: nat)
    ensures DescriptorChecksum.Head(p, 0) == []
    ensures DescriptorChecksum.Head(p, g + 1) == DescriptorChecksum.Head(p, g) + DescriptorChecksum.Group(p, g)
  {
    hide DescriptorChecksum.Group;
  }

  lemma NoMoreGroups(p: seq<nat>)
    requires |p| == 13
    ensures DescriptorChecksum.Tail(p, 5) == []
  {
    hide DescriptorChecksum.Group;
  }

  lemma RawGroups(p: seq<nat>)
    requires p == [73, 18, 78, 10, 21, 22, 18, 21, 19, 22, 22, 23, 11]
    ensures DescriptorChecksum.Group(p, 0) == [9, 18, 14, 20]
    ensures DescriptorChecksum.Group(p, 1) == [10, 21, 22, 0]
    ensures DescriptorChecksum.Group(p, 2) == [18, 21, 19, 0]
    ensures DescriptorChecksum.Group(p, 3) == [22, 22, 23, 0]
    ensures DescriptorChecksum.Group(p, 4) == [11, 0]
  {
  }

  lemma RawReached()
    ensures Reaches(DescriptorChecksum.REGISTER,
      DescriptorChecksum.Expand([73, 18, 78, 10, 21, 22, 18, 21, 19, 22, 22, 23, 11])
           + [7, 5, 9, 7, 16, 1, 6, 27], Symbols(1, 8))
  {
    RawResidue();
    RawExpanded();
    Words();
    hide Residue, Low, Symbols, DescriptorChecksum.Expand;
    assert [9, 18, 14, 20, 10, 21, 22, 0] == [9, 18, 14, 20] + [10, 21, 22, 0];
    assert [18, 21, 19, 0, 22, 22, 23, 0, 11, 0] == [18, 21, 19, 0] + [22, 22, 23, 0] + [11, 0];
    GatherGroups([9, 18, 14, 20], [10, 21, 22, 0], [18, 21, 19, 0], [22, 22, 23, 0], [11, 0],
      [7, 5, 9, 7, 16, 1, 6, 27]);
  }

  lemma GatherGroups(a: seq<nat>, b: seq<nat>, c: seq<nat>, d: seq<nat>, e: seq<nat>, f: seq<nat>)
    ensures (a + b) + (c + d + e) + f == a + b + c + d + e + f
  {
  }

  /** BIP 380, section "Test Vectors": the checksum of raw(deadbeef), and that it verifies. */
  lemma Bip380()
    ensures DescriptorChecksum.Charset(DescriptorChecksum.INPUT_CHARSET)
    ensures DescriptorChecksum.ChecksumOf(DescriptorChecksum.INPUT_CHARSET, "raw(deadbeef)") == "89f8spxm"
    ensures DescriptorChecksum.Verify(DescriptorChecksum.INPUT_CHARSET, "raw(deadbeef)" + "#" + "89f8spxm")
         == ("raw(deadbeef)", true)
  {
    RawPositions();
    RawReached();
    RawSpelled1();
    hide *;
    RawChecksum([7, 5, 9, 7, 16, 1, 6, 27]);
    DescriptorChecksum.AppendedVerifies(DescriptorChecksum.INPUT_CHARSET, "raw(deadbeef)");
  }

  lemma RawChecksum(c: seq<nat>)
    requires |c| == 8 && Quintets(c)
    requires Reaches(DescriptorChecksum.REGISTER,
      DescriptorChecksum.Expand([73, 18, 78, 10, 21, 22, 18, 21, 19, 22, 22, 23, 11]) + c, Symbols(1, 8))
    ensures DescriptorChecksum.Charset(DescriptorChecksum.INPUT_CHARSET)
    ensures DescriptorChecksum.ChecksumOf(DescriptorChecksum.INPUT_CHARSET, "raw(deadbeef)") == Bech32.Chars(c)
  {
    RawPositions();
    ChecksumUnique(DescriptorChecksum.REGISTER,
      DescriptorChecksum.Expand([73, 18, 78, 10, 21, 22, 18, 21, 19, 22, 22, 23, 11]), 1, c);
    hide Residue, Symbols, DescriptorChecksum.Expand, DescriptorChecksum.Positions, ChecksumValues, Bech32.Chars;
    hide DescriptorChecksum.InSet;
  }

  // ---- The printed address of a key -----------------------------------------

  /** A mainnet P2WPKH address is the printed string of BIP 173 whenever the key's HASH160 is
      the one of its example. */
  lemma PrintedVector(sha: Base58.Hash, hash160: Base58.Hash, pubkey: seq<nat>)
    requires hash160(pubkey) == [0x75, 0x1e, 0x76, 0xe8, 0x19] + [0x91, 0x96, 0xd4, 0x54, 0x94]
         + [0x1c, 0x45, 0xd1, 0xb3, 0xa3]
      + [0x23, 0xf1, 0x43, 0x3b, 0xd6]
    ensures Addresses.Printed(sha, hash160, Addresses.P2WPKH, pubkey, Addresses.Mainnet)
         == "bc" + "1" + ("q" + "w508d6qe" + "jxtdg4y5" + "r3zarvar" + "y0c5xw7k" + "v8f3t4")
  {
    hide *;
    var program := hash160(pubkey);
    KeyHashBytes(program);
    Base58.SameDigest(hash160, 20, pubkey);
    Addresses.PrintedSegwit(sha, hash160, pubkey, Addresses.Mainnet);
    Bip173Address(program);
    MainnetPart();
  }

  lemma KeyHashBytes(program: seq<nat>)
    requires program == [0x75, 0x1e, 0x76, 0xe8, 0x19] + [0x91, 0x96, 0xd4, 0x54, 0x94]
         + [0x1c, 0x45, 0xd1, 0xb3, 0xa3]
      + [0x23, 0xf1, 0x43, 0x3b, 0xd6]
    ensures |program| == 20 && Base58.Digits(program, 256)
  {
  }

  lemma MainnetPart()
    ensures Addresses.Hrp(Addresses.Mainnet) == "bc"
  {
  }

  // ---- Base58Check: the same key hash ----------------------------------------

  lemma NumberFour(d: seq<nat>, n: nat, base: nat, w: nat, x: nat, y: nat, z: nat)
    requires Base58.Number(d, base) == n
    ensures Base58.Number(d + [w, x, y, z], base) == (((n * base + w) * base + x) * base + y) * base + z
  {
    var s := d + [w, x, y, z];
    var k := |d|;
    assert s[..k + 3][..k + 2] == s[..k + 2] && s[..k + 2][..k + 1] == s[..k + 1] && s[..k + 1][..k] == d;
    hide Base58.Number;
    NumberLast(s, base);
    NumberLast(s[..k + 3], base);
    NumberLast(s[..k + 2], base);
    NumberLast(s[..k + 1], base);
  }

  lemma NumberLast(d: seq<nat>, base: nat)
    requires d != []
    ensures Base58.Number(d, base) == Base58.Number(d[..|d| - 1], base) * base + d[|d| - 1]
  {
  }

  lemma NumberOne(v: nat, base: nat)
    ensures Base58.Number([], base) == 0 && Base58.Number([v], base) == v
  {
    assert [v][..0] == [];
  }

  lemma LegacyBytes() returns (d: seq<nat>)
    ensures d == [0x75, 0x1e, 0x76, 0xe8] + [0x19, 0x91, 0x96, 0xd4] + [0x54, 0x94, 0x1c, 0x45]
      + [0xd1, 0xb3, 0xa3, 0x23] + [0xf1, 0x43, 0x3b, 0xd6] + [0x51, 0x0d, 0x16, 0x34]
    ensures Base58.Number(d, 256) == 0x751e76e8199196d454941c45d1b3a323f1433bd6510d1634
  {
    hide Base58.Number;
    NumberOne(0, 256);
    d := [];
    NumberFour(d, 0x0, 256, 0x75, 0x1e, 0x76, 0xe8);
    d := d + [0x75, 0x1e, 0x76, 0xe8];
    NumberFour(d, 0x751e76e8, 256, 0x19, 0x91, 0x96, 0xd4);
    d := d + [0x19, 0x91, 0x96, 0xd4];
    NumberFour(d, 0x751e76e8199196d4, 256, 0x54, 0x94, 0x1c, 0x45);
    d := d + [0x54, 0x94, 0x1c, 0x45];
    NumberFour(d, 0x751e76e8199196d454941c45, 256, 0xd1, 0xb3, 0xa3, 0x23);
    d := d + [0xd1, 0xb3, 0xa3, 0x23];
    NumberFour(d, 0x751e76e8199196d454941c45d1b3a323, 256, 0xf1, 0x43, 0x3b, 0xd6);
    d := d + [0xf1, 0x43, 0x3b, 0xd6];
    NumberFour(d, 0x751e76e8199196d454941c45d1b3a323f1433bd6, 256, 0x51, 0x0d, 0x16, 0x34);
    d := d + [0x51, 0x0d, 0x16, 0x34];
    assert [] + [0x75, 0x1e, 0x76, 0xe8] == [0x75, 0x1e, 0x76, 0xe8];
  }

  lemma LegacyDigits() returns (d: seq<nat>)
    ensures d == [10] + [39, 15, 32, 8] + [51, 35, 21, 3] + [49, 44, 8, 18] + [10, 57, 12, 45] + [6, 18, 47, 49]
      + [23, 57, 7, 6] + [25, 32, 1, 5] + [25, 9, 20, 16]
    ensures Base58.Number(d, 58) == 0x751e76e8199196d454941c45d1b3a323f1433bd6510d1634
  {
    hide Base58.Number;
    NumberOne(10, 58);
    d := [10];
    NumberFour(d, 0xa, 58, 39, 15, 32, 8);
    d := d + [39, 15, 32, 8];
    NumberFour(d, 0x733ab1c, 58, 51, 35, 21, 3);
    d := d + [51, 35, 21, 3];
    NumberFour(d, 0x4db9555464469, 58, 49, 44, 8, 18);
    d := d + [49, 44, 8, 18];
    NumberFour(d, 0x346d106ef2bc7bf614a, 58, 10, 57, 12, 45);
    d := d + [10, 57, 12, 45];
    NumberFour(d, 0x235cb80577179bd4e2e8dcc19, 58, 6, 18, 47, 49);
    d := d + [6, 18, 47, 49];
    NumberFour(d, 0x17da3381d335af18d10f19ddca87adf, 58, 23, 57, 7, 6);
    d := d + [23, 57, 7, 6];
    NumberFour(d, 0x1016ba8dabdbea1f5b2cf9a67092e33abc928, 58, 25, 32, 1, 5);
    d := d + [25, 32, 1, 5];
    NumberFour(d, 0xada25b4acddbfa80714cad358b72af833978d8ad27, 58, 25, 9, 20, 16);
    d := d + [25, 9, 20, 16];
  }

  /** Rebuilding the digits of a number: there is one list without leading zeros. */
  lemma DigitsFound(data: seq<nat>, bytes: seq<nat>, digits: seq<nat>)
    requires data == [0] + bytes && bytes != [] && bytes[0] != 0
    requires Base58.Digits(digits, 58) && digits != [] && digits[0] != 0
    requires Base58.Number(bytes, 256) == Base58.Number(digits, 58)
    ensures Base58.EncodedDigits(data) == [0] + digits
  {
    hide *;
    MinimalIs(digits);
    Base58.NumberOfZeros(1, bytes, 256);
    Base58.LeadingOfPadded(1, bytes);
    OneZero();
    EncodedDigitsOf(data);
  }

  lemma MinimalIs(digits: seq<nat>)
    requires Base58.Digits(digits, 58) && digits != [] && digits[0] != 0
    ensures Base58.Minimal(Base58.Number(digits, 58), 58) == digits
  {
    hide Base58.Number, Base58.Minimal, Base58.LeadingZeros;
    Base58.Canonical(digits, 58);
    assert Base58.LeadingZeros(digits) == 0;
    assert Base58.Zeros(0) == [];
  }

  lemma OneZero()
    ensures Base58.Zeros(1) == [0]
  {
  }

  lemma EncodedDigitsOf(data: seq<nat>)
    ensures Base58.EncodedDigits(data)
         == Base58.Zeros(Base58.LeadingZeros(data)) + Base58.Minimal(Base58.Number(data, 256), 58)
  {
    hide Base58.Number, Base58.Minimal, Base58.LeadingZeros, Base58.Zeros;
  }

  lemma CharsOfAppend(xs: seq<nat>, ys: seq<nat>)
    requires Base58.Digits(xs, 58) && Base58.Digits(ys, 58)
    ensures Base58.Digits(xs + ys, 58) && Base58.CharsOf(xs + ys) == Base58.CharsOf(xs) + Base58.CharsOf(ys)
  {
    hide Base58.DigitChar;
  }

  /** Four digits and their characters, by the ASCII ranges of the alphabet. */
  lemma FourChars(w: nat, x: nat, y: nat, z: nat, s: string)
    requires w < 58 && x < 58 && y < 58 && z < 58 && |s| == 4
    requires Base58.Rank(s[0]) == w && Base58.Rank(s[1]) == x && Base58.Rank(s[2]) == y && Base58.Rank(s[3]) == z
    ensures Base58.Digits([w, x, y, z], 58) && Base58.CharsOf([w, x, y, z]) == s
  {
    OneChar(w, s[0]);
    OneChar(x, s[1]);
    OneChar(y, s[2]);
    OneChar(z, s[3]);
    hide Base58.DigitChar, Base58.Rank;
  }

  lemma OneChar(d: nat, c: char)
    requires d < 58 && Base58.Rank(c) == d
    ensures Base58.DigitChar(d) == c
  {
    Base58.CharDigitOf(d);
    hide Base58.DigitChar;
    RankInjective(c, Base58.DigitChar(d));
  }

  lemma RankInjective(a: char, b: char)
    requires Base58.Rank(a) == Base58.Rank(b) >= 0
    ensures a == b
  {
  }

  lemma LegacySpelled1()
    ensures Base58.Digits([39, 15, 32, 8], 58) && Base58.CharsOf([39, 15, 32, 8]) == "gGZ9"
  {
    hide Base58.CharsOf;
    FourChars(39, 15, 32, 8, "gGZ9");
  }

  lemma LegacySpelled2()
    ensures Base58.Digits([51, 35, 21, 3], 58) && Base58.CharsOf([51, 35, 21, 3]) == "tcN4"
  {
    hide Base58.CharsOf;
    FourChars(51, 35, 21, 3, "tcN4");
  }

  lemma LegacySpelled3()
    ensures Base58.Digits([49, 44, 8, 18], 58) && Base58.CharsOf([49, 44, 8, 18]) == "rm9K"
  {
    hide Base58.CharsOf;
    FourChars(49, 44, 8, 18, "rm9K");
  }

  lemma LegacySpelled4()
    ensures Base58.Digits([10, 57, 12, 45], 58) && Base58.CharsOf([10, 57, 12, 45]) == "BzDn"
  {
    hide Base58.CharsOf;
    FourChars(10, 57, 12, 45, "BzDn");
  }

  lemma LegacySpelled5()
    ensures Base58.Digits([6, 18, 47, 49], 58) && Base58.CharsOf([6, 18, 47, 49]) == "7Kpr"
  {
    hide Base58.CharsOf;
    FourChars(6, 18, 47, 49, "7Kpr");
  }

  lemma LegacySpelled6()
    ensures Base58.Digits([23, 57, 7, 6], 58) && Base58.CharsOf([23, 57, 7, 6]) == "Qz87"
  {
    hide Base58.CharsOf;
    FourChars(23, 57, 7, 6, "Qz87");
  }

  lemma LegacySpelled7()
    ensures Base58.Digits([25, 32, 1, 5], 58) && Base58.CharsOf([25, 32, 1, 5]) == "SZ26"
  {
    hide Base58.CharsOf;
    FourChars(25, 32, 1, 5, "SZ26");
  }

  lemma LegacySpelled8()
    ensures Base58.Digits([25, 9, 20, 16], 58) && Base58.CharsOf([25, 9, 20, 16]) == "SAMH"
  {
    hide Base58.CharsOf;
    FourChars(25, 9, 20, 16, "SAMH");
  }

  lemma LegacyPrinted() returns (digits: seq<nat>)
    ensures digits
         == [0] + ([10] + [39, 15, 32, 8] + [51, 35, 21, 3] + [49, 44, 8, 18] + [10, 57, 12, 45]
                + [6, 18, 47, 49] + [23, 57, 7, 6] + [25, 32, 1, 5] + [25, 9, 20, 16])
    ensures Base58.Digits(digits, 58)
    ensures Base58.CharsOf(digits)
         == "1" + ("B" + "gGZ9" + "tcN4" + "rm9K" + "BzDn" + "7Kpr" + "Qz87" + "SZ26" + "SAMH")
  {
    hide *;
    LegacyFirst();
    digits := [10];
    LegacySpelled1();
    CharsOfAppend(digits, [39, 15, 32, 8]);
    digits := digits + [39, 15, 32, 8];
    LegacySpelled2();
    CharsOfAppend(digits, [51, 35, 21, 3]);
    digits := digits + [51, 35, 21, 3];
    LegacySpelled3();
    CharsOfAppend(digits, [49, 44, 8, 18]);
    digits := digits + [49, 44, 8, 18];
    LegacySpelled4();
    CharsOfAppend(digits, [10, 57, 12, 45]);
    digits := digits + [10, 57, 12, 45];
    LegacySpelled5();
    CharsOfAppend(digits, [6, 18, 47, 49]);
    digits := digits + [6, 18, 47, 49];
    LegacySpelled6();
    CharsOfAppend(digits, [23, 57, 7, 6]);
    digits := digits + [23, 57, 7, 6];
    LegacySpelled7();
    CharsOfAppend(digits, [25, 32, 1, 5]);
    digits := digits + [25, 32, 1, 5];
    LegacySpelled8();
    CharsOfAppend(digits, [25, 9, 20, 16]);
    digits := digits + [25, 9, 20, 16];
    CharsOfAppend([0], digits);
    digits := [0] + digits;
  }

  lemma LegacyFirst()
    ensures Base58.Digits([0], 58) && Base58.CharsOf([0]) == "1"
    ensures Base58.Digits([10], 58) && Base58.CharsOf([10]) == "B"
  {
    OneChar(0, '1');
    OneChar(10, 'B');
    hide Base58.DigitChar;
  }

  /** The mainnet P2PKH address of that key hash, if the hash of the hash of its payload
      begins as double SHA-256 makes it. */
  lemma LegacyVector(sha: Base58.Hash, hash160: Base58.Hash, pubkey: seq<nat>)
    requires hash160(pubkey)
          == [0x75, 0x1e, 0x76, 0xe8, 0x19] + [0x91, 0x96, 0xd4, 0x54, 0x94]
             + [0x1c, 0x45, 0xd1, 0xb3, 0xa3] + [0x23, 0xf1, 0x43, 0x3b, 0xd6]
    requires var payload := [0] + hash160(pubkey);
      && |sha(payload)| == 32 && Base58.Digits(sha(payload), 256)
      && |sha(sha(payload))| == 32 && Base58.Digits(sha(sha(payload)), 256)
      && sha(sha(payload))[..4] == [0x51, 0x0d, 0x16, 0x34]
    ensures Addresses.Printed(sha, hash160, Addresses.P2PKH, pubkey, Addresses.Mainnet)
         == "1" + ("B" + "gGZ9" + "tcN4" + "rm9K" + "BzDn" + "7Kpr" + "Qz87" + "SZ26" + "SAMH")
  {
    hide *;
    var payload := [0] + hash160(pubkey);
    KeyHashBytes(hash160(pubkey));
    LegacyPayload(hash160, pubkey);
    Base58.DoubleHash(sha, payload);
    Addresses.PrintedBase58(sha, hash160, Addresses.P2PKH, pubkey, Addresses.Mainnet);
    var bytes := LegacyBytes();
    var digits := LegacyDigits();
    var spelled := LegacyPrinted();
    LegacyData(hash160(pubkey), bytes, [0x51, 0x0d, 0x16, 0x34]);
    LegacyNonzero(bytes, digits);
    DigitsFound(payload + [0x51, 0x0d, 0x16, 0x34], bytes, digits);
    EncodedFrom(sha, payload, payload + [0x51, 0x0d, 0x16, 0x34], spelled);
  }

  lemma LegacyPayload(hash160: Base58.Hash, pubkey: seq<nat>)
    requires |hash160(pubkey)| == 20 && Base58.Digits(hash160(pubkey), 256)
    ensures Addresses.Payload(hash160, Addresses.P2PKH, pubkey, Addresses.Mainnet) == [0] + hash160(pubkey)
  {
    Base58.SameDigest(hash160, 20, pubkey);
    hide Base58.Digest;
  }

  lemma LegacyData(h: seq<nat>, bytes: seq<nat>, check: seq<nat>)
    requires h == [0x75, 0x1e, 0x76, 0xe8, 0x19] + [0x91, 0x96, 0xd4, 0x54, 0x94] + [0x1c, 0x45, 0xd1, 0xb3, 0xa3]
      + [0x23, 0xf1, 0x43, 0x3b, 0xd6]
    requires check == [0x51, 0x0d, 0x16, 0x34]
    requires bytes == [0x75, 0x1e, 0x76, 0xe8] + [0x19, 0x91, 0x96, 0xd4] + [0x54, 0x94, 0x1c, 0x45]
      + [0xd1, 0xb3, 0xa3, 0x23] + [0xf1, 0x43, 0x3b, 0xd6] + [0x51, 0x0d, 0x16, 0x34]
    ensures [0] + h + check == [0] + bytes
  {
  }

  lemma LegacyNonzero(bytes: seq<nat>, digits: seq<nat>)
    requires bytes == [0x75, 0x1e, 0x76, 0xe8] + [0x19, 0x91, 0x96, 0xd4] + [0x54, 0x94, 0x1c, 0x45]
      + [0xd1, 0xb3, 0xa3, 0x23] + [0xf1, 0x43, 0x3b, 0xd6] + [0x51, 0x0d, 0x16, 0x34]
    requires digits == [10] + [39, 15, 32, 8] + [51, 35, 21, 3] + [49, 44, 8, 18] + [10, 57, 12, 45] + [6, 18, 47, 49]
      + [23, 57, 7, 6] + [25, 32, 1, 5] + [25, 9, 20, 16]
    ensures bytes != [] && bytes[0] != 0 && digits != [] && digits[0] != 0 && Base58.Digits(digits, 58)
  {
  }

  lemma EncodedFrom(sha: Base58.Hash, payload: seq<nat>, data: seq<nat>, digits: seq<nat>)
    requires Base58.WithChecksum(sha, payload) == data && Base58.EncodedDigits(data) == digits
    requires Base58.Digits(digits, 58)
    ensures Base58.CheckEncoded(sha, payload) == Base58.CharsOf(digits)
  {
    hide Base58.WithChecksum, Base58.EncodedDigits, Base58.CharsOf;
  }
}
