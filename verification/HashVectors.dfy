/** The hashes of two lists and a key that the project's own tests give (`ygopro-data/src/data/lflist.rs`). */
module HashVectors {
  import opened LFLists

  lemma {:induction false} NextChar(hash: Word, c: char, rest: string)
    ensures HashChars(hash, [c] + rest) == HashChars(HashBytes(hash, Utf8(c)), rest)
  {
    hide HashBytes, Utf8;
    assert ([c] + rest)[1..] == rest;
  }

  lemma CharsOfGenesys()
    ensures Utf8('e') == [0x65]
    ensures Utf8('g') == [0x67]
    ensures Utf8('n') == [0x6e]
    ensures Utf8('s') == [0x73]
    ensures Utf8('y') == [0x79]
  {
  }

  /** Hash and exclusive-or with each byte, from the offset on. */
  lemma BytesOfGenesys()
    ensures HashBytes(0x811c_9dc5, [0x67]) == 0xe20c_2606
    ensures HashBytes(0xe20c_2606, [0x65]) == 0x3c20_6dd9
    ensures HashBytes(0x3c20_6dd9, [0x6e]) == 0x5e0c_b715
    ensures HashBytes(0x5e0c_b715, [0x65]) == 0x7e04_c550
    ensures HashBytes(0x7e04_c550, [0x73]) == 0x8482_5619
    ensures HashBytes(0x8482_5619, [0x79]) == 0xf92d_f920
    ensures HashBytes(0xf92d_f920, [0x73]) == 0x965f_7da9
  {
    assert [0x65 as bv8][1..] == [];
    assert [0x67 as bv8][1..] == [];
    assert [0x6e as bv8][1..] == [];
    assert [0x73 as bv8][1..] == [];
    assert [0x79 as bv8][1..] == [];
  }

  lemma HashOfGenesys()
    ensures CreditHash("genesys") == 0x965f_7da9
  {
    hide HashBytes, Utf8;
    CharsOfGenesys();
    BytesOfGenesys();
    NextChar(0x811c_9dc5, 'g', "enesys");
    assert ['g'] + "enesys" == "genesys";
    NextChar(0xe20c_2606, 'e', "nesys");
    assert ['e'] + "nesys" == "enesys";
    NextChar(0x3c20_6dd9, 'n', "esys");
    assert ['n'] + "esys" == "nesys";
    NextChar(0x5e0c_b715, 'e', "sys");
    assert ['e'] + "sys" == "esys";
    NextChar(0x7e04_c550, 's', "ys");
    assert ['s'] + "ys" == "sys";
    NextChar(0x8482_5619, 'y', "s");
    assert ['y'] + "s" == "ys";
    NextChar(0xf92d_f920, 's', "");
    assert ['s'] + "" == "s";
  }

  lemma TermsOfCards()
    ensures Term(Card(20292186, 0)) == 0x5961_a9c4
    ensures Term(Card(91869203, 0)) == 0xd867_db67
    ensures Term(Card(8633261, 1)) == 0x3ebc_39b4
    ensures Term(Card(79606837, 1)) == 0x809f_f9b9
    ensures Term(Card(23434538, 1)) == 0xf4be_5cc4
    ensures Term(Card(72270339, 2)) == 0x6885_c97b
  {
    assert 20292186 as bv32 == 0x135_a25a;
    assert 91869203 as bv32 == 0x579_d013;
    assert 8633261 as bv32 == 0x83_bbad;
    assert 79606837 as bv32 == 0x4be_b435;
    assert 23434538 as bv32 == 0x165_952a;
    assert 72270339 as bv32 == 0x44e_c203;
  }

  lemma TermsOfCredits()
    ensures Term(Limit("genesys", 100)) == 0xd4bc_0357
    ensures Term(Cost(123, "genesys", 50)) == 0x2f17_532d
    ensures Term(Cost(456, "genesys", 5)) == 0x91db_532c
  {
    HashOfGenesys();
    hide CreditHash;
    assert 100 as bv32 == 0x64;
    assert 123 as bv32 == 0x7b && 50 as bv32 == 0x32;
    assert 456 as bv32 == 0x1c8 && 5 as bv32 == 0x5;
  }

  /** Limits of six cards. */
  lemma HashOfCards()
    ensures PutAll(New("test"), [
      Card(20292186, 0),
      Card(91869203, 0),
      Card(8633261, 1),
      Card(79606837, 1),
      Card(23434538, 1),
      Card(72270339, 2)]).hash == 0xdee2_c97b
  {
    hide Term;
    TermsOfCards();
    TermsOfCredits();
    var l := New("test");
    assert PutAll(l, [Card(20292186, 0), Card(91869203, 0), Card(8633261, 1), Card(79606837, 1), Card(23434538, 1), Card(72270339, 2)]) == PutAll(Put(l, Card(20292186, 0)), [Card(91869203, 0), Card(8633261, 1), Card(79606837, 1), Card(23434538, 1), Card(72270339, 2)]);
    l := Put(l, Card(20292186, 0));
    assert l.hash == 0x249d_47ae;
    assert PutAll(l, [Card(91869203, 0), Card(8633261, 1), Card(79606837, 1), Card(23434538, 1), Card(72270339, 2)]) == PutAll(Put(l, Card(91869203, 0)), [Card(8633261, 1), Card(79606837, 1), Card(23434538, 1), Card(72270339, 2)]);
    l := Put(l, Card(91869203, 0));
    assert l.hash == 0xfcfa_9cc9;
    assert PutAll(l, [Card(8633261, 1), Card(79606837, 1), Card(23434538, 1), Card(72270339, 2)]) == PutAll(Put(l, Card(8633261, 1)), [Card(79606837, 1), Card(23434538, 1), Card(72270339, 2)]);
    l := Put(l, Card(8633261, 1));
    assert l.hash == 0xc246_a57d;
    assert PutAll(l, [Card(79606837, 1), Card(23434538, 1), Card(72270339, 2)]) == PutAll(Put(l, Card(79606837, 1)), [Card(23434538, 1), Card(72270339, 2)]);
    l := Put(l, Card(79606837, 1));
    assert l.hash == 0x42d9_5cc4;
    assert PutAll(l, [Card(23434538, 1), Card(72270339, 2)]) == PutAll(Put(l, Card(23434538, 1)), [Card(72270339, 2)]);
    l := Put(l, Card(23434538, 1));
    assert l.hash == 0xb667_0000;
    assert PutAll(l, [Card(72270339, 2)]) == PutAll(Put(l, Card(72270339, 2)), []);
    l := Put(l, Card(72270339, 2));
    assert l.hash == 0xdee2_c97b;
  }

  /** A credit limit, two cards, and what two other cards cost. */
  lemma HashOfCredits()
    ensures PutAll(New("genesys"), [
      Limit("genesys", 100),
      Card(20292186, 0),
      Cost(123, "genesys", 50),
      Cost(456, "genesys", 5),
      Card(8633261, 1)]).hash == 0x7051_7d4c
  {
    hide Term;
    TermsOfCards();
    TermsOfCredits();
    var l := New("genesys");
    assert PutAll(l, [Limit("genesys", 100), Card(20292186, 0), Cost(123, "genesys", 50), Cost(456, "genesys", 5), Card(8633261, 1)]) == PutAll(Put(l, Limit("genesys", 100)), [Card(20292186, 0), Cost(123, "genesys", 50), Cost(456, "genesys", 5), Card(8633261, 1)]);
    l := Put(l, Limit("genesys", 100));
    assert l.hash == 0xa940_ed3d;
    assert PutAll(l, [Card(20292186, 0), Cost(123, "genesys", 50), Cost(456, "genesys", 5), Card(8633261, 1)]) == PutAll(Put(l, Card(20292186, 0)), [Cost(123, "genesys", 50), Cost(456, "genesys", 5), Card(8633261, 1)]);
    l := Put(l, Card(20292186, 0));
    assert l.hash == 0xf021_44f9;
    assert PutAll(l, [Cost(123, "genesys", 50), Cost(456, "genesys", 5), Card(8633261, 1)]) == PutAll(Put(l, Cost(123, "genesys", 50)), [Cost(456, "genesys", 5), Card(8633261, 1)]);
    l := Put(l, Cost(123, "genesys", 50));
    assert l.hash == 0xdf36_17d4;
    assert PutAll(l, [Cost(456, "genesys", 5), Card(8633261, 1)]) == PutAll(Put(l, Cost(456, "genesys", 5)), [Card(8633261, 1)]);
    l := Put(l, Cost(456, "genesys", 5));
    assert l.hash == 0x4eed_44f8;
    assert PutAll(l, [Card(8633261, 1)]) == PutAll(Put(l, Card(8633261, 1)), []);
    l := Put(l, Card(8633261, 1));
    assert l.hash == 0x7051_7d4c;
  }
}
