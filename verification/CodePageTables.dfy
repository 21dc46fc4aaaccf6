/**
 The tables of code page 437 (DOS Latin US): the characters of the bytes from 0x80 on, and the
 bytes of the characters, in the order of the characters.
 */
module CodePageTables {
  import opened Integers

  /** The character of the byte 0x80 + k. */
  function Character(k: nat): uint16
    requires k < 128
  {
    if k < 16 then Character0(k)
    else if k < 32 then Character1(k - 16)
    else if k < 48 then Character2(k - 32)
    else if k < 64 then Character3(k - 48)
    else if k < 80 then Character4(k - 64)
    else if k < 96 then Character5(k - 80)
    else if k < 112 then Character6(k - 96)
    else Character7(k - 112)
  }

  function Character0(k: nat): uint16 {
    match k
    case 0 => 0x00c7 case 1 => 0x00fc case 2 => 0x00e9 case 3 => 0x00e2
    case 4 => 0x00e4 case 5 => 0x00e0 case 6 => 0x00e5 case 7 => 0x00e7
    case 8 => 0x00ea case 9 => 0x00eb case 10 => 0x00e8 case 11 => 0x00ef
    case 12 => 0x00ee case 13 => 0x00ec case 14 => 0x00c4 case _ => 0x00c5
  }

  function Character1(k: nat): uint16 {
    match k
    case 0 => 0x00c9 case 1 => 0x00e6 case 2 => 0x00c6 case 3 => 0x00f4
    case 4 => 0x00f6 case 5 => 0x00f2 case 6 => 0x00fb case 7 => 0x00f9
    case 8 => 0x00ff case 9 => 0x00d6 case 10 => 0x00dc case 11 => 0x00a2
    case 12 => 0x00a3 case 13 => 0x00a5 case 14 => 0x20a7 case _ => 0x0192
  }

  function Character2(k: nat): uint16 {
    match k
    case 0 => 0x00e1 case 1 => 0x00ed case 2 => 0x00f3 case 3 => 0x00fa
    case 4 => 0x00f1 case 5 => 0x00d1 case 6 => 0x00aa case 7 => 0x00ba
    case 8 => 0x00bf case 9 => 0x2310 case 10 => 0x00ac case 11 => 0x00bd
    case 12 => 0x00bc case 13 => 0x00a1 case 14 => 0x00ab case _ => 0x00bb
  }

  function Character3(k: nat): uint16 {
    match k
    case 0 => 0x2591 case 1 => 0x2592 case 2 => 0x2593 case 3 => 0x2502
    case 4 => 0x2524 case 5 => 0x2561 case 6 => 0x2562 case 7 => 0x2556
    case 8 => 0x2555 case 9 => 0x2563 case 10 => 0x2551 case 11 => 0x2557
    case 12 => 0x255d case 13 => 0x255c case 14 => 0x255b case _ => 0x2510
  }

  function Character4(k: nat): uint16 {
    match k
    case 0 => 0x2514 case 1 => 0x2534 case 2 => 0x252c case 3 => 0x251c
    case 4 => 0x2500 case 5 => 0x253c case 6 => 0x255e case 7 => 0x255f
    case 8 => 0x255a case 9 => 0x2554 case 10 => 0x2569 case 11 => 0x2566
    case 12 => 0x2560 case 13 => 0x2550 case 14 => 0x256c case _ => 0x2567
  }

  function Character5(k: nat): uint16 {
    match k
    case 0 => 0x2568 case 1 => 0x2564 case 2 => 0x2565 case 3 => 0x2559
    case 4 => 0x2558 case 5 => 0x2552 case 6 => 0x2553 case 7 => 0x256b
    case 8 => 0x256a case 9 => 0x2518 case 10 => 0x250c case 11 => 0x2588
    case 12 => 0x2584 case 13 => 0x258c case 14 => 0x2590 case _ => 0x2580
  }

  function Character6(k: nat): uint16 {
    match k
    case 0 => 0x03b1 case 1 => 0x00df case 2 => 0x0393 case 3 => 0x03c0
    case 4 => 0x03a3 case 5 => 0x03c3 case 6 => 0x00b5 case 7 => 0x03c4
    case 8 => 0x03a6 case 9 => 0x0398 case 10 => 0x03a9 case 11 => 0x03b4
    case 12 => 0x221e case 13 => 0x03c6 case 14 => 0x03b5 case _ => 0x2229
  }

  function Character7(k: nat): uint16 {
    match k
    case 0 => 0x2261 case 1 => 0x00b1 case 2 => 0x2265 case 3 => 0x2264
    case 4 => 0x2320 case 5 => 0x2321 case 6 => 0x00f7 case 7 => 0x2248
    case 8 => 0x00b0 case 9 => 0x2219 case 10 => 0x00b7 case 11 => 0x221a
    case 12 => 0x207f case 13 => 0x00b2 case 14 => 0x25a0 case _ => 0x00a0
  }

  /** The character of entry `i` of the sorted map. */
  function MapCharacter(i: nat): uint16
    requires i < 128
  {
    if i < 16 then MapCharacter0(i)
    else if i < 32 then MapCharacter1(i - 16)
    else if i < 48 then MapCharacter2(i - 32)
    else if i < 64 then MapCharacter3(i - 48)
    else if i < 80 then MapCharacter4(i - 64)
    else if i < 96 then MapCharacter5(i - 80)
    else if i < 112 then MapCharacter6(i - 96)
    else MapCharacter7(i - 112)
  }

  function MapCharacter0(i: nat): uint16 {
    match i
    case 0 => 0x00a0 case 1 => 0x00a1 case 2 => 0x00a2 case 3 => 0x00a3
    case 4 => 0x00a5 case 5 => 0x00aa case 6 => 0x00ab case 7 => 0x00ac
    case 8 => 0x00b0 case 9 => 0x00b1 case 10 => 0x00b2 case 11 => 0x00b5
    case 12 => 0x00b7 case 13 => 0x00ba case 14 => 0x00bb case _ => 0x00bc
  }

  function MapCharacter1(i: nat): uint16 {
    match i
    case 0 => 0x00bd case 1 => 0x00bf case 2 => 0x00c4 case 3 => 0x00c5
    case 4 => 0x00c6 case 5 => 0x00c7 case 6 => 0x00c9 case 7 => 0x00d1
    case 8 => 0x00d6 case 9 => 0x00dc case 10 => 0x00df case 11 => 0x00e0
    case 12 => 0x00e1 case 13 => 0x00e2 case 14 => 0x00e4 case _ => 0x00e5
  }

  function MapCharacter2(i: nat): uint16 {
    match i
    case 0 => 0x00e6 case 1 => 0x00e7 case 2 => 0x00e8 case 3 => 0x00e9
    case 4 => 0x00ea case 5 => 0x00eb case 6 => 0x00ec case 7 => 0x00ed
    case 8 => 0x00ee case 9 => 0x00ef case 10 => 0x00f1 case 11 => 0x00f2
    case 12 => 0x00f3 case 13 => 0x00f4 case 14 => 0x00f6 case _ => 0x00f7
  }

  function MapCharacter3(i: nat): uint16 {
    match i
    case 0 => 0x00f9 case 1 => 0x00fa case 2 => 0x00fb case 3 => 0x00fc
    case 4 => 0x00ff case 5 => 0x0192 case 6 => 0x0393 case 7 => 0x0398
    case 8 => 0x03a3 case 9 => 0x03a6 case 10 => 0x03a9 case 11 => 0x03b1
    case 12 => 0x03b4 case 13 => 0x03b5 case 14 => 0x03c0 case _ => 0x03c3
  }

  function MapCharacter4(i: nat): uint16 {
    match i
    case 0 => 0x03c4 case 1 => 0x03c6 case 2 => 0x207f case 3 => 0x20a7
    case 4 => 0x2219 case 5 => 0x221a case 6 => 0x221e case 7 => 0x2229
    case 8 => 0x2248 case 9 => 0x2261 case 10 => 0x2264 case 11 => 0x2265
    case 12 => 0x2310 case 13 => 0x2320 case 14 => 0x2321 case _ => 0x2500
  }

  function MapCharacter5(i: nat): uint16 {
    match i
    case 0 => 0x2502 case 1 => 0x250c case 2 => 0x2510 case 3 => 0x2514
    case 4 => 0x2518 case 5 => 0x251c case 6 => 0x2524 case 7 => 0x252c
    case 8 => 0x2534 case 9 => 0x253c case 10 => 0x2550 case 11 => 0x2551
    case 12 => 0x2552 case 13 => 0x2553 case 14 => 0x2554 case _ => 0x2555
  }

  function MapCharacter6(i: nat): uint16 {
    match i
    case 0 => 0x2556 case 1 => 0x2557 case 2 => 0x2558 case 3 => 0x2559
    case 4 => 0x255a case 5 => 0x255b case 6 => 0x255c case 7 => 0x255d
    case 8 => 0x255e case 9 => 0x255f case 10 => 0x2560 case 11 => 0x2561
    case 12 => 0x2562 case 13 => 0x2563 case 14 => 0x2564 case _ => 0x2565
  }

  function MapCharacter7(i: nat): uint16 {
    match i
    case 0 => 0x2566 case 1 => 0x2567 case 2 => 0x2568 case 3 => 0x2569
    case 4 => 0x256a case 5 => 0x256b case 6 => 0x256c case 7 => 0x2580
    case 8 => 0x2584 case 9 => 0x2588 case 10 => 0x258c case 11 => 0x2590
    case 12 => 0x2591 case 13 => 0x2592 case 14 => 0x2593 case _ => 0x25a0
  }

  /** The byte of entry `i` of the sorted map. */
  function MapByte(i: nat): byte
    requires i < 128
  {
    if i < 16 then MapByte0(i)
    else if i < 32 then MapByte1(i - 16)
    else if i < 48 then MapByte2(i - 32)
    else if i < 64 then MapByte3(i - 48)
    else if i < 80 then MapByte4(i - 64)
    else if i < 96 then MapByte5(i - 80)
    else if i < 112 then MapByte6(i - 96)
    else MapByte7(i - 112)
  }

  function MapByte0(i: nat): byte {
    match i
    case 0 => 0xff case 1 => 0xad case 2 => 0x9b case 3 => 0x9c
    case 4 => 0x9d case 5 => 0xa6 case 6 => 0xae case 7 => 0xaa
    case 8 => 0xf8 case 9 => 0xf1 case 10 => 0xfd case 11 => 0xe6
    case 12 => 0xfa case 13 => 0xa7 case 14 => 0xaf case _ => 0xac
  }

  function MapByte1(i: nat): byte {
    match i
    case 0 => 0xab case 1 => 0xa8 case 2 => 0x8e case 3 => 0x8f
    case 4 => 0x92 case 5 => 0x80 case 6 => 0x90 case 7 => 0xa5
    case 8 => 0x99 case 9 => 0x9a case 10 => 0xe1 case 11 => 0x85
    case 12 => 0xa0 case 13 => 0x83 case 14 => 0x84 case _ => 0x86
  }

  function MapByte2(i: nat): byte {
    match i
    case 0 => 0x91 case 1 => 0x87 case 2 => 0x8a case 3 => 0x82
    case 4 => 0x88 case 5 => 0x89 case 6 => 0x8d case 7 => 0xa1
    case 8 => 0x8c case 9 => 0x8b case 10 => 0xa4 case 11 => 0x95
    case 12 => 0xa2 case 13 => 0x93 case 14 => 0x94 case _ => 0xf6
  }

  function MapByte3(i: nat): byte {
    match i
    case 0 => 0x97 case 1 => 0xa3 case 2 => 0x96 case 3 => 0x81
    case 4 => 0x98 case 5 => 0x9f case 6 => 0xe2 case 7 => 0xe9
    case 8 => 0xe4 case 9 => 0xe8 case 10 => 0xea case 11 => 0xe0
    case 12 => 0xeb case 13 => 0xee case 14 => 0xe3 case _ => 0xe5
  }

  function MapByte4(i: nat): byte {
    match i
    case 0 => 0xe7 case 1 => 0xed case 2 => 0xfc case 3 => 0x9e
    case 4 => 0xf9 case 5 => 0xfb case 6 => 0xec case 7 => 0xef
    case 8 => 0xf7 case 9 => 0xf0 case 10 => 0xf3 case 11 => 0xf2
    case 12 => 0xa9 case 13 => 0xf4 case 14 => 0xf5 case _ => 0xc4
  }

  function MapByte5(i: nat): byte {
    match i
    case 0 => 0xb3 case 1 => 0xda case 2 => 0xbf case 3 => 0xc0
    case 4 => 0xd9 case 5 => 0xc3 case 6 => 0xb4 case 7 => 0xc2
    case 8 => 0xc1 case 9 => 0xc5 case 10 => 0xcd case 11 => 0xba
    case 12 => 0xd5 case 13 => 0xd6 case 14 => 0xc9 case _ => 0xb8
  }

  function MapByte6(i: nat): byte {
    match i
    case 0 => 0xb7 case 1 => 0xbb case 2 => 0xd4 case 3 => 0xd3
    case 4 => 0xc8 case 5 => 0xbe case 6 => 0xbd case 7 => 0xbc
    case 8 => 0xc6 case 9 => 0xc7 case 10 => 0xcc case 11 => 0xb5
    case 12 => 0xb6 case 13 => 0xb9 case 14 => 0xd1 case _ => 0xd2
  }

  function MapByte7(i: nat): byte {
    match i
    case 0 => 0xcb case 1 => 0xcf case 2 => 0xd0 case 3 => 0xca
    case 4 => 0xd8 case 5 => 0xd7 case 6 => 0xce case 7 => 0xdf
    case 8 => 0xdc case 9 => 0xdb case 10 => 0xdd case 11 => 0xde
    case 12 => 0xb0 case 13 => 0xb1 case 14 => 0xb2 case _ => 0xfe
  }

  /** The entry of the sorted map for the byte 0x80 + k. */
  function Entry(k: nat): nat
    requires k < 128
  {
    if k < 16 then Entry0(k)
    else if k < 32 then Entry1(k - 16)
    else if k < 48 then Entry2(k - 32)
    else if k < 64 then Entry3(k - 48)
    else if k < 80 then Entry4(k - 64)
    else if k < 96 then Entry5(k - 80)
    else if k < 112 then Entry6(k - 96)
    else Entry7(k - 112)
  }

  function Entry0(k: nat): nat {
    match k
    case 0 => 21 case 1 => 51 case 2 => 35 case 3 => 29 case 4 => 30 case 5 => 27 case 6 => 31 case 7 => 33
    case 8 => 36 case 9 => 37 case 10 => 34 case 11 => 41 case 12 => 40 case 13 => 38 case 14 => 18 case _ => 19
  }

  function Entry1(k: nat): nat {
    match k
    case 0 => 22 case 1 => 32 case 2 => 20 case 3 => 45 case 4 => 46 case 5 => 43 case 6 => 50 case 7 => 48
    case 8 => 52 case 9 => 24 case 10 => 25 case 11 => 2 case 12 => 3 case 13 => 4 case 14 => 67 case _ => 53
  }

  function Entry2(k: nat): nat {
    match k
    case 0 => 28 case 1 => 39 case 2 => 44 case 3 => 49 case 4 => 42 case 5 => 23 case 6 => 5 case 7 => 13
    case 8 => 17 case 9 => 76 case 10 => 7 case 11 => 16 case 12 => 15 case 13 => 1 case 14 => 6 case _ => 14
  }

  function Entry3(k: nat): nat {
    match k
    case 0 => 124 case 1 => 125 case 2 => 126 case 3 => 80 case 4 => 86 case 5 => 107 case 6 => 108 case 7 => 96
    case 8 => 95 case 9 => 109 case 10 => 91 case 11 => 97 case 12 => 103 case 13 => 102 case 14 => 101 case _ => 82
  }

  function Entry4(k: nat): nat {
    match k
    case 0 => 83 case 1 => 88 case 2 => 87 case 3 => 85 case 4 => 79 case 5 => 89 case 6 => 104 case 7 => 105
    case 8 => 100 case 9 => 94 case 10 => 115 case 11 => 112 case 12 => 106 case 13 => 90 case 14 => 118 case _ => 113
  }

  function Entry5(k: nat): nat {
    match k
    case 0 => 114 case 1 => 110 case 2 => 111 case 3 => 99 case 4 => 98 case 5 => 92 case 6 => 93 case 7 => 117
    case 8 => 116 case 9 => 84 case 10 => 81 case 11 => 121 case 12 => 120 case 13 => 122 case 14 => 123 case _ => 119
  }

  function Entry6(k: nat): nat {
    match k
    case 0 => 59 case 1 => 26 case 2 => 54 case 3 => 62 case 4 => 56 case 5 => 63 case 6 => 11 case 7 => 64
    case 8 => 57 case 9 => 55 case 10 => 58 case 11 => 60 case 12 => 70 case 13 => 65 case 14 => 61 case _ => 71
  }

  function Entry7(k: nat): nat {
    match k
    case 0 => 73 case 1 => 9 case 2 => 75 case 3 => 74 case 4 => 77 case 5 => 78 case 6 => 47 case 7 => 72
    case 8 => 8 case 9 => 68 case 10 => 12 case 11 => 69 case 12 => 66 case 13 => 10 case 14 => 127 case _ => 0
  }

  lemma Inverse0(k: nat)
    requires 0 <= k < 32
    ensures Entry(k) < 128 && MapCharacter(Entry(k)) == Character(k) && MapByte(Entry(k)) == 0x80 + k
  {
  }

  lemma Inverse1(k: nat)
    requires 32 <= k < 64
    ensures Entry(k) < 128 && MapCharacter(Entry(k)) == Character(k) && MapByte(Entry(k)) == 0x80 + k
  {
  }

  lemma Inverse2(k: nat)
    requires 64 <= k < 96
    ensures Entry(k) < 128 && MapCharacter(Entry(k)) == Character(k) && MapByte(Entry(k)) == 0x80 + k
  {
  }

  lemma Inverse3(k: nat)
    requires 96 <= k < 128
    ensures Entry(k) < 128 && MapCharacter(Entry(k)) == Character(k) && MapByte(Entry(k)) == 0x80 + k
  {
  }

  lemma Ascending0(i: nat)
    requires 0 <= i < 64
    ensures MapCharacter(i) < MapCharacter(i + 1)
  {
  }

  lemma Ascending1(i: nat)
    requires 64 <= i < 127
    ensures MapCharacter(i) < MapCharacter(i + 1)
  {
  }

  /** Every byte from 0x80 on is in the map, with its own character. */
  lemma Inverse(k: nat)
    requires k < 128
    ensures Entry(k) < 128 && MapCharacter(Entry(k)) == Character(k) && MapByte(Entry(k)) == 0x80 + k
  {
    hide Entry, MapCharacter, Character, MapByte;
    if k < 32 {
      Inverse0(k);
    } else if k < 64 {
      Inverse1(k);
    } else if k < 96 {
      Inverse2(k);
    } else {
      Inverse3(k);
    }
  }

  lemma {:induction false} Ascending(i: nat, j: nat)
    requires i < j < 128
    ensures MapCharacter(i) < MapCharacter(j)
  {
    hide MapCharacter;
    if j - 1 < 64 {
      Ascending0(j - 1);
    } else {
      Ascending1(j - 1);
    }
    if i < j - 1 {
      Ascending(i, j - 1);
    }
  }

  lemma Backward0(i: nat)
    requires 0 <= i < 32
    ensures MapByte(i) >= 0x80 && MapCharacter(i) >= 0x80 && Character(MapByte(i) - 0x80) == MapCharacter(i)
  {
  }

  lemma Backward1(i: nat)
    requires 32 <= i < 64
    ensures MapByte(i) >= 0x80 && MapCharacter(i) >= 0x80 && Character(MapByte(i) - 0x80) == MapCharacter(i)
  {
  }

  lemma Backward2(i: nat)
    requires 64 <= i < 96
    ensures MapByte(i) >= 0x80 && MapCharacter(i) >= 0x80 && Character(MapByte(i) - 0x80) == MapCharacter(i)
  {
  }

  lemma Backward3(i: nat)
    requires 96 <= i < 128
    ensures MapByte(i) >= 0x80 && MapCharacter(i) >= 0x80 && Character(MapByte(i) - 0x80) == MapCharacter(i)
  {
  }

  /** And every entry of the map has the byte whose character it gives. */
  lemma Backward(i: nat)
    requires i < 128
    ensures MapByte(i) >= 0x80 && MapCharacter(i) >= 0x80 && Character(MapByte(i) - 0x80) == MapCharacter(i)
  {
    hide MapCharacter, Character, MapByte;
    if i < 32 {
      Backward0(i);
    } else if i < 64 {
      Backward1(i);
    } else if i < 96 {
      Backward2(i);
    } else {
      Backward3(i);
    }
  }
}
