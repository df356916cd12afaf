/**
 Which code it is. The code of Appendix B of RFC 7541 is canonical: the lengths of its codes determine it,
 because shorter codes come first, and among codes of one length those of smaller octets.
 */
module HuffmanCanonical {
  import opened Bytes
  import opened Words
  import opened HuffmanCodes
  import opened HuffmanTree
  import opened HuffmanTables
  import opened HuffmanReading
  import opened HuffmanEncoder

  /** The octets whose codes have `len` bits, in ascending order; as a search tree. */
  function Class(len: nat): seq<nat>
  {
    if len < 5 || len > 30 then []
    else if len < 18 then (
      if len < 11 then (
        if len < 8 then (
          if len < 6 then (
            // 012aceiost
            [48, 49, 50, 97, 99, 101, 105, 111, 115, 116]
          ) else (
            if len < 7 then (
              // space %-./3456789=A_bdfghlmnpru
              [32, 37, 45, 46, 47, 51, 52, 53, 54, 55, 56, 57, 61, 65, 95, 98, 100, 102, 103, 104, 108, 109,
               110, 112, 114, 117]
            ) else (
              // :BCDEFGHIJKLMNOPQRSTUVWYjkqvwxyz
              [58, 66, 67, 68, 69, 70, 71, 72, 73, 74, 75, 76, 77, 78, 79, 80, 81, 82, 83, 84, 85, 86, 87, 89,
               106, 107, 113, 118, 119, 120, 121, 122]
            )
          )
        ) else (
          if len < 9 then (
            // &*,;XZ
            [38, 42, 44, 59, 88, 90]
          ) else (
            if len < 10 then (
              []
            ) else (
              // !"()?
              [33, 34, 40, 41, 63]
            )
          )
        )
      ) else (
        if len < 14 then (
          if len < 12 then (
            // '+|
            [39, 43, 124]
          ) else (
            if len < 13 then (
              // #>
              [35, 62]
            ) else (
              // NUL $@[]~
              [0, 36, 64, 91, 93, 126]
            )
          )
        ) else (
          if len < 16 then (
            if len < 15 then (
              // ^}
              [94, 125]
            ) else (
              // <`{
              [60, 96, 123]
            )
          ) else (
            if len < 17 then (
              []
            ) else (
              []
            )
          )
        )
      )
    ) else (
      if len < 24 then (
        if len < 21 then (
          if len < 19 then (
            []
          ) else (
            if len < 20 then (
              [92, 195, 208]
            ) else (
              [128, 130, 131, 162, 184, 194, 224, 226]
            )
          )
        ) else (
          if len < 22 then (
            [153, 161, 167, 172, 176, 177, 179, 209, 216, 217, 227, 229, 230]
          ) else (
            if len < 23 then (
              [129, 132, 133, 134, 136, 146, 154, 156, 160, 163, 164, 169, 170, 173, 178, 181, 185, 186, 187,
               189, 190, 196, 198, 228, 232, 233]
            ) else (
              [1, 135, 137, 138, 139, 140, 141, 143, 147, 149, 150, 151, 152, 155, 157, 158, 165, 166, 168,
               174, 175, 180, 182, 183, 188, 191, 197, 231, 239]
            )
          )
        )
      ) else (
        if len < 27 then (
          if len < 25 then (
            [9, 142, 144, 145, 148, 159, 171, 206, 215, 225, 236, 237]
          ) else (
            if len < 26 then (
              [199, 207, 234, 235]
            ) else (
              [192, 193, 200, 201, 202, 205, 210, 213, 218, 219, 238, 240, 242, 243, 255]
            )
          )
        ) else (
          if len < 29 then (
            if len < 28 then (
              [203, 204, 211, 212, 214, 221, 222, 223, 241, 244, 245, 246, 247, 248, 250, 251, 252, 253, 254]
            ) else (
              [2, 3, 4, 5, 6, 7, 8, 11, 12, 14, 15, 16, 17, 18, 19, 20, 21, 23, 24, 25, 26, 27, 28, 29, 30, 31,
               127, 220, 249]
            )
          ) else (
            if len < 30 then (
              []
            ) else (
              [10, 13, 22]
            )
          )
        )
      )
    )
  }

  /** The first code of each length: all codes of fewer bits, lengthened, lie below it. */
  function First(len: nat): nat
  {
    if len <= 5 then 0 else 2 * (First(len - 1) + |Class(len - 1)|)
  }

  /** The same numbers as a search tree. */
  function Start(len: nat): nat
  {
    if len < 18 then (
      if len < 11 then (
        if len < 8 then (
          if len < 6 then (
            0x0
          ) else (
            if len < 7 then (
              0x14
            ) else (
              0x5c
            )
          )
        ) else (
          if len < 9 then (
            0xf8
          ) else (
            if len < 10 then (
              0x1fc
            ) else (
              0x3f8
            )
          )
        )
      ) else (
        if len < 14 then (
          if len < 12 then (
            0x7fa
          ) else (
            if len < 13 then (
              0xffa
            ) else (
              0x1ff8
            )
          )
        ) else (
          if len < 16 then (
            if len < 15 then (
              0x3ffc
            ) else (
              0x7ffc
            )
          ) else (
            if len < 17 then (
              0xfffe
            ) else (
              0x1fffc
            )
          )
        )
      )
    ) else (
      if len < 24 then (
        if len < 21 then (
          if len < 19 then (
            0x3fff8
          ) else (
            if len < 20 then (
              0x7fff0
            ) else (
              0xfffe6
            )
          )
        ) else (
          if len < 22 then (
            0x1fffdc
          ) else (
            if len < 23 then (
              0x3fffd2
            ) else (
              0x7fffd8
            )
          )
        )
      ) else (
        if len < 27 then (
          if len < 25 then (
            0xffffea
          ) else (
            if len < 26 then (
              0x1ffffec
            ) else (
              0x3ffffe0
            )
          )
        ) else (
          if len < 29 then (
            if len < 28 then (
              0x7ffffde
            ) else (
              0xfffffe2
            )
          ) else (
            if len < 30 then (
              0x1ffffffe
            ) else (
              0x3ffffffc
            )
          )
        )
      )
    )
  }

  lemma NextStart(len: nat)
    requires 5 <= len < 30
    ensures Start(len + 1) == 2 * (Start(len) + |Class(len)|)
  {
  }

  lemma {:induction false} FirstIsStart(len: nat)
    requires 5 <= len <= 30
    ensures First(len) == Start(len)
  {
    hide Start, Class;
    if len == 5 {
      StartOfAll();
    } else {
      FirstIsStart(len - 1);
      NextStart(len - 1);
    }
  }

  lemma StartOfAll()
    ensures Start(5) == 0
  {
  }

  predicate Placed(c: nat, code: Code)
  {
    && 5 <= code.len <= 30 && Start(code.len) <= code.bits < Start(code.len) + |Class(code.len)|
    && Class(code.len)[code.bits - Start(code.len)] == c
  }

  lemma Placed0(c: nat)
    requires 0 <= c < 16
    ensures Placed(c, Plain(c))
  {
  }

  lemma Placed16(c: nat)
    requires 16 <= c < 32
    ensures Placed(c, Plain(c))
  {
  }

  lemma Placed32(c: nat)
    requires 32 <= c < 48
    ensures Placed(c, Plain(c))
  {
  }

  lemma Placed48(c: nat)
    requires 48 <= c < 64
    ensures Placed(c, Plain(c))
  {
  }

  lemma Placed64(c: nat)
    requires 64 <= c < 80
    ensures Placed(c, Plain(c))
  {
  }

  lemma Placed80(c: nat)
    requires 80 <= c < 96
    ensures Placed(c, Plain(c))
  {
  }

  lemma Placed96(c: nat)
    requires 96 <= c < 112
    ensures Placed(c, Plain(c))
  {
  }

  lemma Placed112(c: nat)
    requires 112 <= c < 128
    ensures Placed(c, Plain(c))
  {
  }

  lemma Placed128(c: nat)
    requires 128 <= c < 144
    ensures Placed(c, Plain(c))
  {
  }

  lemma Placed144(c: nat)
    requires 144 <= c < 160
    ensures Placed(c, Plain(c))
  {
  }

  lemma Placed160(c: nat)
    requires 160 <= c < 176
    ensures Placed(c, Plain(c))
  {
  }

  lemma Placed176(c: nat)
    requires 176 <= c < 192
    ensures Placed(c, Plain(c))
  {
  }

  lemma Placed192(c: nat)
    requires 192 <= c < 208
    ensures Placed(c, Plain(c))
  {
  }

  lemma Placed208(c: nat)
    requires 208 <= c < 224
    ensures Placed(c, Plain(c))
  {
  }

  lemma Placed224(c: nat)
    requires 224 <= c < 240
    ensures Placed(c, Plain(c))
  {
  }

  lemma Placed240(c: nat)
    requires 240 <= c < 256
    ensures Placed(c, Plain(c))
  {
  }

  lemma AllPlaced(c: nat)
    requires c < 256
    ensures Placed(c, Plain(c))
  {
    hide Placed, Plain;
    if c < 16 {
      Placed0(c);
    } else if c < 32 {
      Placed16(c);
    } else if c < 48 {
      Placed32(c);
    } else if c < 64 {
      Placed48(c);
    } else if c < 80 {
      Placed64(c);
    } else if c < 96 {
      Placed80(c);
    } else if c < 112 {
      Placed96(c);
    } else if c < 128 {
      Placed112(c);
    } else if c < 144 {
      Placed128(c);
    } else if c < 160 {
      Placed144(c);
    } else if c < 176 {
      Placed160(c);
    } else if c < 192 {
      Placed176(c);
    } else if c < 208 {
      Placed192(c);
    } else if c < 224 {
      Placed208(c);
    } else if c < 240 {
      Placed224(c);
    } else {
      Placed240(c);
    }
  }

  lemma Members5(len: nat, i: nat)
    requires 5 <= len <= 6 && i < |Class(len)|
    ensures Class(len)[i] < 256 && Plain(Class(len)[i]).len == len
  {
  }

  lemma Ascends5(len: nat, i: nat)
    requires 5 <= len <= 6 && i + 1 < |Class(len)|
    ensures Class(len)[i] < Class(len)[i + 1]
  {
  }

  lemma Members7(len: nat, i: nat)
    requires 7 <= len <= 7 && i < |Class(len)|
    ensures Class(len)[i] < 256 && Plain(Class(len)[i]).len == len
  {
  }

  lemma Ascends7(len: nat, i: nat)
    requires 7 <= len <= 7 && i + 1 < |Class(len)|
    ensures Class(len)[i] < Class(len)[i + 1]
  {
  }

  lemma Members8(len: nat, i: nat)
    requires 8 <= len <= 15 && i < |Class(len)|
    ensures Class(len)[i] < 256 && Plain(Class(len)[i]).len == len
  {
  }

  lemma Ascends8(len: nat, i: nat)
    requires 8 <= len <= 15 && i + 1 < |Class(len)|
    ensures Class(len)[i] < Class(len)[i + 1]
  {
  }

  lemma Members16(len: nat, i: nat)
    requires 16 <= len <= 20 && i < |Class(len)|
    ensures Class(len)[i] < 256 && Plain(Class(len)[i]).len == len
  {
  }

  lemma Ascends16(len: nat, i: nat)
    requires 16 <= len <= 20 && i + 1 < |Class(len)|
    ensures Class(len)[i] < Class(len)[i + 1]
  {
  }

  lemma Members21(len: nat, i: nat)
    requires 21 <= len <= 21 && i < |Class(len)|
    ensures Class(len)[i] < 256 && Plain(Class(len)[i]).len == len
  {
  }

  lemma Ascends21(len: nat, i: nat)
    requires 21 <= len <= 21 && i + 1 < |Class(len)|
    ensures Class(len)[i] < Class(len)[i + 1]
  {
  }

  lemma Members22(len: nat, i: nat)
    requires 22 <= len <= 22 && i < |Class(len)|
    ensures Class(len)[i] < 256 && Plain(Class(len)[i]).len == len
  {
  }

  lemma Ascends22(len: nat, i: nat)
    requires 22 <= len <= 22 && i + 1 < |Class(len)|
    ensures Class(len)[i] < Class(len)[i + 1]
  {
  }

  lemma Members23(len: nat, i: nat)
    requires 23 <= len <= 23 && i < |Class(len)|
    ensures Class(len)[i] < 256 && Plain(Class(len)[i]).len == len
  {
  }

  lemma Ascends23(len: nat, i: nat)
    requires 23 <= len <= 23 && i + 1 < |Class(len)|
    ensures Class(len)[i] < Class(len)[i + 1]
  {
  }

  lemma Members24(len: nat, i: nat)
    requires 24 <= len <= 26 && i < |Class(len)|
    ensures Class(len)[i] < 256 && Plain(Class(len)[i]).len == len
  {
  }

  lemma Ascends24(len: nat, i: nat)
    requires 24 <= len <= 26 && i + 1 < |Class(len)|
    ensures Class(len)[i] < Class(len)[i + 1]
  {
  }

  lemma Members27(len: nat, i: nat)
    requires 27 <= len <= 27 && i < |Class(len)|
    ensures Class(len)[i] < 256 && Plain(Class(len)[i]).len == len
  {
  }

  lemma Ascends27(len: nat, i: nat)
    requires 27 <= len <= 27 && i + 1 < |Class(len)|
    ensures Class(len)[i] < Class(len)[i + 1]
  {
  }

  lemma Members28(len: nat, i: nat)
    requires 28 <= len <= 30 && i < |Class(len)|
    ensures Class(len)[i] < 256 && Plain(Class(len)[i]).len == len
  {
  }

  lemma Ascends28(len: nat, i: nat)
    requires 28 <= len <= 30 && i + 1 < |Class(len)|
    ensures Class(len)[i] < Class(len)[i + 1]
  {
  }

  lemma Members(len: nat, i: nat)
    requires i < |Class(len)|
    ensures 5 <= len <= 30 && Class(len)[i] < 256 && Plain(Class(len)[i]).len == len
  {
    ClassBounds(len);
    hide Class, Plain;
    if len <= 6 {
      Members5(len, i);
    } else if len <= 7 {
      Members7(len, i);
    } else if len <= 15 {
      Members8(len, i);
    } else if len <= 20 {
      Members16(len, i);
    } else if len <= 21 {
      Members21(len, i);
    } else if len <= 22 {
      Members22(len, i);
    } else if len <= 23 {
      Members23(len, i);
    } else if len <= 26 {
      Members24(len, i);
    } else if len <= 27 {
      Members27(len, i);
    } else {
      Members28(len, i);
    }
  }

  lemma ClassBounds(len: nat)
    ensures Class(len) != [] ==> 5 <= len <= 30
  {
  }

  lemma Ascends(len: nat, i: nat)
    requires i + 1 < |Class(len)|
    ensures Class(len)[i] < Class(len)[i + 1]
  {
    ClassBounds(len);
    hide Class;
    if len <= 6 {
      Ascends5(len, i);
    } else if len <= 7 {
      Ascends7(len, i);
    } else if len <= 15 {
      Ascends8(len, i);
    } else if len <= 20 {
      Ascends16(len, i);
    } else if len <= 21 {
      Ascends21(len, i);
    } else if len <= 22 {
      Ascends22(len, i);
    } else if len <= 23 {
      Ascends23(len, i);
    } else if len <= 26 {
      Ascends24(len, i);
    } else if len <= 27 {
      Ascends27(len, i);
    } else {
      Ascends28(len, i);
    }
  }

  lemma {:induction false} Ascending(len: nat, i: nat, j: nat)
    requires i < j < |Class(len)|
    ensures Class(len)[i] < Class(len)[j]
    decreases j
  {
    hide Class;
    Ascends(len, j - 1);
    if i < j - 1 {
      Ascending(len, i, j - 1);
    }
  }

  /** The octets with codes of a length are just those of its class. */
  lemma LengthClasses(c: nat, len: nat)
    requires c < 256
    ensures Plain(c).len == len <==> c in Class(len)
  {
    hide Class, Plain, Start;
    AllPlaced(c);
    if c in Class(len) {
      var i :| 0 <= i < |Class(len)| && Class(len)[i] == c;
      Members(len, i);
    }
  }

  /** The `i`-th octet of a class has the `i`-th code of its length. */
  lemma CodeByPlace(len: nat, i: nat)
    requires i < |Class(len)|
    ensures Class(len)[i] < 256 && Plain(Class(len)[i]) == Code(First(len) + i, len)
  {
    hide Class, Plain, Start, First;
    Members(len, i);
    FirstIsStart(len);
    var c := Class(len)[i];
    AllPlaced(c);
    var j := Plain(c).bits - Start(len);
    if i < j {
      Ascending(len, i, j);
    } else if j < i {
      Ascending(len, j, i);
    }
  }

  /** What is written and read for that octet are the bits of that number. */
  lemma BitsByPlace(len: nat, i: nat)
    requires i < |Class(len)|
    ensures Class(len)[i] < 256 && CodeBits(Class(len)[i] as byte) == ToBits(First(len) + i, len)
  {
    hide Class, Plain, First, CodePath, Pow2, ToBits;
    CodeByPlace(len, i);
    var c := Class(len)[i];
    PathBounds(c);
    PlainPaths(c);
    PlainFits(c);
    PathIsBits(Plain(c).bits, len);
  }

  lemma PlaceOf(c: nat) returns (i: nat)
    requires c < 256
    ensures i < |Class(Plain(c).len)| && Class(Plain(c).len)[i] == c
    ensures 5 <= Plain(c).len <= 30 && Plain(c).bits == First(Plain(c).len) + i
  {
    hide Class, Plain, Start, First;
    AllPlaced(c);
    FirstIsStart(Plain(c).len);
    i := Plain(c).bits - Start(Plain(c).len);
  }

  /** All codes of a length, lengthened to a greater one, lie below the first code there. */
  lemma {:induction false} Above(short: nat, long: nat)
    requires 5 <= short < long
    ensures (First(short) + |Class(short)|) * Pow2(long - short) <= First(long)
    decreases long
  {
    hide Class;
    if long == short + 1 {
      assert Pow2(1) == 2;
    } else {
      Above(short, long - 1);
      hide First;
      assert Pow2(long - short) == 2 * Pow2(long - 1 - short);
      Doubled(First(short) + |Class(short)|, Pow2(long - 1 - short));
      FirstStep(long);
    }
  }

  lemma Doubled(a: nat, w: nat)
    ensures a * (2 * w) == 2 * (a * w)
  {
  }

  lemma FirstStep(len: nat)
    requires len > 5
    ensures First(len) >= 2 * First(len - 1)
  {
  }

  /**
   Of two codes the one of the smaller octet comes first when they are as long, and the shorter one when
   they are not, whatever bits it is lengthened by: so no code is the start of another.
   */
  lemma Canonical(a: nat, b: nat)
    requires a < 256 && b < 256
    ensures Plain(a).len == Plain(b).len && a < b ==> Plain(a).bits < Plain(b).bits
    ensures Plain(a).len < Plain(b).len ==>
      (Plain(a).bits + 1) * Pow2(Plain(b).len - Plain(a).len) <= Plain(b).bits
  {
    hide Class, Plain, First, Pow2;
    var i := PlaceOf(a);
    var j := PlaceOf(b);
    if Plain(a).len == Plain(b).len && a < b {
      if j < i {
        Ascending(Plain(a).len, j, i);
      }
    } else if Plain(a).len < Plain(b).len {
      Above(Plain(a).len, Plain(b).len);
      Monotone(Plain(a).bits + 1, First(Plain(a).len) + |Class(Plain(a).len)|, Pow2(Plain(b).len - Plain(a).len));
    }
  }

  lemma Monotone(a: nat, b: nat, w: nat)
    requires a <= b
    ensures a * w <= b * w
  {
  }

  /** The last code of all, thirty ones, is left for the end of string. */
  lemma EndOfString()
    ensures First(30) + |Class(30)| == 0x3fff_ffff
    ensures EosBits() == ToBits(0x3fff_ffff, 30)
  {
    hide First, CodePath, ToBits, Pow2, Class, Start;
    FirstIsStart(30);
    LastStart();
    EosNumber();
    PathIsBits(0x3fff_ffff, 30);
  }

  lemma LastStart()
    ensures Start(30) + |Class(30)| == 0x3fff_ffff
  {
  }

  lemma EosNumber()
    ensures CodePath(256) == 0x3fff_ffff + Pow2(30) && 0x3fff_ffff < Pow2(30)
  {
    assert Pow2(10) == 1024;
    assert Pow2(20) == 0x10_0000;
    assert Pow2(30) == 0x4000_0000;
    assert CodePath(256) == 0x7fff_ffff;
  }
}
