/** The real tables checked against the tree, four rows of the automaton at a time. */
module HuffmanTables {
  import opened Bytes
  import opened HuffmanCodes
  import opened HuffmanAutomaton
  import opened HuffmanTree
  import opened Words

  /** A path of ones, shorter than the end-of-string code. */
  predicate IsOnes(q: nat)
  {
    || q == 0x1 || q == 0x3 || q == 0x7 || q == 0xf || q == 0x1f || q == 0x3f || q == 0x7f || q == 0xff
    || q == 0x1ff || q == 0x3ff || q == 0x7ff || q == 0xfff || q == 0x1fff || q == 0x3fff || q == 0x7fff || q == 0xffff
    || q == 0x1_ffff || q == 0x3_ffff || q == 0x7_ffff || q == 0xf_ffff || q == 0x1f_ffff || q == 0x3f_ffff
    || q == 0x7f_ffff || q == 0xff_ffff || q == 0x1ff_ffff || q == 0x3ff_ffff || q == 0x7ff_ffff || q == 0xfff_ffff
    || q == 0x1fff_ffff || q == 0x3fff_ffff
  }

  /** The path `x` is the path `k` followed by at most three more bits, those of the path `q`. */
  predicate Splits(x: nat, k: nat, q: nat)
  {
    || (q == 1 && x == k)
    || (2 <= q < 4 && x == 2 * k + q - 2)
    || (4 <= q < 8 && x == 4 * k + q - 4)
    || (8 <= q < 16 && x == 8 * k + q - 8)
  }

  /** The path `x` runs through the end-of-string code. */
  predicate RunsThroughEos(x: nat)
  {
    || x == 0x7fff_ffff || 0xffff_fffe <= x < 0x1_0000_0000
    || 0x1_ffff_fffc <= x < 0x2_0000_0000 || 0x3_ffff_fff8 <= x < 0x4_0000_0000
  }

  /**
   A cell does what the tree does with the four bits of nibble `n` below state `s`: they end
   inside the tree, or complete one symbol, or run into the end of string. Only the last is
   marked by a step to `s` itself. `ending` says that what is left over is all ones.
   */
  predicate CellFits(cell: Cell, s: nat, x: nat)
  {
    if cell.next == s then RunsThroughEos(x)
    else
      && cell.next < 256 && cell.sym < 256
      && (cell.ending != 0 <==> Ending(cell.next))
      && Lands(x, cell.emit, cell.sym, PathOf(cell.next))
  }

  predicate Lands(x: nat, emit: nat, sym: nat, q: nat)
    requires sym < 256
  {
    if emit == 0 then q == x else Splits(x, CodePath(sym), q)
  }

  /** An edge of the tree adds its bit to the path. */
  predicate EdgeFits(to: Target, q: nat)
  {
    match to
    case Go(t) => t < 256 && PathOf(t) == q
    case Emit(c) => c <= 256 && CodePath(c) == q
  }

  predicate UpFits(s: nat)
    requires s < 256
  {
    s == 0 || (UpOf(s) < 256 && (Zero(UpOf(s)) == Go(s) || One(UpOf(s)) == Go(s)))
  }

  predicate LeafFits(c: nat)
    requires c <= 256
  {
    LeafUp(c) < 256 && (Zero(LeafUp(c)) == Emit(c) || One(LeafUp(c)) == Emit(c))
  }

  /** The lower-casing table is the plain one after an ASCII lower-case transformation. */
  lemma LoweredIsPlain(c: nat)
    requires c < 256
    ensures Lowered(c) == Plain(Lower(c))
  {
  }

  lemma EndingStates(s: nat)
    requires s < 256
    ensures Ending(s) <==> IsOnes(PathOf(s))
  {
  }

  /** Codes have at least five bits, and inner nodes lie above the end of string. */
  lemma PathBounds(c: nat)
    requires c < 256
    ensures 32 <= CodePath(c) < 0x8000_0000 && 1 <= PathOf(c) < 0x4000_0000
    ensures 5 <= Plain(c).len <= 30
  {
  }

  lemma ZeroEdges0(s: nat)
    requires s < 64
    ensures EdgeFits(Zero(s), 2 * PathOf(s))
  {
  }

  lemma ZeroEdges64(s: nat)
    requires 64 <= s < 128
    ensures EdgeFits(Zero(s), 2 * PathOf(s))
  {
  }

  lemma ZeroEdges128(s: nat)
    requires 128 <= s < 192
    ensures EdgeFits(Zero(s), 2 * PathOf(s))
  {
  }

  lemma ZeroEdges192(s: nat)
    requires 192 <= s < 256
    ensures EdgeFits(Zero(s), 2 * PathOf(s))
  {
  }

  /** Every edge for the bit 0. */
  lemma ZeroEdges(s: nat)
    requires s < 256
    ensures EdgeFits(Zero(s), 2 * PathOf(s))
  {
    hide EdgeFits, Zero, PathOf;
    if s < 64 {
      ZeroEdges0(s);
    } else if s < 128 {
      ZeroEdges64(s);
    } else if s < 192 {
      ZeroEdges128(s);
    } else {
      ZeroEdges192(s);
    }
  }

  lemma OneEdges0(s: nat)
    requires s < 64
    ensures EdgeFits(One(s), 2 * PathOf(s) + 1)
  {
  }

  lemma OneEdges64(s: nat)
    requires 64 <= s < 128
    ensures EdgeFits(One(s), 2 * PathOf(s) + 1)
  {
  }

  lemma OneEdges128(s: nat)
    requires 128 <= s < 192
    ensures EdgeFits(One(s), 2 * PathOf(s) + 1)
  {
  }

  lemma OneEdges192(s: nat)
    requires 192 <= s < 256
    ensures EdgeFits(One(s), 2 * PathOf(s) + 1)
  {
  }

  /** Every edge for the bit 1. */
  lemma OneEdges(s: nat)
    requires s < 256
    ensures EdgeFits(One(s), 2 * PathOf(s) + 1)
  {
    hide EdgeFits, One, PathOf;
    if s < 64 {
      OneEdges0(s);
    } else if s < 128 {
      OneEdges64(s);
    } else if s < 192 {
      OneEdges128(s);
    } else {
      OneEdges192(s);
    }
  }

  lemma Parents0(s: nat)
    requires s < 64
    ensures UpFits(s)
  {
  }

  lemma Parents64(s: nat)
    requires 64 <= s < 128
    ensures UpFits(s)
  {
  }

  lemma Parents128(s: nat)
    requires 128 <= s < 192
    ensures UpFits(s)
  {
  }

  lemma Parents192(s: nat)
    requires 192 <= s < 256
    ensures UpFits(s)
  {
  }

  /** Every inner node but the root hangs from its parent. */
  lemma Parents(s: nat)
    requires s < 256
    ensures UpFits(s)
  {
    hide UpFits;
    if s < 64 {
      Parents0(s);
    } else if s < 128 {
      Parents64(s);
    } else if s < 192 {
      Parents128(s);
    } else {
      Parents192(s);
    }
  }

  lemma Leaves0(c: nat)
    requires c < 64
    ensures LeafFits(c)
  {
  }

  lemma Leaves64(c: nat)
    requires 64 <= c < 128
    ensures LeafFits(c)
  {
  }

  lemma Leaves128(c: nat)
    requires 128 <= c < 192
    ensures LeafFits(c)
  {
  }

  lemma Leaves192(c: nat)
    requires 192 <= c < 256
    ensures LeafFits(c)
  {
  }

  /** Every octet hangs from an inner node. */
  lemma Leaves(c: nat)
    requires c < 256
    ensures LeafFits(c)
  {
    hide LeafFits;
    if c < 64 {
      Leaves0(c);
    } else if c < 128 {
      Leaves64(c);
    } else if c < 192 {
      Leaves128(c);
    } else {
      Leaves192(c);
    }
  }

  lemma PlainPaths0(c: nat)
    requires c < 64
    ensures Plain(c).len < 32 && CodePath(c) == Plain(c).bits + Pow2(Plain(c).len)
  {
    hide Pow2;
    Powers();
  }

  lemma PlainPaths64(c: nat)
    requires 64 <= c < 128
    ensures Plain(c).len < 32 && CodePath(c) == Plain(c).bits + Pow2(Plain(c).len)
  {
    hide Pow2;
    Powers();
  }

  lemma PlainPaths128(c: nat)
    requires 128 <= c < 192
    ensures Plain(c).len < 32 && CodePath(c) == Plain(c).bits + Pow2(Plain(c).len)
  {
    hide Pow2;
    Powers();
  }

  lemma PlainPaths192(c: nat)
    requires 192 <= c < 256
    ensures Plain(c).len < 32 && CodePath(c) == Plain(c).bits + Pow2(Plain(c).len)
  {
    hide Pow2;
    Powers();
  }

  /** The path to an octet is its code. */
  lemma PlainPaths(c: nat)
    requires c < 256
    ensures Plain(c).len < 32 && CodePath(c) == Plain(c).bits + Pow2(Plain(c).len)
  {
    hide Plain, CodePath, Pow2;
    if c < 64 {
      PlainPaths0(c);
    } else if c < 128 {
      PlainPaths64(c);
    } else if c < 192 {
      PlainPaths128(c);
    } else {
      PlainPaths192(c);
    }
  }

  lemma Check0(s: nat, n: nat)
    requires s < 4 && n < 16
    ensures CellFits(Rows0(s, n), s, 16 * PathOf(s) + n)
  {
  }

  lemma Check4(s: nat, n: nat)
    requires 4 <= s < 8 && n < 16
    ensures CellFits(Rows4(s, n), s, 16 * PathOf(s) + n)
  {
  }

  lemma Check8(s: nat, n: nat)
    requires 8 <= s < 12 && n < 16
    ensures CellFits(Rows8(s, n), s, 16 * PathOf(s) + n)
  {
  }

  lemma Check12(s: nat, n: nat)
    requires 12 <= s < 16 && n < 16
    ensures CellFits(Rows12(s, n), s, 16 * PathOf(s) + n)
  {
  }

  lemma Check16(s: nat, n: nat)
    requires 16 <= s < 20 && n < 16
    ensures CellFits(Rows16(s, n), s, 16 * PathOf(s) + n)
  {
  }

  lemma Check20(s: nat, n: nat)
    requires 20 <= s < 24 && n < 16
    ensures CellFits(Rows20(s, n), s, 16 * PathOf(s) + n)
  {
  }

  lemma Check24(s: nat, n: nat)
    requires 24 <= s < 28 && n < 16
    ensures CellFits(Rows24(s, n), s, 16 * PathOf(s) + n)
  {
  }

  lemma Check28(s: nat, n: nat)
    requires 28 <= s < 32 && n < 16
    ensures CellFits(Rows28(s, n), s, 16 * PathOf(s) + n)
  {
  }

  lemma Check32(s: nat, n: nat)
    requires 32 <= s < 36 && n < 16
    ensures CellFits(Rows32(s, n), s, 16 * PathOf(s) + n)
  {
  }

  lemma Check36(s: nat, n: nat)
    requires 36 <= s < 40 && n < 16
    ensures CellFits(Rows36(s, n), s, 16 * PathOf(s) + n)
  {
  }

  lemma Check40(s: nat, n: nat)
    requires 40 <= s < 44 && n < 16
    ensures CellFits(Rows40(s, n), s, 16 * PathOf(s) + n)
  {
  }

  lemma Check44(s: nat, n: nat)
    requires 44 <= s < 48 && n < 16
    ensures CellFits(Rows44(s, n), s, 16 * PathOf(s) + n)
  {
  }

  lemma Check48(s: nat, n: nat)
    requires 48 <= s < 52 && n < 16
    ensures CellFits(Rows48(s, n), s, 16 * PathOf(s) + n)
  {
  }

  lemma Check52(s: nat, n: nat)
    requires 52 <= s < 56 && n < 16
    ensures CellFits(Rows52(s, n), s, 16 * PathOf(s) + n)
  {
  }

  lemma Check56(s: nat, n: nat)
    requires 56 <= s < 60 && n < 16
    ensures CellFits(Rows56(s, n), s, 16 * PathOf(s) + n)
  {
  }

  lemma Check60(s: nat, n: nat)
    requires 60 <= s < 64 && n < 16
    ensures CellFits(Rows60(s, n), s, 16 * PathOf(s) + n)
  {
  }

  lemma Check64(s: nat, n: nat)
    requires 64 <= s < 68 && n < 16
    ensures CellFits(Rows64(s, n), s, 16 * PathOf(s) + n)
  {
  }

  lemma Check68(s: nat, n: nat)
    requires 68 <= s < 72 && n < 16
    ensures CellFits(Rows68(s, n), s, 16 * PathOf(s) + n)
  {
  }

  lemma Check72(s: nat, n: nat)
    requires 72 <= s < 76 && n < 16
    ensures CellFits(Rows72(s, n), s, 16 * PathOf(s) + n)
  {
  }

  lemma Check76(s: nat, n: nat)
    requires 76 <= s < 80 && n < 16
    ensures CellFits(Rows76(s, n), s, 16 * PathOf(s) + n)
  {
  }

  lemma Check80(s: nat, n: nat)
    requires 80 <= s < 84 && n < 16
    ensures CellFits(Rows80(s, n), s, 16 * PathOf(s) + n)
  {
  }

  lemma Check84(s: nat, n: nat)
    requires 84 <= s < 88 && n < 16
    ensures CellFits(Rows84(s, n), s, 16 * PathOf(s) + n)
  {
  }

  lemma Check88(s: nat, n: nat)
    requires 88 <= s < 92 && n < 16
    ensures CellFits(Rows88(s, n), s, 16 * PathOf(s) + n)
  {
  }

  lemma Check92(s: nat, n: nat)
    requires 92 <= s < 96 && n < 16
    ensures CellFits(Rows92(s, n), s, 16 * PathOf(s) + n)
  {
  }

  lemma Check96(s: nat, n: nat)
    requires 96 <= s < 100 && n < 16
    ensures CellFits(Rows96(s, n), s, 16 * PathOf(s) + n)
  {
  }

  lemma Check100(s: nat, n: nat)
    requires 100 <= s < 104 && n < 16
    ensures CellFits(Rows100(s, n), s, 16 * PathOf(s) + n)
  {
  }

  lemma Check104(s: nat, n: nat)
    requires 104 <= s < 108 && n < 16
    ensures CellFits(Rows104(s, n), s, 16 * PathOf(s) + n)
  {
  }

  lemma Check108(s: nat, n: nat)
    requires 108 <= s < 112 && n < 16
    ensures CellFits(Rows108(s, n), s, 16 * PathOf(s) + n)
  {
  }

  lemma Check112(s: nat, n: nat)
    requires 112 <= s < 116 && n < 16
    ensures CellFits(Rows112(s, n), s, 16 * PathOf(s) + n)
  {
  }

  lemma Check116(s: nat, n: nat)
    requires 116 <= s < 120 && n < 16
    ensures CellFits(Rows116(s, n), s, 16 * PathOf(s) + n)
  {
  }

  lemma Check120(s: nat, n: nat)
    requires 120 <= s < 124 && n < 16
    ensures CellFits(Rows120(s, n), s, 16 * PathOf(s) + n)
  {
  }

  lemma Check124(s: nat, n: nat)
    requires 124 <= s < 128 && n < 16
    ensures CellFits(Rows124(s, n), s, 16 * PathOf(s) + n)
  {
  }

  lemma Check128(s: nat, n: nat)
    requires 128 <= s < 132 && n < 16
    ensures CellFits(Rows128(s, n), s, 16 * PathOf(s) + n)
  {
  }

  lemma Check132(s: nat, n: nat)
    requires 132 <= s < 136 && n < 16
    ensures CellFits(Rows132(s, n), s, 16 * PathOf(s) + n)
  {
  }

  lemma Check136(s: nat, n: nat)
    requires 136 <= s < 140 && n < 16
    ensures CellFits(Rows136(s, n), s, 16 * PathOf(s) + n)
  {
  }

  lemma Check140(s: nat, n: nat)
    requires 140 <= s < 144 && n < 16
    ensures CellFits(Rows140(s, n), s, 16 * PathOf(s) + n)
  {
  }

  lemma Check144(s: nat, n: nat)
    requires 144 <= s < 148 && n < 16
    ensures CellFits(Rows144(s, n), s, 16 * PathOf(s) + n)
  {
  }

  lemma Check148(s: nat, n: nat)
    requires 148 <= s < 152 && n < 16
    ensures CellFits(Rows148(s, n), s, 16 * PathOf(s) + n)
  {
  }

  lemma Check152(s: nat, n: nat)
    requires 152 <= s < 156 && n < 16
    ensures CellFits(Rows152(s, n), s, 16 * PathOf(s) + n)
  {
  }

  lemma Check156(s: nat, n: nat)
    requires 156 <= s < 160 && n < 16
    ensures CellFits(Rows156(s, n), s, 16 * PathOf(s) + n)
  {
  }

  lemma Check160(s: nat, n: nat)
    requires 160 <= s < 164 && n < 16
    ensures CellFits(Rows160(s, n), s, 16 * PathOf(s) + n)
  {
  }

  lemma Check164(s: nat, n: nat)
    requires 164 <= s < 168 && n < 16
    ensures CellFits(Rows164(s, n), s, 16 * PathOf(s) + n)
  {
  }

  lemma Check168(s: nat, n: nat)
    requires 168 <= s < 172 && n < 16
    ensures CellFits(Rows168(s, n), s, 16 * PathOf(s) + n)
  {
  }

  lemma Check172(s: nat, n: nat)
    requires 172 <= s < 176 && n < 16
    ensures CellFits(Rows172(s, n), s, 16 * PathOf(s) + n)
  {
  }

  lemma Check176(s: nat, n: nat)
    requires 176 <= s < 180 && n < 16
    ensures CellFits(Rows176(s, n), s, 16 * PathOf(s) + n)
  {
  }

  lemma Check180(s: nat, n: nat)
    requires 180 <= s < 184 && n < 16
    ensures CellFits(Rows180(s, n), s, 16 * PathOf(s) + n)
  {
  }

  lemma Check184(s: nat, n: nat)
    requires 184 <= s < 188 && n < 16
    ensures CellFits(Rows184(s, n), s, 16 * PathOf(s) + n)
  {
  }

  lemma Check188(s: nat, n: nat)
    requires 188 <= s < 192 && n < 16
    ensures CellFits(Rows188(s, n), s, 16 * PathOf(s) + n)
  {
  }

  lemma Check192(s: nat, n: nat)
    requires 192 <= s < 196 && n < 16
    ensures CellFits(Rows192(s, n), s, 16 * PathOf(s) + n)
  {
  }

  lemma Check196(s: nat, n: nat)
    requires 196 <= s < 200 && n < 16
    ensures CellFits(Rows196(s, n), s, 16 * PathOf(s) + n)
  {
  }

  lemma Check200(s: nat, n: nat)
    requires 200 <= s < 204 && n < 16
    ensures CellFits(Rows200(s, n), s, 16 * PathOf(s) + n)
  {
  }

  lemma Check204(s: nat, n: nat)
    requires 204 <= s < 208 && n < 16
    ensures CellFits(Rows204(s, n), s, 16 * PathOf(s) + n)
  {
  }

  lemma Check208(s: nat, n: nat)
    requires 208 <= s < 212 && n < 16
    ensures CellFits(Rows208(s, n), s, 16 * PathOf(s) + n)
  {
  }

  lemma Check212(s: nat, n: nat)
    requires 212 <= s < 216 && n < 16
    ensures CellFits(Rows212(s, n), s, 16 * PathOf(s) + n)
  {
  }

  lemma Check216(s: nat, n: nat)
    requires 216 <= s < 220 && n < 16
    ensures CellFits(Rows216(s, n), s, 16 * PathOf(s) + n)
  {
  }

  lemma Check220(s: nat, n: nat)
    requires 220 <= s < 224 && n < 16
    ensures CellFits(Rows220(s, n), s, 16 * PathOf(s) + n)
  {
  }

  lemma Check224(s: nat, n: nat)
    requires 224 <= s < 228 && n < 16
    ensures CellFits(Rows224(s, n), s, 16 * PathOf(s) + n)
  {
  }

  lemma Check228(s: nat, n: nat)
    requires 228 <= s < 232 && n < 16
    ensures CellFits(Rows228(s, n), s, 16 * PathOf(s) + n)
  {
  }

  lemma Check232(s: nat, n: nat)
    requires 232 <= s < 236 && n < 16
    ensures CellFits(Rows232(s, n), s, 16 * PathOf(s) + n)
  {
  }

  lemma Check236(s: nat, n: nat)
    requires 236 <= s < 240 && n < 16
    ensures CellFits(Rows236(s, n), s, 16 * PathOf(s) + n)
  {
  }

  lemma Check240(s: nat, n: nat)
    requires 240 <= s < 244 && n < 16
    ensures CellFits(Rows240(s, n), s, 16 * PathOf(s) + n)
  {
  }

  lemma Check244(s: nat, n: nat)
    requires 244 <= s < 248 && n < 16
    ensures CellFits(Rows244(s, n), s, 16 * PathOf(s) + n)
  {
  }

  lemma Check248(s: nat, n: nat)
    requires 248 <= s < 252 && n < 16
    ensures CellFits(Rows248(s, n), s, 16 * PathOf(s) + n)
  {
  }

  lemma Check252(s: nat, n: nat)
    requires 252 <= s < 256 && n < 16
    ensures CellFits(Rows252(s, n), s, 16 * PathOf(s) + n)
  {
  }

  /** Every one of the 4096 cells. */
  lemma CellsFit(s: nat, n: nat)
    requires s < 256 && n < 16
    ensures CellFits(CellOf(s, n), s, 16 * PathOf(s) + n)
  {
    hide CellFits, PathOf, CodePath;
    if s < 128 {
      if s < 64 {
        if s < 32 {
          if s < 16 {
            if s < 8 {
              if s < 4 {
                Check0(s, n);
              } else {
                Check4(s, n);
              }
            } else {
              if s < 12 {
                Check8(s, n);
              } else {
                Check12(s, n);
              }
            }
          } else {
            if s < 24 {
              if s < 20 {
                Check16(s, n);
              } else {
                Check20(s, n);
              }
            } else {
              if s < 28 {
                Check24(s, n);
              } else {
                Check28(s, n);
              }
            }
          }
        } else {
          if s < 48 {
            if s < 40 {
              if s < 36 {
                Check32(s, n);
              } else {
                Check36(s, n);
              }
            } else {
              if s < 44 {
                Check40(s, n);
              } else {
                Check44(s, n);
              }
            }
          } else {
            if s < 56 {
              if s < 52 {
                Check48(s, n);
              } else {
                Check52(s, n);
              }
            } else {
              if s < 60 {
                Check56(s, n);
              } else {
                Check60(s, n);
              }
            }
          }
        }
      } else {
        if s < 96 {
          if s < 80 {
            if s < 72 {
              if s < 68 {
                Check64(s, n);
              } else {
                Check68(s, n);
              }
            } else {
              if s < 76 {
                Check72(s, n);
              } else {
                Check76(s, n);
              }
            }
          } else {
            if s < 88 {
              if s < 84 {
                Check80(s, n);
              } else {
                Check84(s, n);
              }
            } else {
              if s < 92 {
                Check88(s, n);
              } else {
                Check92(s, n);
              }
            }
          }
        } else {
          if s < 112 {
            if s < 104 {
              if s < 100 {
                Check96(s, n);
              } else {
                Check100(s, n);
              }
            } else {
              if s < 108 {
                Check104(s, n);
              } else {
                Check108(s, n);
              }
            }
          } else {
            if s < 120 {
              if s < 116 {
                Check112(s, n);
              } else {
                Check116(s, n);
              }
            } else {
              if s < 124 {
                Check120(s, n);
              } else {
                Check124(s, n);
              }
            }
          }
        }
      }
    } else {
      if s < 192 {
        if s < 160 {
          if s < 144 {
            if s < 136 {
              if s < 132 {
                Check128(s, n);
              } else {
                Check132(s, n);
              }
            } else {
              if s < 140 {
                Check136(s, n);
              } else {
                Check140(s, n);
              }
            }
          } else {
            if s < 152 {
              if s < 148 {
                Check144(s, n);
              } else {
                Check148(s, n);
              }
            } else {
              if s < 156 {
                Check152(s, n);
              } else {
                Check156(s, n);
              }
            }
          }
        } else {
          if s < 176 {
            if s < 168 {
              if s < 164 {
                Check160(s, n);
              } else {
                Check164(s, n);
              }
            } else {
              if s < 172 {
                Check168(s, n);
              } else {
                Check172(s, n);
              }
            }
          } else {
            if s < 184 {
              if s < 180 {
                Check176(s, n);
              } else {
                Check180(s, n);
              }
            } else {
              if s < 188 {
                Check184(s, n);
              } else {
                Check188(s, n);
              }
            }
          }
        }
      } else {
        if s < 224 {
          if s < 208 {
            if s < 200 {
              if s < 196 {
                Check192(s, n);
              } else {
                Check196(s, n);
              }
            } else {
              if s < 204 {
                Check200(s, n);
              } else {
                Check204(s, n);
              }
            }
          } else {
            if s < 216 {
              if s < 212 {
                Check208(s, n);
              } else {
                Check212(s, n);
              }
            } else {
              if s < 220 {
                Check216(s, n);
              } else {
                Check220(s, n);
              }
            }
          }
        } else {
          if s < 240 {
            if s < 232 {
              if s < 228 {
                Check224(s, n);
              } else {
                Check228(s, n);
              }
            } else {
              if s < 236 {
                Check232(s, n);
              } else {
                Check236(s, n);
              }
            }
          } else {
            if s < 248 {
              if s < 244 {
                Check240(s, n);
              } else {
                Check244(s, n);
              }
            } else {
              if s < 252 {
                Check248(s, n);
              } else {
                Check252(s, n);
              }
            }
          }
        }
      }
    }
  }
}
