/**
 * The Unicode general categories Go's unicode package consults: unicode.IsUpper
 * is Lu, IsLower Ll, IsNumber N (Nd, Nl, No), IsPunct P (Pc, Pd, Pe, Pf, Pi,
 * Po, Ps) and IsSymbol S (Sc, Sk, Sm, So), as of Unicode 15.0.0, the version
 * of Go 1.21 and later.
 */
module Unicode {
  /** The class a code point's general category puts it in. */
  datatype Class = Upper | Lower | Number | Punct | Symbol | Other

  /**
   * A search tree over code points: below `at` the left subtree decides,
   * from `at` on the `above` one.
   */
  datatype Table = Leaf(kind: Class) | Split(at: int, below: Table, above: Table)

  /** The class of code point `n` according to table `t`. */
  function Lookup(t: Table, n: int): Class
  {
    match t
    case Leaf(k) => k
    case Split(at, below, above) => if n < at then Lookup(below, n) else Lookup(above, n)
  }

  /** The class of `c`. */
  function ClassOf(c: char): Class
  {
    Lookup(Classes, c as int)
  }

  /** The 2314 maximal runs of code points in U+0000..U+10FFFF that share a class. */
  const Classes: Table :=
    Split(0x1FF2,
      Split(0x510,
        Split(0x217,
          Split(0x164,
            Split(0x11A,
              Split(0xBA,
                Split(0x7D,
                  Split(0x3F,
                    Split(0x2B,
                      Split(0x24,
                        Split(0x21,
                          Leaf(Other),
                          Leaf(Punct)),
                        Split(0x25,
                          Leaf(Symbol),
                          Leaf(Punct))),
                      Split(0x30,
                        Split(0x2C,
                          Leaf(Symbol),
                          Leaf(Punct)),
                        Split(0x3A,
                          Leaf(Number),
                          Split(0x3C,
                            Leaf(Punct),
                            Leaf(Symbol))))),
                    Split(0x5F,
                      Split(0x5B,
                        Split(0x41,
                          Leaf(Punct),
                          Leaf(Upper)),
                        Split(0x5E,
                          Leaf(Punct),
                          Leaf(Symbol))),
                      Split(0x61,
                        Split(0x60,
                          Leaf(Punct),
                          Leaf(Symbol)),
                        Split(0x7B,
                          Leaf(Lower),
                          Split(0x7C,
                            Leaf(Punct),
                            Leaf(Symbol)))))),
                  Split(0xAC,
                    Split(0xA2,
                      Split(0x7F,
                        Split(0x7E,
                          Leaf(Punct),
                          Leaf(Symbol)),
                        Split(0xA1,
                          Leaf(Other),
                          Leaf(Punct))),
                      Split(0xA8,
                        Split(0xA7,
                          Leaf(Symbol),
                          Leaf(Punct)),
                        Split(0xAA,
                          Leaf(Symbol),
                          Split(0xAB,
                            Leaf(Other),
                            Leaf(Punct))))),
                    Split(0xB4,
                      Split(0xAE,
                        Split(0xAD,
                          Leaf(Symbol),
                          Leaf(Other)),
                        Split(0xB2,
                          Leaf(Symbol),
                          Leaf(Number))),
                      Split(0xB6,
                        Split(0xB5,
                          Leaf(Symbol),
                          Leaf(Lower)),
                        Split(0xB8,
                          Leaf(Punct),
                          Split(0xB9,
                            Leaf(Symbol),
                            Leaf(Number))))))),
                Split(0x108,
                  Split(0xF8,
                    Split(0xC0,
                      Split(0xBC,
                        Split(0xBB,
                          Leaf(Other),
                          Leaf(Punct)),
                        Split(0xBF,
                          Leaf(Number),
                          Leaf(Punct))),
                      Split(0xD8,
                        Split(0xD7,
                          Leaf(Upper),
                          Leaf(Symbol)),
                        Split(0xDF,
                          Leaf(Upper),
                          Split(0xF7,
                            Leaf(Lower),
                            Leaf(Symbol))))),
                    Split(0x103,
                      Split(0x101,
                        Split(0x100,
                          Leaf(Lower),
                          Leaf(Upper)),
                        Split(0x102,
                          Leaf(Lower),
                          Leaf(Upper))),
                      Split(0x105,
                        Split(0x104,
                          Leaf(Lower),
                          Leaf(Upper)),
                        Split(0x106,
                          Leaf(Lower),
                          Split(0x107,
                            Leaf(Upper),
                            Leaf(Lower)))))),
                  Split(0x111,
                    Split(0x10C,
                      Split(0x10A,
                        Split(0x109,
                          Leaf(Upper),
                          Leaf(Lower)),
                        Split(0x10B,
                          Leaf(Upper),
                          Leaf(Lower))),
                      Split(0x10E,
                        Split(0x10D,
                          Leaf(Upper),
                          Leaf(Lower)),
                        Split(0x10F,
                          Leaf(Upper),
                          Split(0x110,
                            Leaf(Lower),
                            Leaf(Upper))))),
                    Split(0x115,
                      Split(0x113,
                        Split(0x112,
                          Leaf(Lower),
                          Leaf(Upper)),
                        Split(0x114,
                          Leaf(Lower),
                          Leaf(Upper))),
                      Split(0x117,
                        Split(0x116,
                          Leaf(Lower),
                          Leaf(Upper)),
                        Split(0x118,
                          Leaf(Lower),
                          Split(0x119,
                            Leaf(Upper),
                            Leaf(Lower)))))))),
              Split(0x13F,
                Split(0x12C,
                  Split(0x123,
                    Split(0x11E,
                      Split(0x11C,
                        Split(0x11B,
                          Leaf(Upper),
                          Leaf(Lower)),
                        Split(0x11D,
                          Leaf(Upper),
                          Leaf(Lower))),
                      Split(0x120,
                        Split(0x11F,
                          Leaf(Upper),
                          Leaf(Lower)),
                        Split(0x121,
                          Leaf(Upper),
                          Split(0x122,
                            Leaf(Lower),
                            Leaf(Upper))))),
                    Split(0x127,
                      Split(0x125,
                        Split(0x124,
                          Leaf(Lower),
                          Leaf(Upper)),
                        Split(0x126,
                          Leaf(Lower),
                          Leaf(Upper))),
                      Split(0x129,
                        Split(0x128,
                          Leaf(Lower),
                          Leaf(Upper)),
                        Split(0x12A,
                          Leaf(Lower),
                          Split(0x12B,
                            Leaf(Upper),
                            Leaf(Lower)))))),
                  Split(0x135,
                    Split(0x130,
                      Split(0x12E,
                        Split(0x12D,
                          Leaf(Upper),
                          Leaf(Lower)),
                        Split(0x12F,
                          Leaf(Upper),
                          Leaf(Lower))),
                      Split(0x132,
                        Split(0x131,
                          Leaf(Upper),
                          Leaf(Lower)),
                        Split(0x133,
                          Leaf(Upper),
                          Split(0x134,
                            Leaf(Lower),
                            Leaf(Upper))))),
                    Split(0x13A,
                      Split(0x137,
                        Split(0x136,
                          Leaf(Lower),
                          Leaf(Upper)),
                        Split(0x139,
                          Leaf(Lower),
                          Leaf(Upper))),
                      Split(0x13C,
                        Split(0x13B,
                          Leaf(Lower),
                          Leaf(Upper)),
                        Split(0x13D,
                          Leaf(Lower),
                          Split(0x13E,
                            Leaf(Upper),
                            Leaf(Lower))))))),
                Split(0x152,
                  Split(0x148,
                    Split(0x143,
                      Split(0x141,
                        Split(0x140,
                          Leaf(Upper),
                          Leaf(Lower)),
                        Split(0x142,
                          Leaf(Upper),
                          Leaf(Lower))),
                      Split(0x145,
                        Split(0x144,
                          Leaf(Upper),
                          Leaf(Lower)),
                        Split(0x146,
                          Leaf(Upper),
                          Split(0x147,
                            Leaf(Lower),
                            Leaf(Upper))))),
                    Split(0x14D,
                      Split(0x14B,
                        Split(0x14A,
                          Leaf(Lower),
                          Leaf(Upper)),
                        Split(0x14C,
                          Leaf(Lower),
                          Leaf(Upper))),
                      Split(0x14F,
                        Split(0x14E,
                          Leaf(Lower),
                          Leaf(Upper)),
                        Split(0x150,
                          Leaf(Lower),
                          Split(0x151,
                            Leaf(Upper),
                            Leaf(Lower)))))),
                  Split(0x15B,
                    Split(0x156,
                      Split(0x154,
                        Split(0x153,
                          Leaf(Upper),
                          Leaf(Lower)),
                        Split(0x155,
                          Leaf(Upper),
                          Leaf(Lower))),
                      Split(0x158,
                        Split(0x157,
                          Leaf(Upper),
                          Leaf(Lower)),
                        Split(0x159,
                          Leaf(Upper),
                          Split(0x15A,
                            Leaf(Lower),
                            Leaf(Upper))))),
                    Split(0x15F,
                      Split(0x15D,
                        Split(0x15C,
                          Leaf(Lower),
                          Leaf(Upper)),
                        Split(0x15E,
                          Leaf(Lower),
                          Leaf(Upper))),
                      Split(0x161,
                        Split(0x160,
                          Leaf(Lower),
                          Leaf(Upper)),
                        Split(0x162,
                          Leaf(Lower),
                          Split(0x163,
                            Leaf(Upper),
                            Leaf(Lower))))))))),
            Split(0x1CA,
              Split(0x193,
                Split(0x176,
                  Split(0x16D,
                    Split(0x168,
                      Split(0x166,
                        Split(0x165,
                          Leaf(Upper),
                          Leaf(Lower)),
                        Split(0x167,
                          Leaf(Upper),
                          Leaf(Lower))),
                      Split(0x16A,
                        Split(0x169,
                          Leaf(Upper),
                          Leaf(Lower)),
                        Split(0x16B,
                          Leaf(Upper),
                          Split(0x16C,
                            Leaf(Lower),
                            Leaf(Upper))))),
                    Split(0x171,
                      Split(0x16F,
                        Split(0x16E,
                          Leaf(Lower),
                          Leaf(Upper)),
                        Split(0x170,
                          Leaf(Lower),
                          Leaf(Upper))),
                      Split(0x173,
                        Split(0x172,
                          Leaf(Lower),
                          Leaf(Upper)),
                        Split(0x174,
                          Leaf(Lower),
                          Split(0x175,
                            Leaf(Upper),
                            Leaf(Lower)))))),
                  Split(0x183,
                    Split(0x17B,
                      Split(0x178,
                        Split(0x177,
                          Leaf(Upper),
                          Leaf(Lower)),
                        Split(0x17A,
                          Leaf(Upper),
                          Leaf(Lower))),
                      Split(0x17D,
                        Split(0x17C,
                          Leaf(Upper),
                          Leaf(Lower)),
                        Split(0x17E,
                          Leaf(Upper),
                          Split(0x181,
                            Leaf(Lower),
                            Leaf(Upper))))),
                    Split(0x188,
                      Split(0x185,
                        Split(0x184,
                          Leaf(Lower),
                          Leaf(Upper)),
                        Split(0x186,
                          Leaf(Lower),
                          Leaf(Upper))),
                      Split(0x18C,
                        Split(0x189,
                          Leaf(Lower),
                          Leaf(Upper)),
                        Split(0x18E,
                          Leaf(Lower),
                          Split(0x192,
                            Leaf(Upper),
                            Leaf(Lower))))))),
                Split(0x1AE,
                  Split(0x1A3,
                    Split(0x19C,
                      Split(0x196,
                        Split(0x195,
                          Leaf(Upper),
                          Leaf(Lower)),
                        Split(0x199,
                          Leaf(Upper),
                          Leaf(Lower))),
                      Split(0x19F,
                        Split(0x19E,
                          Leaf(Upper),
                          Leaf(Lower)),
                        Split(0x1A1,
                          Leaf(Upper),
                          Split(0x1A2,
                            Leaf(Lower),
                            Leaf(Upper))))),
                    Split(0x1A8,
                      Split(0x1A5,
                        Split(0x1A4,
                          Leaf(Lower),
                          Leaf(Upper)),
                        Split(0x1A6,
                          Leaf(Lower),
                          Leaf(Upper))),
                      Split(0x1AA,
                        Split(0x1A9,
                          Leaf(Lower),
                          Leaf(Upper)),
                        Split(0x1AC,
                          Leaf(Lower),
                          Split(0x1AD,
                            Leaf(Upper),
                            Leaf(Lower)))))),
                  Split(0x1BC,
                    Split(0x1B5,
                      Split(0x1B1,
                        Split(0x1B0,
                          Leaf(Upper),
                          Leaf(Lower)),
                        Split(0x1B4,
                          Leaf(Upper),
                          Leaf(Lower))),
                      Split(0x1B7,
                        Split(0x1B6,
                          Leaf(Upper),
                          Leaf(Lower)),
                        Split(0x1B9,
                          Leaf(Upper),
                          Split(0x1BB,
                            Leaf(Lower),
                            Leaf(Other))))),
                    Split(0x1C5,
                      Split(0x1C0,
                        Split(0x1BD,
                          Leaf(Upper),
                          Leaf(Lower)),
                        Split(0x1C4,
                          Leaf(Other),
                          Leaf(Upper))),
                      Split(0x1C7,
                        Split(0x1C6,
                          Leaf(Other),
                          Leaf(Lower)),
                        Split(0x1C8,
                          Leaf(Upper),
                          Split(0x1C9,
                            Leaf(Other),
                            Leaf(Lower)))))))),
              Split(0x1EF,
                Split(0x1DC,
                  Split(0x1D3,
                    Split(0x1CE,
                      Split(0x1CC,
                        Split(0x1CB,
                          Leaf(Upper),
                          Leaf(Other)),
                        Split(0x1CD,
                          Leaf(Lower),
                          Leaf(Upper))),
                      Split(0x1D0,
                        Split(0x1CF,
                          Leaf(Lower),
                          Leaf(Upper)),
                        Split(0x1D1,
                          Leaf(Lower),
                          Split(0x1D2,
                            Leaf(Upper),
                            Leaf(Lower))))),
                    Split(0x1D7,
                      Split(0x1D5,
                        Split(0x1D4,
                          Leaf(Upper),
                          Leaf(Lower)),
                        Split(0x1D6,
                          Leaf(Upper),
                          Leaf(Lower))),
                      Split(0x1D9,
                        Split(0x1D8,
                          Leaf(Upper),
                          Leaf(Lower)),
                        Split(0x1DA,
                          Leaf(Upper),
                          Split(0x1DB,
                            Leaf(Lower),
                            Leaf(Upper)))))),
                  Split(0x1E6,
                    Split(0x1E1,
                      Split(0x1DF,
                        Split(0x1DE,
                          Leaf(Lower),
                          Leaf(Upper)),
                        Split(0x1E0,
                          Leaf(Lower),
                          Leaf(Upper))),
                      Split(0x1E3,
                        Split(0x1E2,
                          Leaf(Lower),
                          Leaf(Upper)),
                        Split(0x1E4,
                          Leaf(Lower),
                          Split(0x1E5,
                            Leaf(Upper),
                            Leaf(Lower))))),
                    Split(0x1EA,
                      Split(0x1E8,
                        Split(0x1E7,
                          Leaf(Upper),
                          Leaf(Lower)),
                        Split(0x1E9,
                          Leaf(Upper),
                          Leaf(Lower))),
                      Split(0x1EC,
                        Split(0x1EB,
                          Leaf(Upper),
                          Leaf(Lower)),
                        Split(0x1ED,
                          Leaf(Upper),
                          Split(0x1EE,
                            Leaf(Lower),
                            Leaf(Upper))))))),
                Split(0x204,
                  Split(0x1FB,
                    Split(0x1F4,
                      Split(0x1F2,
                        Split(0x1F1,
                          Leaf(Lower),
                          Leaf(Upper)),
                        Split(0x1F3,
                          Leaf(Other),
                          Leaf(Lower))),
                      Split(0x1F6,
                        Split(0x1F5,
                          Leaf(Upper),
                          Leaf(Lower)),
                        Split(0x1F9,
                          Leaf(Upper),
                          Split(0x1FA,
                            Leaf(Lower),
                            Leaf(Upper))))),
                    Split(0x1FF,
                      Split(0x1FD,
                        Split(0x1FC,
                          Leaf(Lower),
                          Leaf(Upper)),
                        Split(0x1FE,
                          Leaf(Lower),
                          Leaf(Upper))),
                      Split(0x201,
                        Split(0x200,
                          Leaf(Lower),
                          Leaf(Upper)),
                        Split(0x202,
                          Leaf(Lower),
                          Split(0x203,
                            Leaf(Upper),
                            Leaf(Lower)))))),
                  Split(0x20D,
                    Split(0x208,
                      Split(0x206,
                        Split(0x205,
                          Leaf(Upper),
                          Leaf(Lower)),
                        Split(0x207,
                          Leaf(Upper),
                          Leaf(Lower))),
                      Split(0x20A,
                        Split(0x209,
                          Leaf(Upper),
                          Leaf(Lower)),
                        Split(0x20B,
                          Leaf(Upper),
                          Split(0x20C,
                            Leaf(Lower),
                            Leaf(Upper))))),
                    Split(0x212,
                      Split(0x20F,
                        Split(0x20E,
                          Leaf(Lower),
                          Leaf(Upper)),
                        Split(0x210,
                          Leaf(Lower),
                          Split(0x211,
                            Leaf(Upper),
                            Leaf(Lower)))),
                      Split(0x214,
                        Split(0x213,
                          Leaf(Upper),
                          Leaf(Lower)),
                        Split(0x215,
                          Leaf(Upper),
                          Split(0x216,
                            Leaf(Lower),
                            Leaf(Upper)))))))))),
          Split(0x477,
            Split(0x386,
              Split(0x247,
                Split(0x229,
                  Split(0x220,
                    Split(0x21B,
                      Split(0x219,
                        Split(0x218,
                          Leaf(Lower),
                          Leaf(Upper)),
                        Split(0x21A,
                          Leaf(Lower),
                          Leaf(Upper))),
                      Split(0x21D,
                        Split(0x21C,
                          Leaf(Lower),
                          Leaf(Upper)),
                        Split(0x21E,
                          Leaf(Lower),
                          Split(0x21F,
                            Leaf(Upper),
                            Leaf(Lower))))),
                    Split(0x224,
                      Split(0x222,
                        Split(0x221,
                          Leaf(Upper),
                          Leaf(Lower)),
                        Split(0x223,
                          Leaf(Upper),
                          Leaf(Lower))),
                      Split(0x226,
                        Split(0x225,
                          Leaf(Upper),
                          Leaf(Lower)),
                        Split(0x227,
                          Leaf(Upper),
                          Split(0x228,
                            Leaf(Lower),
                            Leaf(Upper)))))),
                  Split(0x232,
                    Split(0x22D,
                      Split(0x22B,
                        Split(0x22A,
                          Leaf(Lower),
                          Leaf(Upper)),
                        Split(0x22C,
                          Leaf(Lower),
                          Leaf(Upper))),
                      Split(0x22F,
                        Split(0x22E,
                          Leaf(Lower),
                          Leaf(Upper)),
                        Split(0x230,
                          Leaf(Lower),
                          Split(0x231,
                            Leaf(Upper),
                            Leaf(Lower))))),
                    Split(0x23D,
                      Split(0x23A,
                        Split(0x233,
                          Leaf(Upper),
                          Leaf(Lower)),
                        Split(0x23C,
                          Leaf(Upper),
                          Leaf(Lower))),
                      Split(0x241,
                        Split(0x23F,
                          Leaf(Upper),
                          Leaf(Lower)),
                        Split(0x242,
                          Leaf(Upper),
                          Split(0x243,
                            Leaf(Lower),
                            Leaf(Upper))))))),
                Split(0x2ED,
                  Split(0x294,
                    Split(0x24B,
                      Split(0x249,
                        Split(0x248,
                          Leaf(Lower),
                          Leaf(Upper)),
                        Split(0x24A,
                          Leaf(Lower),
                          Leaf(Upper))),
                      Split(0x24D,
                        Split(0x24C,
                          Leaf(Lower),
                          Leaf(Upper)),
                        Split(0x24E,
                          Leaf(Lower),
                          Split(0x24F,
                            Leaf(Upper),
                            Leaf(Lower))))),
                    Split(0x2C6,
                      Split(0x2B0,
                        Split(0x295,
                          Leaf(Other),
                          Leaf(Lower)),
                        Split(0x2C2,
                          Leaf(Other),
                          Leaf(Symbol))),
                      Split(0x2E0,
                        Split(0x2D2,
                          Leaf(Other),
                          Leaf(Symbol)),
                        Split(0x2E5,
                          Leaf(Other),
                          Split(0x2EC,
                            Leaf(Symbol),
                            Leaf(Other)))))),
                  Split(0x375,
                    Split(0x370,
                      Split(0x2EF,
                        Split(0x2EE,
                          Leaf(Symbol),
                          Leaf(Other)),
                        Split(0x300,
                          Leaf(Symbol),
                          Leaf(Other))),
                      Split(0x372,
                        Split(0x371,
                          Leaf(Upper),
                          Leaf(Lower)),
                        Split(0x373,
                          Leaf(Upper),
                          Split(0x374,
                            Leaf(Lower),
                            Leaf(Other))))),
                    Split(0x37B,
                      Split(0x377,
                        Split(0x376,
                          Leaf(Symbol),
                          Leaf(Upper)),
                        Split(0x378,
                          Leaf(Lower),
                          Leaf(Other))),
                      Split(0x37F,
                        Split(0x37E,
                          Leaf(Lower),
                          Leaf(Punct)),
                        Split(0x380,
                          Leaf(Upper),
                          Split(0x384,
                            Leaf(Other),
                            Leaf(Symbol)))))))),
              Split(0x3EC,
                Split(0x3DA,
                  Split(0x3A2,
                    Split(0x38C,
                      Split(0x388,
                        Split(0x387,
                          Leaf(Upper),
                          Leaf(Punct)),
                        Split(0x38B,
                          Leaf(Upper),
                          Leaf(Other))),
                      Split(0x38E,
                        Split(0x38D,
                          Leaf(Upper),
                          Leaf(Other)),
                        Split(0x390,
                          Leaf(Upper),
                          Split(0x391,
                            Leaf(Lower),
                            Leaf(Upper))))),
                    Split(0x3D0,
                      Split(0x3AC,
                        Split(0x3A3,
                          Leaf(Other),
                          Leaf(Upper)),
                        Split(0x3CF,
                          Leaf(Lower),
                          Leaf(Upper))),
                      Split(0x3D5,
                        Split(0x3D2,
                          Leaf(Lower),
                          Leaf(Upper)),
                        Split(0x3D8,
                          Leaf(Lower),
                          Split(0x3D9,
                            Leaf(Upper),
                            Leaf(Lower)))))),
                  Split(0x3E3,
                    Split(0x3DE,
                      Split(0x3DC,
                        Split(0x3DB,
                          Leaf(Upper),
                          Leaf(Lower)),
                        Split(0x3DD,
                          Leaf(Upper),
                          Leaf(Lower))),
                      Split(0x3E0,
                        Split(0x3DF,
                          Leaf(Upper),
                          Leaf(Lower)),
                        Split(0x3E1,
                          Leaf(Upper),
                          Split(0x3E2,
                            Leaf(Lower),
                            Leaf(Upper))))),
                    Split(0x3E7,
                      Split(0x3E5,
                        Split(0x3E4,
                          Leaf(Lower),
                          Leaf(Upper)),
                        Split(0x3E6,
                          Leaf(Lower),
                          Leaf(Upper))),
                      Split(0x3E9,
                        Split(0x3E8,
                          Leaf(Lower),
                          Leaf(Upper)),
                        Split(0x3EA,
                          Leaf(Lower),
                          Split(0x3EB,
                            Leaf(Upper),
                            Leaf(Lower))))))),
                Split(0x465,
                  Split(0x3F9,
                    Split(0x3F4,
                      Split(0x3EE,
                        Split(0x3ED,
                          Leaf(Upper),
                          Leaf(Lower)),
                        Split(0x3EF,
                          Leaf(Upper),
                          Leaf(Lower))),
                      Split(0x3F6,
                        Split(0x3F5,
                          Leaf(Upper),
                          Leaf(Lower)),
                        Split(0x3F7,
                          Leaf(Symbol),
                          Split(0x3F8,
                            Leaf(Upper),
                            Leaf(Lower))))),
                    Split(0x460,
                      Split(0x3FD,
                        Split(0x3FB,
                          Leaf(Upper),
                          Leaf(Lower)),
                        Split(0x430,
                          Leaf(Upper),
                          Leaf(Lower))),
                      Split(0x462,
                        Split(0x461,
                          Leaf(Upper),
                          Leaf(Lower)),
                        Split(0x463,
                          Leaf(Upper),
                          Split(0x464,
                            Leaf(Lower),
                            Leaf(Upper)))))),
                  Split(0x46E,
                    Split(0x469,
                      Split(0x467,
                        Split(0x466,
                          Leaf(Lower),
                          Leaf(Upper)),
                        Split(0x468,
                          Leaf(Lower),
                          Leaf(Upper))),
                      Split(0x46B,
                        Split(0x46A,
                          Leaf(Lower),
                          Leaf(Upper)),
                        Split(0x46C,
                          Leaf(Lower),
                          Split(0x46D,
                            Leaf(Upper),
                            Leaf(Lower))))),
                    Split(0x472,
                      Split(0x470,
                        Split(0x46F,
                          Leaf(Upper),
                          Leaf(Lower)),
                        Split(0x471,
                          Leaf(Upper),
                          Leaf(Lower))),
                      Split(0x474,
                        Split(0x473,
                          Leaf(Upper),
                          Leaf(Lower)),
                        Split(0x475,
                          Leaf(Upper),
                          Split(0x476,
                            Leaf(Lower),
                            Leaf(Upper))))))))),
            Split(0x4C6,
              Split(0x4A1,
                Split(0x48F,
                  Split(0x480,
                    Split(0x47B,
                      Split(0x479,
                        Split(0x478,
                          Leaf(Lower),
                          Leaf(Upper)),
                        Split(0x47A,
                          Leaf(Lower),
                          Leaf(Upper))),
                      Split(0x47D,
                        Split(0x47C,
                          Leaf(Lower),
                          Leaf(Upper)),
                        Split(0x47E,
                          Leaf(Lower),
                          Split(0x47F,
                            Leaf(Upper),
                            Leaf(Lower))))),
                    Split(0x48A,
                      Split(0x482,
                        Split(0x481,
                          Leaf(Upper),
                          Leaf(Lower)),
                        Split(0x483,
                          Leaf(Symbol),
                          Leaf(Other))),
                      Split(0x48C,
                        Split(0x48B,
                          Leaf(Upper),
                          Leaf(Lower)),
                        Split(0x48D,
                          Leaf(Upper),
                          Split(0x48E,
                            Leaf(Lower),
                            Leaf(Upper)))))),
                  Split(0x498,
                    Split(0x493,
                      Split(0x491,
                        Split(0x490,
                          Leaf(Lower),
                          Leaf(Upper)),
                        Split(0x492,
                          Leaf(Lower),
                          Leaf(Upper))),
                      Split(0x495,
                        Split(0x494,
                          Leaf(Lower),
                          Leaf(Upper)),
                        Split(0x496,
                          Leaf(Lower),
                          Split(0x497,
                            Leaf(Upper),
                            Leaf(Lower))))),
                    Split(0x49C,
                      Split(0x49A,
                        Split(0x499,
                          Leaf(Upper),
                          Leaf(Lower)),
                        Split(0x49B,
                          Leaf(Upper),
                          Leaf(Lower))),
                      Split(0x49E,
                        Split(0x49D,
                          Leaf(Upper),
                          Leaf(Lower)),
                        Split(0x49F,
                          Leaf(Upper),
                          Split(0x4A0,
                            Leaf(Lower),
                            Leaf(Upper))))))),
                Split(0x4B3,
                  Split(0x4AA,
                    Split(0x4A5,
                      Split(0x4A3,
                        Split(0x4A2,
                          Leaf(Lower),
                          Leaf(Upper)),
                        Split(0x4A4,
                          Leaf(Lower),
                          Leaf(Upper))),
                      Split(0x4A7,
                        Split(0x4A6,
                          Leaf(Lower),
                          Leaf(Upper)),
                        Split(0x4A8,
                          Leaf(Lower),
                          Split(0x4A9,
                            Leaf(Upper),
                            Leaf(Lower))))),
                    Split(0x4AE,
                      Split(0x4AC,
                        Split(0x4AB,
                          Leaf(Upper),
                          Leaf(Lower)),
                        Split(0x4AD,
                          Leaf(Upper),
                          Leaf(Lower))),
                      Split(0x4B0,
                        Split(0x4AF,
                          Leaf(Upper),
                          Leaf(Lower)),
                        Split(0x4B1,
                          Leaf(Upper),
                          Split(0x4B2,
                            Leaf(Lower),
                            Leaf(Upper)))))),
                  Split(0x4BC,
                    Split(0x4B7,
                      Split(0x4B5,
                        Split(0x4B4,
                          Leaf(Lower),
                          Leaf(Upper)),
                        Split(0x4B6,
                          Leaf(Lower),
                          Leaf(Upper))),
                      Split(0x4B9,
                        Split(0x4B8,
                          Leaf(Lower),
                          Leaf(Upper)),
                        Split(0x4BA,
                          Leaf(Lower),
                          Split(0x4BB,
                            Leaf(Upper),
                            Leaf(Lower))))),
                    Split(0x4C0,
                      Split(0x4BE,
                        Split(0x4BD,
                          Leaf(Upper),
                          Leaf(Lower)),
                        Split(0x4BF,
                          Leaf(Upper),
                          Leaf(Lower))),
                      Split(0x4C3,
                        Split(0x4C2,
                          Leaf(Upper),
                          Leaf(Lower)),
                        Split(0x4C4,
                          Leaf(Upper),
                          Split(0x4C5,
                            Leaf(Lower),
                            Leaf(Upper)))))))),
              Split(0x4EB,
                Split(0x4D9,
                  Split(0x4D0,
                    Split(0x4CA,
                      Split(0x4C8,
                        Split(0x4C7,
                          Leaf(Lower),
                          Leaf(Upper)),
                        Split(0x4C9,
                          Leaf(Lower),
                          Leaf(Upper))),
                      Split(0x4CC,
                        Split(0x4CB,
                          Leaf(Lower),
                          Leaf(Upper)),
                        Split(0x4CD,
                          Leaf(Lower),
                          Split(0x4CE,
                            Leaf(Upper),
                            Leaf(Lower))))),
                    Split(0x4D4,
                      Split(0x4D2,
                        Split(0x4D1,
                          Leaf(Upper),
                          Leaf(Lower)),
                        Split(0x4D3,
                          Leaf(Upper),
                          Leaf(Lower))),
                      Split(0x4D6,
                        Split(0x4D5,
                          Leaf(Upper),
                          Leaf(Lower)),
                        Split(0x4D7,
                          Leaf(Upper),
                          Split(0x4D8,
                            Leaf(Lower),
                            Leaf(Upper)))))),
                  Split(0x4E2,
                    Split(0x4DD,
                      Split(0x4DB,
                        Split(0x4DA,
                          Leaf(Lower),
                          Leaf(Upper)),
                        Split(0x4DC,
                          Leaf(Lower),
                          Leaf(Upper))),
                      Split(0x4DF,
                        Split(0x4DE,
                          Leaf(Lower),
                          Leaf(Upper)),
                        Split(0x4E0,
                          Leaf(Lower),
                          Split(0x4E1,
                            Leaf(Upper),
                            Leaf(Lower))))),
                    Split(0x4E6,
                      Split(0x4E4,
                        Split(0x4E3,
                          Leaf(Upper),
                          Leaf(Lower)),
                        Split(0x4E5,
                          Leaf(Upper),
                          Leaf(Lower))),
                      Split(0x4E8,
                        Split(0x4E7,
                          Leaf(Upper),
                          Leaf(Lower)),
                        Split(0x4E9,
                          Leaf(Upper),
                          Split(0x4EA,
                            Leaf(Lower),
                            Leaf(Upper))))))),
                Split(0x4FD,
                  Split(0x4F4,
                    Split(0x4EF,
                      Split(0x4ED,
                        Split(0x4EC,
                          Leaf(Lower),
                          Leaf(Upper)),
                        Split(0x4EE,
                          Leaf(Lower),
                          Leaf(Upper))),
                      Split(0x4F1,
                        Split(0x4F0,
                          Leaf(Lower),
                          Leaf(Upper)),
                        Split(0x4F2,
                          Leaf(Lower),
                          Split(0x4F3,
                            Leaf(Upper),
                            Leaf(Lower))))),
                    Split(0x4F8,
                      Split(0x4F6,
                        Split(0x4F5,
                          Leaf(Upper),
                          Leaf(Lower)),
                        Split(0x4F7,
                          Leaf(Upper),
                          Leaf(Lower))),
                      Split(0x4FA,
                        Split(0x4F9,
                          Leaf(Upper),
                          Leaf(Lower)),
                        Split(0x4FB,
                          Leaf(Upper),
                          Split(0x4FC,
                            Leaf(Lower),
                            Leaf(Upper)))))),
                  Split(0x506,
                    Split(0x501,
                      Split(0x4FF,
                        Split(0x4FE,
                          Leaf(Lower),
                          Leaf(Upper)),
                        Split(0x500,
                          Leaf(Lower),
                          Leaf(Upper))),
                      Split(0x503,
                        Split(0x502,
                          Leaf(Lower),
                          Leaf(Upper)),
                        Split(0x504,
                          Leaf(Lower),
                          Split(0x505,
                            Leaf(Upper),
                            Leaf(Lower))))),
                    Split(0x50B,
                      Split(0x508,
                        Split(0x507,
                          Leaf(Upper),
                          Leaf(Lower)),
                        Split(0x509,
                          Leaf(Upper),
                          Split(0x50A,
                            Leaf(Lower),
                            Leaf(Upper)))),
                      Split(0x50D,
                        Split(0x50C,
                          Leaf(Lower),
                          Leaf(Upper)),
                        Split(0x50E,
                          Leaf(Lower),
                          Split(0x50F,
                            Leaf(Upper),
                            Leaf(Lower))))))))))),
        Split(0x1E0E,
          Split(0xED0,
            Split(0x6FD,
              Split(0x560,
                Split(0x522,
                  Split(0x519,
                    Split(0x514,
                      Split(0x512,
                        Split(0x511,
                          Leaf(Upper),
                          Leaf(Lower)),
                        Split(0x513,
                          Leaf(Upper),
                          Leaf(Lower))),
                      Split(0x516,
                        Split(0x515,
                          Leaf(Upper),
                          Leaf(Lower)),
                        Split(0x517,
                          Leaf(Upper),
                          Split(0x518,
                            Leaf(Lower),
                            Leaf(Upper))))),
                    Split(0x51D,
                      Split(0x51B,
                        Split(0x51A,
                          Leaf(Lower),
                          Leaf(Upper)),
                        Split(0x51C,
                          Leaf(Lower),
                          Leaf(Upper))),
                      Split(0x51F,
                        Split(0x51E,
                          Leaf(Lower),
                          Leaf(Upper)),
                        Split(0x520,
                          Leaf(Lower),
                          Split(0x521,
                            Leaf(Upper),
                            Leaf(Lower)))))),
                  Split(0x52B,
                    Split(0x526,
                      Split(0x524,
                        Split(0x523,
                          Leaf(Upper),
                          Leaf(Lower)),
                        Split(0x525,
                          Leaf(Upper),
                          Leaf(Lower))),
                      Split(0x528,
                        Split(0x527,
                          Leaf(Upper),
                          Leaf(Lower)),
                        Split(0x529,
                          Leaf(Upper),
                          Split(0x52A,
                            Leaf(Lower),
                            Leaf(Upper))))),
                    Split(0x52F,
                      Split(0x52D,
                        Split(0x52C,
                          Leaf(Lower),
                          Leaf(Upper)),
                        Split(0x52E,
                          Leaf(Lower),
                          Leaf(Upper))),
                      Split(0x531,
                        Split(0x530,
                          Leaf(Lower),
                          Leaf(Other)),
                        Split(0x557,
                          Leaf(Upper),
                          Split(0x55A,
                            Leaf(Other),
                            Leaf(Punct))))))),
                Split(0x60C,
                  Split(0x5C3,
                    Split(0x590,
                      Split(0x58B,
                        Split(0x589,
                          Leaf(Lower),
                          Leaf(Punct)),
                        Split(0x58D,
                          Leaf(Other),
                          Leaf(Symbol))),
                      Split(0x5BF,
                        Split(0x5BE,
                          Leaf(Other),
                          Leaf(Punct)),
                        Split(0x5C0,
                          Leaf(Other),
                          Split(0x5C1,
                            Leaf(Punct),
                            Leaf(Other))))),
                    Split(0x5F3,
                      Split(0x5C6,
                        Split(0x5C4,
                          Leaf(Punct),
                          Leaf(Other)),
                        Split(0x5C7,
                          Leaf(Punct),
                          Leaf(Other))),
                      Split(0x606,
                        Split(0x5F5,
                          Leaf(Punct),
                          Leaf(Other)),
                        Split(0x609,
                          Leaf(Symbol),
                          Split(0x60B,
                            Leaf(Punct),
                            Leaf(Symbol)))))),
                  Split(0x66E,
                    Split(0x61C,
                      Split(0x610,
                        Split(0x60E,
                          Leaf(Punct),
                          Leaf(Symbol)),
                        Split(0x61B,
                          Leaf(Other),
                          Leaf(Punct))),
                      Split(0x620,
                        Split(0x61D,
                          Leaf(Other),
                          Leaf(Punct)),
                        Split(0x660,
                          Leaf(Other),
                          Split(0x66A,
                            Leaf(Number),
                            Leaf(Punct))))),
                    Split(0x6DF,
                      Split(0x6D5,
                        Split(0x6D4,
                          Leaf(Other),
                          Leaf(Punct)),
                        Split(0x6DE,
                          Leaf(Other),
                          Leaf(Symbol))),
                      Split(0x6EA,
                        Split(0x6E9,
                          Leaf(Other),
                          Leaf(Symbol)),
                        Split(0x6F0,
                          Leaf(Other),
                          Split(0x6FA,
                            Leaf(Number),
                            Leaf(Other)))))))),
              Split(0xAF2,
                Split(0x966,
                  Split(0x7FE,
                    Split(0x7C0,
                      Split(0x700,
                        Split(0x6FF,
                          Leaf(Symbol),
                          Leaf(Other)),
                        Split(0x70E,
                          Leaf(Punct),
                          Leaf(Other))),
                      Split(0x7F6,
                        Split(0x7CA,
                          Leaf(Number),
                          Leaf(Other)),
                        Split(0x7F7,
                          Leaf(Symbol),
                          Split(0x7FA,
                            Leaf(Punct),
                            Leaf(Other))))),
                    Split(0x85E,
                      Split(0x830,
                        Split(0x800,
                          Leaf(Symbol),
                          Leaf(Other)),
                        Split(0x83F,
                          Leaf(Punct),
                          Leaf(Other))),
                      Split(0x888,
                        Split(0x85F,
                          Leaf(Punct),
                          Leaf(Other)),
                        Split(0x889,
                          Leaf(Symbol),
                          Split(0x964,
                            Leaf(Other),
                            Leaf(Punct)))))),
                  Split(0x9FD,
                    Split(0x9F0,
                      Split(0x971,
                        Split(0x970,
                          Leaf(Number),
                          Leaf(Punct)),
                        Split(0x9E6,
                          Leaf(Other),
                          Leaf(Number))),
                      Split(0x9F4,
                        Split(0x9F2,
                          Leaf(Other),
                          Leaf(Symbol)),
                        Split(0x9FA,
                          Leaf(Number),
                          Split(0x9FC,
                            Leaf(Symbol),
                            Leaf(Other))))),
                    Split(0xA76,
                      Split(0xA66,
                        Split(0x9FE,
                          Leaf(Punct),
                          Leaf(Other)),
                        Split(0xA70,
                          Leaf(Number),
                          Leaf(Other))),
                      Split(0xAE6,
                        Split(0xA77,
                          Leaf(Punct),
                          Leaf(Other)),
                        Split(0xAF0,
                          Leaf(Number),
                          Split(0xAF1,
                            Leaf(Punct),
                            Leaf(Symbol))))))),
                Split(0xCF0,
                  Split(0xC66,
                    Split(0xB72,
                      Split(0xB70,
                        Split(0xB66,
                          Leaf(Other),
                          Leaf(Number)),
                        Split(0xB71,
                          Leaf(Symbol),
                          Leaf(Other))),
                      Split(0xBE6,
                        Split(0xB78,
                          Leaf(Number),
                          Leaf(Other)),
                        Split(0xBF3,
                          Leaf(Number),
                          Split(0xBFB,
                            Leaf(Symbol),
                            Leaf(Other))))),
                    Split(0xC7F,
                      Split(0xC77,
                        Split(0xC70,
                          Leaf(Number),
                          Leaf(Other)),
                        Split(0xC78,
                          Leaf(Punct),
                          Leaf(Number))),
                      Split(0xC84,
                        Split(0xC80,
                          Leaf(Symbol),
                          Leaf(Other)),
                        Split(0xC85,
                          Leaf(Punct),
                          Split(0xCE6,
                            Leaf(Other),
                            Leaf(Number)))))),
                  Split(0xDF0,
                    Split(0xD5F,
                      Split(0xD50,
                        Split(0xD4F,
                          Leaf(Other),
                          Leaf(Symbol)),
                        Split(0xD58,
                          Leaf(Other),
                          Leaf(Number))),
                      Split(0xD79,
                        Split(0xD66,
                          Leaf(Other),
                          Leaf(Number)),
                        Split(0xD7A,
                          Leaf(Symbol),
                          Split(0xDE6,
                            Leaf(Other),
                            Leaf(Number))))),
                    Split(0xE40,
                      Split(0xDF5,
                        Split(0xDF4,
                          Leaf(Other),
                          Leaf(Punct)),
                        Split(0xE3F,
                          Leaf(Other),
                          Leaf(Symbol))),
                      Split(0xE50,
                        Split(0xE4F,
                          Leaf(Other),
                          Leaf(Punct)),
                        Split(0xE5A,
                          Leaf(Number),
                          Split(0xE5C,
                            Leaf(Punct),
                            Leaf(Other))))))))),
            Split(0x17E0,
              Split(0x10C6,
                Split(0xF85,
                  Split(0xF20,
                    Split(0xF13,
                      Split(0xF01,
                        Split(0xEDA,
                          Leaf(Number),
                          Leaf(Other)),
                        Split(0xF04,
                          Leaf(Symbol),
                          Leaf(Punct))),
                      Split(0xF15,
                        Split(0xF14,
                          Leaf(Symbol),
                          Leaf(Punct)),
                        Split(0xF18,
                          Leaf(Symbol),
                          Split(0xF1A,
                            Leaf(Other),
                            Leaf(Symbol))))),
                    Split(0xF37,
                      Split(0xF35,
                        Split(0xF34,
                          Leaf(Number),
                          Leaf(Symbol)),
                        Split(0xF36,
                          Leaf(Other),
                          Leaf(Symbol))),
                      Split(0xF39,
                        Split(0xF38,
                          Leaf(Other),
                          Leaf(Symbol)),
                        Split(0xF3A,
                          Leaf(Other),
                          Split(0xF3E,
                            Leaf(Punct),
                            Leaf(Other)))))),
                  Split(0xFD9,
                    Split(0xFC7,
                      Split(0xFBE,
                        Split(0xF86,
                          Leaf(Punct),
                          Leaf(Other)),
                        Split(0xFC6,
                          Leaf(Symbol),
                          Leaf(Other))),
                      Split(0xFCE,
                        Split(0xFCD,
                          Leaf(Symbol),
                          Leaf(Other)),
                        Split(0xFD0,
                          Leaf(Symbol),
                          Split(0xFD5,
                            Leaf(Punct),
                            Leaf(Symbol))))),
                    Split(0x1050,
                      Split(0x1040,
                        Split(0xFDB,
                          Leaf(Punct),
                          Leaf(Other)),
                        Split(0x104A,
                          Leaf(Number),
                          Leaf(Punct))),
                      Split(0x109A,
                        Split(0x1090,
                          Leaf(Other),
                          Leaf(Number)),
                        Split(0x109E,
                          Leaf(Other),
                          Split(0x10A0,
                            Leaf(Symbol),
                            Leaf(Upper))))))),
                Split(0x13FE,
                  Split(0x1100,
                    Split(0x10CE,
                      Split(0x10C8,
                        Split(0x10C7,
                          Leaf(Other),
                          Leaf(Upper)),
                        Split(0x10CD,
                          Leaf(Other),
                          Leaf(Upper))),
                      Split(0x10FB,
                        Split(0x10D0,
                          Leaf(Other),
                          Leaf(Lower)),
                        Split(0x10FC,
                          Leaf(Punct),
                          Split(0x10FD,
                            Leaf(Other),
                            Leaf(Lower))))),
                    Split(0x1390,
                      Split(0x1369,
                        Split(0x1360,
                          Leaf(Other),
                          Leaf(Punct)),
                        Split(0x137D,
                          Leaf(Number),
                          Leaf(Other))),
                      Split(0x13A0,
                        Split(0x139A,
                          Leaf(Symbol),
                          Leaf(Other)),
                        Split(0x13F6,
                          Leaf(Upper),
                          Split(0x13F8,
                            Leaf(Other),
                            Leaf(Lower)))))),
                  Split(0x16EE,
                    Split(0x166E,
                      Split(0x1401,
                        Split(0x1400,
                          Leaf(Other),
                          Leaf(Punct)),
                        Split(0x166D,
                          Leaf(Other),
                          Leaf(Symbol))),
                      Split(0x169B,
                        Split(0x166F,
                          Leaf(Punct),
                          Leaf(Other)),
                        Split(0x169D,
                          Leaf(Punct),
                          Split(0x16EB,
                            Leaf(Other),
                            Leaf(Punct))))),
                    Split(0x17D4,
                      Split(0x1735,
                        Split(0x16F1,
                          Leaf(Number),
                          Leaf(Other)),
                        Split(0x1737,
                          Leaf(Punct),
                          Leaf(Other))),
                      Split(0x17D8,
                        Split(0x17D7,
                          Leaf(Punct),
                          Leaf(Other)),
                        Split(0x17DB,
                          Leaf(Punct),
                          Split(0x17DC,
                            Leaf(Symbol),
                            Leaf(Other)))))))),
              Split(0x1BFC,
                Split(0x1A20,
                  Split(0x1941,
                    Split(0x1800,
                      Split(0x17F0,
                        Split(0x17EA,
                          Leaf(Number),
                          Leaf(Other)),
                        Split(0x17FA,
                          Leaf(Number),
                          Leaf(Other))),
                      Split(0x1810,
                        Split(0x180B,
                          Leaf(Punct),
                          Leaf(Other)),
                        Split(0x181A,
                          Leaf(Number),
                          Split(0x1940,
                            Leaf(Other),
                            Leaf(Symbol))))),
                    Split(0x19D0,
                      Split(0x1946,
                        Split(0x1944,
                          Leaf(Other),
                          Leaf(Punct)),
                        Split(0x1950,
                          Leaf(Number),
                          Leaf(Other))),
                      Split(0x19DE,
                        Split(0x19DB,
                          Leaf(Number),
                          Leaf(Other)),
                        Split(0x1A00,
                          Leaf(Symbol),
                          Split(0x1A1E,
                            Leaf(Other),
                            Leaf(Punct)))))),
                  Split(0x1B50,
                    Split(0x1A9A,
                      Split(0x1A8A,
                        Split(0x1A80,
                          Leaf(Other),
                          Leaf(Number)),
                        Split(0x1A90,
                          Leaf(Other),
                          Leaf(Number))),
                      Split(0x1AA7,
                        Split(0x1AA0,
                          Leaf(Other),
                          Leaf(Punct)),
                        Split(0x1AA8,
                          Leaf(Other),
                          Split(0x1AAE,
                            Leaf(Punct),
                            Leaf(Other))))),
                    Split(0x1B74,
                      Split(0x1B61,
                        Split(0x1B5A,
                          Leaf(Number),
                          Leaf(Punct)),
                        Split(0x1B6B,
                          Leaf(Symbol),
                          Leaf(Other))),
                      Split(0x1B7F,
                        Split(0x1B7D,
                          Leaf(Symbol),
                          Leaf(Punct)),
                        Split(0x1BB0,
                          Leaf(Other),
                          Split(0x1BBA,
                            Leaf(Number),
                            Leaf(Other))))))),
                Split(0x1D2C,
                  Split(0x1C89,
                    Split(0x1C4A,
                      Split(0x1C3B,
                        Split(0x1C00,
                          Leaf(Punct),
                          Leaf(Other)),
                        Split(0x1C40,
                          Leaf(Punct),
                          Leaf(Number))),
                      Split(0x1C5A,
                        Split(0x1C50,
                          Leaf(Other),
                          Leaf(Number)),
                        Split(0x1C7E,
                          Leaf(Other),
                          Split(0x1C80,
                            Leaf(Punct),
                            Leaf(Lower))))),
                    Split(0x1CC0,
                      Split(0x1CBB,
                        Split(0x1C90,
                          Leaf(Other),
                          Leaf(Upper)),
                        Split(0x1CBD,
                          Leaf(Other),
                          Leaf(Upper))),
                      Split(0x1CD3,
                        Split(0x1CC8,
                          Leaf(Punct),
                          Leaf(Other)),
                        Split(0x1CD4,
                          Leaf(Punct),
                          Split(0x1D00,
                            Leaf(Other),
                            Leaf(Lower)))))),
                  Split(0x1E04,
                    Split(0x1D9B,
                      Split(0x1D78,
                        Split(0x1D6B,
                          Leaf(Other),
                          Leaf(Lower)),
                        Split(0x1D79,
                          Leaf(Other),
                          Leaf(Lower))),
                      Split(0x1E01,
                        Split(0x1E00,
                          Leaf(Other),
                          Leaf(Upper)),
                        Split(0x1E02,
                          Leaf(Lower),
                          Split(0x1E03,
                            Leaf(Upper),
                            Leaf(Lower))))),
                    Split(0x1E09,
                      Split(0x1E06,
                        Split(0x1E05,
                          Leaf(Upper),
                          Leaf(Lower)),
                        Split(0x1E07,
                          Leaf(Upper),
                          Split(0x1E08,
                            Leaf(Lower),
                            Leaf(Upper)))),
                      Split(0x1E0B,
                        Split(0x1E0A,
                          Leaf(Lower),
                          Leaf(Upper)),
                        Split(0x1E0C,
                          Leaf(Lower),
                          Split(0x1E0D,
                            Leaf(Upper),
                            Leaf(Lower)))))))))),
          Split(0x1EA7,
            Split(0x1E56,
              Split(0x1E32,
                Split(0x1E20,
                  Split(0x1E17,
                    Split(0x1E12,
                      Split(0x1E10,
                        Split(0x1E0F,
                          Leaf(Upper),
                          Leaf(Lower)),
                        Split(0x1E11,
                          Leaf(Upper),
                          Leaf(Lower))),
                      Split(0x1E14,
                        Split(0x1E13,
                          Leaf(Upper),
                          Leaf(Lower)),
                        Split(0x1E15,
                          Leaf(Upper),
                          Split(0x1E16,
                            Leaf(Lower),
                            Leaf(Upper))))),
                    Split(0x1E1B,
                      Split(0x1E19,
                        Split(0x1E18,
                          Leaf(Lower),
                          Leaf(Upper)),
                        Split(0x1E1A,
                          Leaf(Lower),
                          Leaf(Upper))),
                      Split(0x1E1D,
                        Split(0x1E1C,
                          Leaf(Lower),
                          Leaf(Upper)),
                        Split(0x1E1E,
                          Leaf(Lower),
                          Split(0x1E1F,
                            Leaf(Upper),
                            Leaf(Lower)))))),
                  Split(0x1E29,
                    Split(0x1E24,
                      Split(0x1E22,
                        Split(0x1E21,
                          Leaf(Upper),
                          Leaf(Lower)),
                        Split(0x1E23,
                          Leaf(Upper),
                          Leaf(Lower))),
                      Split(0x1E26,
                        Split(0x1E25,
                          Leaf(Upper),
                          Leaf(Lower)),
                        Split(0x1E27,
                          Leaf(Upper),
                          Split(0x1E28,
                            Leaf(Lower),
                            Leaf(Upper))))),
                    Split(0x1E2D,
                      Split(0x1E2B,
                        Split(0x1E2A,
                          Leaf(Lower),
                          Leaf(Upper)),
                        Split(0x1E2C,
                          Leaf(Lower),
                          Leaf(Upper))),
                      Split(0x1E2F,
                        Split(0x1E2E,
                          Leaf(Lower),
                          Leaf(Upper)),
                        Split(0x1E30,
                          Leaf(Lower),
                          Split(0x1E31,
                            Leaf(Upper),
                            Leaf(Lower))))))),
                Split(0x1E44,
                  Split(0x1E3B,
                    Split(0x1E36,
                      Split(0x1E34,
                        Split(0x1E33,
                          Leaf(Upper),
                          Leaf(Lower)),
                        Split(0x1E35,
                          Leaf(Upper),
                          Leaf(Lower))),
                      Split(0x1E38,
                        Split(0x1E37,
                          Leaf(Upper),
                          Leaf(Lower)),
                        Split(0x1E39,
                          Leaf(Upper),
                          Split(0x1E3A,
                            Leaf(Lower),
                            Leaf(Upper))))),
                    Split(0x1E3F,
                      Split(0x1E3D,
                        Split(0x1E3C,
                          Leaf(Lower),
                          Leaf(Upper)),
                        Split(0x1E3E,
                          Leaf(Lower),
                          Leaf(Upper))),
                      Split(0x1E41,
                        Split(0x1E40,
                          Leaf(Lower),
                          Leaf(Upper)),
                        Split(0x1E42,
                          Leaf(Lower),
                          Split(0x1E43,
                            Leaf(Upper),
                            Leaf(Lower)))))),
                  Split(0x1E4D,
                    Split(0x1E48,
                      Split(0x1E46,
                        Split(0x1E45,
                          Leaf(Upper),
                          Leaf(Lower)),
                        Split(0x1E47,
                          Leaf(Upper),
                          Leaf(Lower))),
                      Split(0x1E4A,
                        Split(0x1E49,
                          Leaf(Upper),
                          Leaf(Lower)),
                        Split(0x1E4B,
                          Leaf(Upper),
                          Split(0x1E4C,
                            Leaf(Lower),
                            Leaf(Upper))))),
                    Split(0x1E51,
                      Split(0x1E4F,
                        Split(0x1E4E,
                          Leaf(Lower),
                          Leaf(Upper)),
                        Split(0x1E50,
                          Leaf(Lower),
                          Leaf(Upper))),
                      Split(0x1E53,
                        Split(0x1E52,
                          Leaf(Lower),
                          Leaf(Upper)),
                        Split(0x1E54,
                          Leaf(Lower),
                          Split(0x1E55,
                            Leaf(Upper),
                            Leaf(Lower)))))))),
              Split(0x1E7A,
                Split(0x1E68,
                  Split(0x1E5F,
                    Split(0x1E5A,
                      Split(0x1E58,
                        Split(0x1E57,
                          Leaf(Upper),
                          Leaf(Lower)),
                        Split(0x1E59,
                          Leaf(Upper),
                          Leaf(Lower))),
                      Split(0x1E5C,
                        Split(0x1E5B,
                          Leaf(Upper),
                          Leaf(Lower)),
                        Split(0x1E5D,
                          Leaf(Upper),
                          Split(0x1E5E,
                            Leaf(Lower),
                            Leaf(Upper))))),
                    Split(0x1E63,
                      Split(0x1E61,
                        Split(0x1E60,
                          Leaf(Lower),
                          Leaf(Upper)),
                        Split(0x1E62,
                          Leaf(Lower),
                          Leaf(Upper))),
                      Split(0x1E65,
                        Split(0x1E64,
                          Leaf(Lower),
                          Leaf(Upper)),
                        Split(0x1E66,
                          Leaf(Lower),
                          Split(0x1E67,
                            Leaf(Upper),
                            Leaf(Lower)))))),
                  Split(0x1E71,
                    Split(0x1E6C,
                      Split(0x1E6A,
                        Split(0x1E69,
                          Leaf(Upper),
                          Leaf(Lower)),
                        Split(0x1E6B,
                          Leaf(Upper),
                          Leaf(Lower))),
                      Split(0x1E6E,
                        Split(0x1E6D,
                          Leaf(Upper),
                          Leaf(Lower)),
                        Split(0x1E6F,
                          Leaf(Upper),
                          Split(0x1E70,
                            Leaf(Lower),
                            Leaf(Upper))))),
                    Split(0x1E75,
                      Split(0x1E73,
                        Split(0x1E72,
                          Leaf(Lower),
                          Leaf(Upper)),
                        Split(0x1E74,
                          Leaf(Lower),
                          Leaf(Upper))),
                      Split(0x1E77,
                        Split(0x1E76,
                          Leaf(Lower),
                          Leaf(Upper)),
                        Split(0x1E78,
                          Leaf(Lower),
                          Split(0x1E79,
                            Leaf(Upper),
                            Leaf(Lower))))))),
                Split(0x1E8C,
                  Split(0x1E83,
                    Split(0x1E7E,
                      Split(0x1E7C,
                        Split(0x1E7B,
                          Leaf(Upper),
                          Leaf(Lower)),
                        Split(0x1E7D,
                          Leaf(Upper),
                          Leaf(Lower))),
                      Split(0x1E80,
                        Split(0x1E7F,
                          Leaf(Upper),
                          Leaf(Lower)),
                        Split(0x1E81,
                          Leaf(Upper),
                          Split(0x1E82,
                            Leaf(Lower),
                            Leaf(Upper))))),
                    Split(0x1E87,
                      Split(0x1E85,
                        Split(0x1E84,
                          Leaf(Lower),
                          Leaf(Upper)),
                        Split(0x1E86,
                          Leaf(Lower),
                          Leaf(Upper))),
                      Split(0x1E89,
                        Split(0x1E88,
                          Leaf(Lower),
                          Leaf(Upper)),
                        Split(0x1E8A,
                          Leaf(Lower),
                          Split(0x1E8B,
                            Leaf(Upper),
                            Leaf(Lower)))))),
                  Split(0x1E95,
                    Split(0x1E90,
                      Split(0x1E8E,
                        Split(0x1E8D,
                          Leaf(Upper),
                          Leaf(Lower)),
                        Split(0x1E8F,
                          Leaf(Upper),
                          Leaf(Lower))),
                      Split(0x1E92,
                        Split(0x1E91,
                          Leaf(Upper),
                          Leaf(Lower)),
                        Split(0x1E93,
                          Leaf(Upper),
                          Split(0x1E94,
                            Leaf(Lower),
                            Leaf(Upper))))),
                    Split(0x1EA2,
                      Split(0x1E9F,
                        Split(0x1E9E,
                          Leaf(Lower),
                          Leaf(Upper)),
                        Split(0x1EA0,
                          Leaf(Lower),
                          Split(0x1EA1,
                            Leaf(Upper),
                            Leaf(Lower)))),
                      Split(0x1EA4,
                        Split(0x1EA3,
                          Leaf(Upper),
                          Leaf(Lower)),
                        Split(0x1EA5,
                          Leaf(Upper),
                          Split(0x1EA6,
                            Leaf(Lower),
                            Leaf(Upper))))))))),
            Split(0x1EEF,
              Split(0x1ECB,
                Split(0x1EB9,
                  Split(0x1EB0,
                    Split(0x1EAB,
                      Split(0x1EA9,
                        Split(0x1EA8,
                          Leaf(Lower),
                          Leaf(Upper)),
                        Split(0x1EAA,
                          Leaf(Lower),
                          Leaf(Upper))),
                      Split(0x1EAD,
                        Split(0x1EAC,
                          Leaf(Lower),
                          Leaf(Upper)),
                        Split(0x1EAE,
                          Leaf(Lower),
                          Split(0x1EAF,
                            Leaf(Upper),
                            Leaf(Lower))))),
                    Split(0x1EB4,
                      Split(0x1EB2,
                        Split(0x1EB1,
                          Leaf(Upper),
                          Leaf(Lower)),
                        Split(0x1EB3,
                          Leaf(Upper),
                          Leaf(Lower))),
                      Split(0x1EB6,
                        Split(0x1EB5,
                          Leaf(Upper),
                          Leaf(Lower)),
                        Split(0x1EB7,
                          Leaf(Upper),
                          Split(0x1EB8,
                            Leaf(Lower),
                            Leaf(Upper)))))),
                  Split(0x1EC2,
                    Split(0x1EBD,
                      Split(0x1EBB,
                        Split(0x1EBA,
                          Leaf(Lower),
                          Leaf(Upper)),
                        Split(0x1EBC,
                          Leaf(Lower),
                          Leaf(Upper))),
                      Split(0x1EBF,
                        Split(0x1EBE,
                          Leaf(Lower),
                          Leaf(Upper)),
                        Split(0x1EC0,
                          Leaf(Lower),
                          Split(0x1EC1,
                            Leaf(Upper),
                            Leaf(Lower))))),
                    Split(0x1EC6,
                      Split(0x1EC4,
                        Split(0x1EC3,
                          Leaf(Upper),
                          Leaf(Lower)),
                        Split(0x1EC5,
                          Leaf(Upper),
                          Leaf(Lower))),
                      Split(0x1EC8,
                        Split(0x1EC7,
                          Leaf(Upper),
                          Leaf(Lower)),
                        Split(0x1EC9,
                          Leaf(Upper),
                          Split(0x1ECA,
                            Leaf(Lower),
                            Leaf(Upper))))))),
                Split(0x1EDD,
                  Split(0x1ED4,
                    Split(0x1ECF,
                      Split(0x1ECD,
                        Split(0x1ECC,
                          Leaf(Lower),
                          Leaf(Upper)),
                        Split(0x1ECE,
                          Leaf(Lower),
                          Leaf(Upper))),
                      Split(0x1ED1,
                        Split(0x1ED0,
                          Leaf(Lower),
                          Leaf(Upper)),
                        Split(0x1ED2,
                          Leaf(Lower),
                          Split(0x1ED3,
                            Leaf(Upper),
                            Leaf(Lower))))),
                    Split(0x1ED8,
                      Split(0x1ED6,
                        Split(0x1ED5,
                          Leaf(Upper),
                          Leaf(Lower)),
                        Split(0x1ED7,
                          Leaf(Upper),
                          Leaf(Lower))),
                      Split(0x1EDA,
                        Split(0x1ED9,
                          Leaf(Upper),
                          Leaf(Lower)),
                        Split(0x1EDB,
                          Leaf(Upper),
                          Split(0x1EDC,
                            Leaf(Lower),
                            Leaf(Upper)))))),
                  Split(0x1EE6,
                    Split(0x1EE1,
                      Split(0x1EDF,
                        Split(0x1EDE,
                          Leaf(Lower),
                          Leaf(Upper)),
                        Split(0x1EE0,
                          Leaf(Lower),
                          Leaf(Upper))),
                      Split(0x1EE3,
                        Split(0x1EE2,
                          Leaf(Lower),
                          Leaf(Upper)),
                        Split(0x1EE4,
                          Leaf(Lower),
                          Split(0x1EE5,
                            Leaf(Upper),
                            Leaf(Lower))))),
                    Split(0x1EEA,
                      Split(0x1EE8,
                        Split(0x1EE7,
                          Leaf(Upper),
                          Leaf(Lower)),
                        Split(0x1EE9,
                          Leaf(Upper),
                          Leaf(Lower))),
                      Split(0x1EEC,
                        Split(0x1EEB,
                          Leaf(Upper),
                          Leaf(Lower)),
                        Split(0x1EED,
                          Leaf(Upper),
                          Split(0x1EEE,
                            Leaf(Lower),
                            Leaf(Upper)))))))),
              Split(0x1F5D,
                Split(0x1F10,
                  Split(0x1EF8,
                    Split(0x1EF3,
                      Split(0x1EF1,
                        Split(0x1EF0,
                          Leaf(Lower),
                          Leaf(Upper)),
                        Split(0x1EF2,
                          Leaf(Lower),
                          Leaf(Upper))),
                      Split(0x1EF5,
                        Split(0x1EF4,
                          Leaf(Lower),
                          Leaf(Upper)),
                        Split(0x1EF6,
                          Leaf(Lower),
                          Split(0x1EF7,
                            Leaf(Upper),
                            Leaf(Lower))))),
                    Split(0x1EFC,
                      Split(0x1EFA,
                        Split(0x1EF9,
                          Leaf(Upper),
                          Leaf(Lower)),
                        Split(0x1EFB,
                          Leaf(Upper),
                          Leaf(Lower))),
                      Split(0x1EFE,
                        Split(0x1EFD,
                          Leaf(Upper),
                          Leaf(Lower)),
                        Split(0x1EFF,
                          Leaf(Upper),
                          Split(0x1F08,
                            Leaf(Lower),
                            Leaf(Upper)))))),
                  Split(0x1F46,
                    Split(0x1F20,
                      Split(0x1F18,
                        Split(0x1F16,
                          Leaf(Lower),
                          Leaf(Other)),
                        Split(0x1F1E,
                          Leaf(Upper),
                          Leaf(Other))),
                      Split(0x1F30,
                        Split(0x1F28,
                          Leaf(Lower),
                          Leaf(Upper)),
                        Split(0x1F38,
                          Leaf(Lower),
                          Split(0x1F40,
                            Leaf(Upper),
                            Leaf(Lower))))),
                    Split(0x1F58,
                      Split(0x1F4E,
                        Split(0x1F48,
                          Leaf(Other),
                          Leaf(Upper)),
                        Split(0x1F50,
                          Leaf(Other),
                          Leaf(Lower))),
                      Split(0x1F5A,
                        Split(0x1F59,
                          Leaf(Other),
                          Leaf(Upper)),
                        Split(0x1F5B,
                          Leaf(Other),
                          Split(0x1F5C,
                            Leaf(Upper),
                            Leaf(Other))))))),
                Split(0x1FBD,
                  Split(0x1F90,
                    Split(0x1F68,
                      Split(0x1F5F,
                        Split(0x1F5E,
                          Leaf(Upper),
                          Leaf(Other)),
                        Split(0x1F60,
                          Leaf(Upper),
                          Leaf(Lower))),
                      Split(0x1F7E,
                        Split(0x1F70,
                          Leaf(Upper),
                          Leaf(Lower)),
                        Split(0x1F80,
                          Leaf(Other),
                          Split(0x1F88,
                            Leaf(Lower),
                            Leaf(Other))))),
                    Split(0x1FB0,
                      Split(0x1FA0,
                        Split(0x1F98,
                          Leaf(Lower),
                          Leaf(Other)),
                        Split(0x1FA8,
                          Leaf(Lower),
                          Leaf(Other))),
                      Split(0x1FB6,
                        Split(0x1FB5,
                          Leaf(Lower),
                          Leaf(Other)),
                        Split(0x1FB8,
                          Leaf(Lower),
                          Split(0x1FBC,
                            Leaf(Upper),
                            Leaf(Other)))))),
                  Split(0x1FD0,
                    Split(0x1FC5,
                      Split(0x1FBF,
                        Split(0x1FBE,
                          Leaf(Symbol),
                          Leaf(Lower)),
                        Split(0x1FC2,
                          Leaf(Symbol),
                          Leaf(Lower))),
                      Split(0x1FC8,
                        Split(0x1FC6,
                          Leaf(Other),
                          Leaf(Lower)),
                        Split(0x1FCC,
                          Leaf(Upper),
                          Split(0x1FCD,
                            Leaf(Other),
                            Leaf(Symbol))))),
                    Split(0x1FDD,
                      Split(0x1FD6,
                        Split(0x1FD4,
                          Leaf(Lower),
                          Leaf(Other)),
                        Split(0x1FD8,
                          Leaf(Lower),
                          Split(0x1FDC,
                            Leaf(Upper),
                            Leaf(Other)))),
                      Split(0x1FE8,
                        Split(0x1FE0,
                          Leaf(Symbol),
                          Leaf(Lower)),
                        Split(0x1FED,
                          Leaf(Upper),
                          Split(0x1FF0,
                            Leaf(Symbol),
                            Leaf(Other)))))))))))),
      Split(0xA9DE,
        Split(0x3260,
          Split(0x2C9A,
            Split(0x230C,
              Split(0x2113,
                Split(0x207A,
                  Split(0x2030,
                    Split(0x1FFC,
                      Split(0x1FF6,
                        Split(0x1FF5,
                          Leaf(Lower),
                          Leaf(Other)),
                        Split(0x1FF8,
                          Leaf(Lower),
                          Leaf(Upper))),
                      Split(0x1FFF,
                        Split(0x1FFD,
                          Leaf(Other),
                          Leaf(Symbol)),
                        Split(0x2010,
                          Leaf(Other),
                          Split(0x2028,
                            Leaf(Punct),
                            Leaf(Other))))),
                    Split(0x2053,
                      Split(0x2045,
                        Split(0x2044,
                          Leaf(Punct),
                          Leaf(Symbol)),
                        Split(0x2052,
                          Leaf(Punct),
                          Leaf(Symbol))),
                      Split(0x2070,
                        Split(0x205F,
                          Leaf(Punct),
                          Leaf(Other)),
                        Split(0x2071,
                          Leaf(Number),
                          Split(0x2074,
                            Leaf(Other),
                            Leaf(Number)))))),
                  Split(0x2100,
                    Split(0x208A,
                      Split(0x207F,
                        Split(0x207D,
                          Leaf(Symbol),
                          Leaf(Punct)),
                        Split(0x2080,
                          Leaf(Other),
                          Leaf(Number))),
                      Split(0x208F,
                        Split(0x208D,
                          Leaf(Symbol),
                          Leaf(Punct)),
                        Split(0x20A0,
                          Leaf(Other),
                          Split(0x20C1,
                            Leaf(Symbol),
                            Leaf(Other))))),
                    Split(0x2108,
                      Split(0x2103,
                        Split(0x2102,
                          Leaf(Symbol),
                          Leaf(Upper)),
                        Split(0x2107,
                          Leaf(Symbol),
                          Leaf(Upper))),
                      Split(0x210B,
                        Split(0x210A,
                          Leaf(Symbol),
                          Leaf(Lower)),
                        Split(0x210E,
                          Leaf(Upper),
                          Split(0x2110,
                            Leaf(Lower),
                            Leaf(Upper))))))),
                Split(0x2139,
                  Split(0x2127,
                    Split(0x2119,
                      Split(0x2115,
                        Split(0x2114,
                          Leaf(Lower),
                          Leaf(Symbol)),
                        Split(0x2116,
                          Leaf(Upper),
                          Leaf(Symbol))),
                      Split(0x2124,
                        Split(0x211E,
                          Leaf(Upper),
                          Leaf(Symbol)),
                        Split(0x2125,
                          Leaf(Upper),
                          Split(0x2126,
                            Leaf(Symbol),
                            Leaf(Upper))))),
                    Split(0x212E,
                      Split(0x2129,
                        Split(0x2128,
                          Leaf(Symbol),
                          Leaf(Upper)),
                        Split(0x212A,
                          Leaf(Symbol),
                          Leaf(Upper))),
                      Split(0x2130,
                        Split(0x212F,
                          Leaf(Symbol),
                          Leaf(Lower)),
                        Split(0x2134,
                          Leaf(Upper),
                          Split(0x2135,
                            Leaf(Lower),
                            Leaf(Other)))))),
                  Split(0x214F,
                    Split(0x2140,
                      Split(0x213C,
                        Split(0x213A,
                          Leaf(Lower),
                          Leaf(Symbol)),
                        Split(0x213E,
                          Leaf(Lower),
                          Leaf(Upper))),
                      Split(0x2146,
                        Split(0x2145,
                          Leaf(Symbol),
                          Leaf(Upper)),
                        Split(0x214A,
                          Leaf(Lower),
                          Split(0x214E,
                            Leaf(Symbol),
                            Leaf(Lower))))),
                    Split(0x2185,
                      Split(0x2183,
                        Split(0x2150,
                          Leaf(Symbol),
                          Leaf(Number)),
                        Split(0x2184,
                          Leaf(Upper),
                          Leaf(Lower))),
                      Split(0x218C,
                        Split(0x218A,
                          Leaf(Number),
                          Leaf(Symbol)),
                        Split(0x2190,
                          Leaf(Other),
                          Split(0x2308,
                            Leaf(Symbol),
                            Leaf(Punct)))))))),
              Split(0x2C6A,
                Split(0x2999,
                  Split(0x2500,
                    Split(0x2440,
                      Split(0x232B,
                        Split(0x2329,
                          Leaf(Symbol),
                          Leaf(Punct)),
                        Split(0x2427,
                          Leaf(Symbol),
                          Leaf(Other))),
                      Split(0x2460,
                        Split(0x244B,
                          Leaf(Symbol),
                          Leaf(Other)),
                        Split(0x249C,
                          Leaf(Number),
                          Split(0x24EA,
                            Leaf(Symbol),
                            Leaf(Number))))),
                    Split(0x27C5,
                      Split(0x2776,
                        Split(0x2768,
                          Leaf(Symbol),
                          Leaf(Punct)),
                        Split(0x2794,
                          Leaf(Number),
                          Leaf(Symbol))),
                      Split(0x27E6,
                        Split(0x27C7,
                          Leaf(Punct),
                          Leaf(Symbol)),
                        Split(0x27F0,
                          Leaf(Punct),
                          Split(0x2983,
                            Leaf(Symbol),
                            Leaf(Punct)))))),
                  Split(0x2C00,
                    Split(0x29FE,
                      Split(0x29DC,
                        Split(0x29D8,
                          Leaf(Symbol),
                          Leaf(Punct)),
                        Split(0x29FC,
                          Leaf(Symbol),
                          Leaf(Punct))),
                      Split(0x2B76,
                        Split(0x2B74,
                          Leaf(Symbol),
                          Leaf(Other)),
                        Split(0x2B96,
                          Leaf(Symbol),
                          Split(0x2B97,
                            Leaf(Other),
                            Leaf(Symbol))))),
                    Split(0x2C62,
                      Split(0x2C60,
                        Split(0x2C30,
                          Leaf(Upper),
                          Leaf(Lower)),
                        Split(0x2C61,
                          Leaf(Upper),
                          Leaf(Lower))),
                      Split(0x2C67,
                        Split(0x2C65,
                          Leaf(Upper),
                          Leaf(Lower)),
                        Split(0x2C68,
                          Leaf(Upper),
                          Split(0x2C69,
                            Leaf(Lower),
                            Leaf(Upper))))))),
                Split(0x2C88,
                  Split(0x2C7C,
                    Split(0x2C71,
                      Split(0x2C6C,
                        Split(0x2C6B,
                          Leaf(Lower),
                          Leaf(Upper)),
                        Split(0x2C6D,
                          Leaf(Lower),
                          Leaf(Upper))),
                      Split(0x2C73,
                        Split(0x2C72,
                          Leaf(Lower),
                          Leaf(Upper)),
                        Split(0x2C75,
                          Leaf(Lower),
                          Split(0x2C76,
                            Leaf(Upper),
                            Leaf(Lower))))),
                    Split(0x2C83,
                      Split(0x2C81,
                        Split(0x2C7E,
                          Leaf(Other),
                          Leaf(Upper)),
                        Split(0x2C82,
                          Leaf(Lower),
                          Leaf(Upper))),
                      Split(0x2C85,
                        Split(0x2C84,
                          Leaf(Lower),
                          Leaf(Upper)),
                        Split(0x2C86,
                          Leaf(Lower),
                          Split(0x2C87,
                            Leaf(Upper),
                            Leaf(Lower)))))),
                  Split(0x2C91,
                    Split(0x2C8C,
                      Split(0x2C8A,
                        Split(0x2C89,
                          Leaf(Upper),
                          Leaf(Lower)),
                        Split(0x2C8B,
                          Leaf(Upper),
                          Leaf(Lower))),
                      Split(0x2C8E,
                        Split(0x2C8D,
                          Leaf(Upper),
                          Leaf(Lower)),
                        Split(0x2C8F,
                          Leaf(Upper),
                          Split(0x2C90,
                            Leaf(Lower),
                            Leaf(Upper))))),
                    Split(0x2C95,
                      Split(0x2C93,
                        Split(0x2C92,
                          Leaf(Lower),
                          Leaf(Upper)),
                        Split(0x2C94,
                          Leaf(Lower),
                          Leaf(Upper))),
                      Split(0x2C97,
                        Split(0x2C96,
                          Leaf(Lower),
                          Leaf(Upper)),
                        Split(0x2C98,
                          Leaf(Lower),
                          Split(0x2C99,
                            Leaf(Upper),
                            Leaf(Lower))))))))),
            Split(0x2CE2,
              Split(0x2CBE,
                Split(0x2CAC,
                  Split(0x2CA3,
                    Split(0x2C9E,
                      Split(0x2C9C,
                        Split(0x2C9B,
                          Leaf(Upper),
                          Leaf(Lower)),
                        Split(0x2C9D,
                          Leaf(Upper),
                          Leaf(Lower))),
                      Split(0x2CA0,
                        Split(0x2C9F,
                          Leaf(Upper),
                          Leaf(Lower)),
                        Split(0x2CA1,
                          Leaf(Upper),
                          Split(0x2CA2,
                            Leaf(Lower),
                            Leaf(Upper))))),
                    Split(0x2CA7,
                      Split(0x2CA5,
                        Split(0x2CA4,
                          Leaf(Lower),
                          Leaf(Upper)),
                        Split(0x2CA6,
                          Leaf(Lower),
                          Leaf(Upper))),
                      Split(0x2CA9,
                        Split(0x2CA8,
                          Leaf(Lower),
                          Leaf(Upper)),
                        Split(0x2CAA,
                          Leaf(Lower),
                          Split(0x2CAB,
                            Leaf(Upper),
                            Leaf(Lower)))))),
                  Split(0x2CB5,
                    Split(0x2CB0,
                      Split(0x2CAE,
                        Split(0x2CAD,
                          Leaf(Upper),
                          Leaf(Lower)),
                        Split(0x2CAF,
                          Leaf(Upper),
                          Leaf(Lower))),
                      Split(0x2CB2,
                        Split(0x2CB1,
                          Leaf(Upper),
                          Leaf(Lower)),
                        Split(0x2CB3,
                          Leaf(Upper),
                          Split(0x2CB4,
                            Leaf(Lower),
                            Leaf(Upper))))),
                    Split(0x2CB9,
                      Split(0x2CB7,
                        Split(0x2CB6,
                          Leaf(Lower),
                          Leaf(Upper)),
                        Split(0x2CB8,
                          Leaf(Lower),
                          Leaf(Upper))),
                      Split(0x2CBB,
                        Split(0x2CBA,
                          Leaf(Lower),
                          Leaf(Upper)),
                        Split(0x2CBC,
                          Leaf(Lower),
                          Split(0x2CBD,
                            Leaf(Upper),
                            Leaf(Lower))))))),
                Split(0x2CD0,
                  Split(0x2CC7,
                    Split(0x2CC2,
                      Split(0x2CC0,
                        Split(0x2CBF,
                          Leaf(Upper),
                          Leaf(Lower)),
                        Split(0x2CC1,
                          Leaf(Upper),
                          Leaf(Lower))),
                      Split(0x2CC4,
                        Split(0x2CC3,
                          Leaf(Upper),
                          Leaf(Lower)),
                        Split(0x2CC5,
                          Leaf(Upper),
                          Split(0x2CC6,
                            Leaf(Lower),
                            Leaf(Upper))))),
                    Split(0x2CCB,
                      Split(0x2CC9,
                        Split(0x2CC8,
                          Leaf(Lower),
                          Leaf(Upper)),
                        Split(0x2CCA,
                          Leaf(Lower),
                          Leaf(Upper))),
                      Split(0x2CCD,
                        Split(0x2CCC,
                          Leaf(Lower),
                          Leaf(Upper)),
                        Split(0x2CCE,
                          Leaf(Lower),
                          Split(0x2CCF,
                            Leaf(Upper),
                            Leaf(Lower)))))),
                  Split(0x2CD9,
                    Split(0x2CD4,
                      Split(0x2CD2,
                        Split(0x2CD1,
                          Leaf(Upper),
                          Leaf(Lower)),
                        Split(0x2CD3,
                          Leaf(Upper),
                          Leaf(Lower))),
                      Split(0x2CD6,
                        Split(0x2CD5,
                          Leaf(Upper),
                          Leaf(Lower)),
                        Split(0x2CD7,
                          Leaf(Upper),
                          Split(0x2CD8,
                            Leaf(Lower),
                            Leaf(Upper))))),
                    Split(0x2CDD,
                      Split(0x2CDB,
                        Split(0x2CDA,
                          Leaf(Lower),
                          Leaf(Upper)),
                        Split(0x2CDC,
                          Leaf(Lower),
                          Leaf(Upper))),
                      Split(0x2CDF,
                        Split(0x2CDE,
                          Leaf(Lower),
                          Leaf(Upper)),
                        Split(0x2CE0,
                          Leaf(Lower),
                          Split(0x2CE1,
                            Leaf(Upper),
                            Leaf(Lower)))))))),
              Split(0x3001,
                Split(0x2D2D,
                  Split(0x2CF3,
                    Split(0x2CEC,
                      Split(0x2CE5,
                        Split(0x2CE3,
                          Leaf(Upper),
                          Leaf(Lower)),
                        Split(0x2CEB,
                          Leaf(Symbol),
                          Leaf(Upper))),
                      Split(0x2CEE,
                        Split(0x2CED,
                          Leaf(Lower),
                          Leaf(Upper)),
                        Split(0x2CEF,
                          Leaf(Lower),
                          Split(0x2CF2,
                            Leaf(Other),
                            Leaf(Upper))))),
                    Split(0x2CFE,
                      Split(0x2CF9,
                        Split(0x2CF4,
                          Leaf(Lower),
                          Leaf(Other)),
                        Split(0x2CFD,
                          Leaf(Punct),
                          Leaf(Number))),
                      Split(0x2D26,
                        Split(0x2D00,
                          Leaf(Punct),
                          Leaf(Lower)),
                        Split(0x2D27,
                          Leaf(Other),
                          Split(0x2D28,
                            Leaf(Lower),
                            Leaf(Other)))))),
                  Split(0x2E5E,
                    Split(0x2E00,
                      Split(0x2D70,
                        Split(0x2D2E,
                          Leaf(Lower),
                          Leaf(Other)),
                        Split(0x2D71,
                          Leaf(Punct),
                          Leaf(Other))),
                      Split(0x2E30,
                        Split(0x2E2F,
                          Leaf(Punct),
                          Leaf(Other)),
                        Split(0x2E50,
                          Leaf(Punct),
                          Split(0x2E52,
                            Leaf(Symbol),
                            Leaf(Punct))))),
                    Split(0x2EF4,
                      Split(0x2E9A,
                        Split(0x2E80,
                          Leaf(Other),
                          Leaf(Symbol)),
                        Split(0x2E9B,
                          Leaf(Other),
                          Leaf(Symbol))),
                      Split(0x2FD6,
                        Split(0x2F00,
                          Leaf(Other),
                          Leaf(Symbol)),
                        Split(0x2FF0,
                          Leaf(Other),
                          Split(0x2FFC,
                            Leaf(Symbol),
                            Leaf(Other))))))),
                Split(0x309B,
                  Split(0x302A,
                    Split(0x3008,
                      Split(0x3005,
                        Split(0x3004,
                          Leaf(Punct),
                          Leaf(Symbol)),
                        Split(0x3007,
                          Leaf(Other),
                          Leaf(Number))),
                      Split(0x3014,
                        Split(0x3012,
                          Leaf(Punct),
                          Leaf(Symbol)),
                        Split(0x3020,
                          Leaf(Punct),
                          Split(0x3021,
                            Leaf(Symbol),
                            Leaf(Number))))),
                    Split(0x3038,
                      Split(0x3031,
                        Split(0x3030,
                          Leaf(Other),
                          Leaf(Punct)),
                        Split(0x3036,
                          Leaf(Other),
                          Leaf(Symbol))),
                      Split(0x303D,
                        Split(0x303B,
                          Leaf(Number),
                          Leaf(Other)),
                        Split(0x303E,
                          Leaf(Punct),
                          Split(0x3040,
                            Leaf(Symbol),
                            Leaf(Other)))))),
                  Split(0x31A0,
                    Split(0x30FB,
                      Split(0x30A0,
                        Split(0x309D,
                          Leaf(Symbol),
                          Leaf(Other)),
                        Split(0x30A1,
                          Leaf(Punct),
                          Leaf(Other))),
                      Split(0x3190,
                        Split(0x30FC,
                          Leaf(Punct),
                          Leaf(Other)),
                        Split(0x3192,
                          Leaf(Symbol),
                          Split(0x3196,
                            Leaf(Number),
                            Leaf(Symbol))))),
                    Split(0x3220,
                      Split(0x31E4,
                        Split(0x31C0,
                          Leaf(Other),
                          Leaf(Symbol)),
                        Split(0x3200,
                          Leaf(Other),
                          Split(0x321F,
                            Leaf(Symbol),
                            Leaf(Other)))),
                      Split(0x3248,
                        Split(0x322A,
                          Leaf(Number),
                          Leaf(Symbol)),
                        Split(0x3250,
                          Leaf(Number),
                          Split(0x3251,
                            Leaf(Symbol),
                            Leaf(Number)))))))))),
          Split(0xA74D,
            Split(0xA685,
              Split(0xA654,
                Split(0xA642,
                  Split(0xA4C7,
                    Split(0x32C0,
                      Split(0x328A,
                        Split(0x3280,
                          Leaf(Symbol),
                          Leaf(Number)),
                        Split(0x32B1,
                          Leaf(Symbol),
                          Leaf(Number))),
                      Split(0x4DC0,
                        Split(0x3400,
                          Leaf(Symbol),
                          Leaf(Other)),
                        Split(0x4E00,
                          Leaf(Symbol),
                          Split(0xA490,
                            Leaf(Other),
                            Leaf(Symbol))))),
                    Split(0xA610,
                      Split(0xA500,
                        Split(0xA4FE,
                          Leaf(Other),
                          Leaf(Punct)),
                        Split(0xA60D,
                          Leaf(Other),
                          Leaf(Punct))),
                      Split(0xA62A,
                        Split(0xA620,
                          Leaf(Other),
                          Leaf(Number)),
                        Split(0xA640,
                          Leaf(Other),
                          Split(0xA641,
                            Leaf(Upper),
                            Leaf(Lower)))))),
                  Split(0xA64B,
                    Split(0xA646,
                      Split(0xA644,
                        Split(0xA643,
                          Leaf(Upper),
                          Leaf(Lower)),
                        Split(0xA645,
                          Leaf(Upper),
                          Leaf(Lower))),
                      Split(0xA648,
                        Split(0xA647,
                          Leaf(Upper),
                          Leaf(Lower)),
                        Split(0xA649,
                          Leaf(Upper),
                          Split(0xA64A,
                            Leaf(Lower),
                            Leaf(Upper))))),
                    Split(0xA64F,
                      Split(0xA64D,
                        Split(0xA64C,
                          Leaf(Lower),
                          Leaf(Upper)),
                        Split(0xA64E,
                          Leaf(Lower),
                          Leaf(Upper))),
                      Split(0xA651,
                        Split(0xA650,
                          Leaf(Lower),
                          Leaf(Upper)),
                        Split(0xA652,
                          Leaf(Lower),
                          Split(0xA653,
                            Leaf(Upper),
                            Leaf(Lower))))))),
                Split(0xA666,
                  Split(0xA65D,
                    Split(0xA658,
                      Split(0xA656,
                        Split(0xA655,
                          Leaf(Upper),
                          Leaf(Lower)),
                        Split(0xA657,
                          Leaf(Upper),
                          Leaf(Lower))),
                      Split(0xA65A,
                        Split(0xA659,
                          Leaf(Upper),
                          Leaf(Lower)),
                        Split(0xA65B,
                          Leaf(Upper),
                          Split(0xA65C,
                            Leaf(Lower),
                            Leaf(Upper))))),
                    Split(0xA661,
                      Split(0xA65F,
                        Split(0xA65E,
                          Leaf(Lower),
                          Leaf(Upper)),
                        Split(0xA660,
                          Leaf(Lower),
                          Leaf(Upper))),
                      Split(0xA663,
                        Split(0xA662,
                          Leaf(Lower),
                          Leaf(Upper)),
                        Split(0xA664,
                          Leaf(Lower),
                          Split(0xA665,
                            Leaf(Upper),
                            Leaf(Lower)))))),
                  Split(0xA673,
                    Split(0xA66A,
                      Split(0xA668,
                        Split(0xA667,
                          Leaf(Upper),
                          Leaf(Lower)),
                        Split(0xA669,
                          Leaf(Upper),
                          Leaf(Lower))),
                      Split(0xA66C,
                        Split(0xA66B,
                          Leaf(Upper),
                          Leaf(Lower)),
                        Split(0xA66D,
                          Leaf(Upper),
                          Split(0xA66E,
                            Leaf(Lower),
                            Leaf(Other))))),
                    Split(0xA680,
                      Split(0xA67E,
                        Split(0xA674,
                          Leaf(Punct),
                          Leaf(Other)),
                        Split(0xA67F,
                          Leaf(Punct),
                          Leaf(Other))),
                      Split(0xA682,
                        Split(0xA681,
                          Leaf(Upper),
                          Leaf(Lower)),
                        Split(0xA683,
                          Leaf(Upper),
                          Split(0xA684,
                            Leaf(Lower),
                            Leaf(Upper)))))))),
              Split(0xA727,
                Split(0xA697,
                  Split(0xA68E,
                    Split(0xA689,
                      Split(0xA687,
                        Split(0xA686,
                          Leaf(Lower),
                          Leaf(Upper)),
                        Split(0xA688,
                          Leaf(Lower),
                          Leaf(Upper))),
                      Split(0xA68B,
                        Split(0xA68A,
                          Leaf(Lower),
                          Leaf(Upper)),
                        Split(0xA68C,
                          Leaf(Lower),
                          Split(0xA68D,
                            Leaf(Upper),
                            Leaf(Lower))))),
                    Split(0xA692,
                      Split(0xA690,
                        Split(0xA68F,
                          Leaf(Upper),
                          Leaf(Lower)),
                        Split(0xA691,
                          Leaf(Upper),
                          Leaf(Lower))),
                      Split(0xA694,
                        Split(0xA693,
                          Leaf(Upper),
                          Leaf(Lower)),
                        Split(0xA695,
                          Leaf(Upper),
                          Split(0xA696,
                            Leaf(Lower),
                            Leaf(Upper)))))),
                  Split(0xA6F8,
                    Split(0xA69B,
                      Split(0xA699,
                        Split(0xA698,
                          Leaf(Lower),
                          Leaf(Upper)),
                        Split(0xA69A,
                          Leaf(Lower),
                          Leaf(Upper))),
                      Split(0xA6E6,
                        Split(0xA69C,
                          Leaf(Lower),
                          Leaf(Other)),
                        Split(0xA6F0,
                          Leaf(Number),
                          Split(0xA6F2,
                            Leaf(Other),
                            Leaf(Punct))))),
                    Split(0xA722,
                      Split(0xA717,
                        Split(0xA700,
                          Leaf(Other),
                          Leaf(Symbol)),
                        Split(0xA720,
                          Leaf(Other),
                          Leaf(Symbol))),
                      Split(0xA724,
                        Split(0xA723,
                          Leaf(Upper),
                          Leaf(Lower)),
                        Split(0xA725,
                          Leaf(Upper),
                          Split(0xA726,
                            Leaf(Lower),
                            Leaf(Upper))))))),
                Split(0xA73B,
                  Split(0xA732,
                    Split(0xA72B,
                      Split(0xA729,
                        Split(0xA728,
                          Leaf(Lower),
                          Leaf(Upper)),
                        Split(0xA72A,
                          Leaf(Lower),
                          Leaf(Upper))),
                      Split(0xA72D,
                        Split(0xA72C,
                          Leaf(Lower),
                          Leaf(Upper)),
                        Split(0xA72E,
                          Leaf(Lower),
                          Split(0xA72F,
                            Leaf(Upper),
                            Leaf(Lower))))),
                    Split(0xA736,
                      Split(0xA734,
                        Split(0xA733,
                          Leaf(Upper),
                          Leaf(Lower)),
                        Split(0xA735,
                          Leaf(Upper),
                          Leaf(Lower))),
                      Split(0xA738,
                        Split(0xA737,
                          Leaf(Upper),
                          Leaf(Lower)),
                        Split(0xA739,
                          Leaf(Upper),
                          Split(0xA73A,
                            Leaf(Lower),
                            Leaf(Upper)))))),
                  Split(0xA744,
                    Split(0xA73F,
                      Split(0xA73D,
                        Split(0xA73C,
                          Leaf(Lower),
                          Leaf(Upper)),
                        Split(0xA73E,
                          Leaf(Lower),
                          Leaf(Upper))),
                      Split(0xA741,
                        Split(0xA740,
                          Leaf(Lower),
                          Leaf(Upper)),
                        Split(0xA742,
                          Leaf(Lower),
                          Split(0xA743,
                            Leaf(Upper),
                            Leaf(Lower))))),
                    Split(0xA748,
                      Split(0xA746,
                        Split(0xA745,
                          Leaf(Upper),
                          Leaf(Lower)),
                        Split(0xA747,
                          Leaf(Upper),
                          Leaf(Lower))),
                      Split(0xA74A,
                        Split(0xA749,
                          Leaf(Upper),
                          Leaf(Lower)),
                        Split(0xA74B,
                          Leaf(Upper),
                          Split(0xA74C,
                            Leaf(Lower),
                            Leaf(Upper))))))))),
            Split(0xA7A0,
              Split(0xA771,
                Split(0xA75F,
                  Split(0xA756,
                    Split(0xA751,
                      Split(0xA74F,
                        Split(0xA74E,
                          Leaf(Lower),
                          Leaf(Upper)),
                        Split(0xA750,
                          Leaf(Lower),
                          Leaf(Upper))),
                      Split(0xA753,
                        Split(0xA752,
                          Leaf(Lower),
                          Leaf(Upper)),
                        Split(0xA754,
                          Leaf(Lower),
                          Split(0xA755,
                            Leaf(Upper),
                            Leaf(Lower))))),
                    Split(0xA75A,
                      Split(0xA758,
                        Split(0xA757,
                          Leaf(Upper),
                          Leaf(Lower)),
                        Split(0xA759,
                          Leaf(Upper),
                          Leaf(Lower))),
                      Split(0xA75C,
                        Split(0xA75B,
                          Leaf(Upper),
                          Leaf(Lower)),
                        Split(0xA75D,
                          Leaf(Upper),
                          Split(0xA75E,
                            Leaf(Lower),
                            Leaf(Upper)))))),
                  Split(0xA768,
                    Split(0xA763,
                      Split(0xA761,
                        Split(0xA760,
                          Leaf(Lower),
                          Leaf(Upper)),
                        Split(0xA762,
                          Leaf(Lower),
                          Leaf(Upper))),
                      Split(0xA765,
                        Split(0xA764,
                          Leaf(Lower),
                          Leaf(Upper)),
                        Split(0xA766,
                          Leaf(Lower),
                          Split(0xA767,
                            Leaf(Upper),
                            Leaf(Lower))))),
                    Split(0xA76C,
                      Split(0xA76A,
                        Split(0xA769,
                          Leaf(Upper),
                          Leaf(Lower)),
                        Split(0xA76B,
                          Leaf(Upper),
                          Leaf(Lower))),
                      Split(0xA76E,
                        Split(0xA76D,
                          Leaf(Upper),
                          Leaf(Lower)),
                        Split(0xA76F,
                          Leaf(Upper),
                          Split(0xA770,
                            Leaf(Lower),
                            Leaf(Other))))))),
                Split(0xA78C,
                  Split(0xA782,
                    Split(0xA77C,
                      Split(0xA77A,
                        Split(0xA779,
                          Leaf(Lower),
                          Leaf(Upper)),
                        Split(0xA77B,
                          Leaf(Lower),
                          Leaf(Upper))),
                      Split(0xA77F,
                        Split(0xA77D,
                          Leaf(Lower),
                          Leaf(Upper)),
                        Split(0xA780,
                          Leaf(Lower),
                          Split(0xA781,
                            Leaf(Upper),
                            Leaf(Lower))))),
                    Split(0xA786,
                      Split(0xA784,
                        Split(0xA783,
                          Leaf(Upper),
                          Leaf(Lower)),
                        Split(0xA785,
                          Leaf(Upper),
                          Leaf(Lower))),
                      Split(0xA788,
                        Split(0xA787,
                          Leaf(Upper),
                          Leaf(Lower)),
                        Split(0xA789,
                          Leaf(Other),
                          Split(0xA78B,
                            Leaf(Symbol),
                            Leaf(Upper)))))),
                  Split(0xA797,
                    Split(0xA790,
                      Split(0xA78E,
                        Split(0xA78D,
                          Leaf(Lower),
                          Leaf(Upper)),
                        Split(0xA78F,
                          Leaf(Lower),
                          Leaf(Other))),
                      Split(0xA792,
                        Split(0xA791,
                          Leaf(Upper),
                          Leaf(Lower)),
                        Split(0xA793,
                          Leaf(Upper),
                          Split(0xA796,
                            Leaf(Lower),
                            Leaf(Upper))))),
                    Split(0xA79B,
                      Split(0xA799,
                        Split(0xA798,
                          Leaf(Lower),
                          Leaf(Upper)),
                        Split(0xA79A,
                          Leaf(Lower),
                          Leaf(Upper))),
                      Split(0xA79D,
                        Split(0xA79C,
                          Leaf(Lower),
                          Leaf(Upper)),
                        Split(0xA79E,
                          Leaf(Lower),
                          Split(0xA79F,
                            Leaf(Upper),
                            Leaf(Lower)))))))),
              Split(0xA7D3,
                Split(0xA7BA,
                  Split(0xA7A9,
                    Split(0xA7A4,
                      Split(0xA7A2,
                        Split(0xA7A1,
                          Leaf(Upper),
                          Leaf(Lower)),
                        Split(0xA7A3,
                          Leaf(Upper),
                          Leaf(Lower))),
                      Split(0xA7A6,
                        Split(0xA7A5,
                          Leaf(Upper),
                          Leaf(Lower)),
                        Split(0xA7A7,
                          Leaf(Upper),
                          Split(0xA7A8,
                            Leaf(Lower),
                            Leaf(Upper))))),
                    Split(0xA7B5,
                      Split(0xA7AF,
                        Split(0xA7AA,
                          Leaf(Lower),
                          Leaf(Upper)),
                        Split(0xA7B0,
                          Leaf(Lower),
                          Leaf(Upper))),
                      Split(0xA7B7,
                        Split(0xA7B6,
                          Leaf(Lower),
                          Leaf(Upper)),
                        Split(0xA7B8,
                          Leaf(Lower),
                          Split(0xA7B9,
                            Leaf(Upper),
                            Leaf(Lower)))))),
                  Split(0xA7C3,
                    Split(0xA7BE,
                      Split(0xA7BC,
                        Split(0xA7BB,
                          Leaf(Upper),
                          Leaf(Lower)),
                        Split(0xA7BD,
                          Leaf(Upper),
                          Leaf(Lower))),
                      Split(0xA7C0,
                        Split(0xA7BF,
                          Leaf(Upper),
                          Leaf(Lower)),
                        Split(0xA7C1,
                          Leaf(Upper),
                          Split(0xA7C2,
                            Leaf(Lower),
                            Leaf(Upper))))),
                    Split(0xA7CA,
                      Split(0xA7C8,
                        Split(0xA7C4,
                          Leaf(Lower),
                          Leaf(Upper)),
                        Split(0xA7C9,
                          Leaf(Lower),
                          Leaf(Upper))),
                      Split(0xA7D0,
                        Split(0xA7CB,
                          Leaf(Lower),
                          Leaf(Other)),
                        Split(0xA7D1,
                          Leaf(Upper),
                          Split(0xA7D2,
                            Leaf(Lower),
                            Leaf(Other))))))),
                Split(0xA874,
                  Split(0xA7F6,
                    Split(0xA7D7,
                      Split(0xA7D5,
                        Split(0xA7D4,
                          Leaf(Lower),
                          Leaf(Other)),
                        Split(0xA7D6,
                          Leaf(Lower),
                          Leaf(Upper))),
                      Split(0xA7D9,
                        Split(0xA7D8,
                          Leaf(Lower),
                          Leaf(Upper)),
                        Split(0xA7DA,
                          Leaf(Lower),
                          Split(0xA7F5,
                            Leaf(Other),
                            Leaf(Upper))))),
                    Split(0xA828,
                      Split(0xA7FA,
                        Split(0xA7F7,
                          Leaf(Lower),
                          Leaf(Other)),
                        Split(0xA7FB,
                          Leaf(Lower),
                          Leaf(Other))),
                      Split(0xA830,
                        Split(0xA82C,
                          Leaf(Symbol),
                          Leaf(Other)),
                        Split(0xA836,
                          Leaf(Number),
                          Split(0xA83A,
                            Leaf(Symbol),
                            Leaf(Other)))))),
                  Split(0xA900,
                    Split(0xA8DA,
                      Split(0xA8CE,
                        Split(0xA878,
                          Leaf(Punct),
                          Leaf(Other)),
                        Split(0xA8D0,
                          Leaf(Punct),
                          Leaf(Number))),
                      Split(0xA8FB,
                        Split(0xA8F8,
                          Leaf(Other),
                          Leaf(Punct)),
                        Split(0xA8FC,
                          Leaf(Other),
                          Split(0xA8FD,
                            Leaf(Punct),
                            Leaf(Other))))),
                    Split(0xA960,
                      Split(0xA92E,
                        Split(0xA90A,
                          Leaf(Number),
                          Leaf(Other)),
                        Split(0xA930,
                          Leaf(Punct),
                          Split(0xA95F,
                            Leaf(Other),
                            Leaf(Punct)))),
                      Split(0xA9CE,
                        Split(0xA9C1,
                          Leaf(Other),
                          Leaf(Punct)),
                        Split(0xA9D0,
                          Leaf(Other),
                          Split(0xA9DA,
                            Leaf(Number),
                            Leaf(Other))))))))))),
        Split(0x11D50,
          Split(0x108B0,
            Split(0xFF5D,
              Split(0xFD40,
                Split(0xAB69,
                  Split(0xAA7A,
                    Split(0xAA50,
                      Split(0xA9F0,
                        Split(0xA9E0,
                          Leaf(Punct),
                          Leaf(Other)),
                        Split(0xA9FA,
                          Leaf(Number),
                          Leaf(Other))),
                      Split(0xAA5C,
                        Split(0xAA5A,
                          Leaf(Number),
                          Leaf(Other)),
                        Split(0xAA60,
                          Leaf(Punct),
                          Split(0xAA77,
                            Leaf(Other),
                            Leaf(Symbol))))),
                    Split(0xAAF2,
                      Split(0xAAE0,
                        Split(0xAADE,
                          Leaf(Other),
                          Leaf(Punct)),
                        Split(0xAAF0,
                          Leaf(Other),
                          Leaf(Punct))),
                      Split(0xAB5B,
                        Split(0xAB30,
                          Leaf(Other),
                          Leaf(Lower)),
                        Split(0xAB5C,
                          Leaf(Symbol),
                          Split(0xAB60,
                            Leaf(Other),
                            Leaf(Lower)))))),
                  Split(0xFB00,
                    Split(0xABC0,
                      Split(0xAB6C,
                        Split(0xAB6A,
                          Leaf(Other),
                          Leaf(Symbol)),
                        Split(0xAB70,
                          Leaf(Other),
                          Leaf(Lower))),
                      Split(0xABEC,
                        Split(0xABEB,
                          Leaf(Other),
                          Leaf(Punct)),
                        Split(0xABF0,
                          Leaf(Other),
                          Split(0xABFA,
                            Leaf(Number),
                            Leaf(Other))))),
                    Split(0xFB29,
                      Split(0xFB13,
                        Split(0xFB07,
                          Leaf(Lower),
                          Leaf(Other)),
                        Split(0xFB18,
                          Leaf(Lower),
                          Leaf(Other))),
                      Split(0xFBB2,
                        Split(0xFB2A,
                          Leaf(Symbol),
                          Leaf(Other)),
                        Split(0xFBC3,
                          Leaf(Symbol),
                          Split(0xFD3E,
                            Leaf(Other),
                            Leaf(Punct))))))),
                Split(0xFE6C,
                  Split(0xFE53,
                    Split(0xFDFC,
                      Split(0xFDCF,
                        Split(0xFD50,
                          Leaf(Symbol),
                          Leaf(Other)),
                        Split(0xFDD0,
                          Leaf(Symbol),
                          Leaf(Other))),
                      Split(0xFE10,
                        Split(0xFE00,
                          Leaf(Symbol),
                          Leaf(Other)),
                        Split(0xFE1A,
                          Leaf(Punct),
                          Split(0xFE30,
                            Leaf(Other),
                            Leaf(Punct))))),
                    Split(0xFE64,
                      Split(0xFE62,
                        Split(0xFE54,
                          Leaf(Other),
                          Leaf(Punct)),
                        Split(0xFE63,
                          Leaf(Symbol),
                          Leaf(Punct))),
                      Split(0xFE68,
                        Split(0xFE67,
                          Leaf(Symbol),
                          Leaf(Other)),
                        Split(0xFE69,
                          Leaf(Punct),
                          Split(0xFE6A,
                            Leaf(Symbol),
                            Leaf(Punct)))))),
                  Split(0xFF1F,
                    Split(0xFF0B,
                      Split(0xFF04,
                        Split(0xFF01,
                          Leaf(Other),
                          Leaf(Punct)),
                        Split(0xFF05,
                          Leaf(Symbol),
                          Leaf(Punct))),
                      Split(0xFF10,
                        Split(0xFF0C,
                          Leaf(Symbol),
                          Leaf(Punct)),
                        Split(0xFF1A,
                          Leaf(Number),
                          Split(0xFF1C,
                            Leaf(Punct),
                            Leaf(Symbol))))),
                    Split(0xFF3F,
                      Split(0xFF3B,
                        Split(0xFF21,
                          Leaf(Punct),
                          Leaf(Upper)),
                        Split(0xFF3E,
                          Leaf(Punct),
                          Leaf(Symbol))),
                      Split(0xFF41,
                        Split(0xFF40,
                          Leaf(Punct),
                          Leaf(Symbol)),
                        Split(0xFF5B,
                          Leaf(Lower),
                          Split(0xFF5C,
                            Leaf(Punct),
                            Leaf(Symbol)))))))),
              Split(0x103D0,
                Split(0x1018C,
                  Split(0xFFFE,
                    Split(0xFFE0,
                      Split(0xFF5F,
                        Split(0xFF5E,
                          Leaf(Punct),
                          Leaf(Symbol)),
                        Split(0xFF66,
                          Leaf(Punct),
                          Leaf(Other))),
                      Split(0xFFE8,
                        Split(0xFFE7,
                          Leaf(Symbol),
                          Leaf(Other)),
                        Split(0xFFEF,
                          Leaf(Symbol),
                          Split(0xFFFC,
                            Leaf(Other),
                            Leaf(Symbol))))),
                    Split(0x10134,
                      Split(0x10103,
                        Split(0x10100,
                          Leaf(Other),
                          Leaf(Punct)),
                        Split(0x10107,
                          Leaf(Other),
                          Leaf(Number))),
                      Split(0x10140,
                        Split(0x10137,
                          Leaf(Other),
                          Leaf(Symbol)),
                        Split(0x10179,
                          Leaf(Number),
                          Split(0x1018A,
                            Leaf(Symbol),
                            Leaf(Number)))))),
                  Split(0x102FC,
                    Split(0x101A0,
                      Split(0x10190,
                        Split(0x1018F,
                          Leaf(Symbol),
                          Leaf(Other)),
                        Split(0x1019D,
                          Leaf(Symbol),
                          Leaf(Other))),
                      Split(0x101D0,
                        Split(0x101A1,
                          Leaf(Symbol),
                          Leaf(Other)),
                        Split(0x101FD,
                          Leaf(Symbol),
                          Split(0x102E1,
                            Leaf(Other),
                            Leaf(Number))))),
                    Split(0x10342,
                      Split(0x10324,
                        Split(0x10320,
                          Leaf(Other),
                          Leaf(Number)),
                        Split(0x10341,
                          Leaf(Other),
                          Leaf(Number))),
                      Split(0x1034B,
                        Split(0x1034A,
                          Leaf(Other),
                          Leaf(Number)),
                        Split(0x1039F,
                          Leaf(Other),
                          Split(0x103A0,
                            Leaf(Punct),
                            Leaf(Other))))))),
                Split(0x10593,
                  Split(0x104D4,
                    Split(0x10428,
                      Split(0x103D6,
                        Split(0x103D1,
                          Leaf(Punct),
                          Leaf(Number)),
                        Split(0x10400,
                          Leaf(Other),
                          Leaf(Upper))),
                      Split(0x104A0,
                        Split(0x10450,
                          Leaf(Lower),
                          Leaf(Other)),
                        Split(0x104AA,
                          Leaf(Number),
                          Split(0x104B0,
                            Leaf(Other),
                            Leaf(Upper))))),
                    Split(0x10570,
                      Split(0x104FC,
                        Split(0x104D8,
                          Leaf(Other),
                          Leaf(Lower)),
                        Split(0x1056F,
                          Leaf(Other),
                          Leaf(Punct))),
                      Split(0x1057C,
                        Split(0x1057B,
                          Leaf(Upper),
                          Leaf(Other)),
                        Split(0x1058B,
                          Leaf(Upper),
                          Split(0x1058C,
                            Leaf(Other),
                            Leaf(Upper)))))),
                  Split(0x105BB,
                    Split(0x105A2,
                      Split(0x10596,
                        Split(0x10594,
                          Leaf(Other),
                          Leaf(Upper)),
                        Split(0x10597,
                          Leaf(Other),
                          Leaf(Lower))),
                      Split(0x105B2,
                        Split(0x105A3,
                          Leaf(Other),
                          Leaf(Lower)),
                        Split(0x105B3,
                          Leaf(Other),
                          Split(0x105BA,
                            Leaf(Lower),
                            Leaf(Other))))),
                    Split(0x10860,
                      Split(0x10857,
                        Split(0x105BD,
                          Leaf(Lower),
                          Leaf(Other)),
                        Split(0x10858,
                          Leaf(Punct),
                          Leaf(Number))),
                      Split(0x10879,
                        Split(0x10877,
                          Leaf(Other),
                          Leaf(Symbol)),
                        Split(0x10880,
                          Leaf(Number),
                          Split(0x108A7,
                            Leaf(Other),
                            Leaf(Number))))))))),
            Split(0x11144,
              Split(0x10B9D,
                Split(0x10A59,
                  Split(0x109BC,
                    Split(0x1091C,
                      Split(0x10900,
                        Split(0x108FB,
                          Leaf(Other),
                          Leaf(Number)),
                        Split(0x10916,
                          Leaf(Other),
                          Leaf(Number))),
                      Split(0x10920,
                        Split(0x1091F,
                          Leaf(Other),
                          Leaf(Punct)),
                        Split(0x1093F,
                          Leaf(Other),
                          Split(0x10940,
                            Leaf(Punct),
                            Leaf(Other))))),
                    Split(0x109D2,
                      Split(0x109C0,
                        Split(0x109BE,
                          Leaf(Number),
                          Leaf(Other)),
                        Split(0x109D0,
                          Leaf(Number),
                          Leaf(Other))),
                      Split(0x10A40,
                        Split(0x10A00,
                          Leaf(Number),
                          Leaf(Other)),
                        Split(0x10A49,
                          Leaf(Number),
                          Split(0x10A50,
                            Leaf(Other),
                            Leaf(Punct)))))),
                  Split(0x10AF0,
                    Split(0x10A9D,
                      Split(0x10A7F,
                        Split(0x10A7D,
                          Leaf(Other),
                          Leaf(Number)),
                        Split(0x10A80,
                          Leaf(Punct),
                          Leaf(Other))),
                      Split(0x10AC8,
                        Split(0x10AA0,
                          Leaf(Number),
                          Leaf(Other)),
                        Split(0x10AC9,
                          Leaf(Symbol),
                          Split(0x10AEB,
                            Leaf(Other),
                            Leaf(Number))))),
                    Split(0x10B58,
                      Split(0x10B39,
                        Split(0x10AF7,
                          Leaf(Punct),
                          Leaf(Other)),
                        Split(0x10B40,
                          Leaf(Punct),
                          Leaf(Other))),
                      Split(0x10B78,
                        Split(0x10B60,
                          Leaf(Number),
                          Leaf(Other)),
                        Split(0x10B80,
                          Leaf(Number),
                          Split(0x10B99,
                            Leaf(Other),
                            Leaf(Punct))))))),
                Split(0x10F55,
                  Split(0x10D30,
                    Split(0x10CB3,
                      Split(0x10BB0,
                        Split(0x10BA9,
                          Leaf(Other),
                          Leaf(Number)),
                        Split(0x10C80,
                          Leaf(Other),
                          Leaf(Upper))),
                      Split(0x10CF3,
                        Split(0x10CC0,
                          Leaf(Other),
                          Leaf(Lower)),
                        Split(0x10CFA,
                          Leaf(Other),
                          Split(0x10D00,
                            Leaf(Number),
                            Leaf(Other))))),
                    Split(0x10EAD,
                      Split(0x10E60,
                        Split(0x10D3A,
                          Leaf(Number),
                          Leaf(Other)),
                        Split(0x10E7F,
                          Leaf(Number),
                          Leaf(Other))),
                      Split(0x10F1D,
                        Split(0x10EAE,
                          Leaf(Punct),
                          Leaf(Other)),
                        Split(0x10F27,
                          Leaf(Number),
                          Split(0x10F51,
                            Leaf(Other),
                            Leaf(Number)))))),
                  Split(0x11070,
                    Split(0x10FC5,
                      Split(0x10F86,
                        Split(0x10F5A,
                          Leaf(Punct),
                          Leaf(Other)),
                        Split(0x10F8A,
                          Leaf(Punct),
                          Leaf(Other))),
                      Split(0x11047,
                        Split(0x10FCC,
                          Leaf(Number),
                          Leaf(Other)),
                        Split(0x1104E,
                          Leaf(Punct),
                          Split(0x11052,
                            Leaf(Other),
                            Leaf(Number))))),
                    Split(0x110C2,
                      Split(0x110BD,
                        Split(0x110BB,
                          Leaf(Other),
                          Leaf(Punct)),
                        Split(0x110BE,
                          Leaf(Other),
                          Leaf(Punct))),
                      Split(0x110FA,
                        Split(0x110F0,
                          Leaf(Other),
                          Leaf(Number)),
                        Split(0x11136,
                          Leaf(Other),
                          Split(0x11140,
                            Leaf(Number),
                            Leaf(Punct)))))))),
              Split(0x1165A,
                Split(0x112AA,
                  Split(0x111DB,
                    Split(0x111C9,
                      Split(0x11176,
                        Split(0x11174,
                          Leaf(Other),
                          Leaf(Punct)),
                        Split(0x111C5,
                          Leaf(Other),
                          Leaf(Punct))),
                      Split(0x111CE,
                        Split(0x111CD,
                          Leaf(Other),
                          Leaf(Punct)),
                        Split(0x111D0,
                          Leaf(Other),
                          Split(0x111DA,
                            Leaf(Number),
                            Leaf(Other))))),
                    Split(0x111E1,
                      Split(0x111DD,
                        Split(0x111DC,
                          Leaf(Punct),
                          Leaf(Other)),
                        Split(0x111E0,
                          Leaf(Punct),
                          Leaf(Other))),
                      Split(0x11238,
                        Split(0x111F5,
                          Leaf(Number),
                          Leaf(Other)),
                        Split(0x1123E,
                          Leaf(Punct),
                          Split(0x112A9,
                            Leaf(Other),
                            Leaf(Punct)))))),
                  Split(0x114C6,
                    Split(0x11450,
                      Split(0x112FA,
                        Split(0x112F0,
                          Leaf(Other),
                          Leaf(Number)),
                        Split(0x1144B,
                          Leaf(Other),
                          Leaf(Punct))),
                      Split(0x1145C,
                        Split(0x1145A,
                          Leaf(Number),
                          Leaf(Punct)),
                        Split(0x1145D,
                          Leaf(Other),
                          Split(0x1145E,
                            Leaf(Punct),
                            Leaf(Other))))),
                    Split(0x115C1,
                      Split(0x114D0,
                        Split(0x114C7,
                          Leaf(Punct),
                          Leaf(Other)),
                        Split(0x114DA,
                          Leaf(Number),
                          Leaf(Other))),
                      Split(0x11641,
                        Split(0x115D8,
                          Leaf(Punct),
                          Leaf(Other)),
                        Split(0x11644,
                          Leaf(Punct),
                          Split(0x11650,
                            Leaf(Other),
                            Leaf(Number))))))),
                Split(0x11947,
                  Split(0x1173F,
                    Split(0x116BA,
                      Split(0x1166D,
                        Split(0x11660,
                          Leaf(Other),
                          Leaf(Punct)),
                        Split(0x116B9,
                          Leaf(Other),
                          Leaf(Punct))),
                      Split(0x116CA,
                        Split(0x116C0,
                          Leaf(Other),
                          Leaf(Number)),
                        Split(0x11730,
                          Leaf(Other),
                          Split(0x1173C,
                            Leaf(Number),
                            Leaf(Punct))))),
                    Split(0x118A0,
                      Split(0x1183B,
                        Split(0x11740,
                          Leaf(Symbol),
                          Leaf(Other)),
                        Split(0x1183C,
                          Leaf(Punct),
                          Leaf(Other))),
                      Split(0x118E0,
                        Split(0x118C0,
                          Leaf(Upper),
                          Leaf(Lower)),
                        Split(0x118F3,
                          Leaf(Number),
                          Split(0x11944,
                            Leaf(Other),
                            Leaf(Punct)))))),
                  Split(0x11A9E,
                    Split(0x119E3,
                      Split(0x1195A,
                        Split(0x11950,
                          Leaf(Other),
                          Leaf(Number)),
                        Split(0x119E2,
                          Leaf(Other),
                          Leaf(Punct))),
                      Split(0x11A47,
                        Split(0x11A3F,
                          Leaf(Other),
                          Leaf(Punct)),
                        Split(0x11A9A,
                          Leaf(Other),
                          Split(0x11A9D,
                            Leaf(Punct),
                            Leaf(Other))))),
                    Split(0x11C46,
                      Split(0x11B00,
                        Split(0x11AA3,
                          Leaf(Punct),
                          Leaf(Other)),
                        Split(0x11B0A,
                          Leaf(Punct),
                          Split(0x11C41,
                            Leaf(Other),
                            Leaf(Punct)))),
                      Split(0x11C6D,
                        Split(0x11C50,
                          Leaf(Other),
                          Leaf(Number)),
                        Split(0x11C70,
                          Leaf(Other),
                          Split(0x11C72,
                            Leaf(Punct),
                            Leaf(Other)))))))))),
          Split(0x1D6FC,
            Split(0x1D2F4,
              Split(0x16B5B,
                Split(0x12FF1,
                  Split(0x11FC0,
                    Split(0x11EF7,
                      Split(0x11DA0,
                        Split(0x11D5A,
                          Leaf(Number),
                          Leaf(Other)),
                        Split(0x11DAA,
                          Leaf(Number),
                          Leaf(Other))),
                      Split(0x11F43,
                        Split(0x11EF9,
                          Leaf(Punct),
                          Leaf(Other)),
                        Split(0x11F50,
                          Leaf(Punct),
                          Split(0x11F5A,
                            Leaf(Number),
                            Leaf(Other))))),
                    Split(0x12000,
                      Split(0x11FF2,
                        Split(0x11FD5,
                          Leaf(Number),
                          Leaf(Symbol)),
                        Split(0x11FFF,
                          Leaf(Other),
                          Leaf(Punct))),
                      Split(0x1246F,
                        Split(0x12400,
                          Leaf(Other),
                          Leaf(Number)),
                        Split(0x12470,
                          Leaf(Other),
                          Split(0x12475,
                            Leaf(Punct),
                            Leaf(Other)))))),
                  Split(0x16AF6,
                    Split(0x16A6E,
                      Split(0x16A60,
                        Split(0x12FF3,
                          Leaf(Punct),
                          Leaf(Other)),
                        Split(0x16A6A,
                          Leaf(Number),
                          Leaf(Other))),
                      Split(0x16AC0,
                        Split(0x16A70,
                          Leaf(Punct),
                          Leaf(Other)),
                        Split(0x16ACA,
                          Leaf(Number),
                          Split(0x16AF5,
                            Leaf(Other),
                            Leaf(Punct))))),
                    Split(0x16B44,
                      Split(0x16B3C,
                        Split(0x16B37,
                          Leaf(Other),
                          Leaf(Punct)),
                        Split(0x16B40,
                          Leaf(Symbol),
                          Leaf(Other))),
                      Split(0x16B46,
                        Split(0x16B45,
                          Leaf(Punct),
                          Leaf(Symbol)),
                        Split(0x16B50,
                          Leaf(Other),
                          Split(0x16B5A,
                            Leaf(Number),
                            Leaf(Other))))))),
                Split(0x1D127,
                  Split(0x1BC9C,
                    Split(0x16E80,
                      Split(0x16E40,
                        Split(0x16B62,
                          Leaf(Number),
                          Leaf(Other)),
                        Split(0x16E60,
                          Leaf(Upper),
                          Leaf(Lower))),
                      Split(0x16E9B,
                        Split(0x16E97,
                          Leaf(Number),
                          Leaf(Punct)),
                        Split(0x16FE2,
                          Leaf(Other),
                          Split(0x16FE3,
                            Leaf(Punct),
                            Leaf(Other))))),
                    Split(0x1CF50,
                      Split(0x1BC9F,
                        Split(0x1BC9D,
                          Leaf(Symbol),
                          Leaf(Other)),
                        Split(0x1BCA0,
                          Leaf(Punct),
                          Leaf(Other))),
                      Split(0x1D000,
                        Split(0x1CFC4,
                          Leaf(Symbol),
                          Leaf(Other)),
                        Split(0x1D0F6,
                          Leaf(Symbol),
                          Split(0x1D100,
                            Leaf(Other),
                            Leaf(Symbol)))))),
                  Split(0x1D1AE,
                    Split(0x1D16D,
                      Split(0x1D165,
                        Split(0x1D129,
                          Leaf(Other),
                          Leaf(Symbol)),
                        Split(0x1D16A,
                          Leaf(Other),
                          Leaf(Symbol))),
                      Split(0x1D185,
                        Split(0x1D183,
                          Leaf(Other),
                          Leaf(Symbol)),
                        Split(0x1D18C,
                          Leaf(Other),
                          Split(0x1D1AA,
                            Leaf(Symbol),
                            Leaf(Other))))),
                    Split(0x1D245,
                      Split(0x1D200,
                        Split(0x1D1EB,
                          Leaf(Symbol),
                          Leaf(Other)),
                        Split(0x1D242,
                          Leaf(Symbol),
                          Leaf(Other))),
                      Split(0x1D2C0,
                        Split(0x1D246,
                          Leaf(Symbol),
                          Leaf(Other)),
                        Split(0x1D2D4,
                          Leaf(Number),
                          Split(0x1D2E0,
                            Leaf(Other),
                            Leaf(Number)))))))),
              Split(0x1D50B,
                Split(0x1D4A3,
                  Split(0x1D455,
                    Split(0x1D379,
                      Split(0x1D357,
                        Split(0x1D300,
                          Leaf(Other),
                          Leaf(Symbol)),
                        Split(0x1D360,
                          Leaf(Other),
                          Leaf(Number))),
                      Split(0x1D41A,
                        Split(0x1D400,
                          Leaf(Other),
                          Leaf(Upper)),
                        Split(0x1D434,
                          Leaf(Lower),
                          Split(0x1D44E,
                            Leaf(Upper),
                            Leaf(Lower))))),
                    Split(0x1D49C,
                      Split(0x1D468,
                        Split(0x1D456,
                          Leaf(Other),
                          Leaf(Lower)),
                        Split(0x1D482,
                          Leaf(Upper),
                          Leaf(Lower))),
                      Split(0x1D49E,
                        Split(0x1D49D,
                          Leaf(Upper),
                          Leaf(Other)),
                        Split(0x1D4A0,
                          Leaf(Upper),
                          Split(0x1D4A2,
                            Leaf(Other),
                            Leaf(Upper)))))),
                  Split(0x1D4BC,
                    Split(0x1D4AD,
                      Split(0x1D4A7,
                        Split(0x1D4A5,
                          Leaf(Other),
                          Leaf(Upper)),
                        Split(0x1D4A9,
                          Leaf(Other),
                          Leaf(Upper))),
                      Split(0x1D4B6,
                        Split(0x1D4AE,
                          Leaf(Other),
                          Leaf(Upper)),
                        Split(0x1D4BA,
                          Leaf(Lower),
                          Split(0x1D4BB,
                            Leaf(Other),
                            Leaf(Lower))))),
                    Split(0x1D4D0,
                      Split(0x1D4C4,
                        Split(0x1D4BD,
                          Leaf(Other),
                          Leaf(Lower)),
                        Split(0x1D4C5,
                          Leaf(Other),
                          Leaf(Lower))),
                      Split(0x1D504,
                        Split(0x1D4EA,
                          Leaf(Upper),
                          Leaf(Lower)),
                        Split(0x1D506,
                          Leaf(Upper),
                          Split(0x1D507,
                            Leaf(Other),
                            Leaf(Upper))))))),
                Split(0x1D586,
                  Split(0x1D53F,
                    Split(0x1D51D,
                      Split(0x1D515,
                        Split(0x1D50D,
                          Leaf(Other),
                          Leaf(Upper)),
                        Split(0x1D516,
                          Leaf(Other),
                          Leaf(Upper))),
                      Split(0x1D538,
                        Split(0x1D51E,
                          Leaf(Other),
                          Leaf(Lower)),
                        Split(0x1D53A,
                          Leaf(Upper),
                          Split(0x1D53B,
                            Leaf(Other),
                            Leaf(Upper))))),
                    Split(0x1D547,
                      Split(0x1D545,
                        Split(0x1D540,
                          Leaf(Other),
                          Leaf(Upper)),
                        Split(0x1D546,
                          Leaf(Other),
                          Leaf(Upper))),
                      Split(0x1D551,
                        Split(0x1D54A,
                          Leaf(Other),
                          Leaf(Upper)),
                        Split(0x1D552,
                          Leaf(Other),
                          Split(0x1D56C,
                            Leaf(Lower),
                            Leaf(Upper)))))),
                  Split(0x1D670,
                    Split(0x1D5EE,
                      Split(0x1D5BA,
                        Split(0x1D5A0,
                          Leaf(Lower),
                          Leaf(Upper)),
                        Split(0x1D5D4,
                          Leaf(Lower),
                          Leaf(Upper))),
                      Split(0x1D622,
                        Split(0x1D608,
                          Leaf(Lower),
                          Leaf(Upper)),
                        Split(0x1D63C,
                          Leaf(Lower),
                          Split(0x1D656,
                            Leaf(Upper),
                            Leaf(Lower))))),
                    Split(0x1D6C2,
                      Split(0x1D6A6,
                        Split(0x1D68A,
                          Leaf(Upper),
                          Leaf(Lower)),
                        Split(0x1D6A8,
                          Leaf(Other),
                          Split(0x1D6C1,
                            Leaf(Upper),
                            Leaf(Symbol)))),
                      Split(0x1D6DC,
                        Split(0x1D6DB,
                          Leaf(Lower),
                          Leaf(Symbol)),
                        Split(0x1D6E2,
                          Leaf(Lower),
                          Split(0x1D6FB,
                            Leaf(Upper),
                            Leaf(Symbol))))))))),
            Split(0x1F030,
              Split(0x1DF1F,
                Split(0x1D7CA,
                  Split(0x1D76F,
                    Split(0x1D735,
                      Split(0x1D716,
                        Split(0x1D715,
                          Leaf(Lower),
                          Leaf(Symbol)),
                        Split(0x1D71C,
                          Leaf(Lower),
                          Leaf(Upper))),
                      Split(0x1D74F,
                        Split(0x1D736,
                          Leaf(Symbol),
                          Leaf(Lower)),
                        Split(0x1D750,
                          Leaf(Symbol),
                          Split(0x1D756,
                            Leaf(Lower),
                            Leaf(Upper))))),
                    Split(0x1D790,
                      Split(0x1D789,
                        Split(0x1D770,
                          Leaf(Symbol),
                          Leaf(Lower)),
                        Split(0x1D78A,
                          Leaf(Symbol),
                          Leaf(Lower))),
                      Split(0x1D7AA,
                        Split(0x1D7A9,
                          Leaf(Upper),
                          Leaf(Symbol)),
                        Split(0x1D7C3,
                          Leaf(Lower),
                          Split(0x1D7C4,
                            Leaf(Symbol),
                            Leaf(Lower)))))),
                  Split(0x1DA75,
                    Split(0x1D800,
                      Split(0x1D7CC,
                        Split(0x1D7CB,
                          Leaf(Upper),
                          Leaf(Lower)),
                        Split(0x1D7CE,
                          Leaf(Other),
                          Leaf(Number))),
                      Split(0x1DA37,
                        Split(0x1DA00,
                          Leaf(Symbol),
                          Leaf(Other)),
                        Split(0x1DA3B,
                          Leaf(Symbol),
                          Split(0x1DA6D,
                            Leaf(Other),
                            Leaf(Symbol))))),
                    Split(0x1DA87,
                      Split(0x1DA84,
                        Split(0x1DA76,
                          Leaf(Other),
                          Leaf(Symbol)),
                        Split(0x1DA85,
                          Leaf(Other),
                          Leaf(Symbol))),
                      Split(0x1DF00,
                        Split(0x1DA8C,
                          Leaf(Punct),
                          Leaf(Other)),
                        Split(0x1DF0A,
                          Leaf(Lower),
                          Split(0x1DF0B,
                            Leaf(Other),
                            Leaf(Lower))))))),
                Split(0x1E950,
                  Split(0x1E2FF,
                    Split(0x1E14A,
                      Split(0x1DF2B,
                        Split(0x1DF25,
                          Leaf(Other),
                          Leaf(Lower)),
                        Split(0x1E140,
                          Leaf(Other),
                          Leaf(Number))),
                      Split(0x1E150,
                        Split(0x1E14F,
                          Leaf(Other),
                          Leaf(Symbol)),
                        Split(0x1E2F0,
                          Leaf(Other),
                          Split(0x1E2FA,
                            Leaf(Number),
                            Leaf(Other))))),
                    Split(0x1E8C7,
                      Split(0x1E4F0,
                        Split(0x1E300,
                          Leaf(Symbol),
                          Leaf(Other)),
                        Split(0x1E4FA,
                          Leaf(Number),
                          Leaf(Other))),
                      Split(0x1E900,
                        Split(0x1E8D0,
                          Leaf(Number),
                          Leaf(Other)),
                        Split(0x1E922,
                          Leaf(Upper),
                          Split(0x1E944,
                            Leaf(Lower),
                            Leaf(Other)))))),
                  Split(0x1ECB5,
                    Split(0x1EC71,
                      Split(0x1E95E,
                        Split(0x1E95A,
                          Leaf(Number),
                          Leaf(Other)),
                        Split(0x1E960,
                          Leaf(Punct),
                          Leaf(Other))),
                      Split(0x1ECAD,
                        Split(0x1ECAC,
                          Leaf(Number),
                          Leaf(Symbol)),
                        Split(0x1ECB0,
                          Leaf(Number),
                          Split(0x1ECB1,
                            Leaf(Symbol),
                            Leaf(Number))))),
                    Split(0x1ED3E,
                      Split(0x1ED2E,
                        Split(0x1ED01,
                          Leaf(Other),
                          Leaf(Number)),
                        Split(0x1ED2F,
                          Leaf(Symbol),
                          Leaf(Number))),
                      Split(0x1EEF2,
                        Split(0x1EEF0,
                          Leaf(Other),
                          Leaf(Symbol)),
                        Split(0x1F000,
                          Leaf(Other),
                          Split(0x1F02C,
                            Leaf(Symbol),
                            Leaf(Other)))))))),
              Split(0x1F7F1,
                Split(0x1F249,
                  Split(0x1F0F6,
                    Split(0x1F0B1,
                      Split(0x1F0A0,
                        Split(0x1F094,
                          Leaf(Symbol),
                          Leaf(Other)),
                        Split(0x1F0AF,
                          Leaf(Symbol),
                          Leaf(Other))),
                      Split(0x1F0C1,
                        Split(0x1F0C0,
                          Leaf(Symbol),
                          Leaf(Other)),
                        Split(0x1F0D0,
                          Leaf(Symbol),
                          Split(0x1F0D1,
                            Leaf(Other),
                            Leaf(Symbol))))),
                    Split(0x1F1E6,
                      Split(0x1F10D,
                        Split(0x1F100,
                          Leaf(Other),
                          Leaf(Number)),
                        Split(0x1F1AE,
                          Leaf(Symbol),
                          Leaf(Other))),
                      Split(0x1F210,
                        Split(0x1F203,
                          Leaf(Symbol),
                          Leaf(Other)),
                        Split(0x1F23C,
                          Leaf(Symbol),
                          Split(0x1F240,
                            Leaf(Other),
                            Leaf(Symbol)))))),
                  Split(0x1F6F0,
                    Split(0x1F266,
                      Split(0x1F252,
                        Split(0x1F250,
                          Leaf(Other),
                          Leaf(Symbol)),
                        Split(0x1F260,
                          Leaf(Other),
                          Leaf(Symbol))),
                      Split(0x1F6D8,
                        Split(0x1F300,
                          Leaf(Other),
                          Leaf(Symbol)),
                        Split(0x1F6DC,
                          Leaf(Other),
                          Split(0x1F6ED,
                            Leaf(Symbol),
                            Leaf(Other))))),
                    Split(0x1F77B,
                      Split(0x1F700,
                        Split(0x1F6FD,
                          Leaf(Symbol),
                          Leaf(Other)),
                        Split(0x1F777,
                          Leaf(Symbol),
                          Leaf(Other))),
                      Split(0x1F7E0,
                        Split(0x1F7DA,
                          Leaf(Symbol),
                          Leaf(Other)),
                        Split(0x1F7EC,
                          Leaf(Symbol),
                          Split(0x1F7F0,
                            Leaf(Other),
                            Leaf(Symbol))))))),
                Split(0x1FA7D,
                  Split(0x1F890,
                    Split(0x1F848,
                      Split(0x1F80C,
                        Split(0x1F800,
                          Leaf(Other),
                          Leaf(Symbol)),
                        Split(0x1F810,
                          Leaf(Other),
                          Leaf(Symbol))),
                      Split(0x1F85A,
                        Split(0x1F850,
                          Leaf(Other),
                          Leaf(Symbol)),
                        Split(0x1F860,
                          Leaf(Other),
                          Split(0x1F888,
                            Leaf(Symbol),
                            Leaf(Other))))),
                    Split(0x1F900,
                      Split(0x1F8B0,
                        Split(0x1F8AE,
                          Leaf(Symbol),
                          Leaf(Other)),
                        Split(0x1F8B2,
                          Leaf(Symbol),
                          Leaf(Other))),
                      Split(0x1FA60,
                        Split(0x1FA54,
                          Leaf(Symbol),
                          Leaf(Other)),
                        Split(0x1FA6E,
                          Leaf(Symbol),
                          Split(0x1FA70,
                            Leaf(Other),
                            Leaf(Symbol)))))),
                  Split(0x1FAE0,
                    Split(0x1FABE,
                      Split(0x1FA89,
                        Split(0x1FA80,
                          Leaf(Other),
                          Leaf(Symbol)),
                        Split(0x1FA90,
                          Leaf(Other),
                          Leaf(Symbol))),
                      Split(0x1FAC6,
                        Split(0x1FABF,
                          Leaf(Other),
                          Leaf(Symbol)),
                        Split(0x1FACE,
                          Leaf(Other),
                          Split(0x1FADC,
                            Leaf(Symbol),
                            Leaf(Other))))),
                    Split(0x1FB93,
                      Split(0x1FAF0,
                        Split(0x1FAE9,
                          Leaf(Symbol),
                          Leaf(Other)),
                        Split(0x1FAF9,
                          Leaf(Symbol),
                          Split(0x1FB00,
                            Leaf(Other),
                            Leaf(Symbol)))),
                      Split(0x1FBCB,
                        Split(0x1FB94,
                          Leaf(Other),
                          Leaf(Symbol)),
                        Split(0x1FBF0,
                          Leaf(Other),
                          Split(0x1FBFA,
                            Leaf(Number),
                            Leaf(Other)))))))))))))
}
