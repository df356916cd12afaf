/**
 The code tables of the server's Huffman coder: the codes of RFC 7541, Appendix B. The tables
 are written as search trees on their index, which the verifier reads faster than a list.
 */
module HuffmanCodes {
  /** A code: its bits as a number, and how many bits. */
  datatype Code = Code(bits: nat, len: nat)

  /** The code of each octet. */
  function Plain(c: nat): Code
    requires c < 256
  {
    if c < 128 then (
      if c < 64 then (
        if c < 32 then (
          if c < 16 then (
            if c < 8 then (
              if c < 4 then (
                if c < 2 then (if c < 1 then Code(0x00001ff8, 13) else Code(0x007fffd8, 23)) else (if c < 3 then Code(0x0fffffe2, 28) else Code(0x0fffffe3, 28))
              ) else (
                if c < 6 then (if c < 5 then Code(0x0fffffe4, 28) else Code(0x0fffffe5, 28)) else (if c < 7 then Code(0x0fffffe6, 28) else Code(0x0fffffe7, 28))
              )
            ) else (
              if c < 12 then (
                if c < 10 then (if c < 9 then Code(0x0fffffe8, 28) else Code(0x00ffffea, 24)) else (if c < 11 then Code(0x3ffffffc, 30) else Code(0x0fffffe9, 28))
              ) else (
                if c < 14 then (if c < 13 then Code(0x0fffffea, 28) else Code(0x3ffffffd, 30)) else (if c < 15 then Code(0x0fffffeb, 28) else Code(0x0fffffec, 28))
              )
            )
          ) else (
            if c < 24 then (
              if c < 20 then (
                if c < 18 then (if c < 17 then Code(0x0fffffed, 28) else Code(0x0fffffee, 28)) else (if c < 19 then Code(0x0fffffef, 28) else Code(0x0ffffff0, 28))
              ) else (
                if c < 22 then (if c < 21 then Code(0x0ffffff1, 28) else Code(0x0ffffff2, 28)) else (if c < 23 then Code(0x3ffffffe, 30) else Code(0x0ffffff3, 28))
              )
            ) else (
              if c < 28 then (
                if c < 26 then (if c < 25 then Code(0x0ffffff4, 28) else Code(0x0ffffff5, 28)) else (if c < 27 then Code(0x0ffffff6, 28) else Code(0x0ffffff7, 28))
              ) else (
                if c < 30 then (if c < 29 then Code(0x0ffffff8, 28) else Code(0x0ffffff9, 28)) else (if c < 31 then Code(0x0ffffffa, 28) else Code(0x0ffffffb, 28))
              )
            )
          )
        ) else (
          if c < 48 then (
            if c < 40 then (
              if c < 36 then (
                if c < 34 then (if c < 33 then Code(0x00000014, 6) else Code(0x000003f8, 10)) else (if c < 35 then Code(0x000003f9, 10) else Code(0x00000ffa, 12))
              ) else (
                if c < 38 then (if c < 37 then Code(0x00001ff9, 13) else Code(0x00000015, 6)) else (if c < 39 then Code(0x000000f8, 8) else Code(0x000007fa, 11))
              )
            ) else (
              if c < 44 then (
                if c < 42 then (if c < 41 then Code(0x000003fa, 10) else Code(0x000003fb, 10)) else (if c < 43 then Code(0x000000f9, 8) else Code(0x000007fb, 11))
              ) else (
                if c < 46 then (if c < 45 then Code(0x000000fa, 8) else Code(0x00000016, 6)) else (if c < 47 then Code(0x00000017, 6) else Code(0x00000018, 6))
              )
            )
          ) else (
            if c < 56 then (
              if c < 52 then (
                if c < 50 then (if c < 49 then Code(0x00000000, 5) else Code(0x00000001, 5)) else (if c < 51 then Code(0x00000002, 5) else Code(0x00000019, 6))
              ) else (
                if c < 54 then (if c < 53 then Code(0x0000001a, 6) else Code(0x0000001b, 6)) else (if c < 55 then Code(0x0000001c, 6) else Code(0x0000001d, 6))
              )
            ) else (
              if c < 60 then (
                if c < 58 then (if c < 57 then Code(0x0000001e, 6) else Code(0x0000001f, 6)) else (if c < 59 then Code(0x0000005c, 7) else Code(0x000000fb, 8))
              ) else (
                if c < 62 then (if c < 61 then Code(0x00007ffc, 15) else Code(0x00000020, 6)) else (if c < 63 then Code(0x00000ffb, 12) else Code(0x000003fc, 10))
              )
            )
          )
        )
      ) else (
        if c < 96 then (
          if c < 80 then (
            if c < 72 then (
              if c < 68 then (
                if c < 66 then (if c < 65 then Code(0x00001ffa, 13) else Code(0x00000021, 6)) else (if c < 67 then Code(0x0000005d, 7) else Code(0x0000005e, 7))
              ) else (
                if c < 70 then (if c < 69 then Code(0x0000005f, 7) else Code(0x00000060, 7)) else (if c < 71 then Code(0x00000061, 7) else Code(0x00000062, 7))
              )
            ) else (
              if c < 76 then (
                if c < 74 then (if c < 73 then Code(0x00000063, 7) else Code(0x00000064, 7)) else (if c < 75 then Code(0x00000065, 7) else Code(0x00000066, 7))
              ) else (
                if c < 78 then (if c < 77 then Code(0x00000067, 7) else Code(0x00000068, 7)) else (if c < 79 then Code(0x00000069, 7) else Code(0x0000006a, 7))
              )
            )
          ) else (
            if c < 88 then (
              if c < 84 then (
                if c < 82 then (if c < 81 then Code(0x0000006b, 7) else Code(0x0000006c, 7)) else (if c < 83 then Code(0x0000006d, 7) else Code(0x0000006e, 7))
              ) else (
                if c < 86 then (if c < 85 then Code(0x0000006f, 7) else Code(0x00000070, 7)) else (if c < 87 then Code(0x00000071, 7) else Code(0x00000072, 7))
              )
            ) else (
              if c < 92 then (
                if c < 90 then (if c < 89 then Code(0x000000fc, 8) else Code(0x00000073, 7)) else (if c < 91 then Code(0x000000fd, 8) else Code(0x00001ffb, 13))
              ) else (
                if c < 94 then (if c < 93 then Code(0x0007fff0, 19) else Code(0x00001ffc, 13)) else (if c < 95 then Code(0x00003ffc, 14) else Code(0x00000022, 6))
              )
            )
          )
        ) else (
          if c < 112 then (
            if c < 104 then (
              if c < 100 then (
                if c < 98 then (if c < 97 then Code(0x00007ffd, 15) else Code(0x00000003, 5)) else (if c < 99 then Code(0x00000023, 6) else Code(0x00000004, 5))
              ) else (
                if c < 102 then (if c < 101 then Code(0x00000024, 6) else Code(0x00000005, 5)) else (if c < 103 then Code(0x00000025, 6) else Code(0x00000026, 6))
              )
            ) else (
              if c < 108 then (
                if c < 106 then (if c < 105 then Code(0x00000027, 6) else Code(0x00000006, 5)) else (if c < 107 then Code(0x00000074, 7) else Code(0x00000075, 7))
              ) else (
                if c < 110 then (if c < 109 then Code(0x00000028, 6) else Code(0x00000029, 6)) else (if c < 111 then Code(0x0000002a, 6) else Code(0x00000007, 5))
              )
            )
          ) else (
            if c < 120 then (
              if c < 116 then (
                if c < 114 then (if c < 113 then Code(0x0000002b, 6) else Code(0x00000076, 7)) else (if c < 115 then Code(0x0000002c, 6) else Code(0x00000008, 5))
              ) else (
                if c < 118 then (if c < 117 then Code(0x00000009, 5) else Code(0x0000002d, 6)) else (if c < 119 then Code(0x00000077, 7) else Code(0x00000078, 7))
              )
            ) else (
              if c < 124 then (
                if c < 122 then (if c < 121 then Code(0x00000079, 7) else Code(0x0000007a, 7)) else (if c < 123 then Code(0x0000007b, 7) else Code(0x00007ffe, 15))
              ) else (
                if c < 126 then (if c < 125 then Code(0x000007fc, 11) else Code(0x00003ffd, 14)) else (if c < 127 then Code(0x00001ffd, 13) else Code(0x0ffffffc, 28))
              )
            )
          )
        )
      )
    ) else (
      if c < 192 then (
        if c < 160 then (
          if c < 144 then (
            if c < 136 then (
              if c < 132 then (
                if c < 130 then (if c < 129 then Code(0x000fffe6, 20) else Code(0x003fffd2, 22)) else (if c < 131 then Code(0x000fffe7, 20) else Code(0x000fffe8, 20))
              ) else (
                if c < 134 then (if c < 133 then Code(0x003fffd3, 22) else Code(0x003fffd4, 22)) else (if c < 135 then Code(0x003fffd5, 22) else Code(0x007fffd9, 23))
              )
            ) else (
              if c < 140 then (
                if c < 138 then (if c < 137 then Code(0x003fffd6, 22) else Code(0x007fffda, 23)) else (if c < 139 then Code(0x007fffdb, 23) else Code(0x007fffdc, 23))
              ) else (
                if c < 142 then (if c < 141 then Code(0x007fffdd, 23) else Code(0x007fffde, 23)) else (if c < 143 then Code(0x00ffffeb, 24) else Code(0x007fffdf, 23))
              )
            )
          ) else (
            if c < 152 then (
              if c < 148 then (
                if c < 146 then (if c < 145 then Code(0x00ffffec, 24) else Code(0x00ffffed, 24)) else (if c < 147 then Code(0x003fffd7, 22) else Code(0x007fffe0, 23))
              ) else (
                if c < 150 then (if c < 149 then Code(0x00ffffee, 24) else Code(0x007fffe1, 23)) else (if c < 151 then Code(0x007fffe2, 23) else Code(0x007fffe3, 23))
              )
            ) else (
              if c < 156 then (
                if c < 154 then (if c < 153 then Code(0x007fffe4, 23) else Code(0x001fffdc, 21)) else (if c < 155 then Code(0x003fffd8, 22) else Code(0x007fffe5, 23))
              ) else (
                if c < 158 then (if c < 157 then Code(0x003fffd9, 22) else Code(0x007fffe6, 23)) else (if c < 159 then Code(0x007fffe7, 23) else Code(0x00ffffef, 24))
              )
            )
          )
        ) else (
          if c < 176 then (
            if c < 168 then (
              if c < 164 then (
                if c < 162 then (if c < 161 then Code(0x003fffda, 22) else Code(0x001fffdd, 21)) else (if c < 163 then Code(0x000fffe9, 20) else Code(0x003fffdb, 22))
              ) else (
                if c < 166 then (if c < 165 then Code(0x003fffdc, 22) else Code(0x007fffe8, 23)) else (if c < 167 then Code(0x007fffe9, 23) else Code(0x001fffde, 21))
              )
            ) else (
              if c < 172 then (
                if c < 170 then (if c < 169 then Code(0x007fffea, 23) else Code(0x003fffdd, 22)) else (if c < 171 then Code(0x003fffde, 22) else Code(0x00fffff0, 24))
              ) else (
                if c < 174 then (if c < 173 then Code(0x001fffdf, 21) else Code(0x003fffdf, 22)) else (if c < 175 then Code(0x007fffeb, 23) else Code(0x007fffec, 23))
              )
            )
          ) else (
            if c < 184 then (
              if c < 180 then (
                if c < 178 then (if c < 177 then Code(0x001fffe0, 21) else Code(0x001fffe1, 21)) else (if c < 179 then Code(0x003fffe0, 22) else Code(0x001fffe2, 21))
              ) else (
                if c < 182 then (if c < 181 then Code(0x007fffed, 23) else Code(0x003fffe1, 22)) else (if c < 183 then Code(0x007fffee, 23) else Code(0x007fffef, 23))
              )
            ) else (
              if c < 188 then (
                if c < 186 then (if c < 185 then Code(0x000fffea, 20) else Code(0x003fffe2, 22)) else (if c < 187 then Code(0x003fffe3, 22) else Code(0x003fffe4, 22))
              ) else (
                if c < 190 then (if c < 189 then Code(0x007ffff0, 23) else Code(0x003fffe5, 22)) else (if c < 191 then Code(0x003fffe6, 22) else Code(0x007ffff1, 23))
              )
            )
          )
        )
      ) else (
        if c < 224 then (
          if c < 208 then (
            if c < 200 then (
              if c < 196 then (
                if c < 194 then (if c < 193 then Code(0x03ffffe0, 26) else Code(0x03ffffe1, 26)) else (if c < 195 then Code(0x000fffeb, 20) else Code(0x0007fff1, 19))
              ) else (
                if c < 198 then (if c < 197 then Code(0x003fffe7, 22) else Code(0x007ffff2, 23)) else (if c < 199 then Code(0x003fffe8, 22) else Code(0x01ffffec, 25))
              )
            ) else (
              if c < 204 then (
                if c < 202 then (if c < 201 then Code(0x03ffffe2, 26) else Code(0x03ffffe3, 26)) else (if c < 203 then Code(0x03ffffe4, 26) else Code(0x07ffffde, 27))
              ) else (
                if c < 206 then (if c < 205 then Code(0x07ffffdf, 27) else Code(0x03ffffe5, 26)) else (if c < 207 then Code(0x00fffff1, 24) else Code(0x01ffffed, 25))
              )
            )
          ) else (
            if c < 216 then (
              if c < 212 then (
                if c < 210 then (if c < 209 then Code(0x0007fff2, 19) else Code(0x001fffe3, 21)) else (if c < 211 then Code(0x03ffffe6, 26) else Code(0x07ffffe0, 27))
              ) else (
                if c < 214 then (if c < 213 then Code(0x07ffffe1, 27) else Code(0x03ffffe7, 26)) else (if c < 215 then Code(0x07ffffe2, 27) else Code(0x00fffff2, 24))
              )
            ) else (
              if c < 220 then (
                if c < 218 then (if c < 217 then Code(0x001fffe4, 21) else Code(0x001fffe5, 21)) else (if c < 219 then Code(0x03ffffe8, 26) else Code(0x03ffffe9, 26))
              ) else (
                if c < 222 then (if c < 221 then Code(0x0ffffffd, 28) else Code(0x07ffffe3, 27)) else (if c < 223 then Code(0x07ffffe4, 27) else Code(0x07ffffe5, 27))
              )
            )
          )
        ) else (
          if c < 240 then (
            if c < 232 then (
              if c < 228 then (
                if c < 226 then (if c < 225 then Code(0x000fffec, 20) else Code(0x00fffff3, 24)) else (if c < 227 then Code(0x000fffed, 20) else Code(0x001fffe6, 21))
              ) else (
                if c < 230 then (if c < 229 then Code(0x003fffe9, 22) else Code(0x001fffe7, 21)) else (if c < 231 then Code(0x001fffe8, 21) else Code(0x007ffff3, 23))
              )
            ) else (
              if c < 236 then (
                if c < 234 then (if c < 233 then Code(0x003fffea, 22) else Code(0x003fffeb, 22)) else (if c < 235 then Code(0x01ffffee, 25) else Code(0x01ffffef, 25))
              ) else (
                if c < 238 then (if c < 237 then Code(0x00fffff4, 24) else Code(0x00fffff5, 24)) else (if c < 239 then Code(0x03ffffea, 26) else Code(0x007ffff4, 23))
              )
            )
          ) else (
            if c < 248 then (
              if c < 244 then (
                if c < 242 then (if c < 241 then Code(0x03ffffeb, 26) else Code(0x07ffffe6, 27)) else (if c < 243 then Code(0x03ffffec, 26) else Code(0x03ffffed, 26))
              ) else (
                if c < 246 then (if c < 245 then Code(0x07ffffe7, 27) else Code(0x07ffffe8, 27)) else (if c < 247 then Code(0x07ffffe9, 27) else Code(0x07ffffea, 27))
              )
            ) else (
              if c < 252 then (
                if c < 250 then (if c < 249 then Code(0x07ffffeb, 27) else Code(0x0ffffffe, 28)) else (if c < 251 then Code(0x07ffffec, 27) else Code(0x07ffffed, 27))
              ) else (
                if c < 254 then (if c < 253 then Code(0x07ffffee, 27) else Code(0x07ffffef, 27)) else (if c < 255 then Code(0x07fffff0, 27) else Code(0x03ffffee, 26))
              )
            )
          )
        )
      )
    )
  }

  /** The same with the lower-case transformation built in. */
  function Lowered(c: nat): Code
    requires c < 256
  {
    if c < 128 then (
      if c < 64 then (
        if c < 32 then (
          if c < 16 then (
            if c < 8 then (
              if c < 4 then (
                if c < 2 then (if c < 1 then Code(0x00001ff8, 13) else Code(0x007fffd8, 23)) else (if c < 3 then Code(0x0fffffe2, 28) else Code(0x0fffffe3, 28))
              ) else (
                if c < 6 then (if c < 5 then Code(0x0fffffe4, 28) else Code(0x0fffffe5, 28)) else (if c < 7 then Code(0x0fffffe6, 28) else Code(0x0fffffe7, 28))
              )
            ) else (
              if c < 12 then (
                if c < 10 then (if c < 9 then Code(0x0fffffe8, 28) else Code(0x00ffffea, 24)) else (if c < 11 then Code(0x3ffffffc, 30) else Code(0x0fffffe9, 28))
              ) else (
                if c < 14 then (if c < 13 then Code(0x0fffffea, 28) else Code(0x3ffffffd, 30)) else (if c < 15 then Code(0x0fffffeb, 28) else Code(0x0fffffec, 28))
              )
            )
          ) else (
            if c < 24 then (
              if c < 20 then (
                if c < 18 then (if c < 17 then Code(0x0fffffed, 28) else Code(0x0fffffee, 28)) else (if c < 19 then Code(0x0fffffef, 28) else Code(0x0ffffff0, 28))
              ) else (
                if c < 22 then (if c < 21 then Code(0x0ffffff1, 28) else Code(0x0ffffff2, 28)) else (if c < 23 then Code(0x3ffffffe, 30) else Code(0x0ffffff3, 28))
              )
            ) else (
              if c < 28 then (
                if c < 26 then (if c < 25 then Code(0x0ffffff4, 28) else Code(0x0ffffff5, 28)) else (if c < 27 then Code(0x0ffffff6, 28) else Code(0x0ffffff7, 28))
              ) else (
                if c < 30 then (if c < 29 then Code(0x0ffffff8, 28) else Code(0x0ffffff9, 28)) else (if c < 31 then Code(0x0ffffffa, 28) else Code(0x0ffffffb, 28))
              )
            )
          )
        ) else (
          if c < 48 then (
            if c < 40 then (
              if c < 36 then (
                if c < 34 then (if c < 33 then Code(0x00000014, 6) else Code(0x000003f8, 10)) else (if c < 35 then Code(0x000003f9, 10) else Code(0x00000ffa, 12))
              ) else (
                if c < 38 then (if c < 37 then Code(0x00001ff9, 13) else Code(0x00000015, 6)) else (if c < 39 then Code(0x000000f8, 8) else Code(0x000007fa, 11))
              )
            ) else (
              if c < 44 then (
                if c < 42 then (if c < 41 then Code(0x000003fa, 10) else Code(0x000003fb, 10)) else (if c < 43 then Code(0x000000f9, 8) else Code(0x000007fb, 11))
              ) else (
                if c < 46 then (if c < 45 then Code(0x000000fa, 8) else Code(0x00000016, 6)) else (if c < 47 then Code(0x00000017, 6) else Code(0x00000018, 6))
              )
            )
          ) else (
            if c < 56 then (
              if c < 52 then (
                if c < 50 then (if c < 49 then Code(0x00000000, 5) else Code(0x00000001, 5)) else (if c < 51 then Code(0x00000002, 5) else Code(0x00000019, 6))
              ) else (
                if c < 54 then (if c < 53 then Code(0x0000001a, 6) else Code(0x0000001b, 6)) else (if c < 55 then Code(0x0000001c, 6) else Code(0x0000001d, 6))
              )
            ) else (
              if c < 60 then (
                if c < 58 then (if c < 57 then Code(0x0000001e, 6) else Code(0x0000001f, 6)) else (if c < 59 then Code(0x0000005c, 7) else Code(0x000000fb, 8))
              ) else (
                if c < 62 then (if c < 61 then Code(0x00007ffc, 15) else Code(0x00000020, 6)) else (if c < 63 then Code(0x00000ffb, 12) else Code(0x000003fc, 10))
              )
            )
          )
        )
      ) else (
        if c < 96 then (
          if c < 80 then (
            if c < 72 then (
              if c < 68 then (
                if c < 66 then (if c < 65 then Code(0x00001ffa, 13) else Code(0x00000003, 5)) else (if c < 67 then Code(0x00000023, 6) else Code(0x00000004, 5))
              ) else (
                if c < 70 then (if c < 69 then Code(0x00000024, 6) else Code(0x00000005, 5)) else (if c < 71 then Code(0x00000025, 6) else Code(0x00000026, 6))
              )
            ) else (
              if c < 76 then (
                if c < 74 then (if c < 73 then Code(0x00000027, 6) else Code(0x00000006, 5)) else (if c < 75 then Code(0x00000074, 7) else Code(0x00000075, 7))
              ) else (
                if c < 78 then (if c < 77 then Code(0x00000028, 6) else Code(0x00000029, 6)) else (if c < 79 then Code(0x0000002a, 6) else Code(0x00000007, 5))
              )
            )
          ) else (
            if c < 88 then (
              if c < 84 then (
                if c < 82 then (if c < 81 then Code(0x0000002b, 6) else Code(0x00000076, 7)) else (if c < 83 then Code(0x0000002c, 6) else Code(0x00000008, 5))
              ) else (
                if c < 86 then (if c < 85 then Code(0x00000009, 5) else Code(0x0000002d, 6)) else (if c < 87 then Code(0x00000077, 7) else Code(0x00000078, 7))
              )
            ) else (
              if c < 92 then (
                if c < 90 then (if c < 89 then Code(0x00000079, 7) else Code(0x0000007a, 7)) else (if c < 91 then Code(0x0000007b, 7) else Code(0x00001ffb, 13))
              ) else (
                if c < 94 then (if c < 93 then Code(0x0007fff0, 19) else Code(0x00001ffc, 13)) else (if c < 95 then Code(0x00003ffc, 14) else Code(0x00000022, 6))
              )
            )
          )
        ) else (
          if c < 112 then (
            if c < 104 then (
              if c < 100 then (
                if c < 98 then (if c < 97 then Code(0x00007ffd, 15) else Code(0x00000003, 5)) else (if c < 99 then Code(0x00000023, 6) else Code(0x00000004, 5))
              ) else (
                if c < 102 then (if c < 101 then Code(0x00000024, 6) else Code(0x00000005, 5)) else (if c < 103 then Code(0x00000025, 6) else Code(0x00000026, 6))
              )
            ) else (
              if c < 108 then (
                if c < 106 then (if c < 105 then Code(0x00000027, 6) else Code(0x00000006, 5)) else (if c < 107 then Code(0x00000074, 7) else Code(0x00000075, 7))
              ) else (
                if c < 110 then (if c < 109 then Code(0x00000028, 6) else Code(0x00000029, 6)) else (if c < 111 then Code(0x0000002a, 6) else Code(0x00000007, 5))
              )
            )
          ) else (
            if c < 120 then (
              if c < 116 then (
                if c < 114 then (if c < 113 then Code(0x0000002b, 6) else Code(0x00000076, 7)) else (if c < 115 then Code(0x0000002c, 6) else Code(0x00000008, 5))
              ) else (
                if c < 118 then (if c < 117 then Code(0x00000009, 5) else Code(0x0000002d, 6)) else (if c < 119 then Code(0x00000077, 7) else Code(0x00000078, 7))
              )
            ) else (
              if c < 124 then (
                if c < 122 then (if c < 121 then Code(0x00000079, 7) else Code(0x0000007a, 7)) else (if c < 123 then Code(0x0000007b, 7) else Code(0x00007ffe, 15))
              ) else (
                if c < 126 then (if c < 125 then Code(0x000007fc, 11) else Code(0x00003ffd, 14)) else (if c < 127 then Code(0x00001ffd, 13) else Code(0x0ffffffc, 28))
              )
            )
          )
        )
      )
    ) else (
      if c < 192 then (
        if c < 160 then (
          if c < 144 then (
            if c < 136 then (
              if c < 132 then (
                if c < 130 then (if c < 129 then Code(0x000fffe6, 20) else Code(0x003fffd2, 22)) else (if c < 131 then Code(0x000fffe7, 20) else Code(0x000fffe8, 20))
              ) else (
                if c < 134 then (if c < 133 then Code(0x003fffd3, 22) else Code(0x003fffd4, 22)) else (if c < 135 then Code(0x003fffd5, 22) else Code(0x007fffd9, 23))
              )
            ) else (
              if c < 140 then (
                if c < 138 then (if c < 137 then Code(0x003fffd6, 22) else Code(0x007fffda, 23)) else (if c < 139 then Code(0x007fffdb, 23) else Code(0x007fffdc, 23))
              ) else (
                if c < 142 then (if c < 141 then Code(0x007fffdd, 23) else Code(0x007fffde, 23)) else (if c < 143 then Code(0x00ffffeb, 24) else Code(0x007fffdf, 23))
              )
            )
          ) else (
            if c < 152 then (
              if c < 148 then (
                if c < 146 then (if c < 145 then Code(0x00ffffec, 24) else Code(0x00ffffed, 24)) else (if c < 147 then Code(0x003fffd7, 22) else Code(0x007fffe0, 23))
              ) else (
                if c < 150 then (if c < 149 then Code(0x00ffffee, 24) else Code(0x007fffe1, 23)) else (if c < 151 then Code(0x007fffe2, 23) else Code(0x007fffe3, 23))
              )
            ) else (
              if c < 156 then (
                if c < 154 then (if c < 153 then Code(0x007fffe4, 23) else Code(0x001fffdc, 21)) else (if c < 155 then Code(0x003fffd8, 22) else Code(0x007fffe5, 23))
              ) else (
                if c < 158 then (if c < 157 then Code(0x003fffd9, 22) else Code(0x007fffe6, 23)) else (if c < 159 then Code(0x007fffe7, 23) else Code(0x00ffffef, 24))
              )
            )
          )
        ) else (
          if c < 176 then (
            if c < 168 then (
              if c < 164 then (
                if c < 162 then (if c < 161 then Code(0x003fffda, 22) else Code(0x001fffdd, 21)) else (if c < 163 then Code(0x000fffe9, 20) else Code(0x003fffdb, 22))
              ) else (
                if c < 166 then (if c < 165 then Code(0x003fffdc, 22) else Code(0x007fffe8, 23)) else (if c < 167 then Code(0x007fffe9, 23) else Code(0x001fffde, 21))
              )
            ) else (
              if c < 172 then (
                if c < 170 then (if c < 169 then Code(0x007fffea, 23) else Code(0x003fffdd, 22)) else (if c < 171 then Code(0x003fffde, 22) else Code(0x00fffff0, 24))
              ) else (
                if c < 174 then (if c < 173 then Code(0x001fffdf, 21) else Code(0x003fffdf, 22)) else (if c < 175 then Code(0x007fffeb, 23) else Code(0x007fffec, 23))
              )
            )
          ) else (
            if c < 184 then (
              if c < 180 then (
                if c < 178 then (if c < 177 then Code(0x001fffe0, 21) else Code(0x001fffe1, 21)) else (if c < 179 then Code(0x003fffe0, 22) else Code(0x001fffe2, 21))
              ) else (
                if c < 182 then (if c < 181 then Code(0x007fffed, 23) else Code(0x003fffe1, 22)) else (if c < 183 then Code(0x007fffee, 23) else Code(0x007fffef, 23))
              )
            ) else (
              if c < 188 then (
                if c < 186 then (if c < 185 then Code(0x000fffea, 20) else Code(0x003fffe2, 22)) else (if c < 187 then Code(0x003fffe3, 22) else Code(0x003fffe4, 22))
              ) else (
                if c < 190 then (if c < 189 then Code(0x007ffff0, 23) else Code(0x003fffe5, 22)) else (if c < 191 then Code(0x003fffe6, 22) else Code(0x007ffff1, 23))
              )
            )
          )
        )
      ) else (
        if c < 224 then (
          if c < 208 then (
            if c < 200 then (
              if c < 196 then (
                if c < 194 then (if c < 193 then Code(0x03ffffe0, 26) else Code(0x03ffffe1, 26)) else (if c < 195 then Code(0x000fffeb, 20) else Code(0x0007fff1, 19))
              ) else (
                if c < 198 then (if c < 197 then Code(0x003fffe7, 22) else Code(0x007ffff2, 23)) else (if c < 199 then Code(0x003fffe8, 22) else Code(0x01ffffec, 25))
              )
            ) else (
              if c < 204 then (
                if c < 202 then (if c < 201 then Code(0x03ffffe2, 26) else Code(0x03ffffe3, 26)) else (if c < 203 then Code(0x03ffffe4, 26) else Code(0x07ffffde, 27))
              ) else (
                if c < 206 then (if c < 205 then Code(0x07ffffdf, 27) else Code(0x03ffffe5, 26)) else (if c < 207 then Code(0x00fffff1, 24) else Code(0x01ffffed, 25))
              )
            )
          ) else (
            if c < 216 then (
              if c < 212 then (
                if c < 210 then (if c < 209 then Code(0x0007fff2, 19) else Code(0x001fffe3, 21)) else (if c < 211 then Code(0x03ffffe6, 26) else Code(0x07ffffe0, 27))
              ) else (
                if c < 214 then (if c < 213 then Code(0x07ffffe1, 27) else Code(0x03ffffe7, 26)) else (if c < 215 then Code(0x07ffffe2, 27) else Code(0x00fffff2, 24))
              )
            ) else (
              if c < 220 then (
                if c < 218 then (if c < 217 then Code(0x001fffe4, 21) else Code(0x001fffe5, 21)) else (if c < 219 then Code(0x03ffffe8, 26) else Code(0x03ffffe9, 26))
              ) else (
                if c < 222 then (if c < 221 then Code(0x0ffffffd, 28) else Code(0x07ffffe3, 27)) else (if c < 223 then Code(0x07ffffe4, 27) else Code(0x07ffffe5, 27))
              )
            )
          )
        ) else (
          if c < 240 then (
            if c < 232 then (
              if c < 228 then (
                if c < 226 then (if c < 225 then Code(0x000fffec, 20) else Code(0x00fffff3, 24)) else (if c < 227 then Code(0x000fffed, 20) else Code(0x001fffe6, 21))
              ) else (
                if c < 230 then (if c < 229 then Code(0x003fffe9, 22) else Code(0x001fffe7, 21)) else (if c < 231 then Code(0x001fffe8, 21) else Code(0x007ffff3, 23))
              )
            ) else (
              if c < 236 then (
                if c < 234 then (if c < 233 then Code(0x003fffea, 22) else Code(0x003fffeb, 22)) else (if c < 235 then Code(0x01ffffee, 25) else Code(0x01ffffef, 25))
              ) else (
                if c < 238 then (if c < 237 then Code(0x00fffff4, 24) else Code(0x00fffff5, 24)) else (if c < 239 then Code(0x03ffffea, 26) else Code(0x007ffff4, 23))
              )
            )
          ) else (
            if c < 248 then (
              if c < 244 then (
                if c < 242 then (if c < 241 then Code(0x03ffffeb, 26) else Code(0x07ffffe6, 27)) else (if c < 243 then Code(0x03ffffec, 26) else Code(0x03ffffed, 26))
              ) else (
                if c < 246 then (if c < 245 then Code(0x07ffffe7, 27) else Code(0x07ffffe8, 27)) else (if c < 247 then Code(0x07ffffe9, 27) else Code(0x07ffffea, 27))
              )
            ) else (
              if c < 252 then (
                if c < 250 then (if c < 249 then Code(0x07ffffeb, 27) else Code(0x0ffffffe, 28)) else (if c < 251 then Code(0x07ffffec, 27) else Code(0x07ffffed, 27))
              ) else (
                if c < 254 then (if c < 253 then Code(0x07ffffee, 27) else Code(0x07ffffef, 27)) else (if c < 255 then Code(0x07fffff0, 27) else Code(0x03ffffee, 26))
              )
            )
          )
        )
      )
    )
  }
}
