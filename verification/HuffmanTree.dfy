/**
 The prefix code as a tree. Its 256 inner nodes carry the numbers the automaton gives its
 states, the root being 0; its 257 leaves are the symbols. The bits that lead to a node are
 kept as a path number: a one followed by those bits.
 */
module HuffmanTree {
  import opened HuffmanCodes

  datatype Target = Go(state: nat) | Emit(sym: nat)

  /** What the bit 0 leads to. */
  function Zero(s: nat): Target
    requires s < 256
  {
    if s < 128 then (
      if s < 64 then (
        if s < 32 then (
          if s < 16 then (
            if s < 8 then (
              if s < 4 then (
                if s < 2 then (if s < 1 then Go(1) else Go(2)) else (if s < 3 then Go(3) else Go(4))
              ) else (
                if s < 6 then (if s < 5 then Emit(48) else Emit(50)) else (if s < 7 then Go(7) else Emit(99))
              )
            ) else (
              if s < 12 then (
                if s < 10 then (if s < 9 then Emit(105) else Go(10)) else (if s < 11 then Go(11) else Emit(115))
              ) else (
                if s < 14 then (if s < 13 then Go(13) else Emit(32)) else (if s < 15 then Emit(45) else Go(16))
              )
            )
          ) else (
            if s < 24 then (
              if s < 20 then (
                if s < 18 then (if s < 17 then Go(17) else Emit(47)) else (if s < 19 then Emit(52) else Go(20))
              ) else (
                if s < 22 then (if s < 21 then Emit(54) else Emit(56)) else (if s < 23 then Go(23) else Go(24))
              )
            ) else (
              if s < 28 then (
                if s < 26 then (if s < 25 then Go(25) else Go(26)) else (if s < 27 then Emit(61) else Emit(95))
              ) else (
                if s < 30 then (if s < 29 then Go(29) else Emit(100)) else (if s < 31 then Emit(103) else Go(32))
              )
            )
          )
        ) else (
          if s < 48 then (
            if s < 40 then (
              if s < 36 then (
                if s < 34 then (if s < 33 then Go(33) else Emit(108)) else (if s < 35 then Emit(110) else Go(36))
              ) else (
                if s < 38 then (if s < 37 then Emit(114) else Go(38)) else (if s < 39 then Emit(58) else Emit(67))
              )
            ) else (
              if s < 44 then (
                if s < 42 then (if s < 41 then Go(41) else Go(42)) else (if s < 43 then Go(43) else Go(44))
              ) else (
                if s < 46 then (if s < 45 then Emit(69) else Emit(71)) else (if s < 47 then Go(47) else Emit(73))
              )
            )
          ) else (
            if s < 56 then (
              if s < 52 then (
                if s < 50 then (if s < 49 then Emit(75) else Go(50)) else (if s < 51 then Go(51) else Emit(77))
              ) else (
                if s < 54 then (if s < 53 then Emit(79) else Go(54)) else (if s < 55 then Emit(81) else Emit(83))
              )
            ) else (
              if s < 60 then (
                if s < 58 then (if s < 57 then Go(57) else Go(58)) else (if s < 59 then Go(59) else Emit(85))
              ) else (
                if s < 62 then (if s < 61 then Emit(87) else Go(62)) else (if s < 63 then Emit(106) else Emit(113))
              )
            )
          )
        )
      ) else (
        if s < 96 then (
          if s < 80 then (
            if s < 72 then (
              if s < 68 then (
                if s < 66 then (if s < 65 then Go(65) else Go(66)) else (if s < 67 then Emit(119) else Emit(121))
              ) else (
                if s < 70 then (if s < 69 then Go(69) else Go(70)) else (if s < 71 then Emit(38) else Emit(44))
              )
            ) else (
              if s < 76 then (
                if s < 74 then (if s < 73 then Go(73) else Emit(88)) else (if s < 75 then Go(75) else Go(76))
              ) else (
                if s < 78 then (if s < 77 then Emit(33) else Emit(40)) else (if s < 79 then Go(79) else Emit(63))
              )
            )
          ) else (
            if s < 88 then (
              if s < 84 then (
                if s < 82 then (if s < 81 then Emit(39) else Go(82)) else (if s < 83 then Emit(124) else Emit(35))
              ) else (
                if s < 86 then (if s < 85 then Go(85) else Go(86)) else (if s < 87 then Emit(0) else Emit(64))
              )
            ) else (
              if s < 92 then (
                if s < 90 then (if s < 89 then Go(89) else Emit(93)) else (if s < 91 then Go(91) else Emit(94))
              ) else (
                if s < 94 then (if s < 93 then Go(93) else Emit(60)) else (if s < 95 then Emit(123) else Go(96))
              )
            )
          )
        ) else (
          if s < 112 then (
            if s < 104 then (
              if s < 100 then (
                if s < 98 then (if s < 97 then Go(97) else Go(98)) else (if s < 99 then Emit(92) else Emit(208))
              ) else (
                if s < 102 then (if s < 101 then Emit(128) else Go(102)) else (if s < 103 then Go(103) else Emit(131))
              )
            ) else (
              if s < 108 then (
                if s < 106 then (if s < 105 then Emit(184) else Go(106)) else (if s < 107 then Emit(224) else Go(108))
              ) else (
                if s < 110 then (if s < 109 then Emit(153) else Emit(167)) else (if s < 111 then Go(111) else Go(112))
              )
            )
          ) else (
            if s < 120 then (
              if s < 116 then (
                if s < 114 then (if s < 113 then Go(113) else Go(114)) else (if s < 115 then Emit(176) else Emit(179))
              ) else (
                if s < 118 then (if s < 117 then Go(117) else Emit(216)) else (if s < 119 then Emit(227) else Go(120))
              )
            ) else (
              if s < 124 then (
                if s < 122 then (if s < 121 then Go(121) else Emit(230)) else (if s < 123 then Emit(129) else Go(124))
              ) else (
                if s < 126 then (if s < 125 then Emit(133) else Emit(136)) else (if s < 127 then Go(127) else Go(128))
              )
            )
          )
        )
      )
    ) else (
      if s < 192 then (
        if s < 160 then (
          if s < 144 then (
            if s < 136 then (
              if s < 132 then (
                if s < 130 then (if s < 129 then Emit(154) else Emit(160)) else (if s < 131 then Go(131) else Emit(164))
              ) else (
                if s < 134 then (if s < 133 then Emit(170) else Go(134)) else (if s < 135 then Go(135) else Go(136))
              )
            ) else (
              if s < 140 then (
                if s < 138 then (if s < 137 then Go(137) else Emit(178)) else (if s < 139 then Emit(185) else Go(140))
              ) else (
                if s < 142 then (if s < 141 then Emit(187) else Emit(190)) else (if s < 143 then Go(143) else Go(144))
              )
            )
          ) else (
            if s < 152 then (
              if s < 148 then (
                if s < 146 then (if s < 145 then Emit(198) else Emit(232)) else (if s < 147 then Go(147) else Go(148))
              ) else (
                if s < 150 then (if s < 149 then Emit(1) else Emit(137)) else (if s < 151 then Go(151) else Emit(139))
              )
            ) else (
              if s < 156 then (
                if s < 154 then (if s < 153 then Emit(141) else Go(154)) else (if s < 155 then Go(155) else Go(156))
              ) else (
                if s < 158 then (if s < 157 then Go(157) else Emit(147)) else (if s < 159 then Emit(150) else Go(160))
              )
            )
          )
        ) else (
          if s < 176 then (
            if s < 168 then (
              if s < 164 then (
                if s < 162 then (if s < 161 then Emit(152) else Emit(157)) else (if s < 163 then Go(163) else Go(164))
              ) else (
                if s < 166 then (if s < 165 then Emit(165) else Emit(168)) else (if s < 167 then Go(167) else Emit(175))
              )
            ) else (
              if s < 172 then (
                if s < 170 then (if s < 169 then Emit(182) else Go(170)) else (if s < 171 then Go(171) else Go(172))
              ) else (
                if s < 174 then (if s < 173 then Emit(188) else Emit(197)) else (if s < 175 then Go(175) else Emit(239))
              )
            )
          ) else (
            if s < 184 then (
              if s < 180 then (
                if s < 178 then (if s < 177 then Emit(9) else Go(178)) else (if s < 179 then Emit(144) else Emit(148))
              ) else (
                if s < 182 then (if s < 181 then Go(181) else Go(182)) else (if s < 183 then Go(183) else Emit(171))
              )
            ) else (
              if s < 188 then (
                if s < 186 then (if s < 185 then Emit(215) else Go(186)) else (if s < 187 then Emit(236) else Go(188))
              ) else (
                if s < 190 then (if s < 189 then Emit(199) else Emit(234)) else (if s < 191 then Go(191) else Go(192))
              )
            )
          )
        )
      ) else (
        if s < 224 then (
          if s < 208 then (
            if s < 200 then (
              if s < 196 then (
                if s < 194 then (if s < 193 then Go(193) else Go(194)) else (if s < 195 then Emit(192) else Emit(200))
              ) else (
                if s < 198 then (if s < 197 then Go(197) else Emit(202)) else (if s < 199 then Emit(210) else Go(200))
              )
            ) else (
              if s < 204 then (
                if s < 202 then (if s < 201 then Go(201) else Emit(218)) else (if s < 203 then Emit(238) else Go(204))
              ) else (
                if s < 206 then (if s < 205 then Emit(242) else Emit(255)) else (if s < 207 then Emit(203) else Go(208))
              )
            )
          ) else (
            if s < 216 then (
              if s < 212 then (
                if s < 210 then (if s < 209 then Go(209) else Go(210)) else (if s < 211 then Go(211) else Emit(211))
              ) else (
                if s < 214 then (if s < 213 then Emit(214) else Go(214)) else (if s < 215 then Emit(222) else Emit(241))
              )
            ) else (
              if s < 220 then (
                if s < 218 then (if s < 217 then Go(217) else Go(218)) else (if s < 219 then Emit(245) else Emit(247))
              ) else (
                if s < 222 then (if s < 221 then Go(221) else Emit(250)) else (if s < 223 then Emit(252) else Go(224))
              )
            )
          )
        ) else (
          if s < 240 then (
            if s < 232 then (
              if s < 228 then (
                if s < 226 then (if s < 225 then Go(225) else Go(226)) else (if s < 227 then Emit(254) else Emit(2))
              ) else (
                if s < 230 then (if s < 229 then Go(229) else Emit(4)) else (if s < 231 then Emit(6) else Go(232))
              )
            ) else (
              if s < 236 then (
                if s < 234 then (if s < 233 then Go(233) else Emit(8)) else (if s < 235 then Emit(12) else Go(236))
              ) else (
                if s < 238 then (if s < 237 then Emit(15) else Emit(17)) else (if s < 239 then Go(239) else Go(240))
              )
            )
          ) else (
            if s < 248 then (
              if s < 244 then (
                if s < 242 then (if s < 241 then Go(241) else Emit(19)) else (if s < 243 then Emit(21) else Go(244))
              ) else (
                if s < 246 then (if s < 245 then Emit(24) else Emit(26)) else (if s < 247 then Go(247) else Go(248))
              )
            ) else (
              if s < 252 then (
                if s < 250 then (if s < 249 then Emit(28) else Emit(30)) else (if s < 251 then Go(251) else Emit(127))
              ) else (
                if s < 254 then (if s < 253 then Emit(249) else Go(254)) else (if s < 255 then Emit(10) else Emit(22))
              )
            )
          )
        )
      )
    )
  }

  /** What the bit 1 leads to. */
  function One(s: nat): Target
    requires s < 256
  {
    if s < 128 then (
      if s < 64 then (
        if s < 32 then (
          if s < 16 then (
            if s < 8 then (
              if s < 4 then (
                if s < 2 then (if s < 1 then Go(22) else Go(9)) else (if s < 3 then Go(6) else Go(5))
              ) else (
                if s < 6 then (if s < 5 then Emit(49) else Emit(97)) else (if s < 7 then Go(8) else Emit(101))
              )
            ) else (
              if s < 12 then (
                if s < 10 then (if s < 9 then Emit(111) else Go(15)) else (if s < 11 then Go(12) else Emit(116))
              ) else (
                if s < 14 then (if s < 13 then Go(14) else Emit(37)) else (if s < 15 then Emit(46) else Go(19))
              )
            )
          ) else (
            if s < 24 then (
              if s < 20 then (
                if s < 18 then (if s < 17 then Go(18) else Emit(51)) else (if s < 19 then Emit(53) else Go(21))
              ) else (
                if s < 22 then (if s < 21 then Emit(55) else Emit(57)) else (if s < 23 then Go(40) else Go(31))
              )
            ) else (
              if s < 28 then (
                if s < 26 then (if s < 25 then Go(28) else Go(27)) else (if s < 27 then Emit(65) else Emit(98))
              ) else (
                if s < 30 then (if s < 29 then Go(30) else Emit(102)) else (if s < 31 then Emit(104) else Go(35))
              )
            )
          )
        ) else (
          if s < 48 then (
            if s < 40 then (
              if s < 36 then (
                if s < 34 then (if s < 33 then Go(34) else Emit(109)) else (if s < 35 then Emit(112) else Go(37))
              ) else (
                if s < 38 then (if s < 37 then Emit(117) else Go(39)) else (if s < 39 then Emit(66) else Emit(68))
              )
            ) else (
              if s < 44 then (
                if s < 42 then (if s < 41 then Go(56) else Go(49)) else (if s < 43 then Go(46) else Go(45))
              ) else (
                if s < 46 then (if s < 45 then Emit(70) else Emit(72)) else (if s < 47 then Go(48) else Emit(74))
              )
            )
          ) else (
            if s < 56 then (
              if s < 52 then (
                if s < 50 then (if s < 49 then Emit(76) else Go(53)) else (if s < 51 then Go(52) else Emit(78))
              ) else (
                if s < 54 then (if s < 53 then Emit(80) else Go(55)) else (if s < 55 then Emit(82) else Emit(84))
              )
            ) else (
              if s < 60 then (
                if s < 58 then (if s < 57 then Go(64) else Go(61)) else (if s < 59 then Go(60) else Emit(86))
              ) else (
                if s < 62 then (if s < 61 then Emit(89) else Go(63)) else (if s < 63 then Emit(107) else Emit(118))
              )
            )
          )
        )
      ) else (
        if s < 96 then (
          if s < 80 then (
            if s < 72 then (
              if s < 68 then (
                if s < 66 then (if s < 65 then Go(68) else Go(67)) else (if s < 67 then Emit(120) else Emit(122))
              ) else (
                if s < 70 then (if s < 69 then Go(72) else Go(71)) else (if s < 71 then Emit(42) else Emit(59))
              )
            ) else (
              if s < 76 then (
                if s < 74 then (if s < 73 then Go(74) else Emit(90)) else (if s < 75 then Go(78) else Go(77))
              ) else (
                if s < 78 then (if s < 77 then Emit(34) else Emit(41)) else (if s < 79 then Go(81) else Go(80))
              )
            )
          ) else (
            if s < 88 then (
              if s < 84 then (
                if s < 82 then (if s < 81 then Emit(43) else Go(84)) else (if s < 83 then Go(83) else Emit(62))
              ) else (
                if s < 86 then (if s < 85 then Go(88) else Go(87)) else (if s < 87 then Emit(36) else Emit(91))
              )
            ) else (
              if s < 92 then (
                if s < 90 then (if s < 89 then Go(90) else Emit(126)) else (if s < 91 then Go(92) else Emit(125))
              ) else (
                if s < 94 then (if s < 93 then Go(94) else Emit(96)) else (if s < 95 then Go(95) else Go(110))
              )
            )
          )
        ) else (
          if s < 112 then (
            if s < 104 then (
              if s < 100 then (
                if s < 98 then (if s < 97 then Go(101) else Go(99)) else (if s < 99 then Emit(195) else Go(100))
              ) else (
                if s < 102 then (if s < 101 then Emit(130) else Go(105)) else (if s < 103 then Go(104) else Emit(162))
              )
            ) else (
              if s < 108 then (
                if s < 106 then (if s < 105 then Emit(194) else Go(107)) else (if s < 107 then Emit(226) else Go(109))
              ) else (
                if s < 110 then (if s < 109 then Emit(161) else Emit(172)) else (if s < 111 then Go(133) else Go(119))
              )
            )
          ) else (
            if s < 120 then (
              if s < 116 then (
                if s < 114 then (if s < 113 then Go(116) else Go(115)) else (if s < 115 then Emit(177) else Emit(209))
              ) else (
                if s < 118 then (if s < 117 then Go(118) else Emit(217)) else (if s < 119 then Emit(229) else Go(126))
              )
            ) else (
              if s < 124 then (
                if s < 122 then (if s < 121 then Go(123) else Go(122)) else (if s < 123 then Emit(132) else Go(125))
              ) else (
                if s < 126 then (if s < 125 then Emit(134) else Emit(146)) else (if s < 127 then Go(130) else Go(129))
              )
            )
          )
        )
      )
    ) else (
      if s < 192 then (
        if s < 160 then (
          if s < 144 then (
            if s < 136 then (
              if s < 132 then (
                if s < 130 then (if s < 129 then Emit(156) else Emit(163)) else (if s < 131 then Go(132) else Emit(169))
              ) else (
                if s < 134 then (if s < 133 then Emit(173) else Go(153)) else (if s < 135 then Go(142) else Go(139))
              )
            ) else (
              if s < 140 then (
                if s < 138 then (if s < 137 then Go(138) else Emit(181)) else (if s < 139 then Emit(186) else Go(141))
              ) else (
                if s < 142 then (if s < 141 then Emit(189) else Emit(196)) else (if s < 143 then Go(146) else Go(145))
              )
            )
          ) else (
            if s < 152 then (
              if s < 148 then (
                if s < 146 then (if s < 145 then Emit(228) else Emit(233)) else (if s < 147 then Go(150) else Go(149))
              ) else (
                if s < 150 then (if s < 149 then Emit(135) else Emit(138)) else (if s < 151 then Go(152) else Emit(140))
              )
            ) else (
              if s < 156 then (
                if s < 154 then (if s < 153 then Emit(143) else Go(169)) else (if s < 155 then Go(162) else Go(159))
              ) else (
                if s < 158 then (if s < 157 then Go(158) else Emit(149)) else (if s < 159 then Emit(151) else Go(161))
              )
            )
          )
        ) else (
          if s < 176 then (
            if s < 168 then (
              if s < 164 then (
                if s < 162 then (if s < 161 then Emit(155) else Emit(158)) else (if s < 163 then Go(166) else Go(165))
              ) else (
                if s < 166 then (if s < 165 then Emit(166) else Emit(174)) else (if s < 167 then Go(168) else Emit(180))
              )
            ) else (
              if s < 172 then (
                if s < 170 then (if s < 169 then Emit(183) else Go(180)) else (if s < 171 then Go(174) else Go(173))
              ) else (
                if s < 174 then (if s < 173 then Emit(191) else Emit(231)) else (if s < 175 then Go(177) else Go(176))
              )
            )
          ) else (
            if s < 184 then (
              if s < 180 then (
                if s < 178 then (if s < 177 then Emit(142) else Go(179)) else (if s < 179 then Emit(145) else Emit(159))
              ) else (
                if s < 182 then (if s < 181 then Go(190) else Go(185)) else (if s < 183 then Go(184) else Emit(206))
              )
            ) else (
              if s < 188 then (
                if s < 186 then (if s < 185 then Emit(225) else Go(187)) else (if s < 187 then Emit(237) else Go(189))
              ) else (
                if s < 190 then (if s < 189 then Emit(207) else Emit(235)) else (if s < 191 then Go(207) else Go(199))
              )
            )
          )
        )
      ) else (
        if s < 224 then (
          if s < 208 then (
            if s < 200 then (
              if s < 196 then (
                if s < 194 then (if s < 193 then Go(196) else Go(195)) else (if s < 195 then Emit(193) else Emit(201))
              ) else (
                if s < 198 then (if s < 197 then Go(198) else Emit(205)) else (if s < 199 then Emit(213) else Go(203))
              )
            ) else (
              if s < 204 then (
                if s < 202 then (if s < 201 then Go(202) else Emit(219)) else (if s < 203 then Emit(240) else Go(205))
              ) else (
                if s < 206 then (if s < 205 then Emit(243) else Go(206)) else (if s < 207 then Emit(204) else Go(223))
              )
            )
          ) else (
            if s < 216 then (
              if s < 212 then (
                if s < 210 then (if s < 209 then Go(216) else Go(213)) else (if s < 211 then Go(212) else Emit(212))
              ) else (
                if s < 214 then (if s < 213 then Emit(221) else Go(215)) else (if s < 215 then Emit(223) else Emit(244))
              )
            ) else (
              if s < 220 then (
                if s < 218 then (if s < 217 then Go(220) else Go(219)) else (if s < 219 then Emit(246) else Emit(248))
              ) else (
                if s < 222 then (if s < 221 then Go(222) else Emit(251)) else (if s < 223 then Emit(253) else Go(238))
              )
            )
          )
        ) else (
          if s < 240 then (
            if s < 232 then (
              if s < 228 then (
                if s < 226 then (if s < 225 then Go(231) else Go(228)) else (if s < 227 then Go(227) else Emit(3))
              ) else (
                if s < 230 then (if s < 229 then Go(230) else Emit(5)) else (if s < 231 then Emit(7) else Go(235))
              )
            ) else (
              if s < 236 then (
                if s < 234 then (if s < 233 then Go(234) else Emit(11)) else (if s < 235 then Emit(14) else Go(237))
              ) else (
                if s < 238 then (if s < 237 then Emit(16) else Emit(18)) else (if s < 239 then Go(246) else Go(243))
              )
            )
          ) else (
            if s < 248 then (
              if s < 244 then (
                if s < 242 then (if s < 241 then Go(242) else Emit(20)) else (if s < 243 then Emit(23) else Go(245))
              ) else (
                if s < 246 then (if s < 245 then Emit(25) else Emit(27)) else (if s < 247 then Go(250) else Go(249))
              )
            ) else (
              if s < 252 then (
                if s < 250 then (if s < 249 then Emit(29) else Emit(31)) else (if s < 251 then Go(252) else Emit(220))
              ) else (
                if s < 254 then (if s < 253 then Go(253) else Go(255)) else (if s < 255 then Emit(13) else Emit(256))
              )
            )
          )
        )
      )
    )
  }

  /** The path number of an inner node. */
  function PathOf(s: nat): nat
    requires s < 256
  {
    if s < 128 then (
      if s < 64 then (
        if s < 32 then (
          if s < 16 then (
            if s < 8 then (
              if s < 4 then (
                if s < 2 then (if s < 1 then 0x00000001 else 0x00000002) else (if s < 3 then 0x00000004 else 0x00000008)
              ) else (
                if s < 6 then (if s < 5 then 0x00000010 else 0x00000011) else (if s < 7 then 0x00000009 else 0x00000012)
              )
            ) else (
              if s < 12 then (
                if s < 10 then (if s < 9 then 0x00000013 else 0x00000005) else (if s < 11 then 0x0000000a else 0x00000014)
              ) else (
                if s < 14 then (if s < 13 then 0x00000015 else 0x0000002a) else (if s < 15 then 0x0000002b else 0x0000000b)
              )
            )
          ) else (
            if s < 24 then (
              if s < 20 then (
                if s < 18 then (if s < 17 then 0x00000016 else 0x0000002c) else (if s < 19 then 0x0000002d else 0x00000017)
              ) else (
                if s < 22 then (if s < 21 then 0x0000002e else 0x0000002f) else (if s < 23 then 0x00000003 else 0x00000006)
              )
            ) else (
              if s < 28 then (
                if s < 26 then (if s < 25 then 0x0000000c else 0x00000018) else (if s < 27 then 0x00000030 else 0x00000031)
              ) else (
                if s < 30 then (if s < 29 then 0x00000019 else 0x00000032) else (if s < 31 then 0x00000033 else 0x0000000d)
              )
            )
          )
        ) else (
          if s < 48 then (
            if s < 40 then (
              if s < 36 then (
                if s < 34 then (if s < 33 then 0x0000001a else 0x00000034) else (if s < 35 then 0x00000035 else 0x0000001b)
              ) else (
                if s < 38 then (if s < 37 then 0x00000036 else 0x00000037) else (if s < 39 then 0x0000006e else 0x0000006f)
              )
            ) else (
              if s < 44 then (
                if s < 42 then (if s < 41 then 0x00000007 else 0x0000000e) else (if s < 43 then 0x0000001c else 0x00000038)
              ) else (
                if s < 46 then (if s < 45 then 0x00000070 else 0x00000071) else (if s < 47 then 0x00000039 else 0x00000072)
              )
            )
          ) else (
            if s < 56 then (
              if s < 52 then (
                if s < 50 then (if s < 49 then 0x00000073 else 0x0000001d) else (if s < 51 then 0x0000003a else 0x00000074)
              ) else (
                if s < 54 then (if s < 53 then 0x00000075 else 0x0000003b) else (if s < 55 then 0x00000076 else 0x00000077)
              )
            ) else (
              if s < 60 then (
                if s < 58 then (if s < 57 then 0x0000000f else 0x0000001e) else (if s < 59 then 0x0000003c else 0x00000078)
              ) else (
                if s < 62 then (if s < 61 then 0x00000079 else 0x0000003d) else (if s < 63 then 0x0000007a else 0x0000007b)
              )
            )
          )
        )
      ) else (
        if s < 96 then (
          if s < 80 then (
            if s < 72 then (
              if s < 68 then (
                if s < 66 then (if s < 65 then 0x0000001f else 0x0000003e) else (if s < 67 then 0x0000007c else 0x0000007d)
              ) else (
                if s < 70 then (if s < 69 then 0x0000003f else 0x0000007e) else (if s < 71 then 0x000000fc else 0x000000fd)
              )
            ) else (
              if s < 76 then (
                if s < 74 then (if s < 73 then 0x0000007f else 0x000000fe) else (if s < 75 then 0x000000ff else 0x000001fe)
              ) else (
                if s < 78 then (if s < 77 then 0x000003fc else 0x000003fd) else (if s < 79 then 0x000001ff else 0x000003fe)
              )
            )
          ) else (
            if s < 88 then (
              if s < 84 then (
                if s < 82 then (if s < 81 then 0x000007fd else 0x000003ff) else (if s < 83 then 0x000007fe else 0x00000ffd)
              ) else (
                if s < 86 then (if s < 85 then 0x000007ff else 0x00000ffe) else (if s < 87 then 0x00001ffc else 0x00001ffd)
              )
            ) else (
              if s < 92 then (
                if s < 90 then (if s < 89 then 0x00000fff else 0x00001ffe) else (if s < 91 then 0x00001fff else 0x00003ffe)
              ) else (
                if s < 94 then (if s < 93 then 0x00003fff else 0x00007ffe) else (if s < 95 then 0x00007fff else 0x0000ffff)
              )
            )
          )
        ) else (
          if s < 112 then (
            if s < 104 then (
              if s < 100 then (
                if s < 98 then (if s < 97 then 0x0001fffe else 0x0003fffc) else (if s < 99 then 0x0007fff8 else 0x0007fff9)
              ) else (
                if s < 102 then (if s < 101 then 0x000ffff3 else 0x0003fffd) else (if s < 103 then 0x0007fffa else 0x000ffff4)
              )
            ) else (
              if s < 108 then (
                if s < 106 then (if s < 105 then 0x000ffff5 else 0x0007fffb) else (if s < 107 then 0x000ffff6 else 0x000ffff7)
              ) else (
                if s < 110 then (if s < 109 then 0x001fffee else 0x001fffef) else (if s < 111 then 0x0001ffff else 0x0003fffe)
              )
            )
          ) else (
            if s < 120 then (
              if s < 116 then (
                if s < 114 then (if s < 113 then 0x0007fffc else 0x000ffff8) else (if s < 115 then 0x001ffff0 else 0x001ffff1)
              ) else (
                if s < 118 then (if s < 117 then 0x000ffff9 else 0x001ffff2) else (if s < 119 then 0x001ffff3 else 0x0007fffd)
              )
            ) else (
              if s < 124 then (
                if s < 122 then (if s < 121 then 0x000ffffa else 0x001ffff4) else (if s < 123 then 0x003fffe9 else 0x001ffff5)
              ) else (
                if s < 126 then (if s < 125 then 0x003fffea else 0x003fffeb) else (if s < 127 then 0x000ffffb else 0x001ffff6)
              )
            )
          )
        )
      )
    ) else (
      if s < 192 then (
        if s < 160 then (
          if s < 144 then (
            if s < 136 then (
              if s < 132 then (
                if s < 130 then (if s < 129 then 0x003fffec else 0x003fffed) else (if s < 131 then 0x001ffff7 else 0x003fffee)
              ) else (
                if s < 134 then (if s < 133 then 0x003fffef else 0x0003ffff) else (if s < 135 then 0x0007fffe else 0x000ffffc)
              )
            ) else (
              if s < 140 then (
                if s < 138 then (if s < 137 then 0x001ffff8 else 0x003ffff0) else (if s < 139 then 0x003ffff1 else 0x001ffff9)
              ) else (
                if s < 142 then (if s < 141 then 0x003ffff2 else 0x003ffff3) else (if s < 143 then 0x000ffffd else 0x001ffffa)
              )
            )
          ) else (
            if s < 152 then (
              if s < 148 then (
                if s < 146 then (if s < 145 then 0x003ffff4 else 0x003ffff5) else (if s < 147 then 0x001ffffb else 0x003ffff6)
              ) else (
                if s < 150 then (if s < 149 then 0x007fffec else 0x007fffed) else (if s < 151 then 0x003ffff7 else 0x007fffee)
              )
            ) else (
              if s < 156 then (
                if s < 154 then (if s < 153 then 0x007fffef else 0x0007ffff) else (if s < 155 then 0x000ffffe else 0x001ffffc)
              ) else (
                if s < 158 then (if s < 157 then 0x003ffff8 else 0x007ffff0) else (if s < 159 then 0x007ffff1 else 0x003ffff9)
              )
            )
          )
        ) else (
          if s < 176 then (
            if s < 168 then (
              if s < 164 then (
                if s < 162 then (if s < 161 then 0x007ffff2 else 0x007ffff3) else (if s < 163 then 0x001ffffd else 0x003ffffa)
              ) else (
                if s < 166 then (if s < 165 then 0x007ffff4 else 0x007ffff5) else (if s < 167 then 0x003ffffb else 0x007ffff6)
              )
            ) else (
              if s < 172 then (
                if s < 170 then (if s < 169 then 0x007ffff7 else 0x000fffff) else (if s < 171 then 0x001ffffe else 0x003ffffc)
              ) else (
                if s < 174 then (if s < 173 then 0x007ffff8 else 0x007ffff9) else (if s < 175 then 0x003ffffd else 0x007ffffa)
              )
            )
          ) else (
            if s < 184 then (
              if s < 180 then (
                if s < 178 then (if s < 177 then 0x00fffff5 else 0x007ffffb) else (if s < 179 then 0x00fffff6 else 0x00fffff7)
              ) else (
                if s < 182 then (if s < 181 then 0x001fffff else 0x003ffffe) else (if s < 183 then 0x007ffffc else 0x00fffff8)
              )
            ) else (
              if s < 188 then (
                if s < 186 then (if s < 185 then 0x00fffff9 else 0x007ffffd) else (if s < 187 then 0x00fffffa else 0x00fffffb)
              ) else (
                if s < 190 then (if s < 189 then 0x01fffff6 else 0x01fffff7) else (if s < 191 then 0x003fffff else 0x007ffffe)
              )
            )
          )
        )
      ) else (
        if s < 224 then (
          if s < 208 then (
            if s < 200 then (
              if s < 196 then (
                if s < 194 then (if s < 193 then 0x00fffffc else 0x01fffff8) else (if s < 195 then 0x03fffff0 else 0x03fffff1)
              ) else (
                if s < 198 then (if s < 197 then 0x01fffff9 else 0x03fffff2) else (if s < 199 then 0x03fffff3 else 0x00fffffd)
              )
            ) else (
              if s < 204 then (
                if s < 202 then (if s < 201 then 0x01fffffa else 0x03fffff4) else (if s < 203 then 0x03fffff5 else 0x01fffffb)
              ) else (
                if s < 206 then (if s < 205 then 0x03fffff6 else 0x03fffff7) else (if s < 207 then 0x07ffffef else 0x007fffff)
              )
            )
          ) else (
            if s < 216 then (
              if s < 212 then (
                if s < 210 then (if s < 209 then 0x00fffffe else 0x01fffffc) else (if s < 211 then 0x03fffff8 else 0x07fffff0)
              ) else (
                if s < 214 then (if s < 213 then 0x07fffff1 else 0x03fffff9) else (if s < 215 then 0x07fffff2 else 0x07fffff3)
              )
            ) else (
              if s < 220 then (
                if s < 218 then (if s < 217 then 0x01fffffd else 0x03fffffa) else (if s < 219 then 0x07fffff4 else 0x07fffff5)
              ) else (
                if s < 222 then (if s < 221 then 0x03fffffb else 0x07fffff6) else (if s < 223 then 0x07fffff7 else 0x00ffffff)
              )
            )
          )
        ) else (
          if s < 240 then (
            if s < 232 then (
              if s < 228 then (
                if s < 226 then (if s < 225 then 0x01fffffe else 0x03fffffc) else (if s < 227 then 0x07fffff8 else 0x0ffffff1)
              ) else (
                if s < 230 then (if s < 229 then 0x07fffff9 else 0x0ffffff2) else (if s < 231 then 0x0ffffff3 else 0x03fffffd)
              )
            ) else (
              if s < 236 then (
                if s < 234 then (if s < 233 then 0x07fffffa else 0x0ffffff4) else (if s < 235 then 0x0ffffff5 else 0x07fffffb)
              ) else (
                if s < 238 then (if s < 237 then 0x0ffffff6 else 0x0ffffff7) else (if s < 239 then 0x01ffffff else 0x03fffffe)
              )
            )
          ) else (
            if s < 248 then (
              if s < 244 then (
                if s < 242 then (if s < 241 then 0x07fffffc else 0x0ffffff8) else (if s < 243 then 0x0ffffff9 else 0x07fffffd)
              ) else (
                if s < 246 then (if s < 245 then 0x0ffffffa else 0x0ffffffb) else (if s < 247 then 0x03ffffff else 0x07fffffe)
              )
            ) else (
              if s < 252 then (
                if s < 250 then (if s < 249 then 0x0ffffffc else 0x0ffffffd) else (if s < 251 then 0x07ffffff else 0x0ffffffe)
              ) else (
                if s < 254 then (if s < 253 then 0x0fffffff else 0x1fffffff) else (if s < 255 then 0x3ffffffe else 0x3fffffff)
              )
            )
          )
        )
      )
    )
  }

  /** The parent of an inner node. */
  function UpOf(s: nat): nat
    requires s < 256
  {
    if s < 128 then (
      if s < 64 then (
        if s < 32 then (
          if s < 16 then (
            if s < 8 then (
              if s < 4 then (
                if s < 2 then (if s < 1 then 0 else 0) else (if s < 3 then 1 else 2)
              ) else (
                if s < 6 then (if s < 5 then 3 else 3) else (if s < 7 then 2 else 6)
              )
            ) else (
              if s < 12 then (
                if s < 10 then (if s < 9 then 6 else 1) else (if s < 11 then 9 else 10)
              ) else (
                if s < 14 then (if s < 13 then 10 else 12) else (if s < 15 then 12 else 9)
              )
            )
          ) else (
            if s < 24 then (
              if s < 20 then (
                if s < 18 then (if s < 17 then 15 else 16) else (if s < 19 then 16 else 15)
              ) else (
                if s < 22 then (if s < 21 then 19 else 19) else (if s < 23 then 0 else 22)
              )
            ) else (
              if s < 28 then (
                if s < 26 then (if s < 25 then 23 else 24) else (if s < 27 then 25 else 25)
              ) else (
                if s < 30 then (if s < 29 then 24 else 28) else (if s < 31 then 28 else 23)
              )
            )
          )
        ) else (
          if s < 48 then (
            if s < 40 then (
              if s < 36 then (
                if s < 34 then (if s < 33 then 31 else 32) else (if s < 35 then 32 else 31)
              ) else (
                if s < 38 then (if s < 37 then 35 else 35) else (if s < 39 then 37 else 37)
              )
            ) else (
              if s < 44 then (
                if s < 42 then (if s < 41 then 22 else 40) else (if s < 43 then 41 else 42)
              ) else (
                if s < 46 then (if s < 45 then 43 else 43) else (if s < 47 then 42 else 46)
              )
            )
          ) else (
            if s < 56 then (
              if s < 52 then (
                if s < 50 then (if s < 49 then 46 else 41) else (if s < 51 then 49 else 50)
              ) else (
                if s < 54 then (if s < 53 then 50 else 49) else (if s < 55 then 53 else 53)
              )
            ) else (
              if s < 60 then (
                if s < 58 then (if s < 57 then 40 else 56) else (if s < 59 then 57 else 58)
              ) else (
                if s < 62 then (if s < 61 then 58 else 57) else (if s < 63 then 61 else 61)
              )
            )
          )
        )
      ) else (
        if s < 96 then (
          if s < 80 then (
            if s < 72 then (
              if s < 68 then (
                if s < 66 then (if s < 65 then 56 else 64) else (if s < 67 then 65 else 65)
              ) else (
                if s < 70 then (if s < 69 then 64 else 68) else (if s < 71 then 69 else 69)
              )
            ) else (
              if s < 76 then (
                if s < 74 then (if s < 73 then 68 else 72) else (if s < 75 then 72 else 74)
              ) else (
                if s < 78 then (if s < 77 then 75 else 75) else (if s < 79 then 74 else 78)
              )
            )
          ) else (
            if s < 88 then (
              if s < 84 then (
                if s < 82 then (if s < 81 then 79 else 78) else (if s < 83 then 81 else 82)
              ) else (
                if s < 86 then (if s < 85 then 81 else 84) else (if s < 87 then 85 else 85)
              )
            ) else (
              if s < 92 then (
                if s < 90 then (if s < 89 then 84 else 88) else (if s < 91 then 88 else 90)
              ) else (
                if s < 94 then (if s < 93 then 90 else 92) else (if s < 95 then 92 else 94)
              )
            )
          )
        ) else (
          if s < 112 then (
            if s < 104 then (
              if s < 100 then (
                if s < 98 then (if s < 97 then 95 else 96) else (if s < 99 then 97 else 97)
              ) else (
                if s < 102 then (if s < 101 then 99 else 96) else (if s < 103 then 101 else 102)
              )
            ) else (
              if s < 108 then (
                if s < 106 then (if s < 105 then 102 else 101) else (if s < 107 then 105 else 105)
              ) else (
                if s < 110 then (if s < 109 then 107 else 107) else (if s < 111 then 95 else 110)
              )
            )
          ) else (
            if s < 120 then (
              if s < 116 then (
                if s < 114 then (if s < 113 then 111 else 112) else (if s < 115 then 113 else 113)
              ) else (
                if s < 118 then (if s < 117 then 112 else 116) else (if s < 119 then 116 else 111)
              )
            ) else (
              if s < 124 then (
                if s < 122 then (if s < 121 then 119 else 120) else (if s < 123 then 121 else 120)
              ) else (
                if s < 126 then (if s < 125 then 123 else 123) else (if s < 127 then 119 else 126)
              )
            )
          )
        )
      )
    ) else (
      if s < 192 then (
        if s < 160 then (
          if s < 144 then (
            if s < 136 then (
              if s < 132 then (
                if s < 130 then (if s < 129 then 127 else 127) else (if s < 131 then 126 else 130)
              ) else (
                if s < 134 then (if s < 133 then 130 else 110) else (if s < 135 then 133 else 134)
              )
            ) else (
              if s < 140 then (
                if s < 138 then (if s < 137 then 135 else 136) else (if s < 139 then 136 else 135)
              ) else (
                if s < 142 then (if s < 141 then 139 else 139) else (if s < 143 then 134 else 142)
              )
            )
          ) else (
            if s < 152 then (
              if s < 148 then (
                if s < 146 then (if s < 145 then 143 else 143) else (if s < 147 then 142 else 146)
              ) else (
                if s < 150 then (if s < 149 then 147 else 147) else (if s < 151 then 146 else 150)
              )
            ) else (
              if s < 156 then (
                if s < 154 then (if s < 153 then 150 else 133) else (if s < 155 then 153 else 154)
              ) else (
                if s < 158 then (if s < 157 then 155 else 156) else (if s < 159 then 156 else 155)
              )
            )
          )
        ) else (
          if s < 176 then (
            if s < 168 then (
              if s < 164 then (
                if s < 162 then (if s < 161 then 159 else 159) else (if s < 163 then 154 else 162)
              ) else (
                if s < 166 then (if s < 165 then 163 else 163) else (if s < 167 then 162 else 166)
              )
            ) else (
              if s < 172 then (
                if s < 170 then (if s < 169 then 166 else 153) else (if s < 171 then 169 else 170)
              ) else (
                if s < 174 then (if s < 173 then 171 else 171) else (if s < 175 then 170 else 174)
              )
            )
          ) else (
            if s < 184 then (
              if s < 180 then (
                if s < 178 then (if s < 177 then 175 else 174) else (if s < 179 then 177 else 177)
              ) else (
                if s < 182 then (if s < 181 then 169 else 180) else (if s < 183 then 181 else 182)
              )
            ) else (
              if s < 188 then (
                if s < 186 then (if s < 185 then 182 else 181) else (if s < 187 then 185 else 185)
              ) else (
                if s < 190 then (if s < 189 then 187 else 187) else (if s < 191 then 180 else 190)
              )
            )
          )
        )
      ) else (
        if s < 224 then (
          if s < 208 then (
            if s < 200 then (
              if s < 196 then (
                if s < 194 then (if s < 193 then 191 else 192) else (if s < 195 then 193 else 193)
              ) else (
                if s < 198 then (if s < 197 then 192 else 196) else (if s < 199 then 196 else 191)
              )
            ) else (
              if s < 204 then (
                if s < 202 then (if s < 201 then 199 else 200) else (if s < 203 then 200 else 199)
              ) else (
                if s < 206 then (if s < 205 then 203 else 203) else (if s < 207 then 205 else 190)
              )
            )
          ) else (
            if s < 216 then (
              if s < 212 then (
                if s < 210 then (if s < 209 then 207 else 208) else (if s < 211 then 209 else 210)
              ) else (
                if s < 214 then (if s < 213 then 210 else 209) else (if s < 215 then 213 else 213)
              )
            ) else (
              if s < 220 then (
                if s < 218 then (if s < 217 then 208 else 216) else (if s < 219 then 217 else 217)
              ) else (
                if s < 222 then (if s < 221 then 216 else 220) else (if s < 223 then 220 else 207)
              )
            )
          )
        ) else (
          if s < 240 then (
            if s < 232 then (
              if s < 228 then (
                if s < 226 then (if s < 225 then 223 else 224) else (if s < 227 then 225 else 226)
              ) else (
                if s < 230 then (if s < 229 then 225 else 228) else (if s < 231 then 228 else 224)
              )
            ) else (
              if s < 236 then (
                if s < 234 then (if s < 233 then 231 else 232) else (if s < 235 then 232 else 231)
              ) else (
                if s < 238 then (if s < 237 then 235 else 235) else (if s < 239 then 223 else 238)
              )
            )
          ) else (
            if s < 248 then (
              if s < 244 then (
                if s < 242 then (if s < 241 then 239 else 240) else (if s < 243 then 240 else 239)
              ) else (
                if s < 246 then (if s < 245 then 243 else 243) else (if s < 247 then 238 else 246)
              )
            ) else (
              if s < 252 then (
                if s < 250 then (if s < 249 then 247 else 247) else (if s < 251 then 246 else 250)
              ) else (
                if s < 254 then (if s < 253 then 250 else 252) else (if s < 255 then 253 else 253)
              )
            )
          )
        )
      )
    )
  }

  /** Whether only ones lead to an inner node. */
  function Ending(s: nat): bool
    requires s < 256
  {
    if s < 128 then (
      if s < 64 then (
        if s < 32 then (
          if s < 16 then (
            if s < 8 then (
              if s < 4 then (
                if s < 2 then (if s < 1 then true else false) else (if s < 3 then false else false)
              ) else (
                if s < 6 then (if s < 5 then false else false) else (if s < 7 then false else false)
              )
            ) else (
              if s < 12 then (
                if s < 10 then (if s < 9 then false else false) else (if s < 11 then false else false)
              ) else (
                if s < 14 then (if s < 13 then false else false) else (if s < 15 then false else false)
              )
            )
          ) else (
            if s < 24 then (
              if s < 20 then (
                if s < 18 then (if s < 17 then false else false) else (if s < 19 then false else false)
              ) else (
                if s < 22 then (if s < 21 then false else false) else (if s < 23 then true else false)
              )
            ) else (
              if s < 28 then (
                if s < 26 then (if s < 25 then false else false) else (if s < 27 then false else false)
              ) else (
                if s < 30 then (if s < 29 then false else false) else (if s < 31 then false else false)
              )
            )
          )
        ) else (
          if s < 48 then (
            if s < 40 then (
              if s < 36 then (
                if s < 34 then (if s < 33 then false else false) else (if s < 35 then false else false)
              ) else (
                if s < 38 then (if s < 37 then false else false) else (if s < 39 then false else false)
              )
            ) else (
              if s < 44 then (
                if s < 42 then (if s < 41 then true else false) else (if s < 43 then false else false)
              ) else (
                if s < 46 then (if s < 45 then false else false) else (if s < 47 then false else false)
              )
            )
          ) else (
            if s < 56 then (
              if s < 52 then (
                if s < 50 then (if s < 49 then false else false) else (if s < 51 then false else false)
              ) else (
                if s < 54 then (if s < 53 then false else false) else (if s < 55 then false else false)
              )
            ) else (
              if s < 60 then (
                if s < 58 then (if s < 57 then true else false) else (if s < 59 then false else false)
              ) else (
                if s < 62 then (if s < 61 then false else false) else (if s < 63 then false else false)
              )
            )
          )
        )
      ) else (
        if s < 96 then (
          if s < 80 then (
            if s < 72 then (
              if s < 68 then (
                if s < 66 then (if s < 65 then true else false) else (if s < 67 then false else false)
              ) else (
                if s < 70 then (if s < 69 then true else false) else (if s < 71 then false else false)
              )
            ) else (
              if s < 76 then (
                if s < 74 then (if s < 73 then true else false) else (if s < 75 then true else false)
              ) else (
                if s < 78 then (if s < 77 then false else false) else (if s < 79 then true else false)
              )
            )
          ) else (
            if s < 88 then (
              if s < 84 then (
                if s < 82 then (if s < 81 then false else true) else (if s < 83 then false else false)
              ) else (
                if s < 86 then (if s < 85 then true else false) else (if s < 87 then false else false)
              )
            ) else (
              if s < 92 then (
                if s < 90 then (if s < 89 then true else false) else (if s < 91 then true else false)
              ) else (
                if s < 94 then (if s < 93 then true else false) else (if s < 95 then true else true)
              )
            )
          )
        ) else (
          if s < 112 then (
            if s < 104 then (
              if s < 100 then (
                if s < 98 then (if s < 97 then false else false) else (if s < 99 then false else false)
              ) else (
                if s < 102 then (if s < 101 then false else false) else (if s < 103 then false else false)
              )
            ) else (
              if s < 108 then (
                if s < 106 then (if s < 105 then false else false) else (if s < 107 then false else false)
              ) else (
                if s < 110 then (if s < 109 then false else false) else (if s < 111 then true else false)
              )
            )
          ) else (
            if s < 120 then (
              if s < 116 then (
                if s < 114 then (if s < 113 then false else false) else (if s < 115 then false else false)
              ) else (
                if s < 118 then (if s < 117 then false else false) else (if s < 119 then false else false)
              )
            ) else (
              if s < 124 then (
                if s < 122 then (if s < 121 then false else false) else (if s < 123 then false else false)
              ) else (
                if s < 126 then (if s < 125 then false else false) else (if s < 127 then false else false)
              )
            )
          )
        )
      )
    ) else (
      if s < 192 then (
        if s < 160 then (
          if s < 144 then (
            if s < 136 then (
              if s < 132 then (
                if s < 130 then (if s < 129 then false else false) else (if s < 131 then false else false)
              ) else (
                if s < 134 then (if s < 133 then false else true) else (if s < 135 then false else false)
              )
            ) else (
              if s < 140 then (
                if s < 138 then (if s < 137 then false else false) else (if s < 139 then false else false)
              ) else (
                if s < 142 then (if s < 141 then false else false) else (if s < 143 then false else false)
              )
            )
          ) else (
            if s < 152 then (
              if s < 148 then (
                if s < 146 then (if s < 145 then false else false) else (if s < 147 then false else false)
              ) else (
                if s < 150 then (if s < 149 then false else false) else (if s < 151 then false else false)
              )
            ) else (
              if s < 156 then (
                if s < 154 then (if s < 153 then false else true) else (if s < 155 then false else false)
              ) else (
                if s < 158 then (if s < 157 then false else false) else (if s < 159 then false else false)
              )
            )
          )
        ) else (
          if s < 176 then (
            if s < 168 then (
              if s < 164 then (
                if s < 162 then (if s < 161 then false else false) else (if s < 163 then false else false)
              ) else (
                if s < 166 then (if s < 165 then false else false) else (if s < 167 then false else false)
              )
            ) else (
              if s < 172 then (
                if s < 170 then (if s < 169 then false else true) else (if s < 171 then false else false)
              ) else (
                if s < 174 then (if s < 173 then false else false) else (if s < 175 then false else false)
              )
            )
          ) else (
            if s < 184 then (
              if s < 180 then (
                if s < 178 then (if s < 177 then false else false) else (if s < 179 then false else false)
              ) else (
                if s < 182 then (if s < 181 then true else false) else (if s < 183 then false else false)
              )
            ) else (
              if s < 188 then (
                if s < 186 then (if s < 185 then false else false) else (if s < 187 then false else false)
              ) else (
                if s < 190 then (if s < 189 then false else false) else (if s < 191 then true else false)
              )
            )
          )
        )
      ) else (
        if s < 224 then (
          if s < 208 then (
            if s < 200 then (
              if s < 196 then (
                if s < 194 then (if s < 193 then false else false) else (if s < 195 then false else false)
              ) else (
                if s < 198 then (if s < 197 then false else false) else (if s < 199 then false else false)
              )
            ) else (
              if s < 204 then (
                if s < 202 then (if s < 201 then false else false) else (if s < 203 then false else false)
              ) else (
                if s < 206 then (if s < 205 then false else false) else (if s < 207 then false else true)
              )
            )
          ) else (
            if s < 216 then (
              if s < 212 then (
                if s < 210 then (if s < 209 then false else false) else (if s < 211 then false else false)
              ) else (
                if s < 214 then (if s < 213 then false else false) else (if s < 215 then false else false)
              )
            ) else (
              if s < 220 then (
                if s < 218 then (if s < 217 then false else false) else (if s < 219 then false else false)
              ) else (
                if s < 222 then (if s < 221 then false else false) else (if s < 223 then false else true)
              )
            )
          )
        ) else (
          if s < 240 then (
            if s < 232 then (
              if s < 228 then (
                if s < 226 then (if s < 225 then false else false) else (if s < 227 then false else false)
              ) else (
                if s < 230 then (if s < 229 then false else false) else (if s < 231 then false else false)
              )
            ) else (
              if s < 236 then (
                if s < 234 then (if s < 233 then false else false) else (if s < 235 then false else false)
              ) else (
                if s < 238 then (if s < 237 then false else false) else (if s < 239 then true else false)
              )
            )
          ) else (
            if s < 248 then (
              if s < 244 then (
                if s < 242 then (if s < 241 then false else false) else (if s < 243 then false else false)
              ) else (
                if s < 246 then (if s < 245 then false else false) else (if s < 247 then true else false)
              )
            ) else (
              if s < 252 then (
                if s < 250 then (if s < 249 then false else false) else (if s < 251 then true else false)
              ) else (
                if s < 254 then (if s < 253 then true else true) else (if s < 255 then false else true)
              )
            )
          )
        )
      )
    )
  }

  /** The inner node an octet hangs from. */
  function OctetUp(c: nat): nat
    requires c < 256
  {
    if c < 128 then (
      if c < 64 then (
        if c < 32 then (
          if c < 16 then (
            if c < 8 then (
              if c < 4 then (
                if c < 2 then (if c < 1 then 86 else 148) else (if c < 3 then 227 else 227)
              ) else (
                if c < 6 then (if c < 5 then 229 else 229) else (if c < 7 then 230 else 230)
              )
            ) else (
              if c < 12 then (
                if c < 10 then (if c < 9 then 233 else 176) else (if c < 11 then 254 else 233)
              ) else (
                if c < 14 then (if c < 13 then 234 else 254) else (if c < 15 then 234 else 236)
              )
            )
          ) else (
            if c < 24 then (
              if c < 20 then (
                if c < 18 then (if c < 17 then 236 else 237) else (if c < 19 then 237 else 241)
              ) else (
                if c < 22 then (if c < 21 then 241 else 242) else (if c < 23 then 255 else 242)
              )
            ) else (
              if c < 28 then (
                if c < 26 then (if c < 25 then 244 else 244) else (if c < 27 then 245 else 245)
              ) else (
                if c < 30 then (if c < 29 then 248 else 248) else (if c < 31 then 249 else 249)
              )
            )
          )
        ) else (
          if c < 48 then (
            if c < 40 then (
              if c < 36 then (
                if c < 34 then (if c < 33 then 13 else 76) else (if c < 35 then 76 else 83)
              ) else (
                if c < 38 then (if c < 37 then 86 else 13) else (if c < 39 then 70 else 80)
              )
            ) else (
              if c < 44 then (
                if c < 42 then (if c < 41 then 77 else 77) else (if c < 43 then 70 else 80)
              ) else (
                if c < 46 then (if c < 45 then 71 else 14) else (if c < 47 then 14 else 17)
              )
            )
          ) else (
            if c < 56 then (
              if c < 52 then (
                if c < 50 then (if c < 49 then 4 else 4) else (if c < 51 then 5 else 17)
              ) else (
                if c < 54 then (if c < 53 then 18 else 18) else (if c < 55 then 20 else 20)
              )
            ) else (
              if c < 60 then (
                if c < 58 then (if c < 57 then 21 else 21) else (if c < 59 then 38 else 71)
              ) else (
                if c < 62 then (if c < 61 then 93 else 26) else (if c < 63 then 83 else 79)
              )
            )
          )
        )
      ) else (
        if c < 96 then (
          if c < 80 then (
            if c < 72 then (
              if c < 68 then (
                if c < 66 then (if c < 65 then 87 else 26) else (if c < 67 then 38 else 39)
              ) else (
                if c < 70 then (if c < 69 then 39 else 44) else (if c < 71 then 44 else 45)
              )
            ) else (
              if c < 76 then (
                if c < 74 then (if c < 73 then 45 else 47) else (if c < 75 then 47 else 48)
              ) else (
                if c < 78 then (if c < 77 then 48 else 51) else (if c < 79 then 51 else 52)
              )
            )
          ) else (
            if c < 88 then (
              if c < 84 then (
                if c < 82 then (if c < 81 then 52 else 54) else (if c < 83 then 54 else 55)
              ) else (
                if c < 86 then (if c < 85 then 55 else 59) else (if c < 87 then 59 else 60)
              )
            ) else (
              if c < 92 then (
                if c < 90 then (if c < 89 then 73 else 60) else (if c < 91 then 73 else 87)
              ) else (
                if c < 94 then (if c < 93 then 98 else 89) else (if c < 95 then 91 else 27)
              )
            )
          )
        ) else (
          if c < 112 then (
            if c < 104 then (
              if c < 100 then (
                if c < 98 then (if c < 97 then 93 else 5) else (if c < 99 then 27 else 7)
              ) else (
                if c < 102 then (if c < 101 then 29 else 7) else (if c < 103 then 29 else 30)
              )
            ) else (
              if c < 108 then (
                if c < 106 then (if c < 105 then 30 else 8) else (if c < 107 then 62 else 62)
              ) else (
                if c < 110 then (if c < 109 then 33 else 33) else (if c < 111 then 34 else 8)
              )
            )
          ) else (
            if c < 120 then (
              if c < 116 then (
                if c < 114 then (if c < 113 then 34 else 63) else (if c < 115 then 36 else 11)
              ) else (
                if c < 118 then (if c < 117 then 11 else 36) else (if c < 119 then 63 else 66)
              )
            ) else (
              if c < 124 then (
                if c < 122 then (if c < 121 then 66 else 67) else (if c < 123 then 67 else 94)
              ) else (
                if c < 126 then (if c < 125 then 82 else 91) else (if c < 127 then 89 else 251)
              )
            )
          )
        )
      )
    ) else (
      if c < 192 then (
        if c < 160 then (
          if c < 144 then (
            if c < 136 then (
              if c < 132 then (
                if c < 130 then (if c < 129 then 100 else 122) else (if c < 131 then 100 else 103)
              ) else (
                if c < 134 then (if c < 133 then 122 else 124) else (if c < 135 then 124 else 148)
              )
            ) else (
              if c < 140 then (
                if c < 138 then (if c < 137 then 125 else 149) else (if c < 139 then 149 else 151)
              ) else (
                if c < 142 then (if c < 141 then 151 else 152) else (if c < 143 then 176 else 152)
              )
            )
          ) else (
            if c < 152 then (
              if c < 148 then (
                if c < 146 then (if c < 145 then 178 else 178) else (if c < 147 then 125 else 157)
              ) else (
                if c < 150 then (if c < 149 then 179 else 157) else (if c < 151 then 158 else 158)
              )
            ) else (
              if c < 156 then (
                if c < 154 then (if c < 153 then 160 else 108) else (if c < 155 then 128 else 160)
              ) else (
                if c < 158 then (if c < 157 then 128 else 161) else (if c < 159 then 161 else 179)
              )
            )
          )
        ) else (
          if c < 176 then (
            if c < 168 then (
              if c < 164 then (
                if c < 162 then (if c < 161 then 129 else 108) else (if c < 163 then 103 else 129)
              ) else (
                if c < 166 then (if c < 165 then 131 else 164) else (if c < 167 then 164 else 109)
              )
            ) else (
              if c < 172 then (
                if c < 170 then (if c < 169 then 165 else 131) else (if c < 171 then 132 else 183)
              ) else (
                if c < 174 then (if c < 173 then 109 else 132) else (if c < 175 then 165 else 167)
              )
            )
          ) else (
            if c < 184 then (
              if c < 180 then (
                if c < 178 then (if c < 177 then 114 else 114) else (if c < 179 then 137 else 115)
              ) else (
                if c < 182 then (if c < 181 then 167 else 137) else (if c < 183 then 168 else 168)
              )
            ) else (
              if c < 188 then (
                if c < 186 then (if c < 185 then 104 else 138) else (if c < 187 then 138 else 140)
              ) else (
                if c < 190 then (if c < 189 then 172 else 140) else (if c < 191 then 141 else 172)
              )
            )
          )
        )
      ) else (
        if c < 224 then (
          if c < 208 then (
            if c < 200 then (
              if c < 196 then (
                if c < 194 then (if c < 193 then 194 else 194) else (if c < 195 then 104 else 98)
              ) else (
                if c < 198 then (if c < 197 then 141 else 173) else (if c < 199 then 144 else 188)
              )
            ) else (
              if c < 204 then (
                if c < 202 then (if c < 201 then 195 else 195) else (if c < 203 then 197 else 206)
              ) else (
                if c < 206 then (if c < 205 then 206 else 197) else (if c < 207 then 183 else 188)
              )
            )
          ) else (
            if c < 216 then (
              if c < 212 then (
                if c < 210 then (if c < 209 then 99 else 115) else (if c < 211 then 198 else 211)
              ) else (
                if c < 214 then (if c < 213 then 211 else 198) else (if c < 215 then 212 else 184)
              )
            ) else (
              if c < 220 then (
                if c < 218 then (if c < 217 then 117 else 117) else (if c < 219 then 201 else 201)
              ) else (
                if c < 222 then (if c < 221 then 251 else 212) else (if c < 223 then 214 else 214)
              )
            )
          )
        ) else (
          if c < 240 then (
            if c < 232 then (
              if c < 228 then (
                if c < 226 then (if c < 225 then 106 else 184) else (if c < 227 then 106 else 118)
              ) else (
                if c < 230 then (if c < 229 then 144 else 118) else (if c < 231 then 121 else 173)
              )
            ) else (
              if c < 236 then (
                if c < 234 then (if c < 233 then 145 else 145) else (if c < 235 then 189 else 189)
              ) else (
                if c < 238 then (if c < 237 then 186 else 186) else (if c < 239 then 202 else 175)
              )
            )
          ) else (
            if c < 248 then (
              if c < 244 then (
                if c < 242 then (if c < 241 then 202 else 215) else (if c < 243 then 204 else 204)
              ) else (
                if c < 246 then (if c < 245 then 215 else 218) else (if c < 247 then 218 else 219)
              )
            ) else (
              if c < 252 then (
                if c < 250 then (if c < 249 then 219 else 252) else (if c < 251 then 221 else 221)
              ) else (
                if c < 254 then (if c < 253 then 222 else 222) else (if c < 255 then 226 else 205)
              )
            )
          )
        )
      )
    )
  }

  /** The path number of an octet. */
  function OctetPath(c: nat): nat
    requires c < 256
  {
    if c < 128 then (
      if c < 64 then (
        if c < 32 then (
          if c < 16 then (
            if c < 8 then (
              if c < 4 then (
                if c < 2 then (if c < 1 then 0x00003ff8 else 0x00ffffd8) else (if c < 3 then 0x1fffffe2 else 0x1fffffe3)
              ) else (
                if c < 6 then (if c < 5 then 0x1fffffe4 else 0x1fffffe5) else (if c < 7 then 0x1fffffe6 else 0x1fffffe7)
              )
            ) else (
              if c < 12 then (
                if c < 10 then (if c < 9 then 0x1fffffe8 else 0x01ffffea) else (if c < 11 then 0x7ffffffc else 0x1fffffe9)
              ) else (
                if c < 14 then (if c < 13 then 0x1fffffea else 0x7ffffffd) else (if c < 15 then 0x1fffffeb else 0x1fffffec)
              )
            )
          ) else (
            if c < 24 then (
              if c < 20 then (
                if c < 18 then (if c < 17 then 0x1fffffed else 0x1fffffee) else (if c < 19 then 0x1fffffef else 0x1ffffff0)
              ) else (
                if c < 22 then (if c < 21 then 0x1ffffff1 else 0x1ffffff2) else (if c < 23 then 0x7ffffffe else 0x1ffffff3)
              )
            ) else (
              if c < 28 then (
                if c < 26 then (if c < 25 then 0x1ffffff4 else 0x1ffffff5) else (if c < 27 then 0x1ffffff6 else 0x1ffffff7)
              ) else (
                if c < 30 then (if c < 29 then 0x1ffffff8 else 0x1ffffff9) else (if c < 31 then 0x1ffffffa else 0x1ffffffb)
              )
            )
          )
        ) else (
          if c < 48 then (
            if c < 40 then (
              if c < 36 then (
                if c < 34 then (if c < 33 then 0x00000054 else 0x000007f8) else (if c < 35 then 0x000007f9 else 0x00001ffa)
              ) else (
                if c < 38 then (if c < 37 then 0x00003ff9 else 0x00000055) else (if c < 39 then 0x000001f8 else 0x00000ffa)
              )
            ) else (
              if c < 44 then (
                if c < 42 then (if c < 41 then 0x000007fa else 0x000007fb) else (if c < 43 then 0x000001f9 else 0x00000ffb)
              ) else (
                if c < 46 then (if c < 45 then 0x000001fa else 0x00000056) else (if c < 47 then 0x00000057 else 0x00000058)
              )
            )
          ) else (
            if c < 56 then (
              if c < 52 then (
                if c < 50 then (if c < 49 then 0x00000020 else 0x00000021) else (if c < 51 then 0x00000022 else 0x00000059)
              ) else (
                if c < 54 then (if c < 53 then 0x0000005a else 0x0000005b) else (if c < 55 then 0x0000005c else 0x0000005d)
              )
            ) else (
              if c < 60 then (
                if c < 58 then (if c < 57 then 0x0000005e else 0x0000005f) else (if c < 59 then 0x000000dc else 0x000001fb)
              ) else (
                if c < 62 then (if c < 61 then 0x0000fffc else 0x00000060) else (if c < 63 then 0x00001ffb else 0x000007fc)
              )
            )
          )
        )
      ) else (
        if c < 96 then (
          if c < 80 then (
            if c < 72 then (
              if c < 68 then (
                if c < 66 then (if c < 65 then 0x00003ffa else 0x00000061) else (if c < 67 then 0x000000dd else 0x000000de)
              ) else (
                if c < 70 then (if c < 69 then 0x000000df else 0x000000e0) else (if c < 71 then 0x000000e1 else 0x000000e2)
              )
            ) else (
              if c < 76 then (
                if c < 74 then (if c < 73 then 0x000000e3 else 0x000000e4) else (if c < 75 then 0x000000e5 else 0x000000e6)
              ) else (
                if c < 78 then (if c < 77 then 0x000000e7 else 0x000000e8) else (if c < 79 then 0x000000e9 else 0x000000ea)
              )
            )
          ) else (
            if c < 88 then (
              if c < 84 then (
                if c < 82 then (if c < 81 then 0x000000eb else 0x000000ec) else (if c < 83 then 0x000000ed else 0x000000ee)
              ) else (
                if c < 86 then (if c < 85 then 0x000000ef else 0x000000f0) else (if c < 87 then 0x000000f1 else 0x000000f2)
              )
            ) else (
              if c < 92 then (
                if c < 90 then (if c < 89 then 0x000001fc else 0x000000f3) else (if c < 91 then 0x000001fd else 0x00003ffb)
              ) else (
                if c < 94 then (if c < 93 then 0x000ffff0 else 0x00003ffc) else (if c < 95 then 0x00007ffc else 0x00000062)
              )
            )
          )
        ) else (
          if c < 112 then (
            if c < 104 then (
              if c < 100 then (
                if c < 98 then (if c < 97 then 0x0000fffd else 0x00000023) else (if c < 99 then 0x00000063 else 0x00000024)
              ) else (
                if c < 102 then (if c < 101 then 0x00000064 else 0x00000025) else (if c < 103 then 0x00000065 else 0x00000066)
              )
            ) else (
              if c < 108 then (
                if c < 106 then (if c < 105 then 0x00000067 else 0x00000026) else (if c < 107 then 0x000000f4 else 0x000000f5)
              ) else (
                if c < 110 then (if c < 109 then 0x00000068 else 0x00000069) else (if c < 111 then 0x0000006a else 0x00000027)
              )
            )
          ) else (
            if c < 120 then (
              if c < 116 then (
                if c < 114 then (if c < 113 then 0x0000006b else 0x000000f6) else (if c < 115 then 0x0000006c else 0x00000028)
              ) else (
                if c < 118 then (if c < 117 then 0x00000029 else 0x0000006d) else (if c < 119 then 0x000000f7 else 0x000000f8)
              )
            ) else (
              if c < 124 then (
                if c < 122 then (if c < 121 then 0x000000f9 else 0x000000fa) else (if c < 123 then 0x000000fb else 0x0000fffe)
              ) else (
                if c < 126 then (if c < 125 then 0x00000ffc else 0x00007ffd) else (if c < 127 then 0x00003ffd else 0x1ffffffc)
              )
            )
          )
        )
      )
    ) else (
      if c < 192 then (
        if c < 160 then (
          if c < 144 then (
            if c < 136 then (
              if c < 132 then (
                if c < 130 then (if c < 129 then 0x001fffe6 else 0x007fffd2) else (if c < 131 then 0x001fffe7 else 0x001fffe8)
              ) else (
                if c < 134 then (if c < 133 then 0x007fffd3 else 0x007fffd4) else (if c < 135 then 0x007fffd5 else 0x00ffffd9)
              )
            ) else (
              if c < 140 then (
                if c < 138 then (if c < 137 then 0x007fffd6 else 0x00ffffda) else (if c < 139 then 0x00ffffdb else 0x00ffffdc)
              ) else (
                if c < 142 then (if c < 141 then 0x00ffffdd else 0x00ffffde) else (if c < 143 then 0x01ffffeb else 0x00ffffdf)
              )
            )
          ) else (
            if c < 152 then (
              if c < 148 then (
                if c < 146 then (if c < 145 then 0x01ffffec else 0x01ffffed) else (if c < 147 then 0x007fffd7 else 0x00ffffe0)
              ) else (
                if c < 150 then (if c < 149 then 0x01ffffee else 0x00ffffe1) else (if c < 151 then 0x00ffffe2 else 0x00ffffe3)
              )
            ) else (
              if c < 156 then (
                if c < 154 then (if c < 153 then 0x00ffffe4 else 0x003fffdc) else (if c < 155 then 0x007fffd8 else 0x00ffffe5)
              ) else (
                if c < 158 then (if c < 157 then 0x007fffd9 else 0x00ffffe6) else (if c < 159 then 0x00ffffe7 else 0x01ffffef)
              )
            )
          )
        ) else (
          if c < 176 then (
            if c < 168 then (
              if c < 164 then (
                if c < 162 then (if c < 161 then 0x007fffda else 0x003fffdd) else (if c < 163 then 0x001fffe9 else 0x007fffdb)
              ) else (
                if c < 166 then (if c < 165 then 0x007fffdc else 0x00ffffe8) else (if c < 167 then 0x00ffffe9 else 0x003fffde)
              )
            ) else (
              if c < 172 then (
                if c < 170 then (if c < 169 then 0x00ffffea else 0x007fffdd) else (if c < 171 then 0x007fffde else 0x01fffff0)
              ) else (
                if c < 174 then (if c < 173 then 0x003fffdf else 0x007fffdf) else (if c < 175 then 0x00ffffeb else 0x00ffffec)
              )
            )
          ) else (
            if c < 184 then (
              if c < 180 then (
                if c < 178 then (if c < 177 then 0x003fffe0 else 0x003fffe1) else (if c < 179 then 0x007fffe0 else 0x003fffe2)
              ) else (
                if c < 182 then (if c < 181 then 0x00ffffed else 0x007fffe1) else (if c < 183 then 0x00ffffee else 0x00ffffef)
              )
            ) else (
              if c < 188 then (
                if c < 186 then (if c < 185 then 0x001fffea else 0x007fffe2) else (if c < 187 then 0x007fffe3 else 0x007fffe4)
              ) else (
                if c < 190 then (if c < 189 then 0x00fffff0 else 0x007fffe5) else (if c < 191 then 0x007fffe6 else 0x00fffff1)
              )
            )
          )
        )
      ) else (
        if c < 224 then (
          if c < 208 then (
            if c < 200 then (
              if c < 196 then (
                if c < 194 then (if c < 193 then 0x07ffffe0 else 0x07ffffe1) else (if c < 195 then 0x001fffeb else 0x000ffff1)
              ) else (
                if c < 198 then (if c < 197 then 0x007fffe7 else 0x00fffff2) else (if c < 199 then 0x007fffe8 else 0x03ffffec)
              )
            ) else (
              if c < 204 then (
                if c < 202 then (if c < 201 then 0x07ffffe2 else 0x07ffffe3) else (if c < 203 then 0x07ffffe4 else 0x0fffffde)
              ) else (
                if c < 206 then (if c < 205 then 0x0fffffdf else 0x07ffffe5) else (if c < 207 then 0x01fffff1 else 0x03ffffed)
              )
            )
          ) else (
            if c < 216 then (
              if c < 212 then (
                if c < 210 then (if c < 209 then 0x000ffff2 else 0x003fffe3) else (if c < 211 then 0x07ffffe6 else 0x0fffffe0)
              ) else (
                if c < 214 then (if c < 213 then 0x0fffffe1 else 0x07ffffe7) else (if c < 215 then 0x0fffffe2 else 0x01fffff2)
              )
            ) else (
              if c < 220 then (
                if c < 218 then (if c < 217 then 0x003fffe4 else 0x003fffe5) else (if c < 219 then 0x07ffffe8 else 0x07ffffe9)
              ) else (
                if c < 222 then (if c < 221 then 0x1ffffffd else 0x0fffffe3) else (if c < 223 then 0x0fffffe4 else 0x0fffffe5)
              )
            )
          )
        ) else (
          if c < 240 then (
            if c < 232 then (
              if c < 228 then (
                if c < 226 then (if c < 225 then 0x001fffec else 0x01fffff3) else (if c < 227 then 0x001fffed else 0x003fffe6)
              ) else (
                if c < 230 then (if c < 229 then 0x007fffe9 else 0x003fffe7) else (if c < 231 then 0x003fffe8 else 0x00fffff3)
              )
            ) else (
              if c < 236 then (
                if c < 234 then (if c < 233 then 0x007fffea else 0x007fffeb) else (if c < 235 then 0x03ffffee else 0x03ffffef)
              ) else (
                if c < 238 then (if c < 237 then 0x01fffff4 else 0x01fffff5) else (if c < 239 then 0x07ffffea else 0x00fffff4)
              )
            )
          ) else (
            if c < 248 then (
              if c < 244 then (
                if c < 242 then (if c < 241 then 0x07ffffeb else 0x0fffffe6) else (if c < 243 then 0x07ffffec else 0x07ffffed)
              ) else (
                if c < 246 then (if c < 245 then 0x0fffffe7 else 0x0fffffe8) else (if c < 247 then 0x0fffffe9 else 0x0fffffea)
              )
            ) else (
              if c < 252 then (
                if c < 250 then (if c < 249 then 0x0fffffeb else 0x1ffffffe) else (if c < 251 then 0x0fffffec else 0x0fffffed)
              ) else (
                if c < 254 then (if c < 253 then 0x0fffffee else 0x0fffffef) else (if c < 255 then 0x0ffffff0 else 0x07ffffee)
              )
            )
          )
        )
      )
    )
  }

  /** The path number of a symbol. */
  function CodePath(c: nat): nat
    requires c <= 256
  {
    if c == 256 then 0x7fffffff else OctetPath(c)
  }

  function Child(s: nat, b: bool): Target
    requires s < 256
  {
    if b then One(s) else Zero(s)
  }

  function LeafUp(c: nat): nat
    requires c <= 256
  {
    if c == 256 then 255 else OctetUp(c)
  }
}
