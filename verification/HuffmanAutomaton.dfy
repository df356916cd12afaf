/**
 The server's decoding automaton: 256 states, four bits at a time. Each row lists its sixteen
 cells in order, as a search tree on the nibble.
 */
module HuffmanAutomaton {
  /** What a nibble does in a state; a step to the state itself marks an error. */
  datatype Cell = Cell(next: nat, emit: nat, sym: nat, ending: nat)

  function Rows0(s: nat, n: nat): Cell
  {
    if s < 2 then (
      if s < 1 then (
        // 0
        if n < 8 then (
          if n < 4 then (
            if n < 2 then (if n < 1 then Cell(0x04, 0, 0x00, 0) else Cell(0x05, 0, 0x00, 0)) else (if n < 3 then Cell(0x07, 0, 0x00, 0) else Cell(0x08, 0, 0x00, 0))
          ) else (
            if n < 6 then (if n < 5 then Cell(0x0b, 0, 0x00, 0) else Cell(0x0c, 0, 0x00, 0)) else (if n < 7 then Cell(0x10, 0, 0x00, 0) else Cell(0x13, 0, 0x00, 0))
          )
        ) else (
          if n < 12 then (
            if n < 10 then (if n < 9 then Cell(0x19, 0, 0x00, 0) else Cell(0x1c, 0, 0x00, 0)) else (if n < 11 then Cell(0x20, 0, 0x00, 0) else Cell(0x23, 0, 0x00, 0))
          ) else (
            if n < 14 then (if n < 13 then Cell(0x2a, 0, 0x00, 0) else Cell(0x31, 0, 0x00, 0)) else (if n < 15 then Cell(0x39, 0, 0x00, 0) else Cell(0x40, 0, 0x00, 1))
          )
        )
      ) else (
        // 1
        if n < 8 then (
          if n < 4 then (
            if n < 2 then (if n < 1 then Cell(0x00, 1, 0x30, 1) else Cell(0x00, 1, 0x31, 1)) else (if n < 3 then Cell(0x00, 1, 0x32, 1) else Cell(0x00, 1, 0x61, 1))
          ) else (
            if n < 6 then (if n < 5 then Cell(0x00, 1, 0x63, 1) else Cell(0x00, 1, 0x65, 1)) else (if n < 7 then Cell(0x00, 1, 0x69, 1) else Cell(0x00, 1, 0x6f, 1))
          )
        ) else (
          if n < 12 then (
            if n < 10 then (if n < 9 then Cell(0x00, 1, 0x73, 1) else Cell(0x00, 1, 0x74, 1)) else (if n < 11 then Cell(0x0d, 0, 0x00, 0) else Cell(0x0e, 0, 0x00, 0))
          ) else (
            if n < 14 then (if n < 13 then Cell(0x11, 0, 0x00, 0) else Cell(0x12, 0, 0x00, 0)) else (if n < 15 then Cell(0x14, 0, 0x00, 0) else Cell(0x15, 0, 0x00, 0))
          )
        )
      )
    ) else (
      if s < 3 then (
        // 2
        if n < 8 then (
          if n < 4 then (
            if n < 2 then (if n < 1 then Cell(0x01, 1, 0x30, 0) else Cell(0x16, 1, 0x30, 1)) else (if n < 3 then Cell(0x01, 1, 0x31, 0) else Cell(0x16, 1, 0x31, 1))
          ) else (
            if n < 6 then (if n < 5 then Cell(0x01, 1, 0x32, 0) else Cell(0x16, 1, 0x32, 1)) else (if n < 7 then Cell(0x01, 1, 0x61, 0) else Cell(0x16, 1, 0x61, 1))
          )
        ) else (
          if n < 12 then (
            if n < 10 then (if n < 9 then Cell(0x01, 1, 0x63, 0) else Cell(0x16, 1, 0x63, 1)) else (if n < 11 then Cell(0x01, 1, 0x65, 0) else Cell(0x16, 1, 0x65, 1))
          ) else (
            if n < 14 then (if n < 13 then Cell(0x01, 1, 0x69, 0) else Cell(0x16, 1, 0x69, 1)) else (if n < 15 then Cell(0x01, 1, 0x6f, 0) else Cell(0x16, 1, 0x6f, 1))
          )
        )
      ) else (
        // 3
        if n < 8 then (
          if n < 4 then (
            if n < 2 then (if n < 1 then Cell(0x02, 1, 0x30, 0) else Cell(0x09, 1, 0x30, 0)) else (if n < 3 then Cell(0x17, 1, 0x30, 0) else Cell(0x28, 1, 0x30, 1))
          ) else (
            if n < 6 then (if n < 5 then Cell(0x02, 1, 0x31, 0) else Cell(0x09, 1, 0x31, 0)) else (if n < 7 then Cell(0x17, 1, 0x31, 0) else Cell(0x28, 1, 0x31, 1))
          )
        ) else (
          if n < 12 then (
            if n < 10 then (if n < 9 then Cell(0x02, 1, 0x32, 0) else Cell(0x09, 1, 0x32, 0)) else (if n < 11 then Cell(0x17, 1, 0x32, 0) else Cell(0x28, 1, 0x32, 1))
          ) else (
            if n < 14 then (if n < 13 then Cell(0x02, 1, 0x61, 0) else Cell(0x09, 1, 0x61, 0)) else (if n < 15 then Cell(0x17, 1, 0x61, 0) else Cell(0x28, 1, 0x61, 1))
          )
        )
      )
    )
  }

  function Rows4(s: nat, n: nat): Cell
  {
    if s < 6 then (
      if s < 5 then (
        // 4
        if n < 8 then (
          if n < 4 then (
            if n < 2 then (if n < 1 then Cell(0x03, 1, 0x30, 0) else Cell(0x06, 1, 0x30, 0)) else (if n < 3 then Cell(0x0a, 1, 0x30, 0) else Cell(0x0f, 1, 0x30, 0))
          ) else (
            if n < 6 then (if n < 5 then Cell(0x18, 1, 0x30, 0) else Cell(0x1f, 1, 0x30, 0)) else (if n < 7 then Cell(0x29, 1, 0x30, 0) else Cell(0x38, 1, 0x30, 1))
          )
        ) else (
          if n < 12 then (
            if n < 10 then (if n < 9 then Cell(0x03, 1, 0x31, 0) else Cell(0x06, 1, 0x31, 0)) else (if n < 11 then Cell(0x0a, 1, 0x31, 0) else Cell(0x0f, 1, 0x31, 0))
          ) else (
            if n < 14 then (if n < 13 then Cell(0x18, 1, 0x31, 0) else Cell(0x1f, 1, 0x31, 0)) else (if n < 15 then Cell(0x29, 1, 0x31, 0) else Cell(0x38, 1, 0x31, 1))
          )
        )
      ) else (
        // 5
        if n < 8 then (
          if n < 4 then (
            if n < 2 then (if n < 1 then Cell(0x03, 1, 0x32, 0) else Cell(0x06, 1, 0x32, 0)) else (if n < 3 then Cell(0x0a, 1, 0x32, 0) else Cell(0x0f, 1, 0x32, 0))
          ) else (
            if n < 6 then (if n < 5 then Cell(0x18, 1, 0x32, 0) else Cell(0x1f, 1, 0x32, 0)) else (if n < 7 then Cell(0x29, 1, 0x32, 0) else Cell(0x38, 1, 0x32, 1))
          )
        ) else (
          if n < 12 then (
            if n < 10 then (if n < 9 then Cell(0x03, 1, 0x61, 0) else Cell(0x06, 1, 0x61, 0)) else (if n < 11 then Cell(0x0a, 1, 0x61, 0) else Cell(0x0f, 1, 0x61, 0))
          ) else (
            if n < 14 then (if n < 13 then Cell(0x18, 1, 0x61, 0) else Cell(0x1f, 1, 0x61, 0)) else (if n < 15 then Cell(0x29, 1, 0x61, 0) else Cell(0x38, 1, 0x61, 1))
          )
        )
      )
    ) else (
      if s < 7 then (
        // 6
        if n < 8 then (
          if n < 4 then (
            if n < 2 then (if n < 1 then Cell(0x02, 1, 0x63, 0) else Cell(0x09, 1, 0x63, 0)) else (if n < 3 then Cell(0x17, 1, 0x63, 0) else Cell(0x28, 1, 0x63, 1))
          ) else (
            if n < 6 then (if n < 5 then Cell(0x02, 1, 0x65, 0) else Cell(0x09, 1, 0x65, 0)) else (if n < 7 then Cell(0x17, 1, 0x65, 0) else Cell(0x28, 1, 0x65, 1))
          )
        ) else (
          if n < 12 then (
            if n < 10 then (if n < 9 then Cell(0x02, 1, 0x69, 0) else Cell(0x09, 1, 0x69, 0)) else (if n < 11 then Cell(0x17, 1, 0x69, 0) else Cell(0x28, 1, 0x69, 1))
          ) else (
            if n < 14 then (if n < 13 then Cell(0x02, 1, 0x6f, 0) else Cell(0x09, 1, 0x6f, 0)) else (if n < 15 then Cell(0x17, 1, 0x6f, 0) else Cell(0x28, 1, 0x6f, 1))
          )
        )
      ) else (
        // 7
        if n < 8 then (
          if n < 4 then (
            if n < 2 then (if n < 1 then Cell(0x03, 1, 0x63, 0) else Cell(0x06, 1, 0x63, 0)) else (if n < 3 then Cell(0x0a, 1, 0x63, 0) else Cell(0x0f, 1, 0x63, 0))
          ) else (
            if n < 6 then (if n < 5 then Cell(0x18, 1, 0x63, 0) else Cell(0x1f, 1, 0x63, 0)) else (if n < 7 then Cell(0x29, 1, 0x63, 0) else Cell(0x38, 1, 0x63, 1))
          )
        ) else (
          if n < 12 then (
            if n < 10 then (if n < 9 then Cell(0x03, 1, 0x65, 0) else Cell(0x06, 1, 0x65, 0)) else (if n < 11 then Cell(0x0a, 1, 0x65, 0) else Cell(0x0f, 1, 0x65, 0))
          ) else (
            if n < 14 then (if n < 13 then Cell(0x18, 1, 0x65, 0) else Cell(0x1f, 1, 0x65, 0)) else (if n < 15 then Cell(0x29, 1, 0x65, 0) else Cell(0x38, 1, 0x65, 1))
          )
        )
      )
    )
  }

  function Rows8(s: nat, n: nat): Cell
  {
    if s < 10 then (
      if s < 9 then (
        // 8
        if n < 8 then (
          if n < 4 then (
            if n < 2 then (if n < 1 then Cell(0x03, 1, 0x69, 0) else Cell(0x06, 1, 0x69, 0)) else (if n < 3 then Cell(0x0a, 1, 0x69, 0) else Cell(0x0f, 1, 0x69, 0))
          ) else (
            if n < 6 then (if n < 5 then Cell(0x18, 1, 0x69, 0) else Cell(0x1f, 1, 0x69, 0)) else (if n < 7 then Cell(0x29, 1, 0x69, 0) else Cell(0x38, 1, 0x69, 1))
          )
        ) else (
          if n < 12 then (
            if n < 10 then (if n < 9 then Cell(0x03, 1, 0x6f, 0) else Cell(0x06, 1, 0x6f, 0)) else (if n < 11 then Cell(0x0a, 1, 0x6f, 0) else Cell(0x0f, 1, 0x6f, 0))
          ) else (
            if n < 14 then (if n < 13 then Cell(0x18, 1, 0x6f, 0) else Cell(0x1f, 1, 0x6f, 0)) else (if n < 15 then Cell(0x29, 1, 0x6f, 0) else Cell(0x38, 1, 0x6f, 1))
          )
        )
      ) else (
        // 9
        if n < 8 then (
          if n < 4 then (
            if n < 2 then (if n < 1 then Cell(0x01, 1, 0x73, 0) else Cell(0x16, 1, 0x73, 1)) else (if n < 3 then Cell(0x01, 1, 0x74, 0) else Cell(0x16, 1, 0x74, 1))
          ) else (
            if n < 6 then (if n < 5 then Cell(0x00, 1, 0x20, 1) else Cell(0x00, 1, 0x25, 1)) else (if n < 7 then Cell(0x00, 1, 0x2d, 1) else Cell(0x00, 1, 0x2e, 1))
          )
        ) else (
          if n < 12 then (
            if n < 10 then (if n < 9 then Cell(0x00, 1, 0x2f, 1) else Cell(0x00, 1, 0x33, 1)) else (if n < 11 then Cell(0x00, 1, 0x34, 1) else Cell(0x00, 1, 0x35, 1))
          ) else (
            if n < 14 then (if n < 13 then Cell(0x00, 1, 0x36, 1) else Cell(0x00, 1, 0x37, 1)) else (if n < 15 then Cell(0x00, 1, 0x38, 1) else Cell(0x00, 1, 0x39, 1))
          )
        )
      )
    ) else (
      if s < 11 then (
        // 10
        if n < 8 then (
          if n < 4 then (
            if n < 2 then (if n < 1 then Cell(0x02, 1, 0x73, 0) else Cell(0x09, 1, 0x73, 0)) else (if n < 3 then Cell(0x17, 1, 0x73, 0) else Cell(0x28, 1, 0x73, 1))
          ) else (
            if n < 6 then (if n < 5 then Cell(0x02, 1, 0x74, 0) else Cell(0x09, 1, 0x74, 0)) else (if n < 7 then Cell(0x17, 1, 0x74, 0) else Cell(0x28, 1, 0x74, 1))
          )
        ) else (
          if n < 12 then (
            if n < 10 then (if n < 9 then Cell(0x01, 1, 0x20, 0) else Cell(0x16, 1, 0x20, 1)) else (if n < 11 then Cell(0x01, 1, 0x25, 0) else Cell(0x16, 1, 0x25, 1))
          ) else (
            if n < 14 then (if n < 13 then Cell(0x01, 1, 0x2d, 0) else Cell(0x16, 1, 0x2d, 1)) else (if n < 15 then Cell(0x01, 1, 0x2e, 0) else Cell(0x16, 1, 0x2e, 1))
          )
        )
      ) else (
        // 11
        if n < 8 then (
          if n < 4 then (
            if n < 2 then (if n < 1 then Cell(0x03, 1, 0x73, 0) else Cell(0x06, 1, 0x73, 0)) else (if n < 3 then Cell(0x0a, 1, 0x73, 0) else Cell(0x0f, 1, 0x73, 0))
          ) else (
            if n < 6 then (if n < 5 then Cell(0x18, 1, 0x73, 0) else Cell(0x1f, 1, 0x73, 0)) else (if n < 7 then Cell(0x29, 1, 0x73, 0) else Cell(0x38, 1, 0x73, 1))
          )
        ) else (
          if n < 12 then (
            if n < 10 then (if n < 9 then Cell(0x03, 1, 0x74, 0) else Cell(0x06, 1, 0x74, 0)) else (if n < 11 then Cell(0x0a, 1, 0x74, 0) else Cell(0x0f, 1, 0x74, 0))
          ) else (
            if n < 14 then (if n < 13 then Cell(0x18, 1, 0x74, 0) else Cell(0x1f, 1, 0x74, 0)) else (if n < 15 then Cell(0x29, 1, 0x74, 0) else Cell(0x38, 1, 0x74, 1))
          )
        )
      )
    )
  }

  function Rows12(s: nat, n: nat): Cell
  {
    if s < 14 then (
      if s < 13 then (
        // 12
        if n < 8 then (
          if n < 4 then (
            if n < 2 then (if n < 1 then Cell(0x02, 1, 0x20, 0) else Cell(0x09, 1, 0x20, 0)) else (if n < 3 then Cell(0x17, 1, 0x20, 0) else Cell(0x28, 1, 0x20, 1))
          ) else (
            if n < 6 then (if n < 5 then Cell(0x02, 1, 0x25, 0) else Cell(0x09, 1, 0x25, 0)) else (if n < 7 then Cell(0x17, 1, 0x25, 0) else Cell(0x28, 1, 0x25, 1))
          )
        ) else (
          if n < 12 then (
            if n < 10 then (if n < 9 then Cell(0x02, 1, 0x2d, 0) else Cell(0x09, 1, 0x2d, 0)) else (if n < 11 then Cell(0x17, 1, 0x2d, 0) else Cell(0x28, 1, 0x2d, 1))
          ) else (
            if n < 14 then (if n < 13 then Cell(0x02, 1, 0x2e, 0) else Cell(0x09, 1, 0x2e, 0)) else (if n < 15 then Cell(0x17, 1, 0x2e, 0) else Cell(0x28, 1, 0x2e, 1))
          )
        )
      ) else (
        // 13
        if n < 8 then (
          if n < 4 then (
            if n < 2 then (if n < 1 then Cell(0x03, 1, 0x20, 0) else Cell(0x06, 1, 0x20, 0)) else (if n < 3 then Cell(0x0a, 1, 0x20, 0) else Cell(0x0f, 1, 0x20, 0))
          ) else (
            if n < 6 then (if n < 5 then Cell(0x18, 1, 0x20, 0) else Cell(0x1f, 1, 0x20, 0)) else (if n < 7 then Cell(0x29, 1, 0x20, 0) else Cell(0x38, 1, 0x20, 1))
          )
        ) else (
          if n < 12 then (
            if n < 10 then (if n < 9 then Cell(0x03, 1, 0x25, 0) else Cell(0x06, 1, 0x25, 0)) else (if n < 11 then Cell(0x0a, 1, 0x25, 0) else Cell(0x0f, 1, 0x25, 0))
          ) else (
            if n < 14 then (if n < 13 then Cell(0x18, 1, 0x25, 0) else Cell(0x1f, 1, 0x25, 0)) else (if n < 15 then Cell(0x29, 1, 0x25, 0) else Cell(0x38, 1, 0x25, 1))
          )
        )
      )
    ) else (
      if s < 15 then (
        // 14
        if n < 8 then (
          if n < 4 then (
            if n < 2 then (if n < 1 then Cell(0x03, 1, 0x2d, 0) else Cell(0x06, 1, 0x2d, 0)) else (if n < 3 then Cell(0x0a, 1, 0x2d, 0) else Cell(0x0f, 1, 0x2d, 0))
          ) else (
            if n < 6 then (if n < 5 then Cell(0x18, 1, 0x2d, 0) else Cell(0x1f, 1, 0x2d, 0)) else (if n < 7 then Cell(0x29, 1, 0x2d, 0) else Cell(0x38, 1, 0x2d, 1))
          )
        ) else (
          if n < 12 then (
            if n < 10 then (if n < 9 then Cell(0x03, 1, 0x2e, 0) else Cell(0x06, 1, 0x2e, 0)) else (if n < 11 then Cell(0x0a, 1, 0x2e, 0) else Cell(0x0f, 1, 0x2e, 0))
          ) else (
            if n < 14 then (if n < 13 then Cell(0x18, 1, 0x2e, 0) else Cell(0x1f, 1, 0x2e, 0)) else (if n < 15 then Cell(0x29, 1, 0x2e, 0) else Cell(0x38, 1, 0x2e, 1))
          )
        )
      ) else (
        // 15
        if n < 8 then (
          if n < 4 then (
            if n < 2 then (if n < 1 then Cell(0x01, 1, 0x2f, 0) else Cell(0x16, 1, 0x2f, 1)) else (if n < 3 then Cell(0x01, 1, 0x33, 0) else Cell(0x16, 1, 0x33, 1))
          ) else (
            if n < 6 then (if n < 5 then Cell(0x01, 1, 0x34, 0) else Cell(0x16, 1, 0x34, 1)) else (if n < 7 then Cell(0x01, 1, 0x35, 0) else Cell(0x16, 1, 0x35, 1))
          )
        ) else (
          if n < 12 then (
            if n < 10 then (if n < 9 then Cell(0x01, 1, 0x36, 0) else Cell(0x16, 1, 0x36, 1)) else (if n < 11 then Cell(0x01, 1, 0x37, 0) else Cell(0x16, 1, 0x37, 1))
          ) else (
            if n < 14 then (if n < 13 then Cell(0x01, 1, 0x38, 0) else Cell(0x16, 1, 0x38, 1)) else (if n < 15 then Cell(0x01, 1, 0x39, 0) else Cell(0x16, 1, 0x39, 1))
          )
        )
      )
    )
  }

  function Rows16(s: nat, n: nat): Cell
  {
    if s < 18 then (
      if s < 17 then (
        // 16
        if n < 8 then (
          if n < 4 then (
            if n < 2 then (if n < 1 then Cell(0x02, 1, 0x2f, 0) else Cell(0x09, 1, 0x2f, 0)) else (if n < 3 then Cell(0x17, 1, 0x2f, 0) else Cell(0x28, 1, 0x2f, 1))
          ) else (
            if n < 6 then (if n < 5 then Cell(0x02, 1, 0x33, 0) else Cell(0x09, 1, 0x33, 0)) else (if n < 7 then Cell(0x17, 1, 0x33, 0) else Cell(0x28, 1, 0x33, 1))
          )
        ) else (
          if n < 12 then (
            if n < 10 then (if n < 9 then Cell(0x02, 1, 0x34, 0) else Cell(0x09, 1, 0x34, 0)) else (if n < 11 then Cell(0x17, 1, 0x34, 0) else Cell(0x28, 1, 0x34, 1))
          ) else (
            if n < 14 then (if n < 13 then Cell(0x02, 1, 0x35, 0) else Cell(0x09, 1, 0x35, 0)) else (if n < 15 then Cell(0x17, 1, 0x35, 0) else Cell(0x28, 1, 0x35, 1))
          )
        )
      ) else (
        // 17
        if n < 8 then (
          if n < 4 then (
            if n < 2 then (if n < 1 then Cell(0x03, 1, 0x2f, 0) else Cell(0x06, 1, 0x2f, 0)) else (if n < 3 then Cell(0x0a, 1, 0x2f, 0) else Cell(0x0f, 1, 0x2f, 0))
          ) else (
            if n < 6 then (if n < 5 then Cell(0x18, 1, 0x2f, 0) else Cell(0x1f, 1, 0x2f, 0)) else (if n < 7 then Cell(0x29, 1, 0x2f, 0) else Cell(0x38, 1, 0x2f, 1))
          )
        ) else (
          if n < 12 then (
            if n < 10 then (if n < 9 then Cell(0x03, 1, 0x33, 0) else Cell(0x06, 1, 0x33, 0)) else (if n < 11 then Cell(0x0a, 1, 0x33, 0) else Cell(0x0f, 1, 0x33, 0))
          ) else (
            if n < 14 then (if n < 13 then Cell(0x18, 1, 0x33, 0) else Cell(0x1f, 1, 0x33, 0)) else (if n < 15 then Cell(0x29, 1, 0x33, 0) else Cell(0x38, 1, 0x33, 1))
          )
        )
      )
    ) else (
      if s < 19 then (
        // 18
        if n < 8 then (
          if n < 4 then (
            if n < 2 then (if n < 1 then Cell(0x03, 1, 0x34, 0) else Cell(0x06, 1, 0x34, 0)) else (if n < 3 then Cell(0x0a, 1, 0x34, 0) else Cell(0x0f, 1, 0x34, 0))
          ) else (
            if n < 6 then (if n < 5 then Cell(0x18, 1, 0x34, 0) else Cell(0x1f, 1, 0x34, 0)) else (if n < 7 then Cell(0x29, 1, 0x34, 0) else Cell(0x38, 1, 0x34, 1))
          )
        ) else (
          if n < 12 then (
            if n < 10 then (if n < 9 then Cell(0x03, 1, 0x35, 0) else Cell(0x06, 1, 0x35, 0)) else (if n < 11 then Cell(0x0a, 1, 0x35, 0) else Cell(0x0f, 1, 0x35, 0))
          ) else (
            if n < 14 then (if n < 13 then Cell(0x18, 1, 0x35, 0) else Cell(0x1f, 1, 0x35, 0)) else (if n < 15 then Cell(0x29, 1, 0x35, 0) else Cell(0x38, 1, 0x35, 1))
          )
        )
      ) else (
        // 19
        if n < 8 then (
          if n < 4 then (
            if n < 2 then (if n < 1 then Cell(0x02, 1, 0x36, 0) else Cell(0x09, 1, 0x36, 0)) else (if n < 3 then Cell(0x17, 1, 0x36, 0) else Cell(0x28, 1, 0x36, 1))
          ) else (
            if n < 6 then (if n < 5 then Cell(0x02, 1, 0x37, 0) else Cell(0x09, 1, 0x37, 0)) else (if n < 7 then Cell(0x17, 1, 0x37, 0) else Cell(0x28, 1, 0x37, 1))
          )
        ) else (
          if n < 12 then (
            if n < 10 then (if n < 9 then Cell(0x02, 1, 0x38, 0) else Cell(0x09, 1, 0x38, 0)) else (if n < 11 then Cell(0x17, 1, 0x38, 0) else Cell(0x28, 1, 0x38, 1))
          ) else (
            if n < 14 then (if n < 13 then Cell(0x02, 1, 0x39, 0) else Cell(0x09, 1, 0x39, 0)) else (if n < 15 then Cell(0x17, 1, 0x39, 0) else Cell(0x28, 1, 0x39, 1))
          )
        )
      )
    )
  }

  function Rows20(s: nat, n: nat): Cell
  {
    if s < 22 then (
      if s < 21 then (
        // 20
        if n < 8 then (
          if n < 4 then (
            if n < 2 then (if n < 1 then Cell(0x03, 1, 0x36, 0) else Cell(0x06, 1, 0x36, 0)) else (if n < 3 then Cell(0x0a, 1, 0x36, 0) else Cell(0x0f, 1, 0x36, 0))
          ) else (
            if n < 6 then (if n < 5 then Cell(0x18, 1, 0x36, 0) else Cell(0x1f, 1, 0x36, 0)) else (if n < 7 then Cell(0x29, 1, 0x36, 0) else Cell(0x38, 1, 0x36, 1))
          )
        ) else (
          if n < 12 then (
            if n < 10 then (if n < 9 then Cell(0x03, 1, 0x37, 0) else Cell(0x06, 1, 0x37, 0)) else (if n < 11 then Cell(0x0a, 1, 0x37, 0) else Cell(0x0f, 1, 0x37, 0))
          ) else (
            if n < 14 then (if n < 13 then Cell(0x18, 1, 0x37, 0) else Cell(0x1f, 1, 0x37, 0)) else (if n < 15 then Cell(0x29, 1, 0x37, 0) else Cell(0x38, 1, 0x37, 1))
          )
        )
      ) else (
        // 21
        if n < 8 then (
          if n < 4 then (
            if n < 2 then (if n < 1 then Cell(0x03, 1, 0x38, 0) else Cell(0x06, 1, 0x38, 0)) else (if n < 3 then Cell(0x0a, 1, 0x38, 0) else Cell(0x0f, 1, 0x38, 0))
          ) else (
            if n < 6 then (if n < 5 then Cell(0x18, 1, 0x38, 0) else Cell(0x1f, 1, 0x38, 0)) else (if n < 7 then Cell(0x29, 1, 0x38, 0) else Cell(0x38, 1, 0x38, 1))
          )
        ) else (
          if n < 12 then (
            if n < 10 then (if n < 9 then Cell(0x03, 1, 0x39, 0) else Cell(0x06, 1, 0x39, 0)) else (if n < 11 then Cell(0x0a, 1, 0x39, 0) else Cell(0x0f, 1, 0x39, 0))
          ) else (
            if n < 14 then (if n < 13 then Cell(0x18, 1, 0x39, 0) else Cell(0x1f, 1, 0x39, 0)) else (if n < 15 then Cell(0x29, 1, 0x39, 0) else Cell(0x38, 1, 0x39, 1))
          )
        )
      )
    ) else (
      if s < 23 then (
        // 22
        if n < 8 then (
          if n < 4 then (
            if n < 2 then (if n < 1 then Cell(0x1a, 0, 0x00, 0) else Cell(0x1b, 0, 0x00, 0)) else (if n < 3 then Cell(0x1d, 0, 0x00, 0) else Cell(0x1e, 0, 0x00, 0))
          ) else (
            if n < 6 then (if n < 5 then Cell(0x21, 0, 0x00, 0) else Cell(0x22, 0, 0x00, 0)) else (if n < 7 then Cell(0x24, 0, 0x00, 0) else Cell(0x25, 0, 0x00, 0))
          )
        ) else (
          if n < 12 then (
            if n < 10 then (if n < 9 then Cell(0x2b, 0, 0x00, 0) else Cell(0x2e, 0, 0x00, 0)) else (if n < 11 then Cell(0x32, 0, 0x00, 0) else Cell(0x35, 0, 0x00, 0))
          ) else (
            if n < 14 then (if n < 13 then Cell(0x3a, 0, 0x00, 0) else Cell(0x3d, 0, 0x00, 0)) else (if n < 15 then Cell(0x41, 0, 0x00, 0) else Cell(0x44, 0, 0x00, 1))
          )
        )
      ) else (
        // 23
        if n < 8 then (
          if n < 4 then (
            if n < 2 then (if n < 1 then Cell(0x00, 1, 0x3d, 1) else Cell(0x00, 1, 0x41, 1)) else (if n < 3 then Cell(0x00, 1, 0x5f, 1) else Cell(0x00, 1, 0x62, 1))
          ) else (
            if n < 6 then (if n < 5 then Cell(0x00, 1, 0x64, 1) else Cell(0x00, 1, 0x66, 1)) else (if n < 7 then Cell(0x00, 1, 0x67, 1) else Cell(0x00, 1, 0x68, 1))
          )
        ) else (
          if n < 12 then (
            if n < 10 then (if n < 9 then Cell(0x00, 1, 0x6c, 1) else Cell(0x00, 1, 0x6d, 1)) else (if n < 11 then Cell(0x00, 1, 0x6e, 1) else Cell(0x00, 1, 0x70, 1))
          ) else (
            if n < 14 then (if n < 13 then Cell(0x00, 1, 0x72, 1) else Cell(0x00, 1, 0x75, 1)) else (if n < 15 then Cell(0x26, 0, 0x00, 0) else Cell(0x27, 0, 0x00, 0))
          )
        )
      )
    )
  }

  function Rows24(s: nat, n: nat): Cell
  {
    if s < 26 then (
      if s < 25 then (
        // 24
        if n < 8 then (
          if n < 4 then (
            if n < 2 then (if n < 1 then Cell(0x01, 1, 0x3d, 0) else Cell(0x16, 1, 0x3d, 1)) else (if n < 3 then Cell(0x01, 1, 0x41, 0) else Cell(0x16, 1, 0x41, 1))
          ) else (
            if n < 6 then (if n < 5 then Cell(0x01, 1, 0x5f, 0) else Cell(0x16, 1, 0x5f, 1)) else (if n < 7 then Cell(0x01, 1, 0x62, 0) else Cell(0x16, 1, 0x62, 1))
          )
        ) else (
          if n < 12 then (
            if n < 10 then (if n < 9 then Cell(0x01, 1, 0x64, 0) else Cell(0x16, 1, 0x64, 1)) else (if n < 11 then Cell(0x01, 1, 0x66, 0) else Cell(0x16, 1, 0x66, 1))
          ) else (
            if n < 14 then (if n < 13 then Cell(0x01, 1, 0x67, 0) else Cell(0x16, 1, 0x67, 1)) else (if n < 15 then Cell(0x01, 1, 0x68, 0) else Cell(0x16, 1, 0x68, 1))
          )
        )
      ) else (
        // 25
        if n < 8 then (
          if n < 4 then (
            if n < 2 then (if n < 1 then Cell(0x02, 1, 0x3d, 0) else Cell(0x09, 1, 0x3d, 0)) else (if n < 3 then Cell(0x17, 1, 0x3d, 0) else Cell(0x28, 1, 0x3d, 1))
          ) else (
            if n < 6 then (if n < 5 then Cell(0x02, 1, 0x41, 0) else Cell(0x09, 1, 0x41, 0)) else (if n < 7 then Cell(0x17, 1, 0x41, 0) else Cell(0x28, 1, 0x41, 1))
          )
        ) else (
          if n < 12 then (
            if n < 10 then (if n < 9 then Cell(0x02, 1, 0x5f, 0) else Cell(0x09, 1, 0x5f, 0)) else (if n < 11 then Cell(0x17, 1, 0x5f, 0) else Cell(0x28, 1, 0x5f, 1))
          ) else (
            if n < 14 then (if n < 13 then Cell(0x02, 1, 0x62, 0) else Cell(0x09, 1, 0x62, 0)) else (if n < 15 then Cell(0x17, 1, 0x62, 0) else Cell(0x28, 1, 0x62, 1))
          )
        )
      )
    ) else (
      if s < 27 then (
        // 26
        if n < 8 then (
          if n < 4 then (
            if n < 2 then (if n < 1 then Cell(0x03, 1, 0x3d, 0) else Cell(0x06, 1, 0x3d, 0)) else (if n < 3 then Cell(0x0a, 1, 0x3d, 0) else Cell(0x0f, 1, 0x3d, 0))
          ) else (
            if n < 6 then (if n < 5 then Cell(0x18, 1, 0x3d, 0) else Cell(0x1f, 1, 0x3d, 0)) else (if n < 7 then Cell(0x29, 1, 0x3d, 0) else Cell(0x38, 1, 0x3d, 1))
          )
        ) else (
          if n < 12 then (
            if n < 10 then (if n < 9 then Cell(0x03, 1, 0x41, 0) else Cell(0x06, 1, 0x41, 0)) else (if n < 11 then Cell(0x0a, 1, 0x41, 0) else Cell(0x0f, 1, 0x41, 0))
          ) else (
            if n < 14 then (if n < 13 then Cell(0x18, 1, 0x41, 0) else Cell(0x1f, 1, 0x41, 0)) else (if n < 15 then Cell(0x29, 1, 0x41, 0) else Cell(0x38, 1, 0x41, 1))
          )
        )
      ) else (
        // 27
        if n < 8 then (
          if n < 4 then (
            if n < 2 then (if n < 1 then Cell(0x03, 1, 0x5f, 0) else Cell(0x06, 1, 0x5f, 0)) else (if n < 3 then Cell(0x0a, 1, 0x5f, 0) else Cell(0x0f, 1, 0x5f, 0))
          ) else (
            if n < 6 then (if n < 5 then Cell(0x18, 1, 0x5f, 0) else Cell(0x1f, 1, 0x5f, 0)) else (if n < 7 then Cell(0x29, 1, 0x5f, 0) else Cell(0x38, 1, 0x5f, 1))
          )
        ) else (
          if n < 12 then (
            if n < 10 then (if n < 9 then Cell(0x03, 1, 0x62, 0) else Cell(0x06, 1, 0x62, 0)) else (if n < 11 then Cell(0x0a, 1, 0x62, 0) else Cell(0x0f, 1, 0x62, 0))
          ) else (
            if n < 14 then (if n < 13 then Cell(0x18, 1, 0x62, 0) else Cell(0x1f, 1, 0x62, 0)) else (if n < 15 then Cell(0x29, 1, 0x62, 0) else Cell(0x38, 1, 0x62, 1))
          )
        )
      )
    )
  }

  function Rows28(s: nat, n: nat): Cell
  {
    if s < 30 then (
      if s < 29 then (
        // 28
        if n < 8 then (
          if n < 4 then (
            if n < 2 then (if n < 1 then Cell(0x02, 1, 0x64, 0) else Cell(0x09, 1, 0x64, 0)) else (if n < 3 then Cell(0x17, 1, 0x64, 0) else Cell(0x28, 1, 0x64, 1))
          ) else (
            if n < 6 then (if n < 5 then Cell(0x02, 1, 0x66, 0) else Cell(0x09, 1, 0x66, 0)) else (if n < 7 then Cell(0x17, 1, 0x66, 0) else Cell(0x28, 1, 0x66, 1))
          )
        ) else (
          if n < 12 then (
            if n < 10 then (if n < 9 then Cell(0x02, 1, 0x67, 0) else Cell(0x09, 1, 0x67, 0)) else (if n < 11 then Cell(0x17, 1, 0x67, 0) else Cell(0x28, 1, 0x67, 1))
          ) else (
            if n < 14 then (if n < 13 then Cell(0x02, 1, 0x68, 0) else Cell(0x09, 1, 0x68, 0)) else (if n < 15 then Cell(0x17, 1, 0x68, 0) else Cell(0x28, 1, 0x68, 1))
          )
        )
      ) else (
        // 29
        if n < 8 then (
          if n < 4 then (
            if n < 2 then (if n < 1 then Cell(0x03, 1, 0x64, 0) else Cell(0x06, 1, 0x64, 0)) else (if n < 3 then Cell(0x0a, 1, 0x64, 0) else Cell(0x0f, 1, 0x64, 0))
          ) else (
            if n < 6 then (if n < 5 then Cell(0x18, 1, 0x64, 0) else Cell(0x1f, 1, 0x64, 0)) else (if n < 7 then Cell(0x29, 1, 0x64, 0) else Cell(0x38, 1, 0x64, 1))
          )
        ) else (
          if n < 12 then (
            if n < 10 then (if n < 9 then Cell(0x03, 1, 0x66, 0) else Cell(0x06, 1, 0x66, 0)) else (if n < 11 then Cell(0x0a, 1, 0x66, 0) else Cell(0x0f, 1, 0x66, 0))
          ) else (
            if n < 14 then (if n < 13 then Cell(0x18, 1, 0x66, 0) else Cell(0x1f, 1, 0x66, 0)) else (if n < 15 then Cell(0x29, 1, 0x66, 0) else Cell(0x38, 1, 0x66, 1))
          )
        )
      )
    ) else (
      if s < 31 then (
        // 30
        if n < 8 then (
          if n < 4 then (
            if n < 2 then (if n < 1 then Cell(0x03, 1, 0x67, 0) else Cell(0x06, 1, 0x67, 0)) else (if n < 3 then Cell(0x0a, 1, 0x67, 0) else Cell(0x0f, 1, 0x67, 0))
          ) else (
            if n < 6 then (if n < 5 then Cell(0x18, 1, 0x67, 0) else Cell(0x1f, 1, 0x67, 0)) else (if n < 7 then Cell(0x29, 1, 0x67, 0) else Cell(0x38, 1, 0x67, 1))
          )
        ) else (
          if n < 12 then (
            if n < 10 then (if n < 9 then Cell(0x03, 1, 0x68, 0) else Cell(0x06, 1, 0x68, 0)) else (if n < 11 then Cell(0x0a, 1, 0x68, 0) else Cell(0x0f, 1, 0x68, 0))
          ) else (
            if n < 14 then (if n < 13 then Cell(0x18, 1, 0x68, 0) else Cell(0x1f, 1, 0x68, 0)) else (if n < 15 then Cell(0x29, 1, 0x68, 0) else Cell(0x38, 1, 0x68, 1))
          )
        )
      ) else (
        // 31
        if n < 8 then (
          if n < 4 then (
            if n < 2 then (if n < 1 then Cell(0x01, 1, 0x6c, 0) else Cell(0x16, 1, 0x6c, 1)) else (if n < 3 then Cell(0x01, 1, 0x6d, 0) else Cell(0x16, 1, 0x6d, 1))
          ) else (
            if n < 6 then (if n < 5 then Cell(0x01, 1, 0x6e, 0) else Cell(0x16, 1, 0x6e, 1)) else (if n < 7 then Cell(0x01, 1, 0x70, 0) else Cell(0x16, 1, 0x70, 1))
          )
        ) else (
          if n < 12 then (
            if n < 10 then (if n < 9 then Cell(0x01, 1, 0x72, 0) else Cell(0x16, 1, 0x72, 1)) else (if n < 11 then Cell(0x01, 1, 0x75, 0) else Cell(0x16, 1, 0x75, 1))
          ) else (
            if n < 14 then (if n < 13 then Cell(0x00, 1, 0x3a, 1) else Cell(0x00, 1, 0x42, 1)) else (if n < 15 then Cell(0x00, 1, 0x43, 1) else Cell(0x00, 1, 0x44, 1))
          )
        )
      )
    )
  }

  function Rows32(s: nat, n: nat): Cell
  {
    if s < 34 then (
      if s < 33 then (
        // 32
        if n < 8 then (
          if n < 4 then (
            if n < 2 then (if n < 1 then Cell(0x02, 1, 0x6c, 0) else Cell(0x09, 1, 0x6c, 0)) else (if n < 3 then Cell(0x17, 1, 0x6c, 0) else Cell(0x28, 1, 0x6c, 1))
          ) else (
            if n < 6 then (if n < 5 then Cell(0x02, 1, 0x6d, 0) else Cell(0x09, 1, 0x6d, 0)) else (if n < 7 then Cell(0x17, 1, 0x6d, 0) else Cell(0x28, 1, 0x6d, 1))
          )
        ) else (
          if n < 12 then (
            if n < 10 then (if n < 9 then Cell(0x02, 1, 0x6e, 0) else Cell(0x09, 1, 0x6e, 0)) else (if n < 11 then Cell(0x17, 1, 0x6e, 0) else Cell(0x28, 1, 0x6e, 1))
          ) else (
            if n < 14 then (if n < 13 then Cell(0x02, 1, 0x70, 0) else Cell(0x09, 1, 0x70, 0)) else (if n < 15 then Cell(0x17, 1, 0x70, 0) else Cell(0x28, 1, 0x70, 1))
          )
        )
      ) else (
        // 33
        if n < 8 then (
          if n < 4 then (
            if n < 2 then (if n < 1 then Cell(0x03, 1, 0x6c, 0) else Cell(0x06, 1, 0x6c, 0)) else (if n < 3 then Cell(0x0a, 1, 0x6c, 0) else Cell(0x0f, 1, 0x6c, 0))
          ) else (
            if n < 6 then (if n < 5 then Cell(0x18, 1, 0x6c, 0) else Cell(0x1f, 1, 0x6c, 0)) else (if n < 7 then Cell(0x29, 1, 0x6c, 0) else Cell(0x38, 1, 0x6c, 1))
          )
        ) else (
          if n < 12 then (
            if n < 10 then (if n < 9 then Cell(0x03, 1, 0x6d, 0) else Cell(0x06, 1, 0x6d, 0)) else (if n < 11 then Cell(0x0a, 1, 0x6d, 0) else Cell(0x0f, 1, 0x6d, 0))
          ) else (
            if n < 14 then (if n < 13 then Cell(0x18, 1, 0x6d, 0) else Cell(0x1f, 1, 0x6d, 0)) else (if n < 15 then Cell(0x29, 1, 0x6d, 0) else Cell(0x38, 1, 0x6d, 1))
          )
        )
      )
    ) else (
      if s < 35 then (
        // 34
        if n < 8 then (
          if n < 4 then (
            if n < 2 then (if n < 1 then Cell(0x03, 1, 0x6e, 0) else Cell(0x06, 1, 0x6e, 0)) else (if n < 3 then Cell(0x0a, 1, 0x6e, 0) else Cell(0x0f, 1, 0x6e, 0))
          ) else (
            if n < 6 then (if n < 5 then Cell(0x18, 1, 0x6e, 0) else Cell(0x1f, 1, 0x6e, 0)) else (if n < 7 then Cell(0x29, 1, 0x6e, 0) else Cell(0x38, 1, 0x6e, 1))
          )
        ) else (
          if n < 12 then (
            if n < 10 then (if n < 9 then Cell(0x03, 1, 0x70, 0) else Cell(0x06, 1, 0x70, 0)) else (if n < 11 then Cell(0x0a, 1, 0x70, 0) else Cell(0x0f, 1, 0x70, 0))
          ) else (
            if n < 14 then (if n < 13 then Cell(0x18, 1, 0x70, 0) else Cell(0x1f, 1, 0x70, 0)) else (if n < 15 then Cell(0x29, 1, 0x70, 0) else Cell(0x38, 1, 0x70, 1))
          )
        )
      ) else (
        // 35
        if n < 8 then (
          if n < 4 then (
            if n < 2 then (if n < 1 then Cell(0x02, 1, 0x72, 0) else Cell(0x09, 1, 0x72, 0)) else (if n < 3 then Cell(0x17, 1, 0x72, 0) else Cell(0x28, 1, 0x72, 1))
          ) else (
            if n < 6 then (if n < 5 then Cell(0x02, 1, 0x75, 0) else Cell(0x09, 1, 0x75, 0)) else (if n < 7 then Cell(0x17, 1, 0x75, 0) else Cell(0x28, 1, 0x75, 1))
          )
        ) else (
          if n < 12 then (
            if n < 10 then (if n < 9 then Cell(0x01, 1, 0x3a, 0) else Cell(0x16, 1, 0x3a, 1)) else (if n < 11 then Cell(0x01, 1, 0x42, 0) else Cell(0x16, 1, 0x42, 1))
          ) else (
            if n < 14 then (if n < 13 then Cell(0x01, 1, 0x43, 0) else Cell(0x16, 1, 0x43, 1)) else (if n < 15 then Cell(0x01, 1, 0x44, 0) else Cell(0x16, 1, 0x44, 1))
          )
        )
      )
    )
  }

  function Rows36(s: nat, n: nat): Cell
  {
    if s < 38 then (
      if s < 37 then (
        // 36
        if n < 8 then (
          if n < 4 then (
            if n < 2 then (if n < 1 then Cell(0x03, 1, 0x72, 0) else Cell(0x06, 1, 0x72, 0)) else (if n < 3 then Cell(0x0a, 1, 0x72, 0) else Cell(0x0f, 1, 0x72, 0))
          ) else (
            if n < 6 then (if n < 5 then Cell(0x18, 1, 0x72, 0) else Cell(0x1f, 1, 0x72, 0)) else (if n < 7 then Cell(0x29, 1, 0x72, 0) else Cell(0x38, 1, 0x72, 1))
          )
        ) else (
          if n < 12 then (
            if n < 10 then (if n < 9 then Cell(0x03, 1, 0x75, 0) else Cell(0x06, 1, 0x75, 0)) else (if n < 11 then Cell(0x0a, 1, 0x75, 0) else Cell(0x0f, 1, 0x75, 0))
          ) else (
            if n < 14 then (if n < 13 then Cell(0x18, 1, 0x75, 0) else Cell(0x1f, 1, 0x75, 0)) else (if n < 15 then Cell(0x29, 1, 0x75, 0) else Cell(0x38, 1, 0x75, 1))
          )
        )
      ) else (
        // 37
        if n < 8 then (
          if n < 4 then (
            if n < 2 then (if n < 1 then Cell(0x02, 1, 0x3a, 0) else Cell(0x09, 1, 0x3a, 0)) else (if n < 3 then Cell(0x17, 1, 0x3a, 0) else Cell(0x28, 1, 0x3a, 1))
          ) else (
            if n < 6 then (if n < 5 then Cell(0x02, 1, 0x42, 0) else Cell(0x09, 1, 0x42, 0)) else (if n < 7 then Cell(0x17, 1, 0x42, 0) else Cell(0x28, 1, 0x42, 1))
          )
        ) else (
          if n < 12 then (
            if n < 10 then (if n < 9 then Cell(0x02, 1, 0x43, 0) else Cell(0x09, 1, 0x43, 0)) else (if n < 11 then Cell(0x17, 1, 0x43, 0) else Cell(0x28, 1, 0x43, 1))
          ) else (
            if n < 14 then (if n < 13 then Cell(0x02, 1, 0x44, 0) else Cell(0x09, 1, 0x44, 0)) else (if n < 15 then Cell(0x17, 1, 0x44, 0) else Cell(0x28, 1, 0x44, 1))
          )
        )
      )
    ) else (
      if s < 39 then (
        // 38
        if n < 8 then (
          if n < 4 then (
            if n < 2 then (if n < 1 then Cell(0x03, 1, 0x3a, 0) else Cell(0x06, 1, 0x3a, 0)) else (if n < 3 then Cell(0x0a, 1, 0x3a, 0) else Cell(0x0f, 1, 0x3a, 0))
          ) else (
            if n < 6 then (if n < 5 then Cell(0x18, 1, 0x3a, 0) else Cell(0x1f, 1, 0x3a, 0)) else (if n < 7 then Cell(0x29, 1, 0x3a, 0) else Cell(0x38, 1, 0x3a, 1))
          )
        ) else (
          if n < 12 then (
            if n < 10 then (if n < 9 then Cell(0x03, 1, 0x42, 0) else Cell(0x06, 1, 0x42, 0)) else (if n < 11 then Cell(0x0a, 1, 0x42, 0) else Cell(0x0f, 1, 0x42, 0))
          ) else (
            if n < 14 then (if n < 13 then Cell(0x18, 1, 0x42, 0) else Cell(0x1f, 1, 0x42, 0)) else (if n < 15 then Cell(0x29, 1, 0x42, 0) else Cell(0x38, 1, 0x42, 1))
          )
        )
      ) else (
        // 39
        if n < 8 then (
          if n < 4 then (
            if n < 2 then (if n < 1 then Cell(0x03, 1, 0x43, 0) else Cell(0x06, 1, 0x43, 0)) else (if n < 3 then Cell(0x0a, 1, 0x43, 0) else Cell(0x0f, 1, 0x43, 0))
          ) else (
            if n < 6 then (if n < 5 then Cell(0x18, 1, 0x43, 0) else Cell(0x1f, 1, 0x43, 0)) else (if n < 7 then Cell(0x29, 1, 0x43, 0) else Cell(0x38, 1, 0x43, 1))
          )
        ) else (
          if n < 12 then (
            if n < 10 then (if n < 9 then Cell(0x03, 1, 0x44, 0) else Cell(0x06, 1, 0x44, 0)) else (if n < 11 then Cell(0x0a, 1, 0x44, 0) else Cell(0x0f, 1, 0x44, 0))
          ) else (
            if n < 14 then (if n < 13 then Cell(0x18, 1, 0x44, 0) else Cell(0x1f, 1, 0x44, 0)) else (if n < 15 then Cell(0x29, 1, 0x44, 0) else Cell(0x38, 1, 0x44, 1))
          )
        )
      )
    )
  }

  function Rows40(s: nat, n: nat): Cell
  {
    if s < 42 then (
      if s < 41 then (
        // 40
        if n < 8 then (
          if n < 4 then (
            if n < 2 then (if n < 1 then Cell(0x2c, 0, 0x00, 0) else Cell(0x2d, 0, 0x00, 0)) else (if n < 3 then Cell(0x2f, 0, 0x00, 0) else Cell(0x30, 0, 0x00, 0))
          ) else (
            if n < 6 then (if n < 5 then Cell(0x33, 0, 0x00, 0) else Cell(0x34, 0, 0x00, 0)) else (if n < 7 then Cell(0x36, 0, 0x00, 0) else Cell(0x37, 0, 0x00, 0))
          )
        ) else (
          if n < 12 then (
            if n < 10 then (if n < 9 then Cell(0x3b, 0, 0x00, 0) else Cell(0x3c, 0, 0x00, 0)) else (if n < 11 then Cell(0x3e, 0, 0x00, 0) else Cell(0x3f, 0, 0x00, 0))
          ) else (
            if n < 14 then (if n < 13 then Cell(0x42, 0, 0x00, 0) else Cell(0x43, 0, 0x00, 0)) else (if n < 15 then Cell(0x45, 0, 0x00, 0) else Cell(0x48, 0, 0x00, 1))
          )
        )
      ) else (
        // 41
        if n < 8 then (
          if n < 4 then (
            if n < 2 then (if n < 1 then Cell(0x00, 1, 0x45, 1) else Cell(0x00, 1, 0x46, 1)) else (if n < 3 then Cell(0x00, 1, 0x47, 1) else Cell(0x00, 1, 0x48, 1))
          ) else (
            if n < 6 then (if n < 5 then Cell(0x00, 1, 0x49, 1) else Cell(0x00, 1, 0x4a, 1)) else (if n < 7 then Cell(0x00, 1, 0x4b, 1) else Cell(0x00, 1, 0x4c, 1))
          )
        ) else (
          if n < 12 then (
            if n < 10 then (if n < 9 then Cell(0x00, 1, 0x4d, 1) else Cell(0x00, 1, 0x4e, 1)) else (if n < 11 then Cell(0x00, 1, 0x4f, 1) else Cell(0x00, 1, 0x50, 1))
          ) else (
            if n < 14 then (if n < 13 then Cell(0x00, 1, 0x51, 1) else Cell(0x00, 1, 0x52, 1)) else (if n < 15 then Cell(0x00, 1, 0x53, 1) else Cell(0x00, 1, 0x54, 1))
          )
        )
      )
    ) else (
      if s < 43 then (
        // 42
        if n < 8 then (
          if n < 4 then (
            if n < 2 then (if n < 1 then Cell(0x01, 1, 0x45, 0) else Cell(0x16, 1, 0x45, 1)) else (if n < 3 then Cell(0x01, 1, 0x46, 0) else Cell(0x16, 1, 0x46, 1))
          ) else (
            if n < 6 then (if n < 5 then Cell(0x01, 1, 0x47, 0) else Cell(0x16, 1, 0x47, 1)) else (if n < 7 then Cell(0x01, 1, 0x48, 0) else Cell(0x16, 1, 0x48, 1))
          )
        ) else (
          if n < 12 then (
            if n < 10 then (if n < 9 then Cell(0x01, 1, 0x49, 0) else Cell(0x16, 1, 0x49, 1)) else (if n < 11 then Cell(0x01, 1, 0x4a, 0) else Cell(0x16, 1, 0x4a, 1))
          ) else (
            if n < 14 then (if n < 13 then Cell(0x01, 1, 0x4b, 0) else Cell(0x16, 1, 0x4b, 1)) else (if n < 15 then Cell(0x01, 1, 0x4c, 0) else Cell(0x16, 1, 0x4c, 1))
          )
        )
      ) else (
        // 43
        if n < 8 then (
          if n < 4 then (
            if n < 2 then (if n < 1 then Cell(0x02, 1, 0x45, 0) else Cell(0x09, 1, 0x45, 0)) else (if n < 3 then Cell(0x17, 1, 0x45, 0) else Cell(0x28, 1, 0x45, 1))
          ) else (
            if n < 6 then (if n < 5 then Cell(0x02, 1, 0x46, 0) else Cell(0x09, 1, 0x46, 0)) else (if n < 7 then Cell(0x17, 1, 0x46, 0) else Cell(0x28, 1, 0x46, 1))
          )
        ) else (
          if n < 12 then (
            if n < 10 then (if n < 9 then Cell(0x02, 1, 0x47, 0) else Cell(0x09, 1, 0x47, 0)) else (if n < 11 then Cell(0x17, 1, 0x47, 0) else Cell(0x28, 1, 0x47, 1))
          ) else (
            if n < 14 then (if n < 13 then Cell(0x02, 1, 0x48, 0) else Cell(0x09, 1, 0x48, 0)) else (if n < 15 then Cell(0x17, 1, 0x48, 0) else Cell(0x28, 1, 0x48, 1))
          )
        )
      )
    )
  }

  function Rows44(s: nat, n: nat): Cell
  {
    if s < 46 then (
      if s < 45 then (
        // 44
        if n < 8 then (
          if n < 4 then (
            if n < 2 then (if n < 1 then Cell(0x03, 1, 0x45, 0) else Cell(0x06, 1, 0x45, 0)) else (if n < 3 then Cell(0x0a, 1, 0x45, 0) else Cell(0x0f, 1, 0x45, 0))
          ) else (
            if n < 6 then (if n < 5 then Cell(0x18, 1, 0x45, 0) else Cell(0x1f, 1, 0x45, 0)) else (if n < 7 then Cell(0x29, 1, 0x45, 0) else Cell(0x38, 1, 0x45, 1))
          )
        ) else (
          if n < 12 then (
            if n < 10 then (if n < 9 then Cell(0x03, 1, 0x46, 0) else Cell(0x06, 1, 0x46, 0)) else (if n < 11 then Cell(0x0a, 1, 0x46, 0) else Cell(0x0f, 1, 0x46, 0))
          ) else (
            if n < 14 then (if n < 13 then Cell(0x18, 1, 0x46, 0) else Cell(0x1f, 1, 0x46, 0)) else (if n < 15 then Cell(0x29, 1, 0x46, 0) else Cell(0x38, 1, 0x46, 1))
          )
        )
      ) else (
        // 45
        if n < 8 then (
          if n < 4 then (
            if n < 2 then (if n < 1 then Cell(0x03, 1, 0x47, 0) else Cell(0x06, 1, 0x47, 0)) else (if n < 3 then Cell(0x0a, 1, 0x47, 0) else Cell(0x0f, 1, 0x47, 0))
          ) else (
            if n < 6 then (if n < 5 then Cell(0x18, 1, 0x47, 0) else Cell(0x1f, 1, 0x47, 0)) else (if n < 7 then Cell(0x29, 1, 0x47, 0) else Cell(0x38, 1, 0x47, 1))
          )
        ) else (
          if n < 12 then (
            if n < 10 then (if n < 9 then Cell(0x03, 1, 0x48, 0) else Cell(0x06, 1, 0x48, 0)) else (if n < 11 then Cell(0x0a, 1, 0x48, 0) else Cell(0x0f, 1, 0x48, 0))
          ) else (
            if n < 14 then (if n < 13 then Cell(0x18, 1, 0x48, 0) else Cell(0x1f, 1, 0x48, 0)) else (if n < 15 then Cell(0x29, 1, 0x48, 0) else Cell(0x38, 1, 0x48, 1))
          )
        )
      )
    ) else (
      if s < 47 then (
        // 46
        if n < 8 then (
          if n < 4 then (
            if n < 2 then (if n < 1 then Cell(0x02, 1, 0x49, 0) else Cell(0x09, 1, 0x49, 0)) else (if n < 3 then Cell(0x17, 1, 0x49, 0) else Cell(0x28, 1, 0x49, 1))
          ) else (
            if n < 6 then (if n < 5 then Cell(0x02, 1, 0x4a, 0) else Cell(0x09, 1, 0x4a, 0)) else (if n < 7 then Cell(0x17, 1, 0x4a, 0) else Cell(0x28, 1, 0x4a, 1))
          )
        ) else (
          if n < 12 then (
            if n < 10 then (if n < 9 then Cell(0x02, 1, 0x4b, 0) else Cell(0x09, 1, 0x4b, 0)) else (if n < 11 then Cell(0x17, 1, 0x4b, 0) else Cell(0x28, 1, 0x4b, 1))
          ) else (
            if n < 14 then (if n < 13 then Cell(0x02, 1, 0x4c, 0) else Cell(0x09, 1, 0x4c, 0)) else (if n < 15 then Cell(0x17, 1, 0x4c, 0) else Cell(0x28, 1, 0x4c, 1))
          )
        )
      ) else (
        // 47
        if n < 8 then (
          if n < 4 then (
            if n < 2 then (if n < 1 then Cell(0x03, 1, 0x49, 0) else Cell(0x06, 1, 0x49, 0)) else (if n < 3 then Cell(0x0a, 1, 0x49, 0) else Cell(0x0f, 1, 0x49, 0))
          ) else (
            if n < 6 then (if n < 5 then Cell(0x18, 1, 0x49, 0) else Cell(0x1f, 1, 0x49, 0)) else (if n < 7 then Cell(0x29, 1, 0x49, 0) else Cell(0x38, 1, 0x49, 1))
          )
        ) else (
          if n < 12 then (
            if n < 10 then (if n < 9 then Cell(0x03, 1, 0x4a, 0) else Cell(0x06, 1, 0x4a, 0)) else (if n < 11 then Cell(0x0a, 1, 0x4a, 0) else Cell(0x0f, 1, 0x4a, 0))
          ) else (
            if n < 14 then (if n < 13 then Cell(0x18, 1, 0x4a, 0) else Cell(0x1f, 1, 0x4a, 0)) else (if n < 15 then Cell(0x29, 1, 0x4a, 0) else Cell(0x38, 1, 0x4a, 1))
          )
        )
      )
    )
  }

  function Rows48(s: nat, n: nat): Cell
  {
    if s < 50 then (
      if s < 49 then (
        // 48
        if n < 8 then (
          if n < 4 then (
            if n < 2 then (if n < 1 then Cell(0x03, 1, 0x4b, 0) else Cell(0x06, 1, 0x4b, 0)) else (if n < 3 then Cell(0x0a, 1, 0x4b, 0) else Cell(0x0f, 1, 0x4b, 0))
          ) else (
            if n < 6 then (if n < 5 then Cell(0x18, 1, 0x4b, 0) else Cell(0x1f, 1, 0x4b, 0)) else (if n < 7 then Cell(0x29, 1, 0x4b, 0) else Cell(0x38, 1, 0x4b, 1))
          )
        ) else (
          if n < 12 then (
            if n < 10 then (if n < 9 then Cell(0x03, 1, 0x4c, 0) else Cell(0x06, 1, 0x4c, 0)) else (if n < 11 then Cell(0x0a, 1, 0x4c, 0) else Cell(0x0f, 1, 0x4c, 0))
          ) else (
            if n < 14 then (if n < 13 then Cell(0x18, 1, 0x4c, 0) else Cell(0x1f, 1, 0x4c, 0)) else (if n < 15 then Cell(0x29, 1, 0x4c, 0) else Cell(0x38, 1, 0x4c, 1))
          )
        )
      ) else (
        // 49
        if n < 8 then (
          if n < 4 then (
            if n < 2 then (if n < 1 then Cell(0x01, 1, 0x4d, 0) else Cell(0x16, 1, 0x4d, 1)) else (if n < 3 then Cell(0x01, 1, 0x4e, 0) else Cell(0x16, 1, 0x4e, 1))
          ) else (
            if n < 6 then (if n < 5 then Cell(0x01, 1, 0x4f, 0) else Cell(0x16, 1, 0x4f, 1)) else (if n < 7 then Cell(0x01, 1, 0x50, 0) else Cell(0x16, 1, 0x50, 1))
          )
        ) else (
          if n < 12 then (
            if n < 10 then (if n < 9 then Cell(0x01, 1, 0x51, 0) else Cell(0x16, 1, 0x51, 1)) else (if n < 11 then Cell(0x01, 1, 0x52, 0) else Cell(0x16, 1, 0x52, 1))
          ) else (
            if n < 14 then (if n < 13 then Cell(0x01, 1, 0x53, 0) else Cell(0x16, 1, 0x53, 1)) else (if n < 15 then Cell(0x01, 1, 0x54, 0) else Cell(0x16, 1, 0x54, 1))
          )
        )
      )
    ) else (
      if s < 51 then (
        // 50
        if n < 8 then (
          if n < 4 then (
            if n < 2 then (if n < 1 then Cell(0x02, 1, 0x4d, 0) else Cell(0x09, 1, 0x4d, 0)) else (if n < 3 then Cell(0x17, 1, 0x4d, 0) else Cell(0x28, 1, 0x4d, 1))
          ) else (
            if n < 6 then (if n < 5 then Cell(0x02, 1, 0x4e, 0) else Cell(0x09, 1, 0x4e, 0)) else (if n < 7 then Cell(0x17, 1, 0x4e, 0) else Cell(0x28, 1, 0x4e, 1))
          )
        ) else (
          if n < 12 then (
            if n < 10 then (if n < 9 then Cell(0x02, 1, 0x4f, 0) else Cell(0x09, 1, 0x4f, 0)) else (if n < 11 then Cell(0x17, 1, 0x4f, 0) else Cell(0x28, 1, 0x4f, 1))
          ) else (
            if n < 14 then (if n < 13 then Cell(0x02, 1, 0x50, 0) else Cell(0x09, 1, 0x50, 0)) else (if n < 15 then Cell(0x17, 1, 0x50, 0) else Cell(0x28, 1, 0x50, 1))
          )
        )
      ) else (
        // 51
        if n < 8 then (
          if n < 4 then (
            if n < 2 then (if n < 1 then Cell(0x03, 1, 0x4d, 0) else Cell(0x06, 1, 0x4d, 0)) else (if n < 3 then Cell(0x0a, 1, 0x4d, 0) else Cell(0x0f, 1, 0x4d, 0))
          ) else (
            if n < 6 then (if n < 5 then Cell(0x18, 1, 0x4d, 0) else Cell(0x1f, 1, 0x4d, 0)) else (if n < 7 then Cell(0x29, 1, 0x4d, 0) else Cell(0x38, 1, 0x4d, 1))
          )
        ) else (
          if n < 12 then (
            if n < 10 then (if n < 9 then Cell(0x03, 1, 0x4e, 0) else Cell(0x06, 1, 0x4e, 0)) else (if n < 11 then Cell(0x0a, 1, 0x4e, 0) else Cell(0x0f, 1, 0x4e, 0))
          ) else (
            if n < 14 then (if n < 13 then Cell(0x18, 1, 0x4e, 0) else Cell(0x1f, 1, 0x4e, 0)) else (if n < 15 then Cell(0x29, 1, 0x4e, 0) else Cell(0x38, 1, 0x4e, 1))
          )
        )
      )
    )
  }

  function Rows52(s: nat, n: nat): Cell
  {
    if s < 54 then (
      if s < 53 then (
        // 52
        if n < 8 then (
          if n < 4 then (
            if n < 2 then (if n < 1 then Cell(0x03, 1, 0x4f, 0) else Cell(0x06, 1, 0x4f, 0)) else (if n < 3 then Cell(0x0a, 1, 0x4f, 0) else Cell(0x0f, 1, 0x4f, 0))
          ) else (
            if n < 6 then (if n < 5 then Cell(0x18, 1, 0x4f, 0) else Cell(0x1f, 1, 0x4f, 0)) else (if n < 7 then Cell(0x29, 1, 0x4f, 0) else Cell(0x38, 1, 0x4f, 1))
          )
        ) else (
          if n < 12 then (
            if n < 10 then (if n < 9 then Cell(0x03, 1, 0x50, 0) else Cell(0x06, 1, 0x50, 0)) else (if n < 11 then Cell(0x0a, 1, 0x50, 0) else Cell(0x0f, 1, 0x50, 0))
          ) else (
            if n < 14 then (if n < 13 then Cell(0x18, 1, 0x50, 0) else Cell(0x1f, 1, 0x50, 0)) else (if n < 15 then Cell(0x29, 1, 0x50, 0) else Cell(0x38, 1, 0x50, 1))
          )
        )
      ) else (
        // 53
        if n < 8 then (
          if n < 4 then (
            if n < 2 then (if n < 1 then Cell(0x02, 1, 0x51, 0) else Cell(0x09, 1, 0x51, 0)) else (if n < 3 then Cell(0x17, 1, 0x51, 0) else Cell(0x28, 1, 0x51, 1))
          ) else (
            if n < 6 then (if n < 5 then Cell(0x02, 1, 0x52, 0) else Cell(0x09, 1, 0x52, 0)) else (if n < 7 then Cell(0x17, 1, 0x52, 0) else Cell(0x28, 1, 0x52, 1))
          )
        ) else (
          if n < 12 then (
            if n < 10 then (if n < 9 then Cell(0x02, 1, 0x53, 0) else Cell(0x09, 1, 0x53, 0)) else (if n < 11 then Cell(0x17, 1, 0x53, 0) else Cell(0x28, 1, 0x53, 1))
          ) else (
            if n < 14 then (if n < 13 then Cell(0x02, 1, 0x54, 0) else Cell(0x09, 1, 0x54, 0)) else (if n < 15 then Cell(0x17, 1, 0x54, 0) else Cell(0x28, 1, 0x54, 1))
          )
        )
      )
    ) else (
      if s < 55 then (
        // 54
        if n < 8 then (
          if n < 4 then (
            if n < 2 then (if n < 1 then Cell(0x03, 1, 0x51, 0) else Cell(0x06, 1, 0x51, 0)) else (if n < 3 then Cell(0x0a, 1, 0x51, 0) else Cell(0x0f, 1, 0x51, 0))
          ) else (
            if n < 6 then (if n < 5 then Cell(0x18, 1, 0x51, 0) else Cell(0x1f, 1, 0x51, 0)) else (if n < 7 then Cell(0x29, 1, 0x51, 0) else Cell(0x38, 1, 0x51, 1))
          )
        ) else (
          if n < 12 then (
            if n < 10 then (if n < 9 then Cell(0x03, 1, 0x52, 0) else Cell(0x06, 1, 0x52, 0)) else (if n < 11 then Cell(0x0a, 1, 0x52, 0) else Cell(0x0f, 1, 0x52, 0))
          ) else (
            if n < 14 then (if n < 13 then Cell(0x18, 1, 0x52, 0) else Cell(0x1f, 1, 0x52, 0)) else (if n < 15 then Cell(0x29, 1, 0x52, 0) else Cell(0x38, 1, 0x52, 1))
          )
        )
      ) else (
        // 55
        if n < 8 then (
          if n < 4 then (
            if n < 2 then (if n < 1 then Cell(0x03, 1, 0x53, 0) else Cell(0x06, 1, 0x53, 0)) else (if n < 3 then Cell(0x0a, 1, 0x53, 0) else Cell(0x0f, 1, 0x53, 0))
          ) else (
            if n < 6 then (if n < 5 then Cell(0x18, 1, 0x53, 0) else Cell(0x1f, 1, 0x53, 0)) else (if n < 7 then Cell(0x29, 1, 0x53, 0) else Cell(0x38, 1, 0x53, 1))
          )
        ) else (
          if n < 12 then (
            if n < 10 then (if n < 9 then Cell(0x03, 1, 0x54, 0) else Cell(0x06, 1, 0x54, 0)) else (if n < 11 then Cell(0x0a, 1, 0x54, 0) else Cell(0x0f, 1, 0x54, 0))
          ) else (
            if n < 14 then (if n < 13 then Cell(0x18, 1, 0x54, 0) else Cell(0x1f, 1, 0x54, 0)) else (if n < 15 then Cell(0x29, 1, 0x54, 0) else Cell(0x38, 1, 0x54, 1))
          )
        )
      )
    )
  }

  function Rows56(s: nat, n: nat): Cell
  {
    if s < 58 then (
      if s < 57 then (
        // 56
        if n < 8 then (
          if n < 4 then (
            if n < 2 then (if n < 1 then Cell(0x00, 1, 0x55, 1) else Cell(0x00, 1, 0x56, 1)) else (if n < 3 then Cell(0x00, 1, 0x57, 1) else Cell(0x00, 1, 0x59, 1))
          ) else (
            if n < 6 then (if n < 5 then Cell(0x00, 1, 0x6a, 1) else Cell(0x00, 1, 0x6b, 1)) else (if n < 7 then Cell(0x00, 1, 0x71, 1) else Cell(0x00, 1, 0x76, 1))
          )
        ) else (
          if n < 12 then (
            if n < 10 then (if n < 9 then Cell(0x00, 1, 0x77, 1) else Cell(0x00, 1, 0x78, 1)) else (if n < 11 then Cell(0x00, 1, 0x79, 1) else Cell(0x00, 1, 0x7a, 1))
          ) else (
            if n < 14 then (if n < 13 then Cell(0x46, 0, 0x00, 0) else Cell(0x47, 0, 0x00, 0)) else (if n < 15 then Cell(0x49, 0, 0x00, 0) else Cell(0x4a, 0, 0x00, 1))
          )
        )
      ) else (
        // 57
        if n < 8 then (
          if n < 4 then (
            if n < 2 then (if n < 1 then Cell(0x01, 1, 0x55, 0) else Cell(0x16, 1, 0x55, 1)) else (if n < 3 then Cell(0x01, 1, 0x56, 0) else Cell(0x16, 1, 0x56, 1))
          ) else (
            if n < 6 then (if n < 5 then Cell(0x01, 1, 0x57, 0) else Cell(0x16, 1, 0x57, 1)) else (if n < 7 then Cell(0x01, 1, 0x59, 0) else Cell(0x16, 1, 0x59, 1))
          )
        ) else (
          if n < 12 then (
            if n < 10 then (if n < 9 then Cell(0x01, 1, 0x6a, 0) else Cell(0x16, 1, 0x6a, 1)) else (if n < 11 then Cell(0x01, 1, 0x6b, 0) else Cell(0x16, 1, 0x6b, 1))
          ) else (
            if n < 14 then (if n < 13 then Cell(0x01, 1, 0x71, 0) else Cell(0x16, 1, 0x71, 1)) else (if n < 15 then Cell(0x01, 1, 0x76, 0) else Cell(0x16, 1, 0x76, 1))
          )
        )
      )
    ) else (
      if s < 59 then (
        // 58
        if n < 8 then (
          if n < 4 then (
            if n < 2 then (if n < 1 then Cell(0x02, 1, 0x55, 0) else Cell(0x09, 1, 0x55, 0)) else (if n < 3 then Cell(0x17, 1, 0x55, 0) else Cell(0x28, 1, 0x55, 1))
          ) else (
            if n < 6 then (if n < 5 then Cell(0x02, 1, 0x56, 0) else Cell(0x09, 1, 0x56, 0)) else (if n < 7 then Cell(0x17, 1, 0x56, 0) else Cell(0x28, 1, 0x56, 1))
          )
        ) else (
          if n < 12 then (
            if n < 10 then (if n < 9 then Cell(0x02, 1, 0x57, 0) else Cell(0x09, 1, 0x57, 0)) else (if n < 11 then Cell(0x17, 1, 0x57, 0) else Cell(0x28, 1, 0x57, 1))
          ) else (
            if n < 14 then (if n < 13 then Cell(0x02, 1, 0x59, 0) else Cell(0x09, 1, 0x59, 0)) else (if n < 15 then Cell(0x17, 1, 0x59, 0) else Cell(0x28, 1, 0x59, 1))
          )
        )
      ) else (
        // 59
        if n < 8 then (
          if n < 4 then (
            if n < 2 then (if n < 1 then Cell(0x03, 1, 0x55, 0) else Cell(0x06, 1, 0x55, 0)) else (if n < 3 then Cell(0x0a, 1, 0x55, 0) else Cell(0x0f, 1, 0x55, 0))
          ) else (
            if n < 6 then (if n < 5 then Cell(0x18, 1, 0x55, 0) else Cell(0x1f, 1, 0x55, 0)) else (if n < 7 then Cell(0x29, 1, 0x55, 0) else Cell(0x38, 1, 0x55, 1))
          )
        ) else (
          if n < 12 then (
            if n < 10 then (if n < 9 then Cell(0x03, 1, 0x56, 0) else Cell(0x06, 1, 0x56, 0)) else (if n < 11 then Cell(0x0a, 1, 0x56, 0) else Cell(0x0f, 1, 0x56, 0))
          ) else (
            if n < 14 then (if n < 13 then Cell(0x18, 1, 0x56, 0) else Cell(0x1f, 1, 0x56, 0)) else (if n < 15 then Cell(0x29, 1, 0x56, 0) else Cell(0x38, 1, 0x56, 1))
          )
        )
      )
    )
  }

  function Rows60(s: nat, n: nat): Cell
  {
    if s < 62 then (
      if s < 61 then (
        // 60
        if n < 8 then (
          if n < 4 then (
            if n < 2 then (if n < 1 then Cell(0x03, 1, 0x57, 0) else Cell(0x06, 1, 0x57, 0)) else (if n < 3 then Cell(0x0a, 1, 0x57, 0) else Cell(0x0f, 1, 0x57, 0))
          ) else (
            if n < 6 then (if n < 5 then Cell(0x18, 1, 0x57, 0) else Cell(0x1f, 1, 0x57, 0)) else (if n < 7 then Cell(0x29, 1, 0x57, 0) else Cell(0x38, 1, 0x57, 1))
          )
        ) else (
          if n < 12 then (
            if n < 10 then (if n < 9 then Cell(0x03, 1, 0x59, 0) else Cell(0x06, 1, 0x59, 0)) else (if n < 11 then Cell(0x0a, 1, 0x59, 0) else Cell(0x0f, 1, 0x59, 0))
          ) else (
            if n < 14 then (if n < 13 then Cell(0x18, 1, 0x59, 0) else Cell(0x1f, 1, 0x59, 0)) else (if n < 15 then Cell(0x29, 1, 0x59, 0) else Cell(0x38, 1, 0x59, 1))
          )
        )
      ) else (
        // 61
        if n < 8 then (
          if n < 4 then (
            if n < 2 then (if n < 1 then Cell(0x02, 1, 0x6a, 0) else Cell(0x09, 1, 0x6a, 0)) else (if n < 3 then Cell(0x17, 1, 0x6a, 0) else Cell(0x28, 1, 0x6a, 1))
          ) else (
            if n < 6 then (if n < 5 then Cell(0x02, 1, 0x6b, 0) else Cell(0x09, 1, 0x6b, 0)) else (if n < 7 then Cell(0x17, 1, 0x6b, 0) else Cell(0x28, 1, 0x6b, 1))
          )
        ) else (
          if n < 12 then (
            if n < 10 then (if n < 9 then Cell(0x02, 1, 0x71, 0) else Cell(0x09, 1, 0x71, 0)) else (if n < 11 then Cell(0x17, 1, 0x71, 0) else Cell(0x28, 1, 0x71, 1))
          ) else (
            if n < 14 then (if n < 13 then Cell(0x02, 1, 0x76, 0) else Cell(0x09, 1, 0x76, 0)) else (if n < 15 then Cell(0x17, 1, 0x76, 0) else Cell(0x28, 1, 0x76, 1))
          )
        )
      )
    ) else (
      if s < 63 then (
        // 62
        if n < 8 then (
          if n < 4 then (
            if n < 2 then (if n < 1 then Cell(0x03, 1, 0x6a, 0) else Cell(0x06, 1, 0x6a, 0)) else (if n < 3 then Cell(0x0a, 1, 0x6a, 0) else Cell(0x0f, 1, 0x6a, 0))
          ) else (
            if n < 6 then (if n < 5 then Cell(0x18, 1, 0x6a, 0) else Cell(0x1f, 1, 0x6a, 0)) else (if n < 7 then Cell(0x29, 1, 0x6a, 0) else Cell(0x38, 1, 0x6a, 1))
          )
        ) else (
          if n < 12 then (
            if n < 10 then (if n < 9 then Cell(0x03, 1, 0x6b, 0) else Cell(0x06, 1, 0x6b, 0)) else (if n < 11 then Cell(0x0a, 1, 0x6b, 0) else Cell(0x0f, 1, 0x6b, 0))
          ) else (
            if n < 14 then (if n < 13 then Cell(0x18, 1, 0x6b, 0) else Cell(0x1f, 1, 0x6b, 0)) else (if n < 15 then Cell(0x29, 1, 0x6b, 0) else Cell(0x38, 1, 0x6b, 1))
          )
        )
      ) else (
        // 63
        if n < 8 then (
          if n < 4 then (
            if n < 2 then (if n < 1 then Cell(0x03, 1, 0x71, 0) else Cell(0x06, 1, 0x71, 0)) else (if n < 3 then Cell(0x0a, 1, 0x71, 0) else Cell(0x0f, 1, 0x71, 0))
          ) else (
            if n < 6 then (if n < 5 then Cell(0x18, 1, 0x71, 0) else Cell(0x1f, 1, 0x71, 0)) else (if n < 7 then Cell(0x29, 1, 0x71, 0) else Cell(0x38, 1, 0x71, 1))
          )
        ) else (
          if n < 12 then (
            if n < 10 then (if n < 9 then Cell(0x03, 1, 0x76, 0) else Cell(0x06, 1, 0x76, 0)) else (if n < 11 then Cell(0x0a, 1, 0x76, 0) else Cell(0x0f, 1, 0x76, 0))
          ) else (
            if n < 14 then (if n < 13 then Cell(0x18, 1, 0x76, 0) else Cell(0x1f, 1, 0x76, 0)) else (if n < 15 then Cell(0x29, 1, 0x76, 0) else Cell(0x38, 1, 0x76, 1))
          )
        )
      )
    )
  }

  function Rows64(s: nat, n: nat): Cell
  {
    if s < 66 then (
      if s < 65 then (
        // 64
        if n < 8 then (
          if n < 4 then (
            if n < 2 then (if n < 1 then Cell(0x01, 1, 0x77, 0) else Cell(0x16, 1, 0x77, 1)) else (if n < 3 then Cell(0x01, 1, 0x78, 0) else Cell(0x16, 1, 0x78, 1))
          ) else (
            if n < 6 then (if n < 5 then Cell(0x01, 1, 0x79, 0) else Cell(0x16, 1, 0x79, 1)) else (if n < 7 then Cell(0x01, 1, 0x7a, 0) else Cell(0x16, 1, 0x7a, 1))
          )
        ) else (
          if n < 12 then (
            if n < 10 then (if n < 9 then Cell(0x00, 1, 0x26, 1) else Cell(0x00, 1, 0x2a, 1)) else (if n < 11 then Cell(0x00, 1, 0x2c, 1) else Cell(0x00, 1, 0x3b, 1))
          ) else (
            if n < 14 then (if n < 13 then Cell(0x00, 1, 0x58, 1) else Cell(0x00, 1, 0x5a, 1)) else (if n < 15 then Cell(0x4b, 0, 0x00, 0) else Cell(0x4e, 0, 0x00, 1))
          )
        )
      ) else (
        // 65
        if n < 8 then (
          if n < 4 then (
            if n < 2 then (if n < 1 then Cell(0x02, 1, 0x77, 0) else Cell(0x09, 1, 0x77, 0)) else (if n < 3 then Cell(0x17, 1, 0x77, 0) else Cell(0x28, 1, 0x77, 1))
          ) else (
            if n < 6 then (if n < 5 then Cell(0x02, 1, 0x78, 0) else Cell(0x09, 1, 0x78, 0)) else (if n < 7 then Cell(0x17, 1, 0x78, 0) else Cell(0x28, 1, 0x78, 1))
          )
        ) else (
          if n < 12 then (
            if n < 10 then (if n < 9 then Cell(0x02, 1, 0x79, 0) else Cell(0x09, 1, 0x79, 0)) else (if n < 11 then Cell(0x17, 1, 0x79, 0) else Cell(0x28, 1, 0x79, 1))
          ) else (
            if n < 14 then (if n < 13 then Cell(0x02, 1, 0x7a, 0) else Cell(0x09, 1, 0x7a, 0)) else (if n < 15 then Cell(0x17, 1, 0x7a, 0) else Cell(0x28, 1, 0x7a, 1))
          )
        )
      )
    ) else (
      if s < 67 then (
        // 66
        if n < 8 then (
          if n < 4 then (
            if n < 2 then (if n < 1 then Cell(0x03, 1, 0x77, 0) else Cell(0x06, 1, 0x77, 0)) else (if n < 3 then Cell(0x0a, 1, 0x77, 0) else Cell(0x0f, 1, 0x77, 0))
          ) else (
            if n < 6 then (if n < 5 then Cell(0x18, 1, 0x77, 0) else Cell(0x1f, 1, 0x77, 0)) else (if n < 7 then Cell(0x29, 1, 0x77, 0) else Cell(0x38, 1, 0x77, 1))
          )
        ) else (
          if n < 12 then (
            if n < 10 then (if n < 9 then Cell(0x03, 1, 0x78, 0) else Cell(0x06, 1, 0x78, 0)) else (if n < 11 then Cell(0x0a, 1, 0x78, 0) else Cell(0x0f, 1, 0x78, 0))
          ) else (
            if n < 14 then (if n < 13 then Cell(0x18, 1, 0x78, 0) else Cell(0x1f, 1, 0x78, 0)) else (if n < 15 then Cell(0x29, 1, 0x78, 0) else Cell(0x38, 1, 0x78, 1))
          )
        )
      ) else (
        // 67
        if n < 8 then (
          if n < 4 then (
            if n < 2 then (if n < 1 then Cell(0x03, 1, 0x79, 0) else Cell(0x06, 1, 0x79, 0)) else (if n < 3 then Cell(0x0a, 1, 0x79, 0) else Cell(0x0f, 1, 0x79, 0))
          ) else (
            if n < 6 then (if n < 5 then Cell(0x18, 1, 0x79, 0) else Cell(0x1f, 1, 0x79, 0)) else (if n < 7 then Cell(0x29, 1, 0x79, 0) else Cell(0x38, 1, 0x79, 1))
          )
        ) else (
          if n < 12 then (
            if n < 10 then (if n < 9 then Cell(0x03, 1, 0x7a, 0) else Cell(0x06, 1, 0x7a, 0)) else (if n < 11 then Cell(0x0a, 1, 0x7a, 0) else Cell(0x0f, 1, 0x7a, 0))
          ) else (
            if n < 14 then (if n < 13 then Cell(0x18, 1, 0x7a, 0) else Cell(0x1f, 1, 0x7a, 0)) else (if n < 15 then Cell(0x29, 1, 0x7a, 0) else Cell(0x38, 1, 0x7a, 1))
          )
        )
      )
    )
  }

  function Rows68(s: nat, n: nat): Cell
  {
    if s < 70 then (
      if s < 69 then (
        // 68
        if n < 8 then (
          if n < 4 then (
            if n < 2 then (if n < 1 then Cell(0x01, 1, 0x26, 0) else Cell(0x16, 1, 0x26, 1)) else (if n < 3 then Cell(0x01, 1, 0x2a, 0) else Cell(0x16, 1, 0x2a, 1))
          ) else (
            if n < 6 then (if n < 5 then Cell(0x01, 1, 0x2c, 0) else Cell(0x16, 1, 0x2c, 1)) else (if n < 7 then Cell(0x01, 1, 0x3b, 0) else Cell(0x16, 1, 0x3b, 1))
          )
        ) else (
          if n < 12 then (
            if n < 10 then (if n < 9 then Cell(0x01, 1, 0x58, 0) else Cell(0x16, 1, 0x58, 1)) else (if n < 11 then Cell(0x01, 1, 0x5a, 0) else Cell(0x16, 1, 0x5a, 1))
          ) else (
            if n < 14 then (if n < 13 then Cell(0x4c, 0, 0x00, 0) else Cell(0x4d, 0, 0x00, 0)) else (if n < 15 then Cell(0x4f, 0, 0x00, 0) else Cell(0x51, 0, 0x00, 1))
          )
        )
      ) else (
        // 69
        if n < 8 then (
          if n < 4 then (
            if n < 2 then (if n < 1 then Cell(0x02, 1, 0x26, 0) else Cell(0x09, 1, 0x26, 0)) else (if n < 3 then Cell(0x17, 1, 0x26, 0) else Cell(0x28, 1, 0x26, 1))
          ) else (
            if n < 6 then (if n < 5 then Cell(0x02, 1, 0x2a, 0) else Cell(0x09, 1, 0x2a, 0)) else (if n < 7 then Cell(0x17, 1, 0x2a, 0) else Cell(0x28, 1, 0x2a, 1))
          )
        ) else (
          if n < 12 then (
            if n < 10 then (if n < 9 then Cell(0x02, 1, 0x2c, 0) else Cell(0x09, 1, 0x2c, 0)) else (if n < 11 then Cell(0x17, 1, 0x2c, 0) else Cell(0x28, 1, 0x2c, 1))
          ) else (
            if n < 14 then (if n < 13 then Cell(0x02, 1, 0x3b, 0) else Cell(0x09, 1, 0x3b, 0)) else (if n < 15 then Cell(0x17, 1, 0x3b, 0) else Cell(0x28, 1, 0x3b, 1))
          )
        )
      )
    ) else (
      if s < 71 then (
        // 70
        if n < 8 then (
          if n < 4 then (
            if n < 2 then (if n < 1 then Cell(0x03, 1, 0x26, 0) else Cell(0x06, 1, 0x26, 0)) else (if n < 3 then Cell(0x0a, 1, 0x26, 0) else Cell(0x0f, 1, 0x26, 0))
          ) else (
            if n < 6 then (if n < 5 then Cell(0x18, 1, 0x26, 0) else Cell(0x1f, 1, 0x26, 0)) else (if n < 7 then Cell(0x29, 1, 0x26, 0) else Cell(0x38, 1, 0x26, 1))
          )
        ) else (
          if n < 12 then (
            if n < 10 then (if n < 9 then Cell(0x03, 1, 0x2a, 0) else Cell(0x06, 1, 0x2a, 0)) else (if n < 11 then Cell(0x0a, 1, 0x2a, 0) else Cell(0x0f, 1, 0x2a, 0))
          ) else (
            if n < 14 then (if n < 13 then Cell(0x18, 1, 0x2a, 0) else Cell(0x1f, 1, 0x2a, 0)) else (if n < 15 then Cell(0x29, 1, 0x2a, 0) else Cell(0x38, 1, 0x2a, 1))
          )
        )
      ) else (
        // 71
        if n < 8 then (
          if n < 4 then (
            if n < 2 then (if n < 1 then Cell(0x03, 1, 0x2c, 0) else Cell(0x06, 1, 0x2c, 0)) else (if n < 3 then Cell(0x0a, 1, 0x2c, 0) else Cell(0x0f, 1, 0x2c, 0))
          ) else (
            if n < 6 then (if n < 5 then Cell(0x18, 1, 0x2c, 0) else Cell(0x1f, 1, 0x2c, 0)) else (if n < 7 then Cell(0x29, 1, 0x2c, 0) else Cell(0x38, 1, 0x2c, 1))
          )
        ) else (
          if n < 12 then (
            if n < 10 then (if n < 9 then Cell(0x03, 1, 0x3b, 0) else Cell(0x06, 1, 0x3b, 0)) else (if n < 11 then Cell(0x0a, 1, 0x3b, 0) else Cell(0x0f, 1, 0x3b, 0))
          ) else (
            if n < 14 then (if n < 13 then Cell(0x18, 1, 0x3b, 0) else Cell(0x1f, 1, 0x3b, 0)) else (if n < 15 then Cell(0x29, 1, 0x3b, 0) else Cell(0x38, 1, 0x3b, 1))
          )
        )
      )
    )
  }

  function Rows72(s: nat, n: nat): Cell
  {
    if s < 74 then (
      if s < 73 then (
        // 72
        if n < 8 then (
          if n < 4 then (
            if n < 2 then (if n < 1 then Cell(0x02, 1, 0x58, 0) else Cell(0x09, 1, 0x58, 0)) else (if n < 3 then Cell(0x17, 1, 0x58, 0) else Cell(0x28, 1, 0x58, 1))
          ) else (
            if n < 6 then (if n < 5 then Cell(0x02, 1, 0x5a, 0) else Cell(0x09, 1, 0x5a, 0)) else (if n < 7 then Cell(0x17, 1, 0x5a, 0) else Cell(0x28, 1, 0x5a, 1))
          )
        ) else (
          if n < 12 then (
            if n < 10 then (if n < 9 then Cell(0x00, 1, 0x21, 1) else Cell(0x00, 1, 0x22, 1)) else (if n < 11 then Cell(0x00, 1, 0x28, 1) else Cell(0x00, 1, 0x29, 1))
          ) else (
            if n < 14 then (if n < 13 then Cell(0x00, 1, 0x3f, 1) else Cell(0x50, 0, 0x00, 0)) else (if n < 15 then Cell(0x52, 0, 0x00, 0) else Cell(0x54, 0, 0x00, 1))
          )
        )
      ) else (
        // 73
        if n < 8 then (
          if n < 4 then (
            if n < 2 then (if n < 1 then Cell(0x03, 1, 0x58, 0) else Cell(0x06, 1, 0x58, 0)) else (if n < 3 then Cell(0x0a, 1, 0x58, 0) else Cell(0x0f, 1, 0x58, 0))
          ) else (
            if n < 6 then (if n < 5 then Cell(0x18, 1, 0x58, 0) else Cell(0x1f, 1, 0x58, 0)) else (if n < 7 then Cell(0x29, 1, 0x58, 0) else Cell(0x38, 1, 0x58, 1))
          )
        ) else (
          if n < 12 then (
            if n < 10 then (if n < 9 then Cell(0x03, 1, 0x5a, 0) else Cell(0x06, 1, 0x5a, 0)) else (if n < 11 then Cell(0x0a, 1, 0x5a, 0) else Cell(0x0f, 1, 0x5a, 0))
          ) else (
            if n < 14 then (if n < 13 then Cell(0x18, 1, 0x5a, 0) else Cell(0x1f, 1, 0x5a, 0)) else (if n < 15 then Cell(0x29, 1, 0x5a, 0) else Cell(0x38, 1, 0x5a, 1))
          )
        )
      )
    ) else (
      if s < 75 then (
        // 74
        if n < 8 then (
          if n < 4 then (
            if n < 2 then (if n < 1 then Cell(0x01, 1, 0x21, 0) else Cell(0x16, 1, 0x21, 1)) else (if n < 3 then Cell(0x01, 1, 0x22, 0) else Cell(0x16, 1, 0x22, 1))
          ) else (
            if n < 6 then (if n < 5 then Cell(0x01, 1, 0x28, 0) else Cell(0x16, 1, 0x28, 1)) else (if n < 7 then Cell(0x01, 1, 0x29, 0) else Cell(0x16, 1, 0x29, 1))
          )
        ) else (
          if n < 12 then (
            if n < 10 then (if n < 9 then Cell(0x01, 1, 0x3f, 0) else Cell(0x16, 1, 0x3f, 1)) else (if n < 11 then Cell(0x00, 1, 0x27, 1) else Cell(0x00, 1, 0x2b, 1))
          ) else (
            if n < 14 then (if n < 13 then Cell(0x00, 1, 0x7c, 1) else Cell(0x53, 0, 0x00, 0)) else (if n < 15 then Cell(0x55, 0, 0x00, 0) else Cell(0x58, 0, 0x00, 1))
          )
        )
      ) else (
        // 75
        if n < 8 then (
          if n < 4 then (
            if n < 2 then (if n < 1 then Cell(0x02, 1, 0x21, 0) else Cell(0x09, 1, 0x21, 0)) else (if n < 3 then Cell(0x17, 1, 0x21, 0) else Cell(0x28, 1, 0x21, 1))
          ) else (
            if n < 6 then (if n < 5 then Cell(0x02, 1, 0x22, 0) else Cell(0x09, 1, 0x22, 0)) else (if n < 7 then Cell(0x17, 1, 0x22, 0) else Cell(0x28, 1, 0x22, 1))
          )
        ) else (
          if n < 12 then (
            if n < 10 then (if n < 9 then Cell(0x02, 1, 0x28, 0) else Cell(0x09, 1, 0x28, 0)) else (if n < 11 then Cell(0x17, 1, 0x28, 0) else Cell(0x28, 1, 0x28, 1))
          ) else (
            if n < 14 then (if n < 13 then Cell(0x02, 1, 0x29, 0) else Cell(0x09, 1, 0x29, 0)) else (if n < 15 then Cell(0x17, 1, 0x29, 0) else Cell(0x28, 1, 0x29, 1))
          )
        )
      )
    )
  }

  function Rows76(s: nat, n: nat): Cell
  {
    if s < 78 then (
      if s < 77 then (
        // 76
        if n < 8 then (
          if n < 4 then (
            if n < 2 then (if n < 1 then Cell(0x03, 1, 0x21, 0) else Cell(0x06, 1, 0x21, 0)) else (if n < 3 then Cell(0x0a, 1, 0x21, 0) else Cell(0x0f, 1, 0x21, 0))
          ) else (
            if n < 6 then (if n < 5 then Cell(0x18, 1, 0x21, 0) else Cell(0x1f, 1, 0x21, 0)) else (if n < 7 then Cell(0x29, 1, 0x21, 0) else Cell(0x38, 1, 0x21, 1))
          )
        ) else (
          if n < 12 then (
            if n < 10 then (if n < 9 then Cell(0x03, 1, 0x22, 0) else Cell(0x06, 1, 0x22, 0)) else (if n < 11 then Cell(0x0a, 1, 0x22, 0) else Cell(0x0f, 1, 0x22, 0))
          ) else (
            if n < 14 then (if n < 13 then Cell(0x18, 1, 0x22, 0) else Cell(0x1f, 1, 0x22, 0)) else (if n < 15 then Cell(0x29, 1, 0x22, 0) else Cell(0x38, 1, 0x22, 1))
          )
        )
      ) else (
        // 77
        if n < 8 then (
          if n < 4 then (
            if n < 2 then (if n < 1 then Cell(0x03, 1, 0x28, 0) else Cell(0x06, 1, 0x28, 0)) else (if n < 3 then Cell(0x0a, 1, 0x28, 0) else Cell(0x0f, 1, 0x28, 0))
          ) else (
            if n < 6 then (if n < 5 then Cell(0x18, 1, 0x28, 0) else Cell(0x1f, 1, 0x28, 0)) else (if n < 7 then Cell(0x29, 1, 0x28, 0) else Cell(0x38, 1, 0x28, 1))
          )
        ) else (
          if n < 12 then (
            if n < 10 then (if n < 9 then Cell(0x03, 1, 0x29, 0) else Cell(0x06, 1, 0x29, 0)) else (if n < 11 then Cell(0x0a, 1, 0x29, 0) else Cell(0x0f, 1, 0x29, 0))
          ) else (
            if n < 14 then (if n < 13 then Cell(0x18, 1, 0x29, 0) else Cell(0x1f, 1, 0x29, 0)) else (if n < 15 then Cell(0x29, 1, 0x29, 0) else Cell(0x38, 1, 0x29, 1))
          )
        )
      )
    ) else (
      if s < 79 then (
        // 78
        if n < 8 then (
          if n < 4 then (
            if n < 2 then (if n < 1 then Cell(0x02, 1, 0x3f, 0) else Cell(0x09, 1, 0x3f, 0)) else (if n < 3 then Cell(0x17, 1, 0x3f, 0) else Cell(0x28, 1, 0x3f, 1))
          ) else (
            if n < 6 then (if n < 5 then Cell(0x01, 1, 0x27, 0) else Cell(0x16, 1, 0x27, 1)) else (if n < 7 then Cell(0x01, 1, 0x2b, 0) else Cell(0x16, 1, 0x2b, 1))
          )
        ) else (
          if n < 12 then (
            if n < 10 then (if n < 9 then Cell(0x01, 1, 0x7c, 0) else Cell(0x16, 1, 0x7c, 1)) else (if n < 11 then Cell(0x00, 1, 0x23, 1) else Cell(0x00, 1, 0x3e, 1))
          ) else (
            if n < 14 then (if n < 13 then Cell(0x56, 0, 0x00, 0) else Cell(0x57, 0, 0x00, 0)) else (if n < 15 then Cell(0x59, 0, 0x00, 0) else Cell(0x5a, 0, 0x00, 1))
          )
        )
      ) else (
        // 79
        if n < 8 then (
          if n < 4 then (
            if n < 2 then (if n < 1 then Cell(0x03, 1, 0x3f, 0) else Cell(0x06, 1, 0x3f, 0)) else (if n < 3 then Cell(0x0a, 1, 0x3f, 0) else Cell(0x0f, 1, 0x3f, 0))
          ) else (
            if n < 6 then (if n < 5 then Cell(0x18, 1, 0x3f, 0) else Cell(0x1f, 1, 0x3f, 0)) else (if n < 7 then Cell(0x29, 1, 0x3f, 0) else Cell(0x38, 1, 0x3f, 1))
          )
        ) else (
          if n < 12 then (
            if n < 10 then (if n < 9 then Cell(0x02, 1, 0x27, 0) else Cell(0x09, 1, 0x27, 0)) else (if n < 11 then Cell(0x17, 1, 0x27, 0) else Cell(0x28, 1, 0x27, 1))
          ) else (
            if n < 14 then (if n < 13 then Cell(0x02, 1, 0x2b, 0) else Cell(0x09, 1, 0x2b, 0)) else (if n < 15 then Cell(0x17, 1, 0x2b, 0) else Cell(0x28, 1, 0x2b, 1))
          )
        )
      )
    )
  }

  function Rows80(s: nat, n: nat): Cell
  {
    if s < 82 then (
      if s < 81 then (
        // 80
        if n < 8 then (
          if n < 4 then (
            if n < 2 then (if n < 1 then Cell(0x03, 1, 0x27, 0) else Cell(0x06, 1, 0x27, 0)) else (if n < 3 then Cell(0x0a, 1, 0x27, 0) else Cell(0x0f, 1, 0x27, 0))
          ) else (
            if n < 6 then (if n < 5 then Cell(0x18, 1, 0x27, 0) else Cell(0x1f, 1, 0x27, 0)) else (if n < 7 then Cell(0x29, 1, 0x27, 0) else Cell(0x38, 1, 0x27, 1))
          )
        ) else (
          if n < 12 then (
            if n < 10 then (if n < 9 then Cell(0x03, 1, 0x2b, 0) else Cell(0x06, 1, 0x2b, 0)) else (if n < 11 then Cell(0x0a, 1, 0x2b, 0) else Cell(0x0f, 1, 0x2b, 0))
          ) else (
            if n < 14 then (if n < 13 then Cell(0x18, 1, 0x2b, 0) else Cell(0x1f, 1, 0x2b, 0)) else (if n < 15 then Cell(0x29, 1, 0x2b, 0) else Cell(0x38, 1, 0x2b, 1))
          )
        )
      ) else (
        // 81
        if n < 8 then (
          if n < 4 then (
            if n < 2 then (if n < 1 then Cell(0x02, 1, 0x7c, 0) else Cell(0x09, 1, 0x7c, 0)) else (if n < 3 then Cell(0x17, 1, 0x7c, 0) else Cell(0x28, 1, 0x7c, 1))
          ) else (
            if n < 6 then (if n < 5 then Cell(0x01, 1, 0x23, 0) else Cell(0x16, 1, 0x23, 1)) else (if n < 7 then Cell(0x01, 1, 0x3e, 0) else Cell(0x16, 1, 0x3e, 1))
          )
        ) else (
          if n < 12 then (
            if n < 10 then (if n < 9 then Cell(0x00, 1, 0x00, 1) else Cell(0x00, 1, 0x24, 1)) else (if n < 11 then Cell(0x00, 1, 0x40, 1) else Cell(0x00, 1, 0x5b, 1))
          ) else (
            if n < 14 then (if n < 13 then Cell(0x00, 1, 0x5d, 1) else Cell(0x00, 1, 0x7e, 1)) else (if n < 15 then Cell(0x5b, 0, 0x00, 0) else Cell(0x5c, 0, 0x00, 1))
          )
        )
      )
    ) else (
      if s < 83 then (
        // 82
        if n < 8 then (
          if n < 4 then (
            if n < 2 then (if n < 1 then Cell(0x03, 1, 0x7c, 0) else Cell(0x06, 1, 0x7c, 0)) else (if n < 3 then Cell(0x0a, 1, 0x7c, 0) else Cell(0x0f, 1, 0x7c, 0))
          ) else (
            if n < 6 then (if n < 5 then Cell(0x18, 1, 0x7c, 0) else Cell(0x1f, 1, 0x7c, 0)) else (if n < 7 then Cell(0x29, 1, 0x7c, 0) else Cell(0x38, 1, 0x7c, 1))
          )
        ) else (
          if n < 12 then (
            if n < 10 then (if n < 9 then Cell(0x02, 1, 0x23, 0) else Cell(0x09, 1, 0x23, 0)) else (if n < 11 then Cell(0x17, 1, 0x23, 0) else Cell(0x28, 1, 0x23, 1))
          ) else (
            if n < 14 then (if n < 13 then Cell(0x02, 1, 0x3e, 0) else Cell(0x09, 1, 0x3e, 0)) else (if n < 15 then Cell(0x17, 1, 0x3e, 0) else Cell(0x28, 1, 0x3e, 1))
          )
        )
      ) else (
        // 83
        if n < 8 then (
          if n < 4 then (
            if n < 2 then (if n < 1 then Cell(0x03, 1, 0x23, 0) else Cell(0x06, 1, 0x23, 0)) else (if n < 3 then Cell(0x0a, 1, 0x23, 0) else Cell(0x0f, 1, 0x23, 0))
          ) else (
            if n < 6 then (if n < 5 then Cell(0x18, 1, 0x23, 0) else Cell(0x1f, 1, 0x23, 0)) else (if n < 7 then Cell(0x29, 1, 0x23, 0) else Cell(0x38, 1, 0x23, 1))
          )
        ) else (
          if n < 12 then (
            if n < 10 then (if n < 9 then Cell(0x03, 1, 0x3e, 0) else Cell(0x06, 1, 0x3e, 0)) else (if n < 11 then Cell(0x0a, 1, 0x3e, 0) else Cell(0x0f, 1, 0x3e, 0))
          ) else (
            if n < 14 then (if n < 13 then Cell(0x18, 1, 0x3e, 0) else Cell(0x1f, 1, 0x3e, 0)) else (if n < 15 then Cell(0x29, 1, 0x3e, 0) else Cell(0x38, 1, 0x3e, 1))
          )
        )
      )
    )
  }

  function Rows84(s: nat, n: nat): Cell
  {
    if s < 86 then (
      if s < 85 then (
        // 84
        if n < 8 then (
          if n < 4 then (
            if n < 2 then (if n < 1 then Cell(0x01, 1, 0x00, 0) else Cell(0x16, 1, 0x00, 1)) else (if n < 3 then Cell(0x01, 1, 0x24, 0) else Cell(0x16, 1, 0x24, 1))
          ) else (
            if n < 6 then (if n < 5 then Cell(0x01, 1, 0x40, 0) else Cell(0x16, 1, 0x40, 1)) else (if n < 7 then Cell(0x01, 1, 0x5b, 0) else Cell(0x16, 1, 0x5b, 1))
          )
        ) else (
          if n < 12 then (
            if n < 10 then (if n < 9 then Cell(0x01, 1, 0x5d, 0) else Cell(0x16, 1, 0x5d, 1)) else (if n < 11 then Cell(0x01, 1, 0x7e, 0) else Cell(0x16, 1, 0x7e, 1))
          ) else (
            if n < 14 then (if n < 13 then Cell(0x00, 1, 0x5e, 1) else Cell(0x00, 1, 0x7d, 1)) else (if n < 15 then Cell(0x5d, 0, 0x00, 0) else Cell(0x5e, 0, 0x00, 1))
          )
        )
      ) else (
        // 85
        if n < 8 then (
          if n < 4 then (
            if n < 2 then (if n < 1 then Cell(0x02, 1, 0x00, 0) else Cell(0x09, 1, 0x00, 0)) else (if n < 3 then Cell(0x17, 1, 0x00, 0) else Cell(0x28, 1, 0x00, 1))
          ) else (
            if n < 6 then (if n < 5 then Cell(0x02, 1, 0x24, 0) else Cell(0x09, 1, 0x24, 0)) else (if n < 7 then Cell(0x17, 1, 0x24, 0) else Cell(0x28, 1, 0x24, 1))
          )
        ) else (
          if n < 12 then (
            if n < 10 then (if n < 9 then Cell(0x02, 1, 0x40, 0) else Cell(0x09, 1, 0x40, 0)) else (if n < 11 then Cell(0x17, 1, 0x40, 0) else Cell(0x28, 1, 0x40, 1))
          ) else (
            if n < 14 then (if n < 13 then Cell(0x02, 1, 0x5b, 0) else Cell(0x09, 1, 0x5b, 0)) else (if n < 15 then Cell(0x17, 1, 0x5b, 0) else Cell(0x28, 1, 0x5b, 1))
          )
        )
      )
    ) else (
      if s < 87 then (
        // 86
        if n < 8 then (
          if n < 4 then (
            if n < 2 then (if n < 1 then Cell(0x03, 1, 0x00, 0) else Cell(0x06, 1, 0x00, 0)) else (if n < 3 then Cell(0x0a, 1, 0x00, 0) else Cell(0x0f, 1, 0x00, 0))
          ) else (
            if n < 6 then (if n < 5 then Cell(0x18, 1, 0x00, 0) else Cell(0x1f, 1, 0x00, 0)) else (if n < 7 then Cell(0x29, 1, 0x00, 0) else Cell(0x38, 1, 0x00, 1))
          )
        ) else (
          if n < 12 then (
            if n < 10 then (if n < 9 then Cell(0x03, 1, 0x24, 0) else Cell(0x06, 1, 0x24, 0)) else (if n < 11 then Cell(0x0a, 1, 0x24, 0) else Cell(0x0f, 1, 0x24, 0))
          ) else (
            if n < 14 then (if n < 13 then Cell(0x18, 1, 0x24, 0) else Cell(0x1f, 1, 0x24, 0)) else (if n < 15 then Cell(0x29, 1, 0x24, 0) else Cell(0x38, 1, 0x24, 1))
          )
        )
      ) else (
        // 87
        if n < 8 then (
          if n < 4 then (
            if n < 2 then (if n < 1 then Cell(0x03, 1, 0x40, 0) else Cell(0x06, 1, 0x40, 0)) else (if n < 3 then Cell(0x0a, 1, 0x40, 0) else Cell(0x0f, 1, 0x40, 0))
          ) else (
            if n < 6 then (if n < 5 then Cell(0x18, 1, 0x40, 0) else Cell(0x1f, 1, 0x40, 0)) else (if n < 7 then Cell(0x29, 1, 0x40, 0) else Cell(0x38, 1, 0x40, 1))
          )
        ) else (
          if n < 12 then (
            if n < 10 then (if n < 9 then Cell(0x03, 1, 0x5b, 0) else Cell(0x06, 1, 0x5b, 0)) else (if n < 11 then Cell(0x0a, 1, 0x5b, 0) else Cell(0x0f, 1, 0x5b, 0))
          ) else (
            if n < 14 then (if n < 13 then Cell(0x18, 1, 0x5b, 0) else Cell(0x1f, 1, 0x5b, 0)) else (if n < 15 then Cell(0x29, 1, 0x5b, 0) else Cell(0x38, 1, 0x5b, 1))
          )
        )
      )
    )
  }

  function Rows88(s: nat, n: nat): Cell
  {
    if s < 90 then (
      if s < 89 then (
        // 88
        if n < 8 then (
          if n < 4 then (
            if n < 2 then (if n < 1 then Cell(0x02, 1, 0x5d, 0) else Cell(0x09, 1, 0x5d, 0)) else (if n < 3 then Cell(0x17, 1, 0x5d, 0) else Cell(0x28, 1, 0x5d, 1))
          ) else (
            if n < 6 then (if n < 5 then Cell(0x02, 1, 0x7e, 0) else Cell(0x09, 1, 0x7e, 0)) else (if n < 7 then Cell(0x17, 1, 0x7e, 0) else Cell(0x28, 1, 0x7e, 1))
          )
        ) else (
          if n < 12 then (
            if n < 10 then (if n < 9 then Cell(0x01, 1, 0x5e, 0) else Cell(0x16, 1, 0x5e, 1)) else (if n < 11 then Cell(0x01, 1, 0x7d, 0) else Cell(0x16, 1, 0x7d, 1))
          ) else (
            if n < 14 then (if n < 13 then Cell(0x00, 1, 0x3c, 1) else Cell(0x00, 1, 0x60, 1)) else (if n < 15 then Cell(0x00, 1, 0x7b, 1) else Cell(0x5f, 0, 0x00, 1))
          )
        )
      ) else (
        // 89
        if n < 8 then (
          if n < 4 then (
            if n < 2 then (if n < 1 then Cell(0x03, 1, 0x5d, 0) else Cell(0x06, 1, 0x5d, 0)) else (if n < 3 then Cell(0x0a, 1, 0x5d, 0) else Cell(0x0f, 1, 0x5d, 0))
          ) else (
            if n < 6 then (if n < 5 then Cell(0x18, 1, 0x5d, 0) else Cell(0x1f, 1, 0x5d, 0)) else (if n < 7 then Cell(0x29, 1, 0x5d, 0) else Cell(0x38, 1, 0x5d, 1))
          )
        ) else (
          if n < 12 then (
            if n < 10 then (if n < 9 then Cell(0x03, 1, 0x7e, 0) else Cell(0x06, 1, 0x7e, 0)) else (if n < 11 then Cell(0x0a, 1, 0x7e, 0) else Cell(0x0f, 1, 0x7e, 0))
          ) else (
            if n < 14 then (if n < 13 then Cell(0x18, 1, 0x7e, 0) else Cell(0x1f, 1, 0x7e, 0)) else (if n < 15 then Cell(0x29, 1, 0x7e, 0) else Cell(0x38, 1, 0x7e, 1))
          )
        )
      )
    ) else (
      if s < 91 then (
        // 90
        if n < 8 then (
          if n < 4 then (
            if n < 2 then (if n < 1 then Cell(0x02, 1, 0x5e, 0) else Cell(0x09, 1, 0x5e, 0)) else (if n < 3 then Cell(0x17, 1, 0x5e, 0) else Cell(0x28, 1, 0x5e, 1))
          ) else (
            if n < 6 then (if n < 5 then Cell(0x02, 1, 0x7d, 0) else Cell(0x09, 1, 0x7d, 0)) else (if n < 7 then Cell(0x17, 1, 0x7d, 0) else Cell(0x28, 1, 0x7d, 1))
          )
        ) else (
          if n < 12 then (
            if n < 10 then (if n < 9 then Cell(0x01, 1, 0x3c, 0) else Cell(0x16, 1, 0x3c, 1)) else (if n < 11 then Cell(0x01, 1, 0x60, 0) else Cell(0x16, 1, 0x60, 1))
          ) else (
            if n < 14 then (if n < 13 then Cell(0x01, 1, 0x7b, 0) else Cell(0x16, 1, 0x7b, 1)) else (if n < 15 then Cell(0x60, 0, 0x00, 0) else Cell(0x6e, 0, 0x00, 1))
          )
        )
      ) else (
        // 91
        if n < 8 then (
          if n < 4 then (
            if n < 2 then (if n < 1 then Cell(0x03, 1, 0x5e, 0) else Cell(0x06, 1, 0x5e, 0)) else (if n < 3 then Cell(0x0a, 1, 0x5e, 0) else Cell(0x0f, 1, 0x5e, 0))
          ) else (
            if n < 6 then (if n < 5 then Cell(0x18, 1, 0x5e, 0) else Cell(0x1f, 1, 0x5e, 0)) else (if n < 7 then Cell(0x29, 1, 0x5e, 0) else Cell(0x38, 1, 0x5e, 1))
          )
        ) else (
          if n < 12 then (
            if n < 10 then (if n < 9 then Cell(0x03, 1, 0x7d, 0) else Cell(0x06, 1, 0x7d, 0)) else (if n < 11 then Cell(0x0a, 1, 0x7d, 0) else Cell(0x0f, 1, 0x7d, 0))
          ) else (
            if n < 14 then (if n < 13 then Cell(0x18, 1, 0x7d, 0) else Cell(0x1f, 1, 0x7d, 0)) else (if n < 15 then Cell(0x29, 1, 0x7d, 0) else Cell(0x38, 1, 0x7d, 1))
          )
        )
      )
    )
  }

  function Rows92(s: nat, n: nat): Cell
  {
    if s < 94 then (
      if s < 93 then (
        // 92
        if n < 8 then (
          if n < 4 then (
            if n < 2 then (if n < 1 then Cell(0x02, 1, 0x3c, 0) else Cell(0x09, 1, 0x3c, 0)) else (if n < 3 then Cell(0x17, 1, 0x3c, 0) else Cell(0x28, 1, 0x3c, 1))
          ) else (
            if n < 6 then (if n < 5 then Cell(0x02, 1, 0x60, 0) else Cell(0x09, 1, 0x60, 0)) else (if n < 7 then Cell(0x17, 1, 0x60, 0) else Cell(0x28, 1, 0x60, 1))
          )
        ) else (
          if n < 12 then (
            if n < 10 then (if n < 9 then Cell(0x02, 1, 0x7b, 0) else Cell(0x09, 1, 0x7b, 0)) else (if n < 11 then Cell(0x17, 1, 0x7b, 0) else Cell(0x28, 1, 0x7b, 1))
          ) else (
            if n < 14 then (if n < 13 then Cell(0x61, 0, 0x00, 0) else Cell(0x65, 0, 0x00, 0)) else (if n < 15 then Cell(0x6f, 0, 0x00, 0) else Cell(0x85, 0, 0x00, 1))
          )
        )
      ) else (
        // 93
        if n < 8 then (
          if n < 4 then (
            if n < 2 then (if n < 1 then Cell(0x03, 1, 0x3c, 0) else Cell(0x06, 1, 0x3c, 0)) else (if n < 3 then Cell(0x0a, 1, 0x3c, 0) else Cell(0x0f, 1, 0x3c, 0))
          ) else (
            if n < 6 then (if n < 5 then Cell(0x18, 1, 0x3c, 0) else Cell(0x1f, 1, 0x3c, 0)) else (if n < 7 then Cell(0x29, 1, 0x3c, 0) else Cell(0x38, 1, 0x3c, 1))
          )
        ) else (
          if n < 12 then (
            if n < 10 then (if n < 9 then Cell(0x03, 1, 0x60, 0) else Cell(0x06, 1, 0x60, 0)) else (if n < 11 then Cell(0x0a, 1, 0x60, 0) else Cell(0x0f, 1, 0x60, 0))
          ) else (
            if n < 14 then (if n < 13 then Cell(0x18, 1, 0x60, 0) else Cell(0x1f, 1, 0x60, 0)) else (if n < 15 then Cell(0x29, 1, 0x60, 0) else Cell(0x38, 1, 0x60, 1))
          )
        )
      )
    ) else (
      if s < 95 then (
        // 94
        if n < 8 then (
          if n < 4 then (
            if n < 2 then (if n < 1 then Cell(0x03, 1, 0x7b, 0) else Cell(0x06, 1, 0x7b, 0)) else (if n < 3 then Cell(0x0a, 1, 0x7b, 0) else Cell(0x0f, 1, 0x7b, 0))
          ) else (
            if n < 6 then (if n < 5 then Cell(0x18, 1, 0x7b, 0) else Cell(0x1f, 1, 0x7b, 0)) else (if n < 7 then Cell(0x29, 1, 0x7b, 0) else Cell(0x38, 1, 0x7b, 1))
          )
        ) else (
          if n < 12 then (
            if n < 10 then (if n < 9 then Cell(0x62, 0, 0x00, 0) else Cell(0x63, 0, 0x00, 0)) else (if n < 11 then Cell(0x66, 0, 0x00, 0) else Cell(0x69, 0, 0x00, 0))
          ) else (
            if n < 14 then (if n < 13 then Cell(0x70, 0, 0x00, 0) else Cell(0x77, 0, 0x00, 0)) else (if n < 15 then Cell(0x86, 0, 0x00, 0) else Cell(0x99, 0, 0x00, 1))
          )
        )
      ) else (
        // 95
        if n < 8 then (
          if n < 4 then (
            if n < 2 then (if n < 1 then Cell(0x00, 1, 0x5c, 1) else Cell(0x00, 1, 0xc3, 1)) else (if n < 3 then Cell(0x00, 1, 0xd0, 1) else Cell(0x64, 0, 0x00, 0))
          ) else (
            if n < 6 then (if n < 5 then Cell(0x67, 0, 0x00, 0) else Cell(0x68, 0, 0x00, 0)) else (if n < 7 then Cell(0x6a, 0, 0x00, 0) else Cell(0x6b, 0, 0x00, 0))
          )
        ) else (
          if n < 12 then (
            if n < 10 then (if n < 9 then Cell(0x71, 0, 0x00, 0) else Cell(0x74, 0, 0x00, 0)) else (if n < 11 then Cell(0x78, 0, 0x00, 0) else Cell(0x7e, 0, 0x00, 0))
          ) else (
            if n < 14 then (if n < 13 then Cell(0x87, 0, 0x00, 0) else Cell(0x8e, 0, 0x00, 0)) else (if n < 15 then Cell(0x9a, 0, 0x00, 0) else Cell(0xa9, 0, 0x00, 1))
          )
        )
      )
    )
  }

  function Rows96(s: nat, n: nat): Cell
  {
    if s < 98 then (
      if s < 97 then (
        // 96
        if n < 8 then (
          if n < 4 then (
            if n < 2 then (if n < 1 then Cell(0x01, 1, 0x5c, 0) else Cell(0x16, 1, 0x5c, 1)) else (if n < 3 then Cell(0x01, 1, 0xc3, 0) else Cell(0x16, 1, 0xc3, 1))
          ) else (
            if n < 6 then (if n < 5 then Cell(0x01, 1, 0xd0, 0) else Cell(0x16, 1, 0xd0, 1)) else (if n < 7 then Cell(0x00, 1, 0x80, 1) else Cell(0x00, 1, 0x82, 1))
          )
        ) else (
          if n < 12 then (
            if n < 10 then (if n < 9 then Cell(0x00, 1, 0x83, 1) else Cell(0x00, 1, 0xa2, 1)) else (if n < 11 then Cell(0x00, 1, 0xb8, 1) else Cell(0x00, 1, 0xc2, 1))
          ) else (
            if n < 14 then (if n < 13 then Cell(0x00, 1, 0xe0, 1) else Cell(0x00, 1, 0xe2, 1)) else (if n < 15 then Cell(0x6c, 0, 0x00, 0) else Cell(0x6d, 0, 0x00, 0))
          )
        )
      ) else (
        // 97
        if n < 8 then (
          if n < 4 then (
            if n < 2 then (if n < 1 then Cell(0x02, 1, 0x5c, 0) else Cell(0x09, 1, 0x5c, 0)) else (if n < 3 then Cell(0x17, 1, 0x5c, 0) else Cell(0x28, 1, 0x5c, 1))
          ) else (
            if n < 6 then (if n < 5 then Cell(0x02, 1, 0xc3, 0) else Cell(0x09, 1, 0xc3, 0)) else (if n < 7 then Cell(0x17, 1, 0xc3, 0) else Cell(0x28, 1, 0xc3, 1))
          )
        ) else (
          if n < 12 then (
            if n < 10 then (if n < 9 then Cell(0x02, 1, 0xd0, 0) else Cell(0x09, 1, 0xd0, 0)) else (if n < 11 then Cell(0x17, 1, 0xd0, 0) else Cell(0x28, 1, 0xd0, 1))
          ) else (
            if n < 14 then (if n < 13 then Cell(0x01, 1, 0x80, 0) else Cell(0x16, 1, 0x80, 1)) else (if n < 15 then Cell(0x01, 1, 0x82, 0) else Cell(0x16, 1, 0x82, 1))
          )
        )
      )
    ) else (
      if s < 99 then (
        // 98
        if n < 8 then (
          if n < 4 then (
            if n < 2 then (if n < 1 then Cell(0x03, 1, 0x5c, 0) else Cell(0x06, 1, 0x5c, 0)) else (if n < 3 then Cell(0x0a, 1, 0x5c, 0) else Cell(0x0f, 1, 0x5c, 0))
          ) else (
            if n < 6 then (if n < 5 then Cell(0x18, 1, 0x5c, 0) else Cell(0x1f, 1, 0x5c, 0)) else (if n < 7 then Cell(0x29, 1, 0x5c, 0) else Cell(0x38, 1, 0x5c, 1))
          )
        ) else (
          if n < 12 then (
            if n < 10 then (if n < 9 then Cell(0x03, 1, 0xc3, 0) else Cell(0x06, 1, 0xc3, 0)) else (if n < 11 then Cell(0x0a, 1, 0xc3, 0) else Cell(0x0f, 1, 0xc3, 0))
          ) else (
            if n < 14 then (if n < 13 then Cell(0x18, 1, 0xc3, 0) else Cell(0x1f, 1, 0xc3, 0)) else (if n < 15 then Cell(0x29, 1, 0xc3, 0) else Cell(0x38, 1, 0xc3, 1))
          )
        )
      ) else (
        // 99
        if n < 8 then (
          if n < 4 then (
            if n < 2 then (if n < 1 then Cell(0x03, 1, 0xd0, 0) else Cell(0x06, 1, 0xd0, 0)) else (if n < 3 then Cell(0x0a, 1, 0xd0, 0) else Cell(0x0f, 1, 0xd0, 0))
          ) else (
            if n < 6 then (if n < 5 then Cell(0x18, 1, 0xd0, 0) else Cell(0x1f, 1, 0xd0, 0)) else (if n < 7 then Cell(0x29, 1, 0xd0, 0) else Cell(0x38, 1, 0xd0, 1))
          )
        ) else (
          if n < 12 then (
            if n < 10 then (if n < 9 then Cell(0x02, 1, 0x80, 0) else Cell(0x09, 1, 0x80, 0)) else (if n < 11 then Cell(0x17, 1, 0x80, 0) else Cell(0x28, 1, 0x80, 1))
          ) else (
            if n < 14 then (if n < 13 then Cell(0x02, 1, 0x82, 0) else Cell(0x09, 1, 0x82, 0)) else (if n < 15 then Cell(0x17, 1, 0x82, 0) else Cell(0x28, 1, 0x82, 1))
          )
        )
      )
    )
  }

  function Rows100(s: nat, n: nat): Cell
  {
    if s < 102 then (
      if s < 101 then (
        // 100
        if n < 8 then (
          if n < 4 then (
            if n < 2 then (if n < 1 then Cell(0x03, 1, 0x80, 0) else Cell(0x06, 1, 0x80, 0)) else (if n < 3 then Cell(0x0a, 1, 0x80, 0) else Cell(0x0f, 1, 0x80, 0))
          ) else (
            if n < 6 then (if n < 5 then Cell(0x18, 1, 0x80, 0) else Cell(0x1f, 1, 0x80, 0)) else (if n < 7 then Cell(0x29, 1, 0x80, 0) else Cell(0x38, 1, 0x80, 1))
          )
        ) else (
          if n < 12 then (
            if n < 10 then (if n < 9 then Cell(0x03, 1, 0x82, 0) else Cell(0x06, 1, 0x82, 0)) else (if n < 11 then Cell(0x0a, 1, 0x82, 0) else Cell(0x0f, 1, 0x82, 0))
          ) else (
            if n < 14 then (if n < 13 then Cell(0x18, 1, 0x82, 0) else Cell(0x1f, 1, 0x82, 0)) else (if n < 15 then Cell(0x29, 1, 0x82, 0) else Cell(0x38, 1, 0x82, 1))
          )
        )
      ) else (
        // 101
        if n < 8 then (
          if n < 4 then (
            if n < 2 then (if n < 1 then Cell(0x01, 1, 0x83, 0) else Cell(0x16, 1, 0x83, 1)) else (if n < 3 then Cell(0x01, 1, 0xa2, 0) else Cell(0x16, 1, 0xa2, 1))
          ) else (
            if n < 6 then (if n < 5 then Cell(0x01, 1, 0xb8, 0) else Cell(0x16, 1, 0xb8, 1)) else (if n < 7 then Cell(0x01, 1, 0xc2, 0) else Cell(0x16, 1, 0xc2, 1))
          )
        ) else (
          if n < 12 then (
            if n < 10 then (if n < 9 then Cell(0x01, 1, 0xe0, 0) else Cell(0x16, 1, 0xe0, 1)) else (if n < 11 then Cell(0x01, 1, 0xe2, 0) else Cell(0x16, 1, 0xe2, 1))
          ) else (
            if n < 14 then (if n < 13 then Cell(0x00, 1, 0x99, 1) else Cell(0x00, 1, 0xa1, 1)) else (if n < 15 then Cell(0x00, 1, 0xa7, 1) else Cell(0x00, 1, 0xac, 1))
          )
        )
      )
    ) else (
      if s < 103 then (
        // 102
        if n < 8 then (
          if n < 4 then (
            if n < 2 then (if n < 1 then Cell(0x02, 1, 0x83, 0) else Cell(0x09, 1, 0x83, 0)) else (if n < 3 then Cell(0x17, 1, 0x83, 0) else Cell(0x28, 1, 0x83, 1))
          ) else (
            if n < 6 then (if n < 5 then Cell(0x02, 1, 0xa2, 0) else Cell(0x09, 1, 0xa2, 0)) else (if n < 7 then Cell(0x17, 1, 0xa2, 0) else Cell(0x28, 1, 0xa2, 1))
          )
        ) else (
          if n < 12 then (
            if n < 10 then (if n < 9 then Cell(0x02, 1, 0xb8, 0) else Cell(0x09, 1, 0xb8, 0)) else (if n < 11 then Cell(0x17, 1, 0xb8, 0) else Cell(0x28, 1, 0xb8, 1))
          ) else (
            if n < 14 then (if n < 13 then Cell(0x02, 1, 0xc2, 0) else Cell(0x09, 1, 0xc2, 0)) else (if n < 15 then Cell(0x17, 1, 0xc2, 0) else Cell(0x28, 1, 0xc2, 1))
          )
        )
      ) else (
        // 103
        if n < 8 then (
          if n < 4 then (
            if n < 2 then (if n < 1 then Cell(0x03, 1, 0x83, 0) else Cell(0x06, 1, 0x83, 0)) else (if n < 3 then Cell(0x0a, 1, 0x83, 0) else Cell(0x0f, 1, 0x83, 0))
          ) else (
            if n < 6 then (if n < 5 then Cell(0x18, 1, 0x83, 0) else Cell(0x1f, 1, 0x83, 0)) else (if n < 7 then Cell(0x29, 1, 0x83, 0) else Cell(0x38, 1, 0x83, 1))
          )
        ) else (
          if n < 12 then (
            if n < 10 then (if n < 9 then Cell(0x03, 1, 0xa2, 0) else Cell(0x06, 1, 0xa2, 0)) else (if n < 11 then Cell(0x0a, 1, 0xa2, 0) else Cell(0x0f, 1, 0xa2, 0))
          ) else (
            if n < 14 then (if n < 13 then Cell(0x18, 1, 0xa2, 0) else Cell(0x1f, 1, 0xa2, 0)) else (if n < 15 then Cell(0x29, 1, 0xa2, 0) else Cell(0x38, 1, 0xa2, 1))
          )
        )
      )
    )
  }

  function Rows104(s: nat, n: nat): Cell
  {
    if s < 106 then (
      if s < 105 then (
        // 104
        if n < 8 then (
          if n < 4 then (
            if n < 2 then (if n < 1 then Cell(0x03, 1, 0xb8, 0) else Cell(0x06, 1, 0xb8, 0)) else (if n < 3 then Cell(0x0a, 1, 0xb8, 0) else Cell(0x0f, 1, 0xb8, 0))
          ) else (
            if n < 6 then (if n < 5 then Cell(0x18, 1, 0xb8, 0) else Cell(0x1f, 1, 0xb8, 0)) else (if n < 7 then Cell(0x29, 1, 0xb8, 0) else Cell(0x38, 1, 0xb8, 1))
          )
        ) else (
          if n < 12 then (
            if n < 10 then (if n < 9 then Cell(0x03, 1, 0xc2, 0) else Cell(0x06, 1, 0xc2, 0)) else (if n < 11 then Cell(0x0a, 1, 0xc2, 0) else Cell(0x0f, 1, 0xc2, 0))
          ) else (
            if n < 14 then (if n < 13 then Cell(0x18, 1, 0xc2, 0) else Cell(0x1f, 1, 0xc2, 0)) else (if n < 15 then Cell(0x29, 1, 0xc2, 0) else Cell(0x38, 1, 0xc2, 1))
          )
        )
      ) else (
        // 105
        if n < 8 then (
          if n < 4 then (
            if n < 2 then (if n < 1 then Cell(0x02, 1, 0xe0, 0) else Cell(0x09, 1, 0xe0, 0)) else (if n < 3 then Cell(0x17, 1, 0xe0, 0) else Cell(0x28, 1, 0xe0, 1))
          ) else (
            if n < 6 then (if n < 5 then Cell(0x02, 1, 0xe2, 0) else Cell(0x09, 1, 0xe2, 0)) else (if n < 7 then Cell(0x17, 1, 0xe2, 0) else Cell(0x28, 1, 0xe2, 1))
          )
        ) else (
          if n < 12 then (
            if n < 10 then (if n < 9 then Cell(0x01, 1, 0x99, 0) else Cell(0x16, 1, 0x99, 1)) else (if n < 11 then Cell(0x01, 1, 0xa1, 0) else Cell(0x16, 1, 0xa1, 1))
          ) else (
            if n < 14 then (if n < 13 then Cell(0x01, 1, 0xa7, 0) else Cell(0x16, 1, 0xa7, 1)) else (if n < 15 then Cell(0x01, 1, 0xac, 0) else Cell(0x16, 1, 0xac, 1))
          )
        )
      )
    ) else (
      if s < 107 then (
        // 106
        if n < 8 then (
          if n < 4 then (
            if n < 2 then (if n < 1 then Cell(0x03, 1, 0xe0, 0) else Cell(0x06, 1, 0xe0, 0)) else (if n < 3 then Cell(0x0a, 1, 0xe0, 0) else Cell(0x0f, 1, 0xe0, 0))
          ) else (
            if n < 6 then (if n < 5 then Cell(0x18, 1, 0xe0, 0) else Cell(0x1f, 1, 0xe0, 0)) else (if n < 7 then Cell(0x29, 1, 0xe0, 0) else Cell(0x38, 1, 0xe0, 1))
          )
        ) else (
          if n < 12 then (
            if n < 10 then (if n < 9 then Cell(0x03, 1, 0xe2, 0) else Cell(0x06, 1, 0xe2, 0)) else (if n < 11 then Cell(0x0a, 1, 0xe2, 0) else Cell(0x0f, 1, 0xe2, 0))
          ) else (
            if n < 14 then (if n < 13 then Cell(0x18, 1, 0xe2, 0) else Cell(0x1f, 1, 0xe2, 0)) else (if n < 15 then Cell(0x29, 1, 0xe2, 0) else Cell(0x38, 1, 0xe2, 1))
          )
        )
      ) else (
        // 107
        if n < 8 then (
          if n < 4 then (
            if n < 2 then (if n < 1 then Cell(0x02, 1, 0x99, 0) else Cell(0x09, 1, 0x99, 0)) else (if n < 3 then Cell(0x17, 1, 0x99, 0) else Cell(0x28, 1, 0x99, 1))
          ) else (
            if n < 6 then (if n < 5 then Cell(0x02, 1, 0xa1, 0) else Cell(0x09, 1, 0xa1, 0)) else (if n < 7 then Cell(0x17, 1, 0xa1, 0) else Cell(0x28, 1, 0xa1, 1))
          )
        ) else (
          if n < 12 then (
            if n < 10 then (if n < 9 then Cell(0x02, 1, 0xa7, 0) else Cell(0x09, 1, 0xa7, 0)) else (if n < 11 then Cell(0x17, 1, 0xa7, 0) else Cell(0x28, 1, 0xa7, 1))
          ) else (
            if n < 14 then (if n < 13 then Cell(0x02, 1, 0xac, 0) else Cell(0x09, 1, 0xac, 0)) else (if n < 15 then Cell(0x17, 1, 0xac, 0) else Cell(0x28, 1, 0xac, 1))
          )
        )
      )
    )
  }

  function Rows108(s: nat, n: nat): Cell
  {
    if s < 110 then (
      if s < 109 then (
        // 108
        if n < 8 then (
          if n < 4 then (
            if n < 2 then (if n < 1 then Cell(0x03, 1, 0x99, 0) else Cell(0x06, 1, 0x99, 0)) else (if n < 3 then Cell(0x0a, 1, 0x99, 0) else Cell(0x0f, 1, 0x99, 0))
          ) else (
            if n < 6 then (if n < 5 then Cell(0x18, 1, 0x99, 0) else Cell(0x1f, 1, 0x99, 0)) else (if n < 7 then Cell(0x29, 1, 0x99, 0) else Cell(0x38, 1, 0x99, 1))
          )
        ) else (
          if n < 12 then (
            if n < 10 then (if n < 9 then Cell(0x03, 1, 0xa1, 0) else Cell(0x06, 1, 0xa1, 0)) else (if n < 11 then Cell(0x0a, 1, 0xa1, 0) else Cell(0x0f, 1, 0xa1, 0))
          ) else (
            if n < 14 then (if n < 13 then Cell(0x18, 1, 0xa1, 0) else Cell(0x1f, 1, 0xa1, 0)) else (if n < 15 then Cell(0x29, 1, 0xa1, 0) else Cell(0x38, 1, 0xa1, 1))
          )
        )
      ) else (
        // 109
        if n < 8 then (
          if n < 4 then (
            if n < 2 then (if n < 1 then Cell(0x03, 1, 0xa7, 0) else Cell(0x06, 1, 0xa7, 0)) else (if n < 3 then Cell(0x0a, 1, 0xa7, 0) else Cell(0x0f, 1, 0xa7, 0))
          ) else (
            if n < 6 then (if n < 5 then Cell(0x18, 1, 0xa7, 0) else Cell(0x1f, 1, 0xa7, 0)) else (if n < 7 then Cell(0x29, 1, 0xa7, 0) else Cell(0x38, 1, 0xa7, 1))
          )
        ) else (
          if n < 12 then (
            if n < 10 then (if n < 9 then Cell(0x03, 1, 0xac, 0) else Cell(0x06, 1, 0xac, 0)) else (if n < 11 then Cell(0x0a, 1, 0xac, 0) else Cell(0x0f, 1, 0xac, 0))
          ) else (
            if n < 14 then (if n < 13 then Cell(0x18, 1, 0xac, 0) else Cell(0x1f, 1, 0xac, 0)) else (if n < 15 then Cell(0x29, 1, 0xac, 0) else Cell(0x38, 1, 0xac, 1))
          )
        )
      )
    ) else (
      if s < 111 then (
        // 110
        if n < 8 then (
          if n < 4 then (
            if n < 2 then (if n < 1 then Cell(0x72, 0, 0x00, 0) else Cell(0x73, 0, 0x00, 0)) else (if n < 3 then Cell(0x75, 0, 0x00, 0) else Cell(0x76, 0, 0x00, 0))
          ) else (
            if n < 6 then (if n < 5 then Cell(0x79, 0, 0x00, 0) else Cell(0x7b, 0, 0x00, 0)) else (if n < 7 then Cell(0x7f, 0, 0x00, 0) else Cell(0x82, 0, 0x00, 0))
          )
        ) else (
          if n < 12 then (
            if n < 10 then (if n < 9 then Cell(0x88, 0, 0x00, 0) else Cell(0x8b, 0, 0x00, 0)) else (if n < 11 then Cell(0x8f, 0, 0x00, 0) else Cell(0x92, 0, 0x00, 0))
          ) else (
            if n < 14 then (if n < 13 then Cell(0x9b, 0, 0x00, 0) else Cell(0xa2, 0, 0x00, 0)) else (if n < 15 then Cell(0xaa, 0, 0x00, 0) else Cell(0xb4, 0, 0x00, 1))
          )
        )
      ) else (
        // 111
        if n < 8 then (
          if n < 4 then (
            if n < 2 then (if n < 1 then Cell(0x00, 1, 0xb0, 1) else Cell(0x00, 1, 0xb1, 1)) else (if n < 3 then Cell(0x00, 1, 0xb3, 1) else Cell(0x00, 1, 0xd1, 1))
          ) else (
            if n < 6 then (if n < 5 then Cell(0x00, 1, 0xd8, 1) else Cell(0x00, 1, 0xd9, 1)) else (if n < 7 then Cell(0x00, 1, 0xe3, 1) else Cell(0x00, 1, 0xe5, 1))
          )
        ) else (
          if n < 12 then (
            if n < 10 then (if n < 9 then Cell(0x00, 1, 0xe6, 1) else Cell(0x7a, 0, 0x00, 0)) else (if n < 11 then Cell(0x7c, 0, 0x00, 0) else Cell(0x7d, 0, 0x00, 0))
          ) else (
            if n < 14 then (if n < 13 then Cell(0x80, 0, 0x00, 0) else Cell(0x81, 0, 0x00, 0)) else (if n < 15 then Cell(0x83, 0, 0x00, 0) else Cell(0x84, 0, 0x00, 0))
          )
        )
      )
    )
  }

  function Rows112(s: nat, n: nat): Cell
  {
    if s < 114 then (
      if s < 113 then (
        // 112
        if n < 8 then (
          if n < 4 then (
            if n < 2 then (if n < 1 then Cell(0x01, 1, 0xb0, 0) else Cell(0x16, 1, 0xb0, 1)) else (if n < 3 then Cell(0x01, 1, 0xb1, 0) else Cell(0x16, 1, 0xb1, 1))
          ) else (
            if n < 6 then (if n < 5 then Cell(0x01, 1, 0xb3, 0) else Cell(0x16, 1, 0xb3, 1)) else (if n < 7 then Cell(0x01, 1, 0xd1, 0) else Cell(0x16, 1, 0xd1, 1))
          )
        ) else (
          if n < 12 then (
            if n < 10 then (if n < 9 then Cell(0x01, 1, 0xd8, 0) else Cell(0x16, 1, 0xd8, 1)) else (if n < 11 then Cell(0x01, 1, 0xd9, 0) else Cell(0x16, 1, 0xd9, 1))
          ) else (
            if n < 14 then (if n < 13 then Cell(0x01, 1, 0xe3, 0) else Cell(0x16, 1, 0xe3, 1)) else (if n < 15 then Cell(0x01, 1, 0xe5, 0) else Cell(0x16, 1, 0xe5, 1))
          )
        )
      ) else (
        // 113
        if n < 8 then (
          if n < 4 then (
            if n < 2 then (if n < 1 then Cell(0x02, 1, 0xb0, 0) else Cell(0x09, 1, 0xb0, 0)) else (if n < 3 then Cell(0x17, 1, 0xb0, 0) else Cell(0x28, 1, 0xb0, 1))
          ) else (
            if n < 6 then (if n < 5 then Cell(0x02, 1, 0xb1, 0) else Cell(0x09, 1, 0xb1, 0)) else (if n < 7 then Cell(0x17, 1, 0xb1, 0) else Cell(0x28, 1, 0xb1, 1))
          )
        ) else (
          if n < 12 then (
            if n < 10 then (if n < 9 then Cell(0x02, 1, 0xb3, 0) else Cell(0x09, 1, 0xb3, 0)) else (if n < 11 then Cell(0x17, 1, 0xb3, 0) else Cell(0x28, 1, 0xb3, 1))
          ) else (
            if n < 14 then (if n < 13 then Cell(0x02, 1, 0xd1, 0) else Cell(0x09, 1, 0xd1, 0)) else (if n < 15 then Cell(0x17, 1, 0xd1, 0) else Cell(0x28, 1, 0xd1, 1))
          )
        )
      )
    ) else (
      if s < 115 then (
        // 114
        if n < 8 then (
          if n < 4 then (
            if n < 2 then (if n < 1 then Cell(0x03, 1, 0xb0, 0) else Cell(0x06, 1, 0xb0, 0)) else (if n < 3 then Cell(0x0a, 1, 0xb0, 0) else Cell(0x0f, 1, 0xb0, 0))
          ) else (
            if n < 6 then (if n < 5 then Cell(0x18, 1, 0xb0, 0) else Cell(0x1f, 1, 0xb0, 0)) else (if n < 7 then Cell(0x29, 1, 0xb0, 0) else Cell(0x38, 1, 0xb0, 1))
          )
        ) else (
          if n < 12 then (
            if n < 10 then (if n < 9 then Cell(0x03, 1, 0xb1, 0) else Cell(0x06, 1, 0xb1, 0)) else (if n < 11 then Cell(0x0a, 1, 0xb1, 0) else Cell(0x0f, 1, 0xb1, 0))
          ) else (
            if n < 14 then (if n < 13 then Cell(0x18, 1, 0xb1, 0) else Cell(0x1f, 1, 0xb1, 0)) else (if n < 15 then Cell(0x29, 1, 0xb1, 0) else Cell(0x38, 1, 0xb1, 1))
          )
        )
      ) else (
        // 115
        if n < 8 then (
          if n < 4 then (
            if n < 2 then (if n < 1 then Cell(0x03, 1, 0xb3, 0) else Cell(0x06, 1, 0xb3, 0)) else (if n < 3 then Cell(0x0a, 1, 0xb3, 0) else Cell(0x0f, 1, 0xb3, 0))
          ) else (
            if n < 6 then (if n < 5 then Cell(0x18, 1, 0xb3, 0) else Cell(0x1f, 1, 0xb3, 0)) else (if n < 7 then Cell(0x29, 1, 0xb3, 0) else Cell(0x38, 1, 0xb3, 1))
          )
        ) else (
          if n < 12 then (
            if n < 10 then (if n < 9 then Cell(0x03, 1, 0xd1, 0) else Cell(0x06, 1, 0xd1, 0)) else (if n < 11 then Cell(0x0a, 1, 0xd1, 0) else Cell(0x0f, 1, 0xd1, 0))
          ) else (
            if n < 14 then (if n < 13 then Cell(0x18, 1, 0xd1, 0) else Cell(0x1f, 1, 0xd1, 0)) else (if n < 15 then Cell(0x29, 1, 0xd1, 0) else Cell(0x38, 1, 0xd1, 1))
          )
        )
      )
    )
  }

  function Rows116(s: nat, n: nat): Cell
  {
    if s < 118 then (
      if s < 117 then (
        // 116
        if n < 8 then (
          if n < 4 then (
            if n < 2 then (if n < 1 then Cell(0x02, 1, 0xd8, 0) else Cell(0x09, 1, 0xd8, 0)) else (if n < 3 then Cell(0x17, 1, 0xd8, 0) else Cell(0x28, 1, 0xd8, 1))
          ) else (
            if n < 6 then (if n < 5 then Cell(0x02, 1, 0xd9, 0) else Cell(0x09, 1, 0xd9, 0)) else (if n < 7 then Cell(0x17, 1, 0xd9, 0) else Cell(0x28, 1, 0xd9, 1))
          )
        ) else (
          if n < 12 then (
            if n < 10 then (if n < 9 then Cell(0x02, 1, 0xe3, 0) else Cell(0x09, 1, 0xe3, 0)) else (if n < 11 then Cell(0x17, 1, 0xe3, 0) else Cell(0x28, 1, 0xe3, 1))
          ) else (
            if n < 14 then (if n < 13 then Cell(0x02, 1, 0xe5, 0) else Cell(0x09, 1, 0xe5, 0)) else (if n < 15 then Cell(0x17, 1, 0xe5, 0) else Cell(0x28, 1, 0xe5, 1))
          )
        )
      ) else (
        // 117
        if n < 8 then (
          if n < 4 then (
            if n < 2 then (if n < 1 then Cell(0x03, 1, 0xd8, 0) else Cell(0x06, 1, 0xd8, 0)) else (if n < 3 then Cell(0x0a, 1, 0xd8, 0) else Cell(0x0f, 1, 0xd8, 0))
          ) else (
            if n < 6 then (if n < 5 then Cell(0x18, 1, 0xd8, 0) else Cell(0x1f, 1, 0xd8, 0)) else (if n < 7 then Cell(0x29, 1, 0xd8, 0) else Cell(0x38, 1, 0xd8, 1))
          )
        ) else (
          if n < 12 then (
            if n < 10 then (if n < 9 then Cell(0x03, 1, 0xd9, 0) else Cell(0x06, 1, 0xd9, 0)) else (if n < 11 then Cell(0x0a, 1, 0xd9, 0) else Cell(0x0f, 1, 0xd9, 0))
          ) else (
            if n < 14 then (if n < 13 then Cell(0x18, 1, 0xd9, 0) else Cell(0x1f, 1, 0xd9, 0)) else (if n < 15 then Cell(0x29, 1, 0xd9, 0) else Cell(0x38, 1, 0xd9, 1))
          )
        )
      )
    ) else (
      if s < 119 then (
        // 118
        if n < 8 then (
          if n < 4 then (
            if n < 2 then (if n < 1 then Cell(0x03, 1, 0xe3, 0) else Cell(0x06, 1, 0xe3, 0)) else (if n < 3 then Cell(0x0a, 1, 0xe3, 0) else Cell(0x0f, 1, 0xe3, 0))
          ) else (
            if n < 6 then (if n < 5 then Cell(0x18, 1, 0xe3, 0) else Cell(0x1f, 1, 0xe3, 0)) else (if n < 7 then Cell(0x29, 1, 0xe3, 0) else Cell(0x38, 1, 0xe3, 1))
          )
        ) else (
          if n < 12 then (
            if n < 10 then (if n < 9 then Cell(0x03, 1, 0xe5, 0) else Cell(0x06, 1, 0xe5, 0)) else (if n < 11 then Cell(0x0a, 1, 0xe5, 0) else Cell(0x0f, 1, 0xe5, 0))
          ) else (
            if n < 14 then (if n < 13 then Cell(0x18, 1, 0xe5, 0) else Cell(0x1f, 1, 0xe5, 0)) else (if n < 15 then Cell(0x29, 1, 0xe5, 0) else Cell(0x38, 1, 0xe5, 1))
          )
        )
      ) else (
        // 119
        if n < 8 then (
          if n < 4 then (
            if n < 2 then (if n < 1 then Cell(0x01, 1, 0xe6, 0) else Cell(0x16, 1, 0xe6, 1)) else (if n < 3 then Cell(0x00, 1, 0x81, 1) else Cell(0x00, 1, 0x84, 1))
          ) else (
            if n < 6 then (if n < 5 then Cell(0x00, 1, 0x85, 1) else Cell(0x00, 1, 0x86, 1)) else (if n < 7 then Cell(0x00, 1, 0x88, 1) else Cell(0x00, 1, 0x92, 1))
          )
        ) else (
          if n < 12 then (
            if n < 10 then (if n < 9 then Cell(0x00, 1, 0x9a, 1) else Cell(0x00, 1, 0x9c, 1)) else (if n < 11 then Cell(0x00, 1, 0xa0, 1) else Cell(0x00, 1, 0xa3, 1))
          ) else (
            if n < 14 then (if n < 13 then Cell(0x00, 1, 0xa4, 1) else Cell(0x00, 1, 0xa9, 1)) else (if n < 15 then Cell(0x00, 1, 0xaa, 1) else Cell(0x00, 1, 0xad, 1))
          )
        )
      )
    )
  }

  function Rows120(s: nat, n: nat): Cell
  {
    if s < 122 then (
      if s < 121 then (
        // 120
        if n < 8 then (
          if n < 4 then (
            if n < 2 then (if n < 1 then Cell(0x02, 1, 0xe6, 0) else Cell(0x09, 1, 0xe6, 0)) else (if n < 3 then Cell(0x17, 1, 0xe6, 0) else Cell(0x28, 1, 0xe6, 1))
          ) else (
            if n < 6 then (if n < 5 then Cell(0x01, 1, 0x81, 0) else Cell(0x16, 1, 0x81, 1)) else (if n < 7 then Cell(0x01, 1, 0x84, 0) else Cell(0x16, 1, 0x84, 1))
          )
        ) else (
          if n < 12 then (
            if n < 10 then (if n < 9 then Cell(0x01, 1, 0x85, 0) else Cell(0x16, 1, 0x85, 1)) else (if n < 11 then Cell(0x01, 1, 0x86, 0) else Cell(0x16, 1, 0x86, 1))
          ) else (
            if n < 14 then (if n < 13 then Cell(0x01, 1, 0x88, 0) else Cell(0x16, 1, 0x88, 1)) else (if n < 15 then Cell(0x01, 1, 0x92, 0) else Cell(0x16, 1, 0x92, 1))
          )
        )
      ) else (
        // 121
        if n < 8 then (
          if n < 4 then (
            if n < 2 then (if n < 1 then Cell(0x03, 1, 0xe6, 0) else Cell(0x06, 1, 0xe6, 0)) else (if n < 3 then Cell(0x0a, 1, 0xe6, 0) else Cell(0x0f, 1, 0xe6, 0))
          ) else (
            if n < 6 then (if n < 5 then Cell(0x18, 1, 0xe6, 0) else Cell(0x1f, 1, 0xe6, 0)) else (if n < 7 then Cell(0x29, 1, 0xe6, 0) else Cell(0x38, 1, 0xe6, 1))
          )
        ) else (
          if n < 12 then (
            if n < 10 then (if n < 9 then Cell(0x02, 1, 0x81, 0) else Cell(0x09, 1, 0x81, 0)) else (if n < 11 then Cell(0x17, 1, 0x81, 0) else Cell(0x28, 1, 0x81, 1))
          ) else (
            if n < 14 then (if n < 13 then Cell(0x02, 1, 0x84, 0) else Cell(0x09, 1, 0x84, 0)) else (if n < 15 then Cell(0x17, 1, 0x84, 0) else Cell(0x28, 1, 0x84, 1))
          )
        )
      )
    ) else (
      if s < 123 then (
        // 122
        if n < 8 then (
          if n < 4 then (
            if n < 2 then (if n < 1 then Cell(0x03, 1, 0x81, 0) else Cell(0x06, 1, 0x81, 0)) else (if n < 3 then Cell(0x0a, 1, 0x81, 0) else Cell(0x0f, 1, 0x81, 0))
          ) else (
            if n < 6 then (if n < 5 then Cell(0x18, 1, 0x81, 0) else Cell(0x1f, 1, 0x81, 0)) else (if n < 7 then Cell(0x29, 1, 0x81, 0) else Cell(0x38, 1, 0x81, 1))
          )
        ) else (
          if n < 12 then (
            if n < 10 then (if n < 9 then Cell(0x03, 1, 0x84, 0) else Cell(0x06, 1, 0x84, 0)) else (if n < 11 then Cell(0x0a, 1, 0x84, 0) else Cell(0x0f, 1, 0x84, 0))
          ) else (
            if n < 14 then (if n < 13 then Cell(0x18, 1, 0x84, 0) else Cell(0x1f, 1, 0x84, 0)) else (if n < 15 then Cell(0x29, 1, 0x84, 0) else Cell(0x38, 1, 0x84, 1))
          )
        )
      ) else (
        // 123
        if n < 8 then (
          if n < 4 then (
            if n < 2 then (if n < 1 then Cell(0x02, 1, 0x85, 0) else Cell(0x09, 1, 0x85, 0)) else (if n < 3 then Cell(0x17, 1, 0x85, 0) else Cell(0x28, 1, 0x85, 1))
          ) else (
            if n < 6 then (if n < 5 then Cell(0x02, 1, 0x86, 0) else Cell(0x09, 1, 0x86, 0)) else (if n < 7 then Cell(0x17, 1, 0x86, 0) else Cell(0x28, 1, 0x86, 1))
          )
        ) else (
          if n < 12 then (
            if n < 10 then (if n < 9 then Cell(0x02, 1, 0x88, 0) else Cell(0x09, 1, 0x88, 0)) else (if n < 11 then Cell(0x17, 1, 0x88, 0) else Cell(0x28, 1, 0x88, 1))
          ) else (
            if n < 14 then (if n < 13 then Cell(0x02, 1, 0x92, 0) else Cell(0x09, 1, 0x92, 0)) else (if n < 15 then Cell(0x17, 1, 0x92, 0) else Cell(0x28, 1, 0x92, 1))
          )
        )
      )
    )
  }

  function Rows124(s: nat, n: nat): Cell
  {
    if s < 126 then (
      if s < 125 then (
        // 124
        if n < 8 then (
          if n < 4 then (
            if n < 2 then (if n < 1 then Cell(0x03, 1, 0x85, 0) else Cell(0x06, 1, 0x85, 0)) else (if n < 3 then Cell(0x0a, 1, 0x85, 0) else Cell(0x0f, 1, 0x85, 0))
          ) else (
            if n < 6 then (if n < 5 then Cell(0x18, 1, 0x85, 0) else Cell(0x1f, 1, 0x85, 0)) else (if n < 7 then Cell(0x29, 1, 0x85, 0) else Cell(0x38, 1, 0x85, 1))
          )
        ) else (
          if n < 12 then (
            if n < 10 then (if n < 9 then Cell(0x03, 1, 0x86, 0) else Cell(0x06, 1, 0x86, 0)) else (if n < 11 then Cell(0x0a, 1, 0x86, 0) else Cell(0x0f, 1, 0x86, 0))
          ) else (
            if n < 14 then (if n < 13 then Cell(0x18, 1, 0x86, 0) else Cell(0x1f, 1, 0x86, 0)) else (if n < 15 then Cell(0x29, 1, 0x86, 0) else Cell(0x38, 1, 0x86, 1))
          )
        )
      ) else (
        // 125
        if n < 8 then (
          if n < 4 then (
            if n < 2 then (if n < 1 then Cell(0x03, 1, 0x88, 0) else Cell(0x06, 1, 0x88, 0)) else (if n < 3 then Cell(0x0a, 1, 0x88, 0) else Cell(0x0f, 1, 0x88, 0))
          ) else (
            if n < 6 then (if n < 5 then Cell(0x18, 1, 0x88, 0) else Cell(0x1f, 1, 0x88, 0)) else (if n < 7 then Cell(0x29, 1, 0x88, 0) else Cell(0x38, 1, 0x88, 1))
          )
        ) else (
          if n < 12 then (
            if n < 10 then (if n < 9 then Cell(0x03, 1, 0x92, 0) else Cell(0x06, 1, 0x92, 0)) else (if n < 11 then Cell(0x0a, 1, 0x92, 0) else Cell(0x0f, 1, 0x92, 0))
          ) else (
            if n < 14 then (if n < 13 then Cell(0x18, 1, 0x92, 0) else Cell(0x1f, 1, 0x92, 0)) else (if n < 15 then Cell(0x29, 1, 0x92, 0) else Cell(0x38, 1, 0x92, 1))
          )
        )
      )
    ) else (
      if s < 127 then (
        // 126
        if n < 8 then (
          if n < 4 then (
            if n < 2 then (if n < 1 then Cell(0x01, 1, 0x9a, 0) else Cell(0x16, 1, 0x9a, 1)) else (if n < 3 then Cell(0x01, 1, 0x9c, 0) else Cell(0x16, 1, 0x9c, 1))
          ) else (
            if n < 6 then (if n < 5 then Cell(0x01, 1, 0xa0, 0) else Cell(0x16, 1, 0xa0, 1)) else (if n < 7 then Cell(0x01, 1, 0xa3, 0) else Cell(0x16, 1, 0xa3, 1))
          )
        ) else (
          if n < 12 then (
            if n < 10 then (if n < 9 then Cell(0x01, 1, 0xa4, 0) else Cell(0x16, 1, 0xa4, 1)) else (if n < 11 then Cell(0x01, 1, 0xa9, 0) else Cell(0x16, 1, 0xa9, 1))
          ) else (
            if n < 14 then (if n < 13 then Cell(0x01, 1, 0xaa, 0) else Cell(0x16, 1, 0xaa, 1)) else (if n < 15 then Cell(0x01, 1, 0xad, 0) else Cell(0x16, 1, 0xad, 1))
          )
        )
      ) else (
        // 127
        if n < 8 then (
          if n < 4 then (
            if n < 2 then (if n < 1 then Cell(0x02, 1, 0x9a, 0) else Cell(0x09, 1, 0x9a, 0)) else (if n < 3 then Cell(0x17, 1, 0x9a, 0) else Cell(0x28, 1, 0x9a, 1))
          ) else (
            if n < 6 then (if n < 5 then Cell(0x02, 1, 0x9c, 0) else Cell(0x09, 1, 0x9c, 0)) else (if n < 7 then Cell(0x17, 1, 0x9c, 0) else Cell(0x28, 1, 0x9c, 1))
          )
        ) else (
          if n < 12 then (
            if n < 10 then (if n < 9 then Cell(0x02, 1, 0xa0, 0) else Cell(0x09, 1, 0xa0, 0)) else (if n < 11 then Cell(0x17, 1, 0xa0, 0) else Cell(0x28, 1, 0xa0, 1))
          ) else (
            if n < 14 then (if n < 13 then Cell(0x02, 1, 0xa3, 0) else Cell(0x09, 1, 0xa3, 0)) else (if n < 15 then Cell(0x17, 1, 0xa3, 0) else Cell(0x28, 1, 0xa3, 1))
          )
        )
      )
    )
  }

  function Rows128(s: nat, n: nat): Cell
  {
    if s < 130 then (
      if s < 129 then (
        // 128
        if n < 8 then (
          if n < 4 then (
            if n < 2 then (if n < 1 then Cell(0x03, 1, 0x9a, 0) else Cell(0x06, 1, 0x9a, 0)) else (if n < 3 then Cell(0x0a, 1, 0x9a, 0) else Cell(0x0f, 1, 0x9a, 0))
          ) else (
            if n < 6 then (if n < 5 then Cell(0x18, 1, 0x9a, 0) else Cell(0x1f, 1, 0x9a, 0)) else (if n < 7 then Cell(0x29, 1, 0x9a, 0) else Cell(0x38, 1, 0x9a, 1))
          )
        ) else (
          if n < 12 then (
            if n < 10 then (if n < 9 then Cell(0x03, 1, 0x9c, 0) else Cell(0x06, 1, 0x9c, 0)) else (if n < 11 then Cell(0x0a, 1, 0x9c, 0) else Cell(0x0f, 1, 0x9c, 0))
          ) else (
            if n < 14 then (if n < 13 then Cell(0x18, 1, 0x9c, 0) else Cell(0x1f, 1, 0x9c, 0)) else (if n < 15 then Cell(0x29, 1, 0x9c, 0) else Cell(0x38, 1, 0x9c, 1))
          )
        )
      ) else (
        // 129
        if n < 8 then (
          if n < 4 then (
            if n < 2 then (if n < 1 then Cell(0x03, 1, 0xa0, 0) else Cell(0x06, 1, 0xa0, 0)) else (if n < 3 then Cell(0x0a, 1, 0xa0, 0) else Cell(0x0f, 1, 0xa0, 0))
          ) else (
            if n < 6 then (if n < 5 then Cell(0x18, 1, 0xa0, 0) else Cell(0x1f, 1, 0xa0, 0)) else (if n < 7 then Cell(0x29, 1, 0xa0, 0) else Cell(0x38, 1, 0xa0, 1))
          )
        ) else (
          if n < 12 then (
            if n < 10 then (if n < 9 then Cell(0x03, 1, 0xa3, 0) else Cell(0x06, 1, 0xa3, 0)) else (if n < 11 then Cell(0x0a, 1, 0xa3, 0) else Cell(0x0f, 1, 0xa3, 0))
          ) else (
            if n < 14 then (if n < 13 then Cell(0x18, 1, 0xa3, 0) else Cell(0x1f, 1, 0xa3, 0)) else (if n < 15 then Cell(0x29, 1, 0xa3, 0) else Cell(0x38, 1, 0xa3, 1))
          )
        )
      )
    ) else (
      if s < 131 then (
        // 130
        if n < 8 then (
          if n < 4 then (
            if n < 2 then (if n < 1 then Cell(0x02, 1, 0xa4, 0) else Cell(0x09, 1, 0xa4, 0)) else (if n < 3 then Cell(0x17, 1, 0xa4, 0) else Cell(0x28, 1, 0xa4, 1))
          ) else (
            if n < 6 then (if n < 5 then Cell(0x02, 1, 0xa9, 0) else Cell(0x09, 1, 0xa9, 0)) else (if n < 7 then Cell(0x17, 1, 0xa9, 0) else Cell(0x28, 1, 0xa9, 1))
          )
        ) else (
          if n < 12 then (
            if n < 10 then (if n < 9 then Cell(0x02, 1, 0xaa, 0) else Cell(0x09, 1, 0xaa, 0)) else (if n < 11 then Cell(0x17, 1, 0xaa, 0) else Cell(0x28, 1, 0xaa, 1))
          ) else (
            if n < 14 then (if n < 13 then Cell(0x02, 1, 0xad, 0) else Cell(0x09, 1, 0xad, 0)) else (if n < 15 then Cell(0x17, 1, 0xad, 0) else Cell(0x28, 1, 0xad, 1))
          )
        )
      ) else (
        // 131
        if n < 8 then (
          if n < 4 then (
            if n < 2 then (if n < 1 then Cell(0x03, 1, 0xa4, 0) else Cell(0x06, 1, 0xa4, 0)) else (if n < 3 then Cell(0x0a, 1, 0xa4, 0) else Cell(0x0f, 1, 0xa4, 0))
          ) else (
            if n < 6 then (if n < 5 then Cell(0x18, 1, 0xa4, 0) else Cell(0x1f, 1, 0xa4, 0)) else (if n < 7 then Cell(0x29, 1, 0xa4, 0) else Cell(0x38, 1, 0xa4, 1))
          )
        ) else (
          if n < 12 then (
            if n < 10 then (if n < 9 then Cell(0x03, 1, 0xa9, 0) else Cell(0x06, 1, 0xa9, 0)) else (if n < 11 then Cell(0x0a, 1, 0xa9, 0) else Cell(0x0f, 1, 0xa9, 0))
          ) else (
            if n < 14 then (if n < 13 then Cell(0x18, 1, 0xa9, 0) else Cell(0x1f, 1, 0xa9, 0)) else (if n < 15 then Cell(0x29, 1, 0xa9, 0) else Cell(0x38, 1, 0xa9, 1))
          )
        )
      )
    )
  }

  function Rows132(s: nat, n: nat): Cell
  {
    if s < 134 then (
      if s < 133 then (
        // 132
        if n < 8 then (
          if n < 4 then (
            if n < 2 then (if n < 1 then Cell(0x03, 1, 0xaa, 0) else Cell(0x06, 1, 0xaa, 0)) else (if n < 3 then Cell(0x0a, 1, 0xaa, 0) else Cell(0x0f, 1, 0xaa, 0))
          ) else (
            if n < 6 then (if n < 5 then Cell(0x18, 1, 0xaa, 0) else Cell(0x1f, 1, 0xaa, 0)) else (if n < 7 then Cell(0x29, 1, 0xaa, 0) else Cell(0x38, 1, 0xaa, 1))
          )
        ) else (
          if n < 12 then (
            if n < 10 then (if n < 9 then Cell(0x03, 1, 0xad, 0) else Cell(0x06, 1, 0xad, 0)) else (if n < 11 then Cell(0x0a, 1, 0xad, 0) else Cell(0x0f, 1, 0xad, 0))
          ) else (
            if n < 14 then (if n < 13 then Cell(0x18, 1, 0xad, 0) else Cell(0x1f, 1, 0xad, 0)) else (if n < 15 then Cell(0x29, 1, 0xad, 0) else Cell(0x38, 1, 0xad, 1))
          )
        )
      ) else (
        // 133
        if n < 8 then (
          if n < 4 then (
            if n < 2 then (if n < 1 then Cell(0x89, 0, 0x00, 0) else Cell(0x8a, 0, 0x00, 0)) else (if n < 3 then Cell(0x8c, 0, 0x00, 0) else Cell(0x8d, 0, 0x00, 0))
          ) else (
            if n < 6 then (if n < 5 then Cell(0x90, 0, 0x00, 0) else Cell(0x91, 0, 0x00, 0)) else (if n < 7 then Cell(0x93, 0, 0x00, 0) else Cell(0x96, 0, 0x00, 0))
          )
        ) else (
          if n < 12 then (
            if n < 10 then (if n < 9 then Cell(0x9c, 0, 0x00, 0) else Cell(0x9f, 0, 0x00, 0)) else (if n < 11 then Cell(0xa3, 0, 0x00, 0) else Cell(0xa6, 0, 0x00, 0))
          ) else (
            if n < 14 then (if n < 13 then Cell(0xab, 0, 0x00, 0) else Cell(0xae, 0, 0x00, 0)) else (if n < 15 then Cell(0xb5, 0, 0x00, 0) else Cell(0xbe, 0, 0x00, 1))
          )
        )
      )
    ) else (
      if s < 135 then (
        // 134
        if n < 8 then (
          if n < 4 then (
            if n < 2 then (if n < 1 then Cell(0x00, 1, 0xb2, 1) else Cell(0x00, 1, 0xb5, 1)) else (if n < 3 then Cell(0x00, 1, 0xb9, 1) else Cell(0x00, 1, 0xba, 1))
          ) else (
            if n < 6 then (if n < 5 then Cell(0x00, 1, 0xbb, 1) else Cell(0x00, 1, 0xbd, 1)) else (if n < 7 then Cell(0x00, 1, 0xbe, 1) else Cell(0x00, 1, 0xc4, 1))
          )
        ) else (
          if n < 12 then (
            if n < 10 then (if n < 9 then Cell(0x00, 1, 0xc6, 1) else Cell(0x00, 1, 0xe4, 1)) else (if n < 11 then Cell(0x00, 1, 0xe8, 1) else Cell(0x00, 1, 0xe9, 1))
          ) else (
            if n < 14 then (if n < 13 then Cell(0x94, 0, 0x00, 0) else Cell(0x95, 0, 0x00, 0)) else (if n < 15 then Cell(0x97, 0, 0x00, 0) else Cell(0x98, 0, 0x00, 0))
          )
        )
      ) else (
        // 135
        if n < 8 then (
          if n < 4 then (
            if n < 2 then (if n < 1 then Cell(0x01, 1, 0xb2, 0) else Cell(0x16, 1, 0xb2, 1)) else (if n < 3 then Cell(0x01, 1, 0xb5, 0) else Cell(0x16, 1, 0xb5, 1))
          ) else (
            if n < 6 then (if n < 5 then Cell(0x01, 1, 0xb9, 0) else Cell(0x16, 1, 0xb9, 1)) else (if n < 7 then Cell(0x01, 1, 0xba, 0) else Cell(0x16, 1, 0xba, 1))
          )
        ) else (
          if n < 12 then (
            if n < 10 then (if n < 9 then Cell(0x01, 1, 0xbb, 0) else Cell(0x16, 1, 0xbb, 1)) else (if n < 11 then Cell(0x01, 1, 0xbd, 0) else Cell(0x16, 1, 0xbd, 1))
          ) else (
            if n < 14 then (if n < 13 then Cell(0x01, 1, 0xbe, 0) else Cell(0x16, 1, 0xbe, 1)) else (if n < 15 then Cell(0x01, 1, 0xc4, 0) else Cell(0x16, 1, 0xc4, 1))
          )
        )
      )
    )
  }

  function Rows136(s: nat, n: nat): Cell
  {
    if s < 138 then (
      if s < 137 then (
        // 136
        if n < 8 then (
          if n < 4 then (
            if n < 2 then (if n < 1 then Cell(0x02, 1, 0xb2, 0) else Cell(0x09, 1, 0xb2, 0)) else (if n < 3 then Cell(0x17, 1, 0xb2, 0) else Cell(0x28, 1, 0xb2, 1))
          ) else (
            if n < 6 then (if n < 5 then Cell(0x02, 1, 0xb5, 0) else Cell(0x09, 1, 0xb5, 0)) else (if n < 7 then Cell(0x17, 1, 0xb5, 0) else Cell(0x28, 1, 0xb5, 1))
          )
        ) else (
          if n < 12 then (
            if n < 10 then (if n < 9 then Cell(0x02, 1, 0xb9, 0) else Cell(0x09, 1, 0xb9, 0)) else (if n < 11 then Cell(0x17, 1, 0xb9, 0) else Cell(0x28, 1, 0xb9, 1))
          ) else (
            if n < 14 then (if n < 13 then Cell(0x02, 1, 0xba, 0) else Cell(0x09, 1, 0xba, 0)) else (if n < 15 then Cell(0x17, 1, 0xba, 0) else Cell(0x28, 1, 0xba, 1))
          )
        )
      ) else (
        // 137
        if n < 8 then (
          if n < 4 then (
            if n < 2 then (if n < 1 then Cell(0x03, 1, 0xb2, 0) else Cell(0x06, 1, 0xb2, 0)) else (if n < 3 then Cell(0x0a, 1, 0xb2, 0) else Cell(0x0f, 1, 0xb2, 0))
          ) else (
            if n < 6 then (if n < 5 then Cell(0x18, 1, 0xb2, 0) else Cell(0x1f, 1, 0xb2, 0)) else (if n < 7 then Cell(0x29, 1, 0xb2, 0) else Cell(0x38, 1, 0xb2, 1))
          )
        ) else (
          if n < 12 then (
            if n < 10 then (if n < 9 then Cell(0x03, 1, 0xb5, 0) else Cell(0x06, 1, 0xb5, 0)) else (if n < 11 then Cell(0x0a, 1, 0xb5, 0) else Cell(0x0f, 1, 0xb5, 0))
          ) else (
            if n < 14 then (if n < 13 then Cell(0x18, 1, 0xb5, 0) else Cell(0x1f, 1, 0xb5, 0)) else (if n < 15 then Cell(0x29, 1, 0xb5, 0) else Cell(0x38, 1, 0xb5, 1))
          )
        )
      )
    ) else (
      if s < 139 then (
        // 138
        if n < 8 then (
          if n < 4 then (
            if n < 2 then (if n < 1 then Cell(0x03, 1, 0xb9, 0) else Cell(0x06, 1, 0xb9, 0)) else (if n < 3 then Cell(0x0a, 1, 0xb9, 0) else Cell(0x0f, 1, 0xb9, 0))
          ) else (
            if n < 6 then (if n < 5 then Cell(0x18, 1, 0xb9, 0) else Cell(0x1f, 1, 0xb9, 0)) else (if n < 7 then Cell(0x29, 1, 0xb9, 0) else Cell(0x38, 1, 0xb9, 1))
          )
        ) else (
          if n < 12 then (
            if n < 10 then (if n < 9 then Cell(0x03, 1, 0xba, 0) else Cell(0x06, 1, 0xba, 0)) else (if n < 11 then Cell(0x0a, 1, 0xba, 0) else Cell(0x0f, 1, 0xba, 0))
          ) else (
            if n < 14 then (if n < 13 then Cell(0x18, 1, 0xba, 0) else Cell(0x1f, 1, 0xba, 0)) else (if n < 15 then Cell(0x29, 1, 0xba, 0) else Cell(0x38, 1, 0xba, 1))
          )
        )
      ) else (
        // 139
        if n < 8 then (
          if n < 4 then (
            if n < 2 then (if n < 1 then Cell(0x02, 1, 0xbb, 0) else Cell(0x09, 1, 0xbb, 0)) else (if n < 3 then Cell(0x17, 1, 0xbb, 0) else Cell(0x28, 1, 0xbb, 1))
          ) else (
            if n < 6 then (if n < 5 then Cell(0x02, 1, 0xbd, 0) else Cell(0x09, 1, 0xbd, 0)) else (if n < 7 then Cell(0x17, 1, 0xbd, 0) else Cell(0x28, 1, 0xbd, 1))
          )
        ) else (
          if n < 12 then (
            if n < 10 then (if n < 9 then Cell(0x02, 1, 0xbe, 0) else Cell(0x09, 1, 0xbe, 0)) else (if n < 11 then Cell(0x17, 1, 0xbe, 0) else Cell(0x28, 1, 0xbe, 1))
          ) else (
            if n < 14 then (if n < 13 then Cell(0x02, 1, 0xc4, 0) else Cell(0x09, 1, 0xc4, 0)) else (if n < 15 then Cell(0x17, 1, 0xc4, 0) else Cell(0x28, 1, 0xc4, 1))
          )
        )
      )
    )
  }

  function Rows140(s: nat, n: nat): Cell
  {
    if s < 142 then (
      if s < 141 then (
        // 140
        if n < 8 then (
          if n < 4 then (
            if n < 2 then (if n < 1 then Cell(0x03, 1, 0xbb, 0) else Cell(0x06, 1, 0xbb, 0)) else (if n < 3 then Cell(0x0a, 1, 0xbb, 0) else Cell(0x0f, 1, 0xbb, 0))
          ) else (
            if n < 6 then (if n < 5 then Cell(0x18, 1, 0xbb, 0) else Cell(0x1f, 1, 0xbb, 0)) else (if n < 7 then Cell(0x29, 1, 0xbb, 0) else Cell(0x38, 1, 0xbb, 1))
          )
        ) else (
          if n < 12 then (
            if n < 10 then (if n < 9 then Cell(0x03, 1, 0xbd, 0) else Cell(0x06, 1, 0xbd, 0)) else (if n < 11 then Cell(0x0a, 1, 0xbd, 0) else Cell(0x0f, 1, 0xbd, 0))
          ) else (
            if n < 14 then (if n < 13 then Cell(0x18, 1, 0xbd, 0) else Cell(0x1f, 1, 0xbd, 0)) else (if n < 15 then Cell(0x29, 1, 0xbd, 0) else Cell(0x38, 1, 0xbd, 1))
          )
        )
      ) else (
        // 141
        if n < 8 then (
          if n < 4 then (
            if n < 2 then (if n < 1 then Cell(0x03, 1, 0xbe, 0) else Cell(0x06, 1, 0xbe, 0)) else (if n < 3 then Cell(0x0a, 1, 0xbe, 0) else Cell(0x0f, 1, 0xbe, 0))
          ) else (
            if n < 6 then (if n < 5 then Cell(0x18, 1, 0xbe, 0) else Cell(0x1f, 1, 0xbe, 0)) else (if n < 7 then Cell(0x29, 1, 0xbe, 0) else Cell(0x38, 1, 0xbe, 1))
          )
        ) else (
          if n < 12 then (
            if n < 10 then (if n < 9 then Cell(0x03, 1, 0xc4, 0) else Cell(0x06, 1, 0xc4, 0)) else (if n < 11 then Cell(0x0a, 1, 0xc4, 0) else Cell(0x0f, 1, 0xc4, 0))
          ) else (
            if n < 14 then (if n < 13 then Cell(0x18, 1, 0xc4, 0) else Cell(0x1f, 1, 0xc4, 0)) else (if n < 15 then Cell(0x29, 1, 0xc4, 0) else Cell(0x38, 1, 0xc4, 1))
          )
        )
      )
    ) else (
      if s < 143 then (
        // 142
        if n < 8 then (
          if n < 4 then (
            if n < 2 then (if n < 1 then Cell(0x01, 1, 0xc6, 0) else Cell(0x16, 1, 0xc6, 1)) else (if n < 3 then Cell(0x01, 1, 0xe4, 0) else Cell(0x16, 1, 0xe4, 1))
          ) else (
            if n < 6 then (if n < 5 then Cell(0x01, 1, 0xe8, 0) else Cell(0x16, 1, 0xe8, 1)) else (if n < 7 then Cell(0x01, 1, 0xe9, 0) else Cell(0x16, 1, 0xe9, 1))
          )
        ) else (
          if n < 12 then (
            if n < 10 then (if n < 9 then Cell(0x00, 1, 0x01, 1) else Cell(0x00, 1, 0x87, 1)) else (if n < 11 then Cell(0x00, 1, 0x89, 1) else Cell(0x00, 1, 0x8a, 1))
          ) else (
            if n < 14 then (if n < 13 then Cell(0x00, 1, 0x8b, 1) else Cell(0x00, 1, 0x8c, 1)) else (if n < 15 then Cell(0x00, 1, 0x8d, 1) else Cell(0x00, 1, 0x8f, 1))
          )
        )
      ) else (
        // 143
        if n < 8 then (
          if n < 4 then (
            if n < 2 then (if n < 1 then Cell(0x02, 1, 0xc6, 0) else Cell(0x09, 1, 0xc6, 0)) else (if n < 3 then Cell(0x17, 1, 0xc6, 0) else Cell(0x28, 1, 0xc6, 1))
          ) else (
            if n < 6 then (if n < 5 then Cell(0x02, 1, 0xe4, 0) else Cell(0x09, 1, 0xe4, 0)) else (if n < 7 then Cell(0x17, 1, 0xe4, 0) else Cell(0x28, 1, 0xe4, 1))
          )
        ) else (
          if n < 12 then (
            if n < 10 then (if n < 9 then Cell(0x02, 1, 0xe8, 0) else Cell(0x09, 1, 0xe8, 0)) else (if n < 11 then Cell(0x17, 1, 0xe8, 0) else Cell(0x28, 1, 0xe8, 1))
          ) else (
            if n < 14 then (if n < 13 then Cell(0x02, 1, 0xe9, 0) else Cell(0x09, 1, 0xe9, 0)) else (if n < 15 then Cell(0x17, 1, 0xe9, 0) else Cell(0x28, 1, 0xe9, 1))
          )
        )
      )
    )
  }

  function Rows144(s: nat, n: nat): Cell
  {
    if s < 146 then (
      if s < 145 then (
        // 144
        if n < 8 then (
          if n < 4 then (
            if n < 2 then (if n < 1 then Cell(0x03, 1, 0xc6, 0) else Cell(0x06, 1, 0xc6, 0)) else (if n < 3 then Cell(0x0a, 1, 0xc6, 0) else Cell(0x0f, 1, 0xc6, 0))
          ) else (
            if n < 6 then (if n < 5 then Cell(0x18, 1, 0xc6, 0) else Cell(0x1f, 1, 0xc6, 0)) else (if n < 7 then Cell(0x29, 1, 0xc6, 0) else Cell(0x38, 1, 0xc6, 1))
          )
        ) else (
          if n < 12 then (
            if n < 10 then (if n < 9 then Cell(0x03, 1, 0xe4, 0) else Cell(0x06, 1, 0xe4, 0)) else (if n < 11 then Cell(0x0a, 1, 0xe4, 0) else Cell(0x0f, 1, 0xe4, 0))
          ) else (
            if n < 14 then (if n < 13 then Cell(0x18, 1, 0xe4, 0) else Cell(0x1f, 1, 0xe4, 0)) else (if n < 15 then Cell(0x29, 1, 0xe4, 0) else Cell(0x38, 1, 0xe4, 1))
          )
        )
      ) else (
        // 145
        if n < 8 then (
          if n < 4 then (
            if n < 2 then (if n < 1 then Cell(0x03, 1, 0xe8, 0) else Cell(0x06, 1, 0xe8, 0)) else (if n < 3 then Cell(0x0a, 1, 0xe8, 0) else Cell(0x0f, 1, 0xe8, 0))
          ) else (
            if n < 6 then (if n < 5 then Cell(0x18, 1, 0xe8, 0) else Cell(0x1f, 1, 0xe8, 0)) else (if n < 7 then Cell(0x29, 1, 0xe8, 0) else Cell(0x38, 1, 0xe8, 1))
          )
        ) else (
          if n < 12 then (
            if n < 10 then (if n < 9 then Cell(0x03, 1, 0xe9, 0) else Cell(0x06, 1, 0xe9, 0)) else (if n < 11 then Cell(0x0a, 1, 0xe9, 0) else Cell(0x0f, 1, 0xe9, 0))
          ) else (
            if n < 14 then (if n < 13 then Cell(0x18, 1, 0xe9, 0) else Cell(0x1f, 1, 0xe9, 0)) else (if n < 15 then Cell(0x29, 1, 0xe9, 0) else Cell(0x38, 1, 0xe9, 1))
          )
        )
      )
    ) else (
      if s < 147 then (
        // 146
        if n < 8 then (
          if n < 4 then (
            if n < 2 then (if n < 1 then Cell(0x01, 1, 0x01, 0) else Cell(0x16, 1, 0x01, 1)) else (if n < 3 then Cell(0x01, 1, 0x87, 0) else Cell(0x16, 1, 0x87, 1))
          ) else (
            if n < 6 then (if n < 5 then Cell(0x01, 1, 0x89, 0) else Cell(0x16, 1, 0x89, 1)) else (if n < 7 then Cell(0x01, 1, 0x8a, 0) else Cell(0x16, 1, 0x8a, 1))
          )
        ) else (
          if n < 12 then (
            if n < 10 then (if n < 9 then Cell(0x01, 1, 0x8b, 0) else Cell(0x16, 1, 0x8b, 1)) else (if n < 11 then Cell(0x01, 1, 0x8c, 0) else Cell(0x16, 1, 0x8c, 1))
          ) else (
            if n < 14 then (if n < 13 then Cell(0x01, 1, 0x8d, 0) else Cell(0x16, 1, 0x8d, 1)) else (if n < 15 then Cell(0x01, 1, 0x8f, 0) else Cell(0x16, 1, 0x8f, 1))
          )
        )
      ) else (
        // 147
        if n < 8 then (
          if n < 4 then (
            if n < 2 then (if n < 1 then Cell(0x02, 1, 0x01, 0) else Cell(0x09, 1, 0x01, 0)) else (if n < 3 then Cell(0x17, 1, 0x01, 0) else Cell(0x28, 1, 0x01, 1))
          ) else (
            if n < 6 then (if n < 5 then Cell(0x02, 1, 0x87, 0) else Cell(0x09, 1, 0x87, 0)) else (if n < 7 then Cell(0x17, 1, 0x87, 0) else Cell(0x28, 1, 0x87, 1))
          )
        ) else (
          if n < 12 then (
            if n < 10 then (if n < 9 then Cell(0x02, 1, 0x89, 0) else Cell(0x09, 1, 0x89, 0)) else (if n < 11 then Cell(0x17, 1, 0x89, 0) else Cell(0x28, 1, 0x89, 1))
          ) else (
            if n < 14 then (if n < 13 then Cell(0x02, 1, 0x8a, 0) else Cell(0x09, 1, 0x8a, 0)) else (if n < 15 then Cell(0x17, 1, 0x8a, 0) else Cell(0x28, 1, 0x8a, 1))
          )
        )
      )
    )
  }

  function Rows148(s: nat, n: nat): Cell
  {
    if s < 150 then (
      if s < 149 then (
        // 148
        if n < 8 then (
          if n < 4 then (
            if n < 2 then (if n < 1 then Cell(0x03, 1, 0x01, 0) else Cell(0x06, 1, 0x01, 0)) else (if n < 3 then Cell(0x0a, 1, 0x01, 0) else Cell(0x0f, 1, 0x01, 0))
          ) else (
            if n < 6 then (if n < 5 then Cell(0x18, 1, 0x01, 0) else Cell(0x1f, 1, 0x01, 0)) else (if n < 7 then Cell(0x29, 1, 0x01, 0) else Cell(0x38, 1, 0x01, 1))
          )
        ) else (
          if n < 12 then (
            if n < 10 then (if n < 9 then Cell(0x03, 1, 0x87, 0) else Cell(0x06, 1, 0x87, 0)) else (if n < 11 then Cell(0x0a, 1, 0x87, 0) else Cell(0x0f, 1, 0x87, 0))
          ) else (
            if n < 14 then (if n < 13 then Cell(0x18, 1, 0x87, 0) else Cell(0x1f, 1, 0x87, 0)) else (if n < 15 then Cell(0x29, 1, 0x87, 0) else Cell(0x38, 1, 0x87, 1))
          )
        )
      ) else (
        // 149
        if n < 8 then (
          if n < 4 then (
            if n < 2 then (if n < 1 then Cell(0x03, 1, 0x89, 0) else Cell(0x06, 1, 0x89, 0)) else (if n < 3 then Cell(0x0a, 1, 0x89, 0) else Cell(0x0f, 1, 0x89, 0))
          ) else (
            if n < 6 then (if n < 5 then Cell(0x18, 1, 0x89, 0) else Cell(0x1f, 1, 0x89, 0)) else (if n < 7 then Cell(0x29, 1, 0x89, 0) else Cell(0x38, 1, 0x89, 1))
          )
        ) else (
          if n < 12 then (
            if n < 10 then (if n < 9 then Cell(0x03, 1, 0x8a, 0) else Cell(0x06, 1, 0x8a, 0)) else (if n < 11 then Cell(0x0a, 1, 0x8a, 0) else Cell(0x0f, 1, 0x8a, 0))
          ) else (
            if n < 14 then (if n < 13 then Cell(0x18, 1, 0x8a, 0) else Cell(0x1f, 1, 0x8a, 0)) else (if n < 15 then Cell(0x29, 1, 0x8a, 0) else Cell(0x38, 1, 0x8a, 1))
          )
        )
      )
    ) else (
      if s < 151 then (
        // 150
        if n < 8 then (
          if n < 4 then (
            if n < 2 then (if n < 1 then Cell(0x02, 1, 0x8b, 0) else Cell(0x09, 1, 0x8b, 0)) else (if n < 3 then Cell(0x17, 1, 0x8b, 0) else Cell(0x28, 1, 0x8b, 1))
          ) else (
            if n < 6 then (if n < 5 then Cell(0x02, 1, 0x8c, 0) else Cell(0x09, 1, 0x8c, 0)) else (if n < 7 then Cell(0x17, 1, 0x8c, 0) else Cell(0x28, 1, 0x8c, 1))
          )
        ) else (
          if n < 12 then (
            if n < 10 then (if n < 9 then Cell(0x02, 1, 0x8d, 0) else Cell(0x09, 1, 0x8d, 0)) else (if n < 11 then Cell(0x17, 1, 0x8d, 0) else Cell(0x28, 1, 0x8d, 1))
          ) else (
            if n < 14 then (if n < 13 then Cell(0x02, 1, 0x8f, 0) else Cell(0x09, 1, 0x8f, 0)) else (if n < 15 then Cell(0x17, 1, 0x8f, 0) else Cell(0x28, 1, 0x8f, 1))
          )
        )
      ) else (
        // 151
        if n < 8 then (
          if n < 4 then (
            if n < 2 then (if n < 1 then Cell(0x03, 1, 0x8b, 0) else Cell(0x06, 1, 0x8b, 0)) else (if n < 3 then Cell(0x0a, 1, 0x8b, 0) else Cell(0x0f, 1, 0x8b, 0))
          ) else (
            if n < 6 then (if n < 5 then Cell(0x18, 1, 0x8b, 0) else Cell(0x1f, 1, 0x8b, 0)) else (if n < 7 then Cell(0x29, 1, 0x8b, 0) else Cell(0x38, 1, 0x8b, 1))
          )
        ) else (
          if n < 12 then (
            if n < 10 then (if n < 9 then Cell(0x03, 1, 0x8c, 0) else Cell(0x06, 1, 0x8c, 0)) else (if n < 11 then Cell(0x0a, 1, 0x8c, 0) else Cell(0x0f, 1, 0x8c, 0))
          ) else (
            if n < 14 then (if n < 13 then Cell(0x18, 1, 0x8c, 0) else Cell(0x1f, 1, 0x8c, 0)) else (if n < 15 then Cell(0x29, 1, 0x8c, 0) else Cell(0x38, 1, 0x8c, 1))
          )
        )
      )
    )
  }

  function Rows152(s: nat, n: nat): Cell
  {
    if s < 154 then (
      if s < 153 then (
        // 152
        if n < 8 then (
          if n < 4 then (
            if n < 2 then (if n < 1 then Cell(0x03, 1, 0x8d, 0) else Cell(0x06, 1, 0x8d, 0)) else (if n < 3 then Cell(0x0a, 1, 0x8d, 0) else Cell(0x0f, 1, 0x8d, 0))
          ) else (
            if n < 6 then (if n < 5 then Cell(0x18, 1, 0x8d, 0) else Cell(0x1f, 1, 0x8d, 0)) else (if n < 7 then Cell(0x29, 1, 0x8d, 0) else Cell(0x38, 1, 0x8d, 1))
          )
        ) else (
          if n < 12 then (
            if n < 10 then (if n < 9 then Cell(0x03, 1, 0x8f, 0) else Cell(0x06, 1, 0x8f, 0)) else (if n < 11 then Cell(0x0a, 1, 0x8f, 0) else Cell(0x0f, 1, 0x8f, 0))
          ) else (
            if n < 14 then (if n < 13 then Cell(0x18, 1, 0x8f, 0) else Cell(0x1f, 1, 0x8f, 0)) else (if n < 15 then Cell(0x29, 1, 0x8f, 0) else Cell(0x38, 1, 0x8f, 1))
          )
        )
      ) else (
        // 153
        if n < 8 then (
          if n < 4 then (
            if n < 2 then (if n < 1 then Cell(0x9d, 0, 0x00, 0) else Cell(0x9e, 0, 0x00, 0)) else (if n < 3 then Cell(0xa0, 0, 0x00, 0) else Cell(0xa1, 0, 0x00, 0))
          ) else (
            if n < 6 then (if n < 5 then Cell(0xa4, 0, 0x00, 0) else Cell(0xa5, 0, 0x00, 0)) else (if n < 7 then Cell(0xa7, 0, 0x00, 0) else Cell(0xa8, 0, 0x00, 0))
          )
        ) else (
          if n < 12 then (
            if n < 10 then (if n < 9 then Cell(0xac, 0, 0x00, 0) else Cell(0xad, 0, 0x00, 0)) else (if n < 11 then Cell(0xaf, 0, 0x00, 0) else Cell(0xb1, 0, 0x00, 0))
          ) else (
            if n < 14 then (if n < 13 then Cell(0xb6, 0, 0x00, 0) else Cell(0xb9, 0, 0x00, 0)) else (if n < 15 then Cell(0xbf, 0, 0x00, 0) else Cell(0xcf, 0, 0x00, 1))
          )
        )
      )
    ) else (
      if s < 155 then (
        // 154
        if n < 8 then (
          if n < 4 then (
            if n < 2 then (if n < 1 then Cell(0x00, 1, 0x93, 1) else Cell(0x00, 1, 0x95, 1)) else (if n < 3 then Cell(0x00, 1, 0x96, 1) else Cell(0x00, 1, 0x97, 1))
          ) else (
            if n < 6 then (if n < 5 then Cell(0x00, 1, 0x98, 1) else Cell(0x00, 1, 0x9b, 1)) else (if n < 7 then Cell(0x00, 1, 0x9d, 1) else Cell(0x00, 1, 0x9e, 1))
          )
        ) else (
          if n < 12 then (
            if n < 10 then (if n < 9 then Cell(0x00, 1, 0xa5, 1) else Cell(0x00, 1, 0xa6, 1)) else (if n < 11 then Cell(0x00, 1, 0xa8, 1) else Cell(0x00, 1, 0xae, 1))
          ) else (
            if n < 14 then (if n < 13 then Cell(0x00, 1, 0xaf, 1) else Cell(0x00, 1, 0xb4, 1)) else (if n < 15 then Cell(0x00, 1, 0xb6, 1) else Cell(0x00, 1, 0xb7, 1))
          )
        )
      ) else (
        // 155
        if n < 8 then (
          if n < 4 then (
            if n < 2 then (if n < 1 then Cell(0x01, 1, 0x93, 0) else Cell(0x16, 1, 0x93, 1)) else (if n < 3 then Cell(0x01, 1, 0x95, 0) else Cell(0x16, 1, 0x95, 1))
          ) else (
            if n < 6 then (if n < 5 then Cell(0x01, 1, 0x96, 0) else Cell(0x16, 1, 0x96, 1)) else (if n < 7 then Cell(0x01, 1, 0x97, 0) else Cell(0x16, 1, 0x97, 1))
          )
        ) else (
          if n < 12 then (
            if n < 10 then (if n < 9 then Cell(0x01, 1, 0x98, 0) else Cell(0x16, 1, 0x98, 1)) else (if n < 11 then Cell(0x01, 1, 0x9b, 0) else Cell(0x16, 1, 0x9b, 1))
          ) else (
            if n < 14 then (if n < 13 then Cell(0x01, 1, 0x9d, 0) else Cell(0x16, 1, 0x9d, 1)) else (if n < 15 then Cell(0x01, 1, 0x9e, 0) else Cell(0x16, 1, 0x9e, 1))
          )
        )
      )
    )
  }

  function Rows156(s: nat, n: nat): Cell
  {
    if s < 158 then (
      if s < 157 then (
        // 156
        if n < 8 then (
          if n < 4 then (
            if n < 2 then (if n < 1 then Cell(0x02, 1, 0x93, 0) else Cell(0x09, 1, 0x93, 0)) else (if n < 3 then Cell(0x17, 1, 0x93, 0) else Cell(0x28, 1, 0x93, 1))
          ) else (
            if n < 6 then (if n < 5 then Cell(0x02, 1, 0x95, 0) else Cell(0x09, 1, 0x95, 0)) else (if n < 7 then Cell(0x17, 1, 0x95, 0) else Cell(0x28, 1, 0x95, 1))
          )
        ) else (
          if n < 12 then (
            if n < 10 then (if n < 9 then Cell(0x02, 1, 0x96, 0) else Cell(0x09, 1, 0x96, 0)) else (if n < 11 then Cell(0x17, 1, 0x96, 0) else Cell(0x28, 1, 0x96, 1))
          ) else (
            if n < 14 then (if n < 13 then Cell(0x02, 1, 0x97, 0) else Cell(0x09, 1, 0x97, 0)) else (if n < 15 then Cell(0x17, 1, 0x97, 0) else Cell(0x28, 1, 0x97, 1))
          )
        )
      ) else (
        // 157
        if n < 8 then (
          if n < 4 then (
            if n < 2 then (if n < 1 then Cell(0x03, 1, 0x93, 0) else Cell(0x06, 1, 0x93, 0)) else (if n < 3 then Cell(0x0a, 1, 0x93, 0) else Cell(0x0f, 1, 0x93, 0))
          ) else (
            if n < 6 then (if n < 5 then Cell(0x18, 1, 0x93, 0) else Cell(0x1f, 1, 0x93, 0)) else (if n < 7 then Cell(0x29, 1, 0x93, 0) else Cell(0x38, 1, 0x93, 1))
          )
        ) else (
          if n < 12 then (
            if n < 10 then (if n < 9 then Cell(0x03, 1, 0x95, 0) else Cell(0x06, 1, 0x95, 0)) else (if n < 11 then Cell(0x0a, 1, 0x95, 0) else Cell(0x0f, 1, 0x95, 0))
          ) else (
            if n < 14 then (if n < 13 then Cell(0x18, 1, 0x95, 0) else Cell(0x1f, 1, 0x95, 0)) else (if n < 15 then Cell(0x29, 1, 0x95, 0) else Cell(0x38, 1, 0x95, 1))
          )
        )
      )
    ) else (
      if s < 159 then (
        // 158
        if n < 8 then (
          if n < 4 then (
            if n < 2 then (if n < 1 then Cell(0x03, 1, 0x96, 0) else Cell(0x06, 1, 0x96, 0)) else (if n < 3 then Cell(0x0a, 1, 0x96, 0) else Cell(0x0f, 1, 0x96, 0))
          ) else (
            if n < 6 then (if n < 5 then Cell(0x18, 1, 0x96, 0) else Cell(0x1f, 1, 0x96, 0)) else (if n < 7 then Cell(0x29, 1, 0x96, 0) else Cell(0x38, 1, 0x96, 1))
          )
        ) else (
          if n < 12 then (
            if n < 10 then (if n < 9 then Cell(0x03, 1, 0x97, 0) else Cell(0x06, 1, 0x97, 0)) else (if n < 11 then Cell(0x0a, 1, 0x97, 0) else Cell(0x0f, 1, 0x97, 0))
          ) else (
            if n < 14 then (if n < 13 then Cell(0x18, 1, 0x97, 0) else Cell(0x1f, 1, 0x97, 0)) else (if n < 15 then Cell(0x29, 1, 0x97, 0) else Cell(0x38, 1, 0x97, 1))
          )
        )
      ) else (
        // 159
        if n < 8 then (
          if n < 4 then (
            if n < 2 then (if n < 1 then Cell(0x02, 1, 0x98, 0) else Cell(0x09, 1, 0x98, 0)) else (if n < 3 then Cell(0x17, 1, 0x98, 0) else Cell(0x28, 1, 0x98, 1))
          ) else (
            if n < 6 then (if n < 5 then Cell(0x02, 1, 0x9b, 0) else Cell(0x09, 1, 0x9b, 0)) else (if n < 7 then Cell(0x17, 1, 0x9b, 0) else Cell(0x28, 1, 0x9b, 1))
          )
        ) else (
          if n < 12 then (
            if n < 10 then (if n < 9 then Cell(0x02, 1, 0x9d, 0) else Cell(0x09, 1, 0x9d, 0)) else (if n < 11 then Cell(0x17, 1, 0x9d, 0) else Cell(0x28, 1, 0x9d, 1))
          ) else (
            if n < 14 then (if n < 13 then Cell(0x02, 1, 0x9e, 0) else Cell(0x09, 1, 0x9e, 0)) else (if n < 15 then Cell(0x17, 1, 0x9e, 0) else Cell(0x28, 1, 0x9e, 1))
          )
        )
      )
    )
  }

  function Rows160(s: nat, n: nat): Cell
  {
    if s < 162 then (
      if s < 161 then (
        // 160
        if n < 8 then (
          if n < 4 then (
            if n < 2 then (if n < 1 then Cell(0x03, 1, 0x98, 0) else Cell(0x06, 1, 0x98, 0)) else (if n < 3 then Cell(0x0a, 1, 0x98, 0) else Cell(0x0f, 1, 0x98, 0))
          ) else (
            if n < 6 then (if n < 5 then Cell(0x18, 1, 0x98, 0) else Cell(0x1f, 1, 0x98, 0)) else (if n < 7 then Cell(0x29, 1, 0x98, 0) else Cell(0x38, 1, 0x98, 1))
          )
        ) else (
          if n < 12 then (
            if n < 10 then (if n < 9 then Cell(0x03, 1, 0x9b, 0) else Cell(0x06, 1, 0x9b, 0)) else (if n < 11 then Cell(0x0a, 1, 0x9b, 0) else Cell(0x0f, 1, 0x9b, 0))
          ) else (
            if n < 14 then (if n < 13 then Cell(0x18, 1, 0x9b, 0) else Cell(0x1f, 1, 0x9b, 0)) else (if n < 15 then Cell(0x29, 1, 0x9b, 0) else Cell(0x38, 1, 0x9b, 1))
          )
        )
      ) else (
        // 161
        if n < 8 then (
          if n < 4 then (
            if n < 2 then (if n < 1 then Cell(0x03, 1, 0x9d, 0) else Cell(0x06, 1, 0x9d, 0)) else (if n < 3 then Cell(0x0a, 1, 0x9d, 0) else Cell(0x0f, 1, 0x9d, 0))
          ) else (
            if n < 6 then (if n < 5 then Cell(0x18, 1, 0x9d, 0) else Cell(0x1f, 1, 0x9d, 0)) else (if n < 7 then Cell(0x29, 1, 0x9d, 0) else Cell(0x38, 1, 0x9d, 1))
          )
        ) else (
          if n < 12 then (
            if n < 10 then (if n < 9 then Cell(0x03, 1, 0x9e, 0) else Cell(0x06, 1, 0x9e, 0)) else (if n < 11 then Cell(0x0a, 1, 0x9e, 0) else Cell(0x0f, 1, 0x9e, 0))
          ) else (
            if n < 14 then (if n < 13 then Cell(0x18, 1, 0x9e, 0) else Cell(0x1f, 1, 0x9e, 0)) else (if n < 15 then Cell(0x29, 1, 0x9e, 0) else Cell(0x38, 1, 0x9e, 1))
          )
        )
      )
    ) else (
      if s < 163 then (
        // 162
        if n < 8 then (
          if n < 4 then (
            if n < 2 then (if n < 1 then Cell(0x01, 1, 0xa5, 0) else Cell(0x16, 1, 0xa5, 1)) else (if n < 3 then Cell(0x01, 1, 0xa6, 0) else Cell(0x16, 1, 0xa6, 1))
          ) else (
            if n < 6 then (if n < 5 then Cell(0x01, 1, 0xa8, 0) else Cell(0x16, 1, 0xa8, 1)) else (if n < 7 then Cell(0x01, 1, 0xae, 0) else Cell(0x16, 1, 0xae, 1))
          )
        ) else (
          if n < 12 then (
            if n < 10 then (if n < 9 then Cell(0x01, 1, 0xaf, 0) else Cell(0x16, 1, 0xaf, 1)) else (if n < 11 then Cell(0x01, 1, 0xb4, 0) else Cell(0x16, 1, 0xb4, 1))
          ) else (
            if n < 14 then (if n < 13 then Cell(0x01, 1, 0xb6, 0) else Cell(0x16, 1, 0xb6, 1)) else (if n < 15 then Cell(0x01, 1, 0xb7, 0) else Cell(0x16, 1, 0xb7, 1))
          )
        )
      ) else (
        // 163
        if n < 8 then (
          if n < 4 then (
            if n < 2 then (if n < 1 then Cell(0x02, 1, 0xa5, 0) else Cell(0x09, 1, 0xa5, 0)) else (if n < 3 then Cell(0x17, 1, 0xa5, 0) else Cell(0x28, 1, 0xa5, 1))
          ) else (
            if n < 6 then (if n < 5 then Cell(0x02, 1, 0xa6, 0) else Cell(0x09, 1, 0xa6, 0)) else (if n < 7 then Cell(0x17, 1, 0xa6, 0) else Cell(0x28, 1, 0xa6, 1))
          )
        ) else (
          if n < 12 then (
            if n < 10 then (if n < 9 then Cell(0x02, 1, 0xa8, 0) else Cell(0x09, 1, 0xa8, 0)) else (if n < 11 then Cell(0x17, 1, 0xa8, 0) else Cell(0x28, 1, 0xa8, 1))
          ) else (
            if n < 14 then (if n < 13 then Cell(0x02, 1, 0xae, 0) else Cell(0x09, 1, 0xae, 0)) else (if n < 15 then Cell(0x17, 1, 0xae, 0) else Cell(0x28, 1, 0xae, 1))
          )
        )
      )
    )
  }

  function Rows164(s: nat, n: nat): Cell
  {
    if s < 166 then (
      if s < 165 then (
        // 164
        if n < 8 then (
          if n < 4 then (
            if n < 2 then (if n < 1 then Cell(0x03, 1, 0xa5, 0) else Cell(0x06, 1, 0xa5, 0)) else (if n < 3 then Cell(0x0a, 1, 0xa5, 0) else Cell(0x0f, 1, 0xa5, 0))
          ) else (
            if n < 6 then (if n < 5 then Cell(0x18, 1, 0xa5, 0) else Cell(0x1f, 1, 0xa5, 0)) else (if n < 7 then Cell(0x29, 1, 0xa5, 0) else Cell(0x38, 1, 0xa5, 1))
          )
        ) else (
          if n < 12 then (
            if n < 10 then (if n < 9 then Cell(0x03, 1, 0xa6, 0) else Cell(0x06, 1, 0xa6, 0)) else (if n < 11 then Cell(0x0a, 1, 0xa6, 0) else Cell(0x0f, 1, 0xa6, 0))
          ) else (
            if n < 14 then (if n < 13 then Cell(0x18, 1, 0xa6, 0) else Cell(0x1f, 1, 0xa6, 0)) else (if n < 15 then Cell(0x29, 1, 0xa6, 0) else Cell(0x38, 1, 0xa6, 1))
          )
        )
      ) else (
        // 165
        if n < 8 then (
          if n < 4 then (
            if n < 2 then (if n < 1 then Cell(0x03, 1, 0xa8, 0) else Cell(0x06, 1, 0xa8, 0)) else (if n < 3 then Cell(0x0a, 1, 0xa8, 0) else Cell(0x0f, 1, 0xa8, 0))
          ) else (
            if n < 6 then (if n < 5 then Cell(0x18, 1, 0xa8, 0) else Cell(0x1f, 1, 0xa8, 0)) else (if n < 7 then Cell(0x29, 1, 0xa8, 0) else Cell(0x38, 1, 0xa8, 1))
          )
        ) else (
          if n < 12 then (
            if n < 10 then (if n < 9 then Cell(0x03, 1, 0xae, 0) else Cell(0x06, 1, 0xae, 0)) else (if n < 11 then Cell(0x0a, 1, 0xae, 0) else Cell(0x0f, 1, 0xae, 0))
          ) else (
            if n < 14 then (if n < 13 then Cell(0x18, 1, 0xae, 0) else Cell(0x1f, 1, 0xae, 0)) else (if n < 15 then Cell(0x29, 1, 0xae, 0) else Cell(0x38, 1, 0xae, 1))
          )
        )
      )
    ) else (
      if s < 167 then (
        // 166
        if n < 8 then (
          if n < 4 then (
            if n < 2 then (if n < 1 then Cell(0x02, 1, 0xaf, 0) else Cell(0x09, 1, 0xaf, 0)) else (if n < 3 then Cell(0x17, 1, 0xaf, 0) else Cell(0x28, 1, 0xaf, 1))
          ) else (
            if n < 6 then (if n < 5 then Cell(0x02, 1, 0xb4, 0) else Cell(0x09, 1, 0xb4, 0)) else (if n < 7 then Cell(0x17, 1, 0xb4, 0) else Cell(0x28, 1, 0xb4, 1))
          )
        ) else (
          if n < 12 then (
            if n < 10 then (if n < 9 then Cell(0x02, 1, 0xb6, 0) else Cell(0x09, 1, 0xb6, 0)) else (if n < 11 then Cell(0x17, 1, 0xb6, 0) else Cell(0x28, 1, 0xb6, 1))
          ) else (
            if n < 14 then (if n < 13 then Cell(0x02, 1, 0xb7, 0) else Cell(0x09, 1, 0xb7, 0)) else (if n < 15 then Cell(0x17, 1, 0xb7, 0) else Cell(0x28, 1, 0xb7, 1))
          )
        )
      ) else (
        // 167
        if n < 8 then (
          if n < 4 then (
            if n < 2 then (if n < 1 then Cell(0x03, 1, 0xaf, 0) else Cell(0x06, 1, 0xaf, 0)) else (if n < 3 then Cell(0x0a, 1, 0xaf, 0) else Cell(0x0f, 1, 0xaf, 0))
          ) else (
            if n < 6 then (if n < 5 then Cell(0x18, 1, 0xaf, 0) else Cell(0x1f, 1, 0xaf, 0)) else (if n < 7 then Cell(0x29, 1, 0xaf, 0) else Cell(0x38, 1, 0xaf, 1))
          )
        ) else (
          if n < 12 then (
            if n < 10 then (if n < 9 then Cell(0x03, 1, 0xb4, 0) else Cell(0x06, 1, 0xb4, 0)) else (if n < 11 then Cell(0x0a, 1, 0xb4, 0) else Cell(0x0f, 1, 0xb4, 0))
          ) else (
            if n < 14 then (if n < 13 then Cell(0x18, 1, 0xb4, 0) else Cell(0x1f, 1, 0xb4, 0)) else (if n < 15 then Cell(0x29, 1, 0xb4, 0) else Cell(0x38, 1, 0xb4, 1))
          )
        )
      )
    )
  }

  function Rows168(s: nat, n: nat): Cell
  {
    if s < 170 then (
      if s < 169 then (
        // 168
        if n < 8 then (
          if n < 4 then (
            if n < 2 then (if n < 1 then Cell(0x03, 1, 0xb6, 0) else Cell(0x06, 1, 0xb6, 0)) else (if n < 3 then Cell(0x0a, 1, 0xb6, 0) else Cell(0x0f, 1, 0xb6, 0))
          ) else (
            if n < 6 then (if n < 5 then Cell(0x18, 1, 0xb6, 0) else Cell(0x1f, 1, 0xb6, 0)) else (if n < 7 then Cell(0x29, 1, 0xb6, 0) else Cell(0x38, 1, 0xb6, 1))
          )
        ) else (
          if n < 12 then (
            if n < 10 then (if n < 9 then Cell(0x03, 1, 0xb7, 0) else Cell(0x06, 1, 0xb7, 0)) else (if n < 11 then Cell(0x0a, 1, 0xb7, 0) else Cell(0x0f, 1, 0xb7, 0))
          ) else (
            if n < 14 then (if n < 13 then Cell(0x18, 1, 0xb7, 0) else Cell(0x1f, 1, 0xb7, 0)) else (if n < 15 then Cell(0x29, 1, 0xb7, 0) else Cell(0x38, 1, 0xb7, 1))
          )
        )
      ) else (
        // 169
        if n < 8 then (
          if n < 4 then (
            if n < 2 then (if n < 1 then Cell(0x00, 1, 0xbc, 1) else Cell(0x00, 1, 0xbf, 1)) else (if n < 3 then Cell(0x00, 1, 0xc5, 1) else Cell(0x00, 1, 0xe7, 1))
          ) else (
            if n < 6 then (if n < 5 then Cell(0x00, 1, 0xef, 1) else Cell(0xb0, 0, 0x00, 0)) else (if n < 7 then Cell(0xb2, 0, 0x00, 0) else Cell(0xb3, 0, 0x00, 0))
          )
        ) else (
          if n < 12 then (
            if n < 10 then (if n < 9 then Cell(0xb7, 0, 0x00, 0) else Cell(0xb8, 0, 0x00, 0)) else (if n < 11 then Cell(0xba, 0, 0x00, 0) else Cell(0xbb, 0, 0x00, 0))
          ) else (
            if n < 14 then (if n < 13 then Cell(0xc0, 0, 0x00, 0) else Cell(0xc7, 0, 0x00, 0)) else (if n < 15 then Cell(0xd0, 0, 0x00, 0) else Cell(0xdf, 0, 0x00, 1))
          )
        )
      )
    ) else (
      if s < 171 then (
        // 170
        if n < 8 then (
          if n < 4 then (
            if n < 2 then (if n < 1 then Cell(0x01, 1, 0xbc, 0) else Cell(0x16, 1, 0xbc, 1)) else (if n < 3 then Cell(0x01, 1, 0xbf, 0) else Cell(0x16, 1, 0xbf, 1))
          ) else (
            if n < 6 then (if n < 5 then Cell(0x01, 1, 0xc5, 0) else Cell(0x16, 1, 0xc5, 1)) else (if n < 7 then Cell(0x01, 1, 0xe7, 0) else Cell(0x16, 1, 0xe7, 1))
          )
        ) else (
          if n < 12 then (
            if n < 10 then (if n < 9 then Cell(0x01, 1, 0xef, 0) else Cell(0x16, 1, 0xef, 1)) else (if n < 11 then Cell(0x00, 1, 0x09, 1) else Cell(0x00, 1, 0x8e, 1))
          ) else (
            if n < 14 then (if n < 13 then Cell(0x00, 1, 0x90, 1) else Cell(0x00, 1, 0x91, 1)) else (if n < 15 then Cell(0x00, 1, 0x94, 1) else Cell(0x00, 1, 0x9f, 1))
          )
        )
      ) else (
        // 171
        if n < 8 then (
          if n < 4 then (
            if n < 2 then (if n < 1 then Cell(0x02, 1, 0xbc, 0) else Cell(0x09, 1, 0xbc, 0)) else (if n < 3 then Cell(0x17, 1, 0xbc, 0) else Cell(0x28, 1, 0xbc, 1))
          ) else (
            if n < 6 then (if n < 5 then Cell(0x02, 1, 0xbf, 0) else Cell(0x09, 1, 0xbf, 0)) else (if n < 7 then Cell(0x17, 1, 0xbf, 0) else Cell(0x28, 1, 0xbf, 1))
          )
        ) else (
          if n < 12 then (
            if n < 10 then (if n < 9 then Cell(0x02, 1, 0xc5, 0) else Cell(0x09, 1, 0xc5, 0)) else (if n < 11 then Cell(0x17, 1, 0xc5, 0) else Cell(0x28, 1, 0xc5, 1))
          ) else (
            if n < 14 then (if n < 13 then Cell(0x02, 1, 0xe7, 0) else Cell(0x09, 1, 0xe7, 0)) else (if n < 15 then Cell(0x17, 1, 0xe7, 0) else Cell(0x28, 1, 0xe7, 1))
          )
        )
      )
    )
  }

  function Rows172(s: nat, n: nat): Cell
  {
    if s < 174 then (
      if s < 173 then (
        // 172
        if n < 8 then (
          if n < 4 then (
            if n < 2 then (if n < 1 then Cell(0x03, 1, 0xbc, 0) else Cell(0x06, 1, 0xbc, 0)) else (if n < 3 then Cell(0x0a, 1, 0xbc, 0) else Cell(0x0f, 1, 0xbc, 0))
          ) else (
            if n < 6 then (if n < 5 then Cell(0x18, 1, 0xbc, 0) else Cell(0x1f, 1, 0xbc, 0)) else (if n < 7 then Cell(0x29, 1, 0xbc, 0) else Cell(0x38, 1, 0xbc, 1))
          )
        ) else (
          if n < 12 then (
            if n < 10 then (if n < 9 then Cell(0x03, 1, 0xbf, 0) else Cell(0x06, 1, 0xbf, 0)) else (if n < 11 then Cell(0x0a, 1, 0xbf, 0) else Cell(0x0f, 1, 0xbf, 0))
          ) else (
            if n < 14 then (if n < 13 then Cell(0x18, 1, 0xbf, 0) else Cell(0x1f, 1, 0xbf, 0)) else (if n < 15 then Cell(0x29, 1, 0xbf, 0) else Cell(0x38, 1, 0xbf, 1))
          )
        )
      ) else (
        // 173
        if n < 8 then (
          if n < 4 then (
            if n < 2 then (if n < 1 then Cell(0x03, 1, 0xc5, 0) else Cell(0x06, 1, 0xc5, 0)) else (if n < 3 then Cell(0x0a, 1, 0xc5, 0) else Cell(0x0f, 1, 0xc5, 0))
          ) else (
            if n < 6 then (if n < 5 then Cell(0x18, 1, 0xc5, 0) else Cell(0x1f, 1, 0xc5, 0)) else (if n < 7 then Cell(0x29, 1, 0xc5, 0) else Cell(0x38, 1, 0xc5, 1))
          )
        ) else (
          if n < 12 then (
            if n < 10 then (if n < 9 then Cell(0x03, 1, 0xe7, 0) else Cell(0x06, 1, 0xe7, 0)) else (if n < 11 then Cell(0x0a, 1, 0xe7, 0) else Cell(0x0f, 1, 0xe7, 0))
          ) else (
            if n < 14 then (if n < 13 then Cell(0x18, 1, 0xe7, 0) else Cell(0x1f, 1, 0xe7, 0)) else (if n < 15 then Cell(0x29, 1, 0xe7, 0) else Cell(0x38, 1, 0xe7, 1))
          )
        )
      )
    ) else (
      if s < 175 then (
        // 174
        if n < 8 then (
          if n < 4 then (
            if n < 2 then (if n < 1 then Cell(0x02, 1, 0xef, 0) else Cell(0x09, 1, 0xef, 0)) else (if n < 3 then Cell(0x17, 1, 0xef, 0) else Cell(0x28, 1, 0xef, 1))
          ) else (
            if n < 6 then (if n < 5 then Cell(0x01, 1, 0x09, 0) else Cell(0x16, 1, 0x09, 1)) else (if n < 7 then Cell(0x01, 1, 0x8e, 0) else Cell(0x16, 1, 0x8e, 1))
          )
        ) else (
          if n < 12 then (
            if n < 10 then (if n < 9 then Cell(0x01, 1, 0x90, 0) else Cell(0x16, 1, 0x90, 1)) else (if n < 11 then Cell(0x01, 1, 0x91, 0) else Cell(0x16, 1, 0x91, 1))
          ) else (
            if n < 14 then (if n < 13 then Cell(0x01, 1, 0x94, 0) else Cell(0x16, 1, 0x94, 1)) else (if n < 15 then Cell(0x01, 1, 0x9f, 0) else Cell(0x16, 1, 0x9f, 1))
          )
        )
      ) else (
        // 175
        if n < 8 then (
          if n < 4 then (
            if n < 2 then (if n < 1 then Cell(0x03, 1, 0xef, 0) else Cell(0x06, 1, 0xef, 0)) else (if n < 3 then Cell(0x0a, 1, 0xef, 0) else Cell(0x0f, 1, 0xef, 0))
          ) else (
            if n < 6 then (if n < 5 then Cell(0x18, 1, 0xef, 0) else Cell(0x1f, 1, 0xef, 0)) else (if n < 7 then Cell(0x29, 1, 0xef, 0) else Cell(0x38, 1, 0xef, 1))
          )
        ) else (
          if n < 12 then (
            if n < 10 then (if n < 9 then Cell(0x02, 1, 0x09, 0) else Cell(0x09, 1, 0x09, 0)) else (if n < 11 then Cell(0x17, 1, 0x09, 0) else Cell(0x28, 1, 0x09, 1))
          ) else (
            if n < 14 then (if n < 13 then Cell(0x02, 1, 0x8e, 0) else Cell(0x09, 1, 0x8e, 0)) else (if n < 15 then Cell(0x17, 1, 0x8e, 0) else Cell(0x28, 1, 0x8e, 1))
          )
        )
      )
    )
  }

  function Rows176(s: nat, n: nat): Cell
  {
    if s < 178 then (
      if s < 177 then (
        // 176
        if n < 8 then (
          if n < 4 then (
            if n < 2 then (if n < 1 then Cell(0x03, 1, 0x09, 0) else Cell(0x06, 1, 0x09, 0)) else (if n < 3 then Cell(0x0a, 1, 0x09, 0) else Cell(0x0f, 1, 0x09, 0))
          ) else (
            if n < 6 then (if n < 5 then Cell(0x18, 1, 0x09, 0) else Cell(0x1f, 1, 0x09, 0)) else (if n < 7 then Cell(0x29, 1, 0x09, 0) else Cell(0x38, 1, 0x09, 1))
          )
        ) else (
          if n < 12 then (
            if n < 10 then (if n < 9 then Cell(0x03, 1, 0x8e, 0) else Cell(0x06, 1, 0x8e, 0)) else (if n < 11 then Cell(0x0a, 1, 0x8e, 0) else Cell(0x0f, 1, 0x8e, 0))
          ) else (
            if n < 14 then (if n < 13 then Cell(0x18, 1, 0x8e, 0) else Cell(0x1f, 1, 0x8e, 0)) else (if n < 15 then Cell(0x29, 1, 0x8e, 0) else Cell(0x38, 1, 0x8e, 1))
          )
        )
      ) else (
        // 177
        if n < 8 then (
          if n < 4 then (
            if n < 2 then (if n < 1 then Cell(0x02, 1, 0x90, 0) else Cell(0x09, 1, 0x90, 0)) else (if n < 3 then Cell(0x17, 1, 0x90, 0) else Cell(0x28, 1, 0x90, 1))
          ) else (
            if n < 6 then (if n < 5 then Cell(0x02, 1, 0x91, 0) else Cell(0x09, 1, 0x91, 0)) else (if n < 7 then Cell(0x17, 1, 0x91, 0) else Cell(0x28, 1, 0x91, 1))
          )
        ) else (
          if n < 12 then (
            if n < 10 then (if n < 9 then Cell(0x02, 1, 0x94, 0) else Cell(0x09, 1, 0x94, 0)) else (if n < 11 then Cell(0x17, 1, 0x94, 0) else Cell(0x28, 1, 0x94, 1))
          ) else (
            if n < 14 then (if n < 13 then Cell(0x02, 1, 0x9f, 0) else Cell(0x09, 1, 0x9f, 0)) else (if n < 15 then Cell(0x17, 1, 0x9f, 0) else Cell(0x28, 1, 0x9f, 1))
          )
        )
      )
    ) else (
      if s < 179 then (
        // 178
        if n < 8 then (
          if n < 4 then (
            if n < 2 then (if n < 1 then Cell(0x03, 1, 0x90, 0) else Cell(0x06, 1, 0x90, 0)) else (if n < 3 then Cell(0x0a, 1, 0x90, 0) else Cell(0x0f, 1, 0x90, 0))
          ) else (
            if n < 6 then (if n < 5 then Cell(0x18, 1, 0x90, 0) else Cell(0x1f, 1, 0x90, 0)) else (if n < 7 then Cell(0x29, 1, 0x90, 0) else Cell(0x38, 1, 0x90, 1))
          )
        ) else (
          if n < 12 then (
            if n < 10 then (if n < 9 then Cell(0x03, 1, 0x91, 0) else Cell(0x06, 1, 0x91, 0)) else (if n < 11 then Cell(0x0a, 1, 0x91, 0) else Cell(0x0f, 1, 0x91, 0))
          ) else (
            if n < 14 then (if n < 13 then Cell(0x18, 1, 0x91, 0) else Cell(0x1f, 1, 0x91, 0)) else (if n < 15 then Cell(0x29, 1, 0x91, 0) else Cell(0x38, 1, 0x91, 1))
          )
        )
      ) else (
        // 179
        if n < 8 then (
          if n < 4 then (
            if n < 2 then (if n < 1 then Cell(0x03, 1, 0x94, 0) else Cell(0x06, 1, 0x94, 0)) else (if n < 3 then Cell(0x0a, 1, 0x94, 0) else Cell(0x0f, 1, 0x94, 0))
          ) else (
            if n < 6 then (if n < 5 then Cell(0x18, 1, 0x94, 0) else Cell(0x1f, 1, 0x94, 0)) else (if n < 7 then Cell(0x29, 1, 0x94, 0) else Cell(0x38, 1, 0x94, 1))
          )
        ) else (
          if n < 12 then (
            if n < 10 then (if n < 9 then Cell(0x03, 1, 0x9f, 0) else Cell(0x06, 1, 0x9f, 0)) else (if n < 11 then Cell(0x0a, 1, 0x9f, 0) else Cell(0x0f, 1, 0x9f, 0))
          ) else (
            if n < 14 then (if n < 13 then Cell(0x18, 1, 0x9f, 0) else Cell(0x1f, 1, 0x9f, 0)) else (if n < 15 then Cell(0x29, 1, 0x9f, 0) else Cell(0x38, 1, 0x9f, 1))
          )
        )
      )
    )
  }

  function Rows180(s: nat, n: nat): Cell
  {
    if s < 182 then (
      if s < 181 then (
        // 180
        if n < 8 then (
          if n < 4 then (
            if n < 2 then (if n < 1 then Cell(0x00, 1, 0xab, 1) else Cell(0x00, 1, 0xce, 1)) else (if n < 3 then Cell(0x00, 1, 0xd7, 1) else Cell(0x00, 1, 0xe1, 1))
          ) else (
            if n < 6 then (if n < 5 then Cell(0x00, 1, 0xec, 1) else Cell(0x00, 1, 0xed, 1)) else (if n < 7 then Cell(0xbc, 0, 0x00, 0) else Cell(0xbd, 0, 0x00, 0))
          )
        ) else (
          if n < 12 then (
            if n < 10 then (if n < 9 then Cell(0xc1, 0, 0x00, 0) else Cell(0xc4, 0, 0x00, 0)) else (if n < 11 then Cell(0xc8, 0, 0x00, 0) else Cell(0xcb, 0, 0x00, 0))
          ) else (
            if n < 14 then (if n < 13 then Cell(0xd1, 0, 0x00, 0) else Cell(0xd8, 0, 0x00, 0)) else (if n < 15 then Cell(0xe0, 0, 0x00, 0) else Cell(0xee, 0, 0x00, 1))
          )
        )
      ) else (
        // 181
        if n < 8 then (
          if n < 4 then (
            if n < 2 then (if n < 1 then Cell(0x01, 1, 0xab, 0) else Cell(0x16, 1, 0xab, 1)) else (if n < 3 then Cell(0x01, 1, 0xce, 0) else Cell(0x16, 1, 0xce, 1))
          ) else (
            if n < 6 then (if n < 5 then Cell(0x01, 1, 0xd7, 0) else Cell(0x16, 1, 0xd7, 1)) else (if n < 7 then Cell(0x01, 1, 0xe1, 0) else Cell(0x16, 1, 0xe1, 1))
          )
        ) else (
          if n < 12 then (
            if n < 10 then (if n < 9 then Cell(0x01, 1, 0xec, 0) else Cell(0x16, 1, 0xec, 1)) else (if n < 11 then Cell(0x01, 1, 0xed, 0) else Cell(0x16, 1, 0xed, 1))
          ) else (
            if n < 14 then (if n < 13 then Cell(0x00, 1, 0xc7, 1) else Cell(0x00, 1, 0xcf, 1)) else (if n < 15 then Cell(0x00, 1, 0xea, 1) else Cell(0x00, 1, 0xeb, 1))
          )
        )
      )
    ) else (
      if s < 183 then (
        // 182
        if n < 8 then (
          if n < 4 then (
            if n < 2 then (if n < 1 then Cell(0x02, 1, 0xab, 0) else Cell(0x09, 1, 0xab, 0)) else (if n < 3 then Cell(0x17, 1, 0xab, 0) else Cell(0x28, 1, 0xab, 1))
          ) else (
            if n < 6 then (if n < 5 then Cell(0x02, 1, 0xce, 0) else Cell(0x09, 1, 0xce, 0)) else (if n < 7 then Cell(0x17, 1, 0xce, 0) else Cell(0x28, 1, 0xce, 1))
          )
        ) else (
          if n < 12 then (
            if n < 10 then (if n < 9 then Cell(0x02, 1, 0xd7, 0) else Cell(0x09, 1, 0xd7, 0)) else (if n < 11 then Cell(0x17, 1, 0xd7, 0) else Cell(0x28, 1, 0xd7, 1))
          ) else (
            if n < 14 then (if n < 13 then Cell(0x02, 1, 0xe1, 0) else Cell(0x09, 1, 0xe1, 0)) else (if n < 15 then Cell(0x17, 1, 0xe1, 0) else Cell(0x28, 1, 0xe1, 1))
          )
        )
      ) else (
        // 183
        if n < 8 then (
          if n < 4 then (
            if n < 2 then (if n < 1 then Cell(0x03, 1, 0xab, 0) else Cell(0x06, 1, 0xab, 0)) else (if n < 3 then Cell(0x0a, 1, 0xab, 0) else Cell(0x0f, 1, 0xab, 0))
          ) else (
            if n < 6 then (if n < 5 then Cell(0x18, 1, 0xab, 0) else Cell(0x1f, 1, 0xab, 0)) else (if n < 7 then Cell(0x29, 1, 0xab, 0) else Cell(0x38, 1, 0xab, 1))
          )
        ) else (
          if n < 12 then (
            if n < 10 then (if n < 9 then Cell(0x03, 1, 0xce, 0) else Cell(0x06, 1, 0xce, 0)) else (if n < 11 then Cell(0x0a, 1, 0xce, 0) else Cell(0x0f, 1, 0xce, 0))
          ) else (
            if n < 14 then (if n < 13 then Cell(0x18, 1, 0xce, 0) else Cell(0x1f, 1, 0xce, 0)) else (if n < 15 then Cell(0x29, 1, 0xce, 0) else Cell(0x38, 1, 0xce, 1))
          )
        )
      )
    )
  }

  function Rows184(s: nat, n: nat): Cell
  {
    if s < 186 then (
      if s < 185 then (
        // 184
        if n < 8 then (
          if n < 4 then (
            if n < 2 then (if n < 1 then Cell(0x03, 1, 0xd7, 0) else Cell(0x06, 1, 0xd7, 0)) else (if n < 3 then Cell(0x0a, 1, 0xd7, 0) else Cell(0x0f, 1, 0xd7, 0))
          ) else (
            if n < 6 then (if n < 5 then Cell(0x18, 1, 0xd7, 0) else Cell(0x1f, 1, 0xd7, 0)) else (if n < 7 then Cell(0x29, 1, 0xd7, 0) else Cell(0x38, 1, 0xd7, 1))
          )
        ) else (
          if n < 12 then (
            if n < 10 then (if n < 9 then Cell(0x03, 1, 0xe1, 0) else Cell(0x06, 1, 0xe1, 0)) else (if n < 11 then Cell(0x0a, 1, 0xe1, 0) else Cell(0x0f, 1, 0xe1, 0))
          ) else (
            if n < 14 then (if n < 13 then Cell(0x18, 1, 0xe1, 0) else Cell(0x1f, 1, 0xe1, 0)) else (if n < 15 then Cell(0x29, 1, 0xe1, 0) else Cell(0x38, 1, 0xe1, 1))
          )
        )
      ) else (
        // 185
        if n < 8 then (
          if n < 4 then (
            if n < 2 then (if n < 1 then Cell(0x02, 1, 0xec, 0) else Cell(0x09, 1, 0xec, 0)) else (if n < 3 then Cell(0x17, 1, 0xec, 0) else Cell(0x28, 1, 0xec, 1))
          ) else (
            if n < 6 then (if n < 5 then Cell(0x02, 1, 0xed, 0) else Cell(0x09, 1, 0xed, 0)) else (if n < 7 then Cell(0x17, 1, 0xed, 0) else Cell(0x28, 1, 0xed, 1))
          )
        ) else (
          if n < 12 then (
            if n < 10 then (if n < 9 then Cell(0x01, 1, 0xc7, 0) else Cell(0x16, 1, 0xc7, 1)) else (if n < 11 then Cell(0x01, 1, 0xcf, 0) else Cell(0x16, 1, 0xcf, 1))
          ) else (
            if n < 14 then (if n < 13 then Cell(0x01, 1, 0xea, 0) else Cell(0x16, 1, 0xea, 1)) else (if n < 15 then Cell(0x01, 1, 0xeb, 0) else Cell(0x16, 1, 0xeb, 1))
          )
        )
      )
    ) else (
      if s < 187 then (
        // 186
        if n < 8 then (
          if n < 4 then (
            if n < 2 then (if n < 1 then Cell(0x03, 1, 0xec, 0) else Cell(0x06, 1, 0xec, 0)) else (if n < 3 then Cell(0x0a, 1, 0xec, 0) else Cell(0x0f, 1, 0xec, 0))
          ) else (
            if n < 6 then (if n < 5 then Cell(0x18, 1, 0xec, 0) else Cell(0x1f, 1, 0xec, 0)) else (if n < 7 then Cell(0x29, 1, 0xec, 0) else Cell(0x38, 1, 0xec, 1))
          )
        ) else (
          if n < 12 then (
            if n < 10 then (if n < 9 then Cell(0x03, 1, 0xed, 0) else Cell(0x06, 1, 0xed, 0)) else (if n < 11 then Cell(0x0a, 1, 0xed, 0) else Cell(0x0f, 1, 0xed, 0))
          ) else (
            if n < 14 then (if n < 13 then Cell(0x18, 1, 0xed, 0) else Cell(0x1f, 1, 0xed, 0)) else (if n < 15 then Cell(0x29, 1, 0xed, 0) else Cell(0x38, 1, 0xed, 1))
          )
        )
      ) else (
        // 187
        if n < 8 then (
          if n < 4 then (
            if n < 2 then (if n < 1 then Cell(0x02, 1, 0xc7, 0) else Cell(0x09, 1, 0xc7, 0)) else (if n < 3 then Cell(0x17, 1, 0xc7, 0) else Cell(0x28, 1, 0xc7, 1))
          ) else (
            if n < 6 then (if n < 5 then Cell(0x02, 1, 0xcf, 0) else Cell(0x09, 1, 0xcf, 0)) else (if n < 7 then Cell(0x17, 1, 0xcf, 0) else Cell(0x28, 1, 0xcf, 1))
          )
        ) else (
          if n < 12 then (
            if n < 10 then (if n < 9 then Cell(0x02, 1, 0xea, 0) else Cell(0x09, 1, 0xea, 0)) else (if n < 11 then Cell(0x17, 1, 0xea, 0) else Cell(0x28, 1, 0xea, 1))
          ) else (
            if n < 14 then (if n < 13 then Cell(0x02, 1, 0xeb, 0) else Cell(0x09, 1, 0xeb, 0)) else (if n < 15 then Cell(0x17, 1, 0xeb, 0) else Cell(0x28, 1, 0xeb, 1))
          )
        )
      )
    )
  }

  function Rows188(s: nat, n: nat): Cell
  {
    if s < 190 then (
      if s < 189 then (
        // 188
        if n < 8 then (
          if n < 4 then (
            if n < 2 then (if n < 1 then Cell(0x03, 1, 0xc7, 0) else Cell(0x06, 1, 0xc7, 0)) else (if n < 3 then Cell(0x0a, 1, 0xc7, 0) else Cell(0x0f, 1, 0xc7, 0))
          ) else (
            if n < 6 then (if n < 5 then Cell(0x18, 1, 0xc7, 0) else Cell(0x1f, 1, 0xc7, 0)) else (if n < 7 then Cell(0x29, 1, 0xc7, 0) else Cell(0x38, 1, 0xc7, 1))
          )
        ) else (
          if n < 12 then (
            if n < 10 then (if n < 9 then Cell(0x03, 1, 0xcf, 0) else Cell(0x06, 1, 0xcf, 0)) else (if n < 11 then Cell(0x0a, 1, 0xcf, 0) else Cell(0x0f, 1, 0xcf, 0))
          ) else (
            if n < 14 then (if n < 13 then Cell(0x18, 1, 0xcf, 0) else Cell(0x1f, 1, 0xcf, 0)) else (if n < 15 then Cell(0x29, 1, 0xcf, 0) else Cell(0x38, 1, 0xcf, 1))
          )
        )
      ) else (
        // 189
        if n < 8 then (
          if n < 4 then (
            if n < 2 then (if n < 1 then Cell(0x03, 1, 0xea, 0) else Cell(0x06, 1, 0xea, 0)) else (if n < 3 then Cell(0x0a, 1, 0xea, 0) else Cell(0x0f, 1, 0xea, 0))
          ) else (
            if n < 6 then (if n < 5 then Cell(0x18, 1, 0xea, 0) else Cell(0x1f, 1, 0xea, 0)) else (if n < 7 then Cell(0x29, 1, 0xea, 0) else Cell(0x38, 1, 0xea, 1))
          )
        ) else (
          if n < 12 then (
            if n < 10 then (if n < 9 then Cell(0x03, 1, 0xeb, 0) else Cell(0x06, 1, 0xeb, 0)) else (if n < 11 then Cell(0x0a, 1, 0xeb, 0) else Cell(0x0f, 1, 0xeb, 0))
          ) else (
            if n < 14 then (if n < 13 then Cell(0x18, 1, 0xeb, 0) else Cell(0x1f, 1, 0xeb, 0)) else (if n < 15 then Cell(0x29, 1, 0xeb, 0) else Cell(0x38, 1, 0xeb, 1))
          )
        )
      )
    ) else (
      if s < 191 then (
        // 190
        if n < 8 then (
          if n < 4 then (
            if n < 2 then (if n < 1 then Cell(0xc2, 0, 0x00, 0) else Cell(0xc3, 0, 0x00, 0)) else (if n < 3 then Cell(0xc5, 0, 0x00, 0) else Cell(0xc6, 0, 0x00, 0))
          ) else (
            if n < 6 then (if n < 5 then Cell(0xc9, 0, 0x00, 0) else Cell(0xca, 0, 0x00, 0)) else (if n < 7 then Cell(0xcc, 0, 0x00, 0) else Cell(0xcd, 0, 0x00, 0))
          )
        ) else (
          if n < 12 then (
            if n < 10 then (if n < 9 then Cell(0xd2, 0, 0x00, 0) else Cell(0xd5, 0, 0x00, 0)) else (if n < 11 then Cell(0xd9, 0, 0x00, 0) else Cell(0xdc, 0, 0x00, 0))
          ) else (
            if n < 14 then (if n < 13 then Cell(0xe1, 0, 0x00, 0) else Cell(0xe7, 0, 0x00, 0)) else (if n < 15 then Cell(0xef, 0, 0x00, 0) else Cell(0xf6, 0, 0x00, 1))
          )
        )
      ) else (
        // 191
        if n < 8 then (
          if n < 4 then (
            if n < 2 then (if n < 1 then Cell(0x00, 1, 0xc0, 1) else Cell(0x00, 1, 0xc1, 1)) else (if n < 3 then Cell(0x00, 1, 0xc8, 1) else Cell(0x00, 1, 0xc9, 1))
          ) else (
            if n < 6 then (if n < 5 then Cell(0x00, 1, 0xca, 1) else Cell(0x00, 1, 0xcd, 1)) else (if n < 7 then Cell(0x00, 1, 0xd2, 1) else Cell(0x00, 1, 0xd5, 1))
          )
        ) else (
          if n < 12 then (
            if n < 10 then (if n < 9 then Cell(0x00, 1, 0xda, 1) else Cell(0x00, 1, 0xdb, 1)) else (if n < 11 then Cell(0x00, 1, 0xee, 1) else Cell(0x00, 1, 0xf0, 1))
          ) else (
            if n < 14 then (if n < 13 then Cell(0x00, 1, 0xf2, 1) else Cell(0x00, 1, 0xf3, 1)) else (if n < 15 then Cell(0x00, 1, 0xff, 1) else Cell(0xce, 0, 0x00, 0))
          )
        )
      )
    )
  }

  function Rows192(s: nat, n: nat): Cell
  {
    if s < 194 then (
      if s < 193 then (
        // 192
        if n < 8 then (
          if n < 4 then (
            if n < 2 then (if n < 1 then Cell(0x01, 1, 0xc0, 0) else Cell(0x16, 1, 0xc0, 1)) else (if n < 3 then Cell(0x01, 1, 0xc1, 0) else Cell(0x16, 1, 0xc1, 1))
          ) else (
            if n < 6 then (if n < 5 then Cell(0x01, 1, 0xc8, 0) else Cell(0x16, 1, 0xc8, 1)) else (if n < 7 then Cell(0x01, 1, 0xc9, 0) else Cell(0x16, 1, 0xc9, 1))
          )
        ) else (
          if n < 12 then (
            if n < 10 then (if n < 9 then Cell(0x01, 1, 0xca, 0) else Cell(0x16, 1, 0xca, 1)) else (if n < 11 then Cell(0x01, 1, 0xcd, 0) else Cell(0x16, 1, 0xcd, 1))
          ) else (
            if n < 14 then (if n < 13 then Cell(0x01, 1, 0xd2, 0) else Cell(0x16, 1, 0xd2, 1)) else (if n < 15 then Cell(0x01, 1, 0xd5, 0) else Cell(0x16, 1, 0xd5, 1))
          )
        )
      ) else (
        // 193
        if n < 8 then (
          if n < 4 then (
            if n < 2 then (if n < 1 then Cell(0x02, 1, 0xc0, 0) else Cell(0x09, 1, 0xc0, 0)) else (if n < 3 then Cell(0x17, 1, 0xc0, 0) else Cell(0x28, 1, 0xc0, 1))
          ) else (
            if n < 6 then (if n < 5 then Cell(0x02, 1, 0xc1, 0) else Cell(0x09, 1, 0xc1, 0)) else (if n < 7 then Cell(0x17, 1, 0xc1, 0) else Cell(0x28, 1, 0xc1, 1))
          )
        ) else (
          if n < 12 then (
            if n < 10 then (if n < 9 then Cell(0x02, 1, 0xc8, 0) else Cell(0x09, 1, 0xc8, 0)) else (if n < 11 then Cell(0x17, 1, 0xc8, 0) else Cell(0x28, 1, 0xc8, 1))
          ) else (
            if n < 14 then (if n < 13 then Cell(0x02, 1, 0xc9, 0) else Cell(0x09, 1, 0xc9, 0)) else (if n < 15 then Cell(0x17, 1, 0xc9, 0) else Cell(0x28, 1, 0xc9, 1))
          )
        )
      )
    ) else (
      if s < 195 then (
        // 194
        if n < 8 then (
          if n < 4 then (
            if n < 2 then (if n < 1 then Cell(0x03, 1, 0xc0, 0) else Cell(0x06, 1, 0xc0, 0)) else (if n < 3 then Cell(0x0a, 1, 0xc0, 0) else Cell(0x0f, 1, 0xc0, 0))
          ) else (
            if n < 6 then (if n < 5 then Cell(0x18, 1, 0xc0, 0) else Cell(0x1f, 1, 0xc0, 0)) else (if n < 7 then Cell(0x29, 1, 0xc0, 0) else Cell(0x38, 1, 0xc0, 1))
          )
        ) else (
          if n < 12 then (
            if n < 10 then (if n < 9 then Cell(0x03, 1, 0xc1, 0) else Cell(0x06, 1, 0xc1, 0)) else (if n < 11 then Cell(0x0a, 1, 0xc1, 0) else Cell(0x0f, 1, 0xc1, 0))
          ) else (
            if n < 14 then (if n < 13 then Cell(0x18, 1, 0xc1, 0) else Cell(0x1f, 1, 0xc1, 0)) else (if n < 15 then Cell(0x29, 1, 0xc1, 0) else Cell(0x38, 1, 0xc1, 1))
          )
        )
      ) else (
        // 195
        if n < 8 then (
          if n < 4 then (
            if n < 2 then (if n < 1 then Cell(0x03, 1, 0xc8, 0) else Cell(0x06, 1, 0xc8, 0)) else (if n < 3 then Cell(0x0a, 1, 0xc8, 0) else Cell(0x0f, 1, 0xc8, 0))
          ) else (
            if n < 6 then (if n < 5 then Cell(0x18, 1, 0xc8, 0) else Cell(0x1f, 1, 0xc8, 0)) else (if n < 7 then Cell(0x29, 1, 0xc8, 0) else Cell(0x38, 1, 0xc8, 1))
          )
        ) else (
          if n < 12 then (
            if n < 10 then (if n < 9 then Cell(0x03, 1, 0xc9, 0) else Cell(0x06, 1, 0xc9, 0)) else (if n < 11 then Cell(0x0a, 1, 0xc9, 0) else Cell(0x0f, 1, 0xc9, 0))
          ) else (
            if n < 14 then (if n < 13 then Cell(0x18, 1, 0xc9, 0) else Cell(0x1f, 1, 0xc9, 0)) else (if n < 15 then Cell(0x29, 1, 0xc9, 0) else Cell(0x38, 1, 0xc9, 1))
          )
        )
      )
    )
  }

  function Rows196(s: nat, n: nat): Cell
  {
    if s < 198 then (
      if s < 197 then (
        // 196
        if n < 8 then (
          if n < 4 then (
            if n < 2 then (if n < 1 then Cell(0x02, 1, 0xca, 0) else Cell(0x09, 1, 0xca, 0)) else (if n < 3 then Cell(0x17, 1, 0xca, 0) else Cell(0x28, 1, 0xca, 1))
          ) else (
            if n < 6 then (if n < 5 then Cell(0x02, 1, 0xcd, 0) else Cell(0x09, 1, 0xcd, 0)) else (if n < 7 then Cell(0x17, 1, 0xcd, 0) else Cell(0x28, 1, 0xcd, 1))
          )
        ) else (
          if n < 12 then (
            if n < 10 then (if n < 9 then Cell(0x02, 1, 0xd2, 0) else Cell(0x09, 1, 0xd2, 0)) else (if n < 11 then Cell(0x17, 1, 0xd2, 0) else Cell(0x28, 1, 0xd2, 1))
          ) else (
            if n < 14 then (if n < 13 then Cell(0x02, 1, 0xd5, 0) else Cell(0x09, 1, 0xd5, 0)) else (if n < 15 then Cell(0x17, 1, 0xd5, 0) else Cell(0x28, 1, 0xd5, 1))
          )
        )
      ) else (
        // 197
        if n < 8 then (
          if n < 4 then (
            if n < 2 then (if n < 1 then Cell(0x03, 1, 0xca, 0) else Cell(0x06, 1, 0xca, 0)) else (if n < 3 then Cell(0x0a, 1, 0xca, 0) else Cell(0x0f, 1, 0xca, 0))
          ) else (
            if n < 6 then (if n < 5 then Cell(0x18, 1, 0xca, 0) else Cell(0x1f, 1, 0xca, 0)) else (if n < 7 then Cell(0x29, 1, 0xca, 0) else Cell(0x38, 1, 0xca, 1))
          )
        ) else (
          if n < 12 then (
            if n < 10 then (if n < 9 then Cell(0x03, 1, 0xcd, 0) else Cell(0x06, 1, 0xcd, 0)) else (if n < 11 then Cell(0x0a, 1, 0xcd, 0) else Cell(0x0f, 1, 0xcd, 0))
          ) else (
            if n < 14 then (if n < 13 then Cell(0x18, 1, 0xcd, 0) else Cell(0x1f, 1, 0xcd, 0)) else (if n < 15 then Cell(0x29, 1, 0xcd, 0) else Cell(0x38, 1, 0xcd, 1))
          )
        )
      )
    ) else (
      if s < 199 then (
        // 198
        if n < 8 then (
          if n < 4 then (
            if n < 2 then (if n < 1 then Cell(0x03, 1, 0xd2, 0) else Cell(0x06, 1, 0xd2, 0)) else (if n < 3 then Cell(0x0a, 1, 0xd2, 0) else Cell(0x0f, 1, 0xd2, 0))
          ) else (
            if n < 6 then (if n < 5 then Cell(0x18, 1, 0xd2, 0) else Cell(0x1f, 1, 0xd2, 0)) else (if n < 7 then Cell(0x29, 1, 0xd2, 0) else Cell(0x38, 1, 0xd2, 1))
          )
        ) else (
          if n < 12 then (
            if n < 10 then (if n < 9 then Cell(0x03, 1, 0xd5, 0) else Cell(0x06, 1, 0xd5, 0)) else (if n < 11 then Cell(0x0a, 1, 0xd5, 0) else Cell(0x0f, 1, 0xd5, 0))
          ) else (
            if n < 14 then (if n < 13 then Cell(0x18, 1, 0xd5, 0) else Cell(0x1f, 1, 0xd5, 0)) else (if n < 15 then Cell(0x29, 1, 0xd5, 0) else Cell(0x38, 1, 0xd5, 1))
          )
        )
      ) else (
        // 199
        if n < 8 then (
          if n < 4 then (
            if n < 2 then (if n < 1 then Cell(0x01, 1, 0xda, 0) else Cell(0x16, 1, 0xda, 1)) else (if n < 3 then Cell(0x01, 1, 0xdb, 0) else Cell(0x16, 1, 0xdb, 1))
          ) else (
            if n < 6 then (if n < 5 then Cell(0x01, 1, 0xee, 0) else Cell(0x16, 1, 0xee, 1)) else (if n < 7 then Cell(0x01, 1, 0xf0, 0) else Cell(0x16, 1, 0xf0, 1))
          )
        ) else (
          if n < 12 then (
            if n < 10 then (if n < 9 then Cell(0x01, 1, 0xf2, 0) else Cell(0x16, 1, 0xf2, 1)) else (if n < 11 then Cell(0x01, 1, 0xf3, 0) else Cell(0x16, 1, 0xf3, 1))
          ) else (
            if n < 14 then (if n < 13 then Cell(0x01, 1, 0xff, 0) else Cell(0x16, 1, 0xff, 1)) else (if n < 15 then Cell(0x00, 1, 0xcb, 1) else Cell(0x00, 1, 0xcc, 1))
          )
        )
      )
    )
  }

  function Rows200(s: nat, n: nat): Cell
  {
    if s < 202 then (
      if s < 201 then (
        // 200
        if n < 8 then (
          if n < 4 then (
            if n < 2 then (if n < 1 then Cell(0x02, 1, 0xda, 0) else Cell(0x09, 1, 0xda, 0)) else (if n < 3 then Cell(0x17, 1, 0xda, 0) else Cell(0x28, 1, 0xda, 1))
          ) else (
            if n < 6 then (if n < 5 then Cell(0x02, 1, 0xdb, 0) else Cell(0x09, 1, 0xdb, 0)) else (if n < 7 then Cell(0x17, 1, 0xdb, 0) else Cell(0x28, 1, 0xdb, 1))
          )
        ) else (
          if n < 12 then (
            if n < 10 then (if n < 9 then Cell(0x02, 1, 0xee, 0) else Cell(0x09, 1, 0xee, 0)) else (if n < 11 then Cell(0x17, 1, 0xee, 0) else Cell(0x28, 1, 0xee, 1))
          ) else (
            if n < 14 then (if n < 13 then Cell(0x02, 1, 0xf0, 0) else Cell(0x09, 1, 0xf0, 0)) else (if n < 15 then Cell(0x17, 1, 0xf0, 0) else Cell(0x28, 1, 0xf0, 1))
          )
        )
      ) else (
        // 201
        if n < 8 then (
          if n < 4 then (
            if n < 2 then (if n < 1 then Cell(0x03, 1, 0xda, 0) else Cell(0x06, 1, 0xda, 0)) else (if n < 3 then Cell(0x0a, 1, 0xda, 0) else Cell(0x0f, 1, 0xda, 0))
          ) else (
            if n < 6 then (if n < 5 then Cell(0x18, 1, 0xda, 0) else Cell(0x1f, 1, 0xda, 0)) else (if n < 7 then Cell(0x29, 1, 0xda, 0) else Cell(0x38, 1, 0xda, 1))
          )
        ) else (
          if n < 12 then (
            if n < 10 then (if n < 9 then Cell(0x03, 1, 0xdb, 0) else Cell(0x06, 1, 0xdb, 0)) else (if n < 11 then Cell(0x0a, 1, 0xdb, 0) else Cell(0x0f, 1, 0xdb, 0))
          ) else (
            if n < 14 then (if n < 13 then Cell(0x18, 1, 0xdb, 0) else Cell(0x1f, 1, 0xdb, 0)) else (if n < 15 then Cell(0x29, 1, 0xdb, 0) else Cell(0x38, 1, 0xdb, 1))
          )
        )
      )
    ) else (
      if s < 203 then (
        // 202
        if n < 8 then (
          if n < 4 then (
            if n < 2 then (if n < 1 then Cell(0x03, 1, 0xee, 0) else Cell(0x06, 1, 0xee, 0)) else (if n < 3 then Cell(0x0a, 1, 0xee, 0) else Cell(0x0f, 1, 0xee, 0))
          ) else (
            if n < 6 then (if n < 5 then Cell(0x18, 1, 0xee, 0) else Cell(0x1f, 1, 0xee, 0)) else (if n < 7 then Cell(0x29, 1, 0xee, 0) else Cell(0x38, 1, 0xee, 1))
          )
        ) else (
          if n < 12 then (
            if n < 10 then (if n < 9 then Cell(0x03, 1, 0xf0, 0) else Cell(0x06, 1, 0xf0, 0)) else (if n < 11 then Cell(0x0a, 1, 0xf0, 0) else Cell(0x0f, 1, 0xf0, 0))
          ) else (
            if n < 14 then (if n < 13 then Cell(0x18, 1, 0xf0, 0) else Cell(0x1f, 1, 0xf0, 0)) else (if n < 15 then Cell(0x29, 1, 0xf0, 0) else Cell(0x38, 1, 0xf0, 1))
          )
        )
      ) else (
        // 203
        if n < 8 then (
          if n < 4 then (
            if n < 2 then (if n < 1 then Cell(0x02, 1, 0xf2, 0) else Cell(0x09, 1, 0xf2, 0)) else (if n < 3 then Cell(0x17, 1, 0xf2, 0) else Cell(0x28, 1, 0xf2, 1))
          ) else (
            if n < 6 then (if n < 5 then Cell(0x02, 1, 0xf3, 0) else Cell(0x09, 1, 0xf3, 0)) else (if n < 7 then Cell(0x17, 1, 0xf3, 0) else Cell(0x28, 1, 0xf3, 1))
          )
        ) else (
          if n < 12 then (
            if n < 10 then (if n < 9 then Cell(0x02, 1, 0xff, 0) else Cell(0x09, 1, 0xff, 0)) else (if n < 11 then Cell(0x17, 1, 0xff, 0) else Cell(0x28, 1, 0xff, 1))
          ) else (
            if n < 14 then (if n < 13 then Cell(0x01, 1, 0xcb, 0) else Cell(0x16, 1, 0xcb, 1)) else (if n < 15 then Cell(0x01, 1, 0xcc, 0) else Cell(0x16, 1, 0xcc, 1))
          )
        )
      )
    )
  }

  function Rows204(s: nat, n: nat): Cell
  {
    if s < 206 then (
      if s < 205 then (
        // 204
        if n < 8 then (
          if n < 4 then (
            if n < 2 then (if n < 1 then Cell(0x03, 1, 0xf2, 0) else Cell(0x06, 1, 0xf2, 0)) else (if n < 3 then Cell(0x0a, 1, 0xf2, 0) else Cell(0x0f, 1, 0xf2, 0))
          ) else (
            if n < 6 then (if n < 5 then Cell(0x18, 1, 0xf2, 0) else Cell(0x1f, 1, 0xf2, 0)) else (if n < 7 then Cell(0x29, 1, 0xf2, 0) else Cell(0x38, 1, 0xf2, 1))
          )
        ) else (
          if n < 12 then (
            if n < 10 then (if n < 9 then Cell(0x03, 1, 0xf3, 0) else Cell(0x06, 1, 0xf3, 0)) else (if n < 11 then Cell(0x0a, 1, 0xf3, 0) else Cell(0x0f, 1, 0xf3, 0))
          ) else (
            if n < 14 then (if n < 13 then Cell(0x18, 1, 0xf3, 0) else Cell(0x1f, 1, 0xf3, 0)) else (if n < 15 then Cell(0x29, 1, 0xf3, 0) else Cell(0x38, 1, 0xf3, 1))
          )
        )
      ) else (
        // 205
        if n < 8 then (
          if n < 4 then (
            if n < 2 then (if n < 1 then Cell(0x03, 1, 0xff, 0) else Cell(0x06, 1, 0xff, 0)) else (if n < 3 then Cell(0x0a, 1, 0xff, 0) else Cell(0x0f, 1, 0xff, 0))
          ) else (
            if n < 6 then (if n < 5 then Cell(0x18, 1, 0xff, 0) else Cell(0x1f, 1, 0xff, 0)) else (if n < 7 then Cell(0x29, 1, 0xff, 0) else Cell(0x38, 1, 0xff, 1))
          )
        ) else (
          if n < 12 then (
            if n < 10 then (if n < 9 then Cell(0x02, 1, 0xcb, 0) else Cell(0x09, 1, 0xcb, 0)) else (if n < 11 then Cell(0x17, 1, 0xcb, 0) else Cell(0x28, 1, 0xcb, 1))
          ) else (
            if n < 14 then (if n < 13 then Cell(0x02, 1, 0xcc, 0) else Cell(0x09, 1, 0xcc, 0)) else (if n < 15 then Cell(0x17, 1, 0xcc, 0) else Cell(0x28, 1, 0xcc, 1))
          )
        )
      )
    ) else (
      if s < 207 then (
        // 206
        if n < 8 then (
          if n < 4 then (
            if n < 2 then (if n < 1 then Cell(0x03, 1, 0xcb, 0) else Cell(0x06, 1, 0xcb, 0)) else (if n < 3 then Cell(0x0a, 1, 0xcb, 0) else Cell(0x0f, 1, 0xcb, 0))
          ) else (
            if n < 6 then (if n < 5 then Cell(0x18, 1, 0xcb, 0) else Cell(0x1f, 1, 0xcb, 0)) else (if n < 7 then Cell(0x29, 1, 0xcb, 0) else Cell(0x38, 1, 0xcb, 1))
          )
        ) else (
          if n < 12 then (
            if n < 10 then (if n < 9 then Cell(0x03, 1, 0xcc, 0) else Cell(0x06, 1, 0xcc, 0)) else (if n < 11 then Cell(0x0a, 1, 0xcc, 0) else Cell(0x0f, 1, 0xcc, 0))
          ) else (
            if n < 14 then (if n < 13 then Cell(0x18, 1, 0xcc, 0) else Cell(0x1f, 1, 0xcc, 0)) else (if n < 15 then Cell(0x29, 1, 0xcc, 0) else Cell(0x38, 1, 0xcc, 1))
          )
        )
      ) else (
        // 207
        if n < 8 then (
          if n < 4 then (
            if n < 2 then (if n < 1 then Cell(0xd3, 0, 0x00, 0) else Cell(0xd4, 0, 0x00, 0)) else (if n < 3 then Cell(0xd6, 0, 0x00, 0) else Cell(0xd7, 0, 0x00, 0))
          ) else (
            if n < 6 then (if n < 5 then Cell(0xda, 0, 0x00, 0) else Cell(0xdb, 0, 0x00, 0)) else (if n < 7 then Cell(0xdd, 0, 0x00, 0) else Cell(0xde, 0, 0x00, 0))
          )
        ) else (
          if n < 12 then (
            if n < 10 then (if n < 9 then Cell(0xe2, 0, 0x00, 0) else Cell(0xe4, 0, 0x00, 0)) else (if n < 11 then Cell(0xe8, 0, 0x00, 0) else Cell(0xeb, 0, 0x00, 0))
          ) else (
            if n < 14 then (if n < 13 then Cell(0xf0, 0, 0x00, 0) else Cell(0xf3, 0, 0x00, 0)) else (if n < 15 then Cell(0xf7, 0, 0x00, 0) else Cell(0xfa, 0, 0x00, 1))
          )
        )
      )
    )
  }

  function Rows208(s: nat, n: nat): Cell
  {
    if s < 210 then (
      if s < 209 then (
        // 208
        if n < 8 then (
          if n < 4 then (
            if n < 2 then (if n < 1 then Cell(0x00, 1, 0xd3, 1) else Cell(0x00, 1, 0xd4, 1)) else (if n < 3 then Cell(0x00, 1, 0xd6, 1) else Cell(0x00, 1, 0xdd, 1))
          ) else (
            if n < 6 then (if n < 5 then Cell(0x00, 1, 0xde, 1) else Cell(0x00, 1, 0xdf, 1)) else (if n < 7 then Cell(0x00, 1, 0xf1, 1) else Cell(0x00, 1, 0xf4, 1))
          )
        ) else (
          if n < 12 then (
            if n < 10 then (if n < 9 then Cell(0x00, 1, 0xf5, 1) else Cell(0x00, 1, 0xf6, 1)) else (if n < 11 then Cell(0x00, 1, 0xf7, 1) else Cell(0x00, 1, 0xf8, 1))
          ) else (
            if n < 14 then (if n < 13 then Cell(0x00, 1, 0xfa, 1) else Cell(0x00, 1, 0xfb, 1)) else (if n < 15 then Cell(0x00, 1, 0xfc, 1) else Cell(0x00, 1, 0xfd, 1))
          )
        )
      ) else (
        // 209
        if n < 8 then (
          if n < 4 then (
            if n < 2 then (if n < 1 then Cell(0x01, 1, 0xd3, 0) else Cell(0x16, 1, 0xd3, 1)) else (if n < 3 then Cell(0x01, 1, 0xd4, 0) else Cell(0x16, 1, 0xd4, 1))
          ) else (
            if n < 6 then (if n < 5 then Cell(0x01, 1, 0xd6, 0) else Cell(0x16, 1, 0xd6, 1)) else (if n < 7 then Cell(0x01, 1, 0xdd, 0) else Cell(0x16, 1, 0xdd, 1))
          )
        ) else (
          if n < 12 then (
            if n < 10 then (if n < 9 then Cell(0x01, 1, 0xde, 0) else Cell(0x16, 1, 0xde, 1)) else (if n < 11 then Cell(0x01, 1, 0xdf, 0) else Cell(0x16, 1, 0xdf, 1))
          ) else (
            if n < 14 then (if n < 13 then Cell(0x01, 1, 0xf1, 0) else Cell(0x16, 1, 0xf1, 1)) else (if n < 15 then Cell(0x01, 1, 0xf4, 0) else Cell(0x16, 1, 0xf4, 1))
          )
        )
      )
    ) else (
      if s < 211 then (
        // 210
        if n < 8 then (
          if n < 4 then (
            if n < 2 then (if n < 1 then Cell(0x02, 1, 0xd3, 0) else Cell(0x09, 1, 0xd3, 0)) else (if n < 3 then Cell(0x17, 1, 0xd3, 0) else Cell(0x28, 1, 0xd3, 1))
          ) else (
            if n < 6 then (if n < 5 then Cell(0x02, 1, 0xd4, 0) else Cell(0x09, 1, 0xd4, 0)) else (if n < 7 then Cell(0x17, 1, 0xd4, 0) else Cell(0x28, 1, 0xd4, 1))
          )
        ) else (
          if n < 12 then (
            if n < 10 then (if n < 9 then Cell(0x02, 1, 0xd6, 0) else Cell(0x09, 1, 0xd6, 0)) else (if n < 11 then Cell(0x17, 1, 0xd6, 0) else Cell(0x28, 1, 0xd6, 1))
          ) else (
            if n < 14 then (if n < 13 then Cell(0x02, 1, 0xdd, 0) else Cell(0x09, 1, 0xdd, 0)) else (if n < 15 then Cell(0x17, 1, 0xdd, 0) else Cell(0x28, 1, 0xdd, 1))
          )
        )
      ) else (
        // 211
        if n < 8 then (
          if n < 4 then (
            if n < 2 then (if n < 1 then Cell(0x03, 1, 0xd3, 0) else Cell(0x06, 1, 0xd3, 0)) else (if n < 3 then Cell(0x0a, 1, 0xd3, 0) else Cell(0x0f, 1, 0xd3, 0))
          ) else (
            if n < 6 then (if n < 5 then Cell(0x18, 1, 0xd3, 0) else Cell(0x1f, 1, 0xd3, 0)) else (if n < 7 then Cell(0x29, 1, 0xd3, 0) else Cell(0x38, 1, 0xd3, 1))
          )
        ) else (
          if n < 12 then (
            if n < 10 then (if n < 9 then Cell(0x03, 1, 0xd4, 0) else Cell(0x06, 1, 0xd4, 0)) else (if n < 11 then Cell(0x0a, 1, 0xd4, 0) else Cell(0x0f, 1, 0xd4, 0))
          ) else (
            if n < 14 then (if n < 13 then Cell(0x18, 1, 0xd4, 0) else Cell(0x1f, 1, 0xd4, 0)) else (if n < 15 then Cell(0x29, 1, 0xd4, 0) else Cell(0x38, 1, 0xd4, 1))
          )
        )
      )
    )
  }

  function Rows212(s: nat, n: nat): Cell
  {
    if s < 214 then (
      if s < 213 then (
        // 212
        if n < 8 then (
          if n < 4 then (
            if n < 2 then (if n < 1 then Cell(0x03, 1, 0xd6, 0) else Cell(0x06, 1, 0xd6, 0)) else (if n < 3 then Cell(0x0a, 1, 0xd6, 0) else Cell(0x0f, 1, 0xd6, 0))
          ) else (
            if n < 6 then (if n < 5 then Cell(0x18, 1, 0xd6, 0) else Cell(0x1f, 1, 0xd6, 0)) else (if n < 7 then Cell(0x29, 1, 0xd6, 0) else Cell(0x38, 1, 0xd6, 1))
          )
        ) else (
          if n < 12 then (
            if n < 10 then (if n < 9 then Cell(0x03, 1, 0xdd, 0) else Cell(0x06, 1, 0xdd, 0)) else (if n < 11 then Cell(0x0a, 1, 0xdd, 0) else Cell(0x0f, 1, 0xdd, 0))
          ) else (
            if n < 14 then (if n < 13 then Cell(0x18, 1, 0xdd, 0) else Cell(0x1f, 1, 0xdd, 0)) else (if n < 15 then Cell(0x29, 1, 0xdd, 0) else Cell(0x38, 1, 0xdd, 1))
          )
        )
      ) else (
        // 213
        if n < 8 then (
          if n < 4 then (
            if n < 2 then (if n < 1 then Cell(0x02, 1, 0xde, 0) else Cell(0x09, 1, 0xde, 0)) else (if n < 3 then Cell(0x17, 1, 0xde, 0) else Cell(0x28, 1, 0xde, 1))
          ) else (
            if n < 6 then (if n < 5 then Cell(0x02, 1, 0xdf, 0) else Cell(0x09, 1, 0xdf, 0)) else (if n < 7 then Cell(0x17, 1, 0xdf, 0) else Cell(0x28, 1, 0xdf, 1))
          )
        ) else (
          if n < 12 then (
            if n < 10 then (if n < 9 then Cell(0x02, 1, 0xf1, 0) else Cell(0x09, 1, 0xf1, 0)) else (if n < 11 then Cell(0x17, 1, 0xf1, 0) else Cell(0x28, 1, 0xf1, 1))
          ) else (
            if n < 14 then (if n < 13 then Cell(0x02, 1, 0xf4, 0) else Cell(0x09, 1, 0xf4, 0)) else (if n < 15 then Cell(0x17, 1, 0xf4, 0) else Cell(0x28, 1, 0xf4, 1))
          )
        )
      )
    ) else (
      if s < 215 then (
        // 214
        if n < 8 then (
          if n < 4 then (
            if n < 2 then (if n < 1 then Cell(0x03, 1, 0xde, 0) else Cell(0x06, 1, 0xde, 0)) else (if n < 3 then Cell(0x0a, 1, 0xde, 0) else Cell(0x0f, 1, 0xde, 0))
          ) else (
            if n < 6 then (if n < 5 then Cell(0x18, 1, 0xde, 0) else Cell(0x1f, 1, 0xde, 0)) else (if n < 7 then Cell(0x29, 1, 0xde, 0) else Cell(0x38, 1, 0xde, 1))
          )
        ) else (
          if n < 12 then (
            if n < 10 then (if n < 9 then Cell(0x03, 1, 0xdf, 0) else Cell(0x06, 1, 0xdf, 0)) else (if n < 11 then Cell(0x0a, 1, 0xdf, 0) else Cell(0x0f, 1, 0xdf, 0))
          ) else (
            if n < 14 then (if n < 13 then Cell(0x18, 1, 0xdf, 0) else Cell(0x1f, 1, 0xdf, 0)) else (if n < 15 then Cell(0x29, 1, 0xdf, 0) else Cell(0x38, 1, 0xdf, 1))
          )
        )
      ) else (
        // 215
        if n < 8 then (
          if n < 4 then (
            if n < 2 then (if n < 1 then Cell(0x03, 1, 0xf1, 0) else Cell(0x06, 1, 0xf1, 0)) else (if n < 3 then Cell(0x0a, 1, 0xf1, 0) else Cell(0x0f, 1, 0xf1, 0))
          ) else (
            if n < 6 then (if n < 5 then Cell(0x18, 1, 0xf1, 0) else Cell(0x1f, 1, 0xf1, 0)) else (if n < 7 then Cell(0x29, 1, 0xf1, 0) else Cell(0x38, 1, 0xf1, 1))
          )
        ) else (
          if n < 12 then (
            if n < 10 then (if n < 9 then Cell(0x03, 1, 0xf4, 0) else Cell(0x06, 1, 0xf4, 0)) else (if n < 11 then Cell(0x0a, 1, 0xf4, 0) else Cell(0x0f, 1, 0xf4, 0))
          ) else (
            if n < 14 then (if n < 13 then Cell(0x18, 1, 0xf4, 0) else Cell(0x1f, 1, 0xf4, 0)) else (if n < 15 then Cell(0x29, 1, 0xf4, 0) else Cell(0x38, 1, 0xf4, 1))
          )
        )
      )
    )
  }

  function Rows216(s: nat, n: nat): Cell
  {
    if s < 218 then (
      if s < 217 then (
        // 216
        if n < 8 then (
          if n < 4 then (
            if n < 2 then (if n < 1 then Cell(0x01, 1, 0xf5, 0) else Cell(0x16, 1, 0xf5, 1)) else (if n < 3 then Cell(0x01, 1, 0xf6, 0) else Cell(0x16, 1, 0xf6, 1))
          ) else (
            if n < 6 then (if n < 5 then Cell(0x01, 1, 0xf7, 0) else Cell(0x16, 1, 0xf7, 1)) else (if n < 7 then Cell(0x01, 1, 0xf8, 0) else Cell(0x16, 1, 0xf8, 1))
          )
        ) else (
          if n < 12 then (
            if n < 10 then (if n < 9 then Cell(0x01, 1, 0xfa, 0) else Cell(0x16, 1, 0xfa, 1)) else (if n < 11 then Cell(0x01, 1, 0xfb, 0) else Cell(0x16, 1, 0xfb, 1))
          ) else (
            if n < 14 then (if n < 13 then Cell(0x01, 1, 0xfc, 0) else Cell(0x16, 1, 0xfc, 1)) else (if n < 15 then Cell(0x01, 1, 0xfd, 0) else Cell(0x16, 1, 0xfd, 1))
          )
        )
      ) else (
        // 217
        if n < 8 then (
          if n < 4 then (
            if n < 2 then (if n < 1 then Cell(0x02, 1, 0xf5, 0) else Cell(0x09, 1, 0xf5, 0)) else (if n < 3 then Cell(0x17, 1, 0xf5, 0) else Cell(0x28, 1, 0xf5, 1))
          ) else (
            if n < 6 then (if n < 5 then Cell(0x02, 1, 0xf6, 0) else Cell(0x09, 1, 0xf6, 0)) else (if n < 7 then Cell(0x17, 1, 0xf6, 0) else Cell(0x28, 1, 0xf6, 1))
          )
        ) else (
          if n < 12 then (
            if n < 10 then (if n < 9 then Cell(0x02, 1, 0xf7, 0) else Cell(0x09, 1, 0xf7, 0)) else (if n < 11 then Cell(0x17, 1, 0xf7, 0) else Cell(0x28, 1, 0xf7, 1))
          ) else (
            if n < 14 then (if n < 13 then Cell(0x02, 1, 0xf8, 0) else Cell(0x09, 1, 0xf8, 0)) else (if n < 15 then Cell(0x17, 1, 0xf8, 0) else Cell(0x28, 1, 0xf8, 1))
          )
        )
      )
    ) else (
      if s < 219 then (
        // 218
        if n < 8 then (
          if n < 4 then (
            if n < 2 then (if n < 1 then Cell(0x03, 1, 0xf5, 0) else Cell(0x06, 1, 0xf5, 0)) else (if n < 3 then Cell(0x0a, 1, 0xf5, 0) else Cell(0x0f, 1, 0xf5, 0))
          ) else (
            if n < 6 then (if n < 5 then Cell(0x18, 1, 0xf5, 0) else Cell(0x1f, 1, 0xf5, 0)) else (if n < 7 then Cell(0x29, 1, 0xf5, 0) else Cell(0x38, 1, 0xf5, 1))
          )
        ) else (
          if n < 12 then (
            if n < 10 then (if n < 9 then Cell(0x03, 1, 0xf6, 0) else Cell(0x06, 1, 0xf6, 0)) else (if n < 11 then Cell(0x0a, 1, 0xf6, 0) else Cell(0x0f, 1, 0xf6, 0))
          ) else (
            if n < 14 then (if n < 13 then Cell(0x18, 1, 0xf6, 0) else Cell(0x1f, 1, 0xf6, 0)) else (if n < 15 then Cell(0x29, 1, 0xf6, 0) else Cell(0x38, 1, 0xf6, 1))
          )
        )
      ) else (
        // 219
        if n < 8 then (
          if n < 4 then (
            if n < 2 then (if n < 1 then Cell(0x03, 1, 0xf7, 0) else Cell(0x06, 1, 0xf7, 0)) else (if n < 3 then Cell(0x0a, 1, 0xf7, 0) else Cell(0x0f, 1, 0xf7, 0))
          ) else (
            if n < 6 then (if n < 5 then Cell(0x18, 1, 0xf7, 0) else Cell(0x1f, 1, 0xf7, 0)) else (if n < 7 then Cell(0x29, 1, 0xf7, 0) else Cell(0x38, 1, 0xf7, 1))
          )
        ) else (
          if n < 12 then (
            if n < 10 then (if n < 9 then Cell(0x03, 1, 0xf8, 0) else Cell(0x06, 1, 0xf8, 0)) else (if n < 11 then Cell(0x0a, 1, 0xf8, 0) else Cell(0x0f, 1, 0xf8, 0))
          ) else (
            if n < 14 then (if n < 13 then Cell(0x18, 1, 0xf8, 0) else Cell(0x1f, 1, 0xf8, 0)) else (if n < 15 then Cell(0x29, 1, 0xf8, 0) else Cell(0x38, 1, 0xf8, 1))
          )
        )
      )
    )
  }

  function Rows220(s: nat, n: nat): Cell
  {
    if s < 222 then (
      if s < 221 then (
        // 220
        if n < 8 then (
          if n < 4 then (
            if n < 2 then (if n < 1 then Cell(0x02, 1, 0xfa, 0) else Cell(0x09, 1, 0xfa, 0)) else (if n < 3 then Cell(0x17, 1, 0xfa, 0) else Cell(0x28, 1, 0xfa, 1))
          ) else (
            if n < 6 then (if n < 5 then Cell(0x02, 1, 0xfb, 0) else Cell(0x09, 1, 0xfb, 0)) else (if n < 7 then Cell(0x17, 1, 0xfb, 0) else Cell(0x28, 1, 0xfb, 1))
          )
        ) else (
          if n < 12 then (
            if n < 10 then (if n < 9 then Cell(0x02, 1, 0xfc, 0) else Cell(0x09, 1, 0xfc, 0)) else (if n < 11 then Cell(0x17, 1, 0xfc, 0) else Cell(0x28, 1, 0xfc, 1))
          ) else (
            if n < 14 then (if n < 13 then Cell(0x02, 1, 0xfd, 0) else Cell(0x09, 1, 0xfd, 0)) else (if n < 15 then Cell(0x17, 1, 0xfd, 0) else Cell(0x28, 1, 0xfd, 1))
          )
        )
      ) else (
        // 221
        if n < 8 then (
          if n < 4 then (
            if n < 2 then (if n < 1 then Cell(0x03, 1, 0xfa, 0) else Cell(0x06, 1, 0xfa, 0)) else (if n < 3 then Cell(0x0a, 1, 0xfa, 0) else Cell(0x0f, 1, 0xfa, 0))
          ) else (
            if n < 6 then (if n < 5 then Cell(0x18, 1, 0xfa, 0) else Cell(0x1f, 1, 0xfa, 0)) else (if n < 7 then Cell(0x29, 1, 0xfa, 0) else Cell(0x38, 1, 0xfa, 1))
          )
        ) else (
          if n < 12 then (
            if n < 10 then (if n < 9 then Cell(0x03, 1, 0xfb, 0) else Cell(0x06, 1, 0xfb, 0)) else (if n < 11 then Cell(0x0a, 1, 0xfb, 0) else Cell(0x0f, 1, 0xfb, 0))
          ) else (
            if n < 14 then (if n < 13 then Cell(0x18, 1, 0xfb, 0) else Cell(0x1f, 1, 0xfb, 0)) else (if n < 15 then Cell(0x29, 1, 0xfb, 0) else Cell(0x38, 1, 0xfb, 1))
          )
        )
      )
    ) else (
      if s < 223 then (
        // 222
        if n < 8 then (
          if n < 4 then (
            if n < 2 then (if n < 1 then Cell(0x03, 1, 0xfc, 0) else Cell(0x06, 1, 0xfc, 0)) else (if n < 3 then Cell(0x0a, 1, 0xfc, 0) else Cell(0x0f, 1, 0xfc, 0))
          ) else (
            if n < 6 then (if n < 5 then Cell(0x18, 1, 0xfc, 0) else Cell(0x1f, 1, 0xfc, 0)) else (if n < 7 then Cell(0x29, 1, 0xfc, 0) else Cell(0x38, 1, 0xfc, 1))
          )
        ) else (
          if n < 12 then (
            if n < 10 then (if n < 9 then Cell(0x03, 1, 0xfd, 0) else Cell(0x06, 1, 0xfd, 0)) else (if n < 11 then Cell(0x0a, 1, 0xfd, 0) else Cell(0x0f, 1, 0xfd, 0))
          ) else (
            if n < 14 then (if n < 13 then Cell(0x18, 1, 0xfd, 0) else Cell(0x1f, 1, 0xfd, 0)) else (if n < 15 then Cell(0x29, 1, 0xfd, 0) else Cell(0x38, 1, 0xfd, 1))
          )
        )
      ) else (
        // 223
        if n < 8 then (
          if n < 4 then (
            if n < 2 then (if n < 1 then Cell(0x00, 1, 0xfe, 1) else Cell(0xe3, 0, 0x00, 0)) else (if n < 3 then Cell(0xe5, 0, 0x00, 0) else Cell(0xe6, 0, 0x00, 0))
          ) else (
            if n < 6 then (if n < 5 then Cell(0xe9, 0, 0x00, 0) else Cell(0xea, 0, 0x00, 0)) else (if n < 7 then Cell(0xec, 0, 0x00, 0) else Cell(0xed, 0, 0x00, 0))
          )
        ) else (
          if n < 12 then (
            if n < 10 then (if n < 9 then Cell(0xf1, 0, 0x00, 0) else Cell(0xf2, 0, 0x00, 0)) else (if n < 11 then Cell(0xf4, 0, 0x00, 0) else Cell(0xf5, 0, 0x00, 0))
          ) else (
            if n < 14 then (if n < 13 then Cell(0xf8, 0, 0x00, 0) else Cell(0xf9, 0, 0x00, 0)) else (if n < 15 then Cell(0xfb, 0, 0x00, 0) else Cell(0xfc, 0, 0x00, 1))
          )
        )
      )
    )
  }

  function Rows224(s: nat, n: nat): Cell
  {
    if s < 226 then (
      if s < 225 then (
        // 224
        if n < 8 then (
          if n < 4 then (
            if n < 2 then (if n < 1 then Cell(0x01, 1, 0xfe, 0) else Cell(0x16, 1, 0xfe, 1)) else (if n < 3 then Cell(0x00, 1, 0x02, 1) else Cell(0x00, 1, 0x03, 1))
          ) else (
            if n < 6 then (if n < 5 then Cell(0x00, 1, 0x04, 1) else Cell(0x00, 1, 0x05, 1)) else (if n < 7 then Cell(0x00, 1, 0x06, 1) else Cell(0x00, 1, 0x07, 1))
          )
        ) else (
          if n < 12 then (
            if n < 10 then (if n < 9 then Cell(0x00, 1, 0x08, 1) else Cell(0x00, 1, 0x0b, 1)) else (if n < 11 then Cell(0x00, 1, 0x0c, 1) else Cell(0x00, 1, 0x0e, 1))
          ) else (
            if n < 14 then (if n < 13 then Cell(0x00, 1, 0x0f, 1) else Cell(0x00, 1, 0x10, 1)) else (if n < 15 then Cell(0x00, 1, 0x11, 1) else Cell(0x00, 1, 0x12, 1))
          )
        )
      ) else (
        // 225
        if n < 8 then (
          if n < 4 then (
            if n < 2 then (if n < 1 then Cell(0x02, 1, 0xfe, 0) else Cell(0x09, 1, 0xfe, 0)) else (if n < 3 then Cell(0x17, 1, 0xfe, 0) else Cell(0x28, 1, 0xfe, 1))
          ) else (
            if n < 6 then (if n < 5 then Cell(0x01, 1, 0x02, 0) else Cell(0x16, 1, 0x02, 1)) else (if n < 7 then Cell(0x01, 1, 0x03, 0) else Cell(0x16, 1, 0x03, 1))
          )
        ) else (
          if n < 12 then (
            if n < 10 then (if n < 9 then Cell(0x01, 1, 0x04, 0) else Cell(0x16, 1, 0x04, 1)) else (if n < 11 then Cell(0x01, 1, 0x05, 0) else Cell(0x16, 1, 0x05, 1))
          ) else (
            if n < 14 then (if n < 13 then Cell(0x01, 1, 0x06, 0) else Cell(0x16, 1, 0x06, 1)) else (if n < 15 then Cell(0x01, 1, 0x07, 0) else Cell(0x16, 1, 0x07, 1))
          )
        )
      )
    ) else (
      if s < 227 then (
        // 226
        if n < 8 then (
          if n < 4 then (
            if n < 2 then (if n < 1 then Cell(0x03, 1, 0xfe, 0) else Cell(0x06, 1, 0xfe, 0)) else (if n < 3 then Cell(0x0a, 1, 0xfe, 0) else Cell(0x0f, 1, 0xfe, 0))
          ) else (
            if n < 6 then (if n < 5 then Cell(0x18, 1, 0xfe, 0) else Cell(0x1f, 1, 0xfe, 0)) else (if n < 7 then Cell(0x29, 1, 0xfe, 0) else Cell(0x38, 1, 0xfe, 1))
          )
        ) else (
          if n < 12 then (
            if n < 10 then (if n < 9 then Cell(0x02, 1, 0x02, 0) else Cell(0x09, 1, 0x02, 0)) else (if n < 11 then Cell(0x17, 1, 0x02, 0) else Cell(0x28, 1, 0x02, 1))
          ) else (
            if n < 14 then (if n < 13 then Cell(0x02, 1, 0x03, 0) else Cell(0x09, 1, 0x03, 0)) else (if n < 15 then Cell(0x17, 1, 0x03, 0) else Cell(0x28, 1, 0x03, 1))
          )
        )
      ) else (
        // 227
        if n < 8 then (
          if n < 4 then (
            if n < 2 then (if n < 1 then Cell(0x03, 1, 0x02, 0) else Cell(0x06, 1, 0x02, 0)) else (if n < 3 then Cell(0x0a, 1, 0x02, 0) else Cell(0x0f, 1, 0x02, 0))
          ) else (
            if n < 6 then (if n < 5 then Cell(0x18, 1, 0x02, 0) else Cell(0x1f, 1, 0x02, 0)) else (if n < 7 then Cell(0x29, 1, 0x02, 0) else Cell(0x38, 1, 0x02, 1))
          )
        ) else (
          if n < 12 then (
            if n < 10 then (if n < 9 then Cell(0x03, 1, 0x03, 0) else Cell(0x06, 1, 0x03, 0)) else (if n < 11 then Cell(0x0a, 1, 0x03, 0) else Cell(0x0f, 1, 0x03, 0))
          ) else (
            if n < 14 then (if n < 13 then Cell(0x18, 1, 0x03, 0) else Cell(0x1f, 1, 0x03, 0)) else (if n < 15 then Cell(0x29, 1, 0x03, 0) else Cell(0x38, 1, 0x03, 1))
          )
        )
      )
    )
  }

  function Rows228(s: nat, n: nat): Cell
  {
    if s < 230 then (
      if s < 229 then (
        // 228
        if n < 8 then (
          if n < 4 then (
            if n < 2 then (if n < 1 then Cell(0x02, 1, 0x04, 0) else Cell(0x09, 1, 0x04, 0)) else (if n < 3 then Cell(0x17, 1, 0x04, 0) else Cell(0x28, 1, 0x04, 1))
          ) else (
            if n < 6 then (if n < 5 then Cell(0x02, 1, 0x05, 0) else Cell(0x09, 1, 0x05, 0)) else (if n < 7 then Cell(0x17, 1, 0x05, 0) else Cell(0x28, 1, 0x05, 1))
          )
        ) else (
          if n < 12 then (
            if n < 10 then (if n < 9 then Cell(0x02, 1, 0x06, 0) else Cell(0x09, 1, 0x06, 0)) else (if n < 11 then Cell(0x17, 1, 0x06, 0) else Cell(0x28, 1, 0x06, 1))
          ) else (
            if n < 14 then (if n < 13 then Cell(0x02, 1, 0x07, 0) else Cell(0x09, 1, 0x07, 0)) else (if n < 15 then Cell(0x17, 1, 0x07, 0) else Cell(0x28, 1, 0x07, 1))
          )
        )
      ) else (
        // 229
        if n < 8 then (
          if n < 4 then (
            if n < 2 then (if n < 1 then Cell(0x03, 1, 0x04, 0) else Cell(0x06, 1, 0x04, 0)) else (if n < 3 then Cell(0x0a, 1, 0x04, 0) else Cell(0x0f, 1, 0x04, 0))
          ) else (
            if n < 6 then (if n < 5 then Cell(0x18, 1, 0x04, 0) else Cell(0x1f, 1, 0x04, 0)) else (if n < 7 then Cell(0x29, 1, 0x04, 0) else Cell(0x38, 1, 0x04, 1))
          )
        ) else (
          if n < 12 then (
            if n < 10 then (if n < 9 then Cell(0x03, 1, 0x05, 0) else Cell(0x06, 1, 0x05, 0)) else (if n < 11 then Cell(0x0a, 1, 0x05, 0) else Cell(0x0f, 1, 0x05, 0))
          ) else (
            if n < 14 then (if n < 13 then Cell(0x18, 1, 0x05, 0) else Cell(0x1f, 1, 0x05, 0)) else (if n < 15 then Cell(0x29, 1, 0x05, 0) else Cell(0x38, 1, 0x05, 1))
          )
        )
      )
    ) else (
      if s < 231 then (
        // 230
        if n < 8 then (
          if n < 4 then (
            if n < 2 then (if n < 1 then Cell(0x03, 1, 0x06, 0) else Cell(0x06, 1, 0x06, 0)) else (if n < 3 then Cell(0x0a, 1, 0x06, 0) else Cell(0x0f, 1, 0x06, 0))
          ) else (
            if n < 6 then (if n < 5 then Cell(0x18, 1, 0x06, 0) else Cell(0x1f, 1, 0x06, 0)) else (if n < 7 then Cell(0x29, 1, 0x06, 0) else Cell(0x38, 1, 0x06, 1))
          )
        ) else (
          if n < 12 then (
            if n < 10 then (if n < 9 then Cell(0x03, 1, 0x07, 0) else Cell(0x06, 1, 0x07, 0)) else (if n < 11 then Cell(0x0a, 1, 0x07, 0) else Cell(0x0f, 1, 0x07, 0))
          ) else (
            if n < 14 then (if n < 13 then Cell(0x18, 1, 0x07, 0) else Cell(0x1f, 1, 0x07, 0)) else (if n < 15 then Cell(0x29, 1, 0x07, 0) else Cell(0x38, 1, 0x07, 1))
          )
        )
      ) else (
        // 231
        if n < 8 then (
          if n < 4 then (
            if n < 2 then (if n < 1 then Cell(0x01, 1, 0x08, 0) else Cell(0x16, 1, 0x08, 1)) else (if n < 3 then Cell(0x01, 1, 0x0b, 0) else Cell(0x16, 1, 0x0b, 1))
          ) else (
            if n < 6 then (if n < 5 then Cell(0x01, 1, 0x0c, 0) else Cell(0x16, 1, 0x0c, 1)) else (if n < 7 then Cell(0x01, 1, 0x0e, 0) else Cell(0x16, 1, 0x0e, 1))
          )
        ) else (
          if n < 12 then (
            if n < 10 then (if n < 9 then Cell(0x01, 1, 0x0f, 0) else Cell(0x16, 1, 0x0f, 1)) else (if n < 11 then Cell(0x01, 1, 0x10, 0) else Cell(0x16, 1, 0x10, 1))
          ) else (
            if n < 14 then (if n < 13 then Cell(0x01, 1, 0x11, 0) else Cell(0x16, 1, 0x11, 1)) else (if n < 15 then Cell(0x01, 1, 0x12, 0) else Cell(0x16, 1, 0x12, 1))
          )
        )
      )
    )
  }

  function Rows232(s: nat, n: nat): Cell
  {
    if s < 234 then (
      if s < 233 then (
        // 232
        if n < 8 then (
          if n < 4 then (
            if n < 2 then (if n < 1 then Cell(0x02, 1, 0x08, 0) else Cell(0x09, 1, 0x08, 0)) else (if n < 3 then Cell(0x17, 1, 0x08, 0) else Cell(0x28, 1, 0x08, 1))
          ) else (
            if n < 6 then (if n < 5 then Cell(0x02, 1, 0x0b, 0) else Cell(0x09, 1, 0x0b, 0)) else (if n < 7 then Cell(0x17, 1, 0x0b, 0) else Cell(0x28, 1, 0x0b, 1))
          )
        ) else (
          if n < 12 then (
            if n < 10 then (if n < 9 then Cell(0x02, 1, 0x0c, 0) else Cell(0x09, 1, 0x0c, 0)) else (if n < 11 then Cell(0x17, 1, 0x0c, 0) else Cell(0x28, 1, 0x0c, 1))
          ) else (
            if n < 14 then (if n < 13 then Cell(0x02, 1, 0x0e, 0) else Cell(0x09, 1, 0x0e, 0)) else (if n < 15 then Cell(0x17, 1, 0x0e, 0) else Cell(0x28, 1, 0x0e, 1))
          )
        )
      ) else (
        // 233
        if n < 8 then (
          if n < 4 then (
            if n < 2 then (if n < 1 then Cell(0x03, 1, 0x08, 0) else Cell(0x06, 1, 0x08, 0)) else (if n < 3 then Cell(0x0a, 1, 0x08, 0) else Cell(0x0f, 1, 0x08, 0))
          ) else (
            if n < 6 then (if n < 5 then Cell(0x18, 1, 0x08, 0) else Cell(0x1f, 1, 0x08, 0)) else (if n < 7 then Cell(0x29, 1, 0x08, 0) else Cell(0x38, 1, 0x08, 1))
          )
        ) else (
          if n < 12 then (
            if n < 10 then (if n < 9 then Cell(0x03, 1, 0x0b, 0) else Cell(0x06, 1, 0x0b, 0)) else (if n < 11 then Cell(0x0a, 1, 0x0b, 0) else Cell(0x0f, 1, 0x0b, 0))
          ) else (
            if n < 14 then (if n < 13 then Cell(0x18, 1, 0x0b, 0) else Cell(0x1f, 1, 0x0b, 0)) else (if n < 15 then Cell(0x29, 1, 0x0b, 0) else Cell(0x38, 1, 0x0b, 1))
          )
        )
      )
    ) else (
      if s < 235 then (
        // 234
        if n < 8 then (
          if n < 4 then (
            if n < 2 then (if n < 1 then Cell(0x03, 1, 0x0c, 0) else Cell(0x06, 1, 0x0c, 0)) else (if n < 3 then Cell(0x0a, 1, 0x0c, 0) else Cell(0x0f, 1, 0x0c, 0))
          ) else (
            if n < 6 then (if n < 5 then Cell(0x18, 1, 0x0c, 0) else Cell(0x1f, 1, 0x0c, 0)) else (if n < 7 then Cell(0x29, 1, 0x0c, 0) else Cell(0x38, 1, 0x0c, 1))
          )
        ) else (
          if n < 12 then (
            if n < 10 then (if n < 9 then Cell(0x03, 1, 0x0e, 0) else Cell(0x06, 1, 0x0e, 0)) else (if n < 11 then Cell(0x0a, 1, 0x0e, 0) else Cell(0x0f, 1, 0x0e, 0))
          ) else (
            if n < 14 then (if n < 13 then Cell(0x18, 1, 0x0e, 0) else Cell(0x1f, 1, 0x0e, 0)) else (if n < 15 then Cell(0x29, 1, 0x0e, 0) else Cell(0x38, 1, 0x0e, 1))
          )
        )
      ) else (
        // 235
        if n < 8 then (
          if n < 4 then (
            if n < 2 then (if n < 1 then Cell(0x02, 1, 0x0f, 0) else Cell(0x09, 1, 0x0f, 0)) else (if n < 3 then Cell(0x17, 1, 0x0f, 0) else Cell(0x28, 1, 0x0f, 1))
          ) else (
            if n < 6 then (if n < 5 then Cell(0x02, 1, 0x10, 0) else Cell(0x09, 1, 0x10, 0)) else (if n < 7 then Cell(0x17, 1, 0x10, 0) else Cell(0x28, 1, 0x10, 1))
          )
        ) else (
          if n < 12 then (
            if n < 10 then (if n < 9 then Cell(0x02, 1, 0x11, 0) else Cell(0x09, 1, 0x11, 0)) else (if n < 11 then Cell(0x17, 1, 0x11, 0) else Cell(0x28, 1, 0x11, 1))
          ) else (
            if n < 14 then (if n < 13 then Cell(0x02, 1, 0x12, 0) else Cell(0x09, 1, 0x12, 0)) else (if n < 15 then Cell(0x17, 1, 0x12, 0) else Cell(0x28, 1, 0x12, 1))
          )
        )
      )
    )
  }

  function Rows236(s: nat, n: nat): Cell
  {
    if s < 238 then (
      if s < 237 then (
        // 236
        if n < 8 then (
          if n < 4 then (
            if n < 2 then (if n < 1 then Cell(0x03, 1, 0x0f, 0) else Cell(0x06, 1, 0x0f, 0)) else (if n < 3 then Cell(0x0a, 1, 0x0f, 0) else Cell(0x0f, 1, 0x0f, 0))
          ) else (
            if n < 6 then (if n < 5 then Cell(0x18, 1, 0x0f, 0) else Cell(0x1f, 1, 0x0f, 0)) else (if n < 7 then Cell(0x29, 1, 0x0f, 0) else Cell(0x38, 1, 0x0f, 1))
          )
        ) else (
          if n < 12 then (
            if n < 10 then (if n < 9 then Cell(0x03, 1, 0x10, 0) else Cell(0x06, 1, 0x10, 0)) else (if n < 11 then Cell(0x0a, 1, 0x10, 0) else Cell(0x0f, 1, 0x10, 0))
          ) else (
            if n < 14 then (if n < 13 then Cell(0x18, 1, 0x10, 0) else Cell(0x1f, 1, 0x10, 0)) else (if n < 15 then Cell(0x29, 1, 0x10, 0) else Cell(0x38, 1, 0x10, 1))
          )
        )
      ) else (
        // 237
        if n < 8 then (
          if n < 4 then (
            if n < 2 then (if n < 1 then Cell(0x03, 1, 0x11, 0) else Cell(0x06, 1, 0x11, 0)) else (if n < 3 then Cell(0x0a, 1, 0x11, 0) else Cell(0x0f, 1, 0x11, 0))
          ) else (
            if n < 6 then (if n < 5 then Cell(0x18, 1, 0x11, 0) else Cell(0x1f, 1, 0x11, 0)) else (if n < 7 then Cell(0x29, 1, 0x11, 0) else Cell(0x38, 1, 0x11, 1))
          )
        ) else (
          if n < 12 then (
            if n < 10 then (if n < 9 then Cell(0x03, 1, 0x12, 0) else Cell(0x06, 1, 0x12, 0)) else (if n < 11 then Cell(0x0a, 1, 0x12, 0) else Cell(0x0f, 1, 0x12, 0))
          ) else (
            if n < 14 then (if n < 13 then Cell(0x18, 1, 0x12, 0) else Cell(0x1f, 1, 0x12, 0)) else (if n < 15 then Cell(0x29, 1, 0x12, 0) else Cell(0x38, 1, 0x12, 1))
          )
        )
      )
    ) else (
      if s < 239 then (
        // 238
        if n < 8 then (
          if n < 4 then (
            if n < 2 then (if n < 1 then Cell(0x00, 1, 0x13, 1) else Cell(0x00, 1, 0x14, 1)) else (if n < 3 then Cell(0x00, 1, 0x15, 1) else Cell(0x00, 1, 0x17, 1))
          ) else (
            if n < 6 then (if n < 5 then Cell(0x00, 1, 0x18, 1) else Cell(0x00, 1, 0x19, 1)) else (if n < 7 then Cell(0x00, 1, 0x1a, 1) else Cell(0x00, 1, 0x1b, 1))
          )
        ) else (
          if n < 12 then (
            if n < 10 then (if n < 9 then Cell(0x00, 1, 0x1c, 1) else Cell(0x00, 1, 0x1d, 1)) else (if n < 11 then Cell(0x00, 1, 0x1e, 1) else Cell(0x00, 1, 0x1f, 1))
          ) else (
            if n < 14 then (if n < 13 then Cell(0x00, 1, 0x7f, 1) else Cell(0x00, 1, 0xdc, 1)) else (if n < 15 then Cell(0x00, 1, 0xf9, 1) else Cell(0xfd, 0, 0x00, 1))
          )
        )
      ) else (
        // 239
        if n < 8 then (
          if n < 4 then (
            if n < 2 then (if n < 1 then Cell(0x01, 1, 0x13, 0) else Cell(0x16, 1, 0x13, 1)) else (if n < 3 then Cell(0x01, 1, 0x14, 0) else Cell(0x16, 1, 0x14, 1))
          ) else (
            if n < 6 then (if n < 5 then Cell(0x01, 1, 0x15, 0) else Cell(0x16, 1, 0x15, 1)) else (if n < 7 then Cell(0x01, 1, 0x17, 0) else Cell(0x16, 1, 0x17, 1))
          )
        ) else (
          if n < 12 then (
            if n < 10 then (if n < 9 then Cell(0x01, 1, 0x18, 0) else Cell(0x16, 1, 0x18, 1)) else (if n < 11 then Cell(0x01, 1, 0x19, 0) else Cell(0x16, 1, 0x19, 1))
          ) else (
            if n < 14 then (if n < 13 then Cell(0x01, 1, 0x1a, 0) else Cell(0x16, 1, 0x1a, 1)) else (if n < 15 then Cell(0x01, 1, 0x1b, 0) else Cell(0x16, 1, 0x1b, 1))
          )
        )
      )
    )
  }

  function Rows240(s: nat, n: nat): Cell
  {
    if s < 242 then (
      if s < 241 then (
        // 240
        if n < 8 then (
          if n < 4 then (
            if n < 2 then (if n < 1 then Cell(0x02, 1, 0x13, 0) else Cell(0x09, 1, 0x13, 0)) else (if n < 3 then Cell(0x17, 1, 0x13, 0) else Cell(0x28, 1, 0x13, 1))
          ) else (
            if n < 6 then (if n < 5 then Cell(0x02, 1, 0x14, 0) else Cell(0x09, 1, 0x14, 0)) else (if n < 7 then Cell(0x17, 1, 0x14, 0) else Cell(0x28, 1, 0x14, 1))
          )
        ) else (
          if n < 12 then (
            if n < 10 then (if n < 9 then Cell(0x02, 1, 0x15, 0) else Cell(0x09, 1, 0x15, 0)) else (if n < 11 then Cell(0x17, 1, 0x15, 0) else Cell(0x28, 1, 0x15, 1))
          ) else (
            if n < 14 then (if n < 13 then Cell(0x02, 1, 0x17, 0) else Cell(0x09, 1, 0x17, 0)) else (if n < 15 then Cell(0x17, 1, 0x17, 0) else Cell(0x28, 1, 0x17, 1))
          )
        )
      ) else (
        // 241
        if n < 8 then (
          if n < 4 then (
            if n < 2 then (if n < 1 then Cell(0x03, 1, 0x13, 0) else Cell(0x06, 1, 0x13, 0)) else (if n < 3 then Cell(0x0a, 1, 0x13, 0) else Cell(0x0f, 1, 0x13, 0))
          ) else (
            if n < 6 then (if n < 5 then Cell(0x18, 1, 0x13, 0) else Cell(0x1f, 1, 0x13, 0)) else (if n < 7 then Cell(0x29, 1, 0x13, 0) else Cell(0x38, 1, 0x13, 1))
          )
        ) else (
          if n < 12 then (
            if n < 10 then (if n < 9 then Cell(0x03, 1, 0x14, 0) else Cell(0x06, 1, 0x14, 0)) else (if n < 11 then Cell(0x0a, 1, 0x14, 0) else Cell(0x0f, 1, 0x14, 0))
          ) else (
            if n < 14 then (if n < 13 then Cell(0x18, 1, 0x14, 0) else Cell(0x1f, 1, 0x14, 0)) else (if n < 15 then Cell(0x29, 1, 0x14, 0) else Cell(0x38, 1, 0x14, 1))
          )
        )
      )
    ) else (
      if s < 243 then (
        // 242
        if n < 8 then (
          if n < 4 then (
            if n < 2 then (if n < 1 then Cell(0x03, 1, 0x15, 0) else Cell(0x06, 1, 0x15, 0)) else (if n < 3 then Cell(0x0a, 1, 0x15, 0) else Cell(0x0f, 1, 0x15, 0))
          ) else (
            if n < 6 then (if n < 5 then Cell(0x18, 1, 0x15, 0) else Cell(0x1f, 1, 0x15, 0)) else (if n < 7 then Cell(0x29, 1, 0x15, 0) else Cell(0x38, 1, 0x15, 1))
          )
        ) else (
          if n < 12 then (
            if n < 10 then (if n < 9 then Cell(0x03, 1, 0x17, 0) else Cell(0x06, 1, 0x17, 0)) else (if n < 11 then Cell(0x0a, 1, 0x17, 0) else Cell(0x0f, 1, 0x17, 0))
          ) else (
            if n < 14 then (if n < 13 then Cell(0x18, 1, 0x17, 0) else Cell(0x1f, 1, 0x17, 0)) else (if n < 15 then Cell(0x29, 1, 0x17, 0) else Cell(0x38, 1, 0x17, 1))
          )
        )
      ) else (
        // 243
        if n < 8 then (
          if n < 4 then (
            if n < 2 then (if n < 1 then Cell(0x02, 1, 0x18, 0) else Cell(0x09, 1, 0x18, 0)) else (if n < 3 then Cell(0x17, 1, 0x18, 0) else Cell(0x28, 1, 0x18, 1))
          ) else (
            if n < 6 then (if n < 5 then Cell(0x02, 1, 0x19, 0) else Cell(0x09, 1, 0x19, 0)) else (if n < 7 then Cell(0x17, 1, 0x19, 0) else Cell(0x28, 1, 0x19, 1))
          )
        ) else (
          if n < 12 then (
            if n < 10 then (if n < 9 then Cell(0x02, 1, 0x1a, 0) else Cell(0x09, 1, 0x1a, 0)) else (if n < 11 then Cell(0x17, 1, 0x1a, 0) else Cell(0x28, 1, 0x1a, 1))
          ) else (
            if n < 14 then (if n < 13 then Cell(0x02, 1, 0x1b, 0) else Cell(0x09, 1, 0x1b, 0)) else (if n < 15 then Cell(0x17, 1, 0x1b, 0) else Cell(0x28, 1, 0x1b, 1))
          )
        )
      )
    )
  }

  function Rows244(s: nat, n: nat): Cell
  {
    if s < 246 then (
      if s < 245 then (
        // 244
        if n < 8 then (
          if n < 4 then (
            if n < 2 then (if n < 1 then Cell(0x03, 1, 0x18, 0) else Cell(0x06, 1, 0x18, 0)) else (if n < 3 then Cell(0x0a, 1, 0x18, 0) else Cell(0x0f, 1, 0x18, 0))
          ) else (
            if n < 6 then (if n < 5 then Cell(0x18, 1, 0x18, 0) else Cell(0x1f, 1, 0x18, 0)) else (if n < 7 then Cell(0x29, 1, 0x18, 0) else Cell(0x38, 1, 0x18, 1))
          )
        ) else (
          if n < 12 then (
            if n < 10 then (if n < 9 then Cell(0x03, 1, 0x19, 0) else Cell(0x06, 1, 0x19, 0)) else (if n < 11 then Cell(0x0a, 1, 0x19, 0) else Cell(0x0f, 1, 0x19, 0))
          ) else (
            if n < 14 then (if n < 13 then Cell(0x18, 1, 0x19, 0) else Cell(0x1f, 1, 0x19, 0)) else (if n < 15 then Cell(0x29, 1, 0x19, 0) else Cell(0x38, 1, 0x19, 1))
          )
        )
      ) else (
        // 245
        if n < 8 then (
          if n < 4 then (
            if n < 2 then (if n < 1 then Cell(0x03, 1, 0x1a, 0) else Cell(0x06, 1, 0x1a, 0)) else (if n < 3 then Cell(0x0a, 1, 0x1a, 0) else Cell(0x0f, 1, 0x1a, 0))
          ) else (
            if n < 6 then (if n < 5 then Cell(0x18, 1, 0x1a, 0) else Cell(0x1f, 1, 0x1a, 0)) else (if n < 7 then Cell(0x29, 1, 0x1a, 0) else Cell(0x38, 1, 0x1a, 1))
          )
        ) else (
          if n < 12 then (
            if n < 10 then (if n < 9 then Cell(0x03, 1, 0x1b, 0) else Cell(0x06, 1, 0x1b, 0)) else (if n < 11 then Cell(0x0a, 1, 0x1b, 0) else Cell(0x0f, 1, 0x1b, 0))
          ) else (
            if n < 14 then (if n < 13 then Cell(0x18, 1, 0x1b, 0) else Cell(0x1f, 1, 0x1b, 0)) else (if n < 15 then Cell(0x29, 1, 0x1b, 0) else Cell(0x38, 1, 0x1b, 1))
          )
        )
      )
    ) else (
      if s < 247 then (
        // 246
        if n < 8 then (
          if n < 4 then (
            if n < 2 then (if n < 1 then Cell(0x01, 1, 0x1c, 0) else Cell(0x16, 1, 0x1c, 1)) else (if n < 3 then Cell(0x01, 1, 0x1d, 0) else Cell(0x16, 1, 0x1d, 1))
          ) else (
            if n < 6 then (if n < 5 then Cell(0x01, 1, 0x1e, 0) else Cell(0x16, 1, 0x1e, 1)) else (if n < 7 then Cell(0x01, 1, 0x1f, 0) else Cell(0x16, 1, 0x1f, 1))
          )
        ) else (
          if n < 12 then (
            if n < 10 then (if n < 9 then Cell(0x01, 1, 0x7f, 0) else Cell(0x16, 1, 0x7f, 1)) else (if n < 11 then Cell(0x01, 1, 0xdc, 0) else Cell(0x16, 1, 0xdc, 1))
          ) else (
            if n < 14 then (if n < 13 then Cell(0x01, 1, 0xf9, 0) else Cell(0x16, 1, 0xf9, 1)) else (if n < 15 then Cell(0xfe, 0, 0x00, 0) else Cell(0xff, 0, 0x00, 1))
          )
        )
      ) else (
        // 247
        if n < 8 then (
          if n < 4 then (
            if n < 2 then (if n < 1 then Cell(0x02, 1, 0x1c, 0) else Cell(0x09, 1, 0x1c, 0)) else (if n < 3 then Cell(0x17, 1, 0x1c, 0) else Cell(0x28, 1, 0x1c, 1))
          ) else (
            if n < 6 then (if n < 5 then Cell(0x02, 1, 0x1d, 0) else Cell(0x09, 1, 0x1d, 0)) else (if n < 7 then Cell(0x17, 1, 0x1d, 0) else Cell(0x28, 1, 0x1d, 1))
          )
        ) else (
          if n < 12 then (
            if n < 10 then (if n < 9 then Cell(0x02, 1, 0x1e, 0) else Cell(0x09, 1, 0x1e, 0)) else (if n < 11 then Cell(0x17, 1, 0x1e, 0) else Cell(0x28, 1, 0x1e, 1))
          ) else (
            if n < 14 then (if n < 13 then Cell(0x02, 1, 0x1f, 0) else Cell(0x09, 1, 0x1f, 0)) else (if n < 15 then Cell(0x17, 1, 0x1f, 0) else Cell(0x28, 1, 0x1f, 1))
          )
        )
      )
    )
  }

  function Rows248(s: nat, n: nat): Cell
  {
    if s < 250 then (
      if s < 249 then (
        // 248
        if n < 8 then (
          if n < 4 then (
            if n < 2 then (if n < 1 then Cell(0x03, 1, 0x1c, 0) else Cell(0x06, 1, 0x1c, 0)) else (if n < 3 then Cell(0x0a, 1, 0x1c, 0) else Cell(0x0f, 1, 0x1c, 0))
          ) else (
            if n < 6 then (if n < 5 then Cell(0x18, 1, 0x1c, 0) else Cell(0x1f, 1, 0x1c, 0)) else (if n < 7 then Cell(0x29, 1, 0x1c, 0) else Cell(0x38, 1, 0x1c, 1))
          )
        ) else (
          if n < 12 then (
            if n < 10 then (if n < 9 then Cell(0x03, 1, 0x1d, 0) else Cell(0x06, 1, 0x1d, 0)) else (if n < 11 then Cell(0x0a, 1, 0x1d, 0) else Cell(0x0f, 1, 0x1d, 0))
          ) else (
            if n < 14 then (if n < 13 then Cell(0x18, 1, 0x1d, 0) else Cell(0x1f, 1, 0x1d, 0)) else (if n < 15 then Cell(0x29, 1, 0x1d, 0) else Cell(0x38, 1, 0x1d, 1))
          )
        )
      ) else (
        // 249
        if n < 8 then (
          if n < 4 then (
            if n < 2 then (if n < 1 then Cell(0x03, 1, 0x1e, 0) else Cell(0x06, 1, 0x1e, 0)) else (if n < 3 then Cell(0x0a, 1, 0x1e, 0) else Cell(0x0f, 1, 0x1e, 0))
          ) else (
            if n < 6 then (if n < 5 then Cell(0x18, 1, 0x1e, 0) else Cell(0x1f, 1, 0x1e, 0)) else (if n < 7 then Cell(0x29, 1, 0x1e, 0) else Cell(0x38, 1, 0x1e, 1))
          )
        ) else (
          if n < 12 then (
            if n < 10 then (if n < 9 then Cell(0x03, 1, 0x1f, 0) else Cell(0x06, 1, 0x1f, 0)) else (if n < 11 then Cell(0x0a, 1, 0x1f, 0) else Cell(0x0f, 1, 0x1f, 0))
          ) else (
            if n < 14 then (if n < 13 then Cell(0x18, 1, 0x1f, 0) else Cell(0x1f, 1, 0x1f, 0)) else (if n < 15 then Cell(0x29, 1, 0x1f, 0) else Cell(0x38, 1, 0x1f, 1))
          )
        )
      )
    ) else (
      if s < 251 then (
        // 250
        if n < 8 then (
          if n < 4 then (
            if n < 2 then (if n < 1 then Cell(0x02, 1, 0x7f, 0) else Cell(0x09, 1, 0x7f, 0)) else (if n < 3 then Cell(0x17, 1, 0x7f, 0) else Cell(0x28, 1, 0x7f, 1))
          ) else (
            if n < 6 then (if n < 5 then Cell(0x02, 1, 0xdc, 0) else Cell(0x09, 1, 0xdc, 0)) else (if n < 7 then Cell(0x17, 1, 0xdc, 0) else Cell(0x28, 1, 0xdc, 1))
          )
        ) else (
          if n < 12 then (
            if n < 10 then (if n < 9 then Cell(0x02, 1, 0xf9, 0) else Cell(0x09, 1, 0xf9, 0)) else (if n < 11 then Cell(0x17, 1, 0xf9, 0) else Cell(0x28, 1, 0xf9, 1))
          ) else (
            if n < 14 then (if n < 13 then Cell(0x00, 1, 0x0a, 1) else Cell(0x00, 1, 0x0d, 1)) else (if n < 15 then Cell(0x00, 1, 0x16, 1) else Cell(0xfa, 0, 0x00, 0))
          )
        )
      ) else (
        // 251
        if n < 8 then (
          if n < 4 then (
            if n < 2 then (if n < 1 then Cell(0x03, 1, 0x7f, 0) else Cell(0x06, 1, 0x7f, 0)) else (if n < 3 then Cell(0x0a, 1, 0x7f, 0) else Cell(0x0f, 1, 0x7f, 0))
          ) else (
            if n < 6 then (if n < 5 then Cell(0x18, 1, 0x7f, 0) else Cell(0x1f, 1, 0x7f, 0)) else (if n < 7 then Cell(0x29, 1, 0x7f, 0) else Cell(0x38, 1, 0x7f, 1))
          )
        ) else (
          if n < 12 then (
            if n < 10 then (if n < 9 then Cell(0x03, 1, 0xdc, 0) else Cell(0x06, 1, 0xdc, 0)) else (if n < 11 then Cell(0x0a, 1, 0xdc, 0) else Cell(0x0f, 1, 0xdc, 0))
          ) else (
            if n < 14 then (if n < 13 then Cell(0x18, 1, 0xdc, 0) else Cell(0x1f, 1, 0xdc, 0)) else (if n < 15 then Cell(0x29, 1, 0xdc, 0) else Cell(0x38, 1, 0xdc, 1))
          )
        )
      )
    )
  }

  function Rows252(s: nat, n: nat): Cell
  {
    if s < 254 then (
      if s < 253 then (
        // 252
        if n < 8 then (
          if n < 4 then (
            if n < 2 then (if n < 1 then Cell(0x03, 1, 0xf9, 0) else Cell(0x06, 1, 0xf9, 0)) else (if n < 3 then Cell(0x0a, 1, 0xf9, 0) else Cell(0x0f, 1, 0xf9, 0))
          ) else (
            if n < 6 then (if n < 5 then Cell(0x18, 1, 0xf9, 0) else Cell(0x1f, 1, 0xf9, 0)) else (if n < 7 then Cell(0x29, 1, 0xf9, 0) else Cell(0x38, 1, 0xf9, 1))
          )
        ) else (
          if n < 12 then (
            if n < 10 then (if n < 9 then Cell(0x01, 1, 0x0a, 0) else Cell(0x16, 1, 0x0a, 1)) else (if n < 11 then Cell(0x01, 1, 0x0d, 0) else Cell(0x16, 1, 0x0d, 1))
          ) else (
            if n < 14 then (if n < 13 then Cell(0x01, 1, 0x16, 0) else Cell(0x16, 1, 0x16, 1)) else (if n < 15 then Cell(0xfc, 0, 0x00, 0) else Cell(0xfc, 0, 0x00, 0))
          )
        )
      ) else (
        // 253
        if n < 8 then (
          if n < 4 then (
            if n < 2 then (if n < 1 then Cell(0x02, 1, 0x0a, 0) else Cell(0x09, 1, 0x0a, 0)) else (if n < 3 then Cell(0x17, 1, 0x0a, 0) else Cell(0x28, 1, 0x0a, 1))
          ) else (
            if n < 6 then (if n < 5 then Cell(0x02, 1, 0x0d, 0) else Cell(0x09, 1, 0x0d, 0)) else (if n < 7 then Cell(0x17, 1, 0x0d, 0) else Cell(0x28, 1, 0x0d, 1))
          )
        ) else (
          if n < 12 then (
            if n < 10 then (if n < 9 then Cell(0x02, 1, 0x16, 0) else Cell(0x09, 1, 0x16, 0)) else (if n < 11 then Cell(0x17, 1, 0x16, 0) else Cell(0x28, 1, 0x16, 1))
          ) else (
            if n < 14 then (if n < 13 then Cell(0xfd, 0, 0x00, 0) else Cell(0xfd, 0, 0x00, 0)) else (if n < 15 then Cell(0xfd, 0, 0x00, 0) else Cell(0xfd, 0, 0x00, 0))
          )
        )
      )
    ) else (
      if s < 255 then (
        // 254
        if n < 8 then (
          if n < 4 then (
            if n < 2 then (if n < 1 then Cell(0x03, 1, 0x0a, 0) else Cell(0x06, 1, 0x0a, 0)) else (if n < 3 then Cell(0x0a, 1, 0x0a, 0) else Cell(0x0f, 1, 0x0a, 0))
          ) else (
            if n < 6 then (if n < 5 then Cell(0x18, 1, 0x0a, 0) else Cell(0x1f, 1, 0x0a, 0)) else (if n < 7 then Cell(0x29, 1, 0x0a, 0) else Cell(0x38, 1, 0x0a, 1))
          )
        ) else (
          if n < 12 then (
            if n < 10 then (if n < 9 then Cell(0x03, 1, 0x0d, 0) else Cell(0x06, 1, 0x0d, 0)) else (if n < 11 then Cell(0x0a, 1, 0x0d, 0) else Cell(0x0f, 1, 0x0d, 0))
          ) else (
            if n < 14 then (if n < 13 then Cell(0x18, 1, 0x0d, 0) else Cell(0x1f, 1, 0x0d, 0)) else (if n < 15 then Cell(0x29, 1, 0x0d, 0) else Cell(0x38, 1, 0x0d, 1))
          )
        )
      ) else (
        // 255
        if n < 8 then (
          if n < 4 then (
            if n < 2 then (if n < 1 then Cell(0x03, 1, 0x16, 0) else Cell(0x06, 1, 0x16, 0)) else (if n < 3 then Cell(0x0a, 1, 0x16, 0) else Cell(0x0f, 1, 0x16, 0))
          ) else (
            if n < 6 then (if n < 5 then Cell(0x18, 1, 0x16, 0) else Cell(0x1f, 1, 0x16, 0)) else (if n < 7 then Cell(0x29, 1, 0x16, 0) else Cell(0x38, 1, 0x16, 1))
          )
        ) else (
          if n < 12 then (
            if n < 10 then (if n < 9 then Cell(0xff, 0, 0x00, 0) else Cell(0xff, 0, 0x00, 0)) else (if n < 11 then Cell(0xff, 0, 0x00, 0) else Cell(0xff, 0, 0x00, 0))
          ) else (
            if n < 14 then (if n < 13 then Cell(0xff, 0, 0x00, 0) else Cell(0xff, 0, 0x00, 0)) else (if n < 15 then Cell(0xff, 0, 0x00, 0) else Cell(0xff, 0, 0x00, 0))
          )
        )
      )
    )
  }

  /** Cell `n` of row `s`. */
  function CellOf(s: nat, n: nat): Cell
    requires s < 256 && n < 16
  {
    if s < 128 then (
      if s < 64 then (
        if s < 32 then (
          if s < 16 then (
            if s < 8 then (
              if s < 4 then (
                Rows0(s, n)
              ) else (
                Rows4(s, n)
              )
            ) else (
              if s < 12 then (
                Rows8(s, n)
              ) else (
                Rows12(s, n)
              )
            )
          ) else (
            if s < 24 then (
              if s < 20 then (
                Rows16(s, n)
              ) else (
                Rows20(s, n)
              )
            ) else (
              if s < 28 then (
                Rows24(s, n)
              ) else (
                Rows28(s, n)
              )
            )
          )
        ) else (
          if s < 48 then (
            if s < 40 then (
              if s < 36 then (
                Rows32(s, n)
              ) else (
                Rows36(s, n)
              )
            ) else (
              if s < 44 then (
                Rows40(s, n)
              ) else (
                Rows44(s, n)
              )
            )
          ) else (
            if s < 56 then (
              if s < 52 then (
                Rows48(s, n)
              ) else (
                Rows52(s, n)
              )
            ) else (
              if s < 60 then (
                Rows56(s, n)
              ) else (
                Rows60(s, n)
              )
            )
          )
        )
      ) else (
        if s < 96 then (
          if s < 80 then (
            if s < 72 then (
              if s < 68 then (
                Rows64(s, n)
              ) else (
                Rows68(s, n)
              )
            ) else (
              if s < 76 then (
                Rows72(s, n)
              ) else (
                Rows76(s, n)
              )
            )
          ) else (
            if s < 88 then (
              if s < 84 then (
                Rows80(s, n)
              ) else (
                Rows84(s, n)
              )
            ) else (
              if s < 92 then (
                Rows88(s, n)
              ) else (
                Rows92(s, n)
              )
            )
          )
        ) else (
          if s < 112 then (
            if s < 104 then (
              if s < 100 then (
                Rows96(s, n)
              ) else (
                Rows100(s, n)
              )
            ) else (
              if s < 108 then (
                Rows104(s, n)
              ) else (
                Rows108(s, n)
              )
            )
          ) else (
            if s < 120 then (
              if s < 116 then (
                Rows112(s, n)
              ) else (
                Rows116(s, n)
              )
            ) else (
              if s < 124 then (
                Rows120(s, n)
              ) else (
                Rows124(s, n)
              )
            )
          )
        )
      )
    ) else (
      if s < 192 then (
        if s < 160 then (
          if s < 144 then (
            if s < 136 then (
              if s < 132 then (
                Rows128(s, n)
              ) else (
                Rows132(s, n)
              )
            ) else (
              if s < 140 then (
                Rows136(s, n)
              ) else (
                Rows140(s, n)
              )
            )
          ) else (
            if s < 152 then (
              if s < 148 then (
                Rows144(s, n)
              ) else (
                Rows148(s, n)
              )
            ) else (
              if s < 156 then (
                Rows152(s, n)
              ) else (
                Rows156(s, n)
              )
            )
          )
        ) else (
          if s < 176 then (
            if s < 168 then (
              if s < 164 then (
                Rows160(s, n)
              ) else (
                Rows164(s, n)
              )
            ) else (
              if s < 172 then (
                Rows168(s, n)
              ) else (
                Rows172(s, n)
              )
            )
          ) else (
            if s < 184 then (
              if s < 180 then (
                Rows176(s, n)
              ) else (
                Rows180(s, n)
              )
            ) else (
              if s < 188 then (
                Rows184(s, n)
              ) else (
                Rows188(s, n)
              )
            )
          )
        )
      ) else (
        if s < 224 then (
          if s < 208 then (
            if s < 200 then (
              if s < 196 then (
                Rows192(s, n)
              ) else (
                Rows196(s, n)
              )
            ) else (
              if s < 204 then (
                Rows200(s, n)
              ) else (
                Rows204(s, n)
              )
            )
          ) else (
            if s < 216 then (
              if s < 212 then (
                Rows208(s, n)
              ) else (
                Rows212(s, n)
              )
            ) else (
              if s < 220 then (
                Rows216(s, n)
              ) else (
                Rows220(s, n)
              )
            )
          )
        ) else (
          if s < 240 then (
            if s < 232 then (
              if s < 228 then (
                Rows224(s, n)
              ) else (
                Rows228(s, n)
              )
            ) else (
              if s < 236 then (
                Rows232(s, n)
              ) else (
                Rows236(s, n)
              )
            )
          ) else (
            if s < 248 then (
              if s < 244 then (
                Rows240(s, n)
              ) else (
                Rows244(s, n)
              )
            ) else (
              if s < 252 then (
                Rows248(s, n)
              ) else (
                Rows252(s, n)
              )
            )
          )
        )
      )
    )
  }
}
