/**
  The compiled rule tables of the `dxil_nir_lower_8bit_conv` pass, which removes
  8-bit values from conversions: a conversion of an 8-bit narrowing is rewritten to
  mask or sign-extend the low byte in the wider source type instead.
*/
module Lower8BitConv {
  import opened Wrappers
  import opened NirSearch

  /**
    Slot `i` of the value array; indices past the end are never read.
    The slots are split into blocks of 16 so that each block is checked on its own.
  */
  function Value(i: int): Slot {
    if i < 16 then ValueBlock0(i)
    else if i < 32 then ValueBlock16(i)
    else if i < 48 then ValueBlock32(i)
    else if i < 64 then ValueBlock48(i)
    else if i < 80 then ValueBlock64(i)
    else if i < 96 then ValueBlock80(i)
    else if i < 112 then ValueBlock96(i)
    else if i < 128 then ValueBlock112(i)
    else if i < 144 then ValueBlock128(i)
    else if i < 160 then ValueBlock144(i)
    else if i < 176 then ValueBlock160(i)
    else if i < 192 then ValueBlock176(i)
    else if i < 208 then ValueBlock192(i)
    else if i < 224 then ValueBlock208(i)
    else if i < 240 then ValueBlock224(i)
    else ValueBlock240(i)
  }

  function ValueBlock0(i: int): Slot {
    match i
    case 0 => Variable(16, 0)
    case 1 => Expression(8, U2U(8), -1, 0, [0], -1)
    case 2 => Expression(16, U2U(16), -1, 0, [1], -1)
    case 3 => Constant(16, IntType, 0xff)
    case 4 => Expression(16, IAnd, 0, 1, [0, 3], -1)
    case 5 => Variable(32, 0)
    case 6 => Expression(8, U2U(8), -1, 0, [5], -1)
    case 7 => Expression(16, U2U(16), -1, 0, [6], -1)
    case 8 => Constant(32, IntType, 0xff)
    case 9 => Expression(32, IAnd, 0, 1, [5, 8], -1)
    case 10 => Expression(16, U2U(16), -1, 1, [9], -1)
    case 11 => Variable(64, 0)
    case 12 => Expression(8, U2U(8), -1, 0, [11], -1)
    case 13 => Expression(16, U2U(16), -1, 0, [12], -1)
    case 14 => Constant(64, IntType, 0xff)
    case 15 => Expression(64, IAnd, 0, 1, [11, 14], -1)
    case _ => Variable(-1, 0)
  }

  function ValueBlock16(i: int): Slot {
    match i
    case 16 => Expression(16, U2U(16), -1, 1, [15], -1)
    case 17 => Expression(8, I2I(8), -1, 0, [0], -1)
    case 18 => Expression(16, U2U(16), -1, 0, [17], -1)
    case 19 => Expression(16, U2U(16), -1, 1, [4], -1)
    case 20 => Expression(8, I2I(8), -1, 0, [5], -1)
    case 21 => Expression(16, U2U(16), -1, 0, [20], -1)
    case 22 => Expression(8, I2I(8), -1, 0, [11], -1)
    case 23 => Expression(16, U2U(16), -1, 0, [22], -1)
    case 24 => Variable(-1, 0)
    case 25 => Expression(8, F2U(8), -1, 0, [24], -1)
    case 26 => Expression(16, U2U(16), -1, 0, [25], -1)
    case 27 => Expression(16, F2U(16), -1, 0, [24], -1)
    case 28 => Expression(16, IAnd, 0, 1, [27, 3], -1)
    case 29 => Expression(8, F2I(8), -1, 0, [24], -1)
    case 30 => Expression(16, U2U(16), -1, 0, [29], -1)
    case 31 => Expression(16, F2I(16), -1, 0, [24], -1)
    case _ => Variable(-1, 0)
  }

  function ValueBlock32(i: int): Slot {
    match i
    case 32 => Expression(16, IAnd, 0, 1, [31, 3], -1)
    case 33 => Expression(32, U2U(32), -1, 0, [1], -1)
    case 34 => Expression(32, U2U(32), -1, 1, [4], -1)
    case 35 => Expression(32, U2U(32), -1, 0, [6], -1)
    case 36 => Expression(32, U2U(32), -1, 0, [12], -1)
    case 37 => Expression(32, U2U(32), -1, 1, [15], -1)
    case 38 => Expression(32, U2U(32), -1, 0, [17], -1)
    case 39 => Expression(32, U2U(32), -1, 0, [20], -1)
    case 40 => Expression(32, U2U(32), -1, 1, [9], -1)
    case 41 => Expression(32, U2U(32), -1, 0, [22], -1)
    case 42 => Expression(32, U2U(32), -1, 0, [25], -1)
    case 43 => Expression(32, F2U(32), -1, 0, [24], -1)
    case 44 => Expression(32, IAnd, 0, 1, [43, 8], -1)
    case 45 => Expression(32, U2U(32), -1, 0, [29], -1)
    case 46 => Expression(32, F2I(32), -1, 0, [24], -1)
    case 47 => Expression(32, IAnd, 0, 1, [46, 8], -1)
    case _ => Variable(-1, 0)
  }

  function ValueBlock48(i: int): Slot {
    match i
    case 48 => Expression(64, U2U(64), -1, 0, [1], -1)
    case 49 => Expression(64, U2U(64), -1, 1, [4], -1)
    case 50 => Expression(64, U2U(64), -1, 0, [6], -1)
    case 51 => Expression(64, U2U(64), -1, 1, [9], -1)
    case 52 => Expression(64, U2U(64), -1, 0, [12], -1)
    case 53 => Expression(64, U2U(64), -1, 0, [17], -1)
    case 54 => Expression(64, U2U(64), -1, 0, [20], -1)
    case 55 => Expression(64, U2U(64), -1, 0, [22], -1)
    case 56 => Expression(64, U2U(64), -1, 1, [15], -1)
    case 57 => Expression(64, U2U(64), -1, 0, [25], -1)
    case 58 => Expression(64, F2U(64), -1, 0, [24], -1)
    case 59 => Expression(64, IAnd, 0, 1, [58, 14], -1)
    case 60 => Expression(64, U2U(64), -1, 0, [29], -1)
    case 61 => Expression(64, F2I(64), -1, 0, [24], -1)
    case 62 => Expression(64, IAnd, 0, 1, [61, 14], -1)
    case 63 => Expression(16, I2I(16), -1, 0, [1], -1)
    case _ => Variable(-1, 0)
  }

  function ValueBlock64(i: int): Slot {
    match i
    case 64 => Constant(32, IntType, 0x8)
    case 65 => Expression(16, IShl, -1, 0, [0, 64], -1)
    case 66 => Expression(16, IShr, -1, 0, [65, 64], -1)
    case 67 => Expression(16, I2I(16), -1, 0, [66], -1)
    case 68 => Expression(16, I2I(16), -1, 0, [6], -1)
    case 69 => Constant(32, IntType, 0x18)
    case 70 => Expression(32, IShl, -1, 0, [5, 69], -1)
    case 71 => Expression(32, IShr, -1, 0, [70, 69], -1)
    case 72 => Expression(16, I2I(16), -1, 0, [71], -1)
    case 73 => Expression(16, I2I(16), -1, 0, [12], -1)
    case 74 => Constant(32, IntType, 0x38)
    case 75 => Expression(64, IShl, -1, 0, [11, 74], -1)
    case 76 => Expression(64, IShr, -1, 0, [75, 74], -1)
    case 77 => Expression(16, I2I(16), -1, 0, [76], -1)
    case 78 => Expression(16, I2I(16), -1, 0, [17], -1)
    case 79 => Expression(16, I2I(16), -1, 0, [20], -1)
    case _ => Variable(-1, 0)
  }

  function ValueBlock80(i: int): Slot {
    match i
    case 80 => Expression(16, I2I(16), -1, 0, [22], -1)
    case 81 => Expression(16, I2I(16), -1, 0, [25], -1)
    case 82 => Expression(16, IShl, -1, 0, [27, 64], -1)
    case 83 => Expression(16, IShr, -1, 0, [82, 64], -1)
    case 84 => Expression(16, I2I(16), -1, 0, [29], -1)
    case 85 => Expression(16, IShl, -1, 0, [31, 64], -1)
    case 86 => Expression(16, IShr, -1, 0, [85, 64], -1)
    case 87 => Expression(32, I2I(32), -1, 0, [1], -1)
    case 88 => Expression(32, I2I(32), -1, 0, [66], -1)
    case 89 => Expression(32, I2I(32), -1, 0, [6], -1)
    case 90 => Expression(32, I2I(32), -1, 0, [71], -1)
    case 91 => Expression(32, I2I(32), -1, 0, [12], -1)
    case 92 => Expression(32, I2I(32), -1, 0, [76], -1)
    case 93 => Expression(32, I2I(32), -1, 0, [17], -1)
    case 94 => Expression(32, I2I(32), -1, 0, [20], -1)
    case 95 => Expression(32, I2I(32), -1, 0, [22], -1)
    case _ => Variable(-1, 0)
  }

  function ValueBlock96(i: int): Slot {
    match i
    case 96 => Expression(32, I2I(32), -1, 0, [25], -1)
    case 97 => Expression(32, IShl, -1, 0, [43, 69], -1)
    case 98 => Expression(32, IShr, -1, 0, [97, 69], -1)
    case 99 => Expression(32, I2I(32), -1, 0, [29], -1)
    case 100 => Expression(32, IShl, -1, 0, [46, 69], -1)
    case 101 => Expression(32, IShr, -1, 0, [100, 69], -1)
    case 102 => Expression(64, I2I(64), -1, 0, [1], -1)
    case 103 => Expression(64, I2I(64), -1, 0, [66], -1)
    case 104 => Expression(64, I2I(64), -1, 0, [6], -1)
    case 105 => Expression(64, I2I(64), -1, 0, [71], -1)
    case 106 => Expression(64, I2I(64), -1, 0, [12], -1)
    case 107 => Expression(64, I2I(64), -1, 0, [76], -1)
    case 108 => Expression(64, I2I(64), -1, 0, [17], -1)
    case 109 => Expression(64, I2I(64), -1, 0, [20], -1)
    case 110 => Expression(64, I2I(64), -1, 0, [22], -1)
    case 111 => Expression(64, I2I(64), -1, 0, [25], -1)
    case _ => Variable(-1, 0)
  }

  function ValueBlock112(i: int): Slot {
    match i
    case 112 => Expression(64, IShl, -1, 0, [58, 74], -1)
    case 113 => Expression(64, IShr, -1, 0, [112, 74], -1)
    case 114 => Expression(64, I2I(64), -1, 0, [29], -1)
    case 115 => Expression(64, IShl, -1, 0, [61, 74], -1)
    case 116 => Expression(64, IShr, -1, 0, [115, 74], -1)
    case 117 => Expression(16, U2F(16), -1, 0, [1], -1)
    case 118 => Expression(16, U2F(16), -1, 1, [4], -1)
    case 119 => Expression(16, U2F(16), -1, 0, [6], -1)
    case 120 => Expression(16, U2F(16), -1, 1, [9], -1)
    case 121 => Expression(16, U2F(16), -1, 0, [12], -1)
    case 122 => Expression(16, U2F(16), -1, 1, [15], -1)
    case 123 => Expression(16, U2F(16), -1, 0, [17], -1)
    case 124 => Expression(16, U2F(16), -1, 0, [20], -1)
    case 125 => Expression(16, U2F(16), -1, 0, [22], -1)
    case 126 => Expression(8, F2U(8), -1, 0, [0], -1)
    case 127 => Expression(16, U2F(16), -1, 0, [126], -1)
    case _ => Variable(-1, 0)
  }

  function ValueBlock128(i: int): Slot {
    match i
    case 128 => Constant(16, FloatType, 0x0)
    case 129 => Expression(16, FMax, 1, 1, [0, 128], -1)
    case 130 => Constant(16, FloatType, 0x406fe00000000000)
    case 131 => Expression(16, FMin, 0, 2, [129, 130], -1)
    case 132 => Expression(8, F2U(8), -1, 0, [5], -1)
    case 133 => Expression(16, U2F(16), -1, 0, [132], -1)
    case 134 => Constant(32, FloatType, 0x0)
    case 135 => Expression(32, FMax, 1, 1, [5, 134], -1)
    case 136 => Constant(32, FloatType, 0x406fe00000000000)
    case 137 => Expression(32, FMin, 0, 2, [135, 136], -1)
    case 138 => Expression(16, F2F(16), -1, 2, [137], -1)
    case 139 => Expression(8, F2U(8), -1, 0, [11], -1)
    case 140 => Expression(16, U2F(16), -1, 0, [139], -1)
    case 141 => Constant(64, FloatType, 0x0)
    case 142 => Expression(64, FMax, 1, 1, [11, 141], -1)
    case 143 => Constant(64, FloatType, 0x406fe00000000000)
    case _ => Variable(-1, 0)
  }

  function ValueBlock144(i: int): Slot {
    match i
    case 144 => Expression(64, FMin, 0, 2, [142, 143], -1)
    case 145 => Expression(16, F2F(16), -1, 2, [144], -1)
    case 146 => Expression(8, F2I(8), -1, 0, [0], -1)
    case 147 => Expression(16, U2F(16), -1, 0, [146], -1)
    case 148 => Expression(8, F2I(8), -1, 0, [5], -1)
    case 149 => Expression(16, U2F(16), -1, 0, [148], -1)
    case 150 => Expression(8, F2I(8), -1, 0, [11], -1)
    case 151 => Expression(16, U2F(16), -1, 0, [150], -1)
    case 152 => Expression(32, U2F(32), -1, 0, [1], -1)
    case 153 => Expression(32, U2F(32), -1, 1, [4], -1)
    case 154 => Expression(32, U2F(32), -1, 0, [6], -1)
    case 155 => Expression(32, U2F(32), -1, 1, [9], -1)
    case 156 => Expression(32, U2F(32), -1, 0, [12], -1)
    case 157 => Expression(32, U2F(32), -1, 1, [15], -1)
    case 158 => Expression(32, U2F(32), -1, 0, [17], -1)
    case 159 => Expression(32, U2F(32), -1, 0, [20], -1)
    case _ => Variable(-1, 0)
  }

  function ValueBlock160(i: int): Slot {
    match i
    case 160 => Expression(32, U2F(32), -1, 0, [22], -1)
    case 161 => Expression(32, U2F(32), -1, 0, [126], -1)
    case 162 => Expression(32, F2F(32), -1, 2, [131], -1)
    case 163 => Expression(32, U2F(32), -1, 0, [132], -1)
    case 164 => Expression(32, U2F(32), -1, 0, [139], -1)
    case 165 => Expression(32, F2F(32), -1, 2, [144], -1)
    case 166 => Expression(32, U2F(32), -1, 0, [146], -1)
    case 167 => Expression(32, U2F(32), -1, 0, [148], -1)
    case 168 => Expression(32, U2F(32), -1, 0, [150], -1)
    case 169 => Expression(64, U2F(64), -1, 0, [1], -1)
    case 170 => Expression(64, U2F(64), -1, 1, [4], -1)
    case 171 => Expression(64, U2F(64), -1, 0, [6], -1)
    case 172 => Expression(64, U2F(64), -1, 1, [9], -1)
    case 173 => Expression(64, U2F(64), -1, 0, [12], -1)
    case 174 => Expression(64, U2F(64), -1, 1, [15], -1)
    case 175 => Expression(64, U2F(64), -1, 0, [17], -1)
    case _ => Variable(-1, 0)
  }

  function ValueBlock176(i: int): Slot {
    match i
    case 176 => Expression(64, U2F(64), -1, 0, [20], -1)
    case 177 => Expression(64, U2F(64), -1, 0, [22], -1)
    case 178 => Expression(64, U2F(64), -1, 0, [126], -1)
    case 179 => Expression(64, F2F(64), -1, 2, [131], -1)
    case 180 => Expression(64, U2F(64), -1, 0, [132], -1)
    case 181 => Expression(64, F2F(64), -1, 2, [137], -1)
    case 182 => Expression(64, U2F(64), -1, 0, [139], -1)
    case 183 => Expression(64, U2F(64), -1, 0, [146], -1)
    case 184 => Expression(64, U2F(64), -1, 0, [148], -1)
    case 185 => Expression(64, U2F(64), -1, 0, [150], -1)
    case 186 => Expression(16, I2F(16), -1, 0, [1], -1)
    case 187 => Expression(16, I2F(16), -1, 0, [66], -1)
    case 188 => Expression(16, I2F(16), -1, 0, [6], -1)
    case 189 => Expression(16, I2F(16), -1, 0, [71], -1)
    case 190 => Expression(16, I2F(16), -1, 0, [12], -1)
    case 191 => Expression(16, I2F(16), -1, 0, [76], -1)
    case _ => Variable(-1, 0)
  }

  function ValueBlock192(i: int): Slot {
    match i
    case 192 => Expression(16, I2F(16), -1, 0, [17], -1)
    case 193 => Expression(16, I2F(16), -1, 0, [20], -1)
    case 194 => Expression(16, I2F(16), -1, 0, [22], -1)
    case 195 => Expression(16, I2F(16), -1, 0, [126], -1)
    case 196 => Constant(16, FloatType, 0xc060000000000000)
    case 197 => Expression(16, FMax, 1, 1, [0, 196], -1)
    case 198 => Constant(16, FloatType, 0x405fc00000000000)
    case 199 => Expression(16, FMin, 0, 2, [197, 198], -1)
    case 200 => Expression(16, I2F(16), -1, 0, [132], -1)
    case 201 => Constant(32, FloatType, 0xc060000000000000)
    case 202 => Expression(32, FMax, 1, 1, [5, 201], -1)
    case 203 => Constant(32, FloatType, 0x405fc00000000000)
    case 204 => Expression(32, FMin, 0, 2, [202, 203], -1)
    case 205 => Expression(16, F2F(16), -1, 2, [204], -1)
    case 206 => Expression(16, I2F(16), -1, 0, [139], -1)
    case 207 => Constant(64, FloatType, 0xc060000000000000)
    case _ => Variable(-1, 0)
  }

  function ValueBlock208(i: int): Slot {
    match i
    case 208 => Expression(64, FMax, 1, 1, [11, 207], -1)
    case 209 => Constant(64, FloatType, 0x405fc00000000000)
    case 210 => Expression(64, FMin, 0, 2, [208, 209], -1)
    case 211 => Expression(16, F2F(16), -1, 2, [210], -1)
    case 212 => Expression(16, I2F(16), -1, 0, [146], -1)
    case 213 => Expression(16, I2F(16), -1, 0, [148], -1)
    case 214 => Expression(16, I2F(16), -1, 0, [150], -1)
    case 215 => Expression(32, I2F(32), -1, 0, [1], -1)
    case 216 => Expression(32, I2F(32), -1, 0, [66], -1)
    case 217 => Expression(32, I2F(32), -1, 0, [6], -1)
    case 218 => Expression(32, I2F(32), -1, 0, [71], -1)
    case 219 => Expression(32, I2F(32), -1, 0, [12], -1)
    case 220 => Expression(32, I2F(32), -1, 0, [76], -1)
    case 221 => Expression(32, I2F(32), -1, 0, [17], -1)
    case 222 => Expression(32, I2F(32), -1, 0, [20], -1)
    case 223 => Expression(32, I2F(32), -1, 0, [22], -1)
    case _ => Variable(-1, 0)
  }

  function ValueBlock224(i: int): Slot {
    match i
    case 224 => Expression(32, I2F(32), -1, 0, [126], -1)
    case 225 => Expression(32, F2F(32), -1, 2, [199], -1)
    case 226 => Expression(32, I2F(32), -1, 0, [132], -1)
    case 227 => Expression(32, I2F(32), -1, 0, [139], -1)
    case 228 => Expression(32, F2F(32), -1, 2, [210], -1)
    case 229 => Expression(32, I2F(32), -1, 0, [146], -1)
    case 230 => Expression(32, I2F(32), -1, 0, [148], -1)
    case 231 => Expression(32, I2F(32), -1, 0, [150], -1)
    case 232 => Expression(64, I2F(64), -1, 0, [1], -1)
    case 233 => Expression(64, I2F(64), -1, 0, [66], -1)
    case 234 => Expression(64, I2F(64), -1, 0, [6], -1)
    case 235 => Expression(64, I2F(64), -1, 0, [71], -1)
    case 236 => Expression(64, I2F(64), -1, 0, [12], -1)
    case 237 => Expression(64, I2F(64), -1, 0, [76], -1)
    case 238 => Expression(64, I2F(64), -1, 0, [17], -1)
    case 239 => Expression(64, I2F(64), -1, 0, [20], -1)
    case _ => Variable(-1, 0)
  }

  function ValueBlock240(i: int): Slot {
    match i
    case 240 => Expression(64, I2F(64), -1, 0, [22], -1)
    case 241 => Expression(64, I2F(64), -1, 0, [126], -1)
    case 242 => Expression(64, F2F(64), -1, 2, [199], -1)
    case 243 => Expression(64, I2F(64), -1, 0, [132], -1)
    case 244 => Expression(64, F2F(64), -1, 2, [204], -1)
    case 245 => Expression(64, I2F(64), -1, 0, [139], -1)
    case 246 => Expression(64, I2F(64), -1, 0, [146], -1)
    case 247 => Expression(64, I2F(64), -1, 0, [148], -1)
    case 248 => Expression(64, I2F(64), -1, 0, [150], -1)
    case _ => Variable(-1, 0)
  }

  function ValueArray(): seq<Slot> { seq(249, Value) }
  const Values: seq<Slot> := ValueArray()

  /**
    Record `i` of the transform array; each run of rules ends at a sentinel.
    The records are split into blocks of 16 so that each block is checked on its own.
  */
  function Record(i: int): Transform {
    if i < 16 then RecordBlock0(i)
    else if i < 32 then RecordBlock16(i)
    else if i < 48 then RecordBlock32(i)
    else if i < 64 then RecordBlock48(i)
    else if i < 80 then RecordBlock64(i)
    else if i < 96 then RecordBlock80(i)
    else if i < 112 then RecordBlock96(i)
    else if i < 128 then RecordBlock112(i)
    else RecordBlock128(i)
  }

  function RecordBlock0(i: int): Transform {
    match i
    case 0 => Sentinel
    case 1 => Rule(2, 4, 0)
    case 2 => Rule(7, 10, 0)
    case 3 => Rule(13, 16, 0)
    case 4 => Rule(33, 34, 0)
    case 5 => Rule(35, 9, 0)
    case 6 => Rule(36, 37, 0)
    case 7 => Rule(48, 49, 0)
    case 8 => Rule(50, 51, 0)
    case 9 => Rule(52, 15, 0)
    case 10 => Sentinel
    case 11 => Rule(18, 19, 0)
    case 12 => Rule(21, 10, 0)
    case 13 => Rule(23, 16, 0)
    case 14 => Rule(38, 34, 0)
    case 15 => Rule(39, 40, 0)
    case _ => Sentinel
  }

  function RecordBlock16(i: int): Transform {
    match i
    case 16 => Rule(41, 37, 0)
    case 17 => Rule(53, 49, 0)
    case 18 => Rule(54, 51, 0)
    case 19 => Rule(55, 56, 0)
    case 20 => Sentinel
    case 21 => Rule(26, 28, 0)
    case 22 => Rule(42, 44, 0)
    case 23 => Rule(57, 59, 0)
    case 24 => Sentinel
    case 25 => Rule(30, 32, 0)
    case 26 => Rule(45, 47, 0)
    case 27 => Rule(60, 62, 0)
    case 28 => Sentinel
    case 29 => Rule(63, 67, 0)
    case 30 => Rule(68, 72, 0)
    case 31 => Rule(73, 77, 0)
    case _ => Sentinel
  }

  function RecordBlock32(i: int): Transform {
    match i
    case 32 => Rule(87, 88, 0)
    case 33 => Rule(89, 90, 0)
    case 34 => Rule(91, 92, 0)
    case 35 => Rule(102, 103, 0)
    case 36 => Rule(104, 105, 0)
    case 37 => Rule(106, 107, 0)
    case 38 => Sentinel
    case 39 => Rule(78, 66, 0)
    case 40 => Rule(79, 72, 0)
    case 41 => Rule(80, 77, 0)
    case 42 => Rule(93, 88, 0)
    case 43 => Rule(94, 71, 0)
    case 44 => Rule(95, 92, 0)
    case 45 => Rule(108, 103, 0)
    case 46 => Rule(109, 105, 0)
    case 47 => Rule(110, 76, 0)
    case _ => Sentinel
  }

  function RecordBlock48(i: int): Transform {
    match i
    case 48 => Sentinel
    case 49 => Rule(81, 83, 0)
    case 50 => Rule(96, 98, 0)
    case 51 => Rule(111, 113, 0)
    case 52 => Sentinel
    case 53 => Rule(84, 86, 0)
    case 54 => Rule(99, 101, 0)
    case 55 => Rule(114, 116, 0)
    case 56 => Sentinel
    case 57 => Rule(117, 118, 0)
    case 58 => Rule(119, 120, 0)
    case 59 => Rule(121, 122, 0)
    case 60 => Rule(152, 153, 0)
    case 61 => Rule(154, 155, 0)
    case 62 => Rule(156, 157, 0)
    case 63 => Rule(169, 170, 0)
    case _ => Sentinel
  }

  function RecordBlock64(i: int): Transform {
    match i
    case 64 => Rule(171, 172, 0)
    case 65 => Rule(173, 174, 0)
    case 66 => Sentinel
    case 67 => Rule(123, 118, 0)
    case 68 => Rule(124, 120, 0)
    case 69 => Rule(125, 122, 0)
    case 70 => Rule(158, 153, 0)
    case 71 => Rule(159, 155, 0)
    case 72 => Rule(160, 157, 0)
    case 73 => Rule(175, 170, 0)
    case 74 => Rule(176, 172, 0)
    case 75 => Rule(177, 174, 0)
    case 76 => Sentinel
    case 77 => Rule(127, 131, 0)
    case 78 => Rule(133, 138, 0)
    case 79 => Rule(140, 145, 0)
    case _ => Sentinel
  }

  function RecordBlock80(i: int): Transform {
    match i
    case 80 => Rule(161, 162, 0)
    case 81 => Rule(163, 137, 0)
    case 82 => Rule(164, 165, 0)
    case 83 => Rule(178, 179, 0)
    case 84 => Rule(180, 181, 0)
    case 85 => Rule(182, 144, 0)
    case 86 => Sentinel
    case 87 => Rule(147, 131, 0)
    case 88 => Rule(149, 138, 0)
    case 89 => Rule(151, 145, 0)
    case 90 => Rule(166, 162, 0)
    case 91 => Rule(167, 137, 0)
    case 92 => Rule(168, 165, 0)
    case 93 => Rule(183, 179, 0)
    case 94 => Rule(184, 181, 0)
    case 95 => Rule(185, 144, 0)
    case _ => Sentinel
  }

  function RecordBlock96(i: int): Transform {
    match i
    case 96 => Sentinel
    case 97 => Rule(186, 187, 0)
    case 98 => Rule(188, 189, 0)
    case 99 => Rule(190, 191, 0)
    case 100 => Rule(215, 216, 0)
    case 101 => Rule(217, 218, 0)
    case 102 => Rule(219, 220, 0)
    case 103 => Rule(232, 233, 0)
    case 104 => Rule(234, 235, 0)
    case 105 => Rule(236, 237, 0)
    case 106 => Sentinel
    case 107 => Rule(192, 187, 0)
    case 108 => Rule(193, 189, 0)
    case 109 => Rule(194, 191, 0)
    case 110 => Rule(221, 216, 0)
    case 111 => Rule(222, 218, 0)
    case _ => Sentinel
  }

  function RecordBlock112(i: int): Transform {
    match i
    case 112 => Rule(223, 220, 0)
    case 113 => Rule(238, 233, 0)
    case 114 => Rule(239, 235, 0)
    case 115 => Rule(240, 237, 0)
    case 116 => Sentinel
    case 117 => Rule(195, 199, 0)
    case 118 => Rule(200, 205, 0)
    case 119 => Rule(206, 211, 0)
    case 120 => Rule(224, 225, 0)
    case 121 => Rule(226, 204, 0)
    case 122 => Rule(227, 228, 0)
    case 123 => Rule(241, 242, 0)
    case 124 => Rule(243, 244, 0)
    case 125 => Rule(245, 210, 0)
    case 126 => Sentinel
    case 127 => Rule(212, 199, 0)
    case _ => Sentinel
  }

  function RecordBlock128(i: int): Transform {
    match i
    case 128 => Rule(213, 205, 0)
    case 129 => Rule(214, 211, 0)
    case 130 => Rule(229, 225, 0)
    case 131 => Rule(230, 204, 0)
    case 132 => Rule(231, 228, 0)
    case 133 => Rule(246, 242, 0)
    case 134 => Rule(247, 244, 0)
    case 135 => Rule(248, 210, 0)
    case 136 => Sentinel
    case _ => Sentinel
  }

  function TransformArray(): seq<Transform> { seq(137, Record) }
  const Transforms: seq<Transform> := TransformArray()

  const U2uDispatch := PerOpTable(Some([0, 0, 1, 2, 3, 4, 1, 1, 1, 1, 2, 2, 2, 2, 0, 0, 0, 0, 0, 0, 0, 0]), 5, [2, 6, 7, 8, 9])
  const I2iDispatch := PerOpTable(Some([0, 0, 1, 2, 3, 4, 1, 1, 1, 1, 2, 2, 2, 2, 0, 0, 0, 0, 0, 0, 0, 0]), 5, [3, 10, 11, 12, 13])
  const F2uDispatch := PerOpTable(None, 1, [4])
  const F2iDispatch := PerOpTable(None, 1, [5])
  const U2fDispatch := PerOpTable(Some([0, 0, 1, 2, 3, 4, 1, 1, 1, 1, 2, 2, 2, 2, 0, 0, 0, 0, 0, 0, 0, 0]), 5, [0, 14, 15, 16, 17])
  const I2fDispatch := PerOpTable(Some([0, 0, 1, 2, 3, 4, 1, 1, 1, 1, 2, 2, 2, 2, 0, 0, 0, 0, 0, 0, 0, 0]), 5, [0, 18, 19, 20, 21])

  /** The per-opcode dispatch tables, keyed by conversion family or opcode. */
  const OpTables: seq<(SearchOp, PerOpTable)> := [(FamU2U, U2uDispatch), (FamI2I, I2iDispatch), (FamF2U, F2uDispatch), (FamF2I, F2iDispatch), (FamU2F, U2fDispatch), (FamI2F, I2fDispatch)]

  /** First record of the run of each automaton state; 0 (the leading sentinel) for states with no rules. */
  const TransformOffsets: seq<nat> := [0, 0, 0, 0, 0, 0, 1, 11, 21, 25, 29, 39, 49, 53, 57, 67, 77, 87, 97, 107, 117, 127]

  const Table := AlgebraicTable(Values, Transforms, OpTables, TransformOffsets)

  /** The pass has one condition flag, set unconditionally. */
  const Flags: seq<bool> := [true]

  // ---------------------------------------------------------------------------
  // Load-time checks, proved block by block

  lemma ValuesOrdered0()
    ensures forall i :: 0 <= i < 16 ==> SlotOrdered(Value(i), i)
  {
  }

  lemma ValuesOrdered16()
    ensures forall i :: 16 <= i < 32 ==> SlotOrdered(Value(i), i)
  {
  }

  lemma ValuesOrdered32()
    ensures forall i :: 32 <= i < 48 ==> SlotOrdered(Value(i), i)
  {
  }

  lemma ValuesOrdered48()
    ensures forall i :: 48 <= i < 64 ==> SlotOrdered(Value(i), i)
  {
  }

  lemma ValuesOrdered64()
    ensures forall i :: 64 <= i < 80 ==> SlotOrdered(Value(i), i)
  {
  }

  lemma ValuesOrdered80()
    ensures forall i :: 80 <= i < 96 ==> SlotOrdered(Value(i), i)
  {
  }

  lemma ValuesOrdered96()
    ensures forall i :: 96 <= i < 112 ==> SlotOrdered(Value(i), i)
  {
  }

  lemma ValuesOrdered112()
    ensures forall i :: 112 <= i < 128 ==> SlotOrdered(Value(i), i)
  {
  }

  lemma ValuesOrdered128()
    ensures forall i :: 128 <= i < 144 ==> SlotOrdered(Value(i), i)
  {
  }

  lemma ValuesOrdered144()
    ensures forall i :: 144 <= i < 160 ==> SlotOrdered(Value(i), i)
  {
  }

  lemma ValuesOrdered160()
    ensures forall i :: 160 <= i < 176 ==> SlotOrdered(Value(i), i)
  {
  }

  lemma ValuesOrdered176()
    ensures forall i :: 176 <= i < 192 ==> SlotOrdered(Value(i), i)
  {
  }

  lemma ValuesOrdered192()
    ensures forall i :: 192 <= i < 208 ==> SlotOrdered(Value(i), i)
  {
  }

  lemma ValuesOrdered208()
    ensures forall i :: 208 <= i < 224 ==> SlotOrdered(Value(i), i)
  {
  }

  lemma ValuesOrdered224()
    ensures forall i :: 224 <= i < 240 ==> SlotOrdered(Value(i), i)
  {
  }

  lemma ValuesOrdered240()
    ensures forall i :: 240 <= i < 249 ==> SlotOrdered(Value(i), i)
  {
  }

  lemma RecordsInBounds0()
    ensures forall i :: 0 <= i < 16 ==> TransformInBounds(Record(i), 249, 1)
  {
  }

  lemma RecordsInBounds16()
    ensures forall i :: 16 <= i < 32 ==> TransformInBounds(Record(i), 249, 1)
  {
  }

  lemma RecordsInBounds32()
    ensures forall i :: 32 <= i < 48 ==> TransformInBounds(Record(i), 249, 1)
  {
  }

  lemma RecordsInBounds48()
    ensures forall i :: 48 <= i < 64 ==> TransformInBounds(Record(i), 249, 1)
  {
  }

  lemma RecordsInBounds64()
    ensures forall i :: 64 <= i < 80 ==> TransformInBounds(Record(i), 249, 1)
  {
  }

  lemma RecordsInBounds80()
    ensures forall i :: 80 <= i < 96 ==> TransformInBounds(Record(i), 249, 1)
  {
  }

  lemma RecordsInBounds96()
    ensures forall i :: 96 <= i < 112 ==> TransformInBounds(Record(i), 249, 1)
  {
  }

  lemma RecordsInBounds112()
    ensures forall i :: 112 <= i < 128 ==> TransformInBounds(Record(i), 249, 1)
  {
  }

  lemma RecordsInBounds128()
    ensures forall i :: 128 <= i < 137 ==> TransformInBounds(Record(i), 249, 1)
  {
  }

  lemma U2uDispatchOk()
    ensures PerOpOk(U2uDispatch, 22)
  {
  }

  lemma I2iDispatchOk()
    ensures PerOpOk(I2iDispatch, 22)
  {
  }

  lemma F2uDispatchOk()
    ensures PerOpOk(F2uDispatch, 22)
  {
  }

  lemma F2iDispatchOk()
    ensures PerOpOk(F2iDispatch, 22)
  {
  }

  lemma U2fDispatchOk()
    ensures PerOpOk(U2fDispatch, 22)
  {
  }

  lemma I2fDispatchOk()
    ensures PerOpOk(I2fDispatch, 22)
  {
  }

  lemma OpTablesOk()
    ensures forall e :: e in OpTables ==> UnaryKey(e.0) && PerOpOk(e.1, |TransformOffsets|)
  {
    U2uDispatchOk();
    I2iDispatchOk();
    F2uDispatchOk();
    F2iDispatchOk();
    U2fDispatchOk();
    I2fDispatchOk();
  }

  lemma OffsetsInRange()
    ensures forall s :: 0 <= s < |TransformOffsets| ==> TransformOffsets[s] <= |Transforms|
  {
  }

  lemma AllValuesOrdered()
    ensures ValuesOrdered(Values)
  {
    ValuesOrdered0();
    ValuesOrdered16();
    ValuesOrdered32();
    ValuesOrdered48();
    ValuesOrdered64();
    ValuesOrdered80();
    ValuesOrdered96();
    ValuesOrdered112();
    ValuesOrdered128();
    ValuesOrdered144();
    ValuesOrdered160();
    ValuesOrdered176();
    ValuesOrdered192();
    ValuesOrdered208();
    ValuesOrdered224();
    ValuesOrdered240();
    forall i | 0 <= i < |Values|
      ensures SlotOrdered(Values[i], i)
    {
      assert Values[i] == Value(i);
    }
  }

  lemma AllRecordsInBounds()
    ensures forall i :: 0 <= i < |Transforms| ==> TransformInBounds(Transforms[i], |Values|, |Flags|)
  {
    RecordsInBounds0();
    RecordsInBounds16();
    RecordsInBounds32();
    RecordsInBounds48();
    RecordsInBounds64();
    RecordsInBounds80();
    RecordsInBounds96();
    RecordsInBounds112();
    RecordsInBounds128();
    forall i | 0 <= i < |Transforms|
      ensures TransformInBounds(Transforms[i], |Values|, |Flags|)
    {
      assert Transforms[i] == Record(i);
    }
  }

  /** The tables pass every index check the engine relies on. */
  lemma TableWellFormed()
    ensures WellFormed(Table, |Flags|)
  {
    AllValuesOrdered();
    AllRecordsInBounds();
    OpTablesOk();
    OffsetsInRange();
  }

  // ---------------------------------------------------------------------------
  // Run layout

  lemma Sentinel0()
    ensures Table.transforms[0] == Sentinel
  {
    assert Transforms[0] == Record(0);
  }

  lemma Sentinel10()
    ensures Table.transforms[10] == Sentinel
  {
    assert Transforms[10] == Record(10);
  }

  lemma Sentinel20()
    ensures Table.transforms[20] == Sentinel
  {
    assert Transforms[20] == Record(20);
  }

  lemma Sentinel24()
    ensures Table.transforms[24] == Sentinel
  {
    assert Transforms[24] == Record(24);
  }

  lemma Sentinel28()
    ensures Table.transforms[28] == Sentinel
  {
    assert Transforms[28] == Record(28);
  }

  lemma Sentinel38()
    ensures Table.transforms[38] == Sentinel
  {
    assert Transforms[38] == Record(38);
  }

  lemma Sentinel48()
    ensures Table.transforms[48] == Sentinel
  {
    assert Transforms[48] == Record(48);
  }

  lemma Sentinel52()
    ensures Table.transforms[52] == Sentinel
  {
    assert Transforms[52] == Record(52);
  }

  lemma Sentinel56()
    ensures Table.transforms[56] == Sentinel
  {
    assert Transforms[56] == Record(56);
  }

  lemma Sentinel66()
    ensures Table.transforms[66] == Sentinel
  {
    assert Transforms[66] == Record(66);
  }

  lemma Sentinel76()
    ensures Table.transforms[76] == Sentinel
  {
    assert Transforms[76] == Record(76);
  }

  lemma Sentinel86()
    ensures Table.transforms[86] == Sentinel
  {
    assert Transforms[86] == Record(86);
  }

  lemma Sentinel96()
    ensures Table.transforms[96] == Sentinel
  {
    assert Transforms[96] == Record(96);
  }

  lemma Sentinel106()
    ensures Table.transforms[106] == Sentinel
  {
    assert Transforms[106] == Record(106);
  }

  lemma Sentinel116()
    ensures Table.transforms[116] == Sentinel
  {
    assert Transforms[116] == Record(116);
  }

  lemma Sentinel126()
    ensures Table.transforms[126] == Sentinel
  {
    assert Transforms[126] == Record(126);
  }

  lemma Sentinel136()
    ensures Table.transforms[136] == Sentinel
  {
    assert Transforms[136] == Record(136);
  }

  lemma Rooted1()
    ensures Table.transforms[1] == Rule(2, 4, 0) && RootOf(Table.values, 2, FamU2U)
  {
    assert Transforms[1] == Record(1);
    assert Values[2] == Value(2);
  }

  lemma Rooted2()
    ensures Table.transforms[2] == Rule(7, 10, 0) && RootOf(Table.values, 7, FamU2U)
  {
    assert Transforms[2] == Record(2);
    assert Values[7] == Value(7);
  }

  lemma Rooted3()
    ensures Table.transforms[3] == Rule(13, 16, 0) && RootOf(Table.values, 13, FamU2U)
  {
    assert Transforms[3] == Record(3);
    assert Values[13] == Value(13);
  }

  lemma Rooted4()
    ensures Table.transforms[4] == Rule(33, 34, 0) && RootOf(Table.values, 33, FamU2U)
  {
    assert Transforms[4] == Record(4);
    assert Values[33] == Value(33);
  }

  lemma Rooted5()
    ensures Table.transforms[5] == Rule(35, 9, 0) && RootOf(Table.values, 35, FamU2U)
  {
    assert Transforms[5] == Record(5);
    assert Values[35] == Value(35);
  }

  lemma Rooted6()
    ensures Table.transforms[6] == Rule(36, 37, 0) && RootOf(Table.values, 36, FamU2U)
  {
    assert Transforms[6] == Record(6);
    assert Values[36] == Value(36);
  }

  lemma Rooted7()
    ensures Table.transforms[7] == Rule(48, 49, 0) && RootOf(Table.values, 48, FamU2U)
  {
    assert Transforms[7] == Record(7);
    assert Values[48] == Value(48);
  }

  lemma Rooted8()
    ensures Table.transforms[8] == Rule(50, 51, 0) && RootOf(Table.values, 50, FamU2U)
  {
    assert Transforms[8] == Record(8);
    assert Values[50] == Value(50);
  }

  lemma Rooted9()
    ensures Table.transforms[9] == Rule(52, 15, 0) && RootOf(Table.values, 52, FamU2U)
  {
    assert Transforms[9] == Record(9);
    assert Values[52] == Value(52);
  }

  lemma Rooted11()
    ensures Table.transforms[11] == Rule(18, 19, 0) && RootOf(Table.values, 18, FamU2U)
  {
    assert Transforms[11] == Record(11);
    assert Values[18] == Value(18);
  }

  lemma Rooted12()
    ensures Table.transforms[12] == Rule(21, 10, 0) && RootOf(Table.values, 21, FamU2U)
  {
    assert Transforms[12] == Record(12);
    assert Values[21] == Value(21);
  }

  lemma Rooted13()
    ensures Table.transforms[13] == Rule(23, 16, 0) && RootOf(Table.values, 23, FamU2U)
  {
    assert Transforms[13] == Record(13);
    assert Values[23] == Value(23);
  }

  lemma Rooted14()
    ensures Table.transforms[14] == Rule(38, 34, 0) && RootOf(Table.values, 38, FamU2U)
  {
    assert Transforms[14] == Record(14);
    assert Values[38] == Value(38);
  }

  lemma Rooted15()
    ensures Table.transforms[15] == Rule(39, 40, 0) && RootOf(Table.values, 39, FamU2U)
  {
    assert Transforms[15] == Record(15);
    assert Values[39] == Value(39);
  }

  lemma Rooted16()
    ensures Table.transforms[16] == Rule(41, 37, 0) && RootOf(Table.values, 41, FamU2U)
  {
    assert Transforms[16] == Record(16);
    assert Values[41] == Value(41);
  }

  lemma Rooted17()
    ensures Table.transforms[17] == Rule(53, 49, 0) && RootOf(Table.values, 53, FamU2U)
  {
    assert Transforms[17] == Record(17);
    assert Values[53] == Value(53);
  }

  lemma Rooted18()
    ensures Table.transforms[18] == Rule(54, 51, 0) && RootOf(Table.values, 54, FamU2U)
  {
    assert Transforms[18] == Record(18);
    assert Values[54] == Value(54);
  }

  lemma Rooted19()
    ensures Table.transforms[19] == Rule(55, 56, 0) && RootOf(Table.values, 55, FamU2U)
  {
    assert Transforms[19] == Record(19);
    assert Values[55] == Value(55);
  }

  lemma Rooted21()
    ensures Table.transforms[21] == Rule(26, 28, 0) && RootOf(Table.values, 26, FamU2U)
  {
    assert Transforms[21] == Record(21);
    assert Values[26] == Value(26);
  }

  lemma Rooted22()
    ensures Table.transforms[22] == Rule(42, 44, 0) && RootOf(Table.values, 42, FamU2U)
  {
    assert Transforms[22] == Record(22);
    assert Values[42] == Value(42);
  }

  lemma Rooted23()
    ensures Table.transforms[23] == Rule(57, 59, 0) && RootOf(Table.values, 57, FamU2U)
  {
    assert Transforms[23] == Record(23);
    assert Values[57] == Value(57);
  }

  lemma Rooted25()
    ensures Table.transforms[25] == Rule(30, 32, 0) && RootOf(Table.values, 30, FamU2U)
  {
    assert Transforms[25] == Record(25);
    assert Values[30] == Value(30);
  }

  lemma Rooted26()
    ensures Table.transforms[26] == Rule(45, 47, 0) && RootOf(Table.values, 45, FamU2U)
  {
    assert Transforms[26] == Record(26);
    assert Values[45] == Value(45);
  }

  lemma Rooted27()
    ensures Table.transforms[27] == Rule(60, 62, 0) && RootOf(Table.values, 60, FamU2U)
  {
    assert Transforms[27] == Record(27);
    assert Values[60] == Value(60);
  }

  lemma Rooted29()
    ensures Table.transforms[29] == Rule(63, 67, 0) && RootOf(Table.values, 63, FamI2I)
  {
    assert Transforms[29] == Record(29);
    assert Values[63] == Value(63);
  }

  lemma Rooted30()
    ensures Table.transforms[30] == Rule(68, 72, 0) && RootOf(Table.values, 68, FamI2I)
  {
    assert Transforms[30] == Record(30);
    assert Values[68] == Value(68);
  }

  lemma Rooted31()
    ensures Table.transforms[31] == Rule(73, 77, 0) && RootOf(Table.values, 73, FamI2I)
  {
    assert Transforms[31] == Record(31);
    assert Values[73] == Value(73);
  }

  lemma Rooted32()
    ensures Table.transforms[32] == Rule(87, 88, 0) && RootOf(Table.values, 87, FamI2I)
  {
    assert Transforms[32] == Record(32);
    assert Values[87] == Value(87);
  }

  lemma Rooted33()
    ensures Table.transforms[33] == Rule(89, 90, 0) && RootOf(Table.values, 89, FamI2I)
  {
    assert Transforms[33] == Record(33);
    assert Values[89] == Value(89);
  }

  lemma Rooted34()
    ensures Table.transforms[34] == Rule(91, 92, 0) && RootOf(Table.values, 91, FamI2I)
  {
    assert Transforms[34] == Record(34);
    assert Values[91] == Value(91);
  }

  lemma Rooted35()
    ensures Table.transforms[35] == Rule(102, 103, 0) && RootOf(Table.values, 102, FamI2I)
  {
    assert Transforms[35] == Record(35);
    assert Values[102] == Value(102);
  }

  lemma Rooted36()
    ensures Table.transforms[36] == Rule(104, 105, 0) && RootOf(Table.values, 104, FamI2I)
  {
    assert Transforms[36] == Record(36);
    assert Values[104] == Value(104);
  }

  lemma Rooted37()
    ensures Table.transforms[37] == Rule(106, 107, 0) && RootOf(Table.values, 106, FamI2I)
  {
    assert Transforms[37] == Record(37);
    assert Values[106] == Value(106);
  }

  lemma Rooted39()
    ensures Table.transforms[39] == Rule(78, 66, 0) && RootOf(Table.values, 78, FamI2I)
  {
    assert Transforms[39] == Record(39);
    assert Values[78] == Value(78);
  }

  lemma Rooted40()
    ensures Table.transforms[40] == Rule(79, 72, 0) && RootOf(Table.values, 79, FamI2I)
  {
    assert Transforms[40] == Record(40);
    assert Values[79] == Value(79);
  }

  lemma Rooted41()
    ensures Table.transforms[41] == Rule(80, 77, 0) && RootOf(Table.values, 80, FamI2I)
  {
    assert Transforms[41] == Record(41);
    assert Values[80] == Value(80);
  }

  lemma Rooted42()
    ensures Table.transforms[42] == Rule(93, 88, 0) && RootOf(Table.values, 93, FamI2I)
  {
    assert Transforms[42] == Record(42);
    assert Values[93] == Value(93);
  }

  lemma Rooted43()
    ensures Table.transforms[43] == Rule(94, 71, 0) && RootOf(Table.values, 94, FamI2I)
  {
    assert Transforms[43] == Record(43);
    assert Values[94] == Value(94);
  }

  lemma Rooted44()
    ensures Table.transforms[44] == Rule(95, 92, 0) && RootOf(Table.values, 95, FamI2I)
  {
    assert Transforms[44] == Record(44);
    assert Values[95] == Value(95);
  }

  lemma Rooted45()
    ensures Table.transforms[45] == Rule(108, 103, 0) && RootOf(Table.values, 108, FamI2I)
  {
    assert Transforms[45] == Record(45);
    assert Values[108] == Value(108);
  }

  lemma Rooted46()
    ensures Table.transforms[46] == Rule(109, 105, 0) && RootOf(Table.values, 109, FamI2I)
  {
    assert Transforms[46] == Record(46);
    assert Values[109] == Value(109);
  }

  lemma Rooted47()
    ensures Table.transforms[47] == Rule(110, 76, 0) && RootOf(Table.values, 110, FamI2I)
  {
    assert Transforms[47] == Record(47);
    assert Values[110] == Value(110);
  }

  lemma Rooted49()
    ensures Table.transforms[49] == Rule(81, 83, 0) && RootOf(Table.values, 81, FamI2I)
  {
    assert Transforms[49] == Record(49);
    assert Values[81] == Value(81);
  }

  lemma Rooted50()
    ensures Table.transforms[50] == Rule(96, 98, 0) && RootOf(Table.values, 96, FamI2I)
  {
    assert Transforms[50] == Record(50);
    assert Values[96] == Value(96);
  }

  lemma Rooted51()
    ensures Table.transforms[51] == Rule(111, 113, 0) && RootOf(Table.values, 111, FamI2I)
  {
    assert Transforms[51] == Record(51);
    assert Values[111] == Value(111);
  }

  lemma Rooted53()
    ensures Table.transforms[53] == Rule(84, 86, 0) && RootOf(Table.values, 84, FamI2I)
  {
    assert Transforms[53] == Record(53);
    assert Values[84] == Value(84);
  }

  lemma Rooted54()
    ensures Table.transforms[54] == Rule(99, 101, 0) && RootOf(Table.values, 99, FamI2I)
  {
    assert Transforms[54] == Record(54);
    assert Values[99] == Value(99);
  }

  lemma Rooted55()
    ensures Table.transforms[55] == Rule(114, 116, 0) && RootOf(Table.values, 114, FamI2I)
  {
    assert Transforms[55] == Record(55);
    assert Values[114] == Value(114);
  }

  lemma Rooted57()
    ensures Table.transforms[57] == Rule(117, 118, 0) && RootOf(Table.values, 117, FamU2F)
  {
    assert Transforms[57] == Record(57);
    assert Values[117] == Value(117);
  }

  lemma Rooted58()
    ensures Table.transforms[58] == Rule(119, 120, 0) && RootOf(Table.values, 119, FamU2F)
  {
    assert Transforms[58] == Record(58);
    assert Values[119] == Value(119);
  }

  lemma Rooted59()
    ensures Table.transforms[59] == Rule(121, 122, 0) && RootOf(Table.values, 121, FamU2F)
  {
    assert Transforms[59] == Record(59);
    assert Values[121] == Value(121);
  }

  lemma Rooted60()
    ensures Table.transforms[60] == Rule(152, 153, 0) && RootOf(Table.values, 152, FamU2F)
  {
    assert Transforms[60] == Record(60);
    assert Values[152] == Value(152);
  }

  lemma Rooted61()
    ensures Table.transforms[61] == Rule(154, 155, 0) && RootOf(Table.values, 154, FamU2F)
  {
    assert Transforms[61] == Record(61);
    assert Values[154] == Value(154);
  }

  lemma Rooted62()
    ensures Table.transforms[62] == Rule(156, 157, 0) && RootOf(Table.values, 156, FamU2F)
  {
    assert Transforms[62] == Record(62);
    assert Values[156] == Value(156);
  }

  lemma Rooted63()
    ensures Table.transforms[63] == Rule(169, 170, 0) && RootOf(Table.values, 169, FamU2F)
  {
    assert Transforms[63] == Record(63);
    assert Values[169] == Value(169);
  }

  lemma Rooted64()
    ensures Table.transforms[64] == Rule(171, 172, 0) && RootOf(Table.values, 171, FamU2F)
  {
    assert Transforms[64] == Record(64);
    assert Values[171] == Value(171);
  }

  lemma Rooted65()
    ensures Table.transforms[65] == Rule(173, 174, 0) && RootOf(Table.values, 173, FamU2F)
  {
    assert Transforms[65] == Record(65);
    assert Values[173] == Value(173);
  }

  lemma Rooted67()
    ensures Table.transforms[67] == Rule(123, 118, 0) && RootOf(Table.values, 123, FamU2F)
  {
    assert Transforms[67] == Record(67);
    assert Values[123] == Value(123);
  }

  lemma Rooted68()
    ensures Table.transforms[68] == Rule(124, 120, 0) && RootOf(Table.values, 124, FamU2F)
  {
    assert Transforms[68] == Record(68);
    assert Values[124] == Value(124);
  }

  lemma Rooted69()
    ensures Table.transforms[69] == Rule(125, 122, 0) && RootOf(Table.values, 125, FamU2F)
  {
    assert Transforms[69] == Record(69);
    assert Values[125] == Value(125);
  }

  lemma Rooted70()
    ensures Table.transforms[70] == Rule(158, 153, 0) && RootOf(Table.values, 158, FamU2F)
  {
    assert Transforms[70] == Record(70);
    assert Values[158] == Value(158);
  }

  lemma Rooted71()
    ensures Table.transforms[71] == Rule(159, 155, 0) && RootOf(Table.values, 159, FamU2F)
  {
    assert Transforms[71] == Record(71);
    assert Values[159] == Value(159);
  }

  lemma Rooted72()
    ensures Table.transforms[72] == Rule(160, 157, 0) && RootOf(Table.values, 160, FamU2F)
  {
    assert Transforms[72] == Record(72);
    assert Values[160] == Value(160);
  }

  lemma Rooted73()
    ensures Table.transforms[73] == Rule(175, 170, 0) && RootOf(Table.values, 175, FamU2F)
  {
    assert Transforms[73] == Record(73);
    assert Values[175] == Value(175);
  }

  lemma Rooted74()
    ensures Table.transforms[74] == Rule(176, 172, 0) && RootOf(Table.values, 176, FamU2F)
  {
    assert Transforms[74] == Record(74);
    assert Values[176] == Value(176);
  }

  lemma Rooted75()
    ensures Table.transforms[75] == Rule(177, 174, 0) && RootOf(Table.values, 177, FamU2F)
  {
    assert Transforms[75] == Record(75);
    assert Values[177] == Value(177);
  }

  lemma Rooted77()
    ensures Table.transforms[77] == Rule(127, 131, 0) && RootOf(Table.values, 127, FamU2F)
  {
    assert Transforms[77] == Record(77);
    assert Values[127] == Value(127);
  }

  lemma Rooted78()
    ensures Table.transforms[78] == Rule(133, 138, 0) && RootOf(Table.values, 133, FamU2F)
  {
    assert Transforms[78] == Record(78);
    assert Values[133] == Value(133);
  }

  lemma Rooted79()
    ensures Table.transforms[79] == Rule(140, 145, 0) && RootOf(Table.values, 140, FamU2F)
  {
    assert Transforms[79] == Record(79);
    assert Values[140] == Value(140);
  }

  lemma Rooted80()
    ensures Table.transforms[80] == Rule(161, 162, 0) && RootOf(Table.values, 161, FamU2F)
  {
    assert Transforms[80] == Record(80);
    assert Values[161] == Value(161);
  }

  lemma Rooted81()
    ensures Table.transforms[81] == Rule(163, 137, 0) && RootOf(Table.values, 163, FamU2F)
  {
    assert Transforms[81] == Record(81);
    assert Values[163] == Value(163);
  }

  lemma Rooted82()
    ensures Table.transforms[82] == Rule(164, 165, 0) && RootOf(Table.values, 164, FamU2F)
  {
    assert Transforms[82] == Record(82);
    assert Values[164] == Value(164);
  }

  lemma Rooted83()
    ensures Table.transforms[83] == Rule(178, 179, 0) && RootOf(Table.values, 178, FamU2F)
  {
    assert Transforms[83] == Record(83);
    assert Values[178] == Value(178);
  }

  lemma Rooted84()
    ensures Table.transforms[84] == Rule(180, 181, 0) && RootOf(Table.values, 180, FamU2F)
  {
    assert Transforms[84] == Record(84);
    assert Values[180] == Value(180);
  }

  lemma Rooted85()
    ensures Table.transforms[85] == Rule(182, 144, 0) && RootOf(Table.values, 182, FamU2F)
  {
    assert Transforms[85] == Record(85);
    assert Values[182] == Value(182);
  }

  lemma Rooted87()
    ensures Table.transforms[87] == Rule(147, 131, 0) && RootOf(Table.values, 147, FamU2F)
  {
    assert Transforms[87] == Record(87);
    assert Values[147] == Value(147);
  }

  lemma Rooted88()
    ensures Table.transforms[88] == Rule(149, 138, 0) && RootOf(Table.values, 149, FamU2F)
  {
    assert Transforms[88] == Record(88);
    assert Values[149] == Value(149);
  }

  lemma Rooted89()
    ensures Table.transforms[89] == Rule(151, 145, 0) && RootOf(Table.values, 151, FamU2F)
  {
    assert Transforms[89] == Record(89);
    assert Values[151] == Value(151);
  }

  lemma Rooted90()
    ensures Table.transforms[90] == Rule(166, 162, 0) && RootOf(Table.values, 166, FamU2F)
  {
    assert Transforms[90] == Record(90);
    assert Values[166] == Value(166);
  }

  lemma Rooted91()
    ensures Table.transforms[91] == Rule(167, 137, 0) && RootOf(Table.values, 167, FamU2F)
  {
    assert Transforms[91] == Record(91);
    assert Values[167] == Value(167);
  }

  lemma Rooted92()
    ensures Table.transforms[92] == Rule(168, 165, 0) && RootOf(Table.values, 168, FamU2F)
  {
    assert Transforms[92] == Record(92);
    assert Values[168] == Value(168);
  }

  lemma Rooted93()
    ensures Table.transforms[93] == Rule(183, 179, 0) && RootOf(Table.values, 183, FamU2F)
  {
    assert Transforms[93] == Record(93);
    assert Values[183] == Value(183);
  }

  lemma Rooted94()
    ensures Table.transforms[94] == Rule(184, 181, 0) && RootOf(Table.values, 184, FamU2F)
  {
    assert Transforms[94] == Record(94);
    assert Values[184] == Value(184);
  }

  lemma Rooted95()
    ensures Table.transforms[95] == Rule(185, 144, 0) && RootOf(Table.values, 185, FamU2F)
  {
    assert Transforms[95] == Record(95);
    assert Values[185] == Value(185);
  }

  lemma Rooted97()
    ensures Table.transforms[97] == Rule(186, 187, 0) && RootOf(Table.values, 186, FamI2F)
  {
    assert Transforms[97] == Record(97);
    assert Values[186] == Value(186);
  }

  lemma Rooted98()
    ensures Table.transforms[98] == Rule(188, 189, 0) && RootOf(Table.values, 188, FamI2F)
  {
    assert Transforms[98] == Record(98);
    assert Values[188] == Value(188);
  }

  lemma Rooted99()
    ensures Table.transforms[99] == Rule(190, 191, 0) && RootOf(Table.values, 190, FamI2F)
  {
    assert Transforms[99] == Record(99);
    assert Values[190] == Value(190);
  }

  lemma Rooted100()
    ensures Table.transforms[100] == Rule(215, 216, 0) && RootOf(Table.values, 215, FamI2F)
  {
    assert Transforms[100] == Record(100);
    assert Values[215] == Value(215);
  }

  lemma Rooted101()
    ensures Table.transforms[101] == Rule(217, 218, 0) && RootOf(Table.values, 217, FamI2F)
  {
    assert Transforms[101] == Record(101);
    assert Values[217] == Value(217);
  }

  lemma Rooted102()
    ensures Table.transforms[102] == Rule(219, 220, 0) && RootOf(Table.values, 219, FamI2F)
  {
    assert Transforms[102] == Record(102);
    assert Values[219] == Value(219);
  }

  lemma Rooted103()
    ensures Table.transforms[103] == Rule(232, 233, 0) && RootOf(Table.values, 232, FamI2F)
  {
    assert Transforms[103] == Record(103);
    assert Values[232] == Value(232);
  }

  lemma Rooted104()
    ensures Table.transforms[104] == Rule(234, 235, 0) && RootOf(Table.values, 234, FamI2F)
  {
    assert Transforms[104] == Record(104);
    assert Values[234] == Value(234);
  }

  lemma Rooted105()
    ensures Table.transforms[105] == Rule(236, 237, 0) && RootOf(Table.values, 236, FamI2F)
  {
    assert Transforms[105] == Record(105);
    assert Values[236] == Value(236);
  }

  lemma Rooted107()
    ensures Table.transforms[107] == Rule(192, 187, 0) && RootOf(Table.values, 192, FamI2F)
  {
    assert Transforms[107] == Record(107);
    assert Values[192] == Value(192);
  }

  lemma Rooted108()
    ensures Table.transforms[108] == Rule(193, 189, 0) && RootOf(Table.values, 193, FamI2F)
  {
    assert Transforms[108] == Record(108);
    assert Values[193] == Value(193);
  }

  lemma Rooted109()
    ensures Table.transforms[109] == Rule(194, 191, 0) && RootOf(Table.values, 194, FamI2F)
  {
    assert Transforms[109] == Record(109);
    assert Values[194] == Value(194);
  }

  lemma Rooted110()
    ensures Table.transforms[110] == Rule(221, 216, 0) && RootOf(Table.values, 221, FamI2F)
  {
    assert Transforms[110] == Record(110);
    assert Values[221] == Value(221);
  }

  lemma Rooted111()
    ensures Table.transforms[111] == Rule(222, 218, 0) && RootOf(Table.values, 222, FamI2F)
  {
    assert Transforms[111] == Record(111);
    assert Values[222] == Value(222);
  }

  lemma Rooted112()
    ensures Table.transforms[112] == Rule(223, 220, 0) && RootOf(Table.values, 223, FamI2F)
  {
    assert Transforms[112] == Record(112);
    assert Values[223] == Value(223);
  }

  lemma Rooted113()
    ensures Table.transforms[113] == Rule(238, 233, 0) && RootOf(Table.values, 238, FamI2F)
  {
    assert Transforms[113] == Record(113);
    assert Values[238] == Value(238);
  }

  lemma Rooted114()
    ensures Table.transforms[114] == Rule(239, 235, 0) && RootOf(Table.values, 239, FamI2F)
  {
    assert Transforms[114] == Record(114);
    assert Values[239] == Value(239);
  }

  lemma Rooted115()
    ensures Table.transforms[115] == Rule(240, 237, 0) && RootOf(Table.values, 240, FamI2F)
  {
    assert Transforms[115] == Record(115);
    assert Values[240] == Value(240);
  }

  lemma Rooted117()
    ensures Table.transforms[117] == Rule(195, 199, 0) && RootOf(Table.values, 195, FamI2F)
  {
    assert Transforms[117] == Record(117);
    assert Values[195] == Value(195);
  }

  lemma Rooted118()
    ensures Table.transforms[118] == Rule(200, 205, 0) && RootOf(Table.values, 200, FamI2F)
  {
    assert Transforms[118] == Record(118);
    assert Values[200] == Value(200);
  }

  lemma Rooted119()
    ensures Table.transforms[119] == Rule(206, 211, 0) && RootOf(Table.values, 206, FamI2F)
  {
    assert Transforms[119] == Record(119);
    assert Values[206] == Value(206);
  }

  lemma Rooted120()
    ensures Table.transforms[120] == Rule(224, 225, 0) && RootOf(Table.values, 224, FamI2F)
  {
    assert Transforms[120] == Record(120);
    assert Values[224] == Value(224);
  }

  lemma Rooted121()
    ensures Table.transforms[121] == Rule(226, 204, 0) && RootOf(Table.values, 226, FamI2F)
  {
    assert Transforms[121] == Record(121);
    assert Values[226] == Value(226);
  }

  lemma Rooted122()
    ensures Table.transforms[122] == Rule(227, 228, 0) && RootOf(Table.values, 227, FamI2F)
  {
    assert Transforms[122] == Record(122);
    assert Values[227] == Value(227);
  }

  lemma Rooted123()
    ensures Table.transforms[123] == Rule(241, 242, 0) && RootOf(Table.values, 241, FamI2F)
  {
    assert Transforms[123] == Record(123);
    assert Values[241] == Value(241);
  }

  lemma Rooted124()
    ensures Table.transforms[124] == Rule(243, 244, 0) && RootOf(Table.values, 243, FamI2F)
  {
    assert Transforms[124] == Record(124);
    assert Values[243] == Value(243);
  }

  lemma Rooted125()
    ensures Table.transforms[125] == Rule(245, 210, 0) && RootOf(Table.values, 245, FamI2F)
  {
    assert Transforms[125] == Record(125);
    assert Values[245] == Value(245);
  }

  lemma Rooted127()
    ensures Table.transforms[127] == Rule(212, 199, 0) && RootOf(Table.values, 212, FamI2F)
  {
    assert Transforms[127] == Record(127);
    assert Values[212] == Value(212);
  }

  lemma Rooted128()
    ensures Table.transforms[128] == Rule(213, 205, 0) && RootOf(Table.values, 213, FamI2F)
  {
    assert Transforms[128] == Record(128);
    assert Values[213] == Value(213);
  }

  lemma Rooted129()
    ensures Table.transforms[129] == Rule(214, 211, 0) && RootOf(Table.values, 214, FamI2F)
  {
    assert Transforms[129] == Record(129);
    assert Values[214] == Value(214);
  }

  lemma Rooted130()
    ensures Table.transforms[130] == Rule(229, 225, 0) && RootOf(Table.values, 229, FamI2F)
  {
    assert Transforms[130] == Record(130);
    assert Values[229] == Value(229);
  }

  lemma Rooted131()
    ensures Table.transforms[131] == Rule(230, 204, 0) && RootOf(Table.values, 230, FamI2F)
  {
    assert Transforms[131] == Record(131);
    assert Values[230] == Value(230);
  }

  lemma Rooted132()
    ensures Table.transforms[132] == Rule(231, 228, 0) && RootOf(Table.values, 231, FamI2F)
  {
    assert Transforms[132] == Record(132);
    assert Values[231] == Value(231);
  }

  lemma Rooted133()
    ensures Table.transforms[133] == Rule(246, 242, 0) && RootOf(Table.values, 246, FamI2F)
  {
    assert Transforms[133] == Record(133);
    assert Values[246] == Value(246);
  }

  lemma Rooted134()
    ensures Table.transforms[134] == Rule(247, 244, 0) && RootOf(Table.values, 247, FamI2F)
  {
    assert Transforms[134] == Record(134);
    assert Values[247] == Value(247);
  }

  lemma Rooted135()
    ensures Table.transforms[135] == Rule(248, 210, 0) && RootOf(Table.values, 248, FamI2F)
  {
    assert Transforms[135] == Record(135);
    assert Values[248] == Value(248);
  }

  /** The run of state 6: records 1 to 9, all searching for `FamU2U`, closed by the sentinel at 10. */
  lemma Run1()
    ensures StartsRun(Table.transforms, 1) && RunRooted(Table, FamU2U, 6)
  {
    Sentinel0();
    Sentinel10();
    Rooted9();
    assert RootedRange(Table, FamU2U, 9, 10);
    Rooted8();
    assert RootedRange(Table, FamU2U, 8, 10);
    Rooted7();
    assert RootedRange(Table, FamU2U, 7, 10);
    Rooted6();
    assert RootedRange(Table, FamU2U, 6, 10);
    Rooted5();
    assert RootedRange(Table, FamU2U, 5, 10);
    Rooted4();
    assert RootedRange(Table, FamU2U, 4, 10);
    Rooted3();
    assert RootedRange(Table, FamU2U, 3, 10);
    Rooted2();
    assert RootedRange(Table, FamU2U, 2, 10);
    Rooted1();
    assert RootedRange(Table, FamU2U, 1, 10);
    RunRootedAt(Table, FamU2U, 6, 10);
  }

  /** The run of state 7: records 11 to 19, all searching for `FamU2U`, closed by the sentinel at 20. */
  lemma Run11()
    ensures StartsRun(Table.transforms, 11) && RunRooted(Table, FamU2U, 7)
  {
    Sentinel10();
    Sentinel20();
    Rooted19();
    assert RootedRange(Table, FamU2U, 19, 20);
    Rooted18();
    assert RootedRange(Table, FamU2U, 18, 20);
    Rooted17();
    assert RootedRange(Table, FamU2U, 17, 20);
    Rooted16();
    assert RootedRange(Table, FamU2U, 16, 20);
    Rooted15();
    assert RootedRange(Table, FamU2U, 15, 20);
    Rooted14();
    assert RootedRange(Table, FamU2U, 14, 20);
    Rooted13();
    assert RootedRange(Table, FamU2U, 13, 20);
    Rooted12();
    assert RootedRange(Table, FamU2U, 12, 20);
    Rooted11();
    assert RootedRange(Table, FamU2U, 11, 20);
    RunRootedAt(Table, FamU2U, 7, 20);
  }

  /** The run of state 8: records 21 to 23, all searching for `FamU2U`, closed by the sentinel at 24. */
  lemma Run21()
    ensures StartsRun(Table.transforms, 21) && RunRooted(Table, FamU2U, 8)
  {
    Sentinel20();
    Sentinel24();
    Rooted23();
    assert RootedRange(Table, FamU2U, 23, 24);
    Rooted22();
    assert RootedRange(Table, FamU2U, 22, 24);
    Rooted21();
    assert RootedRange(Table, FamU2U, 21, 24);
    RunRootedAt(Table, FamU2U, 8, 24);
  }

  /** The run of state 9: records 25 to 27, all searching for `FamU2U`, closed by the sentinel at 28. */
  lemma Run25()
    ensures StartsRun(Table.transforms, 25) && RunRooted(Table, FamU2U, 9)
  {
    Sentinel24();
    Sentinel28();
    Rooted27();
    assert RootedRange(Table, FamU2U, 27, 28);
    Rooted26();
    assert RootedRange(Table, FamU2U, 26, 28);
    Rooted25();
    assert RootedRange(Table, FamU2U, 25, 28);
    RunRootedAt(Table, FamU2U, 9, 28);
  }

  /** The run of state 10: records 29 to 37, all searching for `FamI2I`, closed by the sentinel at 38. */
  lemma Run29()
    ensures StartsRun(Table.transforms, 29) && RunRooted(Table, FamI2I, 10)
  {
    Sentinel28();
    Sentinel38();
    Rooted37();
    assert RootedRange(Table, FamI2I, 37, 38);
    Rooted36();
    assert RootedRange(Table, FamI2I, 36, 38);
    Rooted35();
    assert RootedRange(Table, FamI2I, 35, 38);
    Rooted34();
    assert RootedRange(Table, FamI2I, 34, 38);
    Rooted33();
    assert RootedRange(Table, FamI2I, 33, 38);
    Rooted32();
    assert RootedRange(Table, FamI2I, 32, 38);
    Rooted31();
    assert RootedRange(Table, FamI2I, 31, 38);
    Rooted30();
    assert RootedRange(Table, FamI2I, 30, 38);
    Rooted29();
    assert RootedRange(Table, FamI2I, 29, 38);
    RunRootedAt(Table, FamI2I, 10, 38);
  }

  /** The run of state 11: records 39 to 47, all searching for `FamI2I`, closed by the sentinel at 48. */
  lemma Run39()
    ensures StartsRun(Table.transforms, 39) && RunRooted(Table, FamI2I, 11)
  {
    Sentinel38();
    Sentinel48();
    Rooted47();
    assert RootedRange(Table, FamI2I, 47, 48);
    Rooted46();
    assert RootedRange(Table, FamI2I, 46, 48);
    Rooted45();
    assert RootedRange(Table, FamI2I, 45, 48);
    Rooted44();
    assert RootedRange(Table, FamI2I, 44, 48);
    Rooted43();
    assert RootedRange(Table, FamI2I, 43, 48);
    Rooted42();
    assert RootedRange(Table, FamI2I, 42, 48);
    Rooted41();
    assert RootedRange(Table, FamI2I, 41, 48);
    Rooted40();
    assert RootedRange(Table, FamI2I, 40, 48);
    Rooted39();
    assert RootedRange(Table, FamI2I, 39, 48);
    RunRootedAt(Table, FamI2I, 11, 48);
  }

  /** The run of state 12: records 49 to 51, all searching for `FamI2I`, closed by the sentinel at 52. */
  lemma Run49()
    ensures StartsRun(Table.transforms, 49) && RunRooted(Table, FamI2I, 12)
  {
    Sentinel48();
    Sentinel52();
    Rooted51();
    assert RootedRange(Table, FamI2I, 51, 52);
    Rooted50();
    assert RootedRange(Table, FamI2I, 50, 52);
    Rooted49();
    assert RootedRange(Table, FamI2I, 49, 52);
    RunRootedAt(Table, FamI2I, 12, 52);
  }

  /** The run of state 13: records 53 to 55, all searching for `FamI2I`, closed by the sentinel at 56. */
  lemma Run53()
    ensures StartsRun(Table.transforms, 53) && RunRooted(Table, FamI2I, 13)
  {
    Sentinel52();
    Sentinel56();
    Rooted55();
    assert RootedRange(Table, FamI2I, 55, 56);
    Rooted54();
    assert RootedRange(Table, FamI2I, 54, 56);
    Rooted53();
    assert RootedRange(Table, FamI2I, 53, 56);
    RunRootedAt(Table, FamI2I, 13, 56);
  }

  /** The run of state 14: records 57 to 65, all searching for `FamU2F`, closed by the sentinel at 66. */
  lemma Run57()
    ensures StartsRun(Table.transforms, 57) && RunRooted(Table, FamU2F, 14)
  {
    Sentinel56();
    Sentinel66();
    Rooted65();
    assert RootedRange(Table, FamU2F, 65, 66);
    Rooted64();
    assert RootedRange(Table, FamU2F, 64, 66);
    Rooted63();
    assert RootedRange(Table, FamU2F, 63, 66);
    Rooted62();
    assert RootedRange(Table, FamU2F, 62, 66);
    Rooted61();
    assert RootedRange(Table, FamU2F, 61, 66);
    Rooted60();
    assert RootedRange(Table, FamU2F, 60, 66);
    Rooted59();
    assert RootedRange(Table, FamU2F, 59, 66);
    Rooted58();
    assert RootedRange(Table, FamU2F, 58, 66);
    Rooted57();
    assert RootedRange(Table, FamU2F, 57, 66);
    RunRootedAt(Table, FamU2F, 14, 66);
  }

  /** The run of state 15: records 67 to 75, all searching for `FamU2F`, closed by the sentinel at 76. */
  lemma Run67()
    ensures StartsRun(Table.transforms, 67) && RunRooted(Table, FamU2F, 15)
  {
    Sentinel66();
    Sentinel76();
    Rooted75();
    assert RootedRange(Table, FamU2F, 75, 76);
    Rooted74();
    assert RootedRange(Table, FamU2F, 74, 76);
    Rooted73();
    assert RootedRange(Table, FamU2F, 73, 76);
    Rooted72();
    assert RootedRange(Table, FamU2F, 72, 76);
    Rooted71();
    assert RootedRange(Table, FamU2F, 71, 76);
    Rooted70();
    assert RootedRange(Table, FamU2F, 70, 76);
    Rooted69();
    assert RootedRange(Table, FamU2F, 69, 76);
    Rooted68();
    assert RootedRange(Table, FamU2F, 68, 76);
    Rooted67();
    assert RootedRange(Table, FamU2F, 67, 76);
    RunRootedAt(Table, FamU2F, 15, 76);
  }

  /** The run of state 16: records 77 to 85, all searching for `FamU2F`, closed by the sentinel at 86. */
  lemma Run77()
    ensures StartsRun(Table.transforms, 77) && RunRooted(Table, FamU2F, 16)
  {
    Sentinel76();
    Sentinel86();
    Rooted85();
    assert RootedRange(Table, FamU2F, 85, 86);
    Rooted84();
    assert RootedRange(Table, FamU2F, 84, 86);
    Rooted83();
    assert RootedRange(Table, FamU2F, 83, 86);
    Rooted82();
    assert RootedRange(Table, FamU2F, 82, 86);
    Rooted81();
    assert RootedRange(Table, FamU2F, 81, 86);
    Rooted80();
    assert RootedRange(Table, FamU2F, 80, 86);
    Rooted79();
    assert RootedRange(Table, FamU2F, 79, 86);
    Rooted78();
    assert RootedRange(Table, FamU2F, 78, 86);
    Rooted77();
    assert RootedRange(Table, FamU2F, 77, 86);
    RunRootedAt(Table, FamU2F, 16, 86);
  }

  /** The run of state 17: records 87 to 95, all searching for `FamU2F`, closed by the sentinel at 96. */
  lemma Run87()
    ensures StartsRun(Table.transforms, 87) && RunRooted(Table, FamU2F, 17)
  {
    Sentinel86();
    Sentinel96();
    Rooted95();
    assert RootedRange(Table, FamU2F, 95, 96);
    Rooted94();
    assert RootedRange(Table, FamU2F, 94, 96);
    Rooted93();
    assert RootedRange(Table, FamU2F, 93, 96);
    Rooted92();
    assert RootedRange(Table, FamU2F, 92, 96);
    Rooted91();
    assert RootedRange(Table, FamU2F, 91, 96);
    Rooted90();
    assert RootedRange(Table, FamU2F, 90, 96);
    Rooted89();
    assert RootedRange(Table, FamU2F, 89, 96);
    Rooted88();
    assert RootedRange(Table, FamU2F, 88, 96);
    Rooted87();
    assert RootedRange(Table, FamU2F, 87, 96);
    RunRootedAt(Table, FamU2F, 17, 96);
  }

  /** The run of state 18: records 97 to 105, all searching for `FamI2F`, closed by the sentinel at 106. */
  lemma Run97()
    ensures StartsRun(Table.transforms, 97) && RunRooted(Table, FamI2F, 18)
  {
    Sentinel96();
    Sentinel106();
    Rooted105();
    assert RootedRange(Table, FamI2F, 105, 106);
    Rooted104();
    assert RootedRange(Table, FamI2F, 104, 106);
    Rooted103();
    assert RootedRange(Table, FamI2F, 103, 106);
    Rooted102();
    assert RootedRange(Table, FamI2F, 102, 106);
    Rooted101();
    assert RootedRange(Table, FamI2F, 101, 106);
    Rooted100();
    assert RootedRange(Table, FamI2F, 100, 106);
    Rooted99();
    assert RootedRange(Table, FamI2F, 99, 106);
    Rooted98();
    assert RootedRange(Table, FamI2F, 98, 106);
    Rooted97();
    assert RootedRange(Table, FamI2F, 97, 106);
    RunRootedAt(Table, FamI2F, 18, 106);
  }

  /** The run of state 19: records 107 to 115, all searching for `FamI2F`, closed by the sentinel at 116. */
  lemma Run107()
    ensures StartsRun(Table.transforms, 107) && RunRooted(Table, FamI2F, 19)
  {
    Sentinel106();
    Sentinel116();
    Rooted115();
    assert RootedRange(Table, FamI2F, 115, 116);
    Rooted114();
    assert RootedRange(Table, FamI2F, 114, 116);
    Rooted113();
    assert RootedRange(Table, FamI2F, 113, 116);
    Rooted112();
    assert RootedRange(Table, FamI2F, 112, 116);
    Rooted111();
    assert RootedRange(Table, FamI2F, 111, 116);
    Rooted110();
    assert RootedRange(Table, FamI2F, 110, 116);
    Rooted109();
    assert RootedRange(Table, FamI2F, 109, 116);
    Rooted108();
    assert RootedRange(Table, FamI2F, 108, 116);
    Rooted107();
    assert RootedRange(Table, FamI2F, 107, 116);
    RunRootedAt(Table, FamI2F, 19, 116);
  }

  /** The run of state 20: records 117 to 125, all searching for `FamI2F`, closed by the sentinel at 126. */
  lemma Run117()
    ensures StartsRun(Table.transforms, 117) && RunRooted(Table, FamI2F, 20)
  {
    Sentinel116();
    Sentinel126();
    Rooted125();
    assert RootedRange(Table, FamI2F, 125, 126);
    Rooted124();
    assert RootedRange(Table, FamI2F, 124, 126);
    Rooted123();
    assert RootedRange(Table, FamI2F, 123, 126);
    Rooted122();
    assert RootedRange(Table, FamI2F, 122, 126);
    Rooted121();
    assert RootedRange(Table, FamI2F, 121, 126);
    Rooted120();
    assert RootedRange(Table, FamI2F, 120, 126);
    Rooted119();
    assert RootedRange(Table, FamI2F, 119, 126);
    Rooted118();
    assert RootedRange(Table, FamI2F, 118, 126);
    Rooted117();
    assert RootedRange(Table, FamI2F, 117, 126);
    RunRootedAt(Table, FamI2F, 20, 126);
  }

  /** The run of state 21: records 127 to 135, all searching for `FamI2F`, closed by the sentinel at 136. */
  lemma Run127()
    ensures StartsRun(Table.transforms, 127) && RunRooted(Table, FamI2F, 21)
  {
    Sentinel126();
    Sentinel136();
    Rooted135();
    assert RootedRange(Table, FamI2F, 135, 136);
    Rooted134();
    assert RootedRange(Table, FamI2F, 134, 136);
    Rooted133();
    assert RootedRange(Table, FamI2F, 133, 136);
    Rooted132();
    assert RootedRange(Table, FamI2F, 132, 136);
    Rooted131();
    assert RootedRange(Table, FamI2F, 131, 136);
    Rooted130();
    assert RootedRange(Table, FamI2F, 130, 136);
    Rooted129();
    assert RootedRange(Table, FamI2F, 129, 136);
    Rooted128();
    assert RootedRange(Table, FamI2F, 128, 136);
    Rooted127();
    assert RootedRange(Table, FamI2F, 127, 136);
    RunRootedAt(Table, FamI2F, 21, 136);
  }

  /** Both ends are sentinels, states 0 and 1 have no rules, and every other offset starts a run. */
  lemma TableRunsDelimited()
    ensures RunsDelimited(Table)
  {
    Sentinel0();
    Sentinel136();
    Run1();
    Run11();
    Run21();
    Run25();
    Run29();
    Run39();
    Run49();
    Run53();
    Run57();
    Run67();
    Run77();
    Run87();
    Run97();
    Run107();
    Run117();
    Run127();
    assert OffsetsStartRuns(Table.transforms, TransformOffsets, 21);
    assert OffsetsStartRuns(Table.transforms, TransformOffsets, 20);
    assert OffsetsStartRuns(Table.transforms, TransformOffsets, 19);
    assert OffsetsStartRuns(Table.transforms, TransformOffsets, 18);
    assert OffsetsStartRuns(Table.transforms, TransformOffsets, 17);
    assert OffsetsStartRuns(Table.transforms, TransformOffsets, 16);
    assert OffsetsStartRuns(Table.transforms, TransformOffsets, 15);
    assert OffsetsStartRuns(Table.transforms, TransformOffsets, 14);
    assert OffsetsStartRuns(Table.transforms, TransformOffsets, 13);
    assert OffsetsStartRuns(Table.transforms, TransformOffsets, 12);
    assert OffsetsStartRuns(Table.transforms, TransformOffsets, 11);
    assert OffsetsStartRuns(Table.transforms, TransformOffsets, 10);
    assert OffsetsStartRuns(Table.transforms, TransformOffsets, 9);
    assert OffsetsStartRuns(Table.transforms, TransformOffsets, 8);
    assert OffsetsStartRuns(Table.transforms, TransformOffsets, 7);
    assert OffsetsStartRuns(Table.transforms, TransformOffsets, 6);
    assert OffsetsStartRuns(Table.transforms, TransformOffsets, 5);
    assert OffsetsStartRuns(Table.transforms, TransformOffsets, 4);
    assert OffsetsStartRuns(Table.transforms, TransformOffsets, 3);
    assert OffsetsStartRuns(Table.transforms, TransformOffsets, 2);
    assert OffsetsStartRuns(Table.transforms, TransformOffsets, 1);
    assert OffsetsStartRuns(Table.transforms, TransformOffsets, 0);
  }

  lemma U2uRooted()
    ensures FamilyRooted(Table, FamU2U, U2uDispatch.table, 0)
  {
    Sentinel0();
    EmptyRunRooted(Table, FamU2U, 2);
    Run1();
    Run11();
    Run21();
    Run25();
    assert FamilyRooted(Table, FamU2U, U2uDispatch.table, 4);
    assert FamilyRooted(Table, FamU2U, U2uDispatch.table, 3);
    assert FamilyRooted(Table, FamU2U, U2uDispatch.table, 2);
    assert FamilyRooted(Table, FamU2U, U2uDispatch.table, 1);
    assert FamilyRooted(Table, FamU2U, U2uDispatch.table, 0);
  }

  lemma I2iRooted()
    ensures FamilyRooted(Table, FamI2I, I2iDispatch.table, 0)
  {
    Sentinel0();
    EmptyRunRooted(Table, FamI2I, 3);
    Run29();
    Run39();
    Run49();
    Run53();
    assert FamilyRooted(Table, FamI2I, I2iDispatch.table, 4);
    assert FamilyRooted(Table, FamI2I, I2iDispatch.table, 3);
    assert FamilyRooted(Table, FamI2I, I2iDispatch.table, 2);
    assert FamilyRooted(Table, FamI2I, I2iDispatch.table, 1);
    assert FamilyRooted(Table, FamI2I, I2iDispatch.table, 0);
  }

  lemma F2uRooted()
    ensures FamilyRooted(Table, FamF2U, F2uDispatch.table, 0)
  {
    Sentinel0();
    EmptyRunRooted(Table, FamF2U, 4);
    assert FamilyRooted(Table, FamF2U, F2uDispatch.table, 0);
  }

  lemma F2iRooted()
    ensures FamilyRooted(Table, FamF2I, F2iDispatch.table, 0)
  {
    Sentinel0();
    EmptyRunRooted(Table, FamF2I, 5);
    assert FamilyRooted(Table, FamF2I, F2iDispatch.table, 0);
  }

  lemma U2fRooted()
    ensures FamilyRooted(Table, FamU2F, U2fDispatch.table, 0)
  {
    Sentinel0();
    EmptyRunRooted(Table, FamU2F, 0);
    Run57();
    Run67();
    Run77();
    Run87();
    assert FamilyRooted(Table, FamU2F, U2fDispatch.table, 4);
    assert FamilyRooted(Table, FamU2F, U2fDispatch.table, 3);
    assert FamilyRooted(Table, FamU2F, U2fDispatch.table, 2);
    assert FamilyRooted(Table, FamU2F, U2fDispatch.table, 1);
    assert FamilyRooted(Table, FamU2F, U2fDispatch.table, 0);
  }

  lemma I2fRooted()
    ensures FamilyRooted(Table, FamI2F, I2fDispatch.table, 0)
  {
    Sentinel0();
    EmptyRunRooted(Table, FamI2F, 0);
    Run97();
    Run107();
    Run117();
    Run127();
    assert FamilyRooted(Table, FamI2F, I2fDispatch.table, 4);
    assert FamilyRooted(Table, FamI2F, I2fDispatch.table, 3);
    assert FamilyRooted(Table, FamI2F, I2fDispatch.table, 2);
    assert FamilyRooted(Table, FamI2F, I2fDispatch.table, 1);
    assert FamilyRooted(Table, FamI2F, I2fDispatch.table, 0);
  }

  /** Every run a family's table leads to holds rules for that family only. */
  lemma TableRootsInFamily()
    ensures RootsInFamily(Table)
  {
    U2uRooted();
    I2iRooted();
    F2uRooted();
    F2iRooted();
    U2fRooted();
    I2fRooted();
    assert TablesRooted(Table, OpTables, 5);
    assert TablesRooted(Table, OpTables, 4);
    assert TablesRooted(Table, OpTables, 3);
    assert TablesRooted(Table, OpTables, 2);
    assert TablesRooted(Table, OpTables, 1);
    assert TablesRooted(Table, OpTables, 0);
  }

  /**
    The pass only applies to an instruction a rule whose search root is of that
    instruction's opcode family and matches without swapping sources.
  */
  lemma ChosenInOwnFamily(e: Term)
    ensures WellFormed(Table, |Flags|)
    ensures Chosen(Table, Flags, e).Some? ==>
      e.Alu? && RootOf(Values, Transforms[Chosen(Table, Flags, e).value].search, KeyOf(e.op))
  {
    TableWellFormed();
    TableRunsDelimited();
    TableRootsInFamily();
    if Chosen(Table, Flags, e).Some? {
      ChosenInFamily(Table, Flags, e);
    }
  }
}
