/** Python `bytes` values and their `str()` rendering. */
module PyBytes {

  type byte = b: int | 0 <= b < 256

  function HexDigit(d: int): (c: char)
    requires 0 <= d < 16
    ensures ('0' <= c <= '9') || ('a' <= c <= 'f')
  {
    if d < 10 then ('0' as int + d) as char else ('a' as int + d - 10) as char
  }

  /** One byte inside a bytes literal delimited by `quote`. */
  function ByteRepr(x: byte, quote: char): (r: string)
    ensures 1 <= |r| <= 4
  {
    if x == quote as int || x == '\\' as int then ['\\', x as char]
    else if x == 9 then "\\t"
    else if x == 10 then "\\n"
    else if x == 13 then "\\r"
    else if x < 32 || x >= 127 then ['\\', 'x', HexDigit(x / 16), HexDigit(x % 16)]
    else [x as char]
  }

  function BytesReprBody(b: seq<byte>, quote: char): string
  {
    if b == [] then [] else ByteRepr(b[0], quote) + BytesReprBody(b[1..], quote)
  }

  /** `str(b)`, which is `repr(b)`: `b'…'`, or `b"…"` when the bytes hold a single quote and
      no double quote. */
  function Repr(b: seq<byte>): (r: string)
    ensures |r| >= 3 && r[0] == 'b' && (r[1] == '\'' || r[1] == '"') && r[|r| - 1] == r[1]
  {
    var quote := if '\'' as int in b && '"' as int !in b then '"' else '\'';
    "b" + [quote] + BytesReprBody(b, quote) + [quote]
  }
}
