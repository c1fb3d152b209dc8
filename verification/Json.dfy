/**
 A strict parser for JSON texts (RFC 8259), the yardstick for hand-written JSON.
 Strings follow section 7: raw control characters are refused, the escapes are the
 listed ones, and a \u escape of an unpaired surrogate decodes to U+FFFD.
 */
module Json {
  import opened Basics
  import opened Text

  datatype Value =
    | Null
    | Bool(b: bool)
    | Number(text: string)
    | Str(s: string)
    | Array(elems: seq<Value>)
    | Object(members: seq<(string, Value)>)

  function Ws(s: string): (r: string)
    ensures |r| <= |s|
  {
    if s != [] && s[0] in {' ', '\t', '\n', '\r'} then Ws(s[1..]) else s
  }

  predicate StartsWith(s: string, c: char) {
    s != [] && s[0] == c
  }

  /** Four hexadecimal digits. */
  function Hex4(s: string): (r: Option<(nat, string)>)
    ensures r.Some? ==> |s| >= 4 && r.value.0 < 0x10000 && r.value.1 == s[4..]
                        && forall i :: 0 <= i < 4 ==> IsHexDigit(s[i])
  {
    if |s| < 4 || !IsHexDigit(s[0]) || !IsHexDigit(s[1]) || !IsHexDigit(s[2]) || !IsHexDigit(s[3]) then None
    else
      var high := HexDigitValue(s[0]) * 16 + HexDigitValue(s[1]);
      var low := HexDigitValue(s[2]) * 16 + HexDigitValue(s[3]);
      Some((high * 256 + low, s[4..]))
  }

  const REPLACEMENT: char := '\U{FFFD}'

  /** The second half of a surrogate pair, if `s` starts with one. */
  function LowSurrogate(s: string): (r: Option<(nat, string)>)
    ensures r.Some? ==> |s| >= 6 && s[0] == '\\' && s[1] == 'u' && r.value.1 == s[6..]
                        && 0xDC00 <= r.value.0 < 0xE000 && forall i :: 2 <= i < 6 ==> IsHexDigit(s[i])
  {
    if |s| >= 2 && s[0] == '\\' && s[1] == 'u' && Hex4(s[2..]).Some? && 0xDC00 <= Hex4(s[2..]).value.0 < 0xE000
    then Some((Hex4(s[2..]).value.0, s[6..])) else None
  }

  /** What follows a backslash and the letter u. */
  function UnicodeEscape(s: string): (r: Option<(char, string)>)
    ensures r.Some? ==> Hex4(s).Some? && (r.value.1 == s[4..]
                        || (LowSurrogate(s[4..]).Some? && r.value.1 == LowSurrogate(s[4..]).value.1))
  {
    match Hex4(s)
    case None => None
    case Some((u, rest)) =>
      if u < 0xD800 || 0xE000 <= u then Some((u as char, rest))
      else if u < 0xDC00 && LowSurrogate(rest).Some?
      then Some(((0x10000 + (u - 0xD800) * 0x400 + (LowSurrogate(rest).value.0 - 0xDC00)) as char,
                 LowSurrogate(rest).value.1))
      else Some((REPLACEMENT, rest))
  }

  /** What follows a backslash. */
  function Escape(s: string): (r: Option<(char, string)>)
    ensures r.Some? ==> |r.value.1| < |s|
  {
    if s == [] then None else
      match s[0]
      case '\"' => Some(('\"', s[1..]))
      case '\\' => Some(('\\', s[1..]))
      case '/' => Some(('/', s[1..]))
      case 'b' => Some(('\U{8}', s[1..]))
      case 'f' => Some(('\U{C}', s[1..]))
      case 'n' => Some(('\n', s[1..]))
      case 'r' => Some(('\r', s[1..]))
      case 't' => Some(('\t', s[1..]))
      case 'u' => UnicodeEscape(s[1..])
      case _ => None
  }

  /** One character of a string, escaped or not. */
  function Unit(s: string): (r: Option<(char, string)>)
    requires s != [] && s[0] != '\"'
    ensures r.Some? ==> |r.value.1| < |s|
  {
    if s[0] == '\\' then Escape(s[1..]) else if s[0] < ' ' then None else Some((s[0], s[1..]))
  }

  /** The rest of a string after its opening quote. */
  function Chars(s: string): (r: Option<(string, string)>)
    ensures r.Some? ==> |r.value.1| < |s|
    decreases |s|
  {
    if s == [] then None
    else if s[0] == '\"' then Some(([], s[1..]))
    else
      match Unit(s)
      case None => None
      case Some((c, rest)) =>
        match Chars(rest)
        case None => None
        case Some((cs, rest')) => Some(([c] + cs, rest'))
  }

  function TakeDigits(s: string): (r: (string, string))
    ensures |r.1| <= |s| && (r.0 != [] ==> |r.1| < |s|)
  {
    if s != [] && IsDigit(s[0]) then var (ds, rest) := TakeDigits(s[1..]); ([s[0]] + ds, rest) else ([], s)
  }

  /** The fraction and exponent of a number. */
  function NumberTail(s: string): (r: Option<(string, string)>)
    ensures r.Some? ==> |r.value.1| <= |s|
  {
    if StartsWith(s, '.') then
      var (ds, rest) := TakeDigits(s[1..]);
      if ds == [] then None else
        match Exponent(rest)
        case None => None
        case Some((ex, rest')) => Some((['.'] + ds + ex, rest'))
    else Exponent(s)
  }

  function Exponent(s: string): (r: Option<(string, string)>)
    ensures r.Some? ==> |r.value.1| <= |s|
  {
    if !StartsWith(s, 'e') && !StartsWith(s, 'E') then Some(([], s)) else
      var t := s[1..];
      var sign := if StartsWith(t, '+') || StartsWith(t, '-') then [t[0]] else [];
      var (ds, rest) := TakeDigits(t[|sign|..]);
      if ds == [] then None else Some(([s[0]] + sign + ds, rest))
  }

  function ParseNumber(s: string): (r: Option<(Value, string)>)
    ensures r.Some? ==> |r.value.1| < |s|
  {
    var sign := if StartsWith(s, '-') then "-" else "";
    var (ds, rest) := TakeDigits(s[|sign|..]);
    if ds == [] || (|ds| > 1 && ds[0] == '0') then None else
      match NumberTail(rest)
      case None => None
      case Some((tail, rest')) => Some((Number(sign + ds + tail), rest'))
  }

  function Literal(s: string, word: string, v: Value): (r: Option<(Value, string)>)
    requires word != []
    ensures r.Some? ==> |r.value.1| < |s|
  {
    if |word| <= |s| && s[..|word|] == word then Some((v, s[|word|..])) else None
  }

  function ParseValue(s: string): (r: Option<(Value, string)>)
    ensures r.Some? ==> |r.value.1| < |s|
    decreases |s|, 0
  {
    if s == [] then None
    else if s[0] == '\"' then
      match Chars(s[1..])
      case None => None
      case Some((cs, rest)) => Some((Str(cs), rest))
    else if s[0] == '{' then
      var t := Ws(s[1..]);
      if StartsWith(t, '}') then Some((Object([]), t[1..])) else
        match Members(t)
        case None => None
        case Some((ms, rest)) => Some((Object(ms), rest))
    else if s[0] == '[' then
      var t := Ws(s[1..]);
      if StartsWith(t, ']') then Some((Array([]), t[1..])) else
        match Elements(t)
        case None => None
        case Some((vs, rest)) => Some((Array(vs), rest))
    else if s[0] == 't' then Literal(s, "true", Bool(true))
    else if s[0] == 'f' then Literal(s, "false", Bool(false))
    else if s[0] == 'n' then Literal(s, "null", Null)
    else ParseNumber(s)
  }

  /** One member and whatever follows it, up to the closing brace. */
  function Members(s: string): (r: Option<(seq<(string, Value)>, string)>)
    ensures r.Some? ==> |r.value.1| < |s|
    decreases |s|, 1
  {
    if !StartsWith(s, '\"') then None else
      match Chars(s[1..])
      case None => None
      case Some((name, rest)) =>
        if !StartsWith(Ws(rest), ':') then None else
          match ParseValue(Ws(Ws(rest)[1..]))
          case None => None
          case Some((v, rest')) =>
            var t := Ws(rest');
            if StartsWith(t, '}') then Some(([(name, v)], t[1..]))
            else if !StartsWith(t, ',') then None
            else
              match Members(Ws(t[1..]))
              case None => None
              case Some((ms, rest'')) => Some(([(name, v)] + ms, rest''))
  }

  function Elements(s: string): (r: Option<(seq<Value>, string)>)
    ensures r.Some? ==> |r.value.1| < |s|
    decreases |s|, 1
  {
    match ParseValue(s)
    case None => None
    case Some((v, rest)) =>
      var t := Ws(rest);
      if StartsWith(t, ']') then Some(([v], t[1..]))
      else if !StartsWith(t, ',') then None
      else
        match Elements(Ws(t[1..]))
        case None => None
        case Some((vs, rest')) => Some(([v] + vs, rest'))
  }

  /** A whole JSON text: one value, nothing after it but white space. */
  function Parse(s: string): Option<Value> {
    match ParseValue(Ws(s))
    case None => None
    case Some((v, rest)) => if Ws(rest) == [] then Some(v) else None
  }
}
