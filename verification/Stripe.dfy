/**
 `VerifyStripe` of `sig/hmac/stripe.go`: the parse of a Stripe-Signature header, the
 int64 skew test, and the comparison of hex signatures with a MAC over "<ts>.<payload>".
 HMAC-SHA256 is the parameter `mac`, the clock the parameter `now`.
 */
module Stripe {
  import opened Basics
  import opened Text

  datatype Verdict = Accepted | MalformedHeader | MissingTimestamp | MissingV1 | TimestampExpired | SignatureMismatch

  type Mac = (Bytes, Bytes) -> Bytes

  // ------------------------------------------------------------ header parts

  const T_KEY := "t"
  const V1_KEY := "v1"

  /** The key and value of one header part, or None when it has no "=". */
  function KeyValue(part: string): Option<(string, string)> {
    Cut(TrimSpace(part), '=')
  }

  predicate HasKey(part: string, key: string) {
    KeyValue(part).Some? && KeyValue(part).value.0 == key
  }

  /** The value of the last part with key t, or "" when there is none. */
  function LastT(parts: seq<string>): string {
    if parts == [] then ""
    else
      var last := parts[|parts| - 1];
      if HasKey(last, T_KEY) then KeyValue(last).value.1 else LastT(parts[..|parts| - 1])
  }

  /** The values of the v1 parts, in order. */
  function V1s(parts: seq<string>): seq<string> {
    if parts == [] then []
    else
      var last := parts[|parts| - 1];
      V1s(parts[..|parts| - 1]) + if HasKey(last, V1_KEY) then [KeyValue(last).value.1] else []
  }

  // --------------------------------------------------------------- the skew

  const TWO63: int := 0x8000_0000_0000_0000
  const TWO64: int := 0x1_0000_0000_0000_0000

  /** int64 arithmetic wraps around. */
  function Wrap64(n: int): (r: int)
    ensures IsInt64(r)
  {
    (n + TWO63) % TWO64 - TWO63
  }

  /** The absolute difference as int64 arithmetic computes it, negating a negative difference. */
  function Skew(now: int, ts: int): int {
    var d := Wrap64(now - ts);
    if d < 0 then Wrap64(-d) else d
  }

  /** The wrapped skew is the distance for every clock since 1970 and every ts less than 2^63 seconds before it. */
  lemma SkewIsDistance(now: int, ts: int)
    requires IsInt64(now) && IsInt64(ts) && now >= 0 && ts > now - TWO63
    ensures Skew(now, ts) == Abs(now - ts)
  {
  }

  /**
   The skew test agrees with the distance test exactly when the true difference is neither 2^63
   nor so close to 2^64 that it wraps into the tolerance window.
   */
  lemma SkewTestIff(now: int, ts: int, tolerance: int)
    requires IsInt64(now) && IsInt64(ts) && IsInt64(tolerance) && now >= 0 && tolerance > 0
    ensures ((Skew(now, ts) <= tolerance) == (Abs(now - ts) <= tolerance))
            <==> !(now - ts == TWO63 || now - ts >= TWO64 - tolerance)
  {
    var d := now - ts;
    if d > TWO63 {
      assert Wrap64(d) == d - TWO64;
      assert Skew(now, ts) == TWO64 - d;
    } else if d == TWO63 {
      assert Wrap64(d) == -TWO63;
      assert Skew(now, ts) == -TWO63;
    } else {
      SkewIsDistance(now, ts);
    }
  }

  /** The wrap is real: at every clock reading a timestamp 2^63 seconds old passes every tolerance. */
  lemma EarliestTimestampPasses(now: int, tolerance: int)
    requires IsInt64(now) && IsInt64(tolerance) && now >= 0 && tolerance > 0
    ensures IsInt64(now - TWO63) && Skew(now, now - TWO63) <= tolerance < Abs(now - (now - TWO63))
  {
    assert Wrap64(TWO63) == -TWO63;
  }

  // ------------------------------------------------------------- the framing

  function Ascii(s: string): Bytes
    requires forall i :: 0 <= i < |s| ==> s[i] as int < 128
  {
    seq(|s|, i requires 0 <= i < |s| => s[i] as int)
  }

  lemma DecimalIsAscii(n: int)
    ensures forall i :: 0 <= i < |Decimal(n)| ==> Decimal(n)[i] as int < 128 && Decimal(n)[i] != '.'
  {
  }

  const DOT: Byte := 46

  /** `fmt.Sprintf("%d.%s", ts, payload)` */
  function Framed(ts: int, payload: Bytes): Bytes {
    DecimalIsAscii(ts);
    Ascii(Decimal(ts)) + [DOT] + payload
  }

  /** The signed bytes: the decimal text of the timestamp, a dot, the payload. */
  lemma FramedBytes(ts: int, payload: Bytes)
    ensures var f, t := Framed(ts, payload), Decimal(ts);
            && |f| == |t| + 1 + |payload| && f[|t|] == '.' as int && f[|t| + 1..] == payload
            && forall i :: 0 <= i < |t| ==> f[i] == t[i] as int
  {
    DecimalIsAscii(ts);
  }

  /** The signed bytes determine the timestamp and the payload. */
  lemma FramingInjective(ts1: int, payload1: Bytes, ts2: int, payload2: Bytes)
    requires Framed(ts1, payload1) == Framed(ts2, payload2)
    ensures ts1 == ts2 && payload1 == payload2
  {
    DecimalIsAscii(ts1);
    DecimalIsAscii(ts2);
    var d1, d2 := Decimal(ts1), Decimal(ts2);
    var f1, f2 := Framed(ts1, payload1), Framed(ts2, payload2);
    assert f1[|d1|] == DOT && f2[|d2|] == DOT;
    assert forall i :: 0 <= i < |d1| ==> f1[i] == d1[i] as int;
    assert forall i :: 0 <= i < |d2| ==> f2[i] == d2[i] as int;
    assert |d1| == |d2|;
    assert forall i :: 0 <= i < |d1| ==> d1[i] == d2[i];
    assert d1 == d2;
    DecimalInjective(ts1, ts2);
    assert payload1 == f1[|d1| + 1..] && payload2 == f2[|d2| + 1..];
  }

  // ------------------------------------------------------------- signatures

  /** `hex.DecodeString` */
  function HexDecode(s: string): Option<Bytes> {
    if s == [] then Some([])
    else if |s| < 2 || !IsHexDigit(s[0]) || !IsHexDigit(s[1]) then None
    else
      match HexDecode(s[2..])
      case None => None
      case Some(bs) => Some([HexDigitValue(s[0]) * 16 + HexDigitValue(s[1])] + bs)
  }

  predicate Signs(sig: string, expected: Bytes) {
    HexDecode(sig) == Some(expected)
  }

  /** What the header says, parsed: the verdict depends on nothing else in it. */
  ghost predicate Accepts(t: string, v1s: seq<string>, payload: Bytes, secret: Bytes,
                          tolerance: int, now: int, mac: Mac) {
    && ParseInt64(t).Some?
    && var ts := ParseInt64(t).value;
       && (tolerance > 0 ==> Skew(now, ts) <= tolerance)
       && exists sig :: sig in v1s && Signs(sig, mac(secret, Framed(ts, payload)))
  }

  /** Which error a header that is not accepted gets, and with which timestamp. */
  function Rejection(header: string, t: string, v1s: seq<string>, tolerance: int, now: int): (int, Verdict) {
    if header == "" then (0, MalformedHeader)
    else if t == "" then (0, MissingTimestamp)
    else if v1s == [] then (0, MissingV1)
    else if ParseInt64(t).None? then (0, MalformedHeader)
    else
      var ts := ParseInt64(t).value;
      (ts, if tolerance > 0 && Skew(now, ts) > tolerance then TimestampExpired else SignatureMismatch)
  }

  /** The first loop of `VerifyStripe`: the last timestamp and every v1 candidate. */
  method ParseHeader(header: string) returns (tsStr: string, sigs: seq<string>)
    ensures tsStr == LastT(Split(header, ',')) && sigs == V1s(Split(header, ','))
  {
    var parts := Split(header, ',');
    tsStr, sigs := "", [];
    for i := 0 to |parts|
      invariant tsStr == LastT(parts[..i]) && sigs == V1s(parts[..i])
    {
      assert parts[..i + 1][..i] == parts[..i];
      var kv := KeyValue(parts[i]);
      if kv.Some? {
        if kv.value.0 == T_KEY {
          tsStr := kv.value.1;
        } else if kv.value.0 == V1_KEY {
          sigs := sigs + [kv.value.1];
        }
      }
    }
    assert parts[..|parts|] == parts;
  }

  /** The second loop: does any candidate decode to the expected MAC? */
  method AnySigns(sigs: seq<string>, expected: Bytes) returns (found: bool)
    ensures found <==> exists sig :: sig in sigs && Signs(sig, expected)
  {
    for i := 0 to |sigs|
      invariant forall j :: 0 <= j < i ==> !Signs(sigs[j], expected)
    {
      var got := HexDecode(sigs[i]);
      if got.Some? && got.value == expected {
        assert sigs[i] in sigs && Signs(sigs[i], expected);
        return true;
      }
    }
    found := false;
  }

  lemma EmptyHeaderHasNoT()
    ensures LastT(Split("", ',')) == ""
  {
  }

  /**
   Success if and only if the last t parses, the skew test passes or is off, and some v1 is the
   hex of the MAC of "<ts>.<payload>"; otherwise the error says which of these failed first.
   */
  method VerifyStripe(payload: Bytes, header: string, secret: Bytes, tolerance: int, now: int, mac: Mac)
    returns (ts: int, verdict: Verdict)
    ensures var t, v1s := LastT(Split(header, ',')), V1s(Split(header, ','));
            && (verdict == Accepted <==> Accepts(t, v1s, payload, secret, tolerance, now, mac))
            && (verdict == Accepted ==> ParseInt64(t) == Some(ts))
            && (verdict != Accepted ==> (ts, verdict) == Rejection(header, t, v1s, tolerance, now))
  {
    if header == "" {
      EmptyHeaderHasNoT();
      return 0, MalformedHeader;
    }
    var tsStr, sigs := ParseHeader(header);
    ts, verdict := Judge(payload, header, tsStr, sigs, secret, tolerance, now, mac);
  }

  /** The skew as the source computes it, in place. */
  method WrappedSkew(now: int, ts: int) returns (skew: int)
    ensures skew == Skew(now, ts)
  {
    skew := Wrap64(now - ts);
    if skew < 0 {
      skew := Wrap64(-skew);
    }
  }

  /** `VerifyStripe` after the header is parsed. */
  method Judge(payload: Bytes, header: string, tsStr: string, sigs: seq<string>, secret: Bytes,
               tolerance: int, now: int, mac: Mac) returns (ts: int, verdict: Verdict)
    requires header != ""
    ensures verdict == Accepted <==> Accepts(tsStr, sigs, payload, secret, tolerance, now, mac)
    ensures verdict == Accepted ==> ParseInt64(tsStr) == Some(ts)
    ensures verdict != Accepted ==> (ts, verdict) == Rejection(header, tsStr, sigs, tolerance, now)
  {
    if tsStr == "" {
      return 0, MissingTimestamp;
    }
    if sigs == [] {
      return 0, MissingV1;
    }
    var parsed := ParseInt64(tsStr);
    if parsed.None? {
      return 0, MalformedHeader;
    }
    ts := parsed.value;
    if tolerance > 0 {
      var skew := WrappedSkew(now, ts);
      if skew > tolerance {
        return ts, TimestampExpired;
      }
    }
    var found := AnySigns(sigs, mac(secret, Framed(ts, payload)));
    verdict := if found then Accepted else SignatureMismatch;
  }

  // ---------------------------------------------------------- independence

  predicate Ignored(part: string) {
    !HasKey(part, T_KEY) && !HasKey(part, V1_KEY)
  }

  /** A part that is neither t nor v1 changes nothing, wherever it stands. */
  lemma {:induction false} UnknownPartsIgnored(before: seq<string>, part: string, after: seq<string>)
    requires Ignored(part)
    ensures LastT(before + [part] + after) == LastT(before + after)
    ensures V1s(before + [part] + after) == V1s(before + after)
    decreases |after|
  {
    var all, less := before + [part] + after, before + after;
    if after == [] {
      assert all[..|all| - 1] == before && less == before;
    } else {
      var init := after[..|after| - 1];
      UnknownPartsIgnored(before, part, init);
      assert all[..|all| - 1] == before + [part] + init;
      assert less[..|less| - 1] == before + init;
      assert all[|all| - 1] == less[|less| - 1];
    }
  }

  lemma {:induction false} V1Members(parts: seq<string>, sig: string)
    ensures sig in V1s(parts) <==> exists p :: p in parts && HasKey(p, V1_KEY) && KeyValue(p).value.1 == sig
  {
    if parts != [] {
      var init, last := parts[..|parts| - 1], parts[|parts| - 1];
      V1Members(init, sig);
      assert parts == init + [last];
      if HasKey(last, V1_KEY) && KeyValue(last).value.1 == sig {
        assert last in parts;
      }
    }
  }

  /** Exactly one occurrence of a t part. */
  ghost predicate SingleT(parts: seq<string>, t: string) {
    && t in parts && HasKey(t, T_KEY)
    && (forall i, j :: 0 <= i < j < |parts| ==> !(HasKey(parts[i], T_KEY) && HasKey(parts[j], T_KEY)))
  }

  lemma {:induction false} LastTOfSingle(parts: seq<string>, t: string)
    requires SingleT(parts, t)
    ensures LastT(parts) == KeyValue(t).value.1
  {
    var init, last := parts[..|parts| - 1], parts[|parts| - 1];
    assert parts == init + [last];
    if !HasKey(last, T_KEY) {
      assert t in init;
      LastTOfSingle(init, t);
    }
  }

  /** The verdict, and the timestamp, are unmoved by reordering the parts of a header with one t. */
  lemma OrderIsIrrelevant(ps: seq<string>, qs: seq<string>, t: string,
                          payload: Bytes, secret: Bytes, tolerance: int, now: int, mac: Mac)
    requires SingleT(ps, t) && SingleT(qs, t) && multiset(ps) == multiset(qs)
    requires forall i :: 0 <= i < |ps| ==> ',' !in ps[i]
    ensures var h, k := Join(ps, ','), Join(qs, ',');
            && LastT(Split(h, ',')) == LastT(Split(k, ','))
            && (Accepts(LastT(Split(h, ',')), V1s(Split(h, ',')), payload, secret, tolerance, now, mac)
                <==> Accepts(LastT(Split(k, ',')), V1s(Split(k, ',')), payload, secret, tolerance, now, mac))
  {
    forall i | 0 <= i < |qs| ensures ',' !in qs[i] {
      assert qs[i] in multiset(ps);
    }
    SplitJoin(ps, ',');
    SplitJoin(qs, ',');
    LastTOfSingle(ps, t);
    LastTOfSingle(qs, t);
    assert forall p :: p in ps <==> p in multiset(ps);
    assert forall p :: p in qs <==> p in multiset(qs);
    forall sig ensures sig in V1s(ps) <==> sig in V1s(qs) {
      V1Members(ps, sig);
      V1Members(qs, sig);
    }
  }

  /** Adding unknown parts anywhere to a header leaves acceptance as it is. */
  lemma ExtraPartsAreIrrelevant(before: seq<string>, part: string, after: seq<string>,
                                payload: Bytes, secret: Bytes, tolerance: int, now: int, mac: Mac)
    requires Ignored(part) && before + after != []
    requires forall p :: p in before + [part] + after ==> ',' !in p
    ensures var h, k := Join(before + after, ','), Join(before + [part] + after, ',');
            Accepts(LastT(Split(h, ',')), V1s(Split(h, ',')), payload, secret, tolerance, now, mac)
            <==> Accepts(LastT(Split(k, ',')), V1s(Split(k, ',')), payload, secret, tolerance, now, mac)
  {
    assert forall p :: p in before + after ==> p in before + [part] + after;
    SplitJoin(before + after, ',');
    SplitJoin(before + [part] + after, ',');
    UnknownPartsIgnored(before, part, after);
  }

  // -------------------------------------------------------------- round trip

  function HexChar(v: nat): (c: char)
    requires v < 16
    ensures IsHexDigit(c) && HexDigitValue(c) == v
  {
    if v < 10 then ('0' as int + v) as char else ('a' as int + v - 10) as char
  }

  /** `hex.EncodeToString` */
  function HexEncode(bs: Bytes): (s: string)
    ensures forall i :: 0 <= i < |s| ==> IsHexDigit(s[i])
  {
    if bs == [] then [] else [HexChar(bs[0] / 16), HexChar(bs[0] % 16)] + HexEncode(bs[1..])
  }

  lemma HexByte(b: Byte)
    ensures HexDigitValue(HexChar(b / 16)) * 16 + HexDigitValue(HexChar(b % 16)) == b
  {
  }

  lemma {:induction false} HexRoundTrip(bs: Bytes)
    ensures HexDecode(HexEncode(bs)) == Some(bs)
  {
    if bs != [] {
      var rest := HexEncode(bs[1..]);
      HexRoundTrip(bs[1..]);
      HexByte(bs[0]);
      assert HexEncode(bs) == [HexChar(bs[0] / 16), HexChar(bs[0] % 16)] + rest;
      assert HexEncode(bs)[2..] == rest;
      assert [bs[0]] + bs[1..] == bs;
    }
  }

  /** The text with its hexadecimal letters in upper case. */
  function Upper(s: string): string {
    seq(|s|, i requires 0 <= i < |s| => if 'a' <= s[i] <= 'f' then (s[i] as int - 32) as char else s[i])
  }

  /** Signatures may be written in either case. */
  lemma {:induction false} HexCaseIrrelevant(s: string)
    ensures HexDecode(Upper(s)) == HexDecode(s)
    decreases |s|
  {
    if |s| >= 2 {
      HexCaseIrrelevant(s[2..]);
      assert Upper(s)[2..] == Upper(s[2..]);
      SameDigit(s[0]);
      SameDigit(s[1]);
    }
  }

  lemma SameDigit(c: char)
    ensures var d := Upper([c])[0];
            (IsHexDigit(d) <==> IsHexDigit(c)) && (IsHexDigit(c) ==> HexDigitValue(d) == HexDigitValue(c))
  {
  }

  /** A header part, with white space around it. */
  function Part(pad: string, key: string, value: string, pad': string): string {
    pad + (key + "=" + value) + pad'
  }

  lemma KeyValueOf(pad: string, key: string, value: string, pad': string)
    requires Blank(pad) && Blank(pad') && key != [] && !IsSpace(key[0]) && '=' !in key
    requires value == [] || !IsSpace(value[|value| - 1])
    ensures KeyValue(Part(pad, key, value, pad')) == Some((key, value))
  {
    var s := key + "=" + value;
    assert s[|s| - 1] == if value == [] then '=' else value[|value| - 1];
    TrimPadded(pad, s, pad');
    CutOf(key, '=', value);
  }

  /** Of several timestamps the last counts, and a signature is one more candidate, with or without white space. */
  lemma LaterPartsCount(parts: seq<string>, pad: string, value: string, pad': string)
    requires Blank(pad) && Blank(pad') && (value == [] || !IsSpace(value[|value| - 1]))
    ensures LastT(parts + [pad + ("t=" + value) + pad']) == value
    ensures V1s(parts + [pad + ("t=" + value) + pad']) == V1s(parts)
    ensures V1s(parts + [pad + ("v1=" + value) + pad']) == V1s(parts) + [value]
    ensures LastT(parts + [pad + ("v1=" + value) + pad']) == LastT(parts)
  {
    var t, v := pad + ("t=" + value) + pad', pad + ("v1=" + value) + pad';
    assert t == Part(pad, "t", value, pad') by {
      assert "t" + "=" + value == "t=" + value;
    }
    assert v == Part(pad, "v1", value, pad') by {
      assert "v1" + "=" + value == "v1=" + value;
    }
    KeyValueOf(pad, "t", value, pad');
    KeyValueOf(pad, "v1", value, pad');
    assert (parts + [t])[..|parts|] == parts && (parts + [v])[..|parts|] == parts;
  }

  lemma {:induction false} TextEnds(n: int, m: Bytes)
    ensures Decimal(n) != [] && !IsSpace(Decimal(n)[|Decimal(n)| - 1])
    ensures HexEncode(m) == [] || !IsSpace(HexEncode(m)[|HexEncode(m)| - 1])
    ensures ',' !in Decimal(n) && ',' !in HexEncode(m)
  {
    assert AllDigits(Digits(Abs(n)));
  }

  lemma NoComma(pad: string, key: string, value: string, pad': string)
    requires Blank(pad) && Blank(pad') && ',' !in key && ',' !in value
    ensures ',' !in pad + (key + value) + pad'
  {
  }

  /** The header a sender produces for a timestamp and a MAC, with white space where it likes. */
  function SignedHeader(ts: int, m: Bytes, a: string, b: string, c: string, d: string): string {
    a + ("t=" + Decimal(ts)) + b + "," + (c + ("v1=" + HexEncode(m)) + d)
  }

  lemma SignedHeaderParses(ts: int, m: Bytes, a: string, b: string, c: string, d: string)
    requires Blank(a) && Blank(b) && Blank(c) && Blank(d)
    ensures var parts := Split(SignedHeader(ts, m, a, b, c, d), ',');
            LastT(parts) == Decimal(ts) && V1s(parts) == [HexEncode(m)]
  {
    var t, v := a + ("t=" + Decimal(ts)) + b, c + ("v1=" + HexEncode(m)) + d;
    TextEnds(ts, m);
    assert Split(SignedHeader(ts, m, a, b, c, d), ',') == [t, v] by {
      assert Join([t, v], ',') == SignedHeader(ts, m, a, b, c, d);
      NoComma(a, "t=", Decimal(ts), b);
      NoComma(c, "v1=", HexEncode(m), d);
      SplitJoin([t, v], ',');
    }
    assert [] + [t] == [t] && [t] + [v] == [t, v];
    LaterPartsCount([], a, Decimal(ts), b);
    LaterPartsCount([t], c, HexEncode(m), d);
  }

  /** What a sender signs, the verifier accepts while it is fresh, and returns its timestamp. */
  lemma SignedHeaderAccepted(ts: int, payload: Bytes, secret: Bytes, tolerance: int, now: int, mac: Mac,
                             a: string, b: string, c: string, d: string)
    requires IsInt64(ts) && (tolerance > 0 ==> Skew(now, ts) <= tolerance)
    requires Blank(a) && Blank(b) && Blank(c) && Blank(d)
    ensures var parts := Split(SignedHeader(ts, mac(secret, Framed(ts, payload)), a, b, c, d), ',');
            && ParseInt64(LastT(parts)) == Some(ts)
            && Accepts(LastT(parts), V1s(parts), payload, secret, tolerance, now, mac)
  {
    var m := mac(secret, Framed(ts, payload));
    SignedHeaderParses(ts, m, a, b, c, d);
    ParseDecimal(ts);
    HexRoundTrip(m);
    assert Signs(HexEncode(m), m);
  }

  // ---------------------------------------------------------- in plain numbers

  /** Acceptance by the true distance in time, for every clock since 1970 and timestamp less than 2^63 seconds old. */
  lemma AcceptsMeans(t: string, v1s: seq<string>, payload: Bytes, secret: Bytes, tolerance: int, now: int, mac: Mac)
    requires ParseInt64(t).Some? && IsInt64(now) && now >= 0 && ParseInt64(t).value > now - TWO63
    ensures var ts := ParseInt64(t).value;
            Accepts(t, v1s, payload, secret, tolerance, now, mac) <==>
              && (tolerance <= 0 || (ts <= now + tolerance && now <= ts + tolerance))
              && exists sig :: sig in v1s && HexDecode(sig) == Some(mac(secret, Framed(ts, payload)))
  {
    var ts := ParseInt64(t).value;
    SkewIsDistance(now, ts);
    var expected := mac(secret, Framed(ts, payload));
    assert forall sig :: Signs(sig, expected) <==> HexDecode(sig) == Some(expected);
  }

  /** Which error comes first, and with which timestamp. */
  lemma RejectionMeans(header: string, t: string, v1s: seq<string>, tolerance: int, now: int)
    ensures header == "" ==> Rejection(header, t, v1s, tolerance, now) == (0, MalformedHeader)
    ensures header != "" && t == "" ==> Rejection(header, t, v1s, tolerance, now) == (0, MissingTimestamp)
    ensures header != "" && t != "" && v1s == [] ==> Rejection(header, t, v1s, tolerance, now) == (0, MissingV1)
    ensures header != "" && t != "" && v1s != [] && ParseInt64(t).None? ==>
              Rejection(header, t, v1s, tolerance, now) == (0, MalformedHeader)
    ensures header != "" && t != "" && v1s != [] && ParseInt64(t).Some? && IsInt64(now) && now >= 0
            && ParseInt64(t).value > now - TWO63 ==>
              var ts := ParseInt64(t).value;
              Rejection(header, t, v1s, tolerance, now)
              == (ts, if tolerance > 0 && (ts > now + tolerance || now > ts + tolerance) then TimestampExpired
                      else SignatureMismatch)
  {
    if ParseInt64(t).Some? && IsInt64(now) && now >= 0 && ParseInt64(t).value > now - TWO63 {
      SkewIsDistance(now, ParseInt64(t).value);
    }
  }
}
