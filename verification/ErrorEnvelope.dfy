/**
 `errorEnvelope` of `adapter/adapter.go`: a JSON object printed by hand. It escapes
 quotes and nothing else, so a strict parser reads the message back exactly when the
 message has no backslash and no control character.
 */
module ErrorEnvelope {
  import opened Basics
  import opened Json

  /** `strings.ReplaceAll(msg, "\"", "\\\"")` */
  function EscapeQuotes(msg: string): string {
    if msg == [] then [] else (if msg[0] == '\"' then ['\\', '\"'] else [msg[0]]) + EscapeQuotes(msg[1..])
  }

  const HEAD := "{\"error\":\""
  const TAIL := "\"}"

  function Envelope(msg: string): string {
    HEAD + EscapeQuotes(msg) + TAIL
  }

  /** What the parser has yet to read when it stands before `msg`. */
  function ToCome(msg: string): string {
    EscapeQuotes(msg) + TAIL
  }

  predicate Clean(msg: string) {
    forall i :: 0 <= i < |msg| ==> msg[i] != '\\' && msg[i] >= ' '
  }

  lemma ToComeCons(msg: string)
    requires msg != []
    ensures ToCome(msg) == (if msg[0] == '\"' then ['\\', '\"'] else [msg[0]]) + ToCome(msg[1..])
  {
  }

  /** A character other than quote and backslash at the front of the text is the message's own. */
  lemma FrontIsOwn(msg: string)
    requires ToCome(msg)[0] != '\\' && ToCome(msg)[0] != '\"'
    ensures msg != [] && ToCome(msg) == [msg[0]] + ToCome(msg[1..]) && ToCome(msg)[1..] == ToCome(msg[1..])
  {
  }

  /** Four hexadecimal digits at the front of the text are four characters of the message. */
  lemma HexIsOwn(msg: string)
    requires Hex4(ToCome(msg)).Some?
    ensures |msg| >= 4 && Hex4(ToCome(msg)).value.1 == ToCome(msg[4..])
  {
    var t := ToCome(msg);
    FrontIsOwn(msg);
    assert t[1..][0] == t[1];
    FrontIsOwn(msg[1..]);
    assert t[2..] == t[1..][1..] && t[2..][0] == t[2];
    assert msg[1..][1..] == msg[2..];
    FrontIsOwn(msg[2..]);
    assert t[3..] == t[2..][1..] && t[3..][0] == t[3];
    assert msg[2..][1..] == msg[3..];
    FrontIsOwn(msg[3..]);
    assert t[4..] == t[3..][1..];
    assert msg[3..][1..] == msg[4..];
  }

  lemma LowSurrogateIsOwn(msg: string)
    requires LowSurrogate(ToCome(msg)).Some?
    ensures |msg| >= 6 && LowSurrogate(ToCome(msg)).value.1 == ToCome(msg[6..])
  {
    var t := ToCome(msg);
    ToComeCons(msg);
    assert t[1] == 'u';
    assert t[1..] == ToCome(msg[1..]) && t[1..][0] == 'u';
    FrontIsOwn(msg[1..]);
    assert t[2..] == t[1..][1..] && msg[1..][1..] == msg[2..];
    HexIsOwn(msg[2..]);
    assert msg[2..][4..] == msg[6..] && t[2..][4..] == t[6..];
  }

  /**
   The parser at a backslash of the message: it fails, or it takes at least two characters of
   the message for one, or it is misled about a quote (the message's next, or the closing one).
   */
  lemma BackslashTaken(msg: string)
    requires msg != [] && msg[0] == '\\' && Unit(ToCome(msg)).Some?
    ensures var rest := Unit(ToCome(msg)).value.1;
            || (exists k :: 2 <= k <= |msg| && rest == ToCome(msg[k..]))
            || (|msg| >= 2 && rest == ['\"'] + ToCome(msg[2..]))
            || rest == "}"
  {
    var t := ToCome(msg);
    ToComeCons(msg);
    var u := t[1..];
    assert u == ToCome(msg[1..]);
    if |msg| == 1 {
      assert u == TAIL;
    } else {
      ToComeCons(msg[1..]);
      assert msg[1..][1..] == msg[2..] && msg[1..][0] == msg[1];
      if msg[1] == '\"' {
        assert u == ['\\', '\"'] + ToCome(msg[2..]);
        assert u[1..] == ['\"'] + ToCome(msg[2..]);
      } else {
        assert u[1..] == ToCome(msg[2..]);
        if msg[1] == 'u' {
          UnicodeTaken(msg[2..], u);
          var k :| 4 <= k <= |msg[2..]| && Escape(u).value.1 == ToCome(msg[2..][k..]);
          assert msg[2..][k..] == msg[k + 2..];
        }
      }
    }
  }

  lemma UnicodeTaken(msg: string, u: string)
    requires u == ['u'] + ToCome(msg) && Escape(u).Some?
    ensures exists k :: 4 <= k <= |msg| && Escape(u).value.1 == ToCome(msg[k..])
  {
    assert u[1..] == ToCome(msg);
    HexIsOwn(msg);
    if LowSurrogate(ToCome(msg[4..])).Some? {
      LowSurrogateIsOwn(msg[4..]);
      assert msg[4..][6..] == msg[10..];
    }
  }

  /** What can come of reading the message: failure, an early close, or everything up to the closing brace. */
  ghost predicate Outcome(msg: string, r: Option<(string, string)>) {
    match r
    case None => !Clean(msg)
    case Some((text, rest)) =>
      if Clean(msg) then text == msg && rest == "}"
      else (rest == "}" && |text| < |msg|) || (exists k :: 0 <= k <= |msg| && rest == ToCome(msg[k..]))
  }

  lemma CleanTail(msg: string)
    requires msg != []
    ensures Clean(msg) <==> msg[0] != '\\' && msg[0] >= ' ' && Clean(msg[1..])
  {
  }

  lemma {:induction false} CharsOutcome(msg: string)
    ensures Outcome(msg, Chars(ToCome(msg)))
    decreases |msg|
  {
    var t := ToCome(msg);
    if msg == [] {
      assert t == TAIL && t[1..] == "}";
    } else {
      ToComeCons(msg);
      CleanTail(msg);
      if msg[0] == '\\' {
        if Unit(t).Some? {
          BackslashOutcome(msg);
        }
      } else {
        CharsOutcome(msg[1..]);
        assert t[0] == '\\' ==> t[1..] == ['\"'] + ToCome(msg[1..]) && t[1..][1..] == ToCome(msg[1..]);
        assert t[0] != '\\' ==> t[1..] == ToCome(msg[1..]);
        if Chars(ToCome(msg[1..])).Some? && msg[0] >= ' ' {
          var (text, rest) := Chars(ToCome(msg[1..])).value;
          assert Chars(t) == Some(([msg[0]] + text, rest));
          if Clean(msg[1..]) {
            assert [msg[0]] + text == msg;
          } else if k :| 0 <= k <= |msg[1..]| && rest == ToCome(msg[1..][k..]) {
            assert msg[1..][k..] == msg[k + 1..];
          }
        }
      }
    }
  }

  lemma BackslashOutcome(msg: string)
    requires msg != [] && msg[0] == '\\' && Unit(ToCome(msg)).Some?
    ensures Outcome(msg, Chars(ToCome(msg)))
    decreases |msg|, 0
  {
    var t := ToCome(msg);
    ToComeCons(msg);
    CleanTail(msg);
    BackslashTaken(msg);
    var rest := Unit(t).value.1;
    if rest == "}" {
      assert rest[1..] == [];
    } else if |msg| >= 2 && rest == ['\"'] + ToCome(msg[2..]) {
      assert rest[1..] == ToCome(msg[2..]);
    } else {
      var k :| 2 <= k <= |msg| && rest == ToCome(msg[k..]);
      CharsOutcome(msg[k..]);
      if Chars(rest).Some? {
        var (text, rest') := Chars(rest).value;
        if j :| 0 <= j <= |msg[k..]| && rest' == ToCome(msg[k..][j..]) {
          assert msg[k..][j..] == msg[k + j..];
        }
      }
    }
  }

  // -------------------------------------------------- after an early close

  lemma {:induction false} WsStops(msg: string)
    ensures exists k :: 0 <= k <= |msg| && Ws(ToCome(msg)) == ToCome(msg[k..])
  {
    if msg == [] {
      assert msg[0..] == msg;
    } else {
      ToComeCons(msg);
      if msg[0] in {' ', '\t', '\n', '\r'} {
        WsStops(msg[1..]);
        var k :| 0 <= k <= |msg[1..]| && Ws(ToCome(msg[1..])) == ToCome(msg[1..][k..]);
        assert msg[1..][k..] == msg[k + 1..];
        assert ToCome(msg)[1..] == ToCome(msg[1..]);
      } else {
        assert msg[0..] == msg;
      }
    }
  }

  /** No member name can start here: the message's quotes are escaped and the last one opens nothing. */
  lemma NoMemberFollows(msg: string)
    ensures Members(ToCome(msg)) == None
  {
  }

  lemma TextNeverEmpty(msg: string)
    ensures Ws(ToCome(msg)) != []
  {
    WsStops(msg);
  }

  lemma HeadParses(msg: string)
    ensures Parse(Envelope(msg)) == match Members("\"error\":\"" + ToCome(msg))
                                    case None => None
                                    case Some((ms, rest)) => if Ws(rest) == [] then Some(Object(ms)) else None
  {
    var t := Envelope(msg);
    assert t[0] == '{';
    assert t[1..] == "\"error\":\"" + ToCome(msg);
  }

  lemma NameParses(msg: string)
    ensures Members("\"error\":\"" + ToCome(msg)) == match Chars(ToCome(msg))
                                                     case None => None
                                                     case Some((text, rest)) => AfterError(Str(text), Ws(rest))
  {
    var t := "\"error\":\"" + ToCome(msg);
    var value := "\"" + ToCome(msg);
    PlainParses("error", "\":" + value);
    assert t[1..] == "error" + ("\":" + value);
    assert ("\":" + value)[1..] == ":" + value;
    assert (":" + value)[1..] == value;
    assert value[1..] == ToCome(msg);
    assert Ws(":" + value) == ":" + value && Ws(value) == value;
  }

  /** The parser after the value of the member "error". */
  function AfterError(v: Value, t: string): Option<(seq<(string, Value)>, string)> {
    if StartsWith(t, '}') then Some(([("error", v)], t[1..]))
    else if !StartsWith(t, ',') then None
    else
      match Members(Ws(t[1..]))
      case None => None
      case Some((ms, rest)) => Some(([("error", v)] + ms, rest))
  }

  lemma {:induction false} PlainParses(name: string, rest: string)
    requires Clean(name) && '\"' !in name && StartsWith(rest, '\"')
    ensures Chars(name + rest) == Some((name, rest[1..]))
  {
    var s := name + rest;
    if name == [] {
      assert s == rest;
    } else {
      CleanTail(name);
      PlainParses(name[1..], rest);
      assert s[1..] == name[1..] + rest;
      assert [name[0]] + name[1..] == name;
    }
  }

  lemma EarlyCloseFails(msg: string, v: Value)
    ensures match AfterError(v, Ws(ToCome(msg)))
            case None => true
            case Some((_, rest)) => Ws(rest) != []
  {
    WsStops(msg);
    var k :| 0 <= k <= |msg| && Ws(ToCome(msg)) == ToCome(msg[k..]);
    var m := msg[k..];
    if m != [] {
      ToComeCons(m);
      if m[0] == '}' || m[0] == ',' {
        assert ToCome(m)[1..] == ToCome(m[1..]);
        TextNeverEmpty(m[1..]);
        WsStops(m[1..]);
        var j :| 0 <= j <= |m[1..]| && Ws(ToCome(m[1..])) == ToCome(m[1..][j..]);
        NoMemberFollows(m[1..][j..]);
      }
    }
  }

  // ------------------------------------------------------------------ theorems

  /**
   A strict parse of the envelope yields the message if and only if the message has no
   backslash and no character below U+0020.
   */
  lemma RoundTripIff(msg: string)
    ensures Parse(Envelope(msg)) == Some(Object([("error", Str(msg))])) <==> Clean(msg)
  {
    ParseOutcome(msg);
  }

  /** On any other message the parse fails, or the text it yields is strictly shorter. */
  lemma ParseOutcome(msg: string)
    ensures Clean(msg) ==> Parse(Envelope(msg)) == Some(Object([("error", Str(msg))]))
    ensures !Clean(msg) && Parse(Envelope(msg)).Some? ==>
              exists text :: Parse(Envelope(msg)) == Some(Object([("error", Str(text))])) && |text| < |msg|
  {
    HeadParses(msg);
    NameParses(msg);
    CharsOutcome(msg);
    if Chars(ToCome(msg)).Some? {
      var (text, rest) := Chars(ToCome(msg)).value;
      if rest == "}" {
        assert Ws(rest) == rest && rest[1..] == [];
      } else {
        var k :| 0 <= k <= |msg| && rest == ToCome(msg[k..]);
        EarlyCloseFails(msg[k..], Str(text));
      }
    }
  }
}
