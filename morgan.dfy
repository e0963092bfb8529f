/**
 * The request-log line of src/config/morgan.ts: each part is wrapped in an ANSI colour
 * escape `ESC [ code m ... ESC [ 0 m`, and the status is coloured by its class.
 * The tokens morgan extracts from the request and response are passed in as values.
 */
module Morgan {
  import opened Wrappers
  import Text

  const Esc: char := '\U{1B}'

  /** The select-graphic-rendition escape `ESC [ code m`. */
  function Sgr(code: string): string {
    [Esc, '['] + code + "m"
  }

  const Reset: string := Sgr("0")

  function Paint(code: string, s: string): string {
    Sgr(code) + s + Reset
  }

  /** The colours the source uses for a status, and the escape code of each. */
  datatype Colour = Red | Yellow | Cyan | Green | Uncoloured

  function SgrCode(c: Colour): string {
    match c
    case Red => "31"
    case Yellow => "33"
    case Cyan => "36"
    case Green => "32"
    case Uncoloured => "0"
  }

  /** The colour of a status by its HTTP class (its hundreds digit). */
  function ClassColour(status: int): Colour {
    var c := status / 100;
    if c >= 5 then Red else if c == 4 then Yellow else if c == 3 then Cyan
    else if c == 2 then Green else Uncoloured
  }

  /** The text a terminal shows: every `ESC [ ... m` escape removed. */
  function StripAnsi(s: string): string
    decreases |s|
  {
    if |s| == 0 then ""
    else if s[0] == Esc then StripAnsi(AfterSgr(s[1..]))
    else [s[0]] + StripAnsi(s[1..])
  }

  /** What follows the `m` that ends an escape sequence. */
  function AfterSgr(s: string): (r: string)
    ensures |r| <= |s|
  {
    if |s| == 0 then "" else if s[0] == 'm' then s[1..] else AfterSgr(s[1..])
  }

  predicate StartsWith(s: string, prefix: string) {
    |prefix| <= |s| && s[..|prefix|] == prefix
  }

  /** `getStatusColor`: thresholds checked from the highest down. */
  function StatusColor(status: int): string {
    var d := Text.Decimal(status);
    if status >= 500 then Paint("31", d)
    else if status >= 400 then Paint("33", d)
    else if status >= 300 then Paint("36", d)
    else if status >= 200 then Paint("32", d)
    else Reset + d
  }

  /**
   * The coloured status shows as its decimal text; it opens with the escape of the
   * status's HTTP class, and only statuses from 200 up end with a reset.
   */
  lemma StatusColorSpec(status: int)
    ensures StripAnsi(StatusColor(status)) == Text.Decimal(status)
    ensures StartsWith(StatusColor(status), Sgr(SgrCode(ClassColour(status))))
    ensures Text.EndsWith(StatusColor(status), Reset) <==> status >= 200
  {
    var d := Text.Decimal(status);
    var r := StatusColor(status);
    var open := Sgr(SgrCode(ClassColour(status)));
    StripStatus(status, "");
    assert r + "" == r;
    assert r[..|open|] == open;
    if status >= 200 {
      StatusColorPainted(status);
      assert r == open + d + Reset;
      assert r[|r| - |Reset|..] == Reset;
    } else {
      DecimalIsPlain(status);
      assert r == Reset + d;
      assert r[|r| - 1] == d[|d| - 1] != 'm';
      assert Reset[|Reset| - 1] == 'm';
    }
  }

  /**
   * The log line `method url status length - time ms`; a response without a
   * content-length shows "0".
   */
  function FormatLine(verb: string, url: string, status: int, contentLength: Option<string>,
                      responseTime: string): string
  {
    Paint("34", verb) + (" " + (Paint("35", url) + (" " + (StatusColor(status) + (" "
      + (Paint("37", contentLength.GetOr("0")) + (" - " + Paint("37", responseTime + " ms"))))))))
  }

  /** What the terminal shows of the log line, for parts that hold no escape of their own. */
  lemma FormatLineVisibleText(verb: string, url: string, status: int,
                              contentLength: Option<string>, responseTime: string)
    requires Esc !in verb && Esc !in url && Esc !in responseTime
    requires contentLength.Some? ==> Esc !in contentLength.value
    ensures StripAnsi(FormatLine(verb, url, status, contentLength, responseTime))
      == verb + (" " + (url + (" " + (Text.Decimal(status) + (" " + (contentLength.GetOr("0")
         + (" - " + (responseTime + " ms"))))))))
  {
    var len := contentLength.GetOr("0");
    var time := responseTime + " ms";
    var t5 := Paint("37", time);
    StripPainted("37", time, "");
    assert t5 + "" == t5;
    var v5 := time;
    assert StripAnsi(t5) == v5;
    var t4 := " - " + t5;
    StripPlain(" - ", t5);
    var v4 := " - " + v5;
    assert StripAnsi(t4) == v4;
    var t3 := Paint("37", len) + t4;
    StripPainted("37", len, t4);
    var v3 := len + v4;
    assert StripAnsi(t3) == v3;
    var t2 := " " + t3;
    StripPlain(" ", t3);
    var v2 := " " + v3;
    assert StripAnsi(t2) == v2;
    var t1 := StatusColor(status) + t2;
    StripStatus(status, t2);
    var v1 := Text.Decimal(status) + v2;
    assert StripAnsi(t1) == v1;
    var t0 := " " + t1;
    StripPlain(" ", t1);
    var v0 := " " + v1;
    assert StripAnsi(t0) == v0;
    var tu := Paint("35", url) + t0;
    StripPainted("35", url, t0);
    var vu := url + v0;
    assert StripAnsi(tu) == vu;
    var ts := " " + tu;
    StripPlain(" ", tu);
    var vs := " " + vu;
    assert StripAnsi(ts) == vs;
    StripPainted("34", verb, ts);
    assert FormatLine(verb, url, status, contentLength, responseTime) == Paint("34", verb) + ts;
  }

  /** The coloured status shows as its decimal text, whatever follows it. */
  lemma StripStatus(status: int, b: string)
    ensures StripAnsi(StatusColor(status) + b) == Text.Decimal(status) + StripAnsi(b)
  {
    var d := Text.Decimal(status);
    DecimalIsPlain(status);
    if status >= 200 {
      StatusColorPainted(status);
      StripPainted(SgrCode(ClassColour(status)), d, b);
    } else {
      assert StatusColor(status) + b == Sgr("0") + (d + b);
      StripSgr("0", d + b);
      StripPlain(d, b);
    }
  }

  /** From 200 up, the status is painted in the colour of its class. */
  lemma StatusColorPainted(status: int)
    requires status >= 200
    ensures StatusColor(status) == Paint(SgrCode(ClassColour(status)), Text.Decimal(status))
  {
    var c := status / 100;
    if status >= 500 {
      assert c >= 5;
    } else if status >= 400 {
      assert c == 4;
    } else if status >= 300 {
      assert c == 3;
    } else {
      assert c == 2;
    }
  }

  lemma DecimalIsPlain(n: int)
    ensures Esc !in Text.Decimal(n) && 'm' !in Text.Decimal(n)
  {
    var d := Text.Decimal(n);
    Text.DecimalDigits(n);
    forall i | 0 <= i < |d|
      ensures d[i] != Esc && d[i] != 'm'
    {
      assert d[i] == '-' || Text.IsDigit(d[i]);
    }
  }

  lemma {:induction false} StripPlain(a: string, b: string)
    requires Esc !in a
    ensures StripAnsi(a + b) == a + StripAnsi(b)
  {
    if a != [] {
      assert (a + b)[0] == a[0] != Esc;
      assert (a + b)[1..] == a[1..] + b;
      StripPlain(a[1..], b);
      calc {
        StripAnsi(a + b);
        [a[0]] + StripAnsi(a[1..] + b);
        [a[0]] + (a[1..] + StripAnsi(b));
        { assert a == [a[0]] + a[1..]; }
        a + StripAnsi(b);
      }
    } else {
      assert a + b == b;
    }
  }

  lemma {:induction false} SkipCode(code: string, b: string)
    requires 'm' !in code
    ensures AfterSgr(code + "m" + b) == b
  {
    if code != [] {
      assert (code + "m" + b)[1..] == code[1..] + "m" + b;
      SkipCode(code[1..], b);
    } else {
      assert code + "m" + b == "m" + b;
    }
  }

  lemma StripSgr(code: string, b: string)
    requires 'm' !in code
    ensures StripAnsi(Sgr(code) + b) == StripAnsi(b)
  {
    var s := Sgr(code) + b;
    assert s[0] == Esc;
    assert s[1..] == "[" + code + "m" + b;
    SkipCode("[" + code, b);
    assert "[" + code + "m" + b == ("[" + code) + "m" + b;
  }

  lemma StripPainted(code: string, s: string, b: string)
    requires 'm' !in code && Esc !in s
    ensures StripAnsi(Paint(code, s) + b) == s + StripAnsi(b)
  {
    assert Paint(code, s) + b == Sgr(code) + (s + (Reset + b));
    StripSgr(code, s + (Reset + b));
    StripPlain(s, Reset + b);
    StripSgr("0", b);
  }
}
