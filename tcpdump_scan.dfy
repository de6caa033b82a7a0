/** Detection of fragmented packets in tcpdump's text output.
  *
  * The output is split into lines at '\n' and each line into pieces at ' '
  * (Python's `str.split` with an explicit one-character separator: empty
  * pieces are kept). A line with at least three pieces reports a packet
  * length in one of two places: after a final "length" piece
  * ("... length 1448"), or, when tcpdump appends the protocol of a well-known
  * port, in the piece before last with a trailing colon ("... length 1448: HTTP").
  * A packet longer than the MTU of 1500 bytes means a record was fragmented.
  */
module TcpdumpScan {
  import opened Wrappers

  /** The MTU of the device the capture ran on. */
  const Mtu := 1500

  /** Python's `int()` rejected a piece of text. */
  datatype ScanError = ValueError(text: string)

  // ---------------------------------------------------------------------
  // Python's str.split(sep) and its inverse, sep.join(pieces)
  // ---------------------------------------------------------------------

  /** `s.split(sep)`: the maximal runs between separators, empty ones included;
    * there is always one more piece than there are separators. */
  function Split(s: string, sep: char): (pieces: seq<string>)
    ensures |pieces| > 0
    decreases |s|
  {
    if s == [] then [""]
    else
      var rest := Split(s[1..], sep);
      if s[0] == sep then [""] + rest
      else [[s[0]] + rest[0]] + rest[1..]
  }

  /** `sep.join(pieces)`. */
  function Join(pieces: seq<string>, sep: char): string
    requires |pieces| > 0
    decreases |pieces|
  {
    if |pieces| == 1 then pieces[0]
    else pieces[0] + [sep] + Join(pieces[1..], sep)
  }

  /** No piece contains the separator. */
  predicate SeparatorFree(pieces: seq<string>, sep: char)
  {
    forall i :: 0 <= i < |pieces| ==> sep !in pieces[i]
  }

  /** The number of occurrences of `c` in `s`. */
  function Count(s: string, c: char): nat
  {
    if s == [] then 0 else (if s[0] == c then 1 else 0) + Count(s[1..], c)
  }

  /** Splitting yields exactly one piece more than there are separators. */
  lemma {:induction false} SplitCount(s: string, sep: char)
    ensures |Split(s, sep)| == Count(s, sep) + 1
    decreases |s|
  {
    if s != [] {
      SplitCount(s[1..], sep);
    }
  }

  /** Splitting and joining again gives back the text. */
  lemma {:induction false} JoinSplit(s: string, sep: char)
    ensures Join(Split(s, sep), sep) == s
    decreases |s|
  {
    if s != [] {
      var rest := Split(s[1..], sep);
      JoinSplit(s[1..], sep);
      if s[0] == sep {
        assert ([""] + rest)[1..] == rest;
      } else {
        var pieces := [[s[0]] + rest[0]] + rest[1..];
        if |rest| > 1 {
          assert pieces[1..] == rest[1..];
          assert Join(rest, sep) == rest[0] + [sep] + Join(rest[1..], sep);
        }
        assert Join(pieces, sep) == [s[0]] + Join(rest, sep);
        assert s == [s[0]] + s[1..];
      }
    }
  }

  /** A separator-free text followed by more text: its characters extend the
    * first piece of the rest. */
  lemma {:induction false} SplitFreePrefix(a: string, t: string, sep: char)
    requires sep !in a
    ensures Split(a + t, sep) == [a + Split(t, sep)[0]] + Split(t, sep)[1..]
    decreases |a|
  {
    if a != [] {
      assert (a + t)[0] == a[0];
      assert (a + t)[1..] == a[1..] + t;
      SplitFreePrefix(a[1..], t, sep);
      var rest := Split(t, sep);
      var tail := Split(a[1..] + t, sep);
      assert tail[0] == a[1..] + rest[0] && tail[1..] == rest[1..];
      assert [a[0]] + tail[0] == a + rest[0];
    } else {
      var rest := Split(t, sep);
      assert a + t == t && a + rest[0] == rest[0];
      assert rest == [rest[0]] + rest[1..];
    }
  }

  /** Joining separator-free pieces and splitting again gives back the pieces. */
  lemma {:induction false} SplitJoin(pieces: seq<string>, sep: char)
    requires |pieces| > 0 && SeparatorFree(pieces, sep)
    ensures Split(Join(pieces, sep), sep) == pieces
    decreases |pieces|
  {
    var a := pieces[0];
    if |pieces| == 1 {
      SplitFreePrefix(a, "", sep);
      assert a + "" == a;
    } else {
      var t := [sep] + Join(pieces[1..], sep);
      SplitJoin(pieces[1..], sep);
      assert Split(t, sep) == [""] + pieces[1..];
      assert a + [sep] + Join(pieces[1..], sep) == a + t;
      SplitFreePrefix(a, t, sep);
      assert a + "" == a;
    }
  }

  // ---------------------------------------------------------------------
  // Python's int() on a piece of text
  // ---------------------------------------------------------------------

  predicate IsDigit(c: char)
  {
    '0' <= c <= '9'
  }

  /** A non-empty run of ASCII decimal digits. */
  predicate IsDigits(s: string)
  {
    |s| > 0 && forall i :: 0 <= i < |s| ==> IsDigit(s[i])
  }

  function DigitValue(c: char): nat
    requires IsDigit(c)
  {
    c as int - '0' as int
  }

  /** The value of a run of decimal digits, most significant first. */
  function DecimalValue(s: string): nat
    requires forall i :: 0 <= i < |s| ==> IsDigit(s[i])
    decreases |s|
  {
    if s == [] then 0
    else DecimalValue(s[..|s| - 1]) * 10 + DigitValue(s[|s| - 1])
  }

  /** `int(s)` on an optional sign and decimal digits; anything else raises
    * ValueError (None). */
  function ParseInt(s: string): (r: Option<int>)
    ensures IsDigits(s) ==> r == Some(DecimalValue(s))
    ensures r.Some? && r.value > 0 ==> IsDigits(s) || (|s| > 1 && s[0] == '+' && IsDigits(s[1..]))
  {
    if IsDigits(s) then Some(DecimalValue(s))
    else if |s| > 1 && s[0] == '-' && IsDigits(s[1..]) then Some(0 - DecimalValue(s[1..]))
    else if |s| > 1 && s[0] == '+' && IsDigits(s[1..]) then Some(DecimalValue(s[1..]))
    else None
  }

  /** The decimal text of a natural number, as tcpdump prints a length. */
  function DecimalText(n: nat): (s: string)
    ensures IsDigits(s)
    decreases n
  {
    var digit := [('0' as int + n % 10) as char];
    if n < 10 then digit else DecimalText(n / 10) + digit
  }

  /** Reading back the decimal text of a number gives the number. */
  lemma {:induction false} DecimalRoundTrip(n: nat)
    ensures ParseInt(DecimalText(n)) == Some(n)
    decreases n
  {
    var s := DecimalText(n);
    assert DigitValue(s[|s| - 1]) == n % 10;
    if n >= 10 {
      DecimalRoundTrip(n / 10);
      assert s[..|s| - 1] == DecimalText(n / 10);
    } else {
      assert s[..|s| - 1] == [];
      assert DecimalValue(s) == DecimalValue([]) * 10 + DigitValue(s[0]);
    }
  }

  // ---------------------------------------------------------------------
  // One line, and the whole output
  // ---------------------------------------------------------------------

  /** `piece[:-1]`: everything but the last character ("" stays ""). */
  function DropLast(piece: string): (r: string)
    ensures piece == [] ==> r == []
    ensures piece != [] ==> piece == r + [piece[|piece| - 1]]
  {
    if piece == [] then [] else piece[..|piece| - 1]
  }

  /** The packet length a line reports: 0 for a line with fewer than three
    * pieces or with no "length" piece in either position; an error when the
    * piece in the chosen position is not an integer. */
  function LineLength(line: string): Result<int, ScanError>
  {
    var pieces := Split(line, ' ');
    var n := |pieces|;
    if n < 3 then Ok(0)
    else if pieces[n - 2] == "length" then
      match ParseInt(pieces[n - 1])
      case Some(v) => Ok(v)
      case None => Err(ValueError(pieces[n - 1]))
    else if pieces[n - 3] == "length" then
      match ParseInt(DropLast(pieces[n - 2]))
      case Some(v) => Ok(v)
      case None => Err(ValueError(DropLast(pieces[n - 2])))
    else Ok(0)
  }

  /** The line reports a packet longer than the MTU. */
  predicate Oversized(line: string)
  {
    LineLength(line).Ok? && LineLength(line).value > Mtu
  }

  /** The answer of the line-by-line scan: true at the first oversized line,
    * the error of the first unreadable length met before one, false when the
    * lines run out. */
  function Scan(lines: seq<string>): Result<bool, ScanError>
    decreases |lines|
  {
    if lines == [] then Ok(false)
    else match LineLength(lines[0])
      case Err(e) => Err(e)
      case Ok(len) => if len > Mtu then Ok(true) else Scan(lines[1..])
  }

  /** Some line is oversized, and every line before it reports a readable
    * length. */
  predicate OversizedBeforeError(lines: seq<string>)
  {
    exists k :: 0 <= k < |lines| && Oversized(lines[k]) && ReadableUpTo(lines, k)
  }

  /** Every line before position k reports a readable length. */
  predicate ReadableUpTo(lines: seq<string>, k: nat)
    requires k <= |lines|
  {
    forall j :: 0 <= j < k ==> LineLength(lines[j]).Ok?
  }

  /** Every line reports a readable length of at most the MTU. */
  predicate AllWithinMtu(lines: seq<string>)
  {
    forall k :: 0 <= k < |lines| ==> LineLength(lines[k]).Ok? && LineLength(lines[k]).value <= Mtu
  }

  /** The scan answers true exactly when some line is oversized and every
    * line before it reports a readable length. */
  lemma {:induction false} ScanTrueIff(lines: seq<string>)
    ensures Scan(lines) == Ok(true) <==> OversizedBeforeError(lines)
    decreases |lines|
  {
    if lines != [] {
      var rest := lines[1..];
      ScanTrueIff(rest);
      if Scan(lines) == Ok(true) && !Oversized(lines[0]) {
        var k :| 0 <= k < |rest| && Oversized(rest[k]) && ReadableUpTo(rest, k);
        assert Oversized(lines[k + 1]);
        forall j | 0 <= j < k + 1 ensures LineLength(lines[j]).Ok? {
          if j > 0 { assert lines[j] == rest[j - 1]; }
        }
        assert ReadableUpTo(lines, k + 1);
      }
      if OversizedBeforeError(lines) {
        var k :| 0 <= k < |lines| && Oversized(lines[k]) && ReadableUpTo(lines, k);
        if k > 0 && !Oversized(lines[0]) {
          assert Oversized(rest[k - 1]);
          forall j | 0 <= j < k - 1 ensures LineLength(rest[j]).Ok? {
            assert LineLength(lines[j + 1]).Ok?;
          }
          assert ReadableUpTo(rest, k - 1);
        }
      }
    }
  }

  /** The scan answers false exactly when every line reports a readable
    * length of at most the MTU (so an empty capture answers false). */
  lemma {:induction false} ScanFalseIff(lines: seq<string>)
    ensures Scan(lines) == Ok(false) <==> AllWithinMtu(lines)
    decreases |lines|
  {
    if lines != [] {
      ScanFalseIff(lines[1..]);
      assert forall k :: 1 <= k < |lines| ==> lines[k] == lines[1..][k - 1];
    }
  }

  /** The body of the scan for one line: split it into pieces, skip it when
    * it has fewer than three, and read the length from the first of the two
    * positions whose neighbour is "length" (0 when neither is). */
  method ReadPacketLength(line: string) returns (r: Result<int, ScanError>)
    ensures r == LineLength(line)
    ensures r.Ok? && r.value > 0 ==> Count(line, ' ') >= 2
  {
    SplitCount(line, ' ');
    var pieces := Split(line, ' ');
    if |pieces| < 3 {
      return Ok(0);
    }
    var packetLen := 0;
    if pieces[|pieces| - 2] == "length" {
      var parsed := ParseInt(pieces[|pieces| - 1]);
      if parsed.None? {
        return Err(ValueError(pieces[|pieces| - 1]));
      }
      packetLen := parsed.value;
    } else if pieces[|pieces| - 3] == "length" {
      var trimmed := DropLast(pieces[|pieces| - 2]);
      var parsed := ParseInt(trimmed);
      if parsed.None? {
        return Err(ValueError(trimmed));
      }
      packetLen := parsed.value;
    }
    return Ok(packetLen);
  }

  /** `find_fragmented_packet`: scans the lines in order, returning true at the
    * first oversized packet and false when no line has one; an unreadable
    * length before that propagates `int()`'s ValueError. */
  method FindFragmentedPacket(results: string) returns (r: Result<bool, ScanError>)
    ensures r == Scan(Split(results, '\n'))
    ensures r == Ok(true) <==> OversizedBeforeError(Split(results, '\n'))
    ensures r == Ok(false) <==> AllWithinMtu(Split(results, '\n'))
  {
    var lines := Split(results, '\n');
    ScanTrueIff(lines);
    ScanFalseIff(lines);
    var i := 0;
    while i < |lines|
      invariant 0 <= i <= |lines|
      invariant Scan(lines) == Scan(lines[i..])
    {
      assert lines[i..][1..] == lines[i + 1..];
      var packetLen := ReadPacketLength(lines[i]);
      if packetLen.Err? {
        return Err(packetLen.error);
      }
      if packetLen.value > Mtu {
        return Ok(true);
      }
      i := i + 1;
    }
    return Ok(false);
  }

  // ---------------------------------------------------------------------
  // The two line formats tcpdump prints
  // ---------------------------------------------------------------------

  /** A line ending in "length N" reports N, whatever precedes it (even a
    * "length" piece: the last two pieces take precedence). */
  lemma TrailingLength(head: seq<string>, n: nat)
    requires |head| > 0 && SeparatorFree(head, ' ')
    ensures LineLength(Join(head + ["length", DecimalText(n)], ' ')) == Ok(n)
  {
    var pieces := head + ["length", DecimalText(n)];
    assert SeparatorFree(pieces, ' ') by {
      DigitsHaveNoSpace(DecimalText(n));
    }
    SplitJoin(pieces, ' ');
    DecimalRoundTrip(n);
  }

  /** A line ending in "length N: PROTO" (a well-known port's protocol
    * appended) reports N once the colon is trimmed. */
  lemma ColonLength(head: seq<string>, n: nat, proto: string)
    requires |head| > 0 && SeparatorFree(head, ' ') && ' ' !in proto
    ensures LineLength(Join(head + ["length", DecimalText(n) + ":", proto], ' ')) == Ok(n)
  {
    var d := DecimalText(n);
    var pieces := head + ["length", d + ":", proto];
    DigitsHaveNoSpace(d);
    assert ' ' !in d + ":";
    assert SeparatorFree(pieces, ' ');
    SplitJoin(pieces, ' ');
    assert (d + ":")[|d + ":"| - 1] == ':';
    assert d + ":" != "length";
    assert DropLast(d + ":") == d;
    DecimalRoundTrip(n);
  }

  /** The trim does not check for the colon: a line ending in "length N PROTO"
    * (no colon) loses the last digit of N, so 2000 reads as 200. */
  lemma ColonlessLengthLosesLastDigit(head: seq<string>, n: nat, proto: string)
    requires |head| > 0 && SeparatorFree(head, ' ') && ' ' !in proto && n >= 10
    ensures LineLength(Join(head + ["length", DecimalText(n), proto], ' ')) == Ok(n / 10)
  {
    var d := DecimalText(n);
    var pieces := head + ["length", d, proto];
    DigitsHaveNoSpace(d);
    assert SeparatorFree(pieces, ' ');
    SplitJoin(pieces, ' ');
    assert d[0] != 'l';
    assert DropLast(d) == DecimalText(n / 10);
    DecimalRoundTrip(n / 10);
  }

  lemma DigitsHaveNoSpace(s: string)
    requires IsDigits(s)
    ensures ' ' !in s
  {
  }

  /** A line with fewer than two spaces has fewer than three pieces: it is
    * skipped and never makes the answer true. */
  lemma FewSpacesSkipped(line: string)
    requires Count(line, ' ') < 2
    ensures LineLength(line) == Ok(0) && !Oversized(line)
  {
    SplitCount(line, ' ');
  }

  /** A line of three or more words with "length" in neither reading
    * position reports 0, whatever its words hold, and is never oversized. */
  lemma UnmarkedLineHasNoLength(pieces: seq<string>)
    requires |pieces| >= 3 && SeparatorFree(pieces, ' ')
    requires pieces[|pieces| - 2] != "length" && pieces[|pieces| - 3] != "length"
    ensures LineLength(Join(pieces, ' ')) == Ok(0) && !Oversized(Join(pieces, ' '))
  {
    SplitJoin(pieces, ' ');
  }

  /** A packet of exactly the MTU is not oversized; one byte more is. */
  lemma MtuBoundary(head: seq<string>)
    requires |head| > 0 && SeparatorFree(head, ' ')
    ensures !Oversized(Join(head + ["length", DecimalText(Mtu)], ' '))
    ensures Oversized(Join(head + ["length", DecimalText(Mtu + 1)], ' '))
  {
    TrailingLength(head, Mtu);
    TrailingLength(head, Mtu + 1);
  }

  /** Empty output, or output with no packet lines, answers false. */
  lemma EmptyCaptureNotFragmented()
    ensures Scan(Split("", '\n')) == Ok(false)
  {
  }
}
