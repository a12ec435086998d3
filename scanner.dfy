/**
 * The sequential logic of the port scanner (main.go): building the target
 * and port lists, turning one probe's connect and read results into a
 * ScanResult, folding the results of one host into a ScanSummary, and the
 * text line printed for an open port.  The network calls, the clock and the
 * goroutines around them are inputs here (see README).
 */
module Scanner {
  import opened Wrappers
  import opened Strings
  import opened Strconv
  import opened Seqs

  const MinPort := 1
  const MaxPort := 65535
  /** Size of the buffer a banner is read into. */
  const BannerBufferSize := 256

  /** The state of a probed port; the program spells these "open" and "closed". */
  datatype State = Open | Closed

  function StateName(state: State): string
  {
    match state
    case Open => "open"
    case Closed => "closed"
  }

  /** ScanResult: one port's outcome; an empty banner means none was recorded. */
  datatype ScanResult = ScanResult(port: int, state: State, banner: string)

  /** ScanSummary: one host's scan; timeTaken is the wall-clock duration, passed in. */
  datatype ScanSummary = ScanSummary(
    target: string,
    openPorts: int,
    scannedPorts: int,
    timeTaken: int,
    ports: seq<ScanResult>)

  predicate IsPort(p: int)
  {
    MinPort <= p <= MaxPort
  }

  /* ---------- parseTargets ---------- */

  /**
   * parseTargets: the default target when the list is empty, otherwise the
   * list split at every comma, untrimmed, empty pieces kept.
   */
  function ParseTargets(defaultTarget: string, targetList: string): (targets: seq<string>)
    ensures targetList == "" ==> targets == [defaultTarget]
    ensures targetList != "" ==> |targets| == multiset(targetList)[','] + 1
    ensures targetList != "" ==> forall i :: 0 <= i < |targets| ==> ',' !in targets[i]
    ensures targetList != "" ==> Join(targets, ',') == targetList
  {
    if targetList == "" then [defaultTarget]
    else
      JoinSplit(targetList, ',');
      Split(targetList, ',')
  }

  /** Targets joined by commas come back out of ParseTargets one by one. */
  lemma ParseTargetsOfJoin(defaultTarget: string, hosts: seq<string>)
    requires |hosts| > 0 && Join(hosts, ',') != ""
    requires forall i :: 0 <= i < |hosts| ==> ',' !in hosts[i]
    ensures ParseTargets(defaultTarget, Join(hosts, ',')) == hosts
  {
    SplitJoin(hosts, ',');
  }

  /* ---------- parsePorts ---------- */

  /** The port one comma-separated piece names, if it parses and lies in range. */
  function PortOf(piece: string): (port: Option<int>)
    ensures port.Some? ==> IsPort(port.value)
  {
    match Atoi(TrimSpace(piece))
    case Some(v) => if 0 < v && v <= MaxPort then Some(v) else None
    case None => None
  }

  /** The ports the pieces name, in order, the pieces that name none dropped. */
  function ValidPorts(pieces: seq<string>): (ports: seq<int>)
    ensures |ports| <= |pieces|
    ensures forall i :: 0 <= i < |ports| ==> IsPort(ports[i])
  {
    FilterMapAll(PortOf, pieces, IsPort);
    FilterMap(PortOf, pieces)
  }

  /**
   * parsePorts: with a non-empty list, the in-range ports its pieces name;
   * with an empty one, start, start + 1, ..., end (an end below start - 1
   * makes the capacity of the slice negative, which Go rejects at run time).
   */
  method ParsePorts(portList: string, start: int, end: int) returns (ports: seq<int>)
    requires portList == "" ==> start <= end + 1
    ensures portList != "" ==> ports == ValidPorts(Split(portList, ','))
    ensures portList != "" ==> |ports| <= multiset(portList)[','] + 1
    ensures portList == "" ==> |ports| == end - start + 1
    ensures portList == "" ==> forall i :: 0 <= i < |ports| ==> ports[i] == start + i
    ensures portList != "" || (MinPort <= start && end <= MaxPort) ==>
              forall i :: 0 <= i < |ports| ==> IsPort(ports[i])
    ensures portList == "" ==> forall i, j :: 0 <= i < j < |ports| ==> ports[i] < ports[j]
  {
    if portList != "" {
      ports := PortList(Split(portList, ','));
    } else {
      ports := PortRange(start, end);
    }
  }

  /** The list loop of parsePorts: each comma-separated piece that parses to a port, in order. */
  method PortList(pieces: seq<string>) returns (ports: seq<int>)
    ensures ports == ValidPorts(pieces)
  {
    ports := [];
    for i := 0 to |pieces|
      invariant ports == FilterMap(PortOf, pieces[..i])
    {
      var port := PortOf(pieces[i]);
      if port.Some? {
        ports := ports + [port.value];
      }
      FilterMapPrefix(PortOf, pieces, i);
    }
    assert pieces[..|pieces|] == pieces;
  }

  /**
   * The counting loop of parsePorts: start, start + 1, ..., end.  The slice
   * is allocated with capacity end - start + 1, which must not be negative.
   */
  method PortRange(start: int, end: int) returns (ports: seq<int>)
    requires start <= end + 1
    ensures |ports| == end - start + 1
    ensures forall i :: 0 <= i < |ports| ==> ports[i] == start + i
  {
    ports := [];
    var p := start;
    while p <= end
      invariant start <= p <= end + 1
      invariant |ports| == p - start
      invariant forall i :: 0 <= i < |ports| ==> ports[i] == start + i
    {
      ports := ports + [p];
      p := p + 1;
    }
  }

  /**
   * The list is read piece by piece: the ports of a + b are those of a
   * followed by those of b, so order is kept and a repeated piece is
   * listed again.
   */
  lemma ValidPortsAppend(a: seq<string>, b: seq<string>)
    ensures ValidPorts(a + b) == ValidPorts(a) + ValidPorts(b)
  {
    FilterMapAppend(PortOf, a, b);
  }

  /** A port is listed exactly when some piece names it. */
  lemma ValidPortsMembership(pieces: seq<string>, port: int)
    ensures port in ValidPorts(pieces) <==> exists i :: 0 <= i < |pieces| && PortOf(pieces[i]) == Some(port)
  {
    FilterMapMembership(PortOf, pieces, port);
  }

  /** A port written in decimal, as `%d` prints it, is kept exactly when it lies in range. */
  lemma PortOfDecimal(n: int)
    ensures PortOf(Itoa(n)) == if IsPort(n) then Some(n) else None
  {
    AtoiItoa(n);
    TrimSpaceWithoutSpaces(Itoa(n));
  }

  /** White space around a piece is trimmed away: " 80 " names port 80 just as "80" does. */
  lemma PortOfPadded(before: string, piece: string, after: string)
    requires forall i :: 0 <= i < |before| ==> IsSpace(before[i])
    requires forall i :: 0 <= i < |after| ==> IsSpace(after[i])
    ensures PortOf(before + piece + after) == PortOf(piece)
  {
    TrimSpacePadded(before, piece, after);
  }

  /** The example list splits into its five pieces. */
  lemma SplitExample()
    ensures Split("22,80,443,99999,-1", ',') == ["22", "80", "443", "99999", "-1"]
  {
    var pieces := ["22", "80", "443", "99999", "-1"];
    var s := "22,80,443,99999,-1";
    assert Join(pieces, ',') == s by {
      assert pieces[1..] == ["80", "443", "99999", "-1"];
    }
    assert forall i :: 0 <= i < |pieces| ==> ',' !in pieces[i];
    SplitJoin(pieces, ',');
  }

  /** The pieces `%d` prints for a list of numbers. */
  function Decimals(ns: seq<int>): (pieces: seq<string>)
    ensures |pieces| == |ns|
    ensures forall i :: 0 <= i < |ns| ==> pieces[i] == Itoa(ns[i])
  {
    seq(|ns|, i requires 0 <= i < |ns| => Itoa(ns[i]))
  }

  /** A number kept as a port when it lies in range, and dropped otherwise. */
  function InRange(n: int): (port: Option<int>)
  {
    if IsPort(n) then Some(n) else None
  }

  /**
   * Numbers written in decimal, in any order, give exactly the numbers that
   * lie in range, in their order: the out-of-range ones are dropped.
   */
  lemma ValidPortsOfDecimals(ns: seq<int>)
    ensures ValidPorts(Decimals(ns)) == FilterMap(InRange, ns)
  {
    var pieces := Decimals(ns);
    forall i | 0 <= i < |ns| ensures PortOf(pieces[i]) == InRange(ns[i]) {
      PortOfDecimal(ns[i]);
    }
    FilterMapPointwise(PortOf, InRange, pieces, ns);
  }

  /** In-range numbers written in decimal, then out-of-range ones: exactly the in-range ones are kept. */
  lemma ValidPortsOfSortedDecimals(kept: seq<int>, dropped: seq<int>)
    requires forall i :: 0 <= i < |kept| ==> IsPort(kept[i])
    requires forall i :: 0 <= i < |dropped| ==> !IsPort(dropped[i])
    ensures ValidPorts(Decimals(kept + dropped)) == kept
  {
    ValidPortsOfDecimals(kept + dropped);
    FilterMapAppend(InRange, kept, dropped);
    FilterMapKeepAll(InRange, kept);
    FilterMapDropAll(InRange, dropped);
  }

  /** The pieces of the example list are the decimal forms of 22, 80, 443, 99999 and -1. */
  lemma DecimalsExample()
    ensures Decimals([22, 80, 443] + [99999, -1]) == ["22", "80", "443", "99999", "-1"]
  {
    ItoaExamples();
  }

  /** "22,80,443,99999,-1" gives 22, 80 and 443: out-of-range pieces are dropped. */
  lemma ParsePortsExample()
    ensures ValidPorts(Split("22,80,443,99999,-1", ',')) == [22, 80, 443]
  {
    var pieces := ["22", "80", "443", "99999", "-1"];
    assert ValidPorts(pieces) == [22, 80, 443] by {
      ValidPortsOfSortedDecimals([22, 80, 443], [99999, -1]);
      DecimalsExample();
    }
    assert Split("22,80,443,99999,-1", ',') == pieces by {
      SplitExample();
    }
  }

  /** A sign in front of the digits is accepted: "+80" names 80, while "-80" names no port. */
  lemma PortOfSigned(n: nat)
    ensures PortOf("+" + Itoa(n)) == PortOf(Itoa(n))
    ensures 0 < n ==> PortOf("-" + Itoa(n)) == None
  {
    AtoiSigned(n);
    AtoiItoa(n);
    TrimSpaceWithoutSpaces(Itoa(n));
    var plus, minus := "+" + Itoa(n), "-" + Itoa(n);
    forall i | 0 <= i < |plus| ensures !IsSpace(plus[i]) {
      if i > 0 { assert plus[i] == Itoa(n)[i - 1]; }
    }
    forall i | 0 <= i < |minus| ensures !IsSpace(minus[i]) {
      if i > 0 { assert minus[i] == Itoa(n)[i - 1]; }
    }
    TrimSpaceWithoutSpaces(plus);
    TrimSpaceWithoutSpaces(minus);
  }

  /** Leading zeros are accepted: "0080" names 80. */
  lemma PortOfLeadingZeros(zeros: string, n: nat)
    requires forall i :: 0 <= i < |zeros| ==> zeros[i] == '0'
    ensures PortOf(zeros + Itoa(n)) == PortOf(Itoa(n))
  {
    AtoiLeadingZeros(zeros, n);
    AtoiItoa(n);
    TrimSpaceWithoutSpaces(Itoa(n));
    var s := zeros + Itoa(n);
    forall i | 0 <= i < |s| ensures !IsSpace(s[i]) {
      if i >= |zeros| { assert s[i] == Itoa(n)[i - |zeros|]; }
    }
    TrimSpaceWithoutSpaces(s);
  }

  /** An empty or all-white-space piece, such as the one between ",,", names no port. */
  lemma PortOfBlank(piece: string)
    requires forall i :: 0 <= i < |piece| ==> IsSpace(piece[i])
    ensures PortOf(piece) == None
  {
    TrimSpaceEmpty(piece);
  }

  /**
   * A piece whose trimmed form has a character that is neither a digit nor a
   * leading sign, such as "abc", "8 0" or "+-1", names no port.
   */
  lemma PortOfNonDigit(piece: string, i: nat)
    requires i < |TrimSpace(piece)| && !IsDigit(TrimSpace(piece)[i])
    requires !(i == 0 && |TrimSpace(piece)| > 1 && TrimSpace(piece)[0] in "+-")
    ensures PortOf(piece) == None
  {
    AtoiRejectsNonDigit(TrimSpace(piece), i);
  }

  /**
   * The shape of the list "22, 80 ,abc,,+443,0080,65536": a plain port, a
   * padded one, a word, an empty piece, a signed port, a zero-padded port and
   * a number out of range.  The four ports are kept, in order.
   */
  lemma MixedList(a: nat, b: nat, c: nat, d: nat, e: nat)
    requires IsPort(a) && IsPort(b) && IsPort(c) && IsPort(d) && !IsPort(e)
    ensures ValidPorts([Itoa(a), " " + Itoa(b) + " ", "abc", "", "+" + Itoa(c), "00" + Itoa(d), Itoa(e)])
              == [a, b, c, d]
  {
    MixedFront(a, b);
    MixedBack(c, d, e);
    SevenPieces(Itoa(a), " " + Itoa(b) + " ", "abc", "", "+" + Itoa(c), "00" + Itoa(d), Itoa(e), a, b, c, d);
  }

  /** The first four pieces of the mixed list: a port, a padded port, a word and an empty piece. */
  lemma MixedFront(a: nat, b: nat)
    requires IsPort(a) && IsPort(b)
    ensures PortOf(Itoa(a)) == Some(a) && PortOf(" " + Itoa(b) + " ") == Some(b)
    ensures PortOf("abc") == None && PortOf("") == None
  {
    PortOfDecimal(a);
    assert PortOf(" " + Itoa(b) + " ") == Some(b) by {
      PortOfDecimal(b);
      PortOfPadded(" ", Itoa(b), " ");
    }
    assert PortOf("abc") == None by {
      TrimSpaceWithoutSpaces("abc");
      PortOfNonDigit("abc", 0);
    }
    PortOfBlank("");
  }

  /** The last three pieces of the mixed list: a signed port, a zero-padded port and a number out of range. */
  lemma MixedBack(c: nat, d: nat, e: nat)
    requires IsPort(c) && IsPort(d) && !IsPort(e)
    ensures PortOf("+" + Itoa(c)) == Some(c) && PortOf("00" + Itoa(d)) == Some(d) && PortOf(Itoa(e)) == None
  {
    assert PortOf("+" + Itoa(c)) == Some(c) by {
      PortOfDecimal(c);
      PortOfSigned(c);
    }
    assert PortOf("00" + Itoa(d)) == Some(d) by {
      PortOfDecimal(d);
      PortOfLeadingZeros("00", d);
    }
    PortOfDecimal(e);
  }

  /** Seven pieces of which the first two and the fifth and sixth name ports. */
  lemma SevenPieces(p0: string, p1: string, p2: string, p3: string, p4: string, p5: string, p6: string,
                    a: int, b: int, c: int, d: int)
    requires PortOf(p0) == Some(a) && PortOf(p1) == Some(b) && PortOf(p2) == None && PortOf(p3) == None
    requires PortOf(p4) == Some(c) && PortOf(p5) == Some(d) && PortOf(p6) == None
    ensures ValidPorts([p0, p1, p2, p3, p4, p5, p6]) == [a, b, c, d]
  {
    var named := [Some(a), Some(b), None, None, Some(c), Some(d), None];
    FilterMapPointwise(PortOf, Named, [p0, p1, p2, p3, p4, p5, p6], named);
    SevenNamed(a, b, c, d);
  }

  /** The identity on an already-parsed piece. */
  function Named(port: Option<int>): Option<int>
  {
    port
  }

  lemma SevenNamed(a: int, b: int, c: int, d: int)
    ensures FilterMap(Named, [Some(a), Some(b), None, None, Some(c), Some(d), None]) == [a, b, c, d]
  {
    var named := [Some(a), Some(b), None, None, Some(c), Some(d), None];
    assert named == [Some(a), Some(b)] + [None, None] + [Some(c), Some(d)] + [None];
    FilterMapAppend(Named, [Some(a), Some(b)] + [None, None] + [Some(c), Some(d)], [None]);
    FilterMapAppend(Named, [Some(a), Some(b)] + [None, None], [Some(c), Some(d)]);
    FilterMapAppend(Named, [Some(a), Some(b)], [None, None]);
  }

  /** The pieces of "22, 80 ,abc,,+443,0080,65536", written as MixedList expects them. */
  lemma MixedPiecesExample()
    ensures [Itoa(22), " " + Itoa(80) + " ", "abc", "", "+" + Itoa(443), "00" + Itoa(80), Itoa(65536)]
              == ["22", " 80 ", "abc", "", "+443", "0080", "65536"]
  {
    ItoaExamples();
    assert " " + "80" + " " == " 80 ";
    assert "+" + "443" == "+443";
    assert "00" + "80" == "0080";
  }

  /** The seven pieces joined with commas are the mixed list. */
  lemma MixedJoinExample()
    ensures Join(["22", " 80 ", "abc", "", "+443", "0080", "65536"], ',') == "22, 80 ,abc,,+443,0080,65536"
  {
    var pieces := ["22", " 80 ", "abc", "", "+443", "0080", "65536"];
    assert pieces[1..] == [" 80 ", "abc", "", "+443", "0080", "65536"];
  }

  /** The mixed list splits into its seven pieces. */
  lemma MixedSplitExample()
    ensures Split("22, 80 ,abc,,+443,0080,65536", ',') == ["22", " 80 ", "abc", "", "+443", "0080", "65536"]
  {
    var pieces := ["22", " 80 ", "abc", "", "+443", "0080", "65536"];
    MixedJoinExample();
    assert forall i :: 0 <= i < |pieces| ==> ',' !in pieces[i];
    SplitJoin(pieces, ',');
  }

  /**
   * "22, 80 ,abc,,+443,0080,65536" gives 22, 80, 443 and 80: padding is
   * trimmed, a sign and leading zeros are accepted, the word, the empty
   * piece and 65536 are dropped, and the repeated 80 is kept.
   */
  lemma MixedListExample()
    ensures ValidPorts(Split("22, 80 ,abc,,+443,0080,65536", ',')) == [22, 80, 443, 80]
  {
    var pieces := ["22", " 80 ", "abc", "", "+443", "0080", "65536"];
    assert ValidPorts(pieces) == [22, 80, 443, 80] by {
      MixedList(22, 80, 443, 80, 65536);
      MixedPiecesExample();
    }
    assert Split("22, 80 ,abc,,+443,0080,65536", ',') == pieces by {
      MixedSplitExample();
    }
  }

  /* ---------- scanPort ---------- */

  /**
   * scanPort with the network taken out: `dialed` says whether the TCP connect
   * succeeded, `received` is what the single banner read put in the
   * 256-byte buffer.  The result starts closed with no banner, turns open on
   * a connection, and takes the trimmed bytes as banner only when banner
   * grabbing is on and something was read.
   */
  method ScanPort(port: int, dialed: bool, grabBanner: bool, received: seq<byte>) returns (result: ScanResult)
    requires |received| <= BannerBufferSize
    ensures result.port == port
    ensures result.state == Open <==> dialed
    ensures dialed && grabBanner && |received| > 0 ==> result.banner == TrimSpace(StringOfBytes(received))
    ensures !(dialed && grabBanner && |received| > 0) ==> result.banner == ""
    ensures result.banner != "" ==> !IsSpace(result.banner[0]) && !IsSpace(result.banner[|result.banner| - 1])
    ensures |result.banner| <= BannerBufferSize
  {
    result := ScanResult(port, Closed, "");
    if !dialed {
      return;
    }
    result := result.(state := Open);
    if grabBanner {
      if |received| > 0 {
        result := result.(banner := TrimSpace(StringOfBytes(received)));
      }
    }
  }

  /* ---------- scanHost: collecting the results ---------- */

  predicate IsOpen(r: ScanResult)
  {
    r.state == Open
  }

  /** Keeps a result exactly when its state is open. */
  function OpenOnly(r: ScanResult): (kept: Option<ScanResult>)
    ensures kept == None || kept == Some(r)
    ensures kept.Some? <==> r.state == Open
  {
    if IsOpen(r) then Some(r) else None
  }

  /**
   * The tail of scanHost: the results, in the order they arrive, are filtered
   * down to the open ones; the summary counts those and the submitted ports.
   * timeTaken is the measured duration, supplied by the caller.
   */
  method ScanHost(host: string, ports: seq<int>, results: seq<ScanResult>, timeTaken: int)
    returns (summary: ScanSummary)
    ensures summary.target == host
    ensures summary.ports == FilterMap(OpenOnly, results)
    ensures forall i :: 0 <= i < |summary.ports| ==> summary.ports[i].state == Open
    ensures summary.openPorts == |summary.ports| <= |results|
    ensures summary.scannedPorts == |ports|
    ensures summary.timeTaken == timeTaken
    ensures |results| == |ports| ==> summary.openPorts <= summary.scannedPorts
    ensures results == [] ==> summary.openPorts == 0 && summary.ports == []
  {
    var openPorts: seq<ScanResult> := [];
    for i := 0 to |results|
      invariant openPorts == FilterMap(OpenOnly, results[..i])
    {
      var res := results[i];
      if IsOpen(res) {
        openPorts := openPorts + [res];
      }
      FilterMapPrefix(OpenOnly, results, i);
    }
    assert results[..|results|] == results;
    FilterMapAll(OpenOnly, results, IsOpen);
    summary := ScanSummary(host, |openPorts|, |ports|, timeTaken, openPorts);
  }

  /** A result is reported exactly when it arrived and is open. */
  lemma ReportedIffOpen(results: seq<ScanResult>, r: ScanResult)
    ensures r in FilterMap(OpenOnly, results) <==> r in results && r.state == Open
  {
    FilterMapMembership(OpenOnly, results, r);
    if r in results && r.state == Open {
      var i :| 0 <= i < |results| && results[i] == r;
      assert OpenOnly(results[i]) == Some(r);
    }
  }

  /** The port numbers of a sequence of results. */
  function PortsOf(results: seq<ScanResult>): (ports: seq<int>)
    ensures |ports| == |results|
    ensures forall i :: 0 <= i < |results| ==> ports[i] == results[i].port
  {
    seq(|results|, i requires 0 <= i < |results| => results[i].port)
  }

  /**
   * When one result arrived per submitted port, every reported port is one
   * that was submitted.
   */
  lemma ReportedPortsSubmitted(ports: seq<int>, results: seq<ScanResult>, r: ScanResult)
    requires multiset(PortsOf(results)) == multiset(ports)
    requires r in FilterMap(OpenOnly, results)
    ensures r.port in ports && r.state == Open
  {
    ReportedIffOpen(results, r);
    var i :| 0 <= i < |results| && results[i] == r;
    assert PortsOf(results)[i] == r.port;
    assert r.port in multiset(PortsOf(results));
  }

  /**
   * The order in which the workers deliver the results changes at most the
   * order of the open ports, never which ones are reported or how often.
   */
  lemma ArrivalOrderIrrelevant(results: seq<ScanResult>, reordered: seq<ScanResult>)
    requires multiset(results) == multiset(reordered)
    ensures multiset(FilterMap(OpenOnly, results)) == multiset(FilterMap(OpenOnly, reordered))
    ensures |FilterMap(OpenOnly, results)| == |FilterMap(OpenOnly, reordered)|
  {
    FilterPermutation(OpenOnly, results, reordered);
    assert |multiset(FilterMap(OpenOnly, results))| == |multiset(FilterMap(OpenOnly, reordered))|;
  }

  /* ---------- the line printed for an open port ---------- */

  /**
   * The line printed for an open port: "<port>/tcp <state>", then
   * " | <banner>" when there is a banner.  It reads back: Atoi recovers the
   * port from its first digits, "/tcp " and the state name follow, and after
   * them comes either nothing or exactly " | " and the banner.
   */
  function FormatLine(r: ScanResult): (line: string)
    ensures var k, n := |Itoa(r.port)|, |StateName(r.state)|;
      k + 5 + n <= |line| &&
      Atoi(line[..k]) == Some(r.port) &&
      line[k..k + 5] == "/tcp " &&
      line[k + 5..k + 5 + n] == StateName(r.state) &&
      (r.banner == "" ==> |line| == k + 5 + n) &&
      (r.banner != "" ==> line[k + 5 + n..] == " | " + r.banner)
  {
    AtoiItoa(r.port);
    var digits, name := Itoa(r.port), StateName(r.state);
    var head := digits + "/tcp " + name;
    var tail := if r.banner != "" then " | " + r.banner else "";
    var line := head + tail;
    assert line[..|digits|] == digits;
    assert line[|digits|..|digits| + 5] == "/tcp ";
    assert line[|digits| + 5..|head|] == name;
    assert line[|head|..] == tail;
    line
  }

  /** The line carries a '|' exactly when the result has a banner. */
  lemma FormatLineBar(r: ScanResult)
    ensures '|' in FormatLine(r) <==> r.banner != ""
  {
    var digits, name := Itoa(r.port), StateName(r.state);
    var head := digits + "/tcp " + name;
    forall i | 0 <= i < |head| ensures head[i] != '|' {
      if i < |digits| {
        assert head[i] == digits[i];
      } else if i < |digits| + 5 {
        assert head[i] == "/tcp "[i - |digits|];
      } else {
        assert head[i] == name[i - |digits| - 5];
      }
    }
    if r.banner != "" {
      assert FormatLine(r)[|head| + 1] == '|';
    } else {
      assert FormatLine(r) == head;
    }
  }
}
