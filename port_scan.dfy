/**
  `portcheck` (api/create.go): a sequential scan of the host ports
  `[min, endingPort)` that dials `localhost:<port>` and returns the first port
  whose dial is refused. The dial is an oracle: for each port it either
  connects or fails with an error message. As in the Go code, a failure counts
  as "port free" only when its message contains "connect: connection refused";
  any other failure, a timeout included, aborts the scan with that error.
*/
module PortScan {
  import opened Wrappers
  import opened Text

  const RefusedPhrase := "connect: connection refused"

  /** The outcome of `net.DialTimeout("tcp", "localhost:<port>", 3s)`. */
  datatype DialResult = Connected | DialError(msg: string)

  /** What the scan makes of one dial. */
  datatype Verdict = Free | InUse | Fault(msg: string)

  /** The two `if`s of the loop body: refused means free, any other error is a fault. */
  function Classify(d: DialResult): Verdict {
    match d
    case Connected => InUse
    case DialError(m) => if Contains(m, RefusedPhrase) then Free else Fault(m)
  }

  datatype ScanError =
    | AllOccupied        // "error all allocated ports are occupied"
    | ProbeFailed(msg: string)  // the dial error itself, returned unchanged

  /** A whole scan: the ports dialled, in order, and the `(int, error)` pair returned. */
  datatype Scan = Scan(probed: seq<int>, port: int, err: Option<ScanError>)

  /** The ports `lo, lo + 1, ...`, one after the other. */
  predicate Consecutive(s: seq<int>, lo: int) {
    forall i :: 0 <= i < |s| ==> s[i] == lo + i
  }

  predicate AllInUse(dial: int -> DialResult, lo: int, hi: int) {
    forall q :: lo <= q < hi ==> Classify(dial(q)) == InUse
  }

  /** The scan from port `p` on, as a function of the dial oracle. */
  function ScanFrom(p: int, end: int, dial: int -> DialResult): Scan
    decreases end - p
  {
    if end <= p then Scan([], 0, Some(AllOccupied))
    else match Classify(dial(p))
      case Fault(m) => Scan([p], 0, Some(ProbeFailed(m)))
      case Free => Scan([p], p, None)
      case InUse =>
        var rest := ScanFrom(p + 1, end, dial);
        Scan([p] + rest.probed, rest.port, rest.err)
  }

  /**
    The loop of `portcheck`. `probed` records the ports dialled, in order; the
    returned pair is the one the scan function gives.
  */
  method Portcheck(min: int, endingPort: int, dial: int -> DialResult)
    returns (port: int, err: Option<ScanError>, ghost probed: seq<int>)
    ensures Scan(probed, port, err) == ScanFrom(min, endingPort, dial)
    ensures err.None? ==> min <= port < endingPort && Classify(dial(port)) == Free
  {
    var startingPort := min;
    probed := [];
    while startingPort < endingPort
      invariant min <= startingPort
      invariant startingPort - min == |probed| && Consecutive(probed, min)
      invariant AllInUse(dial, min, startingPort)
      invariant ScanFrom(min, endingPort, dial) == Append(probed, ScanFrom(startingPort, endingPort, dial))
      decreases endingPort - startingPort
    {
      var d := dial(startingPort);
      probed := probed + [startingPort];
      if d.DialError? && !Contains(d.msg, RefusedPhrase) {
        AppendAssoc(probed[..|probed| - 1], [startingPort], Scan([], 0, Some(ProbeFailed(d.msg))));
        assert probed[..|probed| - 1] + [startingPort] == probed;
        return 0, Some(ProbeFailed(d.msg)), probed;
      }
      if d.DialError? && Contains(d.msg, RefusedPhrase) {
        AppendAssoc(probed[..|probed| - 1], [startingPort], Scan([], startingPort, None));
        assert probed[..|probed| - 1] + [startingPort] == probed;
        return startingPort, None, probed;
      }
      AppendAssoc(probed[..|probed| - 1], [startingPort], ScanFrom(startingPort + 1, endingPort, dial));
      assert probed[..|probed| - 1] + [startingPort] == probed;
      startingPort := startingPort + 1;
    }
    port, err := 0, Some(AllOccupied);
    assert probed + [] == probed;
  }

  /** A scan preceded by the ports dialled before it. */
  function Append(before: seq<int>, s: Scan): Scan {
    Scan(before + s.probed, s.port, s.err)
  }

  lemma AppendAssoc(a: seq<int>, b: seq<int>, s: Scan)
    ensures Append(a, Append(b, s)) == Append(a + b, s)
  {
    assert a + (b + s.probed) == a + b + s.probed;
  }

  /** Skipping over ports that all connect: the scan from `lo` is the scan from `q` after them. */
  lemma {:induction false} SkipInUse(lo: int, q: int, end: int, dial: int -> DialResult)
    requires lo <= q <= end && AllInUse(dial, lo, q)
    ensures exists pre :: |pre| == q - lo && Consecutive(pre, lo)
                          && ScanFrom(lo, end, dial) == Append(pre, ScanFrom(q, end, dial))
    decreases q - lo
  {
    if lo == q {
      assert Append([], ScanFrom(q, end, dial)) == ScanFrom(q, end, dial);
    } else {
      SkipInUse(lo + 1, q, end, dial);
      var pre :| |pre| == q - lo - 1 && Consecutive(pre, lo + 1)
                 && ScanFrom(lo + 1, end, dial) == Append(pre, ScanFrom(q, end, dial));
      AppendAssoc([lo], pre, ScanFrom(q, end, dial));
      assert Consecutive([lo] + pre, lo);
    }
  }

  /**
    The ports dialled are `min, min + 1, ...` in strictly increasing order, all
    below `endingPort`; the scan stops at the first port that does not connect.
  */
  lemma {:induction false} ProbesAscendInRange(p: int, end: int, dial: int -> DialResult)
    ensures var s := ScanFrom(p, end, dial);
      && Consecutive(s.probed, p)
      && (|s.probed| > 0 ==> p + |s.probed| <= end)
      && AllInUse(dial, p, p + |s.probed| - 1)
    decreases end - p
  {
    if p < end && Classify(dial(p)) == InUse {
      ProbesAscendInRange(p + 1, end, dial);
    }
  }

  /**
    `portcheck` returns `(q, nil)` exactly when `q` is in range, its dial is
    refused and every port before it connects; `q` is then the last port dialled.
  */
  lemma FirstFreePort(min: int, end: int, dial: int -> DialResult, q: int)
    ensures var s := ScanFrom(min, end, dial);
      (s.err.None? && s.port == q)
      <==> (min <= q < end && Classify(dial(q)) == Free && AllInUse(dial, min, q))
    ensures var s := ScanFrom(min, end, dial);
      s.err.None? && s.port == q ==> |s.probed| == q - min + 1 && s.probed[|s.probed| - 1] == q
  {
    var s := ScanFrom(min, end, dial);
    ProbesAscendInRange(min, end, dial);
    if min <= q < end && Classify(dial(q)) == Free && AllInUse(dial, min, q) {
      SkipInUse(min, q, end, dial);
    }
    if s.err.None? {
      var k := |s.probed| - 1;
      StopPort(min, end, dial);
      assert s.port == min + k;
    }
  }

  /** Where a scan stops: a successful scan stops at its port, a faulty one at the failing dial. */
  lemma {:induction false} StopPort(p: int, end: int, dial: int -> DialResult)
    ensures var s := ScanFrom(p, end, dial);
      && (s.err != Some(AllOccupied) ==> |s.probed| > 0)
      && (s.err.None? ==> s.port == p + |s.probed| - 1 && Classify(dial(s.port)) == Free)
      && (s.err.Some? && s.err.value.ProbeFailed? ==>
            s.port == 0 && Classify(dial(p + |s.probed| - 1)) == Fault(s.err.value.msg))
    decreases end - p
  {
    if p < end && Classify(dial(p)) == InUse {
      StopPort(p + 1, end, dial);
    }
  }

  /**
    A dial error other than a refusal stops the scan at once with `(0, err)`:
    the failing port is the last one dialled and every port before it connected.
  */
  lemma ProbeFaultAborts(min: int, end: int, dial: int -> DialResult, q: int, m: string)
    requires min <= q < end && AllInUse(dial, min, q)
    requires dial(q) == DialError(m) && !Contains(m, RefusedPhrase)
    ensures ScanFrom(min, end, dial).port == 0
    ensures ScanFrom(min, end, dial).err == Some(ProbeFailed(m))
    ensures ScanFrom(min, end, dial).probed == PortsFrom(min, q + 1)
  {
    SkipInUse(min, q, end, dial);
    var pre :| |pre| == q - min && Consecutive(pre, min)
               && ScanFrom(min, end, dial) == Append(pre, ScanFrom(q, end, dial));
    assert pre + [q] == PortsFrom(min, q + 1);
  }

  /** The ports `lo, ..., hi - 1`. */
  function PortsFrom(lo: int, hi: int): (s: seq<int>)
    requires lo <= hi
    ensures |s| == hi - lo && Consecutive(s, lo)
  {
    seq(hi - lo, i requires 0 <= i < hi - lo => lo + i)
  }

  /** The message Go's dialer gives when the 3-second timeout expires. */
  function TimeoutMessage(addr: string): string {
    "dial tcp " + addr + ": i/o timeout"
  }

  /** A timeout is not a refusal: it aborts the scan rather than skipping the port. */
  lemma TimeoutIsFault(addr: string)
    requires 'r' !in addr
    ensures Classify(DialError(TimeoutMessage(addr))) == Fault(TimeoutMessage(addr))
  {
    var m := TimeoutMessage(addr);
    assert 'r' !in m;
    assert 'r' in RefusedPhrase by { assert RefusedPhrase[20] == 'r'; }
    if Contains(m, RefusedPhrase) {
      ContainsKeepsChars(m, RefusedPhrase, 'r');
      assert false;
    }
  }

  /**
    `portcheck` fails with "all allocated ports are occupied" exactly when every
    port of the range connects (an empty range included); it then returns 0
    after dialling every port of the range.
  */
  lemma Exhaustion(min: int, end: int, dial: int -> DialResult)
    ensures ScanFrom(min, end, dial).err == Some(AllOccupied) <==> AllInUse(dial, min, end)
    ensures ScanFrom(min, end, dial).err == Some(AllOccupied) ==>
      ScanFrom(min, end, dial).port == 0 && ScanFrom(min, end, dial).probed == PortsFrom(min, if min < end then end else min)
  {
    var s := ScanFrom(min, end, dial);
    ProbesAscendInRange(min, end, dial);
    StopPort(min, end, dial);
    ExhaustedScan(min, end, dial);
    if AllInUse(dial, min, end) && min < end {
      SkipInUse(min, end, end, dial);
    }
    if s.err == Some(AllOccupied) && min < end {
      assert |s.probed| == end - min;
    }
  }

  lemma {:induction false} ExhaustedScan(p: int, end: int, dial: int -> DialResult)
    ensures var s := ScanFrom(p, end, dial);
      s.err == Some(AllOccupied) ==> s.port == 0 && AllInUse(dial, p, end)
                                     && |s.probed| == (if p < end then end - p else 0)
    decreases end - p
  {
    if p < end && Classify(dial(p)) == InUse {
      ExhaustedScan(p + 1, end, dial);
    }
  }

  /**
    A range [15000, 15010) with one listener, at 15000: the scan dials 15000,
    then 15001, whose dial is refused, and returns 15001.
  */
  lemma OneListenerScenario(dial: int -> DialResult)
    requires dial(15000) == Connected
    requires dial(15001) == DialError("dial tcp 127.0.0.1:15001: " + RefusedPhrase)
    ensures ScanFrom(15000, 15010, dial) == Scan([15000, 15001], 15001, None)
  {
    ContainsMiddle("dial tcp 127.0.0.1:15001: ", RefusedPhrase, "");
    assert "dial tcp 127.0.0.1:15001: " + RefusedPhrase + "" == "dial tcp 127.0.0.1:15001: " + RefusedPhrase;
  }
}
