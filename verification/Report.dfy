/** diagnose/report.go: reports are cut to a byte limit without breaking a UTF-8 character. */
module Report {

  type byte = b: int | 0 <= b < 256

  const MAX_DESCRIPTION_BYTES := 2048

  // ----- UTF-8, as defined in sections 3 and 4 of RFC 3629 -----

  /** A byte of the form 10xxxxxx, which never starts a character. */
  predicate IsTail(b: byte) {
    0x80 <= b <= 0xBF
  }

  /** How many bytes a character with this first byte has; 0 if none starts so. */
  function NeededBytes(b: byte): (n: nat)
    ensures n <= 4
  {
    if b <= 0x7F then 1
    else if 0xC2 <= b <= 0xDF then 2
    else if 0xE0 <= b <= 0xEF then 3
    else if 0xF0 <= b <= 0xF4 then 4
    else 0
  }

  /** The second byte is restricted behind some first bytes. */
  predicate SecondByteOk(first: byte, second: byte) {
    && IsTail(second)
    && (first == 0xE0 ==> second >= 0xA0)
    && (first == 0xED ==> second <= 0x9F)
    && (first == 0xF0 ==> second >= 0x90)
    && (first == 0xF4 ==> second <= 0x8F)
  }

  /** Is s a single character? */
  predicate IsChar(s: seq<byte>) {
    && s != []
    && |s| == NeededBytes(s[0])
    && (|s| > 1 ==> SecondByteOk(s[0], s[1]))
    && (|s| > 2 ==> IsTail(s[2]))
    && (|s| > 3 ==> IsTail(s[3]))
  }

  predicate ValidUtf8(s: seq<byte>) {
    s == [] ||
    (var n := NeededBytes(s[0]);
     0 < n <= |s| && IsChar(s[..n]) && ValidUtf8(s[n..]))
  }

  lemma {:induction false} ValidConcat(a: seq<byte>, b: seq<byte>)
    requires ValidUtf8(a) && ValidUtf8(b)
    ensures ValidUtf8(a + b)
    decreases |a|
  {
    if a == [] {
      assert a + b == b;
    } else {
      var n := NeededBytes(a[0]);
      assert (a + b)[..n] == a[..n];
      assert (a + b)[n..] == a[n..] + b;
      ValidConcat(a[n..], b);
    }
  }

  /** In valid text a prefix is valid exactly if it does not stop in front of a tail byte. */
  lemma {:induction false} PrefixValidIff(s: seq<byte>, i: nat)
    requires ValidUtf8(s) && i <= |s|
    ensures ValidUtf8(s[..i]) <==> (i == |s| || !IsTail(s[i]))
    decreases |s|
  {
    if i == |s| {
      assert s[..i] == s;
    } else {
      var n := NeededBytes(s[0]);
      assert s[..n][0] == s[0];
      if 0 < i < n {
        assert s[..n][i] == s[i];
        assert s[..i][0] == s[0];
      } else if i >= n {
        PrefixValidIff(s[n..], i - n);
        assert s[..i][0] == s[0] && s[..i][..n] == s[..n];
        assert s[..i][n..] == s[n..][..i - n];
      }
    }
  }

  /** Valid text has at most three tail bytes in a row. */
  lemma {:induction false} NoFourTails(s: seq<byte>, i: nat)
    requires ValidUtf8(s) && i + 3 < |s|
    ensures exists j :: i <= j <= i + 3 && !IsTail(s[j])
    decreases |s|
  {
    var n := NeededBytes(s[0]);
    assert s[..n][0] == s[0];
    if i == 0 {
      assert !IsTail(s[0]);
    } else if i < n {
      assert s[n..][0] == s[n];
      assert !IsTail(s[n]);
    } else {
      NoFourTails(s[n..], i - n);
      var j :| i - n <= j <= i - n + 3 && !IsTail(s[n..][j]);
      assert !IsTail(s[n + j]);
    }
  }

  // ----- TruncateUTF8 -----

  /** The largest k <= maxBytes at which s[k] starts a character, or 0. */
  function Cut(s: seq<byte>, maxBytes: nat): (k: nat)
    requires maxBytes < |s|
    ensures k <= maxBytes
    ensures k > 0 ==> !IsTail(s[k])
    ensures forall j | k < j <= maxBytes :: IsTail(s[j])
  {
    if maxBytes > 0 && IsTail(s[maxBytes]) then Cut(s, maxBytes - 1) else maxBytes
  }

  function Truncated(s: seq<byte>, maxBytes: int): seq<byte> {
    if |s| <= maxBytes then s else if maxBytes <= 0 then [] else s[..Cut(s, maxBytes)]
  }

  /** r is s cut to at most max bytes, in front of the last byte that can start a character; any
      bytes will do. */
  ghost predicate IsCut(s: seq<byte>, max: int, r: seq<byte>) {
    if |s| <= max then r == s
    else if max <= 0 then r == []
    else
      && |r| <= max && r == s[..|r|]
      && (r != [] ==> !(0x80 <= s[|r|] <= 0xBF))
      && forall j | |r| < j <= max :: 0x80 <= s[j] <= 0xBF
  }

  lemma {:induction false} TruncatedIsCut(s: seq<byte>, max: int)
    ensures IsCut(s, max, Truncated(s, max))
  {}

  method TruncateUTF8(s: seq<byte>, maxBytes0: int) returns (r: seq<byte>)
    ensures r == Truncated(s, maxBytes0)
    ensures IsCut(s, maxBytes0, r)
  {
    TruncatedIsCut(s, maxBytes0);
    if |s| <= maxBytes0 {
      return s;
    }
    if maxBytes0 <= 0 {
      return [];
    }
    var maxBytes := maxBytes0;
    while maxBytes > 0 && IsTail(s[maxBytes])
      invariant 0 <= maxBytes <= maxBytes0
      invariant Cut(s, maxBytes) == Cut(s, maxBytes0)
    {
      maxBytes := maxBytes - 1;
    }
    return s[..maxBytes];
  }

  /** Cut text is a valid prefix within the limit and loses at most three bytes against it. */
  lemma {:induction false} TruncatedIsValid(s: seq<byte>, maxBytes: int)
    requires ValidUtf8(s)
    ensures var r := Truncated(s, maxBytes);
            && r <= s && ValidUtf8(r)
            && (maxBytes >= 0 ==> |r| <= maxBytes)
            && (|r| < |s| ==> |r| >= maxBytes - 3)
  {
    if 0 < maxBytes < |s| {
      var k := Cut(s, maxBytes);
      PrefixValidIff(s, k);
      if k == 0 {
        assert s[..0] == [];
      }
      if maxBytes >= 3 {
        NoFourTails(s, maxBytes - 3);
      }
    }
  }

  /** ... and no longer prefix within the limit is valid. */
  lemma {:induction false} TruncatedIsLongest(s: seq<byte>, maxBytes: int, i: nat)
    requires ValidUtf8(s) && |Truncated(s, maxBytes)| < i <= |s| && i <= maxBytes
    ensures !ValidUtf8(s[..i])
  {
    PrefixValidIff(s, i);
  }

  // ----- FormatReportDescription -----

  function Body(report: seq<byte>, suffix: seq<byte>, budget: int): seq<byte> {
    if |report| <= budget then report
    else if budget > |suffix| then Truncated(report, budget - |suffix|) + suffix
    else Truncated(report, budget)
  }

  function Description(header: seq<byte>, report: seq<byte>, footer: seq<byte>, suffix: seq<byte>): (r: seq<byte>)
    ensures |r| <= MAX_DESCRIPTION_BYTES
    ensures |header| + |footer| < MAX_DESCRIPTION_BYTES ==> header <= r
  {
    if |header| + |footer| >= MAX_DESCRIPTION_BYTES then Truncated(header, MAX_DESCRIPTION_BYTES)
    else header + Body(report, suffix, MAX_DESCRIPTION_BYTES - (|header| + |footer|)) + footer
  }

  /** The report in a description: whole if it fits in budget bytes; else cut to leave room for the
      note, and noted; else, if there is no room for a note, just cut. */
  ghost predicate IsBody(report: seq<byte>, note: seq<byte>, budget: int, body: seq<byte>) {
    if |report| <= budget then body == report
    else if budget > |note| then exists cut :: IsCut(report, budget - |note|, cut) && body == cut + note
    else IsCut(report, budget, body)
  }

  lemma {:induction false} BodyIsBody(report: seq<byte>, note: seq<byte>, budget: int)
    ensures IsBody(report, note, budget, Body(report, note, budget))
  {
    TruncatedIsCut(report, budget);
    TruncatedIsCut(report, budget - |note|);
  }

  /** Header, body and footer within 2048 bytes, or the header alone, cut. */
  ghost predicate IsDescription(header: seq<byte>, report: seq<byte>, footer: seq<byte>, note: seq<byte>, r: seq<byte>) {
    if |header| + |footer| >= 2048 then IsCut(header, 2048, r)
    else exists body :: IsBody(report, note, 2048 - |header| - |footer|, body) && r == header + body + footer
  }

  lemma {:induction false} DescriptionByParts(header: seq<byte>, report: seq<byte>, footer: seq<byte>, note: seq<byte>)
    ensures IsDescription(header, report, footer, note, Description(header, report, footer, note))
  {
    TruncatedIsCut(header, 2048);
    BodyIsBody(report, note, 2048 - |header| - |footer|);
  }

  /** The header, the footer and the truncation notice are formatted elsewhere. */
  method FormatReportDescription(header: seq<byte>, report: seq<byte>, footer: seq<byte>, truncSuffix: seq<byte>)
    returns (r: seq<byte>)
    ensures r == Description(header, report, footer, truncSuffix)
    ensures IsDescription(header, report, footer, truncSuffix, r)
  {
    DescriptionByParts(header, report, footer, truncSuffix);
    var overhead := |header| + |footer|;
    if overhead >= MAX_DESCRIPTION_BYTES {
      r := TruncateUTF8(header, MAX_DESCRIPTION_BYTES);
      return;
    }
    var budget := MAX_DESCRIPTION_BYTES - overhead;
    var body := report;
    if |body| > budget {
      if budget > |truncSuffix| {
        body := TruncateUTF8(body, budget - |truncSuffix|);
        body := body + truncSuffix;
      } else {
        body := TruncateUTF8(body, budget);
      }
    }
    r := header + body + footer;
  }

  lemma {:induction false} BodyLength(report: seq<byte>, suffix: seq<byte>, budget: nat)
    requires ValidUtf8(report)
    ensures var b := Body(report, suffix, budget);
            && |b| <= budget
            && (|report| <= budget ==> b == report)
            && (|report| > budget ==> |b| >= budget - 3)
  {
    TruncatedIsValid(report, if budget > |suffix| then budget - |suffix| else budget);
  }

  lemma {:induction false} FramedIsValid(header: seq<byte>, body: seq<byte>, footer: seq<byte>)
    requires ValidUtf8(header) && ValidUtf8(body) && ValidUtf8(footer)
    ensures ValidUtf8(header + body + footer)
  {
    ValidConcat(header, body);
    ValidConcat(header + body, footer);
  }

  lemma {:induction false} BodyIsValid(report: seq<byte>, suffix: seq<byte>, budget: nat)
    requires ValidUtf8(report) && ValidUtf8(suffix)
    ensures ValidUtf8(Body(report, suffix, budget))
  {
    if budget < |report| {
      if budget > |suffix| {
        NotedBodyIsValid(report, suffix, budget);
      } else {
        CutBodyIsValid(report, suffix, budget);
      }
    }
  }

  lemma {:induction false} NotedBodyIsValid(report: seq<byte>, suffix: seq<byte>, budget: nat)
    requires ValidUtf8(report) && ValidUtf8(suffix) && |suffix| < budget < |report|
    ensures ValidUtf8(Body(report, suffix, budget))
  {
    CutAndNoted(report, suffix, budget - |suffix|);
  }

  lemma {:induction false} CutBodyIsValid(report: seq<byte>, suffix: seq<byte>, budget: nat)
    requires ValidUtf8(report) && budget < |report| && budget <= |suffix|
    ensures ValidUtf8(Body(report, suffix, budget))
  {
    TruncatedIsValid(report, budget);
  }

  /** The description is valid text (and, by its contract, within the limit). */
  lemma {:induction false} DescriptionIsValid(header: seq<byte>, report: seq<byte>, footer: seq<byte>, suffix: seq<byte>)
    requires ValidUtf8(header) && ValidUtf8(report) && ValidUtf8(footer) && ValidUtf8(suffix)
    ensures ValidUtf8(Description(header, report, footer, suffix))
  {
    var budget := MAX_DESCRIPTION_BYTES - (|header| + |footer|);
    if budget <= 0 {
      TruncatedIsValid(header, MAX_DESCRIPTION_BYTES);
    } else {
      BodyIsValid(report, suffix, budget);
      FramedIsValid(header, Body(report, suffix, budget), footer);
    }
  }

  lemma {:induction false} CutAndNoted(report: seq<byte>, suffix: seq<byte>, maxBytes: int)
    requires ValidUtf8(report) && ValidUtf8(suffix)
    ensures ValidUtf8(Truncated(report, maxBytes) + suffix)
  {
    TruncatedIsValid(report, maxBytes);
    ValidConcat(Truncated(report, maxBytes), suffix);
  }

  /** When header and footer fit together they are kept whole, around the report if it fits and
      otherwise around so much of it that at most three bytes of the limit are unused. */
  lemma {:induction false} DescriptionKeepsFrame(header: seq<byte>, report: seq<byte>, footer: seq<byte>, suffix: seq<byte>)
    requires ValidUtf8(report) && |header| + |footer| < MAX_DESCRIPTION_BYTES
    ensures var r := Description(header, report, footer, suffix);
            && |header| + |footer| <= |r| && r[|r| - |footer|..] == footer
            && (|header| + |report| + |footer| <= MAX_DESCRIPTION_BYTES ==> r == header + report + footer)
            && (|header| + |report| + |footer| > MAX_DESCRIPTION_BYTES ==> |r| >= MAX_DESCRIPTION_BYTES - 3)
  {
    var budget := MAX_DESCRIPTION_BYTES - (|header| + |footer|);
    BodyLength(report, suffix, budget);
    var r := header + Body(report, suffix, budget) + footer;
    assert r[|r| - |footer|..] == footer;
  }
}
