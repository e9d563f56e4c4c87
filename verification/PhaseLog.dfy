/**
 Phase evidence of the local pilot: a streaming scanner over the job log, and the
 per-phase verdicts inferred from what it found.

 A log is a sequence of bytes. Every marker byte is ASCII, so a byte is written here as the
 character with the same code.
 */
module PhaseLog {
  import opened Basics

  const PREFIX := "{\"phase\":\""
  const SUFFIX := "\",\"memory_peak_bytes\":"
  const MAX_NAME := 32
  const TAIL := 64
  const MAX_LOG_BYTES := 64 * 1024 * 1024
  const PROFILE_PHASES := ["backend", "frontend", "e2e"]

  datatype ScanError = LogTooLarge

  predicate NameChar(c: char) {
    'a' <= c <= 'z' || '0' <= c <= '9' || c == '-'
  }

  predicate Name(n: string) {
    1 <= |n| <= MAX_NAME && forall i :: 0 <= i < |n| ==> NameChar(n[i])
  }

  /** The text of the marker line that names phase `n`. */
  function Marker(n: string): string {
    PREFIX + n + SUFFIX
  }

  /** Length of the run of name characters at the front of `s`. */
  function RunLength(s: string): (n: nat)
    ensures n <= |s|
    ensures forall i :: 0 <= i < n ==> NameChar(s[i])
    ensures n < |s| ==> !NameChar(s[n])
  {
    if s == [] || !NameChar(s[0]) then 0 else 1 + RunLength(s[1..])
  }

  lemma {:induction false} RunLengthIs(s: string, n: nat)
    requires n < |s| && !NameChar(s[n])
    requires forall i :: 0 <= i < n ==> NameChar(s[i])
    ensures RunLength(s) == n
  {
    if n > 0 {
      RunLengthIs(s[1..], n - 1);
    }
  }

  /** What the marker expression captures when it is anchored at the front of `s`. */
  function MatchFront(s: string): Option<string> {
    if !(PREFIX <= s) then None
    else
      var body := s[|PREFIX|..];
      var n := RunLength(body);
      if 1 <= n <= MAX_NAME && SUFFIX <= body[n..] then Some(body[..n]) else None
  }

  /** The matcher finds `n` exactly where the text of a marker naming `n` starts. */
  lemma MatchFrontExact(s: string, n: string)
    ensures MatchFront(s) == Some(n) <==> Name(n) && Marker(n) <= s
  {
    if Name(n) && Marker(n) <= s {
      MarkerIsMatched(s, n);
    }
    if MatchFront(s) == Some(n) {
      var body := s[|PREFIX|..];
      assert s == PREFIX + (n + (SUFFIX + body[|n|..][|SUFFIX|..]));
    }
  }

  lemma MarkerIsMatched(s: string, n: string)
    requires Name(n) && Marker(n) <= s
    ensures MatchFront(s) == Some(n)
  {
    hide Name;
    var rest := s[|Marker(n)|..];
    assert s == PREFIX + (n + (SUFFIX + rest));
    var body := s[|PREFIX|..];
    assert body == n + (SUFFIX + rest);
    assert body[|n|..] == SUFFIX + rest;
    assert body[|n|] == SUFFIX[0] == '"';
    NameChars(n);
    RunLengthIs(body, |n|);
  }

  lemma NameChars(n: string)
    requires Name(n)
    ensures 1 <= |n| <= MAX_NAME
    ensures forall i :: 0 <= i < |n| ==> NameChar(n[i])
  {
  }

  function MatchAt(s: string, i: nat): Option<string>
    requires i <= |s|
  {
    MatchFront(s[i..])
  }

  /** A marker that starts before position `end` of `s` and is complete by then stays what it is. */
  lemma MatchExtends(s: string, more: string, i: nat)
    requires i <= |s|
    ensures MatchAt(s, i).Some? ==> MatchAt(s + more, i) == MatchAt(s, i)
    ensures MatchAt(s + more, i).Some? && i + |Marker(MatchAt(s + more, i).value)| <= |s|
            ==> MatchAt(s, i) == MatchAt(s + more, i)
  {
    assert (s + more)[i..] == s[i..] + more;
    if MatchAt(s, i).Some? {
      var n := MatchAt(s, i).value;
      MatchFrontExact(s[i..], n);
      MatchFrontExact((s + more)[i..], n);
    }
    if MatchAt(s + more, i).Some? {
      var n := MatchAt(s + more, i).value;
      if i + |Marker(n)| <= |s| {
        MatchFrontExact((s + more)[i..], n);
        assert Marker(n) <= s[i..] by {
          assert (s[i..] + more)[..|Marker(n)|] == s[i..][..|Marker(n)|];
        }
        MatchFrontExact(s[i..], n);
      }
    }
  }

  /** The only brace of a marker is the one it opens with. */
  lemma MarkerBrace(n: string, k: nat)
    requires Name(n) && k < |Marker(n)|
    ensures Marker(n)[k] == '{' <==> k == 0
  {
    if k < |PREFIX| {
      assert Marker(n)[k] == PREFIX[k];
    } else if k < |PREFIX| + |n| {
      assert NameChar(n[k - |PREFIX|]);
    } else {
      assert Marker(n)[k] == SUFFIX[k - |PREFIX| - |n|];
    }
  }

  /** So no second marker starts inside one. */
  lemma MarkerLength(n: string)
    ensures |Marker(n)| == 32 + |n|
  {
  }

  lemma MarkersDoNotOverlap(s: string, i: nat, j: nat)
    requires i < j <= |s|
    requires MatchAt(s, i).Some? && MatchAt(s, j).Some?
    ensures i + |Marker(MatchAt(s, i).value)| <= j
  {
    hide MatchFront, Marker, RunLength;
    var n, m := MatchAt(s, i).value, MatchAt(s, j).value;
    MatchFrontExact(s[i..], n);
    MatchFrontExact(s[j..], m);
    MarkerLength(m);
    MarkerBrace(m, 0);
    assert s[j] == s[j..][0] == '{';
    if j < i + |Marker(n)| {
      assert s[i..][j - i] == s[j];
      MarkerBrace(n, j - i);
    }
  }

  /** Names of the markers that start in `s[lo..hi)`, in order. */
  function NamesIn(s: string, lo: nat, hi: nat): seq<string>
    requires lo <= hi <= |s|
    decreases hi
  {
    if lo == hi then []
    else
      NamesIn(s, lo, hi - 1) + (match MatchAt(s, hi - 1) case Some(n) => [n] case None => [])
  }

  lemma NamesSplit(s: string, lo: nat, mid: nat, hi: nat)
    requires lo <= mid <= hi <= |s|
    ensures NamesIn(s, lo, hi) == NamesIn(s, lo, mid) + NamesIn(s, mid, hi)
    decreases hi
  {
    if mid < hi {
      NamesSplit(s, lo, mid, hi - 1);
    }
  }

  lemma NamesShift(s: string, off: nat, lo: nat, hi: nat)
    requires off <= |s| && lo <= hi <= |s| - off
    ensures NamesIn(s[off..], lo, hi) == NamesIn(s, off + lo, off + hi)
    decreases hi
  {
    if lo < hi {
      NamesShift(s, off, lo, hi - 1);
      assert s[off..][hi - 1..] == s[off + hi - 1..];
    }
  }

  /** Two logs that match alike on a range name the same phases there. */
  lemma {:induction false} NamesAgree(s: string, t: string, lo: nat, hi: nat)
    requires lo <= hi <= |s| && hi <= |t|
    requires forall i :: lo <= i < hi ==> MatchAt(s, i) == MatchAt(t, i)
    ensures NamesIn(s, lo, hi) == NamesIn(t, lo, hi)
    decreases hi
  {
    hide MatchFront;
    if lo < hi {
      NamesAgree(s, t, lo, hi - 1);
    }
  }

  lemma {:induction false} NamesNone(s: string, lo: nat, hi: nat)
    requires lo <= hi <= |s|
    requires forall i :: lo <= i < hi ==> MatchAt(s, i).None?
    ensures NamesIn(s, lo, hi) == []
    decreases hi
  {
    if lo < hi {
      NamesNone(s, lo, hi - 1);
    }
  }

  /** Report a phase the profile knows the first time it is seen. */
  function Observe(observed: seq<string>, name: string): seq<string> {
    if name in PROFILE_PHASES && name !in observed then observed + [name] else observed
  }

  function ObserveAll(observed: seq<string>, names: seq<string>): seq<string> {
    if names == [] then observed
    else Observe(ObserveAll(observed, names[..|names| - 1]), names[|names| - 1])
  }

  lemma {:induction false} ObserveAllAppend(observed: seq<string>, a: seq<string>, b: seq<string>)
    ensures ObserveAll(observed, a + b) == ObserveAll(ObserveAll(observed, a), b)
  {
    if b == [] {
      assert a + b == a;
    } else {
      assert (a + b)[..|a + b| - 1] == a + b[..|b| - 1];
      ObserveAllAppend(observed, a, b[..|b| - 1]);
    }
  }

  /** Everything known in `names` is reported, and nothing reported is ever dropped. */
  lemma {:induction false} ObserveAllKeeps(observed: seq<string>, names: seq<string>)
    ensures observed <= ObserveAll(observed, names)
    ensures forall n :: n in names && n in PROFILE_PHASES ==> n in ObserveAll(observed, names)
  {
    if names != [] {
      var init := names[..|names| - 1];
      ObserveAllKeeps(observed, init);
      assert forall n :: n in names ==> n in init || n == names[|names| - 1];
    }
  }

  /** Re-reading names that were all reported already changes nothing. */
  lemma {:induction false} ObserveAllAgain(observed: seq<string>, names: seq<string>)
    requires forall n :: n in names && n in PROFILE_PHASES ==> n in observed
    ensures ObserveAll(observed, names) == observed
  {
    if names != [] {
      ObserveAllAgain(observed, names[..|names| - 1]);
      assert names[|names| - 1] in names;
    }
  }

  /** What a whole log says, read in one piece. */
  function Evidence(log: string): seq<string> {
    ObserveAll([], NamesIn(log, 0, |log|))
  }

  /** Before the kept tail, extending the log changes nothing: a marker there is complete. */
  lemma NamesBeforeTail(log: string, chunk: string, off: nat)
    requires off <= |log| && (off == 0 || off + TAIL <= |log|)
    ensures NamesIn(log, 0, off) == NamesIn(log + chunk, 0, off)
  {
    hide MatchFront, Marker, RunLength;
    var whole := log + chunk;
    forall i | 0 <= i < off ensures MatchAt(log, i) == MatchAt(whole, i) {
      MatchExtends(log, chunk, i);
      if MatchAt(whole, i).Some? {
        MatchFrontExact(whole[i..], MatchAt(whole, i).value);
        MarkerLength(MatchAt(whole, i).value);
      }
    }
    NamesAgree(log, whole, 0, off);
  }

  /** From the kept tail on, the extended log names what the log named, and then more. */
  lemma NamesFromTail(log: string, chunk: string, off: nat) returns (more: seq<string>)
    requires off <= |log|
    ensures NamesIn(log + chunk, off, |log + chunk|) == NamesIn(log, off, |log|) + more
  {
    hide MatchFront, Marker, RunLength;
    var whole := log + chunk;
    var cut := FirstOpen(log, chunk, off);
    NamesAgree(log, whole, off, cut);
    NamesNone(log, cut, |log|);
    NamesSplit(log, off, cut, |log|);
    NamesSplit(whole, off, cut, |whole|);
    more := NamesIn(whole, cut, |whole|);
  }

  /**
   One more chunk: scanning only the kept tail and the chunk reports exactly what the whole
   log up to here says. The kept tail is as long as the longest marker, so a marker that the
   chunk completes starts inside it.
   */
  lemma ChunkStep(log: string, tail: string, chunk: string)
    requires tail == log[if |log| < TAIL then 0 else |log| - TAIL..]
    ensures ObserveAll(Evidence(log), NamesIn(tail + chunk, 0, |tail + chunk|)) == Evidence(log + chunk)
  {
    hide MatchAt, Observe, ObserveAll, NamesIn;
    var whole := log + chunk;
    var off := |log| - |tail|;
    var buffer := tail + chunk;
    assert buffer == whole[off..];
    NamesShift(whole, off, 0, |buffer|);
    NamesBeforeTail(log, chunk, off);
    var more := NamesFromTail(log, chunk, off);
    NamesSplit(log, 0, off, |log|);
    NamesSplit(whole, 0, off, |whole|);
    var before, done := NamesIn(whole, 0, off), NamesIn(log, off, |log|);
    ObserveAllAppend([], before, done);
    ObserveAllKeeps(ObserveAll([], before), done);
    ObserveAllAgain(Evidence(log), done);
    ObserveAllAppend(Evidence(log), done, more);
    ObserveAllAppend([], before + done, more);
    assert before + (done + more) == before + done + more;
  }

  /** The position from `off` on where the log stops knowing what the extended log knows. */
  lemma FirstOpen(log: string, chunk: string, off: nat) returns (cut: nat)
    requires off <= |log|
    ensures off <= cut <= |log|
    ensures forall i :: off <= i < cut ==> MatchAt(log, i) == MatchAt(log + chunk, i)
    ensures forall i :: cut <= i < |log| ==> MatchAt(log, i).None?
  {
    hide MatchFront, Marker, RunLength;
    cut := off;
    while cut < |log| && MatchAt(log, cut) == MatchAt(log + chunk, cut)
      invariant off <= cut <= |log|
      invariant forall i :: off <= i < cut ==> MatchAt(log, i) == MatchAt(log + chunk, i)
    {
      cut := cut + 1;
    }
    if cut < |log| {
      MatchExtends(log, chunk, cut);
      assert MatchAt(log + chunk, cut).Some?;
      forall i | cut <= i < |log| ensures MatchAt(log, i).None? {
        if MatchAt(log, i).Some? {
          MatchExtends(log, chunk, i);
          MatchFrontExact(log[i..], MatchAt(log, i).value);
          MarkersDoNotOverlap(log + chunk, cut, i);
        }
      }
    }
  }

  function Concat(chunks: seq<string>): string {
    if chunks == [] then "" else Concat(chunks[..|chunks| - 1]) + chunks[|chunks| - 1]
  }

  lemma {:induction false} ConcatPrefix(chunks: seq<string>, k: nat)
    requires k <= |chunks|
    ensures |Concat(chunks[..k])| <= |Concat(chunks)|
  {
    if k < |chunks| {
      assert chunks[..|chunks| - 1][..k] == chunks[..k];
      ConcatPrefix(chunks[..|chunks| - 1], k);
    } else {
      assert chunks[..k] == chunks;
    }
  }

  /** Left-to-right search without overlap: report each marker of one buffer. */
  method ScanBuffer(buffer: string, observed: seq<string>) returns (r: seq<string>)
    ensures r == ObserveAll(observed, NamesIn(buffer, 0, |buffer|))
  {
    hide MatchFront, Marker, RunLength;
    r := observed;
    var pos := 0;
    while pos < |buffer|
      invariant pos <= |buffer|
      invariant r == ObserveAll(observed, NamesIn(buffer, 0, pos))
    {
      match MatchAt(buffer, pos)
      case None =>
        assert NamesIn(buffer, 0, pos + 1) == NamesIn(buffer, 0, pos);
        pos := pos + 1;
      case Some(phase) =>
        var next := pos + |Marker(phase)|;
        MatchFrontExact(buffer[pos..], phase);
        MarkerLength(phase);
        forall j | pos + 1 <= j < next ensures MatchAt(buffer, j).None? {
          if MatchAt(buffer, j).Some? {
            MarkersDoNotOverlap(buffer, pos, j);
          }
        }
        NamesNone(buffer, pos + 1, next);
        NamesSplit(buffer, 0, pos + 1, next);
        var names := NamesIn(buffer, 0, pos);
        assert (names + [phase])[..|names|] == names;
        assert NamesIn(buffer, 0, next) == names + [phase];
        if phase in PROFILE_PHASES && phase !in r {
          r := r + [phase];
        }
        pos := next;
    }
  }

  /** However the log is cut into chunks, the answer is that of the log in one piece. */
  method ParsePhaseEvidence(chunks: seq<string>) returns (r: Result<seq<string>, ScanError>)
    ensures r == if |Concat(chunks)| > MAX_LOG_BYTES then Err(LogTooLarge) else Ok(Evidence(Concat(chunks)))
  {
    hide MatchFront, Marker, Observe;
    var observed: seq<string> := [];
    var tail := "";
    var total := 0;
    for k := 0 to |chunks|
      invariant total == |Concat(chunks[..k])| <= MAX_LOG_BYTES
      invariant tail == Concat(chunks[..k])[if total < TAIL then 0 else total - TAIL..]
      invariant observed == Evidence(Concat(chunks[..k]))
    {
      var chunk := chunks[k];
      ghost var log := Concat(chunks[..k]);
      assert Concat(chunks[..k + 1]) == log + chunk by {
        assert chunks[..k + 1][..k] == chunks[..k];
      }
      total := total + |chunk|;
      if total > MAX_LOG_BYTES {
        ConcatPrefix(chunks, k + 1);
        return Err(LogTooLarge);
      }
      var buffer := tail + chunk;
      ChunkStep(log, tail, chunk);
      observed := ScanBuffer(buffer, observed);
      tail := buffer[if |buffer| < TAIL then 0 else |buffer| - TAIL..];
    }
    assert chunks[..|chunks|] == chunks;
    return Ok(observed);
  }

  ghost predicate Names(log: string, phase: string) {
    exists i :: 0 <= i < |log| && MatchAt(log, i) == Some(phase)
  }

  /** First position at which `log` names `phase`. */
  ghost predicate FirstNamed(log: string, phase: string, i: nat) {
    i < |log| && MatchAt(log, i) == Some(phase)
    && forall j :: 0 <= j < i ==> MatchAt(log, j) != Some(phase)
  }

  /** `names` lists, once each and by first appearance, the known phases named in `log[..hi]`. */
  ghost predicate ListsFirstAppearances(log: string, hi: nat, names: seq<string>)
    requires hi <= |log|
  {
    (forall p :: p in names <==> p in PROFILE_PHASES && exists i :: 0 <= i < hi && MatchAt(log, i) == Some(p))
    && (forall a, b :: 0 <= a < b < |names| ==> names[a] != names[b])
    && forall a, b, i, j :: 0 <= a < b < |names| && FirstNamed(log, names[a], i) && FirstNamed(log, names[b], j) ==> i < j
  }

  /** Evidence is exactly the known phases the log names, without duplicates, by first appearance. */
  lemma EvidenceIsFirstAppearances(log: string)
    ensures forall p :: p in Evidence(log) <==> p in PROFILE_PHASES && Names(log, p)
    ensures forall a, b :: 0 <= a < b < |Evidence(log)| ==> Evidence(log)[a] != Evidence(log)[b]
    ensures forall a, b, i, j :: 0 <= a < b < |Evidence(log)|
              && FirstNamed(log, Evidence(log)[a], i) && FirstNamed(log, Evidence(log)[b], j)
              ==> i < j
  {
    hide ObserveAll, NamesIn, MatchFront;
    EvidencePrefix(log, |log|);
  }

  lemma {:induction false} EvidencePrefix(log: string, hi: nat)
    requires hi <= |log|
    ensures ListsFirstAppearances(log, hi, ObserveAll([], NamesIn(log, 0, hi)))
  {
    hide ListsFirstAppearances, MatchAt, Observe;
    if hi == 0 {
      NothingAppeared(log);
    } else {
      var names := NamesIn(log, 0, hi - 1);
      EvidencePrefix(log, hi - 1);
      if MatchAt(log, hi - 1).Some? {
        var n := MatchAt(log, hi - 1).value;
        ObserveAllAppend([], names, [n]);
        assert ObserveAll(ObserveAll([], names), [n]) == Observe(ObserveAll([], names), n);
      } else {
        assert NamesIn(log, 0, hi) == names;
      }
      NextAppearance(log, hi - 1, ObserveAll([], names));
    }
  }

  lemma NothingAppeared(log: string)
    ensures ListsFirstAppearances(log, 0, [])
  {
  }

  lemma NextAppearance(log: string, hi: nat, e: seq<string>)
    requires hi < |log|
    requires ListsFirstAppearances(log, hi, e)
    ensures ListsFirstAppearances(log, hi + 1, match MatchAt(log, hi) case None => e case Some(n) => Observe(e, n))
  {
    hide MatchAt;
    var after := match MatchAt(log, hi) case None => e case Some(n) => Observe(e, n);
    forall p ensures p in after <==> p in PROFILE_PHASES && exists i :: 0 <= i < hi + 1 && MatchAt(log, i) == Some(p) {
      if exists i :: 0 <= i < hi + 1 && MatchAt(log, i) == Some(p) {
        var i :| 0 <= i < hi + 1 && MatchAt(log, i) == Some(p);
        assert i < hi || MatchAt(log, hi) == Some(p);
      }
    }
    forall a, b, i: nat, j: nat | 0 <= a < b < |after| && FirstNamed(log, after[a], i) && FirstNamed(log, after[b], j)
      ensures i < j
    {
      assert a < |e| && after[a] == e[a];
      if b == |e| {
        assert after[b] !in e;
        assert e[a] in e;
        var k :| 0 <= k < hi && MatchAt(log, k) == Some(e[a]);
        assert i <= k;
        assert j >= hi;
      } else {
        assert after[b] == e[b];
      }
    }
  }
}
