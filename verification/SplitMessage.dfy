/** Splitting a long answer into messages (metaharness/bridge/telegram/text.go). Characters are
    runes. */
module SplitMessage {
  const MAX_MESSAGE: nat := 4096

  /** The chunks with what was dropped between them put back. */
  function Rejoined(chunks: seq<string>, dropped: seq<string>): string
    requires |chunks| == |dropped|
  {
    if chunks == [] then ""
    else Rejoined(chunks[..|chunks| - 1], dropped[..|dropped| - 1]) + chunks[|chunks| - 1] + dropped[|dropped| - 1]
  }

  lemma RejoinedNext(chunks: seq<string>, dropped: seq<string>, chunk: string, drop: string)
    requires |chunks| == |dropped|
    ensures Rejoined(chunks + [chunk], dropped + [drop]) == Rejoined(chunks, dropped) + chunk + drop
  {
    assert (chunks + [chunk])[..|chunks|] == chunks && (dropped + [drop])[..|dropped|] == dropped;
  }

  method LastIndexRune(runes: string, target: char) returns (i: int)
    ensures -1 <= i < |runes|
    ensures i >= 0 ==> runes[i] == target
    ensures forall j :: i < j < |runes| ==> runes[j] != target
  {
    i := |runes| - 1;
    while i >= 0
      invariant -1 <= i < |runes|
      invariant forall j :: i < j < |runes| ==> runes[j] != target
    {
      if runes[i] == target {
        return;
      }
      i := i - 1;
    }
  }

  /** No target in the back half of the window. */
  predicate Absent(window: string, target: char) {
    forall j :: |window| / 2 <= j < |window| ==> window[j] != target
  }

  /** The last target of the window, in its back half. */
  predicate LastOf(window: string, target: char, cut: nat) {
    |window| / 2 <= cut < |window| && window[cut] == target && forall j :: cut < j < |window| ==> window[j] != target
  }

  /** Where a window is cut: at its last newline, else its last space, each only in the back half,
      and that one is dropped; else at its end, and nothing is. */
  predicate GoodBreak(window: string, cut: nat, drop: bool) {
    if !Absent(window, '\n') then drop && LastOf(window, '\n', cut)
    else if !Absent(window, ' ') then drop && LastOf(window, ' ', cut)
    else !drop && cut == |window|
  }

  method BreakPoint(window: string) returns (cut: nat, drop: bool)
    requires window != ""
    ensures GoodBreak(window, cut, drop)
    ensures drop ==> |window| / 2 <= cut < |window| && window[cut] in {'\n', ' '}
    ensures drop ==> forall j :: |window| / 2 <= j < |window| && j > cut ==> window[j] != window[cut]
    ensures !drop ==> cut == |window| && forall j :: |window| / 2 <= j < |window| ==> window[j] != '\n' && window[j] != ' '
    ensures (exists j :: |window| / 2 <= j < |window| && window[j] == '\n') ==> drop && window[cut] == '\n'
  {
    var limit := |window|;
    var i := LastIndexRune(window, '\n');
    if i >= limit / 2 {
      assert window[i] == '\n';
      return i, true;
    }
    i := LastIndexRune(window, ' ');
    if i >= limit / 2 {
      assert window[i] == ' ';
      return i, true;
    }
    return limit, false;
  }

  /** The limit Split keeps to: one that is no limit means Telegram's. */
  function Limit(limit: int): nat {
    if limit <= 0 then MAX_MESSAGE else limit
  }

  predicate IsSeparator(drop: string) {
    drop == "" || drop == "\n" || drop == " "
  }

  /** A chunk that is not the last: as long as it may be, or cut in its back half at a separator. */
  predicate ChunkOk(chunk: string, drop: string, limit: nat) {
    |chunk| <= limit && |chunk| >= limit / 2 && IsSeparator(drop) && (if drop == "" then |chunk| == limit else |chunk| < limit)
  }

  /** The fewest runes that so many chunks and what is dropped after them take up. */
  function AtLeast(chunks: nat, half: nat): nat {
    if chunks == 0 then 0 else AtLeast(chunks - 1, half) + half + 1
  }

  lemma {:induction false} AtLeastIs(chunks: nat, half: nat)
    ensures AtLeast(chunks, half) == chunks * (half + 1)
  {
    if chunks > 0 {
      AtLeastIs(chunks - 1, half);
      Distributes(chunks - 1, half + 1);
    }
  }

  lemma Distributes(a: nat, d: nat)
    ensures (a + 1) * d == a * d + d
  {
  }

  lemma Cancel(a: nat, b: nat, d: nat)
    requires a * d < b * d
    ensures a < b
  {
  }

  /** In closed form: splitting n runes gives at most 1 + n / (limit / 2 + 1) chunks. */
  lemma ChunkCount(chunks: nat, limit: nat, n: nat)
    requires chunks > 0 && AtLeast(chunks - 1, limit / 2) < n
    ensures chunks <= 1 + n / (limit / 2 + 1)
  {
    var d := limit / 2 + 1;
    AtLeastIs(chunks - 1, limit / 2);
    Distributes(n / d, d);
    assert n == n / d * d + n % d;
    Cancel(chunks - 1, n / d + 1, d);
  }

  /** Chunk i was cut where the window that begins with it says. */
  ghost predicate CutAt(s: string, limit: nat, chunks: seq<string>, dropped: seq<string>, i: nat)
    requires |chunks| == |dropped| && i < |chunks|
  {
    var at := |Rejoined(chunks[..i], dropped[..i])|;
    at + limit <= |s| && GoodBreak(s[at..at + limit], |chunks[i]|, dropped[i] != "")
  }

  lemma CutGrows(s: string, limit: nat, chunks: seq<string>, dropped: seq<string>, i: nat, chunk: string, drop: string)
    requires |chunks| == |dropped| && i < |chunks| && CutAt(s, limit, chunks, dropped, i)
    ensures CutAt(s, limit, chunks + [chunk], dropped + [drop], i)
  {
    assert (chunks + [chunk])[..i] == chunks[..i] && (dropped + [drop])[..i] == dropped[..i];
  }

  lemma CutNew(s: string, limit: nat, chunks: seq<string>, dropped: seq<string>, rest: string, chunk: string, drop: string)
    requires |chunks| == |dropped| && s == Rejoined(chunks, dropped) + rest && limit <= |rest|
    requires GoodBreak(rest[..limit], |chunk|, drop != "")
    ensures CutAt(s, limit, chunks + [chunk], dropped + [drop], |chunks|)
  {
    var at := |Rejoined(chunks, dropped)|;
    assert (chunks + [chunk])[..|chunks|] == chunks && (dropped + [drop])[..|chunks|] == dropped;
    assert s[at..at + limit] == rest[..limit];
  }

  /** What Split promises: below, chunks and dropped are its chunks but the last. */
  ghost predicate SplitInto(s: string, limit: nat, chunks: seq<string>, dropped: seq<string>, rest: string) {
    && |chunks| == |dropped|
    && (forall i :: 0 <= i < |chunks| ==> ChunkOk(chunks[i], dropped[i], limit))
    && (forall i :: 0 <= i < |chunks| ==> CutAt(s, limit, chunks, dropped, i))
    && s == Rejoined(chunks, dropped) + rest
    && AtLeast(|chunks|, limit / 2) + |rest| <= |s|
  }

  lemma BreakFits(rest: string, limit: nat, cut: nat, drop: bool)
    requires 0 < limit < |rest| && GoodBreak(rest[..limit], cut, drop)
    ensures var next := cut + if drop then 1 else 0;
            limit / 2 + 1 <= next <= limit && ChunkOk(rest[..cut], rest[cut..next], limit)
            && (rest[cut..next] != "" <==> drop)
  {
    if drop {
      assert rest[cut..cut + 1] == [rest[..limit][cut]];
    }
  }

  /** The first chunk of rest, with what is dropped after it and what is left. */
  predicate FirstOf(rest: string, limit: nat, chunk: string, drop: string, tail: string) {
    && rest == chunk + drop + tail && tail != "" && limit < |rest| && limit / 2 + 1 <= |chunk| + |drop|
    && GoodBreak(rest[..limit], |chunk|, drop != "") && ChunkOk(chunk, drop, limit)
  }

  method FirstChunk(runes: string, limit: nat) returns (chunk: string, ghost dropped: string, tail: string)
    requires 0 < limit < |runes|
    ensures FirstOf(runes, limit, chunk, dropped, tail)
  {
    var cut, drop := BreakPoint(runes[..limit]);
    BreakFits(runes, limit, cut, drop);
    var next := cut + if drop then 1 else 0;
    chunk, dropped, tail := runes[..cut], runes[cut..next], runes[next..];
  }

  lemma CutsGrow(s: string, limit: nat, chunks: seq<string>, dropped: seq<string>, chunk: string, drop: string)
    requires |chunks| == |dropped| && forall i :: 0 <= i < |chunks| ==> CutAt(s, limit, chunks, dropped, i)
    ensures forall i :: 0 <= i < |chunks| ==> CutAt(s, limit, chunks + [chunk], dropped + [drop], i)
  {
    forall i | 0 <= i < |chunks|
      ensures CutAt(s, limit, chunks + [chunk], dropped + [drop], i)
    {
      CutGrows(s, limit, chunks, dropped, i, chunk, drop);
    }
  }

  lemma SplitGrows(s: string, limit: nat, chunks: seq<string>, dropped: seq<string>, rest: string, chunk: string, drop: string,
                   tail: string)
    requires SplitInto(s, limit, chunks, dropped, rest) && FirstOf(rest, limit, chunk, drop, tail)
    ensures SplitInto(s, limit, chunks + [chunk], dropped + [drop], tail)
  {
    RejoinedNext(chunks, dropped, chunk, drop);
    CutNew(s, limit, chunks, dropped, rest, chunk, drop);
    CutsGrow(s, limit, chunks, dropped, chunk, drop);
    Regroup(Rejoined(chunks, dropped), chunk, drop, tail);
  }

  lemma Regroup(a: string, b: string, c: string, d: string)
    ensures a + (b + c + d) == a + b + c + d
  {
  }

  /** A text cut into chunks: put together with what was dropped they are the text; all but the last
      are cut where their windows say, in the back half; the last is not empty and fits; none is
      empty where a message may have two runes or more; and there are not too many. */
  ghost predicate Whole(s: string, limit: nat, chunks: seq<string>, dropped: seq<string>) {
    && |chunks| == |dropped| > 0 && Rejoined(chunks, dropped) == s
    && (forall i :: 0 <= i < |chunks| - 1 ==> ChunkOk(chunks[i], dropped[i], limit))
    && (forall i :: 0 <= i < |chunks| - 1 ==> CutAt(s, limit, chunks, dropped, i))
    && 1 <= |chunks[|chunks| - 1]| <= limit && dropped[|chunks| - 1] == ""
    && (limit >= 2 ==> forall i :: 0 <= i < |chunks| ==> chunks[i] != "")
    && AtLeast(|chunks| - 1, limit / 2) < |s|
  }

  lemma Finished(s: string, limit: nat, chunks: seq<string>, dropped: seq<string>, rest: string)
    requires SplitInto(s, limit, chunks, dropped, rest) && 1 <= |rest| <= limit
    ensures Whole(s, limit, chunks + [rest], dropped + [""])
  {
    RejoinedNext(chunks, dropped, rest, "");
    CutsGrow(s, limit, chunks, dropped, rest, "");
  }

  /** Split s into chunks of at most limit runes. dropped has what was dropped after each chunk. */
  method Split(s: string, limit: int) returns (chunks: seq<string>, ghost dropped: seq<string>)
    ensures s == "" ==> chunks == []
    ensures forall i :: 0 <= i < |chunks| ==> |chunks[i]| <= if limit <= 0 then 4096 else limit
    ensures |dropped| == |chunks| && Rejoined(chunks, dropped) == s
    ensures 0 < |s| <= Limit(limit) ==> chunks == [s]
    ensures s != "" ==> Whole(s, Limit(limit), chunks, dropped)
  {
    var most := Limit(limit);
    chunks, dropped := [], [];
    if s == "" {
      return;
    }
    if |s| <= most {
      Finished(s, most, [], [], s);
      assert [] + [s] == [s] && [] + [""] == [""];
      return [s], [""];
    }
    var runes := s;
    while |runes| > most
      invariant SplitInto(s, most, chunks, dropped, runes) && runes != ""
      decreases |runes|
    {
      var chunk, tail;
      ghost var drop;
      chunk, drop, tail := FirstChunk(runes, most);
      SplitGrows(s, most, chunks, dropped, runes, chunk, drop, tail);
      chunks := chunks + [chunk];
      dropped := dropped + [drop];
      runes := tail;
    }
    Finished(s, most, chunks, dropped, runes);
    chunks, dropped := chunks + [runes], dropped + [""];
  }
}
