/** Splitting a note into overlapping chunks at paragraph boundaries. */
module Chunker {
  import opened Text

  /** text.split("\n\n") */
  function Blocks(text: string): (blocks: seq<string>)
    ensures blocks != []
    decreases |text|
  {
    if |text| < 2 then [text]
    else if text[0] == '\n' && text[1] == '\n' then [""] + Blocks(text[2..])
    else
      var rest := Blocks(text[1..]);
      [[text[0]] + rest[0]] + rest[1..]
  }

  function Paragraphs(blocks: seq<string>): (paras: seq<string>)
    ensures forall i :: 0 <= i < |paras| ==> paras[i] != "" && Trimmed(paras[i])
    decreases |blocks|
  {
    if blocks == [] then []
    else (if Strip(blocks[0]) != "" then [Strip(blocks[0])] else []) + Paragraphs(blocks[1..])
  }

  /** max(max_chars - overlap_chars, 1) */
  function Stride(max: nat, overlap: nat): nat {
    if max > overlap then max - overlap else 1
  }

  /** The windows of an oversized paragraph from start on. */
  function Windows(p: string, start: nat, max: nat, overlap: nat): seq<string>
    requires start <= |p| + Stride(max, overlap)
    decreases |p| + Stride(max, overlap) - start
  {
    if start >= |p| then []
    else [p[start..Min(start + max, |p|)]] + Windows(p, start + Stride(max, overlap), max, overlap)
  }

  /** current.rfind("\n", from) */
  function LastNewline(s: string, from: nat): (k: Option<nat>)
    requires from <= |s|
    ensures k.Some? ==> from <= k.value < |s| && s[k.value] == '\n' && forall j :: k.value < j < |s| ==> s[j] != '\n'
    ensures k.None? ==> forall j :: from <= j < |s| ==> s[j] != '\n'
    decreases |s|
  {
    if |s| == from then None
    else if s[|s| - 1] == '\n' then Some(|s| - 1)
    else LastNewline(s[..|s| - 1], from)
  }

  /** What a chunk leaves to the next one. */
  function Tail(current: string, overlap: nat): (tail: string)
    ensures |tail| <= overlap
  {
    if 0 < overlap < |current| then
      var k := LastNewline(current, |current| - overlap);
      if k.Some? then current[k.value..] else current[|current| - overlap..]
    else if overlap > 0 then current
    else ""
  }

  /** The overlap is the end of the chunk before: as long as allowed, or cut back to a line. */
  lemma TailIsEnd(current: string, overlap: nat)
    ensures var tail := Tail(current, overlap);
            && |tail| <= |current| && current[|current| - |tail|..] == tail
            && (|tail| < Min(overlap, |current|) ==> tail != "" && tail[0] == '\n')
  {
  }

  function Carried(current: string, p: string, overlap: nat): string {
    var tail := Tail(current, overlap);
    if tail != "" then tail + "\n\n" + p else p
  }

  function Candidate(current: string, p: string): string {
    if current != "" then Strip(current + "\n\n" + p) else p
  }

  function Flushed(current: string): seq<string> {
    if current != "" then [current] else []
  }

  function Chunks(paras: seq<string>, current: string, max: nat, overlap: nat): seq<string>
    decreases |paras|
  {
    if paras == [] then Flushed(current)
    else
      var p, rest := paras[0], paras[1..];
      if |p| > max then Flushed(current) + Windows(p, 0, max, overlap) + Chunks(rest, "", max, overlap)
      else if |Candidate(current, p)| <= max then Chunks(rest, Candidate(current, p), max, overlap)
      else Flushed(current) + Chunks(rest, Carried(current, p, overlap), max, overlap)
  }

  function ChunkText(text: string, max: nat, overlap: nat): seq<string> {
    var paras := Paragraphs(Blocks(text));
    if paras != [] then Chunks(paras, "", max, overlap)
    else if text != "" then [text[..Min(max, |text|)]] else []
  }

  lemma StripBlank(s: string)
    requires forall i :: 0 <= i < |s| ==> IsSpace(s[i])
    ensures Strip(s) == ""
  {
    StripPadded(s, "", "");
    assert s + "" + "" == s;
  }

  lemma {:induction false} BlocksOf(text: string)
    ensures forall b :: b in Blocks(text) ==> forall c :: c in b ==> c in text
    decreases |text|
  {
    if |text| >= 2 {
      if text[0] == '\n' && text[1] == '\n' {
        BlocksOf(text[2..]);
      } else {
        BlocksOf(text[1..]);
        var rest := Blocks(text[1..]);
        assert rest[0] in rest && forall b :: b in rest[1..] ==> b in rest;
      }
    } else {
      assert Blocks(text) == [text];
    }
  }

  lemma {:induction false} BlankBlocks(blocks: seq<string>)
    requires forall b :: b in blocks ==> forall c :: c in b ==> IsSpace(c)
    ensures Paragraphs(blocks) == []
  {
    hide Strip;
    if blocks != [] {
      assert blocks[0] in blocks && forall b :: b in blocks[1..] ==> b in blocks;
      assert forall i :: 0 <= i < |blocks[0]| ==> blocks[0][i] in blocks[0];
      StripBlank(blocks[0]);
      BlankBlocks(blocks[1..]);
    }
  }

  /** A text of blanks only is its own single chunk, cut off at the limit; an empty one has none. */
  lemma BlankText(text: string, max: nat, overlap: nat)
    requires forall c :: c in text ==> IsSpace(c)
    ensures ChunkText(text, max, overlap)
         == if text == "" then [] else if |text| <= max then [text] else [text[..max]]
  {
    hide Blocks, Paragraphs, IsSpace;
    BlocksOf(text);
    BlankBlocks(Blocks(text));
    assert text[..|text|] == text;
  }

  // ---- the bound ----

  predicate Bounded(chunks: seq<string>, limit: nat) {
    forall c :: 0 <= c < |chunks| ==> |chunks[c]| <= limit
  }

  lemma {:induction false} WindowsBounded(p: string, start: nat, max: nat, overlap: nat)
    requires start <= |p| + Stride(max, overlap)
    ensures Bounded(Windows(p, start, max, overlap), max)
    decreases |p| + Stride(max, overlap) - start
  {
    if start < |p| {
      WindowsBounded(p, start + Stride(max, overlap), max, overlap);
    }
  }

  lemma {:induction false} ChunksBounded(paras: seq<string>, current: string, max: nat, overlap: nat)
    requires |current| <= max + overlap + 2
    ensures Bounded(Chunks(paras, current, max, overlap), max + overlap + 2)
    decreases |paras|
  {
    hide Tail, Strip, Windows;
    if paras != [] {
      var p, rest := paras[0], paras[1..];
      if |p| > max {
        WindowsBounded(p, 0, max, overlap);
        ChunksBounded(rest, "", max, overlap);
      } else if |Candidate(current, p)| <= max {
        ChunksBounded(rest, Candidate(current, p), max, overlap);
      } else {
        ChunksBounded(rest, Carried(current, p, overlap), max, overlap);
      }
    }
  }

  /** No chunk is longer than the limit plus an overlap and a blank line. */
  lemma ChunkTextBounded(text: string, max: nat, overlap: nat)
    ensures Bounded(ChunkText(text, max, overlap), max + overlap + 2)
  {
    hide Blocks, Paragraphs;
    ChunksBounded(Paragraphs(Blocks(text)), "", max, overlap);
  }

  /** The limit itself is not a bound: a carried overlap comes on top of it. */
  lemma LimitExceeded()
    ensures Chunks(["abcd", "efgh"], "", 5, 3) == ["abcd", "bcd\n\nefgh"]
  {
    var second := "bcd\n\nefgh";
    assert Candidate("", "abcd") == "abcd";
    TrimmedStays("abcd" + "\n\n" + "efgh");
    assert |Candidate("abcd", "efgh")| == 10;
    assert LastNewline("abcd", 1) == None by {
      assert "abcd"[..3] == "abc" && "abc"[..2] == "ab" && "ab"[..1] == "a";
      assert LastNewline("ab", 1) == LastNewline("a", 1);
      assert LastNewline("abc", 1) == LastNewline("ab", 1);
    }
    assert Tail("abcd", 3) == "bcd";
    assert Carried("abcd", "efgh", 3) == second;
    var paras := ["abcd", "efgh"];
    assert paras[1..] == ["efgh"] && ["efgh"][1..] == [];
    assert Chunks([], second, 5, 3) == [second];
    assert Chunks(["efgh"], "abcd", 5, 3) == ["abcd"] + Chunks([], second, 5, 3);
  }

  lemma TrimmedStays(s: string)
    requires Trimmed(s)
    ensures Strip(s) == s
  {
  }

  /** Without overlap, or with a limit of zero, the limit is a bound. */
  lemma {:induction false} LimitKept(paras: seq<string>, current: string, max: nat, overlap: nat)
    requires max == 0 || overlap == 0
    requires |current| <= max && forall i :: 0 <= i < |paras| ==> paras[i] != ""
    ensures Bounded(Chunks(paras, current, max, overlap), max)
    decreases |paras|
  {
    hide Strip, Windows;
    if paras != [] {
      var p, rest := paras[0], paras[1..];
      if |p| > max {
        WindowsBounded(p, 0, max, overlap);
        LimitKept(rest, "", max, overlap);
      } else if |Candidate(current, p)| <= max {
        LimitKept(rest, Candidate(current, p), max, overlap);
      } else {
        LimitKept(rest, Carried(current, p, overlap), max, overlap);
      }
    }
  }

  lemma {:induction false} BlocksPlain(a: string)
    requires forall i :: 0 <= i < |a| ==> a[i] != '\n'
    ensures Blocks(a) == [a]
    decreases |a|
  {
    if |a| >= 2 {
      BlocksPlain(a[1..]);
      assert [a[0]] + a[1..] == a;
    }
  }

  lemma {:induction false} BlocksJoined(a: string, b: string)
    requires forall i :: 0 <= i < |a| ==> a[i] != '\n'
    ensures Blocks(a + "\n\n" + b) == [a] + Blocks(b)
    decreases |a|
  {
    var s := a + "\n\n" + b;
    if a == [] {
      assert s[2..] == b;
    } else {
      assert s[1..] == a[1..] + "\n\n" + b;
      BlocksJoined(a[1..], b);
      var rest := Blocks(s[1..]);
      assert rest[0] == a[1..] && rest[1..] == Blocks(b) && [a[0]] + a[1..] == a;
      assert Blocks(s) == [[s[0]] + rest[0]] + rest[1..];
    }
  }

  lemma ParagraphsTwo(a: string)
    requires a != "" && Trimmed(a)
    ensures Paragraphs([a, a]) == [a, a]
  {
    hide Strip;
    TrimmedStays(a);
    assert [a, a][1..] == [a] && [a][1..] == [];
    assert Paragraphs([]) == [];
    assert Paragraphs([a]) == [a];
  }

  /** The second of two paragraphs that fill a chunk each carries an overlap. */
  lemma ChunksTwo(a: string, overlap: nat)
    requires a != "" && Trimmed(a) && overlap >= 1
    ensures var chunks := Chunks([a, a], "", |a|, overlap); |chunks| == 2 && |chunks[1]| > |a|
  {
    hide Tail, Strip, Windows;
    var max, rest := |a|, [a];
    assert [a, a][1..] == rest && rest[1..] == [];
    assert Candidate("", a) == a;
    TrimmedStays(a + "\n\n" + a);
    assert |Candidate(a, a)| > max;
    TailSome(a, overlap);
    var long := Carried(a, a, overlap);
    assert Chunks([], long, max, overlap) == [long];
    assert Chunks(rest, a, max, overlap) == [a] + [long];
    assert Chunks([a, a], "", max, overlap) == Chunks(rest, a, max, overlap);
  }

  lemma TailSome(current: string, overlap: nat)
    requires current != "" && overlap >= 1
    ensures Tail(current, overlap) != ""
  {
  }

  /** Two paragraphs that fill a chunk each: with any overlap the second one comes out longer
      than the limit. */
  lemma LimitBroken(max: nat, overlap: nat) returns (text: string)
    requires max >= 1 && overlap >= 1
    ensures !Bounded(ChunkText(text, max, overlap), max)
  {
    hide Chunks, Blocks, Paragraphs, Strip;
    var a: string := seq(max, _ => 'a');
    text := a + "\n\n" + a;
    BlocksJoined(a, a);
    BlocksPlain(a);
    assert [a] + [a] == [a, a];
    ParagraphsTwo(a);
    ChunksTwo(a, overlap);
  }

  /** The limit is a bound for every text if and only if there is no overlap, or no room
      at all. */
  lemma LimitBoundsIff(max: nat, overlap: nat)
    ensures (forall text :: Bounded(ChunkText(text, max, overlap), max)) <==> max == 0 || overlap == 0
  {
    hide Bounded;
    if max == 0 || overlap == 0 {
      forall text ensures Bounded(ChunkText(text, max, overlap), max) {
        TextKept(text, max, overlap);
      }
    } else {
      var text := LimitBroken(max, overlap);
    }
  }

  lemma TextKept(text: string, max: nat, overlap: nat)
    requires max == 0 || overlap == 0
    ensures Bounded(ChunkText(text, max, overlap), max)
  {
    hide Blocks, Chunks;
    LimitKept(Paragraphs(Blocks(text)), "", max, overlap);
  }

  // ---- the coverage ----

  ghost predicate Within(p: string, s: string) {
    exists i :: FoundAt(p, s, i)
  }

  predicate FoundAt(p: string, s: string, i: int) {
    0 <= i <= |s| - |p| && s[i..i + |p|] == p
  }

  lemma WithinAt(p: string, s: string, i: nat)
    requires i + |p| <= |s| && s[i..i + |p|] == p
    ensures Within(p, s)
  {
    assert FoundAt(p, s, i);
  }

  /** Stripping takes nothing from a trimmed part. */
  lemma WithinStripped(p: string, s: string)
    requires Within(p, s) && p != "" && Trimmed(p)
    ensures Within(p, Strip(s))
  {
    var i :| FoundAt(p, s, i);
    var lead := Lead(s);
    assert s[i] == p[0] && s[i + |p| - 1] == p[|p| - 1];
    assert lead <= i;
    var tail := s[lead..];
    FoundInTail(p, s, lead, i);
    var end := End(tail);
    assert tail[i - lead + |p| - 1] == s[i + |p| - 1];
    FoundInHead(p, tail, end, i - lead);
    WithinAt(p, Strip(s), i - lead);
  }

  lemma FoundInTail(p: string, s: string, lead: nat, i: nat)
    requires FoundAt(p, s, i) && lead <= i
    ensures lead <= |s| && FoundAt(p, s[lead..], i - lead)
  {
  }

  lemma FoundInHead(p: string, s: string, end: nat, i: nat)
    requires FoundAt(p, s, i) && i + |p| <= end <= |s|
    ensures FoundAt(p, s[..end], i)
  {
  }

  lemma WithinJoined(p: string, a: string, b: string)
    requires Within(p, a) || Within(p, b)
    ensures Within(p, a + "\n\n" + b)
  {
    var s := a + "\n\n" + b;
    if Within(p, a) {
      var i :| FoundAt(p, a, i);
      assert s[i..i + |p|] == p;
      WithinAt(p, s, i);
    } else {
      var i :| FoundAt(p, b, i);
      assert s[|a| + 2 + i..|a| + 2 + i + |p|] == p;
      WithinAt(p, s, |a| + 2 + i);
    }
  }

  lemma CandidateHolds(q: string, current: string, p: string)
    requires q != "" && Trimmed(q) && (Within(q, current) || q == p)
    ensures Within(q, Candidate(current, p))
  {
    if q == p {
      WithinAt(q, p, 0);
    }
    if current != "" {
      WithinJoined(q, current, p);
      WithinStripped(q, current + "\n\n" + p);
    }
  }

  lemma CarriedHolds(p: string, current: string, overlap: nat)
    ensures Within(p, Carried(current, p, overlap))
  {
    WithinAt(p, p, 0);
    WithinJoined(p, Tail(current, overlap), p);
  }

  /** What the current chunk already holds is in the first chunk still to come. */
  lemma {:induction false} FirstHolds(q: string, paras: seq<string>, current: string, max: nat, overlap: nat)
    requires q != "" && Trimmed(q) && Within(q, current)
    ensures Chunks(paras, current, max, overlap) != [] && Within(q, Chunks(paras, current, max, overlap)[0])
    decreases |paras|
  {
    hide Tail, Strip, Windows, Within;
    assert current != "" by { NotWithinEmpty(q, current); }
    if paras != [] {
      var p, rest := paras[0], paras[1..];
      if |p| <= max && |Candidate(current, p)| <= max {
        CandidateHolds(q, current, p);
        FirstHolds(q, rest, Candidate(current, p), max, overlap);
      }
    }
  }

  lemma NotWithinEmpty(q: string, s: string)
    requires q != "" && Within(q, s)
    ensures s != ""
  {
  }

  /** The chunk in which the k-th paragraph, or its first window, is found. */
  function Place(paras: seq<string>, current: string, k: nat, max: nat, overlap: nat): nat
    requires k < |paras|
    decreases |paras|
  {
    var p, rest := paras[0], paras[1..];
    if |p| > max then
      |Flushed(current)| + if k == 0 then 0 else |Windows(p, 0, max, overlap)| + Place(rest, "", k - 1, max, overlap)
    else if |Candidate(current, p)| <= max then
      if k == 0 then 0 else Place(rest, Candidate(current, p), k - 1, max, overlap)
    else
      |Flushed(current)| + if k == 0 then 0 else Place(rest, Carried(current, p, overlap), k - 1, max, overlap)
  }

  /** Every paragraph within the limit lies whole in its chunk. */
  lemma {:induction false} ParagraphKept(paras: seq<string>, current: string, k: nat, max: nat, overlap: nat)
    requires k < |paras| && |paras[k]| <= max && paras[k] != "" && Trimmed(paras[k])
    ensures var chunks, c := Chunks(paras, current, max, overlap), Place(paras, current, k, max, overlap);
            c < |chunks| && Within(paras[k], chunks[c])
    decreases |paras|
  {
    hide Tail, Strip, Windows, Within;
    var p, rest := paras[0], paras[1..];
    if k == 0 {
      if |Candidate(current, p)| <= max {
        CandidateHolds(p, current, p);
        FirstHolds(p, rest, Candidate(current, p), max, overlap);
      } else {
        CarriedHolds(p, current, overlap);
        FirstHolds(p, rest, Carried(current, p, overlap), max, overlap);
      }
    } else {
      assert rest[k - 1] == paras[k];
      if |p| > max {
        ParagraphKept(rest, "", k - 1, max, overlap);
      } else if |Candidate(current, p)| <= max {
        ParagraphKept(rest, Candidate(current, p), k - 1, max, overlap);
      } else {
        ParagraphKept(rest, Carried(current, p, overlap), k - 1, max, overlap);
      }
    }
  }

  /** And a later paragraph never lies in an earlier chunk. */
  lemma {:induction false} OrderKept(paras: seq<string>, current: string, k: nat, max: nat, overlap: nat)
    requires k + 1 < |paras|
    ensures Place(paras, current, k, max, overlap) <= Place(paras, current, k + 1, max, overlap)
    decreases |paras|
  {
    hide Tail, Strip, Windows, Candidate, Carried;
    var p, rest := paras[0], paras[1..];
    if k > 0 {
      if |p| > max {
        OrderKept(rest, "", k - 1, max, overlap);
      } else if |Candidate(current, p)| <= max {
        OrderKept(rest, Candidate(current, p), k - 1, max, overlap);
      } else {
        OrderKept(rest, Carried(current, p, overlap), k - 1, max, overlap);
      }
    }
  }

  /** The start of the last window that begins at or before character i. */
  function Begin(start: nat, i: nat, stride: nat): (from: nat)
    requires start <= i && stride > 0
    ensures start <= from <= i < from + stride
    decreases i - start
  {
    if i < start + stride then start else Begin(start + stride, i, stride)
  }

  /** Every character of an oversized paragraph is in a window; only a limit of 0 leaves
      the windows empty. */
  lemma {:induction false} WindowCovers(p: string, start: nat, i: nat, max: nat, overlap: nat)
    requires start <= i < |p|
    ensures var from := Begin(start, i, Stride(max, overlap));
            p[from..Min(from + max, |p|)] in Windows(p, start, max, overlap) && (i < Min(from + max, |p|) <==> max >= 1)
    decreases |p| - start
  {
    var stride := Stride(max, overlap);
    if i >= start + stride {
      WindowCovers(p, start + stride, i, max, overlap);
    }
  }

  predicate StandsAt(chunks: seq<string>, c: nat, part: seq<string>) {
    c + |part| <= |chunks| && chunks[c..c + |part|] == part
  }

  lemma Shifted(a: seq<string>, b: seq<string>, c: nat, part: seq<string>)
    requires StandsAt(b, c, part)
    ensures StandsAt(a + b, |a| + c, part)
  {
  }

  lemma FirstStand(a: seq<string>, b: seq<string>, c: seq<string>)
    ensures StandsAt(a + b + c, |a|, b)
  {
  }

  /** The windows of an oversized paragraph stand together where it is placed. */
  lemma {:induction false} WindowsKept(paras: seq<string>, current: string, k: nat, max: nat, overlap: nat)
    requires k < |paras| && |paras[k]| > max
    ensures var chunks, place := Chunks(paras, current, max, overlap), Place(paras, current, k, max, overlap);
            StandsAt(chunks, place, Windows(paras[k], 0, max, overlap))
    decreases |paras|
  {
    hide Tail, Strip, Windows, Candidate, Carried, StandsAt;
    var p, rest := paras[0], paras[1..];
    var before, part := Flushed(current), Windows(paras[k], 0, max, overlap);
    if k == 0 {
      FirstStand(before, part, Chunks(rest, "", max, overlap));
    } else {
      assert rest[k - 1] == paras[k];
      if |p| > max {
        WindowsKept(rest, "", k - 1, max, overlap);
        var later, place := Chunks(rest, "", max, overlap), Place(rest, "", k - 1, max, overlap);
        Shifted(before + Windows(p, 0, max, overlap), later, place, part);
      } else if |Candidate(current, p)| <= max {
        WindowsKept(rest, Candidate(current, p), k - 1, max, overlap);
      } else {
        var next := Carried(current, p, overlap);
        WindowsKept(rest, next, k - 1, max, overlap);
        Shifted(before, Chunks(rest, next, max, overlap), Place(rest, next, k - 1, max, overlap), part);
      }
    }
  }

  // ---- the loop ----

  method ChunkWithOverlap(text: string, max: nat, overlap: nat) returns (chunks: seq<string>)
    ensures chunks == ChunkText(text, max, overlap)
  {
    hide Blocks, Paragraphs, Strip, LastNewline, Windows, Chunks, Tail, Candidate, Carried;
    var paras := Paragraphs(Blocks(text));
    if paras == [] {
      return if text != "" then [text[..Min(max, |text|)]] else [];
    }
    chunks := [];
    var current := "";
    assert paras[0..] == paras;
    for i := 0 to |paras|
      invariant chunks + Chunks(paras[i..], current, max, overlap) == Chunks(paras, "", max, overlap)
    {
      var p := paras[i];
      Unfolded(paras, i, current, max, overlap);
      if |p| > max {
        ghost var before := chunks;
        chunks := ForceSplit(chunks, current, p, max, overlap);
        AssocFour(before, Flushed(current), Windows(p, 0, max, overlap), Chunks(paras[i + 1..], "", max, overlap));
        current := "";
        continue;
      }
      var candidate := Candidate(current, p);
      if |candidate| <= max {
        current := candidate;
      } else {
        ghost var before, held := chunks, current;
        if current != "" {
          chunks := chunks + [current];
        }
        current := CarryOver(current, p, overlap);
        assert chunks == before + Flushed(held);
        Assoc(before, Flushed(held), Chunks(paras[i + 1..], current, max, overlap));
      }
    }
    NoneLeft(paras, current, max, overlap);
    if current != "" {
      chunks := chunks + [current];
    }
  }

  lemma Unfolded(paras: seq<string>, i: nat, current: string, max: nat, overlap: nat)
    requires i < |paras|
    ensures var p, rest := paras[i], paras[i + 1..];
            Chunks(paras[i..], current, max, overlap) ==
              if |p| > max then Flushed(current) + Windows(p, 0, max, overlap) + Chunks(rest, "", max, overlap)
              else if |Candidate(current, p)| <= max then Chunks(rest, Candidate(current, p), max, overlap)
              else Flushed(current) + Chunks(rest, Carried(current, p, overlap), max, overlap)
  {
    hide Tail, Strip, Windows, Candidate, Carried;
    assert paras[i..][0] == paras[i] && paras[i..][1..] == paras[i + 1..];
  }

  lemma NoneLeft(paras: seq<string>, current: string, max: nat, overlap: nat)
    ensures Chunks(paras[|paras|..], current, max, overlap) == Flushed(current)
  {
  }

  method CarryOver(current: string, p: string, overlap: nat) returns (next: string)
    ensures next == Carried(current, p, overlap)
  {
    var tail := "";
    if overlap > 0 && overlap < |current| {
      var nl := LastNewline(current, |current| - overlap);
      tail := if nl.Some? then current[nl.value..] else current[|current| - overlap..];
    } else if overlap > 0 {
      tail := current;
    }
    return if tail != "" then tail + "\n\n" + p else p;
  }

  /** Closes the current chunk and cuts an oversized paragraph into windows. */
  method ForceSplit(before: seq<string>, current: string, p: string, max: nat, overlap: nat)
    returns (chunks: seq<string>)
    ensures chunks == before + Flushed(current) + Windows(p, 0, max, overlap)
  {
    chunks := before;
    if current != "" {
      chunks := chunks + [current];
    }
    var start := 0;
    var stride := Stride(max, overlap);
    while start < |p|
      invariant start <= |p| + stride
      invariant chunks + Windows(p, start, max, overlap) == before + Flushed(current) + Windows(p, 0, max, overlap)
      decreases |p| + stride - start
    {
      chunks := chunks + [p[start..Min(start + max, |p|)]];
      start := start + stride;
    }
  }
}
