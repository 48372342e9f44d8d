/** WikiLinks and the references edges they ask for. */
module WikiLinks {
  import opened Text

  // Finding links in a note, resolving them against every note, and keeping the references
  // edges of the relationship store equal to what the notes say.

  // ---- finding links: \[\[([^\]|]+)(?:\|([^\]]+))?\]\] ----

  datatype Match = Match(title: string, alias: Option<string>, end: nat)

  datatype WikiLink = WikiLink(title: string, alias: Option<string>)

  /** End of the longest run of title (alias) characters from i. */
  function RunEnd(text: string, i: nat, inAlias: bool): (r: nat)
    ensures i <= r && (i <= |text| ==> r <= |text|)
    decreases |text| - i
  {
    if i < |text| && text[i] != ']' && (inAlias || text[i] != '|') then RunEnd(text, i + 1, inAlias) else i
  }

  predicate Doubled(text: string, i: nat, c: char) {
    i + 1 < |text| && text[i] == c && text[i + 1] == c
  }

  /** The match of the pattern at position i. */
  function MatchAt(text: string, i: nat): (r: Option<Match>)
    ensures r.Some? ==> i < r.value.end <= |text|
  {
    if !Doubled(text, i, '[') then None
    else
      var t := RunEnd(text, i + 2, false);
      if t == i + 2 then None
      else if Doubled(text, t, ']') then Some(Match(text[i + 2..t], None, t + 2))
      else if t < |text| && text[t] == '|' then
        var a := RunEnd(text, t + 1, true);
        if a > t + 1 && Doubled(text, a, ']') then Some(Match(text[i + 2..t], Some(text[t + 1..a]), a + 2)) else None
      else None
  }

  /** The matches from position i on, leftmost first and not overlapping. */
  function Matches(text: string, i: nat): seq<Match>
    decreases |text| - i
  {
    if i >= |text| then []
    else
      var m := MatchAt(text, i);
      if m.Some? then [m.value] + Matches(text, m.value.end) else Matches(text, i + 1)
  }

  function LinkOf(m: Match): WikiLink {
    WikiLink(Strip(m.title), if m.alias.Some? then Some(Strip(m.alias.value)) else None)
  }

  /** Links with a title, in order, each once. */
  function Distinct(ms: seq<Match>, seen: set<WikiLink>): seq<WikiLink> {
    if ms == [] then []
    else
      var link := LinkOf(ms[0]);
      if link.title == "" || link in seen then Distinct(ms[1..], seen)
      else [link] + Distinct(ms[1..], seen + {link})
  }

  function Links(text: string): seq<WikiLink> {
    Distinct(Matches(text, 0), {})
  }

  method ParseWikilinks(text: string) returns (out: seq<WikiLink>)
    ensures out == Links(text)
  {
    var seen: set<WikiLink> := {};
    out := [];
    var i := 0;
    while i < |text|
      invariant 0 <= i <= |text|
      invariant out + Distinct(Matches(text, i), seen) == Links(text)
    {
      var m := MatchAt(text, i);
      if m.None? {
        i := i + 1;
        continue;
      }
      assert Matches(text, i)[1..] == Matches(text, m.value.end);
      var link := LinkOf(m.value);
      if link.title != "" && link !in seen {
        Assoc(out, [link], Distinct(Matches(text, m.value.end), seen + {link}));
        seen := seen + {link};
        out := out + [link];
      }
      i := m.value.end;
    }
  }

  predicate Named(title: string, alias: Option<string>) {
    && title != "" && ']' !in title && '|' !in title
    && (alias.Some? ==> alias.value != "" && ']' !in alias.value)
  }

  predicate Says(text: string, i: nat, part: string) {
    i + |part| <= |text| && text[i..i + |part|] == part
  }

  /** Two brackets, a title without a closing bracket or a bar, perhaps a bar and an alias
      without a closing bracket, neither of them empty, and two brackets. */
  predicate SpelledAt(text: string, i: nat, title: string, alias: Option<string>, end: nat) {
    var t := i + 2 + |title|;
    && Named(title, alias) && Says(text, i, "[[") && Says(text, i + 2, title)
    && if alias.None? then Says(text, t, "]]") && end == t + 2
       else
         var a := t + 1 + |alias.value|;
         Says(text, t, "|") && Says(text, t + 1, alias.value) && Says(text, a, "]]") && end == a + 2
  }

  lemma SaysAt(text: string, i: nat, part: string, k: nat)
    requires Says(text, i, part) && k < |part|
    ensures i + k < |text| && text[i + k] == part[k]
  {
    assert text[i + k] == text[i..i + |part|][k];
  }

  lemma SaysTwo(text: string, i: nat, c: char)
    ensures Says(text, i, [c, c]) <==> Doubled(text, i, c)
  {
    if Doubled(text, i, c) {
      assert text[i..i + 2] == [c, c];
    }
    if Says(text, i, [c, c]) {
      SaysAt(text, i, [c, c], 0);
      SaysAt(text, i, [c, c], 1);
    }
  }

  lemma {:induction false} RunEndIs(text: string, i: nat, inAlias: bool, end: nat)
    requires i <= end < |text| && (text[end] == ']' || (!inAlias && text[end] == '|'))
    requires forall j :: i <= j < end ==> text[j] != ']' && (inAlias || text[j] != '|')
    ensures RunEnd(text, i, inAlias) == end
    decreases end - i
  {
    if i < end {
      RunEndIs(text, i + 1, inAlias, end);
    }
  }

  lemma {:induction false} RunEndPlain(text: string, i: nat, inAlias: bool)
    requires i <= |text|
    ensures var end := RunEnd(text, i, inAlias);
            && (forall j :: i <= j < end ==> text[j] != ']' && (inAlias || text[j] != '|'))
            && (end < |text| ==> text[end] == ']' || (!inAlias && text[end] == '|'))
    decreases |text| - i
  {
    if i < |text| && text[i] != ']' && (inAlias || text[i] != '|') {
      RunEndPlain(text, i + 1, inAlias);
    }
  }

  lemma RunOf(text: string, i: nat, part: string, inAlias: bool)
    requires Says(text, i, part) && ']' !in part && (inAlias || '|' !in part)
    requires i + |part| < |text| && (text[i + |part|] == ']' || (!inAlias && text[i + |part|] == '|'))
    ensures RunEnd(text, i, inAlias) == i + |part|
  {
    forall j | i <= j < i + |part| ensures text[j] != ']' && (inAlias || text[j] != '|') {
      SaysAt(text, i, part, j - i);
      assert part[j - i] in part;
    }
    RunEndIs(text, i, inAlias, i + |part|);
  }

  lemma SpelledPlain(text: string, i: nat, title: string, end: nat)
    requires SpelledAt(text, i, title, None, end)
    ensures MatchAt(text, i) == Some(Match(title, None, end))
  {
    hide RunEnd, Doubled;
    SaysTwo(text, i, '[');
    var t := i + 2 + |title|;
    SaysTwo(text, t, ']');
    SaysAt(text, t, "]]", 0);
    RunOf(text, i + 2, title, false);
  }

  lemma SpelledAliased(text: string, i: nat, title: string, alias: string, end: nat)
    requires SpelledAt(text, i, title, Some(alias), end)
    ensures MatchAt(text, i) == Some(Match(title, Some(alias), end))
  {
    hide RunEnd, Doubled;
    var t := i + 2 + |title|;
    var a := t + 1 + |alias|;
    assert Doubled(text, i, '[') && Doubled(text, a, ']') by { SaysTwo(text, i, '['); SaysTwo(text, a, ']'); }
    assert text[t] == '|' by { SaysAt(text, t, "|", 0); }
    assert RunEnd(text, i + 2, false) == t by { RunOf(text, i + 2, title, false); }
    assert RunEnd(text, t + 1, true) == a by {
      SaysAt(text, a, "]]", 0);
      RunOf(text, t + 1, alias, true);
    }
    NotDoubled(text, t, ']');
  }

  /** What is spelled at a position is matched there. */
  lemma SpelledMatches(text: string, i: nat, title: string, alias: Option<string>, end: nat)
    requires SpelledAt(text, i, title, alias, end)
    ensures MatchAt(text, i) == Some(Match(title, alias, end))
  {
    hide MatchAt;
    if alias.None? {
      SpelledPlain(text, i, title, end);
    } else {
      SpelledAliased(text, i, title, alias.value, end);
    }
  }

  lemma NotDoubled(text: string, i: nat, c: char)
    requires i < |text| && text[i] != c
    ensures !Doubled(text, i, c)
  {
  }

  /** And nothing else is. */
  lemma MatchIsSpelled(text: string, i: nat)
    requires MatchAt(text, i).Some?
    ensures var m := MatchAt(text, i).value; SpelledAt(text, i, m.title, m.alias, m.end)
  {
    hide RunEnd, Doubled;
    var m := MatchAt(text, i).value;
    var t := RunEnd(text, i + 2, false);
    SaysTwo(text, i, '[');
    assert i + 2 <= |text| by { DoubledInside(text, i, '['); }
    RunEndPlain(text, i + 2, false);
    assert text[i + 2..t] == m.title;
    if m.alias.None? {
      SaysTwo(text, t, ']');
    } else {
      var a := RunEnd(text, t + 1, true);
      RunEndPlain(text, t + 1, true);
      SaysTwo(text, a, ']');
      assert text[t..t + 1] == "|";
    }
  }

  lemma DoubledInside(text: string, i: nat, c: char)
    requires Doubled(text, i, c)
    ensures i + 2 <= |text|
  {
  }

  /** The matches are taken from left to right, each behind the one before. */
  lemma {:induction false} LeftmostMatch(text: string, i: nat, k: nat)
    requires i <= k <= |text| && forall j :: i <= j < k ==> MatchAt(text, j).None?
    ensures k == |text| ==> Matches(text, i) == []
    ensures k < |text| && MatchAt(text, k).Some? ==>
              Matches(text, i) == [MatchAt(text, k).value] + Matches(text, MatchAt(text, k).value.end)
    decreases k - i
  {
    hide MatchAt;
    if i < k {
      LeftmostMatch(text, i + 1, k);
    }
  }

  predicate Occurs(ms: seq<Match>, link: WikiLink) {
    ms != [] && (LinkOf(ms[0]) == link || Occurs(ms[1..], link))
  }

  /** Deduplication loses no link and repeats none. */
  lemma {:induction false} DistinctMembers(ms: seq<Match>, seen: set<WikiLink>, l: WikiLink)
    ensures l in Distinct(ms, seen) <==> l.title != "" && l !in seen && Occurs(ms, l)
  {
    if ms != [] {
      var link := LinkOf(ms[0]);
      DistinctMembers(ms[1..], if link.title == "" || link in seen then seen else seen + {link}, l);
    }
  }

  lemma {:induction false} DistinctOnce(ms: seq<Match>, seen: set<WikiLink>)
    ensures forall i, j :: 0 <= i < j < |Distinct(ms, seen)| ==> Distinct(ms, seen)[i] != Distinct(ms, seen)[j]
  {
    if ms != [] {
      var link := LinkOf(ms[0]);
      if link.title == "" || link in seen {
        DistinctOnce(ms[1..], seen);
      } else {
        var rest := Distinct(ms[1..], seen + {link});
        DistinctOnce(ms[1..], seen + {link});
        DistinctMembers(ms[1..], seen + {link}, link);
        assert forall j :: 0 <= j < |rest| ==> rest[j] in rest;
      }
    }
  }

  // ---- resolving a title ----

  datatype NoteRef = NoteRef(path: string, pathWithExt: string, title: string, itemId: Option<string>,
                             identity: Option<string>, aliases: seq<string>, normTitle: string, normStem: string)

  datatype Resolution = Resolved(target: string) | Dangling(target: string) | Ambiguous

  const TIERS := 5

  /** Whether note n answers to a title at one step of the resolution order. */
  predicate Answers(tier: nat, n: NoteRef, title: string, norm: string -> string) {
    match tier
    case 0 => title == n.path || title == n.pathWithExt || n.itemId == Some(title) || n.identity == Some(title)
    case 1 => title == n.title
    case 2 => norm(title) != "" && (norm(title) == n.normTitle || norm(title) == n.normStem)
    case 3 => title in n.aliases
    case 4 => norm(title) != "" && exists i :: 0 <= i < |n.aliases| && norm(n.aliases[i]) == norm(title)
    case _ => false
  }

  function Matching(notes: seq<NoteRef>, tier: nat, title: string, norm: string -> string): seq<NoteRef> {
    if notes == [] then []
    else if Answers(tier, notes[0], title, norm) then [notes[0]] + Matching(notes[1..], tier, title, norm)
    else Matching(notes[1..], tier, title, norm)
  }

  function NoteTarget(title: string): string {
    "note:" + title
  }

  function Finish(title: string, matches: seq<NoteRef>): Resolution
    requires matches != []
  {
    if |matches| > 1 then Ambiguous
    else
      var id := matches[0].itemId;
      Resolved(if id.Some? && id.value != "" then id.value else NoteTarget(title))
  }

  function ResolveFrom(notes: seq<NoteRef>, tier: nat, title: string, norm: string -> string): Resolution
    requires tier <= TIERS
    decreases TIERS - tier
  {
    if tier == TIERS then Dangling(NoteTarget(title))
    else
      var matches := Matching(notes, tier, title, norm);
      if matches != [] then Finish(title, matches) else ResolveFrom(notes, tier + 1, title, norm)
  }

  function Resolve(notes: seq<NoteRef>, title: string, norm: string -> string): Resolution {
    ResolveFrom(notes, 0, title, norm)
  }

  /** The first step of the order at which some note answers; TIERS when none does. */
  predicate FirstTier(notes: seq<NoteRef>, title: string, norm: string -> string, from: nat, k: nat) {
    && from <= k <= TIERS
    && (forall j :: from <= j < k ==> Matching(notes, j, title, norm) == [])
    && (k < TIERS ==> Matching(notes, k, title, norm) != [])
  }

  /** A title resolves exactly when one note answers at the first step where any does. */
  lemma {:induction false} ResolvesAtFirstTier(notes: seq<NoteRef>, title: string, norm: string -> string, from: nat,
      k: nat)
    requires FirstTier(notes, title, norm, from, k)
    ensures var r := ResolveFrom(notes, from, title, norm);
            && (r.Dangling? <==> k == TIERS)
            && (r.Resolved? <==> k < TIERS && |Matching(notes, k, title, norm)| == 1)
            && (r.Ambiguous? <==> k < TIERS && |Matching(notes, k, title, norm)| > 1)
    decreases k - from
  {
    if from < k {
      ResolvesAtFirstTier(notes, title, norm, from + 1, k);
    }
  }

  /** How close a note comes to a title: 0 by its path or an identity, 1 by its title, 2 by
      the normalized title or file name, 3 by an alias, 4 by a normalized alias, 5 not at all. */
  function Bearing(n: NoteRef, title: string, norm: string -> string): (k: nat)
    ensures k <= 5
  {
    if title in {n.path, n.pathWithExt} || Some(title) in {n.itemId, n.identity} then 0
    else if n.title == title then 1
    else if norm(title) != "" && norm(title) in {n.normTitle, n.normStem} then 2
    else if title in n.aliases then 3
    else if norm(title) != "" && exists a :: a in n.aliases && norm(a) == norm(title) then 4
    else 5
  }

  lemma BearingAnswers(n: NoteRef, title: string, norm: string -> string, tier: nat)
    requires tier <= Bearing(n, title, norm)
    ensures Answers(tier, n, title, norm) <==> tier == Bearing(n, title, norm) && tier < 5
  {
    if tier == 4 && Answers(4, n, title, norm) {
      var i :| 0 <= i < |n.aliases| && norm(n.aliases[i]) == norm(title);
      assert n.aliases[i] in n.aliases;
    }
  }

  /** The notes as close as k, when none is closer. */
  lemma {:induction false} MatchingIsClosest(notes: seq<NoteRef>, k: nat, title: string, norm: string -> string)
    requires k < 5 && forall i :: 0 <= i < |notes| ==> Bearing(notes[i], title, norm) >= k
    ensures var ms := Matching(notes, k, title, norm);
            && (forall n :: n in ms <==> n in notes && Bearing(n, title, norm) == k)
            && (|ms| > 1 <==> Pair(notes, k, title, norm))
    decreases |notes|
  {
    hide Bearing, Answers, Pair;
    if notes == [] {
      NoPair(k, title, norm);
    } else {
      var rest := notes[1..];
      BearingAnswers(notes[0], title, norm, k);
      assert notes == [notes[0]] + rest;
      MatchingIsClosest(rest, k, title, norm);
      PairShift(notes, k, title, norm);
      SomeMember(Matching(rest, k, title, norm));
    }
  }

  lemma NoPair(k: nat, title: string, norm: string -> string)
    ensures !Pair([], k, title, norm)
  {
  }

  lemma {:induction false} NoneCloser(notes: seq<NoteRef>, tier: nat, title: string, norm: string -> string)
    requires tier < 5 && forall j :: 0 <= j < |notes| ==> Bearing(notes[j], title, norm) > tier
    ensures Matching(notes, tier, title, norm) == []
    decreases |notes|
  {
    hide Bearing, Answers;
    if notes != [] {
      BearingAnswers(notes[0], title, norm, tier);
      NoneCloser(notes[1..], tier, title, norm);
    }
  }

  ghost predicate Pair(notes: seq<NoteRef>, k: nat, title: string, norm: string -> string) {
    exists i, j :: 0 <= i < j < |notes| && Bearing(notes[i], title, norm) == k && Bearing(notes[j], title, norm) == k
  }

  lemma PairShift(notes: seq<NoteRef>, k: nat, title: string, norm: string -> string)
    requires notes != []
    ensures Pair(notes, k, title, norm)
       <==> || Pair(notes[1..], k, title, norm)
            || (Bearing(notes[0], title, norm) == k
                && exists n :: n in notes[1..] && Bearing(n, title, norm) == k)
  {
    hide Bearing;
    var rest := notes[1..];
    if Pair(notes, k, title, norm) {
      var i, j :| 0 <= i < j < |notes| && Bearing(notes[i], title, norm) == k && Bearing(notes[j], title, norm) == k;
      assert notes[j] == rest[j - 1];
      if i > 0 {
        assert notes[i] == rest[i - 1];
      } else {
        assert rest[j - 1] in rest;
      }
    }
    if Pair(rest, k, title, norm) {
      var i, j :| 0 <= i < j < |rest| && Bearing(rest[i], title, norm) == k && Bearing(rest[j], title, norm) == k;
      assert notes[i + 1] == rest[i] && notes[j + 1] == rest[j];
    }
    if Bearing(notes[0], title, norm) == k && exists n :: n in rest && Bearing(n, title, norm) == k {
      var n :| n in rest && Bearing(n, title, norm) == k;
      var j :| 0 <= j < |rest| && rest[j] == n;
      assert notes[j + 1] == n;
    }
  }

  /** A link goes to the closest note: to its id, or by title when it has none; two notes
      equally close leave it ambiguous, and with no note at all it dangles. */
  lemma ResolvesToClosest(notes: seq<NoteRef>, title: string, norm: string -> string, i: nat)
    requires i < |notes|
    requires forall j :: 0 <= j < |notes| ==> Bearing(notes[j], title, norm) >= Bearing(notes[i], title, norm)
    ensures var k, r, id := Bearing(notes[i], title, norm), Resolve(notes, title, norm), notes[i].itemId;
            && (k == 5 <==> r == Dangling("note:" + title))
            && (k < 5 && (exists j :: 0 <= j < |notes| && j != i && Bearing(notes[j], title, norm) == k)
                <==> r == Ambiguous)
            && (k < 5 && r != Ambiguous ==>
                  r == Resolved(if id.Some? && id.value != "" then id.value else "note:" + title))
  {
    hide Bearing, Answers;
    var k := Bearing(notes[i], title, norm);
    forall j: nat | j < k ensures Matching(notes, j, title, norm) == [] {
      NoneCloser(notes, j, title, norm);
    }
    if k == 5 {
      FirstMatching(notes, title, norm, 0, 5);
    } else {
      MatchingIsClosest(notes, k, title, norm);
      assert notes[i] in notes;
      var ms := Matching(notes, k, title, norm);
      FirstMatching(notes, title, norm, 0, k);
      if j :| 0 <= j < |notes| && j != i && Bearing(notes[j], title, norm) == k {
        assert Pair(notes, k, title, norm);
      }
      assert ms[0] in ms;
    }
  }

  lemma {:induction false} FirstMatching(notes: seq<NoteRef>, title: string, norm: string -> string, from: nat, k: nat)
    requires from <= k <= TIERS && forall j :: from <= j < k ==> Matching(notes, j, title, norm) == []
    requires k < TIERS ==> Matching(notes, k, title, norm) != []
    ensures ResolveFrom(notes, from, title, norm)
         == if k == TIERS then Dangling(NoteTarget(title)) else Finish(title, Matching(notes, k, title, norm))
    decreases k - from
  {
    hide Matching, Finish;
    if from < k {
      FirstMatching(notes, title, norm, from + 1, k);
    }
  }

  lemma {:induction false} MatchingRemove(notes: seq<NoteRef>, i: nat, tier: nat, title: string, norm: string -> string)
    requires i < |notes|
    ensures multiset(Matching(notes, tier, title, norm))
         == multiset(Matching(notes[..i] + notes[i + 1..], tier, title, norm))
            + (if Answers(tier, notes[i], title, norm) then multiset{notes[i]} else multiset{})
    decreases i
  {
    var rest := notes[..i] + notes[i + 1..];
    if i == 0 {
      assert rest == notes[1..];
    } else {
      assert rest[0] == notes[0] && rest[1..] == notes[1..][..i - 1] + notes[1..][i..];
      MatchingRemove(notes[1..], i - 1, tier, title, norm);
    }
  }

  lemma {:induction false} MatchingPermuted(a: seq<NoteRef>, b: seq<NoteRef>, tier: nat, title: string,
      norm: string -> string)
    requires multiset(a) == multiset(b)
    ensures multiset(Matching(a, tier, title, norm)) == multiset(Matching(b, tier, title, norm))
  {
    if a == [] {
      assert |b| == |multiset(b)| == |multiset(a)| == |a|;
    } else {
      var i := WithoutFirst(a, b);
      MatchingPermuted(a[1..], b[..i] + b[i + 1..], tier, title, norm);
      MatchingRemove(b, i, tier, title, norm);
    }
  }

  lemma WithoutFirst(a: seq<NoteRef>, b: seq<NoteRef>) returns (i: nat)
    requires a != [] && multiset(a) == multiset(b)
    ensures i < |b| && b[i] == a[0] && multiset(a[1..]) == multiset(b[..i] + b[i + 1..])
  {
    i := IndexOf(a, b);
    Apart(b, i);
    AfterFirst(a);
  }

  lemma AfterFirst(a: seq<NoteRef>)
    requires a != []
    ensures multiset(a[1..]) == multiset(a) - multiset{a[0]}
  {
    assert a == [a[0]] + a[1..];
  }

  lemma IndexOf(a: seq<NoteRef>, b: seq<NoteRef>) returns (i: nat)
    requires a != [] && multiset(a) == multiset(b)
    ensures i < |b| && b[i] == a[0]
  {
    assert a[0] in multiset(a);
    i :| 0 <= i < |b| && b[i] == a[0];
  }

  lemma Apart(a: seq<NoteRef>, i: nat)
    requires i < |a|
    ensures multiset(a[..i] + a[i + 1..]) == multiset(a) - multiset{a[i]}
  {
    assert a == a[..i] + [a[i]] + a[i + 1..];
    assert multiset(a) == multiset(a[..i]) + multiset{a[i]} + multiset(a[i + 1..]);
  }

  /** Resolution does not depend on the order in which the notes were scanned. */
  lemma {:induction false} OrderIndependent(a: seq<NoteRef>, b: seq<NoteRef>, tier: nat, title: string,
      norm: string -> string)
    requires multiset(a) == multiset(b) && tier <= TIERS
    ensures ResolveFrom(a, tier, title, norm) == ResolveFrom(b, tier, title, norm)
    decreases TIERS - tier
  {
    hide Matching, Finish;
    if tier < TIERS {
      MatchingPermuted(a, b, tier, title, norm);
      SameFinish(title, Matching(a, tier, title, norm), Matching(b, tier, title, norm));
      OrderIndependent(a, b, tier + 1, title, norm);
    }
  }

  lemma SameFinish(title: string, a: seq<NoteRef>, b: seq<NoteRef>)
    requires multiset(a) == multiset(b)
    ensures a == [] <==> b == []
    ensures a != [] ==> Finish(title, a) == Finish(title, b)
  {
    assert |a| == |multiset(a)| && |b| == |multiset(b)|;
    if |a| == 1 {
      assert a == [a[0]] && b == [b[0]];
      assert multiset(a)[a[0]] == 1;
      assert a[0] in b;
    }
  }

  // ---- the relationship store ----

  datatype Kind = References | DerivedFrom | ObservedIn | Supersedes | ConflictsWith

  /** A row of the store; rows are kept in insertion order. */
  datatype Rel = Rel(source: string, target: string, kind: Kind)

  function Without(rows: seq<Rel>, gone: set<Rel>): seq<Rel> {
    if rows == [] then []
    else if rows[0] in gone then Without(rows[1..], gone)
    else [rows[0]] + Without(rows[1..], gone)
  }

  function Outgoing(rows: seq<Rel>, source: string): set<string> {
    set r | r in rows && r.source == source && r.kind == References :: r.target
  }

  function Edges(source: string, targets: seq<string>): seq<Rel> {
    seq(|targets|, i requires 0 <= i < |targets| => Rel(source, targets[i], References))
  }

  function EdgeSet(source: string, targets: set<string>): set<Rel> {
    set t | t in targets :: Rel(source, t, References)
  }

  /** list(kind=REFERENCES, limit=n): the newest rows first cut off at n. */
  function Newest(rows: seq<Rel>, n: nat): seq<Rel>
    decreases |rows|
  {
    if rows == [] || n == 0 then []
    else
      var last := rows[|rows| - 1];
      if last.kind == References then [last] + Newest(rows[..|rows| - 1], n - 1) else Newest(rows[..|rows| - 1], n)
  }

  lemma {:induction false} WithoutMembers(rows: seq<Rel>, gone: set<Rel>)
    ensures forall r: Rel :: r in Without(rows, gone) <==> r in rows && r !in gone
    ensures (forall r: Rel :: r in rows ==> r !in gone) ==> Without(rows, gone) == rows
  {
    if rows != [] {
      assert rows == [rows[0]] + rows[1..];
      WithoutMembers(rows[1..], gone);
    }
  }

  lemma {:induction false} WithoutTwice(rows: seq<Rel>, a: set<Rel>, b: set<Rel>)
    ensures Without(Without(rows, a), b) == Without(rows, a + b)
  {
    if rows != [] {
      WithoutTwice(rows[1..], a, b);
    }
  }

  lemma {:induction false} NewestMembers(rows: seq<Rel>, n: nat)
    ensures forall r: Rel :: r in Newest(rows, n) ==> r in rows && r.kind == References
    decreases |rows|
  {
    if rows != [] && n > 0 {
      var init := rows[..|rows| - 1];
      var last := rows[|rows| - 1];
      NewestMembers(init, if last.kind == References then n - 1 else n);
      assert rows == init + [last];
    }
  }

  function ReferenceCount(rows: seq<Rel>): nat
    decreases |rows|
  {
    if rows == [] then 0
    else (if rows[|rows| - 1].kind == References then 1 else 0) + ReferenceCount(rows[..|rows| - 1])
  }

  /** With no more reference rows than the limit, the listing has all of them. */
  lemma {:induction false} NewestHasAll(rows: seq<Rel>, n: nat)
    requires ReferenceCount(rows) <= n
    ensures forall r: Rel :: r in rows && r.kind == References ==> r in Newest(rows, n)
    decreases |rows|
  {
    if rows != [] {
      var init := rows[..|rows| - 1];
      var last := rows[|rows| - 1];
      assert rows == init + [last];
      if n > 0 {
        NewestHasAll(init, if last.kind == References then n - 1 else n);
      } else {
        NewestHasAll(init, 0);
      }
    }
  }

  // ---- the diff of one note, the orphan sweep, a full pass ----

  /** A parsed file: its place in the index, its id ("" for none), and its body with the
      related property appended. */
  datatype File = File(ref: NoteRef, id: string, text: string)

  function TargetsOf(notes: seq<NoteRef>, links: seq<WikiLink>, norm: string -> string): set<string> {
    if links == [] then {}
    else
      var r := Resolve(notes, links[0].title, norm);
      (if r.Ambiguous? then {} else {r.target}) + TargetsOf(notes, links[1..], norm)
  }

  /** The targets the links of one file ask for; ambiguous links ask for none. */
  function Desired(notes: seq<NoteRef>, f: File, norm: string -> string): set<string> {
    TargetsOf(notes, Links(f.text), norm)
  }

  /** A target is asked for when some link of the file resolves to it or dangles at it. */
  lemma {:induction false} TargetsMean(notes: seq<NoteRef>, links: seq<WikiLink>, norm: string -> string,
                                       target: string)
    ensures target in TargetsOf(notes, links, norm)
       <==> exists i :: 0 <= i < |links| && Resolve(notes, links[i].title, norm) in {Resolved(target), Dangling(target)}
    decreases |links|
  {
    hide ResolveFrom, Resolve;
    if links != [] {
      TargetsMean(notes, links[1..], norm, target);
      assert forall i :: 0 < i < |links| ==> links[i] == links[1..][i - 1];
    }
  }

  /** The rows after one note's diff; order lists the targets to add. */
  function Diff(rows: seq<Rel>, source: string, desired: set<string>, order: set<string> -> seq<string>): seq<Rel> {
    var existing := Outgoing(rows, source);
    Without(rows, EdgeSet(source, existing - desired)) + Edges(source, order(desired - existing))
  }

  function DiffAll(rows: seq<Rel>, notes: seq<NoteRef>, files: seq<File>, norm: string -> string,
                   order: set<string> -> seq<string>): seq<Rel>
    decreases |files|
  {
    if files == [] then rows
    else if files[0].id == "" then DiffAll(rows, notes, files[1..], norm, order)
    else
      DiffAll(Diff(rows, files[0].id, Desired(notes, files[0], norm), order), notes, files[1..], norm, order)
  }

  function CurrentIds(notes: seq<NoteRef>): set<string> {
    set i | 0 <= i < |notes| && notes[i].itemId.Some? && notes[i].itemId.value != "" :: notes[i].itemId.value
  }

  lemma CurrentIdsMean(notes: seq<NoteRef>, id: string)
    ensures id in CurrentIds(notes) <==> id != "" && exists i :: 0 <= i < |notes| && notes[i].itemId == Some(id)
  {
  }

  /** The reference rows the sweep sees and whose source is no note. */
  function Orphans(rows: seq<Rel>, ids: set<string>, limit: nat): set<Rel> {
    set r | r in Newest(rows, limit) && r.source !in ids
  }

  function Swept(rows: seq<Rel>, ids: set<string>, limit: nat): seq<Rel> {
    Without(rows, Orphans(rows, ids, limit))
  }

  function RefsOf(files: seq<File>): seq<NoteRef> {
    seq(|files|, i requires 0 <= i < |files| => files[i].ref)
  }

  const SWEEP_LIMIT := 5000

  function SyncRows(rows: seq<Rel>, files: seq<File>, norm: string -> string,
      order: set<string> -> seq<string>): seq<Rel> {
    var notes := RefsOf(files);
    Swept(DiffAll(rows, notes, files, norm, order), CurrentIds(notes), SWEEP_LIMIT)
  }

  /** sorted(): some listing of a set, each element once. */
  ghost predicate Lists(order: set<string> -> seq<string>) {
    forall s ::
      && (forall t :: t in order(s) <==> t in s)
      && (forall i, j :: 0 <= i < j < |order(s)| ==> order(s)[i] != order(s)[j])
  }

  lemma {:induction false} WithoutNothing(rows: seq<Rel>)
    ensures Without(rows, {}) == rows
  {
    WithoutMembers(rows, {});
  }

  /** Every note's references already are what its links ask for, and no listed row is an orphan. */
  ghost predicate Quiet(rows: seq<Rel>, files: seq<File>, norm: string -> string) {
    && (forall i :: 0 <= i < |files| && files[i].id != "" ==>
          Outgoing(rows, files[i].id) == Desired(RefsOf(files), files[i], norm))
    && Orphans(rows, CurrentIds(RefsOf(files)), SWEEP_LIMIT) == {}
  }

  lemma DiffOfEqual(rows: seq<Rel>, source: string, order: set<string> -> seq<string>)
    requires Lists(order)
    ensures Diff(rows, source, Outgoing(rows, source), order) == rows
  {
    var none := Outgoing(rows, source) - Outgoing(rows, source);
    assert none == {} && EdgeSet(source, none) == {};
    WithoutNothing(rows);
    NothingListed(order);
    assert rows + [] == rows;
  }

  lemma NothingListed(order: set<string> -> seq<string>)
    requires Lists(order)
    ensures order({}) == []
  {
    SomeMember(order({}));
  }

  lemma DiffAllStep(rows: seq<Rel>, notes: seq<NoteRef>, files: seq<File>, i: nat, norm: string -> string,
                    order: set<string> -> seq<string>)
    requires i < |files|
    ensures DiffAll(rows, notes, files[i..], norm, order)
         == if files[i].id == "" then DiffAll(rows, notes, files[i + 1..], norm, order)
            else DiffAll(Diff(rows, files[i].id, Desired(notes, files[i], norm), order), notes, files[i + 1..],
                         norm, order)
  {
    hide Diff, Desired;
    assert files[i..][0] == files[i] && files[i..][1..] == files[i + 1..];
  }

  lemma NoneToDiff(rows: seq<Rel>, notes: seq<NoteRef>, files: seq<File>, norm: string -> string,
                   order: set<string> -> seq<string>)
    requires files == []
    ensures DiffAll(rows, notes, files, norm, order) == rows
  {
  }

  lemma NoneSwept(rows: seq<Rel>, ids: set<string>)
    requires Orphans(rows, ids, SWEEP_LIMIT) == {}
    ensures Swept(rows, ids, SWEEP_LIMIT) == rows
  {
    WithoutNothing(rows);
  }

  class WikilinkSynchronizer {
    /** The relationship store. */
    var rows: seq<Rel>
    // WikilinkSyncReport
    var scanned: nat
    var added: nat
    var removed: nat
    var kept: nat

    constructor (initial: seq<Rel>)
      ensures rows == initial
    {
      rows := initial;
      scanned, added, removed, kept := 0, 0, 0, 0;
    }

    method DesiredTargets(notes: seq<NoteRef>, f: File, norm: string -> string) returns (desired: set<string>)
      ensures desired == Desired(notes, f, norm)
    {
      var links := ParseWikilinks(f.text);
      desired := {};
      assert links[0..] == links;
      for i := 0 to |links|
        invariant desired + TargetsOf(notes, links[i..], norm) == TargetsOf(notes, links, norm)
      {
        assert links[i..][0] == links[i] && links[i..][1..] == links[i + 1..];
        var res := Resolve(notes, links[i].title, norm);
        if !res.Ambiguous? {
          desired := desired + {res.target};
        }
      }
      assert links[|links|..] == [];
    }

    method RemoveAll(source: string, targets: set<string>)
      modifies this`rows
      ensures rows == Without(old(rows), EdgeSet(source, targets))
    {
      var left := targets;
      ghost var gone: set<Rel> := {};
      WithoutNothing(rows);
      while left != {}
        invariant left <= targets
        invariant gone == EdgeSet(source, targets - left)
        invariant rows == Without(old(rows), gone)
      {
        var target :| target in left;
        WithoutTwice(old(rows), gone, {Rel(source, target, References)});
        rows := Without(rows, {Rel(source, target, References)});
        gone := gone + {Rel(source, target, References)};
        left := left - {target};
      }
      assert targets - left == targets;
    }

    method DiffNote(notes: seq<NoteRef>, f: File, norm: string -> string, order: set<string> -> seq<string>)
      modifies this`rows, this`added, this`removed, this`kept
      ensures rows == Diff(old(rows), f.id, Desired(notes, f, norm), order)
      ensures var existing, desired := Outgoing(old(rows), f.id), Desired(notes, f, norm);
              && added == old(added) + |desired - existing| && removed == old(removed) + |existing - desired|
              && kept == old(kept) + |existing * desired|
    {
      var desired := DesiredTargets(notes, f, norm);
      var existing := Outgoing(rows, f.id);
      var toAdd, toRemove := desired - existing, existing - desired;
      RemoveAll(f.id, toRemove);
      rows := rows + Edges(f.id, order(toAdd));
      added := added + |toAdd|;
      removed := removed + |toRemove|;
      kept := kept + |existing * desired|;
    }

    method SweepOrphans(ids: set<string>)
      modifies this`rows, this`removed
      ensures rows == Swept(old(rows), ids, SWEEP_LIMIT)
      ensures Orphans(old(rows), ids, SWEEP_LIMIT) == {} ==> removed == old(removed)
    {
      var listed := Newest(rows, SWEEP_LIMIT);
      ghost var orphans := Orphans(rows, ids, SWEEP_LIMIT);
      ghost var gone: set<Rel> := {};
      WithoutNothing(rows);
      for i := 0 to |listed|
        invariant gone <= orphans && forall j :: 0 <= j < i && listed[j].source !in ids ==> listed[j] in gone
        invariant rows == Without(old(rows), gone)
        invariant gone == {} ==> removed == old(removed)
      {
        var r := listed[i];
        if r.source !in ids {
          WithoutTwice(old(rows), gone, {r});
          rows := Without(rows, {r});
          gone := gone + {r};
          removed := removed + 1;
        }
      }
      assert gone == orphans;
    }

    method SyncAll(files: seq<File>, norm: string -> string, order: set<string> -> seq<string>)
      requires Lists(order)
      modifies this
      ensures rows == SyncRows(old(rows), files, norm, order)
      ensures Quiet(old(rows), files, norm) ==> rows == old(rows) && added == 0 && removed == 0
    {
      hide DiffAll, Desired, Outgoing, Orphans, RefsOf, CurrentIds, Swept;
      ghost var quiet := Quiet(rows, files, norm);
      ghost var start := rows;
      scanned, added, removed, kept := 0, 0, 0, 0;
      var notes := RefsOf(files);
      assert files[0..] == files;
      for i := 0 to |files|
        invariant DiffAll(rows, notes, files[i..], norm, order) == DiffAll(start, notes, files, norm, order)
        invariant quiet ==> added == 0 && removed == 0 && rows == start
      {
        DiffAllStep(rows, notes, files, i, norm, order);
        if files[i].id == "" {
          continue;
        }
        scanned := scanned + 1;
        if quiet {
          DiffOfEqual(rows, files[i].id, order);
        }
        DiffNote(notes, files[i], norm, order);
      }
      NoneToDiff(rows, notes, files[|files|..], norm, order);
      ghost var diffed := rows;
      SweepOrphans(CurrentIds(notes));
      assert rows == Swept(diffed, CurrentIds(notes), SWEEP_LIMIT);
      if quiet {
        NoneSwept(start, CurrentIds(notes));
      }
    }
  }

  // ---- what a full pass leaves ----

  /** No later file is synced under the same id. */
  predicate LastWithId(files: seq<File>, i: nat)
    requires i < |files|
  {
    files[i].id != "" && forall j :: i < j < |files| ==> files[j].id != files[i].id
  }

  lemma {:induction false} SomeLast(files: seq<File>, i: nat) returns (k: nat)
    requires i < |files| && files[i].id != ""
    ensures i <= k < |files| && files[k].id == files[i].id && LastWithId(files, k)
    decreases |files| - i
  {
    if LastWithId(files, i) {
      k := i;
    } else {
      var j :| i < j < |files| && files[j].id == files[i].id;
      k := SomeLast(files, j);
    }
  }

  lemma DiffEffect(rows: seq<Rel>, source: string, desired: set<string>, order: set<string> -> seq<string>)
    requires Lists(order)
    ensures var after := Diff(rows, source, desired, order);
            && Outgoing(after, source) == desired
            && (forall r: Rel :: r.kind != References || r.source != source ==> (r in after <==> r in rows))
  {
    var existing := Outgoing(rows, source);
    var kept := Without(rows, EdgeSet(source, existing - desired));
    var new_ := Edges(source, order(desired - existing));
    WithoutMembers(rows, EdgeSet(source, existing - desired));
    forall t ensures t in Outgoing(kept + new_, source) <==> t in desired {
      var r := Rel(source, t, References);
      EdgesMember(source, order(desired - existing), t);
      assert r in kept + new_ <==> r in kept || r in new_;
      assert t in existing <==> r in rows;
    }
    forall r: Rel | r.kind != References || r.source != source ensures r in kept + new_ <==> r in rows {
      assert r !in new_;
    }
  }

  lemma EdgesMember(source: string, targets: seq<string>, t: string)
    ensures Rel(source, t, References) in Edges(source, targets) <==> t in targets
  {
    if t in targets {
      var i :| 0 <= i < |targets| && targets[i] == t;
      assert Edges(source, targets)[i] == Rel(source, t, References);
    }
  }

  lemma {:induction false} DiffAllEffect(rows: seq<Rel>, notes: seq<NoteRef>, files: seq<File>, norm: string -> string,
                                         order: set<string> -> seq<string>)
    requires Lists(order)
    ensures var after := DiffAll(rows, notes, files, norm, order);
            && (forall i :: 0 <= i < |files| && LastWithId(files, i) ==>
                  Outgoing(after, files[i].id) == Desired(notes, files[i], norm))
            && (forall r: Rel :: r.kind != References || Foreign(files, r.source) ==> (r in after <==> r in rows))
    decreases |files|
  {
    hide Diff, Desired;
    if files != [] {
      var f, rest := files[0], files[1..];
      var next := if f.id == "" then rows else Diff(rows, f.id, Desired(notes, f, norm), order);
      if f.id != "" {
        DiffEffect(rows, f.id, Desired(notes, f, norm), order);
      }
      DiffAllEffect(next, notes, rest, norm, order);
      var after := DiffAll(next, notes, rest, norm, order);
      if LastWithId(files, 0) {
        forall i | 0 <= i < |rest| ensures rest[i].id != f.id {
          assert rest[i] == files[i + 1];
        }
        SameOutgoing(next, after, f.id);
      }
      forall i | 0 < i < |files| && LastWithId(files, i)
        ensures Outgoing(after, files[i].id) == Desired(notes, files[i], norm)
      {
        assert files[i] == rest[i - 1] && LastWithId(rest, i - 1);
      }
      forall r: Rel | Foreign(files, r.source) ensures Foreign(rest, r.source) && (r.source == "" || r.source != f.id) {
      }
    }
  }

  /** No file is synced under this id. */
  predicate Foreign(files: seq<File>, id: string) {
    id == "" || forall i :: 0 <= i < |files| ==> files[i].id != id
  }

  lemma SameOutgoing(a: seq<Rel>, b: seq<Rel>, source: string)
    requires forall r: Rel :: r.source == source && r.kind == References ==> (r in a <==> r in b)
    ensures Outgoing(a, source) == Outgoing(b, source)
  {
  }

  lemma SweptEffect(rows: seq<Rel>, ids: set<string>, limit: nat)
    ensures forall r: Rel :: r in Swept(rows, ids, limit) <==>
              r in rows && !(r in Newest(rows, limit) && r.source !in ids)
    ensures forall id :: id in ids ==> Outgoing(Swept(rows, ids, limit), id) == Outgoing(rows, id)
  {
    WithoutMembers(rows, Orphans(rows, ids, limit));
  }

  /** After a full pass every note whose id is in the index refers to exactly what its links
      ask for (those of the last file, should two share an id); a source in the index that
      no file is synced under, and every row of another kind, is as before; and a source
      that is not in the index keeps exactly the rows that were too old for the sweep to see. */
  lemma PassReconciles(rows: seq<Rel>, files: seq<File>, norm: string -> string, order: set<string> -> seq<string>)
    requires Lists(order)
    ensures var notes := RefsOf(files);
            var diffed, ids := DiffAll(rows, notes, files, norm, order), CurrentIds(notes);
            var after := SyncRows(rows, files, norm, order);
            && (forall i :: 0 <= i < |files| && LastWithId(files, i) && files[i].id in ids ==>
                  Outgoing(after, files[i].id) == Desired(notes, files[i], norm))
            && (forall r: Rel :: r.kind != References || (r.source in ids && Foreign(files, r.source)) ==>
                  (r in after <==> r in rows))
            && (forall r: Rel :: r.kind == References && r.source !in ids ==>
                  (r in after <==> r in diffed && r !in Newest(diffed, SWEEP_LIMIT)))
            && (forall r: Rel :: r.kind == References && Foreign(files, r.source) ==> (r in diffed <==> r in rows))
  {
    hide Desired;
    var notes := RefsOf(files);
    var diffed := DiffAll(rows, notes, files, norm, order);
    DiffAllEffect(rows, notes, files, norm, order);
    SweptEffect(diffed, CurrentIds(notes), SWEEP_LIMIT);
    NewestMembers(diffed, SWEEP_LIMIT);
  }

  /** What a file needs for a second pass to leave it alone: an id the index knows, as long
      as it has links, and no other file under the same id with other links. */
  ghost predicate Settled(files: seq<File>, norm: string -> string) {
    var notes := RefsOf(files);
    forall i :: 0 <= i < |files| && files[i].id != "" ==>
      && (files[i].id in CurrentIds(notes) || Desired(notes, files[i], norm) == {})
      && forall j :: i < j < |files| && files[j].id == files[i].id ==>
           Desired(notes, files[j], norm) == Desired(notes, files[i], norm)
  }

  /** With at most SWEEP_LIMIT reference rows no reference from outside the index is left,
      and a second pass adds and removes nothing if and only if the files are settled. */
  lemma SecondPassIsQuiet(rows: seq<Rel>, files: seq<File>, norm: string -> string, order: set<string> -> seq<string>)
    requires Lists(order)
    requires ReferenceCount(DiffAll(rows, RefsOf(files), files, norm, order)) <= SWEEP_LIMIT
    ensures var after := SyncRows(rows, files, norm, order);
            && (forall r: Rel :: r in after && r.kind == References ==> r.source in CurrentIds(RefsOf(files)))
            && (Quiet(after, files, norm) <==> Settled(files, norm))
  {
    hide Desired, SyncRows, LastWithId, CurrentIds;
    var notes := RefsOf(files);
    var ids := CurrentIds(notes);
    var diffed := DiffAll(rows, notes, files, norm, order);
    var after := SyncRows(rows, files, norm, order);
    PassReconciles(rows, files, norm, order);
    NewestHasAll(diffed, SWEEP_LIMIT);
    NewestMembers(after, SWEEP_LIMIT);
    forall i | 0 <= i < |files| && files[i].id != ""
      ensures exists k :: LeftBy(after, files, i, k, ids, norm)
    {
      var k := SomeLast(files, i);
      assert LeftBy(after, files, i, k, ids, norm);
    }
    QuietIsSettled(after, files, norm);
  }

  /** File k is the last with the id of file i, and decides what that id refers to. */
  ghost predicate LeftBy(after: seq<Rel>, files: seq<File>, i: nat, k: int, ids: set<string>, norm: string -> string)
    requires i < |files|
  {
    && i <= k < |files| && files[k].id == files[i].id
    && Outgoing(after, files[i].id) == if files[i].id in ids then Desired(RefsOf(files), files[k], norm) else {}
  }

  lemma QuietIsSettled(after: seq<Rel>, files: seq<File>, norm: string -> string)
    requires Orphans(after, CurrentIds(RefsOf(files)), SWEEP_LIMIT) == {}
    requires forall i :: 0 <= i < |files| && files[i].id != "" ==>
               exists k :: LeftBy(after, files, i, k, CurrentIds(RefsOf(files)), norm)
    ensures Quiet(after, files, norm) <==> Settled(files, norm)
  {
    hide Desired, Outgoing, Orphans, CurrentIds, RefsOf;
    var notes := RefsOf(files);
    var ids := CurrentIds(notes);
    forall i | 0 <= i < |files| && files[i].id != ""
      ensures Settled(files, norm) ==> Outgoing(after, files[i].id) == Desired(notes, files[i], norm)
    {
      var k :| LeftBy(after, files, i, k, ids, norm);
    }
    forall i | 0 <= i < |files| && files[i].id != "" && Quiet(after, files, norm)
      ensures files[i].id in ids || Desired(notes, files[i], norm) == {}
    {
      var k :| LeftBy(after, files, i, k, ids, norm);
    }
  }

  /** An id the index does not know, such as a boolean one: every pass adds the file's
      references and sweeps them away again. */
  lemma UnlistedIdChurns(rows: seq<Rel>, files: seq<File>, norm: string -> string, order: set<string> -> seq<string>,
      i: nat)
    requires Lists(order) && i < |files| && LastWithId(files, i) && files[i].id !in CurrentIds(RefsOf(files))
    requires ReferenceCount(DiffAll(rows, RefsOf(files), files, norm, order)) <= SWEEP_LIMIT
    ensures Outgoing(DiffAll(rows, RefsOf(files), files, norm, order), files[i].id)
            == Desired(RefsOf(files), files[i], norm)
    ensures Outgoing(SyncRows(rows, files, norm, order), files[i].id) == {}
  {
    hide Desired, SyncRows, CurrentIds;
    DiffAllEffect(rows, RefsOf(files), files, norm, order);
    SecondPassIsQuiet(rows, files, norm, order);
  }

  lemma MatchOfShort()
    ensures MatchAt("[[t]]", 0) == Some(Match("t", None, 5))
  {
    var text := "[[t]]";
    assert RunEnd(text, 3, false) == 3;
    assert RunEnd(text, 2, false) == 3;
    assert text[2..3] == "t";
  }

  lemma LinkOfShort()
    ensures Links("[[t]]") == [WikiLink("t", None)]
  {
    hide MatchAt;
    MatchOfShort();
    var m := Match("t", None, 5);
    var ms := [m];
    assert Matches("[[t]]", 5) == [];
    assert Matches("[[t]]", 0) == ms;
    assert LinkOf(m) == WikiLink("t", None) by { assert Strip("t") == "t"; }
    hide LinkOf;
    assert ms[1..] == [];
    assert Distinct(ms[1..], {WikiLink("t", None)}) == [];
  }

  /** A note the index has no id for answers for no id: its links are dangling or by title. */
  lemma {:induction false} UnlistedResolves(n: NoteRef, tier: nat, title: string, norm: string -> string)
    requires n.itemId.None? && tier <= TIERS
    ensures var r := ResolveFrom([n], tier, title, norm); !r.Ambiguous? && r.target == NoteTarget(title)
    decreases TIERS - tier
  {
    hide Answers;
    assert [n][1..] == [] && Matching([], tier, title, norm) == [];
    if tier < TIERS {
      assert Matching([n], tier, title, norm) == if Answers(tier, n, title, norm) then [n] else [];
      UnlistedResolves(n, tier + 1, title, norm);
    }
  }

  lemma OneListed(order: set<string> -> seq<string>, x: string)
    requires Lists(order)
    ensures order({x}) == [x]
  {
    var out := order({x});
    assert forall t :: t in out <==> t in {x};
    SomeMember(out);
    if |out| >= 2 {
      TwoDiffer(out);
      assert false;
    }
    assert out[0] in out;
  }

  /** The index drops a boolean id while the diff syncs under its text: a note with such an
      id and one link. Every pass adds the reference and sweeps it away, and the store is
      never quiet. */
  lemma BooleanIdChurns(ref: NoteRef, norm: string -> string, order: set<string> -> seq<string>)
    requires ref.itemId.None? && Lists(order)
    ensures var files := [File(ref, "True", "[[t]]")];
            && DiffAll([], RefsOf(files), files, norm, order) == [Rel("True", NoteTarget("t"), References)]
            && SyncRows([], files, norm, order) == []
            && !Quiet([], files, norm)
  {
    hide Links, Resolve, NoteTarget, Lists;
    var f := File(ref, "True", "[[t]]");
    var files := [f];
    var notes := RefsOf(files);
    var target := NoteTarget("t");
    assert notes == [ref];
    assert Desired(notes, f, norm) == {target} by { ShortDesired(ref, norm); }
    OneListed(order, target);
    var edge := Rel("True", target, References);
    assert {target} - Outgoing([], "True") == {target};
    assert Edges("True", [target]) == [edge] && [] + [edge] == [edge];
    assert files[1..] == [];
    assert DiffAll([], notes, files, norm, order) == [edge];
    assert CurrentIds(notes) == {};
    OneSwept(edge);
    assert Outgoing([], "True") == {};
  }

  lemma ShortDesired(ref: NoteRef, norm: string -> string)
    requires ref.itemId.None?
    ensures Desired([ref], File(ref, "True", "[[t]]"), norm) == {NoteTarget("t")}
  {
    hide Links, ResolveFrom;
    LinkOfShort();
    UnlistedResolves(ref, 0, "t", norm);
    var links := [WikiLink("t", None)];
    assert links[1..] == [];
    assert TargetsOf([ref], links[1..], norm) == {};
  }

  lemma OneSwept(edge: Rel)
    requires edge.kind == References
    ensures Swept([edge], {}, SWEEP_LIMIT) == []
  {
    NewestHasAll([edge], SWEEP_LIMIT);
    SweptEffect([edge], {}, SWEEP_LIMIT);
    var left := Swept([edge], {}, SWEEP_LIMIT);
    assert forall r: Rel :: r !in left;
    SomeMember(left);
  }
}
