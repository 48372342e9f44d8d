/** The citations of an answer, and their check against the manifest of sources. */
module Citations {
  import opened Text
  import opened Evidence

  // ---- the citations of a text ----

  predicate IsDigit(c: char) {
    '0' <= c <= '9'
  }

  function DigitsEnd(s: string, i: nat): (k: nat)
    requires i <= |s|
    ensures i <= k <= |s| && (forall j :: i <= j < k ==> IsDigit(s[j])) && (k < |s| ==> !IsDigit(s[k]))
    decreases |s| - i
  {
    if i < |s| && IsDigit(s[i]) then DigitsEnd(s, i + 1) else i
  }

  /** The id cited at position i: a bracket, S, digits, a bracket. */
  function CitedAt(s: string, i: nat): Option<string>
    requires i <= |s|
  {
    if i + 3 < |s| && s[i] == '[' && s[i + 1] == 'S' then
      var k := DigitsEnd(s, i + 2);
      if i + 2 < k < |s| && s[k] == ']' then Some(s[i + 1..k]) else None
    else None
  }

  /** S and at least one digit. */
  predicate IsId(id: string) {
    |id| >= 2 && id[0] == 'S' && forall j :: 1 <= j < |id| ==> id[j] in "0123456789"
  }

  lemma DigitsMean(c: char)
    ensures IsDigit(c) <==> c in "0123456789"
  {
    if IsDigit(c) {
      assert "0123456789"[c as int - '0' as int] == c;
    }
  }

  /** An id is cited at a position exactly when it stands there in brackets. */
  lemma CitedMeans(s: string, i: nat, id: string)
    requires i <= |s|
    ensures CitedAt(s, i) == Some(id) <==> IsId(id) && "[" + id + "]" <= s[i..]
  {
    hide IsDigit;
    forall c ensures IsDigit(c) <==> c in "0123456789" {
      DigitsMean(c);
    }
    if CitedAt(s, i) == Some(id) {
      assert s[i..][..|id| + 2] == "[" + id + "]";
    }
    if IsId(id) && "[" + id + "]" <= s[i..] {
      var text := "[" + id + "]";
      assert forall j :: 0 <= j < |text| ==> s[i + j] == text[j];
      assert forall j :: 0 <= j < |id| ==> s[i + 1 + j] == id[j];
      var k := DigitsEnd(s, i + 2);
      assert s[i + 1 + |id|] == ']' && !IsDigit(']');
      assert forall j :: i + 2 <= j < i + 1 + |id| ==> s[j] == id[j - i - 1];
      assert k == i + 1 + |id|;
      assert s[i + 1..k] == id;
    }
  }

  /** The ids the manifest gives out are ids that can be cited, each with its number. */
  lemma SourceIdMeans(n: nat)
    ensures IsId(SourceId(n)) && Value(SourceId(n)[1..]) == n
  {
    DecimalMeans(n);
    assert SourceId(n)[1..] == Decimal(n);
    forall j | 1 <= j < |SourceId(n)| ensures SourceId(n)[j] in "0123456789" {
      DigitsMean(SourceId(n)[j]);
    }
  }

  function CitedFrom(s: string, i: nat): seq<string>
    requires i <= |s|
    decreases |s| - i
  {
    if i == |s| then []
    else (if CitedAt(s, i).Some? then [CitedAt(s, i).value] else []) + CitedFrom(s, i + 1)
  }

  /** Inside a citation no other one begins. */
  lemma {:induction false} NoneInside(s: string, i: nat, to: nat)
    requires i <= to <= |s| && forall j :: i <= j < to ==> s[j] != '['
    ensures CitedFrom(s, i) == CitedFrom(s, to)
    decreases |s| - i
  {
    if i < to {
      NoneInside(s, i + 1, to);
    }
  }

  lemma {:induction false} CitedMembers(s: string, i: nat, id: string)
    requires i <= |s|
    ensures id in CitedFrom(s, i) <==> exists j: nat :: i <= j <= |s| && CitedAt(s, j) == Some(id)
    decreases |s| - i
  {
    if i < |s| {
      CitedMembers(s, i + 1, id);
    }
  }

  /** The ids, each where it comes first, behind those seen already. */
  function Distinct(ids: seq<string>, seen: seq<string>): seq<string>
    decreases |ids|
  {
    if ids == [] then seen else Distinct(ids[1..], if ids[0] in seen then seen else seen + [ids[0]])
  }

  function FirstIndex(ids: seq<string>, id: string): (k: nat)
    ensures k <= |ids| && (k < |ids| <==> id in ids)
  {
    if ids == [] || ids[0] == id then 0 else 1 + FirstIndex(ids[1..], id)
  }

  lemma {:induction false} FirstIndexIn(a: seq<string>, b: seq<string>, id: string)
    ensures FirstIndex(a + b, id) == if id in a then FirstIndex(a, id) else |a| + FirstIndex(b, id)
    decreases |a|
  {
    if a == [] {
      assert a + b == b;
    } else {
      assert (a + b)[1..] == a[1..] + b;
      FirstIndexIn(a[1..], b, id);
    }
  }

  /** All of the ids, and in the order in which each is first cited. */
  predicate InOrder(out: seq<string>, ids: seq<string>) {
    && (forall i :: 0 <= i < |ids| ==> ids[i] in out)
    && (forall a :: 0 <= a < |out| ==> out[a] in ids)
    && (forall a, b :: 0 <= a < b < |out| ==> FirstIndex(ids, out[a]) < FirstIndex(ids, out[b]))
  }

  lemma {:induction false} DistinctInOrder(before: seq<string>, ids: seq<string>, seen: seq<string>)
    requires InOrder(seen, before)
    ensures InOrder(Distinct(ids, seen), before + ids)
    decreases |ids|
  {
    if ids == [] {
      assert before + ids == before;
    } else {
      var id, rest := ids[0], ids[1..];
      var next := if id in seen then seen else seen + [id];
      assert before + ids == (before + [id]) + rest;
      InOrderGrows(before, id, seen);
      DistinctInOrder(before + [id], rest, next);
    }
  }

  lemma InOrderGrows(before: seq<string>, id: string, seen: seq<string>)
    requires InOrder(seen, before)
    ensures InOrder(if id in seen then seen else seen + [id], before + [id])
  {
    forall other ensures FirstIndex(before + [id], other) == if other in before then FirstIndex(before, other)
                         else |before| + FirstIndex([id], other) {
      FirstIndexIn(before, [id], other);
    }
    assert id in seen <==> id in before;
  }

  /** cited_source_ids: what is cited, in the order of the first citations, nothing twice. */
  method CitedSourceIds(answer: string) returns (cited: seq<string>)
    ensures cited == Distinct(CitedFrom(answer, 0), [])
    ensures InOrder(cited, CitedFrom(answer, 0))
  {
    hide CitedFrom, CitedAt, Distinct, InOrder;
    cited := [];
    var i := 0;
    while i < |answer|
      invariant i <= |answer|
      invariant Distinct(CitedFrom(answer, i), cited) == Distinct(CitedFrom(answer, 0), [])
    {
      CitedStep(answer, i);
      var found := CitedAt(answer, i);
      if found.None? {
        i := i + 1;
        continue;
      }
      var end := i + 1 + |found.value| + 1;
      DistinctStep(found.value, CitedFrom(answer, end), cited);
      if found.value !in cited {
        cited := cited + [found.value];
      }
      i := end;
    }
    CitedDone(answer, cited);
  }

  lemma CitedDone(answer: string, cited: seq<string>)
    requires Distinct(CitedFrom(answer, |answer|), cited) == Distinct(CitedFrom(answer, 0), [])
    ensures cited == Distinct(CitedFrom(answer, 0), []) && InOrder(cited, CitedFrom(answer, 0))
  {
    assert CitedFrom(answer, |answer|) == [];
    DistinctInOrder([], CitedFrom(answer, 0), []);
    assert [] + CitedFrom(answer, 0) == CitedFrom(answer, 0);
  }

  lemma DistinctStep(id: string, rest: seq<string>, seen: seq<string>)
    ensures Distinct([id] + rest, seen) == Distinct(rest, if id in seen then seen else seen + [id])
  {
    assert ([id] + rest)[1..] == rest;
  }

  /** The scan may go on behind a citation, or one character further. */
  lemma CitedStep(s: string, i: nat)
    requires i < |s|
    ensures CitedAt(s, i).None? ==> CitedFrom(s, i) == CitedFrom(s, i + 1)
    ensures CitedAt(s, i).Some? ==>
              var end := i + 1 + |CitedAt(s, i).value| + 1;
              end <= |s| && CitedFrom(s, i) == [CitedAt(s, i).value] + CitedFrom(s, end)
  {
    if CitedAt(s, i).Some? {
      NoneInside(s, i + 1, i + 1 + |CitedAt(s, i).value| + 1);
    }
  }

  /** The ids the manifest does not have, in their order. */
  function Unlisted(ids: seq<string>, valid: set<string>): seq<string>
    decreases |ids|
  {
    if ids == [] then []
    else Unlisted(ids[..|ids| - 1], valid) + (if ids[|ids| - 1] in valid then [] else [ids[|ids| - 1]])
  }

  lemma {:induction false} UnlistedMembers(ids: seq<string>, valid: set<string>)
    ensures forall id :: id in Unlisted(ids, valid) <==> id in ids && id !in valid
    decreases |ids|
  {
    if ids != [] {
      UnlistedMembers(ids[..|ids| - 1], valid);
      assert ids == ids[..|ids| - 1] + [ids[|ids| - 1]];
    }
  }

  function SourceIds(manifest: seq<Entry>): set<string> {
    set e | 0 <= e < |manifest| :: manifest[e].sourceId
  }

  /** The first eight cited ids that the manifest does not have; none exactly when every
      citation is of the manifest. */
  method InvalidCitations(answer: string, manifest: seq<Entry>) returns (invalid: seq<string>)
    ensures invalid == First(Unlisted(Distinct(CitedFrom(answer, 0), []), SourceIds(manifest)), 8)
    ensures invalid == [] <==> forall i: nat :: 0 <= i <= |answer| && CitedAt(answer, i).Some? ==>
              exists e :: 0 <= e < |manifest| && manifest[e].sourceId == CitedAt(answer, i).value
  {
    hide CitedAt, CitedFrom, Distinct;
    var valid := SourceIds(manifest);
    var cited := CitedSourceIds(answer);
    invalid := [];
    for i := 0 to |cited|
      invariant invalid == Unlisted(cited[..i], valid)
    {
      assert cited[..i + 1][..i] == cited[..i];
      if cited[i] !in valid {
        invalid := invalid + [cited[i]];
      }
    }
    assert cited[..|cited|] == cited;
    NoneUnlisted(answer, cited, manifest);
    invalid := First(invalid, 8);
  }

  lemma NoneUnlisted(answer: string, cited: seq<string>, manifest: seq<Entry>)
    requires InOrder(cited, CitedFrom(answer, 0))
    ensures Unlisted(cited, SourceIds(manifest)) == [] <==>
              forall i: nat :: 0 <= i <= |answer| && CitedAt(answer, i).Some? ==>
                exists e :: 0 <= e < |manifest| && manifest[e].sourceId == CitedAt(answer, i).value
  {
    hide CitedAt, CitedFrom, Distinct;
    var valid := SourceIds(manifest);
    var invalid := Unlisted(cited, valid);
    UnlistedMembers(cited, valid);
    forall id ensures id in cited <==> exists j: nat :: 0 <= j <= |answer| && CitedAt(answer, j) == Some(id) {
      CitedMembers(answer, 0, id);
    }
    if invalid == [] {
      forall i: nat | 0 <= i <= |answer| && CitedAt(answer, i).Some? ensures CitedAt(answer, i).value in valid {
        assert CitedAt(answer, i).value in cited;
      }
    } else {
      assert invalid[0] in cited && invalid[0] !in valid;
    }
  }
}
