/** Retrieved evidence: accumulating bundles without repeating a source, and numbering the
    citable sources. */
module Evidence {
  import opened Text

  datatype Result = Result(url: string, title: string)

  datatype Bundle = Bundle(results: seq<Result>, merged: string)

  const MAX_BUNDLES := 4
  const MAX_ENTRIES := 12

  /** Scheme-stripped host and path of a trimmed URL; a blank one has none. */
  type Identity = i: string -> string | i("") == "" witness (u: string) => ""

  function Source(r: Result, id: Identity): string {
    id(Strip(r.url))
  }

  // ---- accumulation ----

  function ResultsOf(bundles: seq<Bundle>): seq<Result> {
    if bundles == [] then [] else bundles[0].results + ResultsOf(bundles[1..])
  }

  predicate Repeats(before: seq<Result>, r: Result, id: Identity) {
    Source(r, id) != "" && exists i :: 0 <= i < |before| && Source(before[i], id) == Source(r, id)
  }

  /** The results whose source was not met before, neither among the kept ones nor earlier
      in the same list. */
  function Unmet(kept: seq<Result>, results: seq<Result>, id: Identity): seq<Result>
    decreases |results|
  {
    if results == [] then []
    else if Repeats(kept, results[0], id) then Unmet(kept, results[1..], id)
    else [results[0]] + Unmet(kept + [results[0]], results[1..], id)
  }

  function Newest(bundles: seq<Bundle>): seq<Bundle> {
    if |bundles| > MAX_BUNDLES then bundles[|bundles| - MAX_BUNDLES..] else bundles
  }

  /** bundle: None when the search failed. */
  function Accumulated(kept: seq<Bundle>, bundle: Option<Bundle>, id: Identity): seq<Bundle> {
    if bundle.None? then kept
    else
      var unmet := Unmet(ResultsOf(kept), bundle.value.results, id);
      if unmet == [] && bundle.value.merged == "" then kept
      else Newest(kept + [Bundle(unmet, bundle.value.merged)])
  }

  /** Result i is not a repetition: it has no source, or one that neither the kept results nor
      an earlier one of the list come from. */
  predicate New(kept: seq<Result>, results: seq<Result>, i: nat, id: Identity)
    requires i < |results|
  {
    Source(results[i], id) != "" ==>
      && (forall k :: 0 <= k < |kept| ==> Source(kept[k], id) != Source(results[i], id))
      && (forall k :: 0 <= k < i ==> Source(results[k], id) != Source(results[i], id))
  }

  /** The results at increasing indices are taken, and these are all the indices of new ones. */
  ghost predicate Taken(kept: seq<Result>, results: seq<Result>, taken: seq<Result>, p: seq<nat>, id: Identity) {
    && |p| == |taken|
    && (forall j :: 0 <= j < |p| ==> p[j] < |results| && taken[j] == results[p[j]])
    && (forall j, k :: 0 <= j < k < |p| ==> p[j] < p[k])
    && (forall i :: 0 <= i < |results| ==> (i in p <==> New(kept, results, i, id)))
  }

  /** Exactly the new results are taken, in their order. */
  lemma {:induction false} UnmetMeans(kept: seq<Result>, results: seq<Result>, id: Identity) returns (p: seq<nat>)
    ensures Taken(kept, results, Unmet(kept, results, id), p, id)
    decreases |results|
  {
    hide Source, Taken, Repeats;
    if results == [] {
      p := [];
      assert Taken(kept, [], [], [], id) by { NothingTaken(kept, id); }
    } else if Repeats(kept, results[0], id) {
      var q := UnmetMeans(kept, results[1..], id);
      p := Shifted(q);
      TakenBehind(kept, results, Unmet(kept, results[1..], id), q, id);
    } else {
      var next := kept + [results[0]];
      var q := UnmetMeans(next, results[1..], id);
      p := [0] + Shifted(q);
      TakenFirst(kept, results, Unmet(next, results[1..], id), q, id);
    }
  }

  lemma NothingTaken(kept: seq<Result>, id: Identity)
    ensures Taken(kept, [], [], [], id)
  {
  }

  function Shifted(p: seq<nat>): seq<nat> {
    seq(|p|, j requires 0 <= j < |p| => p[j] + 1)
  }

  lemma ShiftedIn(p: seq<nat>, i: nat)
    ensures i in Shifted(p) <==> i > 0 && i - 1 in p
  {
    if i > 0 && i - 1 in p {
      var j :| 0 <= j < |p| && p[j] == i - 1;
      assert Shifted(p)[j] == i;
    }
  }

  lemma TakenBehind(kept: seq<Result>, results: seq<Result>, taken: seq<Result>, q: seq<nat>, id: Identity)
    requires results != [] && Repeats(kept, results[0], id) && Taken(kept, results[1..], taken, q, id)
    ensures Taken(kept, results, taken, Shifted(q), id)
  {
    hide Source;
    forall i | 0 <= i < |results| ensures i in Shifted(q) <==> New(kept, results, i, id) {
      ShiftedIn(q, i);
      if i > 0 {
        NewBehind(kept, results, i, id);
      }
    }
  }

  lemma TakenFirst(kept: seq<Result>, results: seq<Result>, taken: seq<Result>, q: seq<nat>, id: Identity)
    requires results != [] && !Repeats(kept, results[0], id) && Taken(kept + [results[0]], results[1..], taken, q, id)
    ensures Taken(kept, results, [results[0]] + taken, [0] + Shifted(q), id)
  {
    hide Source;
    var p := [0] + Shifted(q);
    forall i | 0 <= i < |results| ensures i in p <==> New(kept, results, i, id) {
      ShiftedIn(q, i);
      assert i in p <==> i == 0 || i in Shifted(q);
      if i > 0 {
        NewBehind(kept, results, i, id);
      }
    }
  }

  lemma NewBehind(kept: seq<Result>, results: seq<Result>, i: nat, id: Identity)
    requires 0 < i < |results|
    ensures var next := if Repeats(kept, results[0], id) then kept else kept + [results[0]];
            New(kept, results, i, id) <==> New(next, results[1..], i - 1, id)
  {
    hide Source;
    var rest := results[1..];
    assert rest[i - 1] == results[i] && forall k :: 0 < k < i ==> rest[k - 1] == results[k];
    var longer := kept + [results[0]];
    assert longer[|kept|] == results[0] && forall k :: 0 <= k < |kept| ==> longer[k] == kept[k];
    assert forall k :: 0 <= k < i - 1 ==> rest[k] == results[k + 1];
  }

  /** A search that failed, or found no new source and no text, changes nothing; any other one
      adds a bundle of its new results and its text, behind at most the three newest before. */
  lemma AccumulatedMeans(kept: seq<Bundle>, bundle: Option<Bundle>, id: Identity)
    requires |kept| <= 4
    ensures var after := Accumulated(kept, bundle, id);
            if bundle.None? || (bundle.value.merged == "" && Unmet(ResultsOf(kept), bundle.value.results, id) == [])
            then after == kept
            else
              && 0 < |after| <= 4 && after[|after| - 1].merged == bundle.value.merged
              && after[|after| - 1].results == Unmet(ResultsOf(kept), bundle.value.results, id)
              && (|kept| < 4 ==> after[..|after| - 1] == kept)
              && (|kept| == 4 ==> after[..|after| - 1] == kept[1..])
  {
    hide Unmet, ResultsOf;
  }

  /** No two results come from the same source. */
  predicate Unique(results: seq<Result>, id: Identity) {
    forall i, j :: 0 <= i < j < |results| && Source(results[i], id) != "" ==>
        Source(results[i], id) != Source(results[j], id)
  }

  lemma {:induction false} UnmetUnique(kept: seq<Result>, results: seq<Result>, id: Identity)
    requires Unique(kept, id)
    ensures Unique(kept + Unmet(kept, results, id), id)
    decreases |results|
  {
    if results == [] {
      assert kept + [] == kept;
    } else if Repeats(kept, results[0], id) {
      UnmetUnique(kept, results[1..], id);
    } else {
      var r := results[0];
      AddUnique(kept, r, id);
      UnmetUnique(kept + [r], results[1..], id);
      Assoc(kept, [r], Unmet(kept + [r], results[1..], id));
    }
  }

  lemma AddUnique(kept: seq<Result>, r: Result, id: Identity)
    requires Unique(kept, id) && !Repeats(kept, r, id)
    ensures Unique(kept + [r], id)
  {
  }

  lemma {:induction false} ResultsConcat(a: seq<Bundle>, b: seq<Bundle>)
    ensures ResultsOf(a + b) == ResultsOf(a) + ResultsOf(b)
    decreases |a|
  {
    if a == [] {
      assert a + b == b;
    } else {
      assert (a + b)[0] == a[0] && (a + b)[1..] == a[1..] + b;
      ResultsConcat(a[1..], b);
      Assoc(a[0].results, ResultsOf(a[1..]), ResultsOf(b));
    }
  }

  lemma SuffixUnique(a: seq<Result>, b: seq<Result>, id: Identity)
    requires Unique(a + b, id)
    ensures Unique(b, id)
  {
    forall i, j | 0 <= i < j < |b| && Source(b[i], id) != "" ensures Source(b[i], id) != Source(b[j], id) {
      assert (a + b)[|a| + i] == b[i] && (a + b)[|a| + j] == b[j];
    }
  }

  predicate Kept(bundles: seq<Bundle>, id: Identity) {
    |bundles| <= MAX_BUNDLES && Unique(ResultsOf(bundles), id)
  }

  lemma AccumulatedKept(kept: seq<Bundle>, bundle: Option<Bundle>, id: Identity)
    requires Kept(kept, id)
    ensures Kept(Accumulated(kept, bundle, id), id)
  {
    hide Unique, Unmet;
    if bundle.Some? {
      var unmet := Unmet(ResultsOf(kept), bundle.value.results, id);
      var added := Bundle(unmet, bundle.value.merged);
      var all := kept + [added];
      UnmetUnique(ResultsOf(kept), bundle.value.results, id);
      ResultsConcat(kept, [added]);
      assert ResultsOf([added]) == unmet + [] == unmet;
      var cut := if |all| > MAX_BUNDLES then |all| - MAX_BUNDLES else 0;
      assert all == all[..cut] + all[cut..] && Newest(all) == all[cut..];
      ResultsConcat(all[..cut], all[cut..]);
      SuffixUnique(ResultsOf(all[..cut]), ResultsOf(all[cut..]), id);
    }
  }

  function AccumulatedAll(kept: seq<Bundle>, found: seq<Option<Bundle>>, id: Identity): seq<Bundle>
    decreases |found|
  {
    if found == [] then kept else AccumulatedAll(Accumulated(kept, found[0], id), found[1..], id)
  }

  /** Over any sequence of searches: at most four bundles, and no source twice. */
  lemma {:induction false} EvidenceBounded(kept: seq<Bundle>, found: seq<Option<Bundle>>, id: Identity)
    requires Kept(kept, id)
    ensures Kept(AccumulatedAll(kept, found, id), id)
    decreases |found|
  {
    hide Kept;
    if found != [] {
      AccumulatedKept(kept, found[0], id);
      EvidenceBounded(Accumulated(kept, found[0], id), found[1..], id);
    }
  }

  method AccumulateBundle(bundles: seq<Bundle>, bundle: Option<Bundle>, id: Identity)
    returns (kept: seq<Bundle>, added: nat)
    ensures kept == Accumulated(bundles, bundle, id)
    ensures Kept(bundles, id) ==> Kept(kept, id)
    ensures added > 0 ==>
              && kept != [] && |kept[|kept| - 1].results| == added
              && kept[..|kept| - 1] == bundles[|bundles| - (|kept| - 1)..]
    ensures added == if bundle.Some? then |Unmet(ResultsOf(bundles), bundle.value.results, id)| else 0
  {
    hide Kept, Unmet, ResultsOf;
    if Kept(bundles, id) {
      AccumulatedKept(bundles, bundle, id);
    }
    kept := bundles;
    if bundle.None? {
      return kept, 0;
    }
    var unmet := FilterUnmet(ResultsOf(bundles), bundle.value.results, id);
    if unmet == [] && bundle.value.merged == "" {
      return kept, 0;
    }
    kept := kept + [Bundle(unmet, bundle.value.merged)];
    ghost var all := kept;
    while |kept| > MAX_BUNDLES
      invariant |kept| <= |all| && kept == all[|all| - |kept|..]
      invariant |all| > MAX_BUNDLES ==> |kept| >= MAX_BUNDLES
      invariant |all| <= MAX_BUNDLES ==> kept == all
    {
      kept := kept[1..];
    }
    return kept, |unmet|;
  }

  method FilterUnmet(kept: seq<Result>, results: seq<Result>, id: Identity) returns (unmet: seq<Result>)
    ensures unmet == Unmet(kept, results, id)
  {
    hide Unmet;
    var met: set<string> := set i | 0 <= i < |kept| && Source(kept[i], id) != "" :: Source(kept[i], id);
    unmet := [];
    assert results[0..] == results && kept + [] == kept;
    for i := 0 to |results|
      invariant unmet + Unmet(kept + unmet, results[i..], id) == Unmet(kept, results, id)
      invariant forall r: Result :: Source(r, id) != "" ==> (Source(r, id) in met <==> Repeats(kept + unmet, r, id))
    {
      var r := results[i];
      ghost var before := kept + unmet;
      UnmetStep(before, results, i, id);
      if Source(r, id) != "" && Source(r, id) in met {
        continue;
      }
      RepeatsGrow(before, r, id);
      assert before + [r] == kept + (unmet + [r]);
      if Source(r, id) != "" {
        met := met + {Source(r, id)};
      }
      Assoc(unmet, [r], Unmet(before + [r], results[i + 1..], id));
      unmet := unmet + [r];
    }
    assert results[|results|..] == [];
    UnmetNone(kept + unmet, id);
  }

  lemma UnmetNone(kept: seq<Result>, id: Identity)
    ensures Unmet(kept, [], id) == []
  {
  }

  lemma UnmetStep(before: seq<Result>, results: seq<Result>, i: nat, id: Identity)
    requires i < |results|
    ensures var r, rest := results[i], results[i + 1..];
            Unmet(before, results[i..], id)
            == if Repeats(before, r, id) then Unmet(before, rest, id) else [r] + Unmet(before + [r], rest, id)
  {
    hide Repeats;
    assert results[i..][0] == results[i] && results[i..][1..] == results[i + 1..];
  }

  lemma RepeatsGrow(before: seq<Result>, r: Result, id: Identity)
    ensures forall q: Result :: Repeats(before + [r], q, id)
              <==> Repeats(before, q, id) || (Source(q, id) != "" && Source(q, id) == Source(r, id))
  {
    forall q: Result
      ensures Repeats(before + [r], q, id)
              <==> Repeats(before, q, id) || (Source(q, id) != "" && Source(q, id) == Source(r, id))
    {
      var all := before + [r];
      assert all[|before|] == r;
      if Repeats(before, q, id) {
        var i :| 0 <= i < |before| && Source(before[i], id) == Source(q, id);
        assert all[i] == before[i];
      }
    }
  }

  // ---- the citation manifest ----

  datatype Entry = Entry(sourceId: string, url: string, title: string)

  function Decimal(n: nat): string {
    if n < 10 then ["0123456789"[n]] else Decimal(n / 10) + ["0123456789"[n % 10]]
  }

  /** The number that decimal digits stand for. */
  function Value(digits: string): int {
    if digits == "" then 0 else 10 * Value(digits[..|digits| - 1]) + (digits[|digits| - 1] as int - '0' as int)
  }

  lemma {:induction false} DecimalMeans(n: nat)
    ensures var d := Decimal(n);
            && d != "" && (forall i :: 0 <= i < |d| ==> '0' <= d[i] <= '9') && Value(d) == n
            && (d[0] == '0' ==> n == 0)
  {
    var digit := "0123456789"[n % 10];
    assert '0' <= digit <= '9' && digit as int - '0' as int == n % 10;
    if n < 10 {
      assert Decimal(n)[..0] == "";
    } else {
      DecimalMeans(n / 10);
      assert Decimal(n)[..|Decimal(n)| - 1] == Decimal(n / 10);
    }
  }

  function SourceId(n: nat): string {
    "S" + Decimal(n)
  }

  function EntryOf(n: nat, r: Result): Entry {
    Entry(SourceId(n), Strip(r.url), Strip(r.title))
  }

  /** The manifest, given the results listed so far. */
  function Manifest(results: seq<Result>, listed: seq<Result>, id: Identity): seq<Result>
    decreases |results|
  {
    if results == [] || |listed| >= MAX_ENTRIES then listed
    else if Strip(results[0].url) == "" || Repeats(listed, results[0], id) then Manifest(results[1..], listed, id)
    else Manifest(results[1..], listed + [results[0]], id)
  }

  function Numbered(results: seq<Result>): seq<Entry> {
    seq(|results|, i requires 0 <= i < |results| => EntryOf(i + 1, results[i]))
  }

  function WithUrl(results: seq<Result>): seq<Result> {
    if results == [] then []
    else (if Strip(results[0].url) != "" then [results[0]] else []) + WithUrl(results[1..])
  }

  function First<T>(xs: seq<T>, n: nat): seq<T> {
    if |xs| > n then xs[..n] else xs
  }

  lemma {:induction false} ManifestIsFirst(results: seq<Result>, listed: seq<Result>, id: Identity)
    requires Unique(listed + results, id) && |listed| <= MAX_ENTRIES
    ensures Manifest(results, listed, id) == First(listed + WithUrl(results), MAX_ENTRIES)
    decreases |results|
  {
    hide Strip, Unique, Repeats, First;
    FirstOfFull(listed, WithUrl(results));
    if results != [] && |listed| < MAX_ENTRIES {
      var r, rest := results[0], results[1..];
      assert listed + results == (listed + [r]) + rest;
      if Strip(r.url) == "" {
        DropUnique(listed, r, rest, id);
        ManifestIsFirst(rest, listed, id);
        assert [] + WithUrl(rest) == WithUrl(rest);
      } else {
        NoRepeat(listed, r, rest, id);
        ManifestIsFirst(rest, listed + [r], id);
        Assoc(listed, [r], WithUrl(rest));
      }
    }
  }

  lemma FirstOfFull(listed: seq<Result>, more: seq<Result>)
    requires |listed| <= MAX_ENTRIES
    ensures |listed| == MAX_ENTRIES || more == [] ==> First(listed + more, MAX_ENTRIES) == listed
  {
  }

  lemma DropUnique(a: seq<Result>, r: Result, b: seq<Result>, id: Identity)
    requires Unique((a + [r]) + b, id)
    ensures Unique(a + b, id)
  {
    var all := (a + [r]) + b;
    forall i, j | 0 <= i < j < |a + b| && Source((a + b)[i], id) != ""
        ensures Source((a + b)[i], id) != Source((a + b)[j], id) {
      var k := if i < |a| then i else i + 1;
      var l := if j < |a| then j else j + 1;
      assert all[k] == (a + b)[i] && all[l] == (a + b)[j];
    }
  }

  lemma NoRepeat(a: seq<Result>, r: Result, b: seq<Result>, id: Identity)
    requires Unique((a + [r]) + b, id)
    ensures !Repeats(a, r, id)
  {
    var all := (a + [r]) + b;
    assert all[|a|] == r;
    assert forall i :: 0 <= i < |a| ==> all[i] == a[i];
  }

  lemma NumberedNone()
    ensures Numbered([]) == []
  {
  }

  lemma NumberedGrow(listed: seq<Result>, r: Result)
    ensures |Numbered(listed)| == |listed| && Numbered(listed + [r]) == Numbered(listed) + [EntryOf(|listed| + 1, r)]
  {
    hide EntryOf;
  }

  lemma ManifestStep(results: seq<Result>, i: nat, listed: seq<Result>, id: Identity)
    requires i < |results| && |listed| < MAX_ENTRIES
    ensures var r, skip := results[i], Strip(results[i].url) == "" || Repeats(listed, results[i], id);
            Manifest(results[i..], listed, id) == Manifest(results[i + 1..], if skip then listed else listed + [r], id)
  {
    hide Strip, Repeats;
    assert results[i..][0] == results[i] && results[i..][1..] == results[i + 1..];
  }

  lemma ManifestFull(results: seq<Result>, listed: seq<Result>, id: Identity)
    requires |listed| >= MAX_ENTRIES || results == []
    ensures Manifest(results, listed, id) == listed
  {
  }

  lemma KeptUnique(bundles: seq<Bundle>, id: Identity)
    requires Kept(bundles, id)
    ensures Unique(ResultsOf(bundles), id)
  {
  }

  /** The manifest of accumulated evidence is exactly its first twelve results that have a
      URL, numbered from S1 in retrieval order. */
  method BuildManifest(bundles: seq<Bundle>, id: Identity) returns (entries: seq<Entry>)
    ensures entries == Numbered(Manifest(ResultsOf(bundles), [], id))
    ensures Kept(bundles, id) ==> entries == Numbered(First(WithUrl(ResultsOf(bundles)), MAX_ENTRIES))
  {
    hide Strip, SourceId, Repeats, EntryOf, Kept, Numbered, Manifest, WithUrl, ResultsOf, First, Unique;
    var results := ResultsOf(bundles);
    if Kept(bundles, id) {
      assert [] + results == results && [] + WithUrl(results) == WithUrl(results);
      KeptUnique(bundles, id);
      ManifestIsFirst(results, [], id);
    }
    entries := [];
    var listed: seq<Result> := [];
    NumberedNone();
    assert results[0..] == results;
    for i := 0 to |results|
      invariant entries == Numbered(listed) && |listed| < MAX_ENTRIES
      invariant Manifest(results[i..], listed, id) == Manifest(results, [], id)
    {
      var r := results[i];
      ManifestStep(results, i, listed, id);
      if Strip(r.url) == "" || Repeats(listed, r, id) {
        continue;
      }
      NumberedGrow(listed, r);
      assert |entries| == |listed|;
      entries := entries + [EntryOf(|entries| + 1, r)];
      listed := listed + [r];
      if |entries| >= MAX_ENTRIES {
        ManifestFull(results[i + 1..], listed, id);
        return;
      }
    }
    ManifestFull(results[|results|..], listed, id);
  }
}
