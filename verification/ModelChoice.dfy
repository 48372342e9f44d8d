/** Recommending a primary model: grading the evidence for a capability, fitting a model to
    the hardware, and choosing the best candidate. */
module ModelChoice {
  import opened Text

  // ---- evidence ----

  datatype Origin = Runtime | NameInference | Seed | Reported

  datatype Qualification = Trusted | Supported | Experimental | Incompatible

  /** supported: None when the claim leaves it open. */
  datatype Claim = Claim(capability: string, supported: Option<bool>, origin: Origin, confidence: Option<real>)

  /** strength 0 is no evidence. */
  datatype Grade = Grade(strength: nat, confidence: Option<real>)

  const NONE := Grade(0, None)

  function Default(c: Option<real>, d: real): Option<real> {
    if c.Some? then c else Some(d)
  }

  function Strength(c: Claim, q: Qualification): (g: Grade)
    ensures 1 <= g.strength <= 6 && g.confidence.Some?
  {
    match c.origin
    case Runtime => Grade(6, Default(c.confidence, 0.95))
    case NameInference => Grade(1, Default(c.confidence, 0.7))
    case Reported => Grade(3, Default(c.confidence, 0.5))
    case Seed =>
      match q
      case Trusted => Grade(5, Default(c.confidence, 0.9))
      case Supported => Grade(4, Default(c.confidence, 0.8))
      case _ => Grade(2, Default(c.confidence, 0.5))
  }

  predicate Positive(c: Claim, capability: string) {
    c.capability == capability && c.supported == Some(true)
  }

  function GradeOf(claims: seq<Claim>, capability: string, q: Qualification): Grade {
    if claims == [] then NONE
    else
      var last, g := claims[|claims| - 1], GradeOf(claims[..|claims| - 1], capability, q);
      if Positive(last, capability) && Strength(last, q).strength > g.strength then Strength(last, q) else g
  }

  /** Claim i is the earliest of the strongest positive ones. */
  ghost predicate Strongest(claims: seq<Claim>, capability: string, q: Qualification, i: nat)
    requires i < |claims|
  {
    && Positive(claims[i], capability)
    && forall j :: 0 <= j < |claims| && Positive(claims[j], capability) ==>
         Strength(claims[j], q).strength <= Strength(claims[i], q).strength
         && (j < i ==> Strength(claims[j], q).strength < Strength(claims[i], q).strength)
  }

  /** The grade is that of the strongest positive claim, the earliest of equally strong
      ones; without a positive claim there is none. */
  lemma {:induction false} GradeIsStrongest(claims: seq<Claim>, capability: string, q: Qualification)
    ensures var g := GradeOf(claims, capability, q);
            && (g.strength == 0 <==> g == NONE)
            && (g == NONE <==> forall i :: 0 <= i < |claims| ==> !Positive(claims[i], capability))
            && (g != NONE ==>
                exists i :: 0 <= i < |claims| && Strongest(claims, capability, q, i) && g == Strength(claims[i], q))
  {
    hide Strength, Positive;
    if claims != [] {
      var n := |claims| - 1;
      var init, last := claims[..n], claims[n];
      GradeIsStrongest(init, capability, q);
      var h := GradeOf(init, capability, q);
      if h != NONE {
        var i :| 0 <= i < n && Strongest(init, capability, q, i) && h == Strength(init[i], q);
        StrongestGrow(claims, capability, q, i);
      } else {
        assert forall j :: 0 <= j < n ==> claims[j] == init[j];
        assert Positive(last, capability) ==> Strongest(claims, capability, q, n);
      }
    }
  }

  lemma StrongestGrow(claims: seq<Claim>, capability: string, q: Qualification, i: nat)
    requires i < |claims| - 1 && Strongest(claims[..|claims| - 1], capability, q, i)
    ensures var n := |claims| - 1; var last := claims[n];
            if Positive(last, capability) && Strength(last, q).strength > Strength(claims[i], q).strength
            then Strongest(claims, capability, q, n) else Strongest(claims, capability, q, i)
  {
    hide Strength, Positive;
    var n := |claims| - 1;
    assert forall j :: 0 <= j < n ==> claims[j] == claims[..n][j];
  }

  /** What the model was seen to do counts most; then a seeded claim of a trusted and of a
      supported model, what was reported, any other seeded claim, and last a guess by name. */
  lemma EvidenceLadder(a: Claim, b: Claim, q: Qualification)
    ensures var x, y := Strength(a, q).strength, Strength(b, q).strength;
            && (a.origin == b.origin ==> x == y)
            && (a.origin == Runtime && b.origin != Runtime ==> x > y)
            && (a.origin == Seed && b.origin == Reported ==> (x > y <==> q in {Trusted, Supported}) && x != y)
            && (a.origin in {Seed, Reported} && b.origin == NameInference ==> x > y)
    ensures a.origin == Seed ==> Strength(a, Trusted).strength > Strength(a, Supported).strength
                                 && Strength(a, Supported).strength > Strength(a, Experimental).strength
                                 && Strength(a, Experimental) == Strength(a, Incompatible)
    ensures a.origin != Seed ==> Strength(a, q) == Strength(a, Trusted)
  {
  }

  /** A claim keeps its own confidence; one without gets that of its origin. */
  lemma ConfidenceKept(c: Claim, q: Qualification)
    ensures c.confidence.Some? ==> Strength(c, q).confidence == c.confidence
    ensures c.confidence.None? ==>
              var given := map[Runtime := 0.95, NameInference := 0.7, Reported := 0.5,
                               Seed := if q == Trusted then 0.9 else if q == Supported then 0.8 else 0.5];
              Strength(c, q).confidence == Some(given[c.origin])
  {
  }

  method EvidenceGrade(claims: seq<Claim>, capability: string, q: Qualification) returns (g: Grade)
    ensures g == GradeOf(claims, capability, q)
  {
    g := NONE;
    for i := 0 to |claims|
      invariant g == GradeOf(claims[..i], capability, q)
    {
      var c := claims[i];
      assert claims[..i + 1][..i] == claims[..i] && claims[..i + 1][i] == c;
      if c.capability != capability || c.supported != Some(true) {
        continue;
      }
      var s := Strength(c, q);
      if s.strength > g.strength {
        g := s;
      }
    }
    assert claims[..|claims|] == claims;
  }

  // ---- hardware fit ----

  datatype Fit = DoesNotFit | Unknown | Fits

  /** Sizes in gigabytes; None is unknown. */
  datatype Needs = Needs(minVram: Option<real>, ram: Option<real>, disk: Option<real>,
                         parameters: Option<real>, bytesPerParam: Option<real>)

  datatype Hardware = Hardware(vram: Option<real>, ram: Option<real>)

  function FitIndex(f: Fit): nat {
    match f
    case DoesNotFit => 0
    case Unknown => 1
    case Fits => 2
  }

  function Estimates(n: Needs): seq<real> {
    (if n.disk.Some? && n.disk.value > 0.0 then [n.disk.value] else [])
    + (if n.parameters.Some? && n.parameters.value != 0.0 && n.bytesPerParam.Some? && n.bytesPerParam.value != 0.0
       then [n.parameters.value * n.bytesPerParam.value] else [])
  }

  method MemoryBounds(n: Needs) returns (bounds: Option<(real, real)>)
    ensures bounds == Bounds(n)
  {
    var all := Estimates(n);
    if all == [] {
      return None;
    }
    var lower, upper := all[0], all[0];
    for i := 1 to |all|
      invariant lower == Least(all[..i]) && upper == Greatest(all[..i])
    {
      assert all[..i + 1][..i] == all[..i];
      if all[i] < lower {
        lower := all[i];
      }
      if all[i] > upper {
        upper := all[i];
      }
    }
    assert all[..|all|] == all;
    return Some((lower, upper));
  }

  function Least(xs: seq<real>): real
    requires xs != []
  {
    if |xs| == 1 || xs[|xs| - 1] < Least(xs[..|xs| - 1]) then xs[|xs| - 1] else Least(xs[..|xs| - 1])
  }

  function Greatest(xs: seq<real>): real
    requires xs != []
  {
    if |xs| == 1 || xs[|xs| - 1] > Greatest(xs[..|xs| - 1]) then xs[|xs| - 1] else Greatest(xs[..|xs| - 1])
  }

  function Bounds(n: Needs): Option<(real, real)> {
    if Estimates(n) == [] then None else Some((Least(Estimates(n)), Greatest(Estimates(n))))
  }

  lemma {:induction false} LeastGreatest(xs: seq<real>)
    requires xs != []
    ensures Least(xs) <= Greatest(xs)
    ensures forall x :: x in xs ==> Least(xs) <= x <= Greatest(xs)
    ensures Least(xs) in xs && Greatest(xs) in xs
  {
    var init := xs[..|xs| - 1];
    assert xs == init + [xs[|xs| - 1]];
    if |xs| > 1 {
      LeastGreatest(init);
    }
  }

  function Against(need: Option<real>, have: Option<real>): Fit {
    if need.None? || have.None? then Unknown else if have.value >= need.value then Fits else DoesNotFit
  }

  function StrongFit(n: Needs, h: Hardware): Fit {
    var vram, ram := Against(n.minVram, h.vram), Against(n.ram, h.ram);
    if vram == DoesNotFit || ram == DoesNotFit then DoesNotFit
    else if vram == Fits && ram == Fits then Fits
    else Unknown
  }

  const OVERHEAD := 1.25

  function EstimatedFit(n: Needs, h: Hardware): Fit {
    if h.vram.None? || Bounds(n).None? then Unknown
    else
      var (lower, upper) := Bounds(n).value;
      if lower > h.vram.value then DoesNotFit else if h.vram.value >= upper * OVERHEAD then Fits else Unknown
  }

  function HardwareFit(n: Needs, h: Hardware): Fit {
    if StrongFit(n, h) != Unknown then StrongFit(n, h) else EstimatedFit(n, h)
  }

  /** A size the model may take: its file, or its parameters at their precision. */
  predicate IsEstimate(n: Needs, x: real) {
    || (n.disk == Some(x) && x > 0.0)
    || (n.parameters.Some? && n.bytesPerParam.Some? && n.parameters.value != 0.0 && n.bytesPerParam.value != 0.0
        && x == n.parameters.value * n.bytesPerParam.value)
  }

  lemma EstimatesMean(n: Needs)
    ensures forall x :: x in Estimates(n) <==> IsEstimate(n, x)
  {
  }

  predicate Lacks(need: Option<real>, have: Option<real>) {
    need.Some? && have.Some? && have.value < need.value
  }

  predicate Meets(need: Option<real>, have: Option<real>) {
    need.Some? && have.Some? && need.value <= have.value
  }

  /** A stated need that is not met rules the model out, and both stated needs met let it in.
      Otherwise the video memory is held against the estimates: less than each of them is too
      little, a quarter more than each of them is enough. */
  lemma FitMeans(n: Needs, h: Hardware)
    ensures var f := HardwareFit(n, h);
            if Lacks(n.minVram, h.vram) || Lacks(n.ram, h.ram) then f == DoesNotFit
            else if Meets(n.minVram, h.vram) && Meets(n.ram, h.ram) then f == Fits
            else if h.vram.None? || forall x :: !IsEstimate(n, x) then f == Unknown
            else if forall x :: IsEstimate(n, x) ==> h.vram.value < x then f == DoesNotFit
            else if forall x :: IsEstimate(n, x) ==> 1.25 * x <= h.vram.value then f == Fits
            else f == Unknown
  {
    hide IsEstimate, Estimates, Least, Greatest;
    EstimatesMean(n);
    if Estimates(n) != [] {
      LeastGreatest(Estimates(n));
      assert Estimates(n)[0] in Estimates(n);
    }
  }

  /** No less memory of either kind, and the same kinds known. */
  predicate NoLess(a: Hardware, b: Hardware) {
    && (a.vram.Some? <==> b.vram.Some?) && (a.vram.Some? ==> a.vram.value <= b.vram.value)
    && (a.ram.Some? <==> b.ram.Some?) && (a.ram.Some? ==> a.ram.value <= b.ram.value)
  }

  predicate NonNegative(n: Needs) {
    && (n.parameters.Some? ==> n.parameters.value >= 0.0) && (n.bytesPerParam.Some? ==> n.bytesPerParam.value >= 0.0)
  }

  lemma BoundsOrdered(n: Needs)
    requires NonNegative(n) && Bounds(n).Some?
    ensures 0.0 < Bounds(n).value.0 <= Bounds(n).value.1
  {
    hide Estimates, Least, Greatest;
    LeastGreatest(Estimates(n));
    EstimatesPositive(n);
  }

  lemma EstimatesPositive(n: Needs)
    requires NonNegative(n)
    ensures forall x :: x in Estimates(n) ==> x > 0.0
  {
    if n.parameters.Some? && n.bytesPerParam.Some? && n.parameters.value != 0.0 && n.bytesPerParam.value != 0.0 {
      ProductPositive(n.parameters.value, n.bytesPerParam.value);
    }
  }

  lemma ProductPositive(a: real, b: real)
    requires a > 0.0 && b > 0.0
    ensures a * b > 0.0
  {
  }

  /** More memory never makes a model fit less: from does-not-fit over unknown to fits. */
  lemma FitMonotone(n: Needs, a: Hardware, b: Hardware)
    requires NonNegative(n) && NoLess(a, b)
    ensures FitIndex(HardwareFit(n, a)) <= FitIndex(HardwareFit(n, b))
  {
    hide Bounds, Estimates;
    if Bounds(n).Some? {
      BoundsOrdered(n);
    }
  }

  // ---- the choice ----

  /** rank_components: smaller is better in every place. */
  datatype Rank = Rank(overBudget: nat, unknownFit: nat, strength: int, confidence: real, breadth: int)

  /** One candidate: its rank for each primary capability, None where it has no evidence. */
  datatype Candidate = Candidate(name: string, incompatible: bool, ranks: seq<Option<Rank>>)

  function RankOf(fit: Fit, g: Grade, breadth: nat): Rank {
    Rank(if fit == DoesNotFit then 1 else 0, if fit == Unknown then 1 else 0, -(g.strength as int),
         if g.confidence.Some? then -g.confidence.value else 0.0, -(breadth as int))
  }

  predicate RankLess(a: Rank, b: Rank) {
    || a.overBudget < b.overBudget
    || (a.overBudget == b.overBudget && (a.unknownFit < b.unknownFit
    || (a.unknownFit == b.unknownFit && (a.strength < b.strength
    || (a.strength == b.strength && (a.confidence < b.confidence
    || (a.confidence == b.confidence && a.breadth < b.breadth)))))))
  }

  function ConfidenceOf(g: Grade): real {
    if g.confidence.Some? then g.confidence.value else 0.0
  }

  /** The better fit ranks first, then the stronger evidence, the more confident one, and the
      model that can do more. */
  lemma RankOrder(f: Fit, g: Grade, b: nat, f1: Fit, g1: Grade, b1: nat)
    ensures RankLess(RankOf(f, g, b), RankOf(f1, g1, b1))
       <==> || FitIndex(f) > FitIndex(f1)
            || (f == f1 && g.strength > g1.strength)
            || (f == f1 && g.strength == g1.strength && ConfidenceOf(g) > ConfidenceOf(g1))
            || (f == f1 && g.strength == g1.strength && ConfidenceOf(g) == ConfidenceOf(g1) && b > b1)
  {
  }

  predicate StringLess(a: string, b: string)
    decreases |a|
  {
    b != "" && (a == "" || a[0] < b[0] || (a[0] == b[0] && StringLess(a[1..], b[1..])))
  }

  lemma {:induction false} StringOrder(a: string, b: string)
    ensures !(StringLess(a, b) && StringLess(b, a)) && (a == b || StringLess(a, b) || StringLess(b, a))
    decreases |a|
  {
    if a != "" && b != "" {
      StringOrder(a[1..], b[1..]);
      assert a == [a[0]] + a[1..] && b == [b[0]] + b[1..];
    }
  }

  /** Name order: a proper prefix first, otherwise by the first character that differs. */
  lemma {:induction false} StringLessMeans(a: string, b: string)
    ensures StringLess(a, b) <==> a < b || exists k :: 0 <= k < |a| && k < |b| && a[..k] == b[..k] && a[k] < b[k]
    decreases |a|
  {
    if a != "" && b != "" {
      StringLessMeans(a[1..], b[1..]);
      if a[0] == b[0] {
        if k :| 0 <= k < |a| && k < |b| && a[..k] == b[..k] && a[k] < b[k] {
          assert k > 0 && a[1..][..k - 1] == a[..k][1..] && b[1..][..k - 1] == b[..k][1..];
        }
        if k :| 0 <= k < |a| - 1 && k < |b| - 1 && a[1..][..k] == b[1..][..k] && a[1..][k] < b[1..][k] {
          assert a[..k + 1] == [a[0]] + a[1..][..k] && b[..k + 1] == [b[0]] + b[1..][..k];
        }
        assert a < b <==> a[1..] < b[1..] by {
          if a < b {
            assert a[1..] == b[..|a|][1..] == b[1..][..|a| - 1];
          }
          if a[1..] < b[1..] {
            assert a == [a[0]] + a[1..] == [b[0]] + b[1..][..|a| - 1] == b[..|a|];
          }
        }
      } else {
        if a[0] < b[0] {
          assert a[..0] == b[..0];
        }
        if k :| 0 <= k < |a| && k < |b| && a[..k] == b[..k] && a[k] < b[k] {
          SameStart(a, b, k);
        }
      }
    } else if b != "" {
      assert a < b;
    }
  }

  lemma SameStart(a: string, b: string, k: nat)
    requires k < |a| && k < |b| && a[..k] == b[..k]
    ensures k == 0 || a[0] == b[0]
  {
    if k > 0 {
      assert a[0] == a[..k][0] == b[..k][0] == b[0];
    }
  }

  lemma {:induction false} StringTransitive(a: string, b: string, c: string)
    requires StringLess(a, b) && StringLess(b, c)
    ensures StringLess(a, c)
    decreases |a|
  {
    if a != "" && b != "" && c != "" && a[0] == b[0] == c[0] {
      StringTransitive(a[1..], b[1..], c[1..]);
    }
  }

  // the primary capabilities a candidate covers, and its best rank among them

  function Coverage(ranks: seq<Option<Rank>>): nat {
    if ranks == [] then 0 else (if ranks[0].Some? then 1 else 0) + Coverage(ranks[1..])
  }

  function Best(ranks: seq<Option<Rank>>): (r: Option<Rank>)
    ensures r.Some? <==> Coverage(ranks) > 0
  {
    if ranks == [] then None
    else
      var rest := Best(ranks[1..]);
      if ranks[0].None? || (rest.Some? && RankLess(rest.value, ranks[0].value)) then rest else ranks[0]
  }

  /** The best rank is one of the candidate's, and none of its ranks is better. */
  lemma {:induction false} BestIsLeast(ranks: seq<Option<Rank>>)
    requires Best(ranks).Some?
    ensures Best(ranks) in ranks
    ensures forall i :: 0 <= i < |ranks| && ranks[i].Some? ==> !RankLess(ranks[i].value, Best(ranks).value)
  {
    assert ranks == [ranks[0]] + ranks[1..];
    if Best(ranks[1..]).Some? {
      BestIsLeast(ranks[1..]);
    } else {
      NoneCovered(ranks[1..]);
    }
  }

  lemma {:induction false} NoneCovered(ranks: seq<Option<Rank>>)
    requires Coverage(ranks) == 0
    ensures forall i :: 0 <= i < |ranks| ==> ranks[i].None?
  {
    if ranks != [] {
      NoneCovered(ranks[1..]);
      assert forall i :: 0 < i < |ranks| ==> ranks[i] == ranks[1..][i - 1];
    }
  }

  predicate Eligible(c: Candidate) {
    !c.incompatible && Coverage(c.ranks) > 0
  }

  /** The sort key (-coverage, best rank, name). */
  predicate Before(a: Candidate, b: Candidate)
    requires Eligible(a) && Eligible(b)
  {
    var x, y := Best(a.ranks).value, Best(b.ranks).value;
    || Coverage(a.ranks) > Coverage(b.ranks)
    || (Coverage(a.ranks) == Coverage(b.ranks) && (RankLess(x, y) || (x == y && StringLess(a.name, b.name))))
  }

  lemma BeforeOrder(a: Candidate, b: Candidate, c: Candidate)
    requires Eligible(a) && Eligible(b) && Eligible(c)
    ensures a.name != b.name ==> (Before(a, b) <==> !Before(b, a))
    ensures Before(a, b) && Before(b, c) ==> Before(a, c)
    ensures !Before(a, a)
  {
    hide Coverage, Best, StringLess;
    StringOrder(a.name, b.name);
    StringOrder(a.name, a.name);
    if StringLess(a.name, b.name) && StringLess(b.name, c.name) {
      StringTransitive(a.name, b.name, c.name);
    }
  }

  predicate DistinctNames(cands: seq<Candidate>) {
    forall i, j :: 0 <= i < j < |cands| ==> cands[i].name != cands[j].name
  }

  /** The model that comes before every other eligible one. */
  ghost predicate IsChoice(cands: seq<Candidate>, pick: Option<Candidate>) {
    match pick
    case None => forall i :: 0 <= i < |cands| ==> !Eligible(cands[i])
    case Some(c) =>
      && c in cands && Eligible(c)
      && forall i :: 0 <= i < |cands| && Eligible(cands[i]) && cands[i] != c ==> Before(c, cands[i])
  }

  /** There is one such model at most, and the order of the list has no part in it. */
  lemma ChoiceIndependent(a: seq<Candidate>, b: seq<Candidate>, x: Option<Candidate>, y: Option<Candidate>)
    requires multiset(a) == multiset(b) && IsChoice(a, x) && IsChoice(b, y)
    ensures x == y
  {
    hide Before, Eligible;
    assert forall c :: c in a <==> c in multiset(a);
    assert forall c :: c in b <==> c in multiset(b);
    if x.Some? && y.Some? && x != y {
      assert x.value in b && y.value in a;
      BeforeOrder(x.value, y.value, x.value);
    }
  }

  lemma {:induction false} CoverageLast(ranks: seq<Option<Rank>>, last: Option<Rank>)
    ensures Coverage(ranks + [last]) == Coverage(ranks) + if last.Some? then 1 else 0
  {
    if ranks == [] {
      assert ranks + [last] == [last] && [last][1..] == [];
    } else {
      assert (ranks + [last])[1..] == ranks[1..] + [last];
      CoverageLast(ranks[1..], last);
    }
  }

  lemma {:induction false} CoverageCounts(ranks: seq<Option<Rank>>)
    ensures Coverage(ranks) == |set i | 0 <= i < |ranks| && ranks[i].Some?|
    decreases |ranks|
  {
    hide Coverage;
    if ranks == [] {
      assert Coverage([]) == 0 by { NoCoverage(); }
    } else {
      var n := |ranks| - 1;
      var init := ranks[..n];
      assert ranks == init + [ranks[n]];
      CoverageLast(init, ranks[n]);
      CoverageCounts(init);
      var before := set i | 0 <= i < |init| && init[i].Some?;
      var all := set i | 0 <= i < |ranks| && ranks[i].Some?;
      assert forall i :: 0 <= i < n ==> init[i] == ranks[i];
      assert all == before + if ranks[n].Some? then {n} else {};
    }
  }

  lemma NoCoverage()
    ensures Coverage([]) == 0
  {
  }

  /** One of the ranks, and none of them is better. */
  predicate Tops(ranks: seq<Option<Rank>>, best: Rank) {
    Some(best) in ranks && forall j :: 0 <= j < |ranks| && ranks[j].Some? ==> !RankLess(ranks[j].value, best)
  }

  function Covering(c: Candidate): set<int> {
    set k | 0 <= k < |c.ranks| && c.ranks[k].Some?
  }

  /** There is a choice if and only if some candidate is compatible and covers a primary
      capability, and the choice is such a candidate. */
  lemma ChosenIff(cands: seq<Candidate>, pick: Option<Candidate>)
    requires IsChoice(cands, pick)
    ensures pick.Some? <==> exists i :: 0 <= i < |cands| && !cands[i].incompatible && Covering(cands[i]) != {}
    ensures pick.Some? ==> pick.value in cands && !pick.value.incompatible && Covering(pick.value) != {}
  {
    hide Coverage, Before;
    forall c ensures Eligible(c) <==> !c.incompatible && Covering(c) != {} {
      CoverageCounts(c.ranks);
    }
  }

  /** The choice covers some primary capability and no compatible candidate covers more; of
      those that cover as many none has a better top rank, and of those with the same top rank
      none comes before it by name. */
  lemma ChoiceIsBest(cands: seq<Candidate>, c: Candidate, i: nat)
    requires IsChoice(cands, Some(c))
    requires i < |cands| && !cands[i].incompatible && cands[i] != c && Covering(cands[i]) != {}
    ensures var d := cands[i];
            && !c.incompatible && |Covering(c)| > 0 && |Covering(c)| >= |Covering(d)|
            && (|Covering(c)| == |Covering(d)| ==>
                  exists x, y :: Tops(c.ranks, x) && Tops(d.ranks, y)
                                 && (RankLess(x, y) || (x == y && StringLess(c.name, d.name))))
  {
    hide RankLess, StringLess, Coverage, Best;
    var d := cands[i];
    CoverageCounts(c.ranks);
    CoverageCounts(d.ranks);
    assert Coverage(d.ranks) > 0;
    BestIsLeast(c.ranks);
    BestIsLeast(d.ranks);
    assert Tops(c.ranks, Best(c.ranks).value) && Tops(d.ranks, Best(d.ranks).value);
  }

  /** A candidate has a rank for a primary capability exactly when some claim grants it, made
      of its fit, its grade and the number of capabilities it is granted. */
  lemma ScoredMeans(m: Model, h: Hardware, k: nat)
    requires k < 4
    ensures var c, wanted := Scored(m, h), ["chat", "tools", "reasoning", "coding"][k];
            && c.name == m.name && (c.incompatible <==> m.qualification == Incompatible) && |c.ranks| == 4
            && (c.ranks[k].Some? <==> exists i :: 0 <= i < |m.claims| && m.claims[i].capability == wanted
                                                  && m.claims[i].supported == Some(true))
            && (c.ranks[k].Some? ==>
                  var granted := set i | 0 <= i < |m.claims| && m.claims[i].supported == Some(true)
                                 :: m.claims[i].capability;
                  var grade := GradeOf(m.claims, wanted, m.qualification);
                  c.ranks[k].value == RankOf(HardwareFit(m.needs, h), grade, |granted|))
  {
    hide HardwareFit, RankOf, GradeOf;
    GradeIsStrongest(m.claims, ["chat", "tools", "reasoning", "coding"][k], m.qualification);
  }

  // ---- from a model to a candidate ----

  datatype Model = Model(name: string, qualification: Qualification, claims: seq<Claim>, needs: Needs)

  const PRIMARY_CAPABILITIES := ["chat", "tools", "reasoning", "coding"]

  function Breadth(claims: seq<Claim>): nat {
    |set i | 0 <= i < |claims| && claims[i].supported == Some(true) :: claims[i].capability|
  }

  /** The rank of a model for one capability; none without positive evidence. */
  function ModelRank(m: Model, capability: string, h: Hardware): Option<Rank> {
    var g := GradeOf(m.claims, capability, m.qualification);
    if g.strength == 0 then None else Some(RankOf(HardwareFit(m.needs, h), g, Breadth(m.claims)))
  }

  function Scored(m: Model, h: Hardware): Candidate {
    Candidate(m.name, m.qualification == Incompatible,
              seq(|PRIMARY_CAPABILITIES|, i requires 0 <= i < |PRIMARY_CAPABILITIES| =>
                ModelRank(m, PRIMARY_CAPABILITIES[i], h)))
  }

  /** More memory never worsens a model's rank, its evidence being the same. */
  lemma RankMonotone(m: Model, capability: string, a: Hardware, b: Hardware)
    requires NonNegative(m.needs) && NoLess(a, b) && ModelRank(m, capability, a).Some?
    ensures ModelRank(m, capability, b).Some?
            && !RankLess(ModelRank(m, capability, a).value, ModelRank(m, capability, b).value)
  {
    hide HardwareFit, GradeOf;
    FitMonotone(m.needs, a, b);
  }

  method ScoreModel(m: Model, h: Hardware) returns (c: Candidate)
    ensures c == Scored(m, h)
  {
    hide GradeOf, HardwareFit, Breadth;
    var ranks: seq<Option<Rank>> := [];
    for i := 0 to |PRIMARY_CAPABILITIES|
      invariant |ranks| == i && forall j :: 0 <= j < i ==> ranks[j] == ModelRank(m, PRIMARY_CAPABILITIES[j], h)
    {
      var g := EvidenceGrade(m.claims, PRIMARY_CAPABILITIES[i], m.qualification);
      if g.strength == 0 {
        ranks := ranks + [None];
      } else {
        ranks := ranks + [Some(RankOf(HardwareFit(m.needs, h), g, Breadth(m.claims)))];
      }
    }
    c := Candidate(m.name, m.qualification == Incompatible, ranks);
  }

  /** Scores every candidate and picks the first in the order. */
  method PickPrimaryModel(cands: seq<Candidate>) returns (pick: Option<Candidate>)
    requires DistinctNames(cands)
    ensures IsChoice(cands, pick)
  {
    hide Before, Eligible;
    pick := None;
    for i := 0 to |cands|
      invariant IsChoice(cands[..i], pick)
    {
      var c := cands[i];
      assert cands[..i + 1] == cands[..i] + [c];
      if !Eligible(c) {
        continue;
      }
      if pick.None? || Before(c, pick.value) {
        if pick.Some? {
          forall j | 0 <= j < i && Eligible(cands[j]) ensures Before(c, cands[j]) {
            assert cands[..i][j] == cands[j];
            BeforeOrder(c, pick.value, cands[j]);
          }
        }
        pick := Some(c);
      } else {
        assert pick.value.name != c.name;
        BeforeOrder(pick.value, c, c);
      }
    }
    assert cands[..|cands|] == cands;
  }
}
