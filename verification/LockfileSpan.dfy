/** The span the scanner gives a value. */
module LockfileSpan {
  import opened JsonText
  import opened LockfileScan

  // ---- values without brackets in their strings ----

  lemma {:induction false} BracketsInert(text: string, i: nat, part: string, depth: int)
    requires Holds(text, i, part) && NoBracket(part)
    ensures BracketEnd(text, i, depth) == BracketEnd(text, i + |part|, depth)
    decreases |part|
  {
    if part != [] {
      assert text[i] == text[i..i + |part|][0] == part[0];
      assert part == part[..1] + part[1..];
      HoldsSplit(text, i, part[..1], part[1..]);
      BracketsInert(text, i + 1, part[1..], depth);
    }
  }

  lemma BracketStep(text: string, i: nat, depth: int)
    requires i < |text| && (Delta(text[i]) != -1 || depth != 1)
    ensures BracketEnd(text, i, depth) == BracketEnd(text, i + 1, depth + Delta(text[i]))
  {
  }

  lemma {:induction false} BracketsValue(text: string, i: nat, v: Json, depth: int)
    requires Valid(v) && NoBracketStrings(v) && Holds(text, i, Print(v)) && depth >= 1
    ensures BracketEnd(text, i, depth) == BracketEnd(text, i + |Print(v)|, depth)
    decreases v, 3
  {
    hide Holds, BracketEnd, Spaces;
    match v
    case Str(raw) => BracketsInert(text, i, Quote(raw), depth);
    case Atom(t) => BracketsInert(text, i, t, depth);
    case Arr(pad, items) =>
      ArrParts(text, i, v);
      BracketStep(text, i, depth);
      BracketsInside(text, i, v, depth + 1);
      BracketStep(text, i + |Print(v)| - 1, depth + 1);
    case Obj(pad, members) =>
      ObjParts(text, i, v);
      BracketStep(text, i, depth);
      BracketsInside(text, i, v, depth + 1);
      BracketStep(text, i + |Print(v)| - 1, depth + 1);
  }

  lemma SpacesNoBracket(ws: string)
    requires Spaces(ws)
    ensures NoBracket(ws)
  {
  }

  /** Between the brackets of an array or object the depth comes back to where it was. */
  lemma {:induction false} BracketsInside(text: string, i: nat, v: Json, depth: int)
    requires (v.Arr? || v.Obj?) && Valid(v) && NoBracketStrings(v) && Holds(text, i, Print(v)) && depth >= 1
    ensures BracketEnd(text, i + 1, depth) == BracketEnd(text, i + |Print(v)| - 1, depth)
    decreases v, 2
  {
    hide Holds, BracketEnd, Spaces, NoBracket;
    SpacesNoBracket(v.pad);
    if v.Arr? {
      ArrParts(text, i, v);
      BracketsInert(text, i + 1, v.pad, depth);
      BracketsItems(text, i + 1 + |v.pad|, v.items, depth);
    } else {
      ObjParts(text, i, v);
      BracketsInert(text, i + 1, v.pad, depth);
      BracketsMembers(text, i + 1 + |v.pad|, v.members, depth);
    }
  }

  lemma {:induction false} BracketsItem(text: string, i: nat, e: Item, depth: int)
    requires ValidItem(e) && NoBracketStrings(e.value) && ItemAt(text, i, e) && depth >= 1
    ensures BracketEnd(text, i, depth) == BracketEnd(text, i + ItemLen(e), depth)
    decreases e, 4
  {
    hide Holds, BracketEnd, Spaces, NoBracket, NotKey, Valid, NoBracketStrings, Print;
    SpacesNoBracket(e.pre);
    SpacesNoBracket(e.after);
    BracketsInert(text, i, e.pre, depth);
    BracketsValue(text, i + |e.pre|, e.value, depth);
    BracketsInert(text, i + |e.pre| + |Print(e.value)|, e.after, depth);
  }

  lemma {:induction false} BracketsItems(text: string, i: nat, items: seq<Item>, depth: int)
    requires ValidItems(items) && NoBracketItems(items)
    requires Holds(text, i, PrintItems(items) + "]") && depth >= 1
    ensures BracketEnd(text, i, depth) == BracketEnd(text, i + |PrintItems(items)|, depth)
    decreases items, 0
  {
    hide Holds, BracketEnd, ValidItem, ItemAt, ItemLen, NoBracketStrings, Print, PrintItems;
    if items != [] {
      ItemParts(text, i, items);
      BracketsItem(text, i, items[0], depth);
      if |items| > 1 {
        var k := i + ItemLen(items[0]);
        BracketStep(text, k, depth);
        BracketsItems(text, k + 1, items[1..], depth);
      }
    }
  }

  lemma BracketsLabel(text: string, i: nat, m: Member, depth: int)
    requires ValidMember(m) && NoBracket(m.key) && Holds(text, i, Label(m))
    ensures BracketEnd(text, i, depth) == BracketEnd(text, i + |Label(m)|, depth)
  {
    hide Holds, BracketEnd, Valid;
    BracketsInert(text, i, Label(m), depth);
  }

  lemma {:induction false} BracketsMember(text: string, i: nat, m: Member, depth: int)
    requires ValidMember(m) && NoBracket(m.key) && NoBracketStrings(m.value) && MemberAt(text, i, m) && depth >= 1
    ensures BracketEnd(text, i, depth) == BracketEnd(text, i + MemberLen(m), depth)
    decreases m, 4
  {
    hide Holds, BracketEnd, Spaces, NoBracket, NotKey, Valid, NoBracketStrings, Print, Label;
    SpacesNoBracket(m.after);
    BracketsLabel(text, i, m, depth);
    BracketsValue(text, i + |Label(m)|, m.value, depth);
    BracketsInert(text, i + |Label(m)| + |Print(m.value)|, m.after, depth);
  }

  lemma {:induction false} BracketsMembers(text: string, i: nat, members: seq<Member>, depth: int)
    requires ValidMembers(members) && NoBracketMembers(members)
    requires Holds(text, i, PrintMembers(members) + "}") && depth >= 1
    ensures BracketEnd(text, i, depth) == BracketEnd(text, i + |PrintMembers(members)|, depth)
    decreases members, 0
  {
    hide Holds, BracketEnd, ValidMember, MemberAt, MemberLen, NoBracketStrings, NoBracket, Print, PrintMembers;
    if members != [] {
      MemberParts(text, i, members);
      BracketsMember(text, i, members[0], depth);
      if |members| > 1 {
        var k := i + MemberLen(members[0]);
        BracketStep(text, k, depth);
        BracketsMembers(text, k + 1, members[1..], depth);
      }
    }
  }

  // ---- exactly which values are spanned ----

  /** The bracket depth after a text, strings not told apart. */
  function DepthAfter(s: string): int {
    if s == [] then 0 else DepthAfter(s[..|s| - 1]) + Delta(s[|s| - 1])
  }

  /** The brackets balance at the end of the text and not before. */
  predicate Balanced(s: string) {
    s != [] && DepthAfter(s) == 0 && forall k :: 0 < k < |s| ==> DepthAfter(s[..k]) > 0
  }

  lemma DepthStep(s: string, k: nat)
    requires k < |s|
    ensures DepthAfter(s[..k + 1]) == DepthAfter(s[..k]) + Delta(s[k])
  {
    assert s[..k + 1][..k] == s[..k];
  }

  /** As long as the depth stays positive the scan goes on. */
  lemma {:induction false} BracketsOpen(text: string, i: nat, s: string, k: nat)
    requires Holds(text, i, s) && k <= |s| && forall j :: 0 < j <= k ==> DepthAfter(s[..j]) > 0
    ensures BracketEnd(text, i, 0) == BracketEnd(text, i + k, DepthAfter(s[..k]))
    decreases k
  {
    if k == 0 {
      assert s[..0] == [];
    } else {
      BracketsOpen(text, i, s, k - 1);
      DepthStep(s, k - 1);
      assert text[i + k - 1] == text[i..i + |s|][k - 1];
    }
  }

  /** The first place where the depth is not positive any more. */
  lemma {:induction false} FirstClosed(s: string, k: nat) returns (j: nat)
    requires 0 < k <= |s| && DepthAfter(s[..k]) <= 0
    ensures 0 < j <= k && DepthAfter(s[..j]) <= 0 && forall m :: 0 < m < j ==> DepthAfter(s[..m]) > 0
    decreases k
  {
    if m :| 0 < m < k && DepthAfter(s[..m]) <= 0 {
      j := FirstClosed(s, m);
    } else {
      j := k;
    }
  }

  lemma BalancedEnds(text: string, i: nat, s: string)
    requires Holds(text, i, s) && Balanced(s) && Delta(s[|s| - 1]) == -1
    ensures BracketEnd(text, i, 0) == At(i + |s|)
  {
    hide Holds;
    var n := |s| - 1;
    assert s[..n + 1] == s;
    HoldsAt(text, i, s, n);
    DepthStep(s, n);
    BracketsOpen(text, i, s, n);
  }

  /** Once the depth is back at zero the count stops there. */
  lemma ClosedEnds(text: string, i: nat, s: string, j: nat)
    requires Holds(text, i, s) && 1 < j <= |s| && DepthAfter(s[..j]) <= 0
    requires forall m :: 0 < m < j ==> DepthAfter(s[..m]) > 0
    ensures BracketEnd(text, i, 0) == At(i + j) && DepthAfter(s[..j]) == 0
  {
    hide Holds;
    HoldsAt(text, i, s, j - 1);
    DepthStep(s, j - 1);
    BracketsOpen(text, i, s, j - 1);
  }

  lemma OpenGoesOn(text: string, i: nat, s: string)
    requires Holds(text, i, s) && s != [] && forall k :: 0 < k <= |s| ==> DepthAfter(s[..k]) > 0
    ensures BracketEnd(text, i, 0) != At(i + |s|)
  {
    hide Holds, DepthAfter;
    BracketsOpen(text, i, s, |s|);
  }

  /** Counting brackets stops at the end of a text that opens and closes with one if and only
      if the text is balanced. */
  lemma BracketEndIff(text: string, i: nat, s: string)
    requires Holds(text, i, s) && |s| >= 2 && Delta(s[0]) == 1 && Delta(s[|s| - 1]) == -1
    ensures BracketEnd(text, i, 0) == At(i + |s|) <==> Balanced(s)
  {
    hide Holds, BracketEnd, DepthAfter;
    assert s[..|s|] == s;
    FirstDepth(s);
    if Balanced(s) {
      BalancedEnds(text, i, s);
    } else if forall k :: 0 < k <= |s| ==> DepthAfter(s[..k]) > 0 {
      OpenGoesOn(text, i, s);
    } else {
      var k :| 0 < k <= |s| && DepthAfter(s[..k]) <= 0;
      var j := FirstClosed(s, k);
      ClosedEnds(text, i, s, j);
    }
  }

  lemma FirstDepth(s: string)
    requires s != [] && Delta(s[0]) == 1
    ensures DepthAfter(s[..1]) == 1
  {
    DepthStep(s, 0);
    assert s[..0] == [];
  }

  lemma HoldsAt(text: string, i: nat, s: string, k: nat)
    requires Holds(text, i, s) && k < |s|
    ensures i + k < |text| && text[i + k] == s[k]
  {
    assert text[i + k] == text[i..i + |s|][k];
  }

  /** What the scanner spans as a whole: a string, or an array or object whose brackets
      balance at its end only, those inside its strings counted. */
  predicate Spannable(v: Json) {
    v.Str? || (!v.Atom? && Balanced(Print(v)))
  }

  /** The span of a printed value is that value if and only if it is spannable. */
  lemma SpanOfValue(text: string, i: nat, v: Json)
    requires Valid(v) && Holds(text, i, Print(v))
    ensures ValueSpan(text, i) == Found(i, i + |Print(v)|) <==> Spannable(v)
  {
    hide Holds, BodyEnd, Balanced, Print;
    match v
    case Str(raw) =>
      assert Print(v) == Quote(raw) by { StrPrint(raw); }
      StringToken(text, i, raw);
    case Atom(t) =>
      assert Print(v) == t by { AtomPrint(t); }
      AtomNotSpanned(text, i, t);
    case Arr(_, _) =>
      ArrEnds(text, i, v);
      BracketEndIff(text, i, Print(v));
    case Obj(_, _) =>
      ArrEnds(text, i, v);
      BracketEndIff(text, i, Print(v));
  }

  lemma StrPrint(raw: string)
    ensures Print(Str(raw)) == Quote(raw)
  {
  }

  lemma AtomPrint(t: string)
    ensures Print(Atom(t)) == t
  {
  }

  lemma ArrEnds(text: string, i: nat, v: Json)
    requires (v.Arr? || v.Obj?) && Valid(v) && Holds(text, i, Print(v))
    ensures var s := Print(v); |s| >= 2 && Delta(s[0]) == 1 && Delta(s[|s| - 1]) == -1
    ensures i < |text| && text[i] != '"'
  {
    if v.Arr? {
      ArrParts(text, i, v);
    } else {
      ObjParts(text, i, v);
    }
    HoldsAt(text, i, Print(v), 0);
    HoldsAt(text, i, Print(v), |Print(v)| - 1);
  }

  /** A number or literal holds no bracket, so no span ends with it. */
  lemma AtomNotSpanned(text: string, i: nat, t: string)
    requires ValidAtom(t) && Holds(text, i, t)
    ensures ValueSpan(text, i) != Found(i, i + |t|)
  {
    hide Holds;
    HoldsAt(text, i, t, 0);
    BracketsInert(text, i, t, 0);
  }

  /** Without brackets inside its strings a value is balanced. */
  lemma PlainSpannable(v: Json)
    requires Valid(v) && NoBracketStrings(v) && !v.Atom?
    ensures Spannable(v)
  {
    hide Holds, NoBracketStrings, Balanced, Valid, Print, BracketEnd;
    if !v.Str? {
      var text := Print(v);
      HoldsWhole(text);
      ArrEnds(text, 0, v);
      BracketsInside(text, 0, v, 1);
      OpenAndClose(text);
      BracketEndIff(text, 0, text);
    }
  }

  lemma OpenAndClose(text: string)
    requires |text| >= 2 && Delta(text[0]) == 1 && Delta(text[|text| - 1]) == -1
    ensures BracketEnd(text, 0, 0) == BracketEnd(text, 1, 1)
    ensures BracketEnd(text, |text| - 1, 1) == At(|text|)
  {
  }

  lemma HoldsWhole(text: string)
    ensures Holds(text, 0, text)
  {
  }
}
