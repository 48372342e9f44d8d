/** The scanner over package-lock.json: it walks the raw text, tracking strings and
    nesting depth, and returns the span of the value of a key at a given depth. First what
    the scanner computes from a position of any text, and its loops; then what that comes to
    on the text of a well-formed value: strings and whitespace are passed over, and the first
    key at the wanted depth is found. */
module LockfileScan {
  import opened JsonText

  /** A span of the text, no such key, or the RuntimeError / IndexError of the source. */
  datatype Outcome = Found(start: nat, end: nat) | Missing | Raised

  datatype Place = At(i: nat) | Nowhere

  /** The key looked for, the nesting depth of its object, and json.loads on a string token's body. */
  datatype Query = Query(key: string, depth: int, decode: string -> string)

  // ---- what the scanner computes from a position of the text ----

  /** Just past the closing quote of a string whose body starts (or goes on) at i. */
  function BodyEnd(text: string, i: nat): (r: Place)
    ensures r.At? ==> i < r.i <= |text|
    decreases |text| - i
  {
    if i >= |text| then Nowhere
    else if text[i] == '\\' then BodyEnd(text, i + 2)
    else if text[i] == '"' then At(i + 1)
    else BodyEnd(text, i + 1)
  }

  function SpacesEnd(text: string, i: nat): (r: nat)
    ensures i <= r
    ensures i <= |text| ==> r <= |text|
    ensures r < |text| ==> !IsSpace(text[r])
    decreases |text| - i
  {
    if i < |text| && IsSpace(text[i]) then SpacesEnd(text, i + 1) else i
  }

  function Delta(c: char): int {
    if c == '{' || c == '[' then 1 else if c == '}' || c == ']' then -1 else 0
  }

  /** Just past the bracket that brings the depth back to zero. */
  function BracketEnd(text: string, i: nat, depth: int): (r: Place)
    ensures r.At? ==> i < r.i <= |text|
    decreases |text| - i
  {
    if i >= |text| then Nowhere
    else
      var d := depth + Delta(text[i]);
      if Delta(text[i]) == -1 && d == 0 then At(i + 1) else BracketEnd(text, i + 1, d)
  }

  function ValueSpan(text: string, i: nat): (r: Outcome)
    ensures r.Found? ==> r.start == i && i < r.end <= |text|
    ensures !r.Missing?
  {
    if i >= |text| then Raised
    else
      var end := if text[i] == '"' then BodyEnd(text, i + 1) else BracketEnd(text, i, 0);
      if end.At? then Found(i, end.i) else Raised
  }

  function Scan(text: string, i: nat, current: int, q: Query): (r: Outcome)
    ensures r.Found? ==> i <= r.start < r.end <= |text|
    decreases |text| - i
  {
    if i >= |text| then Missing
    else if text[i] == '"' then
      var end := BodyEnd(text, i + 1);
      if end.Nowhere? then Raised
      else
        var probe := SpacesEnd(text, end.i);
        if current == q.depth && probe < |text| && text[probe] == ':' && q.decode(text[i + 1..end.i - 1]) == q.key then
          ValueSpan(text, SpacesEnd(text, probe + 1))
        else Scan(text, end.i, current, q)
    else Scan(text, i + 1, current + Delta(text[i]), q)
  }

  // ---- the source's loops ----

  method StringEnd(text: string, start: nat) returns (r: Place)
    ensures r == BodyEnd(text, start + 1)
  {
    var index := start + 1;
    while index < |text|
      invariant BodyEnd(text, start + 1) == BodyEnd(text, index)
    {
      var c := text[index];
      if c == '\\' {
        index := index + 2;
        continue;
      }
      if c == '"' {
        return At(index + 1);
      }
      index := index + 1;
    }
    return Nowhere;
  }

  method JsonValueSpan(text: string, valueStart: nat) returns (r: Outcome)
    ensures r == ValueSpan(text, valueStart)
  {
    if valueStart >= |text| {
      return Raised;
    }
    if text[valueStart] == '"' {
      var end := StringEnd(text, valueStart);
      return if end.At? then Found(valueStart, end.i) else Raised;
    }
    var depth := 0;
    for index := valueStart to |text|
      invariant BracketEnd(text, valueStart, 0) == BracketEnd(text, index, depth)
    {
      var current := text[index];
      if current == '{' || current == '[' {
        depth := depth + 1;
      } else if current == '}' || current == ']' {
        depth := depth - 1;
        if depth == 0 {
          return Found(valueStart, index + 1);
        }
      }
    }
    return Raised;
  }

  method SkipSpaces(text: string, start: nat) returns (probe: nat)
    requires start <= |text|
    ensures probe == SpacesEnd(text, start)
  {
    probe := start;
    while probe < |text| && IsSpace(text[probe])
      invariant start <= probe <= |text|
      invariant SpacesEnd(text, start) == SpacesEnd(text, probe)
    {
      probe := probe + 1;
    }
  }

  method KeyValueSpan(text: string, key: string, depth: int, decode: string -> string) returns (r: Outcome)
    ensures r == Scan(text, 0, 0, Query(key, depth, decode))
  {
    var index := 0;
    var current := 0;
    while index < |text|
      invariant 0 <= index <= |text|
      invariant var q := Query(key, depth, decode); Scan(text, 0, 0, q) == Scan(text, index, current, q)
    {
      var c := text[index];
      if c == '"' {
        var end := StringEnd(text, index);
        if end.Nowhere? {
          return Raised;
        }
        var probe := SkipSpaces(text, end.i);
        if current == depth && probe < |text| && text[probe] == ':' {
          if decode(text[index + 1..end.i - 1]) == key {
            var valueStart := SkipSpaces(text, probe + 1);
            r := JsonValueSpan(text, valueStart);
            return;
          }
        }
        index := end.i;
        continue;
      }
      if c == '{' || c == '[' {
        current := current + 1;
      } else if c == '}' || c == ']' {
        current := current - 1;
      }
      index := index + 1;
    }
    r := Missing;
  }

  // ---- text that holds a printed value at a position ----

  predicate Holds(text: string, i: nat, part: string) {
    i + |part| <= |text| && text[i..i + |part|] == part
  }

  lemma HoldsSplit(text: string, i: nat, a: string, b: string)
    requires Holds(text, i, a + b)
    ensures Holds(text, i, a) && Holds(text, i + |a|, b)
  {
    var part := text[i..i + |a + b|];
    assert text[i..i + |a|] == part[..|a|];
    assert text[i + |a|..i + |a| + |b|] == part[|a|..];
  }

  lemma HoldsChar(text: string, i: nat, c: char, b: string)
    requires Holds(text, i, [c] + b)
    ensures i < |text| && text[i] == c && Holds(text, i + 1, b)
  {
    HoldsSplit(text, i, [c], b);
    assert text[i] == text[i..i + 1][0];
  }

  lemma HoldsLast(text: string, i: nat, a: string, c: char)
    requires Holds(text, i, a + [c])
    ensures i + |a| < |text| && text[i + |a|] == c && Holds(text, i, a)
  {
    HoldsSplit(text, i, a, [c]);
    assert text[i + |a|] == text[i + |a|..i + |a| + 1][0];
  }

  /** The next character that is not whitespace is no colon. */
  predicate NotKey(text: string, i: nat) {
    var p := SpacesEnd(text, i);
    p < |text| ==> text[p] != ':'
  }

  lemma {:induction false} BodyEndRaw(text: string, i: nat, raw: string)
    requires Holds(text, i, raw + "\"") && ValidRaw(raw)
    ensures BodyEnd(text, i) == At(i + |raw| + 1)
    decreases |raw|
  {
    var whole := raw + "\"";
    assert text[i] == text[i..i + |whole|][0] == whole[0];
    if raw != [] {
      var n := if raw[0] == '\\' then 2 else 1;
      assert whole == raw[..n] + (raw[n..] + "\"");
      HoldsSplit(text, i, raw[..n], raw[n..] + "\"");
      BodyEndRaw(text, i + n, raw[n..]);
    }
  }

  lemma {:induction false} SpacesSkip(text: string, i: nat, ws: string)
    requires Holds(text, i, ws) && Spaces(ws)
    ensures SpacesEnd(text, i) == SpacesEnd(text, i + |ws|)
    decreases |ws|
  {
    if ws != [] {
      assert text[i] == text[i..i + |ws|][0] == ws[0];
      assert ws == ws[..1] + ws[1..];
      HoldsSplit(text, i, ws[..1], ws[1..]);
      SpacesSkip(text, i + 1, ws[1..]);
    }
  }

  lemma {:induction false} ScanInert(text: string, i: nat, part: string, current: int, q: Query)
    requires Holds(text, i, part) && forall k :: 0 <= k < |part| ==> Inert(part[k])
    ensures Scan(text, i, current, q) == Scan(text, i + |part|, current, q)
    decreases |part|
  {
    if part != [] {
      assert text[i] == text[i..i + |part|][0] == part[0];
      assert part == part[..1] + part[1..];
      HoldsSplit(text, i, part[..1], part[1..]);
      ScanInert(text, i + 1, part[1..], current, q);
    }
  }

  lemma ScanSpaces(text: string, i: nat, ws: string, current: int, q: Query)
    requires Holds(text, i, ws) && Spaces(ws)
    ensures Scan(text, i, current, q) == Scan(text, i + |ws|, current, q)
  {
    ScanInert(text, i, ws, current, q);
  }

  lemma ScanStep(text: string, i: nat, current: int, q: Query)
    requires i < |text| && text[i] != '"'
    ensures Scan(text, i, current, q) == Scan(text, i + 1, current + Delta(text[i]), q)
  {
  }

  /** A string token that is not the wanted key is passed over. */
  lemma ScanString(text: string, i: nat, raw: string, current: int, q: Query)
    requires Holds(text, i, Quote(raw)) && ValidRaw(raw)
    requires current != q.depth || q.decode(raw) != q.key || NotKey(text, i + |raw| + 2)
    ensures Scan(text, i, current, q) == Scan(text, i + |raw| + 2, current, q)
  {
    StringToken(text, i, raw);
  }

  lemma StringToken(text: string, i: nat, raw: string)
    requires Holds(text, i, Quote(raw)) && ValidRaw(raw)
    ensures text[i] == '"' && BodyEnd(text, i + 1) == At(i + |raw| + 2)
    ensures text[i + 1..i + |raw| + 1] == raw
    ensures ValueSpan(text, i) == Found(i, i + |raw| + 2)
  {
    assert Quote(raw) == "\"" + (raw + "\"");
    HoldsChar(text, i, '"', raw + "\"");
    BodyEndRaw(text, i + 1, raw);
    HoldsLast(text, i + 1, raw, '"');
  }

  lemma NotKeyAfter(text: string, i: nat, ws: string, rest: string)
    requires Holds(text, i, ws + rest) && Spaces(ws)
    requires rest != [] && rest[0] != ':' && !IsSpace(rest[0])
    ensures NotKey(text, i)
  {
    HoldsSplit(text, i, ws, rest);
    SpacesSkip(text, i, ws);
    assert text[i + |ws|] == text[i + |ws|..i + |ws| + |rest|][0] == rest[0];
  }

  lemma ArrParts(text: string, i: nat, v: Json)
    requires v.Arr? && Valid(v) && Holds(text, i, Print(v))
    ensures |Print(v)| == 2 + |v.pad| + |PrintItems(v.items)|
    ensures text[i] == '[' && text[i + |Print(v)| - 1] == ']'
    ensures Holds(text, i + 1, v.pad) && Holds(text, i + 1 + |v.pad|, PrintItems(v.items) + "]")
  {
    var body := PrintItems(v.items) + "]";
    HoldsChar(text, i, '[', v.pad + body);
    HoldsSplit(text, i + 1, v.pad, body);
    HoldsLast(text, i + 1 + |v.pad|, PrintItems(v.items), ']');
  }

  lemma ObjParts(text: string, i: nat, v: Json)
    requires v.Obj? && Valid(v) && Holds(text, i, Print(v))
    ensures |Print(v)| == 2 + |v.pad| + |PrintMembers(v.members)|
    ensures text[i] == '{' && text[i + |Print(v)| - 1] == '}'
    ensures Holds(text, i + 1, v.pad) && Holds(text, i + 1 + |v.pad|, PrintMembers(v.members) + "}")
  {
    var body := PrintMembers(v.members) + "}";
    HoldsChar(text, i, '{', v.pad + body);
    HoldsSplit(text, i + 1, v.pad, body);
    HoldsLast(text, i + 1 + |v.pad|, PrintMembers(v.members), '}');
  }

  /** The parts of one list entry: label, value, whitespace, and what follows. */
  lemma Pieces(text: string, i: nat, a: string, b: string, c: string, more: string, close: char)
    requires Holds(text, i, a + (b + (c + more)) + [close]) && Spaces(c)
    requires close == ']' || close == '}'
    requires more != [] ==> more[0] == ','
    ensures var k := i + |a| + |b|;
            && Holds(text, i, a) && Holds(text, i + |a|, b) && Holds(text, k, c) && NotKey(text, k)
            && (more != [] ==>
                  && k + |c| < |text| && text[k + |c|] == ','
                  && Holds(text, k + |c| + 1, more[1..] + [close]))
  {
    hide Holds, NotKey;
    var rest := more + [close];
    assert a + (b + (c + more)) + [close] == a + (b + (c + rest));
    HoldsSplit(text, i, a, b + (c + rest));
    HoldsSplit(text, i + |a|, b, c + rest);
    var k := i + |a| + |b|;
    NotKeyAfter(text, k, c, rest);
    HoldsSplit(text, k, c, rest);
    if more != [] {
      assert rest == [','] + (more[1..] + [close]);
      HoldsChar(text, k + |c|, ',', more[1..] + [close]);
    }
  }

  // ---- one element of an array, one member of an object ----

  function ItemLen(e: Item): nat {
    |e.pre| + |Print(e.value)| + |e.after|
  }

  predicate ItemAt(text: string, i: nat, e: Item) {
    && Holds(text, i, e.pre)
    && Holds(text, i + |e.pre|, Print(e.value))
    && Holds(text, i + |e.pre| + |Print(e.value)|, e.after)
    && NotKey(text, i + |e.pre| + |Print(e.value)|)
  }

  lemma ItemParts(text: string, i: nat, items: seq<Item>)
    requires items != [] && ValidItem(items[0])
    requires Holds(text, i, PrintItems(items) + "]")
    ensures var e := items[0];
            var k := i + ItemLen(e);
            && ItemAt(text, i, e)
            && (if |items| == 1 then |PrintItems(items)| == ItemLen(e)
                else
                  && k < |text| && text[k] == ','
                  && Holds(text, k + 1, PrintItems(items[1..]) + "]")
                  && |PrintItems(items)| == ItemLen(e) + 1 + |PrintItems(items[1..])|)
  {
    hide Holds, NotKey, Spaces, Valid;
    var e := items[0];
    var more := if |items| == 1 then "" else "," + PrintItems(items[1..]);
    assert PrintItems(items) == e.pre + (Print(e.value) + (e.after + more));
    Pieces(text, i, e.pre, Print(e.value), e.after, more, ']');
    assert |items| > 1 ==> more[1..] == PrintItems(items[1..]);
  }

  function MemberLen(m: Member): nat {
    |Label(m)| + |Print(m.value)| + |m.after|
  }

  predicate MemberAt(text: string, i: nat, m: Member) {
    && Holds(text, i, Label(m))
    && Holds(text, i + |Label(m)|, Print(m.value))
    && Holds(text, i + |Label(m)| + |Print(m.value)|, m.after)
    && NotKey(text, i + |Label(m)| + |Print(m.value)|)
  }

  lemma MemberParts(text: string, i: nat, members: seq<Member>)
    requires members != [] && ValidMember(members[0])
    requires Holds(text, i, PrintMembers(members) + "}")
    ensures var m := members[0];
            var k := i + MemberLen(m);
            && MemberAt(text, i, m)
            && (if |members| == 1 then |PrintMembers(members)| == MemberLen(m)
                else
                  && k < |text| && text[k] == ','
                  && Holds(text, k + 1, PrintMembers(members[1..]) + "}")
                  && |PrintMembers(members)| == MemberLen(m) + 1 + |PrintMembers(members[1..])|)
  {
    hide Holds, NotKey, Spaces, Valid, Label;
    var m := members[0];
    var more := if |members| == 1 then "" else "," + PrintMembers(members[1..]);
    assert PrintMembers(members) == Label(m) + (Print(m.value) + (m.after + more));
    Pieces(text, i, Label(m), Print(m.value), m.after, more, '}');
    assert |members| > 1 ==> more[1..] == PrintMembers(members[1..]);
  }

  /** The parts of a member's label, from the key on. */
  predicate KeyAt(text: string, k: nat, m: Member) {
    var c := k + |m.key| + 2 + |m.mid|;
    && Holds(text, k, Quote(m.key)) && Holds(text, k + |m.key| + 2, m.mid)
    && c < |text| && text[c] == ':' && Holds(text, c + 1, m.post) && SpacesEnd(text, k + |m.key| + 2) == c
  }

  lemma ColonAfter(text: string, k: nat, mid: string)
    requires Holds(text, k, mid) && Spaces(mid)
    requires k + |mid| < |text| && text[k + |mid|] == ':'
    ensures SpacesEnd(text, k) == k + |mid|
  {
    SpacesSkip(text, k, mid);
  }

  lemma QuoteLength(raw: string)
    ensures |Quote(raw)| == |raw| + 2
  {
  }

  lemma LabelParts(text: string, i: nat, m: Member)
    requires ValidMember(m) && Holds(text, i, Label(m))
    ensures Holds(text, i, m.pre) && KeyAt(text, i + |m.pre|, m)
    ensures |Label(m)| == |m.pre| + |m.key| + 2 + |m.mid| + 1 + |m.post|
  {
    hide Holds, Valid, Spaces, SpacesEnd, Quote;
    var k := i + |m.pre|;
    var tail := ":" + m.post;
    assert |Quote(m.key)| == |m.key| + 2 by { QuoteLength(m.key); }
    HoldsSplit(text, i, m.pre, Quote(m.key) + (m.mid + tail));
    HoldsSplit(text, k, Quote(m.key), m.mid + tail);
    var c := k + |m.key| + 2 + |m.mid|;
    HoldsSplit(text, k + |m.key| + 2, m.mid, tail);
    HoldsChar(text, c, ':', m.post);
    ColonAfter(text, k + |m.key| + 2, m.mid);
    assert KeyAt(text, k, m);
  }

  lemma ScanKey(text: string, k: nat, m: Member, current: int, q: Query)
    requires ValidMember(m) && KeyAt(text, k, m)
    requires current != q.depth || q.decode(m.key) != q.key
    ensures Scan(text, k, current, q) == Scan(text, k + |m.key| + 2 + |m.mid| + 1 + |m.post|, current, q)
  {
    hide Holds, Scan, BodyEnd, SpacesEnd, ValueSpan, NotKey, Spaces, Inert, Valid;
    ScanString(text, k, m.key, current, q);
    ScanSpaces(text, k + |m.key| + 2, m.mid, current, q);
    var c := k + |m.key| + 2 + |m.mid|;
    ScanStep(text, c, current, q);
    ScanSpaces(text, c + 1, m.post, current, q);
  }

  lemma ScanLabel(text: string, i: nat, m: Member, current: int, q: Query)
    requires ValidMember(m) && Holds(text, i, Label(m))
    requires current != q.depth || q.decode(m.key) != q.key
    ensures Scan(text, i, current, q) == Scan(text, i + |Label(m)|, current, q)
  {
    hide Holds, Scan, BodyEnd, SpacesEnd, ValueSpan, NotKey, Spaces, Inert, KeyAt, Valid, Label;
    LabelParts(text, i, m);
    ScanSpaces(text, i, m.pre, current, q);
    ScanKey(text, i + |m.pre|, m, current, q);
  }

  lemma FirstChar(text: string, i: nat, v: Json)
    requires Valid(v) && Holds(text, i, Print(v))
    ensures i < |text| && SpacesEnd(text, i) == i
  {
    match v
    case Str(raw) => StringToken(text, i, raw);
    case Atom(t) => assert text[i] == text[i..i + |t|][0];
    case Arr(pad, items) => ArrParts(text, i, v);
    case Obj(pad, members) => ObjParts(text, i, v);
  }

  lemma FoundKey(text: string, k: nat, m: Member, q: Query)
    requires ValidMember(m) && KeyAt(text, k, m) && q.decode(m.key) == q.key
    ensures Scan(text, k, q.depth, q) == ValueSpan(text, SpacesEnd(text, k + |m.key| + 2 + |m.mid| + 1 + |m.post|))
  {
    hide Holds, ValueSpan, Spaces, Inert, Valid;
    StringToken(text, k, m.key);
    SpacesSkip(text, k + |m.key| + 2 + |m.mid| + 1, m.post);
  }

  lemma FoundLabel(text: string, i: nat, m: Member, q: Query)
    requires ValidMember(m) && Holds(text, i, Label(m)) && Holds(text, i + |Label(m)|, Print(m.value))
    requires q.decode(m.key) == q.key
    ensures Scan(text, i, q.depth, q) == ValueSpan(text, i + |Label(m)|)
  {
    hide Holds, Scan, BodyEnd, SpacesEnd, ValueSpan, NotKey, Spaces, Inert, KeyAt, Valid, Print, Label;
    LabelParts(text, i, m);
    ScanSpaces(text, i, m.pre, q.depth, q);
    FoundKey(text, i + |m.pre|, m, q);
    FirstChar(text, i + |Label(m)|, m.value);
  }

  // ---- values below the wanted depth are passed over ----

  lemma {:induction false} ScanValue(text: string, i: nat, v: Json, current: int, q: Query)
    requires Valid(v) && Holds(text, i, Print(v))
    requires current > q.depth || v.Atom? || (current < q.depth && v.Str?)
             || (current == q.depth && NotKey(text, i + |Print(v)|))
    ensures Scan(text, i, current, q) == Scan(text, i + |Print(v)|, current, q)
    decreases v, 3
  {
    hide Holds, Scan, BodyEnd, SpacesEnd, ValueSpan, NotKey, Spaces;
    match v
    case Str(raw) => ScanString(text, i, raw, current, q);
    case Atom(t) => ScanInert(text, i, t, current, q);
    case _ =>
      ScanInside(text, i, v, current + 1, q);
      ScanStep(text, i, current, q);
      ScanStep(text, i + |Print(v)| - 1, current + 1, q);
  }

  /** Between the brackets of an array, or of an object below the wanted depth. */
  lemma {:induction false} ScanInside(text: string, i: nat, v: Json, current: int, q: Query)
    requires (v.Arr? && current >= q.depth) || (v.Obj? && current > q.depth)
    requires Valid(v) && Holds(text, i, Print(v))
    ensures |Print(v)| >= 2 && i + |Print(v)| <= |text|
    ensures text[i] == (if v.Arr? then '[' else '{') && text[i + |Print(v)| - 1] == (if v.Arr? then ']' else '}')
    ensures Scan(text, i + 1, current, q) == Scan(text, i + |Print(v)| - 1, current, q)
    decreases v, 2
  {
    hide Holds, Scan, BodyEnd, SpacesEnd, ValueSpan, NotKey, Spaces;
    if v.Arr? {
      ArrParts(text, i, v);
      ScanSpaces(text, i + 1, v.pad, current, q);
      ScanItems(text, i + 1 + |v.pad|, v.items, current, q);
    } else {
      ObjParts(text, i, v);
      ScanSpaces(text, i + 1, v.pad, current, q);
      ScanMembers(text, i + 1 + |v.pad|, v.members, current, q);
    }
  }

  lemma {:induction false} ScanItem(text: string, i: nat, e: Item, current: int, q: Query)
    requires ValidItem(e) && ItemAt(text, i, e) && current >= q.depth
    ensures Scan(text, i, current, q) == Scan(text, i + ItemLen(e), current, q)
    decreases e, 4
  {
    hide Holds, Scan, BodyEnd, SpacesEnd, ValueSpan, NotKey, Spaces, Inert, Print, Valid;
    ScanSpaces(text, i, e.pre, current, q);
    ScanValue(text, i + |e.pre|, e.value, current, q);
    ScanSpaces(text, i + |e.pre| + |Print(e.value)|, e.after, current, q);
  }

  lemma {:induction false} ScanItems(text: string, i: nat, items: seq<Item>, current: int, q: Query)
    requires ValidItems(items)
    requires Holds(text, i, PrintItems(items) + "]") && current >= q.depth
    ensures Scan(text, i, current, q) == Scan(text, i + |PrintItems(items)|, current, q)
    decreases items, 0
  {
    hide Holds, Scan, BodyEnd, SpacesEnd, ValueSpan, NotKey, Spaces, Inert, Print, PrintItems, Valid, ValidItem,
         ItemAt, ItemLen;
    if items != [] {
      ItemParts(text, i, items);
      ScanItem(text, i, items[0], current, q);
      if |items| > 1 {
        var k := i + ItemLen(items[0]);
        ScanStep(text, k, current, q);
        ScanItems(text, k + 1, items[1..], current, q);
      }
    }
  }

  /** A member below the wanted depth, or one whose key is not the wanted one. */
  lemma {:induction false} ScanMember(text: string, i: nat, m: Member, current: int, q: Query)
    requires ValidMember(m) && MemberAt(text, i, m)
    requires current > q.depth || (current == q.depth && q.decode(m.key) != q.key)
    ensures Scan(text, i, current, q) == Scan(text, i + MemberLen(m), current, q)
    decreases m, 4
  {
    hide Holds, Scan, BodyEnd, SpacesEnd, ValueSpan, NotKey, Spaces, Inert, Print, Valid, Label;
    ScanLabel(text, i, m, current, q);
    ScanValue(text, i + |Label(m)|, m.value, current, q);
    ScanSpaces(text, i + |Label(m)| + |Print(m.value)|, m.after, current, q);
  }

  lemma {:induction false} ScanMembers(text: string, i: nat, members: seq<Member>, current: int, q: Query)
    requires ValidMembers(members)
    requires Holds(text, i, PrintMembers(members) + "}") && current > q.depth
    ensures Scan(text, i, current, q) == Scan(text, i + |PrintMembers(members)|, current, q)
    decreases members, 0
  {
    hide Holds, Scan, BodyEnd, SpacesEnd, ValueSpan, NotKey, Spaces, Inert, Print, PrintMembers, Valid, ValidMember,
         MemberAt, MemberLen;
    if members != [] {
      MemberParts(text, i, members);
      ScanMember(text, i, members[0], current, q);
      if |members| > 1 {
        var k := i + MemberLen(members[0]);
        ScanStep(text, k, current, q);
        ScanMembers(text, k + 1, members[1..], current, q);
      }
    }
  }

  // ---- the keys at the wanted depth ----

  /** Index of the first member with the wanted key; |members| when there is none. */
  function FirstKey(members: seq<Member>, q: Query): (k: nat)
    ensures k <= |members|
    ensures k < |members| ==> q.decode(members[k].key) == q.key
  {
    if members == [] || q.decode(members[0].key) == q.key then 0 else 1 + FirstKey(members[1..], q)
  }

  /** Index of the first member whose value is an object with the wanted key. */
  function FirstNested(members: seq<Member>, q: Query): (k: nat)
    ensures k <= |members|
    ensures k < |members| ==> HasKey(members[k].value, q)
  {
    if members == [] || HasKey(members[0].value, q) then 0 else 1 + FirstNested(members[1..], q)
  }

  predicate HasKey(v: Json, q: Query) {
    v.Obj? && FirstKey(v.members, q) < |v.members|
  }

  /** Where member k starts inside the printed members. */
  function Start(members: seq<Member>, k: nat): nat
    requires k < |members|
  {
    if k == 0 then 0 else MemberLen(members[0]) + 1 + Start(members[1..], k - 1)
  }

  /** Where the value of member k starts inside the printed members. */
  function Offset(members: seq<Member>, k: nat): nat
    requires k < |members|
  {
    Start(members, k) + |Label(members[k])|
  }

  lemma {:induction false} HoldsMember(text: string, i: nat, members: seq<Member>, k: nat)
    requires ValidMembers(members) && Holds(text, i, PrintMembers(members) + "}") && k < |members|
    ensures MemberAt(text, i + Start(members, k), members[k])
    decreases k
  {
    hide Holds, PrintMembers, ValidMember, MemberAt, MemberLen;
    MemberParts(text, i, members);
    if k > 0 {
      HoldsMember(text, i + MemberLen(members[0]) + 1, members[1..], k - 1);
    }
  }

  lemma {:induction false} ScanLevel(text: string, i: nat, members: seq<Member>, q: Query)
    requires ValidMembers(members)
    requires Holds(text, i, PrintMembers(members) + "}")
    ensures var k := FirstKey(members, q);
            Scan(text, i, q.depth, q)
            == if k < |members| then ValueSpan(text, i + Offset(members, k))
               else Scan(text, i + |PrintMembers(members)|, q.depth, q)
    decreases |members|
  {
    hide Holds, Scan, BodyEnd, SpacesEnd, ValueSpan, NotKey, Spaces, Inert, Print, PrintMembers, Label, Valid,
         ValidMember, MemberLen;
    if members != [] {
      var m := members[0];
      MemberParts(text, i, members);
      if q.decode(m.key) == q.key {
        FoundLabel(text, i, m, q);
      } else {
        ScanMember(text, i, m, q.depth, q);
        if |members| > 1 {
          var k := i + MemberLen(m);
          ScanStep(text, k, q.depth, q);
          ScanLevel(text, k + 1, members[1..], q);
        }
      }
    }
  }

  /** A value one level above the wanted depth: its own keys are the candidates. */
  lemma ScanNestedValue(text: string, i: nat, v: Json, q: Query)
    requires Valid(v) && Holds(text, i, Print(v))
    ensures Scan(text, i, q.depth - 1, q)
            == if HasKey(v, q) then ValueSpan(text, i + 1 + |v.pad| + Offset(v.members, FirstKey(v.members, q)))
               else Scan(text, i + |Print(v)|, q.depth - 1, q)
  {
    hide Holds, Scan, BodyEnd, SpacesEnd, ValueSpan, NotKey, Spaces, Offset, FirstKey;
    match v
    case Str(raw) => ScanString(text, i, raw, q.depth - 1, q);
    case Atom(t) => ScanInert(text, i, t, q.depth - 1, q);
    case Arr(pad, items) =>
      ScanInside(text, i, v, q.depth, q);
      ScanStep(text, i, q.depth - 1, q);
      ScanStep(text, i + |Print(v)| - 1, q.depth, q);
    case Obj(pad, members) =>
      ScanObject(text, i, v, q.depth - 1, q);
  }

  /** An object whose keys are at the wanted depth. */
  lemma ScanObject(text: string, i: nat, v: Json, outer: int, q: Query)
    requires v.Obj? && Valid(v) && Holds(text, i, Print(v)) && outer == q.depth - 1
    ensures Scan(text, i, outer, q)
            == if HasKey(v, q) then ValueSpan(text, i + 1 + |v.pad| + Offset(v.members, FirstKey(v.members, q)))
               else Scan(text, i + |Print(v)|, outer, q)
  {
    hide Holds, Scan, BodyEnd, SpacesEnd, ValueSpan, NotKey, Spaces, Offset, FirstKey, Print;
    ObjParts(text, i, v);
    ScanStep(text, i, outer, q);
    ScanSpaces(text, i + 1, v.pad, q.depth, q);
    ScanLevel(text, i + 1 + |v.pad|, v.members, q);
    if !HasKey(v, q) {
      ScanStep(text, i + |Print(v)| - 1, q.depth, q);
    }
  }

  /** One member of the object around the wanted depth. */
  lemma ScanOuterMember(text: string, i: nat, m: Member, q: Query)
    requires ValidMember(m) && MemberAt(text, i, m)
    ensures Scan(text, i, q.depth - 1, q)
            == if HasKey(m.value, q) then
                 ValueSpan(text, i + |Label(m)| + 1 + |m.value.pad|
                     + Offset(m.value.members, FirstKey(m.value.members, q)))
               else Scan(text, i + MemberLen(m), q.depth - 1, q)
  {
    hide Holds, Scan, BodyEnd, SpacesEnd, ValueSpan, NotKey, Spaces, Inert, Print, Valid, Label, HasKey, Offset,
         FirstKey;
    ScanLabel(text, i, m, q.depth - 1, q);
    ScanNestedValue(text, i + |Label(m)|, m.value, q);
    if !HasKey(m.value, q) {
      ScanSpaces(text, i + |Label(m)| + |Print(m.value)|, m.after, q.depth - 1, q);
    }
  }

  lemma {:induction false} ScanOuter(text: string, i: nat, members: seq<Member>, q: Query)
    requires ValidMembers(members)
    requires Holds(text, i, PrintMembers(members) + "}")
    ensures var k := FirstNested(members, q);
            Scan(text, i, q.depth - 1, q)
            == if k < |members| then
                 var v := members[k].value;
                 ValueSpan(text, i + Offset(members, k) + 1 + |v.pad| + Offset(v.members, FirstKey(v.members, q)))
               else Scan(text, i + |PrintMembers(members)|, q.depth - 1, q)
    decreases |members|
  {
    hide Holds, Scan, BodyEnd, SpacesEnd, ValueSpan, NotKey, Spaces, Inert, Print, PrintMembers, Label;
    hide Valid, ValidMember, MemberAt, MemberLen, HasKey, FirstKey;
    if members != [] {
      MemberParts(text, i, members);
      ScanOuterMember(text, i, members[0], q);
      if !HasKey(members[0].value, q) && |members| > 1 {
        var k := i + MemberLen(members[0]);
        ScanStep(text, k, q.depth - 1, q);
        ScanOuter(text, k + 1, members[1..], q);
      }
    }
  }
}
