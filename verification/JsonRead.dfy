/** Reading a JSON text back: what json.loads makes of a document, layout dropped. Members
    keep their order and repeated keys, strings and numbers their spelling. The reader works
    on positions of the text, and on the text of any printed value, wherever it stands, it
    returns the data of that value and the position behind it. */
module JsonRead {
  import opened JsonText
  import opened LockfileScan

  datatype Data = Text(raw: string) | Word(text: string) | List(items: seq<Data>) | Dict(fields: seq<Field>)

  datatype Field = Field(key: string, value: Data)

  datatype Read<+T> = Got(value: T, end: nat) | Fail

  // ---- the data of a value ----

  function DataOf(v: Json): Data
    decreases v, 1
  {
    match v
    case Str(raw) => Text(raw)
    case Atom(text) => Word(text)
    case Arr(_, items) => List(ItemData(items))
    case Obj(_, members) => Dict(MemberData(members))
  }

  function ItemData(items: seq<Item>): (r: seq<Data>)
    ensures |r| == |items|
    decreases items, 0
  {
    if items == [] then [] else [DataOf(items[0].value)] + ItemData(items[1..])
  }

  function MemberData(members: seq<Member>): (r: seq<Field>)
    ensures |r| == |members|
    decreases members, 0
  {
    if members == [] then [] else [Field(members[0].key, DataOf(members[0].value))] + MemberData(members[1..])
  }

  // ---- reading from a position of the text ----

  predicate AtomChar(c: char) {
    Inert(c) && c != ':' && c != ',' && !IsSpace(c)
  }

  function AtomEnd(text: string, i: nat): (r: nat)
    ensures i <= r && (i <= |text| ==> r <= |text|)
    decreases |text| - i
  {
    if i < |text| && AtomChar(text[i]) then AtomEnd(text, i + 1) else i
  }

  function ReadValue(text: string, i: nat): (r: Read<Data>)
    ensures r.Got? ==> i < r.end <= |text|
    decreases |text| - i, 0
  {
    if i >= |text| then Fail
    else if text[i] == '"' then
      var end := BodyEnd(text, i + 1);
      if end.At? then Got(Text(text[i + 1..end.i - 1]), end.i) else Fail
    else if text[i] == '[' then
      var p := SpacesEnd(text, i + 1);
      if p < |text| && text[p] == ']' then Got(List([]), p + 1)
      else
        var r := ReadItems(text, i + 1);
        if r.Got? then Got(List(r.value), r.end) else Fail
    else if text[i] == '{' then
      var p := SpacesEnd(text, i + 1);
      if p < |text| && text[p] == '}' then Got(Dict([]), p + 1)
      else
        var r := ReadFields(text, i + 1);
        if r.Got? then Got(Dict(r.value), r.end) else Fail
    else
      var end := AtomEnd(text, i);
      if i < end then Got(Word(text[i..end]), end) else Fail
  }

  /** A value and, after a comma, the others, up to the closing bracket. */
  function ReadItems(text: string, i: nat): (r: Read<seq<Data>>)
    ensures r.Got? ==> i < r.end <= |text|
    decreases |text| - i, 1
  {
    var v := ReadValue(text, SpacesEnd(text, i));
    if v.Fail? then Fail
    else
      var p := SpacesEnd(text, v.end);
      if p >= |text| then Fail
      else if text[p] == ']' then Got([v.value], p + 1)
      else if text[p] != ',' then Fail
      else
        var more := ReadItems(text, p + 1);
        if more.Got? then Got([v.value] + more.value, more.end) else Fail
  }

  /** The end of a key token that starts at p and is followed by a colon: the two positions after them. */
  function KeyEnd(text: string, p: nat): (r: Read<string>)
    ensures r.Got? ==> p < r.end <= |text|
  {
    if p >= |text| || text[p] != '"' then Fail
    else
      var end := BodyEnd(text, p + 1);
      if end.Nowhere? then Fail
      else
        var c := SpacesEnd(text, end.i);
        if c < |text| && text[c] == ':' then Got(text[p + 1..end.i - 1], c + 1) else Fail
  }

  function ReadFields(text: string, i: nat): (r: Read<seq<Field>>)
    ensures r.Got? ==> i < r.end <= |text|
    decreases |text| - i, 1
  {
    var key := KeyEnd(text, SpacesEnd(text, i));
    if key.Fail? then Fail
    else
      var v := ReadValue(text, SpacesEnd(text, key.end));
      if v.Fail? then Fail
      else
        var p := SpacesEnd(text, v.end);
        if p >= |text| then Fail
        else if text[p] == '}' then Got([Field(key.value, v.value)], p + 1)
        else if text[p] != ',' then Fail
        else
          var more := ReadFields(text, p + 1);
          if more.Got? then Got([Field(key.value, v.value)] + more.value, more.end) else Fail
  }

  /** A whole text: one value between whitespace. */
  function ReadText(text: string): Read<Data> {
    var r := ReadValue(text, SpacesEnd(text, 0));
    if r.Got? && SpacesEnd(text, r.end) == |text| then r else Fail
  }

  // ---- reading a printed value gives its data ----

  /** An atom cannot go on at i. */
  predicate Delimited(text: string, i: nat) {
    i < |text| ==> !AtomChar(text[i])
  }

  lemma {:induction false} AtomReads(text: string, i: nat, part: string)
    requires Holds(text, i, part) && Delimited(text, i + |part|)
    requires forall k :: 0 <= k < |part| ==> AtomChar(part[k])
    ensures AtomEnd(text, i) == i + |part|
    decreases |part|
  {
    if part != [] {
      assert text[i] == text[i..i + |part|][0] == part[0];
      assert part == part[..1] + part[1..];
      HoldsSplit(text, i, part[..1], part[1..]);
      AtomReads(text, i + 1, part[1..]);
    }
  }

  /** Whitespace and then one of the characters that end an entry. */
  lemma AfterValue(text: string, k: nat, after: string)
    requires Holds(text, k, after) && Spaces(after) && k + |after| < |text|
    requires text[k + |after|] == ',' || Bracket(text[k + |after|])
    ensures Delimited(text, k) && SpacesEnd(text, k) == k + |after|
  {
    SpacesSkip(text, k, after);
    if after != [] {
      assert text[k] == text[k..k + |after|][0] == after[0];
    }
  }

  /** A value starts neither with whitespace nor with a closing bracket. */
  lemma Opens(text: string, i: nat, v: Json)
    requires Valid(v) && Holds(text, i, Print(v))
    ensures i < |text| && !IsSpace(text[i]) && text[i] != ']' && text[i] != '}'
  {
    match v
    case Str(raw) => StringToken(text, i, raw);
    case Atom(t) => assert text[i] == text[i..i + |t|][0];
    case Arr(pad, items) => ArrParts(text, i, v);
    case Obj(pad, members) => ObjParts(text, i, v);
  }

  lemma {:induction false} ReadsValue(text: string, i: nat, v: Json)
    requires Valid(v) && Holds(text, i, Print(v)) && (v.Atom? ==> Delimited(text, i + |Print(v)|))
    ensures ReadValue(text, i) == Got(DataOf(v), i + |Print(v)|)
    decreases v, 3
  {
    hide Holds, BodyEnd, SpacesEnd, AtomEnd, ReadItems, ReadFields;
    match v
    case Str(raw) => StringToken(text, i, raw);
    case Atom(t) => ReadsAtom(text, i, t);
    case Arr(pad, items) => ReadsArr(text, i, v);
    case Obj(pad, members) => ReadsObj(text, i, v);
  }

  lemma ReadsAtom(text: string, i: nat, t: string)
    requires ValidAtom(t) && Holds(text, i, t) && Delimited(text, i + |t|)
    ensures ReadValue(text, i) == Got(Word(t), i + |t|)
  {
    AtomReads(text, i, t);
    assert text[i] == text[i..i + |t|][0] == t[0];
  }

  lemma ItemOpens(text: string, i: nat, items: seq<Item>)
    requires items != [] && ValidItems(items) && Holds(text, i, PrintItems(items) + "]")
    ensures var p := SpacesEnd(text, i); p < |text| && text[p] != ']'
  {
    hide Holds, Valid, Print, NotKey;
    var e := items[0];
    ItemParts(text, i, items);
    SpacesSkip(text, i, e.pre);
    Opens(text, i + |e.pre|, e.value);
  }

  /** What follows the opening bracket. */
  lemma ArrOpens(text: string, i: nat, v: Json)
    requires v.Arr? && Valid(v) && Holds(text, i, Print(v))
    ensures var k := i + 1 + |v.pad|;
            var p := SpacesEnd(text, i + 1);
            && i < |text| && text[i] == '[' && p < |text|
            && Holds(text, k, PrintItems(v.items) + "]") && |Print(v)| == 2 + |v.pad| + |PrintItems(v.items)|
            && (if v.items == [] then p == k && text[p] == ']' else p == SpacesEnd(text, k) && text[p] != ']')
  {
    hide Holds;
    ArrParts(text, i, v);
    var k := i + 1 + |v.pad|;
    SpacesSkip(text, i + 1, v.pad);
    if v.items == [] {
      HoldsLast(text, k, PrintItems(v.items), ']');
    } else {
      ItemOpens(text, k, v.items);
    }
  }

  lemma ItemsFrom(text: string, i: nat, j: nat)
    requires SpacesEnd(text, i) == SpacesEnd(text, j)
    ensures ReadItems(text, i) == ReadItems(text, j)
  {
    hide SpacesEnd, ReadValue;
  }

  lemma {:induction false} ReadsArr(text: string, i: nat, v: Json)
    requires v.Arr? && Valid(v) && Holds(text, i, Print(v))
    ensures ReadValue(text, i) == Got(DataOf(v), i + |Print(v)|)
    decreases v, 2
  {
    hide Holds, BodyEnd, AtomEnd, ValidItem, SpacesEnd, ReadItems, ReadFields;
    ArrOpens(text, i, v);
    if v.items != [] {
      ReadsItems(text, i + 1 + |v.pad|, v.items);
      ItemsFrom(text, i + 1, i + 1 + |v.pad|);
    }
  }

  lemma {:induction false} ReadsItems(text: string, i: nat, items: seq<Item>)
    requires items != [] && ValidItems(items) && Holds(text, i, PrintItems(items) + "]")
    ensures ReadItems(text, i) == Got(ItemData(items), i + |PrintItems(items)| + 1)
    decreases items, 0
  {
    hide Holds, BodyEnd, AtomEnd, SpacesEnd, ReadValue, NotKey, Valid, Print, PrintItems, ItemData, Delimited;
    var e := items[0];
    ItemParts(text, i, items);
    HoldsLast(text, i, PrintItems(items), ']');
    var k := i + |e.pre| + |Print(e.value)|;
    AfterValue(text, k, e.after);
    ReadsEntry(text, i, e.pre, e.value);
    ItemDataFirst(items);
    if |items| > 1 {
      ReadsItems(text, i + ItemLen(e) + 1, items[1..]);
    } else {
      assert ItemData(items) == [DataOf(e.value)];
    }
  }

  lemma ItemDataFirst(items: seq<Item>)
    requires items != []
    ensures ItemData(items) == [DataOf(items[0].value)] + ItemData(items[1..])
  {
  }

  lemma MemberDataFirst(members: seq<Member>)
    requires members != []
    ensures MemberData(members) == [Field(members[0].key, DataOf(members[0].value))] + MemberData(members[1..])
  {
  }

  lemma LabelPost(m: Member)
    ensures |Label(m)| > |m.post|
  {
  }

  /** Whitespace and a value. */
  lemma {:induction false} ReadsEntry(text: string, i: nat, pre: string, v: Json)
    requires Holds(text, i, pre) && Spaces(pre) && Valid(v) && Holds(text, i + |pre|, Print(v))
    requires Delimited(text, i + |pre| + |Print(v)|)
    ensures ReadValue(text, SpacesEnd(text, i)) == Got(DataOf(v), i + |pre| + |Print(v)|)
    decreases v, 4
  {
    hide Holds, BodyEnd, AtomEnd, ReadValue, Valid, Print, DataOf, Delimited, Spaces;
    SpacesSkip(text, i, pre);
    Opens(text, i + |pre|, v);
    ReadsValue(text, i + |pre|, v);
  }

  lemma StartsKey(text: string, i: nat, m: Member)
    requires ValidMember(m) && Holds(text, i, Label(m))
    ensures var p := SpacesEnd(text, i); p < |text| && text[p] == '"'
    ensures KeyEnd(text, SpacesEnd(text, i)) == Got(m.key, i + |Label(m)| - |m.post|)
    ensures Holds(text, i + |Label(m)| - |m.post|, m.post)
  {
    hide Holds, BodyEnd, Valid;
    LabelParts(text, i, m);
    SpacesSkip(text, i, m.pre);
    StringToken(text, i + |m.pre|, m.key);
  }

  lemma ObjOpens(text: string, i: nat, v: Json)
    requires v.Obj? && Valid(v) && Holds(text, i, Print(v))
    ensures var k := i + 1 + |v.pad|;
            var p := SpacesEnd(text, i + 1);
            && i < |text| && text[i] == '{' && p < |text|
            && Holds(text, k, PrintMembers(v.members) + "}") && |Print(v)| == 2 + |v.pad| + |PrintMembers(v.members)|
            && (if v.members == [] then p == k && text[p] == '}' else p == SpacesEnd(text, k) && text[p] != '}')
  {
    hide Holds, KeyEnd;
    ObjParts(text, i, v);
    var k := i + 1 + |v.pad|;
    SpacesSkip(text, i + 1, v.pad);
    if v.members == [] {
      HoldsLast(text, k, PrintMembers(v.members), '}');
    } else {
      MemberParts(text, k, v.members);
      StartsKey(text, k, v.members[0]);
    }
  }

  lemma FieldsFrom(text: string, i: nat, j: nat)
    requires SpacesEnd(text, i) == SpacesEnd(text, j)
    ensures ReadFields(text, i) == ReadFields(text, j)
  {
    hide SpacesEnd, ReadValue, KeyEnd;
  }

  lemma {:induction false} ReadsObj(text: string, i: nat, v: Json)
    requires v.Obj? && Valid(v) && Holds(text, i, Print(v))
    ensures ReadValue(text, i) == Got(DataOf(v), i + |Print(v)|)
    decreases v, 2
  {
    hide Holds, BodyEnd, AtomEnd, ValidMember, SpacesEnd, ReadItems, ReadFields;
    ObjOpens(text, i, v);
    if v.members != [] {
      ReadsFields(text, i + 1 + |v.pad|, v.members);
      FieldsFrom(text, i + 1, i + 1 + |v.pad|);
    }
  }

  /** The key and the value of a member. */
  lemma {:induction false} ReadsMember(text: string, i: nat, m: Member)
    requires ValidMember(m) && MemberAt(text, i, m) && Delimited(text, i + |Label(m)| + |Print(m.value)|)
    ensures var key := KeyEnd(text, SpacesEnd(text, i));
            && key.Got? && key.value == m.key
            && ReadValue(text, SpacesEnd(text, key.end)) == Got(DataOf(m.value), i + |Label(m)| + |Print(m.value)|)
    decreases m, 5
  {
    hide Holds, BodyEnd, AtomEnd, SpacesEnd, ReadValue, KeyEnd, NotKey, Valid, Print, DataOf, Delimited, Label;
    StartsKey(text, i, m);
    LabelPost(m);
    ReadsEntry(text, i + |Label(m)| - |m.post|, m.post, m.value);
  }

  lemma FieldsStep(text: string, i: nat, key: Read<string>, v: Read<Data>, p: nat)
    requires key == KeyEnd(text, SpacesEnd(text, i)) && key.Got?
    requires v == ReadValue(text, SpacesEnd(text, key.end)) && v.Got?
    requires p == SpacesEnd(text, v.end) && p < |text|
    ensures text[p] == '}' ==> ReadFields(text, i) == Got([Field(key.value, v.value)], p + 1)
    ensures text[p] == ',' && ReadFields(text, p + 1).Got? ==>
              var more := ReadFields(text, p + 1);
              ReadFields(text, i) == Got([Field(key.value, v.value)] + more.value, more.end)
  {
    hide SpacesEnd, ReadValue, KeyEnd;
  }

  lemma {:induction false} ReadsFields(text: string, i: nat, members: seq<Member>)
    requires members != [] && ValidMembers(members) && Holds(text, i, PrintMembers(members) + "}")
    ensures ReadFields(text, i) == Got(MemberData(members), i + |PrintMembers(members)| + 1)
    decreases members, 0
  {
    hide Holds, SpacesEnd, ReadValue, ReadFields, KeyEnd, NotKey, Valid, Print, PrintMembers, MemberData, Delimited,
         Label;
    var m := members[0];
    MemberParts(text, i, members);
    HoldsLast(text, i, PrintMembers(members), '}');
    var k := i + |Label(m)| + |Print(m.value)|;
    AfterValue(text, k, m.after);
    ReadsMember(text, i, m);
    MemberDataFirst(members);
    var key := KeyEnd(text, SpacesEnd(text, i));
    FieldsStep(text, i, key, ReadValue(text, SpacesEnd(text, key.end)), k + |m.after|);
    if |members| > 1 {
      ReadsFields(text, i + MemberLen(m) + 1, members[1..]);
    } else {
      assert MemberData(members) == [Field(m.key, DataOf(m.value))];
    }
  }

  /** A printed value between whitespace is read back as its data. */
  lemma ReadsText(lead: string, v: Json, trail: string)
    requires Spaces(lead) && Spaces(trail) && Valid(v)
    ensures ReadText(lead + (Print(v) + trail)) == Got(DataOf(v), |lead| + |Print(v)|)
  {
    hide BodyEnd, AtomEnd, ReadValue, Valid, Print, DataOf;
    var text := lead + (Print(v) + trail);
    var k := |lead| + |Print(v)|;
    assert Holds(text, 0, lead) && Holds(text, |lead|, Print(v)) && Holds(text, k, trail);
    SpacesSkip(text, k, trail);
    assert Delimited(text, k) by {
      assert trail != [] ==> text[k] == trail[0];
    }
    ReadsEntry(text, 0, lead, v);
  }
}
