/** JSON documents with their exact layout (RFC 8259, sections 2, 4, 5 and 7). A value keeps
    its whitespace, the spelling of its strings and numbers, the order of its members and
    repeated keys, so that printing it gives back the very text; validity is a predicate on
    the tree, and the grammar of numbers and of the three literals is left at any run of
    plain characters. */
module JsonText {

  /** A value as written: Str holds the characters between the quotes, Atom a number or literal. */
  datatype Json =
    | Str(raw: string)
    | Atom(text: string)
    | Arr(pad: string, items: seq<Item>)
    | Obj(pad: string, members: seq<Member>)

  /** An array element with the whitespace before and after it. */
  datatype Item = Item(pre: string, value: Json, after: string)

  /** An object member: whitespace, key, whitespace, colon, whitespace, value, whitespace. */
  datatype Member = Member(pre: string, key: string, mid: string, post: string, value: Json, after: string)

  predicate IsSpace(c: char) {
    c == ' ' || c == '\t' || c == '\r' || c == '\n'
  }

  predicate Spaces(s: string) {
    forall i :: 0 <= i < |s| ==> IsSpace(s[i])
  }

  /** Every backslash has its partner and no quote stands alone. */
  predicate ValidRaw(raw: string) {
    raw == [] ||
    if raw[0] == '\\' then |raw| >= 2 && ValidRaw(raw[2..]) else raw[0] != '"' && ValidRaw(raw[1..])
  }

  predicate Bracket(c: char) {
    c == '{' || c == '[' || c == '}' || c == ']'
  }

  predicate Inert(c: char) {
    c != '"' && !Bracket(c)
  }

  predicate ValidAtom(text: string) {
    text != [] && forall i :: 0 <= i < |text| ==>
        Inert(text[i]) && text[i] != ':' && text[i] != ',' && !IsSpace(text[i])
  }

  predicate Valid(v: Json)
    decreases v, 1
  {
    match v
    case Str(raw) => ValidRaw(raw)
    case Atom(text) => ValidAtom(text)
    case Arr(pad, items) => Spaces(pad) && ValidItems(items)
    case Obj(pad, members) => Spaces(pad) && ValidMembers(members)
  }

  predicate ValidItems(items: seq<Item>)
    decreases items, 0
  {
    items == [] || (ValidItem(items[0]) && ValidItems(items[1..]))
  }

  predicate ValidMembers(members: seq<Member>)
    decreases members, 0
  {
    members == [] || (ValidMember(members[0]) && ValidMembers(members[1..]))
  }

  predicate ValidItem(item: Item)
    decreases item, 2
  {
    Spaces(item.pre) && Spaces(item.after) && Valid(item.value)
  }

  predicate ValidMember(m: Member)
    decreases m, 2
  {
    && Spaces(m.pre) && ValidRaw(m.key) && Spaces(m.mid) && Spaces(m.post) && Spaces(m.after)
    && Valid(m.value)
  }

  function Quote(raw: string): string {
    "\"" + raw + "\""
  }

  function Print(v: Json): string
    decreases v, 1
  {
    match v
    case Str(raw) => Quote(raw)
    case Atom(text) => text
    case Arr(pad, items) => "[" + (pad + (PrintItems(items) + "]"))
    case Obj(pad, members) => "{" + (pad + (PrintMembers(members) + "}"))
  }

  function PrintItems(items: seq<Item>): (r: string)
    ensures items == [] ==> r == ""
    decreases items, 0
  {
    if items == [] then ""
    else
      items[0].pre + (Print(items[0].value) + (items[0].after
      + (if |items| == 1 then "" else "," + PrintItems(items[1..]))))
  }

  /** Everything of a member before its value. */
  function Label(m: Member): string {
    m.pre + (Quote(m.key) + (m.mid + (":" + m.post)))
  }

  function PrintMembers(members: seq<Member>): (r: string)
    ensures members == [] ==> r == ""
    decreases members, 0
  {
    if members == [] then ""
    else
      Label(members[0]) + (Print(members[0].value) + (members[0].after
      + (if |members| == 1 then "" else "," + PrintMembers(members[1..]))))
  }

  /** No bracket characters inside any string of the value, keys included. */
  predicate NoBracketStrings(v: Json)
    decreases v, 1
  {
    match v
    case Str(raw) => NoBracket(raw)
    case Atom(_) => true
    case Arr(_, items) => NoBracketItems(items)
    case Obj(_, members) => NoBracketMembers(members)
  }

  predicate NoBracketItems(items: seq<Item>)
    decreases items, 0
  {
    items == [] || (NoBracketStrings(items[0].value) && NoBracketItems(items[1..]))
  }

  predicate NoBracketMembers(members: seq<Member>)
    decreases members, 0
  {
    members == []
    || (NoBracket(members[0].key) && NoBracketStrings(members[0].value) && NoBracketMembers(members[1..]))
  }

  predicate NoBracket(s: string) {
    forall i :: 0 <= i < |s| ==> !Bracket(s[i])
  }
}
