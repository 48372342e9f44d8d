/** The chat file format of the web server: printing a conversation to Markdown
    and parsing it back line by line. */
module Conversation {
  import opened Text

  /** The JSON library as seen by the chat file: json.dumps, json.loads (None when
      it raises), and the truth value of a decoded document. */
  datatype Codec<!J> = Codec(dumps: J -> string, loads: string -> Option<J>, truthy: J -> bool)

  /** json.loads inverts json.dumps, whose output is a single line. */
  ghost predicate Lawful<J(!new)>(codec: Codec<J>) {
    forall j {:trigger codec.dumps(j)} ::
      codec.loads(codec.dumps(j)) == Some(j) && '\n' !in codec.dumps(j) && '\r' !in codec.dumps(j)
  }

  /** A stored message; model "" and attachments None are the absent values. */
  datatype Message<J> = Message(role: string, content: string, model: string, attachments: Option<J>)

  /** A parsed message; index is the running number that ends its id. */
  datatype Parsed<J> = Parsed(role: string, content: string, model: string, attachments: Option<J>, index: nat)

  // ---- escaping ----

  function EscapeLine(line: string): string {
    if HasPrefix(line, "## ") then "\\#\\# " + line[3..] else line
  }

  function UnescapeLine(line: string): string {
    if HasPrefix(line, "\\#\\# ") then "## " + line[5..] else line
  }

  function MapLines(f: string -> string, lines: seq<string>): (r: seq<string>)
    ensures |r| == |lines|
    ensures forall i :: 0 <= i < |lines| ==> r[i] == f(lines[i])
  {
    if lines == [] then [] else [f(lines[0])] + MapLines(f, lines[1..])
  }

  /** Both substitutions anchor at line starts, so they act on each line on its own. */
  function EscapeBody(text: string): string {
    Join(MapLines(EscapeLine, Split(text)))
  }

  function UnescapeBody(text: string): string {
    Join(MapLines(UnescapeLine, Split(text)))
  }

  // ---- printing ----

  function ShownAttachments<J>(codec: Codec<J>, m: Message<J>): Option<J> {
    if m.attachments.Some? && codec.truthy(m.attachments.value) then m.attachments else None
  }

  function ModelLines<J>(m: Message<J>): seq<string> {
    if m.model != "" then ["@model " + m.model] else []
  }

  function AttachmentLines<J>(codec: Codec<J>, m: Message<J>): seq<string> {
    var atts := ShownAttachments(codec, m);
    if atts.Some? then ["@attachments " + codec.dumps(atts.value)] else []
  }

  function MessageBody<J>(codec: Codec<J>, m: Message<J>): seq<string> {
    [EscapeBody(m.content)] + ModelLines(m) + AttachmentLines(codec, m) + [""]
  }

  function Header(role: string): string {
    if role == "user" then "## User" else "## Novi"
  }

  function MessageLines<J>(codec: Codec<J>, m: Message<J>): seq<string> {
    [Header(m.role)] + MessageBody(codec, m)
  }

  function AllLines<J>(codec: Codec<J>, messages: seq<Message<J>>): seq<string> {
    if messages == [] then [] else MessageLines(codec, messages[0]) + AllLines(codec, messages[1..])
  }

  function FileText<J>(codec: Codec<J>, title: string, messages: seq<Message<J>>): string {
    Join(["# " + title, ""] + AllLines(codec, messages))
  }

  method ConvToFile<J>(codec: Codec<J>, title: string, messages: seq<Message<J>>) returns (text: string)
    ensures text == FileText(codec, title, messages)
  {
    var lines := ["# " + title, ""];
    for i := 0 to |messages|
      invariant lines + AllLines(codec, messages[i..]) == ["# " + title, ""] + AllLines(codec, messages)
    {
      var m := messages[i];
      ghost var before := lines;
      lines := lines + [Header(m.role)];
      lines := lines + [EscapeBody(m.content)];
      if m.model != "" {
        lines := lines + ["@model " + m.model];
      }
      assert lines == before + [Header(m.role)] + [EscapeBody(m.content)] + ModelLines(m);
      if m.attachments.Some? && codec.truthy(m.attachments.value) {
        lines := lines + ["@attachments " + codec.dumps(m.attachments.value)];
      }
      assert lines == before + [Header(m.role)] + [EscapeBody(m.content)] + ModelLines(m) + AttachmentLines(codec, m);
      lines := lines + [""];
      AssocSix(before, [Header(m.role)], [EscapeBody(m.content)], ModelLines(m), AttachmentLines(codec, m), [""]);
      assert messages[i..][1..] == messages[i + 1..];
      Assoc(before, MessageLines(codec, m), AllLines(codec, messages[i + 1..]));
    }
    assert messages[|messages|..] == [];
    assert lines == lines + AllLines(codec, messages[|messages|..]);
    text := Join(lines);
  }

  // ---- parsing ----

  /** Text-mode reading translates "\r\n" and "\r" to "\n". */
  function UniversalNewlines(s: string): (r: string)
    ensures '\r' !in r
  {
    if s == [] then []
    else if s[0] == '\r' then
      "\n" + UniversalNewlines(if |s| > 1 && s[1] == '\n' then s[2..] else s[1..])
    else [s[0]] + UniversalNewlines(s[1..])
  }

  /** The role opened by a header line; "## Cozmo" is the legacy assistant header. */
  function HeaderRole(line: string): Option<string> {
    var t := Strip(line);
    if t == "## User" then Some("user")
    else if t == "## Novi" || t == "## Cozmo" then Some("assistant")
    else None
  }

  datatype LineKind<J> = Attach(atts: J) | Model(model: string) | Text

  function Kind<J>(codec: Codec<J>, line: string): LineKind<J> {
    if HasPrefix(line, "@attachments ") then
      var doc := codec.loads(line[13..]);
      if doc.Some? then Attach(doc.value) else Text
    else if HasPrefix(line, "@model ") then Model(Strip(line[7..]))
    else Text
  }

  function Clean<J>(codec: Codec<J>, lines: seq<string>): seq<string> {
    if lines == [] then []
    else if Kind(codec, lines[0]).Text? then [lines[0]] + Clean(codec, lines[1..])
    else Clean(codec, lines[1..])
  }

  /** The last trailer line of each kind wins. */
  function ModelOf<J>(codec: Codec<J>, lines: seq<string>, model: string): string {
    if lines == [] then model
    else
      var k := Kind(codec, lines[0]);
      ModelOf(codec, lines[1..], if k.Model? then k.model else model)
  }

  function AttachmentsOf<J>(codec: Codec<J>, lines: seq<string>, atts: Option<J>): Option<J> {
    if lines == [] then atts
    else
      var k := Kind(codec, lines[0]);
      AttachmentsOf(codec, lines[1..], if k.Attach? then Some(k.atts) else atts)
  }

  function Build<J>(codec: Codec<J>, role: string, lines: seq<string>, index: nat): Parsed<J> {
    var atts := AttachmentsOf(codec, lines, None);
    Parsed(role, UnescapeBody(Strip(Join(Clean(codec, lines)))), ModelOf(codec, lines, ""),
           if atts.Some? && codec.truthy(atts.value) then atts else None, index)
  }

  method BuildMsg<J>(codec: Codec<J>, role: string, lines: seq<string>, index: nat) returns (msg: Parsed<J>)
    ensures msg == Build(codec, role, lines, index)
  {
    var atts: Option<J> := None;
    var model := "";
    var clean := [];
    for i := 0 to |lines|
      invariant clean + Clean(codec, lines[i..]) == Clean(codec, lines)
      invariant ModelOf(codec, lines[i..], model) == ModelOf(codec, lines, "")
      invariant AttachmentsOf(codec, lines[i..], atts) == AttachmentsOf(codec, lines, None)
    {
      var l := lines[i];
      assert lines[i..][1..] == lines[i + 1..];
      if HasPrefix(l, "@attachments ") {
        var doc := codec.loads(l[13..]);
        if doc.Some? {
          atts := doc;
        } else {
          Assoc(clean, [l], Clean(codec, lines[i + 1..]));
          clean := clean + [l];
        }
      } else if HasPrefix(l, "@model ") {
        model := Strip(l[7..]);
      } else {
        Assoc(clean, [l], Clean(codec, lines[i + 1..]));
        clean := clean + [l];
      }
    }
    assert clean == Clean(codec, lines);
    var shown := if atts.Some? && codec.truthy(atts.value) then atts else None;
    msg := Parsed(role, UnescapeBody(Strip(Join(clean))), model, shown, index);
  }

  datatype Open = Open(role: string, lines: seq<string>)

  /** Messages still to be produced from lines, with the given message open. */
  function ParseFrom<J>(codec: Codec<J>, lines: seq<string>, open: Option<Open>, n: nat): seq<Parsed<J>> {
    if lines == [] then
      if open.Some? then [Build(codec, open.value.role, open.value.lines, n)] else []
    else
      var h := HeaderRole(lines[0]);
      if h.Some? then
        if open.Some? then
          [Build(codec, open.value.role, open.value.lines, n)]
          + ParseFrom(codec, lines[1..], Some(Open(h.value, [])), n + 1)
        else ParseFrom(codec, lines[1..], Some(Open(h.value, [])), n)
      else if open.Some? then
        ParseFrom(codec, lines[1..], Some(Open(open.value.role, open.value.lines + [lines[0]])), n)
      else ParseFrom(codec, lines[1..], None, n)
  }

  function Load<J>(codec: Codec<J>, file: string): seq<Parsed<J>> {
    ParseFrom(codec, Split(UniversalNewlines(file))[1..], None, 0)
  }

  method LoadMessages<J>(codec: Codec<J>, file: string) returns (messages: seq<Parsed<J>>)
    ensures messages == Load(codec, file)
  {
    var lines := Split(UniversalNewlines(file))[1..];
    messages := [];
    var open: Option<Open> := None;
    for i := 0 to |lines|
      invariant messages + ParseFrom(codec, lines[i..], open, |messages|) == Load(codec, file)
    {
      var line := lines[i];
      ghost var rest := lines[i + 1..];
      assert lines[i..][1..] == rest;
      var h := HeaderRole(line);
      if h.Some? {
        if open.Some? {
          var msg := BuildMsg(codec, open.value.role, open.value.lines, |messages|);
          Assoc(messages, [msg], ParseFrom(codec, rest, Some(Open(h.value, [])), |messages| + 1));
          messages := messages + [msg];
        }
        open := Some(Open(h.value, []));
      } else if open.Some? {
        open := Some(Open(open.value.role, open.value.lines + [line]));
      }
    }
    assert lines[|lines|..] == [];
    if open.Some? {
      var msg := BuildMsg(codec, open.value.role, open.value.lines, |messages|);
      messages := messages + [msg];
    }
  }

  // ---- what a round trip should give, and exactly when it does ----

  function NormalRole(role: string): string {
    if role == "user" then "user" else "assistant"
  }

  function Expected<J>(codec: Codec<J>, messages: seq<Message<J>>, n: nat): (r: seq<Parsed<J>>)
    ensures |r| == |messages|
  {
    if messages == [] then []
    else
      var m := messages[0];
      [Parsed(NormalRole(m.role), m.content, m.model, ShownAttachments(codec, m), n)]
      + Expected(codec, messages[1..], n + 1)
  }

  predicate ReadsAsHeader(line: string) {
    Strip(line) == "## User" || Strip(line) == "## Novi" || Strip(line) == "## Cozmo"
  }

  predicate ReadsAsTrailer<J>(codec: Codec<J>, line: string) {
    if HasPrefix(line, "@attachments ") then codec.loads(line[13..]).Some? else HasPrefix(line, "@model ")
  }

  /** No line of the title after its first reads as a role header. */
  predicate TitleSafe(title: string) {
    forall l :: l in Split(UniversalNewlines("# " + title + "\n"))[1..] ==> !ReadsAsHeader(l)
  }

  predicate LineSafe<J>(codec: Codec<J>, line: string) {
    && !HasPrefix(line, "\\#\\# ")
    && (HasPrefix(line, "## ") || !ReadsAsHeader(line))
    && !ReadsAsTrailer(codec, line)
  }

  lemma HeaderAndKind<J>(codec: Codec<J>, line: string)
    ensures HeaderRole(line).Some? <==> ReadsAsHeader(line)
    ensures Kind(codec, line).Text? <==> !ReadsAsTrailer(codec, line)
  {
  }

  predicate MessageSafe<J>(codec: Codec<J>, m: Message<J>) {
    && Trimmed(m.content) && '\r' !in m.content
    && (forall l :: l in Split(m.content) ==> LineSafe(codec, l))
    && Trimmed(m.model) && '\n' !in m.model && '\r' !in m.model
  }

  ghost predicate ConversationSafe<J>(codec: Codec<J>, title: string, messages: seq<Message<J>>) {
    TitleSafe(title) && forall i :: 0 <= i < |messages| ==> MessageSafe(codec, messages[i])
  }

  // ---- escaping is inverted exactly on bodies without an already escaped line ----

  lemma MapLinesKeepsLines(f: string -> string, text: string)
    requires forall l :: '\n' !in l ==> '\n' !in f(l)
    ensures Split(Join(MapLines(f, Split(text)))) == MapLines(f, Split(text))
    ensures Count(Join(MapLines(f, Split(text))), '\n') == Count(text, '\n')
  {
    SplitLines(text);
    var lines := MapLines(f, Split(text));
    assert forall l :: l in lines ==> '\n' !in l;
    SplitJoin(lines);
    SplitLines(Join(lines));
  }

  lemma UnescapeEscapeLine(l: string)
    ensures UnescapeLine(EscapeLine(l)) == l <==> !HasPrefix(l, "\\#\\# ")
  {
    if HasPrefix(l, "## ") {
      var e := EscapeLine(l);
      assert e == "\\#\\# " + l[3..];
      assert e[5..] == l[3..];
      assert l == "## " + l[3..];
      assert l[0] == '#';
    } else if HasPrefix(l, "\\#\\# ") {
      assert l[0] == '\\' && UnescapeLine(l)[0] == '#';
    }
  }

  lemma LineEscapesKeepLines()
    ensures forall l :: '\n' !in l ==> '\n' !in EscapeLine(l)
    ensures forall l :: '\n' !in l ==> '\n' !in UnescapeLine(l)
  {
  }

  lemma UnescapeEscape(text: string)
    ensures UnescapeBody(EscapeBody(text)) == text
            <==> forall l :: l in Split(text) ==> !HasPrefix(l, "\\#\\# ")
  {
    hide EscapeLine, UnescapeLine, HasPrefix, Split, Join;
    LineEscapesKeepLines();
    SplitLines(text);
    JoinSplit(text);
    MapLinesKeepsLines(EscapeLine, text);
    MapLinesKeepsLines(UnescapeLine, EscapeBody(text));
    var lines := Split(text);
    var back := MapLines(UnescapeLine, MapLines(EscapeLine, lines));
    forall i | 0 <= i < |lines| ensures back[i] == lines[i] <==> !HasPrefix(lines[i], "\\#\\# ") {
      UnescapeEscapeLine(lines[i]);
    }
    assert Split(UnescapeBody(EscapeBody(text))) == back;
    assert UnescapeBody(EscapeBody(text)) == text <==> back == lines;
  }

  lemma {:induction false} JoinFirst(lines: seq<string>)
    requires lines != []
    ensures lines[0] != [] ==> Join(lines) != [] && Join(lines)[0] == lines[0][0]
    ensures lines[0] == [] ==> Join(lines) == [] || Join(lines)[0] == '\n'
  {
  }

  lemma {:induction false} JoinLast(lines: seq<string>)
    requires lines != []
    ensures var last := lines[|lines| - 1];
            && (last != [] ==> Join(lines) != [] && Join(lines)[|Join(lines)| - 1] == last[|last| - 1])
            && (last == [] ==> Join(lines) == [] || Join(lines)[|Join(lines)| - 1] == '\n')
  {
    if |lines| > 1 {
      JoinLast(lines[1..]);
      if |lines| == 2 && lines[1] == [] {
        assert Join(lines[1..]) == [];
      }
    }
  }

  /** A line that is neither empty nor starts (ends) with whitespace. */
  predicate SolidStart(l: string) {
    l != [] && !IsSpace(l[0])
  }

  predicate SolidEnd(l: string) {
    l != [] && !IsSpace(l[|l| - 1])
  }

  lemma TrimmedLines(lines: seq<string>)
    requires lines != []
    ensures Join(lines) != [] && Trimmed(Join(lines)) <==> SolidStart(lines[0]) && SolidEnd(lines[|lines| - 1])
  {
    JoinFirst(lines);
    JoinLast(lines);
  }

  lemma EscapedEnds(l: string)
    ensures SolidStart(l) ==> SolidStart(EscapeLine(l)) && SolidStart(UnescapeLine(l))
    ensures SolidEnd(l) ==> SolidEnd(EscapeLine(l)) && SolidEnd(UnescapeLine(l))
  {
    if HasPrefix(l, "## ") {
      assert l[2] == ' ' && EscapeLine(l)[0] == '\\';
    } else if HasPrefix(l, "\\#\\# ") {
      assert l[4] == ' ' && UnescapeLine(l)[0] == '#';
    }
  }

  lemma MappedTrimmed(lines: seq<string>)
    requires lines != [] && Join(lines) != [] && Trimmed(Join(lines))
    ensures Trimmed(Join(MapLines(EscapeLine, lines))) && Trimmed(Join(MapLines(UnescapeLine, lines)))
  {
    TrimmedLines(lines);
    EscapedEnds(lines[0]);
    EscapedEnds(lines[|lines| - 1]);
    TrimmedLines(MapLines(EscapeLine, lines));
    TrimmedLines(MapLines(UnescapeLine, lines));
  }

  lemma EscapeKeepsTrimmed(text: string)
    requires Trimmed(text)
    ensures Trimmed(EscapeBody(text)) && Trimmed(UnescapeBody(text))
  {
    JoinSplit(text);
    if text == [] {
      EmptyBody();
    } else {
      MappedTrimmed(Split(text));
    }
  }

  lemma EmptyBody()
    ensures UnescapeBody("") == "" && EscapeBody("") == ""
  {
    assert Split("") == [""];
  }

  // ---- the trailer lines of one message ----

  /** The file lines of one message after its header. */
  function Tail<J>(codec: Codec<J>, m: Message<J>): seq<string> {
    SplitAll(MessageBody(codec, m))
  }

  lemma {:induction false} CleanConcat<J>(codec: Codec<J>, a: seq<string>, b: seq<string>)
    ensures Clean(codec, a + b) == Clean(codec, a) + Clean(codec, b)
  {
    if a == [] {
      assert a + b == b;
    } else {
      assert (a + b)[1..] == a[1..] + b;
      CleanConcat(codec, a[1..], b);
    }
  }

  lemma {:induction false} ModelOfConcat<J>(codec: Codec<J>, a: seq<string>, b: seq<string>, model: string)
    ensures ModelOf(codec, a + b, model) == ModelOf(codec, b, ModelOf(codec, a, model))
  {
    if a == [] {
      assert a + b == b;
    } else {
      assert (a + b)[1..] == a[1..] + b;
      var k := Kind(codec, a[0]);
      ModelOfConcat(codec, a[1..], b, if k.Model? then k.model else model);
    }
  }

  lemma {:induction false} AttachmentsOfConcat<J>(codec: Codec<J>, a: seq<string>, b: seq<string>, atts: Option<J>)
    ensures AttachmentsOf(codec, a + b, atts) == AttachmentsOf(codec, b, AttachmentsOf(codec, a, atts))
  {
    if a == [] {
      assert a + b == b;
    } else {
      assert (a + b)[1..] == a[1..] + b;
      var k := Kind(codec, a[0]);
      AttachmentsOfConcat(codec, a[1..], b, if k.Attach? then Some(k.atts) else atts);
    }
  }

  /** Cleaning keeps at most the given lines, and all of them only when each is text. */
  lemma {:induction false} CleanLength<J>(codec: Codec<J>, lines: seq<string>)
    ensures |Clean(codec, lines)| <= |lines|
    ensures |Clean(codec, lines)| == |lines| <==> forall l :: l in lines ==> Kind(codec, l).Text?
    ensures forall l :: l in Clean(codec, lines) ==> l in lines
    ensures |Clean(codec, lines)| == |lines| ==> Clean(codec, lines) == lines
  {
    if lines != [] {
      CleanLength(codec, lines[1..]);
      assert lines == [lines[0]] + lines[1..];
    }
  }

  lemma {:induction false} AllTextFolds<J>(codec: Codec<J>, lines: seq<string>, model: string, atts: Option<J>)
    requires forall l :: l in lines ==> Kind(codec, l).Text?
    ensures ModelOf(codec, lines, model) == model
    ensures AttachmentsOf(codec, lines, atts) == atts
  {
    if lines != [] {
      AllTextFolds(codec, lines[1..], model, atts);
    }
  }

  /** The document of an attachments line. */
  function Doc<J>(codec: Codec<J>, line: string): Option<J> {
    if HasPrefix(line, "@attachments ") then codec.loads(line[13..]) else None
  }

  predicate NamesModel(lines: seq<string>) {
    exists l :: l in lines && HasPrefix(l, "@model ")
  }

  predicate HasDoc<J>(codec: Codec<J>, lines: seq<string>) {
    exists l :: l in lines && Doc(codec, l).Some?
  }

  lemma NoLines<J>(codec: Codec<J>)
    ensures !NamesModel([]) && !HasDoc(codec, [])
  {
  }

  lemma FirstTrailer<J>(codec: Codec<J>, lines: seq<string>)
    requires lines != []
    ensures NamesModel(lines) <==> HasPrefix(lines[0], "@model ") || NamesModel(lines[1..])
    ensures HasDoc(codec, lines) <==> Doc(codec, lines[0]).Some? || HasDoc(codec, lines[1..])
  {
    hide HasPrefix, Doc;
    assert lines == [lines[0]] + lines[1..];
    assert lines[0] in lines && forall l :: l in lines[1..] ==> l in lines;
  }

  lemma {:induction false} ModelKept<J>(codec: Codec<J>, lines: seq<string>, model: string, other: string)
    ensures if NamesModel(lines)
            then ModelOf(codec, lines, model) == ModelOf(codec, lines, other)
            else ModelOf(codec, lines, model) == model
  {
    hide NamesModel, HasDoc, HasPrefix;
    if lines == [] {
      assert !NamesModel([]) && !HasDoc(codec, []) by { NoLines(codec); }
    } else {
      FirstTrailer(codec, lines);
      if HasPrefix(lines[0], "@model ") {
        NotBothTrailers(lines[0]);
      }
      var k := Kind(codec, lines[0]);
      ModelKept(codec, lines[1..], if k.Model? then k.model else model, if k.Model? then k.model else other);
    }
  }

  lemma NotBothTrailers(line: string)
    requires HasPrefix(line, "@model ")
    ensures !HasPrefix(line, "@attachments ")
  {
    assert line[1] == 'm';
  }

  lemma {:induction false} AttachmentsKept<J>(codec: Codec<J>, lines: seq<string>, atts: Option<J>, other: Option<J>)
    ensures if HasDoc(codec, lines)
            then AttachmentsOf(codec, lines, atts) == AttachmentsOf(codec, lines, other)
            else AttachmentsOf(codec, lines, atts) == atts
  {
    hide NamesModel, HasDoc, HasPrefix;
    if lines == [] {
      assert !NamesModel([]) && !HasDoc(codec, []) by { NoLines(codec); }
    } else {
      FirstTrailer(codec, lines);
      var k := Kind(codec, lines[0]);
      AttachmentsKept(codec, lines[1..], if k.Attach? then Some(k.atts) else atts,
                      if k.Attach? then Some(k.atts) else other);
    }
  }

  /** The lines of a message without a trailer are its content. */
  lemma NoTrailers<J>(codec: Codec<J>, role: string, lines: seq<string>, n: nat)
    requires forall l :: l in lines ==> !ReadsAsTrailer(codec, l)
    ensures Build(codec, role, lines, n) == Parsed(role, UnescapeBody(Strip(Join(lines))), "", None, n)
  {
    forall l | l in lines ensures Kind(codec, l).Text? {
      HeaderAndKind(codec, l);
    }
    CleanLength(codec, lines);
    AllTextFolds(codec, lines, "", None);
  }

  /** A trailer line anywhere in a message is no part of the content, and counts unless one
      of its kind comes later. */
  lemma LastTrailerWins<J>(codec: Codec<J>, role: string, a: seq<string>, line: string, b: seq<string>, n: nat)
    requires ReadsAsTrailer(codec, line)
    ensures var p, doc := Build(codec, role, a + b, n), Doc(codec, line);
            Build(codec, role, a + [line] + b, n)
            == if doc.None? then p.(model := if NamesModel(b) then p.model else Strip(line[7..]))
               else if HasDoc(codec, b) then p
               else p.(attachments := if codec.truthy(doc.value) then doc else None)
  {
    hide UnescapeBody, Join, Strip, NamesModel, HasDoc, HasPrefix;
    var k := Kind(codec, line);
    HeaderAndKind(codec, line);
    CleanConcat(codec, a + [line], b);
    CleanConcat(codec, a, [line]);
    CleanConcat(codec, a, b);
    ModelOfConcat(codec, a + [line], b, "");
    ModelOfConcat(codec, a, [line], "");
    ModelOfConcat(codec, a, b, "");
    AttachmentsOfConcat(codec, a + [line], b, None);
    AttachmentsOfConcat(codec, a, [line], None);
    AttachmentsOfConcat(codec, a, b, None);
    SingleFolds(codec, line);
    assert Clean(codec, a) + [] == Clean(codec, a);
    assert Clean(codec, a + [line] + b) == Clean(codec, a + b);
    var model, atts := ModelOf(codec, a, ""), AttachmentsOf(codec, a, None);
    assert ModelOf(codec, a + [line], "") == if k.Model? then k.model else model;
    assert AttachmentsOf(codec, a + [line], None) == if k.Attach? then Some(k.atts) else atts;
    ModelKept(codec, b, if k.Model? then k.model else model, model);
    AttachmentsKept(codec, b, if k.Attach? then Some(k.atts) else atts, atts);
  }

  lemma KindModelShape<J>(codec: Codec<J>, l: string)
    requires Kind(codec, l).Model?
    ensures Trimmed(Kind(codec, l).model)
    ensures forall c :: c in Kind(codec, l).model ==> c in l
  {
    assert forall c :: c in l[7..] ==> c in l;
  }

  /** A parsed model is trimmed and has only characters of the lines. */
  lemma {:induction false} ModelOfShape<J>(codec: Codec<J>, lines: seq<string>, model: string, c: char)
    requires Trimmed(model) && c !in model
    requires forall l :: l in lines ==> c !in l
    ensures Trimmed(ModelOf(codec, lines, model)) && c !in ModelOf(codec, lines, model)
  {
    if lines != [] {
      var k := Kind(codec, lines[0]);
      if k.Model? {
        KindModelShape(codec, lines[0]);
        ModelOfShape(codec, lines[1..], k.model, c);
      } else {
        ModelOfShape(codec, lines[1..], model, c);
      }
    }
  }

  lemma Cut(s: string, i: nat)
    requires i <= |s|
    ensures s == s[..i] + s[i..]
  {
  }

  lemma StripParts(s: string) returns (left: string, right: string)
    ensures s == left + Strip(s) + right
    ensures forall i :: 0 <= i < |left| ==> IsSpace(left[i])
    ensures forall i :: 0 <= i < |right| ==> IsSpace(right[i])
  {
    var i := Lead(s);
    var tail := s[i..];
    var j := End(tail);
    left, right := s[..i], tail[j..];
    Cut(s, i);
    Cut(tail, j);
    Assoc(left, tail[..j], right);
  }

  lemma StripNewline(s: string)
    ensures Strip(s + "\n") == Strip(s)
  {
    var left, right := StripParts(s);
    Assoc(left + Strip(s), right, "\n");
    StripPadded(left, Strip(s), right + "\n");
  }

  lemma TailShape<J(!new)>(codec: Codec<J>, m: Message<J>)
    requires Lawful(codec)
    ensures Tail(codec, m)
         == Split(EscapeBody(m.content)) + (SplitAll(ModelLines(m)) + (AttachmentLines(codec, m) + [""]))
    ensures SplitAll(ModelLines(m)) == if m.model != "" then Split("@model " + m.model) else []
  {
    var body := [EscapeBody(m.content)];
    var model, attach := ModelLines(m), AttachmentLines(codec, m);
    Assoc(body, model, attach);
    Assoc(body, model + attach, [""]);
    Assoc(model, attach, [""]);
    SplitAllConcat(body, model + (attach + [""]));
    SplitAllConcat(model, attach + [""]);
    SplitAllConcat(attach, [""]);
    SplitAllOne(EscapeBody(m.content));
    SplitAllOne("");
    SplitOneLine("");
    if m.model != "" {
      SplitAllOne("@model " + m.model);
    }
    AttachmentLineSplits(codec, m);
  }

  lemma AttachmentLineSplits<J(!new)>(codec: Codec<J>, m: Message<J>)
    requires Lawful(codec)
    ensures SplitAll(AttachmentLines(codec, m)) == AttachmentLines(codec, m)
  {
    var shown := ShownAttachments(codec, m);
    if shown.Some? {
      SplitAllOne("@attachments " + codec.dumps(shown.value));
      SplitOneLine("@attachments " + codec.dumps(shown.value));
    }
  }

  lemma SplitAllOne(s: string)
    ensures SplitAll([s]) == Split(s)
  {
    assert [s][1..] == [];
    assert Split(s) + [] == Split(s);
  }

  lemma KindOfModelLine<J>(codec: Codec<J>, model: string)
    ensures Kind(codec, "@model " + model) == Model(Strip(model))
  {
    var l := "@model " + model;
    assert l[1] == 'm';
    assert l[..7] == "@model " && l[7..] == model;
  }

  lemma KindOfAttachmentsLine<J(!new)>(codec: Codec<J>, j: J)
    requires Lawful(codec)
    ensures Kind(codec, "@attachments " + codec.dumps(j)) == Attach(j)
  {
    var l := "@attachments " + codec.dumps(j);
    assert l[..13] == "@attachments " && l[13..] == codec.dumps(j);
  }

  /** What the three folds make of the lines after the body, for a one-line trimmed model. */
  lemma TrailerFolds<J(!new)>(codec: Codec<J>, m: Message<J>)
    requires Lawful(codec) && Trimmed(m.model) && '\n' !in m.model
    ensures var body := Split(EscapeBody(m.content));
            && Clean(codec, Tail(codec, m)) == Clean(codec, body) + [""]
            && (m.model != "" ==> ModelOf(codec, Tail(codec, m), "") == m.model)
            && (m.model == "" ==> ModelOf(codec, Tail(codec, m), "") == ModelOf(codec, body, ""))
            && AttachmentsOf(codec, Tail(codec, m), None)
               == (var shown := ShownAttachments(codec, m);
                   if shown.Some? then shown else AttachmentsOf(codec, body, None))
  {
    var body := Split(EscapeBody(m.content));
    var shown := ShownAttachments(codec, m);
    var model, attach := ModelLines(m), AttachmentLines(codec, m);
    TailShape(codec, m);
    if m.model != "" {
      SplitOneLine("@model " + m.model);
      KindOfModelLine(codec, m.model);
      StripPadded("", m.model, "");
      assert "" + m.model + "" == m.model;
    }
    if shown.Some? {
      KindOfAttachmentsLine(codec, shown.value);
    }
    var rest := model + (attach + [""]);
    assert Tail(codec, m) == body + rest;
    CleanConcat(codec, body, rest);
    ModelOfConcat(codec, body, rest, "");
    AttachmentsOfConcat(codec, body, rest, None);
    TrailerOnly(codec, model, attach, shown, m.model, ModelOf(codec, body, ""), AttachmentsOf(codec, body, None));
  }

  lemma TrailerOnly<J>(codec: Codec<J>, model: seq<string>, attach: seq<string>, shown: Option<J>,
                       name: string, model0: string, atts0: Option<J>)
    requires model == [] || (|model| == 1 && Kind(codec, model[0]) == Model(name))
    requires (attach == [] && shown == None)
             || (|attach| == 1 && shown.Some? && Kind(codec, attach[0]) == Attach(shown.value))
    ensures var rest := model + (attach + [""]);
            && Clean(codec, rest) == [""]
            && ModelOf(codec, rest, model0) == (if model == [] then model0 else name)
            && AttachmentsOf(codec, rest, atts0) == (if shown.Some? then shown else atts0)
  {
    var last := attach + [""];
    CleanConcat(codec, model, last);
    CleanConcat(codec, attach, [""]);
    ModelOfConcat(codec, model, last, model0);
    ModelOfConcat(codec, attach, [""], ModelOf(codec, model, model0));
    AttachmentsOfConcat(codec, model, last, atts0);
    AttachmentsOfConcat(codec, attach, [""], AttachmentsOf(codec, model, atts0));
    SingleFolds(codec, "");
    if model != [] {
      assert model == [model[0]];
      SingleFolds(codec, model[0]);
    }
    if attach != [] {
      assert attach == [attach[0]];
      SingleFolds(codec, attach[0]);
    }
  }

  lemma SingleFolds<J>(codec: Codec<J>, l: string)
    ensures Clean(codec, [l]) == if Kind(codec, l).Text? then [l] else []
    ensures forall m :: ModelOf(codec, [l], m) == if Kind(codec, l).Model? then Kind(codec, l).model else m
    ensures forall a :: AttachmentsOf(codec, [l], a) == if Kind(codec, l).Attach? then Some(Kind(codec, l).atts) else a
  {
    assert [l][1..] == [];
    assert [l] + [] == [l];
  }

  // ---- one message ----

  predicate NoHeader(lines: seq<string>) {
    forall l :: l in lines ==> HeaderRole(l).None?
  }

  lemma NotHeader(l: string)
    requires l != [] && !IsSpace(l[0]) && l[0] != '#'
    ensures HeaderRole(l).None?
  {
    assert Lead(l) == 0;
    assert l[0..] == l;
    assert End(l) >= 1;
    assert Strip(l)[0] == l[0];
  }

  lemma SafeLine<J>(codec: Codec<J>, l: string)
    requires LineSafe(codec, l)
    ensures HeaderRole(EscapeLine(l)).None? && Kind(codec, EscapeLine(l)).Text?
  {
    if HasPrefix(l, "## ") {
      assert EscapeLine(l)[0] == '\\';
      NotHeader(EscapeLine(l));
    }
  }

  lemma SafeBody<J>(codec: Codec<J>, content: string)
    requires forall l :: l in Split(content) ==> LineSafe(codec, l)
    ensures NoHeader(Split(EscapeBody(content)))
    ensures forall l :: l in Split(EscapeBody(content)) ==> Kind(codec, l).Text?
  {
    var lines := Split(content);
    MapLinesKeepsLines(EscapeLine, content);
    var body := MapLines(EscapeLine, lines);
    forall i | 0 <= i < |body| ensures HeaderRole(body[i]).None? && Kind(codec, body[i]).Text? {
      SafeLine(codec, lines[i]);
    }
  }

  lemma SafeTail<J(!new)>(codec: Codec<J>, m: Message<J>)
    requires Lawful(codec) && MessageSafe(codec, m)
    ensures NoHeader(Tail(codec, m))
  {
    hide Split, EscapeBody, Trimmed, LineSafe, Tail;
    SafeBody(codec, m.content);
    TailShape(codec, m);
    if m.model != "" {
      SplitOneLine("@model " + m.model);
      NotHeader("@model " + m.model);
    }
    var shown := ShownAttachments(codec, m);
    if shown.Some? {
      NotHeader("@attachments " + codec.dumps(shown.value));
    }
  }

  /** The content parsed from a tail whose body keeps all its lines. */
  lemma ContentOfTail(body: seq<string>)
    requires body != []
    ensures Strip(Join(body + [""])) == Strip(Join(body))
  {
    JoinConcat(body, [""]);
    assert Join(body) + "\n" + "" == Join(body) + "\n";
    StripNewline(Join(body));
  }

  lemma SafeBuild<J(!new)>(codec: Codec<J>, m: Message<J>, role: string, n: nat)
    requires Lawful(codec) && MessageSafe(codec, m)
    ensures Build(codec, role, Tail(codec, m), n) == Parsed(role, m.content, m.model, ShownAttachments(codec, m), n)
  {
    var text := EscapeBody(m.content);
    var body := Split(text);
    SafeBody(codec, m.content);
    TrailerFolds(codec, m);
    CleanLength(codec, body);
    AllTextFolds(codec, body, "", None);
    ContentOfTail(body);
    JoinSplit(text);
    EscapeKeepsTrimmed(m.content);
    StripTrimmed(text);
    UnescapeEscape(m.content);
  }

  lemma StripTrimmed(s: string)
    requires Trimmed(s)
    ensures Strip(s) == s
  {
    StripPadded("", s, "");
    assert "" + s + "" == s;
  }

  lemma UnescapeNewlines(text: string)
    ensures Count(UnescapeBody(text), '\n') == Count(text, '\n')
  {
    MapLinesKeepsLines(UnescapeLine, text);
  }

  /** Newlines of a content read back from the kept lines. */
  lemma KeptNewlines(kept: seq<string>)
    requires kept != [] && forall l :: l in kept ==> '\n' !in l
    ensures Count(UnescapeBody(Strip(Join(kept + [""]))), '\n') < |kept|
  {
    ContentOfTail(kept);
    var text := Join(kept);
    SplitJoin(kept);
    SplitLines(text);
    CountStrip(text, '\n');
    UnescapeNewlines(Strip(text));
  }

  /** A body line taken for a trailer is lost, and a lost line is never made up for. */
  lemma BodyLineLost<J>(codec: Codec<J>, content: string)
    requires UnescapeBody(Strip(Join(Clean(codec, Split(EscapeBody(content))) + [""]))) == content
    ensures forall l :: l in Split(EscapeBody(content)) ==> Kind(codec, l).Text?
  {
    var body := Split(EscapeBody(content));
    var kept := Clean(codec, body);
    CleanLength(codec, body);
    SplitLines(EscapeBody(content));
    MapLinesKeepsLines(EscapeLine, content);
    if kept == [] {
      EmptyBody();
      assert false;
    } else {
      KeptNewlines(kept);
    }
  }

  lemma ContentSafe<J>(codec: Codec<J>, content: string)
    requires NoHeader(Split(EscapeBody(content)))
    requires UnescapeBody(Strip(Join(Clean(codec, Split(EscapeBody(content))) + [""]))) == content
    ensures Trimmed(content)
    ensures forall l :: l in Split(content) ==> LineSafe(codec, l)
  {
    var text := EscapeBody(content);
    var body := Split(text);
    BodyLineLost(codec, content);
    CleanLength(codec, body);
    ContentOfTail(body);
    JoinSplit(text);
    EscapeKeepsTrimmed(Strip(text));
    EscapeKeepsTrimmed(content);
    StripTrimmed(text);
    UnescapeEscape(content);
    BodyLines(codec, content);
  }

  lemma BodyLines<J>(codec: Codec<J>, content: string)
    requires NoHeader(Split(EscapeBody(content)))
    requires forall l :: l in Split(EscapeBody(content)) ==> Kind(codec, l).Text?
    requires forall l :: l in Split(content) ==> !HasPrefix(l, "\\#\\# ")
    ensures forall l :: l in Split(content) ==> LineSafe(codec, l)
  {
    var lines := Split(content);
    MapLinesKeepsLines(EscapeLine, content);
    var body := MapLines(EscapeLine, lines);
    forall i | 0 <= i < |lines| ensures LineSafe(codec, lines[i]) {
      assert body[i] in body;
      if HasPrefix(lines[i], "## ") {
        assert lines[i][0] == '#';
      }
    }
  }

  lemma TailOneLines<J(!new)>(codec: Codec<J>, m: Message<J>)
    requires Lawful(codec)
    ensures forall l :: l in Tail(codec, m) ==> '\n' !in l
  {
    TailShape(codec, m);
    SplitLines(EscapeBody(m.content));
    SplitLines("@model " + m.model);
  }

  lemma BuildSafe<J(!new)>(codec: Codec<J>, m: Message<J>, role: string, n: nat)
    requires Lawful(codec) && '\r' !in m.content && '\r' !in m.model && NoHeader(Tail(codec, m))
    requires Build(codec, role, Tail(codec, m), n) == Parsed(role, m.content, m.model, ShownAttachments(codec, m), n)
    ensures MessageSafe(codec, m)
  {
    TailOneLines(codec, m);
    ModelOfShape(codec, Tail(codec, m), "", '\n');
    TrailerFolds(codec, m);
    TailShape(codec, m);
    ContentSafe(codec, m.content);
  }

  // ---- the whole file ----

  /** The file lines of all messages. */
  function Blocks<J>(codec: Codec<J>, messages: seq<Message<J>>): seq<string> {
    SplitAll(AllLines(codec, messages))
  }

  function Headers(lines: seq<string>): nat {
    if lines == [] then 0 else (if HeaderRole(lines[0]).Some? then 1 else 0) + Headers(lines[1..])
  }

  function Built<J>(codec: Codec<J>, messages: seq<Message<J>>, n: nat): (r: seq<Parsed<J>>)
    ensures |r| == |messages|
  {
    if messages == [] then []
    else
      [Build(codec, NormalRole(messages[0].role), Tail(codec, messages[0]), n)]
      + Built(codec, messages[1..], n + 1)
  }

  lemma {:induction false} HeadersConcat(a: seq<string>, b: seq<string>)
    ensures Headers(a + b) == Headers(a) + Headers(b)
  {
    if a == [] {
      assert a + b == b;
    } else {
      assert (a + b)[1..] == a[1..] + b;
      HeadersConcat(a[1..], b);
    }
  }

  lemma {:induction false} HeadersZero(lines: seq<string>)
    ensures Headers(lines) == 0 <==> NoHeader(lines)
  {
    if lines != [] {
      HeadersZero(lines[1..]);
      assert lines == [lines[0]] + lines[1..];
    }
  }

  /** Every header opens one message; nothing else does. */
  lemma {:induction false} ParsedCount<J>(codec: Codec<J>, lines: seq<string>, open: Option<Open>, n: nat)
    ensures |ParseFrom(codec, lines, open, n)| == Headers(lines) + (if open.Some? then 1 else 0)
    decreases |lines|
  {
    if lines != [] {
      var h := HeaderRole(lines[0]);
      if h.Some? {
        ParsedCount(codec, lines[1..], Some(Open(h.value, [])), if open.Some? then n + 1 else n);
      } else if open.Some? {
        ParsedCount(codec, lines[1..], Some(Open(open.value.role, open.value.lines + [lines[0]])), n);
      } else {
        ParsedCount(codec, lines[1..], None, n);
      }
    }
  }

  /** The roles that the header lines of a file open, the legacy one included. */
  function Roles(lines: seq<string>): seq<string> {
    if lines == [] then []
    else
      var line := Strip(lines[0]);
      (if line == "## User" then ["user"] else if line == "## Novi" || line == "## Cozmo" then ["assistant"] else [])
      + Roles(lines[1..])
  }

  /** Any file gives one message for each header line, in order, with its role, and numbered
      on from the first. */
  lemma {:induction false} ParsedRoles<J>(codec: Codec<J>, lines: seq<string>, open: Option<Open>, n: nat)
    ensures var roles := (if open.Some? then [open.value.role] else []) + Roles(lines);
            var parsed := ParseFrom(codec, lines, open, n);
            && |parsed| == |roles|
            && forall i :: 0 <= i < |parsed| ==> parsed[i].role == roles[i] && parsed[i].index == n + i
    decreases |lines|
  {
    hide UnescapeBody, Clean, ModelOf, AttachmentsOf, Strip;
    if lines != [] {
      var h := HeaderRole(lines[0]);
      assert Roles(lines) == (if h.Some? then [h.value] else []) + Roles(lines[1..]);
      if h.Some? {
        ParsedRoles(codec, lines[1..], Some(Open(h.value, [])), if open.Some? then n + 1 else n);
      } else if open.Some? {
        ParsedRoles(codec, lines[1..], Some(Open(open.value.role, open.value.lines + [lines[0]])), n);
      } else {
        ParsedRoles(codec, lines[1..], None, n);
      }
    }
  }

  lemma {:induction false} ParseTail<J>(codec: Codec<J>, tail: seq<string>, rest: seq<string>, open: Open, n: nat)
    requires NoHeader(tail)
    ensures ParseFrom(codec, tail + rest, Some(open), n)
         == ParseFrom(codec, rest, Some(Open(open.role, open.lines + tail)), n)
    decreases |tail|
  {
    if tail == [] {
      assert tail + rest == rest && open.lines + tail == open.lines;
    } else {
      assert (tail + rest)[1..] == tail[1..] + rest;
      assert open.lines + [tail[0]] + tail[1..] == open.lines + tail;
      ParseTail(codec, tail[1..], rest, Open(open.role, open.lines + [tail[0]]), n);
    }
  }

  lemma {:induction false} ParseSkip<J>(codec: Codec<J>, skipped: seq<string>, rest: seq<string>, n: nat)
    requires NoHeader(skipped)
    ensures ParseFrom(codec, skipped + rest, None, n) == ParseFrom(codec, rest, None, n)
  {
    if skipped == [] {
      assert skipped + rest == rest;
    } else {
      assert (skipped + rest)[1..] == skipped[1..] + rest;
      ParseSkip(codec, skipped[1..], rest, n);
    }
  }

  lemma HeaderLine(role: string)
    ensures HeaderRole(Header(role)) == Some(NormalRole(role))
    ensures Split(Header(role)) == [Header(role)]
  {
    StripTrimmed(Header(role));
    SplitOneLine(Header(role));
  }

  lemma BlocksStep<J>(codec: Codec<J>, messages: seq<Message<J>>)
    requires messages != []
    ensures Blocks(codec, messages)
         == [Header(messages[0].role)] + (Tail(codec, messages[0]) + Blocks(codec, messages[1..]))
  {
    var m := messages[0];
    var rest := AllLines(codec, messages[1..]);
    HeaderLine(m.role);
    SplitAllOne(Header(m.role));
    SplitAllConcat([Header(m.role)], MessageBody(codec, m));
    SplitAllConcat(MessageLines(codec, m), rest);
    Assoc([Header(m.role)], Tail(codec, m), Blocks(codec, messages[1..]));
  }

  lemma ParseMessage<J>(codec: Codec<J>, messages: seq<Message<J>>, open: Option<Open>, n: nat)
    requires messages != [] && NoHeader(Tail(codec, messages[0]))
    ensures var own := Some(Open(NormalRole(messages[0].role), Tail(codec, messages[0])));
            var rest := Blocks(codec, messages[1..]);
            ParseFrom(codec, Blocks(codec, messages), open, n)
            == if open.Some? then
                [Build(codec, open.value.role, open.value.lines, n)] + ParseFrom(codec, rest, own, n + 1)
               else ParseFrom(codec, rest, own, n)
  {
    var m := messages[0];
    var rest := Blocks(codec, messages[1..]);
    var role := NormalRole(m.role);
    BlocksStep(codec, messages);
    HeaderLine(m.role);
    assert ([Header(m.role)] + (Tail(codec, m) + rest))[1..] == Tail(codec, m) + rest;
    ParseTail(codec, Tail(codec, m), rest, Open(role, []), if open.Some? then n + 1 else n);
    assert [] + Tail(codec, m) == Tail(codec, m);
  }

  lemma {:induction false} ParseBlocksOpen<J>(codec: Codec<J>, messages: seq<Message<J>>, open: Open, n: nat)
    requires forall i :: 0 <= i < |messages| ==> NoHeader(Tail(codec, messages[i]))
    ensures ParseFrom(codec, Blocks(codec, messages), Some(open), n)
         == [Build(codec, open.role, open.lines, n)] + Built(codec, messages, n + 1)
    decreases |messages|
  {
    if messages != [] {
      var own := Open(NormalRole(messages[0].role), Tail(codec, messages[0]));
      ParseMessage(codec, messages, Some(open), n);
      ParseBlocksOpen(codec, messages[1..], own, n + 1);
    }
  }

  /** Without stray headers the parser cuts the file into the printed messages. */
  lemma ParseBlocks<J>(codec: Codec<J>, messages: seq<Message<J>>, n: nat)
    requires forall i :: 0 <= i < |messages| ==> NoHeader(Tail(codec, messages[i]))
    ensures ParseFrom(codec, Blocks(codec, messages), None, n) == Built(codec, messages, n)
  {
    if messages != [] {
      var own := Open(NormalRole(messages[0].role), Tail(codec, messages[0]));
      ParseMessage(codec, messages, None, n);
      ParseBlocksOpen(codec, messages[1..], own, n);
    }
  }

  lemma {:induction false} BlocksHeaders<J>(codec: Codec<J>, messages: seq<Message<J>>)
    ensures Headers(Blocks(codec, messages)) >= |messages|
    ensures Headers(Blocks(codec, messages)) == |messages| ==>
              forall i :: 0 <= i < |messages| ==> NoHeader(Tail(codec, messages[i]))
  {
    hide Blocks, Tail, NoHeader, HeaderRole;
    if messages != [] {
      var m := messages[0];
      BlocksStep(codec, messages);
      HeaderLine(m.role);
      HeadersConcat([Header(m.role)], Tail(codec, m) + Blocks(codec, messages[1..]));
      HeadersConcat(Tail(codec, m), Blocks(codec, messages[1..]));
      HeadersZero(Tail(codec, m));
      HeadersZero([Header(m.role)]);
      BlocksHeaders(codec, messages[1..]);
    }
  }

  // ---- carriage returns ----

  lemma {:induction false} NewlinesConcat(a: string, b: string)
    requires a == [] || a[|a| - 1] != '\r'
    ensures UniversalNewlines(a + b) == UniversalNewlines(a) + UniversalNewlines(b)
    decreases |a|
  {
    if a == [] {
      assert a + b == b;
    } else if a[0] == '\r' && a[1] == '\n' {
      assert (a + b)[2..] == a[2..] + b;
      NewlinesConcat(a[2..], b);
    } else {
      assert (a + b)[1..] == a[1..] + b;
      NewlinesConcat(a[1..], b);
    }
  }

  lemma {:induction false} NewlinesIdentity(s: string)
    requires '\r' !in s
    ensures UniversalNewlines(s) == s
  {
    if s != [] {
      NewlinesIdentity(s[1..]);
      assert s == [s[0]] + s[1..];
    }
  }

  lemma {:induction false} NewlinesEnd(s: string)
    requires s != [] && s[|s| - 1] == '\n'
    ensures var r := UniversalNewlines(s); r != [] && r[|r| - 1] == '\n'
    decreases |s|
  {
    if |s| > 1 {
      if s[0] == '\r' && s[1] == '\n' {
        if |s| > 2 {
          NewlinesEnd(s[2..]);
        }
      } else {
        NewlinesEnd(s[1..]);
      }
    }
  }

  lemma {:induction false} JoinChars(lines: seq<string>, c: char)
    requires c != '\n' && forall l :: l in lines ==> c !in l
    ensures c !in Join(lines)
  {
    if |lines| > 1 {
      JoinChars(lines[1..], c);
    }
  }

  lemma {:induction false} CleanSubset<J>(codec: Codec<J>, lines: seq<string>)
    ensures forall l :: l in Clean(codec, lines) ==> l in lines
  {
    CleanLength(codec, lines);
  }

  lemma UnescapeChars(text: string)
    requires '\r' !in text
    ensures '\r' !in UnescapeBody(text)
  {
    SplitLines(text);
    var lines := Split(text);
    var mapped := MapLines(UnescapeLine, lines);
    forall l | l in mapped ensures '\r' !in l {
      var i :| 0 <= i < |lines| && mapped[i] == l;
      assert '\r' !in lines[i];
      if HasPrefix(lines[i], "\\#\\# ") {
        assert forall c :: c in lines[i][5..] ==> c in lines[i];
      }
    }
    JoinChars(mapped, '\r');
  }

  lemma BuildNoCr<J>(codec: Codec<J>, role: string, lines: seq<string>, n: nat)
    requires forall l :: l in lines ==> '\r' !in l
    ensures var p := Build(codec, role, lines, n); '\r' !in p.content && '\r' !in p.model
  {
    CleanSubset(codec, lines);
    JoinChars(Clean(codec, lines), '\r');
    UnescapeChars(Strip(Join(Clean(codec, lines))));
    ModelOfShape(codec, lines, "", '\r');
  }

  predicate NoCr<J>(p: Parsed<J>) {
    '\r' !in p.content && '\r' !in p.model
  }

  lemma {:induction false} ParsedNoCr<J>(codec: Codec<J>, lines: seq<string>, open: Option<Open>, n: nat)
    requires forall l :: l in lines ==> '\r' !in l
    requires open.Some? ==> forall l :: l in open.value.lines ==> '\r' !in l
    ensures forall i :: 0 <= i < |ParseFrom(codec, lines, open, n)| ==> NoCr(ParseFrom(codec, lines, open, n)[i])
    decreases |lines|
  {
    if open.Some? {
      BuildNoCr(codec, open.value.role, open.value.lines, n);
    }
    if lines != [] {
      var h := HeaderRole(lines[0]);
      if h.Some? {
        ParsedNoCr(codec, lines[1..], Some(Open(h.value, [])), if open.Some? then n + 1 else n);
      } else if open.Some? {
        ParsedNoCr(codec, lines[1..], Some(Open(open.value.role, open.value.lines + [lines[0]])), n);
      } else {
        ParsedNoCr(codec, lines[1..], None, n);
      }
    }
  }

  // ---- the round trip ----

  lemma {:induction false} ExpectedAt<J>(codec: Codec<J>, messages: seq<Message<J>>, n: nat, i: nat)
    requires i < |messages|
    ensures var m := messages[i];
            Expected(codec, messages, n)[i]
            == Parsed(NormalRole(m.role), m.content, m.model, ShownAttachments(codec, m), n + i)
    ensures Built(codec, messages, n)[i] == Build(codec, NormalRole(messages[i].role), Tail(codec, messages[i]), n + i)
  {
    if i > 0 {
      ExpectedAt(codec, messages[1..], n + 1, i - 1);
    }
  }

  lemma {:induction false} LinesNoCr<J(!new)>(codec: Codec<J>, messages: seq<Message<J>>)
    requires Lawful(codec)
    requires forall i :: 0 <= i < |messages| ==> '\r' !in messages[i].content && '\r' !in messages[i].model
    ensures forall l :: l in AllLines(codec, messages) ==> '\r' !in l
  {
    hide MessageLines;
    if messages != [] {
      var m := messages[0];
      MessageNoCr(codec, m);
      LinesNoCr(codec, messages[1..]);
    }
  }

  lemma MessageNoCr<J(!new)>(codec: Codec<J>, m: Message<J>)
    requires Lawful(codec) && '\r' !in m.content && '\r' !in m.model
    ensures forall l :: l in MessageLines(codec, m) ==> '\r' !in l
  {
    hide EscapeBody;
    EscapeChars(m.content);
  }

  lemma EscapeChars(text: string)
    requires '\r' !in text
    ensures '\r' !in EscapeBody(text)
  {
    SplitLines(text);
    var lines := Split(text);
    var mapped := MapLines(EscapeLine, lines);
    forall l | l in mapped ensures '\r' !in l {
      var i :| 0 <= i < |lines| && mapped[i] == l;
      assert '\r' !in lines[i];
      if HasPrefix(lines[i], "## ") {
        assert forall c :: c in lines[i][3..] ==> c in lines[i];
      }
    }
    JoinChars(mapped, '\r');
  }

  lemma FileHead<J>(codec: Codec<J>, title: string, messages: seq<Message<J>>)
    ensures FileText(codec, title, messages) == ("# " + title + "\n") + Join([""] + AllLines(codec, messages))
  {
    var body := AllLines(codec, messages);
    assert ["# " + title, ""] + body == ["# " + title] + ([""] + body);
    JoinConcat(["# " + title], [""] + body);
  }

  /** Text that ends a line contributes its lines, whatever follows. */
  lemma SplitAfterLine(head: string, rest: string)
    requires head != [] && head[|head| - 1] == '\n'
    ensures Split(head + rest) == Split(head)[..|Split(head)| - 1] + Split(rest)
    ensures |Split(head)| >= 2 && Split(head)[|Split(head)| - 1] == ""
  {
    var t := head[..|head| - 1];
    assert head == t + "\n" + "" && head + rest == t + "\n" + rest;
    SplitConcat(t, "");
    SplitConcat(t, rest);
    SplitOneLine("");
  }

  /** The lines read back: what follows the first line of the title, then the messages. */
  lemma FileLines<J(!new)>(codec: Codec<J>, title: string, messages: seq<Message<J>>)
    requires Lawful(codec)
    requires forall i :: 0 <= i < |messages| ==> '\r' !in messages[i].content && '\r' !in messages[i].model
    ensures Split(UniversalNewlines(FileText(codec, title, messages)))[1..]
         == Split(UniversalNewlines("# " + title + "\n"))[1..] + Blocks(codec, messages)
  {
    hide AllLines, UniversalNewlines, Split, Join, FileText;
    var body := AllLines(codec, messages);
    var head := "# " + title + "\n";
    var rest := Join([""] + body);
    FileHead(codec, title, messages);
    LinesNoCr(codec, messages);
    JoinChars([""] + body, '\r');
    NewlinesConcat(head, rest);
    NewlinesIdentity(rest);
    NewlinesEnd(head);
    var h := UniversalNewlines(head);
    SplitAfterLine(h, rest);
    SplitOfJoin([""] + body);
    assert ([""] + body)[1..] == body;
    SplitOneLine("");
    assert Split(rest) == [""] + Blocks(codec, messages);
    TailOfLines(Split(h), Blocks(codec, messages));
  }

  lemma TailOfLines(lines: seq<string>, blocks: seq<string>)
    requires |lines| >= 2 && lines[|lines| - 1] == ""
    ensures (lines[..|lines| - 1] + ([""] + blocks))[1..] == lines[1..] + blocks
  {
    assert lines == lines[..|lines| - 1] + [""];
    Assoc(lines[..|lines| - 1], [""], blocks);
  }

  /** A printed conversation parses back to itself exactly when it is safe. */
  lemma RoundTrip<J(!new)>(codec: Codec<J>, title: string, messages: seq<Message<J>>)
    requires Lawful(codec)
    ensures Load(codec, FileText(codec, title, messages)) == Expected(codec, messages, 0)
            <==> ConversationSafe(codec, title, messages)
  {
    if ConversationSafe(codec, title, messages) {
      SafeRoundTrips(codec, title, messages);
    } else if Load(codec, FileText(codec, title, messages)) == Expected(codec, messages, 0) {
      RoundTripSafe(codec, title, messages);
    }
  }

  lemma SafeRoundTrips<J(!new)>(codec: Codec<J>, title: string, messages: seq<Message<J>>)
    requires Lawful(codec) && ConversationSafe(codec, title, messages)
    ensures Load(codec, FileText(codec, title, messages)) == Expected(codec, messages, 0)
  {
    FileLines(codec, title, messages);
    var skipped := Split(UniversalNewlines("# " + title + "\n"))[1..];
    ParseSkip(codec, skipped, Blocks(codec, messages), 0);
    forall i | 0 <= i < |messages|
      ensures NoHeader(Tail(codec, messages[i])) && Built(codec, messages, 0)[i] == Expected(codec, messages, 0)[i]
    {
      SafeTail(codec, messages[i]);
      ExpectedAt(codec, messages, 0, i);
      SafeBuild(codec, messages[i], NormalRole(messages[i].role), i);
    }
    ParseBlocks(codec, messages, 0);
  }

  lemma RoundTripSafe<J(!new)>(codec: Codec<J>, title: string, messages: seq<Message<J>>)
    requires Lawful(codec) && Load(codec, FileText(codec, title, messages)) == Expected(codec, messages, 0)
    ensures ConversationSafe(codec, title, messages)
  {
    RoundTripNoCr(codec, title, messages);
    FileLines(codec, title, messages);
    var skipped := Split(UniversalNewlines("# " + title + "\n"))[1..];
    var blocks := Blocks(codec, messages);
    ParsedCount(codec, skipped + blocks, None, 0);
    HeadersConcat(skipped, blocks);
    BlocksHeaders(codec, messages);
    HeadersZero(skipped);
    ParseSkip(codec, skipped, blocks, 0);
    ParseBlocks(codec, messages, 0);
    forall i | 0 <= i < |messages| ensures MessageSafe(codec, messages[i]) {
      ExpectedAt(codec, messages, 0, i);
      BuildSafe(codec, messages[i], NormalRole(messages[i].role), i);
    }
  }

  lemma RoundTripNoCr<J(!new)>(codec: Codec<J>, title: string, messages: seq<Message<J>>)
    requires Load(codec, FileText(codec, title, messages)) == Expected(codec, messages, 0)
    ensures forall i :: 0 <= i < |messages| ==> '\r' !in messages[i].content && '\r' !in messages[i].model
  {
    var text := UniversalNewlines(FileText(codec, title, messages));
    SplitLines(text);
    ParsedNoCr(codec, Split(text)[1..], None, 0);
    forall i | 0 <= i < |messages| ensures '\r' !in messages[i].content && '\r' !in messages[i].model {
      ExpectedAt(codec, messages, 0, i);
    }
  }

  lemma IndentedHeader()
    ensures HeaderRole(" ## User") == Some("user") && !HasPrefix(" ## User", "## ")
  {
    StripPadded(" ", "## User", "");
    assert " " + "## User" + "" == " ## User";
    assert " ## User"[0] == ' ';
  }

  /** An indented role header inside a body is neither escaped nor read as text. */
  lemma IndentedHeaderFails<J(!new)>(codec: Codec<J>, title: string, content: string)
    requires Lawful(codec) && content == "a" + "\n" + " ## User"
    ensures var m := Message("user", content, "", None);
            Load(codec, FileText(codec, title, [m])) != Expected(codec, [m], 0)
  {
    var m := Message("user", content, "", None);
    hide MessageSafe, Load, FileText, Expected;
    assert !MessageSafe(codec, [m][0]) by { IndentedUnsafe(codec, m); }
    RoundTrip(codec, title, [m]);
  }

  lemma IndentedUnsafe<J>(codec: Codec<J>, m: Message<J>)
    requires m.content == "a" + "\n" + " ## User"
    ensures !MessageSafe(codec, m)
  {
    hide Strip, Split, ReadsAsTrailer;
    SplitConcat("a", " ## User");
    SplitOneLine(" ## User");
    assert " ## User" in Split(m.content);
    IndentedHeader();
  }

  /** A body line that already looks escaped loses its backslashes. */
  lemma EscapedLineFails<J(!new)>(codec: Codec<J>, title: string)
    requires Lawful(codec)
    ensures var m := Message("user", "\\#\\# a", "", None);
            Load(codec, FileText(codec, title, [m])) != Expected(codec, [m], 0)
  {
    var m := Message("user", "\\#\\# a", "", None);
    SplitOneLine(m.content);
    assert m.content in Split(m.content);
    assert HasPrefix(m.content, "\\#\\# ");
    assert !MessageSafe(codec, [m][0]);
    RoundTrip(codec, title, [m]);
  }
}
