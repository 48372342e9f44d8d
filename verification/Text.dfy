/** String operations shared by the models: whitespace, trimming, lines. Whitespace is what
    Python's str.isspace accepts, lines are what str.split at a newline gives, and the lemmas
    say how trimming, splitting and joining undo one another, which the parsers of the other
    modules rely on. Where a source normalizes or lower-cases, that is a parameter there. */
module Text {

  datatype Option<+T> = None | Some(value: T)

  /** The characters for which Python's str.isspace holds. */
  predicate IsSpace(c: char) {
    var n := c as int;
    || 0x09 <= n <= 0x0d || 0x1c <= n <= 0x20 || n == 0x85 || n == 0xa0 || n == 0x1680
    || 0x2000 <= n <= 0x200a || n == 0x2028 || n == 0x2029 || n == 0x202f || n == 0x205f || n == 0x3000
  }

  /** Number of leading whitespace characters. */
  function Lead(s: string): (k: nat)
    ensures k <= |s|
    ensures forall i :: 0 <= i < k ==> IsSpace(s[i])
    ensures k < |s| ==> !IsSpace(s[k])
  {
    if s != [] && IsSpace(s[0]) then 1 + Lead(s[1..]) else 0
  }

  /** Index just past the last character that is not whitespace. */
  function End(s: string): (k: nat)
    ensures k <= |s|
    ensures forall i :: k <= i < |s| ==> IsSpace(s[i])
    ensures k > 0 ==> !IsSpace(s[k - 1])
  {
    if s != [] && IsSpace(s[|s| - 1]) then End(s[..|s| - 1]) else |s|
  }

  /** str.strip() */
  function Strip(s: string): (r: string)
    ensures Trimmed(r)
    ensures forall c :: c in r ==> c in s
  {
    var tail := s[Lead(s)..];
    tail[..End(tail)]
  }

  predicate Trimmed(s: string) {
    s == [] || (!IsSpace(s[0]) && !IsSpace(s[|s| - 1]))
  }

  function Count(s: string, c: char): nat {
    if s == [] then 0 else (if s[0] == c then 1 else 0) + Count(s[1..], c)
  }

  /** str.split("\n"): always at least one line. */
  function Split(s: string): (lines: seq<string>)
    ensures |lines| >= 1
  {
    if s == [] then [""]
    else
      var rest := Split(s[1..]);
      if s[0] == '\n' then [""] + rest else [[s[0]] + rest[0]] + rest[1..]
  }

  /** "\n".join(lines) */
  function Join(lines: seq<string>): string {
    if lines == [] then ""
    else if |lines| == 1 then lines[0]
    else lines[0] + "\n" + Join(lines[1..])
  }

  predicate HasPrefix(s: string, prefix: string) {
    prefix <= s
  }

  // Dafny proves these on demand only; stated once so that other proofs can cite them.
  lemma Assoc<T>(a: seq<T>, b: seq<T>, c: seq<T>)
    ensures (a + b) + c == a + (b + c)
  {
  }

  lemma AssocFour<T>(a: seq<T>, b: seq<T>, c: seq<T>, d: seq<T>)
    ensures a + (b + c + d) == (a + b + c) + d
  {
  }

  lemma AssocSix<T>(a: seq<T>, b: seq<T>, c: seq<T>, d: seq<T>, e: seq<T>, f: seq<T>)
    ensures a + b + c + d + e + f == a + (b + (c + d + e + f))
  {
  }

  lemma SomeMember<T>(s: seq<T>)
    ensures s == [] || exists t :: t in s
  {
    if s != [] {
      assert s[0] in s;
    }
  }

  /** In a list without repeats any two entries differ. */
  lemma TwoDiffer<T>(s: seq<T>)
    requires |s| >= 2 && forall i, j :: 0 <= i < j < |s| ==> s[i] != s[j]
    ensures exists t, u :: t in s && u in s && t != u
  {
    assert s[0] in s && s[1] in s && s[0] != s[1];
  }

  function Min(a: nat, b: nat): nat {
    if a < b then a else b
  }

  // ---- trimming ----

  /** Whitespace around a trimmed core is all that Strip removes. */
  lemma StripPadded(left: string, core: string, right: string)
    requires Trimmed(core)
    requires forall i :: 0 <= i < |left| ==> IsSpace(left[i])
    requires forall i :: 0 <= i < |right| ==> IsSpace(right[i])
    ensures Strip(left + core + right) == core
  {
    var s := left + core + right;
    var tail := s[Lead(s)..];
    if core == [] {
      assert Lead(s) == |s|;
    } else {
      assert !IsSpace(s[|left|]);
      assert Lead(s) == |left|;
      assert tail == core + right;
      assert !IsSpace(tail[|core| - 1]);
      assert End(tail) == |core|;
    }
  }

  // ---- counting ----

  lemma {:induction false} CountConcat(a: string, b: string, c: char)
    ensures Count(a + b, c) == Count(a, c) + Count(b, c)
  {
    if a == [] {
      assert a + b == b;
    } else {
      assert (a + b)[1..] == a[1..] + b;
      CountConcat(a[1..], b, c);
    }
  }

  lemma {:induction false} CountZero(s: string, c: char)
    ensures Count(s, c) == 0 <==> c !in s
  {
    if s != [] {
      assert s == [s[0]] + s[1..];
      CountZero(s[1..], c);
    }
  }

  lemma CountStrip(s: string, c: char)
    ensures Count(Strip(s), c) <= Count(s, c)
  {
    var i := Lead(s);
    var j := i + End(s[i..]);
    assert Strip(s) == s[i..j];
    assert s == s[..i] + (s[i..j] + s[j..]);
    CountConcat(s[..i], s[i..j] + s[j..], c);
    CountConcat(s[i..j], s[j..], c);
  }

  // ---- lines ----

  lemma {:induction false} SplitConcat(a: string, b: string)
    ensures Split(a + "\n" + b) == Split(a) + Split(b)
  {
    var s := a + "\n" + b;
    var rb := Split(b);
    if a == [] {
      assert s[0] == '\n' && s[1..] == b;
    } else {
      assert s[0] == a[0] && s[1..] == a[1..] + "\n" + b;
      SplitConcat(a[1..], b);
      var ra := Split(a[1..]);
      if a[0] == '\n' {
        Assoc([""], ra, rb);
      } else {
        assert (ra + rb)[0] == ra[0] && (ra + rb)[1..] == ra[1..] + rb;
        Assoc([[a[0]] + ra[0]], ra[1..], rb);
      }
    }
  }

  lemma {:induction false} SplitOneLine(s: string)
    requires '\n' !in s
    ensures Split(s) == [s]
  {
    if s != [] {
      assert s == [s[0]] + s[1..];
      SplitOneLine(s[1..]);
    }
  }

  lemma {:induction false} SplitLines(s: string)
    ensures forall l :: l in Split(s) ==> '\n' !in l
    ensures forall l, c :: l in Split(s) && c in l ==> c in s
    ensures |Split(s)| == Count(s, '\n') + 1
  {
    if s != [] {
      SplitLines(s[1..]);
      var rest := Split(s[1..]);
      assert rest == [rest[0]] + rest[1..];
      assert s == [s[0]] + s[1..];
    }
  }

  lemma {:induction false} JoinSplit(s: string)
    ensures Join(Split(s)) == s
  {
    if s != [] {
      JoinSplit(s[1..]);
      var rest := Split(s[1..]);
      if s[0] == '\n' {
        assert ([""] + rest)[1..] == rest;
      } else {
        var lines := [[s[0]] + rest[0]] + rest[1..];
        assert lines[1..] == rest[1..];
      }
    }
  }

  lemma {:induction false} SplitJoin(lines: seq<string>)
    requires |lines| >= 1
    requires forall l :: l in lines ==> '\n' !in l
    ensures Split(Join(lines)) == lines
  {
    if |lines| == 1 {
      SplitOneLine(lines[0]);
      assert lines == [lines[0]];
    } else {
      SplitJoin(lines[1..]);
      SplitConcat(lines[0], Join(lines[1..]));
      SplitOneLine(lines[0]);
      assert lines == [lines[0]] + lines[1..];
    }
  }

  lemma {:induction false} JoinConcat(a: seq<string>, b: seq<string>)
    requires a != [] && b != []
    ensures Join(a + b) == Join(a) + "\n" + Join(b)
  {
    if |a| == 1 {
      assert (a + b)[1..] == b;
    } else {
      assert (a + b)[1..] == a[1..] + b;
      JoinConcat(a[1..], b);
    }
  }

  /** Splitting a join is splitting each part, in order. */
  function SplitAll(parts: seq<string>): seq<string> {
    if parts == [] then [] else Split(parts[0]) + SplitAll(parts[1..])
  }

  lemma {:induction false} SplitOfJoin(parts: seq<string>)
    requires parts != []
    ensures Split(Join(parts)) == SplitAll(parts)
  {
    if |parts| == 1 {
      assert SplitAll(parts[1..]) == [];
    } else {
      SplitOfJoin(parts[1..]);
      SplitConcat(parts[0], Join(parts[1..]));
    }
  }

  lemma {:induction false} SplitAllConcat(a: seq<string>, b: seq<string>)
    ensures SplitAll(a + b) == SplitAll(a) + SplitAll(b)
  {
    if a == [] {
      assert a + b == b;
    } else {
      assert (a + b)[1..] == a[1..] + b;
      SplitAllConcat(a[1..], b);
    }
  }
}
