/** Strings as the translators read them. */
module Text {
  // Trimming, fallbacks and concatenation. A `char` is one Unicode code point.

  datatype Option<+T> = None | Some(value: T)

  /** A JSON library: the parser of object texts, the printer, and the empty object. */
  datatype Codec<!J> = Codec(decode: string -> Option<J>, encode: J -> string, empty: J)

  /** Printing and parsing an object gives it back, and no object prints as nothing. */
  ghost predicate RoundTrips<J(!new)>(c: Codec<J>) {
    forall j :: c.encode(j) != "" && c.decode(c.encode(j)) == Some(j)
  }

  /** The code points `strings.TrimSpace` removes (the Unicode White_Space set). */
  predicate IsSpace(c: char) {
    c in {' ', '\t', '\n', '\r'}
    || c as int in {0x0B, 0x0C, 0x85, 0xA0, 0x1680, 0x2028, 0x2029, 0x202F, 0x205F, 0x3000}
    || 0x2000 <= c as int <= 0x200A
  }

  function TrimLeft(s: string): string {
    if s != "" && IsSpace(s[0]) then TrimLeft(s[1..]) else s
  }

  function TrimRight(s: string): string {
    if s != "" && IsSpace(s[|s| - 1]) then TrimRight(s[..|s| - 1]) else s
  }

  function Trim(s: string): string {
    TrimRight(TrimLeft(s))
  }

  /** `firstNonEmptyString` on two values: each is trimmed before the test. */
  function FirstOf(a: string, b: string): string {
    if Trim(a) != "" then Trim(a) else Trim(b)
  }

  /** `firstNonEmptyString` on three values. */
  function FirstOf3(a: string, b: string, c: string): string {
    if Trim(a) != "" then Trim(a) else FirstOf(b, c)
  }

  /** `firstRawString`: the first value that is not the empty string, untrimmed. */
  function FirstRaw(a: string, b: string): string {
    if a != "" then a else b
  }

  predicate HasPrefix(s: string, prefix: string) {
    prefix <= s
  }

  function TrimPrefix(s: string, prefix: string): string {
    if prefix <= s then s[|prefix|..] else s
  }

  function Concat<T>(chunks: seq<seq<T>>): seq<T> {
    if chunks == [] then [] else chunks[0] + Concat(chunks[1..])
  }

  lemma {:induction false} ConcatAppend<T>(a: seq<seq<T>>, b: seq<seq<T>>)
    ensures Concat(a + b) == Concat(a) + Concat(b)
  {
    if a == [] {
      EmptyEnds(b);
    } else {
      assert (a + b)[1..] == a[1..] + b;
      ConcatAppend(a[1..], b);
    }
  }

  lemma Regroup<T>(x: seq<T>, y: seq<T>, z: seq<T>)
    ensures x + y + z == x + (y + z)
  {
  }

  lemma EmptyEnds<T>(x: seq<T>)
    ensures [] + x == x && x + [] == x
  {
  }

  lemma AppendHead<T>(a: seq<T>, b: seq<T>)
    requires a != []
    ensures (a + b)[0] == a[0] && (a + b)[1..] == a[1..] + b
  {
  }

  lemma NothingAfter<T>(x: T)
    ensures [x][1..] == []
  {
  }

  /** Nothing at either end to remove. */
  predicate Trimmed(s: string) {
    s == "" || (!IsSpace(s[0]) && !IsSpace(s[|s| - 1]))
  }

  lemma {:induction false} TrimLeftShape(s: string)
    ensures |TrimLeft(s)| <= |s|
    ensures TrimLeft(s) == "" || !IsSpace(TrimLeft(s)[0])
    ensures TrimLeft(s) == s <==> s == "" || !IsSpace(s[0])
    ensures TrimLeft(s) != "" ==> s != "" && TrimLeft(s)[|TrimLeft(s)| - 1] == s[|s| - 1]
  {
    if s != "" && IsSpace(s[0]) {
      TrimLeftShape(s[1..]);
    }
  }

  lemma {:induction false} TrimRightShape(s: string)
    ensures |TrimRight(s)| <= |s|
    ensures TrimRight(s) == "" || !IsSpace(TrimRight(s)[|TrimRight(s)| - 1])
    ensures TrimRight(s) == s <==> s == "" || !IsSpace(s[|s| - 1])
    ensures TrimRight(s) != "" ==> s != "" && TrimRight(s)[0] == s[0]
  {
    if s != "" && IsSpace(s[|s| - 1]) {
      TrimRightShape(s[..|s| - 1]);
    }
  }

  /** Trimming only shortens, leaves nothing to trim, and changes exactly the untrimmed strings. */
  lemma TrimShape(s: string)
    ensures |Trim(s)| <= |s|
    ensures Trimmed(Trim(s))
    ensures Trim(s) == s <==> Trimmed(s)
    ensures |Trim(s)| == |s| <==> Trimmed(s)
    ensures Trim(Trim(s)) == Trim(s)
  {
    TrimLeftShape(s);
    TrimRightShape(TrimLeft(s));
    TrimLeftShape(Trim(s));
    TrimRightShape(TrimLeft(Trim(s)));
    if |TrimLeft(s)| == |s| {
      TrimLeftLength(s);
    }
    if |Trim(s)| == |s| {
      TrimRightLength(TrimLeft(s));
    }
  }

  predicate AllSpace(s: string) {
    forall i :: 0 <= i < |s| ==> IsSpace(s[i])
  }

  lemma {:induction false} TrimLeftCuts(s: string) returns (a: string)
    ensures s == a + TrimLeft(s) && AllSpace(a)
  {
    if s != "" && IsSpace(s[0]) {
      var rest := TrimLeftCuts(s[1..]);
      a := [s[0]] + rest;
      assert s == [s[0]] + s[1..];
      Regroup([s[0]], rest, TrimLeft(s));
    } else {
      a := "";
      EmptyEnds(s);
    }
  }

  lemma {:induction false} TrimRightCuts(s: string) returns (b: string)
    ensures s == TrimRight(s) + b && AllSpace(b)
  {
    if s != "" && IsSpace(s[|s| - 1]) {
      var front := TrimRightCuts(s[..|s| - 1]);
      b := front + [s[|s| - 1]];
      assert s == s[..|s| - 1] + [s[|s| - 1]];
      Regroup(TrimRight(s), front, [s[|s| - 1]]);
    } else {
      b := "";
      EmptyEnds(s);
    }
  }

  /** Trimming removes white space at the ends and nothing else. */
  lemma TrimCuts(s: string) returns (a: string, b: string)
    ensures s == a + Trim(s) + b && AllSpace(a) && AllSpace(b) && Trimmed(Trim(s))
  {
    TrimShape(s);
    a := TrimLeftCuts(s);
    b := TrimRightCuts(TrimLeft(s));
    Regroup(a, Trim(s), b);
  }

  lemma {:induction false} TrimLeftLength(s: string)
    requires |TrimLeft(s)| == |s|
    ensures TrimLeft(s) == s
  {
    if s != "" && IsSpace(s[0]) {
      TrimLeftShape(s[1..]);
    }
  }

  lemma {:induction false} TrimRightLength(s: string)
    requires |TrimRight(s)| == |s|
    ensures TrimRight(s) == s
  {
    if s != "" && IsSpace(s[|s| - 1]) {
      TrimRightShape(s[..|s| - 1]);
    }
  }

  /** Whatever a fallback picks is already trimmed. */
  lemma FirstOfTrimmed(a: string, b: string, c: string)
    ensures Trim(FirstOf(a, b)) == FirstOf(a, b)
    ensures Trim(FirstOf3(a, b, c)) == FirstOf3(a, b, c)
  {
    TrimShape(a);
    TrimShape(b);
    TrimShape(c);
  }
}
