/** The string functions the program uses, on sequences of characters. */
module Text {

  datatype Option<T> = None | Some(value: T)

  /** A separator splits a string into one part more than it occurs. */
  function Split(s: string, sep: char): (parts: seq<string>)
    ensures |parts| >= 1
  {
    if s == "" then [""]
    else
      var rest := Split(s[1..], sep);
      if s[0] == sep then [""] + rest else [[s[0]] + rest[0]] + rest[1..]
  }

  function Join(parts: seq<string>, sep: char): string
    requires parts != []
  {
    if |parts| == 1 then parts[0] else parts[0] + [sep] + Join(parts[1..], sep)
  }

  lemma {:induction false} SplitWhole(s: string, sep: char)
    requires sep !in s
    ensures Split(s, sep) == [s]
  {
    if s != "" {
      assert s == [s[0]] + s[1..];
      SplitWhole(s[1..], sep);
    }
  }

  /** The parts of a string hold its characters, and not the separator. */
  lemma {:induction false} PiecesOf(s: string, sep: char)
    ensures forall i :: 0 <= i < |Split(s, sep)| ==> sep !in Split(s, sep)[i] && forall c :: c in Split(s, sep)[i] ==> c in s
  {
    if s != "" {
      PiecesOf(s[1..], sep);
    }
  }

  lemma {:induction false} SplitAppends(a: string, b: string, sep: char)
    ensures Split(a + [sep] + b, sep) == Split(a, sep) + Split(b, sep)
  {
    var s := a + [sep] + b;
    if a == "" {
      assert s[1..] == b;
    } else {
      assert s[1..] == a[1..] + [sep] + b;
      SplitAppends(a[1..], b, sep);
    }
  }

  /** Splitting a joined list gives the list back. */
  lemma {:induction false} SplitJoin(parts: seq<string>, sep: char)
    requires parts != [] && forall i :: 0 <= i < |parts| ==> sep !in parts[i]
    ensures Split(Join(parts, sep), sep) == parts
  {
    SplitWhole(parts[0], sep);
    if |parts| > 1 {
      SplitJoin(parts[1..], sep);
      SplitAppends(parts[0], Join(parts[1..], sep), sep);
    }
  }

  /** Joining what was split gives the string back. */
  lemma {:induction false} JoinSplit(s: string, sep: char)
    ensures Join(Split(s, sep), sep) == s
  {
    if s != "" {
      JoinSplit(s[1..], sep);
      var rest := Split(s[1..], sep);
      if s[0] == sep {
        assert ([""] + rest)[1..] == rest;
      } else {
        var parts := [[s[0]] + rest[0]] + rest[1..];
        assert parts[1..] == rest[1..];
      }
    }
  }

  /** A part more goes to the end. */
  lemma {:induction false} JoinAppends(parts: seq<string>, last: string, sep: char)
    requires parts != []
    ensures Join(parts + [last], sep) == Join(parts, sep) + [sep] + last
  {
    if |parts| == 1 {
      assert (parts + [last])[1..] == [last];
    } else {
      assert (parts + [last])[1..] == parts[1..] + [last];
      JoinAppends(parts[1..], last, sep);
    }
  }

  lemma JoinExtends(parts: seq<string>, last: string, more: string, sep: char)
    ensures Join(parts + [last + more], sep) == Join(parts + [last], sep) + more
  {
    if parts != [] {
      JoinAppends(parts, last, sep);
      JoinAppends(parts, last + more, sep);
    }
  }

  /** A list is at least as long, written out, as each of its ends. */
  lemma {:induction false} JoinGrows(a: seq<string>, b: seq<string>, sep: char)
    requires a != [] || b != []
    ensures a != [] ==> |Join(a, sep)| <= |Join(a + b, sep)|
    ensures b != [] ==> |Join(b, sep)| <= |Join(a + b, sep)|
  {
    if a == [] {
      assert a + b == b;
    } else if b == [] {
      assert a + b == a;
    } else {
      assert (a + b)[1..] == a[1..] + b;
      JoinGrows(a[1..], b, sep);
    }
  }

  /** White space, as Unicode and the program's standard library define it. */
  predicate IsSpace(c: char) {
    || '\t' <= c <= '\r'
    || c in {' ', '\U{0085}', '\U{00A0}', '\U{1680}', '\U{2028}', '\U{2029}', '\U{202F}', '\U{205F}', '\U{3000}'}
    || '\U{2000}' <= c <= '\U{200A}'
  }

  ghost predicate NoSpace(s: string) {
    forall i :: 0 <= i < |s| ==> !IsSpace(s[i])
  }

  ghost predicate AllSpace(s: string) {
    forall i :: 0 <= i < |s| ==> IsSpace(s[i])
  }

  function Repeat(c: char, n: nat): (s: string)
    ensures |s| == n && forall i :: 0 <= i < n ==> s[i] == c
  {
    seq(n, _ => c)
  }

  /** The words of `s`, with `word` the one begun before it. */
  function FieldsFrom(s: string, word: string): seq<string> {
    if s == "" then (if word == "" then [] else [word])
    else if IsSpace(s[0]) then (if word == "" then [] else [word]) + FieldsFrom(s[1..], "")
    else FieldsFrom(s[1..], word + [s[0]])
  }

  function Fields(s: string): seq<string> {
    FieldsFrom(s, "")
  }

  ghost predicate IsWord(w: string) {
    w != "" && NoSpace(w)
  }

  lemma {:induction false} FieldsAreWords(s: string, word: string)
    requires NoSpace(word)
    ensures forall i :: 0 <= i < |FieldsFrom(s, word)| ==> IsWord(FieldsFrom(s, word)[i])
  {
    if s != "" {
      FieldsAreWords(s[1..], if IsSpace(s[0]) then "" else word + [s[0]]);
    }
  }

  lemma {:induction false} FieldsSkipsSpace(space: string, rest: string)
    requires AllSpace(space)
    ensures FieldsFrom(space + rest, "") == FieldsFrom(rest, "")
  {
    if space == "" {
      assert space + rest == rest;
    } else {
      assert (space + rest)[1..] == space[1..] + rest;
      FieldsSkipsSpace(space[1..], rest);
    }
  }

  lemma {:induction false} FieldsTakesWord(w: string, rest: string, word: string)
    requires NoSpace(w)
    ensures FieldsFrom(w + rest, word) == FieldsFrom(rest, word + w)
  {
    if w == "" {
      assert w + rest == rest && word + w == word;
    } else {
      assert (w + rest)[1..] == w[1..] + rest;
      assert word + [w[0]] + w[1..] == word + w;
      FieldsTakesWord(w[1..], rest, word + [w[0]]);
    }
  }

  /** White space separates words, whatever word was begun. */
  lemma {:induction false} FieldsAppend(a: string, sep: char, b: string, word: string)
    requires IsSpace(sep)
    ensures FieldsFrom(a + [sep] + b, word) == FieldsFrom(a, word) + Fields(b)
  {
    if a == "" {
      assert (a + [sep] + b)[1..] == b;
    } else {
      assert (a + [sep] + b)[1..] == a[1..] + [sep] + b;
      FieldsAppend(a[1..], sep, b, if IsSpace(a[0]) then "" else word + [a[0]]);
    }
  }

  function AllFields(parts: seq<string>): seq<string> {
    if parts == [] then [] else Fields(parts[0]) + AllFields(parts[1..])
  }

  lemma {:induction false} FieldsOfJoin(parts: seq<string>, sep: char)
    requires IsSpace(sep) && parts != []
    ensures Fields(Join(parts, sep)) == AllFields(parts)
  {
    if |parts| > 1 {
      FieldsAppend(parts[0], sep, Join(parts[1..], sep), "");
      FieldsOfJoin(parts[1..], sep);
    }
  }

  ghost predicate AllWords(words: seq<string>) {
    forall i :: 0 <= i < |words| ==> IsWord(words[i])
  }

  lemma {:induction false} FieldsOfWords(words: seq<string>)
    requires AllWords(words)
    ensures AllFields(words) == words
  {
    if words != [] {
      var w := words[0];
      assert IsWord(w);
      assert w + "" == w && "" + w == w;
      FieldsTakesWord(w, "", "");
      FieldsOfWords(words[1..]);
    }
  }

  // Trimming.

  function TrimLeft(s: string): string {
    if s != "" && IsSpace(s[0]) then TrimLeft(s[1..]) else s
  }

  function TrimRight(s: string): string {
    if s != "" && IsSpace(s[|s| - 1]) then TrimRight(s[..|s| - 1]) else s
  }

  function Trim(s: string): string { TrimRight(TrimLeft(s)) }

  predicate IsTrimmed(s: string) {
    s == "" || (!IsSpace(s[0]) && !IsSpace(s[|s| - 1]))
  }

  lemma {:induction false} TrimLeftSkips(a: string, s: string)
    requires AllSpace(a) && (s == "" || !IsSpace(s[0]))
    ensures TrimLeft(a + s) == s
  {
    if a == "" {
      assert a + s == s;
    } else {
      assert (a + s)[1..] == a[1..] + s;
      TrimLeftSkips(a[1..], s);
    }
  }

  lemma {:induction false} TrimRightSkips(s: string, b: string)
    requires AllSpace(b) && (s == "" || !IsSpace(s[|s| - 1]))
    ensures TrimRight(s + b) == s
  {
    if b == "" {
      assert s + b == s;
    } else {
      var n := |b| - 1;
      assert (s + b)[..|s + b| - 1] == s + b[..n];
      TrimRightSkips(s, b[..n]);
    }
  }

  /** Trimming finds the trimmed text between white space. */
  lemma TrimFinds(a: string, s: string, b: string)
    requires AllSpace(a) && AllSpace(b) && IsTrimmed(s)
    ensures Trim(a + s + b) == s
  {
    if s == "" {
      assert a + s + b == (a + b) + "";
      TrimLeftSkips(a + b, "");
    } else {
      assert a + s + b == a + (s + b);
      TrimLeftSkips(a, s + b);
      TrimRightSkips(s, b);
    }
  }

  lemma {:induction false} TrimLeftParts(s: string) returns (a: string)
    ensures AllSpace(a) && s == a + TrimLeft(s) && (TrimLeft(s) == "" || !IsSpace(TrimLeft(s)[0]))
  {
    a := "";
    if s != "" && IsSpace(s[0]) {
      a := TrimLeftParts(s[1..]);
      a := [s[0]] + a;
    }
  }

  lemma {:induction false} TrimRightParts(s: string) returns (b: string)
    ensures AllSpace(b) && s == TrimRight(s) + b && (TrimRight(s) == "" || !IsSpace(TrimRight(s)[|TrimRight(s)| - 1]))
  {
    b := "";
    if s != "" && IsSpace(s[|s| - 1]) {
      b := TrimRightParts(s[..|s| - 1]);
      b := b + [s[|s| - 1]];
    }
  }

  lemma TrimParts(s: string) returns (a: string, b: string)
    ensures AllSpace(a) && AllSpace(b) && s == a + Trim(s) + b && IsTrimmed(Trim(s))
  {
    a := TrimLeftParts(s);
    b := TrimRightParts(TrimLeft(s));
    var t := TrimLeft(s);
    assert Trim(s) != "" ==> t[0] == Trim(s)[0];
  }

  // Numbers.

  /** The largest integer of 64 bits. */
  const MAX64: int := 0x7fff_ffff_ffff_ffff

  predicate IsDigit(c: char) { '0' <= c <= '9' }

  function Itoa(n: nat): (s: string)
    ensures s != "" && IsDigit(s[0]) && (s[0] == '0' <==> n == 0)
  {
    if n < 10 then ['0' + n as char] else Itoa(n / 10) + ['0' + (n % 10) as char]
  }

  /** The number that decimal digits stand for. */
  function Value(s: string): (n: int) {
    if s == "" then 0
    else 10 * Value(s[..|s| - 1]) + (s[|s| - 1] as int - '0' as int)
  }

  ghost predicate AllDigits(s: string) {
    forall i :: 0 <= i < |s| ==> IsDigit(s[i])
  }

  lemma {:induction false} ValueOfItoa(n: nat)
    ensures Value(Itoa(n)) == n && AllDigits(Itoa(n))
  {
    var s := Itoa(n);
    if n < 10 {
      assert s[..0] == "";
    } else {
      ValueOfItoa(n / 10);
      assert s[..|s| - 1] == Itoa(n / 10);
    }
  }
}
