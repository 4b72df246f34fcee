/** String operations of the JavaScript runtime that the pages rely on:
    the `\s` character class, `String.prototype.split` on one character,
    `replace` of the first occurrence of a character, `replace(/\s+/g, ...)`
    and `length`, which counts UTF-16 code units. */
module Text {

  /** The characters the JavaScript class `\s` matches (ECMAScript WhiteSpace and LineTerminator). */
  predicate IsSpace(c: char) {
    c == ' ' || c == '\t' || c == '\n' || c == '\r' || c == '\U{000B}' || c == '\U{000C}'
    || c == '\U{00A0}' || c == '\U{1680}' || ('\U{2000}' <= c <= '\U{200A}')
    || c == '\U{2028}' || c == '\U{2029}' || c == '\U{202F}' || c == '\U{205F}'
    || c == '\U{3000}' || c == '\U{FEFF}'
  }

  predicate NoSpace(s: string) {
    forall i :: 0 <= i < |s| ==> !IsSpace(s[i])
  }

  predicate AllSpace(s: string) {
    forall i :: 0 <= i < |s| ==> IsSpace(s[i])
  }

  // ---------------------------------------------------------------------------
  // length

  /** `s.length` in JavaScript: characters outside the Basic Multilingual Plane take two code units. */
  function JsLength(s: string): (n: nat)
    ensures |s| <= n <= 2 * |s|
  {
    if s == [] then 0 else (if s[0] as int > 0xFFFF then 2 else 1) + JsLength(s[1..])
  }

  // ---------------------------------------------------------------------------
  // first occurrence, split and join

  /** The position of the first occurrence of `c` (counted in characters), or -1; it locates where `replace(' ', …)` acts. */
  function IndexOf(s: string, c: char): (k: int)
    ensures -1 <= k < |s|
    ensures k == -1 <==> c !in s
    ensures 0 <= k ==> s[k] == c && c !in s[..k]
  {
    if s == [] then -1
    else if s[0] == c then 0
    else var k := IndexOf(s[1..], c); if k == -1 then -1 else k + 1
  }

  /** `s.split(sep)` for a one-character separator; never empty. */
  function Split(s: string, sep: char): (parts: seq<string>)
    ensures |parts| >= 1
  {
    if s == [] then [[]]
    else if s[0] == sep then [[]] + Split(s[1..], sep)
    else var rest := Split(s[1..], sep); [[s[0]] + rest[0]] + rest[1..]
  }

  /** `parts.join(sep)` for a one-character separator. */
  function Join(parts: seq<string>, sep: char): string
    requires |parts| >= 1
  {
    if |parts| == 1 then parts[0] else parts[0] + [sep] + Join(parts[1..], sep)
  }

  /** Splitting and joining again gives back the original string. */
  lemma {:induction false} JoinSplit(s: string, sep: char)
    ensures Join(Split(s, sep), sep) == s
  {
    if s != [] {
      JoinSplit(s[1..], sep);
      var rest := Split(s[1..], sep);
      if s[0] != sep {
        if |rest| > 1 {
          assert ([[s[0]] + rest[0]] + rest[1..])[1..] == rest[1..];
        }
      }
    }
  }

  /** No part of a split holds the separator. */
  lemma {:induction false} SplitPartsLackSeparator(s: string, sep: char)
    ensures forall k :: 0 <= k < |Split(s, sep)| ==> sep !in Split(s, sep)[k]
  {
    if s != [] {
      SplitPartsLackSeparator(s[1..], sep);
    }
  }

  /** The first part of a split is the text before the first separator, or everything. */
  lemma {:induction false} SplitFirstPart(s: string, sep: char)
    ensures Split(s, sep)[0] == (if IndexOf(s, sep) == -1 then s else s[..IndexOf(s, sep)])
  {
    if s != [] && s[0] != sep {
      SplitFirstPart(s[1..], sep);
    }
  }

  // ---------------------------------------------------------------------------
  // replace(' ', '+'): only the first occurrence

  function ReplaceFirst(s: string, c: char, rep: char): (r: string)
    ensures |r| == |s|
  {
    if s == [] then []
    else if s[0] == c then [rep] + s[1..]
    else [s[0]] + ReplaceFirst(s[1..], c, rep)
  }

  /** Only the first occurrence is replaced; the rest of the string is kept. */
  lemma {:induction false} ReplaceFirstAt(s: string, c: char, rep: char)
    ensures ReplaceFirst(s, c, rep) ==
      (if IndexOf(s, c) == -1 then s else s[..IndexOf(s, c)] + [rep] + s[IndexOf(s, c) + 1..])
  {
    if s != [] && s[0] != c {
      ReplaceFirstAt(s[1..], c, rep);
      var k := IndexOf(s[1..], c);
      if k != -1 {
        assert s[..k + 1] == [s[0]] + s[1..][..k];
        assert s[k + 2..] == s[1..][k + 1..];
      }
    }
  }

  // ---------------------------------------------------------------------------
  // replace(/\s+/g, rep): every maximal whitespace run becomes one `rep`

  /** The string without its leading whitespace. */
  function DropSpaces(s: string): (r: string)
    ensures |r| <= |s|
    ensures r == [] || !IsSpace(r[0])
  {
    if s != [] && IsSpace(s[0]) then DropSpaces(s[1..]) else s
  }

  function CollapseSpaces(s: string, rep: char): (r: string)
    decreases |s|
  {
    if s == [] then []
    else if IsSpace(s[0]) then [rep] + CollapseSpaces(DropSpaces(s[1..]), rep)
    else [s[0]] + CollapseSpaces(s[1..], rep)
  }

  /** With a replacement that is not itself whitespace, the result holds no whitespace. */
  lemma {:induction false} CollapseSpacesHasNoSpace(s: string, rep: char)
    requires !IsSpace(rep)
    ensures NoSpace(CollapseSpaces(s, rep))
    decreases |s|
  {
    if s != [] {
      if IsSpace(s[0]) {
        CollapseSpacesHasNoSpace(DropSpaces(s[1..]), rep);
      } else {
        CollapseSpacesHasNoSpace(s[1..], rep);
      }
    }
  }

  /** Text without whitespace passes unchanged, and so does the text before the first run. */
  lemma {:induction false} CollapseSpacesKeepsWord(a: string, rest: string, rep: char)
    requires NoSpace(a)
    ensures CollapseSpaces(a + rest, rep) == a + CollapseSpaces(rest, rep)
  {
    if a != [] {
      assert (a + rest)[0] == a[0] && !IsSpace(a[0]);
      assert (a + rest)[1..] == a[1..] + rest;
      CollapseSpacesKeepsWord(a[1..], rest, rep);
      assert a == [a[0]] + a[1..];
    } else {
      assert a + rest == rest;
    }
  }

  lemma {:induction false} DropSpacesOfRun(sp: string, b: string)
    requires AllSpace(sp)
    requires b == [] || !IsSpace(b[0])
    ensures DropSpaces(sp + b) == b
  {
    if sp != [] {
      assert (sp + b)[1..] == sp[1..] + b;
      DropSpacesOfRun(sp[1..], b);
    }
  }

  /** A maximal run of whitespace between a word `a` and the rest `b` becomes a single `rep`. */
  lemma CollapseSpacesRun(a: string, sp: string, b: string, rep: char)
    requires NoSpace(a) && sp != [] && AllSpace(sp)
    requires b == [] || !IsSpace(b[0])
    ensures CollapseSpaces(a + sp + b, rep) == a + [rep] + CollapseSpaces(b, rep)
  {
    assert a + sp + b == a + (sp + b);
    CollapseSpacesKeepsWord(a, sp + b, rep);
    assert (sp + b)[1..] == sp[1..] + b;
    DropSpacesOfRun(sp[1..], b);
  }

  /** Collapsing is idempotent when the replacement is not whitespace. */
  lemma CollapseSpacesIdempotent(s: string, rep: char)
    requires !IsSpace(rep)
    ensures CollapseSpaces(CollapseSpaces(s, rep), rep) == CollapseSpaces(s, rep)
  {
    var r := CollapseSpaces(s, rep);
    CollapseSpacesHasNoSpace(s, rep);
    CollapseSpacesKeepsWord(r, [], rep);
    assert r + [] == r;
  }
}
