/**
 * The subscription records the client holds and the order it keeps them in:
 * the comparator of client/src/App.js lines 150-152 (and its copy at 155-157),
 * which compares lower-cased `snippet.title`s with JavaScript's `>` on strings
 * (UTF-16 code unit by code unit),
 * and a sort that uses it.
 */
module Subscriptions {

  /** The `contentDetails` part of a subscription resource. */
  datatype ContentDetails = ContentDetails(totalItemCount: int, newItemCount: int, activityType: string)

  /** The `snippet` part of a subscription resource (thumbnails are not modelled). */
  datatype Snippet = Snippet(publishedAt: string, title: string, description: string, channelId: string)

  /** One item of the upstream "list subscriptions" response. */
  datatype Subscription = Subscription(kind: string, etag: string, id: string, snippet: Snippet, contentDetails: ContentDetails)

  predicate IsUpper(c: char) { 'A' <= c <= 'Z' }

  /** `toLowerCase` on one character, restricted to ASCII letters. */
  function LowerChar(c: char): (d: char)
    ensures !IsUpper(d)
    ensures IsUpper(c) ==> d as int == c as int + 32
    ensures !IsUpper(c) ==> d == c
  {
    if IsUpper(c) then (c as int + 32) as char else c
  }

  /** `String.prototype.toLowerCase`, restricted to ASCII letters. */
  function Lower(s: string): (r: string)
    ensures |r| == |s|
    ensures forall i :: 0 <= i < |r| ==> !IsUpper(r[i])
  {
    seq(|s|, i requires 0 <= i < |s| => LowerChar(s[i]))
  }

  /** Lower-casing a lower-cased string changes nothing. */
  lemma LowerIdempotent(s: string)
    ensures Lower(Lower(s)) == Lower(s)
  {
    var l := Lower(s);
    assert forall i :: 0 <= i < |l| ==> Lower(l)[i] == l[i];
  }

  /**
   * The UTF-16 code units of one character, as a JavaScript string stores
   * it: the character itself below U+10000, a surrogate pair above.
   */
  function CodeUnits(c: char): (u: seq<int>)
    ensures 1 <= |u| <= 2
    ensures |u| == 1 <==> c as int < 0x10000
    ensures forall k :: 0 <= k < |u| ==> 0 <= u[k] < 0x10000
  {
    var n := c as int;
    if n < 0x10000 then [n] else [0xD800 + (n - 0x10000) / 0x400, 0xDC00 + (n - 0x10000) % 0x400]
  }

  /**
   * A character above U+FFFF becomes a high surrogate followed by a low one,
   * and the pair decodes back to the character.
   */
  lemma SurrogatePairDecodes(c: char)
    requires c as int >= 0x10000
    ensures var u := CodeUnits(c);
      && 0xD800 <= u[0] < 0xDC00
      && 0xDC00 <= u[1] < 0xE000
      && 0x10000 + (u[0] - 0xD800) * 0x400 + (u[1] - 0xDC00) == c as int
  {
  }

  /** A string as its UTF-16 code units, the units JavaScript compares. */
  function Utf16(s: string): (u: seq<int>)
    ensures |s| <= |u| <= 2 * |s|
    decreases |s|
  {
    if s == [] then [] else CodeUnits(s[0]) + Utf16(s[1..])
  }

  /**
   * `a < b` for JavaScript strings, on their code units: lexicographic, a
   * proper prefix coming first.
   */
  predicate Precedes(a: seq<int>, b: seq<int>)
  {
    if a == [] then b != []
    else if b == [] then false
    else if a[0] != b[0] then a[0] < b[0]
    else Precedes(a[1..], b[1..])
  }

  /**
   * Code-unit order is not code-point order: a character above U+FFFF (an
   * emoji, say) sorts before one in U+E000-U+FFFF, because its high
   * surrogate is smaller.
   */
  lemma SurrogatesSortLow(c: char, d: char)
    requires c as int >= 0x10000 && 0xE000 <= d as int < 0x10000
    ensures Precedes(Utf16([c]), Utf16([d]))
  {
    assert [c][1..] == [] && [d][1..] == [];
    assert Utf16([c]) == CodeUnits(c);
    assert Utf16([d]) == CodeUnits(d);
  }

  lemma {:induction false} PrecedesIrreflexive(a: seq<int>)
    ensures !Precedes(a, a)
  {
    if a != [] {
      PrecedesIrreflexive(a[1..]);
    }
  }

  lemma {:induction false} PrecedesAsymmetric(a: seq<int>, b: seq<int>)
    requires Precedes(a, b)
    ensures !Precedes(b, a)
  {
    if a != [] && b != [] && a[0] == b[0] {
      PrecedesAsymmetric(a[1..], b[1..]);
    }
  }

  lemma {:induction false} PrecedesTransitive(a: seq<int>, b: seq<int>, c: seq<int>)
    requires Precedes(a, b) && Precedes(b, c)
    ensures Precedes(a, c)
  {
    if a != [] && a[0] == b[0] && b[0] == c[0] {
      PrecedesTransitive(a[1..], b[1..], c[1..]);
    }
  }

  /** Two different strings are always ordered one way or the other. */
  lemma {:induction false} PrecedesTotal(a: seq<int>, b: seq<int>)
    requires a != b
    ensures Precedes(a, b) || Precedes(b, a)
  {
    if a != [] && b != [] && a[0] == b[0] {
      assert a == [a[0]] + a[1..] && b == [b[0]] + b[1..];
      PrecedesTotal(a[1..], b[1..]);
    }
  }

  /** "Not after" is transitive: `a <= b` and `b <= c` give `a <= c`. */
  lemma NotAfterTransitive(a: seq<int>, b: seq<int>, c: seq<int>)
    requires !Precedes(b, a) && !Precedes(c, b)
    ensures !Precedes(c, a)
  {
    if Precedes(c, a) {
      if a == b {
      } else if Precedes(a, b) {
        PrecedesTransitive(c, a, b);
      } else {
        PrecedesTotal(a, b);
      }
    }
  }

  /** The code units of `t` lower-cased, computed one character at a time. */
  function LowerUnits(t: string): seq<int>
    decreases |t|
  {
    if t == [] then [] else CodeUnits(LowerChar(t[0])) + LowerUnits(t[1..])
  }

  /** Lower-casing one character at a time and encoding agrees with `Utf16(Lower(t))`. */
  lemma {:induction false} LowerUnitsIsUtf16OfLower(t: string)
    ensures LowerUnits(t) == Utf16(Lower(t))
    decreases |t|
  {
    if t != [] {
      LowerUnitsIsUtf16OfLower(t[1..]);
      var l := Lower(t);
      assert l[0] == LowerChar(t[0]);
      assert l[1..] == Lower(t[1..]);
    }
  }

  /** The sort key: the code units of the lower-cased title. */
  function Key(s: Subscription): seq<int>
  {
    LowerUnits(s.snippet.title)
  }

  /**
   * The comparator handed to `Array.prototype.sort`: 1 when `a`'s key is
   * greater than `b`'s, -1 otherwise (never 0, even for equal keys).
   */
  function Compare(a: Subscription, b: Subscription): (c: int)
    ensures c == 1 || c == -1
    ensures Key(a) == Key(b) ==> c == -1
  {
    PrecedesIrreflexive(Key(b));
    if Precedes(Key(b), Key(a)) then 1 else -1
  }

  /**
   * The comparator never answers 0; on different keys it is antisymmetric and
   * agrees with the key order, and on equal keys it answers -1 both ways.
   */
  lemma CompareCharacterised(a: Subscription, b: Subscription)
    ensures Compare(a, b) == 1 || Compare(a, b) == -1
    ensures Compare(a, b) == 1 <==> Precedes(Key(b), Key(a))
    ensures Key(a) != Key(b) ==> Compare(a, b) == -Compare(b, a)
    ensures Key(a) == Key(b) <==> Compare(a, b) == -1 && Compare(b, a) == -1
  {
    if Key(a) == Key(b) {
      PrecedesIrreflexive(Key(a));
    } else {
      PrecedesTotal(Key(a), Key(b));
      if Precedes(Key(a), Key(b)) {
        PrecedesAsymmetric(Key(a), Key(b));
      } else {
        PrecedesAsymmetric(Key(b), Key(a));
      }
    }
  }

  /** Two titles that differ only in the case of ASCII letters sort as equals. */
  lemma CompareIgnoresCase(a: Subscription, b: Subscription)
    requires |a.snippet.title| == |b.snippet.title|
    requires forall i :: 0 <= i < |a.snippet.title| ==> LowerChar(a.snippet.title[i]) == LowerChar(b.snippet.title[i])
    ensures Compare(a, b) == -1 && Compare(b, a) == -1
  {
    assert Lower(a.snippet.title) == Lower(b.snippet.title);
    LowerUnitsIsUtf16OfLower(a.snippet.title);
    LowerUnitsIsUtf16OfLower(b.snippet.title);
    CompareCharacterised(a, b);
  }

  /**
   * Ordered non-decreasing by lower-cased title: the comparator never says
   * that an earlier element belongs after a later one.
   */
  ghost predicate SortedByTitle(s: seq<Subscription>)
  {
    forall i, j :: 0 <= i < j < |s| ==> Compare(s[i], s[j]) < 0
  }

  /** Every element of `s` may follow `a`. */
  ghost predicate NotAfterAll(a: Subscription, s: seq<Subscription>)
  {
    forall e :: e in s ==> Compare(a, e) < 0
  }

  lemma SortedCons(a: Subscription, s: seq<Subscription>)
    requires NotAfterAll(a, s) && SortedByTitle(s)
    ensures SortedByTitle([a] + s)
  {
    var r := [a] + s;
    forall i, j | 0 <= i < j < |r|
      ensures Compare(r[i], r[j]) < 0
    {
      if i > 0 {
        assert r[i] == s[i - 1] && r[j] == s[j - 1];
      } else {
        assert r[j] == s[j - 1];
        assert r[j] in s;
      }
    }
  }

  /** `x` placed before a sorted `s` whose head it may precede stays sorted. */
  lemma InsertBeforeHead(x: Subscription, s: seq<Subscription>)
    requires SortedByTitle(s) && s != [] && Compare(x, s[0]) < 0
    ensures SortedByTitle([x] + s)
  {
    forall e | e in s
      ensures Compare(x, e) < 0
    {
      var j :| 0 <= j < |s| && s[j] == e;
      if j > 0 {
        NotAfterTransitive(Key(x), Key(s[0]), Key(e));
      }
    }
    SortedCons(x, s);
  }

  /**
   * The head of a sorted `s` that the comparator puts before `x` may precede
   * every element of `rest`, which holds the tail of `s` and `x`.
   */
  lemma HeadBeforeRest(x: Subscription, s: seq<Subscription>, rest: seq<Subscription>)
    requires SortedByTitle(s) && s != [] && Compare(x, s[0]) > 0
    requires multiset(rest) == multiset(s[1..]) + multiset{x}
    ensures NotAfterAll(s[0], rest)
  {
    forall e | e in rest
      ensures Compare(s[0], e) < 0
    {
      assert e in multiset(rest);
      if e == x {
        PrecedesAsymmetric(Key(s[0]), Key(x));
      } else {
        assert e in multiset(s[1..]);
        var j :| 0 <= j < |s[1..]| && s[1..][j] == e;
        assert s[j + 1] == e;
      }
    }
  }

  /** Inserts `x` into a sorted sequence after every element the comparator puts before it. */
  function Insert(x: Subscription, s: seq<Subscription>): (r: seq<Subscription>)
    requires SortedByTitle(s)
    ensures SortedByTitle(r)
    ensures multiset(r) == multiset(s) + multiset{x}
  {
    if s == [] then [x]
    else if Compare(x, s[0]) > 0 then
      var rest := Insert(x, s[1..]);
      HeadBeforeRest(x, s, rest);
      SortedCons(s[0], rest);
      assert s == [s[0]] + s[1..];
      [s[0]] + rest
    else
      InsertBeforeHead(x, s);
      [x] + s
  }

  /**
   * `[...].sort(comparator)`: a permutation of the input ordered
   * non-decreasing by lower-cased title.
   */
  function SortByTitle(s: seq<Subscription>): (r: seq<Subscription>)
    ensures SortedByTitle(r)
    ensures multiset(r) == multiset(s)
    ensures |r| == |s|
  {
    if s == [] then []
    else
      assert s == [s[0]] + s[1..];
      var r := Insert(s[0], SortByTitle(s[1..]));
      assert |r| == |multiset(r)|;
      r
  }
}
