/** The string operations behind the location finders of server/storage.ts:
    `toLowerCase` (on ASCII letters) and `String.prototype.includes`. */
module Text {

  /** Lower-cases an ASCII capital letter and leaves every other character alone. */
  function LowerChar(c: char): char {
    if 'A' <= c <= 'Z' then (c as int + 32) as char else c
  }

  /** `s.toLowerCase()`, restricted to the ASCII letters. */
  function Lower(s: string): (r: string)
    ensures |r| == |s|
    ensures forall i :: 0 <= i < |s| ==> r[i] == LowerChar(s[i])
  {
    if s == [] then [] else [LowerChar(s[0])] + Lower(s[1..])
  }

  /** `s.includes(q)`: `q` is a prefix of `s` or of one of its suffixes. */
  function Includes(s: string, q: string): (r: bool)
    ensures q == [] ==> r
    ensures r ==> |q| <= |s|
  {
    q <= s || (s != [] && Includes(s[1..], q))
  }

  /** `q` occurs in `s` starting at offset `i`. */
  ghost predicate OccursAt(s: string, q: string, i: int) {
    0 <= i <= |s| - |q| && s[i..i + |q|] == q
  }

  /** An occurrence in the tail is an occurrence one further on in the whole. */
  lemma OccursInTail(s: string, q: string, i: int)
    requires s != [] && OccursAt(s[1..], q, i)
    ensures OccursAt(s, q, i + 1)
  {
    assert s[1..][i..i + |q|] == s[i + 1..i + 1 + |q|];
  }

  /** An occurrence past the start of `s` is an occurrence in its tail. */
  lemma OccursPastHead(s: string, q: string, i: int)
    requires s != [] && i > 0 && OccursAt(s, q, i)
    ensures OccursAt(s[1..], q, i - 1)
  {
    assert s[1..][i - 1..i - 1 + |q|] == s[i..i + |q|];
  }

  /** The reference meaning of `includes`: `q` occurs in `s` at some offset. */
  lemma {:induction false} IncludesAt(s: string, q: string)
    ensures Includes(s, q) <==> exists i :: OccursAt(s, q, i)
  {
    if q <= s {
      assert OccursAt(s, q, 0);
    } else if s != [] {
      IncludesAt(s[1..], q);
      if exists i :: OccursAt(s, q, i) {
        var i :| OccursAt(s, q, i);
        if i != 0 {
          OccursPastHead(s, q, i);
        }
      }
      if Includes(s[1..], q) {
        var i :| OccursAt(s[1..], q, i);
        OccursInTail(s, q, i);
      }
    }
  }

  /** The location finders' test: the lower-cased location contains the
      lower-cased query. */
  function LocationMatches(location: string, query: string): bool {
    Includes(Lower(location), Lower(query))
  }

  /** An empty query matches every location; a query matches a location
      exactly when it occurs in it, ignoring the case of ASCII letters. */
  lemma MatchesAt(location: string, query: string)
    ensures LocationMatches(location, [])
    ensures LocationMatches(location, query) ==>
      exists i :: OccursAt(Lower(location), Lower(query), i)
    ensures (exists i :: OccursAt(Lower(location), Lower(query), i)) ==>
      LocationMatches(location, query)
  {
    var s, q := Lower(location), Lower(query);
    IncludesAt(s, q);
    assert LocationMatches(location, query) == Includes(s, q);
    assert Includes(s, q) <==> exists i :: OccursAt(s, q, i);
  }

  /** Lower-casing twice is lower-casing once. */
  lemma LowerIdempotent(s: string)
    ensures Lower(Lower(s)) == Lower(s)
  {
  }

  /** The finders ignore the case of the query. */
  lemma MatchIgnoresQueryCase(location: string, query: string)
    ensures LocationMatches(location, Lower(query)) == LocationMatches(location, query)
  {
    LowerIdempotent(query);
  }
}
