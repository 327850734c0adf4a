/** JavaScript string operations the services lean on: `split`, template joins, and prefixes. */
module Text {

  datatype Option<+T> = None | Some(value: T)

  /** `s.split(c)`: at least one part, and no part contains the separator. */
  function Split(s: string, c: char): (parts: seq<string>)
    ensures |parts| >= 1
    ensures forall p :: p in parts ==> c !in p
  {
    if s == [] then [""]
    else
      var rest := Split(s[1..], c);
      if s[0] == c then [""] + rest else [[s[0]] + rest[0]] + rest[1..]
  }

  /** The parts written one after the other with the separator between them. */
  function Join(parts: seq<string>, c: char): string
  {
    if parts == [] then ""
    else if |parts| == 1 then parts[0]
    else parts[0] + [c] + Join(parts[1..], c)
  }

  lemma {:induction false} SplitOfPart(p: string, c: char)
    requires c !in p
    ensures Split(p, c) == [p]
  {
    if p != [] {
      SplitOfPart(p[1..], c);
      assert p[0] in p && [p[0]] + p[1..] == p;
    }
  }

  lemma {:induction false} SplitAfterPart(p: string, c: char, rest: string)
    requires c !in p
    ensures Split(p + [c] + rest, c) == [p] + Split(rest, c)
  {
    if p == [] {
      assert p + [c] + rest == [c] + rest;
    } else {
      var s := p + [c] + rest;
      assert s[1..] == p[1..] + [c] + rest;
      SplitAfterPart(p[1..], c, rest);
      assert s[0] == p[0] && p[0] in p && [p[0]] + p[1..] == p;
    }
  }

  lemma SplitThree(x: string, y: string, z: string, c: char)
    requires c !in x && c !in y && c !in z
    ensures Split(x + [c] + y + [c] + z, c) == [x, y, z]
  {
    assert x + [c] + y + [c] + z == x + [c] + (y + [c] + z);
    SplitAfterPart(x, c, y + [c] + z);
    SplitAfterPart(y, c, z);
    SplitOfPart(z, c);
  }

  /** Splitting undoes joining exactly when no part contains the separator. */
  lemma {:induction false} SplitOfJoin(parts: seq<string>, c: char)
    requires |parts| >= 1
    ensures Split(Join(parts, c), c) == parts <==> (forall p :: p in parts ==> c !in p)
  {
    if forall p :: p in parts ==> c !in p {
      if |parts| == 1 {
        SplitOfPart(parts[0], c);
      } else {
        SplitOfJoin(parts[1..], c);
        SplitAfterPart(parts[0], c, Join(parts[1..], c));
      }
    }
  }

  /** Joining undoes splitting. */
  lemma {:induction false} JoinOfSplit(s: string, c: char)
    ensures Join(Split(s, c), c) == s
  {
    if s != [] {
      JoinOfSplit(s[1..], c);
      var rest := Split(s[1..], c);
      assert s == [s[0]] + s[1..];
      assert Split(s, c)[1..] == if s[0] == c then rest else rest[1..];
    }
  }

  /** Two separator-free prefixes before the first separator can be read back. */
  lemma PrefixInjective(a: string, b: string, c: char, x: string, y: string)
    requires c !in a && c !in b
    requires a + [c] + x == b + [c] + y
    ensures a == b && x == y
  {
    SplitAfterPart(a, c, x);
    SplitAfterPart(b, c, y);
    assert ([a] + Split(x, c))[0] == ([b] + Split(y, c))[0];
    assert x == (a + [c] + x)[|a| + 1..] == y;
  }

  predicate StartsWith(s: string, p: string) {
    p <= s
  }

  predicate EndsWith(s: string, suffix: string) {
    |suffix| <= |s| && s[|s| - |suffix|..] == suffix
  }

  /** An optional string as a JavaScript condition reads it: absent and "" are both falsy. */
  function Truthy(o: Option<string>): (r: Option<string>)
  {
    if o == Some("") then None else o
  }
}
