/** URL paths as '/'-separated segments: the endpoint paths are built by
    joining fixed segments with caller-supplied ones, and splitting a path
    back gives the caller's segments exactly when none of them holds a '/'. */
module Paths {
  /** The '/'-separated segments of a path; a leading '/' gives an empty first segment. */
  function Split(s: string): (parts: seq<string>)
    ensures |parts| >= 1
    ensures '/' !in s ==> parts == [s]
  {
    if s == [] then [""]
    else
      var rest := Split(s[1..]);
      if s[0] == '/' then [""] + rest
      else
        assert s == [s[0]] + s[1..];
        [[s[0]] + rest[0]] + rest[1..]
  }

  /** The segments written out with a '/' between neighbours. */
  function Join(parts: seq<string>): (s: string)
    requires |parts| >= 1
  {
    if |parts| == 1 then parts[0] else parts[0] + "/" + Join(parts[1..])
  }

  predicate NoSlash(parts: seq<string>) {
    forall i | 0 <= i < |parts| :: '/' !in parts[i]
  }

  lemma {:induction false} SplitAfterSegment(a: string, b: string)
    requires '/' !in a
    ensures Split(a + "/" + b) == [a] + Split(b)
  {
    if a != [] {
      assert (a + "/" + b)[1..] == a[1..] + "/" + b;
      SplitAfterSegment(a[1..], b);
      assert a == [a[0]] + a[1..];
    } else {
      assert a + "/" + b == "/" + b;
    }
  }

  /** Splitting undoes joining segments that hold no '/'. */
  lemma {:induction false} SplitJoin(parts: seq<string>)
    requires |parts| >= 1 && NoSlash(parts)
    ensures Split(Join(parts)) == parts
  {
    if |parts| > 1 {
      SplitJoin(parts[1..]);
      SplitAfterSegment(parts[0], Join(parts[1..]));
    }
  }

  /** The segments of a path built by joining: the joined ones, when none holds a '/'. */
  lemma Segments(path: string, parts: seq<string>)
    requires |parts| >= 1 && Join(parts) == path
    ensures NoSlash(parts) ==> Split(path) == parts
  {
    if NoSlash(parts) {
      SplitJoin(parts);
    }
  }
}
