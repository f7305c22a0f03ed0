/**
 * Python's `str.split('::')` (left to right, non-overlapping) and the
 * extraction of the new instance type as segment 2 of `newSE.id`.
 */
module Segments {
  import opened Wrappers

  const SEPARATOR := "::"

  /** No two adjacent colons anywhere in `s`. */
  predicate NoSeparator(s: string)
  {
    forall i :: 0 <= i < |s| - 1 ==> !(s[i] == ':' && s[i + 1] == ':')
  }

  /** A segment that reads back unchanged when followed by "::": no separator inside, no trailing colon. */
  predicate IsField(s: string)
  {
    NoSeparator(s) && (s == [] || s[|s| - 1] != ':')
  }

  /** `s.split('::')`: cut at the leftmost separator, then split what follows it. */
  function Split(s: string): (parts: seq<string>)
    ensures |parts| >= 1
    ensures parts[0] <= s
  {
    if |s| < 2 then [s]
    else if s[0] == ':' && s[1] == ':' then [""] + Split(s[2..])
    else
      var rest := Split(s[1..]);
      [[s[0]] + rest[0]] + rest[1..]
  }

  /** `'::'.join(parts)`. */
  function Join(parts: seq<string>): string
    requires |parts| >= 1
  {
    if |parts| == 1 then parts[0] else parts[0] + SEPARATOR + Join(parts[1..])
  }

  /** Joining the segments back with "::" gives the original string. */
  lemma {:induction false} JoinSplit(s: string)
    ensures Join(Split(s)) == s
    decreases |s|
  {
    if |s| < 2 {
    } else if s[0] == ':' && s[1] == ':' {
      JoinSplit(s[2..]);
      JoinAfterEmpty(Split(s[2..]));
      assert s == SEPARATOR + s[2..];
    } else {
      JoinSplit(s[1..]);
      JoinExtendHead(s[0], Split(s[1..]));
      assert s == [s[0]] + s[1..];
    }
  }

  lemma {:induction false} JoinAfterEmpty(parts: seq<string>)
    requires |parts| >= 1
    ensures Join([""] + parts) == SEPARATOR + Join(parts)
  {
  }

  lemma {:induction false} JoinExtendHead(c: char, parts: seq<string>)
    requires |parts| >= 1
    ensures Join([[c] + parts[0]] + parts[1..]) == [c] + Join(parts)
  {
    var q := [[c] + parts[0]] + parts[1..];
    assert q[0] == [c] + parts[0];
    if |parts| > 1 {
      assert q[1..] == parts[1..];
      var tail := Join(parts[1..]);
      assert Join(q) == ([c] + parts[0]) + SEPARATOR + tail;
      assert Join(parts) == parts[0] + SEPARATOR + tail;
    } else {
      assert q == [[c] + parts[0]];
    }
  }

  /** No segment contains the separator. */
  lemma {:induction false} SplitSegmentsHaveNoSeparator(s: string)
    ensures forall k :: 0 <= k < |Split(s)| ==> NoSeparator(Split(s)[k])
    decreases |s|
  {
    if |s| < 2 {
    } else if s[0] == ':' && s[1] == ':' {
      SplitSegmentsHaveNoSeparator(s[2..]);
      var parts := [""] + Split(s[2..]);
      forall k | 0 <= k < |parts| ensures NoSeparator(parts[k]) {
        if k > 0 { assert parts[k] == Split(s[2..])[k - 1]; }
      }
    } else {
      var rest := Split(s[1..]);
      SplitSegmentsHaveNoSeparator(s[1..]);
      var head := [s[0]] + rest[0];
      var parts := [head] + rest[1..];
      ExtendedHeadHasNoSeparator(s, rest[0]);
      forall k | 0 <= k < |parts| ensures NoSeparator(parts[k]) {
        if k > 0 { assert parts[k] == rest[k]; }
      }
    }
  }

  /** An empty first segment followed by more means the string starts with the separator. */
  lemma SplitEmptyHead(s: string)
    requires |Split(s)| > 1 && Split(s)[0] == []
    ensures |s| >= 2 && s[0] == ':' && s[1] == ':'
  {
  }

  /** Every segment but the last is a field: it reads back unchanged when followed by "::". */
  lemma {:induction false} SplitSegmentsAreFields(s: string)
    ensures forall k :: 0 <= k < |Split(s)| - 1 ==> IsField(Split(s)[k])
    decreases |s|
  {
    SplitSegmentsHaveNoSeparator(s);
    if |s| < 2 {
    } else if s[0] == ':' && s[1] == ':' {
      SplitSegmentsAreFields(s[2..]);
      var parts := [""] + Split(s[2..]);
      forall k | 0 <= k < |parts| - 1 ensures IsField(parts[k]) {
        if k > 0 { assert parts[k] == Split(s[2..])[k - 1]; }
      }
    } else {
      var rest := Split(s[1..]);
      SplitSegmentsAreFields(s[1..]);
      var parts := [[s[0]] + rest[0]] + rest[1..];
      forall k | 0 <= k < |parts| - 1 ensures IsField(parts[k]) {
        if k > 0 {
          assert parts[k] == rest[k];
        } else {
          assert NoSeparator(parts[0]);
          if rest[0] == [] {
            SplitEmptyHead(s[1..]);
          } else {
            assert parts[0][|parts[0]| - 1] == rest[0][|rest[0]| - 1];
          }
        }
      }
    }
  }

  /** Putting back a first character that does not start a separator keeps the head segment free of separators. */
  lemma ExtendedHeadHasNoSeparator(s: string, head: string)
    requires |s| >= 2 && !(s[0] == ':' && s[1] == ':')
    requires head <= s[1..] && NoSeparator(head)
    ensures NoSeparator([s[0]] + head)
  {
    var h := [s[0]] + head;
    forall i | 0 <= i < |h| - 1 ensures !(h[i] == ':' && h[i + 1] == ':') {
      if i == 0 {
        assert h[1] == head[0] == s[1];
      } else {
        assert h[i] == head[i - 1] && h[i + 1] == head[i];
      }
    }
  }

  lemma {:induction false} SplitSingle(s: string)
    requires NoSeparator(s)
    ensures Split(s) == [s]
    decreases |s|
  {
    if |s| >= 2 {
      assert NoSeparator(s[1..]) by {
        forall i | 0 <= i < |s[1..]| - 1 ensures !(s[1..][i] == ':' && s[1..][i + 1] == ':') {
          assert s[1..][i] == s[i + 1] && s[1..][i + 1] == s[i + 2];
        }
      }
      SplitSingle(s[1..]);
      assert s == [s[0]] + s[1..];
    }
  }

  lemma {:induction false} SplitCons(a: string, rest: string)
    requires IsField(a)
    ensures Split(a + SEPARATOR + rest) == [a] + Split(rest)
    decreases |a|
  {
    var s := a + SEPARATOR + rest;
    if a == [] {
      assert s[2..] == rest;
    } else {
      assert s[0] == a[0];
      assert |a| == 1 ==> s[1] == ':' && a[0] != ':';
      assert |a| >= 2 ==> s[1] == a[1];
      var a' := a[1..];
      assert IsField(a') by {
        forall i | 0 <= i < |a'| - 1 ensures !(a'[i] == ':' && a'[i + 1] == ':') {
          assert a'[i] == a[i + 1] && a'[i + 1] == a[i + 2];
        }
        assert a' != [] ==> a'[|a'| - 1] == a[|a| - 1];
      }
      assert s[1..] == a' + SEPARATOR + rest;
      SplitCons(a', rest);
      assert a == [a[0]] + a';
    }
  }

  /** Splitting a join gives back the segments, when each segment but the last is a field and the last has no separator. */
  lemma {:induction false} SplitJoin(parts: seq<string>)
    requires |parts| >= 1
    requires forall k :: 0 <= k < |parts| - 1 ==> IsField(parts[k])
    requires NoSeparator(parts[|parts| - 1])
    ensures Split(Join(parts)) == parts
    decreases |parts|
  {
    if |parts| == 1 {
      SplitSingle(parts[0]);
    } else {
      SplitJoin(parts[1..]);
      SplitCons(parts[0], Join(parts[1..]));
      assert parts == [parts[0]] + parts[1..];
    }
  }

  /** `newSE['id'].split('::')[2]`; `None` where Python raises IndexError. */
  function NewInstanceType(id: string): Option<string>
  {
    var parts := Split(id);
    if |parts| > 2 then Some(parts[2]) else None
  }

  /** The new instance type is exactly the third "::"-delimited segment, whatever follows it. */
  lemma NewInstanceTypeIsThirdSegment(a: string, b: string, t: string, more: seq<string>)
    requires IsField(a) && IsField(b)
    requires more == [] ==> NoSeparator(t)
    requires more != [] ==> IsField(t) && NoSeparator(more[|more| - 1])
    requires forall k :: 0 <= k < |more| - 1 ==> IsField(more[k])
    ensures NewInstanceType(Join([a, b, t] + more)) == Some(t)
  {
    var parts := [a, b, t] + more;
    WellFormedSegments(parts, more);
    var id := Join(parts);
    SplitJoin(parts);
    assert Split(id) == parts;
    assert parts[2] == t;
  }

  lemma WellFormedSegments(parts: seq<string>, more: seq<string>)
    requires |parts| == 3 + |more| && parts[3..] == more
    requires IsField(parts[0]) && IsField(parts[1])
    requires more == [] ==> NoSeparator(parts[2])
    requires more != [] ==> IsField(parts[2]) && NoSeparator(more[|more| - 1])
    requires forall k :: 0 <= k < |more| - 1 ==> IsField(more[k])
    ensures forall k :: 0 <= k < |parts| - 1 ==> IsField(parts[k])
    ensures NoSeparator(parts[|parts| - 1])
  {
  }

  /** An identifier without any separator has no third segment: the extraction fails. */
  lemma NewInstanceTypeNeedsSeparators(id: string)
    requires NoSeparator(id)
    ensures NewInstanceType(id) == None
  {
    SplitSingle(id);
  }

  /** An identifier with exactly one separator has no third segment either. */
  lemma NewInstanceTypeNeedsTwoSeparators(a: string, b: string)
    requires IsField(a) && NoSeparator(b)
    ensures NewInstanceType(a + SEPARATOR + b) == None
  {
    SplitSingle(b);
    SplitCons(a, b);
  }

  /** "a::b::m1.large" yields "m1.large". */
  lemma NewInstanceTypeExample(id: string)
    requires id == "a::b::m1.large"
    ensures NewInstanceType(id) == Some("m1.large")
  {
    var a, b, t := "a", "b", "m1.large";
    assert IsField(a) && IsField(b) && NoSeparator(t);
    var parts := [a, b, t] + [];
    assert parts == [a, b, t] && parts[1..] == [b, t] && parts[1..][1..] == [t];
    assert Join([t]) == t;
    assert Join([b, t]) == b + SEPARATOR + t;
    assert Join(parts) == a + SEPARATOR + (b + SEPARATOR + t);
    assert id == Join(parts);
    NewInstanceTypeIsThirdSegment(a, b, t, []);
  }
}
