/**
 * Go's `strings.Split` with a one-character separator, as the handlers use it to cut a
 * passport string into series and number.
 */
module GoStrings {

  /**
   * `strings.Split(s, string(sep))`: the pieces between separators, in order. There is always
   * at least one piece; the empty string gives `[""]`, and adjacent separators give empty pieces.
   */
  function Split(s: string, sep: char): (parts: seq<string>)
    ensures |parts| >= 1
    ensures forall i :: 0 <= i < |parts| ==> sep !in parts[i]
    decreases |s|
  {
    if s == [] then [""]
    else
      var rest := Split(s[1..], sep);
      if s[0] == sep then [""] + rest
      else [[s[0]] + rest[0]] + rest[1..]
  }

  /** `strings.Join(parts, string(sep))`. */
  function Join(parts: seq<string>, sep: char): (s: string)
    requires |parts| >= 1
    ensures |parts[0]| <= |s| && s[..|parts[0]|] == parts[0]
    ensures |parts| == 1 <==> |s| == |parts[0]|
    ensures |parts| > 1 ==> s[|parts[0]|] == sep
    decreases |parts|
  {
    if |parts| == 1 then parts[0] else parts[0] + [sep] + Join(parts[1..], sep)
  }

  /**
   * The first piece is the longest prefix without a separator; when the string goes on, a
   * separator follows it and the remaining pieces are the split of what comes after.
   */
  lemma {:induction false} SplitFirst(s: string, sep: char)
    ensures var parts := Split(s, sep);
            var k := |parts[0]|;
            && k <= |s| && parts[0] == s[..k]
            && (k == |s| ==> parts == [s])
            && (k < |s| ==> s[k] == sep && parts[1..] == Split(s[k + 1..], sep))
    decreases |s|
  {
    if s != [] && s[0] != sep {
      var rest := Split(s[1..], sep);
      SplitFirst(s[1..], sep);
      var k' := |rest[0]|;
      assert s == [s[0]] + s[1..];
      if k' < |s[1..]| {
        assert s[k' + 2..] == s[1..][k' + 1..];
      }
    }
  }

  /** A separator at `k` with none before it ends the first piece there. */
  lemma SplitAt(s: string, sep: char, k: int)
    requires 0 <= k < |s| && s[k] == sep && sep !in s[..k]
    ensures Split(s, sep) == [s[..k]] + Split(s[k + 1..], sep)
  {
    SplitFirst(s, sep);
    var parts := Split(s, sep);
    assert parts == [parts[0]] + parts[1..];
  }

  /** A string without a separator is a single piece. */
  lemma SplitNone(s: string, sep: char)
    requires sep !in s
    ensures Split(s, sep) == [s]
  {
    SplitFirst(s, sep);
    var parts := Split(s, sep);
    if |parts[0]| < |s| {
      assert s[|parts[0]|] in s;
    }
  }

  /** Joining the pieces with the separator gives back the string. */
  lemma {:induction false} JoinSplit(s: string, sep: char)
    ensures Join(Split(s, sep), sep) == s
    decreases |s|
  {
    var parts := Split(s, sep);
    SplitFirst(s, sep);
    var k := |parts[0]|;
    if k < |s| {
      JoinSplit(s[k + 1..], sep);
      assert parts[1..] == Split(s[k + 1..], sep);
      assert s == s[..k] + [sep] + s[k + 1..];
    }
  }

  /** Splitting a join of separator-free pieces gives back the pieces. */
  lemma {:induction false} SplitJoin(parts: seq<string>, sep: char)
    requires |parts| >= 1
    requires forall i :: 0 <= i < |parts| ==> sep !in parts[i]
    ensures Split(Join(parts, sep), sep) == parts
    decreases |parts|
  {
    var s := Join(parts, sep);
    var p := parts[0];
    SplitFirst(s, sep);
    var q := Split(s, sep);
    var k := |q[0]|;
    if |parts| == 1 {
      assert s == p;
    } else {
      var tail := Join(parts[1..], sep);
      assert s == p + [sep] + tail;
      assert s[|p|] == sep;
      assert k == |p| && q[0] == p;
      assert s[k + 1..] == tail;
      SplitJoin(parts[1..], sep);
      assert q == [q[0]] + q[1..];
    }
  }
}
