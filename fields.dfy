/** Comma-separated lines of the fit table: joining fields with ',' and
    splitting a line back into its fields. */
module Fields {

  /** The line `f0,f1,...,fn` that `fout << f0 << "," << f1 ...` writes. */
  function JoinFields(fs: seq<string>): (s: string)
    ensures 1 <= |fs| ==> fs[0] <= s
    ensures |fs| - 1 <= |s|
  {
    if |fs| == 0 then ""
    else if |fs| == 1 then fs[0]
    else fs[0] + "," + JoinFields(fs[1..])
  }

  /** The fields of a line, as a reader splitting on every ',' sees them. */
  function SplitFields(s: string): (fs: seq<string>)
    ensures 1 <= |fs|
  {
    if s == [] then [""]
    else
      var rest := SplitFields(s[1..]);
      if s[0] == ',' then [""] + rest
      else [[s[0]] + rest[0]] + rest[1..]
  }

  predicate CommaFree(f: string) {
    forall i :: 0 <= i < |f| ==> f[i] != ','
  }

  /** A comma-free prefix is glued onto the first field of what follows. */
  lemma {:induction false} SplitCommaFreePrefix(a: string, b: string)
    requires CommaFree(a)
    ensures SplitFields(a + b) == [a + SplitFields(b)[0]] + SplitFields(b)[1..]
    decreases |a|
  {
    if a == [] {
      var fs := SplitFields(b);
      assert a + b == b && a + fs[0] == fs[0];
      assert [fs[0]] + fs[1..] == fs;
    } else {
      assert (a + b)[0] == a[0] != ',';
      assert (a + b)[1..] == a[1..] + b;
      SplitCommaFreePrefix(a[1..], b);
      var rest := SplitFields(a[1..] + b);
      assert SplitFields(a + b) == [[a[0]] + rest[0]] + rest[1..];
      assert [a[0]] + (a[1..] + SplitFields(b)[0]) == a + SplitFields(b)[0];
    }
  }

  /** Splitting a joined line gives back its fields, provided none contains a comma. */
  lemma {:induction false} SplitJoin(fs: seq<string>)
    requires 1 <= |fs|
    requires forall i :: 0 <= i < |fs| ==> CommaFree(fs[i])
    ensures SplitFields(JoinFields(fs)) == fs
    decreases |fs|
  {
    if |fs| == 1 {
      SplitCommaFreePrefix(fs[0], "");
      assert fs[0] + "" == fs[0];
    } else {
      var tail := "," + JoinFields(fs[1..]);
      assert JoinFields(fs) == fs[0] + tail;
      SplitCommaFreePrefix(fs[0], tail);
      SplitJoin(fs[1..]);
      assert tail[1..] == JoinFields(fs[1..]);
      assert SplitFields(tail) == [""] + fs[1..];
      assert fs[0] + "" == fs[0];
      assert [fs[0]] + fs[1..] == fs;
    }
  }
}
