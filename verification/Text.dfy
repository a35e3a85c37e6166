/** String primitives of the source language that the chunker relies on: white space,
    `strip`, `rstrip` and `join`. */
module Text {

  // str.isspace() and the \s class of a text pattern agree on these code points.
  predicate IsSpace(c: char) {
    var code := c as int;
    || 0x09 <= code <= 0x0D
    || 0x1C <= code <= 0x20
    || code == 0x85 || code == 0xA0 || code == 0x1680
    || 0x2000 <= code <= 0x200A
    || code == 0x2028 || code == 0x2029 || code == 0x202F || code == 0x205F || code == 0x3000
  }

  predicate Blank(s: string) {
    forall i :: 0 <= i < |s| ==> IsSpace(s[i])
  }

  function LStrip(s: string): string {
    if s != "" && IsSpace(s[0]) then LStrip(s[1..]) else s
  }

  function RStrip(s: string): string {
    if s != "" && IsSpace(s[|s| - 1]) then RStrip(s[..|s| - 1]) else s
  }

  function Strip(s: string): string {
    RStrip(LStrip(s))
  }

  function Flatten(ss: seq<string>): string {
    if ss == [] then "" else ss[0] + Flatten(ss[1..])
  }

  function Join(sep: string, parts: seq<string>): string {
    if parts == [] then ""
    else if |parts| == 1 then parts[0]
    else parts[0] + sep + Join(sep, parts[1..])
  }

  /** What is left of a text once white space is dropped: the measure of "nothing lost". */
  function NonSpace(s: string): string {
    if s == "" then ""
    else if IsSpace(s[0]) then NonSpace(s[1..])
    else [s[0]] + NonSpace(s[1..])
  }

  lemma {:induction false} NonSpaceConcat(a: string, b: string)
    ensures NonSpace(a + b) == NonSpace(a) + NonSpace(b)
  {
    if a == "" {
      assert a + b == b;
    } else {
      assert (a + b)[1..] == a[1..] + b;
      NonSpaceConcat(a[1..], b);
    }
  }

  lemma {:induction false} NonSpaceBlank(s: string)
    ensures Blank(s) <==> NonSpace(s) == ""
  {
    if s != "" {
      NonSpaceBlank(s[1..]);
      assert s == [s[0]] + s[1..];
      if Blank(s) {
        assert forall i :: 0 <= i < |s[1..]| ==> s[1..][i] == s[i + 1];
      }
      if NonSpace(s) == "" {
        assert IsSpace(s[0]);
        assert forall i :: 0 < i < |s| ==> s[i] == s[1..][i - 1];
      }
    }
  }

  lemma {:induction false} LStripSlice(s: string)
    ensures |LStrip(s)| <= |s| && LStrip(s) == s[|s| - |LStrip(s)|..]
  {
    if s != "" && IsSpace(s[0]) {
      LStripSlice(s[1..]);
    }
  }

  lemma {:induction false} RStripSlice(s: string)
    ensures |RStrip(s)| <= |s| && RStrip(s) == s[..|RStrip(s)|]
  {
    if s != "" && IsSpace(s[|s| - 1]) {
      RStripSlice(s[..|s| - 1]);
    }
  }

  lemma {:induction false} NonSpaceLStrip(s: string)
    ensures NonSpace(LStrip(s)) == NonSpace(s)
    ensures LStrip(s) == "" || !IsSpace(LStrip(s)[0])
  {
    if s != "" && IsSpace(s[0]) {
      NonSpaceLStrip(s[1..]);
    }
  }

  lemma {:induction false} NonSpaceRStrip(s: string)
    ensures NonSpace(RStrip(s)) == NonSpace(s)
    ensures RStrip(s) == "" || !IsSpace(RStrip(s)[|RStrip(s)| - 1])
  {
    if s != "" && IsSpace(s[|s| - 1]) {
      var init, last := s[..|s| - 1], s[|s| - 1..];
      NonSpaceRStrip(init);
      assert s == init + last;
      NonSpaceConcat(init, last);
      assert last[1..] == "";
    }
  }

  lemma NonSpaceStrip(s: string)
    ensures NonSpace(Strip(s)) == NonSpace(s)
  {
    NonSpaceLStrip(s);
    NonSpaceRStrip(LStrip(s));
  }

  lemma StripEmpty(s: string)
    ensures Strip(s) == "" <==> Blank(s)
  {
    NonSpaceStrip(s);
    NonSpaceBlank(s);
    NonSpaceLStrip(s);
    NonSpaceRStrip(LStrip(s));
    if Strip(s) != "" {
      var r := Strip(s);
      NonSpaceBlank(r);
      assert !IsSpace(r[|r| - 1]);
    }
  }

  lemma {:induction false} FlattenConcat(a: seq<string>, b: seq<string>)
    ensures Flatten(a + b) == Flatten(a) + Flatten(b)
  {
    if a == [] {
      assert a + b == b;
    } else {
      assert (a + b)[1..] == a[1..] + b;
      FlattenConcat(a[1..], b);
    }
  }

  lemma FlattenSnoc(a: seq<string>, s: string)
    ensures Flatten(a + [s]) == Flatten(a) + s
  {
    FlattenConcat(a, [s]);
    assert Flatten([s]) == s + Flatten([]);
  }

  lemma FlattenOne(s: string)
    ensures Flatten([s]) == s
  {
    assert [s][1..] == [];
  }

  lemma FlattenSnocBack(a: seq<string>)
    requires a != []
    ensures Flatten(a) == Flatten(a[..|a| - 1]) + a[|a| - 1]
  {
    assert a == a[..|a| - 1] + [a[|a| - 1]];
    FlattenSnoc(a[..|a| - 1], a[|a| - 1]);
  }

  /** A blank separator adds nothing but white space. */
  lemma {:induction false} NonSpaceJoin(sep: string, parts: seq<string>)
    requires Blank(sep)
    ensures NonSpace(Join(sep, parts)) == NonSpace(Flatten(parts))
  {
    if parts == [] {
    } else if |parts| == 1 {
      assert parts[1..] == [];
      assert Flatten(parts) == parts[0];
    } else {
      NonSpaceJoin(sep, parts[1..]);
      NonSpaceBlank(sep);
      NonSpaceConcat(parts[0] + sep, Join(sep, parts[1..]));
      NonSpaceConcat(parts[0], sep);
      NonSpaceConcat(parts[0], Flatten(parts[1..]));
    }
  }

  lemma {:induction false} JoinConcat(sep: string, a: seq<string>, b: seq<string>)
    requires a != [] && b != []
    ensures Join(sep, a + b) == Join(sep, a) + sep + Join(sep, b)
  {
    if |a| == 1 {
      assert (a + b)[1..] == b;
    } else {
      assert (a + b)[1..] == a[1..] + b;
      JoinConcat(sep, a[1..], b);
    }
  }
}
