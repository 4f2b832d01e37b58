/**
 The bytes fed to SHA-256: every part followed by one NUL byte. The digest
 itself is a parameter; what is proved here is that framing loses nothing.
 */
module Framing {
  import opened Text

  function Frame(parts: seq<string>): string {
    if parts == [] then "" else parts[0] + [NUL] + Frame(parts[1..])
  }

  lemma {:induction false} FrameSnoc(parts: seq<string>, part: string)
    ensures Frame(parts + [part]) == Frame(parts) + part + [NUL]
  {
    if parts == [] {
      assert parts + [part] == [part];
    } else {
      assert (parts + [part])[1..] == parts[1..] + [part];
      FrameSnoc(parts[1..], part);
    }
  }

  method Hash(parts: seq<string>, digest: string -> string) returns (sum: string)
    ensures sum == digest(Frame(parts))
  {
    var written := "";
    for i := 0 to |parts|
      invariant written == Frame(parts[..i])
    {
      FrameSnoc(parts[..i], parts[i]);
      assert parts[..i + 1] == parts[..i] + [parts[i]];
      written := written + parts[i];
      written := written + [NUL];
    }
    assert parts[..|parts|] == parts;
    sum := digest(written);
  }

  ghost predicate AllNulFree(parts: seq<string>) {
    forall i :: 0 <= i < |parts| ==> NulFree(parts[i])
  }

  // Lists of NUL-free parts of any lengths can be read back from their framing.
  lemma {:induction false} FrameInjective(xs: seq<string>, ys: seq<string>)
    requires AllNulFree(xs) && AllNulFree(ys)
    requires Frame(xs) == Frame(ys)
    ensures xs == ys
  {
    if xs == [] || ys == [] {
    } else {
      var f := Frame(xs);
      var x, y := xs[0], ys[0];
      assert f == x + [NUL] + Frame(xs[1..]) == y + [NUL] + Frame(ys[1..]);
      assert f[|x|] == NUL && f[|y|] == NUL;
      assert |x| == |y|;
      assert f[..|x|] == x && f[..|y|] == y;
      assert f[|x| + 1..] == Frame(xs[1..]) && f[|y| + 1..] == Frame(ys[1..]);
      FrameInjective(xs[1..], ys[1..]);
      assert xs == [x] + xs[1..] && ys == [y] + ys[1..];
    }
  }

  // Without the NUL-free condition two different lists share one preimage.
  lemma FramingNeedsNulFreeParts()
    ensures ["a" + [NUL] + "b"] != ["a", "b"]
    ensures Frame(["a" + [NUL] + "b"]) == Frame(["a", "b"])
  {
    var one, two := ["a" + [NUL] + "b"], ["a", "b"];
    assert |one| != |two|;
    assert one[1..] == [] && two[1..] == ["b"] && two[1..][1..] == [];
    assert Frame(["b"]) == "b" + [NUL];
  }
}
