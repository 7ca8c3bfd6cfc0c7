/** List comprehensions over strings that keep the non-empty images. */
module Comprehension {
  /** `[f(x) for x in parts if f(x)]` */
  function NonEmptyImages(parts: seq<string>, f: string -> string): (r: seq<string>)
    ensures |r| <= |parts|
  {
    if parts == [] then []
    else if f(parts[0]) == "" then NonEmptyImages(parts[1..], f)
    else [f(parts[0])] + NonEmptyImages(parts[1..], f)
  }

  /** Every kept image is non-empty and is the image of one of the parts. */
  lemma {:induction false} NonEmptyImagesFrom(parts: seq<string>, f: string -> string, k: nat) returns (i: nat)
    requires k < |NonEmptyImages(parts, f)|
    ensures i < |parts| && NonEmptyImages(parts, f)[k] == f(parts[i]) != ""
  {
    if f(parts[0]) != "" && k == 0 {
      i := 0;
    } else {
      var j := NonEmptyImagesFrom(parts[1..], f, if f(parts[0]) == "" then k else k - 1);
      assert parts[1..][j] == parts[j + 1];
      i := j + 1;
    }
  }

  /** Every part with a non-empty image has its image kept. */
  lemma {:induction false} NonEmptyImagesKeep(parts: seq<string>, f: string -> string, i: nat)
    requires i < |parts| && f(parts[i]) != ""
    ensures f(parts[i]) in NonEmptyImages(parts, f)
  {
    if i > 0 {
      assert parts[1..][i - 1] == parts[i];
      NonEmptyImagesKeep(parts[1..], f, i - 1);
    }
  }

  /** The comprehension over a concatenation is the concatenation of the comprehensions. */
  lemma {:induction false} NonEmptyImagesAppend(a: seq<string>, b: seq<string>, f: string -> string)
    ensures NonEmptyImages(a + b, f) == NonEmptyImages(a, f) + NonEmptyImages(b, f)
  {
    if a == [] {
      assert a + b == b;
    } else {
      assert (a + b)[0] == a[0] && (a + b)[1..] == a[1..] + b;
      NonEmptyImagesAppend(a[1..], b, f);
    }
  }
}
