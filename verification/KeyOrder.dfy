/** The order by which keys are sorted. */
module KeyOrder {
  import opened MapReduce

  // a and b agree up to i, where a ends or has the smaller character.
  predicate DiffersAt(a: string, b: string, i: nat) {
    i <= |a| && i < |b| && a[..i] == b[..i] && (i == |a| || a[i] < b[i])
  }

  lemma {:induction false} LessDiffers(a: string, b: string) returns (i: nat)
    requires Less(a, b)
    ensures DiffersAt(a, b, i)
  {
    i := 0;
    if a != "" && a[0] == b[0] {
      i := LessDiffers(a[1..], b[1..]);
      assert a[..i + 1] == [a[0]] + a[1..][..i] && b[..i + 1] == [b[0]] + b[1..][..i];
      i := i + 1;
    }
  }

  lemma {:induction false} DiffersLess(a: string, b: string, i: nat)
    requires DiffersAt(a, b, i)
    ensures Less(a, b)
  {
    if i > 0 {
      assert a[..i][0] == b[..i][0];
      assert a[1..][..i - 1] == a[..i][1..] && b[1..][..i - 1] == b[..i][1..];
      DiffersLess(a[1..], b[1..], i - 1);
    }
  }

  // The order of keys is the lexicographic one.
  lemma LessMeans(a: string, b: string)
    ensures Less(a, b) <==> exists i: nat :: DiffersAt(a, b, i)
  {
    if Less(a, b) { var i := LessDiffers(a, b); }
    forall i: nat | DiffersAt(a, b, i) ensures Less(a, b) { DiffersLess(a, b, i); }
  }
}
