/** ParseSubscribeTiers (params.go): the preset amounts of a comma-separated text. */
module SubscribeTiers {
  import opened Arith
  import opened Sums
  import opened Text

  /** A piece of the text: blank, a decimal, or neither.  Equal amounts have equal
      canonical text. */
  datatype Part = Empty | Amount(value: int) | Garbage

  ghost predicate Acceptable(parts: seq<Part>)
  {
    forall x :: x in parts ==> x.Empty? || (x.Amount? && x.value > 0)
  }

  function Amounts(parts: seq<Part>): set<int>
  {
    set x | x in parts && x.Amount? :: x.value
  }

  function Members(s: seq<int>): set<int>
  {
    set x | x in s
  }

  lemma SomeMember(s: seq<int>)
    ensures s != [] ==> s[0] in Members(s)
    ensures s == [] ==> Members(s) == {}
  {
  }

  /** An ascending listing is determined by its members: the result does not depend on the order
      or the repetitions of the text. */
  lemma {:induction false} AscendingUnique(a: seq<int>, b: seq<int>)
    requires Ascending(a) && Ascending(b) && Members(a) == Members(b)
    ensures a == b
    decreases |a|
  {
    assert forall x :: x in a <==> x in Members(a);
    assert forall x :: x in b <==> x in Members(b);
    SomeMember(a);
    SomeMember(b);
    if a != [] {
      assert a[0] in b && b[0] in a;
      assert a[0] == b[0];
      var ra, rb := a[1..], b[1..];
      assert a == [a[0]] + ra && b == [b[0]] + rb;
      forall x
        ensures x in ra <==> x in rb
      {
        assert x in ra ==> x in a && x != a[0];
        assert x in rb ==> x in b && x != b[0];
        assert x in a && x != a[0] ==> x in ra;
        assert x in b && x != b[0] ==> x in rb;
      }
      assert Members(ra) == Members(rb);
      AscendingUnique(ra, rb);
    }
  }

  /** How a trimmed piece reads; read is decimal.NewFromString. */
  function PartOf(piece: string, read: string -> Option<int>): Part
  {
    if Blank(piece) then Empty
    else
      match read(Trim(piece))
      case None => Garbage
      case Some(value) => Amount(value)
  }

  function Parts(raw: string, read: string -> Option<int>): seq<Part>
  {
    var pieces := Split(Trim(raw));
    seq(|pieces|, k requires 0 <= k < |pieces| => PartOf(pieces[k], read))
  }

  /** A piece counts for nothing when blank, else as what its trimmed text reads as. */
  lemma PartsAre(raw: string, read: string -> Option<int>, k: nat)
    requires k < |Split(Trim(raw))|
    ensures var piece, parts := Split(Trim(raw))[k], Parts(raw, read);
            && |parts| == |Split(Trim(raw))|
            && (parts[k].Empty? <==> forall i :: 0 <= i < |piece| ==> Space(piece[i]))
            && (forall value :: parts[k] == Amount(value) <==> !parts[k].Empty? && read(Trim(piece)) == Some(value))
  {
  }

  /** Refused exactly when a piece is no positive decimal; otherwise every amount once, ascending. */
  method ParseSubscribeTiers(raw: string, read: string -> Option<int>) returns (r: Option<seq<int>>)
    ensures r.Some? <==> Acceptable(Parts(raw, read))
    ensures r.Some? ==> Ascending(r.value) && Members(r.value) == Amounts(Parts(raw, read))
  {
    var parts := Parts(raw, read);
    if Trim(raw) == "" {
      assert parts == [Empty];
      return Some([]);
    }
    var out: seq<int> := [];
    for k := 0 to |parts|
      invariant Acceptable(parts[..k])
      invariant Distinct(out) && Members(out) == Amounts(parts[..k])
    {
      assert parts[..k + 1] == parts[..k] + [parts[k]];
      match parts[k]
      case Empty =>
      case Garbage =>
        assert parts[k] in parts;
        return None;
      case Amount(value) =>
        if value <= 0 {
          assert parts[k] in parts;
          return None;
        }
        if value in out {
          assert value in Members(out);
          continue;
        }
        assert Members(out + [value]) == Members(out) + {value};
        out := out + [value];
    }
    assert parts[..|parts|] == parts;
    out := SortedBySwaps(out);
    return Some(out);
  }

  /** Swapping two places keeps the members and repeats nothing. */
  lemma SwapKeeps(s: seq<int>, i: nat, j: nat)
    requires i < j < |s| && Distinct(s)
    ensures Distinct(s[i := s[j]][j := s[i]]) && Members(s[i := s[j]][j := s[i]]) == Members(s)
  {
    var t := s[i := s[j]][j := s[i]];
    forall x
      ensures x in t <==> x in s
    {
      assert t[i] == s[j] && t[j] == s[i];
      if x in s {
        var k :| 0 <= k < |s| && s[k] == x;
        assert t[if k == i then j else if k == j then i else k] == x;
      }
    }
  }

  /** The first i places are final: ascending and below everything after them. */
  ghost predicate FinalUpTo(s: seq<int>, i: nat)
    requires i <= |s|
  {
    forall a, b :: 0 <= a < i && a < b < |s| ==> s[a] < s[b]
  }

  method SortedBySwaps(s: seq<int>) returns (out: seq<int>)
    requires Distinct(s)
    ensures Ascending(out) && Members(out) == Members(s)
  {
    out := s;
    for i := 0 to |out|
      invariant |out| == |s| && Distinct(out) && Members(out) == Members(s)
      invariant FinalUpTo(out, i)
    {
      for j := i + 1 to |out|
        invariant |out| == |s| && Distinct(out) && Members(out) == Members(s)
        invariant FinalUpTo(out, i)
        invariant forall b :: i < b < j ==> out[i] < out[b]
      {
        if out[j] < out[i] {
          SwapKeeps(out, i, j);
          out := out[i := out[j]][j := out[i]];
        }
      }
    }
  }
}
