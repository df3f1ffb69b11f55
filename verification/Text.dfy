/** Decimal numerals and comma-separated id paths (strconv.FormatUint, user_recommends.path). */
module Text {

  function DigitChar(d: nat): char
    requires d < 10
  {
    '0' + d as char
  }

  /** strconv.FormatUint(n, 10), also strconv.Itoa on nonnegative numbers. */
  function Numeral(n: nat): (s: string)
    ensures s != []
    ensures forall i :: 0 <= i < |s| ==> '0' <= s[i] <= '9'
  {
    if n < 10 then [DigitChar(n)] else Numeral(n / 10) + [DigitChar(n % 10)]
  }

  predicate IsNumeral(s: string)
  {
    s != [] && forall i :: 0 <= i < |s| ==> '0' <= s[i] <= '9'
  }

  /** Value of a digit string. */
  function Value(s: string): nat
    requires forall i :: 0 <= i < |s| ==> '0' <= s[i] <= '9'
  {
    if s == [] then 0 else 10 * Value(s[..|s| - 1]) + (s[|s| - 1] - '0') as nat
  }

  lemma {:induction false} ValueOfNumeral(n: nat)
    ensures Value(Numeral(n)) == n
  {
    if n < 10 {
      assert Numeral(n)[..0] == [];
    } else {
      ValueOfNumeral(n / 10);
      assert Numeral(n)[..|Numeral(n)| - 1] == Numeral(n / 10);
    }
  }

  lemma NumeralInjective(a: nat, b: nat)
    ensures Numeral(a) == Numeral(b) ==> a == b
  {
    ValueOfNumeral(a);
    ValueOfNumeral(b);
  }

  // ---- paths ----

  /** The ids as written with a comma after each one. */
  function Terminated(ids: seq<nat>): string
  {
    if ids == [] then "" else Numeral(ids[0]) + "," + Terminated(ids[1..])
  }

  lemma {:induction false} TerminatedAppend(ids: seq<nat>, x: nat)
    ensures Terminated(ids + [x]) == Terminated(ids) + Numeral(x) + ","
  {
    if ids == [] {
      assert ids + [x] == [x] && [x][1..] == [];
    } else {
      assert (ids + [x])[1..] == ids[1..] + [x];
      TerminatedAppend(ids[1..], x);
    }
  }

  /** path = prefix OR path LIKE 'prefix,%'. */
  predicate PathMatches(path: string, prefix: string)
  {
    path == prefix || prefix + "," <= path
  }

  lemma MatchIsTerminatedPrefix(path: string, prefix: string)
    ensures PathMatches(path, prefix) <==> prefix + "," <= path + ","
  {
    if prefix + "," <= path {
      assert prefix + "," <= path + ",";
    }
    if prefix + "," <= path + "," {
      if |path| == |prefix| {
        assert (path + ",")[..|prefix|] == path && (prefix + ",")[..|prefix|] == prefix;
        assert forall i :: 0 <= i < |prefix| ==> (prefix + ",")[i] == (path + ",")[i];
      } else {
        assert forall i :: 0 <= i < |prefix + ","| ==> (prefix + ",")[i] == (path + ",")[i] == path[i];
      }
    }
  }

  /** A first block before a comma is determined by the text. */
  lemma FirstBlock(a: string, x: string, b: string, y: string)
    requires (forall i :: 0 <= i < |a| ==> a[i] != ',') && (forall i :: 0 <= i < |b| ==> b[i] != ',')
    requires a + "," + x <= b + "," + y
    ensures a == b && x <= y
  {
    var l, r := a + "," + x, b + "," + y;
    assert l[|a|] == ',' && r[|b|] == ',';
    assert forall i :: 0 <= i < |l| ==> l[i] == r[i];
    assert forall i :: 0 <= i < |a| ==> l[i] == a[i];
    assert forall i :: 0 <= i < |b| ==> r[i] == b[i];
    assert |a| == |b|;
    assert forall i :: 0 <= i < |x| ==> x[i] == l[|a| + 1 + i];
    assert forall i :: 0 <= i < |y| ==> y[i] == r[|b| + 1 + i];
  }

  /** On terminated texts, textual prefix is id-list prefix: "1,5," never starts "1,50,". */
  lemma {:induction false} TerminatedPrefix(a: seq<nat>, b: seq<nat>)
    ensures Terminated(a) <= Terminated(b) <==> a <= b
    decreases |a|
  {
    if a != [] {
      if b == [] {
        assert |Terminated(a)| > 0;
      } else {
        TerminatedPrefix(a[1..], b[1..]);
        NumeralInjective(a[0], b[0]);
        if Terminated(a) <= Terminated(b) {
          FirstBlock(Numeral(a[0]), Terminated(a[1..]), Numeral(b[0]), Terminated(b[1..]));
          assert a == [a[0]] + a[1..] && b == [b[0]] + b[1..];
        }
        if a <= b {
          assert forall i :: 0 <= i < |a| ==> a[i] == b[i];
          assert a[1..] <= b[1..];
          var head := Numeral(a[0]) + ",";
          assert head + Terminated(a[1..]) <= head + Terminated(b[1..]);
        }
      }
    }
  }

  // ---- white space and commas ----

  /** unicode.IsSpace. */
  predicate Space(c: char)
  {
    '\U{9}' <= c <= '\U{D}' || c == ' ' || c == '\U{85}' || c == '\U{A0}' || c == '\U{1680}'
    || '\U{2000}' <= c <= '\U{200A}' || c == '\U{2028}' || c == '\U{2029}' || c == '\U{202F}' || c == '\U{205F}' || c == '\U{3000}'
  }

  /** strings.TrimSpace leaves nothing. */
  predicate Blank(s: string)
  {
    forall i :: 0 <= i < |s| ==> Space(s[i])
  }

  /** strings.TrimSpace. */
  function Trim(s: string): (t: string)
    ensures t == "" <==> Blank(s)
    ensures t != "" ==> !Space(t[0]) && !Space(t[|t| - 1])
  {
    if s == "" then s
    else if Space(s[0]) then
      assert forall i :: 0 <= i < |s[1..]| ==> s[1..][i] == s[i + 1];
      Trim(s[1..])
    else if Space(s[|s| - 1]) then Trim(s[..|s| - 1])
    else s
  }

  /** Trimming takes white space off both ends and nothing else. */
  lemma {:induction false} TrimExact(s: string) returns (i: nat, j: nat)
    ensures i <= j <= |s| && Trim(s) == s[i..j]
    ensures forall k :: 0 <= k < i || j <= k < |s| ==> Space(s[k])
    decreases |s|
  {
    hide Space;
    if s == "" {
      i, j := 0, 0;
    } else if Space(s[0]) {
      var rest := s[1..];
      i, j := TrimExact(rest);
      assert rest[i..j] == s[i + 1..j + 1] && forall k :: 1 <= k < |s| ==> s[k] == rest[k - 1];
      i, j := i + 1, j + 1;
    } else if Space(s[|s| - 1]) {
      var rest := s[..|s| - 1];
      i, j := TrimExact(rest);
      assert rest[i..j] == s[i..j] && forall k :: 0 <= k < |s| - 1 ==> s[k] == rest[k];
    } else {
      i, j := 0, |s|;
    }
  }

  /** strings.Split at commas. */
  function Split(s: string): (pieces: seq<string>)
    ensures pieces != []
  {
    if s == "" then [""]
    else
      var rest := Split(s[1..]);
      if s[0] == ',' then [""] + rest else [[s[0]] + rest[0]] + rest[1..]
  }

  function Joined(pieces: seq<string>): string
  {
    if pieces == [] then "" else if |pieces| == 1 then pieces[0] else pieces[0] + "," + Joined(pieces[1..])
  }

  /** Splitting loses nothing and cuts at every comma. */
  lemma {:induction false} SplitExact(s: string)
    ensures Joined(Split(s)) == s
    ensures forall k :: 0 <= k < |Split(s)| ==> ',' !in Split(s)[k]
  {
    if s != "" {
      var rest := Split(s[1..]);
      SplitExact(s[1..]);
      if s[0] == ',' {
        assert ([""] + rest)[1..] == rest;
      } else {
        var first := [s[0]] + rest[0];
        assert ([first] + rest[1..])[1..] == rest[1..];
        assert ',' !in first;
        if |rest| > 1 {
          assert first + "," + Joined(rest[1..]) == [s[0]] + (rest[0] + "," + Joined(rest[1..]));
        }
      }
    }
  }
}
