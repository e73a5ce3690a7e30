/** NUL-terminated fields, as git prints them with -z and as hashDirectory feeds them to the hash. */
module NulFields {
  const NUL := '\0'

  predicate NulFree(s: string) {
    NUL !in s
  }

  /** Every field followed by a NUL. */
  function Encode(fields: seq<string>): string {
    if fields == [] then "" else fields[0] + [NUL] + Encode(fields[1..])
  }

  function FirstNul(s: string): nat {
    if s == "" || s[0] == NUL then 0 else 1 + FirstNul(s[1..])
  }

  lemma {:induction false} FirstNulAfter(a: string, s: string)
    requires NulFree(a)
    ensures FirstNul(a + [NUL] + s) == |a|
  {
    if a == "" {
    } else {
      assert (a + [NUL] + s)[1..] == a[1..] + [NUL] + s && a[0] in a;
      FirstNulAfter(a[1..], s);
    }
  }

  lemma HeadIsUnique(a: string, s: string, b: string, t: string)
    requires NulFree(a) && NulFree(b) && a + [NUL] + s == b + [NUL] + t
    ensures a == b && s == t
  {
    FirstNulAfter(a, s);
    FirstNulAfter(b, t);
    var whole := a + [NUL] + s;
    assert whole[..|a|] == a && whole[..|b|] == b;
    assert whole[|a| + 1..] == s && whole[|b| + 1..] == t;
  }

  lemma {:induction false} EncodeConcat(xs: seq<string>, ys: seq<string>)
    ensures Encode(xs + ys) == Encode(xs) + Encode(ys)
  {
    if xs == [] {
      assert xs + ys == ys;
    } else {
      assert (xs + ys)[1..] == xs[1..] + ys;
      EncodeConcat(xs[1..], ys);
    }
  }

  lemma {:induction false} EncodeIsInjective(xs: seq<string>, ys: seq<string>)
    requires (forall x :: x in xs ==> NulFree(x)) && (forall y :: y in ys ==> NulFree(y))
    requires Encode(xs) == Encode(ys)
    ensures xs == ys
  {
    if xs == [] || ys == [] {
    } else {
      HeadIsUnique(xs[0], Encode(xs[1..]), ys[0], Encode(ys[1..]));
      EncodeIsInjective(xs[1..], ys[1..]);
      assert xs == [xs[0]] + xs[1..] && ys == [ys[0]] + ys[1..];
    }
  }
}
