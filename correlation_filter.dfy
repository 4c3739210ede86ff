/**
 * The first correlation engine, a filter: every finding of a public resource
 * is kept, and of any other resource only the findings whose `risk` is exactly
 * HIGH or CRITICAL. The kept findings are the same objects, unchanged.
 */
module CorrelationFilter {
  import opened Wrappers
  import opened Strings
  import opened Resources
  import Exposure

  /**
   * Public: a public ACL, or `public` or `associate_public_ip_address` is True
   * (no CIDR test here). The later engines' test is wider by exactly the open CIDR.
   */
  predicate IsPublic(attrs: Attributes)
    ensures IsPublic(attrs) ==> Exposure.IsPublic(attrs)
    ensures Exposure.IsPublic(attrs) && !IsPublic(attrs) ==> Contains(attrs.text, "0.0.0.0/0")
  {
    PublicAcl(attrs) || IsTrue(attrs.public) || IsTrue(attrs.associatePublicIp)
  }

  /** `f.get('risk', 'LOW')`, unchanged in case; a null `risk` matches neither name either. */
  predicate Kept(public: bool, f: Finding)
    ensures Kept(public, f) <==> public || f.risk == Some("HIGH") || f.risk == Some("CRITICAL")
  {
    public || f.risk.GetOr("LOW") == "HIGH" || f.risk.GetOr("LOW") == "CRITICAL"
  }

  /** The findings the loop appends, in order. */
  function Filter(public: bool, fs: seq<Finding>): (r: seq<Finding>)
    ensures |r| <= |fs|
  {
    if fs == [] then [] else (if Kept(public, fs[0]) then [fs[0]] else []) + Filter(public, fs[1..])
  }

  /** `correlate_threats` */
  method CorrelateThreats(res: Resource, fs: seq<Finding>) returns (correlated: seq<Finding>)
    ensures correlated == Filter(IsPublic(res.attributes), fs)
  {
    var attrs := res.attributes;
    var public := false;
    if PublicAcl(attrs) || IsTrue(attrs.public) {
      public := true;
    }
    if IsTrue(attrs.associatePublicIp) {
      public := true;
    }
    correlated := [];
    var rest := fs;
    while rest != []
      invariant correlated + Filter(public, rest) == Filter(public, fs)
      decreases |rest|
    {
      var f := rest[0];
      var lvl := f.risk.GetOr("LOW");
      if public || lvl == "HIGH" || lvl == "CRITICAL" {
        assert correlated + Filter(public, rest) == (correlated + [f]) + Filter(public, rest[1..]);
        correlated := correlated + [f];
      } else {
        assert Filter(public, rest) == Filter(public, rest[1..]);
      }
      rest := rest[1..];
    }
    assert correlated + [] == correlated;
  }

  /** Everything kept is one of the inputs and passes the test. */
  lemma {:induction false} FilterSound(public: bool, fs: seq<Finding>)
    ensures forall x :: x in Filter(public, fs) ==> x in fs && Kept(public, x)
  {
    if fs != [] {
      FilterSound(public, fs[1..]);
    }
  }

  /** Every input that passes the test is kept. */
  lemma {:induction false} FilterComplete(public: bool, fs: seq<Finding>)
    ensures forall x :: x in fs && Kept(public, x) ==> x in Filter(public, fs)
  {
    if fs != [] {
      FilterComplete(public, fs[1..]);
      assert forall x :: x in fs ==> x == fs[0] || x in fs[1..];
    }
  }

  /** A public resource keeps every finding. */
  lemma {:induction false} PublicKeepsAll(fs: seq<Finding>)
    ensures Filter(true, fs) == fs
  {
    if fs != [] {
      PublicKeepsAll(fs[1..]);
      assert [fs[0]] + fs[1..] == fs;
    }
  }

  /** Filtering again keeps everything: the result is a fixed point. */
  lemma {:induction false} FilterIdempotent(public: bool, fs: seq<Finding>)
    ensures Filter(public, Filter(public, fs)) == Filter(public, fs)
  {
    if fs != [] {
      FilterIdempotent(public, fs[1..]);
      FilterConcat(public, if Kept(public, fs[0]) then [fs[0]] else [], Filter(public, fs[1..]));
      if Kept(public, fs[0]) {
        assert [fs[0]][1..] == [];
      }
    }
  }

  lemma {:induction false} FilterConcat(public: bool, a: seq<Finding>, b: seq<Finding>)
    ensures Filter(public, a + b) == Filter(public, a) + Filter(public, b)
  {
    if a == [] {
      assert [] + b == b;
    } else {
      var head := if Kept(public, a[0]) then [a[0]] else [];
      assert (a + b)[0] == a[0] && (a + b)[1..] == a[1..] + b;
      assert Filter(public, a + b) == head + Filter(public, a[1..] + b);
      FilterConcat(public, a[1..], b);
      assert head + (Filter(public, a[1..]) + Filter(public, b)) == (head + Filter(public, a[1..])) + Filter(public, b);
    }
  }

  /** A lower-case `risk` is not recognised: the test is case-sensitive. */
  lemma {:induction false} LowerCaseHighDropped(f: Finding)
    requires f.risk == Some("high")
    ensures Filter(false, [f]) == []
  {
    assert [f][1..] == [];
  }
}
