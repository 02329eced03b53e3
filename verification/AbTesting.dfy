/** Deterministic A/B allocation (src/templates/engine/ab-testing.service.ts): a user's hash
    falls in one of 100 buckets, which are dealt to the variants in order. */
module AbTesting {
  import opened Sets

  datatype Template = Template(id: string, version: int, isAbVariant: bool, abWeight: int)

  datatype Choice = Choice(templateId: string, version: int, isAbVariant: bool, abWeight: int)

  datatype Resolution = NoActiveTemplate | Resolved(choice: Choice)

  function Variants(templates: seq<Template>): (r: seq<Template>)
    ensures forall i :: 0 <= i < |r| ==> r[i].isAbVariant && r[i] in templates
  {
    if templates == [] then []
    else Variants(templates[..|templates| - 1]) +
         if templates[|templates| - 1].isAbVariant then [templates[|templates| - 1]] else []
  }

  /** The weights of the first `n` variants together. */
  function Prefix(variants: seq<Template>, n: nat): int
    requires n <= |variants|
  {
    if n == 0 then 0 else Prefix(variants, n - 1) + variants[n - 1].abWeight
  }

  /** The cumulative weight after variant `i` has been added. */
  function Through(variants: seq<Template>, i: nat): int
    requires i < |variants|
  {
    Prefix(variants, i + 1)
  }

  /** `i` is the first variant whose cumulative weight exceeds the bucket. */
  ghost predicate Chooses(variants: seq<Template>, bucket: int, i: nat) {
    && i < |variants|
    && bucket < Through(variants, i)
    && forall j :: 0 <= j < i ==> bucket >= Through(variants, j)
  }

  ghost predicate ChoosesNone(variants: seq<Template>, bucket: int) {
    forall j :: 0 <= j < |variants| ==> bucket >= Through(variants, j)
  }

  /** The control is the first template that is not a variant, or the first template. */
  ghost predicate IsControl(templates: seq<Template>, c: Template) {
    || (exists i :: 0 <= i < |templates| && templates[i] == c && !c.isAbVariant &&
                    forall j :: 0 <= j < i ==> templates[j].isAbVariant)
    || (templates != [] && c == templates[0] && forall j :: 0 <= j < |templates| ==> templates[j].isAbVariant)
  }

  function GetBucket(hash: nat): (bucket: int)
    ensures 0 <= bucket < 100
  {
    hash % 100
  }

  class AbTestingService {
    method ResolveVariant(templates: seq<Template>, bucket: int) returns (r: Resolution)
      requires 0 <= bucket < 100
      ensures r.NoActiveTemplate? <==> templates == []
      ensures r.Resolved? && !r.choice.isAbVariant ==>
                exists c :: IsControl(templates, c) &&
                  var vs := Variants(templates);
                  ChoosesNone(vs, bucket) && r.choice == Choice(c.id, c.version, false, 100 - Prefix(vs, |vs|))
      ensures r.Resolved? && r.choice.isAbVariant ==>
                exists i: nat :: var vs := Variants(templates);
                  Chooses(vs, bucket, i) && r.choice == Choice(vs[i].id, vs[i].version, true, vs[i].abWeight)
    {
      if templates == [] { return NoActiveTemplate; }
      var control := FindControl(templates);
      var active := Variants(templates);
      if active == [] {
        return Resolved(Choice(control.id, control.version, false, 100));
      }
      var cumulativeWeight := 0;
      for i := 0 to |active|
        invariant cumulativeWeight == Prefix(active, i)
        invariant forall j :: 0 <= j < i ==> bucket >= Through(active, j)
      {
        cumulativeWeight := cumulativeWeight + active[i].abWeight;
        if bucket < cumulativeWeight {
          assert Chooses(active, bucket, i);
          return Resolved(Choice(active[i].id, active[i].version, true, active[i].abWeight));
        }
      }
      r := Resolved(Choice(control.id, control.version, false, 100 - cumulativeWeight));
    }

    method FindControl(templates: seq<Template>) returns (c: Template)
      requires templates != []
      ensures IsControl(templates, c)
    {
      for i := 0 to |templates|
        invariant forall j :: 0 <= j < i ==> templates[j].isAbVariant
      {
        if !templates[i].isAbVariant { return templates[i]; }
      }
      c := templates[0];
    }
  }

  ghost predicate NonNegative(variants: seq<Template>) {
    forall i :: 0 <= i < |variants| ==> variants[i].abWeight >= 0
  }

  function Min(a: int, b: int): int {
    if a < b then a else b
  }

  ghost function BucketsOf(variants: seq<Template>, i: nat): set<int> {
    set b | 0 <= b < 100 && Chooses(variants, b, i)
  }

  ghost function ControlBuckets(variants: seq<Template>): set<int> {
    set b | 0 <= b < 100 && ChoosesNone(variants, b)
  }

  lemma {:induction false} PrefixGrows(variants: seq<Template>, a: nat, b: nat)
    requires NonNegative(variants) && a <= b <= |variants|
    ensures Prefix(variants, a) <= Prefix(variants, b)
    decreases b
  {
    if a < b { PrefixGrows(variants, a, b - 1); }
  }

  lemma ChoosesByRange(variants: seq<Template>, bucket: int, i: nat)
    requires NonNegative(variants) && i < |variants| && bucket >= 0
    ensures Chooses(variants, bucket, i) <==> Prefix(variants, i) <= bucket < Prefix(variants, i + 1)
  {
    forall j | 0 <= j < i ensures Through(variants, j) <= Prefix(variants, i) {
      PrefixGrows(variants, j + 1, i);
    }
    if Chooses(variants, bucket, i) && i > 0 {
      assert bucket >= Through(variants, i - 1);
    }
  }

  /** Variant `i` gets exactly its share of the 100 buckets that are left when its turn comes. */
  lemma VariantShare(variants: seq<Template>, i: nat)
    requires NonNegative(variants) && i < |variants|
    ensures |BucketsOf(variants, i)| == Min(100, Prefix(variants, i + 1)) - Min(100, Prefix(variants, i))
  {
    PrefixGrows(variants, 0, i);
    PrefixGrows(variants, i, i + 1);
    var lo, hi := Min(100, Prefix(variants, i)), Min(100, Prefix(variants, i + 1));
    forall b | 0 <= b < 100 ensures Chooses(variants, b, i) <==> lo <= b < hi {
      ChoosesByRange(variants, b, i);
    }
    assert BucketsOf(variants, i) == Range(lo, hi);
  }

  lemma NoneByTotal(variants: seq<Template>, bucket: int)
    requires NonNegative(variants) && bucket >= 0
    ensures ChoosesNone(variants, bucket) <==> bucket >= Prefix(variants, |variants|)
  {
    forall j | 0 <= j < |variants| ensures Through(variants, j) <= Prefix(variants, |variants|) {
      PrefixGrows(variants, j + 1, |variants|);
    }
    if ChoosesNone(variants, bucket) && variants != [] {
      assert bucket >= Through(variants, |variants| - 1);
    }
  }

  /** The control gets what is left, which is also the weight reported for it whenever
      anybody is sent to it. */
  lemma ControlShare(variants: seq<Template>)
    requires NonNegative(variants)
    ensures var total := Prefix(variants, |variants|);
            && |ControlBuckets(variants)| == (if total > 100 then 0 else 100 - total)
            && (ControlBuckets(variants) != {} ==> |ControlBuckets(variants)| == 100 - total)
  {
    var total := Prefix(variants, |variants|);
    PrefixGrows(variants, 0, |variants|);
    forall b | 0 <= b < 100 ensures ChoosesNone(variants, b) <==> total <= b {
      NoneByTotal(variants, b);
    }
    assert ControlBuckets(variants) == Range(Min(100, total), 100);
  }

  /** Every bucket goes to exactly one variant or to the control. */
  lemma Partition(variants: seq<Template>, bucket: int)
    requires 0 <= bucket < 100
    ensures ChoosesNone(variants, bucket) <==> forall i :: !Chooses(variants, bucket, i)
    ensures forall i, j :: Chooses(variants, bucket, i) && Chooses(variants, bucket, j) ==> i == j
  {
    if !ChoosesNone(variants, bucket) {
      var j :| 0 <= j < |variants| && bucket < Through(variants, j);
      var i := FirstAbove(variants, bucket, j);
    }
  }

  lemma {:induction false} FirstAbove(variants: seq<Template>, bucket: int, j: nat) returns (i: nat)
    requires j < |variants| && bucket < Through(variants, j)
    ensures Chooses(variants, bucket, i)
    decreases j
  {
    if k :| 0 <= k < j && bucket < Through(variants, k) {
      i := FirstAbove(variants, bucket, k);
    } else {
      i := j;
    }
  }

  lemma {:induction false} PrefixAppend(variants: seq<Template>, v: Template, n: nat)
    requires n <= |variants|
    ensures Prefix(variants + [v], n) == Prefix(variants, n)
  {
    if n > 0 { PrefixAppend(variants, v, n - 1); }
  }

  /** Adding a variant at the end takes buckets from the control only. */
  lemma AppendingMovesNobody(variants: seq<Template>, v: Template, bucket: int, i: nat)
    requires Chooses(variants, bucket, i)
    ensures Chooses(variants + [v], bucket, i)
  {
    forall n | 0 <= n <= |variants| ensures Prefix(variants + [v], n) == Prefix(variants, n) {
      PrefixAppend(variants, v, n);
    }
    assert forall j :: 0 <= j < |variants| ==> Through(variants + [v], j) == Through(variants, j);
  }
}
