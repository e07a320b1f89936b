/** Label sets and the label filters of agent/api/v1/labels.go. */
module LabelFilters {
  import opened Strings

  type Labels = map<string, string>

  // A Go map lookup: a missing key reads as the empty string.
  function Lookup(m: Labels, k: string): string
  {
    if k in m then m[k] else ""
  }

  // A filter "k" asks for the label, "k=v" for its value.
  predicate Satisfies(labels: Labels, filter: string)
  {
    var kv := Cut(filter, '=');
    if kv.None? then filter in labels
    else kv.value.0 in labels && labels[kv.value.0] == kv.value.1
  }

  /**
   A filter "k=v" is met exactly by the sets with the value v under k, whatever v is; one without the sign
   exactly by those that have the label.
   */
  lemma FilterMeans(labels: Labels, k: string, v: string)
    requires '=' !in k
    ensures Satisfies(labels, k + "=" + v) <==> k in labels && labels[k] == v
    ensures Satisfies(labels, k) <==> k in labels
  {
    CutAtFirst(k, '=', v);
  }

  predicate SatisfiesAll(labels: Labels, filters: seq<string>)
  {
    forall f | f in filters :: Satisfies(labels, f)
  }

  method MatchLabels(labels: Labels, filters: seq<string>) returns (r: bool)
    ensures r <==> SatisfiesAll(labels, filters)
  {
    if |labels| == 0 {
      assert filters != [] ==> !Satisfies(labels, filters[0]);
      return |filters| == 0;
    }
    for i := 0 to |filters|
      invariant SatisfiesAll(labels, filters[..i])
    {
      var f := filters[i];
      var kv := Cut(f, '=');
      if kv.None? {
        if f !in labels {
          assert !Satisfies(labels, f);
          return false;
        }
      } else if kv.value.0 !in labels || labels[kv.value.0] != kv.value.1 {
        assert !Satisfies(labels, f);
        return false;
      }
      assert filters[..i + 1] == filters[..i] + [f];
    }
    assert filters[..|filters|] == filters;
    return true;
  }
}
