/**
 * Column labels of a FactorAnalysis object: `_cleanup_labels` and the
 * `labels_dict` built from its result.
 */
module Labels {
  import opened Wrappers
  import opened Exceptions

  /** A column label: Python accepts both strings and ints. */
  datatype Label = IntLabel(n: int) | TextLabel(text: string)

  /** `list(range(p))`: the positional labels `0, ..., p - 1`. */
  function DefaultLabels(p: nat): (r: seq<Label>)
    ensures |r| == p
    ensures forall i :: 0 <= i < p ==> r[i] == IntLabel(i)
  {
    seq(p, i requires 0 <= i < p => IntLabel(i))
  }

  /**
   * `_cleanup_labels(np_data, labels)` for data with `features` columns: no labels
   * give the positional ones, labels of the right length come back unchanged, and
   * any other length is refused.
   */
  function CleanupLabels(features: nat, labels: Option<seq<Label>>): (r: Result<seq<Label>, Error>)
    ensures labels.None? ==>
      r.Ok? && |r.value| == features && forall i :: 0 <= i < features ==> r.value[i] == IntLabel(i)
    ensures labels.Some? && |labels.value| == features ==> r == Ok(labels.value)
    ensures labels.Some? && |labels.value| != features ==> r == Err(LabelCountMismatch)
  {
    match labels
    case None => Ok(DefaultLabels(features))
    case Some(given) => if |given| != features then Err(LabelCountMismatch) else Ok(given)
  }

  /** `{key: val for key, val in enumerate(labels)}`: position `i` maps to `labels[i]`, and nothing else is a key. */
  function LabelsDict(labels: seq<Label>): (d: map<int, Label>)
    ensures forall i :: i in d <==> 0 <= i < |labels|
    ensures forall i :: 0 <= i < |labels| ==> d[i] == labels[i]
  {
    map i | 0 <= i < |labels| :: labels[i]
  }

  /** The dictionary determines the list: two label lists with the same dictionary are equal. */
  lemma LabelsDictDeterminesLabels(a: seq<Label>, b: seq<Label>)
    requires LabelsDict(a) == LabelsDict(b)
    ensures a == b
  {
    assert |a| !in LabelsDict(b) && |b| !in LabelsDict(a);
    forall i | 0 <= i < |a|
      ensures a[i] == b[i]
    {
      assert LabelsDict(a)[i] == LabelsDict(b)[i];
    }
  }
}
