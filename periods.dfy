/**
 * `convert_periods`, the helper the figure-saving code applies before the
 * binary fallback: it replaces every pandas Period reachable through dicts,
 * lists and tuples by its string form, turns tuples into lists, and leaves
 * every other object as it is.
 */
module Periods {
  import opened Schema

  function ConvertPeriods(v: PyValue): PyValue
    decreases v
  {
    match v
    case PPeriod(t) => PStr(t)
    case PDict(es) => PDict(seq(|es|, i requires 0 <= i < |es| => (es[i].0, ConvertPeriods(es[i].1))))
    case PList(xs) => PList(seq(|xs|, i requires 0 <= i < |xs| => ConvertPeriods(xs[i])))
    case PTuple(xs) => PList(seq(|xs|, i requires 0 <= i < |xs| => ConvertPeriods(xs[i])))
    case _ => v
  }

  /** A Period is reachable from `v` through dicts, lists and tuples (not through other objects). */
  predicate HasVisiblePeriod(v: PyValue)
    decreases v
  {
    match v
    case PPeriod(_) => true
    case PDict(es) => exists i :: 0 <= i < |es| && HasVisiblePeriod(es[i].1)
    case PList(xs) => exists i :: 0 <= i < |xs| && HasVisiblePeriod(xs[i])
    case PTuple(xs) => exists i :: 0 <= i < |xs| && HasVisiblePeriod(xs[i])
    case _ => false
  }

  /** A tuple is reachable from `v` through dicts, lists and tuples. */
  predicate HasVisibleTuple(v: PyValue)
    decreases v
  {
    match v
    case PTuple(_) => true
    case PDict(es) => exists i :: 0 <= i < |es| && HasVisibleTuple(es[i].1)
    case PList(xs) => exists i :: 0 <= i < |xs| && HasVisibleTuple(xs[i])
    case _ => false
  }

  /** After conversion no Period and no tuple is reachable. */
  lemma {:induction false} ConvertRemovesPeriods(v: PyValue)
    ensures !HasVisiblePeriod(ConvertPeriods(v))
    ensures !HasVisibleTuple(ConvertPeriods(v))
    decreases v
  {
    match v
    case PDict(es) =>
      forall i | 0 <= i < |es| ensures !HasVisiblePeriod(ConvertPeriods(es[i].1)) && !HasVisibleTuple(ConvertPeriods(es[i].1)) {
        ConvertRemovesPeriods(es[i].1);
      }
    case PList(xs) =>
      forall i | 0 <= i < |xs| ensures !HasVisiblePeriod(ConvertPeriods(xs[i])) && !HasVisibleTuple(ConvertPeriods(xs[i])) {
        ConvertRemovesPeriods(xs[i]);
      }
    case PTuple(xs) =>
      forall i | 0 <= i < |xs| ensures !HasVisiblePeriod(ConvertPeriods(xs[i])) && !HasVisibleTuple(ConvertPeriods(xs[i])) {
        ConvertRemovesPeriods(xs[i]);
      }
    case _ =>
  }

  /** A value with no reachable Period and no reachable tuple is returned unchanged. */
  lemma {:induction false} ConvertIdentity(v: PyValue)
    requires !HasVisiblePeriod(v) && !HasVisibleTuple(v)
    ensures ConvertPeriods(v) == v
    decreases v
  {
    match v
    case PDict(es) =>
      forall i | 0 <= i < |es| ensures ConvertPeriods(es[i].1) == es[i].1 {
        ConvertIdentity(es[i].1);
      }
      assert ConvertPeriods(v).entries == es;
    case PList(xs) =>
      forall i | 0 <= i < |xs| ensures ConvertPeriods(xs[i]) == xs[i] {
        ConvertIdentity(xs[i]);
      }
      assert ConvertPeriods(v).items == xs;
    case _ =>
  }

  /** Converting twice is converting once. */
  lemma ConvertIdempotent(v: PyValue)
    ensures ConvertPeriods(ConvertPeriods(v)) == ConvertPeriods(v)
  {
    ConvertRemovesPeriods(v);
    ConvertIdentity(ConvertPeriods(v));
  }

  /** An object that is not a Period, dict, list or tuple, such as a plotly Figure, is not looked into. */
  lemma ConvertLeavesObjects(kind: string, attrs: seq<(string, PyValue)>)
    ensures ConvertPeriods(PObject(kind, attrs)) == PObject(kind, attrs)
  {
  }
}
