/** The per-function label table: runtime address to synthesized label name. */
module Labels {
  import opened Wrappers
  import opened Hex

  type LabelTable = map<nat, string>

  const LabelPrefix := "label_"

  /** The name given to a label at address a: "label_" followed by a in lower-case hex. */
  function LabelName(a: nat): string {
    Prefixed(LabelPrefix, a)
  }

  /** A label name names exactly the address it was made for. */
  lemma LabelNameRoundTrip(a: nat)
    ensures ParsePrefixed(LabelPrefix, LabelName(a)) == Some(a)
  {
    PrefixedRoundTrip(LabelPrefix, a);
  }

  /** Two addresses never share a label name. */
  lemma LabelNameInjective(a: nat, b: nat)
    requires LabelName(a) == LabelName(b)
    ensures a == b
  {
    PrefixedInjective(LabelPrefix, a, b);
  }

  /** Every entry of the table carries the name synthesized for its own address. */
  ghost predicate WellFormed(t: LabelTable) {
    forall a :: a in t ==> t[a] == LabelName(a)
  }

  /** Every entry of u is in t with the same name: t extends u without overwriting. */
  ghost predicate Extends(t: LabelTable, u: LabelTable) {
    forall a :: a in u ==> a in t && t[a] == u[a]
  }

  /**
   * Creates a label at a unless one already exists there; an existing name is
   * never overwritten, so inserting the same address twice yields one label.
   */
  function AddLabel(t: LabelTable, a: nat): (r: LabelTable)
    ensures r.Keys == t.Keys + {a}
    ensures Extends(r, t)
    ensures a !in t ==> r[a] == LabelName(a)
    ensures WellFormed(t) ==> WellFormed(r)
  {
    if a in t then t else t[a := LabelName(a)]
  }

  /** Inserting an address that is already labelled changes nothing. */
  lemma AddLabelIdempotent(t: LabelTable, a: nat)
    ensures AddLabel(AddLabel(t, a), a) == AddLabel(t, a)
  {
  }
}
