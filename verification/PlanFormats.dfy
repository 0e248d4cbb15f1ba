/**
 What a Bind's result-format codes do to a described plan: they choose the wire format of
 each column, and leave how it is masked alone.
 */
module PlanFormats {
  import opened Wrappers
  import opened Masks
  import opened PlanStateModel

  /**
   The wire format of column `i`: the described one if the codes could not be read; text
   without codes; a single code for every column; otherwise the column's own code.
   */
  ghost predicate ServedIn(format: int, described: int, formats: Formats, i: nat)
  {
    match formats
    case None => format == described
    case Some(codes) =>
      && (|codes| == 0 ==> format == FORMAT_TEXT)
      && (|codes| == 1 ==> format == codes[0])
      && (1 < |codes| && i < |codes| ==> format == codes[i])
      && (1 < |codes| <= i ==> format == FORMAT_TEXT)
  }

  /** Masked the same way: everything but the wire format. */
  ghost predicate SameMask(f: FieldPlan, g: FieldPlan)
  {
    f.spec == g.spec && f.jsonProjection == g.jsonProjection && f.typeOid == g.typeOid && f.lenient == g.lenient
  }

  ghost predicate SameMasks(plan: Plan, described: Plan)
  {
    && |plan.fields| == |described.fields|
    && forall i :: 0 <= i < |plan.fields| ==> SameMask(plan.fields[i], described.fields[i])
  }

  /** The described plan, field by field, in the formats a Bind chose. */
  ghost predicate InFormats(plan: Plan, described: Plan, formats: Formats)
  {
    && SameMasks(plan, described)
    && forall i :: 0 <= i < |plan.fields| ==> ServedIn(plan.fields[i].format, described.fields[i].format, formats, i)
  }

  /** Stamping does exactly this. */
  lemma StampedExactly(plan: Plan, described: Plan, formats: Formats)
    ensures plan == Stamp(described, formats) <==> InFormats(plan, described, formats)
  {
    if InFormats(plan, described, formats) {
      var stamped := Stamp(described, formats);
      forall i | 0 <= i < |plan.fields| ensures plan.fields[i] == stamped.fields[i] {
        assert SameMask(plan.fields[i], described.fields[i]);
      }
      assert plan.fields == stamped.fields;
    }
  }

  lemma StampIsInFormats(described: Plan, formats: Formats)
    ensures InFormats(Stamp(described, formats), described, formats)
  {
    StampedExactly(Stamp(described, formats), described, formats);
  }
}
