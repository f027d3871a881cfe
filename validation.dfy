/** The data-quality warnings list that the normalisation code threads, by
    reference, through every statement mapper. */
module Validation {
  import opened JsValues

  /** The object handed to `warnIfMissing`: field name to value, an absent
      name being undefined. */
  type Fields = map<string, Option<real>>

  predicate IsMissing(obj: Fields, field: string)
  {
    field !in obj || obj[field].None?
  }

  /** The entry `warnIfMissing` pushes for one missing field. */
  function MissingEntry(section: string, field: string): string
  {
    section + ": Missing " + field
  }

  /** The entries `warnIfMissing(obj, fields, warnings, section)` appends, in the
      order of `fields`. */
  function MissingWarnings(obj: Fields, fields: seq<string>, section: string): seq<string>
  {
    if fields == [] then []
    else
      var last := fields[|fields| - 1];
      MissingWarnings(obj, fields[..|fields| - 1], section)
        + (if IsMissing(obj, last) then [MissingEntry(section, last)] else [])
  }

  /** Number of listed fields that are missing. */
  function CountMissing(obj: Fields, fields: seq<string>): nat
  {
    if fields == [] then 0
    else CountMissing(obj, fields[..|fields| - 1]) + (if IsMissing(obj, fields[|fields| - 1]) then 1 else 0)
  }

  /** The list of warnings, shared by reference between the mappers. */
  class WarningLog {
    var entries: seq<string>

    constructor (initial: seq<string>)
      ensures entries == initial
    {
      entries := initial;
    }

    /** `warnIfMissing(obj, fields, warnings, section)` */
    method WarnIfMissing(obj: Fields, fields: seq<string>, section: string)
      modifies this
      ensures entries == old(entries) + MissingWarnings(obj, fields, section)
    {
      var i := 0;
      while i < |fields|
        invariant 0 <= i <= |fields|
        invariant entries == old(entries) + MissingWarnings(obj, fields[..i], section)
      {
        assert fields[..i + 1][..i] == fields[..i];
        if IsMissing(obj, fields[i]) {
          entries := entries + [MissingEntry(section, fields[i])];
        }
        i := i + 1;
      }
      assert fields[..i] == fields;
    }

    /** `warnIfDerived(derived, warnings, note)` */
    method WarnIfDerived(derived: bool, note: string)
      modifies this
      ensures entries == old(entries) + (if derived then [note] else [])
    {
      if derived {
        entries := entries + [note];
      }
    }
  }

  /** Each appended entry reads `<section>: Missing <field>` for a listed field
      that is null or undefined. */
  lemma {:induction false} MissingWarningsShape(obj: Fields, fields: seq<string>, section: string, k: nat)
    requires k < |MissingWarnings(obj, fields, section)|
    ensures exists j :: 0 <= j < |fields| && IsMissing(obj, fields[j])
                        && MissingWarnings(obj, fields, section)[k] == MissingEntry(section, fields[j])
  {
    var init := fields[..|fields| - 1];
    var last := fields[|fields| - 1];
    var before := MissingWarnings(obj, init, section);
    if k < |before| {
      MissingWarningsShape(obj, init, section, k);
      var j :| 0 <= j < |init| && IsMissing(obj, init[j]) && before[k] == MissingEntry(section, init[j]);
      assert fields[j] == init[j];
    } else {
      assert MissingWarnings(obj, fields, section)[k] == MissingEntry(section, last);
    }
  }

  /** One entry per missing field: the list grows by the number of missing fields. */
  lemma {:induction false} MissingWarningsLength(obj: Fields, fields: seq<string>, section: string)
    ensures |MissingWarnings(obj, fields, section)| == CountMissing(obj, fields) <= |fields|
  {
    if fields != [] {
      MissingWarningsLength(obj, fields[..|fields| - 1], section);
    }
  }

  /** Nothing is appended exactly when every listed field is present. */
  lemma {:induction false} NoWarningsIffAllPresent(obj: Fields, fields: seq<string>, section: string)
    ensures MissingWarnings(obj, fields, section) == []
            <==> forall j :: 0 <= j < |fields| ==> !IsMissing(obj, fields[j])
  {
    if fields != [] {
      var init := fields[..|fields| - 1];
      NoWarningsIffAllPresent(obj, init, section);
      if MissingWarnings(obj, fields, section) == [] {
        forall j | 0 <= j < |fields| ensures !IsMissing(obj, fields[j]) {
          if j < |init| { assert fields[j] == init[j]; }
        }
      }
      if forall j :: 0 <= j < |fields| ==> !IsMissing(obj, fields[j]) {
        forall j | 0 <= j < |init| ensures !IsMissing(obj, init[j]) {
          assert init[j] == fields[j];
        }
      }
    }
  }

  /** Every missing listed field gets its entry. */
  lemma {:induction false} MissingFieldIsReported(obj: Fields, fields: seq<string>, section: string, j: nat)
    requires j < |fields| && IsMissing(obj, fields[j])
    ensures MissingEntry(section, fields[j]) in MissingWarnings(obj, fields, section)
  {
    var init := fields[..|fields| - 1];
    if j < |init| {
      assert init[j] == fields[j];
      MissingFieldIsReported(obj, init, section, j);
    }
  }
}
