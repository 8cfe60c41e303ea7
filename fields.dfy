/**
 * The field list a generation run works on: the caller's fields with their
 * names normalised to snake case, after three mandatory fields.
 */
module Fields {
  import opened Wrappers
  import opened Text
  import opened NameConverter
  import opened Declarations

  /**
   * The storage key of one field name. `strpos(name, '_')` is truthy only
   * when the first `_` is at an index above 0: such a name is only
   * lower-cased; every other name, one whose only `_` leads it included,
   * goes through the converter.
   */
  function NormalizeFieldName(name: string): string {
    match FirstIndex(name, '_')
    case Some(i) => if i != 0 then Lower(name) else Normalize(name)
    case None => Normalize(name)
  }

  /** The two branches of `normalizeFields`, stated without `strpos`. */
  lemma NormalizeFieldNameCases(name: string)
    ensures '_' in name && name[0] != '_' ==> NormalizeFieldName(name) == Lower(name)
    ensures '_' !in name || name[0] == '_' ==> NormalizeFieldName(name) == Normalize(name)
  {
    if '_' in name {
      assert name[0] in name;
      if name[0] == '_' {
        assert FirstIndex(name, '_') == Some(0);
      } else {
        assert FirstIndex(name, '_').value != 0;
      }
    }
  }

  /** A normalised name has no upper-case letter, and normalising it again changes nothing. */
  lemma NormalizedNameIsCanonical(name: string)
    ensures NoUpper(NormalizeFieldName(name))
    ensures NormalizeFieldName(NormalizeFieldName(name)) == NormalizeFieldName(name)
  {
    NormalizeFieldNameCases(name);
    var n := NormalizeFieldName(name);
    NormalizeFieldNameCases(n);
    if '_' in name && name[0] != '_' {
      var i :| 0 <= i < |name| && name[i] == '_';
      assert n[i] == '_';
      assert n[0] != '_';
      assert Lower(n) == n;
    } else {
      SnakeOfLower(n);
      assert LcFirst(n) == n;
      assert Normalize(n) == n;
      assert n != [] && '_' in n ==> Lower(n) == n;
    }
  }

  /**
   * `strpos` is falsy when the only `_` leads the name, so `_Title` is not
   * just lower-cased (`_title`) but converted: `__title`.
   */
  lemma LeadingSeparatorQuirk(name: string)
    requires name == "_Title"
    ensures Lower(name) == "_title"
    ensures NormalizeFieldName(name) == "__title"
  {
    assert FirstIndex(name, '_') == Some(0);
    assert LcFirst(name) == name;
    assert name == ['_'] + "Title";
    SnakeCons('_', "Title");
    assert "Title" == ['T'] + "itle";
    SnakeCons('T', "itle");
    SnakeOfLower("itle");
  }

  /** `normalizeFields`: rewrites each name in place; order, count and types are kept. */
  method NormalizeFields(fields: seq<Field>) returns (normalized: seq<Field>)
    ensures |normalized| == |fields|
    ensures forall i :: 0 <= i < |fields| ==>
      normalized[i] == Field(NormalizeFieldName(fields[i].name), fields[i].fieldType)
    ensures normalized == NormalizedFields(fields)
  {
    normalized := fields;
    for key := 0 to |fields|
      invariant |normalized| == |fields|
      invariant forall i :: 0 <= i < key ==>
        normalized[i] == Field(NormalizeFieldName(fields[i].name), fields[i].fieldType)
      invariant normalized[key..] == fields[key..]
    {
      var name := normalized[key].name;
      var position := FirstIndex(name, '_');
      if position.Some? && position.value != 0 {
        normalized := normalized[key := normalized[key].(name := Lower(name))];
      } else {
        normalized := normalized[key := normalized[key].(name := Normalize(name))];
      }
    }
  }

  /** The field list after normalisation, as a value. */
  function NormalizedFields(fields: seq<Field>): (r: seq<Field>)
    ensures |r| == |fields|
  {
    seq(|fields|, i requires 0 <= i < |fields| =>
      Field(NormalizeFieldName(fields[i].name), fields[i].fieldType))
  }

  const MandatoryFields: seq<Field> := [
    Field("id", "integer"),
    Field("created_at", "integer"),
    Field("updated_at", "integer")
  ]

  /** `addMandatoryFields`: the identifier and the two timestamps, then the caller's fields in order. */
  method AddMandatoryFields(fields: seq<Field>) returns (all: seq<Field>)
    ensures |all| == |fields| + 3
    ensures all[0] == Field("id", "integer")
    ensures all[1] == Field("created_at", "integer")
    ensures all[2] == Field("updated_at", "integer")
    ensures forall i :: 0 <= i < |fields| ==> all[i + 3] == fields[i]
    ensures all == MandatoryFields + fields
  {
    all := MandatoryFields + fields;
  }

  /** The field list every builder of a run receives. */
  function PreparedFields(fields: seq<Field>): (r: seq<Field>)
    ensures |r| == |fields| + 3
  {
    MandatoryFields + NormalizedFields(fields)
  }
}
