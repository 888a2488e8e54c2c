/**
 * Templates with named placeholders, as used by Python's `string.Template(t).substitute(mapping)`
 * (placeholders `$name`) and `t.format(name=value)` (placeholders `{name}`). A template is kept
 * already split into literal text and placeholders; substitution replaces each placeholder by
 * its value in the mapping, verbatim, and fails with the name of the first placeholder the
 * mapping lacks (Python raises `KeyError(name)`).
 */
module Templates {
  import opened Wrappers

  datatype Segment = Lit(text: string) | Hole(name: string)

  type Template = seq<Segment>

  /** The placeholder names occurring in a template. */
  function Holes(t: Template): set<string>
    decreases |t|
  {
    if |t| == 0 then {}
    else (if t[0].Hole? then {t[0].name} else {}) + Holes(t[1..])
  }

  /** The text a template stands for when it has no placeholders. */
  function LiteralText(t: Template): string
    decreases |t|
  {
    if |t| == 0 then ""
    else (if t[0].Lit? then t[0].text else "") + LiteralText(t[1..])
  }

  /** What one segment becomes, given that its placeholder (if any) is in the mapping. */
  function SegmentText(s: Segment, mapping: map<string, string>): string
    requires s.Hole? ==> s.name in mapping
  {
    match s
    case Lit(text) => text
    case Hole(name) => mapping[name]
  }

  /**
   * Substitution. It succeeds exactly when every placeholder is in the mapping;
   * otherwise it reports a placeholder missing from the mapping such that every
   * placeholder before it is present (the first missing one, left to right).
   */
  function Substitute(t: Template, mapping: map<string, string>): (r: Result<string, string>)
    ensures r.Success? <==> Holes(t) <= mapping.Keys
    ensures r.Failure? ==> r.error in Holes(t) && r.error !in mapping
    ensures r.Failure? ==> exists k :: 0 <= k < |t| && t[k] == Hole(r.error) && Holes(t[..k]) <= mapping.Keys
    decreases |t|
  {
    if |t| == 0 then Success("")
    else if t[0].Hole? && t[0].name !in mapping then
      assert t[..0] == [];
      Failure(t[0].name)
    else
      match Substitute(t[1..], mapping)
      case Failure(e) =>
        var k :| 0 <= k < |t[1..]| && t[1..][k] == Hole(e) && Holes(t[1..][..k]) <= mapping.Keys;
        assert t[..k + 1][1..] == t[1..][..k];
        Failure(e)
      case Success(rest) => Success(SegmentText(t[0], mapping) + rest)
  }

  lemma {:induction false} HolesAppend(a: Template, b: Template)
    ensures Holes(a + b) == Holes(a) + Holes(b)
    decreases |a|
  {
    if |a| > 0 {
      assert (a + b)[1..] == a[1..] + b;
      HolesAppend(a[1..], b);
    } else {
      assert a + b == b;
    }
  }

  /** One step of substitution: the first segment's text before the substitution of the rest. */
  lemma SubstituteCons(t: Template, mapping: map<string, string>)
    requires |t| > 0 && Holes(t) <= mapping.Keys
    ensures t[0].Hole? ==> t[0].name in mapping
    ensures Holes(t[1..]) <= mapping.Keys
    ensures Substitute(t, mapping).value == SegmentText(t[0], mapping) + Substitute(t[1..], mapping).value
  {
  }

  /** Substituting into a concatenation concatenates the substitutions. */
  lemma {:induction false} SubstituteAppend(a: Template, b: Template, mapping: map<string, string>)
    requires Holes(a + b) <= mapping.Keys
    ensures Holes(a) <= mapping.Keys && Holes(b) <= mapping.Keys
    ensures Substitute(a + b, mapping).value == Substitute(a, mapping).value + Substitute(b, mapping).value
    decreases |a|
  {
    HolesAppend(a, b);
    if |a| == 0 {
      assert a + b == b;
    } else {
      var ab := a + b;
      assert ab[1..] == a[1..] + b;
      assert ab[0] == a[0];
      SubstituteCons(ab, mapping);
      SubstituteCons(a, mapping);
      SubstituteAppend(a[1..], b, mapping);
      var head := SegmentText(a[0], mapping);
      var x, y := Substitute(a[1..], mapping).value, Substitute(b, mapping).value;
      assert head + (x + y) == (head + x) + y;
    }
  }

  /**
   * Each segment is replaced where it stands: the result is the substitution of
   * the segments before it, then the segment's own text, then the substitution of
   * the segments after it. So literal text is kept verbatim and in place.
   */
  lemma SubstituteAt(t: Template, mapping: map<string, string>, k: nat)
    requires Holes(t) <= mapping.Keys
    requires k < |t|
    ensures t[k].Hole? ==> t[k].name in mapping
    ensures Holes(t[..k]) <= mapping.Keys && Holes(t[k + 1..]) <= mapping.Keys
    ensures Substitute(t, mapping).value ==
            Substitute(t[..k], mapping).value + SegmentText(t[k], mapping) + Substitute(t[k + 1..], mapping).value
  {
    assert t == t[..k] + ([t[k]] + t[k + 1..]);
    SubstituteAppend(t[..k], [t[k]] + t[k + 1..], mapping);
    SubstituteAppend([t[k]], t[k + 1..], mapping);
    assert [t[k]][1..] == [];
  }

  /** A template without placeholders substitutes to its literal text, whatever the mapping. */
  lemma {:induction false} SubstituteNoHoles(t: Template, mapping: map<string, string>)
    requires Holes(t) == {}
    ensures Substitute(t, mapping) == Success(LiteralText(t))
    decreases |t|
  {
    if |t| > 0 {
      SubstituteNoHoles(t[1..], mapping);
    }
  }

  /** Only the mapping's entries for placeholders of the template matter. */
  lemma {:induction false} SubstituteUsesOnlyHoles(t: Template, m1: map<string, string>, m2: map<string, string>)
    requires forall h :: h in Holes(t) ==> (h in m1 <==> h in m2)
    requires forall h :: h in Holes(t) && h in m1 ==> m1[h] == m2[h]
    ensures Substitute(t, m1) == Substitute(t, m2)
    decreases |t|
  {
    if |t| > 0 {
      SubstituteUsesOnlyHoles(t[1..], m1, m2);
    }
  }
}
