// The `DTS:Property` children shared by connection managers and variables:
// `for prop in ...: if name: d[name] = value`, later duplicates winning.
module Properties {
  import opened Wrappers
  import opened Xml
  import Assoc

  /** What one `DTS:Property` contributes: its name and value, if the name is not empty. */
  function PropertyEntry(p: Element): Option<(string, string)> {
    var n := DtsAttr(p, "Name");
    if n != "" then Some((n, DtsAttr(p, "Value"))) else None
  }

  function PropertyEntries(ps: seq<Element>): (r: seq<Option<(string, string)>>)
    ensures |r| == |ps|
  {
    seq(|ps|, i requires 0 <= i < |ps| => PropertyEntry(ps[i]))
  }

  lemma PropertyEntriesSnoc(elems: seq<Element>, i: nat)
    requires i < |elems|
    ensures PropertyEntries(elems[..i + 1]) == PropertyEntries(elems[..i]) + [PropertyEntry(elems[i])]
  {
    assert elems[..i + 1][..i] == elems[..i];
  }

  /** Loops `for prop in elems: if name: d[name] = value` starting from `init`. */
  method FillProperties(init: map<string, string>, elems: seq<Element>) returns (d: map<string, string>)
    ensures d == Assoc.Fold(init, PropertyEntries(elems))
  {
    d := init;
    var i := 0;
    while i < |elems|
      invariant 0 <= i <= |elems|
      invariant d == Assoc.Fold(init, PropertyEntries(elems[..i]))
    {
      var name := DtsAttr(elems[i], "Name");
      var value := DtsAttr(elems[i], "Value");
      PropertyEntriesSnoc(elems, i);
      Assoc.FoldSnoc(init, PropertyEntries(elems[..i]), PropertyEntry(elems[i]));
      if name != "" {
        d := d[name := value];
      }
      i := i + 1;
    }
    assert elems[..i] == elems;
  }

  /** Every property with a non-empty name is kept, under the value of its last occurrence. */
  lemma PropertiesKept(init: map<string, string>, elems: seq<Element>, i: nat)
    requires i < |elems| && DtsAttr(elems[i], "Name") != ""
    requires forall j :: i < j < |elems| ==> DtsAttr(elems[j], "Name") != DtsAttr(elems[i], "Name")
    ensures var d := Assoc.Fold(init, PropertyEntries(elems));
      DtsAttr(elems[i], "Name") in d && d[DtsAttr(elems[i], "Name")] == DtsAttr(elems[i], "Value")
  {
    var es := PropertyEntries(elems);
    forall j | i < j < |es| ensures !Assoc.WritesKey(es, j, es[i].value.0) {
    }
    Assoc.FoldLastWins(init, es, i);
  }

  /** A key is present only if it was there already or some property has that non-empty name. */
  lemma PropertiesOnlyNamed(init: map<string, string>, elems: seq<Element>, k: string)
    requires k in Assoc.Fold(init, PropertyEntries(elems)) && k !in init
    ensures k != "" && exists j :: 0 <= j < |elems| && DtsAttr(elems[j], "Name") == k
  {
    var es := PropertyEntries(elems);
    Assoc.FoldKeys(init, es, k);
    var j :| Assoc.WritesKey(es, j, k);
    assert DtsAttr(elems[j], "Name") == k;
  }

  /** `_parse_..._properties`: every `DTS:Property` below the element, at any depth. */
  method ParseProperties(e: Element) returns (d: map<string, string>)
    ensures d == Assoc.Fold(map[], PropertyEntries(Descendants(e, Dts("Property"))))
  {
    d := FillProperties(map[], Descendants(e, Dts("Property")));
  }
}
