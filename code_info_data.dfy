/** The per-folder declaration store: the raw class names found by the syntax-tree walk,
    and their backslash-joined simple forms, both grouped under a caller-chosen key. */
module CodeInfoData {
  import opened Collections

  /** A resolved PHP name (a `Node\Name`), given by its parts: `App\Model\User` is
      ["App", "Model", "User"]. */
  type Name = seq<string>

  /** The nodes the syntax-tree walk hands to `parse`: a class declaration, whose
      namespaced name the name resolver may or may not have filled in, or anything else. */
  datatype Node = ClassDeclaration(namespacedName: Option<Name>) | OtherNode

  /** `implode('\\', $parts)` for a non-empty list of parts. */
  function Join(parts: seq<string>): string
    requires |parts| > 0
  {
    if |parts| == 1 then parts[0] else parts[0] + "\\" + Join(parts[1..])
  }

  /** `explode('\\', $s)`: the pieces between backslashes. */
  function Split(s: string): (r: seq<string>)
    ensures |r| > 0
  {
    if |s| == 0 then [""]
    else
      var rest := Split(s[1..]);
      if s[0] == '\\' then [""] + rest else [[s[0]] + rest[0]] + rest[1..]
  }

  /** `simplifyClasses`: the parts joined by a backslash, or null when there are none. */
  function SimplifyClasses(name: Name): (r: Option<string>)
    ensures r.None? <==> |name| == 0
  {
    if |name| > 0 then Some(Join(name)) else None
  }

  /** PHP truthiness of a string: neither "" nor "0". */
  predicate Truthy(s: string) {
    s != "" && s != "0"
  }

  /** Whether `addClassName` records a simple form for this name. */
  predicate HasSimpleForm(name: Name) {
    SimplifyClasses(name).Some? && Truthy(SimplifyClasses(name).value)
  }

  /** The simple forms `addClassName` records for a run of names added to one group. */
  function SimplifiedNames(names: seq<Name>): seq<string> {
    if |names| == 0 then []
    else
      var last := names[|names| - 1];
      SimplifiedNames(names[..|names| - 1])
      + (if HasSimpleForm(last) then [SimplifyClasses(last).value] else [])
  }

  lemma {:induction false} SplitWithoutSeparator(a: string)
    requires '\\' !in a
    ensures Split(a) == [a]
  {
    if |a| > 0 {
      SplitWithoutSeparator(a[1..]);
      assert a[0] != '\\';
      assert [a[0]] + a[1..] == a;
    }
  }

  lemma {:induction false} SplitAtFirstSeparator(a: string, b: string)
    requires '\\' !in a
    ensures Split(a + "\\" + b) == [a] + Split(b)
  {
    if |a| == 0 {
      assert a + "\\" + b == "\\" + b;
      assert ("\\" + b)[1..] == b;
    } else {
      assert (a + "\\" + b)[1..] == a[1..] + "\\" + b;
      SplitAtFirstSeparator(a[1..], b);
      assert [a[0]] + a[1..] == a;
    }
  }

  /** When no part contains a backslash, splitting the simple form on backslashes
      gives back the parts. */
  lemma {:induction false} SplitSimplifiedName(name: Name)
    requires |name| > 0
    requires forall i :: 0 <= i < |name| ==> '\\' !in name[i]
    ensures SimplifyClasses(name).Some?
    ensures Split(SimplifyClasses(name).value) == name
  {
    if |name| == 1 {
      SplitWithoutSeparator(name[0]);
    } else {
      SplitSimplifiedName(name[1..]);
      SplitAtFirstSeparator(name[0], Join(name[1..]));
      assert [name[0]] + name[1..] == name;
    }
  }

  /** A group never has more simple forms than raw names. */
  lemma {:induction false} SimplifiedNamesNoLonger(names: seq<Name>)
    ensures |SimplifiedNames(names)| <= |names|
  {
    if |names| > 0 {
      SimplifiedNamesNoLonger(names[..|names| - 1]);
    }
  }

  lemma SimplifiedNamesSnoc(names: seq<Name>, name: Name)
    ensures SimplifiedNames(names + [name])
         == SimplifiedNames(names) + (if HasSimpleForm(name) then [SimplifyClasses(name).value] else [])
  {
    assert (names + [name])[..|names|] == names;
  }

  /** The value accepted by `setAttribute` for each of the two fields. */
  datatype AttributeValue =
    | NamesByGroup(names: map<string, seq<Name>>)
    | StringsByGroup(strings: map<string, seq<string>>)

  class CodeInfoData {
    var classes: map<string, seq<Name>>
    var classesSimplified: map<string, seq<string>>

    /** Every group's simple forms are exactly the recorded simple forms of its raw names, in order. */
    ghost predicate Valid()
      reads this
    {
      forall g :: Bucket(classesSimplified, g) == SimplifiedNames(Bucket(classes, g))
    }

    constructor ()
      ensures classes == map[] && classesSimplified == map[]
      ensures Valid()
    {
      classes := map[];
      classesSimplified := map[];
    }

    /** `getClassNames($group)`: the group's simple forms in insertion order, or none. */
    function GetClassNames(group: string): (r: seq<string>)
      reads this
      ensures Valid() ==> r == SimplifiedNames(Bucket(classes, group))
      ensures group !in classesSimplified ==> r == []
    {
      Bucket(classesSimplified, group)
    }

    /** `addClassName`: always appends the raw name; appends the simple form only when it is
        truthy; touches no other group. */
    method AddClassName(group: string, name: Name)
      modifies this
      ensures classes == old(classes)[group := Bucket(old(classes), group) + [name]]
      ensures HasSimpleForm(name) ==>
        classesSimplified == old(classesSimplified)[group := Bucket(old(classesSimplified), group) + [SimplifyClasses(name).value]]
      ensures !HasSimpleForm(name) ==> classesSimplified == old(classesSimplified)
      ensures old(Valid()) ==> Valid()
    {
      var raw := if group in classes then classes[group] else [];
      classes := classes[group := raw + [name]];
      var simple := SimplifyClasses(name);
      if simple.Some? && Truthy(simple.value) {
        var known := if group in classesSimplified then classesSimplified[group] else [];
        classesSimplified := classesSimplified[group := known + [simple.value]];
      }
      if old(Valid()) {
        forall g ensures Bucket(classesSimplified, g) == SimplifiedNames(Bucket(classes, g)) {
          if g == group {
            assert Bucket(old(classesSimplified), g) == SimplifiedNames(Bucket(old(classes), g));
            SimplifiedNamesSnoc(Bucket(old(classes), g), name);
          } else {
            assert Bucket(old(classesSimplified), g) == SimplifiedNames(Bucket(old(classes), g));
          }
        }
      }
    }

    /** `parse`: only a class declaration with a resolved namespaced name is recorded. */
    method Parse(group: string, node: Node)
      modifies this
      ensures node.ClassDeclaration? && node.namespacedName.Some? ==>
        && classes == old(classes)[group := Bucket(old(classes), group) + [node.namespacedName.value]]
        && (HasSimpleForm(node.namespacedName.value) ==>
              classesSimplified == old(classesSimplified)[group := Bucket(old(classesSimplified), group)
                                                                  + [SimplifyClasses(node.namespacedName.value).value]])
        && (!HasSimpleForm(node.namespacedName.value) ==> classesSimplified == old(classesSimplified))
      ensures !(node.ClassDeclaration? && node.namespacedName.Some?) ==>
        classes == old(classes) && classesSimplified == old(classesSimplified)
      ensures old(Valid()) ==> Valid()
    {
      if node.ClassDeclaration? && node.namespacedName.Some? {
        AddClassName(group, node.namespacedName.value);
      }
    }

    /** `setAttribute`: overwrites the named field; any other name is ignored. */
    method SetAttribute(attr: string, val: AttributeValue)
      modifies this
      ensures attr == "classes" && val.NamesByGroup? ==>
        classes == val.names && classesSimplified == old(classesSimplified)
      ensures attr == "classes_simplified" && val.StringsByGroup? ==>
        classesSimplified == val.strings && classes == old(classes)
      ensures !(attr == "classes" && val.NamesByGroup?) && !(attr == "classes_simplified" && val.StringsByGroup?) ==>
        classes == old(classes) && classesSimplified == old(classesSimplified)
    {
      if attr == "classes" && val.NamesByGroup? {
        classes := val.names;
      } else if attr == "classes_simplified" && val.StringsByGroup? {
        classesSimplified := val.strings;
      }
    }
  }
}
