/** The discovery join: for every class the index lists under one group, ask the annotation
    reader for the annotations of the class, of each of its methods and of each of its
    properties, and file one result per annotation into a flat index keyed by annotation class
    and into per-class indexes. Results are recorded by value (see `Stored`). */
module AnnotationDiscovery {
  import opened Collections
  import opened AnnotationResult
  import CodeInfo

  /** The runtime class of a result object: `AnnotationResultClass`, `...Method` or `...Property`. */
  datatype ResultKind = ClassKind | MethodKind | PropertyKind

  /** A result object as filed: its runtime class and the values its getters return. */
  datatype Stored<P> = Stored(kind: ResultKind, value: ResultValue<P>)

  /** One result produced by the discovery loops, with the annotation class it is filed under. */
  datatype Found<P> = Found(annotationClass: string, stored: Stored<P>)

  /** A method or property as reflection enumerates it. */
  datatype Member = Member(name: string, isStatic: bool, isPrivate: bool)

  /** One entry of the reader's keyed result: annotation class and annotation object. */
  datatype Annotated<P> = Annotated(annotationClass: string, payload: P)

  /** The annotation reader's three list queries. */
  datatype Reader<P> = Reader(
    classAnnotations: string -> seq<Annotated<P>>,
    methodAnnotations: (string, string) -> seq<Annotated<P>>,
    propertyAnnotations: (string, string) -> seq<Annotated<P>>)

  /** Member enumeration (`CachedReflection::getMethods` / `getProperties`). */
  datatype Reflection = Reflection(methodsOf: string -> seq<Member>, propertiesOf: string -> seq<Member>)

  /** The four tables: flat (annotation class to results), class (class to its last
      class-level result), method and property (class to annotation class to results). */
  datatype Index<P> = Index(
    flat: map<string, seq<Stored<P>>>,
    classes: map<string, Stored<P>>,
    methods: map<string, map<string, seq<Stored<P>>>>,
    properties: map<string, map<string, seq<Stored<P>>>>)

  // ---------------------------------------------------------------------------------------
  // What each loop produces

  /** The values of a class-level result: class and annotation set, the rest untouched. */
  function ClassResult<P>(c: string, payload: P): ResultValue<P> {
    ResultValue(c, "", "", None, None, Some(payload))
  }

  /** The values of a method or property result: class, member name, annotation, and the
      member's static and private flags. */
  function MemberResult<P>(c: string, m: Member, kind: ResultKind, payload: P): ResultValue<P> {
    ResultValue(c, if kind == MethodKind then m.name else "", if kind == PropertyKind then m.name else "",
                Some(m.isStatic), Some(m.isPrivate), Some(payload))
  }

  function ClassPart<P>(c: string, anns: seq<Annotated<P>>): seq<Found<P>> {
    if |anns| == 0 then []
    else
      var a := anns[|anns| - 1];
      ClassPart(c, anns[..|anns| - 1]) + [Found(a.annotationClass, Stored(ClassKind, ClassResult(c, a.payload)))]
  }

  function AnnotationsOf<P>(reader: Reader<P>, kind: ResultKind, c: string, name: string): seq<Annotated<P>> {
    if kind == MethodKind then reader.methodAnnotations(c, name) else reader.propertyAnnotations(c, name)
  }

  function MembersOf(reflection: Reflection, kind: ResultKind, c: string): seq<Member> {
    if kind == MethodKind then reflection.methodsOf(c) else reflection.propertiesOf(c)
  }

  function MemberAnnotationPart<P>(c: string, m: Member, kind: ResultKind, anns: seq<Annotated<P>>): seq<Found<P>> {
    if |anns| == 0 then []
    else
      var a := anns[|anns| - 1];
      MemberAnnotationPart(c, m, kind, anns[..|anns| - 1])
      + [Found(a.annotationClass, Stored(kind, MemberResult(c, m, kind, a.payload)))]
  }

  function MemberPart<P>(reader: Reader<P>, c: string, members: seq<Member>, kind: ResultKind): seq<Found<P>> {
    if |members| == 0 then []
    else
      var m := members[|members| - 1];
      MemberPart(reader, c, members[..|members| - 1], kind)
      + MemberAnnotationPart(c, m, kind, AnnotationsOf(reader, kind, c, m.name))
  }

  /** One class: its class-level results, then its methods' results in enumeration order,
      then its properties' results in enumeration order. */
  function ClassStream<P>(reader: Reader<P>, reflection: Reflection, c: string): seq<Found<P>> {
    ClassPart(c, reader.classAnnotations(c))
    + MemberPart(reader, c, reflection.methodsOf(c), MethodKind)
    + MemberPart(reader, c, reflection.propertiesOf(c), PropertyKind)
  }

  /** Every class in turn, in the order the index lists them. */
  function Stream<P>(reader: Reader<P>, reflection: Reflection, names: seq<string>): seq<Found<P>> {
    if |names| == 0 then []
    else Stream(reader, reflection, names[..|names| - 1]) + ClassStream(reader, reflection, names[|names| - 1])
  }

  // ---------------------------------------------------------------------------------------
  // Filing

  /** `$table[$class][$annotation_class] ?? []`. */
  function Scoped<P>(table: map<string, map<string, seq<Stored<P>>>>, c: string, a: string): seq<Stored<P>> {
    if c in table then Bucket(table[c], a) else []
  }

  function AppendScoped<P>(table: map<string, map<string, seq<Stored<P>>>>, c: string, a: string, s: Stored<P>)
    : map<string, map<string, seq<Stored<P>>>>
  {
    table[c := (if c in table then table[c] else map[])[a := Scoped(table, c, a) + [s]]]
  }

  /** The method table for `MethodKind`, the property table otherwise. */
  function ScopedTable<P>(ix: Index<P>, kind: ResultKind): map<string, map<string, seq<Stored<P>>>> {
    if kind == MethodKind then ix.methods else ix.properties
  }

  /** Filing one result: appended to the flat bucket of its annotation class; a class-level
      result overwrites the class's entry, a member result is appended to its scoped bucket. */
  function Record<P>(ix: Index<P>, e: Found<P>): Index<P> {
    var s := e.stored;
    var flat := ix.flat[e.annotationClass := Bucket(ix.flat, e.annotationClass) + [s]];
    match s.kind
    case ClassKind => ix.(flat := flat, classes := ix.classes[s.value.cls := s])
    case MethodKind => ix.(flat := flat, methods := AppendScoped(ix.methods, s.value.cls, e.annotationClass, s))
    case PropertyKind => ix.(flat := flat, properties := AppendScoped(ix.properties, s.value.cls, e.annotationClass, s))
  }

  function Apply<P>(ix: Index<P>, es: seq<Found<P>>): Index<P> {
    if |es| == 0 then ix else Record(Apply(ix, es[..|es| - 1]), es[|es| - 1])
  }

  /** The results of `es` filed under annotation class `a`, in order. */
  function Picked<P>(es: seq<Found<P>>, a: string): seq<Stored<P>> {
    if |es| == 0 then []
    else
      var e := es[|es| - 1];
      Picked(es[..|es| - 1], a) + (if e.annotationClass == a then [e.stored] else [])
  }

  /** The results of `es` of one kind, for class `c`, filed under annotation class `a`. */
  function PickedScoped<P>(es: seq<Found<P>>, kind: ResultKind, c: string, a: string): seq<Stored<P>> {
    if |es| == 0 then []
    else
      var e := es[|es| - 1];
      PickedScoped(es[..|es| - 1], kind, c, a)
      + (if e.annotationClass == a && e.stored.kind == kind && e.stored.value.cls == c then [e.stored] else [])
  }

  /** The results in `ss` of one kind for class `c`, in order. */
  function Only<P>(ss: seq<Stored<P>>, kind: ResultKind, c: string): seq<Stored<P>> {
    if |ss| == 0 then []
    else
      var s := ss[|ss| - 1];
      Only(ss[..|ss| - 1], kind, c) + (if s.kind == kind && s.value.cls == c then [s] else [])
  }

  /** The last class-level result for `c` in `es`, if any. */
  function LastClassResult<P>(es: seq<Found<P>>, c: string): Option<Stored<P>> {
    if |es| == 0 then None
    else
      var e := es[|es| - 1];
      if e.stored.kind == ClassKind && e.stored.value.cls == c then Some(e.stored)
      else LastClassResult(es[..|es| - 1], c)
  }

  function Lookup<P>(classes: map<string, Stored<P>>, c: string): Option<Stored<P>> {
    if c in classes then Some(classes[c]) else None
  }

  /** Every scoped bucket is the flat bucket of the same annotation class restricted to that
      class and kind: the same results, in the same order. */
  ghost predicate Consistent<P>(ix: Index<P>) {
    forall kind, c, a :: kind != ClassKind ==> Scoped(ScopedTable(ix, kind), c, a) == Only(Bucket(ix.flat, a), kind, c)
  }

  lemma ApplySnoc<P>(ix: Index<P>, es: seq<Found<P>>, e: Found<P>)
    ensures Apply(ix, es + [e]) == Record(Apply(ix, es), e)
  {
    assert (es + [e])[..|es|] == es;
  }

  /** The value the setters leave behind is the member result. */
  lemma FilledIsMemberResult<P>(v: ResultValue<P>, c: string, m: Member, kind: ResultKind, payload: P)
    requires kind != ClassKind
    requires v.cls == c && v.annotation == Some(payload)
    requires v.isStatic == Some(m.isStatic) && v.isPrivate == Some(m.isPrivate)
    requires kind == MethodKind ==> v.methodName == m.name && v.propertyName == ""
    requires kind != MethodKind ==> v.propertyName == m.name && v.methodName == ""
    ensures v == MemberResult(c, m, kind, payload)
  {
  }

  lemma ClassPartSnoc<P>(c: string, anns: seq<Annotated<P>>, k: nat)
    requires k < |anns|
    ensures ClassPart(c, anns[..k + 1])
         == ClassPart(c, anns[..k]) + [Found(anns[k].annotationClass, Stored(ClassKind, ClassResult(c, anns[k].payload)))]
  {
    assert anns[..k + 1][..k] == anns[..k];
  }

  lemma MemberAnnotationPartSnoc<P>(c: string, m: Member, kind: ResultKind, anns: seq<Annotated<P>>, k: nat)
    requires k < |anns|
    ensures MemberAnnotationPart(c, m, kind, anns[..k + 1])
         == MemberAnnotationPart(c, m, kind, anns[..k]) + [Found(anns[k].annotationClass, Stored(kind, MemberResult(c, m, kind, anns[k].payload)))]
  {
    assert anns[..k + 1][..k] == anns[..k];
  }

  /** Filing the k-th member result extends the filing of the first k. */
  lemma MemberAnnotationStep<P>(start: Index<P>, before: Index<P>, c: string, m: Member, kind: ResultKind,
                                anns: seq<Annotated<P>>, k: nat)
    requires k < |anns|
    requires before == Apply(start, MemberAnnotationPart(c, m, kind, anns[..k]))
    ensures Record(before, Found(anns[k].annotationClass, Stored(kind, MemberResult(c, m, kind, anns[k].payload))))
         == Apply(start, MemberAnnotationPart(c, m, kind, anns[..k + 1]))
  {
    var s := Stored(kind, MemberResult(c, m, kind, anns[k].payload));
    MemberAnnotationPartSnoc(c, m, kind, anns, k);
    ApplySnoc(start, MemberAnnotationPart(c, m, kind, anns[..k]), Found(anns[k].annotationClass, s));
  }

  lemma MemberPartSnoc<P>(reader: Reader<P>, c: string, members: seq<Member>, kind: ResultKind, k: nat)
    requires k < |members|
    ensures MemberPart(reader, c, members[..k + 1], kind)
         == MemberPart(reader, c, members[..k], kind) + MemberAnnotationPart(c, members[k], kind, AnnotationsOf(reader, kind, c, members[k].name))
  {
    assert members[..k + 1][..k] == members[..k];
  }

  lemma {:induction false} ApplyConcat<P>(ix: Index<P>, a: seq<Found<P>>, b: seq<Found<P>>)
    ensures Apply(ix, a + b) == Apply(Apply(ix, a), b)
  {
    if |b| == 0 {
      assert a + b == a;
    } else {
      var init := b[..|b| - 1];
      assert a + b == (a + init) + [b[|b| - 1]];
      ApplySnoc(ix, a + init, b[|b| - 1]);
      ApplyConcat(ix, a, init);
    }
  }

  lemma RecordFlat<P>(ix: Index<P>, e: Found<P>, a: string)
    ensures Bucket(Record(ix, e).flat, a) == Bucket(ix.flat, a) + (if e.annotationClass == a then [e.stored] else [])
  {
  }

  lemma RecordScoped<P>(ix: Index<P>, e: Found<P>, kind: ResultKind, c: string, a: string)
    requires kind != ClassKind
    ensures Scoped(ScopedTable(Record(ix, e), kind), c, a)
         == Scoped(ScopedTable(ix, kind), c, a)
            + (if e.annotationClass == a && e.stored.kind == kind && e.stored.value.cls == c then [e.stored] else [])
  {
    var s := e.stored;
    if s.kind == kind {
      var t := ScopedTable(ix, kind);
      assert ScopedTable(Record(ix, e), kind) == AppendScoped(t, s.value.cls, e.annotationClass, s);
    } else {
      assert ScopedTable(Record(ix, e), kind) == ScopedTable(ix, kind);
    }
  }

  /** Discovery only appends to the flat index: each bucket keeps its earlier results and gains
      exactly the new results filed under its annotation class, in order. */
  lemma {:induction false} ApplyFlat<P>(ix: Index<P>, es: seq<Found<P>>, a: string)
    ensures Bucket(Apply(ix, es).flat, a) == Bucket(ix.flat, a) + Picked(es, a)
  {
    if |es| > 0 {
      ApplyFlat(ix, es[..|es| - 1], a);
      RecordFlat(Apply(ix, es[..|es| - 1]), es[|es| - 1], a);
    }
  }

  /** The same for the method and property indexes. */
  lemma {:induction false} ApplyScoped<P>(ix: Index<P>, es: seq<Found<P>>, kind: ResultKind, c: string, a: string)
    requires kind != ClassKind
    ensures Scoped(ScopedTable(Apply(ix, es), kind), c, a) == Scoped(ScopedTable(ix, kind), c, a) + PickedScoped(es, kind, c, a)
  {
    if |es| > 0 {
      ApplyScoped(ix, es[..|es| - 1], kind, c, a);
      RecordScoped(Apply(ix, es[..|es| - 1]), es[|es| - 1], kind, c, a);
    }
  }

  /** The class index holds, per class, its last class-level result; a class without one in
      `es` keeps its entry. */
  lemma {:induction false} ApplyClasses<P>(ix: Index<P>, es: seq<Found<P>>, c: string)
    ensures Lookup(Apply(ix, es).classes, c)
         == if LastClassResult(es, c).Some? then LastClassResult(es, c) else Lookup(ix.classes, c)
  {
    if |es| > 0 {
      ApplyClasses(ix, es[..|es| - 1], c);
    }
  }

  lemma RecordConsistent<P>(ix: Index<P>, e: Found<P>)
    requires Consistent(ix)
    ensures Consistent(Record(ix, e))
  {
    var after := Record(ix, e);
    forall kind, c, a | kind != ClassKind
      ensures Scoped(ScopedTable(after, kind), c, a) == Only(Bucket(after.flat, a), kind, c)
    {
      var before := Bucket(ix.flat, a);
      RecordScoped(ix, e, kind, c, a);
      RecordFlat(ix, e, a);
      if a == e.annotationClass {
        assert (before + [e.stored])[..|before|] == before;
      } else {
        assert Bucket(after.flat, a) == before;
      }
    }
  }

  /** Discovery keeps every scoped bucket equal to its slice of the flat bucket. */
  lemma {:induction false} ApplyConsistent<P>(ix: Index<P>, es: seq<Found<P>>)
    requires Consistent(ix)
    ensures Consistent(Apply(ix, es))
  {
    if |es| > 0 {
      ApplyConsistent(ix, es[..|es| - 1]);
      RecordConsistent(Apply(ix, es[..|es| - 1]), es[|es| - 1]);
    }
  }

  /** The empty tables are consistent. */
  lemma EmptyConsistent<P>(ix: Index<P>)
    requires ix.flat == map[] && ix.methods == map[] && ix.properties == map[]
    ensures Consistent(ix)
  {
  }

  // ---------------------------------------------------------------------------------------
  // Shape of the stream

  function Rank(kind: ResultKind): nat {
    match kind
    case ClassKind => 0
    case MethodKind => 1
    case PropertyKind => 2
  }

  lemma {:induction false} ClassPartShape<P>(c: string, anns: seq<Annotated<P>>)
    ensures |ClassPart(c, anns)| == |anns|
    ensures forall j :: 0 <= j < |anns| ==>
      ClassPart(c, anns)[j] == Found(anns[j].annotationClass, Stored(ClassKind, ClassResult(c, anns[j].payload)))
  {
    if |anns| > 0 {
      ClassPartShape(c, anns[..|anns| - 1]);
    }
  }

  lemma {:induction false} MemberAnnotationPartShape<P>(c: string, m: Member, kind: ResultKind, anns: seq<Annotated<P>>)
    ensures |MemberAnnotationPart(c, m, kind, anns)| == |anns|
    ensures forall j :: 0 <= j < |anns| ==>
      MemberAnnotationPart(c, m, kind, anns)[j] == Found(anns[j].annotationClass, Stored(kind, MemberResult(c, m, kind, anns[j].payload)))
  {
    if |anns| > 0 {
      MemberAnnotationPartShape(c, m, kind, anns[..|anns| - 1]);
    }
  }

  /** Every member result carries its class, the name and static and private flags of one of
      the enumerated members, and the member's kind. */
  lemma {:induction false} MemberPartCarriesSubject<P>(reader: Reader<P>, c: string, members: seq<Member>, kind: ResultKind, e: Found<P>)
    requires e in MemberPart(reader, c, members, kind)
    ensures e.stored.kind == kind && e.stored.value.cls == c
    ensures exists m, p :: m in members && e.stored.value == MemberResult(c, m, kind, p)
  {
    var init, m := members[..|members| - 1], members[|members| - 1];
    var anns := AnnotationsOf(reader, kind, c, m.name);
    if e in MemberPart(reader, c, init, kind) {
      MemberPartCarriesSubject(reader, c, init, kind, e);
      var m', p :| m' in init && e.stored.value == MemberResult(c, m', kind, p);
      assert m' in members;
    } else {
      MemberAnnotationPartShape(c, m, kind, anns);
      var j :| 0 <= j < |anns| && MemberAnnotationPart(c, m, kind, anns)[j] == e;
      assert m in members && e.stored.value == MemberResult(c, m, kind, anns[j].payload);
    }
  }

  /** Within one class the results come class-level first, then methods, then properties. */
  lemma ClassStreamOrdered<P>(reader: Reader<P>, reflection: Reflection, c: string)
    ensures forall i, j :: 0 <= i < j < |ClassStream(reader, reflection, c)| ==>
      Rank(ClassStream(reader, reflection, c)[i].stored.kind) <= Rank(ClassStream(reader, reflection, c)[j].stored.kind)
  {
    var cp := ClassPart(c, reader.classAnnotations(c));
    var mp := MemberPart(reader, c, reflection.methodsOf(c), MethodKind);
    var pp := MemberPart(reader, c, reflection.propertiesOf(c), PropertyKind);
    var es := ClassStream(reader, reflection, c);
    ClassPartShape(c, reader.classAnnotations(c));
    forall i | 0 <= i < |es| ensures Rank(es[i].stored.kind) == if i < |cp| then 0 else if i < |cp| + |mp| then 1 else 2 {
      if i < |cp| {
        assert es[i] == cp[i];
      } else if i < |cp| + |mp| {
        assert es[i] == mp[i - |cp|];
        MemberPartCarriesSubject(reader, c, reflection.methodsOf(c), MethodKind, es[i]);
      } else {
        assert es[i] == pp[i - |cp| - |mp|];
        MemberPartCarriesSubject(reader, c, reflection.propertiesOf(c), PropertyKind, es[i]);
      }
    }
  }

  // ---------------------------------------------------------------------------------------
  // Counting

  /** The number of annotations the reader returns for the members given. */
  function MemberAnnotationCount<P>(reader: Reader<P>, c: string, members: seq<Member>, kind: ResultKind): nat {
    if |members| == 0 then 0
    else
      MemberAnnotationCount(reader, c, members[..|members| - 1], kind)
      + |AnnotationsOf(reader, kind, c, members[|members| - 1].name)|
  }

  /** The number of annotations the reader returns for the listed classes and their members. */
  function AnnotationCount<P>(reader: Reader<P>, reflection: Reflection, names: seq<string>): nat {
    if |names| == 0 then 0
    else
      var c := names[|names| - 1];
      AnnotationCount(reader, reflection, names[..|names| - 1])
      + |reader.classAnnotations(c)|
      + MemberAnnotationCount(reader, c, reflection.methodsOf(c), MethodKind)
      + MemberAnnotationCount(reader, c, reflection.propertiesOf(c), PropertyKind)
  }

  lemma {:induction false} MemberPartLength<P>(reader: Reader<P>, c: string, members: seq<Member>, kind: ResultKind)
    ensures |MemberPart(reader, c, members, kind)| == MemberAnnotationCount(reader, c, members, kind)
  {
    if |members| > 0 {
      var m := members[|members| - 1];
      MemberPartLength(reader, c, members[..|members| - 1], kind);
      MemberAnnotationPartShape(c, m, kind, AnnotationsOf(reader, kind, c, m.name));
    }
  }

  /** One result per annotation the reader returns. */
  lemma {:induction false} StreamLength<P>(reader: Reader<P>, reflection: Reflection, names: seq<string>)
    ensures |Stream(reader, reflection, names)| == AnnotationCount(reader, reflection, names)
  {
    if |names| > 0 {
      var c := names[|names| - 1];
      StreamLength(reader, reflection, names[..|names| - 1]);
      ClassPartShape(c, reader.classAnnotations(c));
      MemberPartLength(reader, c, reflection.methodsOf(c), MethodKind);
      MemberPartLength(reader, c, reflection.propertiesOf(c), PropertyKind);
    }
  }

  /** The total size of the flat buckets of the given annotation classes. */
  function FlatSize<P>(flat: map<string, seq<Stored<P>>>, keys: seq<string>): nat {
    if |keys| == 0 then 0 else FlatSize(flat, keys[..|keys| - 1]) + |Bucket(flat, keys[|keys| - 1])|
  }

  function Occurrences(keys: seq<string>, a: string): nat {
    if |keys| == 0 then 0 else Occurrences(keys[..|keys| - 1], a) + (if keys[|keys| - 1] == a then 1 else 0)
  }

  lemma {:induction false} OccursOnce(keys: seq<string>, a: string)
    requires NoDup(keys) && a in keys
    ensures Occurrences(keys, a) == 1
  {
    var init := keys[..|keys| - 1];
    assert keys == init + [keys[|keys| - 1]];
    if keys[|keys| - 1] == a {
      if Occurrences(init, a) != 0 {
        OccurrencesCount(init, a);
      }
    } else {
      OccursOnce(init, a);
    }
  }

  lemma {:induction false} OccurrencesCount(keys: seq<string>, a: string)
    ensures Occurrences(keys, a) > 0 <==> a in keys
  {
    if |keys| > 0 {
      OccurrencesCount(keys[..|keys| - 1], a);
      assert keys == keys[..|keys| - 1] + [keys[|keys| - 1]];
    }
  }

  lemma {:induction false} FlatSizeAfterRecord<P>(ix: Index<P>, e: Found<P>, keys: seq<string>)
    ensures FlatSize(Record(ix, e).flat, keys) == FlatSize(ix.flat, keys) + Occurrences(keys, e.annotationClass)
  {
    if |keys| > 0 {
      FlatSizeAfterRecord(ix, e, keys[..|keys| - 1]);
      RecordFlat(ix, e, keys[|keys| - 1]);
    }
  }

  /** Counted over a list of distinct annotation classes covering every filed result, the
      flat index grows by exactly one entry per result. */
  lemma {:induction false} FlatGrowsByResults<P>(ix: Index<P>, es: seq<Found<P>>, keys: seq<string>)
    requires NoDup(keys)
    requires forall e :: e in es ==> e.annotationClass in keys
    ensures FlatSize(Apply(ix, es).flat, keys) == FlatSize(ix.flat, keys) + |es|
  {
    if |es| > 0 {
      var init := es[..|es| - 1];
      assert forall e :: e in init ==> e in es;
      FlatGrowsByResults(ix, init, keys);
      FlatSizeAfterRecord(Apply(ix, init), es[|es| - 1], keys);
      OccursOnce(keys, es[|es| - 1].annotationClass);
    }
  }

  /** The reader of `DiscoveryScenario`: class `App\User` is annotated `Entity`, its method
      `find` is annotated `Query`. */
  function ScenarioReader(): Reader<string> {
    Reader(
      (c: string) => if c == "App\\User" then [Annotated("Entity", "e")] else [],
      (c: string, m: string) => if c == "App\\User" && m == "find" then [Annotated("Query", "q")] else [],
      (c: string, m: string) => [])
  }

  /** `App\User` has one method, `find`, static and public, and no properties. */
  function ScenarioReflection(): Reflection {
    Reflection(
      (c: string) => if c == "App\\User" then [Member("find", true, false)] else [],
      (c: string) => [])
  }

  /** For `App\User` the reader and reflection above yield the class-level result, then the
      result for `find`. */
  lemma ScenarioStream()
    ensures Stream(ScenarioReader(), ScenarioReflection(), ["App\\User"])
         == [Found("Entity", Stored(ClassKind, ClassResult("App\\User", "e"))),
             Found("Query", Stored(MethodKind, MemberResult("App\\User", Member("find", true, false), MethodKind, "q")))]
  {
    var reader := ScenarioReader();
    var reflection := ScenarioReflection();
    var cls := "App\\User";
    var find := Member("find", true, false);
    var classFound := Found("Entity", Stored(ClassKind, ClassResult(cls, "e")));
    var methodFound := Found("Query", Stored(MethodKind, MemberResult(cls, find, MethodKind, "q")));
    assert ClassPart(cls, reader.classAnnotations(cls)) == [classFound] by {
      assert [Annotated("Entity", "e")][..0] == [];
    }
    assert MemberAnnotationPart(cls, find, MethodKind, [Annotated("Query", "q")]) == [methodFound] by {
      assert [Annotated("Query", "q")][..0] == [];
    }
    assert MemberPart(reader, cls, [find], MethodKind) == [methodFound] by {
      assert [find][..0] == [];
    }
    assert MemberPart(reader, cls, reflection.propertiesOf(cls), PropertyKind) == [];
    assert ClassStream(reader, reflection, cls) == [classFound, methodFound];
    assert [cls][..0] == [];
  }

  /** Discovering `App\User` from empty tables: the flat index files one result under each
      annotation class, the class index holds the class-level result and the method index the
      method result. */
  lemma DiscoveryScenario()
    ensures var ix := Apply(Index(map[], map[], map[], map[]), Stream(ScenarioReader(), ScenarioReflection(), ["App\\User"]));
            var classResult := Stored(ClassKind, ResultValue("App\\User", "", "", None, None, Some("e")));
            var methodResult := Stored(MethodKind, ResultValue("App\\User", "find", "", Some(true), Some(false), Some("q")));
            && ix.flat == map["Entity" := [classResult], "Query" := [methodResult]]
            && ix.classes == map["App\\User" := classResult]
            && ix.methods == map["App\\User" := map["Query" := [methodResult]]]
            && ix.properties == map[]
  {
    ScenarioStream();
    var classResult := Stored(ClassKind, ResultValue("App\\User", "", "", None, None, Some("e")));
    var methodResult := Stored(MethodKind, ResultValue("App\\User", "find", "", Some(true), Some(false), Some("q")));
    var classFound := Found("Entity", classResult);
    var methodFound := Found("Query", methodResult);
    var empty: Index<string> := Index(map[], map[], map[], map[]);
    var ix1 := Record(empty, classFound);
    assert Bucket(empty.flat, "Entity") + [classResult] == [classResult];
    assert classResult.value.cls == "App\\User";
    assert ix1 == Index(map["Entity" := [classResult]], map["App\\User" := classResult], map[], map[]);
    var ix2 := Record(ix1, methodFound);
    assert methodResult.value.cls == "App\\User";
    assert Scoped(ix1.methods, "App\\User", "Query") + [methodResult] == [methodResult];
    assert Bucket(ix1.flat, "Query") + [methodResult] == [methodResult];
    assert ix2.methods == map["App\\User" := map["Query" := [methodResult]]];
    assert ix2.flat == map["Entity" := [classResult], "Query" := [methodResult]];
    ApplySnoc(empty, [classFound], methodFound);
    ApplySnoc(empty, [], classFound);
    assert [] + [classFound] == [classFound];
    assert [classFound] + [methodFound] == [classFound, methodFound];
  }

  // ---------------------------------------------------------------------------------------
  // The object

  class AnnotationDiscovery<D, P> {
    const codeInfo: CodeInfo.CodeInfo<D>
    const reader: Reader<P>
    const reflection: Reflection

    var discovered: map<string, seq<Stored<P>>>
    var discoveredClasses: map<string, Stored<P>>
    var discoveredMethods: map<string, map<string, seq<Stored<P>>>>
    var discoveredProperties: map<string, map<string, seq<Stored<P>>>>

    constructor (codeInfo: CodeInfo.CodeInfo<D>, reader: Reader<P>, reflection: Reflection)
      ensures this.codeInfo == codeInfo && this.reader == reader && this.reflection == reflection
      ensures State() == Index(map[], map[], map[], map[])
    {
      this.codeInfo := codeInfo;
      this.reader := reader;
      this.reflection := reflection;
      discovered, discoveredClasses, discoveredMethods, discoveredProperties := map[], map[], map[], map[];
    }

    function State(): Index<P>
      reads this
    {
      Index(discovered, discoveredClasses, discoveredMethods, discoveredProperties)
    }

    /** `setDiscovered` replaces the flat index only and returns what it stored. */
    method SetDiscovered(d: map<string, seq<Stored<P>>>) returns (r: map<string, seq<Stored<P>>>)
      modifies this
      ensures r == d
      ensures State() == old(State()).(flat := d)
    {
      discovered := d;
      return discovered;
    }

    /** `getAll`: the flat index, whose buckets are what `getDiscovered` answers. */
    function GetAll(): (r: map<string, seq<Stored<P>>>)
      reads this
      ensures r == State().flat
      ensures forall a :: a in r ==> GetDiscovered(a) == r[a]
      ensures forall a :: a !in r ==> GetDiscovered(a) == []
    {
      discovered
    }

    /** `getDiscovered`: the flat bucket, or empty for an annotation class never filed. */
    function GetDiscovered(a: string): (r: seq<Stored<P>>)
      reads this
      ensures a !in discovered ==> r == []
      ensures a in discovered ==> r == discovered[a]
    {
      Bucket(discovered, a)
    }

    /** `getDiscoveredMethods`: empty when the (class, annotation class) pair is absent. */
    function GetDiscoveredMethods(c: string, a: string): (r: seq<Stored<P>>)
      reads this
      ensures !(c in discoveredMethods && a in discoveredMethods[c]) ==> r == []
      ensures c in discoveredMethods && a in discoveredMethods[c] ==> r == discoveredMethods[c][a]
    {
      Scoped(discoveredMethods, c, a)
    }

    /** `getDiscoveredProperties`: empty when the (class, annotation class) pair is absent. */
    function GetDiscoveredProperties(c: string, a: string): (r: seq<Stored<P>>)
      reads this
      ensures !(c in discoveredProperties && a in discoveredProperties[c]) ==> r == []
      ensures c in discoveredProperties && a in discoveredProperties[c] ==> r == discoveredProperties[c][a]
    {
      Scoped(discoveredProperties, c, a)
    }

    /** The assignment closing each inner loop: the result is appended to the flat bucket of
        its annotation class and, by kind, overwrites the class entry or is appended to the
        class's scoped bucket. */
    method File(annotationClass: string, s: Stored<P>)
      modifies this
      ensures State() == Record(old(State()), Found(annotationClass, s))
    {
      var c := s.value.cls;
      match s.kind
      case ClassKind =>
        discovered := discovered[annotationClass := Bucket(discovered, annotationClass) + [s]];
        discoveredClasses := discoveredClasses[c := s];
      case MethodKind =>
        discovered := discovered[annotationClass := Bucket(discovered, annotationClass) + [s]];
        discoveredMethods := AppendScoped(discoveredMethods, c, annotationClass, s);
      case PropertyKind =>
        discovered := discovered[annotationClass := Bucket(discovered, annotationClass) + [s]];
        discoveredProperties := AppendScoped(discoveredProperties, c, annotationClass, s);
    }

    /** The first inner loop: one class-level result per class annotation. */
    method DiscoverClassAnnotations(c: string)
      modifies this
      ensures State() == Apply(old(State()), ClassPart(c, reader.classAnnotations(c)))
    {
      ghost var start := State();
      var anns := reader.classAnnotations(c);
      var k := 0;
      while k < |anns|
        invariant 0 <= k <= |anns|
        invariant State() == Apply(start, ClassPart(c, anns[..k]))
      {
        var a := anns[k];
        var v := NewClassResult(c, a.payload);
        var s := Stored(ClassKind, v);
        ClassPartSnoc(c, anns, k);
        ApplySnoc(start, ClassPart(c, anns[..k]), Found(a.annotationClass, s));
        File(a.annotationClass, s);
        k := k + 1;
      }
      assert anns[..k] == anns;
    }

    /** The body of the inner member loop: the result built through the setters, filed. */
    method FileMemberAnnotation(c: string, m: Member, kind: ResultKind, a: Annotated<P>)
      requires kind != ClassKind
      modifies this
      ensures State() == Record(old(State()), Found(a.annotationClass, Stored(kind, MemberResult(c, m, kind, a.payload))))
    {
      var v := Fill(c, m.name, kind == MethodKind, a.payload, m.isStatic, m.isPrivate);
      FilledIsMemberResult(v, c, m, kind, a.payload);
      File(a.annotationClass, Stored(kind, v));
    }

    /** The annotations of one member: one result each, filed flat and per class. */
    method DiscoverMemberAnnotations(c: string, m: Member, kind: ResultKind)
      requires kind != ClassKind
      modifies this
      ensures State() == Apply(old(State()), MemberAnnotationPart(c, m, kind, AnnotationsOf(reader, kind, c, m.name)))
    {
      ghost var start := State();
      var anns := AnnotationsOf(reader, kind, c, m.name);
      var k := 0;
      while k < |anns|
        invariant 0 <= k <= |anns|
        invariant State() == Apply(start, MemberAnnotationPart(c, m, kind, anns[..k]))
      {
        MemberAnnotationStep(start, State(), c, m, kind, anns, k);
        FileMemberAnnotation(c, m, kind, anns[k]);
        k := k + 1;
      }
      assert anns[..k] == anns;
    }

    /** The second (methods) or third (properties) loop over the enumerated members. */
    method DiscoverMembers(c: string, kind: ResultKind)
      requires kind != ClassKind
      modifies this
      ensures State() == Apply(old(State()), MemberPart(reader, c, MembersOf(reflection, kind, c), kind))
    {
      ghost var start := State();
      var members := MembersOf(reflection, kind, c);
      var k := 0;
      while k < |members|
        invariant 0 <= k <= |members|
        invariant State() == Apply(start, MemberPart(reader, c, members[..k], kind))
      {
        MemberPartSnoc(reader, c, members, kind, k);
        ApplyConcat(start, MemberPart(reader, c, members[..k], kind),
                    MemberAnnotationPart(c, members[k], kind, AnnotationsOf(reader, kind, c, members[k].name)));
        DiscoverMemberAnnotations(c, members[k], kind);
        k := k + 1;
      }
      assert members[..k] == members;
    }

    /** One pass of the outer loop: the class's annotations, then its methods', then its
        properties'. */
    method DiscoverClass(c: string)
      modifies this
      ensures State() == Apply(old(State()), ClassStream(reader, reflection, c))
    {
      ghost var cp := ClassPart(c, reader.classAnnotations(c));
      ghost var mp := MemberPart(reader, c, reflection.methodsOf(c), MethodKind);
      ghost var pp := MemberPart(reader, c, reflection.propertiesOf(c), PropertyKind);
      DiscoverClassAnnotations(c);
      DiscoverMembers(c, MethodKind);
      ApplyConcat(old(State()), cp, mp);
      DiscoverMembers(c, PropertyKind);
      ApplyConcat(old(State()), cp + mp, pp);
    }

    /** `discoverByAnnotation`: every class listed under the group, in order, through the
        three loops. */
    method DiscoverByAnnotation(group: string)
      modifies this
      ensures State() == Apply(old(State()), Stream(reader, reflection, codeInfo.GetClassNames([group])))
      ensures old(Consistent(State())) ==> Consistent(State())
    {
      var annotated := codeInfo.GetClassNames([group]);
      var i := 0;
      while i < |annotated|
        invariant 0 <= i <= |annotated|
        invariant State() == Apply(old(State()), Stream(reader, reflection, annotated[..i]))
      {
        var c := annotated[i];
        DiscoverClass(c);
        assert annotated[..i + 1][..i] == annotated[..i];
        ApplyConcat(old(State()), Stream(reader, reflection, annotated[..i]), ClassStream(reader, reflection, c));
        i := i + 1;
      }
      assert annotated[..i] == annotated;
      if old(Consistent(State())) {
        ApplyConsistent(old(State()), Stream(reader, reflection, annotated));
      }
    }
  }

  /** A class-level result object after `setClass` and `setAnnotation`. */
  method NewClassResult<P>(c: string, payload: P) returns (v: ResultValue<P>)
    ensures v == ClassResult(c, payload)
  {
    var r := new AnnotationResult<P>();
    r.SetClass(c);
    r.SetAnnotation(payload);
    v := r.Value();
  }
}
