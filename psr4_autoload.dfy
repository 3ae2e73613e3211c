/** The class-name to file-path mapping behind `registerPsr4Namespace` (identical in
    `AnnotationUtil` and `AnnotationsUtil`): a loader for one namespace prefix and base
    directory, following section 3 of PSR-4 (PHP-FIG), "Specification". The directory
    separator is a parameter; the file system is a predicate. */
module Psr4Autoload {
  import opened Collections

  predicate IsSlash(c: char) {
    c == '/' || c == '\\'
  }

  /** `rtrim($dir, "/\\")`. */
  function RTrimSlashes(dir: string): (r: string)
    ensures r <= dir
    ensures |r| == 0 || !IsSlash(r[|r| - 1])
    ensures forall i :: |r| <= i < |dir| ==> IsSlash(dir[i])
  {
    if |dir| == 0 || !IsSlash(dir[|dir| - 1]) then dir
    else RTrimSlashes(dir[..|dir| - 1])
  }

  /** `str_replace($search, $replace, $subject)` for one search string: every leftmost,
      non-overlapping occurrence is replaced; an empty search string changes nothing. */
  function StrReplace(search: string, replace: string, subject: string): string
    decreases |subject|
  {
    if |search| == 0 || |subject| < |search| then subject
    else if subject[..|search|] == search then replace + StrReplace(search, replace, subject[|search|..])
    else [subject[0]] + StrReplace(search, replace, subject[1..])
  }

  /** `str_replace("\\", DIRECTORY_SEPARATOR, $s)`. */
  function SwapSeparators(s: string, sep: char): (r: string)
    ensures |r| == |s|
    ensures forall i :: 0 <= i < |s| ==> r[i] == if s[i] == '\\' then sep else s[i]
  {
    if |s| == 0 then [] else [if s[0] == '\\' then sep else s[0]] + SwapSeparators(s[1..], sep)
  }

  /** The file path as written: every occurrence of the namespace is removed from the class
      name, not only the leading one. */
  function ClassFilePathAsWritten(namespace: string, dir: string, sep: char, cls: string): string {
    RTrimSlashes(dir) + "/" + SwapSeparators(StrReplace(namespace, "", cls), sep) + ".php"
  }

  /** The file path as section 3 of PSR-4 intends: the namespace prefix is replaced by the base
      directory and the rest of the name maps to sub-directories. */
  function ClassFilePath(namespace: string, dir: string, sep: char, cls: string): string
    requires namespace <= cls
  {
    RTrimSlashes(dir) + "/" + SwapSeparators(cls[|namespace|..], sep) + ".php"
  }

  /** The loader as written: it acts only when the class name starts with the namespace
      (`strpos(..) === 0`, which holds for an empty namespace too), and returns true only when
      the file at the as-written path exists; in every other case it returns nothing. */
  function Loader(namespace: string, dir: string, sep: char, fileExists: string -> bool, cls: string): (r: Option<bool>)
    ensures r != Some(false)
    ensures r == Some(true) <==> namespace <= cls && fileExists(ClassFilePathAsWritten(namespace, dir, sep, cls))
    ensures !(namespace <= cls) ==> r == None
  {
    if namespace <= cls && fileExists(ClassFilePathAsWritten(namespace, dir, sep, cls)) then Some(true) else None
  }

  /** The loader as section 3 of PSR-4 intends: the same decision over the prefix-replacing path. */
  function LoaderFixed(namespace: string, dir: string, sep: char, fileExists: string -> bool, cls: string): (r: Option<bool>)
    ensures r != Some(false)
    ensures r == Some(true) <==> namespace <= cls && fileExists(ClassFilePath(namespace, dir, sep, cls))
    ensures !(namespace <= cls) ==> r == None
  {
    if namespace <= cls && fileExists(ClassFilePath(namespace, dir, sep, cls)) then Some(true) else None
  }

  /** Both paths are the trimmed directory, one "/", a mapped relative name and ".php"; the
      trimmed directory ends in neither "/" nor "\\". As written, the relative name is the class
      name with every occurrence of the namespace removed; as intended, the rest after the prefix. */
  lemma ClassFilePathShape(namespace: string, dir: string, sep: char, cls: string)
    ensures var p := ClassFilePathAsWritten(namespace, dir, sep, cls);
      && |p| >= 5 && p[|p| - 4..] == ".php"
      && p[..|RTrimSlashes(dir)|] == RTrimSlashes(dir)
      && p[|RTrimSlashes(dir)|] == '/'
      && (|RTrimSlashes(dir)| == 0 || !IsSlash(p[|RTrimSlashes(dir)| - 1]))
      && p[|RTrimSlashes(dir)| + 1..|p| - 4] == SwapSeparators(StrReplace(namespace, "", cls), sep)
    ensures namespace <= cls ==>
      var p := ClassFilePath(namespace, dir, sep, cls);
      && |p| >= 5 && p[|p| - 4..] == ".php"
      && p[..|RTrimSlashes(dir)|] == RTrimSlashes(dir)
      && p[|RTrimSlashes(dir)|] == '/'
      && (|RTrimSlashes(dir)| == 0 || !IsSlash(p[|RTrimSlashes(dir)| - 1]))
      && p[|RTrimSlashes(dir)| + 1..|p| - 4] == SwapSeparators(cls[|namespace|..], sep)
  {
  }

  /** Trailing separators on the base directory do not matter, for either path. */
  lemma TrailingSlashesIgnored(namespace: string, dir: string, sep: char, cls: string, extra: string)
    requires forall i :: 0 <= i < |extra| ==> IsSlash(extra[i])
    ensures ClassFilePathAsWritten(namespace, dir + extra, sep, cls) == ClassFilePathAsWritten(namespace, dir, sep, cls)
    ensures namespace <= cls ==> ClassFilePath(namespace, dir + extra, sep, cls) == ClassFilePath(namespace, dir, sep, cls)
  {
    TrimIgnoresTrailingSlashes(dir, extra);
  }

  lemma {:induction false} TrimIgnoresTrailingSlashes(dir: string, extra: string)
    requires forall i :: 0 <= i < |extra| ==> IsSlash(extra[i])
    ensures RTrimSlashes(dir + extra) == RTrimSlashes(dir)
  {
    if |extra| > 0 {
      var init := extra[..|extra| - 1];
      assert (dir + extra)[..|dir + extra| - 1] == dir + init;
      TrimIgnoresTrailingSlashes(dir, init);
    } else {
      assert dir + extra == dir;
    }
  }

  lemma {:induction false} SwapSeparatorsInjective(a: string, b: string, sep: char)
    requires sep == '\\' || (sep !in a && sep !in b)
    requires SwapSeparators(a, sep) == SwapSeparators(b, sep)
    ensures a == b
  {
    var ra, rb := SwapSeparators(a, sep), SwapSeparators(b, sep);
    forall i | 0 <= i < |a| ensures a[i] == b[i] {
      assert ra[i] == rb[i];
      if sep != '\\' {
        assert a[i] != sep && b[i] != sep;
      }
    }
  }

  /** Two classes under the namespace never share a file: the mapping is one-to-one as long as
      class names do not already contain the directory separator. */
  lemma ClassFilePathInjective(namespace: string, dir: string, sep: char, c1: string, c2: string)
    requires namespace <= c1 && namespace <= c2
    requires sep == '\\' || (sep !in c1 && sep !in c2)
    requires ClassFilePath(namespace, dir, sep, c1) == ClassFilePath(namespace, dir, sep, c2)
    ensures c1 == c2
  {
    var d := RTrimSlashes(dir) + "/";
    var r1, r2 := SwapSeparators(c1[|namespace|..], sep), SwapSeparators(c2[|namespace|..], sep);
    var p1, p2 := d + r1 + ".php", d + r2 + ".php";
    assert p1[|d|..|p1| - 4] == r1;
    assert p2[|d|..|p2| - 4] == r2;
    if sep != '\\' {
      assert forall i :: 0 <= i < |c1[|namespace|..]| ==> c1[|namespace|..][i] == c1[|namespace| + i];
      assert forall i :: 0 <= i < |c2[|namespace|..]| ==> c2[|namespace|..][i] == c2[|namespace| + i];
    }
    SwapSeparatorsInjective(c1[|namespace|..], c2[|namespace|..], sep);
    assert c1 == namespace + c1[|namespace|..];
    assert c2 == namespace + c2[|namespace|..];
  }

  /** `search` occurs in `subject` starting at position i. */
  predicate OccursAt(search: string, subject: string, i: nat) {
    i + |search| <= |subject| && subject[i..i + |search|] == search
  }

  /** `str_replace` with an empty replacement leaves a subject without an occurrence unchanged. */
  lemma {:induction false} StrReplaceAbsent(search: string, subject: string)
    requires |search| > 0
    requires forall i: nat :: !OccursAt(search, subject, i)
    ensures StrReplace(search, "", subject) == subject
    decreases |subject|
  {
    if |search| <= |subject| {
      assert !OccursAt(search, subject, 0);
      var rest := subject[1..];
      forall i: nat ensures !OccursAt(search, rest, i) {
        assert !OccursAt(search, subject, i + 1);
        if i + |search| <= |rest| {
          assert rest[i..i + |search|] == subject[i + 1..i + 1 + |search|];
        }
      }
      StrReplaceAbsent(search, rest);
      assert subject == [subject[0]] + rest;
    }
  }

  /** A class name in which the namespace occurs only as the prefix maps the same way as
      written and as intended. */
  lemma AsWrittenAgreesWithoutRepeat(namespace: string, dir: string, sep: char, fileExists: string -> bool, cls: string)
    requires |namespace| > 0 && namespace <= cls
    requires forall i: nat :: !OccursAt(namespace, cls[|namespace|..], i)
    ensures ClassFilePathAsWritten(namespace, dir, sep, cls) == ClassFilePath(namespace, dir, sep, cls)
    ensures Loader(namespace, dir, sep, fileExists, cls) == LoaderFixed(namespace, dir, sep, fileExists, cls)
  {
    assert cls[..|namespace|] == namespace;
    StrReplaceMatch(namespace, cls);
    StrReplaceAbsent(namespace, cls[|namespace|..]);
  }

  lemma StrReplaceShort(search: string, subject: string)
    requires |subject| < |search|
    ensures StrReplace(search, "", subject) == subject
  {
  }

  lemma StrReplaceMatch(search: string, subject: string)
    requires 0 < |search| <= |subject| && subject[..|search|] == search
    ensures StrReplace(search, "", subject) == StrReplace(search, "", subject[|search|..])
  {
  }

  lemma StrReplaceSkip(search: string, subject: string)
    requires 0 < |search| <= |subject| && subject[..|search|] != search
    ensures StrReplace(search, "", subject) == [subject[0]] + StrReplace(search, "", subject[1..])
  {
  }

  /** `str_replace` removes an occurrence of the namespace wherever it stands, not only at the
      front: once the scan has passed the text before the first occurrence, that occurrence is
      dropped and the scan carries on over the rest. */
  lemma {:induction false} RemoveEveryNamespaceOccurrence(ns: string, a: string, b: string)
    requires |ns| > 0
    requires forall i: nat :: i < |a| ==> !OccursAt(ns, a + ns + b, i)
    ensures StrReplace(ns, "", a + ns + b) == a + StrReplace(ns, "", b)
    decreases |a|
  {
    var s := a + ns + b;
    if |a| == 0 {
      assert s == ns + b;
      assert s[..|ns|] == ns;
      assert s[|ns|..] == b;
      StrReplaceMatch(ns, s);
    } else {
      assert !OccursAt(ns, s, 0);
      assert s[..|ns|] != ns;
      StrReplaceSkip(ns, s);
      var a' := a[1..];
      assert s[1..] == a' + ns + b;
      forall i: nat | i < |a'| ensures !OccursAt(ns, a' + ns + b, i) {
        assert !OccursAt(ns, s, i + 1);
        if i + |ns| <= |a' + ns + b| {
          assert (a' + ns + b)[i..i + |ns|] == s[i + 1..i + 1 + |ns|];
        }
      }
      RemoveEveryNamespaceOccurrence(ns, a', b);
      assert a == [s[0]] + a';
    }
  }

  /** The two class names of the collision below, step by step. */
  lemma RemoveNamespaceExamples()
    ensures StrReplace("A\\", "", "A\\B\\A\\C") == "B\\C"
    ensures StrReplace("A\\", "", "A\\B\\C") == "B\\C"
  {
    var ns := "A\\";
    StrReplaceShort(ns, "C");
    assert "\\C"[..2][0] != ns[0];
    StrReplaceSkip(ns, "\\C");
    assert "B\\C"[..2][0] != ns[0];
    StrReplaceSkip(ns, "B\\C");
    StrReplaceMatch(ns, "A\\C");
    StrReplaceSkip(ns, "\\A\\C");
    StrReplaceSkip(ns, "B\\A\\C");
    StrReplaceMatch(ns, "A\\B\\A\\C");
    StrReplaceMatch(ns, "A\\B\\C");
  }

  lemma SwapExamples()
    ensures SwapSeparators("B\\C", '/') == "B/C"
    ensures SwapSeparators("B\\A\\C", '/') == "B/A/C"
  {
  }

  lemma TrimExample()
    ensures RTrimSlashes("d") == "d"
  {
  }

  lemma AsWrittenExamples()
    ensures ClassFilePathAsWritten("A\\", "d", '/', "A\\B\\A\\C") == "d/B/C.php"
    ensures ClassFilePathAsWritten("A\\", "d", '/', "A\\B\\C") == "d/B/C.php"
  {
    RemoveNamespaceExamples();
    SwapExamples();
    TrimExample();
  }

  lemma CorrectedExamples()
    ensures ClassFilePath("A\\", "d", '/', "A\\B\\A\\C") == "d/B/A/C.php"
    ensures ClassFilePath("A\\", "d", '/', "A\\B\\C") == "d/B/C.php"
  {
    SwapExamples();
    TrimExample();
    assert "A\\B\\A\\C"[2..] == "B\\A\\C";
    assert "A\\B\\C"[2..] == "B\\C";
  }

  /** As written, `A\B\A\C` and `A\B\C` under namespace `A\` both map to `d/B/C.php`: the
      second `A\` of the first name is removed as well. As intended, they map to different files. */
  lemma AsWrittenCollision()
    ensures ClassFilePathAsWritten("A\\", "d", '/', "A\\B\\A\\C") == "d/B/C.php"
    ensures ClassFilePathAsWritten("A\\", "d", '/', "A\\B\\C") == "d/B/C.php"
    ensures ClassFilePath("A\\", "d", '/', "A\\B\\A\\C") == "d/B/A/C.php"
    ensures ClassFilePath("A\\", "d", '/', "A\\B\\C") == "d/B/C.php"
  {
    AsWrittenExamples();
    CorrectedExamples();
  }

  /** The only file present in the loader counterexample. */
  predicate OnlyShortPath(path: string) {
    path == "d/B/C.php"
  }

  /** As written, the loader for namespace `A\` accepts `A\B\A\C` on the strength of the file
      of `A\B\C`; the intended loader finds no file for it. */
  lemma LoaderAcceptsWrongFile()
    ensures Loader("A\\", "d", '/', OnlyShortPath, "A\\B\\A\\C") == Some(true)
    ensures LoaderFixed("A\\", "d", '/', OnlyShortPath, "A\\B\\A\\C") == None
  {
    AsWrittenCollision();
    assert "A\\" <= "A\\B\\A\\C";
  }
}
