/**
 * SimpleClassnameFilterFromFile: keeps the tests whose class name occurs in the first line of a file, or,
 * when that line is too short, the tests with an annotation matching a regular expression.
 */
module ClassnameFilter {
  import opened Wrappers
  import opened Seqs
  import opened TestModel

  /** Kotlin's `String.contains`: `sub` occurs somewhere in `s`. */
  predicate Contains(s: string, sub: string)
    decreases |s|
  {
    StartsWith(s, sub) || (s != [] && Contains(s[1..], sub))
  }

  /** `sub` occurs in `s` at offset `i`. */
  predicate OccursAt(s: string, sub: string, i: int) {
    0 <= i <= |s| - |sub| && s[i..i + |sub|] == sub
  }

  /** Contains agrees with the textbook definition of a substring: an offset at which `sub` occurs. */
  lemma {:induction false} ContainsIsSubstring(s: string, sub: string)
    ensures Contains(s, sub) <==> exists i :: OccursAt(s, sub, i)
    decreases |s|
  {
    if StartsWith(s, sub) {
      assert OccursAt(s, sub, 0);
    } else if s == [] {
    } else {
      ContainsIsSubstring(s[1..], sub);
      if exists i :: OccursAt(s, sub, i) {
        var i :| OccursAt(s, sub, i);
        assert i != 0;
        assert s[1..][i - 1..i - 1 + |sub|] == s[i..i + |sub|];
        assert OccursAt(s[1..], sub, i - 1);
      }
      if Contains(s[1..], sub) {
        var i :| OccursAt(s[1..], sub, i);
        assert i + 1 + |sub| <= |s|;
        assert s[1..][i..i + |sub|] == s[i + 1..i + 1 + |sub|];
        assert OccursAt(s, sub, i + 1);
      }
    }
  }

  predicate IsLineTerminator(c: char) {
    c == '\n' || c == '\r'
  }

  /** The characters up to the first line terminator. */
  function TakeLine(s: string): (line: string)
    ensures |line| <= |s| && s[..|line|] == line
    ensures forall i :: 0 <= i < |line| ==> !IsLineTerminator(line[i])
    ensures |line| < |s| ==> IsLineTerminator(s[|line|])
  {
    if s == [] || IsLineTerminator(s[0]) then []
    else [s[0]] + TakeLine(s[1..])
  }

  /**
   * The first element of `readLines()`: None when the file has no lines (an empty file), where `get(0)`
   * throws.
   */
  function FirstLine(text: string): (r: Option<string>)
    ensures r.None? <==> text == []
  {
    if text == [] then None else Some(TakeLine(text))
  }

  /** A regular expression; only its matching predicate, given by the caller, is modelled. */
  datatype Regex = Regex(pattern: string)

  datatype FilterError = EmptyFile

  /** The test's class name occurs in `content`. */
  predicate Listed(content: string, t: Test) {
    Contains(content, t.clazz)
  }

  /** The annotation rule: some annotation name of the test matches the regex. */
  predicate AnnotationMatches(regexMatches: string -> bool, t: Test) {
    exists m | m in t.metaProperties :: regexMatches(m.name)
  }

  function ListedIn(content: string): Test -> bool {
    t => Listed(content, t)
  }

  function UnlistedIn(content: string): Test -> bool {
    t => !Listed(content, t)
  }

  function MatchingAnnotation(regexMatches: string -> bool): Test -> bool {
    t => AnnotationMatches(regexMatches, t)
  }

  datatype SimpleClassnameFilterFromFile = SimpleClassnameFilterFromFile(
    fileName: string, regex: Regex, testFileContent: string)
  {

    /**
     * `filter`: with content longer than 5 characters, the tests whose class name occurs in the content;
     * otherwise the tests having an annotation whose name matches the regex (`regexMatches` is
     * `regex::matches`). Either way a subsequence of the input, in input order,
     * keeping every occurrence of a kept test.
     */
    function Filter(tests: seq<Test>, regexMatches: string -> bool): (r: seq<Test>)
      ensures IsSubsequence(r, tests)
      ensures |testFileContent| > 5 ==>
        (forall t | t in tests :: t in r <==> Listed(testFileContent, t))
      ensures |testFileContent| <= 5 ==>
        (forall t | t in tests :: t in r <==> AnnotationMatches(regexMatches, t))
      ensures forall t | t in r :: t in tests && multiset(r)[t] == multiset(tests)[t]
    {
      var p := if |testFileContent| > 5 then ListedIn(testFileContent) else MatchingAnnotation(regexMatches);
      FilterIsSubsequence(tests, p);
      forall t | t in Seqs.Filter(tests, p) ensures multiset(Seqs.Filter(tests, p))[t] == multiset(tests)[t] {
        FilterCount(tests, p, t);
      }
      Seqs.Filter(tests, p)
    }

    /** `filterNot`: whatever the content's length, drops exactly the tests whose class name occurs in it. */
    function FilterNot(tests: seq<Test>): (r: seq<Test>)
      ensures IsSubsequence(r, tests)
      ensures forall t | t in tests :: t in r <==> !Listed(testFileContent, t)
      ensures forall t | t in r :: t in tests && multiset(r)[t] == multiset(tests)[t]
    {
      var p := UnlistedIn(testFileContent);
      FilterIsSubsequence(tests, p);
      forall t | t in Seqs.Filter(tests, p) ensures multiset(Seqs.Filter(tests, p))[t] == multiset(tests)[t] {
        FilterCount(tests, p, t);
      }
      Seqs.Filter(tests, p)
    }
  }

  /** The filter built from a file: its content is the file's first line. */
  function FromFile(fileName: string, regex: Regex, fileText: string): (r: Result<SimpleClassnameFilterFromFile, FilterError>)
    ensures r.Failure? <==> fileText == []
    ensures r.Success? ==> r.value.testFileContent == TakeLine(fileText) && r.value.fileName == fileName
  {
    match FirstLine(fileText)
    case None => Failure(EmptyFile)
    case Some(line) => Success(SimpleClassnameFilterFromFile(fileName, regex, line))
  }

  /** TakeLine stops at the first line terminator. */
  lemma {:induction false} TakeLineStops(line: string, rest: string, terminator: char)
    requires IsLineTerminator(terminator) && forall i :: 0 <= i < |line| ==> !IsLineTerminator(line[i])
    ensures TakeLine(line + [terminator] + rest) == line
    decreases |line|
  {
    var text := line + [terminator] + rest;
    if line != [] {
      assert text[1..] == line[1..] + [terminator] + rest;
      TakeLineStops(line[1..], rest, terminator);
      assert text[0] == line[0];
      assert line == [line[0]] + line[1..];
    }
  }

  /** Only the first line counts: whatever follows the first line terminator does not change the filter. */
  lemma OnlyFirstLineUsed(fileName: string, regex: Regex, line: string, rest: string, terminator: char)
    requires IsLineTerminator(terminator) && forall i :: 0 <= i < |line| ==> !IsLineTerminator(line[i])
    ensures FromFile(fileName, regex, line + [terminator] + rest) == Success(SimpleClassnameFilterFromFile(fileName, regex, line))
  {
    TakeLineStops(line, rest, terminator);
  }

  /**
   * With content longer than 5 characters, `filter` and `filterNot` split the input: together they hold
   * it exactly, and every test lands in exactly one of them.
   */
  lemma LongContentPartitions(f: SimpleClassnameFilterFromFile, tests: seq<Test>, regexMatches: string -> bool)
    requires |f.testFileContent| > 5
    ensures multiset(f.Filter(tests, regexMatches)) + multiset(f.FilterNot(tests)) == multiset(tests)
    ensures forall t | t in tests :: (t in f.Filter(tests, regexMatches)) != (t in f.FilterNot(tests))
  {
    FilterComplement(tests, ListedIn(f.testFileContent), UnlistedIn(f.testFileContent));
  }

  /**
   * With short content the two are not complements: a test whose class occurs in the content but with no
   * matching annotation is in neither, and one with a matching annotation whose class does not occur is
   * in both.
   */
  lemma ShortContentDoesNotPartition(regex: Regex, regexMatches: string -> bool)
    requires regexMatches("Flaky") && !regexMatches("Slow")
    ensures var f := SimpleClassnameFilterFromFile("classes.txt", regex, "Foo");
      var inNeither := Test("p", "Foo", "m", [MetaProperty("Slow")]);
      var inBoth := Test("p", "Bar", "m", [MetaProperty("Flaky")]);
      var tests := [inNeither, inBoth];
      && inNeither !in f.Filter(tests, regexMatches) && inNeither !in f.FilterNot(tests)
      && inBoth in f.Filter(tests, regexMatches) && inBoth in f.FilterNot(tests)
  {
    var inNeither := Test("p", "Foo", "m", [MetaProperty("Slow")]);
    var inBoth := Test("p", "Bar", "m", [MetaProperty("Flaky")]);
    assert StartsWith("Foo", "Foo");
    assert Listed("Foo", inNeither);
    assert !Listed("Foo", inBoth) by {
      assert !Contains("o", "Bar") && !Contains("oo", "Bar");
    }
    assert MetaProperty("Flaky") in inBoth.metaProperties;
    assert AnnotationMatches(regexMatches, inBoth);
    assert !AnnotationMatches(regexMatches, inNeither);
  }
}
